/**
 The map presenter: one circular marker per scored zone, placed at the zone's
 coordinates and coloured by its risk tier, with a hover label naming the
 zone, the tier and the score.
 */
module Presenter {
  import opened Scorer

  /** Marker colours. */
  datatype Colour = Green | Orange | Red

  /** What the hover label shows: zone, tier label and score. */
  datatype Tooltip = Tooltip(zone: string, riskLevel: string, stressScore: real)

  /** A circle marker on the map. */
  datatype Marker = Marker(lat: real, lon: real, colour: Colour, tooltip: Tooltip)

  /** The colour chosen for a row's `risk_level` label: "Low" is green,
      "Medium" is orange, and every other label is red. */
  function MarkerColour(riskLevel: string): (c: Colour)
    ensures c == Green <==> riskLevel == Low.Label()
    ensures c == Orange <==> riskLevel == Medium.Label()
    ensures c == Red <==> riskLevel != Low.Label() && riskLevel != Medium.Label()
  {
    if riskLevel == "Low" then Green
    else if riskLevel == "Medium" then Orange
    else Red
  }

  /** Over the three tiers the colour map is Low to green, Medium to orange,
      High to red, and no two tiers share a colour. */
  lemma TierColours()
    ensures MarkerColour(Low.Label()) == Green
    ensures MarkerColour(Medium.Label()) == Orange
    ensures MarkerColour(High.Label()) == Red
    ensures forall l1: RiskLevel, l2: RiskLevel ::
      MarkerColour(l1.Label()) == MarkerColour(l2.Label()) ==> l1 == l2
  {
  }

  /** The marker loop: walks the rows in order and adds one marker per row. */
  method MakeMap(df: seq<ZoneRecord>) returns (markers: seq<Marker>)
    ensures |markers| == |df|
    ensures forall i :: 0 <= i < |df| ==>
      && markers[i].lat == df[i].lat && markers[i].lon == df[i].lon
      && markers[i].colour == MarkerColour(df[i].riskLevel.Label())
      && markers[i].tooltip == Tooltip(df[i].zone, df[i].riskLevel.Label(), df[i].stressScore)
  {
    markers := [];
    for i := 0 to |df|
      invariant |markers| == i
      invariant forall k :: 0 <= k < i ==>
        && markers[k].lat == df[k].lat && markers[k].lon == df[k].lon
        && markers[k].colour == MarkerColour(df[k].riskLevel.Label())
        && markers[k].tooltip == Tooltip(df[k].zone, df[k].riskLevel.Label(), df[k].stressScore)
    {
      var row := df[i];
      var colour := MarkerColour(row.riskLevel.Label());
      markers := markers + [Marker(row.lat, row.lon, colour, Tooltip(row.zone, row.riskLevel.Label(), row.stressScore))];
    }
  }

  /** End to end: on the loaded table, a row's marker is green exactly when
      its score is at most 50, orange exactly when it lies in (50, 100], and
      red exactly when it exceeds 100. */
  lemma LoadedMarkerColours(air: seq<AirQualityRow>, noise: seq<NoiseRow>, green: seq<GreenRow>, r: ZoneRecord)
    requires r in LoadData(air, noise, green)
    ensures MarkerColour(r.riskLevel.Label()) == Green <==> r.stressScore <= 50.0
    ensures MarkerColour(r.riskLevel.Label()) == Orange <==> 50.0 < r.stressScore <= 100.0
    ensures MarkerColour(r.riskLevel.Label()) == Red <==> 100.0 < r.stressScore
  {
    TierColours();
  }
}
