/**
 The scoring pipeline of the stress-zone map: join the air-quality, noise and
 green tables on `zone`, compute a weighted stress score per joined row, and
 cut the score into the risk tiers Low, Medium and High.
 */
module Scorer {
  import opened Frames
  import opened Binning

  /** A risk tier, in increasing order of severity. */
  datatype RiskLevel = Low | Medium | High
  {
    /** The text label the tier carries in the table. */
    function Label(): string
    {
      match this
      case Low => "Low"
      case Medium => "Medium"
      case High => "High"
    }

    /** Position of the tier in the ordered list of labels. */
    function Rank(): nat
    {
      match this
      case Low => 0
      case Medium => 1
      case High => 2
    }
  }

  /** A row of the air-quality table (columns other than these are not modelled). */
  datatype AirQualityRow = AirQualityRow(zone: string, aqi: real, lat: real, lon: real)

  /** A row of the noise table, projected onto `zone` and `noise_db`. */
  datatype NoiseRow = NoiseRow(zone: string, noiseDb: real)

  /** A row of the green table, projected onto `zone` and `ndvi`. */
  datatype GreenRow = GreenRow(zone: string, ndvi: real)

  /** A row after the merge with the noise table. */
  datatype AirNoiseRow = AirNoiseRow(zone: string, aqi: real, lat: real, lon: real, noiseDb: real)

  /** A row after both merges, before scoring. */
  datatype MergedRow = MergedRow(zone: string, aqi: real, lat: real, lon: real, noiseDb: real, ndvi: real)

  /** A row of the table the pipeline returns. */
  datatype ZoneRecord = ZoneRecord(
    zone: string, aqi: real, lat: real, lon: real, noiseDb: real, ndvi: real,
    stressScore: real, riskLevel: RiskLevel)

  /** The finite bin edges; the outer edges are -infinity and +infinity. */
  const Edges: seq<real> := [50.0, 100.0]

  /** One label per bin, in bin order. */
  const Levels: seq<RiskLevel> := [Low, Medium, High]

  /** The tier of a stress score: bins (-inf, 50], (50, 100], (100, +inf). */
  function Classify(score: real): (level: RiskLevel)
    ensures level == Low <==> score <= 50.0
    ensures level == Medium <==> 50.0 < score <= 100.0
    ensures level == High <==> 100.0 < score
    ensures level.Rank() == SearchSorted(Edges, score)
  {
    Cut(score, Edges, Levels)
  }

  /** The weighted stress score of one zone's readings. */
  function StressScore(aqi: real, noiseDb: real, ndvi: real): real
  {
    0.5 * aqi + 0.3 * noiseDb - 0.2 * ndvi
  }

  function AirZone(a: AirQualityRow): string { a.zone }
  function NoiseZone(n: NoiseRow): string { n.zone }
  function GreenZone(g: GreenRow): string { g.zone }
  function AirNoiseZone(r: AirNoiseRow): string { r.zone }

  /** Joins a noise row onto an air-quality row. */
  function AddNoise(a: AirQualityRow, n: NoiseRow): AirNoiseRow
  {
    AirNoiseRow(a.zone, a.aqi, a.lat, a.lon, n.noiseDb)
  }

  /** Joins a green row onto a row of the first merge. */
  function AddGreen(r: AirNoiseRow, g: GreenRow): MergedRow
  {
    MergedRow(r.zone, r.aqi, r.lat, r.lon, r.noiseDb, g.ndvi)
  }

  /** Adds the `stress_score` and `risk_level` columns to a merged row. */
  function AddScore(r: MergedRow): ZoneRecord
  {
    var score := StressScore(r.aqi, r.noiseDb, r.ndvi);
    ZoneRecord(r.zone, r.aqi, r.lat, r.lon, r.noiseDb, r.ndvi, score, Classify(score))
  }

  /** The load step: two inner merges on `zone`, then the two derived columns. */
  function LoadData(air: seq<AirQualityRow>, noise: seq<NoiseRow>, green: seq<GreenRow>): (df: seq<ZoneRecord>)
    ensures forall r :: r in df ==>
      && r.stressScore == StressScore(r.aqi, r.noiseDb, r.ndvi)
      && r.riskLevel == Classify(r.stressScore)
  {
    var withNoise := InnerMerge(air, noise, AirZone, NoiseZone, AddNoise);
    var merged := InnerMerge(withNoise, green, AirNoiseZone, GreenZone, AddGreen);
    ScoreRows(merged)
  }

  /** The two derived columns, computed row by row: row `i` keeps the columns
      of merged row `i` and gains the weighted score and its tier. */
  function ScoreRows(rows: seq<MergedRow>): (df: seq<ZoneRecord>)
    ensures |df| == |rows|
    ensures forall i :: 0 <= i < |rows| ==>
      && df[i].zone == rows[i].zone && df[i].aqi == rows[i].aqi
      && df[i].lat == rows[i].lat && df[i].lon == rows[i].lon
      && df[i].noiseDb == rows[i].noiseDb && df[i].ndvi == rows[i].ndvi
      && df[i].stressScore == StressScore(rows[i].aqi, rows[i].noiseDb, rows[i].ndvi)
      && df[i].riskLevel == Classify(df[i].stressScore)
  {
    seq(|rows|, i requires 0 <= i < |rows| => AddScore(rows[i]))
  }

  /** The record expected for one air-quality row and its noise and green
      partners: the air-quality columns unchanged, the partners' readings, the
      weighted score and its tier. */
  function Expected(a: AirQualityRow, n: NoiseRow, g: GreenRow): ZoneRecord
  {
    var score := StressScore(a.aqi, n.noiseDb, g.ndvi);
    ZoneRecord(a.zone, a.aqi, a.lat, a.lon, n.noiseDb, g.ndvi, score, Classify(score))
  }

  /** Every output record comes from an air-quality row, a noise row and a
      green row that share its zone. */
  lemma LoadDataSound(air: seq<AirQualityRow>, noise: seq<NoiseRow>, green: seq<GreenRow>, idx: nat)
    requires idx < |LoadData(air, noise, green)|
    ensures exists i, j, k ::
      && 0 <= i < |air| && 0 <= j < |noise| && 0 <= k < |green|
      && air[i].zone == noise[j].zone && noise[j].zone == green[k].zone
      && LoadData(air, noise, green)[idx] == Expected(air[i], noise[j], green[k])
  {
    var withNoise := InnerMerge(air, noise, AirZone, NoiseZone, AddNoise);
    var merged := InnerMerge(withNoise, green, AirNoiseZone, GreenZone, AddGreen);
    assert LoadData(air, noise, green) == ScoreRows(merged);
    assert merged[idx] in merged;
    var i2, k :| 0 <= i2 < |withNoise| && 0 <= k < |green|
      && AirNoiseZone(withNoise[i2]) == GreenZone(green[k])
      && merged[idx] == AddGreen(withNoise[i2], green[k]);
    assert withNoise[i2] in withNoise;
    var i, j :| 0 <= i < |air| && 0 <= j < |noise|
      && AirZone(air[i]) == NoiseZone(noise[j])
      && withNoise[i2] == AddNoise(air[i], noise[j]);
    assert LoadData(air, noise, green)[idx] == Expected(air[i], noise[j], green[k]);
  }

  /** Every air-quality row, noise row and green row that share a zone give
      their record in the output. */
  lemma LoadDataComplete(air: seq<AirQualityRow>, noise: seq<NoiseRow>, green: seq<GreenRow>, i: nat, j: nat, k: nat)
    requires i < |air| && j < |noise| && k < |green|
    requires air[i].zone == noise[j].zone && noise[j].zone == green[k].zone
    ensures Expected(air[i], noise[j], green[k]) in LoadData(air, noise, green)
  {
    var withNoise := InnerMerge(air, noise, AirZone, NoiseZone, AddNoise);
    var merged := InnerMerge(withNoise, green, AirNoiseZone, GreenZone, AddGreen);
    var an := AddNoise(air[i], noise[j]);
    assert AirZone(air[i]) == NoiseZone(noise[j]);
    assert an in withNoise;
    var i2 :| 0 <= i2 < |withNoise| && withNoise[i2] == an;
    assert AirNoiseZone(withNoise[i2]) == GreenZone(green[k]);
    var m := AddGreen(an, green[k]);
    assert m in merged;
    var idx :| 0 <= idx < |merged| && merged[idx] == m;
    assert LoadData(air, noise, green)[idx] == Expected(air[i], noise[j], green[k]);
  }

  /** The zones of a table. */
  ghost function Zones<T>(rows: seq<T>, zone: T -> string): set<string>
  {
    set i | 0 <= i < |rows| :: zone(rows[i])
  }

  function RecordZone(r: ZoneRecord): string { r.zone }

  /** Every zone of the output is in all three tables. */
  lemma LoadDataZonesSound(air: seq<AirQualityRow>, noise: seq<NoiseRow>, green: seq<GreenRow>, z: string)
    requires z in Zones(LoadData(air, noise, green), RecordZone)
    ensures z in Zones(air, AirZone) && z in Zones(noise, NoiseZone) && z in Zones(green, GreenZone)
  {
    var df := LoadData(air, noise, green);
    var idx :| 0 <= idx < |df| && RecordZone(df[idx]) == z;
    LoadDataSound(air, noise, green, idx);
    var i, j, k :|
      && 0 <= i < |air| && 0 <= j < |noise| && 0 <= k < |green|
      && air[i].zone == noise[j].zone && noise[j].zone == green[k].zone
      && df[idx] == Expected(air[i], noise[j], green[k]);
    assert AirZone(air[i]) == z && NoiseZone(noise[j]) == z && GreenZone(green[k]) == z;
  }

  /** Every zone present in all three tables is in the output. */
  lemma LoadDataZonesComplete(air: seq<AirQualityRow>, noise: seq<NoiseRow>, green: seq<GreenRow>, z: string)
    requires z in Zones(air, AirZone) && z in Zones(noise, NoiseZone) && z in Zones(green, GreenZone)
    ensures z in Zones(LoadData(air, noise, green), RecordZone)
  {
    var i :| 0 <= i < |air| && AirZone(air[i]) == z;
    var j :| 0 <= j < |noise| && NoiseZone(noise[j]) == z;
    var k :| 0 <= k < |green| && GreenZone(green[k]) == z;
    LoadDataComplete(air, noise, green, i, j, k);
    var df := LoadData(air, noise, green);
    var idx :| 0 <= idx < |df| && df[idx] == Expected(air[i], noise[j], green[k]);
    assert RecordZone(df[idx]) == z;
  }

  /** The zones in the output are exactly the zones present in all three
      tables. */
  lemma LoadDataZones(air: seq<AirQualityRow>, noise: seq<NoiseRow>, green: seq<GreenRow>)
    ensures Zones(LoadData(air, noise, green), RecordZone)
         == Zones(air, AirZone) * Zones(noise, NoiseZone) * Zones(green, GreenZone)
  {
    forall z | z in Zones(LoadData(air, noise, green), RecordZone)
      ensures z in Zones(air, AirZone) * Zones(noise, NoiseZone) * Zones(green, GreenZone)
    {
      LoadDataZonesSound(air, noise, green, z);
    }
    forall z | z in Zones(air, AirZone) * Zones(noise, NoiseZone) * Zones(green, GreenZone)
      ensures z in Zones(LoadData(air, noise, green), RecordZone)
    {
      LoadDataZonesComplete(air, noise, green, z);
    }
  }

  /** The output follows the order of the air-quality table: loading a
      concatenation of air-quality rows is concatenating the two loads. */
  lemma LoadDataAppend(air1: seq<AirQualityRow>, air2: seq<AirQualityRow>, noise: seq<NoiseRow>, green: seq<GreenRow>)
    ensures LoadData(air1 + air2, noise, green) == LoadData(air1, noise, green) + LoadData(air2, noise, green)
  {
    InnerMergeAppend(air1, air2, noise, AirZone, NoiseZone, AddNoise);
    var w1 := InnerMerge(air1, noise, AirZone, NoiseZone, AddNoise);
    var w2 := InnerMerge(air2, noise, AirZone, NoiseZone, AddNoise);
    InnerMergeAppend(w1, w2, green, AirNoiseZone, GreenZone, AddGreen);
    var m1 := InnerMerge(w1, green, AirNoiseZone, GreenZone, AddGreen);
    var m2 := InnerMerge(w2, green, AirNoiseZone, GreenZone, AddGreen);
    assert LoadData(air1 + air2, noise, green) == ScoreRows(m1 + m2);
    assert ScoreRows(m1 + m2) == ScoreRows(m1) + ScoreRows(m2) by {
      var a, b, c := ScoreRows(m1 + m2), ScoreRows(m1), ScoreRows(m2);
      assert forall n :: 0 <= n < |a| ==> a[n] == AddScore((m1 + m2)[n]);
      assert forall n :: 0 <= n < |a| ==> a[n] == (b + c)[n];
    }
  }

  /** With one row per zone in the noise and green tables, an air-quality row
      whose zone is in both yields exactly its expected record. */
  lemma LoadDataKeepsMatchedRow(a: AirQualityRow, noise: seq<NoiseRow>, green: seq<GreenRow>, j: nat, k: nat)
    requires UniqueKeys(noise, NoiseZone) && UniqueKeys(green, GreenZone)
    requires j < |noise| && noise[j].zone == a.zone
    requires k < |green| && green[k].zone == a.zone
    ensures LoadData([a], noise, green) == [Expected(a, noise[j], green[k])]
  {
    MatchesUnique(a, a.zone, noise, NoiseZone, AddNoise, j);
    var an := AddNoise(a, noise[j]);
    assert [a][1..] == [];
    assert InnerMerge([a], noise, AirZone, NoiseZone, AddNoise)
        == Matches(a, a.zone, noise, NoiseZone, AddNoise) + InnerMerge([], noise, AirZone, NoiseZone, AddNoise);
    assert InnerMerge([a], noise, AirZone, NoiseZone, AddNoise) == [an];
    MatchesUnique(an, an.zone, green, GreenZone, AddGreen, k);
    var m := AddGreen(an, green[k]);
    assert [an][1..] == [];
    assert InnerMerge([an], green, AirNoiseZone, GreenZone, AddGreen)
        == Matches(an, an.zone, green, GreenZone, AddGreen) + InnerMerge([], green, AirNoiseZone, GreenZone, AddGreen);
    assert InnerMerge([an], green, AirNoiseZone, GreenZone, AddGreen) == [m];
    assert LoadData([a], noise, green) == ScoreRows([m]);
    assert ScoreRows([m])[0] == Expected(a, noise[j], green[k]);
  }

  /** An air-quality row whose zone is missing from the noise or the green
      table yields nothing. */
  lemma LoadDataDropsUnmatchedRow(a: AirQualityRow, noise: seq<NoiseRow>, green: seq<GreenRow>)
    requires (forall j :: 0 <= j < |noise| ==> noise[j].zone != a.zone)
          || (forall k :: 0 <= k < |green| ==> green[k].zone != a.zone)
    ensures LoadData([a], noise, green) == []
  {
    var withNoise := InnerMerge([a], noise, AirZone, NoiseZone, AddNoise);
    if forall j :: 0 <= j < |noise| ==> noise[j].zone != a.zone {
      InnerMergeNone([a], noise, AirZone, NoiseZone, AddNoise);
    } else {
      forall i | 0 <= i < |withNoise|
        ensures withNoise[i].zone == a.zone
      {
        assert withNoise[i] in withNoise;
      }
    }
    InnerMergeNone(withNoise, green, AirNoiseZone, GreenZone, AddGreen);
  }

  /** The tier never goes down as the score goes up. */
  lemma ClassifyMonotone(s1: real, s2: real)
    requires s1 <= s2
    ensures Classify(s1).Rank() <= Classify(s2).Rank()
  {
    SearchSortedMonotone(Edges, s1, s2);
  }

  /** The boundary scores: 50 is Low, just above 50 is Medium, 100 is Medium,
      just above 100 is High. */
  lemma ClassifyBoundaries()
    ensures Classify(50.0) == Low && Classify(50.0001) == Medium
    ensures Classify(100.0) == Medium && Classify(100.0001) == High
  {
  }

  /** Worse air, more noise and less vegetation never give a lower tier. */
  lemma WorseReadingsNoLowerTier(a1: AirQualityRow, n1: NoiseRow, g1: GreenRow, a2: AirQualityRow, n2: NoiseRow, g2: GreenRow)
    requires a1.aqi <= a2.aqi && n1.noiseDb <= n2.noiseDb && g2.ndvi <= g1.ndvi
    ensures Expected(a1, n1, g1).stressScore <= Expected(a2, n2, g2).stressScore
    ensures Expected(a1, n1, g1).riskLevel.Rank() <= Expected(a2, n2, g2).riskLevel.Rank()
  {
    ClassifyMonotone(Expected(a1, n1, g1).stressScore, Expected(a2, n2, g2).stressScore);
  }

  /** Three zones in the air-quality and green tables, two in the noise
      table: the third zone is dropped. */
  lemma ZoneMissingFromNoiseIsDropped(air: seq<AirQualityRow>, noise: seq<NoiseRow>, green: seq<GreenRow>)
    requires air == [AirQualityRow("Z1", 80.0, 17.4, 78.4), AirQualityRow("Z2", 150.0, 17.5, 78.5), AirQualityRow("Z3", 60.0, 17.3, 78.3)]
    requires noise == [NoiseRow("Z1", 60.0), NoiseRow("Z2", 75.0)]
    requires green == [GreenRow("Z1", 0.4), GreenRow("Z2", 0.2), GreenRow("Z3", 0.6)]
    ensures Zones(LoadData(air, noise, green), RecordZone) == {"Z1", "Z2"}
  {
    LoadDataZones(air, noise, green);
    assert AirZone(air[0]) == "Z1" && AirZone(air[1]) == "Z2";
    assert GreenZone(green[0]) == "Z1" && GreenZone(green[1]) == "Z2";
    assert NoiseZone(noise[0]) == "Z1" && NoiseZone(noise[1]) == "Z2";
    assert Zones(noise, NoiseZone) == {"Z1", "Z2"};
    assert "Z1" in Zones(air, AirZone) && "Z2" in Zones(air, AirZone);
    assert "Z1" in Zones(green, GreenZone) && "Z2" in Zones(green, GreenZone);
  }
}
