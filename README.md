# Stress-zone scoring, modelled in Dafny

This project models the scoring core of the Hyderabad stress-zone map
(`mental_stress.py`). `load_data` joins three zone-keyed tables:

- air quality (`zone`, `aqi`, `lat`, `lon`)
- noise (`zone`, `noise_db`)
- green cover (`zone`, `ndvi`)

It then computes `stress_score = 0.5*aqi + 0.3*noise_db - 0.2*ndvi` for each
joined row. Finally it cuts the score into the tiers Low, Medium and High with
the bins `[-inf, 50, 100, inf]`, closed on the right. `make_map` turns each
resulting row into one circle marker at `(lat, lon)`: green for Low, orange for
Medium and red for anything else.

Files and modules:

- `tables.dfy`: module `Frames` (inner merge on one key column, in left-row
  order, then right-row order within each left row) and module `Binning`
  (left-side sorted search and the labelled cut built on it).
- `scorer.dfy`: module `Scorer`, the row types, `Classify` and `LoadData`, and
  the lemmas about the join, the score and the tiers.
- `presenter.dfy`: module `Presenter`, the colour choice, the marker loop
  `MakeMap` and the end-to-end colour lemma.

Tables are sequences of typed rows. Scores are `real`.

Two behaviours of the code are worth stating outright:

- Loading never raises on unmatched keys: a zone missing from the noise or the
  green table is dropped, and an empty join gives an empty table. `LoadData`
  does the same.
- The colour choice tests the label text: every label other than `Low` and
  `Medium` is red. `MarkerColour` works on the label text, and `TierColours`
  proves the three-way mapping over the tiers.

## Model

| member | source | states |
|---|---|---|
| `Frames.Matches` | mental_stress.py:14-15 | the rows joined to one left row are exactly the right rows with an equal key, one output row per matching right row: each row occurs as many times as there are matching right rows that join to it, and the length is the number of right rows with that key |
| `Frames.InnerMerge` | mental_stress.py:14-15 | inner-merge membership in both directions: an output row exists iff it joins some left row and some right row with equal keys; each row occurs as many times as there are key-equal (left, right) pairs that join to it, and the length is the number of such pairs, so repeated zones multiply |
| `Frames.InnerMergeAppend` | mental_stress.py:14-15 | the merge keeps left-table order: merging `l1 + l2` gives the merge of `l1` followed by the merge of `l2` |
| `Frames.MatchesNone` | mental_stress.py:14-15 | a left row whose key is absent from the right table yields no rows |
| `Frames.InnerMergeNone` | mental_stress.py:14-15 | if no left key equals any right key, the merge is empty |
| `Frames.MatchesUnique` | mental_stress.py:14-15 | with unique right keys, a left row whose key occurs at position `j` yields exactly the one row joined with `right[j]` |
| `Binning.SearchSorted` | mental_stress.py:19-23 | the bin index is the first edge position `i` with `x <= edges[i]`: every earlier edge is strictly below `x` |
| `Binning.SearchSortedBin` | mental_stress.py:19-23 | over ascending edges, `x` lands in bin `i` iff `edges[i-1] < x <= edges[i]` (right-closed bins, open outer ends) |
| `Binning.SearchSortedMonotone` | mental_stress.py:21 | a larger value never lands in an earlier bin |
| `Binning.Cut` | mental_stress.py:19-23 | over ascending edges, the result is the label of the bin `(edges[i-1], edges[i]]` that holds `x` |
| `Scorer.Classify` | mental_stress.py:19-23 | Low iff score <= 50; Medium iff 50 < score <= 100; High iff score > 100; the tier's rank is the bin index over the edges 50 and 100 |
| `Scorer.LoadData` | mental_stress.py:6-24 | every output row has `stress_score = 0.5*aqi + 0.3*noise_db - 0.2*ndvi` and `risk_level` equal to the tier of that score |
| `Scorer.ScoreRows` | mental_stress.py:17-23 | one output row per merged row, in order; each keeps its columns and gains `stress_score = 0.5*aqi + 0.3*noise_db - 0.2*ndvi` and the tier of that score |
| `Scorer.LoadDataSound` | mental_stress.py:14-17 | every output row is the expected record of some air-quality, noise and green rows that share one zone: the air-quality columns unchanged, the partners' readings added, plus the score and the tier |
| `Scorer.LoadDataComplete` | mental_stress.py:14-17 | every air-quality, noise and green triple that shares a zone has its expected record in the output |
| `Scorer.LoadDataZonesSound` | mental_stress.py:14-15 | a zone in the output is present in all three tables |
| `Scorer.LoadDataZonesComplete` | mental_stress.py:14-15 | a zone present in all three tables is in the output |
| `Scorer.LoadDataZones` | mental_stress.py:14-15 | the set of output zones equals the intersection of the three tables' zone sets |
| `Scorer.LoadDataAppend` | mental_stress.py:14-15 | output rows follow air-quality row order: loading `air1 + air2` gives the load of `air1` followed by the load of `air2` |
| `Scorer.LoadDataKeepsMatchedRow` | mental_stress.py:14-17 | with one row per zone in the noise and green tables, an air-quality row present in both yields exactly its expected record |
| `Scorer.LoadDataDropsUnmatchedRow` | mental_stress.py:14-15 | an air-quality row whose zone is missing from the noise or the green table yields nothing |
| `Scorer.ClassifyMonotone` | mental_stress.py:21 | a score no greater than another never gets a higher tier |
| `Scorer.ClassifyBoundaries` | mental_stress.py:19-23 | 50 is Low, 50.0001 is Medium, 100 is Medium, 100.0001 is High |
| `Scorer.WorseReadingsNoLowerTier` | mental_stress.py:17-23 | higher aqi, higher noise and lower ndvi never lower the score or the tier |
| `Scorer.ZoneMissingFromNoiseIsDropped` | mental_stress.py:14-15 | Z1, Z2 and Z3 appear in the air-quality and green tables but only Z1 and Z2 appear in the noise table, so the output zones are exactly {Z1, Z2} |
| `Presenter.MarkerColour` | mental_stress.py:31-34 | green iff the label is Low's, orange iff it is Medium's, red iff it is neither |
| `Presenter.TierColours` | mental_stress.py:31-34 | Low is green, Medium is orange, High is red, and no two tiers share a colour |
| `Presenter.MakeMap` | mental_stress.py:30-41 | one marker per row, in row order; each marker sits at its row's (lat, lon), takes its row's tier colour and carries its row's zone, tier label and score as the hover label |
| `Presenter.LoadedMarkerColours` | mental_stress.py:17-34 | for a loaded row, the marker is green iff score <= 50, orange iff 50 < score <= 100 and red iff score > 100 |

## Left out

- Reading the three CSV files (`pd.read_csv`) and printing the tables under `__main__`: these are I/O. The tables are parameters of `LoadData`.
- The folium map object: its centre, zoom, marker radius, fill, `add_to` and `m.save` are a foreign rendering library and file output. `MakeMap` returns the marker sequence that would be added.
- The tooltip's `:.1f` number formatting: the hover label is kept as its three parts (zone, tier label, score), not as formatted text.
- Floating-point arithmetic: scores are exact `real`s, so IEEE rounding of `0.5*aqi + 0.3*noise_db - 0.2*ndvi` is not modelled.
- NaN and missing values: typed `real` fields have none. So a NaN score, which gets no tier and a red marker, is not modelled. Infinite scores are not modelled either.
- Extra columns of the air-quality table, which the merge carries through, and column-name clashes: rows are typed with only the columns the pipeline uses. In the program, an air-quality table that already has a `noise_db` or `ndvi` column gets both copies renamed with `_x`/`_y` suffixes, and the score line (mental_stress.py:17) then fails on the missing column. An existing `stress_score` or `risk_level` column is silently overwritten (mental_stress.py:17, 19).
- Missing-column errors: typed rows always have every column, so the failure when `zone`, `aqi`, `noise_db`, `ndvi`, `lat` or `lon` is absent does not arise.
- The dashboard section (mental_stress.py:53-65): it is display-only UI, and its only logic is a check that the `lat`/`lon` columns are present, which typed rows make moot.
- Merge order: the output keeps the order of the left table. This is the documented order of an unsorted inner merge in current versions of the data-frame library, and `LoadDataAppend` proves it of the model. Older versions (before 2.2) grouped inner-merge output by key instead, and the source pins no version. Within one left row, the model emits the matching right rows in right-table order. That order is the model's own choice and is not proved against the library.
