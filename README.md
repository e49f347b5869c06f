# Shot chart statistics, modelled in Dafny

This project models the statistics engine of an NBA shot-chart tool: the
`ShotChart` class of `classes/shotchart.py` and the court constants of
`enums/court_dimensions.py`. A `ShotChart` holds the shots of one request (a
DataFrame with one row per shot). On request it runs passes over those shots:

- the **points** pass buckets shots as two- or three-pointers;
- the **zones** pass puts each shot in the first of fourteen court zones whose
  region test it passes;
- the **type**, **distance**, **period** and **breakdown** passes classify each
  shot by its strings or numbers, count it in a dict of records, and then set
  each record's frequency against the total of the attempted flags.

Each record holds made, missed, attempted, percent and frequency.

Layout, one module per concern:

- `court_dimensions.dfy` (`CourtDimensions`): the `IntEnum` constants as the
  integers Python stores, tied to the values as written.
- `arc.dfy` (`Arc`): the three-point arc test `is_shot_inside_3pt_arc`.
- `zones.dfy` (`Zones`): the `if`/`elif` chain of fourteen region tests.
- `taxonomy.dfy` (`Taxonomy`): the classifiers of the points pass and of the
  "type", "distance" and "breakdown" modes.
- `tables.dfy` (`Tables`): one Python dict of records.
  - The pure functions `Recorded`, `Tabulate`, `PointsTabulate` and
    `Finalized` say what a dict holds after one shot, after a pass, and after
    `process_column_frequency`.
  - The class `StatTable` is the dict itself, updated in place. Its methods
    are proved to follow those functions.
- `shot_chart.dfy` (`Chart`): the shot rows, and the class `ShotChart` with
  its fourteen zone records and five dicts.
  - Every pass is a method with a loop, proved against a function of the
    shots and the old state.
  - The lemmas state what those functions promise.

Percent and frequency are exact reals. Python's true division is modelled
without rounding. A division the source performs by zero is excluded by a
precondition. So is a seeded placeholder that `process_column_frequency`
would index, since the source fails there.

## Model

| member | source | states |
|---|---|---|
| CourtDimensions.Truncate | enums/court_dimensions.py:3 | `int()` of a float: the result is within one of the value and on the side of zero, for either sign |
| CourtDimensions.Declared | enums/court_dimensions.py:4-16 | the values as written: every member but the arc radius is a whole or half number; the radius formula lies strictly between 237.5 and 238 |
| CourtDimensions.Value | enums/court_dimensions.py:3-16 | the integer each member holds is the truncation toward zero of the value written for it, as `IntEnum` stores it |
| CourtDimensions.FractionalMembersAreShortened | enums/court_dimensions.py:8-16 | 142.5, -47.5 and 422.5 each lose half a unit toward zero; the arc formula lies strictly between 237.5 and 238 and is stored as 237 |
| CourtDimensions.ValuesAreDistinct | enums/court_dimensions.py:4-16 | no two members share a value, so the enum has no aliases |
| CourtDimensions.ConstantsAreOrdered | enums/court_dimensions.py:4-16 | the horizontal and the vertical constants each form a strict chain |
| Arc.InsideArc | classes/shotchart.py:385-415 | `is_shot_inside_3pt_arc`: a point inside lies in a slice that is not reversed, and within the radius along each axis |
| Arc.RadiusTestIsExact | classes/shotchart.py:399-412 | `sqrt(x*x + y*y) < RADIUS_3ARC` holds exactly when `x*x + y*y < RADIUS_3ARC²` |
| Arc.CentrelineAngle | classes/shotchart.py:402-412 | on the vertical axis the angle is 90, so the test reduces to 90 lying in the slice plus the radius test |
| Arc.OutsideRadiusIsNeverInside | classes/shotchart.py:412-415 | no point at or beyond the radius is inside, whatever the slice |
| Arc.ReversedSliceIsEmpty | classes/shotchart.py:412-415 | a slice whose start angle exceeds its end angle holds no point |
| Arc.FullSliceIsRadiusOnly | classes/shotchart.py:402-412 | over the slice [0, 180] the test is the radius test alone, since every angle lies in [0, 180) |
| Zones.InRegion | classes/shotchart.py:121-220 | the fourteen region tests: the baseline zones lie between the baseline and the free-throw line, the wings between the corner line and the deep line, the elbows and the high post inside the arc, and the three deep zones beyond it |
| Zones.FirstMatch | classes/shotchart.py:121-223 | the result is None exactly when every test fails; a result z passes its own test and every earlier test fails |
| Zones.ZoneOf | classes/shotchart.py:121-223 | the zone a shot is counted in passes its test, and every zone the chain tries before it fails |
| Zones.EveryZoneIsTried | classes/shotchart.py:121-223 | each of the fourteen zones has a branch in the chain |
| Zones.PrecedenceIndices | classes/shotchart.py:121-223 | each zone has exactly one branch |
| Zones.ZoneOfIsSound | classes/shotchart.py:121-223 | a classified shot passes its zone's test; a shot is unclassified exactly when it fails every test |
| Zones.FirstPassingTestWins | classes/shotchart.py:121-223 | the chain picks the earliest zone whose test holds |
| Zones.OriginIsPaint | classes/shotchart.py:135-141 | the basket itself is classified as Paint |
| Zones.PaintShadowsLeftBlock | classes/shotchart.py:135-155 | the left-block test tests LOC_Y twice and admits every x; inside the paint the earlier Paint branch takes the shot |
| Zones.LeftBlockIgnoresX | classes/shotchart.py:149-155 | (200, 0) and (-300, 0), on opposite sides of the basket, are both Left Block |
| Zones.WingArcClauseAlwaysHolds | classes/shotchart.py:180-195 | the wing tests' arc clause, over the reversed slice (158, 22), never excludes a point |
| Zones.RightDeep3IsUnreachable | classes/shotchart.py:204-216 | the Right Deep 3 test repeats Straight Deep 3's, which is tried first, so no shot is classified Right Deep 3 |
| Taxonomy.Contains | classes/shotchart.py:307-353 | Python's `sub in s`: the empty string is in every string; a string holds no longer string and none whose first character it lacks |
| Taxonomy.ContainsIffOccurs | classes/shotchart.py:307-353 | Python's `sub in s` holds exactly when `sub` occurs at some index of `s` |
| Taxonomy.PointsKey | classes/shotchart.py:91 | the bucket is "2PT" exactly for "2PT Field Goal" and "3PT" for every other shot type |
| Taxonomy.TypeKey | classes/shotchart.py:305-312 | the "type" bucket is "Layup", "Dunk" or the shot type, and an action naming neither keeps the shot type |
| Taxonomy.TypeKeyPrefersLayup | classes/shotchart.py:305-312 | an action mentioning a layup is "Layup" even when it also mentions a dunk; otherwise a dunk is "Dunk"; otherwise the shot type |
| Taxonomy.DistanceKey | classes/shotchart.py:313-328 | a distance in [0, 30) gets band `distance / 5`; a negative distance or one of 30 or more gets "30+"; the label is always one of the seven |
| Taxonomy.BreakdownKey | classes/shotchart.py:329-356 | a shot that some test of the chain catches gets a fixed breakdown label; an action no test catches is its own label; a Mid-Range label implies a two-pointer and a 3PT label a three-pointer |
| Taxonomy.DunkLayupOrderDiffers | classes/shotchart.py:307-354 | an action mentioning both a dunk and a layup is "Dunk" in breakdown mode but "Layup" in type mode |
| Taxonomy.JumpShotSplitsByShotType | classes/shotchart.py:331-356 | a bare "Jump Shot" splits into Mid-Range and 3PT by shot type and otherwise keeps its own name |
| Taxonomy.PullupSpellingsAgree | classes/shotchart.py:345-348 | "Pullup" and "Pull-Up" land in the same bucket, Mid-Range or 3PT by shot type |
| Tables.Refresh | classes/shotchart.py:372-373 | after recomputing, attempted = made + missed and percent = made / attempted, within [0, 1]; counters and frequency are kept |
| Tables.Count | classes/shotchart.py:365-373 | "Made Shot" adds one to made and "Missed Shot" one to missed, any other event neither; the record ends consistent and the frequency is untouched |
| Tables.WithFrequency | classes/shotchart.py:383 | the frequency becomes attempted / total and nothing else changes |
| Tables.Seed | classes/shotchart.py:52-53 | `OrderedDict.fromkeys(labels, 0)`: keys in the given order, each holding the placeholder |
| Tables.Put | classes/shotchart.py:361-363 | `d[key] = v`: a key already present keeps its place and a new key goes last; the key is filled, every other bucket is left alone, and the key order stays well formed and placeholders absent |
| Tables.PutTwice | classes/shotchart.py:361-373 | a second store to a key overrides the first, as the zero record of line 363 is overwritten |
| Tables.Recorded | classes/shotchart.py:360-373 | after one shot its bucket holds a counted record and no counted bucket is lost |
| Tables.HitsPositive | classes/shotchart.py:304 | a bucket is hit by a pass exactly when some shot falls in it |
| Tables.Tabulate | classes/shotchart.py:304-373 | after a pass every shot's bucket is counted and no counted bucket is lost |
| Tables.NextShotReady | classes/shotchart.py:366-373 | within a pass, the next shot is made or missed, or its bucket is already counted, so line 373 does not divide by zero |
| Tables.TabulateSnoc | classes/shotchart.py:304-373 | one more shot of a pass is one more `Recorded` step |
| Tables.RecordedAt | classes/shotchart.py:360-373 | one shot changes only its own bucket, by `Count` |
| Tables.TabulateCounts | classes/shotchart.py:304-373 | after a pass each bucket's made and missed grew by exactly its made and missed shots, and its frequency is unchanged |
| Tables.TabulateTouches | classes/shotchart.py:304-373 | a bucket some shot fell in holds a consistent record; a bucket no shot fell in is as before |
| Tables.Appended | classes/shotchart.py:361-363 | the insertion order after a run of assignments: the keys already present stay first, in their order |
| Tables.AppendedMembers | classes/shotchart.py:361-363 | every row's key is listed after the run, and each key the run added is carried by some row |
| Tables.AppendedInFirstSeenOrder | classes/shotchart.py:361-363 | added keys come in first-seen order: wherever the rows carry a later added key, an earlier added key has been carried before |
| Tables.TabulateKeepsOrder | classes/shotchart.py:304-363 | a pass keeps the keys distinct and the existing keys in their order, and its key order is exactly `Appended`: new keys follow in the order the shots first bring them |
| Tables.AttemptedOverUpdate | classes/shotchart.py:372 | changing one bucket changes the sum of attempted by that bucket's change |
| Tables.PutAttempted | classes/shotchart.py:361-372 | storing a record replaces that bucket's attempted in the table's sum |
| Tables.TabulateConsistent | classes/shotchart.py:372-373 | a pass that starts from consistent records leaves every record consistent |
| Tables.TabulateAttempted | classes/shotchart.py:304-373 | over a pass, the attempted summed over all buckets grows by exactly the number of made and missed shots |
| Tables.Finalized | classes/shotchart.py:375-383 | `process_column_frequency` keeps the keys and their order and sets every record's frequency to attempted / total |
| Tables.FinalizedBucket | classes/shotchart.py:382-383 | a finalized bucket keeps made, missed, attempted and percent, and holds frequency = attempted / total |
| Tables.RatioSum | classes/shotchart.py:383 | shares of the same total add up |
| Tables.RatioOfWhole | classes/shotchart.py:383 | the total's share of itself is one |
| Tables.FrequencyOverFinalized | classes/shotchart.py:375-383 | after `process_column_frequency` the frequencies add up to the attempted sum over the total |
| Tables.PointsRecorded | classes/shotchart.py:91-111 | after one shot of the points pass its bucket holds a counted record and no counted bucket is lost |
| Tables.PointsTabulate | classes/shotchart.py:89-111 | after the points pass every shot's bucket is counted and no counted bucket is lost |
| Tables.PointsNextShotReady | classes/shotchart.py:100-107 | within the points pass line 107 does not divide by zero |
| Tables.PointsTabulateSnoc | classes/shotchart.py:89-111 | one more shot of the points pass is one more `PointsRecorded` step |
| Tables.PointsStep | classes/shotchart.py:94-111 | one shot keeps a points-pass table and a category-pass table in agreement |
| Tables.PointsTabulateIsTabulate | classes/shotchart.py:89-111 | the points pass counts exactly as a category pass does; a bucket some shot fell in also ends with frequency attempted / total |
| Tables.PointsTabulateKeys | classes/shotchart.py:94-96 | the points pass and a category pass list the same keys in the same order |
| Tables.StatTable.Empty | classes/shotchart.py:48-51 | a new dict is `{}` |
| Tables.StatTable.Seeded | classes/shotchart.py:52-53 | a new ordered dict holds the seeded placeholders |
| Tables.StatTable.Store | classes/shotchart.py:363 | `d[key] = v` in place: the dict becomes `Put` of its old contents |
| Tables.StatTable.Record | classes/shotchart.py:360-373 | the dict becomes `Recorded` of its old contents |
| Tables.StatTable.RecordPoints | classes/shotchart.py:94-111 | the dict becomes `PointsRecorded` of its old contents and stays free of placeholders |
| Tables.StatTable.SetFrequencies | classes/shotchart.py:375-383 | the loop over the keys leaves the dict as `Finalized` of its old contents |
| Chart.KeyOf | classes/shotchart.py:304-358 | the bucket of a shot by mode: only the period mode keys by an integer, the shot's own period; a distance lands in one of the seven bands; a type is "Layup", "Dunk" or the shot type |
| Chart.AttemptedSum | classes/shotchart.py:110 | the total of the attempted flags (also lines 235, 252, 269, 286): non-negative flags give a non-negative total, and all flags 1 give the number of shots |
| Chart.ModeRows | classes/shotchart.py:304-358 | one tagged row per shot, in DataFrame order, keyed by the mode's classifier |
| Chart.PointsRows | classes/shotchart.py:89-91 | one tagged row per shot, keyed by `PointsKey` |
| Chart.DistanceSeedsDistinct | classes/shotchart.py:52 | the distances dict is seeded with seven distinct labels, and every distance's band is among them |
| Chart.CategoryPass | classes/shotchart.py:225-291 | the dict after a type, breakdown, distance or period pass: well formed, no placeholder left, no bucket lost, and a bucket for every shot |
| Chart.PointsPass | classes/shotchart.py:87-113 | the points dict after its pass: the keys already present keep their order, and every shot's two- or three-point bucket holds a counted record |
| Chart.FinalizeReady | classes/shotchart.py:365-383 | a ready category pass leaves no placeholder, keeps the key order well formed, and divides only by a nonzero total |
| Chart.UnfilledAttempted | classes/shotchart.py:50-53 | a dict with no record yet (`{}` or freshly seeded) sums to zero attempts |
| Chart.HitsOfMode | classes/shotchart.py:304-358 | a bucket is hit by a category pass exactly when some shot classifies into it |
| Chart.CategoryPassBuckets | classes/shotchart.py:225-291 | after a type, distance, period or breakdown pass the dict has a bucket exactly for each key it held before and each key some shot falls in |
| Chart.CategoryPassCounts | classes/shotchart.py:225-291 | starting from `{}` or a seeded dict, each bucket holds exactly its made and missed shots, attempted = made + missed > 0 and percent = made / attempted |
| Chart.CategoryPassFrequency | classes/shotchart.py:375-383 | each bucket's frequency is its attempted over the total of the attempted flags |
| Chart.CategoryPassFrequencySum | classes/shotchart.py:225-291 | the frequencies add up to the number of made and missed shots over the total of the attempted flags |
| Chart.OutcomeCountAll | classes/shotchart.py:366-369 | when every shot is made or missed, each one counts |
| Chart.FrequenciesSumToOne | classes/shotchart.py:225-291 | when every shot is made or missed and flagged attempted, a pass's frequencies add up to one |
| Chart.PointsPassIsCategoryPass | classes/shotchart.py:87-113 | from `{}`, the points pass, which recomputes a frequency on every shot, ends in the same dict as a category pass followed by `process_column_frequency` |
| Chart.PointsPassBuckets | classes/shotchart.py:87-113 | the points dict has only the buckets "2PT" and "3PT", and a bucket exactly for the kinds some shot is of |
| Chart.PointsPassCounts | classes/shotchart.py:87-113 | each points bucket holds exactly its made and missed shots, is consistent, and has frequency attempted / total |
| Chart.DistanceTableOrder | classes/shotchart.py:259-274 | the distances dict keeps exactly its seven seeded bands, in order: the pass adds no key |
| Chart.PeriodTableOrder | classes/shotchart.py:276-291 | the periods dict keeps periods 1-4 first, in order; it holds one of them or a period some shot has, and nothing else |
| Chart.IsMade | classes/shotchart.py:120 | the zone pass's substring test for "Made" holds on "Made Shot" and fails on "Missed Shot", agreeing with the exact comparison of the other passes |
| Chart.CountZone | classes/shotchart.py:120-126 | counting a shot in a zone adds one to made or to missed by its event, recomputes attempted and percent, and keeps the frequency |
| Chart.TallyFlags | classes/shotchart.py:116-223 | after a run of shots a zone's made and missed grew by the run's made and missed shots, the record is consistent when the run is not empty, and it is unchanged when the run is empty |
| Chart.TallyFlagsSnoc | classes/shotchart.py:119-126 | one more shot in a zone is one more `CountZone` step |
| Chart.ZoneFlagsStep | classes/shotchart.py:119-223 | one more shot adds its made flag to its own zone's run and to no other |
| Chart.ZoneTotalStep | classes/shotchart.py:119-223 | one more shot adds one to the zone total exactly when it is classified into one of the listed zones |
| Chart.ZoneTotalOfNoShots | classes/shotchart.py:119 | with no shots no zone counts anything |
| Chart.EachShotInOneZone | classes/shotchart.py:119-223 | the shots counted over all fourteen zones plus the unclassified shots are all the shots, so no shot counts twice |
| Chart.RightDeep3StaysEmpty | classes/shotchart.py:211-216 | no shot ever reaches the Right Deep 3 record |
| Chart.ShotChart.constructor | classes/shotchart.py:13-54 | zero zone records; `{}` for points, types and breakdowns; distances and periods seeded with placeholders |
| Chart.ShotChart.RecordZone | classes/shotchart.py:122-126 | the chosen zone's record is counted by `CountZone` and every other zone record is left alone |
| Chart.ShotChart.ProcessShotsByZones | classes/shotchart.py:116-223 | every zone record ends as `TallyFlags` of its old value over the made flags of the shots classified into it, in order |
| Chart.ShotChart.ProcessShotsByMode | classes/shotchart.py:294-373 | the loop leaves the dict as `Tabulate` of its old contents over the shots |
| Chart.ShotChart.ProcessShotsByPoints | classes/shotchart.py:87-113 | the loop leaves the dict as `PointsTabulate` of its old contents over the shots |
| Chart.ShotChart.ProcessShotsByType | classes/shotchart.py:225-240 | the types dict ends as the category pass in "type" mode over its old contents |
| Chart.ShotChart.ProcessShotsByBreakdown | classes/shotchart.py:242-257 | the breakdowns dict ends as the category pass in "breakdown" mode |
| Chart.ShotChart.ProcessShotsByDistance | classes/shotchart.py:259-274 | the distances dict ends as the category pass in "distance" mode |
| Chart.ShotChart.ProcessShotsByPeriod | classes/shotchart.py:276-291 | the periods dict ends as the category pass in the final, period branch |
| Chart.ShotChart.ProcessIf | classes/shotchart.py:78-85 | one `if flag:` line of `process`: the category pass runs on its dict when the flag is set, and the dict is unchanged otherwise |
| Chart.ShotChart.ProcessCategories | classes/shotchart.py:78-85 | the four category lines of `process`, each on its own dict and leaving the other dicts alone |
| Chart.ShotChart.Process | classes/shotchart.py:56-85 | an empty DataFrame changes nothing; otherwise each selected pass runs on its own dict or on the zone records, and everything not selected is unchanged |

## Left out

- Plotting, the command-line entry point, HTTP fetching and the DataFrame library are not part of this model. The shots are a sequence of `Shot` rows holding the columns the passes read.
- The game date parsed with `strptime` at classes/shotchart.py:71 is not modelled. It feeds only the presentation code.
- The made/missed subsets and the `shots_made`, `shots_missed`, `two_points`, `three_points` and `total_points` records (classes/shotchart.py:20-29) are created but never updated by the modelled passes. They are not modelled.
- Arc.InsideArc: the polar angle is not computed, because `math.atan` and `math.degrees` are floating point. It is a parameter `angle`. The lemmas that need to know anything about it assume only what lines 402-407 guarantee: every angle lies in [0, 180), and a point with x = 0 gets 90. The radius test is exact on integers.
- Floating-point rounding of percent and frequency is not modelled: they are exact reals.
- Tables.Count, Tables.Refresh, Tables.WithFrequency, Tables.Finalized: a division by zero or a seeded placeholder still 0 at line 383 is not a number the source can produce. `made / attempted` at lines 107 and 373 divides Python integers and raises an exception. A zero total at lines 111 and 383 is a pandas `sum()`, a NumPy scalar, and gives inf or nan instead. Indexing the placeholder at line 383 raises an exception. The model excludes these through the preconditions `PercentDefined`, `CategoryReady` and `PointsReady` instead of modelling the exception. For example, a distance pass over shots that leave some band empty fails at line 383 in the code, because `0["attempted"]` cannot be indexed. The model follows the code and asks, as a precondition, that every seeded band receive a shot; it does not report empty bands as absent.
- Taxonomy.BreakdownKey: its contract says when a fixed label is given and when the action falls through, and the shot type each split label implies; it does not name which label each test gives. The chain's order is stated by the lemmas about it: `DunkLayupOrderDiffers`, `JumpShotSplitsByShotType` and `PullupSpellingsAgree`.
- Defects that make every call of a pass fail are read as their evident intent:
  - `shotchart.iterrows()` at line 119 is read as `self.df`.
  - The three-argument calls to `process_shots_by_mode` at lines 232, 249, 266 and 283 drop their column projection.
  - `self.shot_types` and `self.types_dict` at lines 232 and 238 are read as the dict passed in.
  - The positional row unpacking at lines 306, 314, 330 and 358 is read as the named columns the projections select.
- Python's `int` is unbounded like Dafny's, so no integer width is modelled. SHOT_DISTANCE and PERIOD are integers; non-integer values, which the `range` tests at lines 315-325 would send to "30+", are not modelled.
- `Chart.Mode` has four values. Any mode string other than "type", "distance" or "breakdown" takes the final branch at line 358, which is `ByPeriod`.
- Aliasing between the five dicts is excluded: `ShotChart.Valid` requires them to be distinct objects, as `__init__` creates them.
