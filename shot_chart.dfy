/**
 * The ShotChart class of classes/shotchart.py: the shots of one request and
 * the statistics its passes accumulate from them.
 *
 * The shot DataFrame is a sequence of `Shot` rows. The fourteen zone records
 * are fields of the class; the five breakdown dicts of `shot_chart_data` are
 * `StatTable` objects. Each pass is a method with a loop, proved against a
 * function of the rows and the old state; the lemmas below say what those
 * functions hold.
 */
module Chart {
  import opened Wrappers
  import opened Arc
  import opened Zones
  import opened Taxonomy
  import opened Tables

  /** One row of the shot DataFrame, restricted to the columns the passes read. */
  datatype Shot = Shot(
    shotType: string,
    eventType: string,
    actionType: string,
    locX: int,
    locY: int,
    distance: int,
    period: int,
    attemptedFlag: int)

  /** The `mode` argument of `process_shots_by_mode`: "type", "distance",
      "breakdown", and any other value, which the final branch treats as a
      period. */
  datatype Mode = ByType | ByDistance | ByBreakdown | ByPeriod

  /** The bucket of a shot in each mode (lines 304-358). Only the period
      mode keys by an integer, the shot's own period; a distance always lands
      in one of the seven bands; a type is "Layup", "Dunk" or the shot type. */
  function KeyOf(mode: Mode, shot: Shot): (r: Label)
    ensures r.Period? <==> mode == ByPeriod
    ensures mode == ByPeriod ==> r.period == shot.period
    ensures mode == ByDistance ==> r.name in DistanceLabels
    ensures mode == ByType ==> r.name == "Layup" || r.name == "Dunk" || r.name == shot.shotType
  {
    match mode
    case ByType => Name(TypeKey(shot.shotType, shot.actionType))
    case ByDistance => Name(DistanceKey(shot.distance))
    case ByBreakdown => Name(BreakdownKey(shot.shotType, shot.actionType))
    case ByPeriod => Period(shot.period)
  }

  /** The shots as a category pass sees them. */
  function ModeRows(mode: Mode, df: seq<Shot>): (rows: seq<Tagged>)
    ensures |rows| == |df|
    ensures forall i :: 0 <= i < |df| ==> rows[i] == Tagged(KeyOf(mode, df[i]), df[i].eventType)
  {
    seq(|df|, i requires 0 <= i < |df| => Tagged(KeyOf(mode, df[i]), df[i].eventType))
  }

  /** The shots as the points pass sees them (line 91). */
  function PointsRows(df: seq<Shot>): (rows: seq<Tagged>)
    ensures |rows| == |df|
    ensures forall i :: 0 <= i < |df| ==> rows[i] == Tagged(Name(PointsKey(df[i].shotType)), df[i].eventType)
  {
    seq(|df|, i requires 0 <= i < |df| => Tagged(Name(PointsKey(df[i].shotType)), df[i].eventType))
  }

  /** The total of the attempted flags over the shots (lines 110, 235, 252,
      269, 286): non-negative flags give a non-negative total, and when every
      flag is 1 the total is the number of shots. */
  function AttemptedSum(df: seq<Shot>): (r: int)
    ensures (forall i :: 0 <= i < |df| ==> df[i].attemptedFlag >= 0) ==> r >= 0
    ensures (forall i :: 0 <= i < |df| ==> df[i].attemptedFlag == 1) ==> r == |df|
  {
    if df == [] then 0 else AttemptedSum(df[..|df| - 1]) + df[|df| - 1].attemptedFlag
  }

  /** The keys `shot_chart_data["distances"]` is seeded with (line 52). */
  const DistanceSeeds: seq<Label> := seq(|DistanceLabels|, i requires 0 <= i < |DistanceLabels| => Name(DistanceLabels[i]))

  /** The keys `shot_chart_data["periods"]` is seeded with (line 53). */
  const PeriodSeeds: seq<Label> := [Period(1), Period(2), Period(3), Period(4)]

  /** The seeds are seven distinct labels, the distance bands in order. */
  lemma DistanceSeedsDistinct()
    ensures |DistanceSeeds| == 7
    ensures forall i, j :: 0 <= i < j < |DistanceSeeds| ==> DistanceSeeds[i] != DistanceSeeds[j]
    ensures forall d: int :: Name(DistanceKey(d)) in DistanceSeeds
  {
    var l := DistanceLabels;
    assert l[0][0] == '0' && l[1][0] == '5' && l[2][0] == '1' && l[3][0] == '1';
    assert l[4][0] == '2' && l[5][0] == '2' && l[6][0] == '3';
    assert l[2][1] == '0' && l[3][1] == '5' && l[4][1] == '0' && l[5][1] == '5';
    forall d: int ensures Name(DistanceKey(d)) in DistanceSeeds {
      var i :| 0 <= i < |l| && l[i] == DistanceKey(d);
      assert DistanceSeeds[i] == Name(DistanceKey(d));
    }
  }

  /** What a category pass and the `process_column_frequency` after it need in
      order not to fail: no shot divides by zero at line 373, no placeholder is
      left for line 383 to read, and the total is not zero once there is a
      bucket to divide. */
  ghost predicate CategoryReady(t: Table, mode: Mode, df: seq<Shot>) {
    var rows := ModeRows(mode, df);
    && WellFormed(t)
    && PercentDefined(t, rows)
    && (forall k :: k in t.slots && t.slots[k] == Placeholder ==> Hits(rows, k) > 0)
    && (t.slots != map[] || df != [] ==> AttemptedSum(df) != 0)
  }

  /** A ready pass leaves no placeholder and only divides by a nonzero total. */
  lemma FinalizeReady(t: Table, mode: Mode, df: seq<Shot>)
    requires CategoryReady(t, mode, df)
    ensures var r := Tabulate(t, ModeRows(mode, df));
      && NoPlaceholders(r) && WellFormed(r)
      && (r.slots != map[] ==> AttemptedSum(df) != 0)
  {
    var rows := ModeRows(mode, df);
    var r := Tabulate(t, rows);
    TabulateKeepsOrder(t, rows);
    forall k | k in r.slots ensures r.slots[k].Filled? {
      TabulateTouches(t, rows, k);
    }
    if df == [] {
      assert rows == [];
    }
  }

  /** The table after one of `process_shots_by_type`, `_by_distance`,
      `_by_period` or `_by_breakdown` (lines 225-291): the category pass,
      then every frequency set against the sum of the attempted flags. No
      bucket is lost, every shot has a bucket, and none is left a placeholder. */
  function CategoryPass(t: Table, mode: Mode, df: seq<Shot>): (r: Table)
    requires CategoryReady(t, mode, df)
    ensures WellFormed(r) && NoPlaceholders(r)
    ensures forall k :: k in t.slots ==> k in r.slots
    ensures forall i :: 0 <= i < |df| ==> KeyOf(mode, df[i]) in r.slots
  {
    FinalizeReady(t, mode, df);
    TabulateKeepsOrder(t, ModeRows(mode, df));
    Finalized(Tabulate(t, ModeRows(mode, df)), AttemptedSum(df))
  }

  /** What the points pass needs in order not to fail: no placeholder for
      line 99 to index, no division by zero at line 107, and a nonzero total
      at line 111 once there is a shot. */
  ghost predicate PointsReady(t: Table, df: seq<Shot>) {
    && WellFormed(t)
    && NoPlaceholders(t)
    && PercentDefined(t, PointsRows(df))
    && (df != [] ==> AttemptedSum(df) != 0)
  }

  /** The table after `process_shots_by_points` (lines 87-113): the keys
      already present keep their order, and every shot's two- or three-point bucket holds a counted record. */
  function PointsPass(t: Table, df: seq<Shot>): (r: Table)
    requires PointsReady(t, df)
    ensures |t.keys| <= |r.keys| && r.keys[..|t.keys|] == t.keys
    ensures forall i :: 0 <= i < |df| ==> Counted(r, Name(PointsKey(df[i].shotType)))
  {
    var rows := PointsRows(df);
    PointsTabulateKeys(t, rows, AttemptedSum(df));
    TabulateKeepsOrder(t, rows);
    assert forall i :: 0 <= i < |df| ==> rows[i].key == Name(PointsKey(df[i].shotType));
    PointsTabulate(t, rows, AttemptedSum(df))
  }

  /** A table in which no bucket holds a record yet: `{}`, or freshly seeded. */
  ghost predicate Unfilled(t: Table) {
    forall k :: k in t.slots ==> t.slots[k] == Placeholder
  }

  lemma UnfilledAttempted(keys: seq<Label>, t: Table)
    requires Unfilled(t)
    ensures AttemptedOver(keys, t.slots) == 0
  {
  }

  /** A shot's bucket is hit by the pass over the shots. */
  lemma HitsOfMode(mode: Mode, df: seq<Shot>, k: Label)
    ensures Hits(ModeRows(mode, df), k) > 0 <==> exists i :: 0 <= i < |df| && KeyOf(mode, df[i]) == k
  {
    var rows := ModeRows(mode, df);
    HitsPositive(rows, k);
    if exists i :: 0 <= i < |df| && KeyOf(mode, df[i]) == k {
      var i :| 0 <= i < |df| && KeyOf(mode, df[i]) == k;
      assert rows[i].key == k;
    }
  }

  /** Starting from `{}` or a seeded dict, a category pass ends with one
      bucket per seeded key and per key some shot falls in. */
  lemma CategoryPassBuckets(t: Table, mode: Mode, df: seq<Shot>, k: Label)
    requires CategoryReady(t, mode, df)
    ensures var r := CategoryPass(t, mode, df);
      k in r.slots <==> k in t.slots || exists i :: 0 <= i < |df| && KeyOf(mode, df[i]) == k
  {
    var rows := ModeRows(mode, df);
    FinalizeReady(t, mode, df);
    TabulateTouches(t, rows, k);
    HitsOfMode(mode, df, k);
  }

  /** Starting from `{}` or a seeded dict, each bucket of a category pass
      holds exactly its made and missed shots, with attempted = made + missed
      and percent = made / attempted. */
  lemma CategoryPassCounts(t: Table, mode: Mode, df: seq<Shot>, k: Label)
    requires CategoryReady(t, mode, df) && Unfilled(t)
    ensures var rows := ModeRows(mode, df);
            var r := CategoryPass(t, mode, df);
      k in r.slots ==>
        var s := StatsAt(r.slots, k);
        && s.made == EventCount(rows, k, MadeShot)
        && s.missed == EventCount(rows, k, MissedShot)
        && Consistent(s) && s.attempted > 0
  {
    var rows := ModeRows(mode, df);
    var tab := Tabulate(t, rows);
    var total := AttemptedSum(df);
    FinalizeReady(t, mode, df);
    assert CategoryPass(t, mode, df) == Finalized(tab, total);
    if k in tab.slots {
      TabulateCounts(t, rows, k);
      TabulateTouches(t, rows, k);
      HitsOfMode(mode, df, k);
      HitsPositive(rows, k);
      assert Hits(rows, k) > 0;
      assert StatsAt(t.slots, k) == Zero;
      assert StatsAt(tab.slots, k) == tab.slots[k].stats;
      FinalizedBucket(tab, total, k);
    }
  }

  /** After a category pass, each bucket's frequency is its attempted over
      the total of the attempted flags. */
  lemma CategoryPassFrequency(t: Table, mode: Mode, df: seq<Shot>, k: Label)
    requires CategoryReady(t, mode, df)
    ensures var r := CategoryPass(t, mode, df);
      k in r.slots ==> r.slots[k].stats.frequency == Ratio(r.slots[k].stats.attempted, AttemptedSum(df))
  {
    var tab := Tabulate(t, ModeRows(mode, df));
    FinalizeReady(t, mode, df);
    if k in tab.slots {
      FinalizedBucket(tab, AttemptedSum(df), k);
    }
  }

  /** Starting from `{}` or a seeded dict, the frequencies of a category pass
      add up to the number of made and missed shots over the total of the
      attempted flags. */
  lemma CategoryPassFrequencySum(t: Table, mode: Mode, df: seq<Shot>)
    requires CategoryReady(t, mode, df) && Unfilled(t) && df != []
    ensures var r := CategoryPass(t, mode, df);
      FrequencyOver(r.keys, r.slots) == Ratio(OutcomeCount(ModeRows(mode, df)), AttemptedSum(df))
  {
    var rows := ModeRows(mode, df);
    var tab := Tabulate(t, rows);
    var total := AttemptedSum(df);
    FinalizeReady(t, mode, df);
    assert AllConsistent(t);
    TabulateAttempted(t, rows);
    UnfilledAttempted(t.keys, t);
    assert AttemptedOver(tab.keys, tab.slots) == OutcomeCount(rows);
    FrequencyOverFinalized(tab, total, tab.keys);
    assert CategoryPass(t, mode, df) == Finalized(tab, total);
  }

  lemma OutcomeCountAll(rows: seq<Tagged>)
    requires forall i :: 0 <= i < |rows| ==> IsOutcome(rows[i].event)
    ensures OutcomeCount(rows) == |rows|
  {
    if rows != [] {
      OutcomeCountAll(rows[..|rows| - 1]);
    }
  }

  /** When every shot is made or missed and flagged as attempted, the
      frequencies of a category pass add up to one. */
  lemma FrequenciesSumToOne(t: Table, mode: Mode, df: seq<Shot>)
    requires CategoryReady(t, mode, df) && Unfilled(t) && df != []
    requires forall i :: 0 <= i < |df| ==> IsOutcome(df[i].eventType) && df[i].attemptedFlag == 1
    ensures var r := CategoryPass(t, mode, df); FrequencyOver(r.keys, r.slots) == 1.0
  {
    var rows := ModeRows(mode, df);
    CategoryPassFrequencySum(t, mode, df);
    assert forall i :: 0 <= i < |rows| ==> IsOutcome(rows[i].event);
    OutcomeCountAll(rows);
    RatioOfWhole(|df|);
  }

  /** A pass from `{}` ends in the same table whether it is the points pass,
      which recomputes a bucket's frequency on each of its shots, or a
      category pass followed by `process_column_frequency`. */
  lemma PointsPassIsCategoryPass(df: seq<Shot>)
    requires PointsReady(Table([], map[]), df)
    ensures var t := Table([], map[]);
            var rows := PointsRows(df);
      && NoPlaceholders(Tabulate(t, rows))
      && PointsPass(t, df) == Finalized(Tabulate(t, rows), AttemptedSum(df))
  {
    var t := Table([], map[]);
    var rows := PointsRows(df);
    var total := AttemptedSum(df);
    var p := PointsPass(t, df);
    var r := Tabulate(t, rows);
    forall k | k in r.slots ensures r.slots[k].Filled? && Hits(rows, k) > 0 {
      TabulateTouches(t, rows, k);
    }
    if df == [] {
      assert rows == [];
    }
    PointsTabulateKeys(t, rows, total);
    forall k ensures (k in p.slots <==> k in r.slots) && (k in p.slots ==> p.slots[k] == Finalized(r, total).slots[k]) {
      PointsTabulateIsTabulate(t, rows, total, k);
    }
    assert p.slots == Finalized(r, total).slots;
  }

  /** The points table has at most the buckets "2PT" and "3PT", and has a
      bucket exactly for the kinds some shot is of. */
  lemma PointsPassBuckets(df: seq<Shot>, k: Label)
    requires PointsReady(Table([], map[]), df)
    ensures var p := PointsPass(Table([], map[]), df);
      && (k in p.slots ==> k == Name("2PT") || k == Name("3PT"))
      && (k in p.slots <==> exists i :: 0 <= i < |df| && Name(PointsKey(df[i].shotType)) == k)
  {
    var t := Table([], map[]);
    var rows := PointsRows(df);
    var r := Tabulate(t, rows);
    PointsPassIsCategoryPass(df);
    TabulateTouches(t, rows, k);
    HitsPositive(rows, k);
    if exists i :: 0 <= i < |df| && Name(PointsKey(df[i].shotType)) == k {
      var i :| 0 <= i < |df| && Name(PointsKey(df[i].shotType)) == k;
      assert rows[i].key == k;
    }
    if k in r.slots {
      var i :| 0 <= i < |rows| && rows[i].key == k;
      var pk := PointsKey(df[i].shotType);
      assert rows[i] == Tagged(Name(pk), df[i].eventType);
      assert k == Name(pk) && (pk == "2PT" || pk == "3PT");
    }
  }

  /** Each bucket of the points table holds exactly the made and missed
      shots of its kind, with attempted = made + missed, percent = made /
      attempted and frequency = attempted / the total of the attempted flags. */
  lemma PointsPassCounts(df: seq<Shot>, k: Label)
    requires PointsReady(Table([], map[]), df)
    ensures var p := PointsPass(Table([], map[]), df);
            var rows := PointsRows(df);
      k in p.slots ==>
        var s := StatsAt(p.slots, k);
        && s.made == EventCount(rows, k, MadeShot)
        && s.missed == EventCount(rows, k, MissedShot)
        && Consistent(s) && s.attempted > 0
        && s.frequency == Ratio(s.attempted, AttemptedSum(df))
  {
    var t := Table([], map[]);
    var rows := PointsRows(df);
    var total := AttemptedSum(df);
    var r := Tabulate(t, rows);
    PointsPassIsCategoryPass(df);
    assert PointsPass(t, df) == Finalized(r, total);
    if k in r.slots {
      TabulateCounts(t, rows, k);
      TabulateTouches(t, rows, k);
      HitsPositive(rows, k);
      assert Hits(rows, k) > 0;
      assert StatsAt(t.slots, k) == Zero;
      assert StatsAt(r.slots, k) == r.slots[k].stats;
      FinalizedBucket(r, total, k);
    }
  }

  /** A sequence without repeats has as many distinct elements as entries. */
  lemma {:induction false} DistinctCardinality(s: seq<Label>)
    requires forall i, j :: 0 <= i < j < |s| ==> s[i] != s[j]
    ensures |set x | x in s| == |s|
    decreases |s|
  {
    if s != [] {
      var n := |s| - 1;
      DistinctCardinality(s[..n]);
      assert forall i :: 0 <= i < n ==> s[..n][i] != s[n];
      assert (set x | x in s) == (set x | x in s[..n]) + {s[n]} by {
        assert s == s[..n] + [s[n]];
      }
    }
  }

  /** A subset is no larger than its superset. */
  lemma {:induction false} SubsetCardinality(a: set<Label>, b: set<Label>)
    requires a <= b
    ensures |a| <= |b|
    decreases |a|
  {
    if a != {} {
      var x :| x in a;
      SubsetCardinality(a - {x}, b - {x});
    }
  }

  /** The distances table keeps the canonical band order: the pass adds no
      key, because every shot falls in one of the seven seeded bands. */
  lemma DistanceTableOrder(df: seq<Shot>)
    requires CategoryReady(Seed(DistanceSeeds), ByDistance, df)
    ensures CategoryPass(Seed(DistanceSeeds), ByDistance, df).keys == DistanceSeeds
  {
    DistanceSeedsDistinct();
    var t := Seed(DistanceSeeds);
    var rows := ModeRows(ByDistance, df);
    var r := Tabulate(t, rows);
    TabulateKeepsOrder(t, rows);
    assert forall k :: k in r.keys ==> k in r.slots;
    forall k | k in r.slots ensures k in DistanceSeeds {
      TabulateTouches(t, rows, k);
      HitsOfMode(ByDistance, df, k);
    }
    var keySet := set x | x in r.keys;
    var seedSet := set x | x in DistanceSeeds;
    DistinctCardinality(r.keys);
    DistinctCardinality(DistanceSeeds);
    SubsetCardinality(keySet, seedSet);
    assert |r.keys| == |DistanceSeeds|;
    assert r.keys == r.keys[..|DistanceSeeds|];
    assert CategoryPass(t, ByDistance, df).keys == r.keys;
  }

  /** The periods table keeps periods 1 to 4 first, in order; a period outside
      them (an overtime) is appended after them. */
  lemma PeriodTableOrder(df: seq<Shot>, k: Label)
    requires CategoryReady(Seed(PeriodSeeds), ByPeriod, df)
    ensures var r := CategoryPass(Seed(PeriodSeeds), ByPeriod, df);
      && |r.keys| >= 4 && r.keys[..4] == PeriodSeeds
      && (k in r.keys <==> k in PeriodSeeds || exists i :: 0 <= i < |df| && k == Period(df[i].period))
  {
    var t := Seed(PeriodSeeds);
    var rows := ModeRows(ByPeriod, df);
    TabulateKeepsOrder(t, rows);
    TabulateTouches(t, rows, k);
    HitsOfMode(ByPeriod, df, k);
  }

  /** The zone pass counts a shot as made when its event mentions "Made"
      (line 120), a substring test where the other passes compare the whole
      event; on the two outcome events the tests agree. */
  predicate IsMade(event: string)
    ensures event == MadeShot ==> IsMade(event)
    ensures event == MissedShot ==> !IsMade(event)
  {
    assert MadeShot[..4] == "Made";
    assert MissedShot[..4][1] != "Made"[1];
    assert 'M' !in MissedShot[1..];
    Contains(event, "Made")
  }

  /** One shot counted in a zone record (lines 121-123, and likewise in every
      branch of the chain). */
  function CountZone(s: Stats, made: bool): (r: Stats)
    ensures Consistent(r) && r.attempted > 0
    ensures r.made == s.made + (if made then 1 else 0)
    ensures r.missed == s.missed + (if made then 0 else 1)
    ensures r.frequency == s.frequency
  {
    Refresh(if made then s.(made := s.made + 1) else s.(missed := s.missed + 1))
  }

  /** The made flags, in order, of the shots the chain puts in zone `z`. */
  function ZoneFlags(df: seq<Shot>, z: Zone, angle: AngleFn): seq<bool> {
    if df == [] then []
    else
      var n := |df| - 1;
      ZoneFlags(df[..n], z, angle)
        + (if ZoneOf(df[n].locX, df[n].locY, angle) == Some(z) then [IsMade(df[n].eventType)] else [])
  }

  /** A zone record after counting a run of shots in it: made and missed grow
      by the made and missed shots of the run, attempted and percent agree
      with them, and the frequency is never touched. */
  function TallyFlags(s: Stats, flags: seq<bool>): (r: Stats)
    ensures r.made == s.made + multiset(flags)[true]
    ensures r.missed == s.missed + multiset(flags)[false]
    ensures r.frequency == s.frequency
    ensures flags != [] ==> Consistent(r) && r.attempted > 0
    ensures flags == [] ==> r == s
    decreases |flags|
  {
    if flags == [] then s
    else
      var n := |flags| - 1;
      assert flags == flags[..n] + [flags[n]];
      CountZone(TallyFlags(s, flags[..n]), flags[n])
  }

  lemma TallyFlagsSnoc(s: Stats, flags: seq<bool>, made: bool)
    ensures TallyFlags(s, flags + [made]) == CountZone(TallyFlags(s, flags), made)
  {
    assert (flags + [made])[..|flags|] == flags;
  }

  lemma ZoneFlagsStep(df: seq<Shot>, i: nat, z: Zone, angle: AngleFn)
    requires i < |df|
    ensures ZoneOf(df[i].locX, df[i].locY, angle) == Some(z) ==>
      ZoneFlags(df[..i + 1], z, angle) == ZoneFlags(df[..i], z, angle) + [IsMade(df[i].eventType)]
    ensures ZoneOf(df[i].locX, df[i].locY, angle) != Some(z) ==>
      ZoneFlags(df[..i + 1], z, angle) == ZoneFlags(df[..i], z, angle)
  {
    assert df[..i + 1][..i] == df[..i];
    assert ZoneFlags(df[..i], z, angle) + [] == ZoneFlags(df[..i], z, angle);
  }

  /** The number of shots no test of the chain accepts. */
  function Unzoned(df: seq<Shot>, angle: AngleFn): nat {
    if df == [] then 0
    else
      var n := |df| - 1;
      Unzoned(df[..n], angle) + (if ZoneOf(df[n].locX, df[n].locY, angle).None? then 1 else 0)
  }

  /** The number of shots counted in the zones of `zs`. */
  function ZoneTotal(zs: seq<Zone>, df: seq<Shot>, angle: AngleFn): nat {
    if zs == [] then 0 else |ZoneFlags(df, zs[0], angle)| + ZoneTotal(zs[1..], df, angle)
  }

  lemma {:induction false} ZoneTotalStep(zs: seq<Zone>, df: seq<Shot>, angle: AngleFn)
    requires df != []
    requires forall i, j :: 0 <= i < j < |zs| ==> zs[i] != zs[j]
    ensures var n := |df| - 1;
            var z := ZoneOf(df[n].locX, df[n].locY, angle);
      ZoneTotal(zs, df, angle) == ZoneTotal(zs, df[..n], angle) + (if z.Some? && z.value in zs then 1 else 0)
    decreases |zs|
  {
    if zs != [] {
      var n := |df| - 1;
      var z := ZoneOf(df[n].locX, df[n].locY, angle);
      ZoneTotalStep(zs[1..], df, angle);
      ZoneFlagsStep(df, n, zs[0], angle);
      assert df[..n + 1] == df;
      assert forall i :: 0 <= i < |zs| - 1 ==> zs[1..][i] != zs[0];
      assert zs == [zs[0]] + zs[1..];
      assert (z.Some? && z.value in zs) == (z == Some(zs[0]) || (z.Some? && z.value in zs[1..]));
    }
  }

  lemma ZoneTotalOfNoShots(zs: seq<Zone>, angle: AngleFn)
    ensures ZoneTotal(zs, [], angle) == 0
  {
  }

  /** The zone chain counts every shot at most once: the shots counted over
      all fourteen zones and the shots left out add up to all the shots. */
  lemma {:induction false} EachShotInOneZone(df: seq<Shot>, angle: AngleFn)
    ensures ZoneTotal(Precedence, df, angle) + Unzoned(df, angle) == |df|
    decreases |df|
  {
    if df == [] {
      ZoneTotalOfNoShots(Precedence, angle);
    } else {
      var n := |df| - 1;
      EachShotInOneZone(df[..n], angle);
      PrecedenceIndices();
      ZoneTotalStep(Precedence, df, angle);
      var z := ZoneOf(df[n].locX, df[n].locY, angle);
      if z.Some? {
        EveryZoneIsTried(z.value);
      }
    }
  }

  /** No shot is ever counted as Right Deep 3. */
  lemma {:induction false} RightDeep3StaysEmpty(df: seq<Shot>, angle: AngleFn)
    ensures ZoneFlags(df, RightDeep3, angle) == []
    decreases |df|
  {
    if df != [] {
      var n := |df| - 1;
      RightDeep3StaysEmpty(df[..n], angle);
      RightDeep3IsUnreachable(df[n].locX, df[n].locY, angle);
    }
  }

  class ShotChart {
    /** `self.df`: the shots, in DataFrame order. */
    const df: seq<Shot>

    /** The dicts of `self.shot_chart_data`. */
    const pointsTable: StatTable
    const typesTable: StatTable
    const breakdownsTable: StatTable
    const distancesTable: StatTable
    const periodsTable: StatTable

    /** The zone records. */
    var rightCorner3: Stats
    var leftCorner3: Stats
    var paint: Stats
    var rightBlock: Stats
    var leftBlock: Stats
    var highPost: Stats
    var rightElbow: Stats
    var leftElbow: Stats
    var rightWing3: Stats
    var leftWing3: Stats
    var topOfKey3: Stats
    var straightDeep3: Stats
    var rightDeep3: Stats
    var leftDeep3: Stats

    /** The record of zone `z`. */
    function ZoneStats(z: Zone): Stats
      reads this
    {
      match z
      case RightCorner3 => rightCorner3
      case LeftCorner3 => leftCorner3
      case Paint => paint
      case RightBlock => rightBlock
      case LeftBlock => leftBlock
      case HighPost => highPost
      case RightElbow => rightElbow
      case LeftElbow => leftElbow
      case RightWing3 => rightWing3
      case LeftWing3 => leftWing3
      case TopOfKey3 => topOfKey3
      case StraightDeep3 => straightDeep3
      case RightDeep3 => rightDeep3
      case LeftDeep3 => leftDeep3
    }

    /** The five dicts are distinct objects, each well formed. */
    ghost predicate Valid()
      reads pointsTable, typesTable, breakdownsTable, distancesTable, periodsTable
    {
      && pointsTable.Valid() && typesTable.Valid() && breakdownsTable.Valid()
      && distancesTable.Valid() && periodsTable.Valid()
      && pointsTable != typesTable && pointsTable != breakdownsTable
      && pointsTable != distancesTable && pointsTable != periodsTable
      && typesTable != breakdownsTable && typesTable != distancesTable && typesTable != periodsTable
      && breakdownsTable != distancesTable && breakdownsTable != periodsTable
      && distancesTable != periodsTable
    }

    /** `__init__` (lines 11-54): zero zone records, empty points, types and
        breakdowns dicts, and the distances and periods dicts seeded with
        placeholders. */
    constructor (df: seq<Shot>)
      ensures Valid() && this.df == df
      ensures forall z :: ZoneStats(z) == Zero
      ensures pointsTable.Value() == Table([], map[])
      ensures typesTable.Value() == Table([], map[])
      ensures breakdownsTable.Value() == Table([], map[])
      ensures distancesTable.Value() == Seed(DistanceSeeds)
      ensures periodsTable.Value() == Seed(PeriodSeeds)
    {
      this.df := df;
      rightCorner3, leftCorner3, paint, rightBlock, leftBlock := Zero, Zero, Zero, Zero, Zero;
      highPost, rightElbow, leftElbow, rightWing3, leftWing3 := Zero, Zero, Zero, Zero, Zero;
      topOfKey3, straightDeep3, rightDeep3, leftDeep3 := Zero, Zero, Zero, Zero;
      pointsTable := new StatTable.Empty();
      typesTable := new StatTable.Empty();
      breakdownsTable := new StatTable.Empty();
      DistanceSeedsDistinct();
      distancesTable := new StatTable.Seeded(DistanceSeeds);
      periodsTable := new StatTable.Seeded(PeriodSeeds);
    }

    /** Count one shot in the record of `zone`; every other record is left alone. */
    method RecordZone(zone: Zone, made: bool)
      modifies this
      ensures forall z :: ZoneStats(z) == if z == zone then CountZone(old(ZoneStats(z)), made) else old(ZoneStats(z))
    {
      match zone
      case RightCorner3 => rightCorner3 := CountZone(rightCorner3, made);
      case LeftCorner3 => leftCorner3 := CountZone(leftCorner3, made);
      case Paint => paint := CountZone(paint, made);
      case RightBlock => rightBlock := CountZone(rightBlock, made);
      case LeftBlock => leftBlock := CountZone(leftBlock, made);
      case HighPost => highPost := CountZone(highPost, made);
      case RightElbow => rightElbow := CountZone(rightElbow, made);
      case LeftElbow => leftElbow := CountZone(leftElbow, made);
      case RightWing3 => rightWing3 := CountZone(rightWing3, made);
      case LeftWing3 => leftWing3 := CountZone(leftWing3, made);
      case TopOfKey3 => topOfKey3 := CountZone(topOfKey3, made);
      case StraightDeep3 => straightDeep3 := CountZone(straightDeep3, made);
      case RightDeep3 => rightDeep3 := CountZone(rightDeep3, made);
      case LeftDeep3 => leftDeep3 := CountZone(leftDeep3, made);
    }

    /** `process_shots_by_zones` (lines 116-223): each shot is counted in the
        first zone whose test it passes, if any. The angle of a point is the
        parameter `angle`. */
    method ProcessShotsByZones(angle: AngleFn)
      modifies this
      ensures forall z :: ZoneStats(z) == TallyFlags(old(ZoneStats(z)), ZoneFlags(df, z, angle))
    {
      var i := 0;
      while i < |df|
        invariant 0 <= i <= |df|
        invariant forall z :: ZoneStats(z) == TallyFlags(old(ZoneStats(z)), ZoneFlags(df[..i], z, angle))
      {
        var shot := df[i];
        var made := IsMade(shot.eventType);
        var zone := ZoneOf(shot.locX, shot.locY, angle);
        if zone.Some? {
          RecordZone(zone.value, made);
        }
        forall z ensures ZoneStats(z) == TallyFlags(old(ZoneStats(z)), ZoneFlags(df[..i + 1], z, angle)) {
          ZoneFlagsStep(df, i, z, angle);
          if zone == Some(z) {
            TallyFlagsSnoc(old(ZoneStats(z)), ZoneFlags(df[..i], z, angle), made);
          }
        }
        i := i + 1;
      }
      assert df[..i] == df;
    }

    /** `process_shots_by_mode` (lines 294-373) on `table`. */
    method ProcessShotsByMode(table: StatTable, mode: Mode)
      requires table.Valid() && PercentDefined(table.Value(), ModeRows(mode, df))
      modifies table
      ensures table.Valid() && table.Value() == Tabulate(old(table.Value()), ModeRows(mode, df))
    {
      ghost var rows := ModeRows(mode, df);
      ghost var t := table.Value();
      var i := 0;
      while i < |df|
        invariant 0 <= i <= |df|
        invariant table.Valid() && PercentDefined(t, rows[..i])
        invariant table.Value() == Tabulate(t, rows[..i])
      {
        var shot := df[i];
        var row := Tagged(KeyOf(mode, shot), shot.eventType);
        assert row == rows[i];
        TabulateSnoc(t, rows, i);
        table.Record(row);
        i := i + 1;
      }
      assert rows[..i] == rows;
    }

    /** `process_shots_by_points` (lines 87-113) on `table`. */
    method ProcessShotsByPoints(table: StatTable)
      requires table.Valid() && PointsReady(table.Value(), df)
      modifies table
      ensures table.Valid() && table.Value() == PointsPass(old(table.Value()), df)
    {
      ghost var rows := PointsRows(df);
      ghost var t := table.Value();
      var i := 0;
      while i < |df|
        invariant 0 <= i <= |df|
        invariant table.Valid() && NoPlaceholders(table.Value()) && PercentDefined(t, rows[..i])
        invariant table.Value() == PointsTabulate(t, rows[..i], AttemptedSum(df))
      {
        var shot := df[i];
        var row := Tagged(Name(PointsKey(shot.shotType)), shot.eventType);
        var total := AttemptedSum(df);
        assert row == rows[i];
        PointsTabulateSnoc(t, rows, i, total);
        table.RecordPoints(row, total);
        i := i + 1;
      }
      assert rows[..i] == rows;
    }

    /** `process_shots_by_type` (lines 225-240). */
    method ProcessShotsByType(table: StatTable)
      requires table.Valid() && CategoryReady(table.Value(), ByType, df)
      modifies table
      ensures table.Valid() && table.Value() == CategoryPass(old(table.Value()), ByType, df)
    {
      FinalizeReady(table.Value(), ByType, df);
      ProcessShotsByMode(table, ByType);
      table.SetFrequencies(AttemptedSum(df));
    }

    /** `process_shots_by_breakdown` (lines 242-257). */
    method ProcessShotsByBreakdown(table: StatTable)
      requires table.Valid() && CategoryReady(table.Value(), ByBreakdown, df)
      modifies table
      ensures table.Valid() && table.Value() == CategoryPass(old(table.Value()), ByBreakdown, df)
    {
      FinalizeReady(table.Value(), ByBreakdown, df);
      ProcessShotsByMode(table, ByBreakdown);
      table.SetFrequencies(AttemptedSum(df));
    }

    /** `process_shots_by_distance` (lines 259-274). */
    method ProcessShotsByDistance(table: StatTable)
      requires table.Valid() && CategoryReady(table.Value(), ByDistance, df)
      modifies table
      ensures table.Valid() && table.Value() == CategoryPass(old(table.Value()), ByDistance, df)
    {
      FinalizeReady(table.Value(), ByDistance, df);
      ProcessShotsByMode(table, ByDistance);
      table.SetFrequencies(AttemptedSum(df));
    }

    /** `process_shots_by_period` (lines 276-291). */
    method ProcessShotsByPeriod(table: StatTable)
      requires table.Valid() && CategoryReady(table.Value(), ByPeriod, df)
      modifies table
      ensures table.Valid() && table.Value() == CategoryPass(old(table.Value()), ByPeriod, df)
    {
      FinalizeReady(table.Value(), ByPeriod, df);
      ProcessShotsByMode(table, ByPeriod);
      table.SetFrequencies(AttemptedSum(df));
    }

    /** One `if flag:` line of `process` (lines 78-85) for a category pass. */
    method ProcessIf(run: bool, table: StatTable, mode: Mode)
      requires table.Valid() && (run ==> CategoryReady(table.Value(), mode, df))
      modifies table
      ensures table.Valid()
      ensures table.Value() == if run then CategoryPass(old(table.Value()), mode, df) else old(table.Value())
    {
      if run {
        match mode
        case ByType => ProcessShotsByType(table);
        case ByDistance => ProcessShotsByDistance(table);
        case ByPeriod => ProcessShotsByPeriod(table);
        case ByBreakdown => ProcessShotsByBreakdown(table);
      }
    }

    /** The four category lines of `process` (lines 78-85), in their order. */
    method ProcessCategories(shotType: bool, shotDistances: bool, shotPeriods: bool, shotBreakdown: bool)
      requires Valid()
      requires shotType ==> CategoryReady(typesTable.Value(), ByType, df)
      requires shotDistances ==> CategoryReady(distancesTable.Value(), ByDistance, df)
      requires shotPeriods ==> CategoryReady(periodsTable.Value(), ByPeriod, df)
      requires shotBreakdown ==> CategoryReady(breakdownsTable.Value(), ByBreakdown, df)
      modifies typesTable, breakdownsTable, distancesTable, periodsTable
      ensures Valid()
      ensures typesTable.Value()
        == if shotType then CategoryPass(old(typesTable.Value()), ByType, df) else old(typesTable.Value())
      ensures distancesTable.Value()
        == if shotDistances then CategoryPass(old(distancesTable.Value()), ByDistance, df)
           else old(distancesTable.Value())
      ensures periodsTable.Value()
        == if shotPeriods then CategoryPass(old(periodsTable.Value()), ByPeriod, df)
           else old(periodsTable.Value())
      ensures breakdownsTable.Value()
        == if shotBreakdown then CategoryPass(old(breakdownsTable.Value()), ByBreakdown, df)
           else old(breakdownsTable.Value())
    {
      ProcessIf(shotType, typesTable, ByType);
      ProcessIf(shotDistances, distancesTable, ByDistance);
      ProcessIf(shotPeriods, periodsTable, ByPeriod);
      ProcessIf(shotBreakdown, breakdownsTable, ByBreakdown);
    }

    /** `process` (lines 56-85): nothing happens for an empty DataFrame;
        otherwise each selected pass runs, on its own dict of
        `shot_chart_data`. */
    method Process(zones: bool, points: bool, shotType: bool, shotDistances: bool,
                   shotPeriods: bool, shotBreakdown: bool, angle: AngleFn)
      requires Valid()
      requires df != [] && points ==> PointsReady(pointsTable.Value(), df)
      requires df != [] && shotType ==> CategoryReady(typesTable.Value(), ByType, df)
      requires df != [] && shotDistances ==> CategoryReady(distancesTable.Value(), ByDistance, df)
      requires df != [] && shotPeriods ==> CategoryReady(periodsTable.Value(), ByPeriod, df)
      requires df != [] && shotBreakdown ==> CategoryReady(breakdownsTable.Value(), ByBreakdown, df)
      modifies this, pointsTable, typesTable, breakdownsTable, distancesTable, periodsTable
      ensures Valid()
      ensures pointsTable.Value()
        == if df != [] && points then PointsPass(old(pointsTable.Value()), df) else old(pointsTable.Value())
      ensures forall z :: (ZoneStats(z)
        == if df != [] && zones then TallyFlags(old(ZoneStats(z)), ZoneFlags(df, z, angle)) else old(ZoneStats(z)))
      ensures typesTable.Value()
        == if df != [] && shotType then CategoryPass(old(typesTable.Value()), ByType, df) else old(typesTable.Value())
      ensures distancesTable.Value()
        == if df != [] && shotDistances then CategoryPass(old(distancesTable.Value()), ByDistance, df)
           else old(distancesTable.Value())
      ensures periodsTable.Value()
        == if df != [] && shotPeriods then CategoryPass(old(periodsTable.Value()), ByPeriod, df)
           else old(periodsTable.Value())
      ensures breakdownsTable.Value()
        == if df != [] && shotBreakdown then CategoryPass(old(breakdownsTable.Value()), ByBreakdown, df)
           else old(breakdownsTable.Value())
    {
      if df != [] {
        if points {
          ProcessShotsByPoints(pointsTable);
        }
        if zones {
          ProcessShotsByZones(angle);
        }
        ProcessCategories(shotType, shotDistances, shotPeriods, shotBreakdown);
      }
    }
  }
}
