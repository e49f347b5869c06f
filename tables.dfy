/**
 * The aggregation tables of classes/shotchart.py: one Python dict per
 * breakdown, mapping a bucket label to a record {made, missed, attempted,
 * percent, frequency}, updated in place one shot at a time.
 *
 * The pure functions here say what a table holds after an update; the class
 * `StatTable` is the dict itself, and its methods are proved to follow them.
 * Percent and frequency are exact reals; a division the source performs by
 * zero is excluded by a precondition.
 */
module Tables {

  /** A bucket key: the source keys its dicts by strings, except the period
      table, which is keyed by the integer period. */
  datatype Label = Name(name: string) | Period(period: int)

  /** The record kept per bucket. */
  datatype Stats = Stats(made: nat, missed: nat, attempted: nat, percent: real, frequency: real)

  /** `dict.fromkeys(["made", "missed", "attempted", "percent", "frequency"], 0)`. */
  const Zero: Stats := Stats(0, 0, 0, 0.0, 0.0)

  /** A dict value: the placeholder `0` seeded by `OrderedDict.fromkeys(..., 0)`
      (classes/shotchart.py:52-53), or a record. */
  datatype Slot = Placeholder | Filled(stats: Stats)

  /** A dict: its keys in insertion order and its contents. */
  datatype Table = Table(keys: seq<Label>, slots: map<Label, Slot>)

  /** One shot as a pass sees it: the bucket it falls in and its EVENT_TYPE. */
  datatype Tagged = Tagged(key: Label, event: string)

  const MadeShot: string := "Made Shot"
  const MissedShot: string := "Missed Shot"

  /** The two events that change a counter in the points and category passes. */
  predicate IsOutcome(event: string) {
    event == MadeShot || event == MissedShot
  }

  /** What every update re-establishes: attempted is made + missed and percent
      is made / attempted. */
  predicate Consistent(s: Stats) {
    && s.attempted == s.made + s.missed
    && (s.attempted > 0 ==> s.percent == s.made as real / s.attempted as real)
  }

  /** `part / whole` as Python's true division computes it, exactly. */
  function Ratio(part: int, whole: int): real
    requires whole != 0
  {
    part as real / whole as real
  }

  /** Recompute attempted and percent from the counters (lines 106-107, 372-373). */
  function Refresh(s: Stats): (r: Stats)
    requires s.made + s.missed > 0
    ensures Consistent(r) && r.attempted > 0
    ensures r.made == s.made && r.missed == s.missed && r.frequency == s.frequency
    ensures 0.0 <= r.percent <= 1.0
  {
    var attempted := s.made + s.missed;
    Stats(s.made, s.missed, attempted, s.made as real / attempted as real, s.frequency)
  }

  /** Count one shot with the given event in a record (lines 99-107, 365-373):
      only "Made Shot" and "Missed Shot" move a counter; then attempted and
      percent are recomputed, which divides by zero unless some shot has been
      counted. */
  function Count(s: Stats, event: string): (r: Stats)
    requires IsOutcome(event) || s.made + s.missed > 0
    ensures Consistent(r) && r.attempted > 0
    ensures r.made == s.made + (if event == MadeShot then 1 else 0)
    ensures r.missed == s.missed + (if event == MissedShot then 1 else 0)
    ensures r.frequency == s.frequency
  {
    if event == MadeShot then Refresh(s.(made := s.made + 1))
    else if event == MissedShot then Refresh(s.(missed := s.missed + 1))
    else Refresh(s)
  }

  /** The share of `total` attempts that a bucket's attempts make up (lines 111, 383). */
  function WithFrequency(s: Stats, total: int): (r: Stats)
    requires total != 0
    ensures r.frequency == Ratio(s.attempted, total)
    ensures r.(frequency := s.frequency) == s
  {
    s.(frequency := Ratio(s.attempted, total))
  }

  /** The record a slot holds, the zero record for a placeholder or a missing key. */
  function StatsAt(slots: map<Label, Slot>, k: Label): Stats {
    if k in slots && slots[k].Filled? then slots[k].stats else Zero
  }

  /** Bucket `k` holds a record in which some shot has been counted. */
  predicate Counted(t: Table, k: Label) {
    k in t.slots && t.slots[k].Filled? && t.slots[k].stats.made + t.slots[k].stats.missed > 0
  }

  /** The insertion order lists each key of the dict exactly once. */
  ghost predicate WellFormed(t: Table) {
    && (forall i, j :: 0 <= i < j < |t.keys| ==> t.keys[i] != t.keys[j])
    && (forall k :: k in t.slots <==> k in t.keys)
  }

  ghost predicate NoPlaceholders(t: Table) {
    forall k :: k in t.slots ==> t.slots[k].Filled?
  }

  ghost predicate AllConsistent(t: Table) {
    forall k :: k in t.slots && t.slots[k].Filled? ==> Consistent(t.slots[k].stats)
  }

  /** `OrderedDict.fromkeys(labels, 0)`. */
  function Seed(labels: seq<Label>): (t: Table)
    requires forall i, j :: 0 <= i < j < |labels| ==> labels[i] != labels[j]
    ensures WellFormed(t) && AllConsistent(t) && t.keys == labels
    ensures forall k :: k in t.slots ==> t.slots[k] == Placeholder
  {
    Table(labels, map k | k in labels :: Placeholder)
  }

  /** `d[key] = v`: a key already present keeps its place, a new key goes last. */
  function Put(t: Table, key: Label, s: Stats): (r: Table)
    ensures r.keys == if key in t.slots then t.keys else t.keys + [key]
    ensures WellFormed(t) ==> WellFormed(r)
    ensures NoPlaceholders(t) ==> NoPlaceholders(r)
    ensures key in r.slots && r.slots[key] == Filled(s)
    ensures forall k :: k != key ==> (k in r.slots <==> k in t.slots) && (k in t.slots ==> r.slots[k] == t.slots[k])
  {
    Table(if key in t.slots then t.keys else t.keys + [key], t.slots[key := Filled(s)])
  }

  /** A second store to the same key overrides the first. */
  lemma PutTwice(t: Table, key: Label, a: Stats, b: Stats)
    ensures Put(Put(t, key, a), key, b) == Put(t, key, b)
  {
    assert t.slots[key := Filled(a)][key := Filled(b)] == t.slots[key := Filled(b)];
  }

  /** One shot of a category pass (lines 360-373): a missing key or a
      placeholder gets a zero record first, then the shot is counted. */
  function Recorded(t: Table, row: Tagged): (r: Table)
    requires IsOutcome(row.event) || Counted(t, row.key)
    ensures Counted(r, row.key)
    ensures forall k :: Counted(t, k) ==> Counted(r, k)
  {
    Put(t, row.key, Count(StatsAt(t.slots, row.key), row.event))
  }

  /** The number of shots that fall in bucket `k`. */
  function Hits(rows: seq<Tagged>, k: Label): nat {
    if rows == [] then 0
    else Hits(rows[..|rows| - 1], k) + (if rows[|rows| - 1].key == k then 1 else 0)
  }

  /** A bucket is hit exactly when some shot falls in it. */
  lemma {:induction false} HitsPositive(rows: seq<Tagged>, k: Label)
    ensures Hits(rows, k) > 0 <==> exists i :: 0 <= i < |rows| && rows[i].key == k
    decreases |rows|
  {
    if rows != [] {
      var n := |rows| - 1;
      HitsPositive(rows[..n], k);
      if Hits(rows[..n], k) > 0 {
        var i :| 0 <= i < n && rows[..n][i].key == k;
        assert rows[i].key == k;
      }
      if exists i :: 0 <= i < |rows| && rows[i].key == k {
        var i :| 0 <= i < |rows| && rows[i].key == k;
        if i < n { assert rows[..n][i].key == k; }
      }
    }
  }

  /** The pass never divides by zero at line 373: every shot is made or missed,
      or its bucket already holds a counted shot (before the pass, or from an
      earlier shot of the pass). */
  ghost predicate PercentDefined(t: Table, rows: seq<Tagged>) {
    forall i :: 0 <= i < |rows| ==>
      || IsOutcome(rows[i].event)
      || Counted(t, rows[i].key)
      || exists j :: 0 <= j < i && rows[j].key == rows[i].key
  }

  lemma PercentDefinedPrefix(t: Table, rows: seq<Tagged>, n: nat)
    requires PercentDefined(t, rows) && n <= |rows|
    ensures PercentDefined(t, rows[..n])
  {
    forall i | 0 <= i < n
      ensures IsOutcome(rows[..n][i].event) || Counted(t, rows[..n][i].key)
              || exists j :: 0 <= j < i && rows[..n][j].key == rows[..n][i].key
    {
      if exists j :: 0 <= j < i && rows[j].key == rows[i].key {
        var j :| 0 <= j < i && rows[j].key == rows[i].key;
        assert rows[..n][j].key == rows[..n][i].key;
      }
    }
  }

  /** The table after a category pass over `rows` (the loop at lines 304-373). */
  function Tabulate(t: Table, rows: seq<Tagged>): (r: Table)
    requires PercentDefined(t, rows)
    ensures forall k :: Counted(t, k) ==> Counted(r, k)
    ensures forall i :: 0 <= i < |rows| ==> Counted(r, rows[i].key)
    decreases |rows|, 0
  {
    if rows == [] then t
    else
      var n := |rows| - 1;
      PercentDefinedPrefix(t, rows, n);
      NextShotReady(t, rows, n);
      var p := Tabulate(t, rows[..n]);
      var r := Recorded(p, rows[n]);
      assert forall i :: 0 <= i < n ==> Counted(r, rows[i].key) by {
        forall i | 0 <= i < n ensures Counted(r, rows[i].key) {
          assert rows[..n][i] == rows[i];
        }
      }
      r
  }

  /** Within a pass, the shot at index `n` can be counted: it is made or
      missed, or its bucket has been counted by then. */
  lemma NextShotReady(t: Table, rows: seq<Tagged>, n: nat)
    requires PercentDefined(t, rows) && n < |rows|
    ensures PercentDefined(t, rows[..n])
    ensures IsOutcome(rows[n].event) || Counted(Tabulate(t, rows[..n]), rows[n].key)
    decreases n, 1
  {
    PercentDefinedPrefix(t, rows, n);
    if !IsOutcome(rows[n].event) && !Counted(t, rows[n].key) {
      var j :| 0 <= j < n && rows[j].key == rows[n].key;
      assert rows[..n][j] == rows[j];
    }
  }

  /** One more shot of a pass is one more `Recorded` step. */
  lemma TabulateSnoc(t: Table, rows: seq<Tagged>, n: nat)
    requires PercentDefined(t, rows) && n < |rows|
    ensures PercentDefined(t, rows[..n]) && PercentDefined(t, rows[..n + 1])
    ensures IsOutcome(rows[n].event) || Counted(Tabulate(t, rows[..n]), rows[n].key)
    ensures Tabulate(t, rows[..n + 1]) == Recorded(Tabulate(t, rows[..n]), rows[n])
  {
    NextShotReady(t, rows, n);
    PercentDefinedPrefix(t, rows, n + 1);
    assert rows[..n + 1][..n] == rows[..n];
  }

  /** The number of shots of bucket `k` with event `event`. */
  function EventCount(rows: seq<Tagged>, k: Label, event: string): nat {
    if rows == [] then 0
    else
      var n := |rows| - 1;
      EventCount(rows[..n], k, event) + (if rows[n].key == k && rows[n].event == event then 1 else 0)
  }

  /** One shot changes only its own bucket, by `Count`. */
  lemma RecordedAt(t: Table, row: Tagged, k: Label)
    requires IsOutcome(row.event) || Counted(t, row.key)
    ensures var r := Recorded(t, row);
      && StatsAt(r.slots, k) == (if k == row.key then Count(StatsAt(t.slots, k), row.event) else StatsAt(t.slots, k))
      && (k in r.slots <==> k in t.slots || k == row.key)
      && (k != row.key && k in t.slots ==> r.slots[k] == t.slots[k])
      && (k == row.key ==> r.slots[k].Filled?)
  {
  }

  /** After a category pass, each bucket's made and missed counters grew by
      exactly the number of its made and missed shots, and its frequency is
      untouched. */
  lemma {:induction false} TabulateCounts(t: Table, rows: seq<Tagged>, k: Label)
    requires PercentDefined(t, rows)
    ensures var r := Tabulate(t, rows);
      && StatsAt(r.slots, k).made == StatsAt(t.slots, k).made + EventCount(rows, k, MadeShot)
      && StatsAt(r.slots, k).missed == StatsAt(t.slots, k).missed + EventCount(rows, k, MissedShot)
      && StatsAt(r.slots, k).frequency == StatsAt(t.slots, k).frequency
    decreases |rows|
  {
    if rows != [] {
      var n := |rows| - 1;
      NextShotReady(t, rows, n);
      TabulateCounts(t, rows[..n], k);
      RecordedAt(Tabulate(t, rows[..n]), rows[n], k);
    }
  }

  /** After a category pass, a bucket that received a shot holds a
      consistent record, and a bucket that received none is as before. */
  lemma {:induction false} TabulateTouches(t: Table, rows: seq<Tagged>, k: Label)
    requires PercentDefined(t, rows)
    ensures var r := Tabulate(t, rows);
      && (Hits(rows, k) > 0 ==> k in r.slots && r.slots[k].Filled? && Consistent(r.slots[k].stats))
      && (Hits(rows, k) == 0 ==> (k in r.slots <==> k in t.slots) && (k in t.slots ==> r.slots[k] == t.slots[k]))
    decreases |rows|
  {
    if rows != [] {
      var n := |rows| - 1;
      NextShotReady(t, rows, n);
      TabulateTouches(t, rows[..n], k);
      RecordedAt(Tabulate(t, rows[..n]), rows[n], k);
    }
  }

  /** `keys` followed by each key the rows carry that is not yet listed, in
      the order the rows first carry them: the order in which assignments to
      a Python dict insert new keys. The given keys come first. */
  function Appended(keys: seq<Label>, rows: seq<Tagged>): (r: seq<Label>)
    ensures |keys| <= |r| && r[..|keys|] == keys
    decreases |rows|
  {
    if rows == [] then keys
    else
      var p := Appended(keys, rows[..|rows| - 1]);
      if rows[|rows| - 1].key in p then p else p + [rows[|rows| - 1].key]
  }

  /** Every row's key is listed by `Appended`, and every key it adds is
      carried by some row. */
  lemma {:induction false} AppendedMembers(keys: seq<Label>, rows: seq<Tagged>)
    ensures forall i :: 0 <= i < |rows| ==> rows[i].key in Appended(keys, rows)
    ensures forall a :: |keys| <= a < |Appended(keys, rows)| ==>
              exists i :: 0 <= i < |rows| && rows[i].key == Appended(keys, rows)[a]
    decreases |rows|
  {
    if rows != [] {
      var n := |rows| - 1;
      var front := rows[..n];
      AppendedMembers(keys, front);
      var p := Appended(keys, front);
      var r := Appended(keys, rows);
      assert r == if rows[n].key in p then p else p + [rows[n].key];
      forall i | 0 <= i < |rows| ensures rows[i].key in r {
        if i < n {
          assert rows[i] == front[i];
        }
      }
      forall a | |keys| <= a < |r| ensures exists i :: 0 <= i < |rows| && rows[i].key == r[a] {
        if a < |p| {
          var i :| 0 <= i < n && front[i].key == p[a];
          assert rows[i] == front[i] && r[a] == p[a];
        } else {
          assert r[a] == rows[n].key;
        }
      }
    } else {
      assert Appended(keys, rows) == keys;
    }
  }

  /** Keys added by `Appended` come in first-seen order: wherever the rows
      carry a later added key, an earlier added key has been carried before. */
  lemma {:induction false} AppendedInFirstSeenOrder(keys: seq<Label>, rows: seq<Tagged>, a: nat, b: nat, j: nat)
    requires |keys| <= a < b < |Appended(keys, rows)|
    requires j < |rows| && rows[j].key == Appended(keys, rows)[b]
    ensures exists i :: 0 <= i < j && rows[i].key == Appended(keys, rows)[a]
    decreases |rows|
  {
    var n := |rows| - 1;
    var front := rows[..n];
    var p := Appended(keys, front);
    var r := Appended(keys, rows);
    assert r == if rows[n].key in p then p else p + [rows[n].key];
    assert a < |p| && r[a] == p[a];
    assert exists i :: 0 <= i < n && front[i].key == p[a] by {
      AppendedMembers(keys, front);
    }
    var i :| 0 <= i < n && front[i].key == p[a];
    assert rows[i] == front[i];
    if b < |p| && j < n {
      assert r[b] == p[b] && front[j].key == p[b];
      AppendedInFirstSeenOrder(keys, front, a, b, j);
      var i' :| 0 <= i' < j && front[i'].key == p[a];
      assert rows[i'] == front[i'];
    } else if |p| <= b {
      assert j == n by {
        assert r[b] == rows[n].key && rows[n].key !in p;
        AppendedMembers(keys, front);
        assert forall i :: 0 <= i < n ==> rows[i].key == front[i].key;
      }
    }
  }

  /** A category pass keeps the keys distinct, keeps the existing keys in
      their order, and appends each new key after them in the order the
      shots first bring it. */
  lemma TabulateKeepsOrder(t: Table, rows: seq<Tagged>)
    requires WellFormed(t) && PercentDefined(t, rows)
    ensures var r := Tabulate(t, rows);
      WellFormed(r) && |t.keys| <= |r.keys| && r.keys[..|t.keys|] == t.keys
    ensures Tabulate(t, rows).keys == Appended(t.keys, rows)
  {
    TabulateAppends(t, rows);
  }

  /** The induction behind `TabulateKeepsOrder`. */
  lemma {:induction false} TabulateAppends(t: Table, rows: seq<Tagged>)
    requires WellFormed(t) && PercentDefined(t, rows)
    ensures WellFormed(Tabulate(t, rows)) && Tabulate(t, rows).keys == Appended(t.keys, rows)
    decreases |rows|
  {
    if rows != [] {
      var n := |rows| - 1;
      TabulateSnoc(t, rows, n);
      TabulateAppends(t, rows[..n]);
      assert rows[..n + 1] == rows;
      RecordedKeys(Tabulate(t, rows[..n]), rows[n]);
    }
  }

  /** One shot of a category pass appends its bucket to the key order exactly
      when the bucket is new, and keeps the keys distinct. */
  lemma RecordedKeys(p: Table, row: Tagged)
    requires WellFormed(p) && (IsOutcome(row.event) || Counted(p, row.key))
    ensures Recorded(p, row).keys == if row.key in p.keys then p.keys else p.keys + [row.key]
    ensures WellFormed(Recorded(p, row))
  {
  }

  /** The sum of attempted over the buckets listed in `keys`. */
  function AttemptedOver(keys: seq<Label>, slots: map<Label, Slot>): nat {
    if keys == [] then 0
    else AttemptedOver(keys[..|keys| - 1], slots) + StatsAt(slots, keys[|keys| - 1]).attempted
  }

  /** The sum of attempted over all buckets of a table. */
  function AttemptedTotal(t: Table): nat {
    AttemptedOver(t.keys, t.slots)
  }

  /** The number of shots that are made or missed. */
  function OutcomeCount(rows: seq<Tagged>): nat {
    if rows == [] then 0
    else OutcomeCount(rows[..|rows| - 1]) + (if IsOutcome(rows[|rows| - 1].event) then 1 else 0)
  }

  /** Changing one slot changes the sum by that slot's change, when the key is
      listed once, and not at all when it is not listed. */
  lemma {:induction false} AttemptedOverUpdate(keys: seq<Label>, slots: map<Label, Slot>, k: Label, v: Slot)
    requires forall i, j :: 0 <= i < j < |keys| ==> keys[i] != keys[j]
    ensures AttemptedOver(keys, slots[k := v]) + (if k in keys then StatsAt(slots, k).attempted else 0)
         == AttemptedOver(keys, slots) + (if k in keys then StatsAt(slots[k := v], k).attempted else 0)
    decreases |keys|
  {
    if keys != [] {
      var n := |keys| - 1;
      AttemptedOverUpdate(keys[..n], slots, k, v);
      if keys[n] == k {
        assert forall i :: 0 <= i < n ==> keys[..n][i] != k;
      } else {
        assert keys == keys[..n] + [keys[n]];
      }
    }
  }

  /** Storing a record under a key replaces that bucket's attempted in the sum. */
  lemma PutAttempted(t: Table, key: Label, s: Stats)
    requires WellFormed(t)
    ensures AttemptedTotal(Put(t, key, s)) + StatsAt(t.slots, key).attempted == AttemptedTotal(t) + s.attempted
  {
    var r := Put(t, key, s);
    AttemptedOverUpdate(t.keys, t.slots, key, Filled(s));
    if key !in t.slots {
      assert r.keys[..|t.keys|] == t.keys;
    }
  }

  /** A category pass that starts from consistent records leaves every
      record consistent. */
  lemma {:induction false} TabulateConsistent(t: Table, rows: seq<Tagged>)
    requires AllConsistent(t) && PercentDefined(t, rows)
    ensures AllConsistent(Tabulate(t, rows))
    decreases |rows|
  {
    if rows != [] {
      var n := |rows| - 1;
      PercentDefinedPrefix(t, rows, n);
      TabulateConsistent(t, rows[..n]);
      var p := Tabulate(t, rows[..n]);
      forall k | k in Tabulate(t, rows).slots && Tabulate(t, rows).slots[k].Filled?
        ensures Consistent(Tabulate(t, rows).slots[k].stats)
      {
        RecordedAt(p, rows[n], k);
      }
    }
  }

  /** Over a category pass that starts from consistent records, the attempts
      summed over all buckets grow by exactly the number of made and missed
      shots. */
  lemma {:induction false} TabulateAttempted(t: Table, rows: seq<Tagged>)
    requires WellFormed(t) && AllConsistent(t) && PercentDefined(t, rows)
    ensures AttemptedTotal(Tabulate(t, rows)) == AttemptedTotal(t) + OutcomeCount(rows)
    decreases |rows|
  {
    if rows != [] {
      var n := |rows| - 1;
      TabulateSnoc(t, rows, n);
      assert rows[..n + 1] == rows;
      TabulateAttempted(t, rows[..n]);
      TabulateConsistent(t, rows[..n]);
      TabulateAppends(t, rows[..n]);
      RecordedAttempted(Tabulate(t, rows[..n]), rows[n]);
    }
  }

  /** One shot of a category pass adds one attempt to the table's sum when it
      is made or missed, and none otherwise. */
  lemma RecordedAttempted(p: Table, row: Tagged)
    requires WellFormed(p) && AllConsistent(p) && (IsOutcome(row.event) || Counted(p, row.key))
    ensures AttemptedTotal(Recorded(p, row)) == AttemptedTotal(p) + (if IsOutcome(row.event) then 1 else 0)
  {
    var before := StatsAt(p.slots, row.key);
    var after := Count(before, row.event);
    assert after.attempted == before.attempted + (if IsOutcome(row.event) then 1 else 0);
    PutAttempted(p, row.key, after);
  }

  /** The sum of frequency over the buckets listed in `keys`. */
  function FrequencyOver(keys: seq<Label>, slots: map<Label, Slot>): real {
    if keys == [] then 0.0
    else FrequencyOver(keys[..|keys| - 1], slots) + StatsAt(slots, keys[|keys| - 1]).frequency
  }

  /** `process_column_frequency` (lines 375-383): every bucket's frequency
      becomes its attempted over `total`. A placeholder has no "attempted" and
      makes the source fail; a zero total, a NumPy sum, would give inf or nan
      rather than a number. Both are excluded. */
  function Finalized(t: Table, total: int): (r: Table)
    requires NoPlaceholders(t) && (t.slots != map[] ==> total != 0)
    ensures r.keys == t.keys && r.slots.Keys == t.slots.Keys
    ensures forall k :: k in r.slots ==> r.slots[k] == Filled(WithFrequency(t.slots[k].stats, total))
  {
    Table(t.keys, map k | k in t.slots :: Filled(WithFrequency(t.slots[k].stats, total)))
  }

  /** After `process_column_frequency` a bucket keeps its counters and holds
      frequency = attempted / `total`. */
  lemma FinalizedBucket(t: Table, total: int, k: Label)
    requires NoPlaceholders(t) && total != 0 && k in t.slots
    ensures var s := Finalized(t, total).slots[k].stats;
      && s.(frequency := t.slots[k].stats.frequency) == t.slots[k].stats
      && s.made == t.slots[k].stats.made && s.missed == t.slots[k].stats.missed
      && s.attempted == t.slots[k].stats.attempted && s.percent == t.slots[k].stats.percent
      && s.frequency == Ratio(s.attempted, total)
  {
    var u := t.slots[k].stats;
    assert Finalized(t, total).slots[k].stats == WithFrequency(u, total);
  }

  /** Shares of the same whole add up. */
  lemma RatioSum(a: int, b: int, whole: int)
    requires whole != 0
    ensures Ratio(a, whole) + Ratio(b, whole) == Ratio(a + b, whole)
  {
    var w := whole as real;
    var x := a as real / w;
    var y := b as real / w;
    assert x * w == a as real && y * w == b as real;
    assert (x + y) * w == (a + b) as real;
  }

  lemma RatioOfWhole(whole: int)
    requires whole != 0
    ensures Ratio(whole, whole) == 1.0
  {
    var w := whole as real;
    assert w / w == 1.0;
  }

  /** After `process_column_frequency` the frequencies add up to the total of
      attempted over the buckets, divided by `total`. */
  lemma {:induction false} FrequencyOverFinalized(t: Table, total: int, keys: seq<Label>)
    requires NoPlaceholders(t) && total != 0
    requires forall k :: k in keys ==> k in t.slots
    ensures FrequencyOver(keys, Finalized(t, total).slots) == Ratio(AttemptedOver(keys, t.slots), total)
    decreases |keys|
  {
    if keys != [] {
      var n := |keys| - 1;
      FrequencyOverFinalized(t, total, keys[..n]);
      var a := AttemptedOver(keys[..n], t.slots);
      var b := StatsAt(t.slots, keys[n]).attempted;
      RatioSum(a, b, total);
      assert StatsAt(Finalized(t, total).slots, keys[n]).frequency == Ratio(b, total);
    }
  }

  /** The points pass's update for one shot (lines 91-111): a missing key gets
      a zero record, the shot is counted, and the bucket's frequency becomes
      its attempted over `total`. */
  function PointsRecorded(t: Table, row: Tagged, total: int): (r: Table)
    requires IsOutcome(row.event) || Counted(t, row.key)
    requires total != 0
    ensures Counted(r, row.key)
    ensures forall k :: Counted(t, k) ==> Counted(r, k)
  {
    Put(t, row.key, WithFrequency(Count(StatsAt(t.slots, row.key), row.event), total))
  }

  /** The table after the points pass (lines 89-111). */
  function PointsTabulate(t: Table, rows: seq<Tagged>, total: int): (r: Table)
    requires PercentDefined(t, rows) && (rows != [] ==> total != 0)
    ensures forall k :: Counted(t, k) ==> Counted(r, k)
    ensures forall i :: 0 <= i < |rows| ==> Counted(r, rows[i].key)
    decreases |rows|, 0
  {
    if rows == [] then t
    else
      var n := |rows| - 1;
      PointsNextShotReady(t, rows, n, total);
      var p := PointsTabulate(t, rows[..n], total);
      assert forall i :: 0 <= i < n ==> Counted(p, rows[i].key) by {
        forall i | 0 <= i < n ensures Counted(p, rows[i].key) {
          assert rows[..n][i] == rows[i];
        }
      }
      PointsStepCounts(p, rows, total);
      var r := PointsRecorded(p, rows[n], total);
      r
  }

  /** One step of the points pass keeps the buckets the earlier shots filled
      and fills the bucket of its own shot. */
  lemma PointsStepCounts(p: Table, rows: seq<Tagged>, total: int)
    requires rows != [] && total != 0
    requires forall i :: 0 <= i < |rows| - 1 ==> Counted(p, rows[i].key)
    requires IsOutcome(rows[|rows| - 1].event) || Counted(p, rows[|rows| - 1].key)
    ensures forall i :: 0 <= i < |rows| ==> Counted(PointsRecorded(p, rows[|rows| - 1], total), rows[i].key)
  {
  }

  /** Within the points pass, the shot at index `n` can be counted. */
  lemma PointsNextShotReady(t: Table, rows: seq<Tagged>, n: nat, total: int)
    requires PercentDefined(t, rows) && n < |rows| && total != 0
    ensures PercentDefined(t, rows[..n])
    ensures IsOutcome(rows[n].event) || Counted(PointsTabulate(t, rows[..n], total), rows[n].key)
    decreases n, 1
  {
    PercentDefinedPrefix(t, rows, n);
    if !IsOutcome(rows[n].event) && !Counted(t, rows[n].key) {
      var j :| 0 <= j < n && rows[j].key == rows[n].key;
      assert rows[..n][j] == rows[j];
    }
  }

  /** One more shot of the points pass is one more `PointsRecorded` step. */
  lemma PointsTabulateSnoc(t: Table, rows: seq<Tagged>, n: nat, total: int)
    requires PercentDefined(t, rows) && n < |rows| && total != 0
    ensures PercentDefined(t, rows[..n]) && PercentDefined(t, rows[..n + 1])
    ensures IsOutcome(rows[n].event) || Counted(PointsTabulate(t, rows[..n], total), rows[n].key)
    ensures PointsTabulate(t, rows[..n + 1], total) == PointsRecorded(PointsTabulate(t, rows[..n], total), rows[n], total)
  {
    PointsNextShotReady(t, rows, n, total);
    PercentDefinedPrefix(t, rows, n + 1);
    assert rows[..n + 1][..n] == rows[..n];
  }

  /** Bucket `k` of a points-pass table `p` holds what bucket `k` of a
      category-pass table `r` holds, with the frequency set to attempted /
      `total` once the bucket has received a shot. */
  ghost predicate Agree(p: Table, r: Table, total: int, k: Label, hit: bool) {
    && (k in p.slots <==> k in r.slots)
    && (k in r.slots ==>
          p.slots[k] == if hit && total != 0 then Filled(WithFrequency(StatsAt(r.slots, k), total)) else r.slots[k])
  }

  /** One shot keeps the two passes in agreement. */
  lemma PointsStep(p: Table, r: Table, row: Tagged, total: int, k: Label, hitK: bool, hitKey: bool)
    requires IsOutcome(row.event) || Counted(r, row.key)
    requires total != 0
    requires Agree(p, r, total, k, hitK) && Agree(p, r, total, row.key, hitKey)
    ensures IsOutcome(row.event) || Counted(p, row.key)
    ensures Agree(PointsRecorded(p, row, total), Recorded(r, row), total, k, hitK || k == row.key)
  {
    var s := StatsAt(p.slots, row.key);
    var u := StatsAt(r.slots, row.key);
    assert s.(frequency := u.frequency) == u;
    assert Count(s, row.event).(frequency := u.frequency) == Count(u, row.event);
  }

  /** The points pass counts exactly like a category pass; it differs only in
      that each bucket that received a shot ends with frequency attempted /
      `total`, because the frequency is recomputed on every shot of the bucket
      and attempted never changes after its last one. */
  lemma {:induction false} PointsTabulateIsTabulate(t: Table, rows: seq<Tagged>, total: int, k: Label)
    requires PercentDefined(t, rows) && (rows != [] ==> total != 0)
    ensures Agree(PointsTabulate(t, rows, total), Tabulate(t, rows), total, k, Hits(rows, k) > 0)
    decreases |rows|
  {
    if rows != [] {
      var n := |rows| - 1;
      var key := rows[n].key;
      PercentDefinedPrefix(t, rows, n);
      PointsTabulateIsTabulate(t, rows[..n], total, k);
      PointsTabulateIsTabulate(t, rows[..n], total, key);
      NextShotReady(t, rows, n);
      var p := PointsTabulate(t, rows[..n], total);
      var r := Tabulate(t, rows[..n]);
      PointsStep(p, r, rows[n], total, k, Hits(rows[..n], k) > 0, Hits(rows[..n], key) > 0);
    }
  }

  /** Both passes list their keys in the same order. */
  lemma {:induction false} PointsTabulateKeys(t: Table, rows: seq<Tagged>, total: int)
    requires PercentDefined(t, rows) && (rows != [] ==> total != 0)
    ensures PointsTabulate(t, rows, total).keys == Tabulate(t, rows).keys
    decreases |rows|
  {
    if rows != [] {
      var n := |rows| - 1;
      PercentDefinedPrefix(t, rows, n);
      PointsTabulateKeys(t, rows[..n], total);
      PointsTabulateIsTabulate(t, rows[..n], total, rows[n].key);
    }
  }

  /** One Python dict of the shot chart, updated in place. */
  class StatTable {
    var keys: seq<Label>
    var slots: map<Label, Slot>

    /** The dict's current contents. */
    function Value(): Table
      reads this
    {
      Table(keys, slots)
    }

    ghost predicate Valid()
      reads this
    {
      WellFormed(Value())
    }

    /** An empty dict `{}`. */
    constructor Empty()
      ensures Valid() && Value() == Table([], map[])
    {
      keys := [];
      slots := map[];
    }

    /** `OrderedDict.fromkeys(labels, 0)`. */
    constructor Seeded(labels: seq<Label>)
      requires forall i, j :: 0 <= i < j < |labels| ==> labels[i] != labels[j]
      ensures Valid() && Value() == Seed(labels)
    {
      keys := labels;
      slots := map k | k in labels :: Placeholder;
    }

    /** `d[key] = v`. */
    method Store(key: Label, s: Stats)
      requires Valid()
      modifies this
      ensures Valid() && Value() == Put(old(Value()), key, s)
    {
      if key !in slots {
        keys := keys + [key];
      }
      slots := slots[key := Filled(s)];
    }

    /** The body of the loop of `process_shots_by_mode` after the key is chosen
        (lines 360-373). */
    method Record(row: Tagged)
      requires Valid() && (IsOutcome(row.event) || Counted(Value(), row.key))
      modifies this
      ensures Valid() && Value() == Recorded(old(Value()), row)
    {
      ghost var before := Value();
      var key := row.key;
      if key !in slots || slots[key] == Placeholder {
        Store(key, Zero);
      }
      var s := slots[key].stats;
      ghost var c := StatsAt(before.slots, key);
      assert s == c;
      if row.event == MadeShot {
        s := s.(made := s.made + 1);
      } else if row.event == MissedShot {
        s := s.(missed := s.missed + 1);
      }
      ghost var bumped := s;
      assert bumped.made + bumped.missed > 0;
      s := s.(attempted := s.made + s.missed);
      s := s.(percent := s.made as real / s.attempted as real);
      assert s == Refresh(bumped);
      assert s == Count(c, row.event);
      Store(key, s);
      PutTwice(before, key, Zero, s);
    }

    /** The body of the loop of `process_shots_by_points` after the key is
        chosen (lines 94-111); `total` is the sum of the attempted flags. */
    method RecordPoints(row: Tagged, total: int)
      requires Valid() && NoPlaceholders(Value())
      requires (IsOutcome(row.event) || Counted(Value(), row.key)) && total != 0
      modifies this
      ensures Valid() && NoPlaceholders(Value())
      ensures Value() == PointsRecorded(old(Value()), row, total)
    {
      ghost var before := Value();
      var key := row.key;
      if key !in slots {
        Store(key, Zero);
      }
      var s := slots[key].stats;
      ghost var c := StatsAt(before.slots, key);
      assert s == c;
      if row.event == MadeShot {
        s := s.(made := s.made + 1);
      } else if row.event == MissedShot {
        s := s.(missed := s.missed + 1);
      }
      ghost var bumped := s;
      assert bumped.made + bumped.missed > 0;
      s := s.(attempted := s.made + s.missed);
      s := s.(percent := s.made as real / s.attempted as real);
      assert s == Refresh(bumped);
      assert s == Count(c, row.event);
      s := s.(frequency := s.attempted as real / total as real);
      Store(key, s);
      PutTwice(before, key, Zero, s);
    }

    /** `process_column_frequency` (lines 375-383). */
    method SetFrequencies(total: int)
      requires Valid() && NoPlaceholders(Value()) && (slots != map[] ==> total != 0)
      modifies this
      ensures Valid() && Value() == Finalized(old(Value()), total)
    {
      ghost var before := slots;
      var i := 0;
      while i < |keys|
        invariant 0 <= i <= |keys| && keys == old(keys)
        invariant slots.Keys == before.Keys
        invariant forall k :: k in slots ==>
          slots[k] == if k in keys[..i] then Filled(WithFrequency(before[k].stats, total)) else before[k]
      {
        var key := keys[i];
        assert forall j :: 0 <= j < i ==> keys[..i][j] != key;
        slots := slots[key := Filled(WithFrequency(slots[key].stats, total))];
        assert keys[..i + 1] == keys[..i] + [key];
        i := i + 1;
      }
      assert keys[..i] == keys;
      assert slots == Finalized(old(Value()), total).slots;
    }
  }
}
