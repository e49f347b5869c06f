/**
 * The court-zone classifier: the `if`/`elif` chain inside
 * `process_shots_by_zones` (classes/shotchart.py:121-223).
 *
 * Each branch is a region test on the shot's `LOC_X`/`LOC_Y`; the first branch
 * whose test holds decides the zone, and a point that passes no test is left
 * out of the zone tables. The tests are reproduced as written, including the
 * literal -220 of the right-block test, the left-block test that compares
 * `LOC_Y` where `LOC_X` would be expected, the reversed slice (158, 22) of the
 * two wing tests, and the Right Deep 3 test that repeats Straight Deep 3's.
 */
module Zones {
  import opened Wrappers
  import CourtDimensions
  import opened Arc

  datatype Zone =
    | RightCorner3 | LeftCorner3 | Paint | RightBlock | LeftBlock | HighPost
    | RightElbow | LeftElbow | RightWing3 | LeftWing3 | TopOfKey3
    | StraightDeep3 | RightDeep3 | LeftDeep3

  /** The zones in the order the chain tries them. */
  const Precedence: seq<Zone> := [
    RightCorner3, LeftCorner3, Paint, RightBlock, LeftBlock, HighPost, RightElbow,
    LeftElbow, RightWing3, LeftWing3, TopOfKey3, StraightDeep3, RightDeep3, LeftDeep3
  ]

  /** The test of the branch that leads to zone `z`. The baseline zones lie
      between the baseline and the free-throw line, the wings between the
      corner line and the deep line, the elbows and the high post inside the
      arc, and the three deep zones beyond it. */
  predicate InRegion(z: Zone, x: int, y: int, angle: AngleFn)
    ensures InRegion(z, x, y, angle) && z in {RightCorner3, LeftCorner3, Paint, RightBlock, LeftBlock}
            ==> CourtDimensions.FRONTCOURT_BOUNDARY < y < CourtDimensions.FREE_THROW_LINE
    ensures InRegion(z, x, y, angle) && z in {RightWing3, LeftWing3}
            ==> CourtDimensions.CORNER3_Y < y < CourtDimensions.DEEP3_Y
    ensures InRegion(z, x, y, angle) && z in {HighPost, RightElbow, LeftElbow}
            ==> x * x + y * y < CourtDimensions.RADIUS_3ARC * CourtDimensions.RADIUS_3ARC
    ensures InRegion(z, x, y, angle) && z in {StraightDeep3, RightDeep3, LeftDeep3}
            ==> x * x + y * y >= CourtDimensions.RADIUS_3ARC * CourtDimensions.RADIUS_3ARC
  {
    SquareBound(x, y);
    match z
    case RightCorner3 =>
      (x > -CourtDimensions.SIDE_BOUNDARY && x < -CourtDimensions.CORNER3_X) && (y < CourtDimensions.CORNER3_Y && y > CourtDimensions.FRONTCOURT_BOUNDARY)
    case LeftCorner3 =>
      (x < CourtDimensions.SIDE_BOUNDARY && x > CourtDimensions.CORNER3_X) && (y < CourtDimensions.CORNER3_Y && y > CourtDimensions.FRONTCOURT_BOUNDARY)
    case Paint =>
      (x > -CourtDimensions.OUTER_PAINT && x < CourtDimensions.OUTER_PAINT) && (y < CourtDimensions.FREE_THROW_LINE && y > CourtDimensions.FRONTCOURT_BOUNDARY)
    case RightBlock =>
      (x > -220 && x < -CourtDimensions.OUTER_PAINT) && (y < CourtDimensions.CORNER3_Y && y > CourtDimensions.FRONTCOURT_BOUNDARY)
    case LeftBlock =>
      (y < 219 && y < CourtDimensions.OUTER_PAINT) && (y < CourtDimensions.CORNER3_Y && y > CourtDimensions.FRONTCOURT_BOUNDARY)
    case HighPost =>
      x > -CourtDimensions.OUTER_PAINT && x < CourtDimensions.OUTER_PAINT && y > CourtDimensions.FREE_THROW_LINE && InsideArc(x, y, 22.0, 158.0, angle)
    case RightElbow =>
      x < -CourtDimensions.OUTER_PAINT && y > CourtDimensions.CORNER3_Y && InsideArc(x, y, 22.0, 158.0, angle)
    case LeftElbow =>
      x > CourtDimensions.OUTER_PAINT && y > CourtDimensions.CORNER3_Y && InsideArc(x, y, 22.0, 158.0, angle)
    case RightWing3 =>
      x < -CourtDimensions.RIGHT_WING_3 && x > -CourtDimensions.SIDE_BOUNDARY && y > CourtDimensions.CORNER3_Y && y < CourtDimensions.DEEP3_Y
      && !InsideArc(x, y, 158.0, 22.0, angle)
    case LeftWing3 =>
      x > CourtDimensions.RIGHT_WING_3 && x < CourtDimensions.SIDE_BOUNDARY && y > CourtDimensions.CORNER3_Y && y < CourtDimensions.DEEP3_Y
      && !InsideArc(x, y, 158.0, 22.0, angle)
    case TopOfKey3 =>
      x > -CourtDimensions.RIGHT_WING_3 && x < CourtDimensions.RIGHT_WING_3 && y < CourtDimensions.DEEP3_Y && !InsideArc(x, y, 22.0, 158.0, angle)
    case StraightDeep3 =>
      (x > CourtDimensions.DEEP3_Y && x < CourtDimensions.HALFCOURT_BOUNDARY) && (y > -CourtDimensions.SIDE_BOUNDARY && y < -CourtDimensions.DEEP3_X)
    case RightDeep3 =>
      (y > -CourtDimensions.SIDE_BOUNDARY && y < -CourtDimensions.DEEP3_X) && (x > CourtDimensions.DEEP3_Y && x < CourtDimensions.HALFCOURT_BOUNDARY)
    case LeftDeep3 =>
      (y < CourtDimensions.SIDE_BOUNDARY && y > CourtDimensions.DEEP3_X) && (x > CourtDimensions.DEEP3_Y && x < CourtDimensions.HALFCOURT_BOUNDARY)
  }

  /** The first zone of `zs` whose test holds, if any: an `if`/`elif` chain over `zs`. */
  function FirstMatch(zs: seq<Zone>, x: int, y: int, angle: AngleFn): (r: Option<Zone>)
    ensures r.None? <==> forall i :: 0 <= i < |zs| ==> !InRegion(zs[i], x, y, angle)
    ensures r.Some? ==> exists i :: 0 <= i < |zs| && zs[i] == r.value && InRegion(zs[i], x, y, angle)
                                   && forall j :: 0 <= j < i ==> !InRegion(zs[j], x, y, angle)
  {
    if zs == [] then None
    else if InRegion(zs[0], x, y, angle) then Some(zs[0])
    else
      var r := FirstMatch(zs[1..], x, y, angle);
      assert r.Some? ==> exists i :: 0 < i < |zs| && zs[i] == r.value && InRegion(zs[i], x, y, angle)
                                     && forall j :: 0 <= j < i ==> !InRegion(zs[j], x, y, angle) by {
        if r.Some? {
          var i :| 0 <= i < |zs[1..]| && zs[1..][i] == r.value && InRegion(zs[1..][i], x, y, angle)
                   && forall j :: 0 <= j < i ==> !InRegion(zs[1..][j], x, y, angle);
          assert forall j :: 0 <= j < i + 1 ==> !InRegion(zs[j], x, y, angle) by {
            forall j | 0 <= j < i + 1 ensures !InRegion(zs[j], x, y, angle) {
              if j > 0 { assert zs[j] == zs[1..][j - 1]; }
            }
          }
        }
      }
      r
  }

  /** The zone the shot at (x, y) is counted in, or None when no test holds:
      the chosen zone passes its test and every zone the chain tries before it
      fails. */
  function ZoneOf(x: int, y: int, angle: AngleFn): (r: Option<Zone>)
    ensures r.Some? ==> InRegion(r.value, x, y, angle)
    ensures r.Some? ==> forall i, j :: 0 <= i < j < |Precedence| && Precedence[j] == r.value
                                       ==> !InRegion(Precedence[i], x, y, angle)
  {
    PrecedenceIndices();
    FirstMatch(Precedence, x, y, angle)
  }

  /** Every zone is tried by the chain. */
  lemma EveryZoneIsTried(z: Zone)
    ensures z in Precedence
  {
    match z
    case RightCorner3 => assert Precedence[0] == z;
    case LeftCorner3 => assert Precedence[1] == z;
    case Paint => assert Precedence[2] == z;
    case RightBlock => assert Precedence[3] == z;
    case LeftBlock => assert Precedence[4] == z;
    case HighPost => assert Precedence[5] == z;
    case RightElbow => assert Precedence[6] == z;
    case LeftElbow => assert Precedence[7] == z;
    case RightWing3 => assert Precedence[8] == z;
    case LeftWing3 => assert Precedence[9] == z;
    case TopOfKey3 => assert Precedence[10] == z;
    case StraightDeep3 => assert Precedence[11] == z;
    case RightDeep3 => assert Precedence[12] == z;
    case LeftDeep3 => assert Precedence[13] == z;
  }

  /** The position of each zone in the chain is unique. */
  lemma PrecedenceIndices()
    ensures forall i, j :: 0 <= i < j < |Precedence| ==> Precedence[i] != Precedence[j]
  {
  }

  /** A classified point passes its zone's test; a point is unclassified exactly
      when it fails every test; a point that passes some test is classified. */
  lemma ZoneOfIsSound(x: int, y: int, angle: AngleFn, z: Zone)
    ensures ZoneOf(x, y, angle) == Some(z) ==> InRegion(z, x, y, angle)
    ensures ZoneOf(x, y, angle) == None <==> forall w :: !InRegion(w, x, y, angle)
    ensures InRegion(z, x, y, angle) ==> ZoneOf(x, y, angle).Some?
  {
    EveryZoneIsTried(z);
    if ZoneOf(x, y, angle) == None {
      forall w ensures !InRegion(w, x, y, angle) { EveryZoneIsTried(w); }
    }
  }

  /** The chain picks the first zone, in precedence order, whose test holds. */
  lemma FirstPassingTestWins(x: int, y: int, angle: AngleFn, k: nat)
    requires k < |Precedence| && InRegion(Precedence[k], x, y, angle)
    requires forall j :: 0 <= j < k ==> !InRegion(Precedence[j], x, y, angle)
    ensures ZoneOf(x, y, angle) == Some(Precedence[k])
  {
    var r := ZoneOf(x, y, angle);
    var i :| 0 <= i < |Precedence| && Precedence[i] == r.value && InRegion(Precedence[i], x, y, angle)
             && forall j :: 0 <= j < i ==> !InRegion(Precedence[j], x, y, angle);
    assert i == k;
  }

  /** The basket itself is in the paint. */
  lemma OriginIsPaint(angle: AngleFn)
    ensures ZoneOf(0, 0, angle) == Some(Paint)
  {
    FirstPassingTestWins(0, 0, angle, 2);
  }

  /** The left-block test admits every x; the paint test, tried first, takes the
      points of the left block that lie inside the paint. */
  lemma PaintShadowsLeftBlock(x: int, y: int, angle: AngleFn)
    requires CourtDimensions.FRONTCOURT_BOUNDARY < y < CourtDimensions.OUTER_PAINT && 0 < x < CourtDimensions.OUTER_PAINT
    ensures InRegion(LeftBlock, x, y, angle)
    ensures ZoneOf(x, y, angle) == Some(Paint)
  {
    FirstPassingTestWins(x, y, angle, 2);
  }

  /** Points on the baseline side of the paint fall into the left block,
      whichever side of the basket they are on: (200, 0) on the left, but also
      (-300, 0), beyond the right sideline. */
  lemma LeftBlockIgnoresX(angle: AngleFn)
    ensures ZoneOf(200, 0, angle) == Some(LeftBlock)
    ensures ZoneOf(-300, 0, angle) == Some(LeftBlock)
  {
  }

  /** The wing tests ask for a point NOT inside the slice (158, 22), which is
      empty; so the arc clause never excludes a point from a wing. */
  lemma WingArcClauseAlwaysHolds(x: int, y: int, angle: AngleFn)
    ensures InRegion(RightWing3, x, y, angle)
        <==> x < -CourtDimensions.RIGHT_WING_3 && x > -CourtDimensions.SIDE_BOUNDARY && y > CourtDimensions.CORNER3_Y && y < CourtDimensions.DEEP3_Y
    ensures InRegion(LeftWing3, x, y, angle)
        <==> x > CourtDimensions.RIGHT_WING_3 && x < CourtDimensions.SIDE_BOUNDARY && y > CourtDimensions.CORNER3_Y && y < CourtDimensions.DEEP3_Y
  {
    ReversedSliceIsEmpty(x, y, 158.0, 22.0, angle);
  }

  /** Right Deep 3's test is Straight Deep 3's with the conjuncts swapped, and
      Straight Deep 3 is tried first: no shot is ever counted as Right Deep 3. */
  lemma RightDeep3IsUnreachable(x: int, y: int, angle: AngleFn)
    ensures ZoneOf(x, y, angle) != Some(RightDeep3)
  {
    ZoneOfIsSound(x, y, angle, RightDeep3);
    if InRegion(StraightDeep3, x, y, angle) {
      assert Precedence[11] == StraightDeep3;
      PrecedenceIndices();
    }
  }
}
