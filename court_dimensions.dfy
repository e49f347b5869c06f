/**
 * The court constants of enums/court_dimensions.py.
 *
 * `CourtDimensions` derives from `IntEnum`, so each member holds `int(v)` of the
 * value written for it: a fractional value is truncated toward zero. The
 * constants below are those stored integers; `Declared` gives the values as
 * written and the contract of `Value` ties the two together. Coordinates are
 * in tenths of a foot with the basket at the origin.
 */
module CourtDimensions {

  /** The thirteen members, in declaration order. */
  datatype Member =
    | Corner3Y | Corner3X | OuterPaint | InnerPaint | FreeThrowLine | SideBoundary
    | FrontcourtBoundary | Backboard | Deep3Y | Deep3X | RightWing3 | HalfcourtBoundary
    | Radius3Arc

  const CORNER3_Y: int := 90
  const CORNER3_X: int := 220
  const OUTER_PAINT: int := 80
  const INNER_PAINT: int := 60
  /** Written 142.5. */
  const FREE_THROW_LINE: int := 142
  const SIDE_BOUNDARY: int := 250
  /** Written -47.5; truncation toward zero gives -47, not -48. */
  const FRONTCOURT_BOUNDARY: int := -47
  const BACKBOARD: int := -30
  const DEEP3_Y: int := 300
  const DEEP3_X: int := 100
  const RIGHT_WING_3: int := 125
  /** Written 422.5. */
  const HALFCOURT_BOUNDARY: int := 422
  /** Written as a formula worth about 237.51. */
  const RADIUS_3ARC: int := 237

  /** The radius of the three-point arc as the formula computes it: half the
      chord's sagitta term plus chord squared over eight times the sagitta. */
  const ArcRadiusFormula: real := (238.0 - 90.0) / 2.0 + (440.0 * 440.0) / (8.0 * (238.0 - 90.0))

  /** The value written in the class body for each member: a whole or half
      number, except the arc radius, which is a formula. */
  function Declared(m: Member): (r: real)
    ensures m != Radius3Arc ==> (2.0 * r).Floor as real == 2.0 * r
    ensures m == Radius3Arc ==> 237.5 < r < 238.0
  {
    match m
    case Corner3Y => 90.0
    case Corner3X => 220.0
    case OuterPaint => 80.0
    case InnerPaint => 60.0
    case FreeThrowLine => 142.5
    case SideBoundary => 250.0
    case FrontcourtBoundary => -47.5
    case Backboard => -30.0
    case Deep3Y => 300.0
    case Deep3X => 100.0
    case RightWing3 => 125.0
    case HalfcourtBoundary => 422.5
    case Radius3Arc => ArcRadiusFormula
  }

  /** The integer each member holds: `IntEnum` truncates the value written
      for it toward zero. */
  function Value(m: Member): (r: int)
    ensures r == Truncate(Declared(m))
  {
    assert 237.5 < ArcRadiusFormula < 238.0;
    match m
    case Corner3Y => CORNER3_Y
    case Corner3X => CORNER3_X
    case OuterPaint => OUTER_PAINT
    case InnerPaint => INNER_PAINT
    case FreeThrowLine => FREE_THROW_LINE
    case SideBoundary => SIDE_BOUNDARY
    case FrontcourtBoundary => FRONTCOURT_BOUNDARY
    case Backboard => BACKBOARD
    case Deep3Y => DEEP3_Y
    case Deep3X => DEEP3_X
    case RightWing3 => RIGHT_WING_3
    case HalfcourtBoundary => HALFCOURT_BOUNDARY
    case Radius3Arc => RADIUS_3ARC
  }

  /** Python's `int()` applied to a float: truncation toward zero. */
  function Truncate(v: real): (r: int)
    ensures 0.0 <= v ==> 0 <= r && r as real <= v < r as real + 1.0
    ensures v < 0.0 ==> r <= 0 && r as real - 1.0 < v <= r as real
  {
    if v >= 0.0 then v.Floor else -((-v).Floor)
  }

  /** The four fractional members lose their fraction. The arc radius is above
      237.5, so even rounding to nearest would have given 238: the stored 237
      comes from truncation. */
  lemma FractionalMembersAreShortened()
    ensures Value(FreeThrowLine) as real == Declared(FreeThrowLine) - 0.5
    ensures Value(FrontcourtBoundary) as real == Declared(FrontcourtBoundary) + 0.5
    ensures Value(HalfcourtBoundary) as real == Declared(HalfcourtBoundary) - 0.5
    ensures 237.5 < Declared(Radius3Arc) < 238.0 && Value(Radius3Arc) == 237
  {
  }

  /** No two members share a value, so `IntEnum` creates no aliases. */
  lemma ValuesAreDistinct(a: Member, b: Member)
    ensures a != b ==> Value(a) != Value(b)
  {
  }

  /** The horizontal and the vertical constants each form a strict chain. */
  lemma ConstantsAreOrdered()
    ensures INNER_PAINT < OUTER_PAINT < DEEP3_X < RIGHT_WING_3 < CORNER3_X < SIDE_BOUNDARY
    ensures FRONTCOURT_BOUNDARY < CORNER3_Y < FREE_THROW_LINE < DEEP3_Y < HALFCOURT_BOUNDARY
  {
  }
}
