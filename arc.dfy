/**
 * The three-point arc test `is_shot_inside_3pt_arc` of classes/shotchart.py.
 *
 * The source takes the polar radius with `math.sqrt` and the polar angle with
 * `math.atan` and `math.degrees`. The radius comparison is modelled exactly on
 * integers (squaring both sides). The angle is not computed here: every
 * function below takes it as a parameter `angle`, and the lemmas that need to
 * know anything about it assume only `IsShotAngle`, the two facts the source
 * guarantees for any point.
 */
module Arc {
  import opened CourtDimensions

  /** A point's polar angle in degrees, as the source computes it. */
  type AngleFn = (int, int) -> real

  /** What lines 402-407 guarantee of the angle: `atan` lies strictly between
      -90 and 90 degrees, a negative value is shifted by 180, and a point on the
      vertical axis gets 90. So every angle lies in [0, 180). */
  ghost predicate IsShotAngle(angle: AngleFn) {
    forall x: int, y: int :: 0.0 <= angle(x, y) < 180.0 && (x == 0 ==> angle(x, y) == 90.0)
  }

  /** The point lies inside the arc within the angular slice [startAngle, endAngle].
      Only a slice that is not reversed holds a point, and a point inside lies
      closer to the basket than the radius along each axis. */
  predicate InsideArc(x: int, y: int, startAngle: real, endAngle: real, angle: AngleFn)
    ensures InsideArc(x, y, startAngle, endAngle, angle) ==> startAngle <= endAngle
    ensures InsideArc(x, y, startAngle, endAngle, angle)
            ==> -RADIUS_3ARC < x < RADIUS_3ARC && -RADIUS_3ARC < y < RADIUS_3ARC
  {
    SquareBound(x, y);
    SquareBound(y, x);
    && startAngle <= angle(x, y) <= endAngle
    && x * x + y * y < RADIUS_3ARC * RADIUS_3ARC
  }

  /** A coordinate at or beyond the radius puts the point outside it. */
  lemma SquareBound(a: int, b: int)
    ensures a * a + b * b < RADIUS_3ARC * RADIUS_3ARC ==> -RADIUS_3ARC < a < RADIUS_3ARC
  {
    if a >= RADIUS_3ARC {
      assert a * a >= RADIUS_3ARC * a >= RADIUS_3ARC * RADIUS_3ARC;
    } else if a <= -RADIUS_3ARC {
      assert a * a >= RADIUS_3ARC * -a >= RADIUS_3ARC * RADIUS_3ARC;
    }
  }

  /** Comparing squares is the same as comparing `sqrt(x*x + y*y)` with the radius. */
  lemma RadiusTestIsExact(x: int, y: int, r: real)
    requires 0.0 <= r && r * r == (x * x + y * y) as real
    ensures r < RADIUS_3ARC as real <==> x * x + y * y < RADIUS_3ARC * RADIUS_3ARC
  {
    var R := RADIUS_3ARC as real;
    if r < R {
      assert r * r < R * R by {
        assert r * r <= r * R;
        assert r * R < R * R;
      }
    } else {
      assert R * R <= r * r by {
        assert R * R <= R * r;
        assert R * r <= r * r;
      }
    }
  }

  /** On the vertical axis the angle is 90, so the test only asks whether 90
      lies in the slice and the point is within the radius. */
  lemma CentrelineAngle(y: int, startAngle: real, endAngle: real, angle: AngleFn)
    requires IsShotAngle(angle)
    ensures InsideArc(0, y, startAngle, endAngle, angle)
        <==> startAngle <= 90.0 <= endAngle && y * y < RADIUS_3ARC * RADIUS_3ARC
  {
    assert angle(0, y) == 90.0;
  }

  /** No point at or beyond the arc's radius is inside, whatever the slice. */
  lemma OutsideRadiusIsNeverInside(x: int, y: int, startAngle: real, endAngle: real, angle: AngleFn)
    requires x * x + y * y >= RADIUS_3ARC * RADIUS_3ARC
    ensures !InsideArc(x, y, startAngle, endAngle, angle)
  {
  }

  /** A slice whose start exceeds its end holds no point. */
  lemma ReversedSliceIsEmpty(x: int, y: int, startAngle: real, endAngle: real, angle: AngleFn)
    requires startAngle > endAngle
    ensures !InsideArc(x, y, startAngle, endAngle, angle)
  {
  }

  /** The slice [0, 180] covers every angle, so there the test is the radius alone. */
  lemma FullSliceIsRadiusOnly(x: int, y: int, angle: AngleFn)
    requires IsShotAngle(angle)
    ensures InsideArc(x, y, 0.0, 180.0, angle) <==> x * x + y * y < RADIUS_3ARC * RADIUS_3ARC
  {
    assert 0.0 <= angle(x, y) < 180.0;
  }
}
