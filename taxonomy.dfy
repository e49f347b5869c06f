/**
 * The category classifiers of `process_shots_by_mode` and the points bucket of
 * `process_shots_by_points` (classes/shotchart.py:91, 305-358). Each maps the
 * columns of one shot record to the label of the bucket it is counted in.
 */
module Taxonomy {

  const TwoPointer: string := "2PT Field Goal"
  const ThreePointer: string := "3PT Field Goal"

  /** `p` is a prefix of `s`. */
  predicate StartsWith(s: string, p: string) {
    |p| <= |s| && s[..|p|] == p
  }

  /** Python's `sub in s` on strings. The empty string is in every string;
      a string holds no longer string, and none whose first character it lacks. */
  predicate Contains(s: string, sub: string)
    ensures sub == [] ==> Contains(s, sub)
    ensures Contains(s, sub) ==> |sub| <= |s|
    ensures Contains(s, sub) && |sub| > 0 ==> sub[0] in s
    decreases |s|
  {
    StartsWith(s, sub) || (|s| > 0 && Contains(s[1..], sub))
  }

  /** `sub` occurs in `s` starting at position `i`. */
  predicate OccursAt(s: string, sub: string, i: int) {
    0 <= i <= |s| - |sub| && s[i..i + |sub|] == sub
  }

  /** `Contains` holds exactly when `sub` occurs at some position of `s`. */
  lemma {:induction false} ContainsIffOccurs(s: string, sub: string)
    ensures Contains(s, sub) <==> exists i :: OccursAt(s, sub, i)
    decreases |s|
  {
    if StartsWith(s, sub) {
      assert OccursAt(s, sub, 0);
    } else if |s| > 0 {
      ContainsIffOccurs(s[1..], sub);
      if Contains(s[1..], sub) {
        var i :| OccursAt(s[1..], sub, i);
        assert s[1..][i..i + |sub|] == s[i + 1..i + 1 + |sub|];
        assert OccursAt(s, sub, i + 1);
      }
      if i :| OccursAt(s, sub, i) {
        assert i != 0;
        assert s[1..][i - 1..i - 1 + |sub|] == s[i..i + |sub|];
        assert OccursAt(s[1..], sub, i - 1);
      }
    }
  }

  /** The bucket of `process_shots_by_points` (line 91). */
  function PointsKey(shotType: string): (r: string)
    ensures r == "2PT" <==> shotType == TwoPointer
    ensures r == "2PT" || r == "3PT"
  {
    if shotType == TwoPointer then "2PT" else "3PT"
  }

  /** The bucket in "type" mode (lines 305-312): "Layup", "Dunk" or the
      shot type; an action naming neither keeps the shot type. */
  function TypeKey(shotType: string, actionType: string): (r: string)
    ensures r == "Layup" || r == "Dunk" || r == shotType
    ensures !Contains(actionType, "Layup") && !Contains(actionType, "Dunk") ==> r == shotType
  {
    if Contains(actionType, "Layup") then "Layup"
    else if Contains(actionType, "Dunk") then "Dunk"
    else shotType
  }

  /** The labels of "distance" mode in their canonical order; the six bands
      [5k, 5k + 5) come first, then "30+". */
  const DistanceLabels: seq<string> :=
    ["0 - 5", "5 - 10", "10 - 15", "15 - 20", "20 - 25", "25 - 30", "30+"]

  /** The bucket in "distance" mode (lines 313-328): a chain of `range` tests. */
  function DistanceKey(distance: int): (r: string)
    ensures 0 <= distance < 30 ==> r == DistanceLabels[distance / 5]
    ensures distance < 0 || 30 <= distance ==> r == "30+"
    ensures r in DistanceLabels
  {
    if 0 <= distance < 5 then "0 - 5"
    else if 5 <= distance < 10 then "5 - 10"
    else if 10 <= distance < 15 then "10 - 15"
    else if 15 <= distance < 20 then "15 - 20"
    else if 20 <= distance < 25 then "20 - 25"
    else if 25 <= distance < 30 then "25 - 30"
    else "30+"
  }

  /** The fixed labels of "breakdown" mode. */
  const BreakdownLabels: set<string> := {
    "Jump Shot Mid-Range", "Jump Shot 3PT", "Dunk", "Floater", "Hook Shot",
    "Fadeaway Mid-Range", "Fadeaway 3PT", "Pullup Mid-Range", "Pullup 3PT",
    "Step Back Mid-Range", "Step Back 3PT", "Layup"
  }

  /** The breakdown labels that are only given to two-point shots. */
  const MidRangeLabels: set<string> :=
    {"Jump Shot Mid-Range", "Fadeaway Mid-Range", "Pullup Mid-Range", "Step Back Mid-Range"}

  /** The breakdown labels that are only given to three-point shots. */
  const ThreePointLabels: set<string> :=
    {"Jump Shot 3PT", "Fadeaway 3PT", "Pullup 3PT", "Step Back 3PT"}

  /** "Pullup" and "Pull-Up" are two spellings of the same mechanic. */
  predicate IsPullup(actionType: string) {
    Contains(actionType, "Pullup") || Contains(actionType, "Pull-Up")
  }

  /** Some test of the "breakdown" chain (lines 331-354) holds for the shot. */
  predicate BreakdownTestHolds(shotType: string, actionType: string) {
    var typed := shotType == TwoPointer || shotType == ThreePointer;
    || (actionType == "Jump Shot" && typed)
    || Contains(actionType, "Dunk")
    || Contains(actionType, "Floating")
    || Contains(actionType, "Hook Shot")
    || (Contains(actionType, "Fadeaway") && typed)
    || (IsPullup(actionType) && typed)
    || (Contains(actionType, "Step Back") && typed)
    || Contains(actionType, "Layup")
  }

  /** The bucket in "breakdown" mode (lines 330-356): an ordered chain of
      equality and substring tests. A shot some test catches gets a fixed
      label; an action matching none is its own label. */
  function BreakdownKey(shotType: string, actionType: string): (r: string)
    ensures BreakdownTestHolds(shotType, actionType) ==> r in BreakdownLabels
    ensures !BreakdownTestHolds(shotType, actionType) ==> r == actionType
    ensures r != actionType && r in MidRangeLabels ==> shotType == TwoPointer
    ensures r != actionType && r in ThreePointLabels ==> shotType == ThreePointer
  {
    if actionType == "Jump Shot" && shotType == TwoPointer then "Jump Shot Mid-Range"
    else if actionType == "Jump Shot" && shotType == ThreePointer then "Jump Shot 3PT"
    else if Contains(actionType, "Dunk") then "Dunk"
    else if Contains(actionType, "Floating") then "Floater"
    else if Contains(actionType, "Hook Shot") then "Hook Shot"
    else if Contains(actionType, "Fadeaway") && shotType == TwoPointer then "Fadeaway Mid-Range"
    else if Contains(actionType, "Fadeaway") && shotType == ThreePointer then "Fadeaway 3PT"
    else if IsPullup(actionType) && shotType == TwoPointer then "Pullup Mid-Range"
    else if IsPullup(actionType) && shotType == ThreePointer then "Pullup 3PT"
    else if Contains(actionType, "Step Back") && shotType == TwoPointer then "Step Back Mid-Range"
    else if Contains(actionType, "Step Back") && shotType == ThreePointer then "Step Back 3PT"
    else if Contains(actionType, "Layup") then "Layup"
    else actionType
  }

  /** "type" mode labels a shot "Layup" whenever its action mentions a layup,
      even when it also mentions a dunk; otherwise "Dunk" when it mentions a
      dunk; otherwise the shot type itself. */
  lemma TypeKeyPrefersLayup(shotType: string, actionType: string)
    ensures Contains(actionType, "Layup") ==> TypeKey(shotType, actionType) == "Layup"
    ensures !Contains(actionType, "Layup") && Contains(actionType, "Dunk")
            ==> TypeKey(shotType, actionType) == "Dunk"
    ensures TypeKey(shotType, actionType) !in {"Layup", "Dunk"}
            ==> TypeKey(shotType, actionType) == shotType
  {
  }

  /** The bare action "Jump Shot" contains no word that starts with a
      character it lacks: every keyword of the breakdown chain but "Step Back". */
  lemma JumpShotLacks(a: string, w: string)
    requires |w| > 0 && w[0] !in {'J', 'u', 'm', 'p', ' ', 'S', 'h', 'o', 't'}
    ensures a == "Jump Shot" ==> !Contains(a, w)
  {
    if a == "Jump Shot" {
      assert forall c :: c in a ==> c in {'J', 'u', 'm', 'p', ' ', 'S', 'h', 'o', 't'};
    }
  }

  /** The bare action "Jump Shot" does not contain "Step Back" either. */
  lemma JumpShotLacksStepBack(a: string)
    ensures a == "Jump Shot" ==> !Contains(a, "Step Back")
  {
    if a == "Jump Shot" {
      assert a[..9][0] != "Step Back"[0];
      assert !Contains(a[1..], "Step Back");
    }
  }

  /** "breakdown" mode checks dunks before layups, "type" mode the other way
      round: an action that mentions both is a "Dunk" in one table and a
      "Layup" in the other. */
  lemma DunkLayupOrderDiffers(shotType: string, actionType: string)
    requires Contains(actionType, "Dunk") && Contains(actionType, "Layup")
    ensures BreakdownKey(shotType, actionType) == "Dunk"
    ensures TypeKey(shotType, actionType) == "Layup"
  {
    JumpShotLacks(actionType, "Dunk");
  }

  /** The bare action "Jump Shot" is split by shot type; with any other shot
      type it matches no later test and keeps its own name. */
  lemma JumpShotSplitsByShotType(shotType: string, actionType: string)
    requires actionType == "Jump Shot"
    ensures BreakdownKey(shotType, actionType) ==
      if shotType == TwoPointer then "Jump Shot Mid-Range"
      else if shotType == ThreePointer then "Jump Shot 3PT"
      else "Jump Shot"
  {
    if shotType != TwoPointer && shotType != ThreePointer {
      JumpShotLacks(actionType, "Dunk");
      JumpShotLacks(actionType, "Floating");
      JumpShotLacks(actionType, "Hook Shot");
      JumpShotLacks(actionType, "Fadeaway");
      JumpShotLacks(actionType, "Pullup");
      JumpShotLacks(actionType, "Pull-Up");
      JumpShotLacksStepBack(actionType);
      JumpShotLacks(actionType, "Layup");
    }
  }

  /** The two spellings "Pullup" and "Pull-Up" land in the same bucket: two
      actions that reach the pull-up tests get one label, whichever spelling
      each uses. */
  lemma PullupSpellingsAgree(shotType: string, a: string, b: string)
    requires shotType == TwoPointer || shotType == ThreePointer
    requires IsPullup(a) && IsPullup(b)
    requires !Contains(a, "Dunk") && !Contains(a, "Floating") && !Contains(a, "Hook Shot") && !Contains(a, "Fadeaway")
    requires !Contains(b, "Dunk") && !Contains(b, "Floating") && !Contains(b, "Hook Shot") && !Contains(b, "Fadeaway")
    ensures BreakdownKey(shotType, a) == BreakdownKey(shotType, b)
    ensures shotType == TwoPointer ==> BreakdownKey(shotType, a) == "Pullup Mid-Range"
    ensures shotType == ThreePointer ==> BreakdownKey(shotType, a) == "Pullup 3PT"
  {
    JumpShotLacks(a, "Pullup");
    JumpShotLacks(a, "Pull-Up");
    JumpShotLacks(b, "Pullup");
    JumpShotLacks(b, "Pull-Up");
  }
}
