/**
  The decision part of `Ball.update`: the nearest-goal scan, the activation
  rule and the force coefficient. Distances are compared squared.
 */
module Attraction {
  import opened Geometry

  /** `Number.MAX_VALUE`, (2^53 - 1) * 2^971, the scan's starting minimum. */
  const MaxValue: real := 179769313486231570814527423731704356798070567525844996598917476803157260780028538760589558632766878171540458953514382464234321326889464182768467546703537516986049910576551282076245490090389328944075868508455133942304583236903222948165808559332123348274797826204144723168738177180919299881250404026184124858368.0

  /** The starting minimum, squared. */
  const MaxDist2: real := MaxValue * MaxValue

  /** `attractionDistance`: a ball this close to a goal may be attracted. */
  const AttractionDistance: real := 1.5

  /** Balls of this priority are never attracted. */
  const ExcludedPriority: int := 1

  /** The force scale `k` in `(priority - 1) * k`. */
  const ForceScale: real := 0.1

  /** State of the scan: index of `nearestHole` and the squared `minDistance`. */
  datatype Choice = Choice(index: nat, dist2: real)

  /** The scan after visiting the first `n` goals: it starts at goal 0 with
      `Number.MAX_VALUE`, and a goal replaces the current choice only when it
      is strictly closer. */
  function ScanGoals(pos: Vec3, goals: seq<Vec3>, n: nat): (c: Choice)
    requires n <= |goals|
    ensures c.dist2 <= MaxDist2
    ensures c.index == 0 || c.index < n
  {
    if n == 0 then Choice(0, MaxDist2)
    else
      var c := ScanGoals(pos, goals, n - 1);
      var d := Dist2(pos, goals[n - 1]);
      if d < c.dist2 then Choice(n - 1, d) else c
  }

  /** The whole scan over the goal list. */
  function Nearest(pos: Vec3, goals: seq<Vec3>): (c: Choice)
    ensures |goals| > 0 ==> c.index < |goals|
    ensures c.dist2 <= MaxDist2
  {
    ScanGoals(pos, goals, |goals|)
  }

  /** What the scan computes: the minimum is no larger than any goal's
      distance; when some goal is nearer than `Number.MAX_VALUE` the choice is
      the FIRST goal at the minimum distance; otherwise goal 0 is kept. */
  lemma {:induction false} ScanIsFirstMinimum(pos: Vec3, goals: seq<Vec3>, n: nat)
    requires n <= |goals|
    ensures var c := ScanGoals(pos, goals, n);
      && c.dist2 <= MaxDist2
      && (forall j :: 0 <= j < n ==> c.dist2 <= Dist2(pos, goals[j]))
      && (c.dist2 < MaxDist2 ==>
            c.index < n && Dist2(pos, goals[c.index]) == c.dist2
            && forall j :: 0 <= j < c.index ==> c.dist2 < Dist2(pos, goals[j]))
      && (c.dist2 == MaxDist2 ==> c.index == 0)
  {
    if n > 0 {
      ScanIsFirstMinimum(pos, goals, n - 1);
    }
  }

  /** On a non-empty list, the chosen goal is a nearest one, and every goal
      before it is strictly farther. */
  lemma NearestIsFirstMinimum(pos: Vec3, goals: seq<Vec3>)
    requires |goals| > 0
    ensures var c := Nearest(pos, goals);
      && c.index < |goals|
      && (forall j :: 0 <= j < |goals| ==> c.dist2 <= Dist2(pos, goals[j]))
      && ((exists j :: 0 <= j < |goals| && Dist2(pos, goals[j]) < MaxDist2) ==>
           && Dist2(pos, goals[c.index]) == c.dist2
           && (forall j :: 0 <= j < |goals| ==> Dist2(pos, goals[c.index]) <= Dist2(pos, goals[j]))
           && (forall j :: 0 <= j < c.index ==> Dist2(pos, goals[c.index]) < Dist2(pos, goals[j])))
  {
    ScanIsFirstMinimum(pos, goals, |goals|);
  }

  /** The `forEach` loop over `holePositions`, updating `minDistance` and
      `nearestHole` on every strictly smaller distance. */
  method NearestGoal(pos: Vec3, goals: seq<Vec3>) returns (nearest: nat, minDist2: real)
    requires |goals| > 0
    ensures nearest < |goals|
    ensures Choice(nearest, minDist2) == Nearest(pos, goals)
  {
    nearest, minDist2 := 0, MaxDist2;
    var i := 0;
    while i < |goals|
      invariant i <= |goals|
      invariant Choice(nearest, minDist2) == ScanGoals(pos, goals, i)
    {
      var d := Dist2(pos, goals[i]);
      if d < minDist2 {
        minDist2 := d;
        nearest := i;
      }
      i := i + 1;
    }
  }

  /** The activation rule `minDistance <= attractionDistance && priority != 1`,
      on squared distances. */
  function Attracts(minDist2: real, priority: int): (b: bool)
    ensures priority == ExcludedPriority ==> !b
    ensures minDist2 > 2.25 ==> !b
    ensures minDist2 == 0.0 && priority != ExcludedPriority ==> b
  {
    minDist2 <= AttractionDistance * AttractionDistance && priority != ExcludedPriority
  }

  /** The activation rule read on the whole goal list: a ball is attracted
      exactly when SOME goal lies within the attraction distance and its
      priority is not the excluded one. */
  lemma {:induction false} AttractedIffGoalInReach(pos: Vec3, goals: seq<Vec3>, priority: int)
    requires |goals| > 0
    ensures Attracts(Nearest(pos, goals).dist2, priority) <==>
      (priority != ExcludedPriority
       && exists j :: 0 <= j < |goals| && Dist2(pos, goals[j]) <= AttractionDistance * AttractionDistance)
  {
    var c := Nearest(pos, goals);
    ScanIsFirstMinimum(pos, goals, |goals|);
    if c.dist2 <= AttractionDistance * AttractionDistance {
      assert Dist2(pos, goals[c.index]) <= AttractionDistance * AttractionDistance;
    }
  }

  /** `(priority - 1) * 0.1`: pulls toward the goal for priorities above 1,
      pushes away below 1, and is zero exactly at the excluded priority. */
  function ForceCoefficient(priority: int): (k: real)
    ensures k > 0.0 <==> priority > 1
    ensures k < 0.0 <==> priority < 1
    ensures k == 0.0 <==> priority == ExcludedPriority
  {
    (priority - 1) as real * ForceScale
  }

  /** A worked case: a ball of priority 3 at (0, 0, 1) with goals at the
      origin and at (10, 0, 0) picks the origin at distance 1, is attracted,
      and is pulled with coefficient 0.2. */
  lemma {:induction false} NearbyGoalExample(pos: Vec3, goals: seq<Vec3>)
    requires pos == Vec3(0.0, 0.0, 1.0) && goals == [Vec3(0.0, 0.0, 0.0), Vec3(10.0, 0.0, 0.0)]
    ensures Nearest(pos, goals) == Choice(0, 1.0)
    ensures Attracts(Nearest(pos, goals).dist2, 3) && ForceCoefficient(3) == 0.2
  {
    assert Sub(pos, goals[0]) == Vec3(0.0, 0.0, 1.0);
    assert Sub(pos, goals[1]) == Vec3(-10.0, 0.0, 1.0);
    assert Dist2(pos, goals[0]) == 1.0;
    assert Dist2(pos, goals[1]) == 101.0;
    assert 1.0 < MaxDist2;
    assert ScanGoals(pos, goals, 1) == Choice(0, 1.0);
    assert ScanGoals(pos, goals, 2) == Choice(0, 1.0);
  }
}
