/**
 * Waypoint consumption: the loop of the navigation step that spends a travel
 * budget on the front waypoints of a path, popping each one the remaining
 * budget covers, and stops at the first one it does not (or when none is left).
 *
 * Positions are only compared through a distance function; the geometry behind
 * it is not modelled.
 */
module Waypoints {
  import opened NavTypes

  /** A distance between positions. The loop itself needs nothing of it; the facts about
      budgets hold for any `IsMetric` distance. */
  type Metric = (Vec2, Vec2) -> real

  /** A distance that is never negative, and zero from a point to itself. */
  ghost predicate IsMetric(dist: Metric) {
    (forall p, q :: 0.0 <= dist(p, q)) && (forall p :: dist(p, p) == 0.0)
  }

  /** Length of the polyline from `start` through the waypoints `wps`, in order. */
  function Length(start: Vec2, wps: seq<Vec2>, dist: Metric): real
    decreases |wps|
  {
    if |wps| == 0 then 0.0 else dist(start, wps[0]) + Length(wps[0], wps[1..], dist)
  }

  /** Where the agent stands after reaching the first `k` waypoints of `path`. */
  function At(start: Vec2, path: seq<Vec2>, k: nat): Vec2
    requires k <= |path|
  {
    if k == 0 then start else path[k - 1]
  }

  /** Each of the first `k` waypoints was covered by the budget left when it was reached. */
  predicate Affordable(start: Vec2, path: seq<Vec2>, budget: real, dist: Metric, k: nat)
    requires k <= |path|
  {
    forall i {:trigger At(start, path, i)} :: 0 <= i < k ==> dist(At(start, path, i), path[i]) <= budget - Length(start, path[..i], dist)
  }

  /** The loop stopped where it had to: at the end of the path, or before a waypoint
      the budget left after `k` waypoints does not cover. */
  predicate StopsAt(start: Vec2, path: seq<Vec2>, budget: real, dist: Metric, k: nat)
    requires k <= |path|
  {
    k < |path| ==> budget - Length(start, path[..k], dist) < dist(At(start, path, k), path[k])
  }

  /** Where the loop leaves the agent: its position, the waypoints left and the budget left. */
  datatype Consumption = Consumption(pos: Vec2, rest: seq<Vec2>, budget: real)

  /** Reference definition of the loop: pop the front waypoint while the budget covers the
      distance to it. What is left is a suffix of the path, the agent stands on the last
      waypoint popped, and the budget has paid exactly the length travelled. */
  function Consume(pos: Vec2, path: seq<Vec2>, budget: real, dist: Metric): (r: Consumption)
    decreases |path|
    ensures |r.rest| <= |path| && r.rest == path[|path| - |r.rest|..]
    ensures r.pos == At(pos, path, |path| - |r.rest|)
    ensures r.budget == budget - Length(pos, path[..|path| - |r.rest|], dist)
  {
    if |path| == 0 || budget < dist(pos, path[0]) then Consumption(pos, path, budget)
    else
      var r := Consume(path[0], path[1..], budget - dist(pos, path[0]), dist);
      var k := |path[1..]| - |r.rest|;
      assert path[..k + 1][1..] == path[1..][..k];
      r
  }

  /** Length of a path extended by one waypoint at its end. */
  lemma {:induction false} LengthSnoc(start: Vec2, wps: seq<Vec2>, w: Vec2, dist: Metric)
    ensures Length(start, wps + [w], dist) == Length(start, wps, dist) + dist(At(start, wps, |wps|), w)
    decreases |wps|
  {
    if |wps| > 0 {
      assert (wps + [w])[1..] == wps[1..] + [w];
      LengthSnoc(wps[0], wps[1..], w, dist);
    }
  }

  /** Reaching one more waypoint adds the leg to it to the length travelled. */
  lemma PrefixLengthStep(start: Vec2, path: seq<Vec2>, k: nat, dist: Metric)
    requires k < |path|
    ensures Length(start, path[..k + 1], dist) == Length(start, path[..k], dist) + dist(At(start, path, k), path[k])
  {
    assert path[..k + 1] == path[..k] + [path[k]];
    LengthSnoc(start, path[..k], path[k], dist);
  }

  /** `Affordable` for a path, from its first leg and `Affordable` for the rest. */
  lemma AffordableCons(start: Vec2, path: seq<Vec2>, budget: real, dist: Metric, k: nat)
    requires 0 < |path| && k < |path|
    requires dist(start, path[0]) <= budget
    requires Affordable(path[0], path[1..], budget - dist(start, path[0]), dist, k)
    ensures Affordable(start, path, budget, dist, k + 1)
  {
    forall i | 0 <= i < k + 1
      ensures dist(At(start, path, i), path[i]) <= budget - Length(start, path[..i], dist)
    {
      if i > 0 {
        assert path[..i][1..] == path[1..][..i - 1];
        assert At(start, path, i) == At(path[0], path[1..], i - 1);
        assert dist(At(path[0], path[1..], i - 1), path[1..][i - 1])
               <= budget - dist(start, path[0]) - Length(path[0], path[1..][..i - 1], dist);
      }
    }
  }

  /** `StopsAt` for a path, from `StopsAt` for the rest after its first leg. */
  lemma StopsAtCons(start: Vec2, path: seq<Vec2>, budget: real, dist: Metric, k: nat)
    requires 0 < |path| && k < |path|
    requires StopsAt(path[0], path[1..], budget - dist(start, path[0]), dist, k)
    ensures StopsAt(start, path, budget, dist, k + 1)
  {
    if k + 1 < |path| {
      assert path[..k + 1][1..] == path[1..][..k];
      assert At(start, path, k + 1) == At(path[0], path[1..], k);
    }
  }

  /** The reference loop is greedy: every waypoint it pops was covered by the budget left
      when it was popped, and it stops only at the end or before an uncovered waypoint. */
  lemma {:induction false} ConsumeIsGreedy(pos: Vec2, path: seq<Vec2>, budget: real, dist: Metric)
    ensures var k := |path| - |Consume(pos, path, budget, dist).rest|;
      Affordable(pos, path, budget, dist, k) && StopsAt(pos, path, budget, dist, k)
    decreases |path|
  {
    if |path| == 0 || budget < dist(pos, path[0]) {
      assert path[..0] == [];
    } else {
      var tail := path[1..];
      var left := budget - dist(pos, path[0]);
      var r := Consume(path[0], tail, left, dist);
      assert Consume(pos, path, budget, dist) == r;
      ConsumeIsGreedy(path[0], tail, left, dist);
      var k := |tail| - |r.rest|;
      AffordableCons(pos, path, budget, dist, k);
      StopsAtCons(pos, path, budget, dist, k);
    }
  }

  /** The greedy conditions pin the loop down: the number of waypoints the reference loop
      pops is the only count that is affordable and stops where it must. */
  lemma GreedyIsUnique(pos: Vec2, path: seq<Vec2>, budget: real, dist: Metric, k: nat)
    requires k <= |path|
    requires Affordable(pos, path, budget, dist, k) && StopsAt(pos, path, budget, dist, k)
    ensures k == |path| - |Consume(pos, path, budget, dist).rest|
  {
    var popped := |path| - |Consume(pos, path, budget, dist).rest|;
    ConsumeIsGreedy(pos, path, budget, dist);
    // a smaller count would stop before a waypoint that was covered, a larger one would pop
    // the waypoint the `k` greedy conditions say is not covered
  }

  /** The loop itself: spends `budget` on the front of `path` starting from `pos`. */
  method ConsumeWaypoints(pos: Vec2, path: seq<Vec2>, budget: real, dist: Metric)
    returns (p: Vec2, rest: seq<Vec2>, left: real)
    ensures |rest| <= |path| && rest == path[|path| - |rest|..]
    ensures p == At(pos, path, |path| - |rest|)
    ensures left == budget - Length(pos, path[..|path| - |rest|], dist)
    ensures Affordable(pos, path, budget, dist, |path| - |rest|)
    ensures rest != [] ==> left < dist(p, rest[0])
    ensures Consumption(p, rest, left) == Consume(pos, path, budget, dist)
  {
    p, rest, left := pos, path, budget;
    var k: nat := 0;
    while rest != [] && dist(p, rest[0]) <= left
      invariant k <= |path| && rest == path[k..]
      invariant p == At(pos, path, k)
      invariant left == budget - Length(pos, path[..k], dist)
      invariant Affordable(pos, path, budget, dist, k)
      decreases |rest|
    {
      PopStep(pos, path, budget, dist, k);
      left := left - dist(p, rest[0]);
      p := rest[0];
      rest := rest[1..];
      k := k + 1;
    }
    assert StopsAt(pos, path, budget, dist, k);
    GreedyIsUnique(pos, path, budget, dist, k);
    var c := Consume(pos, path, budget, dist);
    assert c.rest == rest && c.pos == p && c.budget == left;
  }

  /** Popping one more affordable waypoint: the walked length grows by its leg, and the
      popped prefix stays affordable. */
  lemma PopStep(start: Vec2, path: seq<Vec2>, budget: real, dist: Metric, k: nat)
    requires k < |path| && Affordable(start, path, budget, dist, k)
    requires dist(At(start, path, k), path[k]) <= budget - Length(start, path[..k], dist)
    ensures Length(start, path[..k + 1], dist) == Length(start, path[..k], dist) + dist(At(start, path, k), path[k])
    ensures Affordable(start, path, budget, dist, k + 1)
    ensures path[k + 1..] == path[k..][1..] && At(start, path, k + 1) == path[k]
  {
    PrefixLengthStep(start, path, k, dist);
  }

  /** The budget never grows, and it is never overdrawn by a waypoint that was popped. */
  lemma BudgetBounds(pos: Vec2, path: seq<Vec2>, budget: real, dist: Metric)
    requires IsMetric(dist)
    ensures var r := Consume(pos, path, budget, dist);
      && r.budget <= budget
      && (|r.rest| < |path| ==> 0.0 <= r.budget)
  {
    var r := Consume(pos, path, budget, dist);
    var k := |path| - |r.rest|;
    LengthNonNegative(pos, path[..k], dist);
    ConsumeIsGreedy(pos, path, budget, dist);
    if 0 < k {
      PrefixLengthStep(pos, path, k - 1, dist);
      assert dist(At(pos, path, k - 1), path[k - 1]) <= budget - Length(pos, path[..k - 1], dist);
    }
  }

  /** Waypoints popped greedily never cost more than a non-negative budget. */
  lemma AffordableWithinBudget(start: Vec2, path: seq<Vec2>, budget: real, dist: Metric, k: nat)
    requires k <= |path| && 0.0 <= budget
    requires Affordable(start, path, budget, dist, k)
    ensures Length(start, path[..k], dist) <= budget
  {
    if k == 0 {
      assert path[..k] == [];
    } else {
      PrefixLengthStep(start, path, k - 1, dist);
      assert dist(At(start, path, k - 1), path[k - 1]) <= budget - Length(start, path[..k - 1], dist);
    }
  }

  /** A path's length is never negative. */
  lemma {:induction false} LengthNonNegative(start: Vec2, wps: seq<Vec2>, dist: Metric)
    requires IsMetric(dist)
    ensures 0.0 <= Length(start, wps, dist)
    decreases |wps|
  {
    if |wps| > 0 {
      LengthNonNegative(wps[0], wps[1..], dist);
    }
  }

  /** A waypoint on the spot costs nothing: with a non-negative budget it is always popped. */
  lemma WaypointHereIsPopped(pos: Vec2, path: seq<Vec2>, budget: real, dist: Metric)
    requires IsMetric(dist)
    requires 0 < |path| && path[0] == pos && 0.0 <= budget
    ensures |Consume(pos, path, budget, dist).rest| < |path|
  {
    assert dist(pos, path[0]) == 0.0;
    var r := Consume(path[0], path[1..], budget, dist);
    assert Consume(pos, path, budget, dist) == r;
  }
}
