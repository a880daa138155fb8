/**
 * One agent's frame of the `nav` system: spend `speed * delta` on the front of the
 * path, then either mark the agent done (path exhausted) or take a partial step
 * toward the new front waypoint with what is left of the budget.
 */
module Navigation {
  import opened Wrappers
  import opened NavTypes
  import opened Waypoints

  /** The partial move from a position toward a waypoint by a distance; its geometry
      (a normalised direction scaled by the distance) is left opaque. */
  type StepFn = (Vec2, Vec2, real) -> Vec2

  /** An agent after its navigation step, and the signal the step raises, if any. */
  datatype Moved = Moved(pos: Vec2, pathfind: Pathfind, nav: Nav, signal: Option<Done>)

  /** The distance an agent may travel in a frame: `speed * delta`. */
  function TravelBudget(nav: Nav, delta: real): real {
    nav.speed * delta
  }

  /** The navigation step of an agent at `pos` over a frame of `delta` seconds. */
  function NavStep(pos: Vec2, pf: Pathfind, nav: Nav, delta: real, dist: Metric, step: StepFn)
    : (r: Moved)
    // an agent without a path stays where it is and reports success
    ensures pf.path == [] ==> r == Moved(pos, pf, nav, Some(Success))
    // only the path, the position and the done flag change
    ensures r.pathfind == pf.(path := r.pathfind.path) && r.nav.speed == nav.speed
    // the path left is a suffix of the path, reached greedily within the budget
    ensures var budget := TravelBudget(nav, delta);
            var k := |pf.path| - |r.pathfind.path|;
      && |r.pathfind.path| <= |pf.path| && r.pathfind.path == pf.path[k..]
      && Affordable(pos, pf.path, budget, dist, k)
      && StopsAt(pos, pf.path, budget, dist, k)
      // exhausted: the agent stands on the last waypoint
      && (r.pathfind.path == [] ==> r.pos == At(pos, pf.path, k))
      // not exhausted: a partial step toward the new front with the budget left over
      && (r.pathfind.path != [] ==>
            r.pos == step(At(pos, pf.path, k), r.pathfind.path[0], budget - Length(pos, pf.path[..k], dist)))
    // success is reported exactly when no waypoint is left, and the done flag is then set
    ensures r.signal.Some? <==> r.pathfind.path == []
    ensures r.signal.Some? ==> r.signal == Some(Success)
    ensures pf.path != [] ==> (r.nav.done <==> r.pathfind.path == [] || nav.done)
  {
    if pf.path == [] then Moved(pos, pf, nav, Some(Success))
    else
      var budget := TravelBudget(nav, delta);
      var c := Consume(pos, pf.path, budget, dist);
      ConsumeIsGreedy(pos, pf.path, budget, dist);
      // where the loop leaves the agent, and the budget it leaves for the partial step
      var k := |pf.path| - |c.rest|;
      var reached, left := At(pos, pf.path, k), budget - Length(pos, pf.path[..k], dist);
      if c.rest == [] then Moved(reached, pf.(path := c.rest), nav.(done := true), Some(Success))
      else Moved(step(reached, c.rest[0], left), pf.(path := c.rest), nav, None)
  }

  /** With a non-negative budget the step never travels further along the path than the
      budget allows: the legs walked plus the distance left for the partial step add up to
      the budget, and both are non-negative. */
  lemma NavStepWithinBudget(pos: Vec2, pf: Pathfind, nav: Nav, delta: real, dist: Metric, step: StepFn)
    requires IsMetric(dist) && 0.0 <= TravelBudget(nav, delta)
    ensures var r := NavStep(pos, pf, nav, delta, dist, step);
            var k := |pf.path| - |r.pathfind.path|;
      && k <= |pf.path|
      && 0.0 <= Length(pos, pf.path[..k], dist) <= TravelBudget(nav, delta)
  {
    var budget := TravelBudget(nav, delta);
    var r := NavStep(pos, pf, nav, delta, dist, step);
    var k := |pf.path| - |r.pathfind.path|;
    LengthNonNegative(pos, pf.path[..k], dist);
    AffordableWithinBudget(pos, pf.path, budget, dist, k);
  }

  /** The straight-corridor scenario, first frame: one waypoint 100 away, speed 50, a frame
      of one second. The agent steps 50 toward the waypoint and is not done. */
  lemma StraightCorridorFirstFrame(dist: Metric, step: StepFn, pf: Pathfind)
    requires pf.path == [Vec2(100.0, 0.0)]
    requires dist(Vec2(0.0, 0.0), Vec2(100.0, 0.0)) == 100.0
    ensures var r := NavStep(Vec2(0.0, 0.0), pf, NewNav(50.0), 1.0, dist, step);
      && r.pos == step(Vec2(0.0, 0.0), Vec2(100.0, 0.0), 50.0)
      && r.pathfind == pf && !r.nav.done && r.signal == None
  {
    var origin := Vec2(0.0, 0.0);
    assert TravelBudget(NewNav(50.0), 1.0) == 50.0;
    assert pf.path[..0] == [];
    // the waypoint is out of reach: 100 is more than the budget of 50
    assert Length(origin, pf.path[..0], dist) == 0.0;
    assert !Affordable(origin, pf.path, 50.0, dist, 1) by {
      assert At(origin, pf.path, 0) == origin;
    }
    var r := NavStep(origin, pf, NewNav(50.0), 1.0, dist, step);
    assert |r.pathfind.path| == 1;
  }

  /** The straight-corridor scenario, second frame: 50 left to the waypoint and 50 to
      spend. The agent stands on the waypoint, done, with an empty path and a success signal. */
  lemma StraightCorridorSecondFrame(dist: Metric, step: StepFn, pos: Vec2, pf: Pathfind)
    requires pf.path == [Vec2(100.0, 0.0)]
    requires dist(pos, Vec2(100.0, 0.0)) == 50.0
    ensures var r := NavStep(pos, pf, NewNav(50.0), 1.0, dist, step);
      && r.pos == Vec2(100.0, 0.0)
      && r.pathfind.path == [] && r.nav.done && r.signal == Some(Success)
  {
    assert TravelBudget(NewNav(50.0), 1.0) == 50.0;
    assert pf.path[..0] == [];
    var r := NavStep(pos, pf, NewNav(50.0), 1.0, dist, step);
    // the waypoint is within reach, so the loop cannot stop before it
    assert |r.pathfind.path| == 0;
  }
}
