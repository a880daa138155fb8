/**
 * The two per-frame systems over all agents, in their fixed order: path
 * generation (`generate_paths`) and then navigation (`nav`). Agents live in a
 * registry keyed by entity; each system updates every agent from that agent's
 * own components and the positions at the start of the system, so agents are
 * independent of each other and of the order they are visited in.
 */
module Systems {
  import opened Wrappers
  import opened NavTypes
  import opened Planning
  import opened Waypoints
  import opened Navigation
  import Repath

  /** An entity with a position and, optionally, the two navigation components. */
  datatype Agent = Agent(pos: Vec2, pathfind: Option<Pathfind>, nav: Option<Nav>)

  /** The registry after a system, and the completion signals the system inserted. */
  datatype Frame = Frame(agents: map<Entity, Agent>, signals: map<Entity, Done>)

  /** One agent after a system, and the signal inserted for it, if any. */
  datatype Updated = Updated(agent: Agent, signal: Option<Done>)

  /** The positions of all entities, as the planner resolves dynamic targets against them. */
  function Positions(agents: map<Entity, Agent>): (ps: map<Entity, Vec2>)
    ensures ps.Keys == agents.Keys
    ensures forall e :: e in agents ==> ps[e] == agents[e].pos
  {
    map e | e in agents :: agents[e].pos
  }

  /** Path generation for one entity: only entities with a `Pathfind` take part. */
  function PlanAgent<S, M>(nm: Navmeshes<S, M>, positions: map<Entity, Vec2>, elapsed: nat, a: Agent)
    : (u: Updated)
    // planning never moves the entity, and one without a `Pathfind` is left alone
    ensures u.agent.pos == a.pos
    ensures a.pathfind.None? ==> u == Updated(a, None)
    // one with a `Pathfind` keeps its components; its deadline is the check's, and its path
    // and `done` change only when the check plans
    ensures a.pathfind.Some? ==>
      var pf := a.pathfind.value;
      var d := Repath.Check(pf.repathFrequency, pf.nextRepath, elapsed);
      && u.agent.pathfind.Some? && (u.agent.nav.Some? <==> a.nav.Some?)
      && u.agent.pathfind.value == pf.(nextRepath := d.nextRepath, path := u.agent.pathfind.value.path)
      && (!d.repath ==> u.agent.pathfind.value.path == pf.path && u.agent.nav == a.nav)
      && (d.repath && LookupsSucceed(nm, positions, a.pos, pf) ==>
            u.agent.pathfind.value.path == FoundPath(nm, positions, a.pos, pf))
      && (d.repath && !LookupsSucceed(nm, positions, a.pos, pf) ==> u.agent.pathfind.value.path == [])
      && (d.repath && a.nav.Some? ==>
            u.agent.nav == Some(a.nav.value.(done := u.agent.pathfind.value.path == [])))
    // the only signal is a failure, raised exactly for a navigating entity due to plan that failed
    ensures u.signal.Some? ==> u.signal == Some(Failure)
    ensures u.signal.Some? <==>
      && a.pathfind.Some? && a.nav.Some?
      && Repath.Check(a.pathfind.value.repathFrequency, a.pathfind.value.nextRepath, elapsed).repath
      && !LookupsSucceed(nm, positions, a.pos, a.pathfind.value)
  {
    match a.pathfind
    case None => Updated(a, None)
    case Some(pf) =>
      var g := Generate(nm, positions, elapsed, a.pos, pf, a.nav);
      Updated(Agent(a.pos, Some(g.pathfind), g.nav), g.signal)
  }

  /** Navigation for one entity: only entities with both a `Pathfind` and a `Nav` move. */
  function MoveAgent(delta: real, dist: Metric, step: StepFn, a: Agent): (u: Updated)
    // an entity without both components is left alone
    ensures a.pathfind.None? || a.nav.None? ==> u == Updated(a, None)
    // one with both keeps them; only its position, the front of its path and `done` change
    ensures a.pathfind.Some? && a.nav.Some? ==>
      var pf, nav := a.pathfind.value, a.nav.value;
      && u.agent.pathfind.Some? && u.agent.nav.Some?
      && u.agent.pathfind.value == pf.(path := u.agent.pathfind.value.path)
      && u.agent.nav.value.speed == nav.speed
      && |u.agent.pathfind.value.path| <= |pf.path|
      && u.agent.pathfind.value.path == pf.path[|pf.path| - |u.agent.pathfind.value.path|..]
      && (pf.path == [] ==> u.agent == a)
      && (pf.path != [] ==> (u.agent.nav.value.done <==> u.agent.pathfind.value.path == [] || nav.done))
    // the only signal is a success, raised exactly when the path ends up empty
    ensures u.signal.Some? ==> u.signal == Some(Success)
    ensures u.signal.Some? <==> a.pathfind.Some? && a.nav.Some? && u.agent.pathfind.value.path == []
  {
    if a.pathfind.Some? && a.nav.Some? then
      var m := NavStep(a.pos, a.pathfind.value, a.nav.value, delta, dist, step);
      Updated(Agent(m.pos, Some(m.pathfind), Some(m.nav)), m.signal)
    else Updated(a, None)
  }

  /** The `generate_paths` system at time `elapsed`. */
  function GeneratePaths<S, M>(nm: Navmeshes<S, M>, elapsed: nat, agents: map<Entity, Agent>)
    : (f: Frame)
    ensures f.agents.Keys == agents.Keys
    // every agent is updated on its own, from the positions at the start of the system
    ensures forall e :: e in agents ==> f.agents[e] == PlanAgent(nm, Positions(agents), elapsed, agents[e]).agent
    // planning never moves anyone
    ensures forall e :: e in agents ==> f.agents[e].pos == agents[e].pos
    // the only signal is a failure, for a navigating agent left without a path
    ensures forall e :: e in f.signals ==>
      && e in agents && f.signals[e] == Failure
      && f.agents[e].pathfind.Some? && f.agents[e].pathfind.value.path == []
      && f.agents[e].nav.Some?
    // ... and it is raised exactly for a navigating agent that was due and failed to plan
    ensures forall e :: e in agents ==>
      (e in f.signals <==>
        && agents[e].pathfind.Some? && agents[e].nav.Some?
        && Repath.Check(agents[e].pathfind.value.repathFrequency, agents[e].pathfind.value.nextRepath, elapsed).repath
        && !LookupsSucceed(nm, Positions(agents), agents[e].pos, agents[e].pathfind.value))
  {
    var positions := Positions(agents);
    var agents' := map e | e in agents :: PlanAgent(nm, positions, elapsed, agents[e]).agent;
    var signals := map e | e in agents && PlanAgent(nm, positions, elapsed, agents[e]).signal.Some?
                         :: PlanAgent(nm, positions, elapsed, agents[e]).signal.value;
    Frame(agents', signals)
  }

  /** The `nav` system over a frame of `delta` seconds. */
  function Navigate(delta: real, dist: Metric, step: StepFn, agents: map<Entity, Agent>): (f: Frame)
    ensures f.agents.Keys == agents.Keys
    ensures forall e :: e in agents ==> f.agents[e] == MoveAgent(delta, dist, step, agents[e]).agent
    // success is signalled for exactly the navigating agents left without a path
    ensures forall e :: e in f.signals <==>
      && e in agents && agents[e].pathfind.Some? && agents[e].nav.Some?
      && f.agents[e].pathfind.Some? && f.agents[e].pathfind.value.path == []
    ensures forall e :: e in f.signals ==> f.signals[e] == Success
  {
    var agents' := map e | e in agents :: MoveAgent(delta, dist, step, agents[e]).agent;
    var signals := map e | e in agents && MoveAgent(delta, dist, step, agents[e]).signal.Some?
                         :: MoveAgent(delta, dist, step, agents[e]).signal.value;
    Frame(agents', signals)
  }

  /** A whole frame: path generation, then navigation. A signal inserted later in the frame
      replaces one inserted earlier for the same entity. */
  function Tick<S, M>(
    nm: Navmeshes<S, M>, elapsed: nat, delta: real, dist: Metric, step: StepFn,
    agents: map<Entity, Agent>): (f: Frame)
    ensures f.agents.Keys == agents.Keys
    ensures f.signals.Keys <= agents.Keys
  {
    var planned := GeneratePaths(nm, elapsed, agents);
    var moved := Navigate(delta, dist, step, planned.agents);
    Frame(moved.agents, planned.signals + moved.signals)
  }

  /** The arrival flag agrees with the path: a navigating agent is done exactly when it has
      no waypoint left. */
  predicate DoneMatchesPath(a: Agent) {
    a.pathfind.Some? && a.nav.Some? ==> (a.nav.value.done <==> a.pathfind.value.path == [])
  }

  /** An agent a frame can start from: its flags agree, or its deadline is at zero so the
      frame replans it (as `Pathfind::new` with `Nav::new` leaves it). */
  predicate Ready(a: Agent) {
    DoneMatchesPath(a) || (a.pathfind.Some? && DeadlineAtZero(a.pathfind.value))
  }

  /** Path generation establishes the arrival invariant for a ready agent. */
  lemma PlanAgentMatchesDone<S, M>(nm: Navmeshes<S, M>, positions: map<Entity, Vec2>, elapsed: nat, a: Agent)
    requires Ready(a)
    ensures DoneMatchesPath(PlanAgent(nm, positions, elapsed, a).agent)
  {
  }

  /** Navigation preserves the arrival invariant. */
  lemma MoveAgentMatchesDone(delta: real, dist: Metric, step: StepFn, a: Agent)
    requires DoneMatchesPath(a)
    ensures DoneMatchesPath(MoveAgent(delta, dist, step, a).agent)
  {
  }

  /** After every frame each navigating agent is done exactly when its path is empty,
      provided each agent entered the frame ready. */
  lemma TickMatchesDone<S, M>(
    nm: Navmeshes<S, M>, elapsed: nat, delta: real, dist: Metric, step: StepFn,
    agents: map<Entity, Agent>)
    requires forall e :: e in agents ==> Ready(agents[e])
    ensures var f := Tick(nm, elapsed, delta, dist, step, agents);
      forall e :: e in f.agents ==> DoneMatchesPath(f.agents[e])
  {
    var planned := GeneratePaths(nm, elapsed, agents);
    forall e | e in agents
      ensures DoneMatchesPath(planned.agents[e])
    {
      PlanAgentMatchesDone(nm, Positions(agents), elapsed, agents[e]);
    }
    forall e | e in planned.agents
      ensures DoneMatchesPath(MoveAgent(delta, dist, step, planned.agents[e]).agent)
    {
      MoveAgentMatchesDone(delta, dist, step, planned.agents[e]);
    }
  }

  /** A planning failure is overwritten in the same frame: the failed agent has an empty
      path, so navigation then signals success for it, and that signal is the one left. */
  lemma FailureReplacedBySuccess<S, M>(
    nm: Navmeshes<S, M>, elapsed: nat, delta: real, dist: Metric, step: StepFn,
    agents: map<Entity, Agent>, e: Entity)
    requires e in GeneratePaths(nm, elapsed, agents).signals
    ensures var f := Tick(nm, elapsed, delta, dist, step, agents);
      e in f.signals && f.signals[e] == Success
  {
  }

  /** Agents do not affect each other: what a frame does to an agent depends only on that
      agent and on where the entities are, not on the other agents' planning or motion. */
  lemma AgentsAreIndependent<S, M>(
    nm: Navmeshes<S, M>, elapsed: nat, delta: real, dist: Metric, step: StepFn,
    agents: map<Entity, Agent>, others: map<Entity, Agent>, e: Entity)
    requires e in agents && e in others && agents[e] == others[e]
    requires Positions(agents) == Positions(others)
    ensures Tick(nm, elapsed, delta, dist, step, agents).agents[e]
            == Tick(nm, elapsed, delta, dist, step, others).agents[e]
  {
  }

  /** The vanished-target scenario: an agent due to replan whose dynamic target no longer
      exists gets an empty path and a failure, stays where it is, and (as written) is marked
      done even though nothing was reached. */
  lemma VanishedTarget<S, M>(
    nm: Navmeshes<S, M>, elapsed: nat, delta: real, dist: Metric, step: StepFn,
    agents: map<Entity, Agent>, e: Entity)
    requires e in agents && agents[e].pathfind.Some? && agents[e].nav.Some?
    requires var pf := agents[e].pathfind.value;
      && Repath.Check(pf.repathFrequency, pf.nextRepath, elapsed).repath
      && pf.target.Dynamic? && pf.target.entity !in agents
    ensures var pf := agents[e].pathfind.value;
      PlanPath(nm, Positions(agents), agents[e].pos, pf).Err?
    ensures var planned := GeneratePaths(nm, elapsed, agents);
      && e in planned.signals && planned.signals[e] == Failure
    ensures var f := Tick(nm, elapsed, delta, dist, step, agents);
      && f.agents[e].pos == agents[e].pos
      && f.agents[e].pathfind.value.path == []
      && f.agents[e].nav.value.done
  {
  }

  /** The missing-clearance scenario: when the map has no navmesh for the agent's clearance
      radius, replanning leaves an empty path and signals a failure. */
  lemma NoMeshForRadius<S, M>(nm: Navmeshes<S, M>, elapsed: nat, agents: map<Entity, Agent>, e: Entity)
    requires e in agents && agents[e].pathfind.Some? && agents[e].nav.Some?
    requires var pf := agents[e].pathfind.value;
      && Repath.Check(pf.repathFrequency, pf.nextRepath, elapsed).repath
      && pf.mapEntity in nm.sets && nm.mesh(nm.sets[pf.mapEntity], pf.radius).None?
    ensures var pf := agents[e].pathfind.value;
      PlanPath(nm, Positions(agents), agents[e].pos, pf) == Err(NoMeshForClearance(pf.radius))
    ensures var planned := GeneratePaths(nm, elapsed, agents);
      && planned.agents[e].pathfind.value.path == []
      && e in planned.signals && planned.signals[e] == Failure
  {
  }
}
