/**
 * Path generation with error recovery: one agent's frame of `generate_paths`.
 * Planning is a chain of four fallible lookups; the first failure ends it, and
 * any failure leaves the agent with an empty path and raises a failure flag.
 */
module Planning {
  import opened Wrappers
  import opened NavTypes
  import Repath

  /** Why planning stopped, in the order the lookups are made. */
  datatype PathError =
    | MissingNavmeshes(mapEntity: Entity)  // the map entity carries no navmeshes
    | NoMeshForClearance(radius: real)     // no navmesh variant for this clearance
    | UnresolvableTarget(target: Entity)   // the dynamic target has no position
    | NoPathFound                          // the navmesh found no path

  /**
   * The navmesh collaborator: the navmesh set carried by each map entity, the
   * set's lookup of a mesh by clearance radius, and the mesh's path search.
   * Both queries stay uninterpreted: the mesh lookup is the crate's own `Navmeshes::mesh`,
   * defined outside `src/nav.rs`, and the path search is the navmesh library's `find_path`.
   */
  datatype Navmeshes<!S, !M> = Navmeshes(
    sets: map<Entity, S>,
    mesh: (S, real) -> Option<M>,
    findPath: (M, Vec2, Vec2, NavQuery, NavPathMode) -> Option<seq<Vec2>>)

  /** The concrete point a target stands for, given the positions of all entities. */
  function ResolveTarget(target: PathTarget, positions: map<Entity, Vec2>): (r: Option<Vec2>)
    ensures target.Static? ==> r == Some(target.point)
    ensures target.Dynamic? ==> (r.Some? <==> target.entity in positions)
    ensures target.Dynamic? && r.Some? ==> r.value == positions[target.entity]
  {
    match target
    case Static(p) => Some(p)
    case Dynamic(e) => if e in positions then Some(positions[e]) else None
  }

  /** Every lookup succeeds: the map has navmeshes, one fits the clearance, the target
      resolves and the mesh finds a path from `from` to it. */
  ghost predicate LookupsSucceed<S, M>(
    nm: Navmeshes<S, M>, positions: map<Entity, Vec2>, from: Vec2, pf: Pathfind)
  {
    && pf.mapEntity in nm.sets
    && nm.mesh(nm.sets[pf.mapEntity], pf.radius).Some?
    && ResolveTarget(pf.target, positions).Some?
    && nm.findPath(nm.mesh(nm.sets[pf.mapEntity], pf.radius).value, from,
                   ResolveTarget(pf.target, positions).value, pf.query, pf.pathMode).Some?
  }

  /** The path the navmesh returns when every lookup succeeds. */
  ghost function FoundPath<S, M>(
    nm: Navmeshes<S, M>, positions: map<Entity, Vec2>, from: Vec2, pf: Pathfind): seq<Vec2>
    requires LookupsSucceed(nm, positions, from, pf)
  {
    nm.findPath(nm.mesh(nm.sets[pf.mapEntity], pf.radius).value, from,
                ResolveTarget(pf.target, positions).value, pf.query, pf.pathMode).value
  }

  /** The planning closure: a path from the agent's position `from` to its target. */
  function PlanPath<S, M>(
    nm: Navmeshes<S, M>, positions: map<Entity, Vec2>, from: Vec2, pf: Pathfind)
    : (r: Result<seq<Vec2>, PathError>)
    ensures r.Ok? <==> LookupsSucceed(nm, positions, from, pf)
    ensures r.Ok? ==> r.value == FoundPath(nm, positions, from, pf)
    // the error names the first lookup that failed
    ensures r == Err(MissingNavmeshes(pf.mapEntity)) <==> pf.mapEntity !in nm.sets
    ensures r == Err(NoMeshForClearance(pf.radius))
            <==> pf.mapEntity in nm.sets && nm.mesh(nm.sets[pf.mapEntity], pf.radius).None?
    ensures r.Err? && r.error.UnresolvableTarget?
            <==> && pf.mapEntity in nm.sets
                 && nm.mesh(nm.sets[pf.mapEntity], pf.radius).Some?
                 && pf.target.Dynamic? && pf.target.entity !in positions
    ensures r.Err? && r.error.UnresolvableTarget? ==> r.error.target == pf.target.entity
    // each error carries the value that was looked up, so the one left over is `NoPathFound`
    ensures r.Err? && r.error.MissingNavmeshes? ==> r.error.mapEntity == pf.mapEntity
    ensures r.Err? && r.error.NoMeshForClearance? ==> r.error.radius == pf.radius
  {
    if pf.mapEntity !in nm.sets then Err(MissingNavmeshes(pf.mapEntity))
    else
      match nm.mesh(nm.sets[pf.mapEntity], pf.radius)
      case None => Err(NoMeshForClearance(pf.radius))
      case Some(mesh) =>
        match ResolveTarget(pf.target, positions)
        case None => Err(UnresolvableTarget(pf.target.entity))
        case Some(goal) =>
          match nm.findPath(mesh, from, goal, pf.query, pf.pathMode)
          case None => Err(NoPathFound)
          case Some(p) => Ok(p)
  }

  /** Result of planning for one agent: its updated components and the failure flag. */
  datatype Replanned = Replanned(pathfind: Pathfind, nav: Option<Nav>, failed: bool)

  /** Stores the outcome of planning: the found path or, on any failure, an empty one;
      an agent that also navigates is marked done exactly when that path is empty. */
  function Replan<S, M>(
    nm: Navmeshes<S, M>, positions: map<Entity, Vec2>, from: Vec2, pf: Pathfind, nav: Option<Nav>)
    : (r: Replanned)
    ensures r.failed <==> !LookupsSucceed(nm, positions, from, pf)
    ensures r.failed ==> r.pathfind.path == []
    ensures !r.failed ==> r.pathfind.path == FoundPath(nm, positions, from, pf)
    ensures r.pathfind == pf.(path := r.pathfind.path)
    ensures r.nav.Some? <==> nav.Some?
    ensures nav.Some? ==> r.nav.value.speed == nav.value.speed
    ensures nav.Some? ==> (r.nav.value.done <==> r.pathfind.path == [])
  {
    var planned := PlanPath(nm, positions, from, pf);
    var path := if planned.Ok? then planned.value else [];
    var nav' := if nav.Some? then Some(nav.value.(done := path == [])) else None;
    Replanned(pf.(path := path), nav', planned.Err?)
  }

  /** One agent's frame of path generation: its components and any signal it raises. */
  datatype Generated = Generated(pathfind: Pathfind, nav: Option<Nav>, signal: Option<Done>)

  /** Path generation for an agent at `from`: the scheduling check, then (when it says so)
      planning; a failure is signalled only for an agent that also navigates. */
  function Generate<S, M>(
    nm: Navmeshes<S, M>, positions: map<Entity, Vec2>, elapsed: nat,
    from: Vec2, pf: Pathfind, nav: Option<Nav>): (r: Generated)
    ensures var d := Repath.Check(pf.repathFrequency, pf.nextRepath, elapsed);
      && r.pathfind.nextRepath == d.nextRepath
      && (!d.repath ==> r == Generated(pf.(nextRepath := d.nextRepath), nav, None))
      && (d.repath ==> && r.pathfind == pf.(nextRepath := d.nextRepath, path := r.pathfind.path)
                       && (LookupsSucceed(nm, positions, from, pf) ==>
                             r.pathfind.path == FoundPath(nm, positions, from, pf))
                       && (!LookupsSucceed(nm, positions, from, pf) ==> r.pathfind.path == [])
                       && (nav.Some? ==> r.nav == Some(nav.value.(done := r.pathfind.path == [])))
                       && (nav.None? ==> r.nav == None))
    ensures r.signal.Some? ==> r.signal == Some(Failure)
    ensures r.signal.Some? <==> && Repath.Check(pf.repathFrequency, pf.nextRepath, elapsed).repath
                                && !LookupsSucceed(nm, positions, from, pf)
                                && nav.Some?
  {
    var d := Repath.Check(pf.repathFrequency, pf.nextRepath, elapsed);
    var scheduled := pf.(nextRepath := d.nextRepath);
    if !d.repath then Generated(scheduled, nav, None)
    else
      var r := Replan(nm, positions, from, scheduled, nav);
      Generated(r.pathfind, r.nav, if r.failed && nav.Some? then Some(Failure) else None)
  }

  /** A request whose deadline is at zero, as `Pathfind::new` leaves it, is planned in the
      first frame that sees it, whatever the policy, the time and the outcome of planning. */
  lemma NewRequestPlansAtOnce<S, M>(
    nm: Navmeshes<S, M>, positions: map<Entity, Vec2>, elapsed: nat,
    from: Vec2, pf: Pathfind, nav: Option<Nav>)
    requires DeadlineAtZero(pf)
    ensures var r := Generate(nm, positions, elapsed, from, pf, nav);
      && (LookupsSucceed(nm, positions, from, pf) ==> r.pathfind.path == FoundPath(nm, positions, from, pf))
      && (!LookupsSucceed(nm, positions, from, pf) ==> r.pathfind.path == [])
  {
  }
}
