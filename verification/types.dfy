/**
 * The per-agent navigation components: what an agent navigates to (`PathTarget`),
 * its planning state (`Pathfind`), its motion state (`Nav`) and the completion
 * signal (`Done`) a higher-level state machine may observe.
 *
 * Durations are counted in nanoseconds as unbounded naturals; positions are pairs
 * of reals that the model only stores, compares and hands to collaborators.
 */
module NavTypes {
  import opened Wrappers

  /** A stable identifier in the host's entity registry. */
  datatype Entity = Entity(id: nat)

  /** A point of the 2D navigable plane. */
  datatype Vec2 = Vec2(x: real, y: real)

  /** The target of a navigation request. */
  datatype PathTarget =
    | Static(point: Vec2)      // a fixed position
    | Dynamic(entity: Entity)  // another entity, resolved to its position at every replan

  /** Quality of locating the end points on the navmesh (passed through to the navmesh library). */
  datatype NavQuery = Accuracy | Closest | ClosestFirst

  /** Quality of the path the navmesh library returns (passed through to it). */
  datatype NavPathMode = Accuracy | MidPoints

  /** `Duration::ZERO`: the deadline `Pathfind::new` stores, so that the first check plans. */
  const DurationZero: nat := 0

  /** `Duration::MAX` in nanoseconds (u64::MAX whole seconds plus 999_999_999 ns):
      the marker the once-only policy leaves behind for "already planned". */
  const DurationMax: nat := 18_446_744_073_709_551_615 * 1_000_000_000 + 999_999_999

  /** Planning state of one agent. `repathFrequency == None` plans once only. */
  datatype Pathfind = Pathfind(
    mapEntity: Entity,             // the tilemap entity carrying the navmeshes
    radius: real,                  // clearance radius selecting the navmesh variant
    repathFrequency: Option<nat>,  // how often to regenerate the path, if ever
    nextRepath: nat,               // next time to regenerate
    target: PathTarget,
    path: seq<Vec2>,               // remaining waypoints, front first
    query: NavQuery,
    pathMode: NavPathMode)

  /** Motion state of one agent. */
  datatype Nav = Nav(speed: real, done: bool)

  /** The completion signal inserted for a state machine to observe. */
  datatype Done = Success | Failure

  /** The deadline is still `Duration::ZERO`. This holds for every request fresh from
      `Pathfind::new`, but also after a periodic plan at time 0 with a frequency of 0:
      it says "the next check plans", not "never planned". */
  predicate DeadlineAtZero(pf: Pathfind) {
    pf.nextRepath == DurationZero
  }

  /** `Pathfind::new`: the request as given, with no path and the deadline at zero. */
  function NewPathfind(
    mapEntity: Entity, radius: real, repathFrequency: Option<nat>,
    target: PathTarget, query: NavQuery, pathMode: NavPathMode): (pf: Pathfind)
    ensures DeadlineAtZero(pf) && pf.path == []
    ensures pf.mapEntity == mapEntity && pf.radius == radius && pf.target == target
    ensures pf.repathFrequency == repathFrequency
    ensures pf.query == query && pf.pathMode == pathMode
  {
    Pathfind(mapEntity, radius, repathFrequency, DurationZero, target, [], query, pathMode)
  }

  /** `Nav::new`: a given speed, not yet arrived. */
  function NewNav(speed: real): (n: Nav)
    ensures n.speed == speed && !n.done
  {
    Nav(speed, false)
  }
}
