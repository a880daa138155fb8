# seldom_map_nav: per-agent navigation state machine

This project models the per-agent navigation core of `seldom_map_nav`, found in
`src/nav.rs`. Each frame, two systems run in a fixed order over every entity:

1. **Path generation** (`generate_paths`). For each entity with a `Pathfind` component,
   a scheduling check first decides whether to plan this frame.
   - With the once-only policy (`repath_frequency == None`), the agent plans when its
     deadline still holds the `Duration::ZERO` marker, then stores `Duration::MAX`.
   - With a periodic policy, the agent plans when the deadline has passed. The next
     deadline is then `elapsed + frequency`.

   Planning is a chain of four lookups:
   1. the navmesh set on the map entity;
   2. the mesh for the clearance radius;
   3. the position of a dynamic target;
   4. the navmesh's path search.

   Any failure leaves an empty path. For an entity that also has a `Nav`, `done` becomes
   "the path is empty" and a failure signal is raised.
2. **Navigation** (`nav`). The travel budget `speed * delta` is spent on waypoints from
   the front of the path. A waypoint is popped while the remaining budget covers the
   distance to it.
   - If no waypoint is left, the agent stands on the last one, is marked done and
     signals success.
   - Otherwise, it takes a partial step toward the new front waypoint using the budget
     left over.

Modules and files:

- `wrappers.dfy`: `Option` and `Result`.
- `types.dfy` (`NavTypes`): `Entity`, `Vec2`, `PathTarget`, `Pathfind`, `Nav`, `Done`, and
  the two constructors `Pathfind::new` and `Nav::new`. Durations are nanoseconds as `nat`;
  `Duration::MAX` is u64::MAX seconds plus 999 999 999 ns.
- `repath.dfy` (`Repath`): the scheduling check and its properties.
- `planning.dfy` (`Planning`): the planning closure, error recovery, and one agent's
  frame of path generation. The navmesh collaborator is the record `Navmeshes<S, M>`.
  Its fields are the navmesh set of each map entity, plus two queries kept uninterpreted:
  `mesh(set, radius)`, the crate's own `Navmeshes::mesh` (defined outside `src/nav.rs`),
  and `findPath(mesh, from, to, query, mode)`, the navmesh library's `find_path`.
- `waypoints.dfy` (`Waypoints`): the waypoint-consumption loop.
  - Positions are compared only through a `Metric`, an arbitrary distance function. The
    loop needs nothing of it. The budget facts (`BudgetBounds`, `LengthNonNegative` and the
    facts that build on it) require `IsMetric`: the distance is never negative and is zero
    from a point to itself.
  - `Consume` is a recursive reference definition.
  - `ConsumeWaypoints` is the loop as a method with invariants.
  - The greedy characterisation (`Affordable`, `StopsAt`) pins both down.
- `navigation.dfy` (`Navigation`): one agent's navigation step. The partial move is an
  opaque `StepFn`.
- `systems.dfy` (`Systems`): the registry `map<Entity, Agent>`, the two systems as
  per-entity map comprehensions, a whole frame, and the invariants and scenarios
  stated across frames.

Points of the code's behaviour worth knowing:

- After a planning failure, `done` is set to "the path is empty", so it becomes **true**
  (src/nav.rs:222-226), although the field's own doc comment reads "Whether the entity
  has navigated to the destination" (src/nav.rs:134) and nothing was reached.
- Success is signalled in **every** frame in which a navigating agent's path is empty
  (src/nav.rs:248-251), not once.
- A failure is signalled only for entities that also have a `Nav`, because the lookup of
  `Nav` comes first (src/nav.rs:224-231). In the same frame, the navigation system then
  signals success for that entity, since its path is empty. The later insert replaces
  the earlier one (`Systems.FailureReplacedBySuccess`).
- The first lookup that can fail is the map entity's navmesh set (src/nav.rs:187); here
  that error is `MissingNavmeshes`.
- Planning looks up the mesh **before** it resolves a dynamic target, so a missing mesh
  is reported even when the target is also gone.

## Model

| member | source | states |
|---|---|---|
| NavTypes.NewPathfind | src/nav.rs:108-126 | a new request keeps every argument, has no path, and carries the zero deadline that makes the first check plan |
| NavTypes.NewNav | src/nav.rs:140-142 | a new `Nav` has the given speed and is not done |
| Repath.Check | src/nav.rs:164-179 | once policy: plans iff the deadline is the zero marker, and then stores the MAX marker; periodic policy: plans iff the deadline has passed, and then stores `elapsed + frequency`; a check that does not plan leaves the deadline alone; deadlines never decrease |
| Repath.FirstCheckPlans | src/nav.rs:164-179 | the zero deadline left by `Pathfind::new` makes the first check plan under both policies and at any time |
| Repath.OnceIsIdempotent | src/nav.rs:173-179 | under the once policy, the check after any check never plans, whatever the time |
| Repath.PeriodicSpacing | src/nav.rs:164-172 | after a periodic plan at time t, a later check plans iff it is at or after t + frequency |
| Repath.PeriodicDrift | src/nav.rs:167-170 | a check that comes late by some amount pushes the next deadline back by that same amount (deadlines count from now, not from the missed deadline) |
| Planning.ResolveTarget | src/nav.rs:198-201 | a static target is its own point; a dynamic target resolves iff its entity has a position, and then to that position |
| Planning.PlanPath | src/nav.rs:185-212 | succeeds iff all four lookups succeed, returning the path search's result; otherwise the error names the first lookup that failed (missing navmesh set, no mesh for the radius, unresolvable dynamic target, no path) and carries the map entity, radius or target entity it was about |
| Planning.Replan | src/nav.rs:214-226 | the failure flag is set iff some lookup failed; the path is the found path on success and empty on failure; nothing else in `Pathfind` changes; `done` becomes "the path is empty" exactly when a `Nav` is present |
| Planning.Generate | src/nav.rs:163-231 | when the check does not plan, only the deadline changes (path, `Nav` and signals untouched); when it plans, the path is the found path or empty; a failure signal is raised iff the check planned, planning failed and a `Nav` is present |
| Planning.NewRequestPlansAtOnce | src/nav.rs:116-125 | a request whose deadline is at zero (as `Pathfind::new` leaves it) is planned in the first frame, whatever the policy and time |
| Waypoints.Consume | src/nav.rs:261-275 | the path left is a suffix of the path; the agent stands on the last waypoint popped (or where it was); the remaining budget is the initial budget minus the length of the legs walked |
| Waypoints.ConsumeIsGreedy | src/nav.rs:263-275 | every waypoint popped was covered by the budget left when it was popped, and popping stops only at the end of the path or before a waypoint the remaining budget does not cover |
| Waypoints.GreedyIsUnique | src/nav.rs:263-275 | exactly one number of popped waypoints meets the greedy conditions, and it is the loop's |
| Waypoints.ConsumeWaypoints | src/nav.rs:257-275 | the loop terminates with a suffix of the path and the budget minus the length walked; every pop was affordable; when it stops early, the next waypoint is out of reach; the result equals the reference definition |
| Waypoints.BudgetBounds | src/nav.rs:263-270 | the budget never grows, and it is not negative once a waypoint has been popped |
| Waypoints.AffordableWithinBudget | src/nav.rs:263-270 | with a non-negative budget, the legs popped greedily add up to at most the budget |
| Waypoints.WaypointHereIsPopped | src/nav.rs:263-271 | a front waypoint at the agent's own position is always popped when the budget is non-negative |
| Navigation.NavStep | src/nav.rs:247-284 | an empty path means no move, no change and a success signal; otherwise the path left is the greedy suffix; an exhausted path leaves the agent on the last waypoint, marked done and signalling success; a non-exhausted path takes a partial step toward the new front using the leftover budget, with `Nav` untouched and no signal |
| Navigation.NavStepWithinBudget | src/nav.rs:257-283 | with a non-negative budget, the length walked along the path in one frame is between 0 and `speed * delta` |
| Navigation.StraightCorridorFirstFrame | src/nav.rs:257-283 | one waypoint 100 away, speed 50, one second: the agent steps 50 toward it, keeps the waypoint and is not done |
| Navigation.StraightCorridorSecondFrame | src/nav.rs:263-280 | 50 away with a budget of 50: the waypoint is popped, the agent stands on it, is done and signals success |
| Systems.PlanAgent | src/nav.rs:154-232 | only entities with a `Pathfind` take part, and the rest are untouched with no signal; nobody moves; the deadline is the check's; path and `done` change only when the check plans, to the found path or an empty one; a failure is signalled exactly for an entity with a `Nav` that was due and failed to plan |
| Systems.MoveAgent | src/nav.rs:235-284 | only entities with both `Pathfind` and `Nav` move, and the rest are untouched with no signal; the path left is a suffix of the old one; an empty path leaves the entity as it was; `done` becomes "path exhausted" or stays set; success is signalled exactly when the path ends up empty |
| Systems.GeneratePaths | src/nav.rs:154-233 | every entity is updated on its own, from the positions at the start of the system; nobody moves; a failure signal is raised exactly for each navigating entity that was due to plan and whose planning failed, and then its path is empty |
| Systems.Navigate | src/nav.rs:235-296 | every entity is updated on its own; success is signalled exactly for entities with both components that end with an empty path |
| Systems.Tick | src/nav.rs:67-71 | a frame runs path generation and then navigation over the same entities; signals only concern existing entities |
| Systems.PlanAgentMatchesDone | src/nav.rs:222-226 | path generation makes `done` agree with "the path is empty" for an entity that agreed before or whose deadline is at zero |
| Systems.MoveAgentMatchesDone | src/nav.rs:247-284 | navigation keeps `done` in agreement with "the path is empty" |
| Systems.TickMatchesDone | src/nav.rs:222-278 | after every frame, each navigating entity is done iff its path is empty, provided each entity entered the frame in agreement or with its deadline at zero |
| Systems.FailureReplacedBySuccess | src/nav.rs:228-251 | a planning failure is followed in the same frame by a success signal for the same entity, and success is the signal left |
| Systems.AgentsAreIndependent | src/nav.rs:163-232 | what a frame does to an entity depends only on that entity and on where all entities are |
| Systems.VanishedTarget | src/nav.rs:198-226 | an entity due to replan whose dynamic target is gone gets a planning error, a failure signal and an empty path; it does not move and is marked done |
| Systems.NoMeshForRadius | src/nav.rs:186-194 | when no navmesh fits the clearance radius, planning reports that error, the path is empty, and a failure is signalled |

## Left out

- Collision avoidance (`find_closest_obstacle`, `collision_avoidance`, src/nav.rs:20-57) and the final position nudge (src/nav.rs:286-291): floating-point vector maths over KD-tree neighbour queries. In the model, the position after the step is the position before that nudge.
- Steering forces (`src/forces.rs`): floating-point vector normalisation over a foreign spatial-index query API; `src/forces.rs` is not part of this model.
- The geometry of the partial move `(dest - pos).normalize() * travel_dist` (src/nav.rs:282-283): an opaque `StepFn` parameter.
- Euclidean distance: an abstract `Metric` parameter, because the loop only compares and subtracts distances. `f32` positions, speeds and frame lengths are `real`, so rounding and NaN are not modelled.
- The crate's `Navmeshes::mesh` (src/nav.rs:188; defined outside `src/nav.rs`, which is not part of this model) and the navmesh library's `find_path` (src/nav.rs:195-210), including the conversion of its points to 2D: uninterpreted function-valued fields of `Navmeshes`. `NavQuery` and `NavPathMode` are only passed through.
- `Duration` arithmetic overflow: `elapsed + frequency` panics in Rust when it overflows; the model's naturals are unbounded.
- The clock and frame length (`Res<Time>`): passed as the parameters `elapsed` and `delta`.
- Entity/component plumbing: plugin registration and the KD-tree update cadence (src/nav.rs:59-73), queries, `Commands`, and `NavBundle` (an entity holding both components). The registry is a map from entity to `Agent`, and signal inserts are returned as a map from entity to `Done`.
- The `log` feature's warning on failure: diagnostic output only.
- The `state` feature: the source inserts `Done` signals only when built with it (src/nav.rs:155, 220-231, 249-250, 279-280). The model always returns the signal maps, which corresponds to building with `state`; without it no signal is raised and everything else is the same.
- Entities without a position: the registry holds only entities that have one, since every `Agent` carries a `pos`. An entity with a `Pathfind` but no position, which both systems skip (src/nav.rs:157, 237-242), and a dynamic target that exists without a position are both modelled as absence from the registry, which the source treats the same way.
- Systems.Tick: its contract states only that entity sets are preserved. Its properties are the lemmas `TickMatchesDone`, `FailureReplacedBySuccess` and `AgentsAreIndependent`.
