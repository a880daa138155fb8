/**
 * The repath scheduler: the decision, taken at the head of every agent's path
 * generation, whether to plan a new path this frame, and the deadline it leaves
 * for the next frame.
 */
module Repath {
  import opened Wrappers
  import opened NavTypes

  /** Whether to plan now, and the deadline stored back into the agent. */
  datatype Decision = Decision(repath: bool, nextRepath: nat)

  /** The scheduling check for a policy (`None` = plan once), the stored deadline
      and the elapsed time since startup. */
  function Check(frequency: Option<nat>, nextRepath: nat, elapsed: nat): (d: Decision)
    // once policy: plan exactly when the deadline is the zero marker, and leave the MAX marker
    ensures frequency.None? ==> (d.repath <==> nextRepath == DurationZero)
    ensures frequency.None? && d.repath ==> d.nextRepath == DurationMax
    // periodic policy: plan when the deadline has passed; the next one counts from now
    ensures frequency.Some? ==> (d.repath <==> nextRepath <= elapsed)
    ensures frequency.Some? && d.repath ==> d.nextRepath == elapsed + frequency.value
    // a check that does not plan leaves the deadline alone, and deadlines never move back
    ensures !d.repath ==> d.nextRepath == nextRepath
    ensures nextRepath <= d.nextRepath
  {
    match frequency
    case Some(freq) =>
      if nextRepath <= elapsed then Decision(true, elapsed + freq) else Decision(false, nextRepath)
    case None =>
      if nextRepath == DurationZero then Decision(true, DurationMax) else Decision(false, nextRepath)
  }

  /** A freshly requested path is planned at the first check, whatever the policy and time. */
  lemma FirstCheckPlans(frequency: Option<nat>, elapsed: nat)
    ensures Check(frequency, DurationZero, elapsed).repath
  {
  }

  /** Once policy: after a check, the next check never plans, at any later time; so of two
      consecutive checks at most one plans. */
  lemma OnceIsIdempotent(nextRepath: nat, elapsed: nat, later: nat)
    ensures !Check(None, Check(None, nextRepath, elapsed).nextRepath, later).repath
  {
  }

  /** Periodic policy: after planning at `elapsed`, no check plans before `elapsed + freq`
      and every check from then on does. */
  lemma PeriodicSpacing(freq: nat, nextRepath: nat, elapsed: nat, later: nat)
    requires Check(Some(freq), nextRepath, elapsed).repath
    ensures Check(Some(freq), Check(Some(freq), nextRepath, elapsed).nextRepath, later).repath
            <==> elapsed + freq <= later
  {
  }

  /** Periodic policy: the deadline counts from the time of the check, not from the missed
      deadline, so a late check pushes every later deadline back by its lateness. */
  lemma PeriodicDrift(freq: nat, nextRepath: nat, lateness: nat)
    ensures Check(Some(freq), nextRepath, nextRepath + lateness).nextRepath
            == nextRepath + freq + lateness
  {
  }
}
