// A reclaim pass is two updates with other statements running between them.
// Here: its two lists are disjoint, it misses no stale row, and together with
// the schedule of the worker loop it strands no video.
module QueueReclaim {
  import opened Prelude
  import opened VideoTable
  import opened QueueProtocol
  import opened QueueThreshold

  // Steps p and q are the two updates of one pass with limit `max`.
  ghost predicate IsPass(states: seq<State>, steps: seq<Step>, p: nat, q: nat, max: int) {
    p < q < |steps| < |states| && steps[p] == ReclaimRequeue(max) && steps[q] == ReclaimFail(max)
  }

  function RequeuedBy(c: Config, s: State, max: int): set<VideoId> {
    set id | id in s.table && HitByRequeue(s.table[id], s.now, c.staleAfter, max)
  }

  function FailedBy(c: Config, s: State, max: int): set<VideoId> {
    set id | id in s.table && HitByFail(s.table[id], s.now, c.staleAfter, max)
  }

  // Gone, unclaimed, or heartbeated (a claim counts) at time t or later.
  ghost predicate RenewedSince(s: State, id: VideoId, t: Time) {
    id in s.history
    && (id in s.table && s.table[id].status.Processing? ==>
          s.table[id].heartbeatAt.Some? && t <= s.table[id].heartbeatAt.value)
  }

  lemma {:induction false} ClockOnlyAdvances(c: Config, states: seq<State>, steps: seq<Step>, i: nat, k: nat)
    requires IsRun(c, states, steps) && i <= k < |states|
    ensures states[i].now <= states[k].now
    decreases k
  {
    if i < k {
      ClockOnlyAdvances(c, states, steps, i, k - 1);
      assert Enabled(c, states[k - 1], steps[k - 1]) && states[k] == Apply(c, states[k - 1], steps[k - 1]);
    }
  }

  lemma StepKeepsRenewed(c: Config, s: State, step: Step, id: VideoId, t: Time)
    requires Inv(c, s) && Enabled(c, s, step) && RenewedSince(s, id, t) && t <= s.now
    ensures RenewedSince(Apply(c, s, step), id, t)
  {
  }

  lemma {:induction false} StaysRenewed(
      c: Config, states: seq<State>, steps: seq<Step>, i: nat, k: nat, id: VideoId, t: Time)
    requires Execution(c, states, steps) && i <= k < |states|
    requires RenewedSince(states[i], id, t) && t <= states[i].now
    ensures RenewedSince(states[k], id, t)
    decreases k
  {
    if i < k {
      StaysRenewed(c, states, steps, i, k - 1, id, t);
      ClockOnlyAdvances(c, states, steps, i, k - 1);
      InvHolds(c, states, steps, k - 1);
      StepKeepsRenewed(c, states[k - 1], steps[k - 1], id, t);
    }
  }

  // Whatever runs between the two updates, no row is in both lists of a pass
  // that takes at most staleAfter - even one that was claimed again in between.
  lemma PassListsAreDisjoint(c: Config, states: seq<State>, steps: seq<Step>, p: nat, q: nat, max: int)
    requires Execution(c, states, steps) && IsPass(states, steps, p, q, max)
    requires states[q].now <= states[p].now + c.staleAfter
    ensures RequeuedBy(c, states[p], max) !! FailedBy(c, states[q], max)
  {
    forall id | id in RequeuedBy(c, states[p], max) ensures id !in FailedBy(c, states[q], max) {
      InvHolds(c, states, steps, p);
      assert states[p + 1] == Apply(c, states[p], steps[p]);
      assert RenewedSince(states[p + 1], id, states[p].now);
      StaysRenewed(c, states, steps, p + 1, q, id, states[p].now);
    }
  }

  // With a limit of one nothing is ever requeued.
  lemma NothingRequeued(c: Config, states: seq<State>, steps: seq<Step>, p: nat)
    requires Execution(c, states, steps) && p < |states|
    ensures RequeuedBy(c, states[p], 1) == {}
  {
    InvHolds(c, states, steps, p);
  }

  ghost predicate Overlap(c: Config, states: seq<State>, steps: seq<Step>, p: nat, q: nat, max: int) {
    IsPass(states, steps, p, q, max) && !(RequeuedBy(c, states[p], max) !! FailedBy(c, states[q], max))
  }

  // No pass with this limit that takes at most `bound` lists a video twice.
  ghost predicate PassesAreDisjoint(c: Config, max: int, bound: Time) {
    forall states: seq<State>, steps: seq<Step> | Execution(c, states, steps) ::
      forall p: nat, q: nat | IsPass(states, steps, p, q, max) && states[q].now <= states[p].now + bound ::
        !Overlap(c, states, steps, p, q, max)
  }

  // The bound cannot be weakened, for any limit that allows a second attempt.
  lemma PassBoundIsExact(c: Config, max: int, bound: Time)
    requires ValidConfig(c) && c.minAttempts <= max <= c.maxAttempts && 0 <= bound
    ensures PassesAreDisjoint(c, max, bound) <==> bound <= c.staleAfter || max == 1
  {
    if bound <= c.staleAfter || max == 1 {
      forall states: seq<State>, steps: seq<Step>, p: nat, q: nat
        | Execution(c, states, steps) && IsPass(states, steps, p, q, max) && states[q].now <= states[p].now + bound
        ensures !Overlap(c, states, steps, p, q, max)
      {
        if max == 1 {
          NothingRequeued(c, states, steps, p);
        } else {
          PassListsAreDisjoint(c, states, steps, p, q, max);
        }
      }
    } else {
      var states, steps, p, q := SlowPassCanOverlap(c, max);
      assert Overlap(c, states, steps, p, q, max);
    }
  }

  // The shortest time after which a heartbeat is stale.
  function Late(c: Config): Time { Max(c.staleAfter + 1, 0) }

  // A pass that stalls for longer than staleAfter between its updates fails a
  // row it has just requeued: in between, the row is claimed for the last time.
  lemma SlowPassCanOverlap(c: Config, max: int) returns (states: seq<State>, steps: seq<Step>, p: nat, q: nat)
    requires ValidConfig(c) && c.minAttempts <= max <= c.maxAttempts && 2 <= max
    ensures Execution(c, states, steps) && IsPass(states, steps, p, q, max)
    ensures states[q].now == states[p].now + Late(c)
    ensures "v" in RequeuedBy(c, states[p], max) && "v" in FailedBy(c, states[q], max)
  {
    states, steps := StalledClaim(c, max);
    p := |steps|;
    var s := states[p];
    states, steps := Extend(c, states, steps, ReclaimRequeue(max));
    var back := Unclaimed(SilentRow(max - 1), max - 1);
    assert states[p + 1].table == map["v" := back];
    states, steps := Extend(c, states, steps, Claim(1, "v", {}, max));
    assert states[p + 2].table == map["v" := Claimed(back, Late(c))] && states[p + 2].now == Late(c);
    states, steps := Extend(c, states, steps, Advance(2 * Late(c)));
    q := |steps|;
    var t := states[q];
    assert t.table == map["v" := Claimed(back, Late(c))] && t.now == 2 * Late(c);
    states, steps := Extend(c, states, steps, ReclaimFail(max));
    assert states[p] == s && states[q] == t;
  }

  // The last attempt but one is claimed and goes stale.
  lemma StalledClaim(c: Config, max: nat) returns (states: seq<State>, steps: seq<Step>)
    requires ValidConfig(c) && c.minAttempts <= max <= c.maxAttempts && 2 <= max
    ensures Execution(c, states, steps)
    ensures states[|steps|] == SilentState(max, max - 1, Late(c), Replying(0))
  {
    states, steps := SpendAttempts(c, max, max - 2);
    states, steps := ClaimSpent(c, max, max - 1, states, steps);
    states, steps := Extend(c, states, steps, Advance(Late(c)));
  }

  // Every row stale at the first update has, once the pass is over, left
  // processing or been heartbeated since the pass began.
  lemma PassMissesNoStaleRow(
      c: Config, states: seq<State>, steps: seq<Step>, p: nat, q: nat, max: int, id: VideoId)
    requires Execution(c, states, steps) && IsPass(states, steps, p, q, max)
    requires id in states[p].table && Stale(states[p].table[id], states[p].now, c.staleAfter)
    ensures RenewedSince(states[q + 1], id, states[p].now)
  {
    InvHolds(c, states, steps, p);
    assert states[p + 1] == Apply(c, states[p], steps[p]);
    var r := states[p].table[id];
    if r.attempts < max {
      assert RenewedSince(states[p + 1], id, states[p].now);
      StaysRenewed(c, states, steps, p + 1, q + 1, id, states[p].now);
    } else {
      UntouchedUntilRenewed(c, states, steps, p, q, id, r);
      InvHolds(c, states, steps, q);
      ClockOnlyAdvances(c, states, steps, p, q);
      assert states[q + 1] == Apply(c, states[q], steps[q]);
    }
  }

  // Still as it was: processing, with the same heartbeat and the same attempts.
  ghost predicate Untouched(s: State, id: VideoId, r: Row) {
    id in s.table && s.table[id].status.Processing?
    && s.table[id].heartbeatAt == r.heartbeatAt && s.table[id].attempts == r.attempts
  }

  lemma StepTouchesOrRenews(c: Config, s: State, step: Step, id: VideoId, r: Row)
    requires Inv(c, s) && Enabled(c, s, step) && Untouched(s, id, r)
    ensures Untouched(Apply(c, s, step), id, r) || RenewedSince(Apply(c, s, step), id, s.now)
  {
  }

  lemma {:induction false} UntouchedUntilRenewed(
      c: Config, states: seq<State>, steps: seq<Step>, i: nat, k: nat, id: VideoId, r: Row)
    requires Execution(c, states, steps) && i <= k < |states| && Untouched(states[i], id, r)
    ensures Untouched(states[k], id, r) || RenewedSince(states[k], id, states[i].now)
    decreases k
  {
    if i < k {
      UntouchedUntilRenewed(c, states, steps, i, k - 1, id, r);
      InvHolds(c, states, steps, k - 1);
      ClockOnlyAdvances(c, states, steps, i, k - 1);
      if RenewedSince(states[k - 1], id, states[i].now) {
        StaysRenewed(c, states, steps, k - 1, k, id, states[i].now);
      } else {
        StepTouchesOrRenews(c, states[k - 1], steps[k - 1], id, r);
      }
    }
  }

  // ---- No video is stranded ------------------------------------------------------

  // A processing row whose job is gone.
  ghost predicate Orphaned(s: State, id: VideoId, r: Row) {
    id in s.table && s.table[id] == r && r.status.Processing?
    && forall j | j in s.jobs :: s.jobs[j].video != id
  }

  // How an orphaned row may leave that state.
  ghost predicate Rescued(s': State, step: Step, id: VideoId, r: Row) {
    (step.Delete? && step.id == id && id !in s'.table)
    || (step.ReclaimRequeue? && r.attempts < step.max
        && id in s'.table && s'.table[id] == Unclaimed(r, r.attempts))
    || (step.ReclaimFail? && step.max <= r.attempts
        && id in s'.table && s'.table[id].status.Failed? && s'.table[id].attempts == r.attempts)
  }

  ghost predicate RescuedAt(states: seq<State>, steps: seq<Step>, n: nat, id: VideoId, r: Row) {
    n < |steps| < |states| && Orphaned(states[n], id, r) && Rescued(states[n + 1], steps[n], id, r)
  }

  lemma OrphanStep(c: Config, s: State, step: Step, id: VideoId, r: Row)
    requires Inv(c, s) && Enabled(c, s, step) && Orphaned(s, id, r)
    ensures Orphaned(Apply(c, s, step), id, r) || Rescued(Apply(c, s, step), step, id, r)
  {
  }

  lemma {:induction false} OrphanedUntilRescued(
      c: Config, states: seq<State>, steps: seq<Step>, i: nat, k: nat, id: VideoId, r: Row)
    requires Execution(c, states, steps) && i <= k < |states| && Orphaned(states[i], id, r)
    ensures Orphaned(states[k], id, r) || exists n | i <= n < k :: RescuedAt(states, steps, n, id, r)
    decreases k
  {
    if i < k {
      OrphanedUntilRescued(c, states, steps, i, k - 1, id, r);
      if Orphaned(states[k - 1], id, r) {
        OrphanedOrRescued(c, states, steps, k - 1, id, r);
      }
    }
  }

  lemma OrphanedOrRescued(c: Config, states: seq<State>, steps: seq<Step>, k: nat, id: VideoId, r: Row)
    requires Execution(c, states, steps) && k < |steps| && Orphaned(states[k], id, r)
    ensures Orphaned(states[k + 1], id, r) || RescuedAt(states, steps, k, id, r)
  {
    InvHolds(c, states, steps, k);
    OrphanStep(c, states[k], steps[k], id, r);
  }

  // The first pass that starts more than staleAfter after the last heartbeat of
  // an orphaned row rescues it, unless it was rescued before: pending again if
  // attempts are left, failed otherwise.
  lemma PassRescuesOrphan(
      c: Config, states: seq<State>, steps: seq<Step>, i: nat, p: nat, q: nat, max: int, id: VideoId, r: Row)
    requires Execution(c, states, steps) && IsPass(states, steps, p, q, max)
    requires i <= p && Orphaned(states[i], id, r)
    requires r.heartbeatAt.Some? && r.heartbeatAt.value + c.staleAfter < states[p].now
    ensures exists n | i <= n <= q :: RescuedAt(states, steps, n, id, r)
  {
    OrphanedUntilRescued(c, states, steps, i, q + 1, id, r);
    if Orphaned(states[q + 1], id, r) {
      OrphanedUntilRescued(c, states, steps, i, p, id, r);
      OrphanedUntilRescued(c, states, steps, i, p + 1, id, r);
      OrphanedUntilRescued(c, states, steps, i, q, id, r);
      ClockOnlyAdvances(c, states, steps, p, q);
      assert states[p + 1] == Apply(c, states[p], steps[p]);
      assert states[q + 1] == Apply(c, states[q], steps[q]);
    }
  }

  // An orphaned row always has a heartbeat to go stale.
  lemma OrphanHasHeartbeat(c: Config, states: seq<State>, steps: seq<Step>, i: nat, id: VideoId, r: Row)
    requires Execution(c, states, steps) && i < |states| && Orphaned(states[i], id, r)
    ensures r.heartbeatAt.Some? && r.heartbeatAt.value <= states[i].now
  {
    InvHolds(c, states, steps, i);
  }

  const POLL_INTERVAL: Time := 3_000
  const RECLAIM_INTERVAL: Time := 60_000

  // One turn of the worker's loop: when it starts, and when the reclaim pass it
  // may run has returned.
  datatype Turn = Turn(top: Time, passEnd: Time)

  // The clock advances through the turns; a pass takes at most dbTimeout and the
  // next turn starts at most one poll interval plus the loop's body time after
  // the top of this one.
  ghost predicate Turns(turns: seq<Turn>, dbTimeout: Time, body: Time) {
    |turns| > 0
    && (forall i | 0 <= i < |turns| :: turns[i].top <= turns[i].passEnd <= turns[i].top + dbTimeout)
    && (forall i | 0 < i < |turns| :: turns[i - 1].passEnd <= turns[i].top <= turns[i - 1].top + POLL_INTERVAL + body)
  }

  function Window(dbTimeout: Time, body: Time): Time { RECLAIM_INTERVAL + POLL_INTERVAL + body + dbTimeout }

  ghost predicate PassWithin(passes: seq<Time>, x: Time, window: Time) {
    exists k | 0 <= k < |passes| :: x < passes[k] <= x + window
  }

  // The passes started so far, and when the last one was over.
  datatype Schedule = Schedule(passes: seq<Time>, lastReclaim: Time)

  // What Run schedules: a pass at the start, then one in every turn that finds
  // the last pass over for at least the reclaim interval.
  function Scheduled(turns: seq<Turn>): (s: Schedule)
    requires turns != []
    ensures s.passes != []
  {
    var n := |turns| - 1;
    if n == 0 then Schedule([turns[0].top], turns[0].passEnd)
    else
      var before := Scheduled(turns[..n]);
      if turns[n].top - before.lastReclaim >= RECLAIM_INTERVAL
      then Schedule(before.passes + [turns[n].top], turns[n].passEnd)
      else before
  }

  method ReclaimSchedule(turns: seq<Turn>) returns (passes: seq<Time>)
    requires turns != []
    ensures passes == Scheduled(turns).passes
  {
    passes := [turns[0].top];
    var lastReclaim := turns[0].passEnd;
    assert turns[..1] == [turns[0]];
    for i := 1 to |turns|
      invariant Schedule(passes, lastReclaim) == Scheduled(turns[..i])
    {
      assert turns[..i + 1][..i] == turns[..i];
      if turns[i].top - lastReclaim >= RECLAIM_INTERVAL {
        passes := passes + [turns[i].top];
        lastReclaim := turns[i].passEnd;
      }
    }
    assert turns[..|turns|] == turns;
  }

  // Passes start with the first turn and with some later ones, at least the
  // interval apart, and up to the last one there is a pass in the window after
  // any time.
  ghost predicate Covers(s: Schedule, turns: seq<Turn>, dbTimeout: Time, body: Time) {
    turns != [] && s.passes != [] && s.passes[0] == turns[0].top
    && (forall start | start in s.passes :: exists i | 0 <= i < |turns| :: turns[i].top == start)
    && (forall k | 0 < k < |s.passes| :: RECLAIM_INTERVAL <= s.passes[k] - s.passes[k - 1])
    && s.passes[|s.passes| - 1] <= s.lastReclaim <= s.passes[|s.passes| - 1] + dbTimeout
    && turns[|turns| - 1].top < s.lastReclaim + RECLAIM_INTERVAL
    && forall x | turns[0].top <= x < s.passes[|s.passes| - 1] :: PassWithin(s.passes, x, Window(dbTimeout, body))
  }

  lemma {:induction false} ScheduleCovers(turns: seq<Turn>, dbTimeout: Time, body: Time)
    requires Turns(turns, dbTimeout, body) && 0 <= dbTimeout && 0 <= body
    ensures Covers(Scheduled(turns), turns, dbTimeout, body)
  {
    var n := |turns| - 1;
    if n > 0 {
      ScheduleCovers(turns[..n], dbTimeout, body);
      if turns[n].top - Scheduled(turns[..n]).lastReclaim >= RECLAIM_INTERVAL {
        OnePassMore(Scheduled(turns[..n]), turns, dbTimeout, body);
      }
    }
  }

  lemma OnePassMore(before: Schedule, turns: seq<Turn>, dbTimeout: Time, body: Time)
    requires |turns| > 1 && Turns(turns, dbTimeout, body) && 0 <= dbTimeout && 0 <= body
    requires Covers(before, turns[..|turns| - 1], dbTimeout, body)
    requires turns[|turns| - 1].top - before.lastReclaim >= RECLAIM_INTERVAL
    ensures Covers(Schedule(before.passes + [turns[|turns| - 1].top], turns[|turns| - 1].passEnd), turns, dbTimeout, body)
  {
    var top := turns[|turns| - 1].top;
    var passes := before.passes + [top];
    forall x | turns[0].top <= x < top ensures PassWithin(passes, x, Window(dbTimeout, body)) {
      if x < before.passes[|before.passes| - 1] {
        assert PassWithin(before.passes, x, Window(dbTimeout, body));
        var k :| 0 <= k < |before.passes| && x < before.passes[k] <= x + Window(dbTimeout, body);
        assert passes[k] == before.passes[k];
      } else {
        assert passes[|passes| - 1] == top;
      }
    }
  }

  // A pass starts within the window after any time that leaves room for it.
  lemma PassAfter(turns: seq<Turn>, dbTimeout: Time, body: Time, x: Time)
    requires Turns(turns, dbTimeout, body) && 0 <= dbTimeout && 0 <= body
    requires turns[0].top <= x && x + Window(dbTimeout, body) <= turns[|turns| - 1].top
    ensures PassWithin(Scheduled(turns).passes, x, Window(dbTimeout, body))
  {
    ScheduleCovers(turns, dbTimeout, body);
  }

  // The run executes the scheduled pass: both updates happen within dbTimeout of its start.
  ghost predicate PassRuns(
      c: Config, states: seq<State>, steps: seq<Step>, start: Time, p: nat, q: nat, max: int)
  {
    IsPass(states, steps, p, q, max) && start <= states[p].now && states[q].now <= start + c.dbTimeout
  }

  // The run executes what the worker schedules within the window after time x.
  ghost predicate FollowsSchedule(
      c: Config, states: seq<State>, steps: seq<Step>, turns: seq<Turn>, max: int, x: Time, window: Time)
    requires turns != []
  {
    forall start | start in Scheduled(turns).passes && x < start <= x + window ::
      exists p, q :: PassRuns(c, states, steps, start, p, q, max)
  }

  // When a row found at state s goes stale.
  function StaleFrom(c: Config, s: State, r: Row): Time {
    if r.heartbeatAt.Some? then Max(s.now, r.heartbeatAt.value + c.staleAfter) else s.now
  }

  // While one worker runs its loop, an orphaned video is rescued no later than
  // one window plus one pass after it went stale.
  lemma NoVideoIsStranded(
      c: Config, states: seq<State>, steps: seq<Step>, i: nat, id: VideoId, r: Row,
      turns: seq<Turn>, body: Time, max: int)
    requires Execution(c, states, steps) && i < |states| && Orphaned(states[i], id, r)
    requires Turns(turns, c.dbTimeout, body) && 0 <= c.dbTimeout && 0 <= body
    requires FollowsSchedule(c, states, steps, turns, max, StaleFrom(c, states[i], r), Window(c.dbTimeout, body))
    requires turns[0].top <= states[i].now
    requires StaleFrom(c, states[i], r) + Window(c.dbTimeout, body) <= turns[|turns| - 1].top
    ensures exists n | i <= n < |steps| ::
              RescuedAt(states, steps, n, id, r)
              && states[n + 1].now <= StaleFrom(c, states[i], r) + Window(c.dbTimeout, body) + c.dbTimeout
  {
    var stale := StaleFrom(c, states[i], r);
    var passes := Scheduled(turns).passes;
    OrphanHasHeartbeat(c, states, steps, i, id, r);
    PassAfter(turns, c.dbTimeout, body, stale);
    var k :| 0 <= k < |passes| && stale < passes[k] <= stale + Window(c.dbTimeout, body);
    assert passes[k] in passes;
    var p: nat, q: nat :| PassRuns(c, states, steps, passes[k], p, q, max);
    if p < i {
      ClockOnlyAdvances(c, states, steps, p, i);
    }
    PassRescuesOrphan(c, states, steps, i, p, q, max, id, r);
    var n :| i <= n <= q && RescuedAt(states, steps, n, id, r);
    ClockOnlyAdvances(c, states, steps, n + 1, q + 1);
    assert states[q + 1] == Apply(c, states[q], steps[q]);
  }
}
