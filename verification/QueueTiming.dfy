// Timed executions: replies, heartbeats and outcome writes meet their bounds.
// Then no live job is ever reclaimed, provided
//   replyBound + heartbeatInterval * (missBound + 1) + dbTimeout <= staleAfter.
// QueueThreshold shows that this condition cannot be weakened.
module QueueTiming {
  import opened VideoTable
  import opened QueueProtocol
  import opened QueueHistory

  // Time may not pass a deadline of a live job.
  ghost predicate MayWait(c: Config, job: Job, to: Time) {
    match job.phase
    case Replying(since) => to <= since + c.replyBound
    case Running(nextTick, None, _) => to <= nextTick
    case Running(_, Some(sent), _) => to <= sent + c.dbTimeout
    case Reporting(_, since) => to <= since + c.dbTimeout
  }

  // A heartbeat still under way when process returns is cancelled, so it counts as lost.
  ghost predicate Timely(c: Config, s: State, step: Step) {
    match step
    case Advance(to) => forall j | j in s.jobs :: MayWait(c, s.jobs[j], to)
    case BeatLost(j) =>
      j in s.jobs && s.jobs[j].phase.Running? ==> s.jobs[j].phase.missed < c.missBound
    case ProcessFails(j, _, _) =>
      j in s.jobs && s.jobs[j].phase.Running? && s.jobs[j].phase.inFlight.Some? ==> s.jobs[j].phase.missed < c.missBound
    case _ => true
  }

  ghost predicate TimedExecution(c: Config, states: seq<State>, steps: seq<Step>) {
    Execution(c, states, steps) && forall i | 0 <= i < |steps| :: Timely(c, states[i], steps[i])
  }

  ghost predicate SaneBounds(c: Config) {
    ValidConfig(c) && 0 <= c.replyBound && 0 <= c.dbTimeout <= c.heartbeatInterval && 0 < c.heartbeatInterval
  }

  function WorstGap(c: Config): Time {
    c.replyBound + c.heartbeatInterval * (c.missBound + 1) + c.dbTimeout
  }

  ghost predicate Safe(c: Config) { SaneBounds(c) && WorstGap(c) <= c.staleAfter }

  // The latest time of the next heartbeat's tick after `missed` lost ones.
  function DueBy(c: Config, heartbeat: Time, missed: nat): Time {
    heartbeat + c.replyBound + c.heartbeatInterval * (missed + 1)
  }

  lemma DueByGrows(c: Config, heartbeat: Time, missed: nat)
    ensures DueBy(c, heartbeat, missed + 1) == DueBy(c, heartbeat, missed) + c.heartbeatInterval
  {
  }

  lemma {:induction false} DueByMonotone(c: Config, heartbeat: Time, missed: nat, more: nat)
    requires 0 <= c.heartbeatInterval && missed <= more
    ensures DueBy(c, heartbeat, missed) <= DueBy(c, heartbeat, more)
  {
    assert c.heartbeatInterval * (missed + 1) <= c.heartbeatInterval * (more + 1);
  }

  // Deadlines are met, and ticks are one interval apart.
  ghost predicate OnSchedule(c: Config, job: Job, now: Time) {
    MayWait(c, job, now)
    && (job.phase.Running? && job.phase.inFlight.Some? ==>
          job.phase.inFlight.value <= now && job.phase.nextTick == job.phase.inFlight.value + c.heartbeatInterval)
  }

  // How far the phase of a job may lag behind the last heartbeat of its row.
  ghost predicate OnTime(c: Config, job: Job, heartbeat: Time) {
    match job.phase
    case Replying(since) => since == heartbeat
    case Running(nextTick, None, missed) => missed <= c.missBound && nextTick <= DueBy(c, heartbeat, missed)
    case Running(_, Some(sent), missed) => missed <= c.missBound && sent <= DueBy(c, heartbeat, missed)
    case Reporting(_, since) => since <= DueBy(c, heartbeat, c.missBound)
  }

  // A live job is the only one of its video and holds the latest claim on it;
  // its row, unless deleted, is processing and beating, or already ready.
  ghost predicate JobExclusive(c: Config, s: State, job: Job) {
    OnSchedule(c, job, s.now)
    && job.epoch == HistoryOf(s, job.video).claims
    && (job.video in s.table ==>
          var r := s.table[job.video];
          (r.status.Ready? || r.status.Processing?)
          && (r.status.Processing? ==> r.heartbeatAt.Some? && OnTime(c, job, r.heartbeatAt.value)))
  }

  ghost predicate ExclusiveInv(c: Config, s: State) {
    Inv(c, s)
    && (forall j | j in s.jobs :: JobExclusive(c, s, s.jobs[j]))
    && (forall id | id in s.history :: s.history[id].strayRequeues == 0)
  }

  lemma OnTimeIsFresh(c: Config, job: Job, heartbeat: Time, now: Time)
    requires Safe(c) && OnSchedule(c, job, now) && OnTime(c, job, heartbeat)
    ensures now - heartbeat <= c.staleAfter
  {
    DueByMonotone(c, heartbeat, 0, c.missBound);
    if job.phase.Running? {
      DueByMonotone(c, heartbeat, job.phase.missed, c.missBound);
    }
  }

  lemma OwnedRowIsNotStale(c: Config, s: State, id: VideoId)
    requires Safe(c) && ExclusiveInv(c, s) && id in s.table
    requires exists j | j in s.jobs :: s.jobs[j].video == id
    ensures !Stale(s.table[id], s.now, c.staleAfter)
  {
    var j :| j in s.jobs && s.jobs[j].video == id;
    if s.table[id].status.Processing? {
      OnTimeIsFresh(c, s.jobs[j], s.table[id].heartbeatAt.value, s.now);
    }
  }

  // Only a step of the job itself changes the phase of a job.
  lemma StepKeepsExclusive(c: Config, s: State, step: Step)
    requires Safe(c) && ExclusiveInv(c, s) && Enabled(c, s, step) && Timely(c, s, step)
    ensures ExclusiveInv(c, Apply(c, s, step))
  {
    StepKeepsInv(c, s, step);
    var s' := Apply(c, s, step);
    forall id | id in s'.history ensures s'.history[id].strayRequeues == 0 {
      HistoryStep(c, s, step, id);
      assert !StrayRequeue(s, step, id);
    }
    forall k | k in s'.jobs ensures JobExclusive(c, s', s'.jobs[k]) {
      JobStaysExclusive(c, s, step, k);
    }
  }

  predicate JobOf(step: Step, j: JobId) {
    match step
    case Advance(_) | Create(_, _) | Delete(_) | ReclaimRequeue(_) | ReclaimFail(_) => false
    case _ => step.job == j
  }

  lemma JobStaysExclusive(c: Config, s: State, step: Step, k: JobId)
    requires Safe(c) && ExclusiveInv(c, s) && Enabled(c, s, step) && Timely(c, s, step)
    requires k in Apply(c, s, step).jobs
    ensures JobExclusive(c, Apply(c, s, step), Apply(c, s, step).jobs[k])
  {
    if JobOf(step, k) {
      OwnStepStaysExclusive(c, s, step, k);
    } else {
      OtherStepStaysExclusive(c, s, step, k);
    }
  }

  lemma OwnStepStaysExclusive(c: Config, s: State, step: Step, k: JobId)
    requires Safe(c) && ExclusiveInv(c, s) && Enabled(c, s, step) && Timely(c, s, step)
    requires JobOf(step, k) && k in Apply(c, s, step).jobs
    ensures JobExclusive(c, Apply(c, s, step), Apply(c, s, step).jobs[k])
  {
    match step
    case BeatLost(_) =>
      var id := s.jobs[k].video;
      if id in s.table && s.table[id].status.Processing? {
        DueByGrows(c, s.table[id].heartbeatAt.value, s.jobs[k].phase.missed);
      }
    case ProcessFails(_, _, _) => FailureStaysExclusive(c, s, step, k);
    case _ =>
  }

  lemma FailureStaysExclusive(c: Config, s: State, step: Step, k: JobId)
    requires Safe(c) && ExclusiveInv(c, s) && Enabled(c, s, step) && Timely(c, s, step)
    requires step.ProcessFails? && step.job == k
    ensures JobExclusive(c, Apply(c, s, step), Apply(c, s, step).jobs[k])
  {
    var id := s.jobs[k].video;
    var p := s.jobs[k].phase;
    if id in s.table && s.table[id].status.Processing? {
      var beat := s.table[id].heartbeatAt.value;
      DueByGrows(c, beat, p.missed);
      DueByMonotone(c, beat, if p.inFlight.Some? then p.missed + 1 else p.missed, c.missBound);
    }
  }

  // The step of another job, and a reclaim, leave an owned row alone.
  lemma OtherStepLeavesRow(c: Config, s: State, step: Step, k: JobId)
    requires Safe(c) && ExclusiveInv(c, s) && Enabled(c, s, step)
    requires !JobOf(step, k) && k in s.jobs
    ensures var (id, s') := (s.jobs[k].video, Apply(c, s, step));
            k in s'.jobs && s'.jobs[k] == s.jobs[k] && HistoryOf(s', id).claims == HistoryOf(s, id).claims
            && (id in s'.table ==> id in s.table && s'.table[id] == s.table[id])
  {
    var id := s.jobs[k].video;
    if id in s.table {
      OwnedRowIsNotStale(c, s, id);
    }
    match step
    case Beat(j) => assert s.jobs[j].video != id;
    case Progress(j, _) => assert s.jobs[j].video != id;
    case WriteReady(j, _) => assert s.jobs[j].video != id;
    case Report(j) => assert s.jobs[j].video != id;
    case _ =>
  }

  lemma OtherStepStaysExclusive(c: Config, s: State, step: Step, k: JobId)
    requires Safe(c) && ExclusiveInv(c, s) && Enabled(c, s, step) && Timely(c, s, step)
    requires !JobOf(step, k) && k in Apply(c, s, step).jobs
    ensures JobExclusive(c, Apply(c, s, step), Apply(c, s, step).jobs[k])
  {
    assert k in s.jobs;
    OtherStepLeavesRow(c, s, step, k);
    WaitsOn(c, s, step, k);
  }

  lemma WaitsOn(c: Config, s: State, step: Step, k: JobId)
    requires Enabled(c, s, step) && Timely(c, s, step) && k in s.jobs && OnSchedule(c, s.jobs[k], s.now)
    ensures OnSchedule(c, s.jobs[k], Apply(c, s, step).now)
  {
  }

  lemma {:induction false} ExclusiveHolds(c: Config, states: seq<State>, steps: seq<Step>, i: nat)
    requires Safe(c) && TimedExecution(c, states, steps) && i < |states|
    ensures ExclusiveInv(c, states[i])
  {
    if i > 0 {
      ExclusiveHolds(c, states, steps, i - 1);
      StepKeepsExclusive(c, states[i - 1], steps[i - 1]);
    }
  }

  // ---- Results ----------------------------------------------------------------

  ghost predicate Hit(c: Config, r: Row, now: Time, step: Step) {
    match step
    case ReclaimRequeue(max) => HitByRequeue(r, now, c.staleAfter, max)
    case ReclaimFail(max) => HitByFail(r, now, c.staleAfter, max)
    case _ => false
  }

  ghost predicate ReclaimsLiveJob(c: Config, s: State, step: Step) {
    exists j | j in s.jobs :: s.jobs[j].video in s.table && Hit(c, s.table[s.jobs[j].video], s.now, step)
  }

  lemma LiveJobsAreNotReclaimed(c: Config, states: seq<State>, steps: seq<Step>, i: nat)
    requires Safe(c) && TimedExecution(c, states, steps) && i < |steps|
    ensures !ReclaimsLiveJob(c, states[i], steps[i])
  {
    ExclusiveHolds(c, states, steps, i);
    var s := states[i];
    forall j | j in s.jobs && s.jobs[j].video in s.table ensures !Hit(c, s.table[s.jobs[j].video], s.now, steps[i]) {
      OwnedRowIsNotStale(c, s, s.jobs[j].video);
    }
  }

  // At most one live job per video, up to and including its outcome write; it
  // holds the latest claim and its snapshot equals the attempts of its row.
  lemma OneLiveJobPerVideo(c: Config, states: seq<State>, steps: seq<Step>, i: nat, j: JobId)
    requires Safe(c) && TimedExecution(c, states, steps) && i < |states| && j in states[i].jobs
    ensures var s := states[i];
            var id := s.jobs[j].video;
            (forall k | k in s.jobs && k != j :: s.jobs[k].video != id)
            && s.jobs[j].epoch == ClaimsOn(steps, id, i)
            && (id in s.table ==>
                  (s.table[id].status.Processing? && s.jobs[j].attempts == s.table[id].attempts)
                  || s.table[id].status.Ready?)
  {
    ExclusiveHolds(c, states, steps, i);
    HistoryCounts(c, states, steps, states[i].jobs[j].video, i);
  }

  function WorkDir(tempDir: string, id: VideoId): string { tempDir + "/" + id }

  lemma WorkDirsAreDisjoint(c: Config, states: seq<State>, steps: seq<Step>, i: nat, j: JobId, k: JobId, tempDir: string)
    requires Safe(c) && TimedExecution(c, states, steps) && i < |states|
    requires j in states[i].jobs && k in states[i].jobs && j != k
    ensures WorkDir(tempDir, states[i].jobs[j].video) != WorkDir(tempDir, states[i].jobs[k].video)
  {
    OneLiveJobPerVideo(c, states, steps, i, j);
    var a, b := states[i].jobs[j].video, states[i].jobs[k].video;
    assert WorkDir(tempDir, a)[|tempDir| + 1..] == a && WorkDir(tempDir, b)[|tempDir| + 1..] == b;
  }

  lemma {:induction false} NoStrayRequeues(c: Config, states: seq<State>, steps: seq<Step>, id: VideoId, i: nat)
    requires Safe(c) && TimedExecution(c, states, steps) && i < |states|
    ensures StrayRequeuesOn(states, steps, id, i) == 0
  {
    ExclusiveHolds(c, states, steps, i);
    HistoryCounts(c, states, steps, id, i);
  }

  // A waiting video shows no progress: no job writes to a row it does not own.
  ghost predicate NoStrayProgress(s: State) {
    forall id | id in s.table && s.table[id].status.Pending? :: s.table[id].progress == 0
  }

  lemma ProgressStep(c: Config, s: State, step: Step)
    requires ExclusiveInv(c, s) && Enabled(c, s, step) && NoStrayProgress(s)
    ensures NoStrayProgress(Apply(c, s, step))
  {
  }

  lemma {:induction false} PendingShowsNoProgress(c: Config, states: seq<State>, steps: seq<Step>, i: nat)
    requires Safe(c) && TimedExecution(c, states, steps) && i < |states|
    ensures NoStrayProgress(states[i])
  {
    if i > 0 {
      PendingShowsNoProgress(c, states, steps, i - 1);
      ExclusiveHolds(c, states, steps, i - 1);
      ProgressStep(c, states[i - 1], steps[i - 1]);
    }
  }

  // The attempt budget proper.
  lemma AttemptsStayInBudget(c: Config, states: seq<State>, steps: seq<Step>, i: nat, id: VideoId)
    requires Safe(c) && TimedExecution(c, states, steps) && i < |states| && id in states[i].table
    ensures 0 <= states[i].table[id].attempts <= c.maxAttempts
    ensures states[i].table[id].status.Pending? ==> states[i].table[id].attempts < c.maxAttempts
  {
    GradedBudget(c, states, steps, i, id);
    NoStrayRequeues(c, states, steps, id, i);
  }

  // Every acknowledgement of the write of `ready` arrives.
  predicate Truthful(step: Step) { step.WriteReady? ==> step.acknowledged }

  ghost predicate FinishedIsIdle(s: State) {
    forall j | j in s.jobs && s.jobs[j].video in s.table :: !Finished(s.table[s.jobs[j].video])
  }

  lemma TruthfulStep(c: Config, s: State, step: Step)
    requires Safe(c) && ExclusiveInv(c, s) && Enabled(c, s, step) && Timely(c, s, step)
    requires FinishedIsIdle(s) && Truthful(step)
    ensures FinishedIsIdle(Apply(c, s, step))
  {
    var s' := Apply(c, s, step);
    forall j | j in s'.jobs && s'.jobs[j].video in s'.table ensures !Finished(s'.table[s'.jobs[j].video]) {
      var id := s'.jobs[j].video;
      if j in s.jobs && id in s.table {
        OwnedRowIsNotStale(c, s, id);
        StaysUnfinished(c, s, step, id);
      }
    }
  }

  lemma StaysUnfinished(c: Config, s: State, step: Step, id: VideoId)
    requires Enabled(c, s, step) && id in s.table && id in s.history && id in Apply(c, s, step).table
    requires !Finished(s.table[id]) && !Stale(s.table[id], s.now, c.staleAfter)
    requires step.WriteReady? || step.Report? ==> s.jobs[step.job].video != id
    ensures !Finished(Apply(c, s, step).table[id])
  {
  }

  // A finished row without a live job keeps its status.
  lemma TerminalStep(c: Config, s: State, step: Step, id: VideoId)
    requires Enabled(c, s, step) && FinishedIsIdle(s) && id in s.history && id in s.table && Finished(s.table[id])
    ensures id in Apply(c, s, step).table ==> Apply(c, s, step).table[id].status == s.table[id].status
  {
  }

  lemma TerminalStepAt(c: Config, states: seq<State>, steps: seq<Step>, k: nat, id: VideoId)
    requires IsRun(c, states, steps) && k < |steps| && FinishedIsIdle(states[k]) && id in states[k].history
    requires id in states[k].table ==> Finished(states[k].table[id])
    ensures id in states[k + 1].table ==>
              id in states[k].table && states[k + 1].table[id].status == states[k].table[id].status
  {
    if id in states[k].table {
      TerminalStep(c, states[k], steps[k], id);
    }
  }

  lemma {:induction false} FinishedIsIdleHolds(c: Config, states: seq<State>, steps: seq<Step>, i: nat)
    requires Safe(c) && TimedExecution(c, states, steps) && i < |states|
    requires forall n | 0 <= n < i :: Truthful(steps[n])
    ensures FinishedIsIdle(states[i])
  {
    if i > 0 {
      FinishedIsIdleHolds(c, states, steps, i - 1);
      ExclusiveHolds(c, states, steps, i - 1);
      TruthfulStep(c, states[i - 1], steps[i - 1]);
    }
  }

  // With exclusive claims and truthful replies `ready` and `failed` are each terminal.
  lemma {:induction false} ReadyAndFailedAreTerminal(
      c: Config, states: seq<State>, steps: seq<Step>, i: nat, k: nat, id: VideoId)
    requires Safe(c) && TimedExecution(c, states, steps) && i <= k < |states|
    requires forall n | 0 <= n < |steps| :: Truthful(steps[n])
    requires id in states[i].table && Finished(states[i].table[id])
    ensures id in states[k].table ==> states[k].table[id].status == states[i].table[id].status
    decreases k
  {
    if i < k {
      ReadyAndFailedAreTerminal(c, states, steps, i, k - 1, id);
      FinishedIsIdleHolds(c, states, steps, k - 1);
      InvHolds(c, states, steps, i);
      HistoryGrows(c, states, steps, i, k - 1, id);
      TerminalStepAt(c, states, steps, k - 1, id);
    }
  }
}
