// The transcoding queue as a state machine: any number of workers, one table,
// one clock. Each SQL statement is one atomic step; replies, heartbeats and
// outcome writes may be late or lost, and a worker may die at any point.
module QueueProtocol {
  import opened Prelude
  import opened VideoTable

  type JobId = nat

  datatype Config = Config(
    replyBound: Time,         // longest time a claim's reply takes
    heartbeatInterval: Time,
    dbTimeout: Time,
    staleAfter: Time,
    missBound: nat,           // most consecutive heartbeats a live job loses
    minAttempts: int,         // smallest and largest MaxAttempts of any worker
    maxAttempts: int)

  ghost predicate ValidConfig(c: Config) { 1 <= c.minAttempts <= c.maxAttempts }

  // The constants of the worker, with the slowest reply and the longest loss
  // of heartbeats that they tolerate, and the default attempt limit.
  const DEPLOYED := Config(5_000, 15_000, 10_000, 120_000, 6, 3, 3)

  datatype Outcome = Release | Requeue | Fail(message: string)

  // runJob: what is written once process has returned an error.
  function OutcomeOf(cancelled: bool, attempts: int, max: int, message: string): Outcome {
    if cancelled then Release
    else if attempts < max then Requeue
    else Fail(message)
  }

  datatype Phase =
    | Replying(since: Time)                                          // claimed, the reply is under way
    | Running(nextTick: Time, inFlight: Option<Time>, missed: nat)   // process and heartbeatLoop
    | Reporting(outcome: Outcome, since: Time)                       // process returned an error

  // `epoch` numbers the claims of a row; the row itself does not record it.
  datatype Job = Job(video: VideoId, attempts: int, max: int, epoch: nat, phase: Phase)

  // What happened to a video so far. A stray requeue is one by a job that no
  // longer owned the row.
  datatype History = History(claims: nat, releases: nat, strayRequeues: nat)

  datatype State = State(now: Time, table: Table, jobs: map<JobId, Job>, history: map<VideoId, History>)

  function HistoryOf(s: State, id: VideoId): History {
    if id in s.history then s.history[id] else History(0, 0, 0)
  }

  predicate Owns(job: Job, r: Row, h: History) {
    r.status.Processing? && job.epoch == h.claims
  }

  datatype Step =
    | Advance(to: Time)
    | Create(id: VideoId, path: string)
    | Delete(id: VideoId)
    | Claim(job: JobId, id: VideoId, locked: set<VideoId>, max: int)
    | ClaimReply(job: JobId)
    | Tick(job: JobId)
    | Beat(job: JobId)
    | BeatLost(job: JobId)
    | Progress(job: JobId, pct: int)
    | WriteReady(job: JobId, acknowledged: bool)
    | ProcessFails(job: JobId, cancelled: bool, message: string)
    | Report(job: JobId)
    | ReportLost(job: JobId)
    | Crash(job: JobId)                      // the worker dies, or the claim's reply is lost
    | ReclaimRequeue(max: int)
    | ReclaimFail(max: int)

  ghost predicate Enabled(c: Config, s: State, step: Step) {
    match step
    case Advance(to) => s.now <= to
    case Create(id, _) => id !in s.history    // ids are fresh UUIDs
    case Delete(id) => id in s.table
    case Claim(j, id, locked, max) =>
      j !in s.jobs && OldestCandidate(s.table, locked, id) && c.minAttempts <= max <= c.maxAttempts
    case ClaimReply(j) => j in s.jobs && s.jobs[j].phase.Replying?
    case Tick(j) =>
      j in s.jobs && s.jobs[j].phase.Running? && s.jobs[j].phase.inFlight.None? && s.jobs[j].phase.nextTick <= s.now
    case Beat(j) => j in s.jobs && s.jobs[j].phase.Running? && s.jobs[j].phase.inFlight.Some?
    case BeatLost(j) => j in s.jobs && s.jobs[j].phase.Running? && s.jobs[j].phase.inFlight.Some?
    case Progress(j, _) => j in s.jobs && s.jobs[j].phase.Running?
    case WriteReady(j, _) => j in s.jobs && s.jobs[j].phase.Running?
    case ProcessFails(j, _, _) => j in s.jobs && s.jobs[j].phase.Running?
    case Report(j) => j in s.jobs && s.jobs[j].phase.Reporting?
    case ReportLost(j) => j in s.jobs && s.jobs[j].phase.Reporting?
    case Crash(j) => j in s.jobs
    case ReclaimRequeue(max) => c.minAttempts <= max <= c.maxAttempts
    case ReclaimFail(max) => c.minAttempts <= max <= c.maxAttempts
  }

  function SetRow(t: Table, id: VideoId, f: Row -> Row): Table {
    if id in t then t[id := f(t[id])] else t
  }

  function ReportRow(outcome: Outcome, r: Row): Row {
    match outcome
    case Release => Released(r)
    case Requeue => Requeued(r)
    case Fail(message) => WithStatus(r, Failed, Some(message))
  }

  function ReportHistory(outcome: Outcome, job: Job, r: Row, h: History): History {
    match outcome
    case Release => if r.status.Processing? then h.(releases := h.releases + 1) else h
    case Requeue =>
      if r.status.Processing? && !Owns(job, r, h) then h.(strayRequeues := h.strayRequeues + 1) else h
    case Fail(_) => h
  }

  ghost function Apply(c: Config, s: State, step: Step): State
    requires Enabled(c, s, step)
  {
    match step
    case Advance(to) => s.(now := to)
    case Create(id, path) =>
      s.(table := s.table[id := NewRow(path, s.now)], history := s.history[id := History(0, 0, 0)])
    case Delete(id) => s.(table := s.table - {id})
    case Claim(j, id, _, max) =>
      var row := Claimed(s.table[id], s.now);
      var h := HistoryOf(s, id);
      s.(table := s.table[id := row],
         history := s.history[id := h.(claims := h.claims + 1)],
         jobs := s.jobs[j := Job(id, row.attempts, max, h.claims + 1, Replying(s.now))])
    case ClaimReply(j) =>
      s.(jobs := s.jobs[j := s.jobs[j].(phase := Running(s.now + c.heartbeatInterval, None, 0))])
    case Tick(j) =>
      var p := s.jobs[j].phase;
      s.(jobs := s.jobs[j := s.jobs[j].(phase := Running(p.nextTick + c.heartbeatInterval, Some(s.now), p.missed))])
    case Beat(j) =>
      s.(table := SetRow(s.table, s.jobs[j].video, r => Beaten(r, s.now)),
         jobs := s.jobs[j := s.jobs[j].(phase := Running(s.jobs[j].phase.nextTick, None, 0))])
    case BeatLost(j) =>
      var p := s.jobs[j].phase;
      s.(jobs := s.jobs[j := s.jobs[j].(phase := Running(p.nextTick, None, p.missed + 1))])
    case Progress(j, pct) =>
      s.(table := SetRow(s.table, s.jobs[j].video, r => WithProgress(r, pct)))
    case WriteReady(j, acknowledged) =>
      s.(table := SetRow(s.table, s.jobs[j].video, r => WithStatus(r, Ready, None)),
         jobs := if acknowledged then s.jobs - {j} else s.jobs)
    case ProcessFails(j, cancelled, message) =>
      var job := s.jobs[j];
      s.(jobs := s.jobs[j := job.(phase := Reporting(OutcomeOf(cancelled, job.attempts, job.max, message), s.now))])
    case Report(j) =>
      var job := s.jobs[j];
      var id := job.video;
      if id in s.table then
        s.(table := s.table[id := ReportRow(job.phase.outcome, s.table[id])],
           history := s.history[id := ReportHistory(job.phase.outcome, job, s.table[id], HistoryOf(s, id))],
           jobs := s.jobs - {j})
      else
        s.(jobs := s.jobs - {j})
    case ReportLost(j) => s.(jobs := s.jobs - {j})
    case Crash(j) => s.(jobs := s.jobs - {j})
    case ReclaimRequeue(max) => s.(table := RequeueStale(s.table, s.now, c.staleAfter, max))
    case ReclaimFail(max) => s.(table := FailStale(s.table, s.now, c.staleAfter, max))
  }

  // A run lists its states and the steps between them.
  ghost predicate IsRun(c: Config, states: seq<State>, steps: seq<Step>) {
    |states| == |steps| + 1
    && forall i | 0 <= i < |steps| ::
         Enabled(c, states[i], steps[i]) && states[i + 1] == Apply(c, states[i], steps[i])
  }

  ghost predicate Initial(s: State) {
    s.table == map[] && s.jobs == map[] && s.history == map[]
  }

  ghost predicate Execution(c: Config, states: seq<State>, steps: seq<Step>) {
    ValidConfig(c) && IsRun(c, states, steps) && Initial(states[0])
  }

  // ---- What every step of every run keeps -----------------------------------

  ghost predicate RowShape(r: Row, now: Time) {
    (r.status.Pending? ==> r.claimedAt.None? && r.heartbeatAt.None?)
    && (r.status.Processing? ==> r.claimedAt.Some? && r.heartbeatAt.Some?
                                 && r.claimedAt.value <= r.heartbeatAt.value <= now)
    && (r.error.Some? <==> r.status.Failed?)
  }

  ghost predicate RowBudget(c: Config, r: Row, h: History) {
    r.attempts == h.claims - h.releases
    && 0 <= r.attempts <= c.maxAttempts + h.strayRequeues
    && (r.status.Processing? ==> 1 <= r.attempts)
    && (r.status.Pending? ==> r.attempts <= c.maxAttempts - 1 + h.strayRequeues)
    && (r.status.Failed? ==> c.minAttempts <= h.claims)
  }

  ghost predicate JobInv(c: Config, job: Job, h: History) {
    1 <= job.attempts <= job.epoch <= h.claims
    && c.minAttempts <= job.max <= c.maxAttempts
    && (job.phase.Reporting? && job.phase.outcome.Requeue? ==> job.attempts < job.max)
    && (job.phase.Reporting? && job.phase.outcome.Fail? ==> job.max <= job.attempts)
  }

  ghost predicate RowsInv(c: Config, s: State) {
    forall id | id in s.table ::
      id in s.history && RowShape(s.table[id], s.now) && RowBudget(c, s.table[id], s.history[id])
  }

  ghost predicate JobsInv(c: Config, s: State) {
    (forall j | j in s.jobs :: s.jobs[j].video in s.history && JobInv(c, s.jobs[j], s.history[s.jobs[j].video]))
    && (forall j, k | j in s.jobs && k in s.jobs && j != k && s.jobs[j].video == s.jobs[k].video ::
          s.jobs[j].epoch != s.jobs[k].epoch)
  }

  // The snapshot taken at the claim stays right for as long as the job owns the row.
  ghost predicate SnapshotsInv(s: State) {
    forall j | j in s.jobs && s.jobs[j].video in s.table ::
      Owns(s.jobs[j], s.table[s.jobs[j].video], HistoryOf(s, s.jobs[j].video))
      ==> s.jobs[j].attempts == s.table[s.jobs[j].video].attempts
  }

  ghost predicate Inv(c: Config, s: State) {
    ValidConfig(c) && RowsInv(c, s) && JobsInv(c, s) && SnapshotsInv(s)
  }

  lemma StepKeepsRows(c: Config, s: State, step: Step)
    requires Inv(c, s) && Enabled(c, s, step)
    ensures RowsInv(c, Apply(c, s, step))
  {
    match step
    case Report(j) =>
      var id := s.jobs[j].video;
      if id in s.table {
        ReportKeepsRow(c, s.now, s.jobs[j], s.table[id], s.history[id]);
      }
    case Claim(_, _, _, _) => ClaimKeepsRows(c, s, step);
    case ReclaimRequeue(_) => ReclaimKeepsRows(c, s, step);
    case ReclaimFail(_) => ReclaimKeepsRows(c, s, step);
    case _ =>
  }

  lemma ClaimKeepsRows(c: Config, s: State, step: Step)
    requires Inv(c, s) && Enabled(c, s, step) && step.Claim?
    ensures RowsInv(c, Apply(c, s, step))
  {
  }

  lemma ReclaimKeepsRows(c: Config, s: State, step: Step)
    requires Inv(c, s) && Enabled(c, s, step) && (step.ReclaimRequeue? || step.ReclaimFail?)
    ensures RowsInv(c, Apply(c, s, step))
  {
  }

  lemma ReportKeepsRow(c: Config, now: Time, job: Job, r: Row, h: History)
    requires ValidConfig(c) && RowShape(r, now) && RowBudget(c, r, h) && JobInv(c, job, h)
    requires job.phase.Reporting? && (Owns(job, r, h) ==> job.attempts == r.attempts)
    ensures RowShape(ReportRow(job.phase.outcome, r), now)
    ensures RowBudget(c, ReportRow(job.phase.outcome, r), ReportHistory(job.phase.outcome, job, r, h))
  {
  }

  lemma StepKeepsJobs(c: Config, s: State, step: Step)
    requires Inv(c, s) && Enabled(c, s, step)
    ensures JobsInv(c, Apply(c, s, step))
  {
    if step.Claim? {
      ClaimKeepsJobs(c, s, step);
    }
  }

  lemma ClaimKeepsJobs(c: Config, s: State, step: Step)
    requires Inv(c, s) && Enabled(c, s, step) && step.Claim?
    ensures JobsInv(c, Apply(c, s, step))
  {
  }

  lemma StepKeepsSnapshots(c: Config, s: State, step: Step)
    requires Inv(c, s) && Enabled(c, s, step)
    ensures SnapshotsInv(Apply(c, s, step))
  {
  }

  lemma {:induction false} InvHolds(c: Config, states: seq<State>, steps: seq<Step>, i: nat)
    requires Execution(c, states, steps) && i < |states|
    ensures Inv(c, states[i])
  {
    if i > 0 {
      InvHolds(c, states, steps, i - 1);
      StepKeepsInv(c, states[i - 1], steps[i - 1]);
    }
  }

  lemma StepKeepsInv(c: Config, s: State, step: Step)
    requires Inv(c, s) && Enabled(c, s, step)
    ensures Inv(c, Apply(c, s, step))
  {
    StepKeepsRows(c, s, step);
    StepKeepsJobs(c, s, step);
    StepKeepsSnapshots(c, s, step);
  }

  // Append one step to an execution.
  lemma Extend(c: Config, states: seq<State>, steps: seq<Step>, step: Step)
    returns (states': seq<State>, steps': seq<Step>)
    requires Execution(c, states, steps) && Enabled(c, states[|steps|], step)
    ensures Execution(c, states', steps')
    ensures steps' == steps + [step] && states' == states + [Apply(c, states[|steps|], step)]
  {
    steps' := steps + [step];
    states' := states + [Apply(c, states[|steps|], step)];
    forall i | 0 <= i < |steps'|
      ensures Enabled(c, states'[i], steps'[i]) && states'[i + 1] == Apply(c, states'[i], steps'[i])
    {
      if i < |steps| {
        assert states'[i] == states[i] && states'[i + 1] == states[i + 1] && steps'[i] == steps[i];
      }
    }
  }
}
