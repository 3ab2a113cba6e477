// Worker.runJob: what is written to the repository once a claimed job is over.
module WorkerJob {
  import opened Prelude
  import opened VideoTable
  import opened VideoRepository
  import opened QueueProtocol
  import opened QueueHistory

  // New replaces an attempt limit below one.
  function MaxAttempts(configured: int): (n: int)
    ensures n >= 1
  {
    if configured < 1 then 3 else configured
  }

  // The table after a job of video `id` has reported `outcome`.
  function Reported(t: Table, id: VideoId, outcome: Outcome): Table {
    if id in t then t[id := ReportRow(outcome, t[id])] else t
  }

  // `failure` is the error process returned, if any; `cancelled` tells whether
  // the worker was shutting down by then.
  method RunJob(repo: VideoRepo, job: ClaimedJob, maxAttempts: int, failure: Option<string>, cancelled: bool)
    modifies repo
    ensures repo.videos == match failure
                           case None => old(repo.videos)
                           case Some(message) =>
                             Reported(old(repo.videos), job.video,
                                      OutcomeOf(cancelled, job.attempts, maxAttempts, message))
    ensures failure.None? || job.video !in old(repo.videos) ==> repo.videos == old(repo.videos)
    ensures failure.Some? && job.video in old(repo.videos) ==>
              var r := old(repo.videos)[job.video];
              var retried := r.(status := Pending, progress := 0, claimedAt := None, heartbeatAt := None);
              repo.videos == old(repo.videos)[job.video :=
                if !cancelled && maxAttempts <= job.attempts then r.(status := Failed, error := failure)
                else if !r.status.Processing? then r
                else if cancelled then retried.(attempts := Max(r.attempts - 1, 0))
                else retried]
  {
    if failure.None? {
      return;
    }
    if cancelled {
      repo.Release(job.video);
      return;
    }
    if job.attempts < maxAttempts {
      repo.Requeue(job.video);
      return;
    }
    repo.UpdateStatus(job.video, Failed, failure);
  }

  // In every execution, each report writes what runJob writes for the job's own
  // snapshot and limit: the outcome chosen when process failed is still the
  // right one, whatever other workers did since.
  lemma ReportStepIsRunJob(c: Config, states: seq<State>, steps: seq<Step>, i: nat, j: JobId)
    returns (cancelled: bool, message: string)
    requires Execution(c, states, steps) && i < |steps| && steps[i] == Report(j)
    ensures j in states[i].jobs
    ensures var job := states[i].jobs[j];
            states[i + 1].table
            == Reported(states[i].table, job.video, OutcomeOf(cancelled, job.attempts, job.max, message))
  {
    InvHolds(c, states, steps, i);
    var outcome := states[i].jobs[j].phase.outcome;
    cancelled := outcome.Release?;
    message := if outcome.Fail? then outcome.message else "";
    assert Enabled(c, states[i], steps[i]) && states[i + 1] == Apply(c, states[i], steps[i]);
  }

  // A job that is claimed and then interrupted by shutdown leaves its row as it
  // was: the attempt is given back, only the progress starts over.
  method ClaimAndInterrupt(repo: VideoRepo, now: Time, locked: set<VideoId>, maxAttempts: int, message: string)
    returns (claimed: Result<ClaimedJob, RepoError>)
    requires forall id | id in repo.videos :: RowShape(repo.videos[id], now) && repo.videos[id].attempts >= 0
    modifies repo
    ensures claimed.Ok? ==>
              var id := claimed.value.video;
              id in old(repo.videos) && repo.videos == old(repo.videos)[id := old(repo.videos)[id].(progress := 0)]
    ensures claimed.Err? ==> repo.videos == old(repo.videos)
  {
    claimed := repo.ClaimNextPending(now, locked);
    if claimed.Ok? {
      RunJob(repo, claimed.value, maxAttempts, Some(message), true);
    }
  }

  // A report that comes too late, when the row is no longer being processed,
  // changes it exactly when it is a failure the row does not record yet - and
  // then the video was claimed at least as often as the smallest limit says.
  lemma LateReports(c: Config, states: seq<State>, steps: seq<Step>, i: nat, j: JobId)
    requires Execution(c, states, steps) && i < |steps| && steps[i] == Report(j) && j in states[i].jobs
    requires var id := states[i].jobs[j].video;
             id in states[i].table && !states[i].table[id].status.Processing?
    ensures var (id, outcome) := (states[i].jobs[j].video, states[i].jobs[j].phase.outcome);
            var r := states[i].table[id];
            (states[i + 1].table != states[i].table
             <==> outcome.Fail? && !(r.status.Failed? && r.error == Some(outcome.message)))
            && (states[i + 1].table != states[i].table ==>
                  states[i + 1].table[id].status.Failed? && c.minAttempts <= ClaimsOn(steps, id, i))
  {
    InvHolds(c, states, steps, i);
    var job := states[i].jobs[j];
    var t := states[i].table;
    HistoryCounts(c, states, steps, job.video, i);
    assert Enabled(c, states[i], steps[i]) && states[i + 1] == Apply(c, states[i], steps[i]);
    assert states[i + 1].table == Reported(t, job.video, job.phase.outcome);
    if states[i + 1].table == t {
      assert t[job.video] == ReportRow(job.phase.outcome, t[job.video]);
    } else {
      assert t[job.video := t[job.video]] == t;
    }
  }
}
