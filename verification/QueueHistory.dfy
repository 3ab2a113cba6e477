// What holds in every execution of the queue, with stale jobs, lost replies
// and dead workers included. Counts are taken from the steps of the run.
module QueueHistory {
  import opened Prelude
  import opened VideoTable
  import opened QueueProtocol

  predicate ClaimsVideo(step: Step, id: VideoId) { step.Claim? && step.id == id }

  // A Report step of the given outcome that finds the row of `id` processing.
  predicate Effective(s: State, step: Step, id: VideoId) {
    step.Report? && step.job in s.jobs && s.jobs[step.job].video == id && s.jobs[step.job].phase.Reporting?
    && id in s.table && s.table[id].status.Processing?
  }

  predicate ReleasesVideo(s: State, step: Step, id: VideoId) {
    Effective(s, step, id) && s.jobs[step.job].phase.outcome.Release?
  }

  predicate StrayRequeue(s: State, step: Step, id: VideoId) {
    Effective(s, step, id) && s.jobs[step.job].phase.outcome.Requeue?
    && s.jobs[step.job].epoch != HistoryOf(s, id).claims
  }

  function One(b: bool): nat { if b then 1 else 0 }

  // The number of claims, effective releases and stray requeues in the first n steps.
  function ClaimsOn(steps: seq<Step>, id: VideoId, n: nat): nat
    requires n <= |steps|
  {
    if n == 0 then 0 else ClaimsOn(steps, id, n - 1) + One(ClaimsVideo(steps[n - 1], id))
  }

  function ReleasesOn(states: seq<State>, steps: seq<Step>, id: VideoId, n: nat): nat
    requires n <= |steps| < |states|
  {
    if n == 0 then 0 else ReleasesOn(states, steps, id, n - 1) + One(ReleasesVideo(states[n - 1], steps[n - 1], id))
  }

  function StrayRequeuesOn(states: seq<State>, steps: seq<Step>, id: VideoId, n: nat): nat
    requires n <= |steps| < |states|
  {
    if n == 0 then 0 else StrayRequeuesOn(states, steps, id, n - 1) + One(StrayRequeue(states[n - 1], steps[n - 1], id))
  }

  lemma {:induction false} HistoryCounts(c: Config, states: seq<State>, steps: seq<Step>, id: VideoId, n: nat)
    requires Execution(c, states, steps) && n <= |steps|
    ensures HistoryOf(states[n], id)
            == History(ClaimsOn(steps, id, n), ReleasesOn(states, steps, id, n), StrayRequeuesOn(states, steps, id, n))
  {
    if n > 0 {
      HistoryCounts(c, states, steps, id, n - 1);
      InvHolds(c, states, steps, n - 1);
      HistoryStep(c, states[n - 1], steps[n - 1], id);
    }
  }

  lemma HistoryStep(c: Config, s: State, step: Step, id: VideoId)
    requires Inv(c, s) && Enabled(c, s, step)
    ensures var h := HistoryOf(s, id);
            HistoryOf(Apply(c, s, step), id)
            == History(h.claims + One(ClaimsVideo(step, id)),
                       h.releases + One(ReleasesVideo(s, step, id)),
                       h.strayRequeues + One(StrayRequeue(s, step, id)))
  {
    match step
    case Report(j) =>
      if s.jobs[j].video in s.table && s.jobs[j].video == id {
        assert s.history[id] == HistoryOf(s, id);
      }
    case _ =>
  }

  // A pending row carries no claim, a processing row a complete one, and an
  // error message is recorded exactly for failed rows.
  lemma RowsAreWellFormed(c: Config, states: seq<State>, steps: seq<Step>, i: nat, id: VideoId)
    requires Execution(c, states, steps) && i < |states| && id in states[i].table
    ensures RowShape(states[i].table[id], states[i].now)
  {
    InvHolds(c, states, steps, i);
  }

  // The attempts of a row are its claims minus its effective releases.
  lemma AttemptsAreConserved(c: Config, states: seq<State>, steps: seq<Step>, i: nat, id: VideoId)
    requires Execution(c, states, steps) && i < |states| && id in states[i].table
    ensures states[i].table[id].attempts == ClaimsOn(steps, id, i) - ReleasesOn(states, steps, id, i)
  {
    InvHolds(c, states, steps, i);
    HistoryCounts(c, states, steps, id, i);
  }

  // The clamp of Release never acts, so a release takes back exactly one claim.
  lemma ReleaseClampNeverActs(c: Config, states: seq<State>, steps: seq<Step>, i: nat, id: VideoId)
    requires Execution(c, states, steps) && i < |steps| && ReleasesVideo(states[i], steps[i], id)
    ensures id in states[i + 1].table
    ensures states[i + 1].table[id].attempts == states[i].table[id].attempts - 1 >= 0
  {
    InvHolds(c, states, steps, i);
    assert Enabled(c, states[i], steps[i]) && states[i + 1] == Apply(c, states[i], steps[i]);
  }

  // Graded budget: every stray requeue can cost at most one attempt more than
  // the largest limit.
  lemma GradedBudget(c: Config, states: seq<State>, steps: seq<Step>, i: nat, id: VideoId)
    requires Execution(c, states, steps) && i < |states| && id in states[i].table
    ensures var r := states[i].table[id];
            var limit := c.maxAttempts + StrayRequeuesOn(states, steps, id, i);
            0 <= r.attempts <= limit
            && (r.status.Processing? ==> 1 <= r.attempts)
            && (r.status.Pending? ==> r.attempts <= limit - 1)
  {
    InvHolds(c, states, steps, i);
    HistoryCounts(c, states, steps, id, i);
  }

  // No video fails before the smallest limit of claims was made on it.
  lemma FailsOnlyAfterMinAttempts(c: Config, states: seq<State>, steps: seq<Step>, i: nat, id: VideoId)
    requires Execution(c, states, steps) && i < |states| && id in states[i].table
    requires states[i].table[id].status.Failed?
    ensures c.minAttempts <= ClaimsOn(steps, id, i)
  {
    InvHolds(c, states, steps, i);
    HistoryCounts(c, states, steps, id, i);
  }

  // A finished row stays finished until it is deleted, and is never claimed again.
  lemma {:induction false} FinishedIsAbsorbing(
      c: Config, states: seq<State>, steps: seq<Step>, i: nat, k: nat, id: VideoId)
    requires Execution(c, states, steps) && i <= k < |states|
    requires id in states[i].table && Finished(states[i].table[id])
    ensures id in states[k].table ==> Finished(states[k].table[id])
    ensures ClaimsOn(steps, id, k) == ClaimsOn(steps, id, i)
    decreases k
  {
    if i < k {
      FinishedIsAbsorbing(c, states, steps, i, k - 1, id);
      InvHolds(c, states, steps, i);
      HistoryGrows(c, states, steps, i, k - 1, id);
      FinishedStep(c, states[k - 1], steps[k - 1], id);
    }
  }

  lemma FinishedStep(c: Config, s: State, step: Step, id: VideoId)
    requires Enabled(c, s, step) && id in s.history && (id in s.table ==> Finished(s.table[id]))
    ensures id in Apply(c, s, step).table ==> Finished(Apply(c, s, step).table[id])
    ensures !ClaimsVideo(step, id)
  {
  }

  // A video that was known stays known: its id is never used again.
  lemma {:induction false} HistoryGrows(c: Config, states: seq<State>, steps: seq<Step>, i: nat, k: nat, id: VideoId)
    requires IsRun(c, states, steps) && i <= k < |states| && id in states[i].history
    ensures id in states[k].history
    decreases k
  {
    if i < k {
      HistoryGrows(c, states, steps, i, k - 1, id);
      assert Enabled(c, states[k - 1], steps[k - 1]) && states[k] == Apply(c, states[k - 1], steps[k - 1]);
    }
  }

  // ---- Uploads and the order of claims ---------------------------------------------------

  // Step n uploads video `id`.
  ghost predicate Uploads(states: seq<State>, steps: seq<Step>, n: nat, id: VideoId) {
    n < |steps| < |states| && steps[n].Create? && steps[n].id == id
  }

  lemma UploadStep(c: Config, s: State, step: Step, id: VideoId)
    requires Enabled(c, s, step) && id in s.history
    ensures id in Apply(c, s, step).history
    ensures id in Apply(c, s, step).table ==>
              id in s.table && Apply(c, s, step).table[id].createdAt == s.table[id].createdAt
              && Apply(c, s, step).table[id].originalPath == s.table[id].originalPath
  {
  }

  // A row keeps the time and the path of its upload for as long as it exists.
  lemma {:induction false} RowsKeepTheirUpload(
      c: Config, states: seq<State>, steps: seq<Step>, n: nat, k: nat, id: VideoId)
    requires IsRun(c, states, steps) && Uploads(states, steps, n, id) && n < k < |states|
    ensures id in states[k].history
    ensures id in states[k].table ==>
              states[k].table[id].createdAt == states[n].now && states[k].table[id].originalPath == steps[n].path
    decreases k
  {
    assert Enabled(c, states[k - 1], steps[k - 1]) && states[k] == Apply(c, states[k - 1], steps[k - 1]);
    if n < k - 1 {
      RowsKeepTheirUpload(c, states, steps, n, k - 1, id);
      UploadStep(c, states[k - 1], steps[k - 1], id);
    }
  }

  // Every row was uploaded, by one step.
  lemma {:induction false} EveryRowWasUploaded(c: Config, states: seq<State>, steps: seq<Step>, k: nat, id: VideoId)
    returns (n: nat)
    requires Execution(c, states, steps) && k < |states| && id in states[k].history
    ensures n < k && Uploads(states, steps, n, id)
    ensures forall m: nat | m < k && Uploads(states, steps, m, id) :: m == n
  {
    assert Enabled(c, states[k - 1], steps[k - 1]) && states[k] == Apply(c, states[k - 1], steps[k - 1]);
    InvHolds(c, states, steps, k - 1);
    if id in states[k - 1].history {
      n := EveryRowWasUploaded(c, states, steps, k - 1, id);
    } else {
      n := k - 1;
      if m: nat :| m < k - 1 && Uploads(states, steps, m, id) {
        RowsKeepTheirUpload(c, states, steps, m, k - 1, id);
      }
    }
  }

  // The videos that a claim may choose from at state i.
  ghost predicate Waiting(states: seq<State>, i: nat, locked: set<VideoId>, id: VideoId) {
    i < |states| && id in states[i].table && states[i].table[id].status.Pending? && id !in locked
  }

  // Video `a` was uploaded at an earlier clock reading than video `b`.
  ghost predicate UploadedBefore(states: seq<State>, steps: seq<Step>, i: nat, a: VideoId, b: VideoId) {
    exists n: nat, m: nat :: n < i && m < i && Uploads(states, steps, n, a) && Uploads(states, steps, m, b)
                   && states[n].now < states[m].now
  }

  // A worker can claim a video exactly if it is waiting and no waiting video was
  // uploaded before it.
  lemma ClaimsFollowUploads(
      c: Config, states: seq<State>, steps: seq<Step>, i: nat, j: JobId, b: VideoId, locked: set<VideoId>, max: int)
    requires Execution(c, states, steps) && i < |states|
    requires j !in states[i].jobs && c.minAttempts <= max <= c.maxAttempts
    ensures Enabled(c, states[i], Claim(j, b, locked, max))
            <==> Waiting(states, i, locked, b)
                 && !exists a :: Waiting(states, i, locked, a) && UploadedBefore(states, steps, i, a, b)
  {
    InvHolds(c, states, steps, i);
    if Waiting(states, i, locked, b) {
      forall a | Waiting(states, i, locked, a)
        ensures UploadedBefore(states, steps, i, a, b)
                <==> states[i].table[a].createdAt < states[i].table[b].createdAt
      {
        UploadTimesCompare(c, states, steps, i, a, b);
      }
    }
  }

  lemma UploadTimesCompare(c: Config, states: seq<State>, steps: seq<Step>, i: nat, a: VideoId, b: VideoId)
    requires Execution(c, states, steps) && i < |states| && a in states[i].table && b in states[i].table
    ensures UploadedBefore(states, steps, i, a, b)
            <==> states[i].table[a].createdAt < states[i].table[b].createdAt
  {
    InvHolds(c, states, steps, i);
    var n := EveryRowWasUploaded(c, states, steps, i, a);
    var m := EveryRowWasUploaded(c, states, steps, i, b);
    RowsKeepTheirUpload(c, states, steps, n, i, a);
    RowsKeepTheirUpload(c, states, steps, m, i, b);
  }

  // The file a claim refers to is the one uploaded for the video, and the claim
  // starts it afresh.
  lemma ClaimsStartAfresh(c: Config, states: seq<State>, steps: seq<Step>, i: nat) returns (n: nat)
    requires Execution(c, states, steps) && i < |steps| && steps[i].Claim?
    ensures n < i && Uploads(states, steps, n, steps[i].id) && steps[i].id in states[i + 1].table
    ensures var r := states[i + 1].table[steps[i].id];
            r.originalPath == steps[n].path && r.progress == 0 && r.error.None?
            && r.claimedAt == r.heartbeatAt == Some(states[i].now)
  {
    assert Enabled(c, states[i], steps[i]) && states[i + 1] == Apply(c, states[i], steps[i]);
    InvHolds(c, states, steps, i);
    n := EveryRowWasUploaded(c, states, steps, i, steps[i].id);
    RowsKeepTheirUpload(c, states, steps, n, i + 1, steps[i].id);
  }
}
