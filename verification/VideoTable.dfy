// Rows of the `videos` table and the effect of each SQL statement on one row.
//
// The table doubles as the transcoding queue. A statement is one function on
// rows; VideoRepo lifts them to methods, QueueProtocol to steps of a run.
module VideoTable {
  import opened Prelude

  type VideoId = string
  // Milliseconds on the database clock.
  type Time = int

  datatype Status = Pending | Processing | Ready | Failed

  datatype Row = Row(
    status: Status,
    attempts: int,
    progress: int,
    error: Option<string>,
    claimedAt: Option<Time>,
    heartbeatAt: Option<Time>,
    createdAt: Time,
    originalPath: string)

  type Table = map<VideoId, Row>

  const BUDGET_EXHAUSTED := "transcoding was interrupted repeatedly and the retry budget is exhausted"

  predicate Finished(r: Row) { r.status.Ready? || r.status.Failed? }

  function NewRow(path: string, now: Time): Row {
    Row(Pending, 0, 0, None, None, None, now, path)
  }

  function Claimed(r: Row, now: Time): Row {
    r.(status := Processing, attempts := r.attempts + 1, progress := 0, error := None,
       claimedAt := Some(now), heartbeatAt := Some(now))
  }

  function Beaten(r: Row, now: Time): Row {
    if r.status.Processing? then r.(heartbeatAt := Some(now)) else r
  }

  function Unclaimed(r: Row, attempts: int): Row {
    r.(status := Pending, attempts := attempts, progress := 0, claimedAt := None, heartbeatAt := None)
  }

  function Released(r: Row): Row {
    if r.status.Processing? then Unclaimed(r, Max(r.attempts - 1, 0)) else r
  }

  function Requeued(r: Row): Row {
    if r.status.Processing? then Unclaimed(r, r.attempts) else r
  }

  // UpdateStatus checks nothing and leaves the claim timestamps alone.
  function WithStatus(r: Row, status: Status, error: Option<string>): Row {
    r.(status := status, error := error)
  }

  function WithProgress(r: Row, pct: int): Row { r.(progress := pct) }

  // A NULL heartbeat compares as unknown, so such a row is never stale.
  predicate Stale(r: Row, now: Time, staleAfter: Time) {
    r.status.Processing? && r.heartbeatAt.Some? && r.heartbeatAt.value < now - staleAfter
  }

  predicate HitByRequeue(r: Row, now: Time, staleAfter: Time, max: int) {
    Stale(r, now, staleAfter) && r.attempts < max
  }

  predicate HitByFail(r: Row, now: Time, staleAfter: Time, max: int) {
    Stale(r, now, staleAfter) && r.attempts >= max
  }

  function ReclaimRequeued(r: Row, now: Time, staleAfter: Time, max: int): Row {
    if HitByRequeue(r, now, staleAfter, max) then Unclaimed(r, r.attempts) else r
  }

  function ReclaimFailed(r: Row, now: Time, staleAfter: Time, max: int): Row {
    if HitByFail(r, now, staleAfter, max)
    then r.(status := Failed, claimedAt := None, heartbeatAt := None, error := Some(BUDGET_EXHAUSTED))
    else r
  }

  function RequeueStale(t: Table, now: Time, staleAfter: Time, max: int): Table {
    map id | id in t :: ReclaimRequeued(t[id], now, staleAfter, max)
  }

  function FailStale(t: Table, now: Time, staleAfter: Time, max: int): Table {
    map id | id in t :: ReclaimFailed(t[id], now, staleAfter, max)
  }

  // The row a claim takes: pending, not locked by another transaction, and no
  // such row is older. Rows created at the same instant may be taken in any order.
  predicate Candidate(t: Table, locked: set<VideoId>, id: VideoId) {
    id in t && t[id].status.Pending? && id !in locked
  }

  predicate OldestCandidate(t: Table, locked: set<VideoId>, id: VideoId) {
    Candidate(t, locked, id)
    && forall other | other in t && Candidate(t, locked, other) :: t[id].createdAt <= t[other].createdAt
  }

  lemma {:induction false} OldestExists(t: Table, locked: set<VideoId>, some: VideoId)
    requires Candidate(t, locked, some)
    ensures exists id | id in t :: OldestCandidate(t, locked, id)
  {
    var ids := set id | id in t && Candidate(t, locked, id);
    var id := OldestIn(t, ids, some);
    assert OldestCandidate(t, locked, id);
  }

  lemma {:induction false} OldestIn(t: Table, ids: set<VideoId>, some: VideoId) returns (id: VideoId)
    requires some in ids && ids <= t.Keys
    ensures id in ids && forall other | other in ids :: t[id].createdAt <= t[other].createdAt
    decreases |ids|
  {
    var rest := ids - {some};
    if rest == {} {
      id := some;
      assert forall other | other in ids :: other == some;
    } else {
      var next :| next in rest;
      var best := OldestIn(t, rest, next);
      id := if t[best].createdAt < t[some].createdAt then best else some;
      assert forall other | other in ids :: other == some || other in rest;
    }
  }
}
