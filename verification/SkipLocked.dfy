// Inside one claim: the subselect walks the pending rows of its snapshot in
// order of created_at, passes over rows another transaction has locked, and
// rechecks a row before it locks it (READ COMMITTED). Several claims and other
// writers overlap.
module SkipLocked {
  import opened VideoTable

  type TxnId = nat

  // `since` is the step at which the claim took its snapshot.
  datatype Txn =
    | Scanning(since: nat, rest: seq<VideoId>)
    | Holding(since: nat, rest: seq<VideoId>, id: VideoId)   // the row is locked
    | Committed(id: VideoId)
    | FoundNothing(since: nat)

  // `writers` are the rows locked by statements other than claims: heartbeats,
  // outcome writes, reclaims, deletions. An id in `known` was used before.
  datatype State = State(steps: nat, table: Table, known: set<VideoId>, writers: set<VideoId>, txns: map<TxnId, Txn>)

  datatype Step =
    | Begin(x: TxnId, order: seq<VideoId>)
    | Examine(x: TxnId)
    | Commit(x: TxnId, now: Time)
    | GiveUp(x: TxnId)
    | Insert(id: VideoId, row: Row)
    | Lock(id: VideoId)               // another statement gets the lock of a row
    | Write(id: VideoId, row: Row)    // and commits its change,
    | Delete(id: VideoId)             // a deletion,
    | Abort(id: VideoId)              // or nothing

  predicate Pending(t: Table, id: VideoId) { id in t && t[id].status.Pending? }

  // The pending rows of t, each once, oldest first.
  ghost predicate InOrder(t: Table, order: seq<VideoId>) {
    (forall id :: id in order <==> Pending(t, id))
    && (forall i, k | 0 <= i < k < |order| :: order[i] != order[k])
    && OldestFirst(t, order)
  }

  ghost predicate OldestFirst(t: Table, ids: seq<VideoId>) {
    forall i, k | 0 <= i < k < |ids| ::
      ids[i] in t && ids[k] in t && t[ids[i]].createdAt <= t[ids[k]].createdAt
  }

  ghost predicate LockedBy(s: State, x: TxnId, id: VideoId) {
    x in s.txns && s.txns[x].Holding? && s.txns[x].id == id
  }

  ghost predicate Locked(s: State, id: VideoId) { id in s.writers || exists x :: LockedBy(s, x, id) }

  ghost predicate Enabled(s: State, step: Step) {
    match step
    case Begin(x, order) => x !in s.txns && InOrder(s.table, order)
    case Examine(x) => x in s.txns && s.txns[x].Scanning? && s.txns[x].rest != []
    case Commit(x, _) => x in s.txns && s.txns[x].Holding?
    case GiveUp(x) => x in s.txns && s.txns[x].Scanning? && s.txns[x].rest == []
    case Insert(id, _) => id !in s.known    // ids are fresh UUIDs
    case Lock(id) => id in s.table && !Locked(s, id)
    case Write(id, row) => id in s.writers && id in s.table && row.createdAt == s.table[id].createdAt
    case Delete(id) => id in s.writers
    case Abort(id) => id in s.writers
  }

  ghost function Apply(s: State, step: Step): State
    requires Enabled(s, step)
  {
    var next := s.(steps := s.steps + 1);
    match step
    case Begin(x, order) => next.(txns := s.txns[x := Scanning(s.steps, order)])
    case Examine(x) =>
      var txn := s.txns[x];
      var id := txn.rest[0];
      next.(txns := s.txns[x := if !Locked(s, id) && Pending(s.table, id)
                                then Holding(txn.since, txn.rest, id)
                                else Scanning(txn.since, txn.rest[1..])])
    case Commit(x, now) =>
      var id := s.txns[x].id;
      next.(table := if id in s.table then s.table[id := Claimed(s.table[id], now)] else s.table,
            txns := s.txns[x := Committed(id)])
    case GiveUp(x) => next.(txns := s.txns[x := FoundNothing(s.txns[x].since)])
    case Insert(id, row) => next.(table := s.table[id := row], known := s.known + {id})
    case Lock(id) => next.(writers := s.writers + {id})
    case Write(id, row) => next.(table := s.table[id := row], writers := s.writers - {id})
    case Delete(id) => next.(table := s.table - {id}, writers := s.writers - {id})
    case Abort(id) => next.(writers := s.writers - {id})
  }

  ghost predicate IsRun(states: seq<State>, steps: seq<Step>) {
    |states| == |steps| + 1 && states[0].txns == map[] && states[0].steps == 0
    && states[0].writers == {} && states[0].table.Keys <= states[0].known
    && forall i | 0 <= i < |steps| :: Enabled(states[i], steps[i]) && states[i + 1] == Apply(states[i], steps[i])
  }

  // Claim x cannot take `id`: it is not pending, or another claim or statement has locked it.
  ghost predicate Unavailable(s: State, x: TxnId, id: VideoId) {
    !Pending(s.table, id) || id in s.writers || exists y | y != x :: LockedBy(s, y, id)
  }

  ghost predicate WasUnavailable(states: seq<State>, x: TxnId, since: nat, i: nat, id: VideoId) {
    exists n | since <= n <= i && n < |states| :: Unavailable(states[n], x, id)
  }

  // Rows of the snapshot that are not in `rest` have been passed over.
  ghost predicate Scanned(states: seq<State>, i: nat, x: TxnId, since: nat, rest: seq<VideoId>) {
    since <= i < |states|
    && OldestFirst(states[since].table, rest)
    && (forall id | Pending(states[since].table, id) && id !in rest :: WasUnavailable(states, x, since, i, id))
  }

  ghost predicate LocksOk(s: State) {
    s.table.Keys <= s.known
    && (forall x | x in s.txns && s.txns[x].Holding? :: s.txns[x].id !in s.writers)
    && (forall x | x in s.txns && s.txns[x].Holding? ::
       Pending(s.table, s.txns[x].id) && s.txns[x].rest != [] && s.txns[x].rest[0] == s.txns[x].id)
    && (forall x, y | x in s.txns && y in s.txns && x != y && s.txns[x].Holding? && s.txns[y].Holding? ::
          s.txns[x].id != s.txns[y].id)
  }

  ghost predicate TxnInv(states: seq<State>, i: nat, x: TxnId)
    requires i < |states| && x in states[i].txns
  {
    match states[i].txns[x]
    case Scanning(since, rest) => Scanned(states, i, x, since, rest)
    case Holding(since, rest, _) => Scanned(states, i, x, since, rest)
    case Committed(_) => true
    case FoundNothing(since) => Scanned(states, i, x, since, [])
  }

  ghost predicate Inv(states: seq<State>, i: nat)
    requires i < |states|
  {
    states[i].steps == i && LocksOk(states[i]) && forall x | x in states[i].txns :: TxnInv(states, i, x)
  }

  lemma ScannedLater(states: seq<State>, i: nat, x: TxnId, since: nat, rest: seq<VideoId>)
    requires i + 1 < |states| && Scanned(states, i, x, since, rest)
    ensures Scanned(states, i + 1, x, since, rest)
  {
    forall id | Pending(states[since].table, id) && id !in rest ensures WasUnavailable(states, x, since, i + 1, id) {
      assert WasUnavailable(states, x, since, i, id);
    }
  }

  // Passing over the next row is justified if it is unavailable right now.
  lemma ExamineScans(states: seq<State>, i: nat, x: TxnId, since: nat, rest: seq<VideoId>)
    requires i + 1 < |states| && rest != [] && Scanned(states, i, x, since, rest)
    requires Unavailable(states[i], x, rest[0])
    ensures Scanned(states, i + 1, x, since, rest[1..])
  {
    forall id | Pending(states[since].table, id) && id !in rest[1..]
      ensures WasUnavailable(states, x, since, i + 1, id)
    {
      if id in rest {
        assert id == rest[0];
      } else {
        assert WasUnavailable(states, x, since, i, id);
      }
    }
  }

  lemma LocksStayDistinct(s: State, step: Step)
    requires LocksOk(s) && Enabled(s, step)
    ensures LocksOk(Apply(s, step))
  {
    forall x | x in s.txns && s.txns[x].Holding? ensures Locked(s, s.txns[x].id) {
      assert LockedBy(s, x, s.txns[x].id);
    }
  }

  lemma StepKeepsTxn(states: seq<State>, i: nat, step: Step, x: TxnId)
    requires i + 1 < |states| && Inv(states, i)
    requires Enabled(states[i], step) && states[i + 1] == Apply(states[i], step)
    requires x in states[i + 1].txns
    ensures TxnInv(states, i + 1, x)
  {
    var s := states[i];
    if x in s.txns {
      assert TxnInv(states, i, x);
      if step.Examine? && step.x == x {
        var txn := s.txns[x];
        if !Pending(s.table, txn.rest[0]) || Locked(s, txn.rest[0]) {
          ExamineScans(states, i, x, txn.since, txn.rest);
        } else {
          ScannedLater(states, i, x, txn.since, txn.rest);
        }
      } else if s.txns[x].Scanning? || s.txns[x].Holding? {
        ScannedLater(states, i, x, s.txns[x].since, s.txns[x].rest);
      } else if s.txns[x].FoundNothing? {
        ScannedLater(states, i, x, s.txns[x].since, []);
      }
    }
  }

  lemma {:induction false} InvHolds(states: seq<State>, steps: seq<Step>, i: nat)
    requires IsRun(states, steps) && i < |states|
    ensures Inv(states, i)
  {
    if i > 0 {
      InvHolds(states, steps, i - 1);
      LocksStayDistinct(states[i - 1], steps[i - 1]);
      forall x | x in states[i].txns ensures TxnInv(states, i, x) {
        StepKeepsTxn(states, i - 1, steps[i - 1], x);
      }
    }
  }

  // The creation time of a row never changes, and a deleted id never comes back.
  lemma {:induction false} CreatedAtIsKept(states: seq<State>, steps: seq<Step>, i: nat, k: nat, id: VideoId)
    requires IsRun(states, steps) && i <= k < |states| && id in states[i].table
    ensures id in states[k].known
    ensures id in states[k].table ==> states[k].table[id].createdAt == states[i].table[id].createdAt
    ensures id in states[k].table ==> forall n | i <= n <= k :: id in states[n].table
    decreases k
  {
    InvHolds(states, steps, i);
    if i < k {
      CreatedAtIsKept(states, steps, i, k - 1, id);
      CreatedAtStep(states[k - 1], steps[k - 1], id);
    }
  }

  lemma CreatedAtStep(s: State, step: Step, id: VideoId)
    requires Enabled(s, step) && id in s.known
    ensures id in Apply(s, step).known
    ensures id in Apply(s, step).table ==>
              id in s.table && Apply(s, step).table[id].createdAt == s.table[id].createdAt
  {
  }

  // Rows a claim may pass over: since its snapshot they were unavailable to it
  // at some time, or they were not pending in the snapshot.
  ghost predicate MayPassOver(states: seq<State>, i: nat, x: TxnId, since: nat, passed: set<VideoId>)
    requires since < |states|
  {
    forall id | id in passed :: WasUnavailable(states, x, since, i, id) || !Pending(states[since].table, id)
  }

  ghost function PassedOver(states: seq<State>, i: nat, x: TxnId, since: nat): set<VideoId>
    requires since <= i < |states|
  {
    set id | id in states[i].table.Keys
             && (WasUnavailable(states, x, since, i, id) || !Pending(states[since].table, id))
  }

  lemma HeldIsOldest(states: seq<State>, steps: seq<Step>, i: nat, x: TxnId)
    requires IsRun(states, steps) && i < |states| && x in states[i].txns && states[i].txns[x].Holding?
    ensures var txn := states[i].txns[x];
            txn.since <= i && Pending(states[i].table, txn.id)
            && OldestCandidate(states[i].table, PassedOver(states, i, x, txn.since) - {txn.id}, txn.id)
  {
    InvHolds(states, steps, i);
    assert TxnInv(states, i, x);
    var s, txn := states[i], states[i].txns[x];
    var passed := PassedOver(states, i, x, txn.since) - {txn.id};
    forall other | other in s.table && Candidate(s.table, passed, other)
      ensures s.table[txn.id].createdAt <= s.table[other].createdAt
    {
      if other != txn.id {
        assert other in txn.rest;
        CreatedAtIsKept(states, steps, txn.since, i, other);
        CreatedAtIsKept(states, steps, txn.since, i, txn.id);
      }
    }
  }

  // Overlapping claims hold pairwise distinct rows, and a commit is one atomic
  // claim of the queue model: its row is still pending, not locked by anyone
  // else, and the oldest but for rows the claim had a reason to pass over.
  lemma CommitIsAtomicClaim(states: seq<State>, steps: seq<Step>, i: nat, x: TxnId, now: Time)
    returns (passed: set<VideoId>)
    requires IsRun(states, steps) && i < |steps| && steps[i] == Commit(x, now)
    ensures x in states[i].txns && states[i].txns[x].Holding? && states[i].txns[x].since <= i
    ensures var s := states[i];
            var id := s.txns[x].id;
            id !in s.writers && (forall y | y != x :: !LockedBy(s, y, id))
            && MayPassOver(states, i, x, s.txns[x].since, passed) && OldestCandidate(s.table, passed, id)
            && states[i + 1].table == s.table[id := Claimed(s.table[id], now)]
  {
    InvHolds(states, steps, i);
    assert Enabled(states[i], steps[i]) && states[i + 1] == Apply(states[i], steps[i]);
    HeldIsOldest(states, steps, i, x);
    passed := PassedOver(states, i, x, states[i].txns[x].since) - {states[i].txns[x].id};
  }

  // A claim takes the oldest available row of its snapshot: every older pending
  // row was, since the snapshot, locked by another claim or statement or no longer pending.
  lemma OlderRowsWereUnavailable(states: seq<State>, steps: seq<Step>, i: nat, x: TxnId, older: VideoId)
    requires IsRun(states, steps) && i < |states|
    requires x in states[i].txns && states[i].txns[x].Holding?
    requires var txn := states[i].txns[x];
             txn.since < |states| && Pending(states[txn.since].table, older)
             && txn.id in states[txn.since].table
             && states[txn.since].table[older].createdAt < states[txn.since].table[txn.id].createdAt
    ensures WasUnavailable(states, x, states[i].txns[x].since, i, older)
  {
    InvHolds(states, steps, i);
    assert TxnInv(states, i, x);
  }

  // An empty answer means that every pending row of the snapshot was unavailable.
  lemma EmptyAnswerIsJustified(states: seq<State>, steps: seq<Step>, i: nat, x: TxnId, id: VideoId)
    requires IsRun(states, steps) && i < |states|
    requires x in states[i].txns && states[i].txns[x].FoundNothing?
    requires states[i].txns[x].since < |states| && Pending(states[states[i].txns[x].since].table, id)
    ensures WasUnavailable(states, x, states[i].txns[x].since, i, id)
  {
    InvHolds(states, steps, i);
    assert TxnInv(states, i, x);
  }
}
