// The queue drains: without uploads and releases, and with one shared attempt
// limit, every claim, requeue, reclaim and finish uses up part of a bounded
// amount of remaining work.
module QueueDrain {
  import opened Prelude
  import opened VideoTable
  import opened QueueProtocol
  import opened QueueHistory
  import opened QueueTiming

  // ---- Sums over the rows of a table ----------------------------------------------

  ghost function Sum(t: Table, w: Row -> nat): nat
    decreases |t|
  {
    if t == map[] then 0 else
      var id :| id in t;
      w(t[id]) + Sum(t - {id}, w)
  }

  lemma {:induction false} SumTake(t: Table, w: Row -> nat, id: VideoId)
    requires id in t
    ensures Sum(t, w) == w(t[id]) + Sum(t - {id}, w)
    decreases |t|
  {
    var first :| first in t && Sum(t, w) == w(t[first]) + Sum(t - {first}, w);
    if first != id {
      SumTake(t - {first}, w, id);
      SumTake(t - {id}, w, first);
      assert t - {first} - {id} == t - {id} - {first};
    }
  }

  // A sum drops by at least one for every row in `dropped`.
  lemma {:induction false} SumDrops(t: Table, t': Table, w: Row -> nat, dropped: set<VideoId>)
    requires t'.Keys <= t.Keys && dropped <= t'.Keys
    requires forall id | id in t' :: w(t'[id]) + One(id in dropped) <= w(t[id])
    ensures Sum(t', w) + |dropped| <= Sum(t, w)
    decreases |t|
  {
    if t == map[] {
      assert t' == map[] && dropped == {};
    } else {
      var id :| id in t;
      SumTake(t, w, id);
      SumOptional(t', w, id);
      DropOne(dropped, id);
      Smaller(t, id);
      SumDrops(t - {id}, t' - {id}, w, dropped - {id});
    }
  }

  lemma SumOptional(t: Table, w: Row -> nat, id: VideoId)
    ensures Sum(t, w) == Sum(t - {id}, w) + if id in t then w(t[id]) else 0
  {
    if id in t {
      SumTake(t, w, id);
    } else {
      assert t == t - {id};
    }
  }

  lemma DropOne(dropped: set<VideoId>, id: VideoId)
    ensures |dropped| == |dropped - {id}| + One(id in dropped)
  {
    if id !in dropped {
      assert dropped - {id} == dropped;
    }
  }

  lemma Smaller(t: Table, id: VideoId)
    requires id in t
    ensures |t - {id}| == |t| - 1
  {
    assert t == (t - {id})[id := t[id]];
  }

  lemma {:induction false} SumBound(t: Table, w: Row -> nat, bound: nat)
    requires forall id | id in t :: w(t[id]) <= bound
    ensures Sum(t, w) <= |t| * bound
    decreases |t|
  {
    if t != map[] {
      var id :| id in t;
      SumTake(t, w, id);
      Smaller(t, id);
      SumBound(t - {id}, w, bound);
      Distribute(|t|, bound);
    }
  }

  lemma Distribute(n: int, bound: int)
    ensures (n - 1) * bound == n * bound - bound
  {
  }

  // ---- Remaining work ---------------------------------------------------------------

  function Remaining(max: int, r: Row): nat {
    match r.status
    case Pending => Max(0, 2 * (max - r.attempts))
    case Processing => Max(0, 2 * (max - r.attempts) + 1)
    case _ => 0
  }

  function AttemptsLeft(max: int, r: Row): nat { Max(0, max - r.attempts) }

  ghost function RemainingWork(c: Config, s: State): nat { Sum(s.table, r => Remaining(c.maxAttempts, r)) }

  ghost function RemainingClaims(c: Config, s: State): nat { Sum(s.table, r => AttemptsLeft(c.maxAttempts, r)) }

  // The unfinished rows whose status a step changes: claims, requeues, reclaims, finishes.
  ghost function Moved(s: State, s': State): set<VideoId> {
    set id | id in s.table && id in s'.table && !Finished(s.table[id]) && s.table[id].status != s'.table[id].status
  }

  // Only uploads and releases add work.
  ghost predicate AddsNoWork(s: State, step: Step) {
    !step.Create? && forall id | id in s.table :: !ReleasesVideo(s, step, id)
  }

  ghost predicate DrainStep(c: Config, s: State, step: Step) {
    Safe(c) && c.minAttempts == c.maxAttempts && ExclusiveInv(c, s)
    && Enabled(c, s, step) && Timely(c, s, step) && AddsNoWork(s, step)
  }

  lemma RowWorkDrops(c: Config, s: State, step: Step, id: VideoId)
    requires DrainStep(c, s, step) && id in s.table && id in Apply(c, s, step).table
    ensures Remaining(c.maxAttempts, Apply(c, s, step).table[id]) + One(id in Moved(s, Apply(c, s, step)))
            <= Remaining(c.maxAttempts, s.table[id])
    ensures AttemptsLeft(c.maxAttempts, Apply(c, s, step).table[id]) + One(ClaimsVideo(step, id))
            <= AttemptsLeft(c.maxAttempts, s.table[id])
  {
    var r, r' := s.table[id], Apply(c, s, step).table[id];
    assert 0 <= r.attempts <= c.maxAttempts && (r.status.Pending? ==> r.attempts < c.maxAttempts);
    RowMoves(c, s, step, id);
    assert id in Moved(s, Apply(c, s, step)) <==> !Finished(r) && r.status != r'.status;
  }

  // What one step does to one row: claim it, requeue it, finish it, or leave its queue position alone.
  lemma RowMoves(c: Config, s: State, step: Step, id: VideoId)
    requires DrainStep(c, s, step) && id in s.table && id in Apply(c, s, step).table
    ensures var (r, r') := (s.table[id], Apply(c, s, step).table[id]);
            if ClaimsVideo(step, id) then
              r.status.Pending? && r'.status.Processing? && r'.attempts == r.attempts + 1
            else
              r'.attempts == r.attempts
              && (r'.status == r.status || Finished(r') || (r.status.Processing? && r'.status.Pending?))
              && (Finished(r) ==> Finished(r'))
  {
    if step.Report? && s.jobs[step.job].video == id {
      assert !ReleasesVideo(s, step, id);
    }
  }

  lemma WorkDrops(c: Config, s: State, step: Step)
    requires DrainStep(c, s, step)
    ensures RemainingWork(c, Apply(c, s, step)) + |Moved(s, Apply(c, s, step))| <= RemainingWork(c, s)
    ensures RemainingClaims(c, Apply(c, s, step)) + One(step.Claim?) <= RemainingClaims(c, s)
  {
    var s' := Apply(c, s, step);
    assert s'.table.Keys <= s.table.Keys;
    var work := r => Remaining(c.maxAttempts, r);
    var claims := r => AttemptsLeft(c.maxAttempts, r);
    var claimed := if step.Claim? then {step.id} else {};
    forall id | id in s'.table
      ensures work(s'.table[id]) + One(id in Moved(s, s')) <= work(s.table[id])
      ensures claims(s'.table[id]) + One(id in claimed) <= claims(s.table[id])
    {
      RowWorkDrops(c, s, step, id);
    }
    SumDrops(s.table, s'.table, work, Moved(s, s'));
    SumDrops(s.table, s'.table, claims, claimed);
  }

  // ---- Whole runs ---------------------------------------------------------------------

  ghost predicate Draining(c: Config, states: seq<State>, steps: seq<Step>, from: nat) {
    Safe(c) && c.minAttempts == c.maxAttempts && TimedExecution(c, states, steps)
    && from <= |steps| && forall i | from <= i < |steps| :: AddsNoWork(states[i], steps[i])
  }

  ghost function MovesBetween(states: seq<State>, from: nat, upto: nat): nat
    requires from <= upto < |states|
  {
    if from == upto then 0 else MovesBetween(states, from, upto - 1) + |Moved(states[upto - 1], states[upto])|
  }

  function ClaimsBetween(steps: seq<Step>, from: nat, upto: nat): nat
    requires from <= upto <= |steps|
  {
    if from == upto then 0 else ClaimsBetween(steps, from, upto - 1) + One(steps[upto - 1].Claim?)
  }

  lemma {:induction false} WorkIsUsedUp(c: Config, states: seq<State>, steps: seq<Step>, from: nat, upto: nat)
    requires Draining(c, states, steps, from) && from <= upto <= |steps|
    ensures RemainingWork(c, states[upto]) + MovesBetween(states, from, upto) <= RemainingWork(c, states[from])
    ensures RemainingClaims(c, states[upto]) + ClaimsBetween(steps, from, upto) <= RemainingClaims(c, states[from])
    decreases upto
  {
    if from != upto {
      WorkIsUsedUp(c, states, steps, from, upto - 1);
      ExclusiveHolds(c, states, steps, upto - 1);
      assert AddsNoWork(states[upto - 1], steps[upto - 1]);
      WorkDrops(c, states[upto - 1], steps[upto - 1]);
    }
  }

  // A draining run of n rows makes at most n * Max claims and changes the
  // status of an unfinished row at most 2 * n * Max times.
  lemma DrainTerminates(c: Config, states: seq<State>, steps: seq<Step>, from: nat)
    requires Draining(c, states, steps, from)
    ensures ClaimsBetween(steps, from, |steps|) <= |states[from].table| * c.maxAttempts
    ensures MovesBetween(states, from, |steps|) <= |states[from].table| * (2 * c.maxAttempts)
  {
    WorkIsUsedUp(c, states, steps, from, |steps|);
    ExclusiveHolds(c, states, steps, from);
    var t := states[from].table;
    SumBound(t, r => Remaining(c.maxAttempts, r), 2 * c.maxAttempts);
    SumBound(t, r => AttemptsLeft(c.maxAttempts, r), c.maxAttempts);
  }

  // ---- Nothing left to do means everything is finished -----------------------------------

  // A step that moves a row or a job on. Waiting, uploads, deletions and faults do not count.
  ghost predicate Working(c: Config, s: State, step: Step)
    requires Enabled(c, s, step)
  {
    match step
    case Advance(_) | Create(_, _) | Delete(_) => false
    case BeatLost(_) | ReportLost(_) | Crash(_) => false
    case ReclaimRequeue(_) | ReclaimFail(_) => Apply(c, s, step).table != s.table
    case _ => true
  }

  // However long one waits, no working step is enabled.
  ghost predicate Stuck(c: Config, s: State) {
    forall later, step | s.now <= later && Enabled(c, s.(now := later), step) :: !Working(c, s.(now := later), step)
  }

  ghost predicate AllFinished(s: State) {
    s.jobs == map[] && forall id | id in s.table :: Finished(s.table[id])
  }

  // A queue that can do nothing has no live job and every row ready or failed,
  // and the other way round.
  lemma StuckMeansFinished(c: Config, states: seq<State>, steps: seq<Step>, i: nat)
    requires Execution(c, states, steps) && i < |states|
    ensures Stuck(c, states[i]) <==> AllFinished(states[i])
  {
    InvHolds(c, states, steps, i);
    var s := states[i];
    if AllFinished(s) {
      forall later, step | s.now <= later && Enabled(c, s.(now := later), step)
        ensures !Working(c, s.(now := later), step)
      {
        FinishedStaysPut(c, s.(now := later), step);
      }
    } else {
      var later, step := NextWork(c, s);
      assert !Stuck(c, s);
    }
  }

  lemma FinishedStaysPut(c: Config, s: State, step: Step)
    requires AllFinished(s) && Enabled(c, s, step)
    ensures !Working(c, s, step)
  {
    if step.ReclaimRequeue? || step.ReclaimFail? {
      assert Apply(c, s, step).table == s.table;
    }
  }

  lemma NextWork(c: Config, s: State) returns (later: Time, step: Step)
    requires Inv(c, s) && !AllFinished(s)
    ensures s.now <= later && Enabled(c, s.(now := later), step) && Working(c, s.(now := later), step)
  {
    later := s.now;
    if s.jobs != map[] {
      var j :| j in s.jobs;
      step := match s.jobs[j].phase
        case Replying(_) => ClaimReply(j)
        case Running(_, _, _) => WriteReady(j, true)
        case Reporting(_, _) => Report(j);
    } else {
      var id :| id in s.table && !Finished(s.table[id]);
      if s.table[id].status.Pending? {
        OldestExists(s.table, {}, id);
        var oldest :| oldest in s.table && OldestCandidate(s.table, {}, oldest);
        step := Claim(0, oldest, {}, c.maxAttempts);
      } else {
        later := Max(s.now, s.table[id].heartbeatAt.value + c.staleAfter + 1);
        step := if s.table[id].attempts < c.maxAttempts then ReclaimRequeue(c.maxAttempts) else ReclaimFail(c.maxAttempts);
        assert Apply(c, s.(now := later), step).table[id] != s.table[id];
      }
    }
  }
}
