// Worker.Run: the claim loop and the jobs it starts, interleaved in any order.
module WorkerLoop {
  type JobId = nat

  // New replaces a concurrency below one.
  function Concurrency(configured: int): (n: nat)
    ensures n >= 1
  {
    if configured < 1 then 1 else configured
  }

  datatype Pc =
    | CheckSlots            // for len(slots) < cap(slots)
    | Claiming              // ClaimNextPending
    | Sending(job: JobId)   // slots <- struct{}{}
    | Spawning(job: JobId)  // wg.Add(1); go ...
    | Selecting             // select on ctx.Done and the ticker
    | Draining              // wg.Wait
    | Returned

  // `busy` jobs hold a slot; `freed` ones have given it back but not yet called
  // wg.Done. `slots` and `wg` are the counters the code itself reads.
  datatype State = State(
    pc: Pc, slots: nat, wg: int, busy: set<JobId>, freed: set<JobId>, claimed: set<JobId>, started: set<JobId>)

  datatype Step =
    | TestSlots
    | ClaimOk(job: JobId)
    | ClaimNone
    | Send
    | Spawn
    | Tick               // the ticker fires; the next turn may reclaim first
    | Stop               // ctx is done
    | WaitOver
    | FreeSlot(job: JobId)
    | JobDone(job: JobId)

  ghost predicate Enabled(cap: nat, s: State, step: Step) {
    match step
    case TestSlots => s.pc.CheckSlots?
    case ClaimOk(j) => s.pc.Claiming? && j !in s.claimed
    case ClaimNone => s.pc.Claiming?
    case Send => s.pc.Sending? && s.slots < cap    // otherwise the send blocks
    case Spawn => s.pc.Spawning?
    case Tick => s.pc.Selecting?
    case Stop => s.pc.Selecting?
    case WaitOver => s.pc.Draining? && s.wg == 0
    case FreeSlot(j) => j in s.busy && 0 < s.slots  // otherwise the receive blocks
    case JobDone(j) => j in s.freed
  }

  ghost function Apply(cap: nat, s: State, step: Step): State
    requires Enabled(cap, s, step)
  {
    match step
    case TestSlots => s.(pc := if s.slots < cap then Claiming else Selecting)
    case ClaimOk(j) => s.(pc := Sending(j), claimed := s.claimed + {j})
    case ClaimNone => s.(pc := Selecting)
    case Send => s.(pc := Spawning(s.pc.job), slots := s.slots + 1)
    case Spawn => s.(pc := CheckSlots, wg := s.wg + 1, busy := s.busy + {s.pc.job}, started := s.started + {s.pc.job})
    case Tick => s.(pc := CheckSlots)
    case Stop => s.(pc := Draining)
    case WaitOver => s.(pc := Returned)
    case FreeSlot(j) => s.(slots := s.slots - 1, busy := s.busy - {j}, freed := s.freed + {j})
    case JobDone(j) => s.(wg := s.wg - 1, freed := s.freed - {j})
  }

  const INITIAL := State(CheckSlots, 0, 0, {}, {}, {}, {})

  ghost predicate IsRun(cap: nat, states: seq<State>, steps: seq<Step>) {
    |states| == |steps| + 1 && states[0] == INITIAL
    && forall i | 0 <= i < |steps| ::
         Enabled(cap, states[i], steps[i]) && states[i + 1] == Apply(cap, states[i], steps[i])
  }

  function InHand(pc: Pc): set<JobId> {
    match pc
    case Sending(j) => {j}
    case Spawning(j) => {j}
    case _ => {}
  }

  ghost predicate Inv(cap: nat, s: State) {
    s.slots == |s.busy| + (if s.pc.Spawning? then 1 else 0)
    && s.slots <= cap
    && (s.pc.Claiming? || s.pc.Sending? ==> s.slots < cap)
    && s.wg == |s.busy| + |s.freed|
    && s.busy !! s.freed && s.busy + s.freed <= s.started
    && s.started !! InHand(s.pc) && s.claimed == s.started + InHand(s.pc)
    && (s.pc.Returned? ==> s.wg == 0)
  }

  lemma StepKeepsInv(cap: nat, s: State, step: Step)
    requires Inv(cap, s) && Enabled(cap, s, step)
    ensures Inv(cap, Apply(cap, s, step))
  {
    match step
    case Spawn => SpawnKeepsInv(cap, s);
    case FreeSlot(j) => FreeSlotKeepsInv(cap, s, j);
    case JobDone(j) => JobDoneKeepsInv(cap, s, j);
    case ClaimOk(_) => LoopKeepsInv(cap, s, step);
    case Send => LoopKeepsInv(cap, s, step);
    case _ => WaitKeepsInv(cap, s, step);
  }

  lemma LoopKeepsInv(cap: nat, s: State, step: Step)
    requires Inv(cap, s) && Enabled(cap, s, step) && (step.ClaimOk? || step.Send?)
    ensures Inv(cap, Apply(cap, s, step))
  {
  }

  lemma WaitKeepsInv(cap: nat, s: State, step: Step)
    requires Inv(cap, s) && Enabled(cap, s, step)
    requires step.TestSlots? || step.ClaimNone? || step.Tick? || step.Stop? || step.WaitOver?
    ensures Inv(cap, Apply(cap, s, step))
  {
  }

  lemma JobDoneKeepsInv(cap: nat, s: State, j: JobId)
    requires Inv(cap, s) && Enabled(cap, s, JobDone(j))
    ensures Inv(cap, Apply(cap, s, JobDone(j)))
  {
    Without(s.freed, j);
  }

  lemma Without(s: set<JobId>, j: JobId)
    ensures j in s ==> |s - {j}| == |s| - 1
    ensures j !in s ==> |s + {j}| == |s| + 1
  {
  }

  lemma SpawnKeepsInv(cap: nat, s: State)
    requires Inv(cap, s) && Enabled(cap, s, Spawn)
    ensures Inv(cap, Apply(cap, s, Spawn))
  {
    Without(s.busy, s.pc.job);
    assert s.pc.job in InHand(s.pc) && s.pc.job !in s.started;
  }

  lemma FreeSlotKeepsInv(cap: nat, s: State, j: JobId)
    requires Inv(cap, s) && Enabled(cap, s, FreeSlot(j))
    ensures Inv(cap, Apply(cap, s, FreeSlot(j)))
  {
    Without(s.busy, j);
    Without(s.freed, j);
  }

  lemma {:induction false} InvHolds(cap: nat, states: seq<State>, steps: seq<Step>, i: nat)
    requires 1 <= cap && IsRun(cap, states, steps) && i < |states|
    ensures Inv(cap, states[i])
  {
    if i > 0 {
      InvHolds(cap, states, steps, i - 1);
      StepKeepsInv(cap, states[i - 1], steps[i - 1]);
    }
  }

  // Slot discipline, in every reachable state: at most `cap` jobs run; the send
  // and the receive on the slot channel never block; outside the few lines that
  // hold a job in hand every claimed job was started; and Run has returned only
  // if every job it started is over.
  lemma SlotDiscipline(configured: int, states: seq<State>, steps: seq<Step>, i: nat)
    requires IsRun(Concurrency(configured), states, steps) && i < |states|
    ensures var (cap, s) := (Concurrency(configured), states[i]);
            |s.busy| <= cap
            && (s.pc.Sending? ==> Enabled(cap, s, Send))
            && (forall j | j in s.busy :: Enabled(cap, s, FreeSlot(j)))
            && s.claimed == s.started + InHand(s.pc)
            && (s.pc.Returned? ==> s.busy == {} && s.freed == {} && s.claimed == s.started)
  {
    var cap, s := Concurrency(configured), states[i];
    InvHolds(cap, states, steps, i);
    if s.pc.Returned? {
      assert |s.busy| == 0 && |s.freed| == 0;
    }
    forall j | j in s.busy ensures Enabled(cap, s, FreeSlot(j)) {
      assert |s.busy| > 0;
    }
  }

  // The loop works for as long as it can: it waits for the next tick only with
  // all slots taken or nothing to claim, goes on at every tick, and stops only
  // when it is told to.
  lemma LoopFillsSlots(configured: int, states: seq<State>, steps: seq<Step>, i: nat)
    requires IsRun(Concurrency(configured), states, steps) && i < |steps|
    ensures var (cap, s, s') := (Concurrency(configured), states[i], states[i + 1]);
            (s'.pc.Selecting? && !s.pc.Selecting? ==> s'.slots == cap || steps[i] == ClaimNone)
            && (s'.pc.Draining? && !s.pc.Draining? ==> steps[i] == Stop)
            && (s.pc.Selecting? && steps[i] == Tick ==> s'.pc.CheckSlots?)
            && (s.pc.CheckSlots? && s.slots < cap && s'.pc != s.pc ==> s'.pc.Claiming?)
            && (s.pc.Claiming? && s'.pc != s.pc && steps[i] != ClaimNone ==>
                  s'.pc.Sending? && s'.pc.job !in s.claimed && s'.claimed == s.claimed + {s'.pc.job})
  {
    InvHolds(Concurrency(configured), states, steps, i);
    assert Enabled(Concurrency(configured), states[i], steps[i]);
  }

  // Once Run waits, every job can wind down and the wait ends: some step is
  // always enabled, and at most twice the number of running jobs plus one remain.
  function StepsLeft(s: State): nat {
    2 * |s.busy| + |s.freed| + if s.pc.Draining? then 1 else 0
  }

  lemma ShutdownFinishes(cap: nat, states: seq<State>, steps: seq<Step>, i: nat)
    requires 1 <= cap && IsRun(cap, states, steps) && i < |states| && states[i].pc.Draining?
    ensures exists step :: Enabled(cap, states[i], step)
    ensures forall step | Enabled(cap, states[i], step) ::
              var s' := Apply(cap, states[i], step);
              (s'.pc.Draining? || s'.pc.Returned?) && StepsLeft(s') < StepsLeft(states[i])
  {
    InvHolds(cap, states, steps, i);
    var s := states[i];
    if s.busy != {} {
      var j :| j in s.busy;
      assert |s.busy| > 0;
      assert Enabled(cap, s, FreeSlot(j));
    } else if s.freed != {} {
      var j :| j in s.freed;
      assert Enabled(cap, s, JobDone(j));
    } else {
      assert Enabled(cap, s, WaitOver);
    }
    forall step | Enabled(cap, s, step)
      ensures var s' := Apply(cap, s, step);
              (s'.pc.Draining? || s'.pc.Returned?) && StepsLeft(s') < StepsLeft(s)
    {
      if step.FreeSlot? {
        assert |s.busy - {step.job}| == |s.busy| - 1;
      } else if step.JobDone? {
        assert |s.freed - {step.job}| == |s.freed| - 1;
      }
    }
  }
}
