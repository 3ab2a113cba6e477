// Worker.uploadHLS: a bounded fan-out over the files of one video, with a
// semaphore, an error channel and a context that the first failure cancels.
module UploadFanOut {
  const CONCURRENCY: nat := 20

  datatype Fate = Stored | Failed | Skipped

  datatype Phase =
    | Queued
    | Spawned
    | Uploading
    | Reporting             // the upload failed; errc <- err is next
    | Cancelling            // the error is sent; cancel() is next
    | Leaving(fate: Fate)   // deferred <-sem is next
    | Freed(fate: Fate)     // deferred wg.Done() is next
    | Gone(fate: Fate)

  datatype Pc = Acquiring | Spawning | Returned(ok: bool)

  datatype State = State(
    pc: Pc, next: nat, sem: nat, errors: nat, phases: seq<Phase>, cancelled: bool, parentCancelled: bool)

  datatype Step =
    | Acquire
    | Spawn
    | Check(file: nat)
    | UploadOk(file: nat)
    | UploadErr(file: nat)
    | SendError(file: nat)
    | CancelUploads(file: nat)
    | FreeSem(file: nat)
    | WaitDone(file: nat)
    | Return
    | ParentCancel

  ghost predicate Enabled(s: State, step: Step) {
    match step
    case Acquire => s.pc.Acquiring? && s.next < |s.phases| && s.sem < CONCURRENCY
    case Spawn => s.pc.Spawning? && s.next < |s.phases|
    case Check(i) => i < |s.phases| && s.phases[i].Spawned?
    case UploadOk(i) => i < |s.phases| && s.phases[i].Uploading?
    case UploadErr(i) => i < |s.phases| && s.phases[i].Uploading?
    case SendError(i) => i < |s.phases| && s.phases[i].Reporting? && s.errors < |s.phases|  // else it blocks
    case CancelUploads(i) => i < |s.phases| && s.phases[i].Cancelling?
    case FreeSem(i) => i < |s.phases| && s.phases[i].Leaving? && 0 < s.sem
    case WaitDone(i) => i < |s.phases| && s.phases[i].Freed?
    case Return => s.pc.Acquiring? && s.next == |s.phases| && forall i | 0 <= i < |s.phases| :: s.phases[i].Gone?
    case ParentCancel => !s.parentCancelled && !s.pc.Returned?
  }

  function To(s: State, i: nat, p: Phase): State
    requires i < |s.phases|
  {
    s.(phases := s.phases[i := p])
  }

  ghost function Apply(s: State, step: Step): State
    requires Enabled(s, step)
  {
    match step
    case Acquire => s.(pc := Spawning, sem := s.sem + 1)
    case Spawn => To(s, s.next, Spawned).(pc := Acquiring, next := s.next + 1)
    case Check(i) => To(s, i, if s.cancelled then Leaving(Skipped) else Uploading)
    case UploadOk(i) => To(s, i, Leaving(Stored))
    case UploadErr(i) => To(s, i, Reporting)
    case SendError(i) => To(s, i, Cancelling).(errors := s.errors + 1)
    case CancelUploads(i) => To(s, i, Leaving(Failed)).(cancelled := true)
    case FreeSem(i) => To(s, i, Freed(s.phases[i].fate)).(sem := s.sem - 1)
    case WaitDone(i) => To(s, i, Gone(s.phases[i].fate))
    case Return => s.(pc := Returned(s.errors == 0))   // the first error, or nil from the closed channel
    case ParentCancel => s.(parentCancelled := true, cancelled := true)
  }

  function Start(files: nat): State {
    State(Acquiring, 0, 0, 0, seq(files, _ => Queued), false, false)
  }

  ghost predicate IsRun(files: nat, states: seq<State>, steps: seq<Step>) {
    |states| == |steps| + 1 && states[0] == Start(files)
    && forall i | 0 <= i < |steps| :: Enabled(states[i], steps[i]) && states[i + 1] == Apply(states[i], steps[i])
  }

  // ---- Counting phases ------------------------------------------------------------

  predicate HoldsSem(p: Phase) { !p.Queued? && !p.Freed? && !p.Gone? }

  predicate Ended(p: Phase, fate: Fate) { (p.Leaving? || p.Freed? || p.Gone?) && p.fate == fate }

  predicate Reported(p: Phase) { p.Cancelling? || Ended(p, Failed) }

  // What remains to be done for a file.
  function Rank(p: Phase): nat {
    match p
    case Queued => 8
    case Spawned => 6
    case Uploading => 5
    case Reporting => 4
    case Cancelling => 3
    case Leaving(_) => 2
    case Freed(_) => 1
    case Gone(_) => 0
  }

  function Total(ps: seq<Phase>, w: Phase -> nat): nat {
    if ps == [] then 0 else w(ps[0]) + Total(ps[1..], w)
  }

  lemma {:induction false} TotalUpdate(ps: seq<Phase>, w: Phase -> nat, i: nat, p: Phase)
    requires i < |ps|
    ensures Total(ps[i := p], w) == Total(ps, w) - w(ps[i]) + w(p)
  {
    if i == 0 {
      assert ps[0 := p][1..] == ps[1..];
    } else {
      assert ps[i := p][1..] == ps[1..][i - 1 := p];
      TotalUpdate(ps[1..], w, i - 1, p);
    }
  }

  lemma {:induction false} TotalBounds(ps: seq<Phase>, w: Phase -> nat, i: nat)
    requires i < |ps| && forall p :: w(p) <= 1
    ensures w(ps[i]) <= Total(ps, w)
    ensures w(ps[i]) == 0 ==> Total(ps, w) < |ps|
  {
    if i > 0 {
      TotalBounds(ps[1..], w, i - 1);
    } else {
      TotalAtMost(ps[1..], w);
    }
  }

  lemma {:induction false} TotalAtMost(ps: seq<Phase>, w: Phase -> nat)
    requires forall p :: w(p) <= 1
    ensures Total(ps, w) <= |ps|
  {
    if ps != [] {
      TotalAtMost(ps[1..], w);
    }
  }

  lemma {:induction false} TotalZero(ps: seq<Phase>, w: Phase -> nat)
    requires forall i | 0 <= i < |ps| :: w(ps[i]) == 0
    ensures Total(ps, w) == 0
  {
    if ps != [] {
      TotalZero(ps[1..], w);
    }
  }

  const HOLDS := (p: Phase) => if HoldsSem(p) then 1 else 0
  const REPORTED := (p: Phase) => if Reported(p) then 1 else 0
  const RANK := (p: Phase) => Rank(p)

  // ---- Invariant --------------------------------------------------------------------

  ghost predicate Inv(s: State) {
    Counts(s) && Shape(s)
  }

  ghost predicate Counts(s: State) {
    s.sem == Total(s.phases, HOLDS) + (if s.pc.Spawning? then 1 else 0)
    && s.sem <= CONCURRENCY
    && s.errors == Total(s.phases, REPORTED)
  }

  ghost predicate Shape(s: State) {
    s.next <= |s.phases|
    && (s.pc.Spawning? ==> s.next < |s.phases|)
    && (forall i | 0 <= i < |s.phases| :: s.phases[i].Queued? <==> s.next <= i)
    && (s.cancelled ==> s.parentCancelled || 0 < s.errors)
    && (s.parentCancelled ==> s.cancelled)
    && (forall i | 0 <= i < |s.phases| && Ended(s.phases[i], Skipped) :: s.parentCancelled || 0 < s.errors)
    && (s.pc.Returned? ==> (s.pc.ok <==> s.errors == 0) && forall i | 0 <= i < |s.phases| :: s.phases[i].Gone?)
  }

  lemma StartInv(files: nat)
    ensures Inv(Start(files))
  {
    TotalZero(Start(files).phases, HOLDS);
    TotalZero(Start(files).phases, REPORTED);
  }

  // The file a step moves on, and the phase it moves to.
  function FileOf(s: State, step: Step): nat {
    match step
    case Check(i) => i
    case UploadOk(i) => i
    case UploadErr(i) => i
    case SendError(i) => i
    case CancelUploads(i) => i
    case FreeSem(i) => i
    case WaitDone(i) => i
    case _ => s.next
  }

  predicate MovesFile(step: Step) { !step.Acquire? && !step.Return? && !step.ParentCancel? }

  lemma StepKeepsInv(s: State, step: Step)
    requires Inv(s) && Enabled(s, step)
    ensures Inv(Apply(s, step))
  {
    StepKeepsCounts(s, step);
    StepKeepsShape(s, step);
  }

  lemma StepKeepsCounts(s: State, step: Step)
    requires Inv(s) && Enabled(s, step)
    ensures Counts(Apply(s, step))
  {
    if MovesFile(step) {
      var i := FileOf(s, step);
      var p := Apply(s, step).phases[i];
      CountsFollow(s, step);
      TotalUpdate(s.phases, HOLDS, i, p);
      TotalUpdate(s.phases, REPORTED, i, p);
    }
  }

  // The counters move with the phase of the file; a spawned file takes over the
  // semaphore slot acquired for it.
  lemma CountsFollow(s: State, step: Step)
    requires Enabled(s, step) && MovesFile(step) && (step.Spawn? ==> s.phases[s.next].Queued?)
    ensures var (k, s') := (FileOf(s, step), Apply(s, step));
            s'.phases == s.phases[k := s'.phases[k]]
            && s'.sem + One(step.Spawn?) - s.sem == One(HoldsSem(s'.phases[k])) - One(HoldsSem(s.phases[k]))
            && s'.errors - s.errors == One(Reported(s'.phases[k])) - One(Reported(s.phases[k]))
            && (s'.pc == s.pc || (step.Spawn? && s'.pc.Acquiring?))
  {
  }

  lemma StepKeepsShape(s: State, step: Step)
    requires Inv(s) && Enabled(s, step)
    ensures Shape(Apply(s, step))
  {
    if step.CancelUploads? {
      TotalBounds(s.phases, REPORTED, step.file);
    }
  }

  lemma {:induction false} InvHolds(files: nat, states: seq<State>, steps: seq<Step>, i: nat)
    requires IsRun(files, states, steps) && i < |states|
    ensures Inv(states[i]) && |states[i].phases| == files
  {
    StartInv(files);
    if i > 0 {
      InvHolds(files, states, steps, i - 1);
      StepKeepsInv(states[i - 1], steps[i - 1]);
    }
  }

  // ---- Results --------------------------------------------------------------------------

  // In every interleaving at most 20 files are being uploaded, and no send on
  // the error channel and no receive from the semaphore blocks.
  lemma FanOutIsBounded(files: nat, states: seq<State>, steps: seq<Step>, i: nat)
    requires IsRun(files, states, steps) && i < |states|
    ensures Total(states[i].phases, HOLDS) <= CONCURRENCY
    ensures forall k | 0 <= k < |states[i].phases| && states[i].phases[k].Reporting? :: Enabled(states[i], SendError(k))
    ensures forall k | 0 <= k < |states[i].phases| && states[i].phases[k].Leaving? :: Enabled(states[i], FreeSem(k))
  {
    InvHolds(files, states, steps, i);
    var s := states[i];
    forall k | 0 <= k < files && s.phases[k].Reporting? ensures Enabled(s, SendError(k)) {
      TotalBounds(s.phases, REPORTED, k);
    }
    forall k | 0 <= k < files && s.phases[k].Leaving? ensures Enabled(s, FreeSem(k)) {
      TotalBounds(s.phases, HOLDS, k);
    }
  }

  function StepsLeft(s: State): nat {
    Total(s.phases, RANK)
    + (if s.pc.Acquiring? then 1 else 0)
    + (if s.parentCancelled || s.pc.Returned? then 0 else 1)
  }

  lemma StepDescends(s: State, step: Step)
    requires Inv(s) && Enabled(s, step)
    ensures StepsLeft(Apply(s, step)) < StepsLeft(s)
  {
    if MovesFile(step) {
      var k := FileOf(s, step);
      RankDrops(s, step);
      TotalUpdate(s.phases, RANK, k, Apply(s, step).phases[k]);
    }
  }

  lemma RankDrops(s: State, step: Step)
    requires Enabled(s, step) && MovesFile(step) && (step.Spawn? ==> s.phases[s.next].Queued?)
    ensures var (k, s') := (FileOf(s, step), Apply(s, step));
            s'.phases == s.phases[k := s'.phases[k]] && Rank(s'.phases[k]) + One(step.Spawn?) < Rank(s.phases[k])
  {
  }

  function One(b: bool): nat { if b then 1 else 0 }

  // The loop finishes: until it has returned a step is enabled, and every step
  // brings the end closer.
  lemma FanOutFinishes(files: nat, states: seq<State>, steps: seq<Step>, i: nat)
    requires IsRun(files, states, steps) && i < |states|
    ensures !states[i].pc.Returned? ==> exists step :: Enabled(states[i], step) && !step.ParentCancel?
    ensures i < |steps| ==> StepsLeft(states[i + 1]) < StepsLeft(states[i])
  {
    InvHolds(files, states, steps, i);
    FanOutIsBounded(files, states, steps, i);
    var s := states[i];
    if !s.pc.Returned? {
      var step := NextStep(s);
    }
    if i < |steps| {
      StepDescends(s, steps[i]);
    }
  }

  lemma NextStep(s: State) returns (step: Step)
    requires Inv(s) && !s.pc.Returned?
    requires forall k | 0 <= k < |s.phases| && s.phases[k].Reporting? :: Enabled(s, SendError(k))
    requires forall k | 0 <= k < |s.phases| && s.phases[k].Leaving? :: Enabled(s, FreeSem(k))
    ensures Enabled(s, step) && !step.ParentCancel?
  {
    if s.pc.Spawning? {
      step := Spawn;
    } else if k :| 0 <= k < |s.phases| && !s.phases[k].Gone? && !s.phases[k].Queued? {
      step := match s.phases[k]
        case Spawned => Check(k)
        case Uploading => UploadOk(k)
        case Reporting => SendError(k)
        case Cancelling => CancelUploads(k)
        case Leaving(_) => FreeSem(k)
        case Freed(_) => WaitDone(k)
        case _ => Acquire;
    } else if s.next < |s.phases| {
      TotalZero(s.phases, HOLDS);
      step := Acquire;
    } else {
      step := Return;
    }
  }

  ghost predicate AllStored(s: State) {
    forall i | 0 <= i < |s.phases| :: s.phases[i] == Gone(Stored)
  }

  // The result is nil exactly when no upload failed. As long as the caller's
  // context is not cancelled, that is exactly when every file was stored.
  lemma NilMeansStored(files: nat, states: seq<State>, steps: seq<Step>, i: nat)
    requires IsRun(files, states, steps) && i < |states| && states[i].pc.Returned?
    ensures states[i].pc.ok <==> forall k | 0 <= k < |states[i].phases| :: states[i].phases[k] != Gone(Failed)
    ensures !states[i].parentCancelled ==> (states[i].pc.ok <==> AllStored(states[i]))
  {
    InvHolds(files, states, steps, i);
    var s := states[i];
    if forall k | 0 <= k < files :: s.phases[k] != Gone(Failed) {
      TotalZero(s.phases, REPORTED);
    } else {
      var k :| 0 <= k < files && s.phases[k] == Gone(Failed);
      TotalBounds(s.phases, REPORTED, k);
    }
  }

  // ---- Nil with files missing ---------------------------------------------------------------

  ghost predicate SkipsFile(states: seq<State>, steps: seq<Step>, n: nat, k: nat)
    requires |steps| < |states|
  {
    n < |steps| && steps[n] == Check(k) && states[n].cancelled
  }

  // A file is left out exactly by a check after the cancellation.
  lemma {:induction false} SkippedByCheck(files: nat, states: seq<State>, steps: seq<Step>, i: nat, k: nat)
    requires IsRun(files, states, steps) && i < |states| && k < files
    ensures |states[i].phases| == files
    ensures Ended(states[i].phases[k], Skipped) <==> exists n | 0 <= n < i :: SkipsFile(states, steps, n, k)
  {
    if i > 0 {
      SkippedByCheck(files, states, steps, i - 1, k);
      InvHolds(files, states, steps, i - 1);
      PhaseStep(states[i - 1], steps[i - 1], k);
      assert states[i] == Apply(states[i - 1], steps[i - 1]);
      if Ended(states[i].phases[k], Skipped) && !Ended(states[i - 1].phases[k], Skipped) {
        assert SkipsFile(states, steps, i - 1, k);
      }
    }
  }

  lemma PhaseStep(s: State, step: Step, k: nat)
    requires Enabled(s, step) && k < |s.phases| && (step.Spawn? ==> s.phases[s.next].Queued?)
    ensures |Apply(s, step).phases| == |s.phases|
    ensures Ended(Apply(s, step).phases[k], Skipped)
            <==> Ended(s.phases[k], Skipped) || (step == Check(k) && s.cancelled)
  {
  }

  lemma {:induction false} ErrorsGrow(files: nat, states: seq<State>, steps: seq<Step>, i: nat, k: nat)
    requires IsRun(files, states, steps) && i <= k < |states|
    ensures states[i].errors <= states[k].errors
    decreases k
  {
    if i < k {
      ErrorsGrow(files, states, steps, i, k - 1);
      assert Enabled(states[k - 1], steps[k - 1]) && states[k] == Apply(states[k - 1], steps[k - 1]);
    }
  }

  // Some file was checked after the caller had been cancelled.
  ghost predicate ChecksLate(states: seq<State>, steps: seq<Step>, i: nat)
    requires |steps| < |states| && i <= |steps|
  {
    exists n | 0 <= n < i :: steps[n].Check? && states[n].parentCancelled
  }

  // For every run that returns nil, cancelled or not: all files are stored exactly
  // if no file was checked after the caller's cancellation.
  lemma NilStoredAllExactly(files: nat, states: seq<State>, steps: seq<Step>, i: nat)
    requires IsRun(files, states, steps) && i < |states| && states[i].pc == Returned(true)
    ensures AllStored(states[i]) <==> !ChecksLate(states, steps, i)
  {
    InvHolds(files, states, steps, i);
    NilMeansStored(files, states, steps, i);
    if ChecksLate(states, steps, i) {
      var n :| 0 <= n < i && steps[n].Check? && states[n].parentCancelled;
      InvHolds(files, states, steps, n);
      assert Enabled(states[n], steps[n]);
      assert SkipsFile(states, steps, n, steps[n].file);
      SkippedByCheck(files, states, steps, i, steps[n].file);
    } else {
      forall k | 0 <= k < files ensures states[i].phases[k] == Gone(Stored) {
        SkippedByCheck(files, states, steps, i, k);
        if n :| 0 <= n < i && SkipsFile(states, steps, n, k) {
          InvHolds(files, states, steps, n);
          ErrorsGrow(files, states, steps, n, i);
        }
      }
    }
  }

  // In every run over this many files, whatever the caller does, nil means stored.
  ghost predicate NilIsTrustworthy(files: nat) {
    forall states: seq<State>, steps: seq<Step>, i: nat | IsRun(files, states, steps) && i < |states| ::
      states[i].pc == Returned(true) ==> AllStored(states[i])
  }

  lemma TrustworthyOnlyWithoutFiles(files: nat)
    ensures NilIsTrustworthy(files) <==> files == 0
  {
    if files == 0 {
      forall states: seq<State>, steps: seq<Step>, i: nat | IsRun(files, states, steps) && i < |states|
        ensures states[i].pc == Returned(true) ==> AllStored(states[i])
      {
        InvHolds(files, states, steps, i);
      }
    } else {
      var states, steps := CancelledCallerMayGetNil(files);
      assert !NilIsTrustworthy(files);
    }
  }

  // Cancelling the caller makes files drop out silently: nil with nothing stored.
  lemma CancelledCallerMayGetNil(files: nat) returns (states: seq<State>, steps: seq<Step>)
    requires 1 <= files
    ensures IsRun(files, states, steps) && states[|steps|].pc == Returned(true)
    ensures forall k | 0 <= k < |states[|steps|].phases| :: states[|steps|].phases[k] == Gone(Skipped)
    ensures |states[|steps|].phases| == files && !AllStored(states[|steps|])
  {
    states, steps := SkipFiles(files, files);
    states, steps := Extend(files, states, steps, Return);
    assert states[|steps|].phases[0] == Gone(Skipped);
  }

  function Skipping(files: nat, k: nat, phase: Phase, pc: Pc, next: nat, sem: nat): State
  {
    State(pc, next, sem, 0, seq(files, i => if i < k then Gone(Skipped) else if i == k then phase else Queued), true, true)
  }

  // The caller is cancelled at once, and the first k files have dropped out.
  lemma {:induction false} SkipFiles(files: nat, k: nat) returns (states: seq<State>, steps: seq<Step>)
    requires k <= files
    ensures IsRun(files, states, steps)
    ensures states[|steps|] == Skipping(files, k, Queued, Acquiring, k, 0)
  {
    if k == 0 {
      states, steps := [Start(files)], [];
      states, steps := Extend(files, states, steps, ParentCancel);
      assert states[|steps|].phases == Skipping(files, 0, Queued, Acquiring, 0, 0).phases;
    } else {
      var n := k - 1;
      states, steps := SkipFiles(files, n);
      states, steps := Extend(files, states, steps, Acquire);
      assert states[|steps|] == Skipping(files, n, Queued, Spawning, n, 1);
      states, steps := Extend(files, states, steps, Spawn);
      assert states[|steps|].phases == Skipping(files, n, Spawned, Acquiring, k, 1).phases;
      states, steps := Extend(files, states, steps, Check(n));
      assert states[|steps|].phases == Skipping(files, n, Leaving(Skipped), Acquiring, k, 1).phases;
      states, steps := Extend(files, states, steps, FreeSem(n));
      assert states[|steps|].phases == Skipping(files, n, Freed(Skipped), Acquiring, k, 0).phases;
      states, steps := Extend(files, states, steps, WaitDone(n));
      assert states[|steps|].phases == Skipping(files, k, Queued, Acquiring, k, 0).phases;
    }
  }

  lemma Extend(files: nat, states: seq<State>, steps: seq<Step>, step: Step)
    returns (states': seq<State>, steps': seq<Step>)
    requires IsRun(files, states, steps) && Enabled(states[|steps|], step)
    ensures IsRun(files, states', steps')
    ensures steps' == steps + [step] && states' == states + [Apply(states[|steps|], step)]
  {
    steps' := steps + [step];
    states' := states + [Apply(states[|steps|], step)];
    forall i | 0 <= i < |steps'| ensures Enabled(states'[i], steps'[i]) && states'[i + 1] == Apply(states'[i], steps'[i]) {
      if i < |steps| {
        assert states'[i] == states[i] && states'[i + 1] == states[i + 1] && steps'[i] == steps[i];
      }
    }
  }
}
