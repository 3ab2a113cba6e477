// The timing condition of QueueTiming is exact: beyond it some timely execution
// reclaims a live job. So is the condition under which a finished video keeps
// its status. The counterexamples work for every attempt limit.
module QueueThreshold {
  import opened Prelude
  import opened VideoTable
  import opened QueueProtocol
  import opened QueueTiming

  ghost predicate LiveJobsAreSafe(c: Config) {
    forall states: seq<State>, steps: seq<Step> | TimedExecution(c, states, steps) ::
      forall i | 0 <= i < |steps| :: !ReclaimsLiveJob(c, states[i], steps[i])
  }

  lemma ThresholdIsExact(c: Config)
    requires SaneBounds(c)
    ensures LiveJobsAreSafe(c) <==> WorstGap(c) <= c.staleAfter
  {
    if WorstGap(c) <= c.staleAfter {
      forall states: seq<State>, steps: seq<Step>, i | TimedExecution(c, states, steps) && 0 <= i < |steps|
        ensures !ReclaimsLiveJob(c, states[i], steps[i])
      {
        LiveJobsAreNotReclaimed(c, states, steps, i);
      }
    } else {
      var states, steps := LiveJobReclaimed(c);
      assert ReclaimsLiveJob(c, states[|steps| - 1], steps[|steps| - 1]);
    }
  }

  // The deployed constants meet the condition with nothing to spare.
  lemma DeployedConstantsAreSafe()
    ensures Safe(DEPLOYED) && LiveJobsAreSafe(DEPLOYED)
    ensures !LiveJobsAreSafe(DEPLOYED.(replyBound := DEPLOYED.replyBound + 1))
    ensures !LiveJobsAreSafe(DEPLOYED.(missBound := DEPLOYED.missBound + 1))
  {
    ThresholdIsExact(DEPLOYED);
    ThresholdIsExact(DEPLOYED.(replyBound := DEPLOYED.replyBound + 1));
    ThresholdIsExact(DEPLOYED.(missBound := DEPLOYED.missBound + 1));
  }

  // ---- Finished statuses are final, and exactly when --------------------------------

  ghost predicate Acknowledged(steps: seq<Step>) { forall n | 0 <= n < |steps| :: Truthful(steps[n]) }

  // The status of a finished video differs between two states of a run.
  ghost predicate ChangesMind(states: seq<State>, i: nat, k: nat, id: VideoId) {
    i <= k < |states| && id in states[i].table && id in states[k].table && Finished(states[i].table[id])
    && states[k].table[id].status != states[i].table[id].status
  }

  // No timely execution changes the status of a finished video; with `acked`,
  // only executions in which every write of `ready` is acknowledged are meant.
  ghost predicate StatusesAreFinal(c: Config, acked: bool) {
    forall states: seq<State>, steps: seq<Step> | TimedExecution(c, states, steps) && (acked ==> Acknowledged(steps)) ::
      forall i, k, id :: !ChangesMind(states, i, k, id)
  }

  lemma FinalityIsExact(c: Config, acked: bool)
    requires SaneBounds(c)
    ensures StatusesAreFinal(c, acked) <==> acked && WorstGap(c) <= c.staleAfter
  {
    if acked && WorstGap(c) <= c.staleAfter {
      forall states: seq<State>, steps: seq<Step>, i: nat, k: nat, id
        | TimedExecution(c, states, steps) && Acknowledged(steps)
        ensures !ChangesMind(states, i, k, id)
      {
        if ChangesMind(states, i, k, id) {
          ReadyAndFailedAreTerminal(c, states, steps, i, k, id);
        }
      }
    } else if !acked {
      var states, steps, i := ReadyThenFailed(c);
      assert ChangesMind(states, i, |steps|, "v");
    } else {
      var states, steps, i := FailedThenReady(c);
      assert ChangesMind(states, i, |steps|, "v");
    }
  }

  // The write of `ready` takes effect unacknowledged on the last attempt: process
  // reports an error, and runJob marks the ready video as failed.
  lemma ReadyThenFailed(c: Config) returns (states: seq<State>, steps: seq<Step>, i: nat)
    requires ValidConfig(c)
    ensures TimedExecution(c, states, steps) && i <= |steps|
    ensures "v" in states[i].table && states[i].table["v"].status.Ready?
    ensures "v" in states[|steps|].table && states[|steps|].table["v"].status.Failed?
  {
    states, steps := LastAttempt(c, c.minAttempts);
    states, steps := ExtendTimed(c, states, steps, ClaimReply(0));
    states, steps := ExtendTimed(c, states, steps, WriteReady(0, false));
    i := |steps|;
    var s := states[i];
    assert s.table == map["v" := WithStatus(SilentRow(c.minAttempts), Ready, None)];
    states, steps := ExtendTimed(c, states, steps, ProcessFails(0, false, ""));
    states, steps := ExtendTimed(c, states, steps, Report(0));
    assert states[i] == s;
  }

  // A live job in its last attempt is taken for dead, its video is marked as
  // failed, and then the job finishes and marks it as ready.
  lemma FailedThenReady(c: Config) returns (states: seq<State>, steps: seq<Step>, i: nat)
    requires SaneBounds(c) && c.staleAfter < WorstGap(c)
    ensures TimedExecution(c, states, steps) && Acknowledged(steps) && i <= |steps|
    ensures "v" in states[i].table && states[i].table["v"].status.Failed?
    ensures "v" in states[|steps|].table && states[|steps|].table["v"].status.Ready?
  {
    states, steps := LiveJobReclaimed(c);
    i := |steps|;
    var s := states[i];
    states, steps := ExtendTimed(c, states, steps, WriteReady(0, true));
    assert states[i] == s;
  }

  // ---- Building executions -----------------------------------------------------------

  lemma ExtendTimed(c: Config, states: seq<State>, steps: seq<Step>, step: Step)
    returns (states': seq<State>, steps': seq<Step>)
    requires TimedExecution(c, states, steps)
    requires Enabled(c, states[|steps|], step) && Timely(c, states[|steps|], step)
    ensures TimedExecution(c, states', steps')
    ensures steps' == steps + [step] && states' == states + [Apply(c, states[|steps|], step)]
    ensures Acknowledged(steps) && Truthful(step) ==> Acknowledged(steps')
  {
    states', steps' := Extend(c, states, steps, step);
    forall i | 0 <= i < |steps'| ensures Timely(c, states'[i], steps'[i]) {
      assert i < |steps| ==> states'[i] == states[i] && steps'[i] == steps[i];
    }
  }

  // A pending video after k failed attempts at time 0.
  function SpentRow(k: nat): Row { NewRow("", 0).(attempts := k) }

  function SpentState(k: nat): State { State(0, map["v" := SpentRow(k)], map[], map["v" := History(k, 0, 0)]) }

  // Each attempt is claimed by job 0, fails and is requeued.
  lemma {:induction false} SpendAttempts(c: Config, limit: nat, k: nat) returns (states: seq<State>, steps: seq<Step>)
    requires ValidConfig(c) && c.minAttempts <= limit <= c.maxAttempts && k < limit
    ensures TimedExecution(c, states, steps) && Acknowledged(steps)
    ensures states[|steps|] == SpentState(k)
  {
    if k == 0 {
      states, steps := [State(0, map[], map[], map[])], [];
      states, steps := ExtendTimed(c, states, steps, Create("v", ""));
      assert states[1] == SpentState(0);
    } else {
      states, steps := SpendAttempts(c, limit, k - 1);
      states, steps := FailAttempt(c, limit, k, states, steps);
    }
  }

  lemma FailAttempt(c: Config, limit: nat, k: nat, states: seq<State>, steps: seq<Step>)
    returns (states': seq<State>, steps': seq<Step>)
    requires TimedExecution(c, states, steps) && Acknowledged(steps)
    requires c.minAttempts <= limit <= c.maxAttempts && 1 <= k < limit && states[|steps|] == SpentState(k - 1)
    ensures TimedExecution(c, states', steps') && Acknowledged(steps')
    ensures states'[|steps'|] == SpentState(k)
  {
    states', steps' := ClaimSpent(c, limit, k, states, steps);
    states', steps' := ExtendTimed(c, states', steps', ClaimReply(0));
    assert states'[|steps'|] == SilentState(limit, k, 0, Running(c.heartbeatInterval, None, 0));
    states', steps' := ExtendTimed(c, states', steps', ProcessFails(0, false, ""));
    assert states'[|steps'|] == SilentState(limit, k, 0, Reporting(Requeue, 0));
    states', steps' := ExtendTimed(c, states', steps', Report(0));
    assert states'[|steps'|] == SpentState(k);
  }

  // The row and the job of attempt n on "v", claimed at time 0 and not heard of since.
  function SilentRow(n: nat): Row { Claimed(NewRow("", 0), 0).(attempts := n) }

  function SilentState(limit: nat, n: nat, now: Time, phase: Phase): State {
    State(now, map["v" := SilentRow(n)], map[0 := Job("v", n, limit, n, phase)], map["v" := History(n, 0, 0)])
  }

  lemma ClaimSpent(c: Config, limit: nat, n: nat, states: seq<State>, steps: seq<Step>)
    returns (states': seq<State>, steps': seq<Step>)
    requires TimedExecution(c, states, steps) && Acknowledged(steps)
    requires c.minAttempts <= limit <= c.maxAttempts && 1 <= n && states[|steps|] == SpentState(n - 1)
    ensures TimedExecution(c, states', steps') && Acknowledged(steps')
    ensures states'[|steps'|] == SilentState(limit, n, 0, Replying(0))
  {
    states', steps' := ExtendTimed(c, states, steps, Claim(0, "v", {}, limit));
  }

  // The last attempt that a limit allows.
  lemma LastAttempt(c: Config, limit: nat) returns (states: seq<State>, steps: seq<Step>)
    requires ValidConfig(c) && c.minAttempts <= limit <= c.maxAttempts
    ensures TimedExecution(c, states, steps) && Acknowledged(steps)
    ensures states[|steps|] == SilentState(limit, limit, 0, Replying(0))
  {
    states, steps := SpendAttempts(c, limit, limit - 1);
    states, steps := ClaimSpent(c, limit, limit, states, steps);
  }

  // The state of the last attempt of the smallest limit.
  function LastState(c: Config, now: Time, phase: Phase): State
    requires ValidConfig(c)
  {
    SilentState(c.minAttempts, c.minAttempts, now, phase)
  }

  lemma SlowReply(c: Config) returns (states: seq<State>, steps: seq<Step>)
    requires SaneBounds(c)
    ensures TimedExecution(c, states, steps) && Acknowledged(steps)
    ensures states[|steps|] == LastState(c, c.replyBound, Running(c.replyBound + c.heartbeatInterval, None, 0))
  {
    states, steps := LastAttempt(c, c.minAttempts);
    states, steps := ExtendTimed(c, states, steps, Advance(c.replyBound));
    states, steps := ExtendTimed(c, states, steps, ClaimReply(0));
    assert states[|steps|] == LastState(c, c.replyBound, Running(c.replyBound + c.heartbeatInterval, None, 0));
  }

  lemma {:induction false} LostBeats(c: Config, k: nat) returns (states: seq<State>, steps: seq<Step>)
    requires SaneBounds(c) && k <= c.missBound
    ensures TimedExecution(c, states, steps) && Acknowledged(steps)
    ensures states[|steps|] == LastState(c, DueBy(c, 0, k) - c.heartbeatInterval, Running(DueBy(c, 0, k), None, k))
  {
    if k == 0 {
      states, steps := SlowReply(c);
    } else {
      states, steps := LostBeats(c, k - 1);
      DueByGrows(c, 0, k - 1);
      states, steps := NextTick(c, states, steps, k - 1);
      states, steps := ExtendTimed(c, states, steps, BeatLost(0));
      assert states[|steps|] == LastState(c, DueBy(c, 0, k - 1), Running(DueBy(c, 0, k), None, k));
    }
  }

  lemma NextTick(c: Config, states: seq<State>, steps: seq<Step>, k: nat)
    returns (states': seq<State>, steps': seq<Step>)
    requires SaneBounds(c) && TimedExecution(c, states, steps) && Acknowledged(steps)
    requires states[|steps|] == LastState(c, DueBy(c, 0, k) - c.heartbeatInterval, Running(DueBy(c, 0, k), None, k))
    ensures TimedExecution(c, states', steps') && Acknowledged(steps')
    ensures states'[|steps'|]
            == LastState(c, DueBy(c, 0, k), Running(DueBy(c, 0, k + 1), Some(DueBy(c, 0, k)), k))
  {
    DueByGrows(c, 0, k);
    states', steps' := ExtendTimed(c, states, steps, Advance(DueBy(c, 0, k)));
    states', steps' := ExtendTimed(c, states', steps', Tick(0));
    assert states'[|steps'|] == LastState(c, DueBy(c, 0, k), Running(DueBy(c, 0, k + 1), Some(DueBy(c, 0, k)), k));
  }

  // The reply is as slow and the heartbeats as silent as a timely execution
  // allows: the last step reclaims the row of a live job, which is marked as failed.
  lemma LiveJobReclaimed(c: Config) returns (states: seq<State>, steps: seq<Step>)
    requires SaneBounds(c) && c.staleAfter < WorstGap(c)
    ensures TimedExecution(c, states, steps) && Acknowledged(steps) && 0 < |steps|
    ensures ReclaimsLiveJob(c, states[|steps| - 1], steps[|steps| - 1])
    ensures var s := states[|steps|];
            0 in s.jobs && s.jobs[0].video == "v" && s.jobs[0].phase.Running?
            && "v" in s.table && s.table["v"].status.Failed?
  {
    states, steps := LostBeats(c, c.missBound);
    states, steps := NextTick(c, states, steps, c.missBound);
    states, steps := ExtendTimed(c, states, steps, Advance(WorstGap(c)));
    var s := states[|steps|];
    assert 0 in s.jobs && s.jobs[0].video == "v" && s.table["v"] == SilentRow(c.minAttempts);
    assert Hit(c, s.table["v"], s.now, ReclaimFail(c.minAttempts));
    states, steps := ExtendTimed(c, states, steps, ReclaimFail(c.minAttempts));
  }
}
