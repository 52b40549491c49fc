/** Why a task ends as FAILED: over every run, for one of three reasons and for no other. */
module SchedulerFailure {
  import opened Core
  import opened SchedulerMachine
  import opened SchedulerInvariant
  import opened SchedulerFrame
  import opened SchedulerThreads
  import opened SchedulerTheorems
  import opened SchedulerGuarantees
  import opened SchedulerOutcome

  /** Starting the task raises: the hook after it was marked RUNNING, or the strategy. */
  predicate Breaks(s: State, e: Event, t: TaskId) {
    e.RunTask? && (e.run.ExecuteRaises? || e.run.StartHookRaises?) && s.At(Worker(e.worker), Started(t))
  }

  /** That, or its future is done with an exception, or the last worker gives it up after a stop. */
  predicate Fails(s: State, e: Event, t: TaskId) {
    || Breaks(s, e, t)
    || Reports(s, e, t, false)
    || (e.Sweep? && e.sweep == SweepStep.Fail(t))
  }

  // ---------- no failure without a reason ----------

  lemma BrokenStep(s: State, e: Event, w: nat, t: TaskId)
    requires Inv(s) && Enabled(s, e) && Apply(s, e).At(Worker(w), Broken(t))
    ensures s.At(Worker(w), Broken(t)) || Breaks(s, e, t)
  {
    if ActorOf(e) == Some(Worker(w)) {
      OwnBroken(s, e, w, t);
    } else if Starts(e, Worker(w)) {
      StartedAt(s, e, Worker(w));
      hide Inv, Apply, Enabled;
    } else {
      ThreadStays(s, e, Worker(w));
      hide Inv, Apply, Enabled;
    }
  }

  lemma OwnBroken(s: State, e: Event, w: nat, t: TaskId)
    requires Inv(s) && Enabled(s, e) && ActorOf(e) == Some(Worker(w)) && Apply(s, e).At(Worker(w), Broken(t))
    ensures s.At(Worker(w), Broken(t)) || Breaks(s, e, t)
  {
    if e.RunTask? {
      hide CanRun, ApplyRun, Inv;
      RunBreaks(s, w, e.run, t);
    } else if e.Loop? {
      hide CanLoop, ApplyLoop, Inv;
      LoopMends(s, w, e.loop);
    } else if e.Finish? {
      hide CanFinish, ApplyFinish, Inv;
      FinishMends(s, Worker(w), e.finish);
    } else if e.Exit? {
      hide CanExit, ApplyExit, Inv;
      ExitMends(s, w, e.exit);
    } else {
      hide CanSweep, ApplySweep, Inv;
      SweepMends(s, Worker(w), e.sweep);
    }
  }

  lemma LoopMends(s: State, w: nat, step: LoopStep)
    requires CanLoop(s, w, step)
    ensures var tid := Worker(w); tid in ApplyLoop(s, w, step).pcs ==> !ApplyLoop(s, w, step).pcs[tid].Broken?
  {
  }

  lemma ExitMends(s: State, w: nat, step: ExitStep)
    requires CanExit(s, w, step)
    ensures var tid := Worker(w); tid in ApplyExit(s, w, step).pcs ==> !ApplyExit(s, w, step).pcs[tid].Broken?
  {
    hide DoTakeThreadsLock;
    if step.TakeThreadsLock? { TakenMends(s, w); }
  }

  lemma TakenMends(s: State, w: nat)
    requires CanExit(s, w, TakeThreadsLock)
    ensures var tid := Worker(w);
      tid in DoTakeThreadsLock(s, w).pcs ==> !DoTakeThreadsLock(s, w).pcs[tid].Broken?
  {
    if s.stopFlag && s.threads <= {w} {
    } else {
    }
  }

  lemma FinishMends(s: State, tid: Tid, step: FinishStep)
    requires CanFinish(s, tid, step)
    ensures tid in ApplyFinish(s, tid, step).pcs ==> !ApplyFinish(s, tid, step).pcs[tid].Broken?
  {
  }

  lemma SweepMends(s: State, tid: Tid, step: SweepStep)
    requires CanSweep(s, tid, step)
    ensures tid in ApplySweep(s, tid, step).pcs ==> !ApplySweep(s, tid, step).pcs[tid].Broken?
  {
    hide DoEnd, DoNotifySwept, DoFail;
    match step
    case End => EndMends(s, tid);
    case NotifySwept => SweptMends(s, tid);
    case Fail(t) => FailMends(s, tid, t);
    case _ =>
  }

  lemma AfterSweepMends(s: State, tid: Tid)
    requires tid in s.pcs
    ensures tid in AfterSweep(s, tid).pcs ==> !AfterSweep(s, tid).pcs[tid].Broken?
  {
    if tid.Worker? {
    } else {
    }
  }

  lemma EndMends(s: State, tid: Tid)
    requires CanSweep(s, tid, End)
    ensures tid in DoEnd(s, tid).pcs ==> !DoEnd(s, tid).pcs[tid].Broken?
  {
    AfterSweepMends(s, tid);
    hide AfterSweep;
  }

  lemma SweptMends(s: State, tid: Tid)
    requires CanSweep(s, tid, NotifySwept)
    ensures tid in DoNotifySwept(s, tid).pcs ==> !DoNotifySwept(s, tid).pcs[tid].Broken?
  {
    AfterSweepMends(NotifyAll(s), tid);
    hide AfterSweep;
  }

  lemma FailMends(s: State, tid: Tid, t: TaskId)
    requires CanSweep(s, tid, SweepStep.Fail(t))
    ensures tid in DoFail(s, tid, t).pcs ==> !DoFail(s, tid, t).pcs[tid].Broken?
  {
  }

  lemma RunBreaks(s: State, w: nat, step: RunStep, t: TaskId)
    requires Inv(s) && CanRun(s, w, step) && ApplyRun(s, w, step).At(Worker(w), Broken(t))
    ensures Breaks(s, RunTask(w, step), t)
  {
    var u := s.pcs[Worker(w)].task;
    assert CarryInv(s, Worker(w)) && Carries(s.pcs[Worker(w)], u) && TaskInv(s, u);
    hide Inv;
  }

  /** Who writes FAILED: a worker that could not start the task, the callback of a future with an
      exception, or a sweep. */
  lemma FailedStep(s: State, e: Event, t: TaskId)
    requires Inv(s) && Enabled(s, e) && Apply(s, e).records.Keys >= {t} && Apply(s, e).records[t].Failed?
    ensures
      || (t in s.records && s.records[t].Failed?)
      || (e.Sweep? && e.sweep == SweepStep.Fail(t))
      || (e.RunTask? && s.At(Worker(e.worker), Broken(t)))
      || (t in s.futures && s.futures[t] == Resolved(false))
  {
    if !WritesRecord(e) {
      StepFrame(s, e);
      hide Inv, Apply, Enabled;
    } else {
      hide Inv, ApplyRun, ApplyFinish, ApplySweep, ApplySubmit;
      match e {
        case Submit(c, _) => StoredPending(s, c, t);
        case RunTask(w, step) => RunFailed(s, w, step, t);
        case Finish(tid, _) => OutcomeFailed(s, tid, t);
        case Sweep(tid, step) => SweepFailed(s, tid, step.failed, t);
        case _ =>
      }
    }
  }

  lemma StoredPending(s: State, c: nat, t: TaskId)
    requires CanSubmit(s, c, Store)
    ensures var s' := ApplySubmit(s, c, Store);
      t in s'.records && s'.records[t].Failed? ==> t in s.records && s.records[t].Failed?
  {
  }

  lemma RunFailed(s: State, w: nat, step: RunStep, t: TaskId)
    requires CanRun(s, w, step) && (step.WriteRunning? || step.WriteBroken?)
    ensures var s' := ApplyRun(s, w, step);
      t in s'.records && s'.records[t].Failed? ==>
        (t in s.records && s.records[t].Failed?) || s.At(Worker(w), Broken(t))
  {
    if step.WriteRunning? {
      if s.pcs[Worker(w)].task in s.records {
      } else {
      }
    } else {
    }
  }

  lemma OutcomeFailed(s: State, tid: Tid, t: TaskId)
    requires Inv(s) && CanFinish(s, tid, WriteOutcome)
    ensures var s' := ApplyFinish(s, tid, WriteOutcome);
      t in s'.records && s'.records[t].Failed? ==>
        (t in s.records && s.records[t].Failed?) || (t in s.futures && s.futures[t] == Resolved(false))
  {
    var u := s.pcs[tid].task;
    assert CarryInv(s, tid) && Carries(s.pcs[tid], u) && TaskInv(s, u);
    hide Inv;
  }

  lemma SweepFailed(s: State, tid: Tid, failed: TaskId, t: TaskId)
    requires CanSweep(s, tid, SweepStep.Fail(failed))
    ensures var s' := ApplySweep(s, tid, SweepStep.Fail(failed));
      t in s'.records && s'.records[t].Failed? ==> (t in s.records && s.records[t].Failed?) || t == failed
  {
  }

  lemma {:induction false} BrokenHasReason(states: seq<State>, events: seq<Event>, i: nat, w: nat, t: TaskId)
    requires Run(states, events) && i < |states| && states[i].At(Worker(w), Broken(t))
    ensures exists k :: 0 <= k < i && Fails(states[k], events[k], t)
  {
    hide Inv, Apply, Enabled, Fresh, Breaks, Reports;
    if i > 0 {
      RunInv(states, events, i - 1);
      assert Step(states[i - 1], events[i - 1], states[i - 1 + 1]);
      BrokenStep(states[i - 1], events[i - 1], w, t);
      if states[i - 1].At(Worker(w), Broken(t)) {
        BrokenHasReason(states, events, i - 1, w, t);
      } else {
        assert Fails(states[i - 1], events[i - 1], t);
      }
    }
  }

  lemma {:induction false} FailedHasReason(states: seq<State>, events: seq<Event>, i: nat, t: TaskId)
    requires Run(states, events) && i < |states| && t in states[i].records && states[i].records[t].Failed?
    ensures exists k :: 0 <= k < i && Fails(states[k], events[k], t)
  {
    hide Inv, Apply, Enabled, Fresh, Breaks, Reports;
    if i > 0 {
      RunInv(states, events, i - 1);
      assert Step(states[i - 1], events[i - 1], states[i - 1 + 1]);
      var s, e := states[i - 1], events[i - 1];
      FailedStep(s, e, t);
      if t in s.records && s.records[t].Failed? {
        FailedHasReason(states, events, i - 1, t);
      } else if e.Sweep? && e.sweep == SweepStep.Fail(t) {
        assert Fails(states[i - 1], events[i - 1], t);
      } else if e.RunTask? && s.At(Worker(e.worker), Broken(t)) {
        BrokenHasReason(states, events, i - 1, e.worker, t);
      } else {
        FutureIffReported(states, events, i - 1, t, false);
        var k :| 0 <= k < i - 1 && Reports(states[k], events[k], t, false);
        assert Fails(states[k], events[k], t);
      }
    }
  }

  // ---------- no such reason without a failure ----------

  lemma BreaksTo(s: State, e: Event, t: TaskId)
    requires Enabled(s, e) && Breaks(s, e, t)
    ensures e.RunTask? && Apply(s, e).At(Worker(e.worker), Broken(t))
  {
  }

  /** A worker whose task broke off does nothing else before it has marked it FAILED. */
  lemma StaysBroken(s: State, e: Event, w: nat, t: TaskId)
    requires Inv(s) && Enabled(s, e) && s.At(Worker(w), Broken(t))
    ensures Apply(s, e).At(Worker(w), Broken(t)) || (t in Apply(s, e).records && Apply(s, e).records[t].Failed?)
  {
    if ActorOf(e) == Some(Worker(w)) {
      OnlyMarks(s, e, w, t);
      MarksFailed(s, w, t);
      hide Inv, Apply, Enabled;
    } else {
      if Starts(e, Worker(w)) {
        NotStarted(s, e, w, t);
        hide Inv, Apply, Enabled;
      } else {
        ThreadStays(s, e, Worker(w));
        hide Inv, Apply, Enabled;
      }
    }
  }

  lemma NotStarted(s: State, e: Event, w: nat, t: TaskId)
    requires Inv(s) && Enabled(s, e) && s.At(Worker(w), Broken(t)) && Starts(e, Worker(w))
    ensures Apply(s, e).At(Worker(w), Broken(t))
  {
    assert ThreadInv(s, Worker(w));
    hide Inv;
  }

  lemma OnlyMarks(s: State, e: Event, w: nat, t: TaskId)
    requires Enabled(s, e) && ActorOf(e) == Some(Worker(w)) && s.At(Worker(w), Broken(t))
    ensures e == RunTask(w, WriteBroken)
  {
  }

  lemma MarksFailed(s: State, w: nat, t: TaskId)
    requires Inv(s) && Enabled(s, RunTask(w, WriteBroken)) && s.At(Worker(w), Broken(t))
    ensures var s' := Apply(s, RunTask(w, WriteBroken)); t in s'.records && s'.records[t].Failed?
  {
    assert CarryInv(s, Worker(w)) && Carries(s.pcs[Worker(w)], t) && TaskInv(s, t);
    hide Inv;
  }

  lemma BrokenRuns(s: State, w: nat, t: TaskId)
    requires Inv(s) && s.At(Worker(w), Broken(t))
    ensures t in s.records && s.records[t].Running?
  {
    assert CarryInv(s, Worker(w)) && Carries(s.pcs[Worker(w)], t) && TaskInv(s, t);
  }

  lemma {:induction false} BrokenFails(states: seq<State>, events: seq<Event>, k: nat, i: nat, w: nat, t: TaskId)
    requires Run(states, events) && k <= i < |states| && states[k].At(Worker(w), Broken(t))
    requires t in states[i].records && Terminal(states[i].records[t])
    ensures states[i].records[t].Failed?
    decreases i - k
  {
    hide Init, Inv, Apply, Enabled, Fresh;
    RunInv(states, events, k);
    BrokenRuns(states[k], w, t);
    if k < i {
      assert Step(states[k], events[k], states[k + 1]);
      StaysBroken(states[k], events[k], w, t);
      if states[k + 1].At(Worker(w), Broken(t)) {
        BrokenFails(states, events, k + 1, i, w, t);
      } else {
        TerminalIsFinal(states, events, k + 1, i, t);
      }
    }
  }

  lemma SweptFails(s: State, e: Event, t: TaskId)
    requires Inv(s) && Enabled(s, e) && e.Sweep? && e.sweep == SweepStep.Fail(t)
    ensures t in Apply(s, e).records && Apply(s, e).records[t].Failed?
  {
    assert CarryInv(s, e.tid) && Waiting(s, t) && TaskInv(s, t);
    hide Inv;
  }

  /** Over every run, a stored terminal record is FAILED if and only if starting the task raised, its
      future was done with an exception, or it was given up after a stop. */
  lemma FailedIffFails(states: seq<State>, events: seq<Event>, i: nat, t: TaskId)
    requires Run(states, events) && i < |states| && t in states[i].records && Terminal(states[i].records[t])
    ensures states[i].records[t].Failed? <==> exists k :: 0 <= k < i && Fails(states[k], events[k], t)
  {
    hide Init, Inv, Apply, Enabled, Fresh, Breaks, Reports;
    if states[i].records[t].Failed? { FailedHasReason(states, events, i, t); }
    if k :| 0 <= k < i && Fails(states[k], events[k], t) {
      RunInv(states, events, k);
      assert Step(states[k], events[k], states[k + 1]);
      if Breaks(states[k], events[k], t) {
        BreaksTo(states[k], events[k], t);
        BrokenFails(states, events, k + 1, i, events[k].worker, t);
      } else if Reports(states[k], events[k], t, false) {
        FutureIffReported(states, events, i, t, false);
        CompletedIffSucceeded(states, events, i, t);
      } else {
        SweptFails(states[k], events[k], t);
        TerminalIsFinal(states, events, k + 1, i, t);
      }
    }
  }
}
