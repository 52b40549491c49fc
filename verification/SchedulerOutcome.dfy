/** What a terminal status says: a task is COMPLETED exactly when the strategy reported success. */
module SchedulerOutcome {
  import opened Core
  import opened SchedulerMachine
  import opened SchedulerInvariant
  import opened SchedulerFrame
  import opened SchedulerTheorems

  /** The strategy's future of the task is done in this step, with a result or with an exception. */
  predicate Reports(s: State, e: Event, t: TaskId, ok: bool) {
    || e == Resolve(t, ok)
    || (e.RunTask? && e.run == RunStep.Execute(Some(ok)) && s.At(Worker(e.worker), Started(t)))
  }

  /** The task's future has a result. */
  predicate Succeeded(s: State, t: TaskId) {
    t in s.futures && s.futures[t] == Resolved(true)
  }

  ghost predicate OutcomeAt(s: State, t: TaskId) {
    t in s.records && Terminal(s.records[t]) ==> (s.records[t].Completed? <==> Succeeded(s, t))
  }

  // ---------- futures ----------

  /** A future that is done stays as it is, and gets done only by what the strategy reports. */
  lemma FutureStep(s: State, e: Event, t: TaskId, ok: bool)
    requires Inv(s) && Enabled(s, e)
    ensures var s' := Apply(s, e);
      (t in s'.futures && s'.futures[t] == Resolved(ok)) <==>
      (t in s.futures && s.futures[t] == Resolved(ok)) || Reports(s, e, t, ok)
  {
    if e.RunTask? && e.run.Execute? {
      ExecuteFuture(s, e.worker, e.run.done, t, ok);
    } else if e.RunTask? && e.run.AddCallback? {
      WatchFuture(s, e.worker, t, ok);
    } else if e.Resolve? {
      ResolveFuture(s, e.resolved, e.outcome, t, ok);
    } else {
      StepFrame(s, e);
      hide Inv, Apply, Enabled;
    }
  }

  lemma ExecuteFuture(s: State, w: nat, done: Option<bool>, t: TaskId, ok: bool)
    requires Inv(s) && CanRun(s, w, RunStep.Execute(done))
    ensures var s' := DoExecute(s, w, done);
      (t in s'.futures && s'.futures[t] == Resolved(ok)) <==>
      (t in s.futures && s.futures[t] == Resolved(ok)) || Reports(s, RunTask(w, RunStep.Execute(done)), t, ok)
  {
    var t0 := s.pcs[Worker(w)].task;
    assert CarryInv(s, Worker(w)) && Carries(s.pcs[Worker(w)], t0) && TaskInv(s, t0);
    hide Inv;
  }

  lemma WatchFuture(s: State, w: nat, t: TaskId, ok: bool)
    requires CanRun(s, w, AddCallback)
    ensures var s' := DoAddCallback(s, w);
      (t in s'.futures && s'.futures[t] == Resolved(ok)) <==> (t in s.futures && s.futures[t] == Resolved(ok))
  {
    if s.futures[s.pcs[Worker(w)].task].Resolved? {
    } else {
    }
  }

  lemma ResolveFuture(s: State, r: TaskId, outcome: bool, t: TaskId, ok: bool)
    requires CanResolve(s, r)
    ensures var s' := ApplyResolve(s, r, outcome);
      (t in s'.futures && s'.futures[t] == Resolved(ok)) <==>
      (t in s.futures && s.futures[t] == Resolved(ok)) || Reports(s, Resolve(r, outcome), t, ok)
  {
    if s.futures[r].Open? {
    } else {
    }
  }

  // ---------- records ----------

  /** A record that is terminal was written by the thread that finished the task, and what it wrote
      is what the future says. */
  lemma OutcomeStep(s: State, e: Event, t: TaskId)
    requires Inv(s) && Enabled(s, e) && OutcomeAt(s, t)
    ensures OutcomeAt(Apply(s, e), t)
  {
    if WritesRecord(e) {
      WrittenOutcome(s, e, t);
    } else {
      StepFrame(s, e);
      if t in s.records && Terminal(s.records[t]) { FinalFuture(s, e, t); }
      hide Inv, Apply, Enabled;
    }
  }

  /** What the strategy reports is about a task that is RUNNING. */
  lemma FinalFuture(s: State, e: Event, t: TaskId)
    requires Inv(s) && Enabled(s, e) && t in s.records && Terminal(s.records[t])
    ensures Succeeded(Apply(s, e), t) <==> Succeeded(s, t)
  {
    FutureStep(s, e, t, true);
    if Reports(s, e, t, true) { ReportedRuns(s, e, t, true); }
    hide Inv, Apply, Enabled;
  }

  lemma ReportedRuns(s: State, e: Event, t: TaskId, ok: bool)
    requires Inv(s) && Enabled(s, e) && Reports(s, e, t, ok)
    ensures t in s.records ==> s.records[t].Running?
  {
    assert TaskInv(s, t);
    if e.RunTask? { assert CarryInv(s, Worker(e.worker)) && Carries(s.pcs[Worker(e.worker)], t); }
    hide Inv;
  }

  lemma WrittenOutcome(s: State, e: Event, t: TaskId)
    requires Inv(s) && Enabled(s, e) && OutcomeAt(s, t) && WritesRecord(e)
    ensures OutcomeAt(Apply(s, e), t)
  {
    hide Inv, OutcomeAt, ApplyRun, ApplyFinish, ApplySweep;
    match e {
      case RunTask(w, step) => RunOutcome(s, w, step, t);
      case Finish(tid, _) => FinishOutcome(s, tid, t);
      case Sweep(tid, step) => SweepOutcome(s, tid, step.failed, t);
      case _ => StoreOrForget(s, e, t);
    }
  }

  lemma StoreOrForget(s: State, e: Event, t: TaskId)
    requires Enabled(s, e) && OutcomeAt(s, t) && WritesRecord(e) && (e.Submit? || e.Forget?)
    ensures OutcomeAt(Apply(s, e), t)
  {
    StepFrame(s, e);
  }

  lemma RunOutcome(s: State, w: nat, step: RunStep, t: TaskId)
    requires Inv(s) && CanRun(s, w, step) && OutcomeAt(s, t) && (step.WriteRunning? || step.WriteBroken?)
    ensures OutcomeAt(ApplyRun(s, w, step), t)
  {
    var t0 := s.pcs[Worker(w)].task;
    assert CarryInv(s, Worker(w)) && Carries(s.pcs[Worker(w)], t0) && TaskInv(s, t0);
    hide Inv;
  }

  lemma FinishOutcome(s: State, tid: Tid, t: TaskId)
    requires Inv(s) && CanFinish(s, tid, WriteOutcome) && OutcomeAt(s, t)
    ensures OutcomeAt(ApplyFinish(s, tid, WriteOutcome), t)
  {
    var t0 := s.pcs[tid].task;
    assert CarryInv(s, tid) && Carries(s.pcs[tid], t0) && TaskInv(s, t0);
    hide Inv;
  }

  lemma SweepOutcome(s: State, tid: Tid, failed: TaskId, t: TaskId)
    requires Inv(s) && CanSweep(s, tid, SweepStep.Fail(failed)) && OutcomeAt(s, t)
    ensures OutcomeAt(ApplySweep(s, tid, SweepStep.Fail(failed)), t)
  {
    assert CarryInv(s, tid) && Waiting(s, failed) && TaskInv(s, failed);
    hide Inv;
  }

  // ---------- every run ----------

  /** In every reachable state a stored terminal record is COMPLETED if and only if its task has a
      future and that future has a result. */
  lemma {:induction false} CompletedIffSucceeded(states: seq<State>, events: seq<Event>, i: nat, t: TaskId)
    requires Run(states, events) && i < |states|
    ensures t in states[i].records && Terminal(states[i].records[t]) ==>
              (states[i].records[t].Completed? <==>
               t in states[i].futures && states[i].futures[t] == Resolved(true))
  {
    hide Inv, Apply, Enabled, Fresh;
    if i > 0 {
      CompletedIffSucceeded(states, events, i - 1, t);
      RunInv(states, events, i - 1);
      assert Step(states[i - 1], events[i - 1], states[i - 1 + 1]);
      OutcomeStep(states[i - 1], events[i - 1], t);
    }
  }

  /** A future has an outcome exactly when the strategy has reported it. */
  lemma {:induction false} FutureIffReported(states: seq<State>, events: seq<Event>, i: nat, t: TaskId, ok: bool)
    requires Run(states, events) && i < |states|
    ensures t in states[i].futures && states[i].futures[t] == Resolved(ok) <==>
              exists k :: 0 <= k < i && Reports(states[k], events[k], t, ok)
  {
    hide Inv, Apply, Enabled, Fresh, Reports;
    if i > 0 {
      FutureIffReported(states, events, i - 1, t, ok);
      RunInv(states, events, i - 1);
      assert Step(states[i - 1], events[i - 1], states[i - 1 + 1]);
      FutureStep(states[i - 1], events[i - 1], t, ok);
    }
  }

  /** Over every run, a stored terminal record is COMPLETED if and only if the strategy's future of
      its task was done with a result at some earlier step; otherwise it is FAILED. */
  lemma CompletedIffReported(states: seq<State>, events: seq<Event>, i: nat, t: TaskId)
    requires Run(states, events) && i < |states| && t in states[i].records && Terminal(states[i].records[t])
    ensures states[i].records[t] ==
              if exists k :: 0 <= k < i && Reports(states[k], events[k], t, true) then Completed else Failed
  {
    hide Run, Reports;
    CompletedIffSucceeded(states, events, i, t);
    FutureIffReported(states, events, i, t, true);
  }
}
