/** What each step of the scheduler leaves alone. */
module SchedulerFrame {
  import opened Core
  import opened SchedulerMachine

  /** The thread that takes the step; the strategy and the backend act for nobody here. */
  function ActorOf(e: Event): Option<Tid> {
    match e
    case Submit(c, _) => Some(Client(c))
    case Loop(w, _) => Some(Worker(w))
    case RunTask(w, _) => Some(Worker(w))
    case Finish(tid, _) => Some(tid)
    case Exit(w, _) => Some(Worker(w))
    case Sweep(tid, _) => Some(tid)
    case Query(c, _) => Some(Client(c))
    case Stop(c, _) => Some(Client(c))
    case Resolve(_, _) => None
    case Forget(_) => None
  }

  /** A step that wakes everybody. */
  predicate Notifies(e: Event) {
    match e
    case Submit(_, step) => step.Notify?
    case Finish(_, step) => step.NotifyDone?
    case Sweep(_, step) => step.NotifySwept?
    case Stop(_, step) => step.NotifyStop?
    case _ => false
  }

  /** The steps that write a record. */
  predicate WritesRecord(e: Event) {
    match e
    case Submit(_, step) => step.Store?
    case RunTask(_, step) => step.WriteRunning? || step.WriteBroken?
    case Finish(_, step) => step.WriteOutcome?
    case Sweep(_, step) => step.Fail?
    case Forget(_) => true
    case _ => false
  }

  /** The steps that give out a future, watch it or complete it. */
  predicate WritesFuture(e: Event) {
    match e
    case RunTask(_, step) => step.Execute? || step.AddCallback?
    case Resolve(_, _) => true
    case _ => false
  }

  /** The constants stay, acceptance is for good, and records, futures and the closing of the
      strategy are written by the steps above and by the end of close only. */
  predicate Frame(s: State, s': State, e: Event) {
    && s'.slots == s.slots && s'.foreign == s.foreign && s.accepted <= s'.accepted && s.called <= s'.called
    && ((e.Submit? && e.submit.Store?) || s'.accepted == s.accepted)
    && (WritesRecord(e) || s'.records == s.records)
    && (WritesFuture(e) || s'.futures == s.futures)
    && ((e.Stop? && e.stop.Closed?) || s'.strategyClosed == s.strategyClosed)
  }

  /** A step that only moves threads, locks, permits, ids and the heap. */
  predicate Plain(s: State, s': State) {
    && s'.slots == s.slots && s'.foreign == s.foreign && s'.accepted == s.accepted && s.called <= s'.called
    && s'.records == s.records && s'.futures == s.futures && s'.strategyClosed == s.strategyClosed
  }

  lemma StepFrame(s: State, e: Event)
    requires Enabled(s, e)
    ensures Frame(s, Apply(s, e), e)
  {
    hide Enabled, Apply;
    if WritesRecord(e) || WritesFuture(e) || (e.Stop? && e.stop.Closed?) {
      WriterFrame(s, e);
    } else {
      StepPlain(s, e);
    }
  }

  lemma StepPlain(s: State, e: Event)
    requires Enabled(s, e) && !WritesRecord(e) && !WritesFuture(e) && !(e.Stop? && e.stop.Closed?)
    ensures Plain(s, Apply(s, e))
  {
    hide Plain, ApplySubmit, ApplyLoop, ApplyRun, ApplyFinish, ApplyExit, ApplySweep, ApplyQuery, ApplyStop, CanSubmit,
         CanLoop, CanRun, CanFinish, CanExit, CanSweep, CanQuery, CanStop;
    match e
    case Submit(c, step) => SubmitPlain(s, c, step);
    case Loop(w, step) => LoopPlain(s, w, step);
    case RunTask(w, step) => RunPlain(s, w, step);
    case Finish(tid, step) => FinishPlain(s, tid, step);
    case Exit(w, step) => ExitPlain(s, w, step);
    case Sweep(tid, step) => SweepPlain(s, tid, step);
    case Query(c, step) => QueryPlain(s, c, step);
    case Stop(c, step) => StopPlain(s, c, step);
  }

  lemma SubmitPlain(s: State, c: nat, step: SubmitStep)
    requires CanSubmit(s, c, step) && !step.Store?
    ensures Plain(s, ApplySubmit(s, c, step))
  {
    hide Plain, DoCall, DoEnter, DoTakeSlot, DoUndoId, DoSubmitNotify;
    match step
    case Call(t) => CallPlain(s, c, t);
    case Enter => EnterPlain(s, c);
    case TakeSlot => TakeSlotPlain(s, c);
    case UndoId => UndoIdPlain(s, c);
    case Notify => SubmitNotifyPlain(s, c);
    case _ => AddOrUndoPlain(s, c, step);
  }

  lemma AddOrUndoPlain(s: State, c: nat, step: SubmitStep)
    requires CanSubmit(s, c, step) && (step.AddId? || step.StoreRaises? || step.UndoSlot?)
    ensures Plain(s, ApplySubmit(s, c, step))
  {
  }

  lemma CallPlain(s: State, c: nat, t: TaskId)
    requires CanSubmit(s, c, Call(t))
    ensures Plain(s, DoCall(s, c, t))
  {
    if !s.closed && s.threads == {} {
    } else {
    }
  }

  lemma EnterPlain(s: State, c: nat)
    requires CanSubmit(s, c, Enter)
    ensures Plain(s, DoEnter(s, c))
  {
    if !s.accepting || s.pcs[Client(c)].task in s.records {
    } else {
    }
  }

  lemma TakeSlotPlain(s: State, c: nat)
    requires CanSubmit(s, c, TakeSlot)
    ensures Plain(s, DoTakeSlot(s, c))
  {
    if s.free > 0 {
    } else {
    }
  }

  lemma UndoIdPlain(s: State, c: nat)
    requires CanSubmit(s, c, UndoId)
    ensures Plain(s, DoUndoId(s, c))
  {
    var tid := Client(c);
    var t := s.pcs[tid].task;
    if t in s.outstanding {
      assert DoUndoId(s, c) == s.(outstanding := s.outstanding - {t}).Put(t, Finished).Goto(tid, SubmitUndoRelease(t));
    } else {
      assert DoUndoId(s, c) == s.(lifecycleLock := None).Put(t, Finished).Leave(tid);
    }
  }

  lemma SubmitNotifyPlain(s: State, c: nat)
    requires CanSubmit(s, c, SubmitStep.Notify)
    ensures Plain(s, DoSubmitNotify(s, c))
  {
  }

  lemma LoopPlain(s: State, w: nat, step: LoopStep)
    requires CanLoop(s, w, step)
    ensures Plain(s, ApplyLoop(s, w, step))
  {
  }

  lemma RunPlain(s: State, w: nat, step: RunStep)
    requires CanRun(s, w, step) && (step.ReadRecord? || step.ExecuteRaises? || step.StartHookRaises?)
    ensures Plain(s, ApplyRun(s, w, step))
  {
    if step.ReadRecord? { ReadRecordPlain(s, w); }
  }

  lemma ReadRecordPlain(s: State, w: nat)
    requires CanRun(s, w, ReadRecord)
    ensures Plain(s, DoReadRecord(s, w))
  {
    var t := s.pcs[Worker(w)].task;
    if t in s.records && s.records[t].Pending? {
    } else {
    }
  }

  lemma FinishPlain(s: State, tid: Tid, step: FinishStep)
    requires CanFinish(s, tid, step) && !step.WriteOutcome?
    ensures Plain(s, ApplyFinish(s, tid, step))
  {
  }

  lemma ExitPlain(s: State, w: nat, step: ExitStep)
    requires CanExit(s, w, step)
    ensures Plain(s, ApplyExit(s, w, step))
  {
    hide DoTakeThreadsLock;
    if step.TakeThreadsLock? { TakeThreadsLockPlain(s, w); }
  }

  lemma TakeThreadsLockPlain(s: State, w: nat)
    requires CanExit(s, w, TakeThreadsLock)
    ensures Plain(s, DoTakeThreadsLock(s, w))
  {
    if s.stopFlag && s.threads <= {w} {
    } else {
    }
  }

  lemma SweepPlain(s: State, tid: Tid, step: SweepStep)
    requires CanSweep(s, tid, step) && !step.Fail?
    ensures Plain(s, ApplySweep(s, tid, step))
  {
    hide Plain, DoEnd, DoNotifySwept;
    match step
    case End => EndPlain(s, tid);
    case NotifySwept => SweptPlain(s, tid);
    case _ => SweepOnPlain(s, tid, step);
  }

  lemma SweepOnPlain(s: State, tid: Tid, step: SweepStep)
    requires CanSweep(s, tid, step) && !step.End? && !step.NotifySwept? && !step.Fail?
    ensures Plain(s, ApplySweep(s, tid, step))
  {
  }

  lemma AfterSweepPlain(s: State, tid: Tid)
    requires tid in s.pcs
    ensures Plain(s, AfterSweep(s, tid))
  {
    if tid.Worker? {
    } else {
    }
  }

  lemma EndPlain(s: State, tid: Tid)
    requires CanSweep(s, tid, End)
    ensures Plain(s, DoEnd(s, tid))
  {
    AfterSweepPlain(s, tid);
    hide AfterSweep;
  }

  lemma SweptPlain(s: State, tid: Tid)
    requires CanSweep(s, tid, NotifySwept)
    ensures Plain(s, DoNotifySwept(s, tid))
  {
  }

  lemma QueryPlain(s: State, c: nat, step: QueryStep)
    requires CanQuery(s, c, step)
    ensures Plain(s, ApplyQuery(s, c, step))
  {
    if step.Look? {
      LookPlain(s, c);
    } else {
      WaitPlain(s, c, step);
    }
  }

  lemma WaitPlain(s: State, c: nat, step: QueryStep)
    requires CanQuery(s, c, step) && !step.Look?
    ensures Plain(s, ApplyQuery(s, c, step))
  {
  }

  lemma LookPlain(s: State, c: nat)
    requires CanQuery(s, c, Look)
    ensures Plain(s, DoLook(s, c))
  {
    var t := s.pcs[Client(c)].task;
    if t !in s.records || Terminal(s.records[t]) {
    } else {
    }
  }

  lemma StopPlain(s: State, c: nat, step: StopStep)
    requires CanStop(s, c, step) && !step.Closed?
    ensures Plain(s, ApplyStop(s, c, step))
  {
    if step.Joined? { JoinedPlain(s, c); }
  }

  lemma JoinedPlain(s: State, c: nat)
    requires CanStop(s, c, Joined)
    ensures Plain(s, DoJoined(s, c))
  {
    if s.threads == {} {
    } else {
    }
  }

  lemma WriterFrame(s: State, e: Event)
    requires Enabled(s, e) && (WritesRecord(e) || WritesFuture(e) || (e.Stop? && e.stop.Closed?))
    ensures Frame(s, Apply(s, e), e)
  {
    hide Frame, DoWriteRunning, DoAddCallback, DoWriteBroken, DoFail, ApplyFinish, ApplyResolve;
    match e
    case RunTask(w, step) => RunFrame(s, w, step);
    case Finish(tid, _) => OutcomeFrame(s, tid);
    case Sweep(tid, step) => FailFrame(s, tid, step.failed);
    case Resolve(t, ok) => ResolveFrame(s, t, ok);
    case _ => OtherWriterFrame(s, e);
  }

  lemma OtherWriterFrame(s: State, e: Event)
    requires Enabled(s, e) && (e.Forget? || (e.Submit? && e.submit.Store?) || (e.Stop? && e.stop.Closed?))
    ensures Frame(s, Apply(s, e), e)
  {
  }

  lemma RunFrame(s: State, w: nat, step: RunStep)
    requires CanRun(s, w, step) && (step.WriteRunning? || step.WriteBroken? || step.Execute? || step.AddCallback?)
    ensures Frame(s, ApplyRun(s, w, step), RunTask(w, step))
  {
    hide Frame, DoWriteRunning, DoAddCallback, DoWriteBroken;
    match step
    case WriteRunning => WriteRunningFrame(s, w);
    case WriteBroken => WriteBrokenFrame(s, w);
    case AddCallback => AddCallbackFrame(s, w);
    case Execute(done) => ExecuteFrame(s, w, done);
  }

  lemma WriteRunningFrame(s: State, w: nat)
    requires CanRun(s, w, WriteRunning)
    ensures Frame(s, DoWriteRunning(s, w), RunTask(w, WriteRunning))
  {
  }

  lemma WriteBrokenFrame(s: State, w: nat)
    requires CanRun(s, w, WriteBroken)
    ensures Frame(s, DoWriteBroken(s, w), RunTask(w, WriteBroken))
  {
  }

  lemma AddCallbackFrame(s: State, w: nat)
    requires CanRun(s, w, AddCallback)
    ensures Frame(s, DoAddCallback(s, w), RunTask(w, AddCallback))
  {
  }

  lemma ExecuteFrame(s: State, w: nat, done: Option<bool>)
    requires CanRun(s, w, Execute(done))
    ensures Frame(s, DoExecute(s, w, done), RunTask(w, Execute(done)))
  {
  }

  lemma OutcomeFrame(s: State, tid: Tid)
    requires CanFinish(s, tid, WriteOutcome)
    ensures Frame(s, ApplyFinish(s, tid, WriteOutcome), Finish(tid, WriteOutcome))
  {
  }

  lemma FailFrame(s: State, tid: Tid, t: TaskId)
    requires CanSweep(s, tid, SweepStep.Fail(t))
    ensures Frame(s, DoFail(s, tid, t), Sweep(tid, SweepStep.Fail(t)))
  {
  }

  lemma ResolveFrame(s: State, t: TaskId, ok: bool)
    requires CanResolve(s, t)
    ensures Frame(s, ApplyResolve(s, t, ok), Resolve(t, ok))
  {
    if s.futures[t].Open? {
    } else {
    }
  }
}
