/** What the steps of the other threads leave of a thread: it stays where it is, unless it waits and
    is woken. */
module SchedulerThreads {
  import opened Core
  import opened SchedulerMachine
  import opened SchedulerFrame

  /** The thread is where it was, or where being woken takes it. */
  predicate Stays(s: State, s': State, v: Tid, woken: bool) {
    && (v in s'.pcs <==> v in s.pcs)
    && (v in s.pcs ==> s'.pcs[v] == if woken then Woken(s.pcs[v]) else s.pcs[v])
  }

  /** The step may start the thread. */
  predicate Starts(e: Event, v: Tid) {
    (e.Submit? && e.submit.Call? && v.Worker?) || (e.Resolve? && v == Callback(e.resolved))
  }

  lemma ThreadStays(s: State, e: Event, v: Tid)
    requires Enabled(s, e) && ActorOf(e) != Some(v) && !Starts(e, v)
    ensures Stays(s, Apply(s, e), v, Notifies(e))
  {
    hide Stays, ApplySubmit, ApplyLoop, ApplyRun, ApplyFinish, ApplyExit, ApplySweep, ApplyQuery, ApplyStop,
         ApplyResolve, CanSubmit, CanLoop, CanRun, CanFinish, CanExit, CanSweep, CanQuery, CanStop, CanResolve;
    match e
    case Submit(d, step) => SubmitStays(s, d, step, v);
    case Loop(w, step) => LoopStays(s, w, step, v);
    case RunTask(w, step) => RunStays(s, w, step, v);
    case Finish(tid, step) => FinishStays(s, tid, step, v);
    case Exit(w, step) => ExitStays(s, w, step, v);
    case Sweep(tid, step) => SweepStays(s, tid, step, v);
    case Query(d, step) => QueryStays(s, d, step, v);
    case Stop(d, step) => StopStays(s, d, step, v);
    case Resolve(t, ok) => ResolveStays(s, t, ok, v);
    case Forget(t) => ForgetStays(s, t, v);
  }

  /** A thread that is started begins at the top of its loop, or with the future's outcome. */
  lemma StartedAt(s: State, e: Event, v: Tid)
    requires Enabled(s, e) && Starts(e, v) && v in Apply(s, e).pcs
    ensures
      || (v in s.pcs && Apply(s, e).pcs[v] == s.pcs[v])
      || Apply(s, e).pcs[v].LoopTop?
      || Apply(s, e).pcs[v].Completing?
  {
    if e.Submit? {
      CallStarts(s, e.client, e.submit.task, v);
      hide DoCall;
    } else {
      ResolveStarts(s, e.resolved, e.outcome, v);
      hide ApplyResolve;
    }
  }

  lemma CallStarts(s: State, d: nat, t: TaskId, v: Tid)
    requires CanSubmit(s, d, Call(t)) && v in DoCall(s, d, t).pcs && v.Worker?
    ensures (v in s.pcs && DoCall(s, d, t).pcs[v] == s.pcs[v]) || DoCall(s, d, t).pcs[v].LoopTop?
  {
    if !s.closed && s.threads == {} {
    } else {
    }
  }

  lemma ResolveStarts(s: State, t: TaskId, ok: bool, v: Tid)
    requires CanResolve(s, t) && v in ApplyResolve(s, t, ok).pcs
    ensures (v in s.pcs && ApplyResolve(s, t, ok).pcs[v] == s.pcs[v]) || ApplyResolve(s, t, ok).pcs[v].Completing?
  {
    if s.futures[t].Open? {
    } else {
    }
  }

  lemma SubmitStays(s: State, d: nat, step: SubmitStep, v: Tid)
    requires CanSubmit(s, d, step) && Client(d) != v && (step.Call? ==> !v.Worker?)
    ensures Stays(s, ApplySubmit(s, d, step), v, step.Notify?)
  {
    hide Stays, DoCall, DoEnter, DoTakeSlot, DoUndoId, DoSubmitNotify;
    match step
    case Call(t) => CallStays(s, d, t, v);
    case Enter => EnterStays(s, d, v);
    case TakeSlot => TakeSlotStays(s, d, v);
    case UndoId => UndoIdStays(s, d, v);
    case Notify => SubmitNotifyStays(s, d, v);
    case _ => StoringStays(s, d, step, v);
  }

  lemma StoringStays(s: State, d: nat, step: SubmitStep, v: Tid)
    requires CanSubmit(s, d, step) && Client(d) != v
    requires step.AddId? || step.Store? || step.StoreRaises? || step.UndoSlot?
    ensures Stays(s, ApplySubmit(s, d, step), v, false)
  {
  }

  lemma CallStays(s: State, d: nat, t: TaskId, v: Tid)
    requires CanSubmit(s, d, Call(t)) && Client(d) != v && !v.Worker?
    ensures Stays(s, DoCall(s, d, t), v, false)
  {
    if !s.closed && s.threads == {} {
    } else {
    }
  }

  lemma EnterStays(s: State, d: nat, v: Tid)
    requires CanSubmit(s, d, Enter) && Client(d) != v
    ensures Stays(s, DoEnter(s, d), v, false)
  {
    if !s.accepting || s.pcs[Client(d)].task in s.records {
    } else {
    }
  }

  lemma TakeSlotStays(s: State, d: nat, v: Tid)
    requires CanSubmit(s, d, TakeSlot) && Client(d) != v
    ensures Stays(s, DoTakeSlot(s, d), v, false)
  {
    if s.free > 0 {
    } else {
    }
  }

  lemma UndoIdStays(s: State, d: nat, v: Tid)
    requires CanSubmit(s, d, UndoId) && Client(d) != v
    ensures Stays(s, DoUndoId(s, d), v, false)
  {
    if s.pcs[Client(d)].task in s.outstanding {
    } else {
    }
  }

  lemma SubmitNotifyStays(s: State, d: nat, v: Tid)
    requires CanSubmit(s, d, SubmitStep.Notify) && Client(d) != v
    ensures Stays(s, DoSubmitNotify(s, d), v, true)
  {
  }

  lemma LoopStays(s: State, w: nat, step: LoopStep, v: Tid)
    requires CanLoop(s, w, step) && Worker(w) != v
    ensures Stays(s, ApplyLoop(s, w, step), v, false)
  {
  }

  lemma RunStays(s: State, w: nat, step: RunStep, v: Tid)
    requires CanRun(s, w, step) && Worker(w) != v
    ensures Stays(s, ApplyRun(s, w, step), v, false)
  {
    hide Stays, DoReadRecord, DoWriteRunning, DoAddCallback, DoWriteBroken;
    match step
    case ReadRecord => ReadRecordStays(s, w, v);
    case WriteRunning => WriteRunningStays(s, w, v);
    case AddCallback => AddCallbackStays(s, w, v);
    case WriteBroken => WriteBrokenStays(s, w, v);
    case _ => ExecuteStays(s, w, step, v);
  }

  lemma ReadRecordStays(s: State, w: nat, v: Tid)
    requires CanRun(s, w, ReadRecord) && Worker(w) != v
    ensures Stays(s, DoReadRecord(s, w), v, false)
  {
    var t := s.pcs[Worker(w)].task;
    if t in s.records && s.records[t].Pending? {
    } else {
    }
  }

  lemma WriteRunningStays(s: State, w: nat, v: Tid)
    requires CanRun(s, w, WriteRunning) && Worker(w) != v
    ensures Stays(s, DoWriteRunning(s, w), v, false)
  {
  }

  lemma AddCallbackStays(s: State, w: nat, v: Tid)
    requires CanRun(s, w, AddCallback) && Worker(w) != v
    ensures Stays(s, DoAddCallback(s, w), v, false)
  {
  }

  lemma WriteBrokenStays(s: State, w: nat, v: Tid)
    requires CanRun(s, w, WriteBroken) && Worker(w) != v
    ensures Stays(s, DoWriteBroken(s, w), v, false)
  {
  }

  lemma ExecuteStays(s: State, w: nat, step: RunStep, v: Tid)
    requires CanRun(s, w, step) && Worker(w) != v && (step.Execute? || step.ExecuteRaises? || step.StartHookRaises?)
    ensures Stays(s, ApplyRun(s, w, step), v, false)
  {
  }

  lemma FinishStays(s: State, tid: Tid, step: FinishStep, v: Tid)
    requires CanFinish(s, tid, step) && tid != v
    ensures Stays(s, ApplyFinish(s, tid, step), v, step.NotifyDone?)
  {
  }

  lemma ExitStays(s: State, w: nat, step: ExitStep, v: Tid)
    requires CanExit(s, w, step) && Worker(w) != v
    ensures Stays(s, ApplyExit(s, w, step), v, false)
  {
    hide DoTakeThreadsLock;
    if step.TakeThreadsLock? { TakeThreadsLockStays(s, w, v); }
  }

  lemma TakeThreadsLockStays(s: State, w: nat, v: Tid)
    requires CanExit(s, w, TakeThreadsLock) && Worker(w) != v
    ensures Stays(s, DoTakeThreadsLock(s, w), v, false)
  {
    if s.stopFlag && s.threads <= {w} {
    } else {
    }
  }

  lemma SweepStays(s: State, tid: Tid, step: SweepStep, v: Tid)
    requires CanSweep(s, tid, step) && tid != v
    ensures Stays(s, ApplySweep(s, tid, step), v, step.NotifySwept?)
  {
    hide Stays, DoEnd, DoNotifySwept, DoFail;
    match step
    case End => EndStays(s, tid, v);
    case NotifySwept => SweptStays(s, tid, v);
    case Fail(t) => FailStays(s, tid, t, v);
    case _ => SweepOnStays(s, tid, step, v);
  }

  lemma SweepOnStays(s: State, tid: Tid, step: SweepStep, v: Tid)
    requires CanSweep(s, tid, step) && tid != v && !step.End? && !step.NotifySwept? && !step.Fail?
    ensures Stays(s, ApplySweep(s, tid, step), v, false)
  {
  }

  lemma FailStays(s: State, tid: Tid, t: TaskId, v: Tid)
    requires CanSweep(s, tid, SweepStep.Fail(t)) && tid != v
    ensures Stays(s, DoFail(s, tid, t), v, false)
  {
  }

  lemma AfterSweepStays(s: State, tid: Tid, v: Tid)
    requires tid in s.pcs && tid != v
    ensures Stays(s, AfterSweep(s, tid), v, false)
  {
    if tid.Worker? {
    } else {
    }
  }

  lemma EndStays(s: State, tid: Tid, v: Tid)
    requires CanSweep(s, tid, End) && tid != v
    ensures Stays(s, DoEnd(s, tid), v, false)
  {
    AfterSweepStays(s, tid, v);
    hide AfterSweep;
  }

  lemma SweptStays(s: State, tid: Tid, v: Tid)
    requires CanSweep(s, tid, NotifySwept) && tid != v
    ensures Stays(s, DoNotifySwept(s, tid), v, true)
  {
    AfterSweepStays(NotifyAll(s), tid, v);
    hide AfterSweep;
  }

  lemma QueryStays(s: State, d: nat, step: QueryStep, v: Tid)
    requires CanQuery(s, d, step) && Client(d) != v
    ensures Stays(s, ApplyQuery(s, d, step), v, false)
  {
    if step.Look? {
      LookStays(s, d, v);
    } else {
      WaitStays(s, d, step, v);
    }
  }

  lemma WaitStays(s: State, d: nat, step: QueryStep, v: Tid)
    requires CanQuery(s, d, step) && Client(d) != v && !step.Look?
    ensures Stays(s, ApplyQuery(s, d, step), v, false)
  {
  }

  lemma LookStays(s: State, d: nat, v: Tid)
    requires CanQuery(s, d, Look) && Client(d) != v
    ensures Stays(s, DoLook(s, d), v, false)
  {
    var t := s.pcs[Client(d)].task;
    if t !in s.records || Terminal(s.records[t]) {
    } else {
    }
  }

  lemma StopStays(s: State, d: nat, step: StopStep, v: Tid)
    requires CanStop(s, d, step) && Client(d) != v
    ensures Stays(s, ApplyStop(s, d, step), v, step.NotifyStop?)
  {
    if step.Joined? { JoinedStays(s, d, v); }
  }

  lemma JoinedStays(s: State, d: nat, v: Tid)
    requires CanStop(s, d, Joined) && Client(d) != v
    ensures Stays(s, DoJoined(s, d), v, false)
  {
    if s.threads == {} {
    } else {
    }
  }

  lemma ResolveStays(s: State, t: TaskId, ok: bool, v: Tid)
    requires CanResolve(s, t) && v != Callback(t)
    ensures Stays(s, ApplyResolve(s, t, ok), v, false)
  {
    if s.futures[t].Open? {
    } else {
    }
  }

  lemma ForgetStays(s: State, t: TaskId, v: Tid)
    requires CanForget(s, t)
    ensures Stays(s, ApplyForget(s, t), v, false)
  {
  }
}
