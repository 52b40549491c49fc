/** What the scheduler guarantees over every run, whatever the interleaving. */
module SchedulerTheorems {
  import opened Core
  import opened SchedulerMachine
  import opened SchedulerInvariant
  import opened SchedulerPreservation
  import opened SchedulerSlotsWake

  // ---------- the invariant holds in every reachable state ----------

  lemma SubmitKeeps(s: State, c: nat, step: SubmitStep)
    requires Inv(s) && CanSubmit(s, c, step) && Fresh(s, Submit(c, step))
    ensures Inv(ApplySubmit(s, c, step))
  {
    hide LocalInv, SlotInv, WakeInv, ApplySubmit, CanSubmit;
    match step
    case Call(t) =>
      CallLocal(s, c, t);
      CallSlots(s, c, t);
      CallWake(s, c, t);
    case Enter =>
      EnterLocal(s, c);
      EnterSlots(s, c, step);
      EnterWake(s, c, step);
    case TakeSlot =>
      if s.free > 0 {
        TakeSlotLocal(s, c);
      } else {
        NoSlotLocal(s, c);
      }
      TakeSlotSlots(s, c);
      TakeSlotWake(s, c);
    case AddId =>
      AddIdLocal(s, c);
      AddIdSlots(s, c, step);
      AddIdWake(s, c);
    case Store =>
      StoreLocal(s, c);
      StoreSlots(s, c, step);
      StoreWake(s, c, step);
    case StoreRaises =>
      StoreRaisesLocal(s, c);
      StoreSlots(s, c, step);
      StoreWake(s, c, step);
    case UndoId =>
      UndoIdLocal(s, c);
      UndoIdSlots(s, c);
      UndoIdWake(s, c);
    case UndoSlot =>
      UndoSlotLocal(s, c);
      UndoSlotSlots(s, c);
      UndoSlotWake(s, c);
    case Notify =>
      SubmitNotifyLocal(s, c);
      SubmitNotifySlots(s, c);
      SubmitNotifyWake(s, c);
  }

  lemma SubmitNotifySlots(s: State, c: nat)
    requires SlotInv(s) && CanSubmit(s, c, SubmitStep.Notify)
    ensures SlotInv(ApplySubmit(s, c, SubmitStep.Notify))
  {
    hide SlotInv;
    NotifySlots(s, ApplySubmit(s, c, SubmitStep.Notify), Client(c));
  }

  lemma LoopKeeps(s: State, w: nat, step: LoopStep)
    requires Inv(s) && CanLoop(s, w, step)
    ensures Inv(ApplyLoop(s, w, step))
  {
    hide LocalInv, SlotInv, WakeInv, ApplyLoop, CanLoop;
    LoopSlots(s, w, step);
    match step
    case TakeCondition =>
      TakeConditionLocal(s, w);
      LoopWake(s, w, step);
    case CheckStop =>
      CheckStopLocal(s, w);
      CheckStopWake(s, w);
    case Park =>
      ParkLocal(s, w);
      LoopWake(s, w, step);
    case Pull(t) =>
      PullLocal(s, w, t);
      PullWake(s, w, t);
    case PullNothing =>
      PullNothingLocal(s, w);
      PullNothingWake(s, w);
    case PullRaises =>
      PullRaisesLocal(s, w);
      PullRaisesWake(s, w);
    case Retry =>
      RetryLocal(s, w);
      RetryWake(s, w);
  }

  lemma RunKeeps(s: State, w: nat, step: RunStep)
    requires Inv(s) && CanRun(s, w, step)
    ensures Inv(ApplyRun(s, w, step))
  {
    match step
    case ReadRecord =>
      ReadRecordLocal(s, w);
      ReadRecordSlots(s, w);
      ReadRecordWake(s, w);
    case WriteRunning =>
      WriteRunningLocal(s, w);
      WriteRunningSlots(s, w);
      WriteRunningWake(s, w);
    case Execute(done) =>
      ExecuteLocal(s, w, done);
      ExecuteSlots(s, w, step);
      ExecuteWake(s, w, step);
    case ExecuteRaises =>
      ExecuteRaisesLocal(s, w);
      ExecuteSlots(s, w, step);
      ExecuteWake(s, w, step);
    case StartHookRaises =>
      StartHookLocal(s, w);
      ExecuteSlots(s, w, step);
      ExecuteWake(s, w, step);
    case AddCallback =>
      if s.futures[s.pcs[Worker(w)].task].Open? {
        AddCallbackLocal(s, w);
      } else {
        AddCallbackLateLocal(s, w);
      }
      EndRunSlots(s, w, step);
      AddCallbackWake(s, w, step);
    case WriteBroken =>
      WriteBrokenLocal(s, w);
      EndRunSlots(s, w, step);
      WriteBrokenWake(s, w, step);
  }

  lemma FinishKeeps(s: State, tid: Tid, step: FinishStep)
    requires Inv(s) && CanFinish(s, tid, step)
    ensures Inv(ApplyFinish(s, tid, step))
  {
    FinishSlots(s, tid, step);
    match step
    case WriteOutcome =>
      WriteOutcomeLocal(s, tid);
      FinishWake(s, tid, step);
    case RemoveId =>
      RemoveIdLocal(s, tid);
      FinishWake(s, tid, step);
    case ReleaseSlot =>
      ReleaseSlotLocal(s, tid);
      FinishWake(s, tid, step);
    case NotifyDone =>
      NotifyDoneLocal(s, tid);
      NotifyDoneWake(s, tid);
  }

  lemma ExitKeeps(s: State, w: nat, step: ExitStep)
    requires Inv(s) && CanExit(s, w, step)
    ensures Inv(ApplyExit(s, w, step))
  {
    ExitSlots(s, w, step);
    ExitWake(s, w, step);
    match step
    case TakeThreadsLock => TakeThreadsLockLocal(s, w);
    case LeaveThreads => LeaveLocal(s, w);
  }

  lemma SweepKeeps(s: State, tid: Tid, step: SweepStep)
    requires Inv(s) && CanSweep(s, tid, step)
    ensures Inv(ApplySweep(s, tid, step))
  {
    match step
    case TakeIds =>
      TakeIdsLocal(s, tid);
      SweepTakeSlots(s, tid, step);
      SweepTakeWake(s, tid, step);
    case TakeRecords =>
      TakeRecordsLocal(s, tid);
      SweepTakeSlots(s, tid, step);
      SweepTakeWake(s, tid, step);
    case Fail(t) =>
      FailLocal(s, tid, t);
      SweepTakeSlots(s, tid, step);
      SweepTakeWake(s, tid, step);
    case DropId =>
      if s.pcs[tid].task in s.outstanding {
        DropIdLocal(s, tid);
      } else {
        SkipSweptLocal(s, tid);
      }
      SweepDropSlots(s, tid, step);
      SweepDropWake(s, tid, step);
    case FreeSlot =>
      FreeSlotLocal(s, tid);
      SweepDropSlots(s, tid, step);
      SweepDropWake(s, tid, step);
    case End =>
      EndLocal(s, tid);
      SweepEndSlots(s, tid);
      SweepEndWake(s, tid);
    case NotifySwept =>
      NotifySweptLocal(s, tid);
      SweepNotifySlots(s, tid);
      NotifySweptWake(s, tid);
  }

  lemma QueryKeeps(s: State, c: nat, step: QueryStep)
    requires Inv(s) && CanQuery(s, c, step)
    ensures Inv(ApplyQuery(s, c, step))
  {
    match step
    case Ask(t, timed) =>
      QueryAskLocal(s, c, t, timed);
      QuerySlots(s, c, step);
      QueryWakeKept(s, c, step);
    case Take =>
      QueryTakeLocal(s, c);
      QuerySlots(s, c, step);
      QueryWakeKept(s, c, step);
    case Look =>
      QueryLookLocal(s, c);
      QuerySlots(s, c, step);
      LookWake(s, c);
    case Wait =>
      WaitLocal(s, c);
      QueryWaitSlots(s, c, step);
      QueryWaitWake(s, c, step);
    case WaitTimesOut =>
      WaitTimesOutLocal(s, c);
      QueryWaitSlots(s, c, step);
      QueryWaitWake(s, c, step);
    case GiveUp =>
      GiveUpLocal(s, c);
      QueryWaitSlots(s, c, step);
      QueryWaitWake(s, c, step);
  }

  lemma StopKeeps(s: State, c: nat, step: StopStep)
    requires Inv(s) && CanStop(s, c, step)
    ensures Inv(ApplyStop(s, c, step))
  {
    StopSlots(s, c, step);
    match step
    case Begin =>
      StopBeginLocal(s, c);
      StopWakeKept(s, c, step);
    case Closed =>
      ClosedLocal(s, c);
      StopWakeKept(s, c, step);
    case CloseRaises =>
      CloseRaisesLocal(s, c);
      CloseRaisesWake(s, c);
    case NotifyStop =>
      StopNotifyLocal(s, c);
      StopNotifyWake(s, c);
    case Joined =>
      JoinedLocal(s, c);
      StopWakeKept(s, c, step);
  }

  lemma StepKeeps(s: State, e: Event)
    requires Inv(s) && Enabled(s, e) && Fresh(s, e)
    ensures Inv(Apply(s, e))
  {
    match e
    case Submit(c, step) => SubmitKeeps(s, c, step);
    case Loop(w, step) => LoopKeeps(s, w, step);
    case RunTask(w, step) => RunKeeps(s, w, step);
    case Finish(tid, step) => FinishKeeps(s, tid, step);
    case Exit(w, step) => ExitKeeps(s, w, step);
    case Sweep(tid, step) => SweepKeeps(s, tid, step);
    case Query(c, step) => QueryKeeps(s, c, step);
    case Stop(c, step) => StopKeeps(s, c, step);
    case Resolve(t, ok) =>
      if s.futures[t].Open? {
        ResolveOpenLocal(s, t, ok);
      } else {
        ResolveArmedLocal(s, t, ok);
      }
      ResolveSlots(s, t, ok);
      ResolveWake(s, t, ok);
    case Forget(t) =>
      ForgetLocal(s, t);
      ForgetWake(s, t);
      assert TransitThreads(ApplyForget(s, t)) == TransitThreads(s);
  }

  lemma InitInv(s: State)
    requires Init(s)
    ensures Inv(s)
  {
    assert TransitThreads(s) == {};
    forall t ensures TaskInv(s, t) {}
  }

  lemma {:induction false} RunInv(states: seq<State>, events: seq<Event>, i: nat)
    requires Run(states, events) && i < |states|
    ensures Inv(states[i])
  {
    hide Inv, Enabled, Fresh, Init;
    if i == 0 {
      InitInv(states[0]);
    } else {
      RunInv(states, events, i - 1);
      assert Step(states[i - 1], events[i - 1], states[i - 1 + 1]);
      StepKeeps(states[i - 1], events[i - 1]);
    }
  }
}
