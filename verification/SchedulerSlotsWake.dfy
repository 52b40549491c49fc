/** Every step keeps the slot count and the wake-up protocol; together with the local part,
    the whole invariant. */
module SchedulerSlotsWake {
  import opened Core
  import opened SchedulerMachine
  import opened SchedulerInvariant
  import opened SchedulerPreservation

  ghost predicate SamePcs(s: State, s': State, actor: Tid) {
    forall tid :: tid != actor ==>
      (tid in s'.pcs <==> tid in s.pcs) && (tid in s.pcs ==> s'.pcs[tid] == s.pcs[tid])
  }

  predicate TransitAt(s: State, tid: Tid) {
    tid in s.pcs && InTransit(s.pcs[tid])
  }

  // ---------- slots ----------

  lemma WithoutOne(threads: set<Tid>, tid: Tid)
    ensures |threads - {tid}| == |threads| - (if tid in threads then 1 else 0)
  {
  }

  lemma OthersTransit(s: State, s': State, actor: Tid)
    requires SamePcs(s, s', actor)
    ensures TransitThreads(s') - {actor} == TransitThreads(s) - {actor}
    ensures actor in TransitThreads(s) <==> TransitAt(s, actor)
    ensures actor in TransitThreads(s') <==> TransitAt(s', actor)
  {
    hide InTransit;
  }

  lemma CountMove(s: State, s': State, actor: Tid)
    requires SamePcs(s, s', actor)
    ensures |TransitThreads(s')| - (if TransitAt(s', actor) then 1 else 0)
         == |TransitThreads(s)| - (if TransitAt(s, actor) then 1 else 0)
  {
    OthersTransit(s, s', actor);
    hide TransitThreads, TransitAt, SamePcs;
    WithoutOne(TransitThreads(s), actor);
    WithoutOne(TransitThreads(s'), actor);
  }

  /** A step outside the four that move a slot. */
  lemma SlotsStill(s: State, s': State, actor: Tid)
    requires SlotInv(s) && SamePcs(s, s', actor) && !TransitAt(s, actor) && !TransitAt(s', actor)
    requires s'.free == s.free && s'.outstanding == s.outstanding && s'.slots == s.slots
    ensures SlotInv(s')
  {
    CountMove(s, s', actor);
  }

  lemma CountNotify(s: State)
    ensures TransitThreads(NotifyAll(s)) == TransitThreads(s)
  {
  }

  lemma EnterSlots(s: State, c: nat, step: SubmitStep)
    requires SlotInv(s) && CanSubmit(s, c, step) && step.Enter?
    ensures SlotInv(ApplySubmit(s, c, step))
  {
    hide SlotInv;
    if !s.accepting || s.pcs[Client(c)].task in s.records {
      SlotsStill(s, DoEnter(s, c), Client(c));
    } else {
      SlotsStill(s, DoEnter(s, c), Client(c));
    }
  }

  lemma GrantSlots(s: State, c: nat)
    requires SlotInv(s) && Client(c) in s.pcs && s.pcs[Client(c)].SubmitAcquire? && s.free > 0
    ensures SlotInv(DoTakeSlot(s, c))
  {
    hide TransitThreads;
    CountMove(s, DoTakeSlot(s, c), Client(c));
  }

  lemma RefuseSlots(s: State, c: nat)
    requires SlotInv(s) && Client(c) in s.pcs && s.pcs[Client(c)].SubmitAcquire? && s.free <= 0
    ensures SlotInv(DoTakeSlot(s, c))
  {
    hide SlotInv;
    SlotsStill(s, DoTakeSlot(s, c), Client(c));
  }

  lemma TakeSlotSlots(s: State, c: nat)
    requires SlotInv(s) && CanSubmit(s, c, TakeSlot)
    ensures SlotInv(ApplySubmit(s, c, TakeSlot))
  {
    hide SlotInv, DoTakeSlot;
    if s.free > 0 {
      GrantSlots(s, c);
    } else {
      RefuseSlots(s, c);
    }
  }

  lemma AddIdSlots(s: State, c: nat, step: SubmitStep)
    requires LocalInv(s) && SlotInv(s) && CanSubmit(s, c, step) && step.AddId?
    ensures SlotInv(ApplySubmit(s, c, step))
  {
    NotRecorded(s, c);
    hide LocalInv, TransitThreads;
    CountMove(s, DoAddId(s, c), Client(c));
  }

  lemma NotRecorded(s: State, c: nat)
    requires LocalInv(s) && CanSubmit(s, c, AddId)
    ensures s.pcs[Client(c)].task !in s.outstanding
  {
    assert CarryInv(s, Client(c)) && TaskInv(s, s.pcs[Client(c)].task);
  }

  lemma UndoIdSlots(s: State, c: nat)
    requires LocalInv(s) && SlotInv(s) && CanSubmit(s, c, UndoId)
    ensures SlotInv(ApplySubmit(s, c, UndoId))
  {
    UndoShape(s, c);
    hide LocalInv, TransitThreads, ApplySubmit;
    var t0 := s.pcs[Client(c)].task;
    CountMove(s, Retire(s, Client(c), t0, SubmitUndoRelease(t0)), Client(c));
  }

  lemma UndoSlotSlots(s: State, c: nat)
    requires SlotInv(s) && CanSubmit(s, c, UndoSlot)
    ensures SlotInv(ApplySubmit(s, c, UndoSlot))
  {
    hide TransitThreads;
    CountMove(s, ApplySubmit(s, c, UndoSlot), Client(c));
  }

  lemma StoreSlots(s: State, c: nat, step: SubmitStep)
    requires SlotInv(s) && CanSubmit(s, c, step) && (step.Store? || step.StoreRaises?)
    ensures SlotInv(ApplySubmit(s, c, step))
  {
    hide SlotInv;
    SlotsStill(s, ApplySubmit(s, c, step), Client(c));
  }

  lemma StartSlots(s: State)
    requires LocalInv(s) && SlotInv(s)
    ensures SlotInv(Start(s))
  {
    forall i | i in s.workers && s.threads == {} ensures Worker(i) !in s.pcs { assert ThreadInv(s, Worker(i)); }
    assert TransitThreads(Start(s)) == TransitThreads(s);
  }

  lemma CalledSlots(n: State, c: nat, t: TaskId)
    requires SlotInv(n) && Client(c) !in n.pcs
    ensures SlotInv(n.(called := n.called + {t}).Put(t, Submitting(c)).Goto(Client(c), SubmitLock(t)))
  {
    hide SlotInv;
    SlotsStill(n, n.(called := n.called + {t}).Put(t, Submitting(c)).Goto(Client(c), SubmitLock(t)), Client(c));
  }

  lemma CallSlots(s: State, c: nat, t: TaskId)
    requires LocalInv(s) && SlotInv(s) && CanSubmit(s, c, Call(t))
    ensures SlotInv(ApplySubmit(s, c, Call(t)))
  {
    StartSlots(s);
    hide LocalInv, SlotInv;
    if !s.closed { CalledSlots(Start(s), c, t); }
  }

  lemma NotifySlots(s: State, s': State, actor: Tid)
    requires SlotInv(s) && SamePcs(NotifyAll(s), s', actor)
    requires s'.free == s.free && s'.outstanding == s.outstanding && s'.slots == s.slots
    requires !TransitAt(s, actor) && !TransitAt(s', actor)
    ensures SlotInv(s')
  {
    hide TransitThreads;
    CountNotify(s);
    assert TransitAt(NotifyAll(s), actor) == TransitAt(s, actor);
    CountMove(NotifyAll(s), s', actor);
  }

  lemma LoopSlots(s: State, w: nat, step: LoopStep)
    requires SlotInv(s) && CanLoop(s, w, step)
    ensures SlotInv(ApplyLoop(s, w, step))
  {
    hide SlotInv;
    if step.CheckStop? || step.Retry? {
      TestStopSlots(s, w, step);
    } else {
      SlotsStill(s, ApplyLoop(s, w, step), Worker(w));
    }
  }

  lemma TestStopSlots(s: State, w: nat, step: LoopStep)
    requires SlotInv(s) && CanLoop(s, w, step) && (step.CheckStop? || step.Retry?)
    ensures SlotInv(ApplyLoop(s, w, step))
  {
    hide SlotInv;
    SlotsStill(s, ApplyLoop(s, w, step), Worker(w));
  }

  /** A thread that stays where it is and leaves the semaphore and the ids alone. */
  lemma StaySlots(s: State, s': State, actor: Tid)
    requires SlotInv(s) && SameControl(s, s', actor) && !TransitAt(s, actor) && !TransitAt(s', actor)
    requires s'.free == s.free && s'.outstanding == s.outstanding
    ensures SlotInv(s')
  {
    hide SlotInv;
    SlotsStill(s, s', actor);
  }

  lemma ReadRecordSlots(s: State, w: nat)
    requires SlotInv(s) && CanRun(s, w, ReadRecord)
    ensures SlotInv(ApplyRun(s, w, ReadRecord))
  {
    hide SlotInv;
    var t := s.pcs[Worker(w)].task;
    if t in s.records && s.records[t].Pending? {
      SlotsStill(s, s.Goto(Worker(w), SawPending(t)), Worker(w));
    } else {
      SlotsStill(s, s.Put(t, Finished).Goto(Worker(w), LoopTop), Worker(w));
    }
  }

  lemma WriteRunningSlots(s: State, w: nat)
    requires SlotInv(s) && CanRun(s, w, WriteRunning)
    ensures SlotInv(ApplyRun(s, w, WriteRunning))
  {
    hide SlotInv;
    if s.pcs[Worker(w)].task in s.records {
      SlotsStill(s, DoWriteRunning(s, w), Worker(w));
    } else {
      SlotsStill(s, DoWriteRunning(s, w), Worker(w));
    }
  }

  lemma ExecuteSlots(s: State, w: nat, step: RunStep)
    requires SlotInv(s) && CanRun(s, w, step) && (step.Execute? || step.ExecuteRaises? || step.StartHookRaises?)
    ensures SlotInv(ApplyRun(s, w, step))
  {
    hide SlotInv;
    StaySlots(s, ApplyRun(s, w, step), Worker(w));
  }

  lemma EndRunSlots(s: State, w: nat, step: RunStep)
    requires SlotInv(s) && CanRun(s, w, step) && (step.AddCallback? || step.WriteBroken?)
    ensures SlotInv(ApplyRun(s, w, step))
  {
    hide SlotInv, DoAddCallback, DoWriteBroken;
    match step
    case AddCallback => AddCallbackSlots(s, w);
    case WriteBroken => WriteBrokenSlots(s, w);
    case _ =>
  }

  lemma AddCallbackSlots(s: State, w: nat)
    requires SlotInv(s) && CanRun(s, w, AddCallback)
    ensures SlotInv(DoAddCallback(s, w))
  {
    hide SlotInv;
    if s.futures[s.pcs[Worker(w)].task].Resolved? {
      SlotsStill(s, DoAddCallback(s, w), Worker(w));
    } else {
      SlotsStill(s, DoAddCallback(s, w), Worker(w));
    }
  }

  lemma WriteBrokenSlots(s: State, w: nat)
    requires SlotInv(s) && CanRun(s, w, WriteBroken)
    ensures SlotInv(DoWriteBroken(s, w))
  {
    hide SlotInv;
    if s.pcs[Worker(w)].task in s.records {
      SlotsStill(s, DoWriteBroken(s, w), Worker(w));
    } else {
      SlotsStill(s, DoWriteBroken(s, w), Worker(w));
    }
  }

  lemma ResolveSlots(s: State, t: TaskId, ok: bool)
    requires SlotInv(s) && CanResolve(s, t)
    ensures SlotInv(ApplyResolve(s, t, ok))
  {
    hide SlotInv;
    if s.futures[t].Open? {
      SameTransit(s, ApplyResolve(s, t, ok));
    } else {
      SlotsStill(s, ApplyResolve(s, t, ok), Callback(t));
    }
  }

  lemma SameTransit(s: State, s': State)
    requires SlotInv(s) && s'.pcs == s.pcs
    requires s'.free == s.free && s'.outstanding == s.outstanding && s'.slots == s.slots
    ensures SlotInv(s')
  {
    assert TransitThreads(s') == TransitThreads(s);
  }

  lemma FinishSlots(s: State, tid: Tid, step: FinishStep)
    requires SlotInv(s) && CanFinish(s, tid, step)
    ensures SlotInv(ApplyFinish(s, tid, step))
  {
    hide TransitThreads, SlotInv;
    match step
    case NotifyDone => NotifySlots(s, DoNotifyDone(s, tid), tid);
    case RemoveId => RemoveIdSlots(s, tid);
    case ReleaseSlot => ReleaseSlots(s, tid);
    case WriteOutcome => SlotsStill(s, DoWriteOutcome(s, tid), tid);
  }

  lemma RemoveIdSlots(s: State, tid: Tid)
    requires SlotInv(s) && CanFinish(s, tid, RemoveId)
    ensures SlotInv(DoRemoveId(s, tid))
  {
    hide TransitThreads;
    CountMove(s, DoRemoveId(s, tid), tid);
  }

  lemma ReleaseSlots(s: State, tid: Tid)
    requires SlotInv(s) && CanFinish(s, tid, ReleaseSlot)
    ensures SlotInv(DoReleaseSlot(s, tid))
  {
    hide TransitThreads;
    CountMove(s, DoReleaseSlot(s, tid), tid);
  }

  lemma ExitSlots(s: State, w: nat, step: ExitStep)
    requires SlotInv(s) && CanExit(s, w, step)
    ensures SlotInv(ApplyExit(s, w, step))
  {
    hide SlotInv, DoTakeThreadsLock;
    match step
    case TakeThreadsLock => TakeThreadsLockSlots(s, w);
    case LeaveThreads => SlotsStill(s, DoLeaveThreads(s, w), Worker(w));
  }

  lemma TakeThreadsLockSlots(s: State, w: nat)
    requires SlotInv(s) && CanExit(s, w, TakeThreadsLock)
    ensures SlotInv(DoTakeThreadsLock(s, w))
  {
    hide SlotInv;
    if s.stopFlag && s.threads <= {w} {
      SlotsStill(s, DoTakeThreadsLock(s, w), Worker(w));
    } else {
      SlotsStill(s, DoTakeThreadsLock(s, w), Worker(w));
    }
  }

  lemma SweepTakeSlots(s: State, tid: Tid, step: SweepStep)
    requires SlotInv(s) && CanSweep(s, tid, step) && (step.TakeIds? || step.TakeRecords? || step.Fail?)
    ensures SlotInv(ApplySweep(s, tid, step))
  {
    hide SlotInv, DoFail;
    match step
    case Fail(t) => FailSlots(s, tid, t);
    case _ => TakeSweepSlots(s, tid, step);
  }

  lemma TakeSweepSlots(s: State, tid: Tid, step: SweepStep)
    requires SlotInv(s) && CanSweep(s, tid, step) && (step.TakeIds? || step.TakeRecords?)
    ensures SlotInv(ApplySweep(s, tid, step))
  {
    hide SlotInv;
    SlotsStill(s, ApplySweep(s, tid, step), tid);
  }

  lemma FailSlots(s: State, tid: Tid, t: TaskId)
    requires SlotInv(s) && CanSweep(s, tid, SweepStep.Fail(t))
    ensures SlotInv(DoFail(s, tid, t))
  {
    hide SlotInv;
    SlotsStill(s, DoFail(s, tid, t), tid);
  }

  lemma SweepDropSlots(s: State, tid: Tid, step: SweepStep)
    requires SlotInv(s) && CanSweep(s, tid, step) && (step.DropId? || step.FreeSlot?)
    ensures SlotInv(ApplySweep(s, tid, step))
  {
    hide TransitThreads;
    CountMove(s, ApplySweep(s, tid, step), tid);
  }

  lemma SweepEndSlots(s: State, tid: Tid)
    requires SlotInv(s) && CanSweep(s, tid, End)
    ensures SlotInv(ApplySweep(s, tid, End))
  {
    hide SlotInv;
    if s.pcs[tid].any {
      SlotsStill(s, DoEnd(s, tid), tid);
    } else {
      SlotsStill(s, DoEnd(s, tid), tid);
    }
  }

  lemma SweepNotifySlots(s: State, tid: Tid)
    requires SlotInv(s) && CanSweep(s, tid, NotifySwept)
    ensures SlotInv(ApplySweep(s, tid, NotifySwept))
  {
    hide SlotInv;
    NotifySlots(s, ApplySweep(s, tid, NotifySwept), tid);
  }

  lemma QuerySlots(s: State, c: nat, step: QueryStep)
    requires SlotInv(s) && CanQuery(s, c, step) && (step.Ask? || step.Take? || step.Look?)
    ensures SlotInv(ApplyQuery(s, c, step))
  {
    hide SlotInv, DoLook;
    match step
    case Look => LookSlots(s, c);
    case _ => AskSlots(s, c, step);
  }

  lemma AskSlots(s: State, c: nat, step: QueryStep)
    requires SlotInv(s) && CanQuery(s, c, step) && (step.Ask? || step.Take?)
    ensures SlotInv(ApplyQuery(s, c, step))
  {
    hide SlotInv;
    SlotsStill(s, ApplyQuery(s, c, step), Client(c));
  }

  lemma LookSlots(s: State, c: nat)
    requires SlotInv(s) && CanQuery(s, c, Look)
    ensures SlotInv(DoLook(s, c))
  {
    hide SlotInv;
    var t := s.pcs[Client(c)].task;
    if t !in s.records || Terminal(s.records[t]) {
      SlotsStill(s, DoLook(s, c), Client(c));
    } else {
      SlotsStill(s, s.Goto(Client(c), QueryHold(t, s.pcs[Client(c)].timed)), Client(c));
    }
  }

  lemma QueryWaitSlots(s: State, c: nat, step: QueryStep)
    requires SlotInv(s) && CanQuery(s, c, step) && (step.Wait? || step.WaitTimesOut? || step.GiveUp?)
    ensures SlotInv(ApplyQuery(s, c, step))
  {
    hide SlotInv;
    SlotsStill(s, ApplyQuery(s, c, step), Client(c));
  }

  lemma StopSlots(s: State, c: nat, step: StopStep)
    requires SlotInv(s) && CanStop(s, c, step)
    ensures SlotInv(ApplyStop(s, c, step))
  {
    hide SlotInv, ApplyStop;
    if step.NotifyStop? {
      StopNotifySlots(s, c);
    } else {
      StopMoveSlots(s, c, step);
    }
  }

  lemma StopMoveSlots(s: State, c: nat, step: StopStep)
    requires SlotInv(s) && CanStop(s, c, step) && !step.NotifyStop?
    ensures SlotInv(ApplyStop(s, c, step))
  {
    hide SlotInv;
    if step.Begin? {
      SlotsStill(s, DoBegin(s, c), Client(c));
    } else if step.Closed? {
      SlotsStill(s, DoClosed(s, c), Client(c));
    } else if step.CloseRaises? {
      CloseRaisesSlots(s, c);
    } else {
      JoinedSlots(s, c);
    }
  }

  lemma CloseRaisesSlots(s: State, c: nat)
    requires SlotInv(s) && s.At(Client(c), StopClose) && !s.strategyClosed
    ensures SlotInv(DoCloseRaises(s, c))
  {
    hide SlotInv;
    SlotsStill(s, DoCloseRaises(s, c), Client(c));
  }

  lemma JoinedSlots(s: State, c: nat)
    requires SlotInv(s) && s.At(Client(c), StopJoin) && s.threadsLock.None?
    ensures SlotInv(DoJoined(s, c))
  {
    hide SlotInv;
    if s.threads == {} {
      SlotsStill(s, DoJoined(s, c), Client(c));
    } else {
      SlotsStill(s, DoJoined(s, c), Client(c));
    }
  }

  lemma StopNotifySlots(s: State, c: nat)
    requires SlotInv(s) && CanStop(s, c, NotifyStop)
    ensures SlotInv(ApplyStop(s, c, NotifyStop))
  {
    hide SlotInv;
    NotifySlots(s, ApplyStop(s, c, NotifyStop), Client(c));
  }

  // ---------- wake-ups ----------

  predicate NotifyAt(s: State, tid: Tid) {
    tid in s.pcs && WillNotify(s.pcs[tid])
  }

  predicate Live(s: State, t: TaskId) {
    t in s.records && !Terminal(s.records[t])
  }

  predicate AwakeAt(s: State, tid: Tid) {
    tid.Worker? && tid in s.pcs && tid.index in s.threads && Awake(s.pcs[tid])
  }

  predicate SleepyAt(s: State, tid: Tid) {
    tid.Worker? && tid in s.pcs && AboutToSleep(s.pcs[tid])
  }

  predicate NapAt(s: State, tid: Tid) {
    tid.Worker? && tid in s.pcs && FoundNothing(s.pcs[tid])
  }

  /** A step of one thread keeps the protocol when the thread does not drop a notification it
      owes, and owes one whenever it creates a reason to wake somebody. */
  lemma WakeMove(s: State, s': State, actor: Tid)
    requires WakeInv(s) && SamePcs(s, s', actor)
    requires NotifyAt(s, actor) ==> NotifyAt(s', actor)
    requires s'.threads == s.threads || s'.stopFlag
    requires s'.heap <= s.heap || NotifyAt(s', actor)
    requires AwakeAt(s, actor) ==> AwakeAt(s', actor) || s'.heap == {} || s'.stopFlag || NotifyAt(s', actor)
    requires s.stopFlag ==> s'.stopFlag
    requires s'.stopFlag && s'.strategyClosed ==> (s.stopFlag && s.strategyClosed) || NotifyAt(s', actor)
    requires SleepyAt(s', actor) ==> SleepyAt(s, actor) || !s'.stopFlag
    requires NapAt(s', actor) ==> NapAt(s, actor) || s'.heap == {}
    requires forall t :: Live(s, t) ==> Live(s', t) || NotifyAt(s', actor)
    requires actor in s'.pcs && s'.pcs[actor].QueryHold? ==> Live(s', s'.pcs[actor].task)
    requires actor in s'.pcs && s'.pcs[actor].QueryParked? ==>
               actor in s.pcs && s.pcs[actor].QueryHold? && s.pcs[actor].task == s'.pcs[actor].task
    ensures WakeInv(s')
  {
    hide Terminal, Awake, AboutToSleep, FoundNothing, WillNotify;
    if NotifyAt(s', actor) {
      assert NotifyComing(s');
    } else {
      if NotifyComing(s) {
        var n :| n in s.pcs && WillNotify(s.pcs[n]);
        assert n != actor;
        assert n in s'.pcs;
      }
      forall tid | tid in s'.pcs && (s'.pcs[tid].QueryParked? || s'.pcs[tid].QueryHold?)
        ensures Live(s', s'.pcs[tid].task) || NotifyComing(s')
      {
        if tid != actor { assert tid in s.pcs; }
      }
      if s'.heap != {} && !s'.stopFlag && s'.threads != {} && !NotifyComing(s') {
        var i :| i in s.threads && Worker(i) in s.pcs && Awake(s.pcs[Worker(i)]);
        assert AwakeAt(s, Worker(i));
        assert Worker(i) in s'.pcs;
      }
      if s'.heap != {} && !NotifyComing(s') {
        forall i ensures !NapAt(s', Worker(i)) {
          assert NapAt(s', Worker(i)) ==> NapAt(s, Worker(i));
        }
      }
      if s'.stopFlag && s'.strategyClosed && !NotifyComing(s') {
        forall i | Worker(i) in s'.pcs ensures !AboutToSleep(s'.pcs[Worker(i)]) {
          if Worker(i) != actor {
            assert Worker(i) in s.pcs;
          } else {
            assert SleepyAt(s', actor) ==> SleepyAt(s, actor);
          }
        }
      }
    }
  }

  lemma StayAwake(s: State, s': State, actor: Tid)
    requires ThreadInv(s, actor) && SameControl(s, s', actor)
    ensures SamePcs(s, s', actor)
    ensures AwakeAt(s, actor) ==> AwakeAt(s', actor)
    ensures !SleepyAt(s', actor) && !NapAt(s', actor) && !s'.pcs[actor].QueryHold? && !s'.pcs[actor].QueryParked?
  {
  }

  /** A thread that goes on running a task, or submitting one, and owes a notification whenever
      it added to the heap or finished a task. */
  lemma WakeStay(s: State, s': State, actor: Tid)
    requires LocalInv(s) && WakeInv(s) && SameControl(s, s', actor)
    requires WillNotify(s.pcs[actor]) ==> WillNotify(s'.pcs[actor])
    requires s'.heap <= s.heap || WillNotify(s'.pcs[actor])
    requires forall t :: Live(s, t) ==> Live(s', t) || WillNotify(s'.pcs[actor])
    ensures WakeInv(s')
  {
    assert ThreadInv(s, actor);
    StayAwake(s, s', actor);
    assert NotifyAt(s', actor) == WillNotify(s'.pcs[actor]) && NotifyAt(s, actor) == WillNotify(s.pcs[actor]);
    hide LocalInv, WakeInv, SameControl, Stays, AwakeAt, SleepyAt, NapAt, Live, WillNotify, NotifyAt;
    WakeMove(s, s', actor);
  }

  /** After notify_all nobody sleeps, and nobody was on the way to sleep because the condition
      lock was free. */
  lemma WakeNotify(s: State, s': State, actor: Tid)
    requires LocalInv(s) && s.condLock.None? && SamePcs(NotifyAll(s), s', actor)
    requires s'.threads == s.threads && s'.stopFlag == s.stopFlag && s.closed == s.stopFlag
    requires actor in s'.pcs ==>
      !s'.pcs[actor].QueryParked? && !s'.pcs[actor].QueryHold? && !SleepyAt(s', actor)
    requires actor.Worker? && actor.index in s'.threads && !s'.stopFlag ==> AwakeAt(s', actor)
    ensures WakeInv(s')
  {
    forall tid | tid in s'.pcs && tid != actor
      ensures !s'.pcs[tid].QueryParked? && !s'.pcs[tid].QueryHold? && !SleepyAt(s', tid)
      ensures tid.Worker? && !s'.stopFlag ==> AwakeAt(s', tid)
    {
      assert tid in NotifyAll(s).pcs;
      assert ThreadInv(s, tid);
    }
    if s'.threads != {} && !s'.stopFlag {
      var i :| i in s'.threads;
      assert ThreadInv(s, Worker(i));
      assert Worker(i) in NotifyAll(s).pcs;
      assert AwakeAt(s', Worker(i));
    }
  }

  lemma EnterWake(s: State, c: nat, step: SubmitStep)
    requires LocalInv(s) && WakeInv(s) && CanSubmit(s, c, step) && step.Enter?
    ensures WakeInv(ApplySubmit(s, c, step))
  {
    var tid := Client(c);
    assert ThreadInv(s, tid) && CarryInv(s, tid) && TaskInv(s, s.pcs[tid].task);
    hide LocalInv, WakeInv;
    WakeMove(s, ApplySubmit(s, c, step), tid);
  }

  lemma TakeSlotWake(s: State, c: nat)
    requires LocalInv(s) && WakeInv(s) && CanSubmit(s, c, TakeSlot)
    ensures WakeInv(ApplySubmit(s, c, TakeSlot))
  {
    assert ThreadInv(s, Client(c));
    hide LocalInv, WakeInv;
    if s.free > 0 {
      WakeStay(s, DoTakeSlot(s, c), Client(c));
    } else {
      WakeMove(s, DoTakeSlot(s, c), Client(c));
    }
  }

  lemma AddIdWake(s: State, c: nat)
    requires LocalInv(s) && WakeInv(s) && CanSubmit(s, c, AddId)
    ensures WakeInv(ApplySubmit(s, c, AddId))
  {
    hide LocalInv, WakeInv;
    WakeStay(s, DoAddId(s, c), Client(c));
  }

  lemma StoreWake(s: State, c: nat, step: SubmitStep)
    requires LocalInv(s) && WakeInv(s) && CanSubmit(s, c, step) && (step.Store? || step.StoreRaises?)
    ensures WakeInv(ApplySubmit(s, c, step))
  {
    var tid := Client(c);
    assert ThreadInv(s, tid) && CarryInv(s, tid) && TaskInv(s, s.pcs[tid].task);
    hide LocalInv, WakeInv;
    WakeStay(s, ApplySubmit(s, c, step), tid);
  }

  lemma UndoIdWake(s: State, c: nat)
    requires LocalInv(s) && WakeInv(s) && CanSubmit(s, c, UndoId)
    ensures WakeInv(ApplySubmit(s, c, UndoId))
  {
    UndoShape(s, c);
    hide LocalInv, WakeInv, ApplySubmit;
    WakeStay(s, Retire(s, Client(c), s.pcs[Client(c)].task, SubmitUndoRelease(s.pcs[Client(c)].task)), Client(c));
  }

  lemma UndoSlotWake(s: State, c: nat)
    requires LocalInv(s) && WakeInv(s) && CanSubmit(s, c, UndoSlot)
    ensures WakeInv(ApplySubmit(s, c, UndoSlot))
  {
    assert ThreadInv(s, Client(c));
    hide LocalInv, WakeInv;
    WakeMove(s, DoUndoSlot(s, c), Client(c));
  }

  lemma CallWake(s: State, c: nat, t: TaskId)
    requires LocalInv(s) && WakeInv(s) && CanSubmit(s, c, Call(t))
    ensures WakeInv(ApplySubmit(s, c, Call(t)))
  {
    if !s.closed { StartWake(s); }
    hide LocalInv, WakeInv, Start;
    if !s.closed { CalledWake(Start(s), c, t); }
  }

  lemma CalledWake(n: State, c: nat, t: TaskId)
    requires WakeInv(n) && Client(c) !in n.pcs
    ensures WakeInv(n.(called := n.called + {t}).Put(t, Submitting(c)).Goto(Client(c), SubmitLock(t)))
  {
    hide WakeInv;
    WakeMove(n, n.(called := n.called + {t}).Put(t, Submitting(c)).Goto(Client(c), SubmitLock(t)), Client(c));
  }

  lemma StartWake(s: State)
    requires LocalInv(s) && WakeInv(s) && !s.closed
    ensures WakeInv(Start(s))
    ensures forall c: nat :: Client(c) in Start(s).pcs <==> Client(c) in s.pcs
  {
    if s.threads == {} {
      var s' := Start(s);
      forall tid | tid in s.pcs ensures tid in s'.pcs && s'.pcs[tid] == s.pcs[tid] { assert ThreadInv(s, tid); }
      if NotifyComing(s) {
        var n :| n in s.pcs && WillNotify(s.pcs[n]);
        assert n in s'.pcs && WillNotify(s'.pcs[n]);
      }
      var i :| i in s.workers;
      assert AwakeAt(s', Worker(i));
    }
  }

  lemma SubmitNotifyWake(s: State, c: nat)
    requires LocalInv(s) && CanSubmit(s, c, SubmitStep.Notify)
    ensures WakeInv(ApplySubmit(s, c, SubmitStep.Notify))
  {
    var tid := Client(c);
    assert ThreadInv(s, tid);
    WakeNotify(s, ApplySubmit(s, c, SubmitStep.Notify), tid);
  }

  lemma CheckStopWake(s: State, w: nat)
    requires LocalInv(s) && WakeInv(s) && CanLoop(s, w, CheckStop)
    ensures WakeInv(ApplyLoop(s, w, CheckStop))
  {
    assert ThreadInv(s, Worker(w));
    hide LocalInv, WakeInv, DoCheckStop, ThreadInv;
    if s.stopFlag {
      StopSeenWake(s, w);
    } else {
      GoesOnWake(s, w);
    }
  }

  lemma StopSeenWake(s: State, w: nat)
    requires ThreadInv(s, Worker(w)) && WakeInv(s) && s.At(Worker(w), Checking) && s.stopFlag
    ensures WakeInv(DoCheckStop(s, w))
  {
    hide WakeInv;
    WakeMove(s, s.(condLock := None).Goto(Worker(w), ExitLock), Worker(w));
  }

  lemma GoesOnWake(s: State, w: nat)
    requires ThreadInv(s, Worker(w)) && WakeInv(s) && s.At(Worker(w), Checking) && !s.stopFlag
    ensures WakeInv(DoCheckStop(s, w))
  {
    hide WakeInv;
    WakeMove(s, s.Goto(Worker(w), Pulling), Worker(w));
  }

  lemma LoopWake(s: State, w: nat, step: LoopStep)
    requires LocalInv(s) && WakeInv(s) && CanLoop(s, w, step) && (step.TakeCondition? || step.Park?)
    ensures WakeInv(ApplyLoop(s, w, step))
  {
    assert ThreadInv(s, Worker(w));
    hide LocalInv, WakeInv, ThreadInv, DoTakeCondition, DoPark;
    match step
    case TakeCondition => TakeConditionWake(s, w);
    case Park => ParkWake(s, w);
    case _ =>
  }

  lemma TakeConditionWake(s: State, w: nat)
    requires ThreadInv(s, Worker(w)) && WakeInv(s) && CanLoop(s, w, TakeCondition)
    ensures WakeInv(DoTakeCondition(s, w))
  {
    hide WakeInv;
    WakeMove(s, DoTakeCondition(s, w), Worker(w));
  }

  lemma ParkWake(s: State, w: nat)
    requires ThreadInv(s, Worker(w)) && WakeInv(s) && CanLoop(s, w, Park)
    ensures WakeInv(DoPark(s, w))
  {
    hide WakeInv;
    WakeMove(s, DoPark(s, w), Worker(w));
  }

  lemma PullFacts(s: State, w: nat, t: TaskId)
    requires ThreadInv(s, Worker(w)) && s.At(Worker(w), Pulling) && t in s.heap
    ensures var s', tid := DoPull(s, w, t), Worker(w);
      && SamePcs(s, s', tid) && !NotifyAt(s, tid) && AwakeAt(s', tid) && !SleepyAt(s', tid)
      && s'.pcs[tid].Hand? && s'.heap <= s.heap && s'.records == s.records
      && s'.threads == s.threads && s'.stopFlag == s.stopFlag
  {
  }

  lemma PullWake(s: State, w: nat, t: TaskId)
    requires LocalInv(s) && WakeInv(s) && CanLoop(s, w, Pull(t))
    ensures WakeInv(ApplyLoop(s, w, Pull(t)))
  {
    PullFacts(s, w, t);
    hide LocalInv, WakeInv, SamePcs, NotifyAt, AwakeAt, SleepyAt;
    WakeMove(s, DoPull(s, w, t), Worker(w));
  }

  lemma PullNothingWake(s: State, w: nat)
    requires LocalInv(s) && WakeInv(s) && CanLoop(s, w, PullNothing)
    ensures WakeInv(ApplyLoop(s, w, PullNothing))
  {
    assert ThreadInv(s, Worker(w));
    assert ApplyLoop(s, w, PullNothing) == DoPullNothing(s, w);
    hide LocalInv, WakeInv, ApplyLoop, CanLoop;
    WakeMove(s, DoPullNothing(s, w), Worker(w));
  }

  lemma PullRaisesWake(s: State, w: nat)
    requires LocalInv(s) && WakeInv(s) && CanLoop(s, w, PullRaises)
    ensures WakeInv(ApplyLoop(s, w, PullRaises))
  {
    assert ThreadInv(s, Worker(w));
    hide LocalInv, WakeInv, ThreadInv, DoPullRaises;
    PullFailedWake(s, w);
  }

  lemma PullFailedWake(s: State, w: nat)
    requires ThreadInv(s, Worker(w)) && WakeInv(s) && s.At(Worker(w), Pulling)
    ensures WakeInv(DoPullRaises(s, w))
  {
    hide WakeInv;
    WakeMove(s, s.(condLock := None).Goto(Worker(w), PullFailed), Worker(w));
  }

  lemma RetryWake(s: State, w: nat)
    requires LocalInv(s) && WakeInv(s) && CanLoop(s, w, Retry)
    ensures WakeInv(ApplyLoop(s, w, Retry))
  {
    assert ThreadInv(s, Worker(w));
    hide LocalInv, WakeInv, DoRetry, ThreadInv;
    if s.stopFlag {
      GivesUpWake(s, w);
    } else {
      TriesAgainWake(s, w);
    }
  }

  lemma GivesUpWake(s: State, w: nat)
    requires ThreadInv(s, Worker(w)) && WakeInv(s) && s.At(Worker(w), PullFailed) && s.stopFlag
    ensures WakeInv(DoRetry(s, w))
  {
    hide WakeInv;
    WakeMove(s, s.Goto(Worker(w), ExitLock), Worker(w));
  }

  lemma TriesAgainWake(s: State, w: nat)
    requires ThreadInv(s, Worker(w)) && WakeInv(s) && s.At(Worker(w), PullFailed) && !s.stopFlag
    ensures WakeInv(DoRetry(s, w))
  {
    hide WakeInv;
    WakeMove(s, s.Goto(Worker(w), LoopTop), Worker(w));
  }

  lemma ReadRecordWake(s: State, w: nat)
    requires LocalInv(s) && WakeInv(s) && CanRun(s, w, ReadRecord)
    ensures WakeInv(ApplyRun(s, w, ReadRecord))
  {
    assert ThreadInv(s, Worker(w));
    hide LocalInv, WakeInv;
    WakeStay(s, ApplyRun(s, w, ReadRecord), Worker(w));
  }

  lemma WriteRunningWake(s: State, w: nat)
    requires LocalInv(s) && WakeInv(s) && CanRun(s, w, WriteRunning)
    ensures WakeInv(ApplyRun(s, w, WriteRunning))
  {
    assert ThreadInv(s, Worker(w)) && CarryInv(s, Worker(w)) && TaskInv(s, s.pcs[Worker(w)].task);
    hide LocalInv, WakeInv;
    WakeStay(s, ApplyRun(s, w, WriteRunning), Worker(w));
  }

  lemma ExecuteWake(s: State, w: nat, step: RunStep)
    requires LocalInv(s) && WakeInv(s) && CanRun(s, w, step)
    requires step.Execute? || step.ExecuteRaises? || step.StartHookRaises?
    ensures WakeInv(ApplyRun(s, w, step))
  {
    var tid := Worker(w);
    assert ThreadInv(s, tid);
    hide LocalInv, WakeInv;
    match step
    case Execute(_) => WakeStay(s, ApplyRun(s, w, step), tid);
    case ExecuteRaises => WakeStay(s, ApplyRun(s, w, step), tid);
    case StartHookRaises => WakeStay(s, ApplyRun(s, w, step), tid);
    case _ =>
  }

  lemma AddCallbackWake(s: State, w: nat, step: RunStep)
    requires LocalInv(s) && WakeInv(s) && CanRun(s, w, step) && step.AddCallback?
    ensures WakeInv(ApplyRun(s, w, step))
  {
    var tid := Worker(w);
    assert ThreadInv(s, tid);
    hide LocalInv, WakeInv;
    if s.futures[s.pcs[tid].task].Resolved? {
      WakeStay(s, ApplyRun(s, w, step), tid);
    } else {
      WakeStay(s, ApplyRun(s, w, step), tid);
    }
  }

  lemma WriteBrokenWake(s: State, w: nat, step: RunStep)
    requires LocalInv(s) && WakeInv(s) && CanRun(s, w, step) && step.WriteBroken?
    ensures WakeInv(ApplyRun(s, w, step))
  {
    var tid := Worker(w);
    assert ThreadInv(s, tid);
    hide LocalInv, WakeInv;
    WakeStay(s, ApplyRun(s, w, step), tid);
  }

  lemma ResolveWake(s: State, t: TaskId, ok: bool)
    requires LocalInv(s) && WakeInv(s) && CanResolve(s, t)
    ensures WakeInv(ApplyResolve(s, t, ok))
  {
    var tid := Callback(t);
    assert ThreadInv(s, tid);
    hide LocalInv, WakeInv;
    if s.futures[t].Open? {
      WakeMove(s, ApplyResolve(s, t, ok), tid);
    } else {
      WakeMove(s, ApplyResolve(s, t, ok), tid);
    }
  }

  lemma FinishWake(s: State, tid: Tid, step: FinishStep)
    requires LocalInv(s) && WakeInv(s) && CanFinish(s, tid, step) && !step.NotifyDone?
    ensures WakeInv(ApplyFinish(s, tid, step))
  {
    assert ThreadInv(s, tid);
    hide LocalInv, WakeInv;
    match step
    case WriteOutcome => WakeStay(s, ApplyFinish(s, tid, step), tid);
    case RemoveId => WakeStay(s, ApplyFinish(s, tid, step), tid);
    case ReleaseSlot => WakeStay(s, ApplyFinish(s, tid, step), tid);
    case _ =>
  }

  lemma NotifyDoneWake(s: State, tid: Tid)
    requires LocalInv(s) && CanFinish(s, tid, NotifyDone)
    ensures WakeInv(ApplyFinish(s, tid, NotifyDone))
  {
    assert ThreadInv(s, tid);
    WakeNotify(s, ApplyFinish(s, tid, NotifyDone), tid);
  }

  lemma ExitWake(s: State, w: nat, step: ExitStep)
    requires LocalInv(s) && WakeInv(s) && CanExit(s, w, step)
    ensures WakeInv(ApplyExit(s, w, step))
  {
    assert ThreadInv(s, Worker(w)) && FlagInv(s);
    hide LocalInv, WakeInv, ThreadInv, FlagInv, DoTakeThreadsLock, DoLeaveThreads;
    match step
    case TakeThreadsLock => TakeThreadsLockWake(s, w);
    case LeaveThreads => LeaveThreadsWake(s, w);
  }

  lemma TakeThreadsLockWake(s: State, w: nat)
    requires ThreadInv(s, Worker(w)) && WakeInv(s) && CanExit(s, w, TakeThreadsLock)
    ensures WakeInv(DoTakeThreadsLock(s, w))
  {
    hide WakeInv;
    if s.stopFlag && s.threads <= {w} {
      WakeMove(s, DoTakeThreadsLock(s, w), Worker(w));
    } else {
      WakeMove(s, DoTakeThreadsLock(s, w), Worker(w));
    }
  }

  lemma LeaveThreadsWake(s: State, w: nat)
    requires ThreadInv(s, Worker(w)) && FlagInv(s) && WakeInv(s) && CanExit(s, w, LeaveThreads)
    ensures WakeInv(DoLeaveThreads(s, w))
  {
    hide WakeInv;
    WakeMove(s, DoLeaveThreads(s, w), Worker(w));
  }

  lemma SweepTakeWake(s: State, tid: Tid, step: SweepStep)
    requires LocalInv(s) && WakeInv(s) && CanSweep(s, tid, step) && (step.TakeIds? || step.TakeRecords? || step.Fail?)
    ensures WakeInv(ApplySweep(s, tid, step))
  {
    assert ThreadInv(s, tid);
    hide LocalInv, WakeInv, ThreadInv, DoTakeIds, DoTakeRecords, DoFail;
    match step
    case TakeIds => TakeIdsWake(s, tid);
    case TakeRecords => TakeRecordsWake(s, tid);
    case Fail(t) => FailWake(s, tid, t);
    case _ =>
  }

  lemma TakeIdsWake(s: State, tid: Tid)
    requires ThreadInv(s, tid) && WakeInv(s) && CanSweep(s, tid, TakeIds)
    ensures WakeInv(DoTakeIds(s, tid))
  {
    hide WakeInv;
    WakeMove(s, DoTakeIds(s, tid), tid);
  }

  lemma TakeRecordsWake(s: State, tid: Tid)
    requires ThreadInv(s, tid) && WakeInv(s) && CanSweep(s, tid, TakeRecords)
    ensures WakeInv(DoTakeRecords(s, tid))
  {
    hide WakeInv;
    WakeMove(s, DoTakeRecords(s, tid), tid);
  }

  lemma FailWake(s: State, tid: Tid, t: TaskId)
    requires ThreadInv(s, tid) && WakeInv(s) && CanSweep(s, tid, SweepStep.Fail(t))
    ensures WakeInv(DoFail(s, tid, t))
  {
    hide WakeInv;
    WakeMove(s, DoFail(s, tid, t), tid);
  }

  lemma SweepDropWake(s: State, tid: Tid, step: SweepStep)
    requires LocalInv(s) && WakeInv(s) && CanSweep(s, tid, step) && (step.DropId? || step.FreeSlot?)
    ensures WakeInv(ApplySweep(s, tid, step))
  {
    assert ThreadInv(s, tid);
    hide LocalInv, WakeInv;
    match step
    case DropId => WakeMove(s, ApplySweep(s, tid, step), tid);
    case FreeSlot => WakeMove(s, ApplySweep(s, tid, step), tid);
    case _ =>
  }

  lemma SweepEndWake(s: State, tid: Tid)
    requires LocalInv(s) && WakeInv(s) && CanSweep(s, tid, End)
    ensures WakeInv(ApplySweep(s, tid, End))
  {
    assert ThreadInv(s, tid);
    hide LocalInv, WakeInv;
    if s.pcs[tid].any {
      WakeMove(s, s.Goto(tid, SweepNotify), tid);
    } else {
      SweepOverWake(s, tid);
    }
  }

  lemma SweepOverWake(s: State, tid: Tid)
    requires WakeInv(s) && ThreadInv(s, tid) && tid in s.pcs && s.pcs[tid].SweepLoop? && !s.pcs[tid].any
    ensures WakeInv(AfterSweep(s, tid))
  {
    hide WakeInv;
    WakeMove(s, AfterSweep(s, tid), tid);
  }

  lemma NotifySweptWake(s: State, tid: Tid)
    requires LocalInv(s) && CanSweep(s, tid, NotifySwept)
    ensures WakeInv(ApplySweep(s, tid, NotifySwept))
  {
    assert ThreadInv(s, tid);
    WakeNotify(s, ApplySweep(s, tid, NotifySwept), tid);
  }

  lemma LookWake(s: State, c: nat)
    requires LocalInv(s) && WakeInv(s) && CanQuery(s, c, Look)
    ensures WakeInv(ApplyQuery(s, c, Look))
  {
    assert ThreadInv(s, Client(c));
    hide LocalInv, WakeInv, DoLook, ThreadInv;
    var t := s.pcs[Client(c)].task;
    if t !in s.records || Terminal(s.records[t]) {
      LookDoneWake(s, c);
    } else {
      LookLiveWake(s, c);
    }
  }

  lemma LookDoneWake(s: State, c: nat)
    requires ThreadInv(s, Client(c)) && WakeInv(s) && CanQuery(s, c, Look)
    requires s.pcs[Client(c)].task !in s.records || Terminal(s.records[s.pcs[Client(c)].task])
    ensures WakeInv(DoLook(s, c))
  {
    hide WakeInv;
    WakeMove(s, s.(condLock := None).Leave(Client(c)), Client(c));
  }

  lemma LookLiveWake(s: State, c: nat)
    requires ThreadInv(s, Client(c)) && WakeInv(s) && CanQuery(s, c, Look)
    requires s.pcs[Client(c)].task in s.records && !Terminal(s.records[s.pcs[Client(c)].task])
    ensures WakeInv(DoLook(s, c))
  {
    hide WakeInv;
    WakeMove(s, s.Goto(Client(c), QueryHold(s.pcs[Client(c)].task, s.pcs[Client(c)].timed)), Client(c));
  }

  lemma QueryWakeKept(s: State, c: nat, step: QueryStep)
    requires LocalInv(s) && WakeInv(s) && CanQuery(s, c, step) && (step.Ask? || step.Take?)
    ensures WakeInv(ApplyQuery(s, c, step))
  {
    var tid := Client(c);
    assert ThreadInv(s, tid);
    hide LocalInv, WakeInv;
    match step
    case Ask(_, _) => WakeMove(s, ApplyQuery(s, c, step), tid);
    case Take => WakeMove(s, ApplyQuery(s, c, step), tid);
    case _ =>
  }

  lemma QueryWaitWake(s: State, c: nat, step: QueryStep)
    requires LocalInv(s) && WakeInv(s) && CanQuery(s, c, step) && (step.Wait? || step.WaitTimesOut? || step.GiveUp?)
    ensures WakeInv(ApplyQuery(s, c, step))
  {
    var tid := Client(c);
    assert ThreadInv(s, tid);
    hide LocalInv, WakeInv;
    WakeMove(s, ApplyQuery(s, c, step), tid);
  }

  lemma CloseRaisesWake(s: State, c: nat)
    requires LocalInv(s) && WakeInv(s) && CanStop(s, c, CloseRaises)
    ensures WakeInv(ApplyStop(s, c, CloseRaises))
  {
    assert ThreadInv(s, Client(c));
    hide LocalInv, WakeInv;
    WakeMove(s, DoCloseRaises(s, c), Client(c));
  }

  lemma StopWakeKept(s: State, c: nat, step: StopStep)
    requires LocalInv(s) && WakeInv(s) && CanStop(s, c, step) && !step.NotifyStop? && !step.CloseRaises?
    ensures WakeInv(ApplyStop(s, c, step))
  {
    assert ThreadInv(s, Client(c)) && FlagInv(s);
    hide LocalInv, WakeInv, ThreadInv, DoBegin, DoClosed, DoJoined;
    match step
    case Begin => BeginWake(s, c);
    case Closed => ClosedWake(s, c);
    case Joined => JoinedWake(s, c);
    case _ =>
  }

  lemma BeginWake(s: State, c: nat)
    requires WakeInv(s) && ThreadInv(s, Client(c)) && CanStop(s, c, Begin)
    requires s.strategyClosed ==> s.stopFlag
    ensures WakeInv(DoBegin(s, c))
  {
    hide WakeInv;
    WakeMove(s, DoBegin(s, c), Client(c));
  }

  lemma ClosedWake(s: State, c: nat)
    requires WakeInv(s) && ThreadInv(s, Client(c)) && CanStop(s, c, Closed)
    ensures WakeInv(DoClosed(s, c))
  {
    hide WakeInv;
    WakeMove(s, DoClosed(s, c), Client(c));
  }

  lemma JoinedWake(s: State, c: nat)
    requires WakeInv(s) && ThreadInv(s, Client(c)) && CanStop(s, c, Joined)
    ensures WakeInv(DoJoined(s, c))
  {
    hide WakeInv;
    if s.threads == {} {
      WakeMove(s, DoJoined(s, c), Client(c));
    } else {
      WakeMove(s, DoJoined(s, c), Client(c));
    }
  }

  lemma StopNotifyWake(s: State, c: nat)
    requires LocalInv(s) && CanStop(s, c, NotifyStop)
    ensures WakeInv(ApplyStop(s, c, NotifyStop))
  {
    var tid := Client(c);
    assert ThreadInv(s, tid);
    WakeNotify(s, ApplyStop(s, c, NotifyStop), tid);
  }

  lemma ForgetWake(s: State, t: TaskId)
    requires WakeInv(s) && CanForget(s, t)
    ensures WakeInv(ApplyForget(s, t))
  {
    assert NotifyComing(s) == NotifyComing(ApplyForget(s, t));
  }
}
