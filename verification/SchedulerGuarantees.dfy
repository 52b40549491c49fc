/** The scheduler's guarantees, over every run and every interleaving of its threads. */
module SchedulerGuarantees {
  import opened Core
  import opened SchedulerMachine
  import opened SchedulerInvariant
  import opened SchedulerPreservation
  import opened SchedulerSlotsWake
  import opened SchedulerTheorems
  import opened SchedulerFrame

  // ---------- slots ----------

  /** In every reachable state the limit is respected, and every thread that is about to
      release a permit finds the semaphore below its bound. */
  lemma SlotConservation(states: seq<State>, events: seq<Event>, i: nat)
    requires Run(states, events) && i < |states|
    ensures states[i].free + |states[i].outstanding| + |TransitThreads(states[i])| == states[i].slots
    ensures states[i].slots == states[0].slots
    ensures 0 <= states[i].free && |states[i].outstanding| <= states[i].slots
    ensures forall tid :: tid in states[i].pcs && InTransit(states[i].pcs[tid]) ==> states[i].free < states[i].slots
  {
    RunInv(states, events, i);
    var s := states[i];
    SlotsConstant(states, events, i);
    forall tid | tid in s.pcs && InTransit(s.pcs[tid]) ensures s.free < s.slots {
      assert tid in TransitThreads(s);
    }
  }

  lemma {:induction false} SlotsConstant(states: seq<State>, events: seq<Event>, i: nat)
    requires Run(states, events) && i < |states|
    ensures states[i].slots == states[0].slots
  {
    hide Init, Fresh, Apply, Enabled;
    if i > 0 {
      SlotsConstant(states, events, i - 1);
      assert Step(states[i - 1], events[i - 1], states[i - 1 + 1]);
      StepFrame(states[i - 1], events[i - 1]);
    }
  }

  /** Why ids must be fresh: recording an id keeps the slot count exactly when the id is not
      recorded yet; an id recorded twice is released once, so a slot is lost for good. */
  lemma SlotLostIffIdReused(s: State, c: nat)
    requires SlotInv(s) && CanSubmit(s, c, AddId)
    ensures SlotInv(ApplySubmit(s, c, AddId)) <==> s.pcs[Client(c)].task !in s.outstanding
  {
    hide TransitThreads;
    CountMove(s, ApplySubmit(s, c, AddId), Client(c));
  }

  // ---------- progress ----------

  /** Waiting for a notification. */
  predicate Asleep(pc: Pc) {
    pc.Parked? || pc.QueryParked?
  }

  /** A step of a thread that is already inside the scheduler. */
  ghost predicate CanMove(s: State, tid: Tid) {
    exists e :: Enabled(s, e) && ActorOf(e) == Some(tid) && tid in s.pcs
  }

  predicate LockFree(before: Option<Tid>, tid: Tid) {
    before == None || before == Some(tid)
  }

  /** A thread that is not asleep can move unless a lock it may need is taken by another. */
  lemma FutureWaits(s: State, tid: Tid, t: TaskId)
    requires LocalInv(s) && tid in s.pcs && s.pcs[tid] == GotFuture(t)
    ensures t in s.futures && !s.futures[t].Armed?
  {
    assert CarryInv(s, tid) && Carries(s.pcs[tid], t) && TaskInv(s, t);
  }

  predicate Working(pc: Pc) {
    || pc.LoopTop? || pc.Checking? || pc.Pulling? || pc.PulledNone? || pc.PullFailed?
    || pc.Hand? || pc.SawPending? || pc.Started? || pc.GotFuture? || pc.Broken?
  }

  predicate Calling(pc: Pc) {
    SubmitLocked(pc) || pc.SubmitLock? || QueryPc(pc) || StopPc(pc)
  }

  lemma WorkingMoves(s: State, tid: Tid)
    requires LocalInv(s) && tid in s.pcs && Working(s.pcs[tid])
    requires LockFree(s.condLock, tid)
    requires HoldsCondition(s.pcs[tid]) || LockFree(s.threadsLock, tid)
    requires HoldsCondition(s.pcs[tid]) || Leaving(s.pcs[tid]) || LockFree(s.lifecycleLock, tid)
    ensures CanMove(s, tid)
  {
    assert ThreadInv(s, tid);
    var pc := s.pcs[tid];
    var e: Event;
    match pc {
      case LoopTop => e := Loop(tid.index, TakeCondition);
      case Checking => e := Loop(tid.index, CheckStop);
      case Pulling =>
        if s.heap == {} {
          e := Loop(tid.index, PullNothing);
        } else {
          var t :| t in s.heap;
          e := Loop(tid.index, Pull(t));
        }
      case PulledNone => e := Loop(tid.index, Park);
      case PullFailed => e := Loop(tid.index, Retry);
      case Hand(_) => e := RunTask(tid.index, ReadRecord);
      case SawPending(_) => e := RunTask(tid.index, WriteRunning);
      case Started(_) => e := RunTask(tid.index, ExecuteRaises);
      case GotFuture(t) =>
        FutureWaits(s, tid, t);
        e := RunTask(tid.index, AddCallback);
      case Broken(_) => e := RunTask(tid.index, WriteBroken);
      case _ =>
    }
    assert Enabled(s, e) && ActorOf(e) == Some(tid);
  }

  lemma FinishingMoves(s: State, tid: Tid)
    requires LocalInv(s) && tid in s.pcs && !Working(s.pcs[tid]) && !Calling(s.pcs[tid]) && !Asleep(s.pcs[tid])
    requires LockFree(s.condLock, tid)
    requires HoldsCondition(s.pcs[tid]) || LockFree(s.threadsLock, tid)
    requires HoldsCondition(s.pcs[tid]) || Leaving(s.pcs[tid]) || LockFree(s.lifecycleLock, tid)
    ensures CanMove(s, tid)
  {
    assert ThreadInv(s, tid);
    var pc := s.pcs[tid];
    var e: Event;
    match pc {
      case Completing(_, _) => e := Finish(tid, WriteOutcome);
      case FinishRemove(_) => e := Finish(tid, RemoveId);
      case FinishRelease(_) => e := Finish(tid, ReleaseSlot);
      case FinishNotify(_) => e := Finish(tid, NotifyDone);
      case ExitLock => e := Exit(tid.index, TakeThreadsLock);
      case ExitRemove => e := Exit(tid.index, LeaveThreads);
      case SweepSnapshot => e := Sweep(tid, TakeIds);
      case SweepList(_) => e := Sweep(tid, TakeRecords);
      case SweepLoop(todo, _) =>
        if todo == {} {
          e := Sweep(tid, End);
        } else {
          var t :| t in todo;
          e := Sweep(tid, SweepStep.Fail(t));
        }
      case SweepRemove(_, _) => e := Sweep(tid, DropId);
      case SweepRelease(_, _) => e := Sweep(tid, FreeSlot);
      case SweepNotify => e := Sweep(tid, NotifySwept);
      case _ =>
    }
    assert Enabled(s, e) && ActorOf(e) == Some(tid);
  }

  lemma CallingMoves(s: State, tid: Tid)
    requires LocalInv(s) && tid in s.pcs && Calling(s.pcs[tid]) && !Asleep(s.pcs[tid])
    requires LockFree(s.condLock, tid)
    requires HoldsCondition(s.pcs[tid]) || LockFree(s.threadsLock, tid)
    requires HoldsCondition(s.pcs[tid]) || Leaving(s.pcs[tid]) || LockFree(s.lifecycleLock, tid)
    ensures CanMove(s, tid)
  {
    assert ThreadInv(s, tid);
    var pc := s.pcs[tid];
    var e: Event;
    match pc {
      case SubmitLock(_) => e := Submit(tid.index, Enter);
      case SubmitAcquire(_) => e := Submit(tid.index, TakeSlot);
      case SubmitAdd(_) => e := Submit(tid.index, AddId);
      case SubmitStore(_) => e := Submit(tid.index, Store);
      case SubmitNotify(_) => e := Submit(tid.index, SubmitStep.Notify);
      case SubmitUndo(_) => e := Submit(tid.index, UndoId);
      case SubmitUndoRelease(_) => e := Submit(tid.index, UndoSlot);
      case QueryLock(_, _) => e := Query(tid.index, Take);
      case QueryCheck(_, _) => e := Query(tid.index, Look);
      case QueryHold(_, _) => e := Query(tid.index, Wait);
      case StopClose => e := Stop(tid.index, Closed);
      case StopNotify => e := Stop(tid.index, NotifyStop);
      case StopJoin => e := Stop(tid.index, Joined);
      case _ =>
    }
    assert Enabled(s, e) && ActorOf(e) == Some(tid);
  }

  lemma OwnMove(s: State, tid: Tid)
    requires LocalInv(s) && tid in s.pcs && !Asleep(s.pcs[tid])
    requires LockFree(s.condLock, tid)
    requires HoldsCondition(s.pcs[tid]) || LockFree(s.threadsLock, tid)
    requires HoldsCondition(s.pcs[tid]) || Leaving(s.pcs[tid]) || LockFree(s.lifecycleLock, tid)
    ensures CanMove(s, tid)
  {
    hide LocalInv, CanMove, HoldsCondition, LockFree, Leaving;
    var pc := s.pcs[tid];
    if Working(pc) {
      WorkingMoves(s, tid);
    } else if Calling(pc) {
      CallingMoves(s, tid);
    } else {
      FinishingMoves(s, tid);
    }
  }

  /** No deadlock: as long as one thread is not asleep, some thread can move. The three locks
      are always taken in the order lifecycle, threads, condition. */
  lemma NoDeadlock(s: State, tid: Tid)
    requires LocalInv(s) && tid in s.pcs && !Asleep(s.pcs[tid])
    ensures exists other :: CanMove(s, other)
  {
    if s.condLock.Some? {
      var h := s.condLock.value;
      assert ThreadInv(s, h);
      OwnMove(s, h);
    } else if s.threadsLock.Some? {
      var h := s.threadsLock.value;
      assert ThreadInv(s, h);
      OwnMove(s, h);
    } else if s.lifecycleLock.Some? {
      var h := s.lifecycleLock.value;
      assert ThreadInv(s, h);
      OwnMove(s, h);
    } else {
      OwnMove(s, tid);
    }
  }

  /** Nothing inside the scheduler can move. */
  ghost predicate Quiescent(s: State) {
    forall tid :: !CanMove(s, tid)
  }

  lemma AllAsleep(s: State, tid: Tid)
    requires LocalInv(s) && Quiescent(s) && tid in s.pcs
    ensures Asleep(s.pcs[tid])
  {
    if !Asleep(s.pcs[tid]) { NoDeadlock(s, tid); }
  }

  // ---------- no lost wake-up ----------

  lemma HolderAwake(s: State, tid: Tid)
    requires LocalInv(s) && s.lifecycleLock == Some(tid)
    ensures tid in s.pcs && !Asleep(s.pcs[tid])
  {
    assert ThreadInv(s, tid);
  }

  lemma RestingWorker(s: State, w: nat)
    requires LocalInv(s) && WakeInv(s) && Quiescent(s) && w in s.threads
    ensures s.At(Worker(w), Parked) && s.heap == {} && !(s.stopFlag && s.strategyClosed)
  {
    forall tid | tid in s.pcs ensures Asleep(s.pcs[tid]) { AllAsleep(s, tid); }
    assert !NotifyComing(s);
    assert ThreadInv(s, Worker(w));
    assert FoundNothing(s.pcs[Worker(w)]) && AboutToSleep(s.pcs[Worker(w)]);
  }

  /** The scheduler never comes to rest with work to do: in every reachable state in which no
      thread can move, the workers that have not left have emptied the heap, every waiting query
      waits for a task that is stored and unfinished, nobody holds the lifecycle lock, and no
      worker is left behind by a stop that got past closing the strategy. */
  lemma NoLostWakeup(states: seq<State>, events: seq<Event>, i: nat)
    requires Run(states, events) && i < |states| && Quiescent(states[i])
    ensures states[i].threads != {} ==> states[i].heap == {}
    ensures forall tid :: tid in states[i].pcs && states[i].pcs[tid].QueryParked? ==>
              Live(states[i], states[i].pcs[tid].task)
    ensures states[i].lifecycleLock.None?
    ensures states[i].stopFlag && states[i].strategyClosed ==> states[i].threads == {}
  {
    var s := states[i];
    RunInv(states, events, i);
    forall tid | tid in s.pcs ensures Asleep(s.pcs[tid]) { AllAsleep(s, tid); }
    assert !NotifyComing(s);
    if w :| w in s.threads { RestingWorker(s, w); }
    if s.lifecycleLock.Some? { HolderAwake(s, s.lifecycleLock.value); }
  }

  /** The same as an invariant: in every reachable state with work in the heap, either a
      worker will look at the heap before it sleeps or a notification is still to come; a worker
      asleep while there is work, a query about a finished task, and a worker asleep after a stop
      that closed the strategy, have one to come. */
  lemma WakeupComing(states: seq<State>, events: seq<Event>, i: nat)
    requires Run(states, events) && i < |states|
    ensures states[i].heap != {} && !states[i].stopFlag && states[i].threads != {} ==>
              SomeWorkerAwake(states[i]) || NotifyComing(states[i])
    ensures forall w :: states[i].heap != {} && states[i].At(Worker(w), Parked) ==> NotifyComing(states[i])
    ensures forall tid :: tid in states[i].pcs && states[i].pcs[tid].QueryParked? ==>
              Live(states[i], states[i].pcs[tid].task) || NotifyComing(states[i])
    ensures forall w :: states[i].stopFlag && states[i].strategyClosed && states[i].At(Worker(w), Parked) ==>
              NotifyComing(states[i])
    ensures !states[i].closed && states[i].called != {} ==> states[i].threads != {}
  {
    RunInv(states, events, i);
    var s := states[i];
    forall w | s.At(Worker(w), Parked)
      ensures s.heap != {} || (s.stopFlag && s.strategyClosed) ==> NotifyComing(s)
    {
      assert FoundNothing(s.pcs[Worker(w)]) && AboutToSleep(s.pcs[Worker(w)]);
    }
  }

  // ---------- shutdown ----------

  ghost predicate Released(s: State) {
    && s.outstanding == {} && s.free == s.slots
    && forall t :: t in s.accepted && t in s.records ==> Terminal(s.records[t])
  }

  /** The strategy has completed every future of a task the scheduler took. */
  ghost predicate FuturesDone(s: State) {
    forall t :: t in s.futures && t in s.called ==> s.futures[t].Resolved?
  }

  /** Nobody is at work on a task. */
  predicate Away(pc: Pc) {
    pc.SubmitLock? || QueryPc(pc) || pc.Parked?
  }

  lemma IdleTask(s: State, t: TaskId)
    requires Inv(s) && FuturesDone(s) && (s.threads == {} || s.heap == {}) && t in s.called
    requires forall tid :: tid in s.pcs ==> Away(s.pcs[tid])
    ensures t !in s.outstanding && (t in s.records ==> t in s.accepted && Terminal(s.records[t]))
  {
    assert TaskInv(s, t);
    assert !Waiting(s, t);
  }

  /** Nothing waits in the heap, nobody is at work and every future is done. */
  lemma IdleReleased(s: State)
    requires Inv(s) && FuturesDone(s) && (s.threads == {} || s.heap == {})
    requires forall tid :: tid in s.pcs ==> Away(s.pcs[tid])
    ensures Released(s)
  {
    forall t | t in s.called
      ensures t !in s.outstanding && (t in s.records ==> Terminal(s.records[t]))
    {
      IdleTask(s, t);
    }
    assert TransitThreads(s) == {};
  }

  lemma ReleasedDone(s: State)
    requires Inv(s) && Released(s) && forall tid :: tid in s.pcs ==> Away(s.pcs[tid])
    ensures FuturesDone(s)
  {
    forall t | t in s.futures && t in s.called ensures s.futures[t].Resolved? {
      assert TaskInv(s, t);
    }
  }

  /** Once stop has run, every worker thread has left, and every future the strategy handed
      out is done together with its callback: every accepted task still stored is COMPLETED or
      FAILED and every slot is free. */
  lemma ShutdownGuarantee(states: seq<State>, events: seq<Event>, i: nat)
    requires Run(states, events) && i < |states|
    requires states[i].closed && states[i].threads == {} && states[i].lifecycleLock.None?
    requires FuturesDone(states[i]) && forall t :: Callback(t) !in states[i].pcs
    ensures Released(states[i])
  {
    var s := states[i];
    RunInv(states, events, i);
    forall tid | tid in s.pcs ensures Away(s.pcs[tid]) {
      assert ThreadInv(s, tid);
    }
    IdleReleased(s);
  }

  /** Without assuming that anybody has left, or that there was a stop, or that a stop closed the
      strategy: a scheduler at rest has released everything if and only if the strategy has
      completed the future of every task the scheduler took. */
  lemma RestReleasesIff(states: seq<State>, events: seq<Event>, i: nat)
    requires Run(states, events) && i < |states| && Quiescent(states[i])
    ensures Released(states[i]) <==> FuturesDone(states[i])
  {
    RunInv(states, events, i);
    AtRest(states[i]);
  }

  lemma AtRest(s: State)
    requires Inv(s) && Quiescent(s)
    ensures Released(s) <==> FuturesDone(s)
    ensures s.stopFlag && s.strategyClosed ==> s.threads == {}
  {
    forall tid | tid in s.pcs ensures Away(s.pcs[tid]) { AllAsleep(s, tid); }
    if w :| w in s.threads { RestingWorker(s, w); }
    if FuturesDone(s) { IdleReleased(s); }
    if Released(s) { ReleasedDone(s); }
  }

  // ---------- the life of a task ----------

  function StatusOf(s: State, t: TaskId): Option<TaskStatus> {
    if t in s.records then Some(s.records[t]) else None
  }

  /** A record is created PENDING by the submit that stores it; then PENDING to RUNNING to a
      terminal status, or PENDING to FAILED in the shutdown sweep of a
      task the scheduler accepted; only a terminal record disappears. */
  predicate MayBecome(before: Option<TaskStatus>, after: Option<TaskStatus>, stored: bool, swept: bool) {
    || after == before
    || (before == None && after == Some(Pending) && stored)
    || (before == Some(Pending) && (after == Some(Running) || (after == Some(Failed) && swept)))
    || (before == Some(Running) && after.Some? && Terminal(after.value))
    || (before.Some? && Terminal(before.value) && after == None)
  }

  predicate StoredBy(s: State, e: Event, t: TaskId) {
    e.Submit? && e.submit.Store? && s.At(Client(e.client), SubmitStore(t))
  }

  predicate SweptBy(s: State, e: Event, t: TaskId) {
    e.Sweep? && e.sweep == SweepStep.Fail(t) && s.closed && t in s.accepted
  }

  lemma StatusOfStore(s: State, c: nat, t: TaskId)
    requires Inv(s) && CanSubmit(s, c, Store)
    ensures MayBecome(StatusOf(s, t), StatusOf(ApplySubmit(s, c, Store), t), StoredBy(s, Submit(c, Store), t), false)
  {
    assert CarryInv(s, Client(c)) && Submits(s.pcs[Client(c)], s.pcs[Client(c)].task);
    assert TaskInv(s, s.pcs[Client(c)].task);
    hide Inv;
  }

  lemma StatusOfRun(s: State, w: nat, step: RunStep, t: TaskId)
    requires Inv(s) && CanRun(s, w, step) && (step.WriteRunning? || step.WriteBroken?)
    ensures MayBecome(StatusOf(s, t), StatusOf(ApplyRun(s, w, step), t), false, false)
  {
    var t0 := s.pcs[Worker(w)].task;
    assert CarryInv(s, Worker(w)) && Carries(s.pcs[Worker(w)], t0) && TaskInv(s, t0);
    hide Inv;
  }

  lemma StatusOfOutcome(s: State, tid: Tid, t: TaskId)
    requires Inv(s) && CanFinish(s, tid, WriteOutcome)
    ensures MayBecome(StatusOf(s, t), StatusOf(ApplyFinish(s, tid, WriteOutcome), t), false, false)
  {
    var t0 := s.pcs[tid].task;
    assert CarryInv(s, tid) && Carries(s.pcs[tid], t0) && TaskInv(s, t0);
    hide Inv;
  }

  lemma StatusOfFail(s: State, tid: Tid, failed: TaskId, t: TaskId)
    requires Inv(s) && CanSweep(s, tid, SweepStep.Fail(failed))
    ensures MayBecome(StatusOf(s, t), StatusOf(DoFail(s, tid, failed), t), false,
                      SweptBy(s, Sweep(tid, SweepStep.Fail(failed)), t))
  {
    assert CarryInv(s, tid) && ThreadInv(s, tid) && Waiting(s, failed) && TaskInv(s, failed);
    hide Inv;
  }

  /** Every step of every run moves every record along the lifecycle. */
  lemma Lifecycle(states: seq<State>, events: seq<Event>, i: nat, t: TaskId)
    requires Run(states, events) && i < |events|
    ensures MayBecome(StatusOf(states[i], t), StatusOf(states[i + 1], t),
                      StoredBy(states[i], events[i], t), SweptBy(states[i], events[i], t))
  {
    RunInv(states, events, i);
    var s, e := states[i], events[i];
    assert Step(s, e, states[i + 1]);
    hide Inv, ApplySubmit, ApplyRun, ApplyFinish, DoFail, ApplyLoop, ApplyQuery, ApplyExit, ApplyStop;
    if !WritesRecord(e) {
      StepFrame(s, e);
    } else {
      match e
      case Submit(c, _) => StatusOfStore(s, c, t);
      case RunTask(w, step) => StatusOfRun(s, w, step, t);
      case Finish(tid, _) => StatusOfOutcome(s, tid, t);
      case Sweep(tid, step) => StatusOfFail(s, tid, step.failed, t);
      case Forget(_) =>
    }
  }

  /** A stored record was accepted or was there before; such an id is not submitted again. */
  lemma StoredIsNew(s: State, e: Event, t: TaskId)
    requires LocalInv(s)
    ensures t in s.records ==> t in s.accepted || t in s.foreign
    ensures StoredBy(s, e, t) ==> t !in s.accepted && t !in s.foreign
  {
    assert TaskInv(s, t);
    if StoredBy(s, e, t) {
      assert CarryInv(s, Client(e.client)) && Submits(s.pcs[Client(e.client)], t);
    }
  }

  /** A terminal status is never overwritten: as long as the record is stored it keeps it, and
      once the record is consumed or evicted it never comes back. */
  lemma {:induction false} TerminalIsFinal(states: seq<State>, events: seq<Event>, i: nat, j: nat, t: TaskId)
    requires Run(states, events) && i <= j < |states|
    requires t in states[i].records && Terminal(states[i].records[t])
    ensures t in states[j].records ==> states[j].records[t] == states[i].records[t]
    ensures t in states[j].accepted || t in states[j].foreign
  {
    hide Init, Fresh, Apply, Enabled, LocalInv, SlotInv, WakeInv, StoredBy, SweptBy;
    RunInv(states, events, i);
    if j == i {
      StoredIsNew(states[i], Forget(t), t);
    } else {
      TerminalIsFinal(states, events, i, j - 1, t);
      var s, e := states[j - 1], events[j - 1];
      assert Step(s, e, states[j - 1 + 1]);
      RunInv(states, events, j - 1);
      Lifecycle(states, events, j - 1, t);
      StepFrame(s, e);
      StoredIsNew(s, e, t);
    }
  }

  /** A task reaches strategy.execute at most once. */
  lemma ExecutedAtMostOnce(states: seq<State>, events: seq<Event>, i: nat, t: TaskId)
    requires Run(states, events) && i < |states|
    ensures states[i].executions[t] <= 1
  {
    RunInv(states, events, i);
    var s := states[i];
    assert TaskInv(s, t);
    if t in s.place && s.place[t].Held? { assert HeldInv(s, t, s.pcs[s.place[t].tid]); }
  }

  /** A task that is stored as PENDING is in the heap or in the hand of a worker that is about
      to run it. */
  lemma PendingIsReachable(states: seq<State>, events: seq<Event>, i: nat, t: TaskId)
    requires Run(states, events) && i < |states|
    requires t in states[i].records && states[i].records[t].Pending?
    ensures t in states[i].heap
            || exists w :: states[i].At(Worker(w), Hand(t)) || states[i].At(Worker(w), SawPending(t))
  {
    RunInv(states, events, i);
    var s := states[i];
    assert TaskInv(s, t);
    if s.place[t].Held? {
      var tid := s.place[t].tid;
      assert ThreadInv(s, tid) && HeldInv(s, t, s.pcs[tid]);
      assert s.At(Worker(tid.index), s.pcs[tid]);
    }
  }
}
