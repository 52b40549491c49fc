/**
 The inductive invariant of the scheduler and its preservation by every event.
 The invariant has one part per thread, one per task and one for the wake-up protocol;
 slot counting is a separate part because it is about cardinalities.
 */
module SchedulerInvariant {
  import opened Core
  import opened SchedulerMachine

  // ---------- classification of program counters ----------

  predicate HoldsCondition(pc: Pc) {
    pc.Checking? || pc.Pulling? || pc.PulledNone? || pc.QueryCheck? || pc.QueryHold?
  }

  predicate Sweeping(pc: Pc) {
    || pc.SweepSnapshot? || pc.SweepList? || pc.SweepLoop? || pc.SweepRemove?
    || pc.SweepRelease? || pc.SweepNotify?
  }

  predicate StopPc(pc: Pc) {
    pc.StopClose? || pc.StopNotify? || pc.StopJoin?
  }

  /** Inside the locked part of submit. */
  predicate SubmitLocked(pc: Pc) {
    || pc.SubmitAcquire? || pc.SubmitAdd? || pc.SubmitStore? || pc.SubmitNotify?
    || pc.SubmitUndo? || pc.SubmitUndoRelease?
  }

  predicate QueryPc(pc: Pc) {
    pc.QueryLock? || pc.QueryCheck? || pc.QueryHold? || pc.QueryParked?
  }

  predicate Leaving(pc: Pc) {
    pc.ExitRemove? || Sweeping(pc)
  }

  predicate WorkerPc(pc: Pc) {
    !(pc.SubmitLock? || SubmitLocked(pc) || QueryPc(pc) || StopPc(pc))
  }

  predicate ClientPc(pc: Pc) {
    pc.SubmitLock? || SubmitLocked(pc) || QueryPc(pc) || StopPc(pc) || Sweeping(pc)
  }

  /** The thread is the one that has to finish task t. */
  predicate Carries(pc: Pc, t: TaskId) {
    match pc
    case Hand(u) => u == t
    case SawPending(u) => u == t
    case Started(u) => u == t
    case GotFuture(u) => u == t
    case Broken(u) => u == t
    case Completing(u, _) => u == t
    case FinishRemove(u) => u == t
    case SweepRemove(u, _) => u == t
    case _ => false
  }

  /** The client is submitting t and has not stored it yet. */
  predicate Submits(pc: Pc, t: TaskId) {
    match pc
    case SubmitLock(u) => u == t
    case SubmitAcquire(u) => u == t
    case SubmitAdd(u) => u == t
    case SubmitStore(u) => u == t
    case SubmitUndo(u) => u == t
    case _ => false
  }

  /** Between acquiring the slot and recording the id, or between dropping the id and
      releasing the slot. */
  predicate InTransit(pc: Pc) {
    pc.SubmitAdd? || pc.SubmitUndoRelease? || pc.FinishRelease? || pc.SweepRelease?
  }

  /** The thread still has a notify_all to do. */
  predicate WillNotify(pc: Pc) {
    || pc.SubmitNotify? || pc.FinishRemove? || pc.FinishRelease? || pc.FinishNotify?
    || pc.SweepRemove? || pc.SweepRelease? || pc.SweepNotify? || (pc.SweepLoop? && pc.any)
    || pc.StopNotify?
  }

  // ---------- the invariant ----------

  /** Locks, kinds of threads and lifecycle flags, for one thread. */
  ghost predicate ThreadInv(s: State, tid: Tid) {
    && (s.condLock == Some(tid) ==> tid in s.pcs)
    && (s.lifecycleLock == Some(tid) ==> tid in s.pcs)
    && (s.threadsLock == Some(tid) ==> tid in s.pcs)
    && (tid in s.pcs ==>
      var pc := s.pcs[tid];
      && (HoldsCondition(pc) <==> s.condLock == Some(tid))
      && (s.lifecycleLock == Some(tid) <==>
          tid.Client? && (SubmitLocked(pc) || StopPc(pc) || Sweeping(pc)))
      && (s.threadsLock == Some(tid) <==> tid.Worker? && Leaving(pc))
      && (tid.Worker? ==> WorkerPc(pc))
      && (tid.Client? ==> ClientPc(pc))
      && (tid.Callback? ==> CompletionPc(pc) && pc.task == tid.task)
      && (StopPc(pc) || pc.ExitLock? || Leaving(pc) ==> s.closed)
      && (SubmitLocked(pc) ==> !s.closed)
      && (Sweeping(pc) ==> s.threads == (if tid.Worker? then {tid.index} else {})))
    && (tid.Worker? ==> (tid.index in s.threads <==> tid in s.pcs))
  }

  ghost predicate FlagInv(s: State) {
    && s.stopFlag == s.closed && s.accepting == !s.closed && (s.strategyClosed ==> s.closed)
    && s.workers != {} && s.threads <= s.workers
    && (!s.closed ==> s.threads == {} || s.threads == s.workers)
    && (!s.closed && s.called != {} ==> s.threads == s.workers)
    && s.called !! s.foreign && s.outstanding <= s.called && s.accepted <= s.called
  }

  /** Every worker thread that has not left is past its last pull. */
  ghost predicate AllLeaving(s: State) {
    forall i :: i in s.threads && Worker(i) in s.pcs ==> Leaving(s.pcs[Worker(i)])
  }

  ghost predicate HeldInv(s: State, t: TaskId, pc: Pc) {
    && Carries(pc, t)
    && (t in s.called ==> t in s.outstanding)
    && (match pc
        case Hand(_) => t in s.records && s.records[t].Pending? && t !in s.futures && s.executions[t] == 0
        case SawPending(_) => t in s.records && s.records[t].Pending? && t !in s.futures && s.executions[t] == 0
        case Started(_) => t in s.records && s.records[t].Running? && t !in s.futures && s.executions[t] == 0
        case GotFuture(_) =>
          && t in s.records && s.records[t].Running? && s.executions[t] == 1
          && t in s.futures && !s.futures[t].Armed?
        case Broken(_) => t in s.records && s.records[t].Running? && t !in s.futures && s.executions[t] <= 1
        case Completing(_, ok) =>
          && t in s.records && s.records[t].Running? && s.executions[t] == 1
          && t in s.futures && s.futures[t] == Resolved(ok)
        case FinishRemove(_) =>
          && (t in s.records ==> Terminal(s.records[t])) && s.executions[t] <= 1
          && (t in s.futures ==> s.futures[t].Resolved?)
        case SweepRemove(_, _) =>
          && (t in s.records ==> Terminal(s.records[t])) && s.executions[t] == 0 && t !in s.futures
        case _ => true)
  }

  /** What the shared memory says about one task, by where the task is. */
  ghost predicate TaskInv(s: State, t: TaskId) {
    && (t in s.place <==> t in s.called || t in s.foreign)
    && (t in s.records ==> t in s.accepted || t in s.foreign)
    && (t in s.heap && t in s.place ==> s.place[t].Queued? || (s.closed && AllLeaving(s)))
    && if t !in s.place then
         && t !in s.records && t !in s.heap && t !in s.futures && s.executions[t] == 0
         && Callback(t) !in s.pcs
       else
         match s.place[t]
         case Submitting(c) =>
           && Client(c) in s.pcs && Submits(s.pcs[Client(c)], t) && t in s.called
           && t !in s.records && t !in s.heap && t !in s.futures && s.executions[t] == 0
           && t !in s.accepted && Callback(t) !in s.pcs
           && (t in s.outstanding <==> s.pcs[Client(c)].SubmitStore? || s.pcs[Client(c)].SubmitUndo?)
         case Queued =>
           && t in s.heap && t in s.records && s.records[t].Pending?
           && t !in s.futures && s.executions[t] == 0 && Callback(t) !in s.pcs
           && (t in s.called ==> t in s.outstanding && t in s.accepted)
         case Held(tid) =>
           && tid in s.pcs && HeldInv(s, t, s.pcs[tid])
           && (Callback(t) in s.pcs ==> tid == Callback(t))
         case WithStrategy =>
           && t in s.futures && s.futures[t].Armed? && Callback(t) !in s.pcs
           && t in s.records && s.records[t].Running? && s.executions[t] == 1
           && (t in s.called ==> t in s.outstanding)
         case Finished =>
           && t !in s.outstanding && (t in s.records ==> Terminal(s.records[t]))
           && (t in s.futures ==> s.futures[t].Resolved?) && s.executions[t] <= 1
  }

  /** t waits in the heap and still holds a slot. */
  predicate Waiting(s: State, t: TaskId) {
    t in s.outstanding && t in s.place && s.place[t].Queued?
  }

  /** Nothing the scheduler accepted still waits in the heap. */
  ghost predicate Drained(s: State) {
    forall t :: !Waiting(s, t)
  }

  /** todo is exactly the accepted work still waiting in the heap. */
  ghost predicate Remaining(s: State, todo: set<TaskId>) {
    forall t :: t in todo <==> Waiting(s, t)
  }

  /** What a program counter says about tasks. */
  ghost predicate CarryInv(s: State, tid: Tid) {
    tid in s.pcs ==>
      var pc := s.pcs[tid];
      && (forall t :: Carries(pc, t) ==> t in s.place && s.place[t] == Held(tid))
      && (forall t :: Submits(pc, t) ==>
            t in s.place && tid.Client? && s.place[t] == Submitting(tid.index))
      && (pc.SweepList? ==>
            && pc.ids <= s.called
            && forall t :: Waiting(s, t) ==> t in pc.ids)
      && (pc.SweepLoop? || pc.SweepRemove? || pc.SweepRelease? ==> Remaining(s, pc.todo))
      && (pc.SweepNotify? ==> Drained(s))
      && (pc.ExitRemove? && tid.Worker? && s.threads <= {tid.index} ==> Drained(s))
  }

  ghost predicate NotifyComing(s: State) {
    exists tid :: tid in s.pcs && WillNotify(s.pcs[tid])
  }

  /** A worker that will look at the heap again before it sleeps. */
  predicate Awake(pc: Pc) {
    WorkerPc(pc) && !pc.Parked? && !pc.PulledNone? && !pc.ExitLock? && !Leaving(pc)
  }

  ghost predicate SomeWorkerAwake(s: State) {
    exists i :: i in s.threads && Worker(i) in s.pcs && Awake(s.pcs[Worker(i)])
  }

  /** The work is not forgotten: a worker is awake or a notification is on its way. */
  ghost predicate WorkWake(s: State) {
    s.heap != {} && !s.stopFlag && s.threads != {} ==> SomeWorkerAwake(s) || NotifyComing(s)
  }

  /** Past the test of the stop flag, on the way to sleep or asleep. */
  predicate AboutToSleep(pc: Pc) {
    pc.Pulling? || pc.PulledNone? || pc.Parked?
  }

  /** Nor is the stop flag, once stop has got past closing the strategy: a worker that sleeps or
      is about to has a notification coming. */
  ghost predicate StopWake(s: State) {
    s.stopFlag && s.strategyClosed && (exists i :: Worker(i) in s.pcs && AboutToSleep(s.pcs[Worker(i)]))
    ==> NotifyComing(s)
  }

  /** A worker that found the heap empty and sleeps, or is about to, hears of what came since. */
  ghost predicate HeapWake(s: State) {
    s.heap != {} && (exists i :: Worker(i) in s.pcs && FoundNothing(s.pcs[Worker(i)])) ==> NotifyComing(s)
  }

  predicate FoundNothing(pc: Pc) {
    pc.PulledNone? || pc.Parked?
  }

  /** Nor is a finished task: a query that waits for it, or is about to, has one coming. */
  ghost predicate QueryWake(s: State) {
    forall tid :: tid in s.pcs && (s.pcs[tid].QueryParked? || s.pcs[tid].QueryHold?) ==>
      || (s.pcs[tid].task in s.records && !Terminal(s.records[s.pcs[tid].task]))
      || NotifyComing(s)
  }

  ghost function TransitThreads(s: State): set<Tid> {
    set tid | tid in s.pcs && InTransit(s.pcs[tid])
  }

  /** Free permits, recorded ids and threads in transit add up to the configured limit. */
  ghost predicate SlotInv(s: State) {
    s.free >= 0 && s.free + |s.outstanding| + |TransitThreads(s)| == s.slots
  }

  /** The part of the invariant that is about single threads and single tasks. */
  ghost predicate LocalInv(s: State) {
    && FlagInv(s)
    && (forall tid :: ThreadInv(s, tid))
    && (forall t :: TaskInv(s, t))
    && (forall tid :: CarryInv(s, tid))
    && (s.threads == {} ==> Drained(s))
  }

  ghost predicate WakeInv(s: State) {
    WorkWake(s) && HeapWake(s) && StopWake(s) && QueryWake(s)
  }

  ghost predicate Inv(s: State) {
    LocalInv(s) && SlotInv(s) && WakeInv(s)
  }

  // ---------- frames: a step that moves one thread and touches one task ----------

  predicate LockMove(before: Option<Tid>, after: Option<Tid>, actor: Tid) {
    after == before || (before in {None, Some(actor)} && after in {None, Some(actor)})
  }

  /** The thread side of a step of one actor. */
  ghost predicate MovesOnly(s: State, s': State, actor: Tid) {
    && (forall tid :: tid != actor ==>
          (tid in s'.pcs <==> tid in s.pcs) && (tid in s.pcs ==> s'.pcs[tid] == s.pcs[tid]))
    && s'.threads == s.threads && s'.closed == s.closed && s'.stopFlag == s.stopFlag
    && s'.accepting == s.accepting && s'.workers == s.workers && s'.foreign == s.foreign
    && LockMove(s.condLock, s'.condLock, actor)
    && LockMove(s.lifecycleLock, s'.lifecycleLock, actor)
    && LockMove(s.threadsLock, s'.threadsLock, actor)
  }

  ghost predicate SameTask(s: State, s': State, t: TaskId) {
    && (t in s'.records <==> t in s.records) && (t in s.records ==> s'.records[t] == s.records[t])
    && (t in s'.futures <==> t in s.futures) && (t in s.futures ==> s'.futures[t] == s.futures[t])
    && (t in s'.place <==> t in s.place) && (t in s.place ==> s'.place[t] == s.place[t])
    && (t in s'.heap <==> t in s.heap) && (t in s'.outstanding <==> t in s.outstanding)
    && (t in s'.called <==> t in s.called) && (t in s'.accepted <==> t in s.accepted)
    && s'.executions[t] == s.executions[t]
  }

  /** The task side of a step about one task. */
  ghost predicate TouchesOnly(s: State, s': State, t0: TaskId) {
    forall t :: t != t0 ==> SameTask(s, s', t)
  }
}
