/**
 The scheduler as a transition system. A state is the memory the threads share plus one
 program counter per thread; an event is one atomic step of one thread: a region executed
 under a lock, or a single access to shared memory made outside every lock.
 */
module SchedulerMachine {
  import opened Core

  /** Worker(i) runs the worker loop, Client(i) is a caller of the public methods, and
      Callback(t) is the thread in which the strategy runs the done-callback of task t. */
  datatype Tid = Worker(index: nat) | Client(index: nat) | Callback(task: TaskId)

  datatype Pc =
    // _worker_loop and _pull_task_or_none
    | LoopTop                                  // about to take the condition lock
    | Checking                                 // holds it, about to test the stop flag
    | Pulling                                  // holds it, about to call backend.pull
    | PulledNone                               // holds it, pull found nothing, about to wait
    | Parked                                   // inside condition.wait
    | PullFailed                               // pull raised, the lock is released
    // _run_task
    | Hand(task: TaskId)
    | SawPending(task: TaskId)
    | Started(task: TaskId)
    | GotFuture(task: TaskId)
    | Broken(task: TaskId)                     // an exception is about to be recorded
    // _complete_task and _finish_execution
    | Completing(task: TaskId, ok: bool)
    | FinishRemove(task: TaskId)
    | FinishRelease(task: TaskId)
    | FinishNotify(task: TaskId)
    // _worker_exited
    | ExitLock
    | ExitRemove
    // _fail_pending_tasks, run by the last worker or by stop
    | SweepSnapshot
    | SweepList(ids: set<TaskId>)
    | SweepLoop(todo: set<TaskId>, any: bool)
    | SweepRemove(task: TaskId, todo: set<TaskId>)
    | SweepRelease(task: TaskId, todo: set<TaskId>)
    | SweepNotify
    // submit
    | SubmitLock(task: TaskId)
    | SubmitAcquire(task: TaskId)
    | SubmitAdd(task: TaskId)
    | SubmitStore(task: TaskId)
    | SubmitNotify(task: TaskId)
    | SubmitUndo(task: TaskId)
    | SubmitUndoRelease(task: TaskId)
    // query(wait=True)
    | QueryLock(task: TaskId, timed: bool)
    | QueryCheck(task: TaskId, timed: bool)
    | QueryHold(task: TaskId, timed: bool)     // saw a live task, about to wait
    | QueryParked(task: TaskId, timed: bool)
    // stop
    | StopClose
    | StopNotify
    | StopJoin

  /** What the strategy did with the future of a task: not yet observed, observed through a
      done-callback, or done. */
  datatype Fut = Open | Armed | Resolved(ok: bool)

  /** Auxiliary: where the responsibility for a task lies. No guard reads it. */
  datatype Place = Submitting(client: nat) | Queued | Held(tid: Tid) | WithStrategy | Finished

  datatype State = State(
    slots: nat, workers: set<nat>, foreign: set<TaskId>,           // constants
    records: map<TaskId, TaskStatus>, heap: set<TaskId>,           // the backend
    free: int, outstanding: set<TaskId>,                           // semaphore and id set
    stopFlag: bool, accepting: bool, closed: bool, strategyClosed: bool,
    threads: set<nat>,                                             // _threads
    condLock: Option<Tid>, lifecycleLock: Option<Tid>, threadsLock: Option<Tid>,
    futures: map<TaskId, Fut>,
    pcs: map<Tid, Pc>,                                             // absent: not running
    // auxiliary history
    called: set<TaskId>, accepted: set<TaskId>, executions: multiset<TaskId>,
    place: map<TaskId, Place>)
  {
    function Goto(tid: Tid, pc: Pc): State {
      this.(pcs := pcs[tid := pc])
    }

    function Leave(tid: Tid): State {
      this.(pcs := pcs - {tid})
    }

    function Put(t: TaskId, where: Place): State {
      this.(place := place[t := where])
    }

    predicate At(tid: Tid, pc: Pc) {
      tid in pcs && pcs[tid] == pc
    }
  }

  /** The scheduler before its first call, over a backend that may already hold records the
      scheduler never submitted. */
  ghost predicate Init(s: State) {
    && s.slots >= 1 && s.workers != {}
    && s.heap == s.foreign
    && s.records == (map t | t in s.foreign :: Pending)
    && s.place == (map t | t in s.foreign :: Queued)
    && s.free == s.slots && s.outstanding == {}
    && !s.stopFlag && s.accepting && !s.closed && !s.strategyClosed && s.threads == {}
    && s.condLock == s.lifecycleLock == s.threadsLock == None
    && s.futures == map[] && s.pcs == map[]
    && s.called == {} && s.accepted == {} && s.executions == multiset{}
  }

  // One datatype of steps per operation; a step is executed by one thread.

  datatype SubmitStep = Call(task: TaskId) | Enter | TakeSlot | AddId | Store | StoreRaises | UndoId | UndoSlot | Notify

  datatype LoopStep = TakeCondition | CheckStop | Pull(chosen: TaskId) | PullNothing | PullRaises | Retry | Park

  datatype RunStep =
    | ReadRecord | WriteRunning | Execute(done: Option<bool>) | ExecuteRaises | StartHookRaises
    | AddCallback | WriteBroken

  datatype FinishStep = WriteOutcome | RemoveId | ReleaseSlot | NotifyDone

  datatype ExitStep = TakeThreadsLock | LeaveThreads

  datatype SweepStep = TakeIds | TakeRecords | Fail(failed: TaskId) | DropId | FreeSlot | End | NotifySwept

  datatype QueryStep = Ask(task: TaskId, timed: bool) | Take | Look | Wait | WaitTimesOut | GiveUp

  // strategy.close() either returns or raises out of stop, which lets the lock go
  datatype StopStep = Begin | Closed | CloseRaises | NotifyStop | Joined

  datatype Event =
    | Submit(client: nat, submit: SubmitStep)
    | Loop(worker: nat, loop: LoopStep)
    | RunTask(worker: nat, run: RunStep)
    | Finish(tid: Tid, finish: FinishStep)
    | Exit(worker: nat, exit: ExitStep)
    | Sweep(tid: Tid, sweep: SweepStep)
    | Query(client: nat, query: QueryStep)
    | Stop(client: nat, stop: StopStep)
    | Resolve(resolved: TaskId, outcome: bool)   // the strategy completes a future
    | Forget(gone: TaskId)                       // a terminal record is consumed or evicted

  // ---------- effects shared by several steps ----------

  /** condition.notify_all(): every waiter leaves wait() and has to take the lock again. */
  function Woken(pc: Pc): Pc {
    match pc
    case Parked => LoopTop
    case QueryParked(t, timed) => QueryLock(t, timed)
    case _ => pc
  }

  function NotifyAll(s: State): State {
    s.(pcs := map tid | tid in s.pcs :: Woken(s.pcs[tid]))
  }

  /** start(): spawns the worker threads once. */
  function Start(s: State): State {
    if s.threads != {} then s
    else
      s.(stopFlag := false,
         threads := s.workers,
         pcs := s.pcs + (map i | i in s.workers :: Worker(i) := LoopTop))
  }

  function AfterSweep(s: State, tid: Tid): State {
    if tid.Worker? then s.Goto(tid, ExitRemove)
    else s.(lifecycleLock := None).Leave(tid)
  }

  /** backend.update_status for a task that reaches a terminal status; a missing record makes
      it raise KeyError, which changes nothing. */
  function WriteStatus(s: State, t: TaskId, st: TaskStatus): State {
    if t in s.records then s.(records := s.records[t := st]) else s
  }

  predicate CompletionPc(pc: Pc) {
    pc.Completing? || pc.FinishRemove? || pc.FinishRelease? || pc.FinishNotify?
  }

  // ---------- guards and effects, one operation at a time, one function per step ----------

  predicate CanSubmit(s: State, c: nat, step: SubmitStep) {
    var tid := Client(c);
    match step
    case Call(t) => tid !in s.pcs && s.lifecycleLock.None?
    case Enter => tid in s.pcs && s.pcs[tid].SubmitLock? && s.lifecycleLock.None?
    case TakeSlot => tid in s.pcs && s.pcs[tid].SubmitAcquire?
    case AddId => tid in s.pcs && s.pcs[tid].SubmitAdd?
    case Store => tid in s.pcs && s.pcs[tid].SubmitStore?
    case StoreRaises => tid in s.pcs && s.pcs[tid].SubmitStore?
    case UndoId => tid in s.pcs && s.pcs[tid].SubmitUndo?
    case UndoSlot => tid in s.pcs && s.pcs[tid].SubmitUndoRelease?
    case Notify => tid in s.pcs && s.pcs[tid].SubmitNotify? && s.condLock.None?
  }

  function DoCall(s: State, c: nat, t: TaskId): State
    requires Client(c) !in s.pcs && s.lifecycleLock.None?
  {
    var tid := Client(c);
    // start() raises once the scheduler is closed
    if s.closed then s
    else Start(s).(called := s.called + {t}).Put(t, Submitting(c)).Goto(tid, SubmitLock(t))
  }

  function DoEnter(s: State, c: nat): State
    requires Client(c) in s.pcs && s.pcs[Client(c)].SubmitLock? && s.lifecycleLock.None?
  {
    var tid := Client(c);
    var t := s.pcs[tid].task;
    if !s.accepting || t in s.records then s.Put(t, Finished).Leave(tid)
    else s.(lifecycleLock := Some(tid)).Goto(tid, SubmitAcquire(t))
  }

  function DoTakeSlot(s: State, c: nat): State
    requires Client(c) in s.pcs && s.pcs[Client(c)].SubmitAcquire?
  {
    var tid := Client(c);
    var t := s.pcs[tid].task;
    if s.free > 0 then s.(free := s.free - 1).Goto(tid, SubmitAdd(t))
    else s.(lifecycleLock := None).Put(t, Finished).Leave(tid)
  }

  function DoAddId(s: State, c: nat): State
    requires Client(c) in s.pcs && s.pcs[Client(c)].SubmitAdd?
  {
    var tid := Client(c);
    var t := s.pcs[tid].task;
    s.(outstanding := s.outstanding + {t}).Goto(tid, SubmitStore(t))
  }

  function DoStore(s: State, c: nat): State
    requires Client(c) in s.pcs && s.pcs[Client(c)].SubmitStore?
  {
    var tid := Client(c);
    var t := s.pcs[tid].task;
    s.(records := s.records[t := Pending], heap := s.heap + {t}, accepted := s.accepted + {t})
    .Put(t, Queued).Goto(tid, SubmitNotify(t))
  }

  function DoStoreRaises(s: State, c: nat): State
    requires Client(c) in s.pcs && s.pcs[Client(c)].SubmitStore?
  {
    var tid := Client(c);
    s.Goto(tid, SubmitUndo(s.pcs[tid].task))
  }

  function DoUndoId(s: State, c: nat): State
    requires Client(c) in s.pcs && s.pcs[Client(c)].SubmitUndo?
  {
    var tid := Client(c);
    var t := s.pcs[tid].task;
    // _release_outstanding_slot returns early for an id that is not recorded
    if t in s.outstanding then
      s.(outstanding := s.outstanding - {t}).Put(t, Finished).Goto(tid, SubmitUndoRelease(t))
    else s.(lifecycleLock := None).Put(t, Finished).Leave(tid)
  }

  function DoUndoSlot(s: State, c: nat): State
    requires Client(c) in s.pcs && s.pcs[Client(c)].SubmitUndoRelease?
  {
    var tid := Client(c);
    s.(free := s.free + 1, lifecycleLock := None).Leave(tid)
  }

  function DoSubmitNotify(s: State, c: nat): State
    requires Client(c) in s.pcs && s.pcs[Client(c)].SubmitNotify? && s.condLock.None?
  {
    var tid := Client(c);
    NotifyAll(s).(lifecycleLock := None).Leave(tid)
  }

  function ApplySubmit(s: State, c: nat, step: SubmitStep): State
    requires CanSubmit(s, c, step)
  {
    match step
    case Call(t) => DoCall(s, c, t)
    case Enter => DoEnter(s, c)
    case TakeSlot => DoTakeSlot(s, c)
    case AddId => DoAddId(s, c)
    case Store => DoStore(s, c)
    case StoreRaises => DoStoreRaises(s, c)
    case UndoId => DoUndoId(s, c)
    case UndoSlot => DoUndoSlot(s, c)
    case Notify => DoSubmitNotify(s, c)
  }

  predicate CanLoop(s: State, w: nat, step: LoopStep) {
    var tid := Worker(w);
    match step
    case TakeCondition => s.At(tid, LoopTop) && s.condLock.None?
    case CheckStop => s.At(tid, Checking)
    case Pull(t) => s.At(tid, Pulling) && t in s.heap
    case PullNothing => s.At(tid, Pulling) && s.heap == {}
    case PullRaises => s.At(tid, Pulling)
    case Retry => s.At(tid, PullFailed)
    case Park => s.At(tid, PulledNone)
  }

  function DoTakeCondition(s: State, w: nat): State
    requires s.At(Worker(w), LoopTop) && s.condLock.None?
  {
    var tid := Worker(w);
    s.(condLock := Some(tid)).Goto(tid, Checking)
  }

  function DoCheckStop(s: State, w: nat): State
    requires s.At(Worker(w), Checking)
  {
    var tid := Worker(w);
    if s.stopFlag then s.(condLock := None).Goto(tid, ExitLock) else s.Goto(tid, Pulling)
  }

  function DoPull(s: State, w: nat, t: TaskId): State
    requires s.At(Worker(w), Pulling) && t in s.heap
  {
    var tid := Worker(w);
    s.(heap := s.heap - {t}, condLock := None).Put(t, Held(tid)).Goto(tid, Hand(t))
  }

  function DoPullNothing(s: State, w: nat): State
    requires s.At(Worker(w), Pulling) && s.heap == {}
  {
    var tid := Worker(w);
    s.Goto(tid, PulledNone)
  }

  function DoPullRaises(s: State, w: nat): State
    requires s.At(Worker(w), Pulling)
  {
    var tid := Worker(w);
    s.(condLock := None).Goto(tid, PullFailed)
  }

  function DoRetry(s: State, w: nat): State
    requires s.At(Worker(w), PullFailed)
  {
    var tid := Worker(w);
    if s.stopFlag then s.Goto(tid, ExitLock) else s.Goto(tid, LoopTop)
  }

  function DoPark(s: State, w: nat): State
    requires s.At(Worker(w), PulledNone)
  {
    var tid := Worker(w);
    s.(condLock := None).Goto(tid, Parked)
  }

  function ApplyLoop(s: State, w: nat, step: LoopStep): State
    requires CanLoop(s, w, step)
  {
    match step
    case TakeCondition => DoTakeCondition(s, w)
    case CheckStop => DoCheckStop(s, w)
    case Pull(t) => DoPull(s, w, t)
    case PullNothing => DoPullNothing(s, w)
    case PullRaises => DoPullRaises(s, w)
    case Retry => DoRetry(s, w)
    case Park => DoPark(s, w)
  }

  predicate CanRun(s: State, w: nat, step: RunStep) {
    var tid := Worker(w);
    && tid in s.pcs
    && match step
       case ReadRecord => s.pcs[tid].Hand?
       case WriteRunning => s.pcs[tid].SawPending?
       case Execute(done) => s.pcs[tid].Started?
       case ExecuteRaises => s.pcs[tid].Started?
       case StartHookRaises => s.pcs[tid].Started?
       case AddCallback =>
         && s.pcs[tid].GotFuture? && s.pcs[tid].task in s.futures
         && !s.futures[s.pcs[tid].task].Armed?
       case WriteBroken => s.pcs[tid].Broken?
  }

  function DoReadRecord(s: State, w: nat): State
    requires Worker(w) in s.pcs && s.pcs[Worker(w)].Hand?
  {
    var tid := Worker(w);
    var t := s.pcs[tid].task;
    if t in s.records && s.records[t].Pending? then s.Goto(tid, SawPending(t))
    else s.Put(t, Finished).Goto(tid, LoopTop)
  }

  function DoWriteRunning(s: State, w: nat): State
    requires Worker(w) in s.pcs && s.pcs[Worker(w)].SawPending?
  {
    var tid := Worker(w);
    var t := s.pcs[tid].task;
    if t in s.records then s.(records := s.records[t := Running]).Goto(tid, Started(t))
    else s.Goto(tid, Broken(t))
  }

  function DoExecute(s: State, w: nat, done: Option<bool>): State
    requires Worker(w) in s.pcs && s.pcs[Worker(w)].Started?
  {
    var tid := Worker(w);
    var t := s.pcs[tid].task;
    s.(futures := s.futures[t := if done.Some? then Resolved(done.value) else Open],
       executions := s.executions + multiset{t})
    .Goto(tid, GotFuture(t))
  }

  function DoExecuteRaises(s: State, w: nat): State
    requires Worker(w) in s.pcs && s.pcs[Worker(w)].Started?
  {
    var tid := Worker(w);
    var t := s.pcs[tid].task;
    s.(executions := s.executions + multiset{t}).Goto(tid, Broken(t))
  }

  function DoStartHookRaises(s: State, w: nat): State
    requires Worker(w) in s.pcs && s.pcs[Worker(w)].Started?
  {
    var tid := Worker(w);
    var t := s.pcs[tid].task;
    s.Goto(tid, Broken(t))
  }

  function DoAddCallback(s: State, w: nat): State
    requires Worker(w) in s.pcs && s.pcs[Worker(w)].GotFuture?
             && s.pcs[Worker(w)].task in s.futures && !s.futures[s.pcs[Worker(w)].task].Armed?
  {
    var tid := Worker(w);
    var t := s.pcs[tid].task;
    if s.futures[t].Resolved? then s.Goto(tid, Completing(t, s.futures[t].ok))
    else s.(futures := s.futures[t := Armed]).Put(t, WithStrategy).Goto(tid, LoopTop)
  }

  function DoWriteBroken(s: State, w: nat): State
    requires Worker(w) in s.pcs && s.pcs[Worker(w)].Broken?
  {
    var tid := Worker(w);
    var t := s.pcs[tid].task;
    WriteStatus(s, t, Failed).Goto(tid, FinishRemove(t))
  }

  function ApplyRun(s: State, w: nat, step: RunStep): State
    requires CanRun(s, w, step)
  {
    match step
    case ReadRecord => DoReadRecord(s, w)
    case WriteRunning => DoWriteRunning(s, w)
    case Execute(done) => DoExecute(s, w, done)
    case ExecuteRaises => DoExecuteRaises(s, w)
    case StartHookRaises => DoStartHookRaises(s, w)
    case AddCallback => DoAddCallback(s, w)
    case WriteBroken => DoWriteBroken(s, w)
  }

  predicate CanFinish(s: State, tid: Tid, step: FinishStep) {
    && tid in s.pcs
    && match step
       case WriteOutcome => s.pcs[tid].Completing?
       case RemoveId => s.pcs[tid].FinishRemove?
       case ReleaseSlot => s.pcs[tid].FinishRelease?
       case NotifyDone => s.pcs[tid].FinishNotify? && s.condLock.None?
  }

  function DoWriteOutcome(s: State, tid: Tid): State
    requires tid in s.pcs && s.pcs[tid].Completing?
  {
    var t := s.pcs[tid].task;
    WriteStatus(s, t, if s.pcs[tid].ok then Completed else Failed).Goto(tid, FinishRemove(t))
  }

  function DoRemoveId(s: State, tid: Tid): State
    requires tid in s.pcs && s.pcs[tid].FinishRemove?
  {
    var t := s.pcs[tid].task;
    s.(outstanding := s.outstanding - {t}).Put(t, Finished)
    .Goto(tid, if t in s.outstanding then FinishRelease(t) else FinishNotify(t))
  }

  function DoReleaseSlot(s: State, tid: Tid): State
    requires tid in s.pcs && s.pcs[tid].FinishRelease?
  {
    var t := s.pcs[tid].task;
    s.(free := s.free + 1).Goto(tid, FinishNotify(t))
  }

  function DoNotifyDone(s: State, tid: Tid): State
    requires tid in s.pcs && s.pcs[tid].FinishNotify? && s.condLock.None?
  {
    if tid.Worker? then NotifyAll(s).Goto(tid, LoopTop) else NotifyAll(s).Leave(tid)
  }

  function ApplyFinish(s: State, tid: Tid, step: FinishStep): State
    requires CanFinish(s, tid, step)
  {
    match step
    case WriteOutcome => DoWriteOutcome(s, tid)
    case RemoveId => DoRemoveId(s, tid)
    case ReleaseSlot => DoReleaseSlot(s, tid)
    case NotifyDone => DoNotifyDone(s, tid)
  }

  predicate CanExit(s: State, w: nat, step: ExitStep) {
    match step
    case TakeThreadsLock => s.At(Worker(w), ExitLock) && s.threadsLock.None?
    case LeaveThreads => s.At(Worker(w), ExitRemove)
  }

  function DoTakeThreadsLock(s: State, w: nat): State
    requires s.At(Worker(w), ExitLock) && s.threadsLock.None?
  {
    var s' := s.(threadsLock := Some(Worker(w)));
    if s.stopFlag && s.threads <= {w} then s'.Goto(Worker(w), SweepSnapshot)
    else s'.Goto(Worker(w), ExitRemove)
  }

  function DoLeaveThreads(s: State, w: nat): State
    requires s.At(Worker(w), ExitRemove)
  {
    s.(threads := s.threads - {w}, threadsLock := None).Leave(Worker(w))
  }

  function ApplyExit(s: State, w: nat, step: ExitStep): State
    requires CanExit(s, w, step)
  {
    match step
    case TakeThreadsLock => DoTakeThreadsLock(s, w)
    case LeaveThreads => DoLeaveThreads(s, w)
  }

  predicate CanSweep(s: State, tid: Tid, step: SweepStep) {
    && tid in s.pcs
    && match step
       case TakeIds => s.pcs[tid].SweepSnapshot?
       case TakeRecords => s.pcs[tid].SweepList?
       case Fail(t) => s.pcs[tid].SweepLoop? && t in s.pcs[tid].todo
       case DropId => s.pcs[tid].SweepRemove?
       case FreeSlot => s.pcs[tid].SweepRelease?
       case End => s.pcs[tid].SweepLoop? && s.pcs[tid].todo == {}
       case NotifySwept => s.pcs[tid].SweepNotify? && s.condLock.None?
  }

  function DoTakeIds(s: State, tid: Tid): State
    requires tid in s.pcs && s.pcs[tid].SweepSnapshot?
  {
    s.Goto(tid, SweepList(s.outstanding))
  }

  function DoTakeRecords(s: State, tid: Tid): State
    requires tid in s.pcs && s.pcs[tid].SweepList?
  {
    var pc := s.pcs[tid];
    var todo := set t | t in pc.ids && t in s.records && s.records[t].Pending?;
    s.Goto(tid, SweepLoop(todo, todo != {}))
  }

  function DoFail(s: State, tid: Tid, t: TaskId): State
    requires tid in s.pcs && s.pcs[tid].SweepLoop? && t in s.pcs[tid].todo
  {
    var pc := s.pcs[tid];
    WriteStatus(s, t, Failed).Put(t, Held(tid)).Goto(tid, SweepRemove(t, pc.todo - {t}))
  }

  function DoDropId(s: State, tid: Tid): State
    requires tid in s.pcs && s.pcs[tid].SweepRemove?
  {
    var pc := s.pcs[tid];
    s.(outstanding := s.outstanding - {pc.task}).Put(pc.task, Finished)
    .Goto(tid, if pc.task in s.outstanding then SweepRelease(pc.task, pc.todo) else SweepLoop(pc.todo, true))
  }

  function DoFreeSlot(s: State, tid: Tid): State
    requires tid in s.pcs && s.pcs[tid].SweepRelease?
  {
    var pc := s.pcs[tid];
    s.(free := s.free + 1).Goto(tid, SweepLoop(pc.todo, true))
  }

  function DoEnd(s: State, tid: Tid): State
    requires tid in s.pcs && s.pcs[tid].SweepLoop? && s.pcs[tid].todo == {}
  {
    var pc := s.pcs[tid];
    if pc.any then s.Goto(tid, SweepNotify) else AfterSweep(s, tid)
  }

  function DoNotifySwept(s: State, tid: Tid): State
    requires tid in s.pcs && s.pcs[tid].SweepNotify? && s.condLock.None?
  {
    AfterSweep(NotifyAll(s), tid)
  }

  function ApplySweep(s: State, tid: Tid, step: SweepStep): State
    requires CanSweep(s, tid, step)
  {
    match step
    case TakeIds => DoTakeIds(s, tid)
    case TakeRecords => DoTakeRecords(s, tid)
    case Fail(t) => DoFail(s, tid, t)
    case DropId => DoDropId(s, tid)
    case FreeSlot => DoFreeSlot(s, tid)
    case End => DoEnd(s, tid)
    case NotifySwept => DoNotifySwept(s, tid)
  }

  predicate CanQuery(s: State, c: nat, step: QueryStep) {
    var tid := Client(c);
    match step
    case Ask(t, timed) => tid !in s.pcs && t in s.records && !Terminal(s.records[t])
    case Take => tid in s.pcs && s.pcs[tid].QueryLock? && s.condLock.None?
    case Look => tid in s.pcs && s.pcs[tid].QueryCheck?
    case Wait => tid in s.pcs && s.pcs[tid].QueryHold?
    case WaitTimesOut => tid in s.pcs && s.pcs[tid].QueryParked? && s.pcs[tid].timed
    case GiveUp => tid in s.pcs && s.pcs[tid].QueryHold? && s.pcs[tid].timed
  }

  function DoAsk(s: State, c: nat, t: TaskId, timed: bool): State
    requires Client(c) !in s.pcs && t in s.records && !Terminal(s.records[t])
  {
    var tid := Client(c);
    s.Goto(tid, QueryLock(t, timed))
  }

  function DoTake(s: State, c: nat): State
    requires Client(c) in s.pcs && s.pcs[Client(c)].QueryLock? && s.condLock.None?
  {
    var tid := Client(c);
    s.(condLock := Some(tid)).Goto(tid, QueryCheck(s.pcs[tid].task, s.pcs[tid].timed))
  }

  function DoLook(s: State, c: nat): State
    requires Client(c) in s.pcs && s.pcs[Client(c)].QueryCheck?
  {
    var tid := Client(c);
    var pc := s.pcs[tid];
    // a missing record raises NOT_FOUND, a terminal one is returned
    if pc.task !in s.records || Terminal(s.records[pc.task]) then s.(condLock := None).Leave(tid)
    else s.Goto(tid, QueryHold(pc.task, pc.timed))
  }

  function DoWait(s: State, c: nat): State
    requires Client(c) in s.pcs && s.pcs[Client(c)].QueryHold?
  {
    var tid := Client(c);
    s.(condLock := None).Goto(tid, QueryParked(s.pcs[tid].task, s.pcs[tid].timed))
  }

  function DoWaitTimesOut(s: State, c: nat): State
    requires Client(c) in s.pcs && s.pcs[Client(c)].QueryParked? && s.pcs[Client(c)].timed
  {
    var tid := Client(c);
    s.Goto(tid, QueryLock(s.pcs[tid].task, true))
  }

  function DoGiveUp(s: State, c: nat): State
    requires Client(c) in s.pcs && s.pcs[Client(c)].QueryHold? && s.pcs[Client(c)].timed
  {
    var tid := Client(c);
    s.(condLock := None).Leave(tid)
  }

  function ApplyQuery(s: State, c: nat, step: QueryStep): State
    requires CanQuery(s, c, step)
  {
    match step
    case Ask(t, timed) => DoAsk(s, c, t, timed)
    case Take => DoTake(s, c)
    case Look => DoLook(s, c)
    case Wait => DoWait(s, c)
    case WaitTimesOut => DoWaitTimesOut(s, c)
    case GiveUp => DoGiveUp(s, c)
  }

  predicate CanStop(s: State, c: nat, step: StopStep) {
    var tid := Client(c);
    match step
    case Begin => tid !in s.pcs && s.lifecycleLock.None?
    case Closed => s.At(tid, StopClose)
    case CloseRaises => s.At(tid, StopClose) && !s.strategyClosed
    case NotifyStop => s.At(tid, StopNotify) && s.condLock.None?
    case Joined => s.At(tid, StopJoin) && s.threadsLock.None?
  }

  function DoBegin(s: State, c: nat): State
    requires Client(c) !in s.pcs && s.lifecycleLock.None?
  {
    var tid := Client(c);
    s.(lifecycleLock := Some(tid), stopFlag := true, accepting := false, closed := true)
    .Goto(tid, StopClose)
  }

  function DoClosed(s: State, c: nat): State
    requires s.At(Client(c), StopClose)
  {
    var tid := Client(c);
    s.(strategyClosed := true).Goto(tid, StopNotify)
  }

  function DoCloseRaises(s: State, c: nat): State
    requires s.At(Client(c), StopClose) && !s.strategyClosed
  {
    s.(lifecycleLock := None).Leave(Client(c))
  }

  function DoNotifyStop(s: State, c: nat): State
    requires s.At(Client(c), StopNotify) && s.condLock.None?
  {
    var tid := Client(c);
    NotifyAll(s).Goto(tid, StopJoin)
  }

  function DoJoined(s: State, c: nat): State
    requires s.At(Client(c), StopJoin) && s.threadsLock.None?
  {
    var tid := Client(c);
    if s.threads == {} then s.Goto(tid, SweepSnapshot)
    else s.(lifecycleLock := None).Leave(tid)
  }

  function ApplyStop(s: State, c: nat, step: StopStep): State
    requires CanStop(s, c, step)
  {
    match step
    case Begin => DoBegin(s, c)
    case Closed => DoClosed(s, c)
    case CloseRaises => DoCloseRaises(s, c)
    case NotifyStop => DoNotifyStop(s, c)
    case Joined => DoJoined(s, c)
  }

  predicate CanResolve(s: State, t: TaskId) {
    && t in s.futures && !s.futures[t].Resolved?
    && (s.futures[t].Armed? ==> Callback(t) !in s.pcs)
  }

  function ApplyResolve(s: State, t: TaskId, ok: bool): State
    requires CanResolve(s, t)
  {
    var s' := s.(futures := s.futures[t := Resolved(ok)]);
    if s.futures[t].Open? then s'
    else s'.Put(t, Held(Callback(t))).Goto(Callback(t), Completing(t, ok))
  }

  predicate CanForget(s: State, t: TaskId) {
    t in s.records && Terminal(s.records[t])
  }

  function ApplyForget(s: State, t: TaskId): State {
    s.(records := s.records - {t})
  }

  // ---------- the whole machine ----------

  predicate Enabled(s: State, e: Event) {
    match e
    case Submit(c, step) => CanSubmit(s, c, step)
    case Loop(w, step) => CanLoop(s, w, step)
    case RunTask(w, step) => CanRun(s, w, step)
    case Finish(tid, step) => CanFinish(s, tid, step)
    case Exit(w, step) => CanExit(s, w, step)
    case Sweep(tid, step) => CanSweep(s, tid, step)
    case Query(c, step) => CanQuery(s, c, step)
    case Stop(c, step) => CanStop(s, c, step)
    case Resolve(t, _) => CanResolve(s, t)
    case Forget(t) => CanForget(s, t)
  }

  function Apply(s: State, e: Event): State
    requires Enabled(s, e)
  {
    match e
    case Submit(c, step) => ApplySubmit(s, c, step)
    case Loop(w, step) => ApplyLoop(s, w, step)
    case RunTask(w, step) => ApplyRun(s, w, step)
    case Finish(tid, step) => ApplyFinish(s, tid, step)
    case Exit(w, step) => ApplyExit(s, w, step)
    case Sweep(tid, step) => ApplySweep(s, tid, step)
    case Query(c, step) => ApplyQuery(s, c, step)
    case Stop(c, step) => ApplyStop(s, c, step)
    case Resolve(t, ok) => ApplyResolve(s, t, ok)
    case Forget(t) => ApplyForget(s, t)
  }

  /** Task ids are generated when a request is created and a request is submitted once. */
  predicate Fresh(s: State, e: Event) {
    e.Submit? && e.submit.Call? ==> e.submit.task !in s.called && e.submit.task !in s.foreign
  }

  ghost predicate Step(s: State, e: Event, s': State) {
    Enabled(s, e) && Fresh(s, e) && s' == Apply(s, e)
  }

  /** A run: a finite sequence of states from an initial one, each reached by one event. */
  ghost predicate Run(states: seq<State>, events: seq<Event>) {
    && |states| == |events| + 1
    && Init(states[0])
    && forall i :: 0 <= i < |events| ==> Step(states[i], events[i], states[i + 1])
  }
}
