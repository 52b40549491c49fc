/**
 What a stop achieves when strategy.close may raise. The stop flag is set before the strategy is
 closed and the workers are notified after it, so a stop that raises in between leaves the flag
 set and nobody notified.
 */
module SchedulerStop {
  import opened Core
  import opened SchedulerMachine
  import opened SchedulerInvariant
  import opened SchedulerSlotsWake
  import opened SchedulerTheorems
  import opened SchedulerFrame
  import opened SchedulerGuarantees

  /** A worker that sleeps, or is about to, has a notification coming. */
  ghost predicate Roused(s: State) {
    (exists i :: SleepyAt(s, Worker(i))) ==> NotifyComing(s)
  }

  // ---------- one step after the flag is set ----------

  /** A step that leaves the other threads where they are. Its own thread was not asleep, does
      not go to sleep and drops no notification it owes. */
  ghost predicate Quiet(s: State, s': State, actor: Tid) {
    && SamePcs(s, s', actor) && s'.closed
    && (actor in s.pcs ==> !s.pcs[actor].Parked?)
    && (NotifyAt(s, actor) ==> NotifyAt(s', actor))
    && (SleepyAt(s', actor) ==> SleepyAt(s, actor))
  }

  lemma SubmitQuiet(s: State, c: nat, step: SubmitStep)
    requires ThreadInv(s, Client(c)) && s.closed && !s.accepting && CanSubmit(s, c, step)
    ensures !step.Notify? && Quiet(s, ApplySubmit(s, c, step), Client(c))
  {
  }

  lemma LoopQuiet(s: State, w: nat, step: LoopStep)
    requires s.closed && s.stopFlag && CanLoop(s, w, step)
    ensures Quiet(s, ApplyLoop(s, w, step), Worker(w))
  {
  }

  lemma RunQuiet(s: State, w: nat, step: RunStep)
    requires s.closed && CanRun(s, w, step)
    ensures Quiet(s, ApplyRun(s, w, step), Worker(w))
  {
    hide Quiet, DoReadRecord, DoAddCallback, DoWriteBroken, DoWriteRunning;
    match step
    case ReadRecord => ReadRecordQuiet(s, w);
    case AddCallback => AddCallbackQuiet(s, w);
    case WriteBroken => WriteBrokenQuiet(s, w);
    case WriteRunning => WriteRunningQuiet(s, w);
    case _ => ExecuteQuiet(s, w, step);
  }

  lemma ReadRecordQuiet(s: State, w: nat)
    requires s.closed && CanRun(s, w, ReadRecord)
    ensures Quiet(s, DoReadRecord(s, w), Worker(w))
  {
  }

  lemma WriteRunningQuiet(s: State, w: nat)
    requires s.closed && CanRun(s, w, WriteRunning)
    ensures Quiet(s, DoWriteRunning(s, w), Worker(w))
  {
  }

  lemma ExecuteQuiet(s: State, w: nat, step: RunStep)
    requires s.closed && CanRun(s, w, step) && (step.Execute? || step.ExecuteRaises? || step.StartHookRaises?)
    ensures Quiet(s, ApplyRun(s, w, step), Worker(w))
  {
  }

  lemma AddCallbackQuiet(s: State, w: nat)
    requires s.closed && CanRun(s, w, AddCallback)
    ensures Quiet(s, DoAddCallback(s, w), Worker(w))
  {
  }

  lemma WriteBrokenQuiet(s: State, w: nat)
    requires s.closed && CanRun(s, w, WriteBroken)
    ensures Quiet(s, DoWriteBroken(s, w), Worker(w))
  {
  }

  lemma FinishQuiet(s: State, tid: Tid, step: FinishStep)
    requires s.closed && CanFinish(s, tid, step) && !step.NotifyDone?
    ensures Quiet(s, ApplyFinish(s, tid, step), tid)
  {
  }

  lemma ExitQuiet(s: State, w: nat, step: ExitStep)
    requires s.closed && CanExit(s, w, step)
    ensures Quiet(s, ApplyExit(s, w, step), Worker(w))
  {
    hide Quiet, DoTakeThreadsLock, DoLeaveThreads;
    match step
    case TakeThreadsLock => TakeThreadsLockQuiet(s, w);
    case LeaveThreads => LeaveThreadsQuiet(s, w);
  }

  lemma TakeThreadsLockQuiet(s: State, w: nat)
    requires s.closed && CanExit(s, w, TakeThreadsLock)
    ensures Quiet(s, DoTakeThreadsLock(s, w), Worker(w))
  {
    if s.stopFlag && s.threads <= {w} {
    } else {
    }
  }

  lemma LeaveThreadsQuiet(s: State, w: nat)
    requires s.closed && CanExit(s, w, LeaveThreads)
    ensures Quiet(s, DoLeaveThreads(s, w), Worker(w))
  {
  }

  lemma SweepQuiet(s: State, tid: Tid, step: SweepStep)
    requires s.closed && CanSweep(s, tid, step) && !step.NotifySwept?
    ensures Quiet(s, ApplySweep(s, tid, step), tid)
  {
    hide Quiet, DoEnd;
    match step
    case End => EndQuiet(s, tid);
    case _ => SweepOneQuiet(s, tid, step);
  }

  lemma SweepOneQuiet(s: State, tid: Tid, step: SweepStep)
    requires s.closed && CanSweep(s, tid, step) && !step.NotifySwept? && !step.End?
    ensures Quiet(s, ApplySweep(s, tid, step), tid)
  {
  }

  lemma EndQuiet(s: State, tid: Tid)
    requires s.closed && CanSweep(s, tid, End)
    ensures Quiet(s, DoEnd(s, tid), tid)
  {
    hide Quiet, AfterSweep;
    if s.pcs[tid].any {
      NotifyNextQuiet(s, tid);
    } else {
      SweepOverQuiet(s, tid);
    }
  }

  lemma NotifyNextQuiet(s: State, tid: Tid)
    requires s.closed && tid in s.pcs && s.pcs[tid].SweepLoop?
    ensures Quiet(s, s.Goto(tid, SweepNotify), tid)
  {
  }

  lemma SweepOverQuiet(s: State, tid: Tid)
    requires s.closed && tid in s.pcs && s.pcs[tid].SweepLoop? && !s.pcs[tid].any
    ensures Quiet(s, AfterSweep(s, tid), tid)
  {
    if tid.Worker? {
    } else {
    }
  }

  lemma QueryQuiet(s: State, c: nat, step: QueryStep)
    requires s.closed && CanQuery(s, c, step)
    ensures Quiet(s, ApplyQuery(s, c, step), Client(c))
  {
    hide Quiet, DoLook;
    match step
    case Look => LookQuiet(s, c);
    case _ => WaitQuiet(s, c, step);
  }

  lemma WaitQuiet(s: State, c: nat, step: QueryStep)
    requires s.closed && CanQuery(s, c, step) && !step.Look?
    ensures Quiet(s, ApplyQuery(s, c, step), Client(c))
  {
  }

  lemma LookQuiet(s: State, c: nat)
    requires s.closed && CanQuery(s, c, Look)
    ensures Quiet(s, DoLook(s, c), Client(c))
  {
  }

  lemma StopQuiet(s: State, c: nat, step: StopStep)
    requires s.closed && CanStop(s, c, step) && !step.NotifyStop?
    ensures Quiet(s, ApplyStop(s, c, step), Client(c))
  {
    hide Quiet, DoJoined;
    match step
    case Joined => JoinedQuiet(s, c);
    case _ => CloseQuiet(s, c, step);
  }

  lemma CloseQuiet(s: State, c: nat, step: StopStep)
    requires s.closed && CanStop(s, c, step) && !step.NotifyStop? && !step.Joined?
    ensures Quiet(s, ApplyStop(s, c, step), Client(c))
  {
  }

  lemma JoinedQuiet(s: State, c: nat)
    requires s.closed && CanStop(s, c, Joined)
    ensures Quiet(s, DoJoined(s, c), Client(c))
  {
  }

  lemma ResolveQuiet(s: State, t: TaskId, ok: bool)
    requires s.closed && CanResolve(s, t) && ThreadInv(s, Callback(t))
    ensures Quiet(s, ApplyResolve(s, t, ok), Callback(t))
  {
  }

  lemma ForgetQuiet(s: State, t: TaskId)
    requires s.closed && CanForget(s, t) && ThreadInv(s, Callback(t))
    ensures Quiet(s, ApplyForget(s, t), Callback(t))
  {
  }

  /** The thread a step is reckoned to. */
  function ThreadOf(e: Event): Tid {
    match e
    case Resolve(t, _) => Callback(t)
    case Forget(t) => Callback(t)
    case _ => ActorOf(e).value
  }

  lemma StepQuiet(s: State, e: Event)
    requires LocalInv(s) && s.closed && Enabled(s, e) && !Notifies(e)
    ensures Quiet(s, Apply(s, e), ThreadOf(e))
  {
    assert ThreadInv(s, ThreadOf(e));
    hide LocalInv, ThreadInv, Quiet, ApplySubmit, ApplyLoop, ApplyRun, ApplyFinish, ApplyExit, ApplySweep, ApplyQuery,
         ApplyStop, ApplyResolve, ApplyForget, CanSubmit, CanLoop, CanRun, CanFinish, CanExit, CanSweep, CanQuery,
         CanStop, CanResolve, CanForget;
    match e
    case Submit(c, step) => SubmitQuiet(s, c, step);
    case Loop(w, step) => LoopQuiet(s, w, step);
    case RunTask(w, step) => RunQuiet(s, w, step);
    case Finish(tid, step) => FinishQuiet(s, tid, step);
    case Exit(w, step) => ExitQuiet(s, w, step);
    case Sweep(tid, step) => SweepQuiet(s, tid, step);
    case Query(c, step) => QueryQuiet(s, c, step);
    case Stop(c, step) => StopQuiet(s, c, step);
    case Resolve(t, ok) => ResolveQuiet(s, t, ok);
    case Forget(t) => ForgetQuiet(s, t);
  }

  lemma NotifyAllRouses(s: State, s': State, actor: Tid)
    requires LocalInv(s) && s.condLock.None? && SamePcs(NotifyAll(s), s', actor) && !SleepyAt(s', actor)
    ensures Roused(s')
  {
    forall i ensures !SleepyAt(s', Worker(i)) {
      assert ThreadInv(s, Worker(i));
      assert Worker(i) in NotifyAll(s).pcs <==> Worker(i) in s.pcs;
    }
  }

  ghost predicate Wakes(s: State, s': State, actor: Tid) {
    && s.condLock.None? && SamePcs(NotifyAll(s), s', actor) && !SleepyAt(s', actor)
    && NotifyAt(s, actor) && s'.closed
  }

  lemma SubmitStopWakes(s: State, e: Event)
    requires s.closed && Enabled(s, e) && Notifies(e) && (e.Submit? || e.Stop?)
    ensures Wakes(s, Apply(s, e), ThreadOf(e))
  {
  }

  lemma FinishWakes(s: State, tid: Tid)
    requires s.closed && CanFinish(s, tid, NotifyDone)
    ensures Wakes(s, DoNotifyDone(s, tid), tid)
  {
  }

  lemma SweptWakes(s: State, tid: Tid)
    requires s.closed && CanSweep(s, tid, NotifySwept)
    ensures Wakes(s, DoNotifySwept(s, tid), tid)
  {
  }

  /** A thread that wakes everybody owed it, and does it with the condition lock free: nobody
      is between finding the heap empty and going to sleep. */
  lemma NotifyRouses(s: State, e: Event)
    requires LocalInv(s) && s.closed && Enabled(s, e) && Notifies(e)
    ensures Apply(s, e).closed && Roused(Apply(s, e)) && NotifyComing(s)
  {
    hide LocalInv, Roused, Wakes, DoNotifySwept, DoNotifyDone;
    match e {
      case Finish(tid, _) => FinishWakes(s, tid);
      case Sweep(tid, _) => SweptWakes(s, tid);
      case _ => SubmitStopWakes(s, e);
    }
    assert Wakes(s, Apply(s, e), ThreadOf(e));
    hide Apply, Enabled;
    WakesRouses(s, Apply(s, e), ThreadOf(e));
  }

  lemma WakesRouses(s: State, s': State, actor: Tid)
    requires LocalInv(s) && Wakes(s, s', actor)
    ensures s'.closed && Roused(s') && NotifyComing(s)
  {
    NotifyAllRouses(s, s', actor);
  }

  /** After the stop flag is set, no step of any thread takes the workers back to a sleep that
      nobody will end, even while the strategy is not closed. */
  lemma RousedStays(s: State, e: Event)
    requires LocalInv(s) && s.closed && Roused(s) && Enabled(s, e)
    ensures Apply(s, e).closed && Roused(Apply(s, e))
  {
    if Notifies(e) {
      NotifyRouses(s, e);
    } else {
      StepQuiet(s, e);
      hide LocalInv, Enabled, Apply;
      QuietRoused(s, Apply(s, e), ThreadOf(e));
    }
  }

  lemma QuietRoused(s: State, s': State, actor: Tid)
    requires Quiet(s, s', actor) && Roused(s)
    ensures Roused(s')
  {
    if i :| SleepyAt(s', Worker(i)) {
      assert SleepyAt(s, Worker(i));
      var n :| n in s.pcs && WillNotify(s.pcs[n]);
      assert NotifyAt(s, n) && NotifyAt(s', n);
    }
  }

  /** A worker that sleeps while nobody owes a notification sleeps on. */
  lemma ParkedStays(s: State, e: Event, w: nat)
    requires LocalInv(s) && s.closed && Enabled(s, e) && !NotifyComing(s) && s.At(Worker(w), Parked)
    ensures Apply(s, e).closed && Apply(s, e).At(Worker(w), Parked)
  {
    if Notifies(e) {
      NotifyRouses(s, e);
    } else {
      StepQuiet(s, e);
    }
  }

  // ---------- whole runs ----------

  lemma {:induction false} RousedFrom(states: seq<State>, events: seq<Event>, k: nat, i: nat)
    requires Run(states, events) && k <= i < |states| && states[k].stopFlag && Roused(states[k])
    ensures states[i].stopFlag && Roused(states[i])
  {
    hide Roused, Enabled, Fresh, Init, Apply, LocalInv, SlotInv, WakeInv;
    RunInv(states, events, i);
    if k < i {
      RousedFrom(states, events, k, i - 1);
      RunInv(states, events, i - 1);
      assert Step(states[i - 1], events[i - 1], states[i - 1 + 1]);
      FlagsAgree(states[i - 1]);
      RousedStays(states[i - 1], events[i - 1]);
      FlagsAgree(states[i]);
    }
  }

  lemma FlagsAgree(s: State)
    requires LocalInv(s)
    ensures s.stopFlag == s.closed
  {
  }

  /** Some stop has got past closing the strategy, or a thread has its notification to do. */
  ghost predicate WakeDue(s: State) {
    s.strategyClosed || NotifyComing(s)
  }

  lemma DueRoused(s: State)
    requires Inv(s) && s.stopFlag && WakeDue(s)
    ensures Roused(s)
  {
    if i :| SleepyAt(s, Worker(i)) {
      assert AboutToSleep(s.pcs[Worker(i)]);
    }
  }

  lemma RestingRoused(s: State)
    requires LocalInv(s) && Quiescent(s) && Roused(s)
    ensures s.threads == {}
  {
    forall tid | tid in s.pcs ensures Asleep(s.pcs[tid]) { AllAsleep(s, tid); }
    assert !NotifyComing(s);
    forall w ensures w !in s.threads {
      assert ThreadInv(s, Worker(w));
      assert Worker(w) in s.pcs ==> SleepyAt(s, Worker(w));
    }
  }

  /** If no worker is asleep or about to be when the flag is set, or a wake-up is due at any time
      after it, the scheduler comes to rest only when every worker has left. */
  lemma WorkersLeave(states: seq<State>, events: seq<Event>, k: nat, i: nat)
    requires Run(states, events) && k <= i < |states| && states[k].stopFlag && Quiescent(states[i])
    requires WakeDue(states[k]) || Roused(states[k])
    ensures states[i].threads == {}
  {
    RunInv(states, events, k);
    RunInv(states, events, i);
    if WakeDue(states[k]) { DueRoused(states[k]); }
    RousedFrom(states, events, k, i);
    RestingRoused(states[i]);
  }

  lemma {:induction false} ClosedFrom(states: seq<State>, events: seq<Event>, k: nat, i: nat, c: nat)
    requires Run(states, events) && k < i < |states| && events[k] == Stop(c, Closed)
    ensures states[i].strategyClosed
  {
    hide Init, Fresh, Apply, Enabled;
    assert Step(states[i - 1], events[i - 1], states[i - 1 + 1]);
    if i - 1 == k {
      ClosedStep(states[k], c);
    } else {
      ClosedFrom(states, events, k, i - 1, c);
      StaysClosedStep(states[i - 1], events[i - 1]);
    }
  }

  lemma ClosedStep(s: State, c: nat)
    requires Enabled(s, Stop(c, Closed))
    ensures Apply(s, Stop(c, Closed)).strategyClosed
  {
  }

  lemma StaysClosedStep(s: State, e: Event)
    requires Enabled(s, e) && s.strategyClosed
    ensures Apply(s, e).strategyClosed
  {
    StepFrame(s, e);
    if e.Stop? && e.stop.Closed? { ClosedStep(s, e.client); }
    hide Apply, Enabled;
  }

  /** Once the close of some stop has returned, the scheduler comes to rest only without workers. */
  lemma ClosedStops(states: seq<State>, events: seq<Event>, k: nat, i: nat, c: nat)
    requires Run(states, events) && k < i < |states| && events[k] == Stop(c, Closed) && Quiescent(states[i])
    ensures states[i].threads == {}
  {
    hide Run, Quiescent;
    ClosedFrom(states, events, k, i, c);
    RunInv(states, events, i);
    FlagsOfClose(states[i]);
    NoLostWakeup(states, events, i);
  }

  lemma FlagsOfClose(s: State)
    requires LocalInv(s) && s.strategyClosed
    ensures s.stopFlag
  {
  }

  // ---------- who leaves, and what stop still finds to do ----------

  /** A worker leaves its loop if and only if it looks at the stop flag, before a pull or after one
      that raised, and finds it set. */
  lemma LoopEndsIff(states: seq<State>, events: seq<Event>, i: nat, w: nat)
    requires Run(states, events) && i < |events| && events[i].Loop? && events[i].worker == w
    ensures Worker(w) in states[i].pcs
    ensures states[i + 1].At(Worker(w), ExitLock) <==>
              states[i].stopFlag && (states[i].At(Worker(w), Checking) || states[i].At(Worker(w), PullFailed))
  {
    assert Step(states[i], events[i], states[i + 1]);
    LoopEnds(states[i], w, events[i].loop);
  }

  lemma LoopEnds(s: State, w: nat, step: LoopStep)
    requires CanLoop(s, w, step)
    ensures Worker(w) in s.pcs
    ensures ApplyLoop(s, w, step).At(Worker(w), ExitLock) <==>
              s.stopFlag && (s.At(Worker(w), Checking) || s.At(Worker(w), PullFailed))
  {
  }

  /** A stop looks for tasks that nobody will run if and only if its join left no worker, and then
      it finds none: the last worker has failed them. */
  lemma StopFindsNothing(states: seq<State>, events: seq<Event>, i: nat, c: nat)
    requires Run(states, events) && i < |states|
    ensures i < |events| && events[i] == Stop(c, Joined) ==>
              if states[i].threads == {} then states[i + 1].At(Client(c), SweepSnapshot)
              else Client(c) !in states[i + 1].pcs
    ensures Client(c) in states[i].pcs && states[i].pcs[Client(c)].SweepLoop? ==> states[i].pcs[Client(c)].todo == {}
  {
    if i < |events| && events[i] == Stop(c, Joined) {
      assert Step(states[i], events[i], states[i + 1]);
      JoinEnds(states[i], c);
    }
    RunInv(states, events, i);
    hide Run;
    if Client(c) in states[i].pcs && states[i].pcs[Client(c)].SweepLoop? { NothingLeft(states[i], c); }
  }

  lemma JoinEnds(s: State, c: nat)
    requires CanStop(s, c, Joined)
    ensures if s.threads == {} then DoJoined(s, c).At(Client(c), SweepSnapshot)
            else Client(c) !in DoJoined(s, c).pcs
  {
  }

  lemma NothingLeft(s: State, c: nat)
    requires LocalInv(s) && Client(c) in s.pcs && s.pcs[Client(c)].SweepLoop?
    ensures s.pcs[Client(c)].todo == {}
  {
    assert ThreadInv(s, Client(c)) && CarryInv(s, Client(c));
    hide ThreadInv, TaskInv, CarryInv;
    NoThreads(s, c);
    ToDo(s, c);
  }

  lemma NoThreads(s: State, c: nat)
    requires ThreadInv(s, Client(c)) && Client(c) in s.pcs && s.pcs[Client(c)].SweepLoop?
    ensures s.threads == {}
  {
  }

  lemma ToDo(s: State, c: nat)
    requires CarryInv(s, Client(c)) && Client(c) in s.pcs && s.pcs[Client(c)].SweepLoop?
    ensures Remaining(s, s.pcs[Client(c)].todo)
  {
  }

  lemma {:induction false} ParkedFrom(states: seq<State>, events: seq<Event>, b: nat, i: nat, w: nat)
    requires Run(states, events) && b <= i < |states|
    requires states[b].stopFlag && states[b].At(Worker(w), Parked)
    requires forall k :: b <= k < i ==> !WakeDue(states[k])
    ensures states[i].stopFlag && states[i].At(Worker(w), Parked)
  {
    hide WakeDue, Enabled, Fresh, Init, Apply, LocalInv, SlotInv, WakeInv;
    RunInv(states, events, i);
    if b < i {
      ParkedFrom(states, events, b, i - 1, w);
      RunInv(states, events, i - 1);
      assert Step(states[i - 1], events[i - 1], states[i - 1 + 1]);
      FlagsAgree(states[i - 1]);
      assert !NotifyComing(states[i - 1]) by { NotDue(states[i - 1]); }
      ParkedStays(states[i - 1], events[i - 1], w);
      FlagsAgree(states[i]);
    }
  }

  lemma NotDue(s: State)
    requires !WakeDue(s)
    ensures !NotifyComing(s)
  {
  }

  /** The exact condition: when a worker sleeps at a moment b at which the stop flag is set, the
      scheduler comes to rest without any worker if and only if, at b or later, some stop got
      past closing the strategy or some thread had its notification to do. */
  lemma WorkersLeaveIff(states: seq<State>, events: seq<Event>, b: nat, i: nat, w: nat)
    requires Run(states, events) && b <= i < |states| && Quiescent(states[i])
    requires states[b].stopFlag && states[b].At(Worker(w), Parked)
    ensures states[i].threads == {} <==> exists k :: b <= k <= i && WakeDue(states[k])
  {
    RunInv(states, events, i);
    if k :| b <= k <= i && WakeDue(states[k]) {
      RousedLater(states, events, b, k);
      WorkersLeave(states, events, k, i);
    } else {
      ParkedFrom(states, events, b, i, w);
      assert ThreadInv(states[i], Worker(w));
    }
  }

  /** The stop flag is never cleared. */
  lemma {:induction false} RousedLater(states: seq<State>, events: seq<Event>, b: nat, k: nat)
    requires Run(states, events) && b <= k < |states| && states[b].stopFlag
    ensures states[k].stopFlag
  {
    hide Enabled, Fresh, Init, Apply, LocalInv, SlotInv, WakeInv;
    RunInv(states, events, k);
    FlagsAgree(states[k]);
    if b < k {
      RousedLater(states, events, b, k - 1);
      RunInv(states, events, k - 1);
      assert Step(states[k - 1], events[k - 1], states[k - 1 + 1]);
      FlagsAgree(states[k - 1]);
      ClosedStays(states[k - 1], events[k - 1]);
    }
  }

  lemma ClosedStays(s: State, e: Event)
    requires LocalInv(s) && s.closed && Enabled(s, e)
    ensures Apply(s, e).closed
  {
    if Notifies(e) {
      NotifyRouses(s, e);
    } else {
      StepQuiet(s, e);
    }
  }

  // ---------- a stop whose close raised, with no task at work ----------

  predicate Aside(pc: Pc) {
    pc.Parked? || QueryPc(pc) || pc.SubmitLock? || pc.StopClose?
  }

  /** Closed, with the strategy not closed, every worker asleep and every future done. */
  ghost predicate Dormant(s: State) {
    && s.closed && !s.strategyClosed
    && (forall tid :: tid in s.pcs ==> Aside(s.pcs[tid]))
    && (forall t :: t in s.futures ==> s.futures[t].Resolved?)
  }

  lemma DormantSubmit(s: State, c: nat, step: SubmitStep)
    requires Dormant(s) && !s.accepting && CanSubmit(s, c, step)
    ensures Dormant(ApplySubmit(s, c, step))
  {
  }

  lemma DormantQuery(s: State, c: nat, step: QueryStep)
    requires Dormant(s) && CanQuery(s, c, step)
    ensures Dormant(ApplyQuery(s, c, step))
  {
  }

  lemma DormantStop(s: State, c: nat, step: StopStep)
    requires Dormant(s) && CanStop(s, c, step) && !step.Closed?
    ensures Dormant(ApplyStop(s, c, step))
  {
  }

  lemma DormantOnly(s: State, e: Event)
    requires Dormant(s) && Enabled(s, e)
    ensures e.Submit? || e.Query? || e.Stop? || e.Forget?
  {
  }

  /** A dormant scheduler stays dormant, whatever is called, until a close succeeds. */
  lemma DormantStays(s: State, e: Event)
    requires LocalInv(s) && Dormant(s) && Enabled(s, e) && !(e.Stop? && e.stop.Closed?)
    ensures Dormant(Apply(s, e))
  {
    DormantOnly(s, e);
    assert !s.accepting;
    hide LocalInv, Dormant, ApplySubmit, ApplyQuery, ApplyStop, CanSubmit, CanQuery, CanStop;
    match e {
      case Submit(c, step) => DormantSubmit(s, c, step);
      case Query(c, step) => DormantQuery(s, c, step);
      case Stop(c, step) => DormantStop(s, c, step);
      case Forget(t) => DormantForget(s, t);
      case _ =>
    }
  }

  lemma DormantForget(s: State, t: TaskId)
    requires Dormant(s)
    ensures Dormant(ApplyForget(s, t))
  {
  }

  lemma {:induction false} DormantForever(states: seq<State>, events: seq<Event>, b: nat, i: nat, w: nat)
    requires Run(states, events) && b <= i < |states| && Dormant(states[b]) && states[b].At(Worker(w), Parked)
    requires forall k :: b <= k < i ==> !(events[k].Stop? && events[k].stop.Closed?)
    ensures Dormant(states[i]) && states[i].At(Worker(w), Parked) && w in states[i].threads
  {
    hide Dormant, Enabled, Fresh, Init, Apply, LocalInv, SlotInv, WakeInv;
    RunInv(states, events, i);
    if b < i {
      DormantForever(states, events, b, i - 1, w);
      RunInv(states, events, i - 1);
      var s, e := states[i - 1], events[i - 1];
      assert Step(s, e, states[i - 1 + 1]);
      DormantStays(s, e);
      DormantOwesNothing(s);
      ParkedStays(s, e, w);
    }
    ParkedIsListed(states[i], w);
  }

  lemma DormantOwesNothing(s: State)
    requires Dormant(s)
    ensures s.closed && !NotifyComing(s)
  {
  }

  lemma ParkedIsListed(s: State, w: nat)
    requires LocalInv(s) && s.At(Worker(w), Parked)
    ensures w in s.threads
  {
    assert ThreadInv(s, Worker(w));
  }

  // ---------- such a stop exists ----------

  const Unused: State :=
    State(1, {0}, {}, map[], {}, 1, {}, false, true, false, false, {}, None, None, None, map[], map[],
          {}, {}, multiset{}, map[])

  /** One worker, started by a call of submit that has not got the lifecycle lock yet. */
  function Called(t: TaskId, pc: Pc, lock: Option<Tid>): State {
    Unused.(threads := {0}, called := {t}, place := map[t := Submitting(0)], condLock := lock,
            pcs := map[Worker(0) := pc, Client(0) := SubmitLock(t)])
  }

  function Stopping(t: TaskId): State {
    Called(t, Parked, None)
    .(stopFlag := true, accepting := false, closed := true, lifecycleLock := Some(Client(1)),
      pcs := map[Worker(0) := Parked, Client(0) := SubmitLock(t), Client(1) := StopClose])
  }

  function Left(t: TaskId): State {
    Called(t, Parked, None).(stopFlag := true, accepting := false, closed := true)
  }

  function Abandoned(t: TaskId): State {
    Left(t).(place := map[t := Finished], pcs := map[Worker(0) := Parked])
  }

  function EventsToSleep(t: TaskId): seq<Event> {
    [Submit(0, Call(t)), Loop(0, TakeCondition), Loop(0, CheckStop), Loop(0, PullNothing), Loop(0, Park),
     Stop(1, Begin), Stop(1, CloseRaises), Submit(0, Enter)]
  }

  function StatesToSleep(t: TaskId): seq<State> {
    var lock := Some(Worker(0));
    [Unused, Called(t, LoopTop, None), Called(t, Checking, lock), Called(t, Pulling, lock),
     Called(t, PulledNone, lock), Called(t, Parked, None), Stopping(t), Left(t), Abandoned(t)]
  }

  lemma CallStarts(t: TaskId)
    ensures Step(Unused, Submit(0, Call(t)), Called(t, LoopTop, None))
  {
    assert DoCall(Unused, 0, t).pcs == Called(t, LoopTop, None).pcs;
    assert DoCall(Unused, 0, t) == Called(t, LoopTop, None);
  }

  lemma CalledAt(t: TaskId, pc: Pc, pc': Pc, lock: Option<Tid>)
    ensures Called(t, pc, lock).pcs[Worker(0) := pc'] == Called(t, pc', lock).pcs
  {
  }

  lemma ChecksStop(t: TaskId)
    ensures Step(Called(t, LoopTop, None), Loop(0, TakeCondition), Called(t, Checking, Some(Worker(0))))
    ensures Step(Called(t, Checking, Some(Worker(0))), Loop(0, CheckStop), Called(t, Pulling, Some(Worker(0))))
  {
    CalledAt(t, LoopTop, Checking, None);
    CalledAt(t, Checking, Pulling, Some(Worker(0)));
  }

  lemma FallsAsleep(t: TaskId)
    ensures Step(Called(t, Pulling, Some(Worker(0))), Loop(0, PullNothing), Called(t, PulledNone, Some(Worker(0))))
    ensures Step(Called(t, PulledNone, Some(Worker(0))), Loop(0, Park), Called(t, Parked, None))
  {
    CalledAt(t, Pulling, PulledNone, Some(Worker(0)));
    CalledAt(t, PulledNone, Parked, Some(Worker(0)));
  }

  lemma StopRaises(t: TaskId)
    ensures Step(Called(t, Parked, None), Stop(1, Begin), Stopping(t))
    ensures Step(Stopping(t), Stop(1, CloseRaises), Left(t))
  {
    assert Called(t, Parked, None).pcs[Client(1) := StopClose] == Stopping(t).pcs;
    assert Stopping(t).pcs - {Client(1)} == Left(t).pcs;
  }

  lemma TurnedAway(t: TaskId)
    ensures Step(Left(t), Submit(0, Enter), Abandoned(t))
  {
    assert Left(t).pcs - {Client(0)} == Abandoned(t).pcs;
    assert DoEnter(Left(t), 0) == Abandoned(t);
  }

  /** One worker finds nothing to do and sleeps; another client stops the scheduler and the close
      raises; the first client is turned away. The scheduler comes to rest with its worker asleep
      for ever after a stop. */
  lemma StopLeavesWorker(t: TaskId)
    ensures Run(StatesToSleep(t), EventsToSleep(t))
    ensures var s := Abandoned(t);
      StatesToSleep(t)[8] == s && Quiescent(s) && Dormant(s) && s.threads == {0} && s.At(Worker(0), Parked)
  {
    hide Step, Apply, Called, Stopping, Left, Abandoned;
    CallStarts(t);
    ChecksStop(t);
    FallsAsleep(t);
    StopRaises(t);
    TurnedAway(t);
    AbandonedAtRest(t);
    assert Init(Unused);
  }

  lemma AbandonedAtRest(t: TaskId)
    ensures var s := Abandoned(t); Quiescent(s) && Dormant(s) && s.threads == {0} && s.At(Worker(0), Parked)
  {
    var s := Abandoned(t);
    forall tid ensures !CanMove(s, tid) {
    }
  }
}
