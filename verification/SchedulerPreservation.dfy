/** Every step keeps the part of the invariant about single threads and single tasks. */
module SchedulerPreservation {
  import opened Core
  import opened SchedulerMachine
  import opened SchedulerInvariant

  lemma OtherThread(s: State, s': State, actor: Tid, tid: Tid)
    requires MovesOnly(s, s', actor) && tid != actor && ThreadInv(s, tid)
    ensures ThreadInv(s', tid)
  {
    hide HoldsCondition, Sweeping, StopPc, SubmitLocked, Leaving, ClientPc, WorkerPc, CompletionPc;
  }

  lemma OtherTask(s: State, s': State, actor: Tid, t: TaskId)
    requires MovesOnly(s, s', actor) && SameTask(s, s', t)
    requires TaskInv(s, t) && (s.closed && AllLeaving(s) ==> AllLeaving(s'))
    requires actor in s.pcs ==> !Carries(s.pcs[actor], t) && !Submits(s.pcs[actor], t)
    requires Callback(t) == actor ==> (actor in s.pcs <==> actor in s'.pcs)
    ensures TaskInv(s', t)
  {
    hide Leaving, AllLeaving;
  }

  lemma OtherCarry(s: State, s': State, actor: Tid, t0: TaskId, tid: Tid)
    requires MovesOnly(s, s', actor) && TouchesOnly(s, s', t0) && s.called <= s'.called
    requires tid != actor && CarryInv(s, tid) && ThreadInv(s, tid)
    requires tid in s.pcs ==> !Carries(s.pcs[tid], t0) && !Submits(s.pcs[tid], t0)
    requires Waiting(s', t0) == Waiting(s, t0) || (tid in s.pcs ==> !Leaving(s.pcs[tid]))
             || (!Waiting(s', t0) && (tid in s.pcs ==> !Sweeping(s.pcs[tid])))
    ensures CarryInv(s', tid)
  {
    forall t | t != t0 ensures Waiting(s', t) == Waiting(s, t)
      ensures (t in s.place <==> t in s'.place) && (t in s.place ==> s'.place[t] == s.place[t])
    {
      assert SameTask(s, s', t);
    }
  }

  /** A step that moves one thread and touches one task keeps the local invariant, provided it
      does so for that thread and that task. */
  lemma FrameKeeps(s: State, s': State, actor: Tid, t0: TaskId)
    requires LocalInv(s) && FlagInv(s') && MovesOnly(s, s', actor) && TouchesOnly(s, s', t0)
    requires s.called <= s'.called
    requires ThreadInv(s', actor) && TaskInv(s', t0) && CarryInv(s', actor)
    // whatever the actor was responsible for is the task it touches
    requires actor in s.pcs ==> forall t :: Carries(s.pcs[actor], t) || Submits(s.pcs[actor], t) ==> t == t0
    requires actor.Callback? ==> actor.task == t0
    requires forall tid :: tid in s.pcs && tid != actor ==> !Carries(s.pcs[tid], t0) && !Submits(s.pcs[tid], t0)
    requires s.closed && AllLeaving(s) ==> AllLeaving(s')
    requires Waiting(s', t0) == Waiting(s, t0) || NoOtherSweep(s, s', actor, t0)
    ensures LocalInv(s')
  {
    forall tid ensures ThreadInv(s', tid) {
      assert ThreadInv(s, tid);
      if tid != actor { OtherThread(s, s', actor, tid); }
    }
    forall t ensures TaskInv(s', t) {
      assert TaskInv(s, t);
      if t != t0 { OtherTask(s, s', actor, t); }
    }
    forall tid ensures CarryInv(s', tid) {
      assert CarryInv(s, tid) && ThreadInv(s, tid);
      if tid != actor { OtherCarry(s, s', actor, t0, tid); }
    }
    forall t | t != t0 ensures Waiting(s', t) == Waiting(s, t) { assert SameTask(s, s', t); }
    assert s.threads == {} ==> Drained(s');
  }

  /** A task starts to wait only before the shutdown, and stops to wait only when nobody else
      is sweeping. */
  ghost predicate NoOtherSweep(s: State, s': State, actor: Tid, t0: TaskId) {
    if Waiting(s', t0) then !s.closed && s.threads != {}
    else forall tid :: tid in s.pcs && tid != actor ==> !Sweeping(s.pcs[tid])
  }

  predicate SameMemory(s: State, s': State) {
    s' == s.(pcs := s'.pcs, free := s'.free, condLock := s'.condLock, lifecycleLock := s'.lifecycleLock,
             threadsLock := s'.threadsLock, strategyClosed := s'.strategyClosed)
  }

  /** A step that only moves one thread, which was responsible for no task and is for none. */
  lemma MoveKeeps(s: State, s': State, actor: Tid)
    requires LocalInv(s) && MovesOnly(s, s', actor) && SameMemory(s, s') && (s'.strategyClosed ==> s.closed)
    requires actor.Callback? ==> actor in s.pcs && actor in s'.pcs
    requires ThreadInv(s', actor) && CarryInv(s', actor)
    requires actor in s.pcs ==> forall t :: !Carries(s.pcs[actor], t) && !Submits(s.pcs[actor], t)
    requires s.closed && AllLeaving(s) ==> AllLeaving(s')
    ensures LocalInv(s')
  {
    forall t ensures SameTask(s, s', t) && Waiting(s', t) == Waiting(s, t) {}
    forall tid ensures ThreadInv(s', tid) {
      assert ThreadInv(s, tid);
      if tid != actor { OtherThread(s, s', actor, tid); }
    }
    forall t ensures TaskInv(s', t) {
      assert TaskInv(s, t);
      OtherTask(s, s', actor, t);
    }
    forall tid ensures CarryInv(s', tid) {
      assert CarryInv(s, tid) && ThreadInv(s, tid);
      if tid != actor && tid in s.pcs { MoveCarry(s, s', actor, tid); }
    }
    assert FlagInv(s');
    hide MovesOnly, SameMemory, ThreadInv, TaskInv, CarryInv, FlagInv, Waiting, AllLeaving, SameTask;
    assert s.threads == {} ==> Drained(s');
  }

  lemma MoveCarry(s: State, s': State, actor: Tid, tid: Tid)
    requires MovesOnly(s, s', actor) && SameMemory(s, s') && CarryInv(s, tid) && ThreadInv(s, tid)
    requires tid != actor && tid in s.pcs
    ensures CarryInv(s', tid)
  {
    // a program counter names at most one task, so one of two ids is not it
    var a, b := TaskId(""), TaskId("b");
    var t0 := if Carries(s.pcs[tid], a) || Submits(s.pcs[tid], a) then b else a;
    OtherCarry(s, s', actor, t0, tid);
  }

  /** No task is tied to the program counter. */
  predicate NoTask(pc: Pc) {
    !(|| pc.Hand? || pc.SawPending? || pc.Started? || pc.GotFuture? || pc.Broken? || pc.Completing? || pc.FinishRemove?
      || pc.SweepRemove? || pc.SubmitLock? || pc.SubmitAcquire? || pc.SubmitAdd? || pc.SubmitStore? || pc.SubmitUndo?)
  }

  /** Nor does it say anything about what still waits. */
  predicate Plain(pc: Pc) {
    NoTask(pc) && !(pc.SweepList? || pc.SweepLoop? || pc.SweepRelease? || pc.SweepNotify? || pc.ExitRemove?)
  }

  /** The thread may be at pc under these locks. */
  predicate Suits(s: State, actor: Tid, pc: Pc, cond: Option<Tid>, life: Option<Tid>, thr: Option<Tid>) {
    && (HoldsCondition(pc) <==> cond == Some(actor))
    && (life == Some(actor) <==> actor.Client? && (SubmitLocked(pc) || StopPc(pc) || Sweeping(pc)))
    && (thr == Some(actor) <==> actor.Worker? && Leaving(pc))
    && (actor.Worker? ==> WorkerPc(pc))
    && (actor.Client? ==> ClientPc(pc))
    && (actor.Callback? ==> CompletionPc(pc) && pc.task == actor.task)
    && (StopPc(pc) || pc.ExitLock? || Leaving(pc) ==> s.closed)
    && (SubmitLocked(pc) ==> !s.closed)
    && (Sweeping(pc) ==> s.threads == (if actor.Worker? then {actor.index} else {}))
  }

  /** A step that puts one thread, which is responsible for no task, at another place. */
  lemma MoveTo(s: State, s': State, actor: Tid, pc: Pc)
    requires LocalInv(s)
    requires s' == s.(pcs := s.pcs[actor := pc], free := s'.free, condLock := s'.condLock,
                      lifecycleLock := s'.lifecycleLock, threadsLock := s'.threadsLock,
                      strategyClosed := s'.strategyClosed)
    requires actor in s.pcs ==> NoTask(s.pcs[actor]) && (actor.Worker? && Leaving(s.pcs[actor]) ==> Leaving(pc))
    requires actor !in s.pcs ==> actor.Client?
    requires Suits(s, actor, pc, s'.condLock, s'.lifecycleLock, s'.threadsLock)
    requires LockMove(s.condLock, s'.condLock, actor) && LockMove(s.lifecycleLock, s'.lifecycleLock, actor)
    requires LockMove(s.threadsLock, s'.threadsLock, actor) && (s'.strategyClosed ==> s.closed)
    requires Plain(pc) || (NoTask(pc) && CarryInv(s', actor))
    ensures LocalInv(s')
  {
    assert ThreadInv(s', actor) by { assert ThreadInv(s, actor); }
    assert CarryInv(s', actor);
    assert s.closed && AllLeaving(s) ==> AllLeaving(s');
    hide LocalInv, ThreadInv, CarryInv, AllLeaving, Suits;
    MoveKeeps(s, s', actor);
  }

  /** A step by which a client that is responsible for no task returns from its call. */
  lemma LeaveTo(s: State, s': State, actor: Tid)
    requires LocalInv(s) && actor.Client? && actor in s.pcs && NoTask(s.pcs[actor])
    requires s' == s.(pcs := s.pcs - {actor}, free := s'.free, condLock := s'.condLock,
                      lifecycleLock := s'.lifecycleLock, threadsLock := s'.threadsLock,
                      strategyClosed := s'.strategyClosed)
    requires s'.condLock != Some(actor) && s'.lifecycleLock != Some(actor) && s'.threadsLock != Some(actor)
    requires LockMove(s.condLock, s'.condLock, actor) && LockMove(s.lifecycleLock, s'.lifecycleLock, actor)
    requires LockMove(s.threadsLock, s'.threadsLock, actor) && (s'.strategyClosed ==> s.closed)
    ensures LocalInv(s')
  {
    assert ThreadInv(s', actor) && CarryInv(s', actor);
    assert s.closed && AllLeaving(s) ==> AllLeaving(s');
    hide LocalInv, ThreadInv, CarryInv, AllLeaving;
    MoveKeeps(s, s', actor);
  }

  /** The parts of the invariant that a step of one thread about one task relies on. */
  lemma Facts(s: State, actor: Tid, t0: TaskId)
    requires LocalInv(s)
    ensures FlagInv(s) && ThreadInv(s, actor) && CarryInv(s, actor) && TaskInv(s, t0)
  {
  }

  lemma ThreadFacts(s: State, actor: Tid)
    requires LocalInv(s)
    ensures FlagInv(s) && ThreadInv(s, actor) && CarryInv(s, actor)
  {
  }

  /** Nobody else is responsible for a task that is with the actor, in the heap or with the
      strategy. */
  lemma SoleCarrier(s: State, actor: Tid, t0: TaskId)
    requires LocalInv(s) && t0 in s.place
    requires s.place[t0].Held? ==> s.place[t0].tid == actor
    requires s.place[t0].Submitting? ==> Client(s.place[t0].client) == actor
    ensures forall tid :: tid in s.pcs && tid != actor ==> !Carries(s.pcs[tid], t0) && !Submits(s.pcs[tid], t0)
  {
    forall tid | tid in s.pcs && tid != actor ensures !Carries(s.pcs[tid], t0) && !Submits(s.pcs[tid], t0) {
      assert CarryInv(s, tid);
    }
  }

  /** Only the worker that is sweeping is still registered, or none is. */
  lemma SoleSweeper(s: State, actor: Tid)
    requires LocalInv(s) && actor in s.pcs
    requires Sweeping(s.pcs[actor]) || (actor.Worker? && !Leaving(s.pcs[actor]))
    ensures forall tid :: tid in s.pcs && tid != actor ==> !Sweeping(s.pcs[tid])
    ensures Sweeping(s.pcs[actor]) ==> AllLeaving(s) && s.closed
  {
    assert ThreadInv(s, actor);
    forall tid | tid in s.pcs && tid != actor ensures !Sweeping(s.pcs[tid]) {
      assert ThreadInv(s, tid);
    }
  }

  /** Running a task, without a lock. */
  predicate Running(pc: Pc) {
    || pc.LoopTop? || pc.Hand? || pc.SawPending? || pc.Started? || pc.GotFuture? || pc.Broken?
    || pc.Completing? || pc.FinishRemove? || pc.FinishRelease? || pc.FinishNotify?
  }

  /** The thread goes on running a task, or goes on inside the locked part of submit. */
  predicate Stays(pc: Pc, next: Pc) {
    (Running(pc) && Running(next)) || (SubmitLocked(pc) && SubmitLocked(next))
  }

  predicate SameControl(s: State, s': State, actor: Tid) {
    && actor in s.pcs && actor in s'.pcs && s'.pcs == s.pcs[actor := s'.pcs[actor]]
    && s' == s.(pcs := s'.pcs, records := s'.records, heap := s'.heap, free := s'.free, outstanding := s'.outstanding,
                futures := s'.futures, accepted := s'.accepted, executions := s'.executions, place := s'.place)
    && Stays(s.pcs[actor], s'.pcs[actor])
    && (actor.Callback? ==> CompletionPc(s'.pcs[actor]) && s'.pcs[actor].task == actor.task)
  }

  lemma StayThread(s: State, s': State, actor: Tid)
    requires ThreadInv(s, actor) && SameControl(s, s', actor)
    ensures ThreadInv(s', actor) && (SubmitLocked(s.pcs[actor]) ==> !s.closed)
  {
  }

  lemma StayMoves(s: State, s': State, actor: Tid)
    requires ThreadInv(s, actor) && SameControl(s, s', actor)
    ensures MovesOnly(s, s', actor) && (s.closed && AllLeaving(s) ==> AllLeaving(s'))
  {
  }

  /** A thread that stays where it is and touches only the task it is responsible for. */
  lemma StayKeeps(s: State, s': State, actor: Tid, t0: TaskId)
    requires LocalInv(s) && SameControl(s, s', actor)
    requires Carries(s.pcs[actor], t0) || Submits(s.pcs[actor], t0)
    requires TouchesOnly(s, s', t0) && TaskInv(s', t0) && CarryInv(s', actor)
    requires s'.outstanding <= s.called && s'.accepted <= s.called
    requires Waiting(s', t0) ==> SubmitLocked(s.pcs[actor]) && t0 in s.called
    ensures LocalInv(s')
  {
    Facts(s, actor, t0);
    StayThread(s, s', actor);
    StayMoves(s, s', actor);
    assert t0 in s.place && (actor.Callback? ==> actor.task == t0) && !Waiting(s, t0);
    SoleCarrier(s, actor, t0);
    assert FlagInv(s') && (Waiting(s', t0) ==> s.threads != {});
    hide LocalInv, TaskInv, CarryInv, ThreadInv, MovesOnly, TouchesOnly, AllLeaving, FlagInv;
    FrameKeeps(s, s', actor, t0);
  }

  /** The task leaves the outstanding set and is finished; the thread goes on to pc. */
  function Retire(s: State, tid: Tid, t0: TaskId, pc: Pc): State {
    s.(outstanding := s.outstanding - {t0}).Put(t0, Finished).Goto(tid, pc)
  }

  lemma RetireFrame(s: State, tid: Tid, t0: TaskId, pc: Pc)
    requires tid in s.pcs && (Leaving(s.pcs[tid]) ==> Leaving(pc))
    ensures var s' := Retire(s, tid, t0, pc);
      MovesOnly(s, s', tid) && TouchesOnly(s, s', t0) && (AllLeaving(s) ==> AllLeaving(s')) && !Waiting(s', t0)
  {
  }

  lemma RetireKeeps(s: State, tid: Tid, t0: TaskId, pc: Pc)
    requires LocalInv(s) && tid in s.pcs && t0 in s.place && !Waiting(s, t0)
    requires Carries(s.pcs[tid], t0) || Submits(s.pcs[tid], t0)
    requires Leaving(s.pcs[tid]) ==> Leaving(pc)
    requires ThreadInv(Retire(s, tid, t0, pc), tid) && TaskInv(Retire(s, tid, t0, pc), t0)
    requires CarryInv(Retire(s, tid, t0, pc), tid)
    ensures LocalInv(Retire(s, tid, t0, pc))
  {
    Facts(s, tid, t0);
    SoleCarrier(s, tid, t0);
    RetireFrame(s, tid, t0, pc);
    hide LocalInv, TaskInv, ThreadInv, CarryInv, MovesOnly, TouchesOnly, AllLeaving, Waiting, Leaving;
    FrameKeeps(s, Retire(s, tid, t0, pc), tid, t0);
  }

  // ---------- submit ----------

  function Admitted(s: State, tid: Tid, t0: TaskId): State {
    s.(lifecycleLock := Some(tid)).Goto(tid, SubmitAcquire(t0))
  }

  lemma AdmittedFits(s: State, tid: Tid, t0: TaskId)
    requires tid in s.pcs && s.pcs[tid] == SubmitLock(t0) && s.lifecycleLock.None? && s.accepting
    requires FlagInv(s) && ThreadInv(s, tid) && CarryInv(s, tid) && TaskInv(s, t0)
    ensures var s' := Admitted(s, tid, t0);
      FlagInv(s') && ThreadInv(s', tid) && CarryInv(s', tid) && TaskInv(s', t0)
  {
  }

  lemma AdmittedMoves(s: State, tid: Tid, t0: TaskId)
    requires tid in s.pcs && s.pcs[tid] == SubmitLock(t0) && s.lifecycleLock.None? && tid.Client?
    ensures var s' := Admitted(s, tid, t0);
      && MovesOnly(s, s', tid) && TouchesOnly(s, s', t0) && (AllLeaving(s) ==> AllLeaving(s'))
      && Waiting(s', t0) == Waiting(s, t0) && s'.called == s.called
  {
  }

  lemma AdmittedLocal(s: State, c: nat)
    requires LocalInv(s) && CanSubmit(s, c, Enter) && s.accepting && s.pcs[Client(c)].task !in s.records
    ensures LocalInv(ApplySubmit(s, c, Enter))
  {
    hide LocalInv;
    var tid := Client(c);
    var t0 := s.pcs[tid].task;
    assert ApplySubmit(s, c, Enter) == Admitted(s, tid, t0);
    hide ApplySubmit, DoEnter, Admitted;
    Facts(s, tid, t0);
    SoleCarrier(s, tid, t0);
    AdmittedFits(s, tid, t0);
    AdmittedMoves(s, tid, t0);
    assert forall t :: Carries(s.pcs[tid], t) || Submits(s.pcs[tid], t) ==> t == t0;
    hide TaskInv, ThreadInv, CarryInv, FlagInv, MovesOnly, TouchesOnly, AllLeaving, Waiting;
    FrameKeeps(s, Admitted(s, tid, t0), tid, t0);
  }

  lemma RefusedLocal(s: State, c: nat)
    requires LocalInv(s) && CanSubmit(s, c, Enter) && (!s.accepting || s.pcs[Client(c)].task in s.records)
    ensures LocalInv(ApplySubmit(s, c, Enter))
  {
    hide LocalInv;
    assert ApplySubmit(s, c, Enter) == DoEnter(s, c);
    hide ApplySubmit, CanSubmit;
    var tid := Client(c);
    var t0 := s.pcs[tid].task;
    Facts(s, tid, t0);
    SoleCarrier(s, tid, t0);
    FrameKeeps(s, ApplySubmit(s, c, Enter), tid, t0);
  }

  lemma EnterLocal(s: State, c: nat)
    requires LocalInv(s) && CanSubmit(s, c, Enter)
    ensures LocalInv(ApplySubmit(s, c, Enter))
  {
    hide LocalInv, ApplySubmit;
    if s.accepting && s.pcs[Client(c)].task !in s.records {
      AdmittedLocal(s, c);
    } else {
      RefusedLocal(s, c);
    }
  }

  lemma TakeSlotLocal(s: State, c: nat)
    requires LocalInv(s) && CanSubmit(s, c, TakeSlot)
    requires s.free > 0
    ensures LocalInv(ApplySubmit(s, c, TakeSlot))
  {
    hide LocalInv;
    assert ApplySubmit(s, c, TakeSlot) == DoTakeSlot(s, c);
    hide ApplySubmit, CanSubmit;
    var tid := Client(c);
    var t0 := s.pcs[tid].task;
    Facts(s, tid, t0);
    StayKeeps(s, ApplySubmit(s, c, TakeSlot), tid, t0);
  }

  lemma NoSlotLocal(s: State, c: nat)
    requires LocalInv(s) && CanSubmit(s, c, TakeSlot)
    requires !(s.free > 0)
    ensures LocalInv(ApplySubmit(s, c, TakeSlot))
  {
    hide LocalInv;
    assert ApplySubmit(s, c, TakeSlot) == DoTakeSlot(s, c);
    hide ApplySubmit, CanSubmit;
    var tid := Client(c);
    var t0 := s.pcs[tid].task;
    Facts(s, tid, t0);
    SoleCarrier(s, tid, t0);
    FrameKeeps(s, ApplySubmit(s, c, TakeSlot), tid, t0);
  }

  lemma AddIdLocal(s: State, c: nat)
    requires LocalInv(s) && CanSubmit(s, c, AddId)
    ensures LocalInv(ApplySubmit(s, c, AddId))
  {
    hide LocalInv;
    assert ApplySubmit(s, c, AddId) == DoAddId(s, c);
    hide ApplySubmit, CanSubmit;
    var tid := Client(c);
    var t0 := s.pcs[tid].task;
    Facts(s, tid, t0);
    StayKeeps(s, ApplySubmit(s, c, AddId), tid, t0);
  }

  lemma StoreTask(s: State, c: nat)
    requires LocalInv(s) && CanSubmit(s, c, Store)
    ensures TaskInv(DoStore(s, c), s.pcs[Client(c)].task) && s.pcs[Client(c)].task in s.called
  {
    Facts(s, Client(c), s.pcs[Client(c)].task);
    hide LocalInv, ThreadInv, FlagInv;
  }

  lemma StoreTouches(s: State, c: nat)
    requires CanSubmit(s, c, Store)
    ensures TouchesOnly(s, DoStore(s, c), s.pcs[Client(c)].task)
  {
  }

  lemma StoreLocal(s: State, c: nat)
    requires LocalInv(s) && CanSubmit(s, c, Store)
    ensures LocalInv(ApplySubmit(s, c, Store))
  {
    hide LocalInv, TaskInv, TouchesOnly;
    assert ApplySubmit(s, c, Store) == DoStore(s, c);
    StoreTask(s, c);
    StoreTouches(s, c);
    hide ApplySubmit, CanSubmit;
    var tid := Client(c);
    var t0 := s.pcs[tid].task;
    Facts(s, tid, t0);
    StayKeeps(s, DoStore(s, c), tid, t0);
  }

  lemma StoreRaisesLocal(s: State, c: nat)
    requires LocalInv(s) && CanSubmit(s, c, StoreRaises)
    ensures LocalInv(ApplySubmit(s, c, StoreRaises))
  {
    hide LocalInv;
    assert ApplySubmit(s, c, StoreRaises) == DoStoreRaises(s, c);
    hide ApplySubmit, CanSubmit;
    var tid := Client(c);
    var t0 := s.pcs[tid].task;
    Facts(s, tid, t0);
    StayKeeps(s, ApplySubmit(s, c, StoreRaises), tid, t0);
  }

  /** An id whose record could not be stored is still outstanding. */
  lemma UndoShape(s: State, c: nat)
    requires LocalInv(s) && CanSubmit(s, c, UndoId)
    ensures var t0 := s.pcs[Client(c)].task;
      && t0 in s.place && t0 in s.outstanding
      && ApplySubmit(s, c, UndoId) == Retire(s, Client(c), t0, SubmitUndoRelease(t0))
  {
    Facts(s, Client(c), s.pcs[Client(c)].task);
  }

  lemma UndoTask(s: State, c: nat)
    requires LocalInv(s) && CanSubmit(s, c, UndoId)
    ensures var t0 := s.pcs[Client(c)].task; TaskInv(Retire(s, Client(c), t0, SubmitUndoRelease(t0)), t0)
  {
    Facts(s, Client(c), s.pcs[Client(c)].task);
    hide LocalInv, ThreadInv, FlagInv;
  }

  lemma UndoCarry(s: State, c: nat)
    requires Client(c) in s.pcs
    ensures forall t0 :: CarryInv(Retire(s, Client(c), t0, SubmitUndoRelease(t0)), Client(c))
  {
  }

  lemma FlagFacts(s: State, actor: Tid)
    requires LocalInv(s)
    ensures s.outstanding <= s.called && s.accepted <= s.called
  {
  }

  lemma UndoControl(s: State, c: nat)
    requires CanSubmit(s, c, UndoId)
    ensures var t0 := s.pcs[Client(c)].task;
            var s' := Retire(s, Client(c), t0, SubmitUndoRelease(t0));
      && SameControl(s, s', Client(c)) && Submits(s.pcs[Client(c)], t0)
      && s'.outstanding <= s.outstanding && s'.accepted == s.accepted && !Waiting(s', t0)
  {
  }

  lemma UndoIdLocal(s: State, c: nat)
    requires LocalInv(s) && CanSubmit(s, c, UndoId)
    ensures LocalInv(ApplySubmit(s, c, UndoId))
  {
    hide LocalInv, ApplySubmit, TouchesOnly, MovesOnly, AllLeaving, TaskInv, CarryInv, SameControl, Waiting, Retire;
    var tid := Client(c);
    var t0 := s.pcs[tid].task;
    UndoShape(s, c);
    UndoTask(s, c);
    UndoCarry(s, c);
    UndoControl(s, c);
    RetireFrame(s, tid, t0, SubmitUndoRelease(t0));
    FlagFacts(s, tid);
    StayKeeps(s, Retire(s, tid, t0, SubmitUndoRelease(t0)), tid, t0);
  }

  lemma UndoSlotLocal(s: State, c: nat)
    requires LocalInv(s) && CanSubmit(s, c, UndoSlot)
    ensures LocalInv(ApplySubmit(s, c, UndoSlot))
  {
    hide LocalInv;
    assert ApplySubmit(s, c, UndoSlot) == DoUndoSlot(s, c);
    hide ApplySubmit, CanSubmit;
    ThreadFacts(s, Client(c));
    LeaveTo(s, DoUndoSlot(s, c), Client(c));
  }

  // ---------- worker loop ----------

  lemma TakeConditionLocal(s: State, w: nat)
    requires LocalInv(s) && CanLoop(s, w, TakeCondition)
    ensures LocalInv(ApplyLoop(s, w, TakeCondition))
  {
    hide LocalInv;
    assert ApplyLoop(s, w, TakeCondition) == DoTakeCondition(s, w);
    hide ApplyLoop, CanLoop;
    ThreadFacts(s, Worker(w));
    MoveTo(s, DoTakeCondition(s, w), Worker(w), Checking);
  }

  lemma CheckStopLocal(s: State, w: nat)
    requires LocalInv(s) && CanLoop(s, w, CheckStop)
    ensures LocalInv(ApplyLoop(s, w, CheckStop))
  {
    hide LocalInv;
    assert ApplyLoop(s, w, CheckStop) == DoCheckStop(s, w);
    hide ApplyLoop, CanLoop;
    ThreadFacts(s, Worker(w));
    if s.stopFlag {
      MoveTo(s, DoCheckStop(s, w), Worker(w), ExitLock);
    } else {
      MoveTo(s, DoCheckStop(s, w), Worker(w), Pulling);
    }
  }

  lemma ParkLocal(s: State, w: nat)
    requires LocalInv(s) && CanLoop(s, w, Park)
    ensures LocalInv(ApplyLoop(s, w, Park))
  {
    hide LocalInv;
    assert ApplyLoop(s, w, Park) == DoPark(s, w);
    hide ApplyLoop, CanLoop;
    ThreadFacts(s, Worker(w));
    MoveTo(s, DoPark(s, w), Worker(w), Parked);
  }

  lemma PullNothingLocal(s: State, w: nat)
    requires LocalInv(s) && CanLoop(s, w, PullNothing)
    ensures LocalInv(ApplyLoop(s, w, PullNothing))
  {
    hide LocalInv;
    assert ApplyLoop(s, w, PullNothing) == DoPullNothing(s, w);
    hide ApplyLoop, CanLoop;
    ThreadFacts(s, Worker(w));
    MoveTo(s, DoPullNothing(s, w), Worker(w), PulledNone);
  }

  lemma PullRaisesLocal(s: State, w: nat)
    requires LocalInv(s) && CanLoop(s, w, PullRaises)
    ensures LocalInv(ApplyLoop(s, w, PullRaises))
  {
    hide LocalInv;
    assert ApplyLoop(s, w, PullRaises) == DoPullRaises(s, w);
    hide ApplyLoop, CanLoop;
    ThreadFacts(s, Worker(w));
    MoveTo(s, DoPullRaises(s, w), Worker(w), PullFailed);
  }

  lemma RetryLocal(s: State, w: nat)
    requires LocalInv(s) && CanLoop(s, w, Retry)
    ensures LocalInv(ApplyLoop(s, w, Retry))
  {
    hide LocalInv;
    assert ApplyLoop(s, w, Retry) == DoRetry(s, w);
    hide ApplyLoop, CanLoop;
    ThreadFacts(s, Worker(w));
    if s.stopFlag {
      MoveTo(s, DoRetry(s, w), Worker(w), ExitLock);
    } else {
      MoveTo(s, DoRetry(s, w), Worker(w), LoopTop);
    }
  }

  lemma PullTask(s: State, w: nat, t0: TaskId)
    requires LocalInv(s) && s.At(Worker(w), Pulling) && t0 in s.heap
    ensures TaskInv(DoPull(s, w, t0), t0) && CarryInv(DoPull(s, w, t0), Worker(w)) && !AllLeaving(s)
    ensures t0 in s.place && s.place[t0].Queued?
  {
    Facts(s, Worker(w), t0);
    assert !AllLeaving(s);
    hide LocalInv;
  }

  lemma PullMoves(s: State, w: nat, t0: TaskId)
    requires ThreadInv(s, Worker(w)) && s.At(Worker(w), Pulling) && t0 in s.heap
    ensures var s' := DoPull(s, w, t0);
      && MovesOnly(s, s', Worker(w)) && TouchesOnly(s, s', t0) && ThreadInv(s', Worker(w))
  {
  }

  lemma PullLocal(s: State, w: nat, t0: TaskId)
    requires LocalInv(s) && CanLoop(s, w, Pull(t0))
    ensures LocalInv(ApplyLoop(s, w, Pull(t0)))
  {
    var tid := Worker(w);
    PullTask(s, w, t0);
    hide LocalInv, TaskInv, CarryInv, AllLeaving, ApplyLoop;
    assert s.At(tid, Pulling);
    Facts(s, tid, t0);
    SoleCarrier(s, tid, t0);
    SoleSweeper(s, tid);
    PullMoves(s, w, t0);
    PullStep(s, w, t0);
    hide ThreadInv, MovesOnly, TouchesOnly;
    FrameKeeps(s, DoPull(s, w, t0), tid, t0);
  }

  lemma PullStep(s: State, w: nat, t0: TaskId)
    requires CanLoop(s, w, Pull(t0))
    ensures ApplyLoop(s, w, Pull(t0)) == DoPull(s, w, t0)
  {
  }

  // ---------- running a task ----------

  lemma ReadRecordLocal(s: State, w: nat)
    requires LocalInv(s) && CanRun(s, w, ReadRecord)
    ensures LocalInv(ApplyRun(s, w, ReadRecord))
  {
    hide LocalInv;
    assert ApplyRun(s, w, ReadRecord) == DoReadRecord(s, w);
    hide ApplyRun, CanRun;
    var tid := Worker(w);
    var t0 := s.pcs[tid].task;
    Facts(s, tid, t0);
    StayKeeps(s, ApplyRun(s, w, ReadRecord), tid, t0);
  }

  lemma WriteRunningLocal(s: State, w: nat)
    requires LocalInv(s) && CanRun(s, w, WriteRunning)
    ensures LocalInv(ApplyRun(s, w, WriteRunning))
  {
    hide LocalInv;
    assert ApplyRun(s, w, WriteRunning) == DoWriteRunning(s, w);
    hide ApplyRun, CanRun;
    var tid := Worker(w);
    var t0 := s.pcs[tid].task;
    Facts(s, tid, t0);
    StayKeeps(s, ApplyRun(s, w, WriteRunning), tid, t0);
  }

  lemma ExecuteRaisesLocal(s: State, w: nat)
    requires LocalInv(s) && CanRun(s, w, ExecuteRaises)
    ensures LocalInv(ApplyRun(s, w, ExecuteRaises))
  {
    hide LocalInv;
    assert ApplyRun(s, w, ExecuteRaises) == DoExecuteRaises(s, w);
    hide ApplyRun, CanRun;
    var tid := Worker(w);
    var t0 := s.pcs[tid].task;
    Facts(s, tid, t0);
    StayKeeps(s, ApplyRun(s, w, ExecuteRaises), tid, t0);
  }

  lemma StartHookLocal(s: State, w: nat)
    requires LocalInv(s) && CanRun(s, w, StartHookRaises)
    ensures LocalInv(ApplyRun(s, w, StartHookRaises))
  {
    hide LocalInv;
    assert ApplyRun(s, w, StartHookRaises) == DoStartHookRaises(s, w);
    hide ApplyRun, CanRun;
    var tid := Worker(w);
    var t0 := s.pcs[tid].task;
    Facts(s, tid, t0);
    StayKeeps(s, ApplyRun(s, w, StartHookRaises), tid, t0);
  }

  lemma WriteBrokenLocal(s: State, w: nat)
    requires LocalInv(s) && CanRun(s, w, WriteBroken)
    ensures LocalInv(ApplyRun(s, w, WriteBroken))
  {
    hide LocalInv;
    assert ApplyRun(s, w, WriteBroken) == DoWriteBroken(s, w);
    hide ApplyRun, CanRun;
    var tid := Worker(w);
    var t0 := s.pcs[tid].task;
    Facts(s, tid, t0);
    StayKeeps(s, ApplyRun(s, w, WriteBroken), tid, t0);
  }

  lemma AddCallbackLocal(s: State, w: nat)
    requires LocalInv(s) && CanRun(s, w, AddCallback)
    requires s.futures[s.pcs[Worker(w)].task].Open?
    ensures LocalInv(ApplyRun(s, w, AddCallback))
  {
    hide LocalInv;
    assert ApplyRun(s, w, AddCallback) == DoAddCallback(s, w);
    hide ApplyRun, CanRun;
    var tid := Worker(w);
    var t0 := s.pcs[tid].task;
    Facts(s, tid, t0);
    StayKeeps(s, ApplyRun(s, w, AddCallback), tid, t0);
  }

  lemma AddCallbackLateLocal(s: State, w: nat)
    requires LocalInv(s) && CanRun(s, w, AddCallback)
    requires !(s.futures[s.pcs[Worker(w)].task].Open?)
    ensures LocalInv(ApplyRun(s, w, AddCallback))
  {
    hide LocalInv;
    assert ApplyRun(s, w, AddCallback) == DoAddCallback(s, w);
    hide ApplyRun, CanRun;
    var tid := Worker(w);
    var t0 := s.pcs[tid].task;
    Facts(s, tid, t0);
    StayKeeps(s, ApplyRun(s, w, AddCallback), tid, t0);
  }

  lemma ExecuteLocal(s: State, w: nat, done: Option<bool>)
    requires LocalInv(s) && CanRun(s, w, Execute(done))
    ensures LocalInv(ApplyRun(s, w, Execute(done)))
  {
    hide LocalInv;
    assert ApplyRun(s, w, Execute(done)) == DoExecute(s, w, done);
    hide ApplyRun, CanRun;
    var tid := Worker(w);
    var t0 := s.pcs[tid].task;
    Facts(s, tid, t0);
    StayKeeps(s, ApplyRun(s, w, Execute(done)), tid, t0);
  }

  lemma ResolveOpenLocal(s: State, t0: TaskId, ok: bool)
    requires LocalInv(s) && CanResolve(s, t0) && s.futures[t0].Open?
    ensures LocalInv(ApplyResolve(s, t0, ok))
  {
    assert TaskInv(s, t0);
    var owner := s.place[t0].tid;
    Facts(s, owner, t0);
    SoleCarrier(s, owner, t0);
    FrameKeeps(s, ApplyResolve(s, t0, ok), owner, t0);
  }

  lemma ArmedFrame(s: State, t0: TaskId, ok: bool)
    requires CanResolve(s, t0) && s.futures[t0].Armed?
    ensures MovesOnly(s, ApplyResolve(s, t0, ok), Callback(t0)) && TouchesOnly(s, ApplyResolve(s, t0, ok), t0)
  {
  }

  lemma ResolveArmedLocal(s: State, t0: TaskId, ok: bool)
    requires LocalInv(s) && CanResolve(s, t0) && s.futures[t0].Armed?
    ensures LocalInv(ApplyResolve(s, t0, ok))
  {
    hide LocalInv;
    ArmedFrame(s, t0, ok);
    hide MovesOnly, TouchesOnly;
    Facts(s, Callback(t0), t0);
    SoleCarrier(s, Callback(t0), t0);
    FrameKeeps(s, ApplyResolve(s, t0, ok), Callback(t0), t0);
  }

  // ---------- completion ----------

  lemma WriteOutcomeLocal(s: State, tid: Tid)
    requires LocalInv(s) && CanFinish(s, tid, WriteOutcome)
    ensures LocalInv(ApplyFinish(s, tid, WriteOutcome))
  {
    hide LocalInv;
    assert ApplyFinish(s, tid, WriteOutcome) == DoWriteOutcome(s, tid);
    hide ApplyFinish, CanFinish;
    var t0 := s.pcs[tid].task;
    Facts(s, tid, t0);
    StayKeeps(s, ApplyFinish(s, tid, WriteOutcome), tid, t0);
  }

  lemma RetireTask(s: State, tid: Tid, pc: Pc)
    requires tid in s.pcs && s.pcs[tid].FinishRemove? && CarryInv(s, tid) && TaskInv(s, s.pcs[tid].task)
    requires pc == FinishRelease(s.pcs[tid].task) || pc == FinishNotify(s.pcs[tid].task)
    ensures TaskInv(Retire(s, tid, s.pcs[tid].task, pc), s.pcs[tid].task)
  {
  }

  lemma RetireCarry(s: State, tid: Tid, t0: TaskId, pc: Pc)
    requires pc == FinishRelease(t0) || pc == FinishNotify(t0)
    ensures CarryInv(Retire(s, tid, t0, pc), tid)
  {
  }

  lemma RetireStays(s: State, tid: Tid, pc: Pc)
    requires LocalInv(s) && tid in s.pcs && s.pcs[tid].FinishRemove?
    requires pc == FinishRelease(s.pcs[tid].task) || pc == FinishNotify(s.pcs[tid].task)
    ensures LocalInv(Retire(s, tid, s.pcs[tid].task, pc))
  {
    hide LocalInv, TaskInv, TouchesOnly, MovesOnly, AllLeaving;
    var t0 := s.pcs[tid].task;
    Facts(s, tid, t0);
    RetireFrame(s, tid, t0, pc);
    RetireTask(s, tid, pc);
    RetireCarry(s, tid, t0, pc);
    hide CarryInv, ThreadInv;
    StayKeeps(s, Retire(s, tid, t0, pc), tid, t0);
  }

  lemma RemoveIdLocal(s: State, tid: Tid)
    requires LocalInv(s) && CanFinish(s, tid, RemoveId)
    ensures LocalInv(ApplyFinish(s, tid, RemoveId))
  {
    hide LocalInv;
    var t0 := s.pcs[tid].task;
    RetireStays(s, tid, if t0 in s.outstanding then FinishRelease(t0) else FinishNotify(t0));
  }

  lemma ReleaseSlotLocal(s: State, tid: Tid)
    requires LocalInv(s) && CanFinish(s, tid, ReleaseSlot)
    ensures LocalInv(ApplyFinish(s, tid, ReleaseSlot))
  {
    hide LocalInv;
    assert ApplyFinish(s, tid, ReleaseSlot) == DoReleaseSlot(s, tid);
    hide ApplyFinish, CanFinish;
    ThreadFacts(s, tid);
    MoveTo(s, DoReleaseSlot(s, tid), tid, FinishNotify(s.pcs[tid].task));
  }

  // ---------- leaving and sweeping ----------

  lemma ExitAloneLocal(s: State, w: nat)
    requires LocalInv(s) && CanExit(s, w, TakeThreadsLock) && s.stopFlag && s.threads <= {w}
    ensures LocalInv(ApplyExit(s, w, TakeThreadsLock))
  {
    hide LocalInv;
    ThreadFacts(s, Worker(w));
    var s' := s.(threadsLock := Some(Worker(w))).Goto(Worker(w), SweepSnapshot);
    assert ApplyExit(s, w, TakeThreadsLock) == s';
    hide ApplyExit, CanExit, DoTakeThreadsLock;
    MoveTo(s, s', Worker(w), SweepSnapshot);
  }

  lemma ExitOthersLocal(s: State, w: nat)
    requires LocalInv(s) && CanExit(s, w, TakeThreadsLock) && !(s.stopFlag && s.threads <= {w})
    ensures LocalInv(ApplyExit(s, w, TakeThreadsLock))
  {
    hide LocalInv;
    ThreadFacts(s, Worker(w));
    var s' := s.(threadsLock := Some(Worker(w))).Goto(Worker(w), ExitRemove);
    assert ApplyExit(s, w, TakeThreadsLock) == s';
    hide ApplyExit, CanExit, DoTakeThreadsLock;
    MoveTo(s, s', Worker(w), ExitRemove);
  }

  lemma TakeThreadsLockLocal(s: State, w: nat)
    requires LocalInv(s) && CanExit(s, w, TakeThreadsLock)
    ensures LocalInv(ApplyExit(s, w, TakeThreadsLock))
  {
    hide LocalInv, ApplyExit, CanExit;
    if s.stopFlag && s.threads <= {w} {
      ExitAloneLocal(s, w);
    } else {
      ExitOthersLocal(s, w);
    }
  }

  lemma TakeIdsLocal(s: State, tid: Tid)
    requires LocalInv(s) && CanSweep(s, tid, TakeIds)
    ensures LocalInv(ApplySweep(s, tid, TakeIds))
  {
    hide LocalInv;
    assert ApplySweep(s, tid, TakeIds) == DoTakeIds(s, tid);
    hide ApplySweep, CanSweep;
    ThreadFacts(s, tid);
    MoveTo(s, DoTakeIds(s, tid), tid, SweepList(s.outstanding));
  }

  /** What waits is what was outstanding at the snapshot and is still PENDING. */
  lemma StillPending(s: State, tid: Tid)
    requires LocalInv(s) && CanSweep(s, tid, TakeRecords)
    ensures forall t :: Waiting(s, t) <==> t in s.pcs[tid].ids && t in s.records && s.records[t].Pending?
  {
    SoleSweeper(s, tid);
    assert CarryInv(s, tid);
    forall t ensures Waiting(s, t) <==> t in s.pcs[tid].ids && t in s.records && s.records[t].Pending? {
      assert TaskInv(s, t);
      if t in s.place && s.place[t].Held? { assert ThreadInv(s, s.place[t].tid); }
    }
  }

  lemma TakeRecordsLocal(s: State, tid: Tid)
    requires LocalInv(s) && CanSweep(s, tid, TakeRecords)
    ensures LocalInv(ApplySweep(s, tid, TakeRecords))
  {
    ThreadFacts(s, tid);
    StillPending(s, tid);
    hide LocalInv;
    assert ApplySweep(s, tid, TakeRecords) == DoTakeRecords(s, tid);
    hide ApplySweep, CanSweep;
    forall t ensures Waiting(DoTakeRecords(s, tid), t) == Waiting(s, t) {}
    MoveTo(s, DoTakeRecords(s, tid), tid, DoTakeRecords(s, tid).pcs[tid]);
  }

  lemma FreeSlotLocal(s: State, tid: Tid)
    requires LocalInv(s) && CanSweep(s, tid, FreeSlot)
    ensures LocalInv(ApplySweep(s, tid, FreeSlot))
  {
    hide LocalInv;
    assert ApplySweep(s, tid, FreeSlot) == DoFreeSlot(s, tid);
    hide ApplySweep, CanSweep;
    ThreadFacts(s, tid);
    MoveTo(s, DoFreeSlot(s, tid), tid, SweepLoop(s.pcs[tid].todo, true));
  }

  lemma EndSomeLocal(s: State, tid: Tid)
    requires LocalInv(s) && CanSweep(s, tid, End) && s.pcs[tid].any
    ensures LocalInv(ApplySweep(s, tid, End))
  {
    hide LocalInv;
    assert ApplySweep(s, tid, End) == s.Goto(tid, SweepNotify);
    ThreadFacts(s, tid);
    NothingLeft(s, tid);
    hide ApplySweep, CanSweep, DoEnd;
    forall t ensures !Waiting(s.Goto(tid, SweepNotify), t) { assert !Waiting(s, t); }
    MoveTo(s, s.Goto(tid, SweepNotify), tid, SweepNotify);
  }

  /** A sweep is over when nothing waits any more. */
  lemma SweepOverWorker(s: State, tid: Tid)
    requires LocalInv(s) && tid in s.pcs && Sweeping(s.pcs[tid]) && !s.pcs[tid].SweepRemove? && tid.Worker?
    requires forall t :: !Waiting(s, t)
    ensures LocalInv(AfterSweep(s, tid))
  {
    hide LocalInv;
    ThreadFacts(s, tid);
    forall t ensures !Waiting(s.Goto(tid, ExitRemove), t) { assert !Waiting(s, t); }
    MoveTo(s, s.Goto(tid, ExitRemove), tid, ExitRemove);
  }

  lemma SweepOverClient(s: State, tid: Tid)
    requires LocalInv(s) && tid in s.pcs && Sweeping(s.pcs[tid]) && !s.pcs[tid].SweepRemove? && !tid.Worker?
    requires forall t :: !Waiting(s, t)
    ensures LocalInv(AfterSweep(s, tid))
  {
    hide LocalInv;
    ThreadFacts(s, tid);
    LeaveTo(s, AfterSweep(s, tid), tid);
  }

  lemma EndNoneLocal(s: State, tid: Tid)
    requires LocalInv(s) && CanSweep(s, tid, End) && !s.pcs[tid].any
    ensures LocalInv(ApplySweep(s, tid, End))
  {
    hide LocalInv;
    ThreadFacts(s, tid);
    NothingLeft(s, tid);
    hide AfterSweep, CarryInv, ThreadInv, Waiting;
    if tid.Worker? {
      SweepOverWorker(s, tid);
    } else {
      SweepOverClient(s, tid);
    }
  }

  /** A sweep with nothing left to do has left nothing waiting. */
  lemma NothingLeft(s: State, tid: Tid)
    requires CarryInv(s, tid) && CanSweep(s, tid, End)
    ensures forall t :: !Waiting(s, t)
  {
    forall t ensures !Waiting(s, t) { assert t !in s.pcs[tid].todo; }
  }

  lemma EndLocal(s: State, tid: Tid)
    requires LocalInv(s) && CanSweep(s, tid, End)
    ensures LocalInv(ApplySweep(s, tid, End))
  {
    hide LocalInv, ApplySweep;
    if s.pcs[tid].any {
      EndSomeLocal(s, tid);
    } else {
      EndNoneLocal(s, tid);
    }
  }

  lemma FailFrame(s: State, tid: Tid, t0: TaskId)
    requires CanSweep(s, tid, SweepStep.Fail(t0))
    ensures MovesOnly(s, DoFail(s, tid, t0), tid) && TouchesOnly(s, DoFail(s, tid, t0), t0)
  {
    if t0 in s.records {
    } else {
    }
  }

  lemma FailTask(s: State, tid: Tid, t0: TaskId)
    requires LocalInv(s) && CanSweep(s, tid, SweepStep.Fail(t0))
    ensures TaskInv(DoFail(s, tid, t0), t0) && t0 in s.place && s.place[t0].Queued? && !Waiting(DoFail(s, tid, t0), t0)
  {
    Facts(s, tid, t0);
    assert Waiting(s, t0);
    hide LocalInv;
  }

  lemma FailCarry(s: State, tid: Tid, t0: TaskId)
    requires CarryInv(s, tid) && CanSweep(s, tid, SweepStep.Fail(t0))
    ensures CarryInv(DoFail(s, tid, t0), tid)
  {
  }

  lemma FailLocal(s: State, tid: Tid, t0: TaskId)
    requires LocalInv(s) && CanSweep(s, tid, SweepStep.Fail(t0))
    ensures LocalInv(ApplySweep(s, tid, SweepStep.Fail(t0)))
  {
    hide LocalInv, MovesOnly, TouchesOnly, TaskInv;
    assert ApplySweep(s, tid, SweepStep.Fail(t0)) == DoFail(s, tid, t0);
    FailFrame(s, tid, t0);
    FailTask(s, tid, t0);
    Facts(s, tid, t0);
    FailCarry(s, tid, t0);
    hide ApplySweep, CanSweep, CarryInv, Waiting;
    SoleCarrier(s, tid, t0);
    SoleSweeper(s, tid);
    FrameKeeps(s, DoFail(s, tid, t0), tid, t0);
  }

  lemma DropShape(s: State, tid: Tid)
    requires CanSweep(s, tid, DropId)
    ensures var t0, todo := s.pcs[tid].task, s.pcs[tid].todo;
      DoDropId(s, tid) ==
        Retire(s, tid, t0, if t0 in s.outstanding then SweepRelease(t0, todo) else SweepLoop(todo, true))
  {
  }

  lemma DropTask(s: State, tid: Tid, t0: TaskId, pc: Pc)
    requires tid in s.pcs && s.pcs[tid].SweepRemove? && s.pcs[tid].task == t0 && CarryInv(s, tid) && TaskInv(s, t0)
    requires s.closed && AllLeaving(Retire(s, tid, t0, pc))
    ensures t0 in s.place && !Waiting(s, t0)
    ensures TaskInv(Retire(s, tid, t0, pc), t0)
  {
    hide AllLeaving;
  }

  lemma DropThread(s: State, tid: Tid, t0: TaskId, pc: Pc)
    requires tid in s.pcs && s.pcs[tid].SweepRemove? && s.pcs[tid].task == t0 && ThreadInv(s, tid)
    requires Sweeping(pc)
    ensures ThreadInv(Retire(s, tid, t0, pc), tid)
  {
  }

  lemma DropCarry(s: State, tid: Tid, t0: TaskId, pc: Pc)
    requires tid in s.pcs && s.pcs[tid].SweepRemove? && s.pcs[tid].task == t0 && CarryInv(s, tid) && !Waiting(s, t0)
    requires pc == SweepRelease(t0, s.pcs[tid].todo) || pc == SweepLoop(s.pcs[tid].todo, true)
    ensures CarryInv(Retire(s, tid, t0, pc), tid)
  {
    var s' := Retire(s, tid, t0, pc);
    forall t ensures Waiting(s', t) == Waiting(s, t) {}
  }

  lemma DropKeeps(s: State, tid: Tid, t0: TaskId, pc: Pc)
    requires LocalInv(s) && tid in s.pcs && s.pcs[tid].SweepRemove? && s.pcs[tid].task == t0
    requires pc == SweepRelease(t0, s.pcs[tid].todo) || pc == SweepLoop(s.pcs[tid].todo, true)
    ensures LocalInv(Retire(s, tid, t0, pc))
  {
    Facts(s, tid, t0);
    SoleSweeper(s, tid);
    RetireFrame(s, tid, t0, pc);
    hide LocalInv, CarryInv, ThreadInv, TaskInv, Waiting, AllLeaving, MovesOnly, TouchesOnly;
    DropTask(s, tid, t0, pc);
    DropThread(s, tid, t0, pc);
    DropCarry(s, tid, t0, pc);
    RetireKeeps(s, tid, t0, pc);
  }

  lemma DropIdLocal(s: State, tid: Tid)
    requires LocalInv(s) && CanSweep(s, tid, DropId)
    requires s.pcs[tid].task in s.outstanding
    ensures LocalInv(ApplySweep(s, tid, DropId))
  {
    hide LocalInv;
    DropShape(s, tid);
    SweepDrops(s, tid);
    hide DoDropId, ApplySweep;
    DropKeeps(s, tid, s.pcs[tid].task, SweepRelease(s.pcs[tid].task, s.pcs[tid].todo));
  }

  lemma SweepDrops(s: State, tid: Tid)
    requires CanSweep(s, tid, DropId)
    ensures ApplySweep(s, tid, DropId) == DoDropId(s, tid)
  {
    hide DoDropId;
  }

  lemma SkipSweptLocal(s: State, tid: Tid)
    requires LocalInv(s) && CanSweep(s, tid, DropId)
    requires s.pcs[tid].task !in s.outstanding
    ensures LocalInv(ApplySweep(s, tid, DropId))
  {
    hide LocalInv;
    DropShape(s, tid);
    SweepDrops(s, tid);
    hide DoDropId, ApplySweep;
    DropKeeps(s, tid, s.pcs[tid].task, SweepLoop(s.pcs[tid].todo, true));
  }

  // ---------- queries ----------

  lemma QueryTakeLocal(s: State, c: nat)
    requires LocalInv(s) && CanQuery(s, c, Take)
    ensures LocalInv(ApplyQuery(s, c, Take))
  {
    hide LocalInv;
    assert ApplyQuery(s, c, Take) == DoTake(s, c);
    hide ApplyQuery, CanQuery;
    ThreadFacts(s, Client(c));
    MoveTo(s, DoTake(s, c), Client(c), QueryCheck(s.pcs[Client(c)].task, s.pcs[Client(c)].timed));
  }

  lemma LookLiveLocal(s: State, c: nat)
    requires LocalInv(s) && CanQuery(s, c, Look)
    requires var t := s.pcs[Client(c)].task; t in s.records && !Terminal(s.records[t])
    ensures LocalInv(ApplyQuery(s, c, Look))
  {
    hide LocalInv;
    ThreadFacts(s, Client(c));
    var pc := s.pcs[Client(c)];
    assert ApplyQuery(s, c, Look) == s.Goto(Client(c), QueryHold(pc.task, pc.timed));
    hide ApplyQuery, CanQuery, DoLook;
    MoveTo(s, s.Goto(Client(c), QueryHold(pc.task, pc.timed)), Client(c), QueryHold(pc.task, pc.timed));
  }

  lemma LookDoneLocal(s: State, c: nat)
    requires LocalInv(s) && CanQuery(s, c, Look)
    requires var t := s.pcs[Client(c)].task; t !in s.records || Terminal(s.records[t])
    ensures LocalInv(ApplyQuery(s, c, Look))
  {
    hide LocalInv;
    ThreadFacts(s, Client(c));
    assert ApplyQuery(s, c, Look) == s.(condLock := None).Leave(Client(c));
    hide ApplyQuery, CanQuery, DoLook;
    LeaveTo(s, s.(condLock := None).Leave(Client(c)), Client(c));
  }

  lemma QueryLookLocal(s: State, c: nat)
    requires LocalInv(s) && CanQuery(s, c, Look)
    ensures LocalInv(ApplyQuery(s, c, Look))
  {
    hide LocalInv, ApplyQuery;
    var t := s.pcs[Client(c)].task;
    if t in s.records && !Terminal(s.records[t]) {
      LookLiveLocal(s, c);
    } else {
      LookDoneLocal(s, c);
    }
  }

  lemma WaitLocal(s: State, c: nat)
    requires LocalInv(s) && CanQuery(s, c, Wait)
    ensures LocalInv(ApplyQuery(s, c, Wait))
  {
    hide LocalInv;
    assert ApplyQuery(s, c, Wait) == DoWait(s, c);
    hide ApplyQuery, CanQuery;
    ThreadFacts(s, Client(c));
    MoveTo(s, DoWait(s, c), Client(c), QueryParked(s.pcs[Client(c)].task, s.pcs[Client(c)].timed));
  }

  lemma WaitTimesOutLocal(s: State, c: nat)
    requires LocalInv(s) && CanQuery(s, c, WaitTimesOut)
    ensures LocalInv(ApplyQuery(s, c, WaitTimesOut))
  {
    hide LocalInv;
    assert ApplyQuery(s, c, WaitTimesOut) == DoWaitTimesOut(s, c);
    hide ApplyQuery, CanQuery;
    ThreadFacts(s, Client(c));
    MoveTo(s, DoWaitTimesOut(s, c), Client(c), QueryLock(s.pcs[Client(c)].task, true));
  }

  lemma GiveUpLocal(s: State, c: nat)
    requires LocalInv(s) && CanQuery(s, c, GiveUp)
    ensures LocalInv(ApplyQuery(s, c, GiveUp))
  {
    hide LocalInv;
    assert ApplyQuery(s, c, GiveUp) == DoGiveUp(s, c);
    hide ApplyQuery, CanQuery;
    ThreadFacts(s, Client(c));
    LeaveTo(s, DoGiveUp(s, c), Client(c));
  }

  lemma QueryAskLocal(s: State, c: nat, t: TaskId, timed: bool)
    requires LocalInv(s) && CanQuery(s, c, Ask(t, timed))
    ensures LocalInv(ApplyQuery(s, c, Ask(t, timed)))
  {
    hide LocalInv;
    assert ApplyQuery(s, c, Ask(t, timed)) == DoAsk(s, c, t, timed);
    hide ApplyQuery, CanQuery;
    ThreadFacts(s, Client(c));
    MoveTo(s, DoAsk(s, c, t, timed), Client(c), QueryLock(t, timed));
  }

  lemma ForgetLocal(s: State, t0: TaskId)
    requires LocalInv(s) && CanForget(s, t0)
    ensures LocalInv(ApplyForget(s, t0))
  {
    var s' := ApplyForget(s, t0);
    forall tid ensures ThreadInv(s', tid) && CarryInv(s', tid) {
      assert ThreadInv(s, tid) && CarryInv(s, tid);
      ForgetCarry(s, t0, tid);
    }
    forall t ensures TaskInv(s', t) {
      assert TaskInv(s, t);
      ForgetTask(s, t0, t);
    }
    forall t ensures Waiting(s', t) == Waiting(s, t) {}
  }

  lemma ForgetCarry(s: State, t0: TaskId, tid: Tid)
    requires CanForget(s, t0) && ThreadInv(s, tid) && CarryInv(s, tid)
    ensures ThreadInv(ApplyForget(s, t0), tid) && CarryInv(ApplyForget(s, t0), tid)
  {
    hide HoldsCondition, Sweeping, StopPc, SubmitLocked, Leaving, ClientPc, WorkerPc, CompletionPc, Carries, Submits;
    forall t ensures Waiting(ApplyForget(s, t0), t) == Waiting(s, t) {}
  }

  lemma ForgetTask(s: State, t0: TaskId, t: TaskId)
    requires CanForget(s, t0) && TaskInv(s, t)
    ensures TaskInv(ApplyForget(s, t0), t)
  {
    hide Leaving;
  }

  // ---------- notify_all ----------

  lemma WokenThread(s: State, tid: Tid)
    requires ThreadInv(s, tid)
    ensures ThreadInv(NotifyAll(s), tid)
  {
  }

  lemma WokenCarry(s: State, tid: Tid)
    requires CarryInv(s, tid)
    ensures CarryInv(NotifyAll(s), tid)
  {
    forall t ensures Waiting(NotifyAll(s), t) == Waiting(s, t) {}
  }

  lemma WokenTask(s: State, t: TaskId)
    requires TaskInv(s, t)
    ensures TaskInv(NotifyAll(s), t)
  {
  }

  lemma NotifyAllLocal(s: State)
    requires LocalInv(s)
    ensures LocalInv(NotifyAll(s))
  {
    forall tid ensures ThreadInv(NotifyAll(s), tid) {
      assert ThreadInv(s, tid);
      WokenThread(s, tid);
    }
    forall tid ensures CarryInv(NotifyAll(s), tid) {
      assert CarryInv(s, tid);
      WokenCarry(s, tid);
    }
    forall t ensures TaskInv(NotifyAll(s), t) {
      assert TaskInv(s, t);
      WokenTask(s, t);
    }
    forall t ensures Waiting(NotifyAll(s), t) == Waiting(s, t) {}
  }

  lemma SubmitNotifyLocal(s: State, c: nat)
    requires LocalInv(s) && CanSubmit(s, c, SubmitStep.Notify)
    ensures LocalInv(ApplySubmit(s, c, SubmitStep.Notify))
  {
    hide LocalInv;
    assert ApplySubmit(s, c, SubmitStep.Notify) == DoSubmitNotify(s, c);
    hide ApplySubmit, CanSubmit;
    NotifyAllLocal(s);
    ThreadFacts(NotifyAll(s), Client(c));
    LeaveTo(NotifyAll(s), DoSubmitNotify(s, c), Client(c));
  }

  lemma NotifyDoneWorker(s: State, n: State, tid: Tid)
    requires LocalInv(s) && LocalInv(n) && n == NotifyAll(s) && CanFinish(s, tid, NotifyDone) && !tid.Callback?
    ensures LocalInv(ApplyFinish(s, tid, NotifyDone))
  {
    hide LocalInv;
    assert ApplyFinish(s, tid, NotifyDone) == DoNotifyDone(s, tid);
    assert n.pcs[tid] == s.pcs[tid];
    hide ApplyFinish, CanFinish, NotifyAll;
    ThreadFacts(n, tid);
    assert tid.Worker?;
    MoveTo(n, DoNotifyDone(s, tid), tid, LoopTop);
  }

  lemma NotifyDoneCallback(s: State, n: State, tid: Tid)
    requires LocalInv(s) && LocalInv(n) && n == NotifyAll(s) && CanFinish(s, tid, NotifyDone) && tid.Callback?
    ensures LocalInv(ApplyFinish(s, tid, NotifyDone))
  {
    hide LocalInv;
    assert ApplyFinish(s, tid, NotifyDone) == n.Leave(tid);
    assert n.pcs[tid] == s.pcs[tid];
    hide ApplyFinish, CanFinish, NotifyAll;
    var t0 := s.pcs[tid].task;
    Facts(n, tid, t0);
    SoleCarrier(n, tid, t0);
    FrameKeeps(n, n.Leave(tid), tid, t0);
  }

  lemma NotifyDoneLocal(s: State, tid: Tid)
    requires LocalInv(s) && CanFinish(s, tid, NotifyDone)
    ensures LocalInv(ApplyFinish(s, tid, NotifyDone))
  {
    hide LocalInv, ApplyFinish;
    NotifyAllLocal(s);
    if tid.Callback? {
      NotifyDoneCallback(s, NotifyAll(s), tid);
    } else {
      NotifyDoneWorker(s, NotifyAll(s), tid);
    }
  }

  lemma NotifySweptLocal(s: State, tid: Tid)
    requires LocalInv(s) && CanSweep(s, tid, NotifySwept)
    ensures LocalInv(ApplySweep(s, tid, NotifySwept))
  {
    hide LocalInv;
    var n := NotifyAll(s);
    NotifyAllLocal(s);
    assert ApplySweep(s, tid, NotifySwept) == AfterSweep(n, tid) && tid in n.pcs && n.pcs[tid].SweepNotify?;
    ThreadFacts(n, tid);
    hide ApplySweep, CanSweep, NotifyAll, AfterSweep, ThreadInv, Waiting;
    if tid.Worker? {
      SweepOverWorker(n, tid);
    } else {
      SweepOverClient(n, tid);
    }
  }

  // ---------- stop ----------

  lemma ClosedLocal(s: State, c: nat)
    requires LocalInv(s) && CanStop(s, c, Closed)
    ensures LocalInv(ApplyStop(s, c, Closed))
  {
    hide LocalInv;
    assert ApplyStop(s, c, Closed) == DoClosed(s, c);
    hide ApplyStop, CanStop;
    ThreadFacts(s, Client(c));
    MoveTo(s, DoClosed(s, c), Client(c), StopNotify);
  }

  lemma CloseRaisesLocal(s: State, c: nat)
    requires LocalInv(s) && CanStop(s, c, CloseRaises)
    ensures LocalInv(ApplyStop(s, c, CloseRaises))
  {
    hide LocalInv;
    assert ApplyStop(s, c, CloseRaises) == DoCloseRaises(s, c);
    hide ApplyStop, CanStop;
    ThreadFacts(s, Client(c));
    LeaveTo(s, DoCloseRaises(s, c), Client(c));
  }

  lemma JoinedLocal(s: State, c: nat)
    requires LocalInv(s) && CanStop(s, c, Joined)
    ensures LocalInv(ApplyStop(s, c, Joined))
  {
    hide LocalInv;
    assert ApplyStop(s, c, Joined) == DoJoined(s, c);
    hide ApplyStop, CanStop;
    ThreadFacts(s, Client(c));
    if s.threads == {} {
      MoveTo(s, DoJoined(s, c), Client(c), SweepSnapshot);
    } else {
      LeaveTo(s, DoJoined(s, c), Client(c));
    }
  }

  lemma StopNotifyLocal(s: State, c: nat)
    requires LocalInv(s) && CanStop(s, c, NotifyStop)
    ensures LocalInv(ApplyStop(s, c, NotifyStop))
  {
    hide LocalInv;
    assert ApplyStop(s, c, NotifyStop) == DoNotifyStop(s, c);
    hide ApplyStop, CanStop;
    NotifyAllLocal(s);
    ThreadFacts(NotifyAll(s), Client(c));
    MoveTo(NotifyAll(s), DoNotifyStop(s, c), Client(c), StopJoin);
  }

  // ---------- start, stop and the end of a worker ----------

  lemma StartLocal(s: State)
    requires LocalInv(s) && !s.closed
    ensures LocalInv(Start(s))
  {
    var s' := Start(s);
    forall tid ensures ThreadInv(s', tid) && CarryInv(s', tid) {
      StartThread(s, tid);
      StartCarry(s, tid);
    }
    forall t ensures TaskInv(s', t) { StartTask(s, t); }
    hide ThreadInv, CarryInv, TaskInv;
  }

  lemma StartThread(s: State, tid: Tid)
    requires LocalInv(s) && !s.closed
    ensures ThreadInv(Start(s), tid)
  {
    assert ThreadInv(s, tid);
    hide LocalInv;
  }

  lemma StartCarry(s: State, tid: Tid)
    requires LocalInv(s) && !s.closed
    ensures CarryInv(Start(s), tid)
  {
    assert ThreadInv(s, tid) && CarryInv(s, tid);
    forall t ensures Waiting(Start(s), t) == Waiting(s, t) {}
    hide LocalInv;
  }

  lemma StartTask(s: State, t: TaskId)
    requires LocalInv(s) && !s.closed
    ensures TaskInv(Start(s), t)
  {
    assert TaskInv(s, t);
    if t in s.place && s.place[t].Held? { assert ThreadInv(s, s.place[t].tid); }
    hide LocalInv;
  }

  /** A client begins to submit a task nobody has named before. */
  function Named(n: State, c: nat, t: TaskId): State {
    n.(called := n.called + {t}).Put(t, Submitting(c)).Goto(Client(c), SubmitLock(t))
  }

  lemma NamedFits(n: State, c: nat, t: TaskId)
    requires TaskInv(n, t) && ThreadInv(n, Client(c)) && FlagInv(n)
    requires Client(c) !in n.pcs && t !in n.called && t !in n.foreign && n.threads == n.workers && !n.closed
    ensures TaskInv(Named(n, c, t), t) && FlagInv(Named(n, c, t))
    ensures !Waiting(Named(n, c, t), t) && !Waiting(n, t)
  {
  }

  lemma NamedMoves(n: State, c: nat, t: TaskId)
    requires ThreadInv(n, Client(c)) && Client(c) !in n.pcs
    ensures var s' := Named(n, c, t);
      && MovesOnly(n, s', Client(c)) && TouchesOnly(n, s', t) && (AllLeaving(n) ==> AllLeaving(s'))
      && ThreadInv(s', Client(c)) && CarryInv(s', Client(c))
  {
  }

  lemma CalledLocal(n: State, c: nat, t: TaskId)
    requires LocalInv(n) && Client(c) !in n.pcs && t !in n.called && t !in n.foreign
    requires n.threads == n.workers && !n.closed
    ensures LocalInv(n.(called := n.called + {t}).Put(t, Submitting(c)).Goto(Client(c), SubmitLock(t)))
  {
    hide LocalInv;
    Facts(n, Client(c), t);
    NewTask(n, t);
    NamedFits(n, c, t);
    NamedMoves(n, c, t);
    hide TaskInv, ThreadInv, CarryInv, FlagInv, MovesOnly, TouchesOnly, AllLeaving, Waiting;
    FrameKeeps(n, Named(n, c, t), Client(c), t);
  }

  lemma NewTask(n: State, t: TaskId)
    requires LocalInv(n) && t !in n.called && t !in n.foreign
    ensures forall tid :: tid in n.pcs ==> !Carries(n.pcs[tid], t) && !Submits(n.pcs[tid], t)
  {
    assert TaskInv(n, t);
    forall tid | tid in n.pcs ensures !Carries(n.pcs[tid], t) && !Submits(n.pcs[tid], t) { assert CarryInv(n, tid); }
  }

  lemma CallLocal(s: State, c: nat, t: TaskId)
    requires LocalInv(s) && CanSubmit(s, c, Call(t)) && Fresh(s, Submit(c, Call(t)))
    ensures LocalInv(ApplySubmit(s, c, Call(t)))
  {
    if !s.closed {
      StartLocal(s);
      assert FlagInv(s);
      hide LocalInv;
    assert ApplySubmit(s, c, Call(t)) == DoCall(s, c, t);
    hide ApplySubmit, CanSubmit;
      CalledLocal(Start(s), c, t);
    }
  }

  lemma StopBeginLocal(s: State, c: nat)
    requires LocalInv(s) && CanStop(s, c, Begin)
    ensures LocalInv(ApplyStop(s, c, Begin))
  {
    var s' := ApplyStop(s, c, Begin);
    assert ThreadInv(s, Client(c));
    forall t ensures Waiting(s', t) == Waiting(s, t) {}
    forall tid ensures ThreadInv(s', tid) && CarryInv(s', tid) {
      assert ThreadInv(s, tid) && CarryInv(s, tid);
    }
    forall t ensures TaskInv(s', t) { assert TaskInv(s, t); }
  }

  lemma LeaveLocal(s: State, w: nat)
    requires LocalInv(s) && CanExit(s, w, LeaveThreads)
    ensures LocalInv(ApplyExit(s, w, LeaveThreads))
  {
    var s' := ApplyExit(s, w, LeaveThreads);
    assert ThreadInv(s, Worker(w)) && CarryInv(s, Worker(w));
    forall t ensures Waiting(s', t) == Waiting(s, t) {}
    forall tid ensures ThreadInv(s', tid) && CarryInv(s', tid) {
      assert ThreadInv(s, tid) && CarryInv(s, tid);
    }
    assert AllLeaving(s) ==> AllLeaving(s');
    forall t ensures TaskInv(s', t) { assert TaskInv(s, t); }
  }
}
