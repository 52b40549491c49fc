/** When a submit is accepted, over every run: not while closed, not for a stored id, and not while
    every slot is taken; and otherwise always. */
module SchedulerSubmit {
  import opened Core
  import opened SchedulerMachine
  import opened SchedulerInvariant
  import opened SchedulerFrame
  import opened SchedulerThreads
  import opened SchedulerTheorems

  /** Outstanding tasks, and threads between a slot and its id, take up the whole limit. */
  ghost predicate Full(s: State) {
    |s.outstanding| + |TransitThreads(s)| == s.slots
  }

  /** A step of the client's submit of t at which it finds the scheduler closed, the id stored, every
      slot taken, or at which the store raises. */
  ghost predicate TurnedAway(s: State, e: Event, c: nat, t: TaskId) {
    || (e == Submit(c, Call(t)) && s.closed)
    || (e == Submit(c, Enter) && (s.closed || t in s.records))
    || (e == Submit(c, TakeSlot) && |s.outstanding| + |TransitThreads(s)| == s.slots)
    || e == Submit(c, StoreRaises)
  }

  predicate Inside(s: State, c: nat) {
    Client(c) in s.pcs
  }

  // ---------- single steps ----------

  /** A submit is turned away at the semaphore if and only if every slot is taken. */
  lemma OverloadedIff(states: seq<State>, events: seq<Event>, i: nat, c: nat)
    requires Run(states, events) && i < |events| && events[i] == Submit(c, TakeSlot)
    ensures !Inside(states[i + 1], c) <==> |states[i].outstanding| + |TransitThreads(states[i])| == states[i].slots
  {
    RunInv(states, events, i);
    assert Step(states[i], events[i], states[i + 1]);
    hide LocalInv, WakeInv, TransitThreads;
  }

  /** It is refused behind the lifecycle lock if and only if the scheduler is closed or the id is
      stored. */
  lemma RefusedIff(states: seq<State>, events: seq<Event>, i: nat, c: nat)
    requires Run(states, events) && i < |events| && events[i] == Submit(c, Enter)
    ensures Inside(states[i], c)
    ensures !Inside(states[i + 1], c) <==> states[i].closed || states[i].pcs[Client(c)].task in states[i].records
  {
    RunInv(states, events, i);
    assert Step(states[i], events[i], states[i + 1]);
    Flags(states[i]);
    hide Inv;
  }

  lemma Flags(s: State)
    requires Inv(s)
    ensures s.accepting == !s.closed && s.outstanding <= s.called && s.accepted <= s.called
  {
    hide SlotInv, WakeInv;
  }

  // ---------- one submit ----------

  /** Where a client is in the submit of t, and whether it has been refused: before the store the
      task is not accepted, after it it is, and not where the store was undone. */
  predicate Submitting(s: State, c: nat, t: TaskId, refused: bool) {
    Client(c) in s.pcs &&
    match s.pcs[Client(c)]
    case SubmitLock(u) => u == t && t !in s.accepted && !refused
    case SubmitAcquire(u) => u == t && t !in s.accepted && !refused
    case SubmitAdd(u) => u == t && t !in s.accepted && !refused
    case SubmitStore(u) => u == t && t !in s.accepted && !refused
    case SubmitNotify(u) => u == t && t in s.accepted && !refused
    case SubmitUndo(u) => u == t && t !in s.accepted && refused
    case SubmitUndoRelease(u) => u == t && t !in s.accepted && refused
    case _ => false
  }

  lemma CallSteps(s: State, c: nat, t: TaskId)
    requires Inv(s) && CanSubmit(s, c, Call(t)) && Fresh(s, Submit(c, Call(t)))
    ensures var s' := ApplySubmit(s, c, Call(t));
      && (Inside(s', c) <==> !s.closed) && t !in s'.accepted
      && (Inside(s', c) ==> Submitting(s', c, t, false))
  {
    Flags(s);
    hide Inv;
  }

  /** What the client's own step leads to: the next place, or out, with the task accepted or not. */
  ghost predicate Moves(s: State, s': State, c: nat, t: TaskId, refused: bool) {
    && (Inside(s', c) ==> Submitting(s', c, t, refused))
    && (!Inside(s', c) ==> (t in s'.accepted <==> !refused))
  }

  lemma OwnStep(s: State, c: nat, step: SubmitStep, t: TaskId, refused: bool)
    requires Inv(s) && CanSubmit(s, c, step) && Submitting(s, c, t, refused)
    ensures Moves(s, ApplySubmit(s, c, step), c, t, refused || TurnedAway(s, Submit(c, step), c, t))
  {
    Flags(s);
    SlotsLeft(s);
    hide Inv, Moves, DoEnter, DoTakeSlot, DoUndoId, DoSubmitNotify, DoAddId, DoStore, DoStoreRaises, DoUndoSlot;
    match step
    case Enter => EnterMoves(s, c, t, refused);
    case TakeSlot => TakeSlotMoves(s, c, t, refused);
    case AddId => AddIdMoves(s, c, t, refused);
    case Store => StoreMoves(s, c, t, refused);
    case StoreRaises => StoreMoves(s, c, t, refused);
    case UndoId => UndoMoves(s, c, t, refused);
    case UndoSlot => UndoneMoves(s, c, t, refused);
    case Notify => UndoneMoves(s, c, t, refused);
  }

  lemma EnterMoves(s: State, c: nat, t: TaskId, refused: bool)
    requires CanSubmit(s, c, Enter) && Submitting(s, c, t, refused) && s.accepting == !s.closed
    ensures Moves(s, DoEnter(s, c), c, t, refused || TurnedAway(s, Submit(c, Enter), c, t))
  {
    if !s.accepting || t in s.records {
    } else {
    }
  }

  lemma TakeSlotMoves(s: State, c: nat, t: TaskId, refused: bool)
    requires CanSubmit(s, c, TakeSlot) && Submitting(s, c, t, refused) && (s.free > 0 <==> !Full(s))
    ensures Moves(s, DoTakeSlot(s, c), c, t, refused || TurnedAway(s, Submit(c, TakeSlot), c, t))
  {
    hide TransitThreads;
    if s.free > 0 {
    } else {
    }
  }

  lemma AddIdMoves(s: State, c: nat, t: TaskId, refused: bool)
    requires CanSubmit(s, c, AddId) && Submitting(s, c, t, refused)
    ensures Moves(s, DoAddId(s, c), c, t, refused || TurnedAway(s, Submit(c, AddId), c, t))
  {
  }

  lemma StoreMoves(s: State, c: nat, t: TaskId, refused: bool)
    requires CanSubmit(s, c, Store) && Submitting(s, c, t, refused)
    ensures Moves(s, DoStore(s, c), c, t, refused || TurnedAway(s, Submit(c, Store), c, t))
    ensures Moves(s, DoStoreRaises(s, c), c, t, refused || TurnedAway(s, Submit(c, StoreRaises), c, t))
  {
  }

  lemma UndoMoves(s: State, c: nat, t: TaskId, refused: bool)
    requires CanSubmit(s, c, UndoId) && Submitting(s, c, t, refused)
    ensures Moves(s, DoUndoId(s, c), c, t, refused || TurnedAway(s, Submit(c, UndoId), c, t))
  {
    if t in s.outstanding {
    } else {
    }
  }

  lemma UndoneMoves(s: State, c: nat, t: TaskId, refused: bool)
    requires Submitting(s, c, t, refused)
    ensures CanSubmit(s, c, UndoSlot) ==>
              Moves(s, DoUndoSlot(s, c), c, t, refused || TurnedAway(s, Submit(c, UndoSlot), c, t))
    ensures CanSubmit(s, c, SubmitStep.Notify) ==>
              Moves(s, DoSubmitNotify(s, c), c, t, refused || TurnedAway(s, Submit(c, SubmitStep.Notify), c, t))
  {
  }

  lemma SlotsLeft(s: State)
    requires Inv(s)
    ensures s.free > 0 <==> !Full(s)
  {
    hide LocalInv, WakeInv, TransitThreads;
  }

  /** Only a client about to store the task gets it accepted. */
  lemma OnlyStoreAccepts(s: State, e: Event, t: TaskId)
    requires Enabled(s, e) && t in Apply(s, e).accepted && t !in s.accepted
    ensures exists d :: ActorOf(e) == Some(Client(d)) && s.At(Client(d), SubmitStore(t))
  {
    StepFrame(s, e);
    hide NotifyAll;
    assert e.Submit? && e.submit.Store?;
    assert ActorOf(e) == Some(Client(e.client));
  }

  /** No other client is about to store the task: before the lock the task is this client's, and
      behind it nobody else is. */
  lemma NobodyElseStores(s: State, c: nat, t: TaskId, refused: bool, d: nat)
    requires Inv(s) && Submitting(s, c, t, refused) && d != c
    ensures !s.At(Client(d), SubmitStore(t))
  {
    assert CarryInv(s, Client(c)) && CarryInv(s, Client(d)) && ThreadInv(s, Client(c)) && ThreadInv(s, Client(d));
    if s.At(Client(d), SubmitStore(t)) { assert Submits(s.pcs[Client(d)], t); }
    hide Inv;
    if s.At(Client(c), SubmitLock(t)) { assert Submits(s.pcs[Client(c)], t); }
  }

  lemma OthersStep(s: State, e: Event, c: nat, t: TaskId, refused: bool)
    requires Inv(s) && Enabled(s, e) && ActorOf(e) != Some(Client(c)) && Submitting(s, c, t, refused)
    ensures Submitting(Apply(s, e), c, t, refused)
  {
    ThreadStays(s, e, Client(c));
    StepFrame(s, e);
    if t in Apply(s, e).accepted && t !in s.accepted {
      OnlyStoreAccepts(s, e, t);
      var d :| ActorOf(e) == Some(Client(d)) && s.At(Client(d), SubmitStore(t));
      NobodyElseStores(s, c, t, refused, d);
    }
    hide Apply, Enabled, Inv;
  }

  /** A step in the middle of a submit, whoever takes it. */
  lemma SubmitStepKeeps(s: State, e: Event, c: nat, t: TaskId, refused: bool)
    requires Inv(s) && Enabled(s, e) && Submitting(s, c, t, refused)
    ensures var s' := Apply(s, e);
      Moves(s, s', c, t, refused || TurnedAway(s, e, c, t))
  {
    if ActorOf(e) == Some(Client(c)) {
      OnlySubmits(s, e, c, t, refused);
      hide Inv;
      OwnStep(s, c, e.submit, t, refused);
    } else {
      hide Inv, Enabled, Apply;
      OthersStep(s, e, c, t, refused);
    }
  }

  lemma OnlySubmits(s: State, e: Event, c: nat, t: TaskId, refused: bool)
    requires Inv(s) && Enabled(s, e) && Submitting(s, c, t, refused) && ActorOf(e) == Some(Client(c))
    ensures e.Submit? && e.client == c
  {
    hide Inv;
  }

  /** The client has been refused at one of the events. */
  ghost predicate RefusedIn(states: seq<State>, events: seq<Event>, c: nat, t: TaskId, i: nat, j: nat)
    requires j <= |events| < |states|
  {
    exists k :: i <= k < j && TurnedAway(states[k], events[k], c, t)
  }

  lemma RefusedNext(states: seq<State>, events: seq<Event>, c: nat, t: TaskId, i: nat, j: nat)
    requires i <= j < |events| < |states|
    ensures RefusedIn(states, events, c, t, i, j + 1) <==>
              RefusedIn(states, events, c, t, i, j) || TurnedAway(states[j], events[j], c, t)
  {
    hide TurnedAway;
    if k :| i <= k < j && TurnedAway(states[k], events[k], c, t) { assert i <= k < j + 1; }
  }

  lemma {:induction false} SubmitGoesOn(states: seq<State>, events: seq<Event>, i: nat, j: nat, c: nat, t: TaskId)
    requires Run(states, events) && i < j <= |events| && events[i] == Submit(c, Call(t))
    requires forall k :: i < k < j ==> Inside(states[k], c)
    ensures Inside(states[j], c) ==> Submitting(states[j], c, t, RefusedIn(states, events, c, t, i, j))
    ensures !Inside(states[j], c) ==> (t in states[j].accepted <==> !RefusedIn(states, events, c, t, i, j))
  {
    hide Inv, Submitting, RefusedIn, TurnedAway, Apply, Enabled, Fresh, Init;
    var s, e := states[j - 1], events[j - 1];
    RunInv(states, events, j - 1);
    RefusedNext(states, events, c, t, i, j - 1);
    assert Step(s, e, states[j - 1 + 1]);
    if j == i + 1 {
      NotYet(states, events, c, t, i);
      CallMoves(s, c, t);
    } else {
      SubmitGoesOn(states, events, i, j - 1, c, t);
      assert Inside(states[j - 1], c);
      SubmitStepKeeps(s, e, c, t, RefusedIn(states, events, c, t, i, j - 1));
    }
  }

  lemma CallMoves(s: State, c: nat, t: TaskId)
    requires Inv(s) && Enabled(s, Submit(c, Call(t))) && Fresh(s, Submit(c, Call(t)))
    ensures Moves(s, Apply(s, Submit(c, Call(t))), c, t, TurnedAway(s, Submit(c, Call(t)), c, t))
  {
    hide Inv;
    CallSteps(s, c, t);
  }

  lemma NotYet(states: seq<State>, events: seq<Event>, c: nat, t: TaskId, i: nat)
    requires i <= |events| < |states|
    ensures !RefusedIn(states, events, c, t, i, i)
  {
  }

  /** A submit that has ended got its task accepted if and only if at none of its steps the
      scheduler was found closed, the id found stored, every slot found taken, or the store raised. */
  lemma SubmitAcceptedIff(states: seq<State>, events: seq<Event>, i: nat, j: nat, c: nat, t: TaskId)
    requires Run(states, events) && i < j <= |events| && events[i] == Submit(c, Call(t))
    requires (forall k :: i < k < j ==> Client(c) in states[k].pcs) && Client(c) !in states[j].pcs
    ensures t in states[j].accepted <==> forall k | i <= k < j :: !TurnedAway(states[k], events[k], c, t)
  {
    hide Submitting, TurnedAway, Run;
    SubmitGoesOn(states, events, i, j, c, t);
  }
}
