/** What a COMPLETED record says about the pool: the worker the task was assigned to answered it. */
module WholeOutcome {
  import opened Core
  import opened PoolModel
  import opened WholeSystem
  import S = SchedulerMachine
  import SI = SchedulerInvariant
  import ST = SchedulerTheorems
  import SO = SchedulerOutcome
  import P = PoolRuns
  import PI = PoolInvariant

  /** The scheduler's part of a step. */
  function SchedEvent(s: System, e: Event): Option<S.Event> {
    match e
    case Sched(inner) => Some(inner)
    case Pool(_) => None
    case Execute(w, h, o) => if Hands(s, w) then Some(Handed(s, w, h, o).2) else None
    case Complete(t, ok) => Some(S.Resolve(t, ok))
    case StrategyClosed(c) => Some(S.Stop(c, S.Closed))
  }

  lemma SchedSteps(s: System, e: Event, s': System)
    requires Step(s, e, s')
    ensures match SchedEvent(s, e)
            case None => s'.sched == s.sched
            case Some(inner) => S.Step(s.sched, inner, s'.sched)
  {
    hide S.Enabled, S.Apply, S.Fresh;
  }

  /** The scheduler hears of a result only when the pool resolves a future with one. */
  lemma OnlyCompleteReports(s: System, e: Event, s': System, t: TaskId)
    requires Step(s, e, s')
    ensures SchedEvent(s, e).Some? && SO.Reports(s.sched, SchedEvent(s, e).value, t, true) <==> e == Complete(t, true)
  {
    hide S.Enabled, S.Apply, S.Fresh, P.Enabled, P.Apply;
  }

  lemma SchedOutcome(s: System, e: Event, s': System, t: TaskId)
    requires Inv(s) && Step(s, e, s') && SO.OutcomeAt(s.sched, t)
    ensures SO.OutcomeAt(s'.sched, t)
    ensures SO.Succeeded(s'.sched, t) <==> SO.Succeeded(s.sched, t) || e == Complete(t, true)
  {
    SchedSteps(s, e, s');
    OnlyCompleteReports(s, e, s', t);
    assert SI.Inv(s.sched);
    hide Inv, Step, SI.Inv, S.Enabled, S.Apply, S.Fresh, SO.Reports, SchedEvent, SO.OutcomeAt;
    match SchedEvent(s, e)
    case None =>
    case Some(inner) =>
      SO.FutureStep(s.sched, inner, t, true);
      SO.OutcomeStep(s.sched, inner, t);
  }

  lemma {:induction false} RunOutcome(states: seq<System>, events: seq<Event>, i: nat, t: TaskId)
    requires Run(states, events) && i < |states|
    ensures SO.OutcomeAt(states[i].sched, t)
    ensures SO.Succeeded(states[i].sched, t) <==> exists k :: 0 <= k < i && events[k] == Complete(t, true)
  {
    hide Inv, Init, Step, SO.OutcomeAt, SO.Succeeded;
    if i == 0 {
      Beginning(states[0], t);
    } else {
      RunOutcome(states, events, i - 1, t);
      RunInv(states, events, i - 1);
      assert Step(states[i - 1], events[i - 1], states[i - 1 + 1]);
      SchedOutcome(states[i - 1], events[i - 1], states[i], t);
    }
  }

  lemma Beginning(s: System, t: TaskId)
    requires Init(s)
    ensures SO.OutcomeAt(s.sched, t) && !SO.Succeeded(s.sched, t) && Named(s) && s.answered == {}
  {
  }

  // ---------- which task a future belongs to ----------

  /** A pending future the scheduler got for a task is pending under that task's id. */
  ghost predicate Named(s: System) {
    forall t, u :: t in s.future && u in s.pool.pool.futures && s.pool.pool.futures[u] == s.future[t] ==> u == t
  }

  /** Only executing a request puts a future into the table: a new one, under the request's id. */
  lemma TableStep(s: P.Sys, e: P.Event, u: TaskId)
    requires u in P.Apply(s, e).pool.futures
    ensures var f := P.Apply(s, e).pool.futures[u];
      || (u in s.pool.futures && s.pool.futures[u] == f)
      || (f == s.created && e.Exec? && e.task == u)
  {
    if e.Exec? { PI.ExecuteShape(s.pool, e.task, e.handler, s.created, e.oracle); }
    hide PoolModel.Execute, PoolModel.AddRoutes, PoolModel.DropRoutes, PoolModel.RemoveName, PoolModel.GroupTasks,
         PoolModel.FuturesOf, PoolModel.Owned;
  }

  /** What a step does to the pool. */
  function PoolEvent(s: System, e: Event): Option<P.Event> {
    match e
    case Pool(step) => Some(step)
    case Execute(w, h, o) => if Hands(s, w) then Some(Handed(s, w, h, o).1) else None
    case Complete(t, _) => if t in s.future then Some(P.Resolve(s.future[t])) else None
    case _ => None
  }

  lemma PoolSteps(s: System, e: Event, s': System)
    requires Step(s, e, s')
    ensures s'.pool == match PoolEvent(s, e)
                       case None => s.pool
                       case Some(step) => P.Apply(s.pool, step)
    ensures s'.future == match e
                         case Execute(w, h, o) => s.future[Handed(s, w, h, o).0 := s.pool.created]
                         case _ => s.future
  {
    hide S.Enabled, S.Apply, S.Fresh, P.Enabled, P.Apply, PoolModel.Execute;
  }

  lemma NamedStep(s: System, e: Event, s': System)
    requires Inv(s) && Step(s, e, s') && Named(s)
    ensures Named(s')
  {
    assert Linked(s) && P.Inv(s.pool);
    hide Inv, P.Apply, PoolModel.Execute, P.Inv, S.Apply, S.Enabled, S.Fresh, P.Enabled;
    PoolSteps(s, e, s');
    hide Step;
    forall t, u | t in s'.future && u in s'.pool.pool.futures && s'.pool.pool.futures[u] == s'.future[t]
      ensures u == t
    {
      if PoolEvent(s, e).Some? { TableStep(s.pool, PoolEvent(s, e).value, u); }
      TableBelow(s.pool, u);
    }
  }

  lemma TableBelow(s: P.Sys, u: TaskId)
    requires P.Inv(s)
    ensures u in s.pool.futures ==> s.pool.futures[u] < s.created
  {
    hide PI.PoolInv;
    if u in s.pool.futures { assert s.pool.futures[u] in s.pool.futures.Values; }
  }

  lemma {:induction false} RunNamed(states: seq<System>, events: seq<Event>, i: nat)
    requires Run(states, events) && i < |states|
    ensures Named(states[i])
  {
    hide Inv, Init, Step, Named;
    if i == 0 {
      Beginning(states[0], TaskId(""));
    } else {
      RunNamed(states, events, i - 1);
      RunInv(states, events, i - 1);
      assert Step(states[i - 1], events[i - 1], states[i - 1 + 1]);
      NamedStep(states[i - 1], events[i - 1], states[i]);
    }
  }

  // ---------- the answer ----------

  /** A message from the worker the task was assigned to takes this future. */
  predicate Answers(s: System, e: Event, t: TaskId, f: nat) {
    && e.Pool? && e.step.Result? && e.step.task == t
    && t in s.pool.pool.assignments && s.pool.pool.assignments[t] == e.step.from
    && t in s.pool.pool.futures && s.pool.pool.futures[t] == f
  }

  lemma AnswerStep(s: System, e: Event, s': System, t: TaskId)
    requires Step(s, e, s') && Named(s) && t in s.future && s.future[t] in s'.answered
    ensures s.future[t] in s.answered || Answers(s, e, t, s.future[t])
  {
    hide S.Enabled, S.Apply, S.Fresh, P.Enabled, P.Apply, PoolModel.Execute;
  }

  lemma FutureStays(s: System, e: Event, s': System, t: TaskId)
    requires Inv(s) && Step(s, e, s')
    ensures t in s.future ==> t in s'.future && s'.future[t] == s.future[t]
    ensures t in s'.future && t !in s.future ==> s'.future[t] == s.pool.created && s'.answered == s.answered
  {
    PoolSteps(s, e, s');
    if e.Execute? {
      HandedFuture(s, e, s', t);
      hide Inv, Step;
    } else {
      hide Inv, S.Enabled, S.Apply, S.Fresh, P.Enabled, P.Apply, PoolModel.Execute;
    }
  }

  lemma HandedFuture(s: System, e: Event, s': System, t: TaskId)
    requires Inv(s) && Step(s, e, s') && e.Execute?
    ensures t in s.future ==> t in s'.future && s'.future[t] == s.future[t]
    ensures t in s'.future && t !in s.future ==> s'.future[t] == s.pool.created && s'.answered == s.answered
  {
    hide SI.Inv, P.Inv, S.Enabled, S.Apply, S.Fresh, P.Enabled, P.Apply, PoolModel.Execute;
    var (u, step, inner) := Handed(s, e.worker, e.handler, e.oracle);
    StrategyReturns(s.sched, e.worker, inner.run.done);
    assert u !in s.future;
  }

  /** What messages have taken was in the table. */
  lemma AnsweredBelow(s: System, e: Event, s': System)
    requires Inv(s) && Step(s, e, s') && forall f :: f in s.answered ==> f < s.pool.created
    ensures forall f :: f in s'.answered ==> f < s'.pool.created
  {
    PoolSteps(s, e, s');
    if PoolEvent(s, e).Some? { CreatedGrows(s.pool, PoolEvent(s, e).value); }
    assert P.Inv(s.pool);
    if e.Pool? && e.step.Result? { TableBelow(s.pool, e.step.task); }
    hide Inv, S.Enabled, S.Apply, S.Fresh, P.Enabled, P.Apply, P.Inv, PoolModel.Execute;
  }

  lemma CreatedGrows(s: P.Sys, e: P.Event)
    ensures s.created <= P.Apply(s, e).created
  {
    hide PoolModel.Execute, PoolModel.Receive, PoolModel.HandleExit, PoolModel.Unregister, PoolModel.FailAll;
  }

  lemma {:induction false} RunAnswered(states: seq<System>, events: seq<Event>, i: nat, t: TaskId)
    requires Run(states, events) && i < |states|
    ensures forall f :: f in states[i].answered ==> f < states[i].pool.created
    ensures t in states[i].future && states[i].future[t] in states[i].answered ==>
              exists k :: 0 <= k < i && Answers(states[k], events[k], t, states[i].future[t])
  {
    hide Inv, Init, Step, Named, Answers;
    if i == 0 {
      Beginning(states[0], t);
    } else {
      RunAnswered(states, events, i - 1, t);
      RunInv(states, events, i - 1);
      RunNamed(states, events, i - 1);
      assert Step(states[i - 1], events[i - 1], states[i - 1 + 1]);
      AnsweredBelow(states[i - 1], events[i - 1], states[i]);
      FutureStays(states[i - 1], events[i - 1], states[i], t);
      if t in states[i - 1].future && states[i].future[t] in states[i].answered {
        AnswerStep(states[i - 1], events[i - 1], states[i], t);
      }
    }
  }

  lemma CompletesAnswered(s: System, t: TaskId, s': System)
    requires Step(s, Complete(t, true), s')
    ensures t in s.future && s.future[t] in s.answered && s.answered <= s'.answered
  {
    hide S.Enabled, S.Apply, S.Fresh, P.Enabled, P.Apply;
  }

  /** Over every run of both, a stored terminal record is COMPLETED if and only if the pool resolved
      the task's future with a result; before that, a message of the worker the task was assigned to
      took that very future. */
  lemma CompletedIffAnswered(states: seq<System>, events: seq<Event>, i: nat, t: TaskId)
    requires Run(states, events) && i < |states|
    requires t in states[i].sched.records && Terminal(states[i].sched.records[t])
    ensures states[i].sched.records[t] ==
              if exists k :: 0 <= k < i && events[k] == Complete(t, true) then Completed else Failed
    ensures states[i].sched.records[t].Completed? ==>
              && t in states[i].future
              && exists k :: 0 <= k < i && Answers(states[k], events[k], t, states[i].future[t])
  {
    hide Step, Init, Answers, Inv;
    RunOutcome(states, events, i, t);
    if k :| 0 <= k < i && events[k] == Complete(t, true) {
      assert Step(states[k], events[k], states[k + 1]);
      CompletesAnswered(states[k], t, states[k + 1]);
      RunAnswered(states, events, k, t);
      FutureKept(states, events, k, i, t);
    }
  }

  lemma {:induction false} FutureKept(states: seq<System>, events: seq<Event>, k: nat, i: nat, t: TaskId)
    requires Run(states, events) && k <= i < |states| && t in states[k].future
    ensures t in states[i].future && states[i].future[t] == states[k].future[t]
    decreases i - k
  {
    hide Step, Init, Inv;
    if k < i {
      FutureKept(states, events, k, i - 1, t);
      RunInv(states, events, i - 1);
      assert Step(states[i - 1], events[i - 1], states[i - 1 + 1]);
      FutureStays(states[i - 1], events[i - 1], states[i], t);
    }
  }
}
