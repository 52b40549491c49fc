/**
 The scheduler over the process pool: one run of both, in which strategy.execute is the pool's
 execute and the scheduler learns of a future when the pool resolves it.
 */
module WholeSystem {
  import opened Core
  import opened PoolModel
  import S = SchedulerMachine
  import SF = SchedulerFrame
  import SI = SchedulerInvariant
  import ST = SchedulerTheorems
  import SG = SchedulerGuarantees
  import P = PoolRuns

  /** future says which of the pool's futures the scheduler got for a task, and answered which
      futures a result message has taken. */
  datatype System = System(sched: S.State, pool: P.Sys, future: map<TaskId, nat>, answered: set<nat>)

  datatype Event =
    | Sched(inner: S.Event)
    | Pool(step: P.Event)
    | Execute(worker: nat, handler: HandlerName, oracle: Oracle)
    | Complete(task: TaskId, ok: bool)
    | StrategyClosed(client: nat)

  /** What the scheduler sees of a strategy: these steps are joint ones. */
  predicate Joint(e: S.Event) {
    || (e.RunTask? && e.run.Execute?)
    || e.Resolve?
    || (e.Stop? && e.stop.Closed?)
  }

  predicate Hands(s: System, w: nat) {
    S.Worker(w) in s.sched.pcs && s.sched.pcs[S.Worker(w)].Started?
  }

  /** The task worker w hands to the strategy and the pool's answer. */
  function Handed(s: System, w: nat, h: HandlerName, o: Oracle): (TaskId, P.Event, S.Event)
    requires Hands(s, w)
  {
    var t := s.sched.pcs[S.Worker(w)].task;
    var rejected := PoolModel.Execute(s.pool.pool, t, h, s.pool.created, o).1.Rejected?;
    (t, P.Exec(t, h, o), S.RunTask(w, S.RunStep.Execute(if rejected then Some(false) else None)))
  }

  /** The future a message takes: it alone can be resolved with a result. */
  function Answer(p: P.Sys, step: P.Event): set<nat> {
    if step.Result? && Receive(p.pool, step.task, step.from).1.Some? then
      {Receive(p.pool, step.task, step.from).1.value}
    else {}
  }

  ghost predicate Step(s: System, e: Event, s': System) {
    && s'.answered == (if e.Pool? then s.answered + Answer(s.pool, e.step) else s.answered)
    && match e
       case Sched(inner) =>
         !Joint(inner) && S.Step(s.sched, inner, s'.sched) && s'.pool == s.pool && s'.future == s.future
       case Pool(step) =>
         && P.Enabled(s.pool, step) && s'.pool == P.Apply(s.pool, step)
         && (step.Resolve? ==> step.future !in s.future.Values)
         && s'.sched == s.sched && s'.future == s.future
       case Execute(w, h, o) =>
         && Hands(s, w)
         && var (t, step, inner) := Handed(s, w, h, o);
            && S.Step(s.sched, inner, s'.sched) && s'.pool == P.Apply(s.pool, step)
            && s'.future == s.future[t := s.pool.created]
       case Complete(t, ok) =>
         && t in s.future && P.Enabled(s.pool, P.Resolve(s.future[t]))
         && (ok ==> s.future[t] in s.answered)
         && S.Step(s.sched, S.Resolve(t, ok), s'.sched) && s'.pool == P.Apply(s.pool, P.Resolve(s.future[t]))
         && s'.future == s.future
       case StrategyClosed(c) =>
         && s.pool.pool.closeComplete
         && S.Step(s.sched, S.Stop(c, S.Closed), s'.sched) && s'.pool == s.pool && s'.future == s.future
  }

  ghost predicate Init(s: System) {
    S.Init(s.sched) && (exists specs :: P.Start(s.pool, specs)) && s.future == map[] && s.answered == {}
  }

  ghost predicate Run(states: seq<System>, events: seq<Event>) {
    && |states| == |events| + 1 && Init(states[0])
    && forall i :: 0 <= i < |events| ==> Step(states[i], events[i], states[i + 1])
  }

  /** A future of the scheduler is done exactly when the pool resolved it, and the strategy counts
      as closed only when the pool's close has completed. */
  ghost predicate Linked(s: System) {
    && s.future.Keys == s.sched.futures.Keys
    && (forall t :: t in s.future ==> s.future[t] < s.pool.created)
    && (forall t, u :: t in s.future && u in s.future && s.future[t] == s.future[u] ==> t == u)
    && (forall t :: t in s.future ==> (s.sched.futures[t].Resolved? <==> s.future[t] in s.pool.done))
    && (s.sched.strategyClosed ==> s.pool.pool.closeComplete)
  }

  ghost predicate Inv(s: System) {
    SI.Inv(s.sched) && P.Inv(s.pool) && Linked(s)
  }

  // ---------- the scheduler's other steps leave the futures alone ----------

  /** Which tasks have futures, which of these are done, and whether the strategy is closed. */
  predicate SameFutures(s: S.State, s': S.State) {
    && s'.futures.Keys == s.futures.Keys
    && (forall t :: t in s.futures ==> s'.futures[t].Resolved? == s.futures[t].Resolved?)
    && s'.strategyClosed == s.strategyClosed
  }

  lemma AddCallbackSame(s: S.State, w: nat)
    requires S.CanRun(s, w, S.AddCallback)
    ensures SameFutures(s, S.DoAddCallback(s, w))
  {
  }

  lemma OthersSame(s: S.State, e: S.Event)
    requires S.Enabled(s, e) && !Joint(e)
    ensures SameFutures(s, S.Apply(s, e))
  {
    if e.RunTask? && e.run.AddCallback? {
      AddCallbackSame(s, e.worker);
    } else {
      SF.StepFrame(s, e);
      hide S.Apply, S.Enabled;
    }
  }

  // ---------- every run ----------

  lemma FuturesBelow(s: System, t: TaskId)
    requires Linked(s) && t in s.future
    ensures s.future[t] < s.pool.created
  {
  }

  lemma SchedLinks(s: System, s': System)
    requires Linked(s) && SameFutures(s.sched, s'.sched) && s'.pool == s.pool && s'.future == s.future
    ensures Linked(s')
  {
  }

  lemma SchedKeeps(s: System, inner: S.Event, s': System)
    requires Inv(s) && Step(s, Sched(inner), s')
    ensures Inv(s')
  {
    hide S.Apply, S.Enabled, S.Fresh, SI.Inv, P.Inv, Linked, SameFutures;
    ST.StepKeeps(s.sched, inner);
    OthersSame(s.sched, inner);
    SchedLinks(s, s');
  }

  lemma PoolLinks(s: System, step: P.Event, s': System)
    requires Linked(s) && s'.sched == s.sched && s'.future == s.future
    requires step.Resolve? ==> step.future !in s.future.Values
    requires s.pool.created <= s'.pool.created && s.pool.done <= s'.pool.done
    requires s.pool.pool.closeComplete ==> s'.pool.pool.closeComplete
    requires forall f :: f in s'.pool.done && f !in s.pool.done ==> step == P.Resolve(f) || f >= s.pool.created
    ensures Linked(s')
  {
  }

  lemma PoolKeeps(s: System, step: P.Event, s': System)
    requires Inv(s) && Step(s, Event.Pool(step), s')
    ensures Inv(s')
  {
    hide P.Apply, P.Enabled, SI.Inv, P.Inv, Linked;
    P.StepKeeps(s.pool, step);
    PoolDone(s.pool, step);
    PoolLinks(s, step, s');
  }

  /** What a step of the pool adds to the done futures is new or just resolved. */
  lemma PoolDone(s: P.Sys, e: P.Event)
    requires P.Inv(s) && P.Enabled(s, e)
    ensures var s' := P.Apply(s, e);
      && s.created <= s'.created && s.done <= s'.done
      && (s.pool.closeComplete ==> s'.pool.closeComplete)
      && (forall f :: f in s'.done && f !in s.done ==> e == P.Resolve(f) || f >= s.created)
      && (forall f :: e == P.Resolve(f) ==> f in s'.done)
  {
    if e.Exec? { P.ExecuteFlags(s.pool, e.task, e.handler, s.created, e.oracle); }
    hide PoolModel.Execute, P.Conserved, PoolModel.Receive, PoolModel.HandleExit, PoolModel.Unregister,
         PoolModel.FailAll;
  }

  /** A future that execute returns done was just created; any other is not done. */
  lemma PoolCreates(s: P.Sys, t: TaskId, h: HandlerName, o: Oracle)
    requires P.Inv(s)
    ensures var s' := P.Apply(s, P.Exec(t, h, o));
      && s'.created == s.created + 1
      && (s.created in s'.done <==> PoolModel.Execute(s.pool, t, h, s.created, o).1.Rejected?)
      && (forall f :: f < s.created ==> (f in s'.done <==> f in s.done))
  {
    hide PoolModel.Execute;
  }

  /** The future a worker gets from the strategy. */
  lemma StrategyReturns(s: S.State, w: nat, done: Option<bool>)
    requires SI.Inv(s) && S.Enabled(s, S.RunTask(w, S.RunStep.Execute(done)))
    ensures var t, s' := s.pcs[S.Worker(w)].task, S.Apply(s, S.RunTask(w, S.RunStep.Execute(done)));
      && t !in s.futures && s'.strategyClosed == s.strategyClosed
      && s'.futures == s.futures[t := if done.Some? then S.Resolved(done.value) else S.Open]
  {
    var tid := S.Worker(w);
    var t := s.pcs[tid].task;
    assert SI.CarryInv(s, tid) && SI.Carries(s.pcs[tid], t) && SI.TaskInv(s, t);
  }

  lemma ExecuteLinks(s: System, t: TaskId, s': System, fut: S.Fut)
    requires Linked(s) && t !in s.sched.futures
    requires s'.future == s.future[t := s.pool.created] && s'.sched.futures == s.sched.futures[t := fut]
    requires s'.pool.created == s.pool.created + 1 && (s.pool.created in s'.pool.done <==> fut.Resolved?)
    requires forall f :: f < s.pool.created ==> (f in s'.pool.done <==> f in s.pool.done)
    requires s'.sched.strategyClosed == s.sched.strategyClosed
    requires s.pool.pool.closeComplete ==> s'.pool.pool.closeComplete
    ensures Linked(s')
  {
  }

  lemma ExecuteKeeps(s: System, w: nat, h: HandlerName, o: Oracle, s': System)
    requires Inv(s) && Step(s, Execute(w, h, o), s')
    ensures Inv(s')
  {
    var (t, step, inner) := Handed(s, w, h, o);
    ST.StepKeeps(s.sched, inner);
    StrategyReturns(s.sched, w, inner.run.done);
    P.StepKeeps(s.pool, step);
    PoolCreates(s.pool, t, h, o);
    PoolDone(s.pool, step);
    hide SI.Inv, P.Inv, Linked, PoolModel.Execute, S.Apply, S.Enabled, S.Fresh, P.Apply, P.Enabled;
    ExecuteLinks(s, t, s', if inner.run.done.Some? then S.Resolved(inner.run.done.value) else S.Open);
  }

  lemma StrategyResolves(s: S.State, t: TaskId, ok: bool)
    requires S.CanResolve(s, t)
    ensures var s' := S.ApplyResolve(s, t, ok);
      s'.futures == s.futures[t := S.Resolved(ok)] && s'.strategyClosed == s.strategyClosed
  {
  }

  lemma PoolResolves(s: P.Sys, f: nat)
    ensures var s' := P.Apply(s, P.Resolve(f));
      s'.created == s.created && s'.done == s.done + {f} && s'.pool == s.pool
  {
  }

  lemma CompleteLinks(s: System, t: TaskId, ok: bool, s': System)
    requires Linked(s) && t in s.future && s'.future == s.future
    requires s'.sched.futures == s.sched.futures[t := S.Resolved(ok)]
    requires s'.sched.strategyClosed == s.sched.strategyClosed && s'.pool.pool == s.pool.pool
    requires s'.pool.created == s.pool.created && s'.pool.done == s.pool.done + {s.future[t]}
    ensures Linked(s')
  {
  }

  lemma CompleteKeeps(s: System, t: TaskId, ok: bool, s': System)
    requires Inv(s) && Step(s, Complete(t, ok), s')
    ensures Inv(s')
  {
    ST.StepKeeps(s.sched, S.Resolve(t, ok));
    P.StepKeeps(s.pool, P.Resolve(s.future[t]));
    StrategyResolves(s.sched, t, ok);
    PoolResolves(s.pool, s.future[t]);
    hide SI.Inv, P.Inv, Linked, S.ApplyResolve, S.CanResolve, P.Apply;
    CompleteLinks(s, t, ok, s');
  }

  lemma ClosedFutures(s: S.State, c: nat)
    requires S.CanStop(s, c, S.Closed)
    ensures S.ApplyStop(s, c, S.Closed).futures == s.futures
  {
  }

  lemma ClosedLinks(s: System, s': System)
    requires Linked(s) && s'.sched.futures == s.sched.futures && s'.pool == s.pool && s'.future == s.future
    requires s.pool.pool.closeComplete
    ensures Linked(s')
  {
  }

  lemma StrategyClosedKeeps(s: System, c: nat, s': System)
    requires Inv(s) && Step(s, StrategyClosed(c), s')
    ensures Inv(s')
  {
    hide SI.Inv, P.Inv, Linked, S.ApplyStop, S.CanStop;
    ST.StepKeeps(s.sched, S.Stop(c, S.Closed));
    ClosedFutures(s.sched, c);
    ClosedLinks(s, s');
  }

  lemma StepKeeps(s: System, e: Event, s': System)
    requires Inv(s) && Step(s, e, s')
    ensures Inv(s')
  {
    hide Inv, Step;
    match e
    case Sched(inner) => SchedKeeps(s, inner, s');
    case Pool(step) => PoolKeeps(s, step, s');
    case Execute(w, h, o) => ExecuteKeeps(s, w, h, o, s');
    case Complete(t, ok) => CompleteKeeps(s, t, ok, s');
    case StrategyClosed(c) => StrategyClosedKeeps(s, c, s');
  }

  lemma InitInv(s: System)
    requires Init(s)
    ensures Inv(s)
  {
    ST.InitInv(s.sched);
    var specs :| P.Start(s.pool, specs);
    P.StartInv(s.pool, specs);
  }

  lemma {:induction false} RunInv(states: seq<System>, events: seq<Event>, i: nat)
    requires Run(states, events) && i < |states|
    ensures Inv(states[i])
  {
    hide Inv, Init, Step;
    if i == 0 {
      InitInv(states[0]);
    } else {
      RunInv(states, events, i - 1);
      assert Step(states[i - 1], events[i - 1], states[i - 1 + 1]);
      StepKeeps(states[i - 1], events[i - 1], states[i]);
    }
  }

  // ---------- the whole system at rest ----------

  /** When the scheduler rests and the pool's close has completed, everything is released if and
      only if no thread of the pool still owes the resolution of a future the scheduler got for a
      task it took; and once a stop got past close, no worker thread is left. */
  lemma StopReleasesIff(states: seq<System>, events: seq<Event>, i: nat)
    requires Run(states, events) && i < |states|
    requires SG.Quiescent(states[i].sched) && states[i].pool.pool.closeComplete
    ensures SG.Released(states[i].sched) <==>
              forall t :: t in states[i].future && t in states[i].sched.called ==>
                states[i].future[t] !in states[i].pool.held
    ensures states[i].sched.strategyClosed ==> states[i].sched.threads == {}
  {
    RunInv(states, events, i);
    var s := states[i];
    SG.AtRest(s.sched);
    assert SI.Inv(s.sched) && P.Inv(s.pool);
    assert s.sched.strategyClosed ==> s.sched.stopFlag;
    NoneInTable(s.pool);
    hide P.Inv, SI.Inv, SG.Released, SG.Quiescent;
    forall t | t in s.future ensures s.sched.futures[t].Resolved? <==> s.future[t] !in s.pool.held {
      FuturesBelow(s, t);
    }
  }

  lemma NoneInTable(s: P.Sys)
    requires P.Inv(s) && s.pool.closeComplete
    ensures s.held !! s.done && forall f: nat :: f < s.created ==> f in s.held || f in s.done
  {
  }

  /** Nothing of the scheduler or the pool can move: everything the scheduler took is settled and
      every slot is free. */
  lemma StopSettles(states: seq<System>, events: seq<Event>, i: nat)
    requires Run(states, events) && i < |states|
    requires SG.Quiescent(states[i].sched) && states[i].pool.pool.closeComplete
    requires forall f: nat :: !P.Enabled(states[i].pool, P.Resolve(f))
    ensures SG.Released(states[i].sched)
  {
    StopReleasesIff(states, events, i);
    var s := states[i];
    forall t | t in s.future ensures s.future[t] !in s.pool.held {
      assert !P.Enabled(s.pool, P.Resolve(s.future[t]));
    }
  }
}
