/**
 The pool over whole runs: dispatchers, the result thread, the supervisor, threads that load and
 unload groups, and close, interleaved one locked region at a time. A future taken out of the
 table is held by the thread that took it until that thread resolves it outside the lock.
 */
module PoolRuns {
  import opened Core
  import opened SmoothRoundRobin
  import opened PoolModel
  import opened PoolInvariant
  import opened PoolDispatch

  /** Futures are numbered in the order of their creation. */
  datatype Sys = Sys(
    pool: Pool<nat>,
    created: nat,
    held: set<nat>,            // taken out of the table, not yet resolved
    done: set<nat>,
    starting: set<WorkerId>,   // launched again, not yet ready
    took: map<nat, set<nat>>)  // what each call of close took in _fail_all_pending

  datatype Event =
    | Exec(task: TaskId, handler: HandlerName, oracle: Oracle)
    | Result(task: TaskId, from: Assignment)       // any message, however stale
    | Resolve(future: nat)
    | Exit(worker: WorkerId)
    | Restart(worker: WorkerId)
    | Ready(worker: WorkerId)
    | ClearWeight(group: GroupName)                // the end of _restart_worker
    | Stopped(worker: WorkerId)                    // _stop_process while closing
    | Load(group: GroupName, handlers: seq<HandlerName>, count: nat)
    | Unload(group: GroupName)
    | Closing
    | FailPending(closer: Option<nat>)             // _fail_all_pending, in a call of close or in shutdown mode
    | Closed(call: nat)                            // the end of a call of close

  predicate Start(s: Sys, specs: seq<GroupSpec>) {
    ValidSpecs(specs) && s == Sys(Constructed(specs), 0, {}, {}, {}, map[])
  }

  predicate Enabled(s: Sys, e: Event) {
    match e
    case Resolve(f) => f in s.held
    case Restart(w) => w in s.pool.workers ==> !s.pool.workers[w].alive
    case Ready(w) => w in s.starting
    case Stopped(w) => s.pool.closing
    case Load(g, hs, n) => DistinctHandlers(hs)
    case FailPending(c) => s.pool.closing && (c.Some? ==> c.value !in s.took)
    case Closed(c) => c in s.took && s.took[c] <= s.done
    case _ => true
  }

  function Hold(s: Sys, q: Pool<nat>, taken: set<nat>): Sys {
    s.(pool := q, held := s.held + taken)
  }

  function Apply(s: Sys, e: Event): Sys {
    var p := s.pool;
    match e
    case Exec(t, h, o) =>
      var (q, out) := Execute(p, t, h, s.created, o);
      s.(pool := q, created := s.created + 1, done := if out.Rejected? then s.done + {s.created} else s.done)
    case Result(t, a) =>
      var (q, f) := Receive(p, t, a);
      Hold(s, q, if f.Some? then {f.value} else {})
    case Resolve(f) => s.(held := s.held - {f}, done := s.done + {f})
    case Exit(w) => var (q, taken) := HandleExit(p, w); Hold(s, q, taken).(starting := s.starting - {w})
    case Restart(w) =>
      s.(pool := Relaunch(p, w), starting := if p.closing || w !in p.workers then s.starting else s.starting + {w})
    case Ready(w) => s.(pool := SetAlive(p, w, true), starting := s.starting - {w})
    case ClearWeight(g) => s.(pool := ResetWeight(p, g))
    case Stopped(w) => s.(pool := SetAlive(p, w, false))
    case Load(g, hs, n) => s.(pool := Register(p, g, hs, n))
    case Unload(g) =>
      var (q, taken) := Unregister(p, g);
      Hold(s, q, taken).(starting := set w | w in s.starting && w in q.workers)
    case Closing => s.(pool := BeginClose(p))
    case FailPending(c) =>
      var (q, taken) := FailAll(p);
      Hold(s, q, taken).(took := if c.Some? then s.took[c.value := taken] else s.took)
    case Closed(_) => s.(pool := p.(closeComplete := true))
  }

  ghost predicate Run(states: seq<Sys>, events: seq<Event>) {
    && |states| == |events| + 1
    && (exists specs :: Start(states[0], specs))
    && forall i {:trigger events[i]} :: 0 <= i < |events| ==>
         Enabled(states[i], events[i]) && states[i + 1] == Apply(states[i], events[i])
  }

  // ---------- exactly-once resolution ----------

  /** Every created future is in exactly one place: pending, held by one thread, or done; and
      two tasks never share one. */
  ghost predicate Conserved(s: Sys) {
    && (forall f: nat :: f < s.created <==> f in s.pool.futures.Values || f in s.held || f in s.done)
    && s.pool.futures.Values !! s.held && s.pool.futures.Values !! s.done && s.held !! s.done
    && (forall t, u :: t in s.pool.futures && u in s.pool.futures && s.pool.futures[t] == s.pool.futures[u] ==> t == u)
  }

  ghost predicate Inv(s: Sys) {
    && PoolInv(s.pool)
    && Conserved(s)
    && (s.took != map[] ==> s.pool.closing && s.pool.futures == map[])
    && (s.pool.closeComplete ==> s.took != map[])
  }

  predicate SubMap<K, V(==)>(m: map<K, V>, n: map<K, V>) {
    forall k :: k in m ==> k in n && m[k] == n[k]
  }

  /** Taking futures out of the table, all of them for the thread that took them. */
  lemma TakenConserved(s: Sys, q: Pool<nat>, taken: set<nat>)
    requires Conserved(s) && SubMap(q.futures, s.pool.futures)
    requires forall f :: f in taken <==> exists t :: t in s.pool.futures && t !in q.futures && s.pool.futures[t] == f
    ensures Conserved(Hold(s, q, taken))
  {
    var s' := Hold(s, q, taken);
    forall f | f in s.pool.futures.Values ensures f in q.futures.Values || f in taken {
      var t :| t in s.pool.futures && s.pool.futures[t] == f;
      if t in q.futures { assert q.futures[t] == f; }
    }
    forall f | f in q.futures.Values ensures f in s.pool.futures.Values && f !in taken {
      var t :| t in q.futures && q.futures[t] == f;
      assert s.pool.futures[t] == f;
    }
    forall f | f in taken ensures f in s.pool.futures.Values {}
  }

  lemma ReceiveTakes(s: Sys, t: TaskId, a: Assignment)
    requires Inv(s)
    ensures Inv(Apply(s, Result(t, a)))
  {
    hide PoolInv;
    var p := s.pool;
    ReceiveKeeps(p, t, a);
    var (q, f) := Receive(p, t, a);
    var taken := if f.Some? then {f.value} else {};
    assert t in p.assignments && p.assignments[t] == a ==> t in p.futures by { InvKeys(p); }
    if f.Some? { assert t in p.futures && t !in q.futures; }
    TakenConserved(s, q, taken);
  }

  lemma InvKeys(p: Pool<nat>)
    requires PoolInv(p)
    ensures p.assignments.Keys == p.futures.Keys
  {
  }

  lemma ExitTakes(s: Sys, w: WorkerId)
    requires Inv(s)
    ensures Inv(Apply(s, Exit(w)))
  {
    hide PoolInv;
    HandleExitKeeps(s.pool, w);
    TakenConserved(s, HandleExit(s.pool, w).0, HandleExit(s.pool, w).1);
  }

  lemma UnloadTakes(s: Sys, g: GroupName)
    requires Inv(s)
    ensures Inv(Apply(s, Unload(g)))
  {
    hide PoolInv;
    UnregisterKeeps(s.pool, g);
    TakenConserved(s, Unregister(s.pool, g).0, Unregister(s.pool, g).1);
  }

  lemma FailTakes(s: Sys, c: Option<nat>)
    requires Inv(s) && s.pool.closing
    ensures Inv(Apply(s, FailPending(c)))
  {
    hide PoolInv;
    FailAllKeeps(s.pool);
    TakenConserved(s, FailAll(s.pool).0, FailAll(s.pool).1);
  }

  /** A new future goes into the table, or is done at once. */
  lemma CreatedConserved(s: Sys, q: Pool<nat>, t: TaskId)
    requires Conserved(s)
    ensures t !in s.pool.futures && q.futures == s.pool.futures[t := s.created] ==>
              Conserved(s.(pool := q, created := s.created + 1))
    ensures q.futures == s.pool.futures ==>
              Conserved(s.(pool := q, created := s.created + 1, done := s.done + {s.created}))
  {
    if t !in s.pool.futures { AddedValues(s.pool.futures, t, s.created); }
  }

  lemma AddedValues(m: map<TaskId, nat>, t: TaskId, f: nat)
    requires t !in m
    ensures m[t := f].Values == m.Values + {f}
  {
    forall g ensures g in m[t := f].Values <==> g in m.Values || g == f {
      if g in m.Values {
        var u :| u in m && m[u] == g;
        assert m[t := f][u] == g;
      }
      assert m[t := f][t] == f;
    }
  }

  lemma ExecCreates(s: Sys, t: TaskId, h: HandlerName, o: Oracle)
    requires Inv(s)
    ensures Inv(Apply(s, Exec(t, h, o)))
  {
    hide PoolInv, Conserved, Dispatch;
    ExecuteKeeps(s.pool, t, h, s.created, o);
    CreatedConserved(s, Execute(s.pool, t, h, s.created, o).0, t);
    ExecuteFlags(s.pool, t, h, s.created, o);
  }

  lemma ExecuteFlags(p: Pool<nat>, t: TaskId, h: HandlerName, f: nat, o: Oracle)
    requires PoolInv(p)
    ensures var (q, out) := Execute(p, t, h, f, o);
      q.closing == p.closing && q.closeComplete == p.closeComplete && q.accepting == p.accepting && q.groups == p.groups
      && (p.closing ==> out.Rejected?)
  {
    hide Execute;
    ExecuteShape(p, t, h, f, o);
  }

  lemma StepKeeps(s: Sys, e: Event)
    requires Inv(s) && Enabled(s, e)
    ensures Inv(Apply(s, e))
  {
    var p := s.pool;
    match e
    case Exec(t, h, o) => ExecCreates(s, t, h, o);
    case Result(t, a) => ReceiveTakes(s, t, a);
    case Resolve(f) =>
    case Exit(w) => ExitTakes(s, w);
    case Restart(w) => RelaunchKeeps(p, w);
    case Ready(w) => SetAliveKeeps(p, w, true);
    case ClearWeight(g) => SameBooks(p, ResetWeight(p, g));
    case Stopped(w) => SetAliveKeeps(p, w, false);
    case Load(g, hs, n) => if CanRegister(p, g) { AddGroupKeeps(p, g, hs, n); }
    case Unload(g) => UnloadTakes(s, g);
    case Closing => BeginCloseKeeps(p);
    case FailPending(c) => FailTakes(s, c);
    case Closed(_) => CompleteKeeps(p);
  }

  lemma CompleteKeeps(p: Pool<nat>)
    requires PoolInv(p) && p.closing
    ensures PoolInv(p.(closeComplete := true))
  {
    var q := p.(closeComplete := true);
    forall t ensures TaskBooked(q, t) { assert TaskBooked(p, t); }
    forall v ensures WorkerBooked(q, v) {
      assert WorkerBooked(p, v);
      assert AssignedTo(q, v) == AssignedTo(p, v);
    }
    SameRoutes(p, q);
  }

  /** In every reachable state the books agree and every future is in exactly one place. */
  lemma {:induction false} RunInv(states: seq<Sys>, events: seq<Event>, i: nat)
    requires Run(states, events) && i < |states|
    ensures Inv(states[i])
  {
    hide Inv, Enabled, Apply;
    if i == 0 {
      var specs :| Start(states[0], specs);
      StartInv(states[0], specs);
    } else {
      RunInv(states, events, i - 1);
      assert Enabled(states[i - 1], events[i - 1]) && states[i] == Apply(states[i - 1], events[i - 1]);
      StepKeeps(states[i - 1], events[i - 1]);
    }
  }

  lemma StartInv(s: Sys, specs: seq<GroupSpec>)
    requires Start(s, specs)
    ensures Inv(s)
  {
    ConstructedKeeps<nat>(specs);
    ConstructedOpen(specs);
    hide PoolInv;
  }

  lemma {:induction false} ConstructedOpen(specs: seq<GroupSpec>)
    ensures !Constructed<nat>(specs).closing && !Constructed<nat>(specs).closeComplete
  {
    if specs != [] { ConstructedOpen(specs[..|specs| - 1]); }
  }

  /** How often a future was resolved: by the call that created it, or by a thread that held it. */
  function Resolutions(states: seq<Sys>, events: seq<Event>, f: nat, n: nat): nat
    requires n <= |events| && |states| == |events| + 1
  {
    if n == 0 then 0
    else
      var s, e := states[n - 1], events[n - 1];
      Resolutions(states, events, f, n - 1) +
      if e == Resolve(f) then 1
      else if e.Exec? && s.created == f && Execute(s.pool, e.task, e.handler, f, e.oracle).1.Rejected? then 1
      else 0
  }

  /** Over every run a future is resolved at most once, and it has been resolved exactly when it
      is done. */
  lemma {:induction false} ResolvedOnce(states: seq<Sys>, events: seq<Event>, f: nat, n: nat)
    requires Run(states, events) && n <= |events|
    ensures Resolutions(states, events, f, n) == if f in states[n].done then 1 else 0
  {
    if n == 0 {
      assert states[0].done == {};
    } else {
      ResolvedOnce(states, events, f, n - 1);
      RunInv(states, events, n - 1);
      var s, e := states[n - 1], events[n - 1];
      assert Enabled(s, e) && states[n] == Apply(s, e);
    }
  }

  /** Once close has completed no future is pending, none ever will be, and all that were ever
      created are done as soon as no thread holds one. */
  lemma {:induction false} ClosedHoldsNothing(states: seq<Sys>, events: seq<Event>, i: nat, j: nat)
    requires Run(states, events) && i <= j < |states| && states[i].pool.closeComplete
    ensures states[j].pool.closeComplete && states[j].pool.futures == map[]
    ensures states[j].held == {} <==> forall f: nat :: f < states[j].created ==> f in states[j].done
    decreases j - i
  {
    hide Apply, PoolInv;
    RunInv(states, events, j);
    if i < j {
      ClosedHoldsNothing(states, events, i, j - 1);
      var s, e := states[j - 1], events[j - 1];
      assert Enabled(s, e) && states[j] == Apply(s, e);
      RunInv(states, events, j - 1);
      StaysClosed(s, e);
    }
  }

  lemma StaysClosed(s: Sys, e: Event)
    requires Inv(s) && s.pool.closeComplete
    ensures Apply(s, e).pool.closeComplete
  {
    hide PoolInv, Conserved;
    if e.Exec? { ExecuteFlags(s.pool, e.task, e.handler, s.created, e.oracle); }
  }

  // ---------- the smooth weights over a run ----------

  /** The smooth weights of the registered groups add up to zero, and no other group has one. */
  ghost predicate Balanced(p: Pool<nat>) {
    && Sum(p.smooth, p.groups) == 0
    && forall g :: g !in p.groups ==> At(p.smooth, g) == 0
  }

  lemma {:induction false} SumAppend(m: Weights, names: seq<GroupName>, g: GroupName)
    ensures Sum(m, names + [g]) == Sum(m, names) + At(m, g)
  {
    if names == [] {
      assert [g][1..] == [];
    } else {
      assert (names + [g])[1..] == names[1..] + [g];
      SumAppend(m, names[1..], g);
    }
  }

  /** The steps that clear or drop one smooth weight without charging the others. */
  predicate DropsWeight(e: Event) {
    e.Exit? || e.ClearWeight? || e.Unload?
  }

  lemma StepBalanced(s: Sys, e: Event)
    requires Inv(s) && Balanced(s.pool) && !DropsWeight(e)
    ensures Balanced(Apply(s, e).pool)
  {
    if e.Exec? {
      ExecuteConserves(s.pool, e.task, e.handler, s.created, e.oracle);
      ExecuteFlags(s.pool, e.task, e.handler, s.created, e.oracle);
      hide Execute, PoolInv, Conserved;
    } else {
      hide PoolInv, Conserved, Balanced;
      OthersBalanced(s, e);
    }
  }

  lemma OthersBalanced(s: Sys, e: Event)
    requires Balanced(s.pool) && !DropsWeight(e) && !e.Exec?
    ensures Balanced(Apply(s, e).pool)
  {
    if e.Load? { SumAppend(s.pool.smooth, s.pool.groups, e.group); }
    hide AddRoutes;
  }

  /** Whatever subsets of the groups serve the handlers, the smooth weights add up to zero for as
      long as no worker exits or completes a restart and no group is removed. */
  lemma {:induction false} SmoothWeightsBalance(states: seq<Sys>, events: seq<Event>, j: nat)
    requires Run(states, events) && j < |states| && forall k :: 0 <= k < j ==> !DropsWeight(events[k])
    ensures Balanced(states[j].pool)
  {
    if j == 0 {
      var specs :| Start(states[0], specs);
      ConstructedWeights(specs);
      SumZero(states[0].pool.groups);
    } else {
      SmoothWeightsBalance(states, events, j - 1);
      RunInv(states, events, j - 1);
      assert Enabled(states[j - 1], events[j - 1]);
      StepBalanced(states[j - 1], events[j - 1]);
    }
  }

  lemma {:induction false} ConstructedWeights(specs: seq<GroupSpec>)
    ensures Constructed<nat>(specs).smooth == map[]
  {
    if specs != [] { ConstructedWeights(specs[..|specs| - 1]); }
  }
}
