/** What every locked region of the pool keeps true. */
module PoolInvariant {
  import opened Core
  import opened SmoothRoundRobin
  import opened PoolModel

  // ---------- futures, assignments and outstanding counts ----------

  function AssignedTo<F>(p: Pool<F>, w: WorkerId): set<TaskId> {
    set t | t in p.assignments && p.assignments[t].worker == w
  }

  ghost predicate WorkerBooked<F>(p: Pool<F>, w: WorkerId) {
    w in p.workers ==> p.workers[w].outstanding == |AssignedTo(p, w)|
  }

  ghost predicate TaskBooked<F>(p: Pool<F>, t: TaskId) {
    t in p.assignments ==>
      var a := p.assignments[t];
      && a.worker in p.workers && a.generation == p.workers[a.worker].generation
      && (p.workers[a.worker].alive || p.closing)
  }

  /** Exactly the assigned tasks have a pending future; every assignment names a present worker
      at its current generation, alive unless the pool is closing; every worker's count is the
      number of its assignments. */
  ghost predicate Booked<F>(p: Pool<F>) {
    && p.assignments.Keys == p.futures.Keys
    && (forall t :: TaskBooked(p, t))
    && (forall w :: WorkerBooked(p, w))
  }

  // ---------- routing ----------

  predicate DistinctHandlers(hs: seq<HandlerName>) {
    forall i, j :: 0 <= i < j < |hs| ==> hs[i] != hs[j]
  }

  predicate Deploys<F>(p: Pool<F>, g: GroupName, h: HandlerName) {
    g in p.groupHandlers && h in p.groupHandlers[g]
  }

  /** The simple definition of the routing index: the registered groups that deploy the
      handler, in registration order. */
  function RoutesOf(groups: seq<GroupName>, deployed: map<GroupName, seq<HandlerName>>, h: HandlerName)
    : seq<GroupName>
  {
    if groups == [] then []
    else
      var rest := RoutesOf(groups[..|groups| - 1], deployed, h);
      var g := groups[|groups| - 1];
      if g in deployed && h in deployed[g] then rest + [g] else rest
  }

  /** The workers are those of the registered groups. */
  ghost predicate Staffed<F>(p: Pool<F>) {
    forall w :: w in p.workers <==> w.group in p.groups && w.index < Count(p, w.group)
  }

  ghost predicate Routing<F>(p: Pool<F>) {
    && Distinct(p.groups)
    && (forall g :: g in p.groups <==> g in p.groupHandlers)
    && (forall g :: g in p.groups <==> g in p.processCount)
    && (forall g :: g in p.groupHandlers ==> DistinctHandlers(p.groupHandlers[g]))
    && (forall h :: Routed(p, h) == RoutesOf(p.groups, p.groupHandlers, h))
    && (forall h :: h in p.handlerGroups ==> p.handlerGroups[h] != [])
    && Staffed(p)
    && (forall w :: w in p.workers ==> p.workers[w].generation >= 1)
  }

  ghost predicate PoolInv<F>(p: Pool<F>) {
    && Booked(p) && Routing(p)
    && (p.closing ==> !p.accepting)
    && (p.closeComplete ==> p.closing)
  }

  // ---------- counting assignments ----------

  lemma CountWithout(s: set<TaskId>, t: TaskId)
    ensures |s - {t}| == |s| - (if t in s then 1 else 0)
    ensures |s + {t}| == |s| + (if t in s then 0 else 1)
  {
    if t in s {
      assert s == (s - {t}) + {t};
    } else {
      assert s - {t} == s;
    }
  }

  lemma AssignCount<F>(p: Pool<F>, t: TaskId, w: WorkerId, v: WorkerId)
    requires w in p.workers && t !in p.assignments
    ensures AssignedTo(Assign(p, t, w), v) == AssignedTo(p, v) + (if v == w then {t} else {})
  {
  }

  lemma AssignBooksWorker<F>(p: Pool<F>, t: TaskId, w: WorkerId, v: WorkerId)
    requires w in p.workers && t !in p.assignments && WorkerBooked(p, v)
    ensures WorkerBooked(Assign(p, t, w), v)
  {
    AssignCount(p, t, w, v);
    CountWithout(AssignedTo(p, v), t);
    assert v != w ==> AssignedTo(p, v) + {} == AssignedTo(p, v);
    assert t !in AssignedTo(p, v);
    hide AssignedTo;
  }

  lemma AssignKeeps<F>(p: Pool<F>, t: TaskId, w: WorkerId)
    requires w in p.workers && p.workers[w].alive && t !in p.assignments
    requires p.futures.Keys == p.assignments.Keys + {t}
    requires (forall u :: TaskBooked(p, u)) && (forall v :: WorkerBooked(p, v))
    ensures Booked(Assign(p, t, w))
  {
    var q := Assign(p, t, w);
    forall v ensures WorkerBooked(q, v) { AssignBooksWorker(p, t, w, v); }
    hide WorkerBooked, AssignedTo;
    forall u ensures TaskBooked(q, u) { assert TaskBooked(p, u); }
  }

  // ---------- execute ----------

  /** A group is chosen among the names given, without touching anything but smooth weights. */
  lemma SelectFacts<F>(p: Pool<F>, names: seq<GroupName>, live: set<WorkerId>)
    requires names != []
    ensures SelectGroup(p, names, live).0 in names
    ensures SelectGroup(p, names, live).1 == p.(smooth := SelectGroup(p, names, live).1.smooth)
  {
  }

  lemma {:induction false} SmoothOnly<F>(p: Pool<F>, m: Weights, g: GroupName, live: set<WorkerId>, n: nat)
    ensures AliveBelow(p.(smooth := m), g, live, n) == AliveBelow(p, g, live, n)
    decreases n
  {
    if n > 0 { SmoothOnly(p, m, g, live, n - 1); }
  }

  /** No usable worker of the groups accepts. */
  ghost predicate NoneAccepts<F>(p: Pool<F>, names: seq<GroupName>, o: Oracle) {
    forall w: WorkerId :: w.group in names && w.index < Count(p, w.group) && Usable(p, w, o.live) ==> w !in o.accepts
  }

  /** The loop of execute either assigns the task to a usable, accepting worker of one of the
      groups and changes nothing else, or fails on every usable worker of every group and
      leaves only the smooth weights changed. */
  ghost predicate Dispatched<F>(p: Pool<F>, t: TaskId, names: seq<GroupName>, o: Oracle, q: Pool<F>, out: Outcome) {
    match out
    case Assigned(w) =>
      && w.group in names && w.index < Count(p, w.group) && Usable(p, w, o.live) && w in o.accepts
      && q == Assign(p.(smooth := q.smooth), t, w)
    case Rejected(code) =>
      && code == WorkerUnavailable && q == p.(futures := p.futures - {t}, smooth := q.smooth)
      && NoneAccepts(p, names, o)
  }

  lemma DispatchHere<F>(p: Pool<F>, t: TaskId, names: seq<GroupName>, o: Oracle)
    requires names != []
    ensures var (g, s) := SelectGroup(p, names, o.live);
      match FirstAccepting(g, Ordered(s, g, o.live), o.accepts)
      case Some(i) =>
        Dispatched(p, t, names, o, Assign(s, t, WorkerId(g, i)), Assigned(WorkerId(g, i)))
      case None => NoneAccepts(p, [g], o)
  {
    hide Charged, Selected, LiveWeights;
    SelectFacts(p, names, o.live);
    var (g, s) := SelectGroup(p, names, o.live);
    SmoothOnly(p, s.smooth, g, o.live, Count(p, g));
    assert Alive(s, g, o.live) == Alive(p, g, o.live);
  }

  lemma DispatchLater<F>(p: Pool<F>, t: TaskId, names: seq<GroupName>, g: GroupName, o: Oracle, m: Weights,
                         q: Pool<F>, out: Outcome)
    requires NoneAccepts(p, [g], o) && Dispatched(p.(smooth := m), t, RemoveName(names, g), o, q, out)
    ensures Dispatched(p, t, names, o, q, out)
  {
    var s := p.(smooth := m);
    if out.Rejected? {
      forall w: WorkerId | w.group in names && w.index < Count(p, w.group) && Usable(p, w, o.live)
        ensures w !in o.accepts
      {
        assert Usable(s, w, o.live) && Count(s, w.group) == Count(p, w.group);
        if w.group == g { assert w.group in [g]; }
      }
    }
  }

  lemma {:induction false} DispatchFacts<F>(p: Pool<F>, t: TaskId, names: seq<GroupName>, o: Oracle)
    ensures Dispatched(p, t, names, o, Dispatch(p, t, names, o).0, Dispatch(p, t, names, o).1)
    decreases |names|
  {
    if names != [] {
      SelectFacts(p, names, o.live);
      DispatchHere(p, t, names, o);
      hide SelectGroup, Ordered, FirstAccepting, Dispatched, NoneAccepts, Assign;
      var (g, s) := SelectGroup(p, names, o.live);
      if FirstAccepting(g, Ordered(s, g, o.live), o.accepts).None? {
        DispatchFacts(s, t, RemoveName(names, g), o);
        var (q, out) := Dispatch(s, t, RemoveName(names, g), o);
        DispatchLater(p, t, names, g, o, s.smooth, q, out);
      }
    }
  }

  /** A request is rejected without a trace other than smooth weights, or assigned to a usable,
      accepting worker of a routed group. */
  ghost predicate Executed<F>(p: Pool<F>, t: TaskId, h: HandlerName, f: F, o: Oracle, q: Pool<F>, out: Outcome) {
    match out
    case Rejected(_) => q == p.(smooth := q.smooth)
    case Assigned(w) =>
      && p.accepting && t !in p.futures
      && w.group in Routed(p, h) && w.index < Count(p, w.group) && Usable(p, w, o.live) && w in o.accepts
      && q == Assign(p.(futures := p.futures[t := f], smooth := q.smooth), t, w)
  }

  lemma ExecuteShape<F>(p: Pool<F>, t: TaskId, h: HandlerName, f: F, o: Oracle)
    ensures Executed(p, t, h, f, o, Execute(p, t, h, f, o).0, Execute(p, t, h, f, o).1)
  {
    hide Dispatch, NoneAccepts, Assign;
    var names := Candidates(p, Routed(p, h), o.live);
    var p1 := p.(futures := p.futures[t := f]);
    DispatchFacts(p1, t, names, o);
    assert t !in p.futures ==> p1.futures - {t} == p.futures;
    assert p == p.(smooth := p.smooth);
  }

  /** Dispatching keeps the books, whatever fails; a request that is rejected leaves everything
      but the smooth weights as it was; a request that is assigned goes to a usable worker of a
      group that deploys its handler. */
  lemma ExecuteKeeps<F>(p: Pool<F>, t: TaskId, h: HandlerName, f: F, o: Oracle)
    requires PoolInv(p)
    ensures var (q, out) := Execute(p, t, h, f, o);
      && PoolInv(q)
      && (out.Rejected? ==> q == p.(smooth := q.smooth))
      && (out.Assigned? ==> Deploys(p, out.worker.group, h) && Usable(p, out.worker, o.live)
                            && t !in p.futures && q.futures == p.futures[t := f]
                            && t in q.assignments && q.assignments[t].worker == out.worker)
  {
    hide Execute, PoolInv;
    ExecuteShape(p, t, h, f, o);
    var (q, out) := Execute(p, t, h, f, o);
    match out
    case Rejected(_) => SameBooks(p, q);
    case Assigned(w) => AssignedKeeps(p, t, h, f, w, q);
  }

  lemma AssignedKeeps<F>(p: Pool<F>, t: TaskId, h: HandlerName, f: F, w: WorkerId, q: Pool<F>)
    requires PoolInv(p) && t !in p.futures && w in p.workers && p.workers[w].alive && w.group in Routed(p, h)
    requires q == Assign(p.(futures := p.futures[t := f], smooth := q.smooth), t, w)
    ensures PoolInv(q) && Deploys(p, w.group, h)
    ensures q.futures == p.futures[t := f] && t in q.assignments && q.assignments[t].worker == w
  {
    hide RoutesOf;
    var p1 := p.(futures := p.futures[t := f], smooth := q.smooth);
    RouteDeploys(p.groups, p.groupHandlers, h, w.group);
    forall u ensures TaskBooked(p1, u) { assert TaskBooked(p, u); }
    forall v ensures WorkerBooked(p1, v) {
      assert WorkerBooked(p, v);
      assert AssignedTo(p1, v) == AssignedTo(p, v);
    }
    AssignKeeps(p1, t, w);
    SameRoutes(p, q);
  }

  lemma SameBooks<F>(p: Pool<F>, q: Pool<F>)
    requires PoolInv(p) && q == p.(smooth := q.smooth)
    ensures PoolInv(q)
  {
    hide Routing;
    forall u ensures TaskBooked(q, u) { assert TaskBooked(p, u); }
    forall v ensures WorkerBooked(q, v) {
      assert WorkerBooked(p, v);
      assert AssignedTo(q, v) == AssignedTo(p, v);
    }
    SameRoutes(p, q);
  }

  lemma SameRoutes<F>(p: Pool<F>, q: Pool<F>)
    requires Routing(p)
    requires q.groups == p.groups && q.groupHandlers == p.groupHandlers && q.processCount == p.processCount
    requires q.handlerGroups == p.handlerGroups && q.workers.Keys == p.workers.Keys
    requires forall w :: w in q.workers ==> q.workers[w].generation >= p.workers[w].generation
    ensures Routing(q)
  {
    forall h ensures Routed(q, h) == RoutesOf(q.groups, q.groupHandlers, h) { assert Routed(p, h) == Routed(q, h); }
  }

  lemma {:induction false} RouteDeploys(groups: seq<GroupName>, deployed: map<GroupName, seq<HandlerName>>,
                                        h: HandlerName, g: GroupName)
    ensures g in RoutesOf(groups, deployed, h) <==> g in groups && g in deployed && h in deployed[g]
  {
    if groups != [] {
      RouteDeploys(groups[..|groups| - 1], deployed, h, g);
      assert groups == groups[..|groups| - 1] + [groups[|groups| - 1]];
    }
  }

  // ---------- results and exits ----------

  lemma ReceiveTasks<F>(p: Pool<F>, t: TaskId, from: Assignment, u: TaskId)
    requires t in p.assignments && p.assignments[t] == from && TaskBooked(p, u)
    ensures TaskBooked(Receive(p, t, from).0, u)
  {
  }

  lemma ReceiveWorkers<F>(p: Pool<F>, t: TaskId, from: Assignment, v: WorkerId)
    requires t in p.assignments && p.assignments[t] == from && TaskBooked(p, t) && WorkerBooked(p, v)
    ensures WorkerBooked(Receive(p, t, from).0, v)
  {
    assert AssignedTo(Receive(p, t, from).0, v) == AssignedTo(p, v) - {t};
    CountWithout(AssignedTo(p, v), t);
  }

  lemma ReceiveKeeps<F>(p: Pool<F>, t: TaskId, from: Assignment)
    requires PoolInv(p)
    ensures PoolInv(Receive(p, t, from).0)
    ensures Receive(p, t, from).1.Some? <==> t in p.assignments && p.assignments[t] == from
  {
    hide Routing;
    var q := Receive(p, t, from).0;
    assert TaskBooked(p, t);
    if t in p.assignments && p.assignments[t] == from {
      forall u ensures TaskBooked(q, u) {
        assert TaskBooked(p, u);
        ReceiveTasks(p, t, from, u);
      }
      forall v ensures WorkerBooked(q, v) {
        assert WorkerBooked(p, v);
        ReceiveWorkers(p, t, from, v);
      }
      SameRoutes(p, q);
    }
    hide TaskBooked, WorkerBooked;
  }

  /** Under the invariant the tasks of a worker are those of its current generation. */
  lemma OwnedIsAssigned<F>(p: Pool<F>, w: WorkerId)
    requires Booked(p) && w in p.workers
    ensures Owned(p, Assignment(w, p.workers[w].generation)) == AssignedTo(p, w)
  {
    forall t ensures t in Owned(p, Assignment(w, p.workers[w].generation)) <==> t in AssignedTo(p, w) {
      assert TaskBooked(p, t);
    }
  }

  lemma TakeKeeps<F>(p: Pool<F>, w: WorkerId)
    requires w in p.workers && p.assignments.Keys == p.futures.Keys
    requires forall t :: TaskBooked(p, t) || (t in p.assignments && p.assignments[t].worker == w)
    requires Owned(p, Assignment(w, p.workers[w].generation)) == AssignedTo(p, w)
    requires forall v :: WorkerBooked(p, v)
    ensures Booked(Take(p, w).0)
  {
    var q := Take(p, w).0;
    forall u ensures TaskBooked(q, u) {
      assert TaskBooked(p, u) || (u in p.assignments && p.assignments[u].worker == w);
      if u in q.assignments { assert u !in AssignedTo(p, w); }
    }
    forall v ensures WorkerBooked(q, v) {
      assert WorkerBooked(p, v);
      if v == w {
        assert AssignedTo(q, v) == {};
      } else {
        assert AssignedTo(q, v) == AssignedTo(p, v);
      }
    }
  }

  lemma HandleExitKeeps<F>(p: Pool<F>, w: WorkerId)
    requires PoolInv(p)
    ensures PoolInv(HandleExit(p, w).0)
    ensures w in p.workers && p.workers[w].alive ==>
              HandleExit(p, w).1 == FuturesOf(p, AssignedTo(p, w)) && AssignedTo(HandleExit(p, w).0, w) == {}
  {
    hide Routing;
    if w in p.workers && p.workers[w].alive {
      var dead := p.(workers := p.workers[w := p.workers[w].(alive := false)], smooth := p.smooth[w.group := 0]);
      OwnedIsAssigned(p, w);
      forall u ensures TaskBooked(dead, u) || (u in dead.assignments && dead.assignments[u].worker == w) {
        assert TaskBooked(p, u);
      }
      forall v ensures WorkerBooked(dead, v) {
        assert WorkerBooked(p, v);
        assert AssignedTo(dead, v) == AssignedTo(p, v);
      }
      assert Owned(dead, Assignment(w, p.workers[w].generation)) == Owned(p, Assignment(w, p.workers[w].generation));
      TakeKeeps(dead, w);
      SameRoutes(p, HandleExit(p, w).0);
    }
  }

  // ---------- restarts ----------

  /** A worker that is not alive has no assignments before the pool is closing. */
  lemma DeadIsIdle<F>(p: Pool<F>, w: WorkerId)
    requires PoolInv(p) && w in p.workers && !p.workers[w].alive && !p.closing
    ensures AssignedTo(p, w) == {} && p.workers[w].outstanding == 0
  {
    assert WorkerBooked(p, w);
    forall t ensures t !in AssignedTo(p, w) { assert TaskBooked(p, t); }
  }

  lemma RelaunchKeeps<F>(p: Pool<F>, w: WorkerId)
    requires PoolInv(p) && (w in p.workers ==> !p.workers[w].alive)
    ensures PoolInv(Relaunch(p, w))
  {
    hide Routing;
    var q := Relaunch(p, w);
    if w in p.workers && !p.closing {
      DeadIsIdle(p, w);
      forall t ensures TaskBooked(q, t) {
        assert TaskBooked(p, t);
        assert t !in AssignedTo(p, w);
      }
      forall v ensures WorkerBooked(q, v) {
        assert WorkerBooked(p, v);
        assert AssignedTo(q, v) == AssignedTo(p, v);
      }
      SameRoutes(p, q);
    }
  }

  /** A worker is marked alive when it is ready; it is marked dead outside the lock only while
      the pool is closing. */
  lemma SetAliveKeeps<F>(p: Pool<F>, w: WorkerId, alive: bool)
    requires PoolInv(p) && (alive || p.closing)
    ensures PoolInv(SetAlive(p, w, alive))
  {
    hide Routing;
    var q := SetAlive(p, w, alive);
    forall t ensures TaskBooked(q, t) { assert TaskBooked(p, t); }
    forall v ensures WorkerBooked(q, v) {
      assert WorkerBooked(p, v);
      assert AssignedTo(q, v) == AssignedTo(p, v);
    }
    SameRoutes(p, q);
  }

  // ---------- groups ----------

  lemma {:induction false} AddRoutesAt(routes: map<HandlerName, seq<GroupName>>, hs: seq<HandlerName>, g: GroupName,
                                       h: HandlerName)
    requires DistinctHandlers(hs)
    ensures var r := AddRoutes(routes, hs, g);
      && (h in r <==> h in routes || h in hs)
      && (h in r ==> r[h] == (if h in routes then routes[h] else []) + (if h in hs then [g] else []))
    decreases hs
  {
    if hs != [] {
      var next := routes[hs[0] := (if hs[0] in routes then routes[hs[0]] else []) + [g]];
      AddRoutesAt(next, hs[1..], g, h);
      if h == hs[0] { assert h !in hs[1..]; }
    }
  }

  lemma {:induction false} RoutesSame(groups: seq<GroupName>, d1: map<GroupName, seq<HandlerName>>,
                                      d2: map<GroupName, seq<HandlerName>>, h: HandlerName)
    requires forall g :: g in groups ==> (g in d1 <==> g in d2) && (g in d1 ==> d1[g] == d2[g])
    ensures RoutesOf(groups, d1, h) == RoutesOf(groups, d2, h)
  {
    if groups != [] { RoutesSame(groups[..|groups| - 1], d1, d2, h); }
  }

  lemma AddGroupRoute<F>(p: Pool<F>, g: GroupName, hs: seq<HandlerName>, count: nat, h: HandlerName)
    requires Routing(p) && g !in p.groups && DistinctHandlers(hs)
    ensures var q := AddGroup(p, g, hs, count);
      Routed(q, h) == RoutesOf(q.groups, q.groupHandlers, h) && (h in q.handlerGroups ==> q.handlerGroups[h] != [])
  {
    var q := AddGroup(p, g, hs, count);
    AddRoutesAt(p.handlerGroups, hs, g, h);
    RoutesSame(p.groups, p.groupHandlers, q.groupHandlers, h);
    RoutesLast(p.groups, g, q.groupHandlers, h);
    assert Routed(p, h) == RoutesOf(p.groups, p.groupHandlers, h);
    hide RoutesOf, AddRoutes;
  }

  lemma AddGroupStaffed<F>(p: Pool<F>, g: GroupName, hs: seq<HandlerName>, count: nat)
    requires Staffed(p) && g !in p.groups
    ensures Staffed(AddGroup(p, g, hs, count))
  {
    hide AddRoutes;
    var q := AddGroup(p, g, hs, count);
    forall w ensures w in q.workers <==> w.group in q.groups && w.index < Count(q, w.group) {
      assert w in p.workers <==> w.group in p.groups && w.index < Count(p, w.group);
      assert w in NewWorkers(g, count) <==> w.group == g && w.index < count;
    }
  }

  lemma AddGroupRoutes<F>(p: Pool<F>, g: GroupName, hs: seq<HandlerName>, count: nat)
    requires Routing(p) && g !in p.groups && DistinctHandlers(hs)
    ensures Routing(AddGroup(p, g, hs, count))
  {
    hide RoutesOf, AddRoutes, Staffed;
    var q := AddGroup(p, g, hs, count);
    AddGroupStaffed(p, g, hs, count);
    forall h
      ensures Routed(q, h) == RoutesOf(q.groups, q.groupHandlers, h)
      ensures h in q.handlerGroups ==> q.handlerGroups[h] != []
    {
      AddGroupRoute(p, g, hs, count, h);
    }
  }

  lemma AddGroupKeeps<F>(p: Pool<F>, g: GroupName, hs: seq<HandlerName>, count: nat)
    requires PoolInv(p) && g !in p.groups && DistinctHandlers(hs)
    ensures PoolInv(AddGroup(p, g, hs, count))
  {
    var q := AddGroup(p, g, hs, count);
    forall t ensures TaskBooked(q, t) { assert TaskBooked(p, t); }
    forall v ensures WorkerBooked(q, v) {
      assert WorkerBooked(p, v);
      assert AssignedTo(q, v) == AssignedTo(p, v);
      if v !in p.workers {
        forall t ensures t !in AssignedTo(p, v) { assert TaskBooked(p, t); }
      }
    }
    AddGroupRoutes(p, g, hs, count);
  }

  predicate ValidSpecs(specs: seq<GroupSpec>) {
    && (forall i, j :: 0 <= i < j < |specs| ==> specs[i].name != specs[j].name)
    && (forall i :: 0 <= i < |specs| ==> DistinctHandlers(specs[i].handlers))
  }

  /** A group's own check makes its handlers distinct; what the constructor accepts is valid. */
  lemma StartableValid(registry: seq<HandlerName>, specs: seq<GroupSpec>, timeout: int, ready: nat)
    requires Startable(registry, specs, timeout, ready) && DistinctHandlers(registry)
    requires forall i :: 0 <= i < |specs| ==> DistinctHandlers(specs[i].handlers)
    ensures ValidSpecs(Resolved(registry, specs))
  {
    var r := Resolved(registry, specs);
    forall i | 0 <= i < |r| ensures DistinctHandlers(r[i].handlers) {
      assert DistinctHandlers(specs[i].handlers);
    }
  }

  lemma {:induction false} ConstructedKeeps<F>(specs: seq<GroupSpec>)
    requires ValidSpecs(specs)
    ensures PoolInv(Constructed<F>(specs))
    ensures forall g :: g in Constructed<F>(specs).groups ==> exists i :: 0 <= i < |specs| && specs[i].name == g
    ensures Constructed<F>(specs).futures == map[]
  {
    if specs == [] {
      var p := Constructed<F>(specs);
      forall v ensures WorkerBooked(p, v) {}
    } else {
      hide PoolInv;
      var init, last := specs[..|specs| - 1], specs[|specs| - 1];
      ConstructedKeeps<F>(init);
      AddGroupKeeps(Constructed<F>(init), last.name, last.handlers, last.count);
      forall g | g in Constructed<F>(specs).groups ensures exists i :: 0 <= i < |specs| && specs[i].name == g {
        if g in Constructed<F>(init).groups {
          var i :| 0 <= i < |init| && init[i].name == g;
          assert specs[i].name == g;
        } else {
          assert specs[|specs| - 1].name == g;
        }
      }
    }
  }

  lemma {:induction false} RemoveDistinct(names: seq<GroupName>, g: GroupName)
    requires Distinct(names)
    ensures Distinct(RemoveName(names, g)) && g !in RemoveName(names, g)
  {
    if names != [] {
      if names[0] == g {
        assert g !in names[1..];
      } else {
        RemoveDistinct(names[1..], g);
        assert names[0] !in names[1..];
      }
    }
  }

  lemma {:induction false} DropRoutesAt(routes: map<HandlerName, seq<GroupName>>, hs: seq<HandlerName>, g: GroupName,
                                        h: HandlerName)
    requires DistinctHandlers(hs)
    ensures var r := DropRoutes(routes, hs, g);
            var kept := if h !in routes then [] else if h in hs then RemoveName(routes[h], g) else routes[h];
      && (h in r ==> r[h] == kept)
      && (h in r <==> h in routes && (h in hs ==> kept != []))
    decreases hs
  {
    if hs != [] {
      DropRoutesAt(DropRoute(routes, hs[0], g), hs[1..], g, h);
      if h == hs[0] { assert h !in hs[1..]; }
    }
  }

  lemma RoutesWithoutLast(init: seq<GroupName>, last: GroupName, d: map<GroupName, seq<HandlerName>>, g: GroupName,
                          h: HandlerName)
    requires last !in init && RoutesOf(RemoveName(init, g), d - {g}, h) == RemoveName(RoutesOf(init, d, h), g)
    ensures RoutesOf(RemoveName(init + [last], g), d - {g}, h) == RemoveName(RoutesOf(init + [last], d, h), g)
  {
    RouteDeploys(init, d, h, g);
    RoutesLast(init, last, d, h);
    RemoveAppend(init, last, g);
    RemoveAppend(RoutesOf(init, d, h), last, g);
    RoutesLast(RemoveName(init, g), last, d - {g}, h);
    hide RoutesOf, RemoveName;
    assert forall names: seq<GroupName> :: names + [] == names;
    if last == g {
    } else if last in d && h in d[last] {
    } else {
    }
  }

  /** Removing a group from the definition of the index removes it from the list. */
  lemma {:induction false} RoutesWithout(groups: seq<GroupName>, d: map<GroupName, seq<HandlerName>>, g: GroupName,
                                         h: HandlerName)
    requires Distinct(groups)
    ensures RoutesOf(RemoveName(groups, g), d - {g}, h) == RemoveName(RoutesOf(groups, d, h), g)
  {
    if groups != [] {
      hide RoutesOf, RemoveName;
      var init, last := groups[..|groups| - 1], groups[|groups| - 1];
      assert groups == init + [last] && last !in init;
      RoutesWithout(init, d, g, h);
      RoutesWithoutLast(init, last, d, g, h);
    }
  }

  lemma RoutesLast(init: seq<GroupName>, last: GroupName, d: map<GroupName, seq<HandlerName>>, h: HandlerName)
    ensures RoutesOf(init + [last], d, h) ==
            RoutesOf(init, d, h) + (if last in d && h in d[last] then [last] else [])
  {
    assert (init + [last])[..|init|] == init;
  }

  lemma {:induction false} RemoveAppend(names: seq<GroupName>, last: GroupName, g: GroupName)
    ensures RemoveName(names + [last], g) ==
            if g in names then RemoveName(names, g) + [last]
            else if last == g then names else names + [last]
  {
    if names == [] {
      assert [last][1..] == [];
    } else {
      assert (names + [last])[1..] == names[1..] + [last];
      if names[0] != g {
        RemoveAppend(names[1..], last, g);
        assert g in names <==> g in names[1..];
      }
    }
  }

  lemma UnregisterRoute<F>(p: Pool<F>, g: GroupName, h: HandlerName)
    requires Routing(p) && g in p.groups && !p.closing && !p.closeComplete
    ensures var q := Unregister(p, g).0;
      Routed(q, h) == RoutesOf(q.groups, q.groupHandlers, h) && (h in q.handlerGroups ==> q.handlerGroups[h] != [])
  {
    DropRoutesAt(p.handlerGroups, p.groupHandlers[g], g, h);
    RoutesWithout(p.groups, p.groupHandlers, g, h);
    RouteDeploys(p.groups, p.groupHandlers, h, g);
    assert Routed(p, h) == RoutesOf(p.groups, p.groupHandlers, h);
    hide RoutesOf, DropRoutes, RemoveName;
  }

  lemma UnregisterStaffed<F>(p: Pool<F>, g: GroupName)
    requires Routing(p) && g in p.groups && !p.closing && !p.closeComplete
    ensures Staffed(Unregister(p, g).0)
  {
    hide RoutesOf, DropRoutes, GroupTasks, FuturesOf;
    RemoveDistinct(p.groups, g);
    var q := Unregister(p, g).0;
    forall w ensures w in q.workers <==> w.group in q.groups && w.index < Count(q, w.group) {
      assert w in p.workers <==> w.group in p.groups && w.index < Count(p, w.group);
    }
  }

  lemma UnregisterRoutes<F>(p: Pool<F>, g: GroupName)
    requires Routing(p) && g in p.groups && !p.closing && !p.closeComplete
    ensures Routing(Unregister(p, g).0)
  {
    UnregisterStaffed(p, g);
    hide RoutesOf, DropRoutes, Staffed;
    var q := Unregister(p, g).0;
    RemoveDistinct(p.groups, g);
    forall h
      ensures Routed(q, h) == RoutesOf(q.groups, q.groupHandlers, h)
      ensures h in q.handlerGroups ==> q.handlerGroups[h] != []
    {
      UnregisterRoute(p, g, h);
    }
  }

  lemma GroupTasksAll<F>(p: Pool<F>, g: GroupName)
    requires Booked(p)
    ensures GroupTasks(p, g) == set t | t in p.assignments && p.assignments[t].worker.group == g
  {
    forall t ensures t in GroupTasks(p, g) <==> t in p.assignments && p.assignments[t].worker.group == g {
      assert TaskBooked(p, t);
    }
  }

  /** Unloading a group removes its workers, its routes and every assignment to it. */
  lemma UnregisterKeeps<F>(p: Pool<F>, g: GroupName)
    requires PoolInv(p)
    ensures PoolInv(Unregister(p, g).0)
  {
    var q := Unregister(p, g).0;
    if g in p.groups && !p.closing && !p.closeComplete {
      GroupTasksAll(p, g);
      UnregisterRoutes(p, g);
      forall t ensures TaskBooked(q, t) { assert TaskBooked(p, t); }
      forall v ensures WorkerBooked(q, v) {
        assert WorkerBooked(p, v);
        if v.group != g { assert AssignedTo(q, v) == AssignedTo(p, v); }
      }
    }
  }

  // ---------- closing ----------

  lemma BeginCloseKeeps<F>(p: Pool<F>)
    requires PoolInv(p)
    ensures PoolInv(BeginClose(p))
  {
    hide Routing;
    var q := BeginClose(p);
    forall t ensures TaskBooked(q, t) { assert TaskBooked(p, t); }
    forall v ensures WorkerBooked(q, v) {
      assert WorkerBooked(p, v);
      assert AssignedTo(q, v) == AssignedTo(p, v);
    }
    SameRoutes(p, q);
  }

  lemma FailAllKeeps<F>(p: Pool<F>)
    requires PoolInv(p)
    ensures PoolInv(FailAll(p).0) && FailAll(p).0.futures == map[]
  {
    hide Routing;
    var q := FailAll(p).0;
    forall v ensures WorkerBooked(q, v) { assert AssignedTo(q, v) == {}; }
    SameRoutes(p, q);
  }
}
