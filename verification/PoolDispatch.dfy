/** Which worker a request goes to, and how the load spreads. */
module PoolDispatch {
  import opened Core
  import opened SmoothRoundRobin
  import opened PoolModel
  import opened PoolInvariant

  // ---------- when a request is accepted ----------

  lemma {:induction false} CandidatesHas<F>(p: Pool<F>, names: seq<GroupName>, live: set<WorkerId>, g: GroupName)
    requires g in names && Alive(p, g, live) != []
    ensures g in Candidates(p, names, live)
  {
    if names[0] != g { CandidatesHas(p, names[1..], live, g); }
  }

  /** A worker that can take a request for the handler now. */
  ghost predicate Available<F>(p: Pool<F>, h: HandlerName, o: Oracle, w: WorkerId) {
    Deploys(p, w.group, h) && Usable(p, w, o.live) && w in o.accepts
  }

  lemma AvailableIsCandidate<F>(p: Pool<F>, h: HandlerName, o: Oracle, w: WorkerId)
    requires PoolInv(p) && Available(p, h, o, w)
    ensures w.group in Candidates(p, Routed(p, h), o.live) && w.index < Count(p, w.group)
  {
    RouteDeploys(p.groups, p.groupHandlers, h, w.group);
    assert Routed(p, h) == RoutesOf(p.groups, p.groupHandlers, h);
    assert w == WorkerId(w.group, w.index);
    assert w.index in Alive(p, w.group, o.live);
    CandidatesHas(p, Routed(p, h), o.live, w.group);
  }

  /** A request is assigned exactly when it is well formed, the pool is open, its id is not
      pending, and some usable worker that deploys the handler accepts the put. */
  lemma AssignedIff<F>(p: Pool<F>, t: TaskId, h: HandlerName, f: F, o: Oracle)
    requires PoolInv(p)
    ensures Execute(p, t, h, f, o).1.Assigned? <==>
              t.text != "" && p.accepting && t !in p.futures && exists w :: Available(p, h, o, w)
  {
    var out := Execute(p, t, h, f, o).1;
    var names := Candidates(p, Routed(p, h), o.live);
    var p1 := p.(futures := p.futures[t := f]);
    DispatchFacts(p1, t, names, o);
    if out.Assigned? {
      var w := out.worker;
      RouteDeploys(p.groups, p.groupHandlers, h, w.group);
      assert Available(p, h, o, w);
    } else if t.text != "" && p.accepting && t !in p.futures && exists w :: Available(p, h, o, w) {
      var w :| Available(p, h, o, w);
      AvailableIsCandidate(p, h, o, w);
      assert Usable(p1, w, o.live) && Count(p1, w.group) == Count(p, w.group);
      assert false;
    }
  }

  // ---------- the worker within its group ----------

  ghost predicate Sorted<F>(p: Pool<F>, g: GroupName, xs: seq<nat>) {
    forall i, j :: 0 <= i < j < |xs| ==> !Sooner(p, g, xs[j], xs[i])
  }

  lemma {:induction false} InsertSorted<F>(p: Pool<F>, g: GroupName, i: nat, xs: seq<nat>)
    requires Sorted(p, g, xs)
    ensures Sorted(p, g, InsertWorker(p, g, i, xs))
  {
    if xs != [] {
      if Sooner(p, g, i, xs[0]) {
        forall k | 0 <= k < |xs| ensures !Sooner(p, g, xs[k], i) {
          assert k > 0 ==> !Sooner(p, g, xs[k], xs[0]);
        }
      } else {
        InsertSorted(p, g, i, xs[1..]);
        forall k | 0 <= k < |InsertWorker(p, g, i, xs[1..])|
          ensures !Sooner(p, g, InsertWorker(p, g, i, xs[1..])[k], xs[0])
        {
          var x := InsertWorker(p, g, i, xs[1..])[k];
          assert x in InsertWorker(p, g, i, xs[1..]);
          assert x == i || x in xs[1..];
        }
      }
    }
  }

  lemma {:induction false} SortSorted<F>(p: Pool<F>, g: GroupName, xs: seq<nat>)
    ensures Sorted(p, g, SortWorkers(p, g, xs))
  {
    if xs != [] {
      SortSorted(p, g, xs[..|xs| - 1]);
      InsertSorted(p, g, xs[|xs| - 1], SortWorkers(p, g, xs[..|xs| - 1]));
    }
  }

  lemma {:induction false} FirstIsSoonest<F>(p: Pool<F>, g: GroupName, order: seq<nat>, accepts: set<WorkerId>, j: nat)
    requires Sorted(p, g, order) && j in order && WorkerId(g, j) in accepts
    ensures FirstAccepting(g, order, accepts).Some? && !Sooner(p, g, j, FirstAccepting(g, order, accepts).value)
  {
    if WorkerId(g, order[0]) in accepts {
      var k :| 0 <= k < |order| && order[k] == j;
    } else {
      assert Sorted(p, g, order[1..]);
      FirstIsSoonest(p, g, order[1..], accepts, j);
    }
  }

  /** The loop leaves loads and cursors alone until it assigns, so the order is that of the start. */
  lemma SoonerSame<F>(p: Pool<F>, m: Weights, g: GroupName, i: nat, j: nat)
    ensures Sooner(p.(smooth := m), g, i, j) == Sooner(p, g, i, j)
  {
  }

  /** No usable accepting worker of the chosen worker's group comes before it: none has fewer
      outstanding tasks, and none with as many is nearer to the cursor. */
  ghost predicate Soonest<F>(p: Pool<F>, o: Oracle, w: WorkerId) {
    forall j: nat
      | j < Count(p, w.group) && Usable(p, WorkerId(w.group, j), o.live) && WorkerId(w.group, j) in o.accepts
      :: !Sooner(p, w.group, j, w.index)
  }

  lemma ChosenHere<F>(p: Pool<F>, names: seq<GroupName>, o: Oracle)
    requires names != []
    ensures var (g, s) := SelectGroup(p, names, o.live);
      var first := FirstAccepting(g, Ordered(s, g, o.live), o.accepts);
      first.Some? ==> Soonest(p, o, WorkerId(g, first.value))
  {
    hide Charged, Selected, LiveWeights;
    SelectFacts(p, names, o.live);
    var (g, s) := SelectGroup(p, names, o.live);
    SortSorted(s, g, Alive(s, g, o.live));
    SmoothOnly(p, s.smooth, g, o.live, Count(p, g));
    var order := Ordered(s, g, o.live);
    var first := FirstAccepting(g, order, o.accepts);
    if first.Some? {
      forall j: nat | j < Count(p, g) && Usable(p, WorkerId(g, j), o.live) && WorkerId(g, j) in o.accepts
        ensures !Sooner(p, g, j, first.value)
      {
        assert j in order;
        FirstIsSoonest(s, g, order, o.accepts, j);
        SoonerSame(p, s.smooth, g, j, first.value);
      }
    }
  }

  lemma SoonestSame<F>(p: Pool<F>, m: Weights, o: Oracle, w: WorkerId)
    requires Soonest(p.(smooth := m), o, w)
    ensures Soonest(p, o, w)
  {
    forall j: nat |
      j < Count(p, w.group) && Usable(p, WorkerId(w.group, j), o.live) && WorkerId(w.group, j) in o.accepts
      ensures !Sooner(p, w.group, j, w.index)
    {
      SoonerSame(p, m, w.group, j, w.index);
      assert Usable(p.(smooth := m), WorkerId(w.group, j), o.live);
    }
  }

  lemma {:induction false} DispatchSoonest<F>(p: Pool<F>, t: TaskId, names: seq<GroupName>, o: Oracle)
    ensures var out := Dispatch(p, t, names, o).1; out.Assigned? ==> Soonest(p, o, out.worker)
    decreases |names|
  {
    if names != [] {
      SelectFacts(p, names, o.live);
      ChosenHere(p, names, o);
      hide SelectGroup, Ordered, FirstAccepting, Soonest, Assign;
      var (g, s) := SelectGroup(p, names, o.live);
      if FirstAccepting(g, Ordered(s, g, o.live), o.accepts).None? {
        DispatchSoonest(s, t, RemoveName(names, g), o);
        var out := Dispatch(s, t, RemoveName(names, g), o).1;
        if out.Assigned? { SoonestSame(p, s.smooth, o, out.worker); }
      }
    }
  }

  /** An assigned request goes to the soonest of the workers that could take it in that group. */
  lemma ExecuteSoonest<F>(p: Pool<F>, t: TaskId, h: HandlerName, f: F, o: Oracle)
    ensures var out := Execute(p, t, h, f, o).1; out.Assigned? ==> Soonest(p, o, out.worker)
  {
    hide Dispatch;
    var p1 := p.(futures := p.futures[t := f]);
    var names := Candidates(p, Routed(p, h), o.live);
    DispatchSoonest(p1, t, names, o);
    var out := Dispatch(p1, t, names, o).1;
    if out.Assigned? && Soonest(p1, o, out.worker) { SoonestFutures(p, p1.futures, o, out.worker); }
  }

  lemma SoonestFutures<F>(p: Pool<F>, fs: map<TaskId, F>, o: Oracle, w: WorkerId)
    requires Soonest(p.(futures := fs), o, w)
    ensures Soonest(p, o, w)
  {
    var q := p.(futures := fs);
    forall j: nat |
      j < Count(p, w.group) && Usable(p, WorkerId(w.group, j), o.live) && WorkerId(w.group, j) in o.accepts
      ensures !Sooner(p, w.group, j, w.index)
    {
      assert Usable(q, WorkerId(w.group, j), o.live);
      assert Sooner(q, w.group, j, w.index) == Sooner(p, w.group, j, w.index);
    }
  }

  // ---------- the group ----------

  /** While every usable worker accepts, the request goes to the group the weighted round-robin
      selects, and exactly that selection is charged. */
  lemma SelectedGroup<F>(p: Pool<F>, t: TaskId, names: seq<GroupName>, o: Oracle)
    requires names != [] && forall g :: g in names ==> Alive(p, g, o.live) != []
    requires forall w :: Usable(p, w, o.live) ==> w in o.accepts
    ensures var (q, out) := Dispatch(p, t, names, o);
      && out.Assigned? && out.worker.group == Selected(p.smooth, LiveWeights(p, names, o.live), p.groups, names)
      && q.smooth == Charged(p.smooth, LiveWeights(p, names, o.live), p.groups, names)
  {
    hide Charged, Selected, LiveWeights;
    SelectFacts(p, names, o.live);
    var (g, s) := SelectGroup(p, names, o.live);
    SmoothOnly(p, s.smooth, g, o.live, Count(p, g));
    var i := Alive(p, g, o.live)[0];
    assert i in Alive(p, g, o.live);
    assert i in Ordered(s, g, o.live);
    assert Usable(p, WorkerId(g, i), o.live);
  }

  /** Dispatching leaves the sum of all smooth weights alone, however many groups it tries. */
  lemma {:induction false} DispatchConserves<F>(p: Pool<F>, t: TaskId, names: seq<GroupName>, o: Oracle,
                                                all: seq<GroupName>)
    requires Distinct(names) && Distinct(all) && forall g :: g in names ==> g in all
    ensures Sum(Dispatch(p, t, names, o).0.smooth, all) == Sum(p.smooth, all)
    ensures forall g :: g !in all ==> At(Dispatch(p, t, names, o).0.smooth, g) == At(p.smooth, g)
    decreases |names|
  {
    if names != [] {
      var weights := LiveWeights(p, names, o.live);
      SelectionConserves(p.smooth, weights, p.groups, names, all);
      forall g | g !in all ensures At(Charged(p.smooth, weights, p.groups, names), g) == At(p.smooth, g) {
        BumpAt(p.smooth, weights, names, g);
      }
      SelectFacts(p, names, o.live);
      var (g, s) := SelectGroup(p, names, o.live);
      RemoveDistinct(names, g);
      DispatchConserves(s, t, RemoveName(names, g), o, all);
      hide Ordered, FirstAccepting, LiveWeights, Charged, Selected;
    }
  }

  lemma ExecuteConserves<F>(p: Pool<F>, t: TaskId, h: HandlerName, f: F, o: Oracle)
    requires PoolInv(p)
    ensures Sum(Execute(p, t, h, f, o).0.smooth, p.groups) == Sum(p.smooth, p.groups)
    ensures forall g :: g !in p.groups ==> At(Execute(p, t, h, f, o).0.smooth, g) == At(p.smooth, g)
  {
    hide Dispatch;
    var names := Candidates(p, Routed(p, h), o.live);
    RoutedDistinct(p, h);
    DispatchConserves(p.(futures := p.futures[t := f]), t, names, o, p.groups);
  }

  lemma {:induction false} RoutesDistinct(groups: seq<GroupName>, deployed: map<GroupName, seq<HandlerName>>,
                                          h: HandlerName)
    requires Distinct(groups)
    ensures Distinct(RoutesOf(groups, deployed, h))
  {
    if groups != [] {
      var init, last := groups[..|groups| - 1], groups[|groups| - 1];
      RoutesDistinct(init, deployed, h);
      RouteDeploys(init, deployed, h, last);
      assert last !in init;
    }
  }

  /** The index lists every group at most once, and only groups that deploy the handler. */
  lemma RoutedDistinct<F>(p: Pool<F>, h: HandlerName)
    requires PoolInv(p)
    ensures Distinct(Routed(p, h)) && forall g :: g in Routed(p, h) <==> Deploys(p, g, h)
    ensures forall g :: g in Routed(p, h) ==> g in p.groups
  {
    RoutesDistinct(p.groups, p.groupHandlers, h);
    assert Routed(p, h) == RoutesOf(p.groups, p.groupHandlers, h);
    forall g ensures g in Routed(p, h) <==> Deploys(p, g, h) { RouteDeploys(p.groups, p.groupHandlers, h, g); }
  }
}
