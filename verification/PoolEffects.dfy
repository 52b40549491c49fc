/** What loading and unloading groups, results and the constructor leave, entry by entry. */
module PoolEffects {
  import opened Core
  import opened SmoothRoundRobin
  import opened PoolModel
  import opened PoolInvariant
  import opened PoolDispatch

  /** The rest of the pool is as it was for the other groups: their workers, the handlers they deploy,
      and the order they are registered in. */
  ghost predicate OthersSame<F>(p: Pool<F>, q: Pool<F>, g: GroupName) {
    && q.accepting == p.accepting && q.closing == p.closing && q.closeComplete == p.closeComplete
    && (forall w: WorkerId :: w.group != g ==>
          (w in q.workers <==> w in p.workers) && (w in p.workers ==> q.workers[w] == p.workers[w]))
    && (forall c, h :: c != g ==> (Deploys(q, c, h) <==> Deploys(p, c, h)))
    && (forall c :: c != g ==> At(q.smooth, c) == At(p.smooth, c) && Cursor(q, c) == Cursor(p, c))
  }

  /** Publishing a group adds its workers, ready in their first incarnation, and routes the handlers it
      deploys to it, last; nothing else changes. */
  lemma RegisterLeaves<F>(p: Pool<F>, g: GroupName, hs: seq<HandlerName>, n: nat)
    requires PoolInv(p)
    ensures var q := Register(p, g, hs, n);
      if p.closing || p.closeComplete || !p.accepting || g in p.groups then q == p
      else
        && q.groups == p.groups + [g] && OthersSame(p, q, g)
        && (forall w: WorkerId :: w.group == g ==> (w in q.workers <==> w.index < n))
        && (forall w :: w in q.workers && w.group == g ==> q.workers[w] == Worker(1, true, 0))
        && (forall h :: Deploys(q, g, h) <==> h in hs)
        && q.assignments == p.assignments && q.futures == p.futures
  {
    var q := Register(p, g, hs, n);
    if CanRegister(p, g) {
      AddedWorkers(p, g, hs, n);
      Ungrouped(p, g);
    }
    hide PoolInv, AddRoutes, NewWorkers;
  }

  lemma Ungrouped<F>(p: Pool<F>, g: GroupName)
    requires PoolInv(p) && g !in p.groups
    ensures forall w :: w in p.workers ==> w.group != g
  {
  }

  lemma AddedWorkers<F>(p: Pool<F>, g: GroupName, hs: seq<HandlerName>, n: nat)
    requires forall w :: w in p.workers ==> w.group != g
    ensures var q := AddGroup(p, g, hs, n);
      && (forall w: WorkerId :: w.group != g ==>
          (w in q.workers <==> w in p.workers) && (w in p.workers ==> q.workers[w] == p.workers[w]))
      && (forall w: WorkerId :: w.group == g ==> (w in q.workers <==> w.index < n))
      && (forall w :: w in q.workers && w.group == g ==> q.workers[w] == Worker(1, true, 0))
  {
    hide AddRoutes;
    forall w: WorkerId | w.group == g ensures w in NewWorkers(g, n) <==> w.index < n {
      assert w == WorkerId(g, w.index);
    }
  }

  /** Unloading a group takes its workers, its routes and the tasks assigned to it; everything else
      stays as it was. */
  lemma UnloadLeaves<F>(p: Pool<F>, g: GroupName)
    requires PoolInv(p)
    ensures var (q, failed) := Unregister(p, g);
      if p.closing || g !in p.groups then q == p && failed == {}
      else
        && OthersSame(p, q, g) && g !in q.groups && (forall h :: !Deploys(q, g, h))
        && (forall w :: w in q.workers ==> w.group != g)
        && (forall c :: c in q.groups <==> c in p.groups && c != g)
        && (forall c, d :: c in q.groups && d in q.groups ==>
              (IndexOf(q.groups, c) < IndexOf(q.groups, d) <==> IndexOf(p.groups, c) < IndexOf(p.groups, d)))
        && q.assignments == (map t | t in p.assignments && p.assignments[t].worker.group != g :: p.assignments[t])
        && q.futures == (map t | t in p.futures && t in q.assignments :: p.futures[t])
        && failed == (set t | t in p.assignments && p.assignments[t].worker.group == g :: p.futures[t])
        && At(q.smooth, g) == 0 && Cursor(q, g) == 0
  {
    hide PoolInv, DropRoutes, RemoveName, GroupTasks, IndexOf;
    if !p.closing && g in p.groups {
      UnloadedTasks(p, g);
      OpenHasHandlers(p, g);
      RemovedOrder(p.groups, g);
      UnloadedRest(p, g);
    }
  }

  lemma OpenHasHandlers<F>(p: Pool<F>, g: GroupName)
    requires PoolInv(p) && g in p.groups && !p.closing
    ensures g in p.groupHandlers && !p.closeComplete && Distinct(p.groups)
  {
  }

  lemma UnloadedTasks<F>(p: Pool<F>, g: GroupName)
    requires PoolInv(p)
    ensures GroupTasks(p, g) == set t | t in p.assignments && p.assignments[t].worker.group == g
    ensures p.assignments.Keys == p.futures.Keys
  {
    forall t | t in p.assignments && p.assignments[t].worker.group == g ensures t in GroupTasks(p, g) {
      assert TaskBooked(p, t);
    }
  }

  lemma UnloadedRest<F>(p: Pool<F>, g: GroupName)
    requires g in p.groups && g in p.groupHandlers && !p.closing && !p.closeComplete && Distinct(p.groups)
    ensures var q := Unregister(p, g).0;
      && OthersSame(p, q, g) && (forall h :: !Deploys(q, g, h)) && (forall w :: w in q.workers ==> w.group != g)
      && At(q.smooth, g) == 0 && Cursor(q, g) == 0
  {
    hide DropRoutes, GroupTasks, FuturesOf, RemoveName;
  }

  /** Removing a name keeps the others in their order. */
  lemma {:induction false} RemovedOrder(names: seq<GroupName>, g: GroupName)
    requires Distinct(names)
    ensures forall c :: c in RemoveName(names, g) <==> c in names && c != g
    ensures forall c, d :: c in RemoveName(names, g) && d in RemoveName(names, g) ==>
              (IndexOf(RemoveName(names, g), c) < IndexOf(RemoveName(names, g), d) <==>
                IndexOf(names, c) < IndexOf(names, d))
  {
    if names != [] {
      RemovedOrder(names[1..], g);
      assert names == [names[0]] + names[1..];
      assert names[0] !in names[1..];
    }
  }

  /** A message that names the task's present assignment takes its future and one from the worker's
      load; any other changes nothing. */
  lemma ReceiveLeaves<F>(p: Pool<F>, t: TaskId, a: Assignment)
    requires PoolInv(p)
    ensures var (q, f) := Receive(p, t, a);
      if t in p.assignments && p.assignments[t] == a then
        && a.worker in p.workers && p.workers[a.worker].outstanding > 0
        && t in p.futures && f == Some(p.futures[t])
        && q == p.(assignments := p.assignments - {t}, futures := p.futures - {t},
                   workers := p.workers[a.worker :=
                      p.workers[a.worker].(outstanding := p.workers[a.worker].outstanding - 1)])
      else q == p && f == None
  {
    if t in p.assignments && p.assignments[t] == a {
      assert TaskBooked(p, t) && WorkerBooked(p, a.worker);
      assert t in AssignedTo(p, a.worker);
    }
  }

  // ---------- the constructor ----------

  /** The pool the constructor returns has the groups it was given, in their order, each with as many
      ready workers as asked for, deploying what it names, or all of the registry when it names
      nothing. */
  lemma ConstructedAs<F>(registry: seq<HandlerName>, specs: seq<GroupSpec>, i: nat)
    requires forall j, k :: 0 <= j < k < |specs| ==> specs[j].name != specs[k].name
    requires i < |specs|
    ensures var p := Constructed<F>(Resolved(registry, specs));
      && |p.groups| == |specs| && p.groups[i] == specs[i].name
      && (forall h :: Deploys(p, specs[i].name, h) <==>
            if specs[i].handlers == [] then h in registry else h in specs[i].handlers)
      && (forall w: WorkerId :: w.group == specs[i].name ==> (w in p.workers <==> w.index < specs[i].count))
      && (forall w :: w in p.workers ==> p.workers[w] == Worker(1, true, 0))
      && p.accepting && !p.closing && p.smooth == map[] && p.cursors == map[] && p.futures == map[]
  {
    var resolved := Resolved(registry, specs);
    ConstructedHas<F>(resolved, i);
    ConstructedOnly<F>(resolved);
    hide Constructed;
  }

  lemma {:induction false} ConstructedHas<F>(specs: seq<GroupSpec>, i: nat)
    requires (forall j, k :: 0 <= j < k < |specs| ==> specs[j].name != specs[k].name) && i < |specs|
    ensures var p := Constructed<F>(specs);
      && (forall h :: Deploys(p, specs[i].name, h) <==> h in specs[i].handlers)
      && forall w: WorkerId :: w.group == specs[i].name ==> (w in p.workers <==> w.index < specs[i].count)
  {
    hide AddRoutes, NewWorkers;
    var n := |specs| - 1;
    var before, last := Constructed<F>(specs[..n]), specs[n];
    if i < n { ConstructedHas<F>(specs[..n], i); }
    ConstructedOnly<F>(specs[..n]);
    assert Constructed<F>(specs) == AddGroup(before, last.name, last.handlers, last.count);
    hide Constructed;
    AddedWorkers(before, last.name, last.handlers, last.count);
  }

  lemma ConstructedOnly<F>(specs: seq<GroupSpec>)
    ensures var p := Constructed<F>(specs);
      && |p.groups| == |specs| && (forall i :: 0 <= i < |specs| ==> p.groups[i] == specs[i].name)
      && (forall w :: w in p.workers ==> exists i :: 0 <= i < |specs| && specs[i].name == w.group)
      && (forall w :: w in p.workers ==> p.workers[w] == Worker(1, true, 0))
      && p.accepting && !p.closing && p.smooth == map[] && p.cursors == map[] && p.futures == map[]
  {
    hide Constructed;
    ConstructedGroups<F>(specs);
    forall w | w in Constructed<F>(specs).workers
      ensures Constructed<F>(specs).workers[w] == Worker(1, true, 0)
      ensures exists i :: 0 <= i < |specs| && specs[i].name == w.group
    {
      ConstructedWorker<F>(specs, w);
    }
  }

  lemma {:induction false} ConstructedGroups<F>(specs: seq<GroupSpec>)
    ensures var p := Constructed<F>(specs);
      && |p.groups| == |specs| && (forall i :: 0 <= i < |specs| ==> p.groups[i] == specs[i].name)
      && p.accepting && !p.closing && p.smooth == map[] && p.cursors == map[] && p.futures == map[]
  {
    hide AddRoutes, NewWorkers;
    if specs != [] { ConstructedGroups<F>(specs[..|specs| - 1]); }
  }

  lemma {:induction false} ConstructedWorker<F>(specs: seq<GroupSpec>, w: WorkerId)
    requires w in Constructed<F>(specs).workers
    ensures Constructed<F>(specs).workers[w] == Worker(1, true, 0)
    ensures exists i :: 0 <= i < |specs| && specs[i].name == w.group
  {
    if specs != [] {
      var n := |specs| - 1;
      LastGroup<F>(specs);
      hide Constructed;
      if w in Constructed<F>(specs[..n]).workers {
        ConstructedWorker<F>(specs[..n], w);
        var i :| 0 <= i < n && specs[..n][i].name == w.group;
        assert specs[i].name == w.group;
      }
    }
  }

  lemma LastGroup<F>(specs: seq<GroupSpec>)
    requires specs != []
    ensures var n := |specs| - 1;
            var p, q := Constructed<F>(specs[..n]), Constructed<F>(specs);
      && q == p.(groups := p.groups + [specs[n].name], groupHandlers := q.groupHandlers,
                 processCount := q.processCount, handlerGroups := q.handlerGroups, workers := q.workers)
      && forall w :: w in q.workers ==>
           || (w in p.workers && q.workers[w] == p.workers[w])
           || (w.group == specs[n].name && q.workers[w] == Worker(1, true, 0))
  {
    hide AddRoutes;
  }
}
