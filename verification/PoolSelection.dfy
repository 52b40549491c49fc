/** Which group a request goes to, in terms of the workers and of the order of registration. */
module PoolSelection {
  import opened Core
  import opened SmoothRoundRobin
  import opened PoolModel
  import opened PoolInvariant
  import opened PoolDispatch
  import opened PoolFairness

  /** The workers of a group that can take requests now. */
  function UsableIn<F>(p: Pool<F>, g: GroupName, live: set<WorkerId>): set<WorkerId> {
    set w | w in p.workers && w.group == g && p.workers[w].alive && w in live
  }

  // ---------- the largest smooth weight, the first among equals ----------

  lemma {:induction false} IndexAt(order: seq<GroupName>, g: GroupName)
    requires g in order
    ensures IndexOf(order, g) < |order| && order[IndexOf(order, g)] == g
  {
    if order[0] != g { IndexAt(order[1..], g); }
  }

  ghost predicate EarlierIn(order: seq<GroupName>, a: GroupName, b: GroupName) {
    forall i, j :: 0 <= i < |order| && 0 <= j < |order| && order[i] == a && order[j] == b ==> i < j
  }

  /** Ahead of another group by its weight, or registered before it with the same weight. */
  ghost predicate Ahead(m: Weights, order: seq<GroupName>, a: GroupName, b: GroupName) {
    || At(m, a) > At(m, b)
    || (At(m, a) == At(m, b) && EarlierIn(order, a, b))
  }

  lemma BetterAhead(m: Weights, order: seq<GroupName>, a: GroupName, b: GroupName)
    requires Distinct(order) && a in order && b in order && a != b
    ensures Better(m, order, a, b) <==> Ahead(m, order, a, b)
    ensures Better(m, order, a, b) || Better(m, order, b, a)
  {
    IndexAt(order, a);
    IndexAt(order, b);
  }

  lemma {:induction false} LargestBetter(m: Weights, order: seq<GroupName>, names: seq<GroupName>, h: GroupName)
    requires Distinct(order) && (forall g :: g in names ==> g in order) && h in names && h != Largest(m, order, names)
    ensures Better(m, order, Largest(m, order, names), h)
  {
    if |names| > 1 {
      var init, last := names[..|names| - 1], names[|names| - 1];
      assert names == init + [last];
      var g := Largest(m, order, init);
      if h != last && h != g { LargestBetter(m, order, init, h); }
      if g != last { BetterAhead(m, order, g, last); }
    }
  }

  lemma LargestAhead(m: Weights, order: seq<GroupName>, names: seq<GroupName>, h: GroupName)
    requires Distinct(order) && (forall g :: g in names ==> g in order) && h in names && h != Largest(m, order, names)
    ensures Ahead(m, order, Largest(m, order, names), h)
  {
    LargestBetter(m, order, names, h);
    BetterAhead(m, order, Largest(m, order, names), h);
  }

  // ---------- the weights are the numbers of usable workers ----------

  function UsableBelow<F>(p: Pool<F>, g: GroupName, live: set<WorkerId>, n: nat): set<WorkerId> {
    set w | w in UsableIn(p, g, live) && w.index < n
  }

  lemma UsableNext<F>(p: Pool<F>, g: GroupName, live: set<WorkerId>, n: nat)
    ensures UsableBelow(p, g, live, 0) == {} && WorkerId(g, n) !in UsableBelow(p, g, live, n)
    ensures UsableBelow(p, g, live, n + 1) ==
              UsableBelow(p, g, live, n) + if Usable(p, WorkerId(g, n), live) then {WorkerId(g, n)} else {}
  {
  }

  lemma {:induction false} AliveCount<F>(p: Pool<F>, g: GroupName, live: set<WorkerId>, n: nat)
    ensures |AliveBelow(p, g, live, n)| == |UsableBelow(p, g, live, n)|
  {
    hide UsableBelow, Usable;
    if n == 0 {
      UsableNext(p, g, live, 0);
    } else {
      AliveCount(p, g, live, n - 1);
      UsableNext(p, g, live, n - 1);
    }
  }

  lemma AliveIsUsable<F>(p: Pool<F>, g: GroupName, live: set<WorkerId>)
    requires PoolInv(p)
    ensures |Alive(p, g, live)| == |UsableIn(p, g, live)|
  {
    AliveCount(p, g, live, Count(p, g));
    hide AliveBelow;
    assert UsableBelow(p, g, live, Count(p, g)) == UsableIn(p, g, live);
  }

  // ---------- the group that is served ----------

  /** The group deploys the handler and has a worker that can take requests. */
  predicate CanServe<F>(p: Pool<F>, g: GroupName, h: HandlerName, live: set<WorkerId>) {
    g in p.groupHandlers && h in p.groupHandlers[g] && UsableIn(p, g, live) != {}
  }

  lemma CandidatesServe<F>(p: Pool<F>, h: HandlerName, live: set<WorkerId>, g: GroupName)
    requires PoolInv(p)
    ensures g in Candidates(p, Routed(p, h), live) <==> CanServe(p, g, h, live)
  {
    RoutedDistinct(p, h);
    AliveIsUsable(p, g, live);
    hide PoolInv, AliveBelow, UsableIn;
    if g in Routed(p, h) && Alive(p, g, live) != [] { CandidatesHas(p, Routed(p, h), live, g); }
    assert Alive(p, g, live) == [] <==> UsableIn(p, g, live) == {};
  }

  lemma BumpedBy<F>(p: Pool<F>, h: HandlerName, live: set<WorkerId>, g: GroupName)
    requires PoolInv(p) && CanServe(p, g, h, live)
    ensures var names := Candidates(p, Routed(p, h), live);
      At(Bump(p.smooth, LiveWeights(p, names, live), names), g) == At(p.smooth, g) + |UsableIn(p, g, live)|
  {
    RoutedDistinct(p, h);
    CandidatesServe(p, h, live, g);
    AliveIsUsable(p, g, live);
    hide PoolInv, Alive, UsableIn, Routed;
    var names := Candidates(p, Routed(p, h), live);
    BumpAt(p.smooth, LiveWeights(p, names, live), names, g);
  }

  /** While every usable worker accepts, a request goes to the group whose smooth weight and number
      of usable workers add up to most among all groups that can serve it, and of several such groups
      to the one registered first. */
  lemma ServedGroup<F>(p: Pool<F>, t: TaskId, h: HandlerName, f: F, o: Oracle)
    requires PoolInv(p) && p.accepting && t.text != "" && t !in p.futures
    requires forall w :: w in p.workers && p.workers[w].alive && w in o.live ==> w in o.accepts
    requires exists g :: CanServe(p, g, h, o.live)
    ensures Execute(p, t, h, f, o).1.Assigned?
    ensures var g := Execute(p, t, h, f, o).1.worker.group;
      && CanServe(p, g, h, o.live)
      && forall c :: CanServe(p, c, h, o.live) && c != g ==>
           var mine, other := At(p.smooth, g) + |UsableIn(p, g, o.live)|, At(p.smooth, c) + |UsableIn(p, c, o.live)|;
           && other <= mine
           && (other == mine ==>
                 forall i, j :: 0 <= i < |p.groups| && 0 <= j < |p.groups| && p.groups[i] == g && p.groups[j] == c ==>
                   i < j)
  {
    var names := Candidates(p, Routed(p, h), o.live);
    var some :| CanServe(p, some, h, o.live);
    CandidatesServe(p, h, o.live, some);
    RequestGroup(p, t, h, f, o);
    var g := Execute(p, t, h, f, o).1.worker.group;
    SelectedServes(p, h, o.live);
    forall c | CanServe(p, c, h, o.live) && c != g
      ensures Ahead(Bump(p.smooth, LiveWeights(p, names, o.live), names), p.groups, g, c)
    {
      AheadOf(p, h, o.live, c);
    }
    forall c | CanServe(p, c, h, o.live)
      ensures At(Bump(p.smooth, LiveWeights(p, names, o.live), names), c) == At(p.smooth, c) + |UsableIn(p, c, o.live)|
    {
      BumpedBy(p, h, o.live, c);
    }
    hide PoolInv, Candidates, Routed, LiveWeights, Bump, Execute, CanServe, UsableIn, Selected, Charged;
  }

  lemma SelectedServes<F>(p: Pool<F>, h: HandlerName, live: set<WorkerId>)
    requires PoolInv(p) && Candidates(p, Routed(p, h), live) != []
    ensures var names := Candidates(p, Routed(p, h), live);
      CanServe(p, Selected(p.smooth, LiveWeights(p, names, live), p.groups, names), h, live)
  {
    hide PoolInv, CanServe, LiveWeights, Candidates, Routed, Bump;
    var names := Candidates(p, Routed(p, h), live);
    CandidatesServe(p, h, live, Selected(p.smooth, LiveWeights(p, names, live), p.groups, names));
  }

  lemma AheadOf<F>(p: Pool<F>, h: HandlerName, live: set<WorkerId>, c: GroupName)
    requires PoolInv(p) && Candidates(p, Routed(p, h), live) != [] && CanServe(p, c, h, live)
    requires var names := Candidates(p, Routed(p, h), live);
      c != Selected(p.smooth, LiveWeights(p, names, live), p.groups, names)
    ensures var names := Candidates(p, Routed(p, h), live);
            var weights := LiveWeights(p, names, live);
      Ahead(Bump(p.smooth, weights, names), p.groups, Selected(p.smooth, weights, p.groups, names), c)
  {
    RoutedDistinct(p, h);
    CandidatesServe(p, h, live, c);
    assert Distinct(p.groups);
    var names := Candidates(p, Routed(p, h), live);
    assert forall g :: g in names ==> g in p.groups;
    hide PoolInv, CanServe, LiveWeights, Candidates, Routed, Bump, Ahead;
    LargestAhead(Bump(p.smooth, LiveWeights(p, names, live), names), p.groups, names, c);
  }

  // ---------- what serving a request changes ----------

  /** The usable workers of all groups that deploy the handler. */
  function UsableFor<F>(p: Pool<F>, h: HandlerName, live: set<WorkerId>): set<WorkerId> {
    set w | w in p.workers && p.workers[w].alive && w in live && w.group in p.groupHandlers
            && h in p.groupHandlers[w.group]
  }

  function UsableAmong<F>(p: Pool<F>, names: seq<GroupName>, live: set<WorkerId>): set<WorkerId> {
    set w | w in p.workers && p.workers[w].alive && w in live && w.group in names
  }

  lemma {:induction false} SumOfUsable<F>(p: Pool<F>, all: seq<GroupName>, names: seq<GroupName>, live: set<WorkerId>)
    requires PoolInv(p) && Distinct(names) && forall g :: g in names ==> g in all
    ensures Sum(LiveWeights(p, all, live), names) == |UsableAmong(p, names, live)|
  {
    if names == [] {
      assert UsableAmong(p, names, live) == {};
    } else {
      SumOfUsable(p, all, names[1..], live);
      AliveIsUsable(p, names[0], live);
      UsableSplits(p, names, live);
      hide PoolInv, Alive, UsableIn, UsableAmong;
    }
  }

  lemma UsableSplits<F>(p: Pool<F>, names: seq<GroupName>, live: set<WorkerId>)
    requires names != [] && Distinct(names)
    ensures |UsableAmong(p, names, live)| == |UsableIn(p, names[0], live)| + |UsableAmong(p, names[1..], live)|
  {
    assert names == [names[0]] + names[1..] && names[0] !in names[1..];
    assert UsableAmong(p, names, live) == UsableIn(p, names[0], live) + UsableAmong(p, names[1..], live);
  }

  lemma TotalIsUsable<F>(p: Pool<F>, h: HandlerName, live: set<WorkerId>)
    requires PoolInv(p)
    ensures var names := Candidates(p, Routed(p, h), live);
      Sum(LiveWeights(p, names, live), names) == |UsableFor(p, h, live)|
  {
    var names := Candidates(p, Routed(p, h), live);
    RoutedDistinct(p, h);
    SumOfUsable(p, names, names, live);
    forall g ensures g in names <==> CanServe(p, g, h, live) { CandidatesServe(p, h, live, g); }
    hide PoolInv, Candidates, Routed;
    forall w ensures w in UsableAmong(p, names, live) <==> w in UsableFor(p, h, live) {
      assert w in p.workers && p.workers[w].alive && w in live ==> w in UsableIn(p, w.group, live);
    }
    assert UsableAmong(p, names, live) == UsableFor(p, h, live);
  }

  /** Then every group that can serve the handler gains the number of its usable workers, and the one
      that is served pays the number of all of them. */
  lemma ServedCharge<F>(p: Pool<F>, t: TaskId, h: HandlerName, f: F, o: Oracle, c: GroupName)
    requires PoolInv(p) && p.accepting && t.text != "" && t !in p.futures
    requires forall w :: w in p.workers && p.workers[w].alive && w in o.live ==> w in o.accepts
    requires exists g :: CanServe(p, g, h, o.live)
    ensures var (q, out) := Execute(p, t, h, f, o);
      && out.Assigned?
      && At(q.smooth, c) == At(p.smooth, c)
                            + (if CanServe(p, c, h, o.live) then |UsableIn(p, c, o.live)| else 0)
                            - (if c == out.worker.group then |UsableFor(p, h, o.live)| else 0)
  {
    hide PoolInv, Candidates, Routed, LiveWeights, Execute, CanServe, UsableIn, UsableFor, Sum, Bump, Charged, Selected;
    var names := Candidates(p, Routed(p, h), o.live);
    var some :| CanServe(p, some, h, o.live);
    CandidatesServe(p, h, o.live, some);
    CandidatesServe(p, h, o.live, c);
    RequestGroup(p, t, h, f, o);
    TotalIsUsable(p, h, o.live);
    if c in names { WeightIsUsable(p, h, o.live, c); }
    RoutedDistinct(p, h);
    ChargedAt(p.smooth, LiveWeights(p, names, o.live), p.groups, names, c);
  }

  lemma WeightIsUsable<F>(p: Pool<F>, h: HandlerName, live: set<WorkerId>, c: GroupName)
    requires PoolInv(p) && c in Candidates(p, Routed(p, h), live)
    ensures At(LiveWeights(p, Candidates(p, Routed(p, h), live), live), c) == |UsableIn(p, c, live)|
  {
    AliveIsUsable(p, c, live);
    hide PoolInv, Alive, UsableIn, Routed;
  }

  /** The weights after a selection, one by one. */
  lemma ChargedAt(smooth: Weights, weights: Weights, order: seq<GroupName>, names: seq<GroupName>, c: GroupName)
    requires names != [] && Distinct(names)
    ensures At(Charged(smooth, weights, order, names), c) ==
              At(smooth, c) + (if c in names then At(weights, c) else 0)
              - (if c == Selected(smooth, weights, order, names) then Sum(weights, names) else 0)
  {
    hide Bump, Sum;
    BumpAt(smooth, weights, names, c);
  }

  /** Assigned or not, and with which error: by the id, the pool, the pending ids and the workers. */
  lemma ExecuteOutcome<F>(p: Pool<F>, t: TaskId, h: HandlerName, f: F, o: Oracle)
    requires PoolInv(p)
    ensures var (q, out) := Execute(p, t, h, f, o);
      && (if t.text == "" then out == Rejected(InvalidRequest)
          else if !p.accepting || t in p.futures then out == Rejected(InternalError)
          else if UsableFor(p, h, o.live) * o.accepts == {} then out == Rejected(WorkerUnavailable)
          else out.Assigned?)
      && (out.Rejected? ==> q == p.(smooth := q.smooth))
  {
    hide PoolInv, Execute, Dispatch, Available, UsableFor;
    AssignedIff(p, t, h, f, o);
    ExecuteKeeps(p, t, h, f, o);
    EarlyRejection(p, t, h, f, o);
    SomeAvailable(p, h, o);
    if t.text != "" && p.accepting && t !in p.futures && Execute(p, t, h, f, o).1.Rejected? {
      LateRejection(p, t, h, f, o);
    }
  }

  lemma SomeAvailable<F>(p: Pool<F>, h: HandlerName, o: Oracle)
    ensures (exists w :: Available(p, h, o, w)) <==> UsableFor(p, h, o.live) * o.accepts != {}
  {
    forall w ensures Available(p, h, o, w) <==> w in UsableFor(p, h, o.live) * o.accepts {}
    if UsableFor(p, h, o.live) * o.accepts != {} {
      var w :| w in UsableFor(p, h, o.live) * o.accepts;
      assert Available(p, h, o, w);
    }
  }

  lemma EarlyRejection<F>(p: Pool<F>, t: TaskId, h: HandlerName, f: F, o: Oracle)
    ensures t.text == "" ==> Execute(p, t, h, f, o).1 == Rejected(InvalidRequest)
    ensures t.text != "" && (!p.accepting || t in p.futures) ==> Execute(p, t, h, f, o).1 == Rejected(InternalError)
  {
  }

  lemma LateRejection<F>(p: Pool<F>, t: TaskId, h: HandlerName, f: F, o: Oracle)
    requires t.text != "" && p.accepting && t !in p.futures && Execute(p, t, h, f, o).1.Rejected?
    ensures Execute(p, t, h, f, o).1 == Rejected(WorkerUnavailable)
  {
    hide Dispatch;
    DispatchRejects(p.(futures := p.futures[t := f]), t, Candidates(p, Routed(p, h), o.live), o);
  }

  lemma {:induction false} DispatchRejects<F>(p: Pool<F>, t: TaskId, names: seq<GroupName>, o: Oracle)
    ensures var out := Dispatch(p, t, names, o).1; out.Rejected? ==> out.code == WorkerUnavailable
    decreases |names|
  {
    if names != [] {
      SelectFacts(p, names, o.live);
      hide SelectGroup, Ordered, FirstAccepting, Assign;
      var (g, q) := SelectGroup(p, names, o.live);
      DispatchRejects(q, t, RemoveName(names, g), o);
    }
  }

  /** What an assignment writes: the future, the assignment to a usable accepting worker's present
      incarnation, one more outstanding task, the cursor just after the worker, and smooth weights. */
  lemma AssignmentWrites<F>(p: Pool<F>, t: TaskId, h: HandlerName, f: F, o: Oracle)
    requires PoolInv(p) && Execute(p, t, h, f, o).1.Assigned?
    ensures var (q, out) := Execute(p, t, h, f, o);
            var w := out.worker;
      && w in UsableFor(p, h, o.live) && w in o.accepts
      && w.group in p.processCount && w.index < p.processCount[w.group]
      && q == p.(futures := p.futures[t := f],
                 assignments := p.assignments[t := Assignment(w, p.workers[w].generation)],
                 workers := p.workers[w := p.workers[w].(outstanding := p.workers[w].outstanding + 1)],
                 cursors := p.cursors[w.group := (w.index + 1) % p.processCount[w.group]],
                 smooth := q.smooth)
  {
    hide Execute, PoolInv, Assign, Dispatch, AssignedTo;
    ExecuteShape(p, t, h, f, o);
    ExecuteKeeps(p, t, h, f, o);
    var (q, out) := Execute(p, t, h, f, o);
    Written(p, t, f, out.worker, q);
    InUsableFor(p, h, o, out.worker);
  }

  lemma InUsableFor<F>(p: Pool<F>, h: HandlerName, o: Oracle, w: WorkerId)
    requires Deploys(p, w.group, h) && Usable(p, w, o.live)
    ensures w in UsableFor(p, h, o.live)
  {
  }

  /** In the group that is served the request goes to the worker with the fewest outstanding tasks of
      those that are usable and accept, the nearest at or after the cursor among equals. */
  lemma AssignmentSoonest<F>(p: Pool<F>, t: TaskId, h: HandlerName, f: F, o: Oracle)
    requires PoolInv(p) && Execute(p, t, h, f, o).1.Assigned?
    ensures Execute(p, t, h, f, o).1.worker in p.workers && Execute(p, t, h, f, o).1.worker.group in p.processCount
    ensures var w := Execute(p, t, h, f, o).1.worker;
            var cursor := if w.group in p.cursors then p.cursors[w.group] else 0;
            var n := p.processCount[w.group];
      forall v :: v in UsableFor(p, h, o.live) && v in o.accepts && v.group == w.group ==>
        || p.workers[w].outstanding < p.workers[v].outstanding
        || (p.workers[w].outstanding == p.workers[v].outstanding && (w.index - cursor) % n <= (v.index - cursor) % n)
  {
    hide Execute, PoolInv, Assign, Dispatch, Soonest;
    ExecuteShape(p, t, h, f, o);
    ExecuteSoonest(p, t, h, f, o);
    SoonestMeans(p, h, o, Execute(p, t, h, f, o).1.worker);
  }

  lemma Written<F>(p: Pool<F>, t: TaskId, f: F, w: WorkerId, q: Pool<F>)
    requires w in p.workers && w.index < Count(p, w.group)
    requires q == Assign(p.(futures := p.futures[t := f], smooth := q.smooth), t, w)
    ensures w.group in p.processCount && w.index < p.processCount[w.group]
    ensures q == p.(futures := p.futures[t := f],
                    assignments := p.assignments[t := Assignment(w, p.workers[w].generation)],
                    workers := p.workers[w := p.workers[w].(outstanding := p.workers[w].outstanding + 1)],
                    cursors := p.cursors[w.group := (w.index + 1) % p.processCount[w.group]],
                    smooth := q.smooth)
  {
  }

  lemma SoonestMeans<F>(p: Pool<F>, h: HandlerName, o: Oracle, w: WorkerId)
    requires PoolInv(p) && Soonest(p, o, w) && w in p.workers && w.index < Count(p, w.group)
    ensures w.group in p.processCount
    ensures var cursor := if w.group in p.cursors then p.cursors[w.group] else 0;
            var n := p.processCount[w.group];
      forall v :: v in UsableFor(p, h, o.live) && v in o.accepts && v.group == w.group ==>
        || p.workers[w].outstanding < p.workers[v].outstanding
        || (p.workers[w].outstanding == p.workers[v].outstanding && (w.index - cursor) % n <= (v.index - cursor) % n)
  {
    assert w == WorkerId(w.group, w.index);
    forall v | v in UsableFor(p, h, o.live) && v in o.accepts && v.group == w.group
      ensures !Sooner(p, w.group, v.index, w.index) && v == WorkerId(w.group, v.index)
    {
      assert v.index < Count(p, w.group) && Usable(p, WorkerId(w.group, v.index), o.live);
    }
    hide PoolInv, Soonest;
  }
}
