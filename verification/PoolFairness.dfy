/** How the load spreads over groups and workers when requests arrive faster than results. */
module PoolFairness {
  import opened Core
  import opened SmoothRoundRobin
  import opened PoolModel
  import opened PoolInvariant
  import opened PoolDispatch
  import opened Tally

  /** One request after the other, with no step in between. */
  function Burst<F>(p: Pool<F>, requests: seq<(TaskId, F)>, h: HandlerName, o: Oracle): Pool<F> {
    if requests == [] then p
    else
      var last := requests[|requests| - 1];
      Execute(Burst(p, requests[..|requests| - 1], h, o), last.0, h, last.1, o).0
  }

  predicate FreshRequests<F>(p: Pool<F>, requests: seq<(TaskId, F)>) {
    && (forall i :: 0 <= i < |requests| ==> requests[i].0.text != "" && requests[i].0 !in p.futures)
    && (forall i, j :: 0 <= i < j < |requests| ==> requests[i].0 != requests[j].0)
  }

  /** The outstanding tasks of every worker. */
  function Outstanding<F>(p: Pool<F>): Counts {
    map w | w in p.workers :: p.workers[w].outstanding
  }

  // ---------- what a request leaves alone ----------

  ghost predicate SameUsable<F>(p: Pool<F>, q: Pool<F>, live: set<WorkerId>) {
    && q.processCount == p.processCount && q.handlerGroups == p.handlerGroups && q.groups == p.groups
    && q.accepting == p.accepting
    && forall w :: Usable(p, w, live) == Usable(q, w, live)
  }

  lemma {:induction false} AliveSame<F>(p: Pool<F>, q: Pool<F>, g: GroupName, live: set<WorkerId>, n: nat)
    requires SameUsable(p, q, live)
    ensures AliveBelow(p, g, live, n) == AliveBelow(q, g, live, n)
  {
    if n > 0 { AliveSame(p, q, g, live, n - 1); }
  }

  lemma {:induction false} CandidatesSame<F>(p: Pool<F>, q: Pool<F>, names: seq<GroupName>, live: set<WorkerId>)
    requires SameUsable(p, q, live)
    ensures Candidates(p, names, live) == Candidates(q, names, live)
  {
    if names != [] {
      AliveSame(p, q, names[0], live, Count(p, names[0]));
      CandidatesSame(p, q, names[1..], live);
    }
  }

  lemma WeightsSame<F>(p: Pool<F>, q: Pool<F>, names: seq<GroupName>, live: set<WorkerId>)
    requires SameUsable(p, q, live)
    ensures LiveWeights(p, names, live) == LiveWeights(q, names, live)
  {
    forall g | g in names ensures Alive(p, g, live) == Alive(q, g, live) { AliveSame(p, q, g, live, Count(p, g)); }
  }

  lemma UsableChain<F>(p: Pool<F>, q: Pool<F>, r: Pool<F>, live: set<WorkerId>)
    requires SameUsable(p, q, live) && SameUsable(q, r, live)
    ensures SameUsable(p, r, live)
  {
    forall w ensures Usable(p, w, live) == Usable(r, w, live) {
      assert Usable(p, w, live) == Usable(q, w, live);
    }
  }

  // ---------- one request ----------

  /** All usable workers accept, so a request goes to the selected group's least loaded worker. */
  ghost predicate Placed<F>(p: Pool<F>, q: Pool<F>, names: seq<GroupName>, t: TaskId, o: Oracle, w: WorkerId) {
    var weights := LiveWeights(p, names, o.live);
    && names != [] && w.group == Selected(p.smooth, weights, p.groups, names)
    && q.smooth == Charged(p.smooth, weights, p.groups, names)
    && SameUsable(p, q, o.live)
    && w.index in Alive(p, w.group, o.live)
    && (forall j :: j in Alive(p, w.group, o.live) ==> Load(p, w.group, w.index) <= Load(p, w.group, j))
    && OneMore(Outstanding(p), Outstanding(q), w)
    && q.futures.Keys == p.futures.Keys + {t}
  }

  lemma RequestGroup<F>(p: Pool<F>, t: TaskId, h: HandlerName, f: F, o: Oracle)
    requires p.accepting && t.text != "" && t !in p.futures
    requires Candidates(p, Routed(p, h), o.live) != []
    requires forall w :: Usable(p, w, o.live) ==> w in o.accepts
    ensures var (q, out) := Execute(p, t, h, f, o);
      var names := Candidates(p, Routed(p, h), o.live);
      var weights := LiveWeights(p, names, o.live);
      && out.Assigned? && out.worker.group == Selected(p.smooth, weights, p.groups, names)
      && q.smooth == Charged(p.smooth, weights, p.groups, names)
  {
    hide Charged, Selected, Dispatch;
    var names := Candidates(p, Routed(p, h), o.live);
    var p1 := p.(futures := p.futures[t := f]);
    assert SameUsable(p, p1, o.live) by {
      forall w ensures Usable(p, w, o.live) == Usable(p1, w, o.live) {}
    }
    WeightsSame(p, p1, names, o.live);
    forall g | g in names ensures Alive(p1, g, o.live) != [] { AliveSame(p, p1, g, o.live, Count(p, g)); }
    hide Candidates, Routed, LiveWeights, Alive;
    SelectedGroup(p1, t, names, o);
  }

  lemma RequestPlaced<F>(p: Pool<F>, t: TaskId, h: HandlerName, f: F, o: Oracle)
    requires PoolInv(p) && p.accepting && t.text != "" && t !in p.futures
    requires Candidates(p, Routed(p, h), o.live) != []
    requires forall w :: Usable(p, w, o.live) ==> w in o.accepts
    ensures var (q, out) := Execute(p, t, h, f, o);
      PoolInv(q) && out.Assigned? && Placed(p, q, Candidates(p, Routed(p, h), o.live), t, o, out.worker)
  {
    hide Execute, PoolInv, Candidates, Routed, LiveWeights, Selected, Charged, Alive, Assign, Soonest;
    RequestGroup(p, t, h, f, o);
    ExecuteKeeps(p, t, h, f, o);
    ExecuteShape(p, t, h, f, o);
    ExecuteSoonest(p, t, h, f, o);
    var (q, out) := Execute(p, t, h, f, o);
    AssignedPlaced(p, t, f, o, out.worker, q);
  }

  lemma AssignedPlaced<F>(p: Pool<F>, t: TaskId, f: F, o: Oracle, w: WorkerId, q: Pool<F>)
    requires w.index < Count(p, w.group) && Usable(p, w, o.live) && Soonest(p, o, w)
    requires forall v :: Usable(p, v, o.live) ==> v in o.accepts
    requires q == Assign(p.(futures := p.futures[t := f], smooth := q.smooth), t, w)
    ensures SameUsable(p, q, o.live) && w.index in Alive(p, w.group, o.live)
    ensures forall j :: j in Alive(p, w.group, o.live) ==> Load(p, w.group, w.index) <= Load(p, w.group, j)
    ensures OneMore(Outstanding(p), Outstanding(q), w)
    ensures q.futures.Keys == p.futures.Keys + {t}
  {
    assert w == WorkerId(w.group, w.index);
    forall j | j in Alive(p, w.group, o.live) ensures Load(p, w.group, w.index) <= Load(p, w.group, j) {
      assert Usable(p, WorkerId(w.group, j), o.live);
    }
  }

  // ---------- a burst of requests ----------

  ghost predicate Even<F>(p0: Pool<F>, p: Pool<F>, names: seq<GroupName>, o: Oracle, n: nat) {
    names != [] &&
    var r := Rounds(p0.smooth, LiveWeights(p0, names, o.live), p0.groups, names, n);
    && SameUsable(p0, p, o.live)
    && p.smooth == r.smooth
    && forall g :: g in names ==>
         && Level(Outstanding(p), g, Alive(p0, g, o.live))
         && Total(Outstanding(p), g, Alive(p0, g, o.live)) == At(r.picks, g)
  }

  lemma SameGroups<F>(p: Pool<F>, q: Pool<F>, live: set<WorkerId>)
    requires SameUsable(p, q, live)
    ensures q.groups == p.groups
  {
  }

  lemma PlacedEven<F>(p0: Pool<F>, p: Pool<F>, q: Pool<F>, names: seq<GroupName>, t: TaskId, o: Oracle, w: WorkerId,
                      n: nat)
    requires Even(p0, p, names, o, n) && Placed(p, q, names, t, o, w)
    ensures Even(p0, q, names, o, n + 1)
  {
    WeightsSame(p0, p, names, o.live);
    UsableChain(p0, p, q, o.live);
    SameGroups(p0, p, o.live);
    hide LiveWeights, Selected, Charged, Total, Level, OneMore, SameUsable, AliveBelow;
    var m, m' := Outstanding(p), Outstanding(q);
    forall g | g in names
      ensures Level(m', g, Alive(p0, g, o.live))
      ensures Total(m', g, Alive(p0, g, o.live)) == Total(m, g, Alive(p0, g, o.live)) + if w.group == g then 1 else 0
    {
      AliveSame(p0, p, g, o.live, Count(p0, g));
      TotalOneMore(m, m', g, Alive(p0, g, o.live), w);
      LevelOneMore(m, m', g, Alive(p0, g, o.live), w);
    }
  }

  ghost predicate Idle<F>(p: Pool<F>, names: seq<GroupName>, live: set<WorkerId>) {
    forall g :: g in names ==> At(p.smooth, g) == 0 && forall j :: j in Alive(p, g, live) ==> Load(p, g, j) == 0
  }

  function Ids<F>(requests: seq<(TaskId, F)>): set<TaskId> {
    if requests == [] then {} else Ids(requests[..|requests| - 1]) + {requests[|requests| - 1].0}
  }

  lemma {:induction false} FreshId<F>(p: Pool<F>, requests: seq<(TaskId, F)>, n: nat)
    requires FreshRequests(p, requests) && n < |requests|
    ensures FreshRequests(p, requests[..n]) && requests[n].0.text != ""
    ensures requests[n].0 !in p.futures.Keys + Ids(requests[..n])
  {
    IdsFrom(requests[..n]);
  }

  lemma {:induction false} IdsFrom<F>(requests: seq<(TaskId, F)>)
    ensures forall t :: t in Ids(requests) ==> exists i :: 0 <= i < |requests| && requests[i].0 == t
  {
    if requests != [] {
      var n := |requests| - 1;
      IdsFrom(requests[..n]);
      forall t | t in Ids(requests) ensures exists i :: 0 <= i < |requests| && requests[i].0 == t {
        if t in Ids(requests[..n]) {
          var i :| 0 <= i < n && requests[..n][i].0 == t;
          assert requests[i].0 == t;
        }
      }
    }
  }

  lemma BurstNext<F>(p: Pool<F>, requests: seq<(TaskId, F)>, h: HandlerName, o: Oracle)
    requires requests != []
    ensures var n := |requests| - 1;
      && Burst(p, requests, h, o) == Execute(Burst(p, requests[..n], h, o), requests[n].0, h, requests[n].1, o).0
      && Ids(requests) == Ids(requests[..n]) + {requests[n].0}
  {
    hide Execute;
  }

  /** What a burst of fresh requests has done so far. */
  ghost predicate BurstDone<F>(p: Pool<F>, requests: seq<(TaskId, F)>, h: HandlerName, o: Oracle) {
    var q := Burst(p, requests, h, o);
    && PoolInv(q) && Even(p, q, Candidates(p, Routed(p, h), o.live), o, |requests|)
    && q.futures.Keys == p.futures.Keys + Ids(requests)
  }

  lemma BurstMore<F>(p: Pool<F>, requests: seq<(TaskId, F)>, h: HandlerName, o: Oracle)
    requires requests != [] && PoolInv(p) && p.accepting && FreshRequests(p, requests)
    requires forall w :: Usable(p, w, o.live) ==> w in o.accepts
    requires Candidates(p, Routed(p, h), o.live) != []
    requires BurstDone(p, requests[..|requests| - 1], h, o)
    ensures BurstDone(p, requests, h, o)
  {
    hide PoolInv, Candidates, Routed, Rounds, Even, FreshRequests, Execute, Usable;
    var n := |requests| - 1;
    FreshId(p, requests, n);
    BurstNext(p, requests, h, o);
    hide Burst, Ids;
    NextEven(p, Burst(p, requests[..n], h, o), requests[n].0, h, requests[n].1, o, n);
  }

  lemma {:induction false} BurstEven<F>(p: Pool<F>, requests: seq<(TaskId, F)>, h: HandlerName, o: Oracle)
    requires PoolInv(p) && p.accepting && FreshRequests(p, requests)
    requires forall w :: Usable(p, w, o.live) ==> w in o.accepts
    requires var names := Candidates(p, Routed(p, h), o.live); names != [] && Idle(p, names, o.live)
    ensures BurstDone(p, requests, h, o)
  {
    hide PoolInv, Candidates, Routed, Rounds, Even, Idle, FreshRequests, Usable;
    if requests == [] {
      IdleEven(p, Candidates(p, Routed(p, h), o.live), o);
    } else {
      FreshId(p, requests, |requests| - 1);
      hide BurstDone;
      BurstEven(p, requests[..|requests| - 1], h, o);
      BurstMore(p, requests, h, o);
    }
  }

  lemma IdleEven<F>(p: Pool<F>, names: seq<GroupName>, o: Oracle)
    requires names != [] && Idle(p, names, o.live)
    ensures Even(p, p, names, o, 0)
  {
    hide Rounds;
    var m := Outstanding(p);
    forall g | g in names ensures Total(m, g, Alive(p, g, o.live)) == 0 && Level(m, g, Alive(p, g, o.live)) {
      TotalZero(m, g, Alive(p, g, o.live));
    }
    NoRounds(p.smooth, LiveWeights(p, names, o.live), p.groups, names);
  }

  lemma NextEven<F>(p0: Pool<F>, p: Pool<F>, t: TaskId, h: HandlerName, f: F, o: Oracle, n: nat)
    requires PoolInv(p) && p0.accepting && t.text != "" && t !in p.futures
    requires Even(p0, p, Candidates(p0, Routed(p0, h), o.live), o, n)
    requires forall w :: Usable(p0, w, o.live) ==> w in o.accepts
    ensures var q := Execute(p, t, h, f, o).0;
      PoolInv(q) && Even(p0, q, Candidates(p0, Routed(p0, h), o.live), o, n + 1)
      && q.futures.Keys == p.futures.Keys + {t}
  {
    hide PoolInv, Candidates, Rounds, Execute, Level, Total, Alive, LiveWeights;
    CandidatesSame(p0, p, Routed(p0, h), o.live);
    var (q, out) := Execute(p, t, h, f, o);
    RequestPlaced(p, t, h, f, o);
    PlacedEven(p0, p, q, Candidates(p0, Routed(p0, h), o.live), t, o, out.worker, n);
  }

  lemma NoRounds(start: Weights, weights: Weights, order: seq<GroupName>, names: seq<GroupName>)
    requires names != []
    ensures Rounds(start, weights, order, names, 0) == Round(start, map[])
  {
  }

  /** Exact fairness for every worker, composing both levels: from an idle pool whose usable
      workers all accept, after k requests per usable worker deploying the handler and no result
      in between, every one of those workers has received exactly k, whatever the cursors were
      and whichever workers are down. */
  lemma WorkersFair<F>(p: Pool<F>, requests: seq<(TaskId, F)>, h: HandlerName, o: Oracle, k: nat, w: WorkerId)
    requires PoolInv(p) && p.accepting && FreshRequests(p, requests)
    requires forall v :: Usable(p, v, o.live) ==> v in o.accepts
    requires var names := Candidates(p, Routed(p, h), o.live);
      && names != [] && Idle(p, names, o.live)
      && |requests| == k * Sum(LiveWeights(p, names, o.live), names)
    requires Usable(p, w, o.live) && Deploys(p, w.group, h)
    ensures w in Burst(p, requests, h, o).workers && Burst(p, requests, h, o).workers[w].outstanding == k
  {
    var names := Candidates(p, Routed(p, h), o.live);
    var weights := LiveWeights(p, names, o.live);
    BurstEven(p, requests, h, o);
    RoutedDistinct(p, h);
    AvailableIsCandidate(p, h, o, w);
    hide PoolInv, Candidates, Rounds, Burst;
    WeighedPositive(p, names, o.live, w.group);
    ExactOverPeriods(p.smooth, weights, p.groups, names, k);
    var q := Burst(p, requests, h, o);
    assert w == WorkerId(w.group, w.index);
    assert w.index in Alive(p, w.group, o.live);
    LevelIsEqual(Outstanding(q), w.group, Alive(p, w.group, o.live), k, w.index);
    assert Usable(q, w, o.live);
  }

  lemma {:induction false} WeighedPositive<F>(p: Pool<F>, names: seq<GroupName>, live: set<WorkerId>, g: GroupName)
    requires g in names && Alive(p, g, live) != []
    ensures Sum(LiveWeights(p, names, live), names) > 0
  {
    SumAtLeast(LiveWeights(p, names, live), names, g);
  }

  lemma {:induction false} SumAtLeast(m: Weights, names: seq<GroupName>, g: GroupName)
    requires forall h :: h in names ==> At(m, h) >= 0
    ensures Sum(m, names) >= 0 && (g in names ==> Sum(m, names) >= At(m, g))
  {
    if names != [] { SumAtLeast(m, names[1..], g); }
  }
}
