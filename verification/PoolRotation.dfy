/** How the load spreads over workers when every result arrives before the next request. */
module PoolRotation {
  import opened Core
  import opened SmoothRoundRobin
  import opened PoolModel
  import opened PoolInvariant
  import opened PoolDispatch
  import opened Tally
  import opened PoolFairness

  /** A request and then its result. */
  function Served<F>(p: Pool<F>, t: TaskId, h: HandlerName, f: F, o: Oracle): (Pool<F>, Outcome) {
    var (q, out) := Execute(p, t, h, f, o);
    (if t in q.assignments then Receive(q, t, q.assignments[t]).0 else q, out)
  }

  /** The pool, and how many requests each worker has been given. */
  datatype Ledger<F> = Ledger(pool: Pool<F>, given: Counts)

  function Give(m: Counts, w: WorkerId): Counts {
    m[w := (if w in m then m[w] else 0) + 1]
  }

  /** One request after the other, each answered before the next. */
  function OneByOne<F>(p: Pool<F>, requests: seq<(TaskId, F)>, h: HandlerName, o: Oracle): Ledger<F> {
    if requests == [] then Ledger(p, map[])
    else
      var before := OneByOne(p, requests[..|requests| - 1], h, o);
      var (t, f) := requests[|requests| - 1];
      var (q, out) := Served(before.pool, t, h, f, o);
      Ledger(q, if out.Assigned? then Give(before.given, out.worker) else before.given)
  }

  // ---------- one request ----------

  /** Answered, a request leaves behind the charge of its group and the cursor after its worker. */
  ghost predicate Turned<F>(p: Pool<F>, q: Pool<F>, names: seq<GroupName>, o: Oracle, w: WorkerId) {
    var weights := LiveWeights(p, names, o.live);
    && names != [] && w.group == Selected(p.smooth, weights, p.groups, names) && w.group in names
    && q == p.(smooth := Charged(p.smooth, weights, p.groups, names),
               cursors := p.cursors[w.group := Mod(w.index + 1, Count(p, w.group))])
    && w.index in Alive(p, w.group, o.live) && Soonest(p, o, w)
  }

  lemma ServedTurns<F>(p: Pool<F>, t: TaskId, h: HandlerName, f: F, o: Oracle)
    requires PoolInv(p) && p.accepting && t.text != "" && t !in p.futures
    requires Candidates(p, Routed(p, h), o.live) != []
    requires forall w :: Usable(p, w, o.live) ==> w in o.accepts
    ensures var (q, out) := Served(p, t, h, f, o);
      PoolInv(q) && out.Assigned? && Turned(p, q, Candidates(p, Routed(p, h), o.live), o, out.worker)
  {
    hide Execute, PoolInv, Candidates, Routed, LiveWeights, Selected, Charged, Alive, Soonest, Receive;
    RequestGroup(p, t, h, f, o);
    ExecuteKeeps(p, t, h, f, o);
    ExecuteShape(p, t, h, f, o);
    ExecuteSoonest(p, t, h, f, o);
    var (q, out) := Execute(p, t, h, f, o);
    ReceiveKeeps(q, t, q.assignments[t]);
    NotAssigned(p, t);
    SelectedIn(p, Candidates(p, Routed(p, h), o.live), o.live);
    Answered(p, t, f, q, out.worker);
    InAlive(p, o, out.worker);
  }

  lemma SelectedIn<F>(p: Pool<F>, names: seq<GroupName>, live: set<WorkerId>)
    requires names != []
    ensures Selected(p.smooth, LiveWeights(p, names, live), p.groups, names) in names
  {
    SelectFacts(p, names, live);
  }

  lemma NotAssigned<F>(p: Pool<F>, t: TaskId)
    requires PoolInv(p) && t !in p.futures
    ensures t !in p.assignments
  {
  }

  lemma InAlive<F>(p: Pool<F>, o: Oracle, w: WorkerId)
    requires w.index < Count(p, w.group) && Usable(p, w, o.live)
    ensures w.index in Alive(p, w.group, o.live)
  {
    assert w == WorkerId(w.group, w.index);
  }

  /** The answer undoes the assignment, all but the cursor and the smooth weights. */
  lemma Answered<F>(p: Pool<F>, t: TaskId, f: F, q: Pool<F>, w: WorkerId)
    requires w in p.workers && t !in p.futures && t !in p.assignments
    requires q == Assign(p.(futures := p.futures[t := f], smooth := q.smooth), t, w)
    ensures t in q.assignments
    ensures Receive(q, t, q.assignments[t]).0 ==
              p.(smooth := q.smooth, cursors := p.cursors[w.group := Mod(w.index + 1, Count(p, w.group))])
  {
    var r := Receive(q, t, q.assignments[t]).0;
    assert r.futures == p.futures;
    assert r.assignments == p.assignments;
    assert r.workers == p.workers;
  }

  // ---------- turns ----------

  /** The distance of a worker from its group's cursor. */
  function Rank<F>(p: Pool<F>, g: GroupName, i: nat): nat {
    Mod(i - Cursor(p, g), Count(p, g))
  }

  /** Those nearer to the cursor have had as many turns as those behind them, or one less. */
  predicate InTurn<F>(p: Pool<F>, m: Counts, g: GroupName, xs: seq<nat>) {
    forall i, j :: i in xs && j in xs && Rank(p, g, i) < Rank(p, g, j) ==>
      Of(m, g, i) <= Of(m, g, j) <= Of(m, g, i) + 1
  }

  lemma Multiple(n: nat, d: int)
    ensures d >= 1 ==> n * d >= n
    ensures d <= -1 ==> n * d + n <= 0
  {
    if d >= 1 {
      assert n * (d - 1) >= 0;
    } else if d <= -1 {
      assert n * (-1 - d) >= 0;
    }
  }

  lemma ModUnique(x: int, n: nat, q: int, r: nat)
    requires x == n * q + r && r < n
    ensures x % n == r
  {
    var q' := x / n;
    assert n * q' - n * q == n * (q' - q);
    Multiple(n, q' - q);
  }

  /** Distances from just after w, for one that was behind it. */
  lemma DistanceAfter(n: nat, c: int, w: int, i: int)
    requires n > 0 && (w - c) % n < (i - c) % n
    ensures (i - (w + 1) % n) % n == (i - c) % n - (w - c) % n - 1
  {
    var qw, qi, q' := (w - c) / n, (i - c) / n, (w + 1) / n;
    Split(n, w - c);
    Split(n, i - c);
    Split(n, w + 1);
    Collect(n, qi, -qw, q');
    ModUnique(i - (w + 1) % n, n, qi - qw + q', (i - c) % n - (w - c) % n - 1);
  }

  lemma Split(n: nat, x: int)
    requires n > 0
    ensures x == n * (x / n) + x % n
  {
  }

  lemma SameResidue(n: nat, x: int, y: int)
    requires n > 0 && x % n == y % n && x - y < n && y - x < n
    ensures x == y
  {
    Split(n, x);
    Split(n, y);
    assert n * (x / n) - n * (y / n) == n * (x / n - y / n);
    Multiple(n, x / n - y / n);
  }

  lemma DistanceOfLast(n: nat, w: int)
    requires n > 0
    ensures (w - (w + 1) % n) % n == n - 1
  {
    Split(n, w + 1);
    assert n * ((w + 1) / n - 1) == n * ((w + 1) / n) - n;
    ModUnique(w - (w + 1) % n, n, (w + 1) / n - 1, n - 1);
  }

  /** Workers below the count are at different distances. */
  lemma RanksDiffer<F>(p: Pool<F>, g: GroupName, i: nat, j: nat)
    requires i < Count(p, g) && j < Count(p, g) && Rank(p, g, i) == Rank(p, g, j)
    ensures i == j
  {
    SameResidue(Count(p, g), i - Cursor(p, g), j - Cursor(p, g));
  }

  lemma RankBelow<F>(p: Pool<F>, g: GroupName, i: nat)
    requires i < Count(p, g)
    ensures Rank(p, g, i) < Count(p, g)
  {
  }

  /** With the cursor just after w, it is the last, and those behind it have moved up. */
  lemma RankMoves<F>(p: Pool<F>, q: Pool<F>, g: GroupName, w: nat, i: nat)
    requires w < Count(p, g) && i < Count(p, g) && Rank(p, g, w) <= Rank(p, g, i)
    requires Count(q, g) == Count(p, g) && Cursor(q, g) == Mod(w + 1, Count(p, g))
    ensures Rank(q, g, i) == if i == w then Count(p, g) - 1 else Rank(p, g, i) - Rank(p, g, w) - 1
  {
    if i == w {
      DistanceOfLast(Count(p, g), w);
    } else {
      if Rank(p, g, w) == Rank(p, g, i) { RanksDiffer(p, g, i, w); }
      DistanceAfter(Count(p, g), Cursor(p, g), w, i);
    }
  }

  lemma Collect(n: nat, a: int, b: int, c: int)
    ensures n * a + n * b + n * c == n * (a + b + c)
  {
  }

  /** The worker nearest to the cursor gets the turn and the cursor moves past it. */
  lemma TurnMoves<F>(p: Pool<F>, q: Pool<F>, m: Counts, m': Counts, g: GroupName, xs: seq<nat>, w: nat)
    requires InTurn(p, m, g, xs) && OneMore(m, m', WorkerId(g, w)) && w in xs
    requires forall i :: i in xs ==> i < Count(p, g) && Rank(p, g, w) <= Rank(p, g, i)
    requires Count(q, g) == Count(p, g) && Cursor(q, g) == Mod(w + 1, Count(p, g))
    ensures InTurn(q, m', g, xs)
  {
    forall i, j | i in xs && j in xs && Rank(q, g, i) < Rank(q, g, j)
      ensures Of(m', g, i) <= Of(m', g, j) <= Of(m', g, i) + 1
    {
      RankMoves(p, q, g, w, i);
      RankMoves(p, q, g, w, j);
      RankBelow(p, g, j);
      if i != w && j == w { Nearest(p, m, g, xs, w, i); }
      hide Rank;
    }
  }

  lemma Nearest<F>(p: Pool<F>, m: Counts, g: GroupName, xs: seq<nat>, w: nat, i: nat)
    requires InTurn(p, m, g, xs) && w in xs && i in xs && i != w && w < Count(p, g) && i < Count(p, g)
    requires Rank(p, g, w) <= Rank(p, g, i)
    ensures Of(m, g, w) <= Of(m, g, i) <= Of(m, g, w) + 1
  {
    if Rank(p, g, w) == Rank(p, g, i) { RanksDiffer(p, g, w, i); }
  }

  lemma TurnsLevel<F>(p: Pool<F>, m: Counts, g: GroupName, xs: seq<nat>)
    requires InTurn(p, m, g, xs) && forall i :: i in xs ==> i < Count(p, g)
    ensures Level(m, g, xs)
  {
    forall i, j | i in xs && j in xs ensures Of(m, g, i) <= Of(m, g, j) + 1 {
      if Rank(p, g, i) == Rank(p, g, j) { RanksDiffer(p, g, i, j); }
    }
  }

  // ---------- one request after the other ----------

  ghost predicate NoLoad<F>(p: Pool<F>, g: GroupName, live: set<WorkerId>) {
    forall j :: j in Alive(p, g, live) ==> Load(p, g, j) == 0
  }

  /** After n requests: back to what the pool was but for smooth weights and cursors, with the
      requests spread over groups by the round robin and within each group in turn. */
  ghost predicate Rotating<F>(p0: Pool<F>, l: Ledger<F>, names: seq<GroupName>, o: Oracle, n: nat) {
    names != [] &&
    var r := Rounds(p0.smooth, LiveWeights(p0, names, o.live), p0.groups, names, n);
    && l.pool == p0.(smooth := r.smooth, cursors := l.pool.cursors)
    && forall g :: g in names ==>
         && InTurn(l.pool, l.given, g, Alive(p0, g, o.live))
         && Total(l.given, g, Alive(p0, g, o.live)) == At(r.picks, g)
  }

  lemma GiveOneMore(m: Counts, w: WorkerId)
    ensures OneMore(m, Give(m, w), w)
  {
  }

  /** Among equally loaded workers the soonest is the nearest to the cursor. */
  lemma SoonestIsNearest<F>(p: Pool<F>, o: Oracle, w: WorkerId)
    requires Soonest(p, o, w) && NoLoad(p, w.group, o.live) && w.index in Alive(p, w.group, o.live)
    requires forall v :: Usable(p, v, o.live) ==> v in o.accepts
    ensures forall j :: j in Alive(p, w.group, o.live) ==>
              j < Count(p, w.group) && Rank(p, w.group, w.index) <= Rank(p, w.group, j)
  {
    forall j | j in Alive(p, w.group, o.live) ensures Rank(p, w.group, w.index) <= Rank(p, w.group, j) {
      assert Usable(p, WorkerId(w.group, j), o.live);
      assert !Sooner(p, w.group, j, w.index);
    }
  }

  lemma GroupTurn<F>(p: Pool<F>, q: Pool<F>, names: seq<GroupName>, o: Oracle, w: WorkerId, m: Counts, g: GroupName)
    requires Turned(p, q, names, o, w) && NoLoad(p, w.group, o.live)
    requires forall v :: Usable(p, v, o.live) ==> v in o.accepts
    requires InTurn(p, m, g, Alive(p, g, o.live))
    ensures InTurn(q, Give(m, w), g, Alive(p, g, o.live))
    ensures Total(Give(m, w), g, Alive(p, g, o.live))
            == Total(m, g, Alive(p, g, o.live)) + if w.group == g then 1 else 0
  {
    hide Soonest, LiveWeights, Selected, Charged, Alive, NoLoad, Usable, Give;
    var xs := Alive(p, g, o.live);
    GiveOneMore(m, w);
    AliveIncreasing(p, g, o.live);
    TotalOneMore(m, Give(m, w), g, xs, w);
    if w.group == g {
      SoonestIsNearest(p, o, w);
      assert w == WorkerId(g, w.index);
      TurnMoves(p, q, m, Give(m, w), g, xs, w.index);
    } else {
      TurnElsewhere(p, q, m, Give(m, w), g, xs, w);
    }
  }

  lemma AliveIncreasing<F>(p: Pool<F>, g: GroupName, live: set<WorkerId>)
    ensures Increasing(Alive(p, g, live))
  {
  }

  lemma TurnElsewhere<F>(p: Pool<F>, q: Pool<F>, m: Counts, m': Counts, g: GroupName, xs: seq<nat>, w: WorkerId)
    requires InTurn(p, m, g, xs) && OneMore(m, m', w) && w.group != g
    requires Count(q, g) == Count(p, g) && Cursor(q, g) == Cursor(p, g)
    ensures InTurn(q, m', g, xs)
  {
    assert forall i :: Rank(q, g, i) == Rank(p, g, i);
    assert forall i :: Of(m', g, i) == Of(m, g, i);
  }

  lemma AliveAlike<F>(p: Pool<F>, q: Pool<F>, g: GroupName, live: set<WorkerId>)
    requires q == p.(smooth := q.smooth, cursors := q.cursors)
    ensures Alive(p, g, live) == Alive(q, g, live) && SameUsable(p, q, live)
  {
    assert forall w :: Usable(p, w, live) == Usable(q, w, live);
    AliveSame(p, q, g, live, Count(p, g));
  }

  lemma NextTurn<F>(p0: Pool<F>, l: Ledger<F>, q: Pool<F>, names: seq<GroupName>, o: Oracle, n: nat, w: WorkerId)
    requires Rotating(p0, l, names, o, n) && Turned(l.pool, q, names, o, w)
    requires forall v :: Usable(p0, v, o.live) ==> v in o.accepts
    requires forall g :: g in names ==> NoLoad(p0, g, o.live)
    ensures Rotating(p0, Ledger(q, Give(l.given, w)), names, o, n + 1)
  {
    var p := l.pool;
    AliveAlike(p0, p, w.group, o.live);
    WeightsSame(p0, p, names, o.live);
    hide LiveWeights, Selected, Charged, Total, InTurn, Alive, Give, Soonest;
    forall g | g in names
      ensures InTurn(q, Give(l.given, w), g, Alive(p0, g, o.live))
      ensures Total(Give(l.given, w), g, Alive(p0, g, o.live))
              == Total(l.given, g, Alive(p0, g, o.live)) + if w.group == g then 1 else 0
    {
      AliveAlike(p0, p, g, o.live);
      assert NoLoad(p, w.group, o.live);
      GroupTurn(p, q, names, o, w, l.given, g);
    }
  }

  /** From an idle pool whose usable workers all accept, when each request is answered before the
      next, every usable worker deploying the handler is given exactly k of k requests per such
      worker, whatever the cursors were and whichever workers are down. */
  lemma RotationFair<F>(p: Pool<F>, requests: seq<(TaskId, F)>, h: HandlerName, o: Oracle, k: nat, w: WorkerId)
    requires PoolInv(p) && p.accepting
    requires forall i :: 0 <= i < |requests| ==> requests[i].0.text != "" && requests[i].0 !in p.futures
    requires forall v :: Usable(p, v, o.live) ==> v in o.accepts
    requires var names := Candidates(p, Routed(p, h), o.live);
      && names != [] && Idle(p, names, o.live)
      && |requests| == k * Sum(LiveWeights(p, names, o.live), names)
    requires Usable(p, w, o.live) && Deploys(p, w.group, h)
    ensures Of(OneByOne(p, requests, h, o).given, w.group, w.index) == k
  {
    var names := Candidates(p, Routed(p, h), o.live);
    var weights := LiveWeights(p, names, o.live);
    AllTurns(p, requests, h, o);
    RoutedDistinct(p, h);
    AvailableIsCandidate(p, h, o, w);
    hide PoolInv, Candidates, Rounds, OneByOne, InTurn;
    WeighedPositive(p, names, o.live, w.group);
    ExactOverPeriods(p.smooth, weights, p.groups, names, k);
    var l := OneByOne(p, requests, h, o);
    InAlive(p, o, w);
    TurnsLevel(l.pool, l.given, w.group, Alive(p, w.group, o.live));
    LevelIsEqual(l.given, w.group, Alive(p, w.group, o.live), k, w.index);
  }

  lemma {:induction false} AllTurns<F>(p: Pool<F>, requests: seq<(TaskId, F)>, h: HandlerName, o: Oracle)
    requires PoolInv(p) && p.accepting
    requires forall i :: 0 <= i < |requests| ==> requests[i].0.text != "" && requests[i].0 !in p.futures
    requires forall v :: Usable(p, v, o.live) ==> v in o.accepts
    requires var names := Candidates(p, Routed(p, h), o.live); names != [] && Idle(p, names, o.live)
    ensures var l := OneByOne(p, requests, h, o);
      PoolInv(l.pool) && Rotating(p, l, Candidates(p, Routed(p, h), o.live), o, |requests|)
  {
    var names := Candidates(p, Routed(p, h), o.live);
    if requests == [] {
      NoTurns(p, names, o);
    } else {
      var n := |requests| - 1;
      AllTurns(p, requests[..n], h, o);
      var l := OneByOne(p, requests[..n], h, o);
      ServedNext(p, requests, h, o);
      hide PoolInv, Candidates, Rotating, Turned, OneByOne, Served, Routed, Usable, Idle;
      AlikeCandidates(p, l, h, names, o, n);
      ServedTurns(l.pool, requests[n].0, h, requests[n].1, o);
      IdleHasNoLoad(p, names, o.live);
      var (q, out) := Served(l.pool, requests[n].0, h, requests[n].1, o);
      NextTurn(p, l, q, names, o, n, out.worker);
    }
  }

  lemma IdleHasNoLoad<F>(p: Pool<F>, names: seq<GroupName>, live: set<WorkerId>)
    requires Idle(p, names, live)
    ensures forall g :: g in names ==> NoLoad(p, g, live)
  {
  }

  lemma ServedNext<F>(p: Pool<F>, requests: seq<(TaskId, F)>, h: HandlerName, o: Oracle)
    requires requests != []
    ensures var n := |requests| - 1;
      var l := OneByOne(p, requests[..n], h, o);
      var (q, out) := Served(l.pool, requests[n].0, h, requests[n].1, o);
      out.Assigned? ==> OneByOne(p, requests, h, o) == Ledger(q, Give(l.given, out.worker))
  {
    hide Served;
  }

  /** The requests so far have left alone what decides which groups are candidates. */
  lemma AlikeCandidates<F>(p: Pool<F>, l: Ledger<F>, h: HandlerName, names: seq<GroupName>, o: Oracle, n: nat)
    requires names == Candidates(p, Routed(p, h), o.live) && Rotating(p, l, names, o, n)
    ensures l.pool.accepting == p.accepting && l.pool.futures == p.futures
    ensures Candidates(l.pool, Routed(l.pool, h), o.live) == names
    ensures forall w :: Usable(p, w, o.live) == Usable(l.pool, w, o.live)
  {
    hide Candidates, Rounds, InTurn;
    if names != [] { AliveAlike(p, l.pool, names[0], o.live); }
    CandidatesSame(p, l.pool, Routed(p, h), o.live);
  }

  lemma NoTurns<F>(p: Pool<F>, names: seq<GroupName>, o: Oracle)
    requires names != [] && Idle(p, names, o.live)
    ensures Rotating(p, Ledger(p, map[]), names, o, 0)
  {
    hide Rounds;
    forall g | g in names ensures Total(map[], g, Alive(p, g, o.live)) == 0 {
      TotalZero(map[], g, Alive(p, g, o.live));
    }
    NoRounds(p.smooth, LiveWeights(p, names, o.live), p.groups, names);
  }
}
