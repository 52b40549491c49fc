/** Which groups a request is offered to, one after the other, when workers refuse it. */
module PoolFallback {
  import opened Core
  import opened SmoothRoundRobin
  import opened PoolModel
  import opened PoolInvariant
  import opened PoolDispatch
  import opened PoolSelection

  function Weight<F>(p: Pool<F>, g: GroupName, live: set<WorkerId>): nat {
    |Alive(p, g, live)|
  }

  /** How far a group has got when it has been a candidate n times without being chosen. */
  function Standing<F>(p: Pool<F>, g: GroupName, live: set<WorkerId>, n: nat): int {
    At(p.smooth, g) + n * Weight(p, g, live)
  }

  /** Ahead at the n-th choice, or level and registered before. */
  ghost predicate AheadAt<F>(p: Pool<F>, live: set<WorkerId>, n: nat, a: GroupName, b: GroupName) {
    || Standing(p, a, live, n) > Standing(p, b, live, n)
    || (Standing(p, a, live, n) == Standing(p, b, live, n) && EarlierIn(p.groups, a, b))
  }

  function Weights<F>(p: Pool<F>, names: seq<GroupName>, live: set<WorkerId>): int {
    if names == [] then 0 else Weight(p, names[0], live) + Weights(p, names[1..], live)
  }

  /** The weights of the groups in front of one. */
  function WeightsBefore<F>(p: Pool<F>, tries: seq<GroupName>, c: GroupName, live: set<WorkerId>): int {
    if tries == [] || tries[0] == c then 0 else Weight(p, tries[0], live) + WeightsBefore(p, tries[1..], c, live)
  }

  /** No worker of the group that can take requests accepts this one. */
  ghost predicate Refuses<F>(p: Pool<F>, g: GroupName, o: Oracle) {
    forall i: nat :: i in Alive(p, g, o.live) ==> WorkerId(g, i) !in o.accepts
  }

  /** The groups in the order they were tried: each was ahead of all that were left, all but the last
      refused, and the request went to the last, or every group refused. */
  ghost predicate Tried<F>(p: Pool<F>, names: seq<GroupName>, o: Oracle, tries: seq<GroupName>, out: Outcome) {
    && Distinct(tries) && (forall g :: g in tries ==> g in names)
    && (forall k, c :: 0 <= k < |tries| && c in names && c !in tries[..k + 1] ==>
          AheadAt(p, o.live, k + 1, tries[k], c))
    && Stops(p, names, o, tries, out)
  }

  ghost predicate Stops<F>(p: Pool<F>, names: seq<GroupName>, o: Oracle, tries: seq<GroupName>, out: Outcome) {
    && (forall k :: 0 <= k < |tries| - 1 ==> Refuses(p, tries[k], o))
    && match out
       case Assigned(w) => tries != [] && tries[|tries| - 1] == w.group && !Refuses(p, w.group, o)
       case Rejected(_) => (forall g :: g in names ==> g in tries) && forall g :: g in tries ==> Refuses(p, g, o)
  }

  /** What that leaves of the smooth weights: a group gains its weight each time it is a candidate, and
      pays the weights of all that were candidates with it when it was chosen. */
  ghost predicate Paid<F>(p: Pool<F>, names: seq<GroupName>, o: Oracle, tries: seq<GroupName>, smooth: Weights) {
    forall c :: PaidAt(p, names, o, tries, smooth, c)
  }

  predicate PaidAt<F>(p: Pool<F>, names: seq<GroupName>, o: Oracle, tries: seq<GroupName>, smooth: Weights,
                      c: GroupName)
  {
    At(smooth, c) ==
      if c !in names then At(p.smooth, c)
      else if c !in tries then Standing(p, c, o.live, |tries|)
      else
        Standing(p, c, o.live, IndexOf(tries, c) + 1)
        - (Weights(p, names, o.live) - WeightsBefore(p, tries, c, o.live))
  }

  // ---------- the first choice ----------

  lemma WeightSame<F>(p: Pool<F>, m: Weights, g: GroupName, live: set<WorkerId>)
    ensures Weight(p.(smooth := m), g, live) == Weight(p, g, live)
  {
    SmoothOnly(p, m, g, live, Count(p, g));
  }

  lemma {:induction false} WeightsSum<F>(p: Pool<F>, all: seq<GroupName>, names: seq<GroupName>, live: set<WorkerId>)
    requires forall g :: g in names ==> g in all
    ensures Sum(LiveWeights(p, all, live), names) == Weights(p, names, live)
  {
    hide AliveBelow;
    if names != [] { WeightsSum(p, all, names[1..], live); }
  }

  lemma FirstChoice<F>(p: Pool<F>, names: seq<GroupName>, live: set<WorkerId>, c: GroupName)
    requires names != [] && Distinct(names) && Distinct(p.groups) && forall g :: g in names ==> g in p.groups
    ensures var (g, q) := SelectGroup(p, names, live);
      && g in names && q == p.(smooth := q.smooth)
      && (c in names && c != g ==> AheadAt(p, live, 1, g, c))
      && At(q.smooth, c) == (if c in names then Standing(p, c, live, 1) else At(p.smooth, c))
                            - (if c == g then Weights(p, names, live) else 0)
  {
    hide Bump, Charged, Selected, AliveBelow, Ahead, AheadAt;
    SelectFacts(p, names, live);
    var weights := LiveWeights(p, names, live);
    ChargedAt(p.smooth, weights, p.groups, names, c);
    WeightsSum(p, names, names, live);
    if c in names && c != Selected(p.smooth, weights, p.groups, names) { ChosenAhead(p, names, live, c); }
  }

  lemma ChosenAhead<F>(p: Pool<F>, names: seq<GroupName>, live: set<WorkerId>, c: GroupName)
    requires names != [] && Distinct(names) && Distinct(p.groups) && forall g :: g in names ==> g in p.groups
    requires c in names && c != Selected(p.smooth, LiveWeights(p, names, live), p.groups, names)
    ensures AheadAt(p, live, 1, Selected(p.smooth, LiveWeights(p, names, live), p.groups, names), c)
  {
    hide Bump, AliveBelow, EarlierIn;
    var weights := LiveWeights(p, names, live);
    var bumped := Bump(p.smooth, weights, names);
    var g := Largest(bumped, p.groups, names);
    LargestAhead(bumped, p.groups, names, c);
    BumpAt(p.smooth, weights, names, c);
    BumpAt(p.smooth, weights, names, g);
  }

  lemma RefusesOrNot<F>(p: Pool<F>, m: Weights, g: GroupName, o: Oracle)
    ensures FirstAccepting(g, Ordered(p.(smooth := m), g, o.live), o.accepts).None? <==> Refuses(p, g, o)
  {
    SmoothOnly(p, m, g, o.live, Count(p, g));
    hide AliveBelow;
  }

  // ---------- the rest ----------

  lemma StandingNext<F>(p: Pool<F>, q: Pool<F>, c: GroupName, live: set<WorkerId>, n: nat)
    requires q == p.(smooth := q.smooth) && At(q.smooth, c) == Standing(p, c, live, 1)
    ensures Standing(q, c, live, n) == Standing(p, c, live, n + 1)
  {
    WeightSame(p, q.smooth, c, live);
    hide Weight;
    Distribute(Weight(p, c, live), n, 1);
  }

  lemma {:induction false} WeightsSame<F>(p: Pool<F>, m: Weights, names: seq<GroupName>, live: set<WorkerId>)
    ensures Weights(p.(smooth := m), names, live) == Weights(p, names, live)
  {
    if names != [] {
      WeightSame(p, m, names[0], live);
      hide Weight;
      WeightsSame(p, m, names[1..], live);
    }
  }

  lemma {:induction false} BeforeSame<F>(p: Pool<F>, m: Weights, tries: seq<GroupName>, c: GroupName,
                                         live: set<WorkerId>)
    ensures WeightsBefore(p.(smooth := m), tries, c, live) == WeightsBefore(p, tries, c, live)
  {
    if tries != [] {
      WeightSame(p, m, tries[0], live);
      hide Weight;
      BeforeSame(p, m, tries[1..], c, live);
    }
  }

  lemma {:induction false} WeightsWithout<F>(p: Pool<F>, names: seq<GroupName>, g: GroupName, live: set<WorkerId>)
    requires g in names
    ensures Weights(p, RemoveName(names, g), live) == Weights(p, names, live) - Weight(p, g, live)
  {
    hide Weight;
    if names[0] != g { WeightsWithout(p, names[1..], g, live); }
  }

  lemma {:induction false} RemoveDistinctNames(names: seq<GroupName>, g: GroupName)
    requires Distinct(names)
    ensures Distinct(RemoveName(names, g)) && forall c :: c in RemoveName(names, g) <==> c in names && c != g
  {
    if names != [] {
      RemoveDistinctNames(names[1..], g);
      assert names == [names[0]] + names[1..] && names[0] !in names[1..];
    }
  }

  /** What the rest of the loop does, told from its beginning. */
  lemma TriedNext<F>(p: Pool<F>, q: Pool<F>, names: seq<GroupName>, o: Oracle, g: GroupName, rest: seq<GroupName>,
                     out: Outcome)
    requires Distinct(names) && g in names && Refuses(p, g, o) && q == p.(smooth := q.smooth)
    requires forall c :: c in names && c != g ==>
               AheadAt(p, o.live, 1, g, c) && At(q.smooth, c) == Standing(p, c, o.live, 1)
    requires Tried(q, RemoveName(names, g), o, rest, out)
    ensures Tried(p, names, o, [g] + rest, out)
  {
    hide Refuses, AheadAt, Standing, Stops;
    RemoveDistinctNames(names, g);
    StopsNext(p, q, names, o, g, rest, out);
    var tries := [g] + rest;
    forall k, c | 0 <= k < |tries| && c in names && c !in tries[..k + 1]
      ensures AheadAt(p, o.live, k + 1, tries[k], c)
    {
      LaterAhead(p, q, names, o, g, rest, k, c);
    }
  }

  lemma StopsNext<F>(p: Pool<F>, q: Pool<F>, names: seq<GroupName>, o: Oracle, g: GroupName, rest: seq<GroupName>,
                     out: Outcome)
    requires Refuses(p, g, o) && q == p.(smooth := q.smooth) && Stops(q, RemoveName(names, g), o, rest, out)
    requires forall d :: d in RemoveName(names, g) <==> d in names && d != g
    ensures Stops(p, names, o, [g] + rest, out)
  {
    hide Refuses;
    var tries := [g] + rest;
    forall c ensures Refuses(q, c, o) == Refuses(p, c, o) { RefusesSame(p, q.smooth, c, o); }
    forall k | 0 <= k < |tries| - 1 ensures Refuses(p, tries[k], o) { if k > 0 { assert tries[k] == rest[k - 1]; } }
    if rest != [] { assert tries[|tries| - 1] == rest[|rest| - 1]; }
  }

  lemma RefusesSame<F>(p: Pool<F>, m: Weights, c: GroupName, o: Oracle)
    ensures Refuses(p.(smooth := m), c, o) == Refuses(p, c, o)
  {
    SmoothOnly(p, m, c, o.live, Count(p, c));
    hide AliveBelow;
  }

  lemma LaterAhead<F>(p: Pool<F>, q: Pool<F>, names: seq<GroupName>, o: Oracle, g: GroupName, rest: seq<GroupName>,
                      k: nat, c: GroupName)
    requires q == p.(smooth := q.smooth) && k < |[g] + rest| && c in names && c !in ([g] + rest)[..k + 1]
    requires forall d :: d in RemoveName(names, g) <==> d in names && d != g
    requires forall d :: d in names && d != g ==>
               AheadAt(p, o.live, 1, g, d) && At(q.smooth, d) == Standing(p, d, o.live, 1)
    requires (forall d :: d in rest ==> d in RemoveName(names, g))
    requires forall i, d | 0 <= i < |rest| && d in RemoveName(names, g) && d !in rest[..i + 1] ::
               AheadAt(q, o.live, i + 1, rest[i], d)
    ensures AheadAt(p, o.live, k + 1, ([g] + rest)[k], c)
  {
    hide Standing, AheadAt;
    var tries := [g] + rest;
    assert tries[0] == g && tries[..k + 1][0] == g;
    if k > 0 {
      assert tries[..k + 1] == [g] + rest[..k] && tries[k] == rest[k - 1] && rest[k - 1] in rest;
      assert AheadAt(q, o.live, k, rest[k - 1], c);
      StandingNext(p, q, c, o.live, k);
      StandingNext(p, q, rest[k - 1], o.live, k);
      SameOrder(p, q, o.live, k, rest[k - 1], c);
    }
  }

  lemma SameOrder<F>(p: Pool<F>, q: Pool<F>, live: set<WorkerId>, n: nat, a: GroupName, b: GroupName)
    requires q.groups == p.groups && AheadAt(q, live, n, a, b)
    requires Standing(q, a, live, n) == Standing(p, a, live, n + 1)
    requires Standing(q, b, live, n) == Standing(p, b, live, n + 1)
    ensures AheadAt(p, live, n + 1, a, b)
  {
    hide Standing;
  }

  lemma PaidNext<F>(p: Pool<F>, q: Pool<F>, names: seq<GroupName>, o: Oracle, g: GroupName, rest: seq<GroupName>,
                    smooth: Weights)
    requires Distinct(names) && g in names && g !in rest && q == p.(smooth := q.smooth)
    requires forall c :: At(q.smooth, c) == (if c in names then Standing(p, c, o.live, 1) else At(p.smooth, c))
                                            - (if c == g then Weights(p, names, o.live) else 0)
    requires Paid(q, RemoveName(names, g), o, rest, smooth)
    ensures Paid(p, names, o, [g] + rest, smooth)
  {
    RemoveDistinctNames(names, g);
    WeightsWithout(p, names, g, o.live);
    WeightsSame(p, q.smooth, RemoveName(names, g), o.live);
    hide Weights, Weight, PaidAt, Standing;
    forall c ensures PaidAt(p, names, o, [g] + rest, smooth, c) {
      assert PaidAt(q, RemoveName(names, g), o, rest, smooth, c);
      PaidOne(p, q, names, o, g, rest, smooth, c);
    }
  }

  lemma PaidOne<F>(p: Pool<F>, q: Pool<F>, names: seq<GroupName>, o: Oracle, g: GroupName, rest: seq<GroupName>,
                   smooth: Weights, c: GroupName)
    requires g in names && g !in rest && q == p.(smooth := q.smooth)
    requires At(q.smooth, c) == (if c in names then Standing(p, c, o.live, 1) else At(p.smooth, c))
                                - (if c == g then Weights(p, names, o.live) else 0)
    requires forall d :: d in RemoveName(names, g) <==> d in names && d != g
    requires Weights(q, RemoveName(names, g), o.live) == Weights(p, names, o.live) - Weight(p, g, o.live)
    requires PaidAt(q, RemoveName(names, g), o, rest, smooth, c)
    ensures PaidAt(p, names, o, [g] + rest, smooth, c)
  {
    hide Weights, Weight, Standing, IndexOf, WeightsBefore, RemoveName;
    FirstOfTries(p, g, rest, c, o.live);
    if c in names && c != g {
      BeforeSame(p, q.smooth, rest, c, o.live);
      if c in rest {
        StandingNext(p, q, c, o.live, IndexOf(rest, c) + 1);
      } else {
        StandingNext(p, q, c, o.live, |rest|);
      }
    }
  }

  lemma FirstOfTries<F>(p: Pool<F>, g: GroupName, rest: seq<GroupName>, c: GroupName, live: set<WorkerId>)
    ensures IndexOf([g] + rest, c) == if c == g then 0 else IndexOf(rest, c) + 1
    ensures WeightsBefore(p, [g] + rest, c, live) ==
              if c == g then 0 else Weight(p, g, live) + WeightsBefore(p, rest, c, live)
  {
    assert ([g] + rest)[1..] == rest;
    hide Weight;
  }

  /** One turn of the loop. */
  lemma DispatchOne<F>(p: Pool<F>, t: TaskId, names: seq<GroupName>, o: Oracle)
    requires names != []
    ensures var (g, q) := SelectGroup(p, names, o.live);
      match FirstAccepting(g, Ordered(q, g, o.live), o.accepts)
      case Some(i) =>
         Dispatch(p, t, names, o).1 == Assigned(WorkerId(g, i)) && Dispatch(p, t, names, o).0.smooth == q.smooth
      case None => g in names && Dispatch(p, t, names, o) == Dispatch(q, t, RemoveName(names, g), o)
  {
    SelectFacts(p, names, o.live);
    hide SelectGroup;
  }

  /** Every dispatch is explained by the groups it tried: which ones, why in this order, with what
      result, and what it left of the smooth weights. */
  lemma {:induction false} DispatchTries<F>(p: Pool<F>, t: TaskId, names: seq<GroupName>, o: Oracle)
    returns (tries: seq<GroupName>)
    requires Distinct(names) && Distinct(p.groups) && forall g :: g in names ==> g in p.groups
    ensures var (q, out) := Dispatch(p, t, names, o);
      Tried(p, names, o, tries, out) && Paid(p, names, o, tries, q.smooth)
    decreases |names|
  {
    hide Tried, Paid, SelectGroup, Refuses, AheadAt, Standing, Weights, Distinct, Assign, Ordered;
    if names == [] {
      tries := [];
      NoTries(p, o);
    } else {
      var (g, q) := SelectGroup(p, names, o.live);
      forall c
        ensures g in names && q == p.(smooth := q.smooth) && (c in names && c != g ==> AheadAt(p, o.live, 1, g, c))
        ensures At(q.smooth, c) == (if c in names then Standing(p, c, o.live, 1) else At(p.smooth, c))
                                   - (if c == g then Weights(p, names, o.live) else 0)
      {
        FirstChoice(p, names, o.live, c);
      }
      RefusesOrNot(p, q.smooth, g, o);
      DispatchOne(p, t, names, o);
      match FirstAccepting(g, Ordered(q, g, o.live), o.accepts) {
        case Some(i) =>
          tries := [g];
          OneTry(p, q, names, o, WorkerId(g, i));
        case None =>
          RemoveKeepsDistinct(names, g);
          var rest := DispatchTries(q, t, RemoveName(names, g), o);
          tries := [g] + rest;
          TriedNext(p, q, names, o, g, rest, Dispatch(p, t, names, o).1);
          NotTriedAgain(q, names, o, g, rest, Dispatch(p, t, names, o).1);
          PaidNext(p, q, names, o, g, rest, Dispatch(p, t, names, o).0.smooth);
      }
    }
  }

  lemma RemoveKeepsDistinct(names: seq<GroupName>, g: GroupName)
    requires Distinct(names)
    ensures Distinct(RemoveName(names, g))
  {
    RemoveDistinctNames(names, g);
  }

  lemma NotTriedAgain<F>(q: Pool<F>, names: seq<GroupName>, o: Oracle, g: GroupName, rest: seq<GroupName>, out: Outcome)
    requires Distinct(names) && Tried(q, RemoveName(names, g), o, rest, out)
    ensures g !in rest
  {
    RemoveDistinctNames(names, g);
    hide Refuses, AheadAt;
  }

  lemma NoTries<F>(p: Pool<F>, o: Oracle)
    ensures Tried(p, [], o, [], Rejected(WorkerUnavailable)) && Paid(p, [], o, [], p.smooth)
  {
  }

  lemma OneTry<F>(p: Pool<F>, q: Pool<F>, names: seq<GroupName>, o: Oracle, w: WorkerId)
    requires w.group in names && !Refuses(p, w.group, o) && q == p.(smooth := q.smooth)
    requires forall c :: c in names && c != w.group ==> AheadAt(p, o.live, 1, w.group, c)
    requires forall c :: At(q.smooth, c) == (if c in names then Standing(p, c, o.live, 1) else At(p.smooth, c))
                                            - (if c == w.group then Weights(p, names, o.live) else 0)
    ensures Tried(p, names, o, [w.group], Assigned(w)) && Paid(p, names, o, [w.group], q.smooth)
  {
    hide Refuses, AheadAt, Weights, Standing;
    var tries := [w.group];
    assert tries[..1] == tries;
    assert forall c :: c in tries ==> IndexOf(tries, c) == 0 && WeightsBefore(p, tries, c, o.live) == 0;
  }
}
