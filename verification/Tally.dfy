/** Counts per worker, their sum over a group, and when they are level. */
module Tally {
  import opened SmoothRoundRobin
  import opened PoolModel

  type Counts = map<WorkerId, nat>

  function Of(m: Counts, g: GroupName, i: nat): nat {
    if WorkerId(g, i) in m then m[WorkerId(g, i)] else 0
  }

  function Total(m: Counts, g: GroupName, xs: seq<nat>): nat {
    if xs == [] then 0 else Of(m, g, xs[0]) + Total(m, g, xs[1..])
  }

  /** No count of the group is more than one ahead of another. */
  predicate Level(m: Counts, g: GroupName, xs: seq<nat>) {
    forall i, j :: i in xs && j in xs ==> Of(m, g, i) <= Of(m, g, j) + 1
  }

  predicate Increasing(xs: seq<nat>) {
    forall j, k :: 0 <= j < k < |xs| ==> xs[j] < xs[k]
  }

  /** One more for a worker and the same for all others. */
  ghost predicate OneMore(m: Counts, m': Counts, w: WorkerId) {
    forall g, j :: Of(m', g, j) == Of(m, g, j) + if w == WorkerId(g, j) then 1 else 0
  }

  lemma {:induction false} TotalSame(m: Counts, m': Counts, g: GroupName, xs: seq<nat>)
    requires forall j :: j in xs ==> Of(m', g, j) == Of(m, g, j)
    ensures Total(m', g, xs) == Total(m, g, xs)
  {
    if xs != [] { TotalSame(m, m', g, xs[1..]); }
  }

  lemma {:induction false} TotalPlus(m: Counts, m': Counts, g: GroupName, xs: seq<nat>, i: nat)
    requires Increasing(xs) && i in xs
    requires forall j :: j in xs ==> Of(m', g, j) == Of(m, g, j) + if j == i then 1 else 0
    ensures Total(m', g, xs) == Total(m, g, xs) + 1
  {
    if xs[0] == i {
      assert i !in xs[1..];
      TotalSame(m, m', g, xs[1..]);
    } else {
      TotalPlus(m, m', g, xs[1..], i);
    }
  }

  lemma TotalOneMore(m: Counts, m': Counts, g: GroupName, xs: seq<nat>, w: WorkerId)
    requires Increasing(xs) && OneMore(m, m', w) && (w.group == g ==> w.index in xs)
    ensures Total(m', g, xs) == Total(m, g, xs) + if w.group == g then 1 else 0
  {
    if w.group == g {
      assert w == WorkerId(g, w.index);
      TotalPlus(m, m', g, xs, w.index);
    } else {
      TotalSame(m, m', g, xs);
    }
  }

  /** Giving one more to a worker with the least count keeps the counts level. */
  lemma LevelOneMore(m: Counts, m': Counts, g: GroupName, xs: seq<nat>, w: WorkerId)
    requires Level(m, g, xs) && OneMore(m, m', w)
    requires w.group == g ==> w.index in xs && forall j :: j in xs ==> Of(m, g, w.index) <= Of(m, g, j)
    ensures Level(m', g, xs)
  {
  }

  lemma {:induction false} TotalBelow(m: Counts, g: GroupName, xs: seq<nat>, k: nat)
    requires forall j :: j in xs ==> Of(m, g, j) <= k
    ensures Total(m, g, xs) <= k * |xs|
    ensures (exists j :: j in xs && Of(m, g, j) < k) ==> Total(m, g, xs) < k * |xs|
  {
    if xs != [] {
      TotalBelow(m, g, xs[1..], k);
      Distribute(k, |xs| - 1, 1);
    }
  }

  lemma {:induction false} TotalAbove(m: Counts, g: GroupName, xs: seq<nat>, k: nat)
    requires forall j :: j in xs ==> Of(m, g, j) >= k
    ensures Total(m, g, xs) >= k * |xs|
    ensures (exists j :: j in xs && Of(m, g, j) > k) ==> Total(m, g, xs) > k * |xs|
  {
    if xs != [] {
      TotalAbove(m, g, xs[1..], k);
      Distribute(k, |xs| - 1, 1);
    }
  }

  /** Level counts that add up to k each are all k. */
  lemma LevelIsEqual(m: Counts, g: GroupName, xs: seq<nat>, k: nat, i: nat)
    requires Level(m, g, xs) && Total(m, g, xs) == k * |xs| && i in xs
    ensures Of(m, g, i) == k
  {
    if Of(m, g, i) > k { TotalAbove(m, g, xs, k); }
    if Of(m, g, i) < k { TotalBelow(m, g, xs, k); }
  }

  lemma {:induction false} TotalZero(m: Counts, g: GroupName, xs: seq<nat>)
    requires forall j :: j in xs ==> Of(m, g, j) == 0
    ensures Total(m, g, xs) == 0 && Level(m, g, xs)
  {
    if xs != [] { TotalZero(m, g, xs[1..]); }
  }
}
