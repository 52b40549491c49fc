/**
 Smooth weighted round-robin over worker groups. A selection adds every candidate's weight to
 its smooth weight, picks the largest and charges it the total.
 */
module SmoothRoundRobin {

  datatype GroupName = GroupName(text: string)

  type Weights = map<GroupName, int>

  /** A defaultdict(int). */
  function At(m: Weights, g: GroupName): int {
    if g in m then m[g] else 0
  }

  predicate Distinct(names: seq<GroupName>) {
    forall i, j :: 0 <= i < j < |names| ==> names[i] != names[j]
  }

  function Sum(m: Weights, names: seq<GroupName>): int {
    if names == [] then 0 else At(m, names[0]) + Sum(m, names[1..])
  }

  /** The loop over the candidates: add each weight. */
  function Bump(smooth: Weights, weights: Weights, names: seq<GroupName>): Weights
    decreases names
  {
    if names == [] then smooth
    else Bump(smooth[names[0] := At(smooth, names[0]) + At(weights, names[0])], weights, names[1..])
  }

  /** Position in the insertion order of the registered groups. */
  function IndexOf(order: seq<GroupName>, g: GroupName): nat {
    if order == [] || order[0] == g then 0 else 1 + IndexOf(order[1..], g)
  }

  predicate Better(smooth: Weights, order: seq<GroupName>, a: GroupName, b: GroupName) {
    At(smooth, a) > At(smooth, b) || (At(smooth, a) == At(smooth, b) && IndexOf(order, a) < IndexOf(order, b))
  }

  /** max() with the key (smooth weight, -position): the first candidate no later one beats. */
  function Largest(smooth: Weights, order: seq<GroupName>, names: seq<GroupName>): (g: GroupName)
    requires names != []
    ensures g in names
    ensures forall h :: h in names ==> At(smooth, h) <= At(smooth, g)
  {
    if |names| == 1 then names[0]
    else
      var g := Largest(smooth, order, names[..|names| - 1]);
      var last := names[|names| - 1];
      assert names == names[..|names| - 1] + [last];
      if Better(smooth, order, last, g) then last else g
  }

  function Selected(smooth: Weights, weights: Weights, order: seq<GroupName>, names: seq<GroupName>): GroupName
    requires names != []
  {
    Largest(Bump(smooth, weights, names), order, names)
  }

  /** The smooth weights after a selection. */
  function Charged(smooth: Weights, weights: Weights, order: seq<GroupName>, names: seq<GroupName>): Weights
    requires names != []
  {
    var bumped := Bump(smooth, weights, names);
    var g := Largest(bumped, order, names);
    bumped[g := At(bumped, g) - Sum(weights, names)]
  }

  // ---------- sums ----------

  lemma {:induction false} BumpAt(smooth: Weights, weights: Weights, names: seq<GroupName>, g: GroupName)
    requires Distinct(names)
    ensures At(Bump(smooth, weights, names), g) == At(smooth, g) + if g in names then At(weights, g) else 0
    decreases names
  {
    if names != [] {
      BumpAt(smooth[names[0] := At(smooth, names[0]) + At(weights, names[0])], weights, names[1..], g);
      if g == names[0] { assert g !in names[1..]; }
    }
  }

  lemma {:induction false} SumCharge(m: Weights, names: seq<GroupName>, g: GroupName, d: int)
    requires Distinct(names)
    ensures Sum(m[g := At(m, g) - d], names) == Sum(m, names) - if g in names then d else 0
  {
    if names != [] {
      SumCharge(m, names[1..], g, d);
      if g == names[0] { assert g !in names[1..]; }
    }
  }

  lemma {:induction false} SumAgree(m: Weights, n: Weights, names: seq<GroupName>)
    requires forall g :: g in names ==> At(m, g) == At(n, g)
    ensures Sum(m, names) == Sum(n, names)
  {
    if names != [] { SumAgree(m, n, names[1..]); }
  }

  lemma {:induction false} SumBump(smooth: Weights, weights: Weights, names: seq<GroupName>, all: seq<GroupName>)
    requires Distinct(names) && Distinct(all) && forall g :: g in names ==> g in all
    ensures Sum(Bump(smooth, weights, names), all) == Sum(smooth, all) + Sum(weights, names)
    decreases names
  {
    if names != [] {
      var g := names[0];
      var next := smooth[g := At(smooth, g) + At(weights, g)];
      SumCharge(smooth, all, g, -At(weights, g));
      assert next == smooth[g := At(smooth, g) - -At(weights, g)];
      SumBump(next, weights, names[1..], all);
    }
  }

  /** A selection over any subset of the groups leaves the sum of all smooth weights alone. */
  lemma SelectionConserves(smooth: Weights, weights: Weights, order: seq<GroupName>, names: seq<GroupName>,
                           all: seq<GroupName>)
    requires names != [] && Distinct(names) && Distinct(all) && forall g :: g in names ==> g in all
    ensures Sum(Charged(smooth, weights, order, names), all) == Sum(smooth, all)
  {
    var bumped := Bump(smooth, weights, names);
    SumBump(smooth, weights, names, all);
    SumCharge(bumped, all, Largest(bumped, order, names), Sum(weights, names));
  }

  // ---------- a run of selections with constant weights ----------

  datatype Round = Round(smooth: Weights, picks: Weights)

  /** One selection and its charge. */
  function Turn(r: Round, weights: Weights, order: seq<GroupName>, names: seq<GroupName>): Round
    requires names != []
  {
    var g := Selected(r.smooth, weights, order, names);
    Round(Charged(r.smooth, weights, order, names), r.picks[g := At(r.picks, g) + 1])
  }

  function Rounds(start: Weights, weights: Weights, order: seq<GroupName>, names: seq<GroupName>, n: nat): Round
    requires names != []
  {
    if n == 0 then Round(start, map[]) else Turn(Rounds(start, weights, order, names, n - 1), weights, order, names)
  }

  /** How far a group of weight w is behind its share after n selections, times the total. */
  function Lag(n: int, w: int, total: int, picks: int): int {
    n * w - total * picks
  }

  /** The smooth weight of a group is its lag, and no group is a whole total behind. */
  predicate GroupFair(r: Round, weights: Weights, total: int, n: nat, g: GroupName) {
    At(r.smooth, g) == Lag(n, At(weights, g), total, At(r.picks, g)) && At(r.smooth, g) > -total
  }

  ghost predicate Fair(r: Round, weights: Weights, names: seq<GroupName>, n: nat) {
    var total := Sum(weights, names);
    && Sum(r.smooth, names) == 0 && Sum(r.picks, names) == n
    && forall g :: g in names ==> GroupFair(r, weights, total, n, g)
  }

  lemma {:induction false} SumPositive(m: Weights, names: seq<GroupName>)
    requires Sum(m, names) > 0
    ensures exists g :: g in names && At(m, g) > 0
  {
    assert names != [];
    if At(m, names[0]) <= 0 {
      SumPositive(m, names[1..]);
      var g :| g in names[1..] && At(m, g) > 0;
      assert g in names;
    }
  }

  lemma StartFair(start: Weights, weights: Weights, names: seq<GroupName>)
    requires Sum(weights, names) > 0 && forall g :: g in names ==> At(start, g) == 0
    ensures Fair(Round(start, map[]), weights, names, 0)
  {
    SumAgree(start, map[], names);
    SumZero(names);
  }

  lemma RoundsNext(start: Weights, weights: Weights, order: seq<GroupName>, names: seq<GroupName>, n: nat)
    requires names != []
    ensures n == 0 ==> Rounds(start, weights, order, names, n) == Round(start, map[])
    ensures n > 0 ==> Rounds(start, weights, order, names, n) ==
                        Turn(Rounds(start, weights, order, names, n - 1), weights, order, names)
  {
  }

  lemma {:induction false} RoundsFair(start: Weights, weights: Weights, order: seq<GroupName>, names: seq<GroupName>,
                                      n: nat)
    requires names != [] && Distinct(names) && Sum(weights, names) > 0
    requires forall g :: g in names ==> At(start, g) == 0 && At(weights, g) >= 0
    ensures Fair(Rounds(start, weights, order, names, n), weights, names, n)
  {
    hide Turn, Fair, Rounds, Sum, Distinct, At;
    RoundsNext(start, weights, order, names, n);
    if n == 0 {
      StartFair(start, weights, names);
    } else {
      RoundsFair(start, weights, order, names, n - 1);
      FairStep(Rounds(start, weights, order, names, n - 1), weights, order, names, n - 1);
    }
  }

  lemma {:induction false} SumZero(names: seq<GroupName>)
    ensures Sum(map[], names) == 0
  {
    if names != [] { SumZero(names[1..]); }
  }

  lemma FairSums(r: Round, weights: Weights, order: seq<GroupName>, names: seq<GroupName>, n: nat)
    requires names != [] && Distinct(names) && Sum(weights, names) > 0
    requires Sum(r.smooth, names) == 0 && Sum(r.picks, names) == n
    ensures var next := Turn(r, weights, order, names); Sum(next.smooth, names) == 0 && Sum(next.picks, names) == n + 1
    ensures var bumped := Bump(r.smooth, weights, names); At(bumped, Largest(bumped, order, names)) > 0
  {
    var bumped := Bump(r.smooth, weights, names);
    var g := Selected(r.smooth, weights, order, names);
    SelectionConserves(r.smooth, weights, order, names, names);
    SumBump(r.smooth, weights, names, names);
    SumPositive(bumped, names);
    SumCharge(r.picks, names, g, -1);
    assert r.picks[g := At(r.picks, g) + 1] == r.picks[g := At(r.picks, g) - -1];
  }

  lemma FairStep(r: Round, weights: Weights, order: seq<GroupName>, names: seq<GroupName>, n: nat)
    requires names != [] && Distinct(names) && Sum(weights, names) > 0 && Fair(r, weights, names, n)
    requires forall g :: g in names ==> At(weights, g) >= 0
    ensures Fair(Turn(r, weights, order, names), weights, names, n + 1)
  {
    hide GroupFair, Sum, Charged, Selected, Bump, Largest;
    FairSums(r, weights, order, names, n);
    forall h | h in names ensures GroupFair(Turn(r, weights, order, names), weights, Sum(weights, names), n + 1, h) {
      GroupStep(r, weights, order, names, n, h);
    }
  }

  lemma GroupStep(r: Round, weights: Weights, order: seq<GroupName>, names: seq<GroupName>, n: nat, h: GroupName)
    requires names != [] && Distinct(names) && h in names && GroupFair(r, weights, Sum(weights, names), n, h)
    requires At(weights, h) >= 0
    requires var bumped := Bump(r.smooth, weights, names); At(bumped, Largest(bumped, order, names)) > 0
    ensures GroupFair(Turn(r, weights, order, names), weights, Sum(weights, names), n + 1, h)
  {
    hide Bump, Sum, Largest;
    BumpAt(r.smooth, weights, names, h);
    Distribute(Sum(weights, names), At(r.picks, h), 1);
    Distribute(At(weights, h), n, 1);
  }

  lemma Distribute(a: int, b: int, c: int)
    ensures a * (b + c) == a * b + a * c
    ensures (b + c) * a == b * a + c * a
  {
  }

  /** Exact over a period: after k times the total weight, every group was picked exactly k
      times its weight and every smooth weight is zero again. */
  lemma ExactOverPeriods(start: Weights, weights: Weights, order: seq<GroupName>, names: seq<GroupName>, k: nat)
    requires names != [] && Distinct(names) && Sum(weights, names) > 0
    requires forall g :: g in names ==> At(start, g) == 0 && At(weights, g) >= 0
    ensures 0 <= k * Sum(weights, names)
    ensures var r := Rounds(start, weights, order, names, k * Sum(weights, names));
      forall g :: g in names ==> At(r.picks, g) == k * At(weights, g) && At(r.smooth, g) == 0
  {
    var total := Sum(weights, names);
    var n: nat := k * total;
    RoundsFair(start, weights, order, names, n);
    var r := Rounds(start, weights, order, names, n);
    forall g | g in names ensures At(r.picks, g) <= k * At(weights, g) {
      Periods(total, k, At(weights, g), At(r.picks, g));
    }
    SumScaled(r.picks, weights, names, k);
    forall g | g in names ensures At(r.picks, g) == k * At(weights, g) && At(r.smooth, g) == 0 {
      Reorder(total, k, At(weights, g));
    }
  }

  lemma Reorder(a: int, k: int, w: int)
    ensures (k * a) * w == a * (k * w)
  {
  }

  lemma Periods(total: int, k: int, w: int, picks: int)
    requires total > 0 && (k * total) * w - total * picks > -total
    ensures picks <= k * w
  {
    Reorder(total, k, w);
    assert total * (k * w) - total * picks == total * (k * w - picks) by { Distribute(total, k * w, -picks); }
    if picks > k * w {
      MulMono(total, k * w - picks, -1);
    }
  }

  lemma MulMono(a: int, b: int, c: int)
    requires a > 0 && b <= c
    ensures a * b <= a * c
  {
  }

  /** Numbers bounded termwise by k times the weights, with the same sum, are equal to them. */
  lemma {:induction false} SumScaled(picks: Weights, weights: Weights, names: seq<GroupName>, k: int)
    requires forall g :: g in names ==> At(picks, g) <= k * At(weights, g)
    ensures Sum(picks, names) <= k * Sum(weights, names)
    ensures Sum(picks, names) == k * Sum(weights, names) ==>
              forall g :: g in names ==> At(picks, g) == k * At(weights, g)
  {
    if names != [] {
      SumScaled(picks, weights, names[1..], k);
      Distribute(k, At(weights, names[0]), Sum(weights, names[1..]));
    }
  }

  lemma {:induction false} SumBelow(m: Weights, names: seq<GroupName>, bound: int)
    requires forall g :: g in names ==> At(m, g) >= -bound
    ensures Sum(m, names) >= -(|names| * bound)
    ensures forall g :: g in names ==> Sum(m, names) >= At(m, g) - (|names| - 1) * bound
  {
    if names != [] {
      SumBelow(m, names[1..], bound);
      Distribute(bound, |names| - 1, 1);
      forall g | g in names ensures Sum(m, names) >= At(m, g) - (|names| - 1) * bound {
        if g != names[0] {
          assert g in names[1..];
          assert (|names| - 1) * bound == (|names[1..]| - 1) * bound + bound by { Distribute(bound, |names| - 2, 1); }
        }
      }
    }
  }

  /** Bounded drift at every prefix: after n selections no group is ahead of its share by a
      whole selection, nor behind by more than the others can be ahead together. */
  lemma BoundedDrift(start: Weights, weights: Weights, order: seq<GroupName>, names: seq<GroupName>, n: nat,
                     g: GroupName)
    requires names != [] && Distinct(names) && Sum(weights, names) > 0 && g in names
    requires forall h :: h in names ==> At(start, h) == 0 && At(weights, h) >= 0
    ensures var total := Sum(weights, names);
            var picks := At(Rounds(start, weights, order, names, n).picks, g);
      && total * picks < n * At(weights, g) + total
      && total * picks >= n * At(weights, g) - (|names| - 1) * (total - 1)
  {
    RoundsFair(start, weights, order, names, n);
    SumBelow(Rounds(start, weights, order, names, n).smooth, names, Sum(weights, names) - 1);
  }
}
