/** Normalisation fails exactly on cycles and on unsupported values. */
module CacheKeyCycles {
  import opened Core
  import opened CacheKey
  import opened CacheKeyText
  import opened CacheKeyMeaning

  /** A walk along the edges of the graph. */
  ghost predicate Walk(g: Graph, path: seq<Id>) {
    && path != [] && (forall i :: 0 <= i < |path| ==> path[i] in g.nodes)
    && forall i :: 0 <= i < |path| - 1 ==> Child(g.nodes[path[i]], path[i + 1])
  }

  ghost predicate Leads(g: Graph, path: seq<Id>, a: Id, b: Id) {
    Walk(g, path) && path[0] == a && path[|path| - 1] == b
  }

  ghost predicate Reaches(g: Graph, a: Id, b: Id) {
    exists path :: Leads(g, path, a, b)
  }

  /** A walk of at least one edge from the node back to itself. */
  ghost predicate OnCycle(g: Graph, m: Id) {
    exists path :: Leads(g, path, m, m) && |path| > 1
  }

  ghost predicate CycleFrom(g: Graph, n: Id) {
    exists m :: Reaches(g, n, m) && OnCycle(g, m)
  }

  ghost predicate UnsupportedFrom(g: Graph, n: Id) {
    exists m :: Reaches(g, n, m) && m in g.nodes && g.nodes[m].Unsupported?
  }

  // ---------- an accepted graph has neither ----------

  lemma {:induction false} FiniteAlong(g: Graph, path: seq<Id>, k: nat)
    requires Walk(g, path) && Finite(g, path[0], k)
    ensures |path| <= k && Finite(g, path[|path| - 1], k - (|path| - 1))
    decreases |path|
  {
    if |path| > 1 {
      assert Child(g.nodes[path[0]], path[0 + 1]);
      FiniteAlong(g, path[1..], k - 1);
    }
  }

  lemma {:induction false} CyclicIsInfinite(g: Graph, m: Id, path: seq<Id>, k: nat)
    requires Leads(g, path, m, m) && |path| > 1
    ensures !Finite(g, m, k)
    decreases k
  {
    if Finite(g, m, k) {
      FiniteAlong(g, path, k);
      CyclicIsInfinite(g, m, path, k - (|path| - 1));
    }
  }

  lemma FiniteIsClean(g: Graph, n: Id, k: nat)
    requires Finite(g, n, k)
    ensures !CycleFrom(g, n) && !UnsupportedFrom(g, n)
  {
    forall m | Reaches(g, n, m) ensures !OnCycle(g, m) && !(m in g.nodes && g.nodes[m].Unsupported?) {
      var path :| Leads(g, path, n, m);
      FiniteAlong(g, path, k);
      if OnCycle(g, m) {
        var cycle :| Leads(g, cycle, m, m) && |cycle| > 1;
        CyclicIsInfinite(g, m, cycle, k - (|path| - 1));
      }
    }
  }

  // ---------- a rejected graph has one ----------

  /** The search fails with a reason: a node of the stack or of a cycle can be reached, or an
      unsupported value can. */
  ghost predicate Reason(g: Graph, n: Id, seen: set<Id>, e: Failure) {
    match e
    case Recursive => CycleFrom(g, n) || exists m :: m in seen && Reaches(g, n, m)
    case UnsupportedType(_) => UnsupportedFrom(g, n)
  }

  lemma Prepend(g: Graph, n: Id, c: Id, m: Id)
    requires n in g.nodes && Child(g.nodes[n], c) && Reaches(g, c, m)
    ensures exists path :: Leads(g, path, n, m) && |path| > 1
  {
    var path :| Leads(g, path, c, m);
    var longer := [n] + path;
    forall i | 0 <= i < |longer| - 1 ensures Child(g.nodes[longer[i]], longer[i + 1]) {
      if i > 0 { assert Child(g.nodes[path[i - 1]], path[i - 1 + 1]); }
    }
    assert Leads(g, longer, n, m) && |longer| > 1;
  }

  lemma ReachesSelf(g: Graph, n: Id)
    requires n in g.nodes
    ensures Reaches(g, n, n)
  {
    assert Leads(g, [n], n, n);
  }

  /** A child's reason is the node's reason, once the node itself is off the stack. */
  lemma ReasonUp(g: Graph, n: Id, c: Id, seen: set<Id>, pushed: set<Id>, e: Failure)
    requires n in g.nodes && Child(g.nodes[n], c) && Reason(g, c, pushed, e) && pushed <= seen + {n}
    ensures Reason(g, n, seen, e)
  {
    ReachesSelf(g, n);
    if e.UnsupportedType? {
      var m :| Reaches(g, c, m) && m in g.nodes && g.nodes[m].Unsupported?;
      Prepend(g, n, c, m);
      assert Reaches(g, n, m);
    } else if CycleFrom(g, c) {
      var m :| Reaches(g, c, m) && OnCycle(g, m);
      Prepend(g, n, c, m);
      assert Reaches(g, n, m);
    } else {
      var m :| m in pushed && Reaches(g, c, m);
      Prepend(g, n, c, m);
      assert m == n ==> OnCycle(g, n);
      assert Reaches(g, n, m);
    }
  }

  lemma LeafReason(g: Graph, n: Id, seen: set<Id>, cls: string)
    requires n in g.nodes
    ensures n in seen ==> Reason(g, n, seen, Recursive)
    ensures g.nodes[n].Unsupported? ==> Reason(g, n, seen, UnsupportedType(cls))
  {
    ReachesSelf(g, n);
  }

  lemma {:induction false} Fails(g: Graph, n: Id, seen: set<Id>)
    requires Closed(g) && n in g.nodes && Normalize(g, n, seen).Err?
    ensures Reason(g, n, seen, Normalize(g, n, seen).error)
    decreases |g.nodes.Keys - seen|, Rank(g, n), 1, 0
  {
    hide Reason;
    var node := g.nodes[n];
    if Tracked(node) {
      if n in seen {
        LeafReason(g, n, seen, "");
      } else if node.SetOf? {
        SetFails(g, n, seen);
      } else {
        TrackedFails(g, n, seen);
      }
    } else if node.Unsupported? {
      LeafReason(g, n, seen, node.cls);
    } else if node.Enum? {
      assert Child(node, node.value);
      Fails(g, node.value, seen);
      ReasonUp(g, n, node.value, seen, seen, Normalize(g, n, seen).error);
    } else if node.Record? {
      assert forall item :: item in node.fields ==> Child(node, item.value);
      var c := ItemFails(g, SortItems(node.fields), seen, Rank(g, n));
      ReasonUp(g, n, c, seen, seen, Normalize(g, n, seen).error);
    }
  }

  lemma {:induction false} TrackedFails(g: Graph, n: Id, seen: set<Id>)
    requires Closed(g) && n in g.nodes && Normalize(g, n, seen).Err? && n !in seen
    requires Tracked(g.nodes[n]) && !g.nodes[n].SetOf?
    ensures Reason(g, n, seen, Normalize(g, n, seen).error)
    decreases |g.nodes.Keys - seen|, Rank(g, n), 0, 0
  {
    hide Reason;
    Pushed(g, n, seen);
    var e := Normalize(g, n, seen).error;
    match g.nodes[n]
    case Mapping(items) => {
      assert forall item :: item in items ==> Child(g.nodes[n], item.value);
      var c := ItemFails(g, SortItems(items), seen + {n}, g.height);
      ReasonUp(g, n, c, seen, seen + {n}, e);
    }
    case List(elements) => {
      assert forall c :: c in elements ==> Child(g.nodes[n], c);
      var c := ListFails(g, elements, seen + {n});
      ReasonUp(g, n, c, seen, seen + {n}, e);
    }
    case Object(_, state) => {
      assert Child(g.nodes[n], state);
      Fails(g, state, seen + {n});
      ReasonUp(g, n, state, seen, seen + {n}, e);
    }
  }

  lemma {:induction false} SetFails(g: Graph, n: Id, seen: set<Id>)
    requires Closed(g) && n in g.nodes && Normalize(g, n, seen).Err? && n !in seen && g.nodes[n].SetOf?
    ensures Reason(g, n, seen, Normalize(g, n, seen).error)
    decreases |g.nodes.Keys - seen|, Rank(g, n), 0, 0
  {
    ValuesOf(g, n);
    hide Reason, Closed;
    Pushed(g, n, seen);
    var c := ListFails(g, g.nodes[n].members, seen + {n});
    ReasonUp(g, n, c, seen, seen + {n}, Normalize(g, n, seen).error);
  }

  lemma {:induction false} ItemFails(g: Graph, items: seq<Item>, seen: set<Id>, bound: nat) returns (c: Id)
    requires Closed(g) && ItemsIn(g, items, bound) && NormalizeItems(g, items, seen, bound).Err?
    ensures (exists item :: item in items && item.value == c)
    ensures Reason(g, c, seen, NormalizeItems(g, items, seen, bound).error)
    decreases |g.nodes.Keys - seen|, bound, 0, |items|
  {
    var n := |items| - 1;
    assert items[n] in items;
    if NormalizeItems(g, items[..n], seen, bound).Err? {
      c := ItemFails(g, items[..n], seen, bound);
    } else {
      c := items[n].value;
      Fails(g, c, seen);
    }
  }

  lemma {:induction false} ListFails(g: Graph, ids: seq<Id>, seen: set<Id>) returns (c: Id)
    requires Closed(g) && IdsIn(g, ids) && NormalizeList(g, ids, seen).Err?
    ensures c in ids && Reason(g, c, seen, NormalizeList(g, ids, seen).error)
    decreases |g.nodes.Keys - seen|, g.height, 0, |ids|
  {
    var n := |ids| - 1;
    if NormalizeList(g, ids[..n], seen).Err? {
      c := ListFails(g, ids[..n], seen);
    } else {
      c := ids[n];
      Fails(g, c, seen);
    }
  }

  // ---------- an accepted graph is a finite tree ----------

  lemma {:induction false} Accepted(g: Graph, n: Id, seen: set<Id>) returns (k: nat)
    requires Closed(g) && n in g.nodes && Normalize(g, n, seen).Ok?
    ensures Finite(g, n, k)
    decreases |g.nodes.Keys - seen|, Rank(g, n), 1, 0
  {
    if n !in seen { Pushed(g, n, seen); }
    hide Finite;
    k := 0;
    match g.nodes[n] {
      case Enum(_, v) =>
        assert Child(g.nodes[n], v);
        k := Accepted(g, v, seen);
      case Record(_, fields) =>
        assert forall item :: item in fields ==> Child(g.nodes[n], item.value);
        k := ItemsAccepted(g, SortItems(fields), seen, Rank(g, n));
      case Mapping(items) =>
        assert forall item :: item in items ==> Child(g.nodes[n], item.value);
        k := ItemsAccepted(g, SortItems(items), seen + {n}, g.height);
      case List(elements) =>
        assert forall c :: c in elements ==> Child(g.nodes[n], c);
        k := ListAccepted(g, elements, seen + {n});
      case SetOf(_) => k := SetAccepted(g, n, seen);
      case Object(_, state) =>
        assert Child(g.nodes[n], state);
        k := Accepted(g, state, seen + {n});
      case _ =>
    }
    assert forall c :: Child(g.nodes[n], c) ==> Finite(g, c, k);
    FiniteFrom(g, n, k);
    k := k + 1;
  }

  lemma {:induction false} SetAccepted(g: Graph, n: Id, seen: set<Id>) returns (k: nat)
    requires Closed(g) && n in g.nodes && n !in seen && g.nodes[n].SetOf? && Normalize(g, n, seen).Ok?
    ensures forall c :: Child(g.nodes[n], c) ==> Finite(g, c, k)
    decreases |g.nodes.Keys - seen|, Rank(g, n), 0, 0
  {
    ValuesOf(g, n);
    hide Finite, Closed;
    Pushed(g, n, seen);
    k := ListAccepted(g, g.nodes[n].members, seen + {n});
  }

  lemma FiniteFrom(g: Graph, n: Id, k: nat)
    requires n in g.nodes && !g.nodes[n].Unsupported? && forall c :: Child(g.nodes[n], c) ==> Finite(g, c, k)
    ensures Finite(g, n, k + 1)
  {
  }

  lemma {:induction false} ItemsAccepted(g: Graph, items: seq<Item>, seen: set<Id>, bound: nat) returns (k: nat)
    requires Closed(g) && ItemsIn(g, items, bound) && NormalizeItems(g, items, seen, bound).Ok?
    ensures ItemsFinite(g, items, k)
    decreases |g.nodes.Keys - seen|, bound, 0, |items|
  {
    k := 0;
    if items != [] {
      var n := |items| - 1;
      assert items[n] in items;
      var i := ItemsAccepted(g, items[..n], seen, bound);
      var j := Accepted(g, items[n].value, seen);
      k := if i < j then j else i;
      forall item | item in items ensures Finite(g, item.value, k) {
        if item in items[..n] {
          FiniteMore(g, item.value, i, k);
        } else {
          FiniteMore(g, item.value, j, k);
        }
      }
    }
  }

  lemma {:induction false} ListAccepted(g: Graph, ids: seq<Id>, seen: set<Id>) returns (k: nat)
    requires Closed(g) && IdsIn(g, ids) && NormalizeList(g, ids, seen).Ok?
    ensures ListFinite(g, ids, k)
    decreases |g.nodes.Keys - seen|, g.height, 0, |ids|
  {
    k := 0;
    if ids != [] {
      var n := |ids| - 1;
      var i := ListAccepted(g, ids[..n], seen);
      var j := Accepted(g, ids[n], seen);
      k := if i < j then j else i;
      forall c | c in ids ensures Finite(g, c, k) {
        if c in ids[..n] {
          FiniteMore(g, c, i, k);
        } else {
          FiniteMore(g, c, j, k);
        }
      }
    }
  }

  /** Normalisation fails if and only if a cycle or an unsupported value can be reached; mere
      sharing never fails. When it succeeds the result is the meaning of the finite unfolding,
      and the error says which of the two it met. */
  lemma FailsExactlyOnCycles(g: Graph, n: Id)
    requires Closed(g) && n in g.nodes
    ensures Normalize(g, n, {}).Err? <==> CycleFrom(g, n) || UnsupportedFrom(g, n)
    ensures Normalize(g, n, {}) == Err(Recursive) ==> CycleFrom(g, n)
    ensures Normalize(g, n, {}).Err? && Normalize(g, n, {}) != Err(Recursive) ==> UnsupportedFrom(g, n)
    ensures Normalize(g, n, {}).Ok? <==> exists k :: Finite(g, n, k)
    ensures forall k :: Finite(g, n, k) ==> Normalize(g, n, {}) == Ok(Denote(g, n, k))
  {
    forall k | Finite(g, n, k) ensures Normalize(g, n, {}) == Ok(Denote(g, n, k)) { Computes(g, n, {}, k); }
    if Normalize(g, n, {}).Ok? {
      var k := Accepted(g, n, {});
      FiniteIsClean(g, n, k);
      assert exists i :: Finite(g, n, i);
    } else {
      Fails(g, n, {});
    }
  }
}
