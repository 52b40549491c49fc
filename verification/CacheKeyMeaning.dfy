/** What normalisation means: the finite unfolding of an object graph, without a stack set. */
module CacheKeyMeaning {
  import opened Core
  import opened CacheKey
  import opened CacheKeyText

  /** The tree below n has height at most k and supported leaves. */
  ghost predicate Finite(g: Graph, n: Id, k: nat)
    decreases k
  {
    k > 0 && n in g.nodes && !g.nodes[n].Unsupported? && forall c :: Child(g.nodes[n], c) ==> Finite(g, c, k - 1)
  }

  ghost predicate ItemsFinite(g: Graph, items: seq<Item>, k: nat) {
    forall item :: item in items ==> Finite(g, item.value, k)
  }

  ghost predicate ListFinite(g: Graph, ids: seq<Id>, k: nat) {
    forall i :: i in ids ==> Finite(g, i, k)
  }

  /** The canonical value of the tree below n. */
  ghost function Denote(g: Graph, n: Id, k: nat): Canon
    requires Finite(g, n, k)
    decreases k, 1, 0
  {
    match g.nodes[n]
    case Str(text) => Text(text)
    case Constant(token) => Literal(token)
    case PathValue(text) => Dict(map["__path__" := Text(text)])
    case Bytes(text) => Dict(map["__bytes__" := Text(text)])
    case Enum(cls, v) =>
      assert Child(g.nodes[n], v);
      Tagged("__enum__", cls, "value", Denote(g, v, k - 1))
    case Record(cls, fields) =>
      assert forall item :: item in fields ==> Child(g.nodes[n], item.value);
      Tagged("__dataclass__", cls, "fields", Dict(DenoteItems(g, fields, k - 1)))
    case Mapping(items) =>
      assert forall item :: item in items ==> Child(g.nodes[n], item.value);
      Dict(DenoteItems(g, items, k - 1))
    case List(elements) =>
      assert forall c :: c in elements ==> Child(g.nodes[n], c);
      Array(DenoteList(g, elements, k - 1))
    case SetOf(members) =>
      assert forall c :: c in members ==> Child(g.nodes[n], c);
      Array(SortValues(DenoteList(g, members, k - 1)))
    case Object(cls, state) =>
      assert Child(g.nodes[n], state);
      Tagged("__object__", cls, "state", Denote(g, state, k - 1))
  }

  /** In insertion order; a later item replaces an earlier one with the same key text. */
  ghost function DenoteItems(g: Graph, items: seq<Item>, k: nat): map<string, Canon>
    requires ItemsFinite(g, items, k)
    decreases k, 2, |items|
  {
    if items == [] then map[]
    else
      var n := |items| - 1;
      DenoteItems(g, items[..n], k)[items[n].text := Denote(g, items[n].value, k)]
  }

  ghost function DenoteList(g: Graph, ids: seq<Id>, k: nat): seq<Canon>
    requires ListFinite(g, ids, k)
    decreases k, 2, |ids|
  {
    if ids == [] then [] else DenoteList(g, ids[..|ids| - 1], k) + [Denote(g, ids[|ids| - 1], k)]
  }

  /** The meaning of a node from that of its children. */
  lemma DenoteShape(g: Graph, n: Id, k: nat)
    requires Finite(g, n, k)
    ensures g.nodes[n].Enum? ==>
              && Finite(g, g.nodes[n].value, k - 1)
              && Denote(g, n, k) == Tagged("__enum__", g.nodes[n].cls, "value", Denote(g, g.nodes[n].value, k - 1))
    ensures g.nodes[n].Object? ==>
              && Finite(g, g.nodes[n].state, k - 1)
              && Denote(g, n, k) == Tagged("__object__", g.nodes[n].cls, "state", Denote(g, g.nodes[n].state, k - 1))
    ensures g.nodes[n].Record? ==>
              var fields := g.nodes[n].fields;
              && ItemsFinite(g, fields, k - 1)
              && Denote(g, n, k) ==
                   Tagged("__dataclass__", g.nodes[n].cls, "fields", Dict(DenoteItems(g, fields, k - 1)))
    ensures g.nodes[n].Mapping? ==>
              && ItemsFinite(g, g.nodes[n].items, k - 1)
              && Denote(g, n, k) == Dict(DenoteItems(g, g.nodes[n].items, k - 1))
    ensures g.nodes[n].List? ==>
              && ListFinite(g, g.nodes[n].elements, k - 1)
              && Denote(g, n, k) == Array(DenoteList(g, g.nodes[n].elements, k - 1))
    ensures g.nodes[n].SetOf? ==>
              && ListFinite(g, g.nodes[n].members, k - 1)
              && Denote(g, n, k) == Array(SortValues(DenoteList(g, g.nodes[n].members, k - 1)))
  {
    hide DenoteItems, DenoteList, SortValues, Tagged;
    match g.nodes[n]
    case Enum(_, v) => assert Child(g.nodes[n], v);
    case Object(_, v) => assert Child(g.nodes[n], v);
    case Record(_, fields) => assert forall item :: item in fields ==> Child(g.nodes[n], item.value);
    case Mapping(items) => assert forall item :: item in items ==> Child(g.nodes[n], item.value);
    case List(elements) => assert forall c :: c in elements ==> Child(g.nodes[n], c);
    case SetOf(members) => assert forall c :: c in members ==> Child(g.nodes[n], c);
    case _ =>
  }

  // ---------- the height does not matter ----------

  lemma {:induction false} FiniteMore(g: Graph, n: Id, k: nat, m: nat)
    requires Finite(g, n, k) && k <= m
    ensures Finite(g, n, m)
    decreases k
  {
    forall c | Child(g.nodes[n], c) ensures Finite(g, c, m - 1) { FiniteMore(g, c, k - 1, m - 1); }
  }

  lemma {:induction false} DenoteSame(g: Graph, n: Id, k: nat, m: nat)
    requires Finite(g, n, k) && Finite(g, n, m) && k <= m
    ensures Denote(g, n, k) == Denote(g, n, m)
    decreases k, 1, 0
  {
    var node := g.nodes[n];
    hide Denote;
    if node.Enum? || node.Object? {
      WrapperSame(g, n, k, m);
    } else if node.Record? || node.Mapping? {
      DictSame(g, n, k, m);
    } else if node.List? || node.SetOf? {
      SequenceSame(g, n, k, m);
    } else {
      LeavesSame(g, n, k, m);
    }
  }

  lemma {:induction false} WrapperSame(g: Graph, n: Id, k: nat, m: nat)
    requires Finite(g, n, k) && Finite(g, n, m) && k <= m && (g.nodes[n].Enum? || g.nodes[n].Object?)
    ensures Denote(g, n, k) == Denote(g, n, m)
    decreases k, 0, 0
  {
    hide Denote, DenoteItems, DenoteList, SortValues, Tagged;
    DenoteShape(g, n, k);
    DenoteShape(g, n, m);
    hide Finite;
    DenoteSame(g, if g.nodes[n].Enum? then g.nodes[n].value else g.nodes[n].state, k - 1, m - 1);
  }

  lemma {:induction false} DictSame(g: Graph, n: Id, k: nat, m: nat)
    requires Finite(g, n, k) && Finite(g, n, m) && k <= m && (g.nodes[n].Record? || g.nodes[n].Mapping?)
    ensures Denote(g, n, k) == Denote(g, n, m)
    decreases k, 0, 0
  {
    hide Denote, DenoteItems, DenoteList, SortValues, Tagged;
    DenoteShape(g, n, k);
    DenoteShape(g, n, m);
    hide Finite;
    ItemsSame(g, if g.nodes[n].Record? then g.nodes[n].fields else g.nodes[n].items, k - 1, m - 1);
  }

  lemma {:induction false} SequenceSame(g: Graph, n: Id, k: nat, m: nat)
    requires Finite(g, n, k) && Finite(g, n, m) && k <= m && (g.nodes[n].List? || g.nodes[n].SetOf?)
    ensures Denote(g, n, k) == Denote(g, n, m)
    decreases k, 0, 0
  {
    hide Denote, DenoteItems, DenoteList, SortValues, Tagged;
    DenoteShape(g, n, k);
    DenoteShape(g, n, m);
    hide Finite;
    ListSame(g, if g.nodes[n].List? then g.nodes[n].elements else g.nodes[n].members, k - 1, m - 1);
  }

  lemma LeavesSame(g: Graph, n: Id, k: nat, m: nat)
    requires Finite(g, n, k) && Finite(g, n, m)
    requires g.nodes[n].Str? || g.nodes[n].Constant? || g.nodes[n].PathValue? || g.nodes[n].Bytes?
    ensures Denote(g, n, k) == Denote(g, n, m)
  {
  }

  lemma {:induction false} ItemsSame(g: Graph, items: seq<Item>, k: nat, m: nat)
    requires ItemsFinite(g, items, k) && ItemsFinite(g, items, m) && k <= m
    ensures DenoteItems(g, items, k) == DenoteItems(g, items, m)
    decreases k, 2, |items|
  {
    if items != [] {
      var n := |items| - 1;
      assert items[n] in items;
      ItemsSame(g, items[..n], k, m);
      DenoteSame(g, items[n].value, k, m);
    }
  }

  lemma {:induction false} ListSame(g: Graph, ids: seq<Id>, k: nat, m: nat)
    requires ListFinite(g, ids, k) && ListFinite(g, ids, m) && k <= m
    ensures DenoteList(g, ids, k) == DenoteList(g, ids, m)
    decreases k, 2, |ids|
  {
    if ids != [] {
      ListSame(g, ids[..|ids| - 1], k, m);
      DenoteSame(g, ids[|ids| - 1], k, m);
    }
  }

  // ---------- sorting the items does not matter ----------

  predicate TextSorted(items: seq<Item>) {
    forall i, j :: 0 <= i < j < |items| ==> !TextLess(items[j].text, items[i].text)
  }

  /** A stable insertion: after every item that does not come later. */
  lemma {:induction false} InsertSplits(item: Item, sorted: seq<Item>) returns (p: nat)
    requires TextSorted(sorted)
    ensures p <= |sorted| && InsertItem(item, sorted) == sorted[..p] + [item] + sorted[p..]
    ensures forall i :: p <= i < |sorted| ==> sorted[i].text != item.text
    ensures TextSorted(InsertItem(item, sorted))
  {
    if sorted == [] {
      p := 0;
    } else if TextLess(item.text, sorted[0].text) {
      p := 0;
      forall i | 0 <= i < |sorted| ensures !TextLess(sorted[i].text, item.text) && sorted[i].text != item.text {
        TextLessOrder(sorted[i].text, item.text, sorted[0].text);
        TextLessOrder(item.text, item.text, sorted[0].text);
        assert i > 0 ==> !TextLess(sorted[i].text, sorted[0].text);
      }
    } else {
      var q := InsertSplits(item, sorted[1..]);
      p := q + 1;
      var rest := InsertItem(item, sorted[1..]);
      forall i | 0 <= i < |rest| ensures !TextLess(rest[i].text, sorted[0].text) {
        assert rest[i] in rest;
        if rest[i] != item {
          var j :| 0 <= j < |sorted[1..]| && sorted[1..][j] == rest[i];
          assert sorted[j + 1] == rest[i];
        }
      }
    }
  }

  lemma DenoteLast(g: Graph, init: seq<Item>, item: Item, k: nat)
    requires ItemsFinite(g, init + [item], k)
    ensures ItemsFinite(g, init, k) && Finite(g, item.value, k)
    ensures DenoteItems(g, init + [item], k) == DenoteItems(g, init, k)[item.text := Denote(g, item.value, k)]
  {
    assert (init + [item])[..|init|] == init;
    assert item in init + [item];
    assert forall i :: i in init ==> i in init + [item];
  }

  /** Putting an item before items with other texts is putting it last. */
  lemma {:induction false} InsertDenote(g: Graph, a: seq<Item>, item: Item, b: seq<Item>, k: nat)
    requires ItemsFinite(g, a + [item] + b, k) && ItemsFinite(g, a + b, k)
    requires forall i :: 0 <= i < |b| ==> b[i].text != item.text
    ensures Finite(g, item.value, k)
    ensures DenoteItems(g, a + [item] + b, k) == DenoteItems(g, a + b, k)[item.text := Denote(g, item.value, k)]
    decreases b
  {
    hide DenoteItems, Finite, Denote;
    assert item in a + [item] + b;
    if b == [] {
      assert a + [item] + b == a + [item] && a + b == a;
      DenoteLast(g, a, item, k);
    } else {
      var n := |b| - 1;
      assert a + [item] + b == (a + [item] + b[..n]) + [b[n]] && a + b == (a + b[..n]) + [b[n]];
      DenoteLast(g, a + [item] + b[..n], b[n], k);
      DenoteLast(g, a + b[..n], b[n], k);
      InsertDenote(g, a, item, b[..n], k);
    }
  }

  lemma {:induction false} SortDenote(g: Graph, items: seq<Item>, k: nat)
    requires ItemsFinite(g, items, k)
    ensures TextSorted(SortItems(items)) && DenoteItems(g, SortItems(items), k) == DenoteItems(g, items, k)
  {
    if items != [] {
      var n := |items| - 1;
      SortDenote(g, items[..n], k);
      var sorted := SortItems(items[..n]);
      var p := InsertSplits(items[n], sorted);
      assert sorted[..p] + sorted[p..] == sorted;
      InsertDenote(g, sorted[..p], items[n], sorted[p..], k);
    }
  }

  // ---------- normalisation computes the meaning ----------

  /** No container on the stack is as shallow as the node: true of the ancestors of a node of
      least height. */
  ghost predicate Deeper(g: Graph, seen: set<Id>, k: nat) {
    forall m :: m in seen ==> !Finite(g, m, k)
  }

  lemma DeeperLess(g: Graph, seen: set<Id>, k: nat)
    requires Deeper(g, seen, k) && k > 0
    ensures Deeper(g, seen, k - 1)
  {
    forall m | m in seen ensures !Finite(g, m, k - 1) {
      if Finite(g, m, k - 1) { FiniteMore(g, m, k - 1, k); }
    }
  }

  lemma {:induction false} Computes(g: Graph, n: Id, seen: set<Id>, k: nat)
    requires Closed(g) && Finite(g, n, k) && Deeper(g, seen, k)
    ensures Normalize(g, n, seen) == Ok(Denote(g, n, k))
    decreases k, 1, 0
  {
    DeeperLess(g, seen, k);
    if Finite(g, n, k - 1) {
      Computes(g, n, seen, k - 1);
      DenoteSame(g, n, k - 1, k);
    } else {
      assert n !in seen;
      hide Normalize, Denote, Deeper;
      match g.nodes[n]
      case Enum(_, _) => ComputesUntracked(g, n, seen, k);
      case Record(_, _) => ComputesUntracked(g, n, seen, k);
      case Str(_) => ComputesLeaf(g, n, seen, k);
      case Constant(_) => ComputesLeaf(g, n, seen, k);
      case PathValue(_) => ComputesLeaf(g, n, seen, k);
      case Bytes(_) => ComputesLeaf(g, n, seen, k);
      case Mapping(_) =>
        DeeperMore(g, n, seen, k);
        ComputesMapping(g, n, seen, k);
      case List(_) =>
        DeeperMore(g, n, seen, k);
        ComputesSequence(g, n, seen, k);
      case SetOf(_) =>
        DeeperMore(g, n, seen, k);
        ComputesSet(g, n, seen, k);
      case Object(_, _) =>
        DeeperMore(g, n, seen, k);
        ComputesObject(g, n, seen, k);
    }
  }

  lemma DeeperMore(g: Graph, n: Id, seen: set<Id>, k: nat)
    requires k > 0 && Deeper(g, seen, k - 1) && !Finite(g, n, k - 1)
    ensures Deeper(g, seen + {n}, k - 1)
  {
  }

  lemma ComputesLeaf(g: Graph, n: Id, seen: set<Id>, k: nat)
    requires Closed(g) && Finite(g, n, k)
    requires g.nodes[n].Str? || g.nodes[n].Constant? || g.nodes[n].PathValue? || g.nodes[n].Bytes?
    ensures Normalize(g, n, seen) == Ok(Denote(g, n, k))
  {
  }

  lemma {:induction false} ComputesUntracked(g: Graph, n: Id, seen: set<Id>, k: nat)
    requires Closed(g) && Finite(g, n, k) && Deeper(g, seen, k - 1) && Untracked(g.nodes[n])
    ensures Normalize(g, n, seen) == Ok(Denote(g, n, k))
    decreases k, 0, 0
  {
    hide Deeper, Denote, DenoteItems;
    DenoteShape(g, n, k);
    match g.nodes[n]
    case Enum(cls, v) =>
      assert Child(g.nodes[n], v);
      Computes(g, v, seen, k - 1);
    case Record(cls, fields) =>
      assert forall item :: item in fields ==> Child(g.nodes[n], item.value);
      ComputesItems(g, SortItems(fields), seen, Rank(g, n), k - 1);
      SortDenote(g, fields, k - 1);
  }

  lemma {:induction false} ComputesObject(g: Graph, n: Id, seen: set<Id>, k: nat)
    requires Closed(g) && Finite(g, n, k) && n !in seen && Deeper(g, seen + {n}, k - 1) && g.nodes[n].Object?
    ensures Normalize(g, n, seen) == Ok(Denote(g, n, k))
    decreases k, 0, 0
  {
    hide Deeper;
    assert Child(g.nodes[n], g.nodes[n].state);
    Computes(g, g.nodes[n].state, seen + {n}, k - 1);
  }

  lemma {:induction false} ComputesMapping(g: Graph, n: Id, seen: set<Id>, k: nat)
    requires Closed(g) && Finite(g, n, k) && n !in seen && Deeper(g, seen + {n}, k - 1) && g.nodes[n].Mapping?
    ensures Normalize(g, n, seen) == Ok(Denote(g, n, k))
    decreases k, 0, 0
  {
    hide Deeper;
    var items := g.nodes[n].items;
    assert forall item :: item in items ==> Child(g.nodes[n], item.value);
    ComputesItems(g, SortItems(items), seen + {n}, g.height, k - 1);
    SortDenote(g, items, k - 1);
  }

  lemma {:induction false} ComputesSequence(g: Graph, n: Id, seen: set<Id>, k: nat)
    requires Closed(g) && Finite(g, n, k) && n !in seen && Deeper(g, seen + {n}, k - 1) && g.nodes[n].List?
    ensures Normalize(g, n, seen) == Ok(Denote(g, n, k))
    decreases k, 0, 0
  {
    hide Deeper;
    assert forall c :: c in g.nodes[n].elements ==> Child(g.nodes[n], c);
    ComputesList(g, g.nodes[n].elements, seen + {n}, k - 1);
  }

  lemma {:induction false} ComputesSet(g: Graph, n: Id, seen: set<Id>, k: nat)
    requires Closed(g) && Finite(g, n, k) && n !in seen && Deeper(g, seen + {n}, k - 1) && g.nodes[n].SetOf?
    ensures Normalize(g, n, seen) == Ok(Denote(g, n, k))
    decreases k, 0, 0
  {
    hide Deeper;
    assert forall c :: c in g.nodes[n].members ==> Child(g.nodes[n], c);
    ComputesList(g, g.nodes[n].members, seen + {n}, k - 1);
  }

  lemma {:induction false} ComputesItems(g: Graph, items: seq<Item>, seen: set<Id>, bound: nat, k: nat)
    requires Closed(g) && ItemsIn(g, items, bound) && ItemsFinite(g, items, k) && Deeper(g, seen, k)
    ensures NormalizeItems(g, items, seen, bound) == Ok(DenoteItems(g, items, k))
    decreases k, 2, |items|
  {
    if items != [] {
      var n := |items| - 1;
      assert items[n] in items;
      ComputesItems(g, items[..n], seen, bound, k);
      Computes(g, items[n].value, seen, k);
    }
  }

  lemma {:induction false} ComputesList(g: Graph, ids: seq<Id>, seen: set<Id>, k: nat)
    requires Closed(g) && IdsIn(g, ids) && ListFinite(g, ids, k) && Deeper(g, seen, k)
    ensures NormalizeList(g, ids, seen) == Ok(DenoteList(g, ids, k))
    decreases k, 2, |ids|
  {
    if ids != [] {
      var n := |ids| - 1;
      ComputesList(g, ids[..n], seen, k);
      Computes(g, ids[n], seen, k);
    }
  }
}
