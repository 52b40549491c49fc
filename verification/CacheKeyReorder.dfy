/** Exactly when the insertion order of a mapping shows in its normal form. */
module CacheKeyReorder {
  import opened Core
  import opened CacheKey
  import opened CacheKeyText
  import opened CacheKeyMeaning
  import opened CacheKeyOrder

  /** The value of the last item whose key has the text. */
  function LastValue(items: seq<Item>, t: string): (v: Id)
    requires HasText(items, t)
    ensures exists item :: item in items && item.text == t && item.value == v
  {
    var n := |items| - 1;
    assert items == items[..n] + [items[n]];
    if items[n].text == t then items[n].value else LastValue(items[..n], t)
  }

  lemma {:induction false} DenoteLastValue(g: Graph, items: seq<Item>, k: nat, t: string)
    requires ItemsFinite(g, items, k) && HasText(items, t)
    ensures Finite(g, LastValue(items, t), k) && t in DenoteItems(g, items, k)
    ensures DenoteItems(g, items, k)[t] == Denote(g, LastValue(items, t), k)
    decreases |items|
  {
    var n := |items| - 1;
    assert items == items[..n] + [items[n]];
    DenoteLast(g, items[..n], items[n], k);
    if items[n].text != t { DenoteLastValue(g, items[..n], k, t); }
  }

  /** For every text the last items with it have the same meaning. */
  ghost predicate LastsAgree(g: Graph, xs: seq<Item>, ys: seq<Item>, k: nat)
    requires ItemsFinite(g, xs, k) && ItemsFinite(g, ys, k)
  {
    forall t | HasText(xs, t) && HasText(ys, t) ::
      LastMeaning(g, xs, k, t) == LastMeaning(g, ys, k, t)
  }

  ghost function LastMeaning(g: Graph, items: seq<Item>, k: nat, t: string): Canon
    requires ItemsFinite(g, items, k) && HasText(items, t)
  {
    Denote(g, LastValue(items, t), k)
  }

  lemma SameTexts(xs: seq<Item>, ys: seq<Item>, t: string)
    requires multiset(xs) == multiset(ys)
    ensures HasText(xs, t) == HasText(ys, t) && forall item :: item in xs <==> item in ys
  {
    forall item ensures item in xs <==> item in ys { assert item in multiset(xs) <==> item in multiset(ys); }
  }

  lemma ItemsAgreeIff(g: Graph, xs: seq<Item>, ys: seq<Item>, k: nat)
    requires ItemsFinite(g, xs, k) && ItemsFinite(g, ys, k) && multiset(xs) == multiset(ys)
    ensures DenoteItems(g, xs, k) == DenoteItems(g, ys, k) <==> LastsAgree(g, xs, ys, k)
  {
    var m, n := DenoteItems(g, xs, k), DenoteItems(g, ys, k);
    forall t
      ensures t in m <==> HasText(xs, t)
      ensures t in n <==> HasText(xs, t)
      ensures HasText(xs, t) ==> HasText(ys, t) && m[t] == LastMeaning(g, xs, k, t) && n[t] == LastMeaning(g, ys, k, t)
    {
      SameTexts(xs, ys, t);
      DenoteTexts(g, xs, k, t);
      DenoteTexts(g, ys, k, t);
      if HasText(xs, t) {
        DenoteLastValue(g, xs, k, t);
        DenoteLastValue(g, ys, k, t);
      }
    }
    hide DenoteItems, LastMeaning, HasText, Finite;
    if LastsAgree(g, xs, ys, k) {
      forall t ensures AgreeAt(m, n, t) {}
      MapsEqual(m, n);
    }
  }

  lemma MappingMeaning(g: Graph, n: Id, k: nat)
    requires Closed(g) && Finite(g, n, k) && g.nodes[n].Mapping?
    ensures k > 0 && ItemsFinite(g, g.nodes[n].items, k - 1)
    ensures Normalize(g, n, {}) == Ok(Dict(DenoteItems(g, g.nodes[n].items, k - 1)))
  {
    assert forall item :: item in g.nodes[n].items ==> Child(g.nodes[n], item.value);
    Computes(g, n, {}, k);
  }

  /** Two mappings with the same items in any two orders have the same normal form if and only if,
      for every key text, the last items with that text have the same meaning. */
  lemma ReorderedAgreeIff(g: Graph, n: Id, m: Id, k: nat)
    requires Closed(g) && Finite(g, n, k) && Finite(g, m, k) && g.nodes[n].Mapping? && g.nodes[m].Mapping?
    requires multiset(g.nodes[n].items) == multiset(g.nodes[m].items)
    ensures ItemsFinite(g, g.nodes[n].items, k - 1) && ItemsFinite(g, g.nodes[m].items, k - 1)
    ensures Normalize(g, n, {}) == Normalize(g, m, {}) <==>
              LastsAgree(g, g.nodes[n].items, g.nodes[m].items, k - 1)
  {
    MappingMeaning(g, n, k);
    MappingMeaning(g, m, k);
    ItemsAgreeIff(g, g.nodes[n].items, g.nodes[m].items, k - 1);
  }

  // ---------- reordering in place ----------

  /** The graph in which the mapping n has its items in another order. */
  function Reordered(g: Graph, n: Id, ys: seq<Item>): Graph {
    g.(nodes := g.nodes[n := Mapping(ys)])
  }

  lemma ReorderedClosed(g: Graph, n: Id, ys: seq<Item>)
    requires Closed(g) && n in g.nodes && g.nodes[n].Mapping? && multiset(g.nodes[n].items) == multiset(ys)
    ensures Closed(Reordered(g, n, ys))
  {
    SameTexts(g.nodes[n].items, ys, "");
    var g' := Reordered(g, n, ys);
    assert forall i, c :: i in g.nodes ==> (Child(g'.nodes[i], c) <==> Child(g.nodes[i], c));
  }

  lemma {:induction false} LeastHeight(g: Graph, n: Id, k: nat) returns (least: nat)
    requires Finite(g, n, k)
    ensures 0 < least <= k && Finite(g, n, least) && !Finite(g, n, least - 1)
  {
    if Finite(g, n, k - 1) {
      least := LeastHeight(g, n, k - 1);
    } else {
      least := k;
    }
  }

  /** What is below the mapping does not reach it, so its meaning is the same in both graphs. */
  lemma {:induction false} BelowSame(g: Graph, n: Id, ys: seq<Item>, c: Id, k: nat)
    requires Finite(g, c, k) && !Finite(g, n, k)
    ensures Finite(Reordered(g, n, ys), c, k) && Denote(Reordered(g, n, ys), c, k) == Denote(g, c, k)
    decreases k, 1, 0
  {
    var g' := Reordered(g, n, ys);
    assert c != n && g'.nodes[c] == g.nodes[c];
    assert !Finite(g, n, k - 1) by { if Finite(g, n, k - 1) { FiniteMore(g, n, k - 1, k); } }
    forall d | Child(g.nodes[c], d)
      ensures SameBelow(g, g', d, k - 1)
    {
      BelowSame(g, n, ys, d, k - 1);
    }
    hide Denote;
    NodeSame(g, g', c, k);
  }

  ghost predicate SameBelow(g: Graph, g': Graph, d: Id, k: nat) {
    Finite(g', d, k) && Finite(g, d, k) && Denote(g', d, k) == Denote(g, d, k)
  }

  lemma NodeSame(g: Graph, g': Graph, c: Id, k: nat)
    requires Finite(g, c, k) && Finite(g', c, k) && g'.nodes[c] == g.nodes[c]
    requires forall d :: Child(g.nodes[c], d) ==> SameBelow(g, g', d, k - 1)
    ensures Denote(g', c, k) == Denote(g, c, k)
  {
    match g.nodes[c]
    case Record(_, fields) => {
      assert forall item :: item in fields ==> Child(g.nodes[c], item.value);
      ItemsBelow(g, g', fields, k - 1);
    }
    case Mapping(items) => {
      assert forall item :: item in items ==> Child(g.nodes[c], item.value);
      ItemsBelow(g, g', items, k - 1);
    }
    case List(elements) => {
      assert forall d :: d in elements ==> Child(g.nodes[c], d);
      ListBelow(g, g', elements, k - 1);
    }
    case SetOf(members) => {
      assert forall d :: d in members ==> Child(g.nodes[c], d);
      ListBelow(g, g', members, k - 1);
    }
    case Enum(_, v) => assert Child(g.nodes[c], v);
    case Object(_, v) => assert Child(g.nodes[c], v);
    case _ =>
  }

  lemma {:induction false} ItemsBelow(g: Graph, g': Graph, items: seq<Item>, k: nat)
    requires ItemsFinite(g, items, k) && ItemsFinite(g', items, k)
    requires forall i :: i in items ==> Denote(g', i.value, k) == Denote(g, i.value, k)
    ensures DenoteItems(g', items, k) == DenoteItems(g, items, k)
    decreases |items|
  {
    if items != [] {
      assert items[|items| - 1] in items;
      ItemsBelow(g, g', items[..|items| - 1], k);
    }
  }

  lemma {:induction false} ListBelow(g: Graph, g': Graph, ids: seq<Id>, k: nat)
    requires ListFinite(g, ids, k) && ListFinite(g', ids, k)
    requires forall i :: i in ids ==> Denote(g', i, k) == Denote(g, i, k)
    ensures DenoteList(g', ids, k) == DenoteList(g, ids, k)
    decreases |ids|
  {
    if ids != [] { ListBelow(g, g', ids[..|ids| - 1], k); }
  }

  /** The normal form of the reordered mapping, in terms of the graph as it was. */
  lemma ItemsReordered(g: Graph, n: Id, ys: seq<Item>, k: nat)
    requires Closed(g) && Finite(g, n, k) && !Finite(g, n, k - 1) && g.nodes[n].Mapping?
    requires multiset(g.nodes[n].items) == multiset(ys)
    ensures ItemsFinite(g, ys, k - 1) && ItemsFinite(Reordered(g, n, ys), ys, k - 1)
    ensures DenoteItems(Reordered(g, n, ys), ys, k - 1) == DenoteItems(g, ys, k - 1)
    ensures Finite(Reordered(g, n, ys), n, k)
  {
    var g' := Reordered(g, n, ys);
    SameTexts(g.nodes[n].items, ys, "");
    forall i | i in ys ensures SameBelow(g, g', i.value, k - 1) {
      assert Child(g.nodes[n], i.value);
      BelowSame(g, n, ys, i.value, k - 1);
    }
    hide Denote, Closed;
    ItemsBelow(g, g', ys, k - 1);
  }

  lemma ReorderedMeaning(g: Graph, n: Id, ys: seq<Item>, k: nat)
    requires Closed(g) && Finite(g, n, k) && !Finite(g, n, k - 1) && g.nodes[n].Mapping?
    requires multiset(g.nodes[n].items) == multiset(ys)
    ensures Closed(Reordered(g, n, ys)) && ItemsFinite(g, ys, k - 1)
    ensures Normalize(Reordered(g, n, ys), n, {}) == Ok(Dict(DenoteItems(g, ys, k - 1)))
  {
    var g' := Reordered(g, n, ys);
    ReorderedClosed(g, n, ys);
    ItemsReordered(g, n, ys, k);
    hide Finite, Denote, DenoteItems, Closed;
    MappingMeaning(g', n, k);
  }

  /** Items with equal key texts have equal meanings. */
  ghost predicate TextsAgree(g: Graph, items: seq<Item>, k: nat)
    requires ItemsFinite(g, items, k)
  {
    forall x, y :: x in items && y in items && x.text == y.text ==> Denote(g, x.value, k) == Denote(g, y.value, k)
  }

  /** The items with the i-th moved to the end. */
  function MovedLast(items: seq<Item>, i: nat): seq<Item>
    requires i < |items|
  {
    items[..i] + items[i + 1..] + [items[i]]
  }

  lemma MovedItems(items: seq<Item>, i: nat)
    requires i < |items|
    ensures multiset(MovedLast(items, i)) == multiset(items)
    ensures HasText(MovedLast(items, i), items[i].text)
    ensures LastValue(MovedLast(items, i), items[i].text) == items[i].value
  {
    assert items == items[..i] + [items[i]] + items[i + 1..];
    var moved := MovedLast(items, i);
    assert moved[|moved| - 1] == items[i] && items[i] in moved;
  }

  /** No order at all makes a difference. */
  ghost predicate OrderIrrelevant(g: Graph, n: Id)
    requires Closed(g) && n in g.nodes && g.nodes[n].Mapping?
  {
    forall ys: seq<Item> | multiset(ys) == multiset(g.nodes[n].items) ::
      Closed(Reordered(g, n, ys)) && Normalize(Reordered(g, n, ys), n, {}) == Normalize(g, n, {})
  }

  lemma MovedMeaning(g: Graph, xs: seq<Item>, i: nat, k: nat)
    requires ItemsFinite(g, xs, k) && i < |xs|
    ensures ItemsFinite(g, MovedLast(xs, i), k) && xs[i].text in DenoteItems(g, MovedLast(xs, i), k)
    ensures DenoteItems(g, MovedLast(xs, i), k)[xs[i].text] == Denote(g, xs[i].value, k)
  {
    MovedItems(xs, i);
    SameTexts(xs, MovedLast(xs, i), "");
    DenoteLastValue(g, MovedLast(xs, i), k, xs[i].text);
  }

  lemma AgreeingOrders(g: Graph, xs: seq<Item>, ys: seq<Item>, k: nat)
    requires ItemsFinite(g, xs, k) && multiset(ys) == multiset(xs) && TextsAgree(g, xs, k)
    ensures ItemsFinite(g, ys, k) && DenoteItems(g, ys, k) == DenoteItems(g, xs, k)
  {
    SameTexts(xs, ys, "");
    forall t | HasText(xs, t) && HasText(ys, t) ensures LastMeaning(g, xs, k, t) == LastMeaning(g, ys, k, t) {
      var x :| x in xs && x.text == t && x.value == LastValue(xs, t);
      var y :| y in ys && y.text == t && y.value == LastValue(ys, t);
    }
    ItemsAgreeIff(g, xs, ys, k);
  }

  lemma OrderIrrelevantAtLeast(g: Graph, n: Id, k: nat)
    requires Closed(g) && Finite(g, n, k) && !Finite(g, n, k - 1) && g.nodes[n].Mapping?
    ensures ItemsFinite(g, g.nodes[n].items, k - 1)
    ensures OrderIrrelevant(g, n) <==> TextsAgree(g, g.nodes[n].items, k - 1)
  {
    var xs := g.nodes[n].items;
    MappingMeaning(g, n, k);
    hide Normalize;
    if TextsAgree(g, xs, k - 1) {
      forall ys: seq<Item> | multiset(ys) == multiset(xs)
        ensures Closed(Reordered(g, n, ys)) && Normalize(Reordered(g, n, ys), n, {}) == Normalize(g, n, {})
      {
        ReorderedMeaning(g, n, ys, k);
        AgreeingOrders(g, xs, ys, k - 1);
      }
    }
    if OrderIrrelevant(g, n) {
      forall i, j | 0 <= i < |xs| && 0 <= j < |xs| && xs[i].text == xs[j].text
        ensures Denote(g, xs[i].value, k - 1) == Denote(g, xs[j].value, k - 1)
      {
        MovedShows(g, n, i, k);
        MovedShows(g, n, j, k);
      }
    }
  }

  /** If no order matters, every item's meaning is the one its text has. */
  lemma MovedShows(g: Graph, n: Id, i: nat, k: nat)
    requires Closed(g) && Finite(g, n, k) && !Finite(g, n, k - 1) && g.nodes[n].Mapping?
    requires OrderIrrelevant(g, n) && i < |g.nodes[n].items|
    ensures var xs := g.nodes[n].items;
      && ItemsFinite(g, xs, k - 1) && xs[i].text in DenoteItems(g, xs, k - 1)
      && DenoteItems(g, xs, k - 1)[xs[i].text] == Denote(g, xs[i].value, k - 1)
  {
    var xs := g.nodes[n].items;
    MappingMeaning(g, n, k);
    MovedItems(xs, i);
    ReorderedMeaning(g, n, MovedLast(xs, i), k);
    MovedMeaning(g, xs, i, k - 1);
    hide Normalize, DenoteItems, Denote, Finite, MovedLast, Reordered;
  }

  /** Insertion order never shows in the normal form of a mapping if and only if items whose keys
      have the same text have the same meaning. */
  lemma OrderIrrelevantIff(g: Graph, n: Id, k: nat)
    requires Closed(g) && Finite(g, n, k) && g.nodes[n].Mapping?
    ensures ItemsFinite(g, g.nodes[n].items, k - 1)
    ensures OrderIrrelevant(g, n) <==> TextsAgree(g, g.nodes[n].items, k - 1)
  {
    var xs := g.nodes[n].items;
    MappingMeaning(g, n, k);
    var least := LeastHeight(g, n, k);
    OrderIrrelevantAtLeast(g, n, least);
    forall x | x in xs ensures Denote(g, x.value, least - 1) == Denote(g, x.value, k - 1) {
      DenoteSame(g, x.value, least - 1, k - 1);
    }
    hide OrderIrrelevant, Denote, Finite;
  }

  // ---------- a witness ----------

  /** The mapping {1: u, "1": v} and the same mapping in the other order. */
  function TwoOrders(u: string, v: string): Graph {
    Graph(map[0 := Mapping([Item("1", 2), Item("1", 3)]), 1 := Mapping([Item("1", 3), Item("1", 2)]),
              2 := Str(u), 3 := Str(v)], map[], 1)
  }

  lemma TwoOrdersClosed(u: string, v: string)
    ensures Closed(TwoOrders(u, v))
    ensures multiset(TwoOrders(u, v).nodes[0].items) == multiset(TwoOrders(u, v).nodes[1].items)
    ensures Finite(TwoOrders(u, v), 2, 1) && Finite(TwoOrders(u, v), 3, 1)
  {
    var g := TwoOrders(u, v);
    assert forall c :: Child(g.nodes[0], c) || Child(g.nodes[1], c) ==> c == 2 || c == 3;
    assert [Item("1", 2), Item("1", 3)] == [Item("1", 2)] + [Item("1", 3)];
    assert [Item("1", 3), Item("1", 2)] == [Item("1", 3)] + [Item("1", 2)];
  }

  /** Two keys with the same text: the two orders have different normal forms exactly when the
      values differ. */
  lemma OrderShows(u: string, v: string)
    ensures Closed(TwoOrders(u, v))
    ensures multiset(TwoOrders(u, v).nodes[0].items) == multiset(TwoOrders(u, v).nodes[1].items)
    ensures Normalize(TwoOrders(u, v), 0, {}) == Normalize(TwoOrders(u, v), 1, {}) <==> u == v
  {
    var g := TwoOrders(u, v);
    TwoOrdersClosed(u, v);
    TwoItems(g, 0, "1", 2, "1", 3, 2);
    TwoItems(g, 1, "1", 3, "1", 2, 2);
    Computes(g, 0, {}, 2);
    Computes(g, 1, {}, 2);
    assert Denote(g, 2, 1) == Text(u) && Denote(g, 3, 1) == Text(v);
    hide Normalize, Finite, Denote, Closed;
    assert map["1" := Text(u)]["1" := Text(v)]["1"] == Text(v);
    assert map["1" := Text(v)]["1" := Text(u)]["1"] == Text(u);
  }
}
