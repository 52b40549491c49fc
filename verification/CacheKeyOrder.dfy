/** What the normalised value depends on: not on sharing, not on the order of a set, and on the
    insertion order of a mapping only where two of its keys have the same text. */
module CacheKeyOrder {
  import opened Core
  import opened CacheKey
  import opened CacheKeyText
  import opened CacheKeyMeaning

  predicate DistinctTexts(items: seq<Item>) {
    forall i, j :: 0 <= i < j < |items| ==> items[i].text != items[j].text
  }

  predicate HasText(items: seq<Item>, t: string) {
    exists i :: i in items && i.text == t
  }

  /** The trees below the two nodes are the same up to the order of mapping items and of set
      elements, a list in the order of its elements' texts counts as the set of them, and no mapping
      has two keys with the same text. How much of a tree is shared plays no part. */
  ghost predicate Alike(g1: Graph, n1: Id, g2: Graph, n2: Id, k: nat)
    decreases k, 1
  {
    && k > 0 && n1 in g1.nodes && n2 in g2.nodes
    && match (g1.nodes[n1], g2.nodes[n2])
       case (Str(a), Str(b)) => a == b
       case (Constant(a), Constant(b)) => a == b
       case (PathValue(a), PathValue(b)) => a == b
       case (Bytes(a), Bytes(b)) => a == b
       case (Enum(c, a), Enum(d, b)) => c == d && Alike(g1, a, g2, b, k - 1)
       case (Record(c, xs), Record(d, ys)) => c == d && ItemsAlike(g1, xs, g2, ys, k - 1)
       case (Mapping(xs), Mapping(ys)) => ItemsAlike(g1, xs, g2, ys, k - 1)
       case (List(xs), List(ys)) =>
         |xs| == |ys| && forall i :: 0 <= i < |xs| ==> Alike(g1, xs[i], g2, ys[i], k - 1)
       case (SetOf(xs), SetOf(ys)) => Matched(g1, xs, g2, ys, k - 1)
       case (List(xs), SetOf(ys)) => ListInOrder(g1, xs, k - 1) && Matched(g1, xs, g2, ys, k - 1)
       case (SetOf(xs), List(ys)) => ListInOrder(g2, ys, k - 1) && Matched(g1, xs, g2, ys, k - 1)
       case (Object(c, a), Object(d, b)) => c == d && Alike(g1, a, g2, b, k - 1)
       case _ => false
  }

  function Without(ids: seq<Id>, j: nat): seq<Id>
    requires j < |ids|
  {
    ids[..j] + ids[j + 1..]
  }

  /** The elements in some order are alike those of the other. */
  ghost predicate Matched(g1: Graph, xs: seq<Id>, g2: Graph, ys: seq<Id>, k: nat)
    decreases k, 2, |xs|
  {
    && |xs| == |ys|
    && (xs == []
        || exists j :: 0 <= j < |ys| && Alike(g1, xs[|xs| - 1], g2, ys[j], k)
                       && Matched(g1, xs[..|xs| - 1], g2, Without(ys, j), k))
  }

  /** The elements are in the order of their texts, as those of a set are written. */
  ghost predicate ListInOrder(g: Graph, ids: seq<Id>, k: nat) {
    ListFinite(g, ids, k) && InOrder(DenoteList(g, ids, k))
  }

  ghost predicate ItemsAlike(g1: Graph, xs: seq<Item>, g2: Graph, ys: seq<Item>, k: nat)
    decreases k, 2
  {
    && DistinctTexts(xs) && DistinctTexts(ys)
    && (forall x :: x in xs ==> exists y :: y in ys && y.text == x.text && Alike(g1, x.value, g2, y.value, k))
    && (forall y :: y in ys ==> exists x :: x in xs && x.text == y.text)
  }

  lemma {:induction false} DenoteAt(g: Graph, items: seq<Item>, k: nat)
    requires ItemsFinite(g, items, k) && DistinctTexts(items)
    ensures forall item :: item in items ==>
              item.text in DenoteItems(g, items, k) && DenoteItems(g, items, k)[item.text] == Denote(g, item.value, k)
    ensures forall t :: t in DenoteItems(g, items, k) ==> exists item :: item in items && item.text == t
  {
    if items != [] {
      var n := |items| - 1;
      assert items == items[..n] + [items[n]];
      DenoteLast(g, items[..n], items[n], k);
      DenoteAt(g, items[..n], k);
      hide DenoteItems, Denote, Finite;
      forall item | item in items
        ensures item.text in DenoteItems(g, items, k) && DenoteItems(g, items, k)[item.text] == Denote(g, item.value, k)
      {
        if item in items[..n] {
          var i :| 0 <= i < n && items[..n][i] == item;
          assert items[i].text != items[n].text;
        }
      }
      forall t | t in DenoteItems(g, items, k) ensures exists item :: item in items && item.text == t {
        if t != items[n].text {
          var item :| item in items[..n] && item.text == t;
          assert item in items;
        } else {
          assert items[n] in items;
        }
      }
    }
  }

  lemma {:induction false} AlikeDenote(g1: Graph, n1: Id, g2: Graph, n2: Id, k: nat)
    requires Alike(g1, n1, g2, n2, k)
    ensures Finite(g1, n1, k) && Finite(g2, n2, k) && Denote(g1, n1, k) == Denote(g2, n2, k)
    decreases k, 1
  {
    var node := g1.nodes[n1];
    hide Denote, Finite, ItemsAlike, Matched, ListInOrder;
    if node.Enum? || node.Object? {
      WrappersDenote(g1, n1, g2, n2, k);
    } else if node.Record? || node.Mapping? {
      DictsDenote(g1, n1, g2, n2, k);
    } else if node.List? || node.SetOf? {
      SequencesDenote(g1, n1, g2, n2, k);
    } else {
      LeavesDenote(g1, n1, g2, n2, k);
    }
  }

  lemma {:induction false} WrappersDenote(g1: Graph, n1: Id, g2: Graph, n2: Id, k: nat)
    requires Alike(g1, n1, g2, n2, k) && (g1.nodes[n1].Enum? || g1.nodes[n1].Object?)
    ensures Finite(g1, n1, k) && Finite(g2, n2, k) && Denote(g1, n1, k) == Denote(g2, n2, k)
    decreases k, 0
  {
    hide Denote, DenoteItems, DenoteList, SortValues, InOrder, Matched, ItemsAlike, Tagged;
    match (g1.nodes[n1], g2.nodes[n2]) {
      case (Enum(_, a), Enum(_, b)) => AlikeDenote(g1, a, g2, b, k - 1);
      case (Object(_, a), Object(_, b)) => AlikeDenote(g1, a, g2, b, k - 1);
    }
    hide Alike;
    DenoteShape(g1, n1, k);
    DenoteShape(g2, n2, k);
  }

  lemma {:induction false} DictsDenote(g1: Graph, n1: Id, g2: Graph, n2: Id, k: nat)
    requires Alike(g1, n1, g2, n2, k) && (g1.nodes[n1].Record? || g1.nodes[n1].Mapping?)
    ensures Finite(g1, n1, k) && Finite(g2, n2, k) && Denote(g1, n1, k) == Denote(g2, n2, k)
    decreases k, 0
  {
    hide Denote, DenoteItems, DenoteList, SortValues, InOrder, Matched, ItemsAlike, Tagged;
    match (g1.nodes[n1], g2.nodes[n2]) {
      case (Record(_, xs), Record(_, ys)) => ItemsDenote(g1, xs, g2, ys, k - 1);
      case (Mapping(xs), Mapping(ys)) => ItemsDenote(g1, xs, g2, ys, k - 1);
    }
    hide Alike;
    DenoteShape(g1, n1, k);
    DenoteShape(g2, n2, k);
  }

  lemma {:induction false} SequencesDenote(g1: Graph, n1: Id, g2: Graph, n2: Id, k: nat)
    requires Alike(g1, n1, g2, n2, k) && (g1.nodes[n1].List? || g1.nodes[n1].SetOf?)
    ensures Finite(g1, n1, k) && Finite(g2, n2, k) && Denote(g1, n1, k) == Denote(g2, n2, k)
    decreases k, 0
  {
    hide Denote, DenoteItems, DenoteList, SortValues, InOrder, Matched, ItemsAlike, Tagged;
    match (g1.nodes[n1], g2.nodes[n2]) {
      case (List(xs), List(ys)) => ListDenote(g1, xs, g2, ys, k - 1);
      case (SetOf(xs), SetOf(ys)) => SetDenote(g1, xs, g2, ys, k - 1);
      case (List(xs), SetOf(ys)) => SetDenote(g1, xs, g2, ys, k - 1);
      case (SetOf(xs), List(ys)) => SetDenote(g1, xs, g2, ys, k - 1);
    }
    hide Alike;
    DenoteShape(g1, n1, k);
    DenoteShape(g2, n2, k);
  }

  lemma LeavesDenote(g1: Graph, n1: Id, g2: Graph, n2: Id, k: nat)
    requires Alike(g1, n1, g2, n2, k)
    requires g1.nodes[n1].Str? || g1.nodes[n1].Constant? || g1.nodes[n1].PathValue? || g1.nodes[n1].Bytes?
    ensures Finite(g1, n1, k) && Finite(g2, n2, k) && Denote(g1, n1, k) == Denote(g2, n2, k)
  {
  }

  lemma {:induction false} ItemsDenote(g1: Graph, xs: seq<Item>, g2: Graph, ys: seq<Item>, k: nat)
    requires ItemsAlike(g1, xs, g2, ys, k)
    ensures ItemsFinite(g1, xs, k) && ItemsFinite(g2, ys, k) && DenoteItems(g1, xs, k) == DenoteItems(g2, ys, k)
    decreases k, 2
  {
    forall x, y | x in xs && y in ys && x.text == y.text ensures SameMeaning(g1, x, g2, y, k) {
      var z :| z in ys && z.text == x.text && Alike(g1, x.value, g2, z.value, k);
      assert z == y;
      AlikeDenote(g1, x.value, g2, y.value, k);
    }
    forall x | x in xs ensures HasText(ys, x.text) {
      var y :| y in ys && y.text == x.text && Alike(g1, x.value, g2, y.value, k);
    }
    assert forall y :: y in ys ==> HasText(xs, y.text);
    hide Alike, Finite, Denote, DenoteItems, SameMeaning, HasText;
    PairsDenote(g1, xs, g2, ys, k);
  }

  lemma PairsDenote(g1: Graph, xs: seq<Item>, g2: Graph, ys: seq<Item>, k: nat)
    requires DistinctTexts(xs) && DistinctTexts(ys)
    requires (forall x :: x in xs ==> HasText(ys, x.text)) && (forall y :: y in ys ==> HasText(xs, y.text))
    requires forall x, y :: x in xs && y in ys && x.text == y.text ==> SameMeaning(g1, x, g2, y, k)
    ensures ItemsFinite(g1, xs, k) && ItemsFinite(g2, ys, k) && DenoteItems(g1, xs, k) == DenoteItems(g2, ys, k)
  {
    hide Finite, Denote, DenoteItems, DistinctTexts;
    forall x | x in xs ensures Finite(g1, x.value, k) {
      assert HasText(ys, x.text);
      var y :| y in ys && y.text == x.text;
      assert SameMeaning(g1, x, g2, y, k);
    }
    forall y | y in ys ensures Finite(g2, y.value, k) {
      assert HasText(xs, y.text);
      var x :| x in xs && x.text == y.text;
      assert SameMeaning(g1, x, g2, y, k);
    }
    hide SameMeaning, HasText;
    forall t ensures AgreeAt(DenoteItems(g1, xs, k), DenoteItems(g2, ys, k), t) { TextDenote(g1, xs, g2, ys, k, t); }
    MapsEqual(DenoteItems(g1, xs, k), DenoteItems(g2, ys, k));
  }

  ghost predicate SameMeaning(g1: Graph, x: Item, g2: Graph, y: Item, k: nat) {
    Finite(g1, x.value, k) && Finite(g2, y.value, k) && Denote(g1, x.value, k) == Denote(g2, y.value, k)
  }

  ghost predicate AgreeAt(m: map<string, Canon>, n: map<string, Canon>, t: string) {
    (t in m <==> t in n) && (t in m ==> m[t] == n[t])
  }

  lemma MapsEqual(m: map<string, Canon>, n: map<string, Canon>)
    requires forall t :: AgreeAt(m, n, t)
    ensures m == n
  {
    assert forall t :: t in m ==> AgreeAt(m, n, t);
    assert forall t :: t in n ==> AgreeAt(m, n, t);
  }

  lemma TextDenote(g1: Graph, xs: seq<Item>, g2: Graph, ys: seq<Item>, k: nat, t: string)
    requires ItemsFinite(g1, xs, k) && ItemsFinite(g2, ys, k) && DistinctTexts(xs) && DistinctTexts(ys)
    requires (forall x :: x in xs ==> HasText(ys, x.text)) && (forall y :: y in ys ==> HasText(xs, y.text))
    requires forall x, y :: x in xs && y in ys && x.text == y.text ==> SameMeaning(g1, x, g2, y, k)
    ensures AgreeAt(DenoteItems(g1, xs, k), DenoteItems(g2, ys, k), t)
  {
    DenoteTexts(g1, xs, k, t);
    DenoteTexts(g2, ys, k, t);
    if HasText(xs, t) {
      DenoteAt(g1, xs, k);
      DenoteAt(g2, ys, k);
      var x :| x in xs && x.text == t;
      var y :| y in ys && y.text == t;
      assert SameMeaning(g1, x, g2, y, k);
    }
    hide Finite, Denote, DenoteItems, DistinctTexts;
  }

  lemma {:induction false} ListDenote(g1: Graph, xs: seq<Id>, g2: Graph, ys: seq<Id>, k: nat)
    requires |xs| == |ys| && forall i :: 0 <= i < |xs| ==> Alike(g1, xs[i], g2, ys[i], k)
    ensures ListFinite(g1, xs, k) && ListFinite(g2, ys, k) && DenoteList(g1, xs, k) == DenoteList(g2, ys, k)
    decreases k, 2, |xs|
  {
    hide Alike, Finite, Denote, DenoteList;
    forall i | 0 <= i < |xs|
      ensures Finite(g1, xs[i], k) && Finite(g2, ys[i], k) && Denote(g1, xs[i], k) == Denote(g2, ys[i], k)
    {
      AlikeDenote(g1, xs[i], g2, ys[i], k);
    }
    DenoteEach(g1, xs, k);
    DenoteEach(g2, ys, k);
  }

  lemma {:induction false} DenoteEach(g: Graph, ids: seq<Id>, k: nat)
    requires ListFinite(g, ids, k)
    ensures |DenoteList(g, ids, k)| == |ids|
    ensures forall i :: 0 <= i < |ids| ==> DenoteList(g, ids, k)[i] == Denote(g, ids[i], k)
    decreases |ids|
  {
    if ids != [] { DenoteEach(g, ids[..|ids| - 1], k); }
  }

  lemma FiniteWithout(g: Graph, ids: seq<Id>, j: nat, k: nat)
    requires j < |ids| && Finite(g, ids[j], k) && ListFinite(g, Without(ids, j), k)
    ensures ListFinite(g, ids, k)
  {
    hide Finite;
    forall i | i in ids ensures Finite(g, i, k) {
      var m :| 0 <= m < |ids| && ids[m] == i;
      if m < j { assert Without(ids, j)[m] == i; }
      if m > j { assert Without(ids, j)[m - 1] == i; }
    }
  }

  lemma SeqWithout(all: seq<Canon>, rest: seq<Canon>, j: nat)
    requires j < |all| && |rest| == |all| - 1
    requires (forall i :: 0 <= i < j ==> rest[i] == all[i]) && forall i :: j <= i < |rest| ==> rest[i] == all[i + 1]
    ensures multiset(all) == multiset(rest) + multiset{all[j]}
  {
    assert rest == all[..j] + all[j + 1..];
    assert all == all[..j] + [all[j]] + all[j + 1..];
  }

  lemma DenoteWithout(g: Graph, ids: seq<Id>, j: nat, k: nat)
    requires j < |ids| && ListFinite(g, ids, k) && ListFinite(g, Without(ids, j), k)
    ensures ids[j] in ids
    ensures multiset(DenoteList(g, ids, k)) ==
              multiset(DenoteList(g, Without(ids, j), k)) + multiset{Denote(g, ids[j], k)}
  {
    hide Finite, Denote, DenoteList;
    DenoteEach(g, ids, k);
    DenoteEach(g, Without(ids, j), k);
    SeqWithout(DenoteList(g, ids, k), DenoteList(g, Without(ids, j), k), j);
  }

  lemma {:induction false} MatchedDenote(g1: Graph, xs: seq<Id>, g2: Graph, ys: seq<Id>, k: nat)
    requires Matched(g1, xs, g2, ys, k)
    ensures ListFinite(g1, xs, k) && ListFinite(g2, ys, k)
    ensures multiset(DenoteList(g1, xs, k)) == multiset(DenoteList(g2, ys, k))
    decreases k, 2, |xs|
  {
    if xs != [] {
      var last := |xs| - 1;
      var j :| 0 <= j < |ys| && Alike(g1, xs[last], g2, ys[j], k) && Matched(g1, xs[..last], g2, Without(ys, j), k);
      hide Alike, Matched, Finite, Denote, DenoteList;
      AlikeDenote(g1, xs[last], g2, ys[j], k);
      MatchedDenote(g1, xs[..last], g2, Without(ys, j), k);
      assert Without(xs, last) == xs[..last];
      FiniteWithout(g2, ys, j, k);
      FiniteWithout(g1, xs, last, k);
      DenoteWithout(g2, ys, j, k);
      DenoteWithout(g1, xs, last, k);
    }
  }

  /** At least one of the two is a set. */
  lemma {:induction false} SetDenote(g1: Graph, xs: seq<Id>, g2: Graph, ys: seq<Id>, k: nat)
    requires Matched(g1, xs, g2, ys, k)
    ensures ListFinite(g1, xs, k) && ListFinite(g2, ys, k)
    ensures SortValues(DenoteList(g1, xs, k)) == SortValues(DenoteList(g2, ys, k))
    ensures InOrder(DenoteList(g1, xs, k)) ==> DenoteList(g1, xs, k) == SortValues(DenoteList(g2, ys, k))
    ensures InOrder(DenoteList(g2, ys, k)) ==> DenoteList(g2, ys, k) == SortValues(DenoteList(g1, xs, k))
    decreases k, 2, |xs| + 1
  {
    hide Matched, Finite, DenoteList, InOrder;
    MatchedDenote(g1, xs, g2, ys, k);
    SortsAgreeIff(DenoteList(g1, xs, k), DenoteList(g2, ys, k));
    if InOrder(DenoteList(g1, xs, k)) { InOrderSorted(DenoteList(g1, xs, k)); }
    if InOrder(DenoteList(g2, ys, k)) { InOrderSorted(DenoteList(g2, ys, k)); }
  }

  lemma InOrderSorted(cs: seq<Canon>)
    requires InOrder(cs)
    ensures SortValues(cs) == cs
  {
    SortInOrder(cs);
    InOrderUnique(SortValues(cs), cs);
  }

  /** Values whose unfoldings are alike have the same cache-key value, whatever the insertion
      order of their mappings and whatever they share. */
  lemma OrderAndSharingIrrelevant(g1: Graph, n1: Id, g2: Graph, n2: Id, k: nat)
    requires Closed(g1) && Closed(g2) && Alike(g1, n1, g2, n2, k)
    ensures Normalize(g1, n1, {}).Ok? && Normalize(g1, n1, {}) == Normalize(g2, n2, {})
  {
    AlikeDenote(g1, n1, g2, n2, k);
    Computes(g1, n1, {}, k);
    Computes(g2, n2, {}, k);
  }

  // ---------- keys with the same text ----------

  lemma {:induction false} JoinDenote(g: Graph, a: seq<Item>, c: seq<Item>, k: nat)
    requires ItemsFinite(g, a, k) && ItemsFinite(g, c, k)
    ensures ItemsFinite(g, a + c, k) && DenoteItems(g, a + c, k) == DenoteItems(g, a, k) + DenoteItems(g, c, k)
    decreases c
  {
    hide DenoteItems, Finite, Denote;
    if c == [] {
      EmptyDenotes(g, k);
      assert a + c == a;
    } else {
      var n := |c| - 1;
      assert c == c[..n] + [c[n]] && a + c == (a + c[..n]) + [c[n]];
      DenoteLast(g, c[..n], c[n], k);
      JoinDenote(g, a, c[..n], k);
      assert ItemsFinite(g, a + c, k);
      DenoteLast(g, a + c[..n], c[n], k);
    }
  }

  lemma EmptyDenotes(g: Graph, k: nat)
    ensures ItemsFinite(g, [], k) && DenoteItems(g, [], k) == map[]
  {
  }

  lemma {:induction false} DenoteTexts(g: Graph, c: seq<Item>, k: nat, t: string)
    requires ItemsFinite(g, c, k)
    ensures t in DenoteItems(g, c, k) <==> HasText(c, t)
  {
    if c != [] {
      var n := |c| - 1;
      assert c == c[..n] + [c[n]];
      DenoteLast(g, c[..n], c[n], k);
      DenoteTexts(g, c[..n], k, t);
    }
  }

  lemma TwoLast(g: Graph, a: seq<Item>, x: Item, y: Item, k: nat)
    requires ItemsFinite(g, a, k) && Finite(g, x.value, k) && Finite(g, y.value, k)
    ensures ItemsFinite(g, a + [x, y], k)
    ensures DenoteItems(g, a + [x, y], k)
            == DenoteItems(g, a, k)[x.text := Denote(g, x.value, k)][y.text := Denote(g, y.value, k)]
  {
    assert a + [x, y] == (a + [x]) + [y];
    DenoteLast(g, a, x, k);
    DenoteLast(g, a + [x], y, k);
  }

  lemma OneItem(g: Graph, m: Id, t: string, a: Id, k: nat)
    requires k > 1 && m in g.nodes && g.nodes[m] == Mapping([Item(t, a)]) && Finite(g, a, k - 1)
    ensures Finite(g, m, k) && Denote(g, m, k) == Dict(map[t := Denote(g, a, k - 1)])
  {
    var items := [Item(t, a)];
    assert [] + items == items;
    DenoteLast(g, [], Item(t, a), k - 1);
  }

  lemma TwoItems(g: Graph, m: Id, t: string, a: Id, u: string, b: Id, k: nat)
    requires k > 1 && m in g.nodes && g.nodes[m] == Mapping([Item(t, a), Item(u, b)])
    requires Finite(g, a, k - 1) && Finite(g, b, k - 1)
    ensures Finite(g, m, k)
    ensures Denote(g, m, k) == Dict(map[t := Denote(g, a, k - 1)][u := Denote(g, b, k - 1)])
  {
    assert [] + [Item(t, a), Item(u, b)] == [Item(t, a), Item(u, b)];
    TwoLast(g, [], Item(t, a), Item(u, b), k - 1);
  }

  /** Swapping two neighbouring items changes the result exactly when their keys have the same
      text, their values differ, and no later item has that text as well. */
  lemma SwapMatters(g: Graph, a: seq<Item>, x: Item, y: Item, c: seq<Item>, k: nat)
    requires ItemsFinite(g, a, k) && ItemsFinite(g, c, k) && Finite(g, x.value, k) && Finite(g, y.value, k)
    ensures ItemsFinite(g, a + [x, y] + c, k) && ItemsFinite(g, a + [y, x] + c, k)
    ensures DenoteItems(g, a + [x, y] + c, k) == DenoteItems(g, a + [y, x] + c, k) <==>
              x.text != y.text || Denote(g, x.value, k) == Denote(g, y.value, k) || HasText(c, x.text)
  {
    TwoLast(g, a, x, y, k);
    TwoLast(g, a, y, x, k);
    JoinDenote(g, a + [x, y], c, k);
    JoinDenote(g, a + [y, x], c, k);
    DenoteTexts(g, c, k, x.text);
    hide Denote, DenoteItems, Finite;
    SwapMaps(DenoteItems(g, a, k), DenoteItems(g, c, k), x.text, Denote(g, x.value, k), y.text, Denote(g, y.value, k));
  }

  lemma SwapMaps(m: map<string, Canon>, c: map<string, Canon>, s: string, u: Canon, t: string, v: Canon)
    ensures m[s := u][t := v] + c == m[t := v][s := u] + c <==> s != t || u == v || s in c
  {
    var m1, m2 := m[s := u][t := v] + c, m[t := v][s := u] + c;
    if s == t && s !in c { assert m1[s] == v && m2[s] == u; }
  }
}
