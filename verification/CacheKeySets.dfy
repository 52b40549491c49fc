/** What the normal form of a set depends on: its elements and not their order, and nothing tells it
    from a list of them in the order of their texts. */
module CacheKeySets {
  import opened Core
  import opened CacheKey
  import opened CacheKeyText
  import opened CacheKeyMeaning
  import opened CacheKeyOrder

  lemma SequenceMeaning(g: Graph, n: Id, k: nat)
    requires Closed(g) && Finite(g, n, k)
    ensures k > 0 && n in g.nodes
    ensures g.nodes[n].SetOf? ==>
              && ListFinite(g, g.nodes[n].members, k - 1)
              && Normalize(g, n, {}) == Ok(Array(SortValues(DenoteList(g, g.nodes[n].members, k - 1))))
    ensures g.nodes[n].List? ==>
              && ListFinite(g, g.nodes[n].elements, k - 1)
              && Normalize(g, n, {}) == Ok(Array(DenoteList(g, g.nodes[n].elements, k - 1)))
  {
    Computes(g, n, {}, k);
    hide Normalize;
    if g.nodes[n].SetOf? { assert forall c :: c in g.nodes[n].members ==> Child(g.nodes[n], c); }
    if g.nodes[n].List? { assert forall c :: c in g.nodes[n].elements ==> Child(g.nodes[n], c); }
  }

  /** Two sets have the same normal form if and only if their elements have the same normal forms,
      each as often, in whatever order they are iterated. */
  lemma SetsAgreeIff(g: Graph, n: Id, g': Graph, m: Id, k: nat)
    requires Closed(g) && Closed(g') && Finite(g, n, k) && Finite(g', m, k) && g.nodes[n].SetOf? && g'.nodes[m].SetOf?
    ensures ListFinite(g, g.nodes[n].members, k - 1) && ListFinite(g', g'.nodes[m].members, k - 1)
    ensures Normalize(g, n, {}) == Normalize(g', m, {}) <==>
              multiset(DenoteList(g, g.nodes[n].members, k - 1)) == multiset(DenoteList(g', g'.nodes[m].members, k - 1))
  {
    hide Normalize, Finite, Closed, DenoteList, SortValues;
    SequenceMeaning(g, n, k);
    SequenceMeaning(g', m, k);
    SortsAgreeIff(DenoteList(g, g.nodes[n].members, k - 1), DenoteList(g', g'.nodes[m].members, k - 1));
  }

  /** A list has the normal form of a set if and only if it has the same elements in the order of
      their texts. */
  lemma ListAgreesIff(g: Graph, n: Id, g': Graph, m: Id, k: nat)
    requires Closed(g) && Closed(g') && Finite(g, n, k) && Finite(g', m, k) && g.nodes[n].SetOf? && g'.nodes[m].List?
    ensures ListFinite(g, g.nodes[n].members, k - 1) && ListFinite(g', g'.nodes[m].elements, k - 1)
    ensures var a, b := DenoteList(g, g.nodes[n].members, k - 1), DenoteList(g', g'.nodes[m].elements, k - 1);
      Normalize(g, n, {}) == Normalize(g', m, {}) <==> InOrder(b) && multiset(a) == multiset(b)
  {
    hide Normalize, Finite, Closed, DenoteList, SortValues, InOrder;
    SequenceMeaning(g, n, k);
    SequenceMeaning(g', m, k);
    var a, b := DenoteList(g, g.nodes[n].members, k - 1), DenoteList(g', g'.nodes[m].elements, k - 1);
    SortInOrder(a);
    assert multiset(SortValues(a)) == multiset(a);
    if InOrder(b) && multiset(a) == multiset(b) { InOrderUnique(SortValues(a), b); }
  }

  /** Two numbers in both orders, as sets and as lists. */
  function Pairs(a: Token, b: Token): Graph {
    Graph(map[0 := Constant(a), 1 := Constant(b), 2 := SetOf([0, 1]), 3 := SetOf([1, 0]), 4 := List([0, 1]),
              5 := List([1, 0])], map[], 1)
  }

  lemma PairsFinite(a: Token, b: Token)
    ensures Closed(Pairs(a, b)) && Finite(Pairs(a, b), 0, 1) && Finite(Pairs(a, b), 1, 1)
    ensures forall n: nat :: 2 <= n < 6 ==> Finite(Pairs(a, b), n, 2)
    ensures Denote(Pairs(a, b), 0, 1) == Literal(a) && Denote(Pairs(a, b), 1, 1) == Literal(b)
  {
    var g := Pairs(a, b);
    assert Finite(g, 0, 1) && Finite(g, 1, 1);
    forall n: nat | 2 <= n < 6 ensures Finite(g, n, 2) {
      assert forall c :: Child(g.nodes[n], c) ==> c == 0 || c == 1;
    }
  }

  lemma TwoElements(g: Graph, x: Id, y: Id, k: nat)
    requires Finite(g, x, k) && Finite(g, y, k)
    ensures ListFinite(g, [x, y], k) && DenoteList(g, [x, y], k) == [Denote(g, x, k), Denote(g, y, k)]
  {
    DenoteEach(g, [x, y], k);
    hide Finite, Denote, DenoteList;
  }

  /** Both sets and the list in order have one normal form, and the other list another. */
  lemma SetsReadAsLists(a: Token, b: Token)
    requires TextLess(a, b)
    ensures var g := Pairs(a, b);
      && Closed(g) && Normalize(g, 2, {}) == Normalize(g, 3, {}) == Normalize(g, 4, {})
      && Normalize(g, 5, {}) != Normalize(g, 2, {})
  {
    hide Normalize, Finite, Closed, Denote, DenoteList, InOrder;
    var g := Pairs(a, b);
    PairsFinite(a, b);
    TwoElements(g, 0, 1, 1);
    TwoElements(g, 1, 0, 1);
    TextLessOrder(a, b, a);
    InOrderPair(a, b);
    PairKinds(a, b);
    hide Pairs;
    SetsAgreeIff(g, 2, g, 3, 2);
    ListAgreesIff(g, 2, g, 4, 2);
    ListAgreesIff(g, 2, g, 5, 2);
    assert multiset([Literal(a), Literal(b)]) == multiset([Literal(b), Literal(a)]);
  }

  lemma PairKinds(a: Token, b: Token)
    ensures var g := Pairs(a, b);
      && g.nodes.Keys == {0, 1, 2, 3, 4, 5} && g.nodes[2] == SetOf([0, 1]) && g.nodes[3] == SetOf([1, 0])
      && g.nodes[4] == List([0, 1]) && g.nodes[5] == List([1, 0])
  {
  }

  lemma InOrderPair(a: Token, b: Token)
    requires TextLess(a, b) && !TextLess(b, a)
    ensures InOrder([Literal(a), Literal(b)]) && !InOrder([Literal(b), Literal(a)])
  {
    var back := [Literal(b), Literal(a)];
    assert TextLess(Json(back[1]), Json(back[0]));
  }
}
