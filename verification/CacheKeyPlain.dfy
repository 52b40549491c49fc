/** When equal normal forms mean alike values: as long as no mapping looks like a tagged value. */
module CacheKeyPlain {
  import opened Core
  import opened CacheKey
  import opened CacheKeyText
  import opened CacheKeyMeaning
  import opened CacheKeyOrder

  function Texts(items: seq<Item>): (r: set<string>)
    ensures forall t :: t in r <==> HasText(items, t)
  {
    if items == [] then {}
    else
      var n := |items| - 1;
      assert items == items[..n] + [items[n]];
      Texts(items[..n]) + {items[n].text}
  }

  /** The keys of the five kinds of tagged dictionaries. */
  predicate TagKeys(keys: set<string>) {
    || keys == {"__path__"} || keys == {"__bytes__"} || keys == {"__enum__", "value"}
    || keys == {"__dataclass__", "fields"} || keys == {"__object__", "state"}
  }

  /** A finite value in which mappings and dataclass instances have no two keys of one text, and
      no mapping has exactly the keys of a tagged dictionary. */
  ghost predicate Plain(g: Graph, n: Id, k: nat)
    decreases k
  {
    && k > 0 && n in g.nodes && !g.nodes[n].Unsupported?
    && (g.nodes[n].Mapping? ==> DistinctTexts(g.nodes[n].items) && !TagKeys(Texts(g.nodes[n].items)))
    && (g.nodes[n].Record? ==> DistinctTexts(g.nodes[n].fields))
    && forall c :: Child(g.nodes[n], c) ==> Plain(g, c, k - 1)
  }

  ghost predicate ItemsPlain(g: Graph, items: seq<Item>, k: nat) {
    DistinctTexts(items) && forall item :: item in items ==> Plain(g, item.value, k)
  }

  lemma {:induction false} PlainIsFinite(g: Graph, n: Id, k: nat)
    requires Plain(g, n, k)
    ensures Finite(g, n, k)
    decreases k
  {
    forall c | Child(g.nodes[n], c) ensures Finite(g, c, k - 1) { PlainIsFinite(g, c, k - 1); }
  }

  lemma TextsDenoted(g: Graph, items: seq<Item>, k: nat)
    requires ItemsFinite(g, items, k)
    ensures DenoteItems(g, items, k).Keys == Texts(items)
  {
    forall t ensures t in DenoteItems(g, items, k) <==> t in Texts(items) { DenoteTexts(g, items, k, t); }
  }

  lemma ItemsArePlain(g: Graph, n: Id, k: nat)
    requires Plain(g, n, k)
    ensures Finite(g, n, k)
    ensures g.nodes[n].Mapping? ==> ItemsPlain(g, g.nodes[n].items, k - 1) && ItemsFinite(g, g.nodes[n].items, k - 1)
    ensures g.nodes[n].Record? ==> ItemsPlain(g, g.nodes[n].fields, k - 1) && ItemsFinite(g, g.nodes[n].fields, k - 1)
  {
    PlainIsFinite(g, n, k);
    if g.nodes[n].Mapping? { assert forall item :: item in g.nodes[n].items ==> Child(g.nodes[n], item.value); }
    if g.nodes[n].Record? { assert forall item :: item in g.nodes[n].fields ==> Child(g.nodes[n], item.value); }
  }

  // ---------- the keys of a normal form tell the kind of the value ----------

  /** The keys a normal form has, for a value that is normalised to a dictionary. */
  function KeysOf(node: Node): set<string> {
    match node
    case PathValue(_) => {"__path__"}
    case Bytes(_) => {"__bytes__"}
    case Enum(_, _) => {"__enum__", "value"}
    case Record(_, _) => {"__dataclass__", "fields"}
    case Mapping(items) => Texts(items)
    case Object(_, _) => {"__object__", "state"}
    case _ => {}
  }

  predicate Sequence(node: Node) {
    node.List? || node.SetOf?
  }

  predicate ToDict(node: Node) {
    !(node.Str? || node.Constant? || Sequence(node) || node.Unsupported?)
  }

  lemma DenoteKeys(g: Graph, n: Id, k: nat)
    requires Plain(g, n, k) && Finite(g, n, k)
    ensures g.nodes[n].Str? <==> Denote(g, n, k).Text?
    ensures g.nodes[n].Constant? <==> Denote(g, n, k).Literal?
    ensures Sequence(g.nodes[n]) <==> Denote(g, n, k).Array?
    ensures ToDict(g.nodes[n]) <==> Denote(g, n, k).Dict?
    ensures ToDict(g.nodes[n]) ==> Denote(g, n, k).entries.Keys == KeysOf(g.nodes[n])
  {
    ItemsArePlain(g, n, k);
    if g.nodes[n].Mapping? { TextsDenoted(g, g.nodes[n].items, k - 1); }
  }

  lemma TagsDiffer()
    ensures "__path__" != "__bytes__" && "__path__" !in {"__enum__", "value"}
    ensures "__path__" !in {"__dataclass__", "fields"} && "__path__" !in {"__object__", "state"}
    ensures "__bytes__" !in {"__enum__", "value"} && "__bytes__" !in {"__dataclass__", "fields"}
    ensures "__bytes__" !in {"__object__", "state"}
    ensures "value" !in {"__dataclass__", "fields"} && "value" !in {"__object__", "state"}
    ensures "state" !in {"__dataclass__", "fields"}
  {
    assert "__path__"[2] == 'p' && "__enum__"[2] == 'e';
    assert |"__bytes__"| == 9 && |"__path__"| == 8 && |"__enum__"| == 8 && |"__object__"| == 10;
    assert |"__dataclass__"| == 13 && |"fields"| == 6 && |"value"| == 5 && |"state"| == 5;
    assert "value"[0] == 'v' && "state"[0] == 's';
  }

  predicate SameKind(m: Node, n: Node) {
    || (m.Str? && n.Str?) || (m.Constant? && n.Constant?) || (m.PathValue? && n.PathValue?) || (m.Bytes? && n.Bytes?)
    || (m.Enum? && n.Enum?) || (m.Record? && n.Record?) || (m.Mapping? && n.Mapping?)
    || (Sequence(m) && Sequence(n)) || (m.Object? && n.Object?)
  }

  lemma KindsApart(m: Node, n: Node)
    requires ToDict(m) && ToDict(n) && KeysOf(m) == KeysOf(n)
    requires (m.Mapping? ==> !TagKeys(KeysOf(m))) && (n.Mapping? ==> !TagKeys(KeysOf(n)))
    ensures SameKind(m, n)
  {
    TagsDiffer();
    assert "__path__" in {"__path__"} && "__bytes__" in {"__bytes__"};
    assert "value" in {"__enum__", "value"} && "state" in {"__object__", "state"};
  }

  lemma SameNormalSameKind(g1: Graph, n1: Id, g2: Graph, n2: Id, k: nat)
    requires Plain(g1, n1, k) && Plain(g2, n2, k) && Finite(g1, n1, k) && Finite(g2, n2, k)
    requires Denote(g1, n1, k) == Denote(g2, n2, k)
    ensures SameKind(g1.nodes[n1], g2.nodes[n2])
  {
    DenoteKeys(g1, n1, k);
    DenoteKeys(g2, n2, k);
    hide Denote, KeysOf, TagKeys;
    MappingKeys(g1.nodes[n1]);
    MappingKeys(g2.nodes[n2]);
    if ToDict(g1.nodes[n1]) { KindsApart(g1.nodes[n1], g2.nodes[n2]); }
  }

  lemma MappingKeys(m: Node)
    ensures m.Mapping? ==> KeysOf(m) == Texts(m.items)
  {
  }

  // ---------- equal normal forms of plain values ----------

  lemma {:induction false} PlainApart(g1: Graph, n1: Id, g2: Graph, n2: Id, k: nat)
    requires Plain(g1, n1, k) && Plain(g2, n2, k) && Finite(g1, n1, k) && Finite(g2, n2, k)
    requires Denote(g1, n1, k) == Denote(g2, n2, k)
    ensures Alike(g1, n1, g2, n2, k)
    decreases k, 1
  {
    SameNormalSameKind(g1, n1, g2, n2, k);
    hide Denote, Plain, Alike;
    if g1.nodes[n1].SetOf? || g2.nodes[n2].SetOf? {
      SetsApart(g1, n1, Members(g1.nodes[n1]), g2, n2, Members(g2.nodes[n2]), k);
    } else {
      OthersApart(g1, n1, g2, n2, k);
    }
  }

  lemma {:induction false} OthersApart(g1: Graph, n1: Id, g2: Graph, n2: Id, k: nat)
    requires Plain(g1, n1, k) && Plain(g2, n2, k) && Finite(g1, n1, k) && Finite(g2, n2, k)
    requires Denote(g1, n1, k) == Denote(g2, n2, k) && SameKind(g1.nodes[n1], g2.nodes[n2])
    requires !g1.nodes[n1].SetOf? && !g2.nodes[n2].SetOf?
    ensures Alike(g1, n1, g2, n2, k)
    decreases k, 0
  {
    ItemsArePlain(g1, n1, k);
    ItemsArePlain(g2, n2, k);
    match (g1.nodes[n1], g2.nodes[n2])
    case (Enum(c, a), Enum(d, b)) => {
      assert Child(g1.nodes[n1], a) && Child(g2.nodes[n2], b);
      TaggedApart("__enum__", "value", c, Denote(g1, a, k - 1), d, Denote(g2, b, k - 1));
      PlainApart(g1, a, g2, b, k - 1);
    }
    case (Object(c, a), Object(d, b)) => {
      assert Child(g1.nodes[n1], a) && Child(g2.nodes[n2], b);
      TaggedApart("__object__", "state", c, Denote(g1, a, k - 1), d, Denote(g2, b, k - 1));
      PlainApart(g1, a, g2, b, k - 1);
    }
    case (Record(c, xs), Record(d, ys)) => {
      TaggedApart("__dataclass__", "fields", c, Dict(DenoteItems(g1, xs, k - 1)), d, Dict(DenoteItems(g2, ys, k - 1)));
      ItemsApart(g1, xs, g2, ys, k - 1);
    }
    case (Mapping(xs), Mapping(ys)) => ItemsApart(g1, xs, g2, ys, k - 1);
    case (List(xs), List(ys)) => {
      assert forall c :: c in xs ==> Child(g1.nodes[n1], c);
      assert forall c :: c in ys ==> Child(g2.nodes[n2], c);
      ListApart(g1, xs, g2, ys, k - 1);
    }
    case (PathValue(a), PathValue(b)) => SingleApart("__path__", a, b);
    case (Bytes(a), Bytes(b)) => SingleApart("__bytes__", a, b);
    case _ =>
  }

  function Members(node: Node): seq<Id>
    requires Sequence(node)
  {
    if node.List? then node.elements else node.members
  }

  /** At least one of them a set: the elements are matched, whatever their order. */
  lemma {:induction false} SetsApart(g1: Graph, n1: Id, xs: seq<Id>, g2: Graph, n2: Id, ys: seq<Id>, k: nat)
    requires Plain(g1, n1, k) && Plain(g2, n2, k) && Finite(g1, n1, k) && Finite(g2, n2, k)
    requires Sequence(g1.nodes[n1]) && Sequence(g2.nodes[n2]) && !(g1.nodes[n1].List? && g2.nodes[n2].List?)
    requires xs == Members(g1.nodes[n1]) && ys == Members(g2.nodes[n2]) && Denote(g1, n1, k) == Denote(g2, n2, k)
    ensures Alike(g1, n1, g2, n2, k)
    decreases k, 0
  {
    assert forall c :: c in xs ==> Child(g1.nodes[n1], c);
    assert forall c :: c in ys ==> Child(g2.nodes[n2], c);
    var a, b := DenoteList(g1, xs, k - 1), DenoteList(g2, ys, k - 1);
    SortInOrder(a);
    SortInOrder(b);
    assert multiset(SortValues(a)) == multiset(a) && multiset(SortValues(b)) == multiset(b);
    assert g1.nodes[n1].List? ==> a == SortValues(b);
    assert g2.nodes[n2].List? ==> b == SortValues(a);
    MembersApart(g1, xs, g2, ys, k - 1);
  }

  lemma {:induction false} MembersApart(g1: Graph, xs: seq<Id>, g2: Graph, ys: seq<Id>, k: nat)
    requires ListFinite(g1, xs, k) && ListFinite(g2, ys, k)
    requires multiset(DenoteList(g1, xs, k)) == multiset(DenoteList(g2, ys, k))
    requires (forall i :: i in xs ==> Plain(g1, i, k)) && (forall i :: i in ys ==> Plain(g2, i, k))
    ensures Matched(g1, xs, g2, ys, k)
    decreases k, 2, |xs|
  {
    DenoteEach(g1, xs, k);
    DenoteEach(g2, ys, k);
    var a, b := DenoteList(g1, xs, k), DenoteList(g2, ys, k);
    assert |a| == |multiset(a)| == |multiset(b)| == |b|;
    if xs != [] {
      var last := |xs| - 1;
      assert a[last] in multiset(b);
      var j :| 0 <= j < |b| && b[j] == a[last];
      PlainApart(g1, xs[last], g2, ys[j], k);
      WithoutPlain(g2, ys, j, k);
      DenoteWithout(g2, ys, j, k);
      assert Without(xs, last) == xs[..last];
      DenoteWithout(g1, xs, last, k);
      hide Plain, Finite, Denote, DenoteList, Alike;
      Cancelled(multiset(DenoteList(g1, xs[..last], k)), multiset(DenoteList(g2, Without(ys, j), k)), a[last]);
      MembersApart(g1, xs[..last], g2, Without(ys, j), k);
    }
  }

  lemma Cancelled(a: multiset<Canon>, b: multiset<Canon>, c: Canon)
    requires a + multiset{c} == b + multiset{c}
    ensures a == b
  {
    assert a == (a + multiset{c}) - multiset{c};
  }

  lemma WithoutPlain(g: Graph, ids: seq<Id>, j: nat, k: nat)
    requires j < |ids| && ListFinite(g, ids, k) && forall i :: i in ids ==> Plain(g, i, k)
    ensures ListFinite(g, Without(ids, j), k) && forall i :: i in Without(ids, j) ==> Plain(g, i, k)
  {
    assert forall i :: i in Without(ids, j) ==> i in ids;
  }

  lemma SingleApart(tag: string, a: string, b: string)
    requires map[tag := Text(a)] == map[tag := Text(b)]
    ensures a == b
  {
    assert map[tag := Text(a)][tag] == map[tag := Text(b)][tag];
  }

  lemma TaggedApart(tag: string, field: string, c: string, u: Canon, d: string, v: Canon)
    requires tag != field && Tagged(tag, c, field, u) == Tagged(tag, d, field, v)
    ensures c == d && u == v
  {
    var m, n := Tagged(tag, c, field, u).entries, Tagged(tag, d, field, v).entries;
    assert m[tag] == n[tag] && m[field] == n[field];
  }

  lemma {:induction false} ItemsApart(g1: Graph, xs: seq<Item>, g2: Graph, ys: seq<Item>, k: nat)
    requires ItemsPlain(g1, xs, k) && ItemsPlain(g2, ys, k) && ItemsFinite(g1, xs, k) && ItemsFinite(g2, ys, k)
    requires DenoteItems(g1, xs, k) == DenoteItems(g2, ys, k)
    ensures ItemsAlike(g1, xs, g2, ys, k)
    decreases k, 2
  {
    DenoteAt(g1, xs, k);
    DenoteAt(g2, ys, k);
    forall x | x in xs ensures exists y :: y in ys && y.text == x.text && Alike(g1, x.value, g2, y.value, k) {
      assert x.text in DenoteItems(g2, ys, k);
      var y :| y in ys && y.text == x.text;
      PlainApart(g1, x.value, g2, y.value, k);
    }
    forall y | y in ys ensures exists x :: x in xs && x.text == y.text {
      assert y.text in DenoteItems(g1, xs, k);
    }
  }

  lemma {:induction false} ListApart(g1: Graph, xs: seq<Id>, g2: Graph, ys: seq<Id>, k: nat)
    requires ListFinite(g1, xs, k) && ListFinite(g2, ys, k) && DenoteList(g1, xs, k) == DenoteList(g2, ys, k)
    requires (forall i :: i in xs ==> Plain(g1, i, k)) && (forall i :: i in ys ==> Plain(g2, i, k))
    ensures |xs| == |ys| && forall i :: 0 <= i < |xs| ==> Alike(g1, xs[i], g2, ys[i], k)
    decreases k, 2, |xs|
  {
    hide Plain, Alike, Finite, Denote, DenoteList;
    DenoteEach(g1, xs, k);
    DenoteEach(g2, ys, k);
    forall i | 0 <= i < |xs| ensures Alike(g1, xs[i], g2, ys[i], k) { PlainApart(g1, xs[i], g2, ys[i], k); }
  }

  /** Plain values have the same normal form if and only if they are alike. */
  lemma NormalFormsTellApart(g1: Graph, n1: Id, g2: Graph, n2: Id, k: nat)
    requires Closed(g1) && Closed(g2) && Plain(g1, n1, k) && Plain(g2, n2, k)
    ensures Normalize(g1, n1, {}).Ok?
    ensures Normalize(g1, n1, {}) == Normalize(g2, n2, {}) <==> Alike(g1, n1, g2, n2, k)
  {
    PlainIsFinite(g1, n1, k);
    PlainIsFinite(g2, n2, k);
    Computes(g1, n1, {}, k);
    Computes(g2, n2, {}, k);
    if Denote(g1, n1, k) == Denote(g2, n2, k) { PlainApart(g1, n1, g2, n2, k); }
    if Alike(g1, n1, g2, n2, k) { AlikeDenote(g1, n1, g2, n2, k); }
  }

  // ---------- what the exception is for ----------

  /** The mapping m has the entries of the tagged dictionary that n is normalised to; a is a text
      and b, for a dataclass instance, a mapping of its fields. */
  predicate LooksLike(g: Graph, m: Id, n: Id, a: Id, b: Id) {
    && m in g.nodes && n in g.nodes && a in g.nodes && b in g.nodes
    && match g.nodes[n]
       case PathValue(text) => g.nodes[m] == Mapping([Item("__path__", a)]) && g.nodes[a] == Str(text)
       case Bytes(text) => g.nodes[m] == Mapping([Item("__bytes__", a)]) && g.nodes[a] == Str(text)
       case Enum(cls, v) =>
         g.nodes[m] == Mapping([Item("__enum__", a), Item("value", v)]) && g.nodes[a] == Str(cls)
       case Record(cls, fields) =>
         && g.nodes[m] == Mapping([Item("__dataclass__", a), Item("fields", b)])
         && g.nodes[a] == Str(cls) && g.nodes[b] == Mapping(fields)
       case Object(cls, state) =>
         g.nodes[m] == Mapping([Item("__object__", a), Item("state", state)]) && g.nodes[a] == Str(cls)
       case _ => false
  }

  lemma SameFields(g: Graph, n: Id, b: Id, k: nat)
    requires n in g.nodes && g.nodes[n].Record? && Finite(g, n, k)
    requires b in g.nodes && g.nodes[b] == Mapping(g.nodes[n].fields)
    ensures Finite(g, b, k)
    ensures Denote(g, n, k) == Tagged("__dataclass__", g.nodes[n].cls, "fields", Denote(g, b, k))
  {
    assert forall c :: Child(g.nodes[b], c) ==> Child(g.nodes[n], c);
  }

  lemma TagsCollide(g: Graph, n: Id, m: Id, a: Id, b: Id, k: nat)
    requires Closed(g) && Finite(g, n, k) && LooksLike(g, m, n, a, b)
    ensures Finite(g, m, k + 1) && Finite(g, n, k + 1) && Denote(g, m, k + 1) == Denote(g, n, k + 1)
  {
    FiniteMore(g, n, k, k + 1);
    DenoteSame(g, n, k, k + 1);
    assert Finite(g, a, k) && Denote(g, a, k) == Text(g.nodes[a].text);
    if g.nodes[n].PathValue? || g.nodes[n].Bytes? {
      TextCollides(g, n, m, a, b, k);
    } else {
      PairCollides(g, n, m, a, b, k);
    }
  }

  lemma TextCollides(g: Graph, n: Id, m: Id, a: Id, b: Id, k: nat)
    requires Finite(g, n, k) && LooksLike(g, m, n, a, b) && (g.nodes[n].PathValue? || g.nodes[n].Bytes?)
    requires Finite(g, a, k) && Denote(g, a, k) == Text(g.nodes[a].text)
    ensures Finite(g, m, k + 1) && Denote(g, m, k + 1) == Denote(g, n, k)
  {
    OneItem(g, m, if g.nodes[n].PathValue? then "__path__" else "__bytes__", a, k + 1);
  }

  lemma PairCollides(g: Graph, n: Id, m: Id, a: Id, b: Id, k: nat)
    requires Finite(g, n, k) && LooksLike(g, m, n, a, b) && !g.nodes[n].PathValue? && !g.nodes[n].Bytes?
    requires Finite(g, n, k + 1) && Denote(g, n, k + 1) == Denote(g, n, k)
    requires Finite(g, a, k) && Denote(g, a, k) == Text(g.nodes[a].text)
    ensures Finite(g, m, k + 1) && Denote(g, m, k + 1) == Denote(g, n, k + 1)
  {
    match g.nodes[n]
    case Enum(_, v) =>
      assert Child(g.nodes[n], v);
      TwoItems(g, m, "__enum__", a, "value", v, k + 1);
    case Record(_, _) =>
      SameFields(g, n, b, k);
      TwoItems(g, m, "__dataclass__", a, "fields", b, k + 1);
    case Object(_, v) =>
      assert Child(g.nodes[n], v);
      TwoItems(g, m, "__object__", a, "state", v, k + 1);
  }

  lemma TagsNotAlike(g: Graph, n: Id, m: Id, a: Id, b: Id, k: nat)
    requires LooksLike(g, m, n, a, b)
    ensures !Alike(g, m, g, n, k)
  {
  }

  /** Each of the five tags can be imitated: the mapping has the normal form of the tagged value,
      though the two are not alike. */
  lemma TagsAreNotUnique(g: Graph, n: Id, m: Id, a: Id, b: Id, k: nat)
    requires Closed(g) && Finite(g, n, k) && LooksLike(g, m, n, a, b)
    ensures Normalize(g, m, {}) == Normalize(g, n, {}) && Normalize(g, n, {}).Ok?
    ensures forall j :: !Alike(g, m, g, n, j)
  {
    TagsCollide(g, n, m, a, b, k);
    forall j ensures !Alike(g, m, g, n, j) { TagsNotAlike(g, n, m, a, b, j); }
    hide Finite, Denote, LooksLike, Alike, Closed;
    Computes(g, n, {}, k + 1);
    Computes(g, m, {}, k + 1);
  }
}
