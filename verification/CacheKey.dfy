/**
 Cache-key normalisation over an object graph: a depth-first search that keeps the set of
 containers on its stack.
 */
module CacheKey {
  import opened Core
  import opened CacheKeyText

  type Id = nat

  /** An entry of a mapping, or a field of a dataclass: the text str(key) and the value. */
  datatype Item = Item(text: string, value: Id)

  datatype Node =
    | Str(text: string)
    | Constant(token: Token)                      // None, a boolean or a number, as json.dumps writes it
    | PathValue(text: string)
    | Bytes(text: string)                         // bytes or bytearray, by their base64 text
    | Enum(cls: string, value: Id)
    | Record(cls: string, fields: seq<Item>)      // a dataclass instance
    | Mapping(items: seq<Item>)                   // in insertion order
    | List(elements: seq<Id>)                     // a list or a tuple
    | SetOf(members: seq<Id>)                     // a set or a frozenset, in the order of its iteration
    | Object(cls: string, state: Id)              // any other object with a __dict__
    | Unsupported(cls: string)

  /** Enum members and dataclass instances are not on the stack set, so every cycle must pass
      through another container: rank falls along their edges. */
  datatype Graph = Graph(nodes: map<Id, Node>, rank: map<Id, nat>, height: nat)

  datatype Failure = Recursive | UnsupportedType(cls: string)

  ghost predicate Child(node: Node, c: Id) {
    match node
    case Enum(_, v) => c == v
    case Record(_, fields) => exists item :: item in fields && item.value == c
    case Mapping(items) => exists item :: item in items && item.value == c
    case List(elements) => c in elements
    case SetOf(members) => c in members
    case Object(_, state) => c == state
    case _ => false
  }

  predicate Untracked(node: Node) {
    node.Enum? || node.Record?
  }

  /** The containers that are put on the stack set. */
  predicate Tracked(node: Node) {
    node.Mapping? || node.List? || node.SetOf? || node.Object?
  }

  function Rank(g: Graph, n: Id): nat {
    if n in g.rank then g.rank[n] else 0
  }

  ghost predicate Closed(g: Graph) {
    && (forall n, c :: n in g.nodes && Child(g.nodes[n], c) ==> c in g.nodes)
    && (forall n, c :: n in g.nodes && Untracked(g.nodes[n]) && Child(g.nodes[n], c) ==> Rank(g, c) < Rank(g, n))
    && (forall n :: n in g.nodes ==> Rank(g, n) < g.height)
  }

  // ---------- sorting by key text ----------

  function InsertItem(item: Item, sorted: seq<Item>): (r: seq<Item>)
    ensures forall i :: i in r <==> i == item || i in sorted
  {
    if sorted == [] then [item]
    else
      if TextLess(item.text, sorted[0].text) then [item] + sorted
      else [sorted[0]] + InsertItem(item, sorted[1..])
  }

  /** sorted(items, key=str), stable. */
  function SortItems(items: seq<Item>): (r: seq<Item>)
    ensures forall i :: i in r <==> i in items
  {
    if items == [] then []
    else
      var last := |items| - 1;
      assert items == items[..last] + [items[last]];
      InsertItem(items[last], SortItems(items[..last]))
  }

  // ---------- the search ----------

  function Tagged(tag: string, name: string, field: string, inner: Canon): Canon {
    Dict(map[tag := Text(name), field := inner])
  }

  ghost predicate ItemsIn(g: Graph, items: seq<Item>, bound: nat) {
    forall item :: item in items ==> item.value in g.nodes && Rank(g, item.value) < bound
  }

  ghost predicate IdsIn(g: Graph, ids: seq<Id>) {
    forall i :: i in ids ==> i in g.nodes
  }

  /** The number of nodes that are not on the stack falls when one is pushed. */
  lemma Pushed(g: Graph, n: Id, seen: set<Id>)
    requires n in g.nodes && n !in seen
    ensures |g.nodes.Keys - (seen + {n})| < |g.nodes.Keys - seen|
  {
    assert g.nodes.Keys - seen == (g.nodes.Keys - (seen + {n})) + {n};
  }

  lemma ItemsOf(g: Graph, n: Id)
    requires Closed(g) && n in g.nodes
    ensures g.nodes[n].Record? ==> ItemsIn(g, SortItems(g.nodes[n].fields), Rank(g, n))
    ensures g.nodes[n].Mapping? ==> ItemsIn(g, SortItems(g.nodes[n].items), g.height)
  {
    if g.nodes[n].Record? { assert forall item :: item in g.nodes[n].fields ==> Child(g.nodes[n], item.value); }
    if g.nodes[n].Mapping? { assert forall item :: item in g.nodes[n].items ==> Child(g.nodes[n], item.value); }
  }

  lemma ValuesOf(g: Graph, n: Id)
    requires Closed(g) && n in g.nodes
    ensures g.nodes[n].Enum? ==> g.nodes[n].value in g.nodes && Rank(g, g.nodes[n].value) < Rank(g, n)
    ensures g.nodes[n].Object? ==> g.nodes[n].state in g.nodes
    ensures g.nodes[n].List? ==> IdsIn(g, g.nodes[n].elements)
    ensures g.nodes[n].SetOf? ==> IdsIn(g, g.nodes[n].members)
  {
    if g.nodes[n].Enum? { assert Child(g.nodes[n], g.nodes[n].value); }
    if g.nodes[n].Object? { assert Child(g.nodes[n], g.nodes[n].state); }
    if g.nodes[n].List? { assert forall c :: c in g.nodes[n].elements ==> Child(g.nodes[n], c); }
    if g.nodes[n].SetOf? { assert forall c :: c in g.nodes[n].members ==> Child(g.nodes[n], c); }
  }

  /** _normalize_cache_value with the stack set as a value. */
  function Normalize(g: Graph, n: Id, seen: set<Id>): Result<Canon, Failure>
    requires Closed(g) && n in g.nodes
    decreases |g.nodes.Keys - seen|, Rank(g, n), 1, 0
  {
    match g.nodes[n]
    case Str(text) => Ok(Text(text))
    case Constant(token) => Ok(Literal(token))
    case PathValue(text) => Ok(Dict(map["__path__" := Text(text)]))
    case Bytes(text) => Ok(Dict(map["__bytes__" := Text(text)]))
    case Enum(cls, v) =>
      ValuesOf(g, n);
      (match Normalize(g, v, seen)
       case Err(e) => Err(e)
       case Ok(c) => Ok(Tagged("__enum__", cls, "value", c)))
    case Record(cls, fields) =>
      ItemsOf(g, n);
      (match NormalizeItems(g, SortItems(fields), seen, Rank(g, n))
       case Err(e) => Err(e)
       case Ok(m) => Ok(Tagged("__dataclass__", cls, "fields", Dict(m))))
    case Mapping(items) =>
      if n in seen then Err(Recursive)
      else
        Pushed(g, n, seen);
        ItemsOf(g, n);
        (match NormalizeItems(g, SortItems(items), seen + {n}, g.height)
         case Err(e) => Err(e)
         case Ok(m) => Ok(Dict(m)))
    case List(elements) =>
      if n in seen then Err(Recursive)
      else
        Pushed(g, n, seen);
        ValuesOf(g, n);
        (match NormalizeList(g, elements, seen + {n})
         case Err(e) => Err(e)
         case Ok(s) => Ok(Array(s)))
    case SetOf(members) =>
      if n in seen then Err(Recursive)
      else
        Pushed(g, n, seen);
        ValuesOf(g, n);
        (match NormalizeList(g, members, seen + {n})
         case Err(e) => Err(e)
         case Ok(s) => Ok(Array(SortValues(s))))
    case Object(cls, state) =>
      if n in seen then Err(Recursive)
      else
        Pushed(g, n, seen);
        ValuesOf(g, n);
        (match Normalize(g, state, seen + {n})
         case Err(e) => Err(e)
         case Ok(c) => Ok(Tagged("__object__", cls, "state", c)))
    case Unsupported(cls) => if n in seen then Err(Recursive) else Err(UnsupportedType(cls))
  }

  /** The dict comprehension: an item whose key text has been seen replaces the earlier value. */
  function NormalizeItems(g: Graph, items: seq<Item>, seen: set<Id>, bound: nat): Result<map<string, Canon>, Failure>
    requires Closed(g) && ItemsIn(g, items, bound)
    decreases |g.nodes.Keys - seen|, bound, 0, |items|
  {
    if items == [] then Ok(map[])
    else
      var n := |items| - 1;
      assert items[n] in items;
      match NormalizeItems(g, items[..n], seen, bound)
      case Err(e) => Err(e)
      case Ok(m) =>
        match Normalize(g, items[n].value, seen)
        case Err(e) => Err(e)
        case Ok(c) => Ok(m[items[n].text := c])
  }

  function NormalizeList(g: Graph, ids: seq<Id>, seen: set<Id>): Result<seq<Canon>, Failure>
    requires Closed(g) && IdsIn(g, ids)
    decreases |g.nodes.Keys - seen|, g.height, 0, |ids|
  {
    if ids == [] then Ok([])
    else
      var n := |ids| - 1;
      match NormalizeList(g, ids[..n], seen)
      case Err(e) => Err(e)
      case Ok(s) =>
        match Normalize(g, ids[n], seen)
        case Err(e) => Err(e)
        case Ok(c) => Ok(s + [c])
  }
}
