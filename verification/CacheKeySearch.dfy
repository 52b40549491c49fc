/** The search as the program runs it: one stack set for the whole traversal, with each container
    added on the way in and taken off on every way out. */
module CacheKeySearch {
  import opened Core
  import opened CacheKey
  import opened CacheKeyText
  import opened CacheKeyMeaning
  import opened CacheKeyCycles

  class Stack {
    var ids: set<Id>

    constructor ()
      ensures ids == {}
    {
      ids := {};
    }
  }

  lemma {:induction false} ItemsErrorStays(g: Graph, items: seq<Item>, seen: set<Id>, bound: nat, i: nat)
    requires Closed(g) && ItemsIn(g, items, bound) && i <= |items| && NormalizeItems(g, items[..i], seen, bound).Err?
    ensures NormalizeItems(g, items, seen, bound) == NormalizeItems(g, items[..i], seen, bound)
    decreases |items|
  {
    if i == |items| {
      assert items[..i] == items;
    } else {
      var n := |items| - 1;
      assert items[..n][..i] == items[..i];
      ItemsErrorStays(g, items[..n], seen, bound, i);
    }
  }

  lemma {:induction false} ListErrorStays(g: Graph, ids: seq<Id>, seen: set<Id>, i: nat)
    requires Closed(g) && IdsIn(g, ids) && i <= |ids| && NormalizeList(g, ids[..i], seen).Err?
    ensures NormalizeList(g, ids, seen) == NormalizeList(g, ids[..i], seen)
    decreases |ids|
  {
    if i == |ids| {
      assert ids[..i] == ids;
    } else {
      var n := |ids| - 1;
      assert ids[..n][..i] == ids[..i];
      ListErrorStays(g, ids[..n], seen, i);
    }
  }

  lemma ItemsNext(g: Graph, items: seq<Item>, seen: set<Id>, bound: nat, i: nat)
    requires Closed(g) && ItemsIn(g, items, bound) && i < |items| && NormalizeItems(g, items[..i], seen, bound).Ok?
    ensures items[i] in items
    ensures NormalizeItems(g, items[..i + 1], seen, bound) ==
            match Normalize(g, items[i].value, seen)
            case Err(e) => Err(e)
            case Ok(c) => Ok(NormalizeItems(g, items[..i], seen, bound).value[items[i].text := c])
  {
    assert items[..i + 1][..i] == items[..i];
  }

  lemma ListNext(g: Graph, ids: seq<Id>, seen: set<Id>, i: nat)
    requires Closed(g) && IdsIn(g, ids) && i < |ids| && NormalizeList(g, ids[..i], seen).Ok?
    ensures NormalizeList(g, ids[..i + 1], seen) ==
            match Normalize(g, ids[i], seen)
            case Err(e) => Err(e)
            case Ok(c) => Ok(NormalizeList(g, ids[..i], seen).value + [c])
  {
    assert ids[..i + 1][..i] == ids[..i];
  }

  method SearchItems(g: Graph, items: seq<Item>, seen: Stack, bound: nat)
    returns (r: Result<map<string, Canon>, Failure>)
    requires Closed(g) && ItemsIn(g, items, bound)
    modifies seen
    ensures seen.ids == old(seen.ids) && r == NormalizeItems(g, items, old(seen.ids), bound)
    decreases |g.nodes.Keys - seen.ids|, bound, 0, |items|
  {
    hide Normalize, Closed;
    var m := map[];
    for i := 0 to |items|
      invariant seen.ids == old(seen.ids) && NormalizeItems(g, items[..i], seen.ids, bound) == Ok(m)
    {
      ItemsNext(g, items, seen.ids, bound, i);
      var value := Search(g, items[i].value, seen);
      if value.Err? {
        ItemsErrorStays(g, items, seen.ids, bound, i + 1);
        return Err(value.error);
      }
      m := m[items[i].text := value.value];
    }
    assert items[..|items|] == items;
    r := Ok(m);
  }

  method SearchList(g: Graph, ids: seq<Id>, seen: Stack) returns (r: Result<seq<Canon>, Failure>)
    requires Closed(g) && IdsIn(g, ids)
    modifies seen
    ensures seen.ids == old(seen.ids) && r == NormalizeList(g, ids, old(seen.ids))
    decreases |g.nodes.Keys - seen.ids|, g.height, 0, |ids|
  {
    hide Normalize;
    var s := [];
    for i := 0 to |ids|
      invariant seen.ids == old(seen.ids) && NormalizeList(g, ids[..i], seen.ids) == Ok(s)
    {
      ListNext(g, ids, seen.ids, i);
      var value := Search(g, ids[i], seen);
      if value.Err? {
        ListErrorStays(g, ids, seen.ids, i + 1);
        return Err(value.error);
      }
      s := s + [value.value];
    }
    assert ids[..|ids|] == ids;
    r := Ok(s);
  }

  /** _normalize_cache_value: the stack is as it was found on every return, error or not. */
  method Search(g: Graph, n: Id, seen: Stack) returns (r: Result<Canon, Failure>)
    requires Closed(g) && n in g.nodes
    modifies seen
    ensures seen.ids == old(seen.ids) && r == Normalize(g, n, old(seen.ids))
    decreases |g.nodes.Keys - seen.ids|, Rank(g, n), 2, 0
  {
    match g.nodes[n]
    case Str(text) => r := Ok(Text(text));
    case Constant(token) => r := Ok(Literal(token));
    case PathValue(text) => r := Ok(Dict(map["__path__" := Text(text)]));
    case Bytes(text) => r := Ok(Dict(map["__bytes__" := Text(text)]));
    case Enum(_, _) => r := SearchUntracked(g, n, seen);
    case Record(_, _) => r := SearchUntracked(g, n, seen);
    case Mapping(_) => r := SearchTracked(g, n, seen);
    case List(_) => r := SearchTracked(g, n, seen);
    case SetOf(_) => r := SearchTracked(g, n, seen);
    case Object(_, _) => r := SearchTracked(g, n, seen);
    case Unsupported(cls) => r := if n in seen.ids then Err(Recursive) else Err(UnsupportedType(cls));
  }

  lemma SeenFails(g: Graph, n: Id, seen: set<Id>)
    requires Closed(g) && n in g.nodes && n in seen
    requires Tracked(g.nodes[n])
    ensures Normalize(g, n, seen) == Err(Recursive)
  {
  }

  method SearchTracked(g: Graph, n: Id, seen: Stack) returns (r: Result<Canon, Failure>)
    requires Closed(g) && n in g.nodes
    requires Tracked(g.nodes[n])
    modifies seen
    ensures seen.ids == old(seen.ids) && r == Normalize(g, n, old(seen.ids))
    decreases |g.nodes.Keys - seen.ids|, Rank(g, n), 1, 0
  {
    hide Normalize, Closed, Rank;
    if n in seen.ids {
      SeenFails(g, n, seen.ids);
      return Err(Recursive);
    }
    Pushed(g, n, seen.ids);
    ghost var before := seen.ids;
    seen.ids := seen.ids + {n};
    r := SearchContainer(g, n, seen, before);
    seen.ids := seen.ids - {n};
    assert before + {n} - {n} == before;
  }

  /** Enum members and dataclass instances, which are not pushed. */
  method SearchUntracked(g: Graph, n: Id, seen: Stack) returns (r: Result<Canon, Failure>)
    requires Closed(g) && n in g.nodes && Untracked(g.nodes[n])
    modifies seen
    ensures seen.ids == old(seen.ids) && r == Normalize(g, n, old(seen.ids))
    decreases |g.nodes.Keys - seen.ids|, Rank(g, n), 1, 0
  {
    match g.nodes[n]
    case Enum(cls, v) => {
      assert Child(g.nodes[n], v);
      var value := Search(g, v, seen);
      r := if value.Ok? then Ok(Tagged("__enum__", cls, "value", value.value)) else Err(value.error);
    }
    case Record(cls, fields) => {
      assert forall item :: item in fields ==> Child(g.nodes[n], item.value);
      var state := SearchItems(g, SortItems(fields), seen, Rank(g, n));
      r := if state.Ok? then Ok(Tagged("__dataclass__", cls, "fields", Dict(state.value))) else Err(state.error);
    }
  }

  /** The branches between the push and the pop. */
  method SearchContainer(g: Graph, n: Id, seen: Stack, ghost before: set<Id>) returns (r: Result<Canon, Failure>)
    requires Closed(g) && n in g.nodes && n !in before && seen.ids == before + {n}
    requires Tracked(g.nodes[n])
    modifies seen
    ensures seen.ids == old(seen.ids) && r == Normalize(g, n, before)
    decreases |g.nodes.Keys - seen.ids|, g.height, 1, 0
  {
    match g.nodes[n]
    case Mapping(items) => {
      assert forall item :: item in items ==> Child(g.nodes[n], item.value);
      var entries := SearchItems(g, SortItems(items), seen, g.height);
      r := if entries.Ok? then Ok(Dict(entries.value)) else Err(entries.error);
    }
    case List(elements) => {
      assert forall c :: c in elements ==> Child(g.nodes[n], c);
      var values := SearchList(g, elements, seen);
      r := if values.Ok? then Ok(Array(values.value)) else Err(values.error);
    }
    case SetOf(members) => {
      assert forall c :: c in members ==> Child(g.nodes[n], c);
      var values := SearchList(g, members, seen);
      r := if values.Ok? then Ok(Array(SortValues(values.value))) else Err(values.error);
    }
    case Object(cls, state) => {
      assert Child(g.nodes[n], state);
      var inner := Search(g, state, seen);
      r := if inner.Ok? then Ok(Tagged("__object__", cls, "state", inner.value)) else Err(inner.error);
    }
  }

  /** A definition's cache key value: the normalised mapping of its fields, or a TypeError. */
  method CacheKeyValue(g: Graph, n: Id) returns (r: Result<Canon, Failure>)
    requires Closed(g) && n in g.nodes
    ensures r.Err? <==> CycleFrom(g, n) || UnsupportedFrom(g, n)
    ensures forall k :: Finite(g, n, k) ==> r == Ok(Denote(g, n, k))
  {
    var seen := new Stack();
    r := Search(g, n, seen);
    FailsExactlyOnCycles(g, n);
  }
}
