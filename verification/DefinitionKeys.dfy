/** What a handler definition's key says about the definition. */
module DefinitionKeys {
  import opened Core
  import opened CacheKey
  import opened CacheKeyText
  import opened CacheKeyMeaning
  import opened CacheKeyCycles
  import opened CacheKeyOrder
  import opened CacheKeyPlain
  import opened CacheKeySearch
  import opened HandlerCache

  // ---------- the key is a normal form ----------

  /** The six entries that cache_key normalises. */
  function Entries(name: Id, entrypoint: Id, d: Definition, mode: Id): seq<Item> {
    [Item("handler_name", name), Item("entrypoint", entrypoint), Item("init_context", d.context),
     Item("init_kwargs", d.kwargs), Item("metadata", d.metadata), Item("reuse_mode", mode)]
  }

  /** root is the mapping that cache_key builds; name, entrypoint and mode are its texts. */
  predicate RootOf(d: Definition, root: Id, name: Id, entrypoint: Id, mode: Id) {
    var nodes := d.graph.nodes;
    && root in nodes && name in nodes && entrypoint in nodes && mode in nodes
    && nodes[root] == Mapping(Entries(name, entrypoint, d, mode))
    && nodes[name] == Str(d.name) && nodes[entrypoint] == Str(d.entrypoint)
    && nodes[mode] == Str(ReuseMode(d.transient))
  }

  lemma EntriesDenote(d: Definition, name: Id, entrypoint: Id, mode: Id, k: nat)
    requires ItemsFinite(d.graph, Entries(name, entrypoint, d, mode), k)
    ensures Finite(d.graph, name, k) && Finite(d.graph, entrypoint, k) && Finite(d.graph, mode, k)
    ensures Finite(d.graph, d.context, k) && Finite(d.graph, d.kwargs, k) && Finite(d.graph, d.metadata, k)
    ensures DenoteItems(d.graph, Entries(name, entrypoint, d, mode), k) ==
            map["handler_name" := Denote(d.graph, name, k)]["entrypoint" := Denote(d.graph, entrypoint, k)]
               ["init_context" := Denote(d.graph, d.context, k)]["init_kwargs" := Denote(d.graph, d.kwargs, k)]
               ["metadata" := Denote(d.graph, d.metadata, k)]["reuse_mode" := Denote(d.graph, mode, k)]
  {
    var g, all := d.graph, Entries(name, entrypoint, d, mode);
    forall i | 0 <= i < 6 ensures Finite(g, all[i].value, k) { assert all[i] in all; }
    assert all[0].value == name && all[1].value == entrypoint && all[2].value == d.context;
    assert all[3].value == d.kwargs && all[4].value == d.metadata && all[5].value == mode;
    hide Finite, Denote;
    assert all == [] + [all[0], all[1]] + [all[2], all[3]] + [all[4], all[5]];
    TwoLast(g, [], all[0], all[1], k);
    TwoLast(g, [] + [all[0], all[1]], all[2], all[3], k);
    TwoLast(g, [] + [all[0], all[1]] + [all[2], all[3]], all[4], all[5], k);
  }

  lemma ScalarDenotes(g: Graph, n: Id, k: nat)
    requires k > 0 && n in g.nodes && g.nodes[n].Str?
    ensures Finite(g, n, k) && Denote(g, n, k) == Text(g.nodes[n].text)
  {
  }

  lemma RootFinite(d: Definition, root: Id, name: Id, entrypoint: Id, mode: Id, k: nat)
    requires RootOf(d, root, name, entrypoint, mode) && k > 0
    requires Finite(d.graph, d.context, k) && Finite(d.graph, d.kwargs, k) && Finite(d.graph, d.metadata, k)
    ensures Finite(d.graph, root, k + 1)
  {
    ScalarDenotes(d.graph, name, k);
    ScalarDenotes(d.graph, entrypoint, k);
    ScalarDenotes(d.graph, mode, k);
    hide Settings.Valid;
    forall c | Child(d.graph.nodes[root], c) ensures Finite(d.graph, c, k) {
      var item :| item in Entries(name, entrypoint, d, mode) && item.value == c;
    }
  }

  lemma RootDenotes(d: Definition, root: Id, name: Id, entrypoint: Id, mode: Id, k: nat)
    requires RootOf(d, root, name, entrypoint, mode) && Finite(d.graph, root, k)
    ensures k > 1 && Finite(d.graph, d.context, k - 1) && Finite(d.graph, d.kwargs, k - 1)
    ensures Finite(d.graph, d.metadata, k - 1)
    ensures Denote(d.graph, root, k) == KeyOf(d, Denote(d.graph, d.context, k - 1), Denote(d.graph, d.kwargs, k - 1),
                                              Denote(d.graph, d.metadata, k - 1))
  {
    hide Settings.Valid;
    var g, all := d.graph, Entries(name, entrypoint, d, mode);
    forall item | item in all ensures Finite(g, item.value, k - 1) { assert Child(g.nodes[root], item.value); }
    assert all[0] in all;
    EntriesDenote(d, name, entrypoint, mode, k - 1);
    ScalarDenotes(g, name, k - 1);
    ScalarDenotes(g, entrypoint, k - 1);
    ScalarDenotes(g, mode, k - 1);
    assert Denote(g, root, k) == Dict(DenoteItems(g, all, k - 1));
    hide Denote, DenoteItems, Finite;
  }

  lemma SettingsFinite(d: Definition) returns (k: nat)
    requires KeyValue(d).Some?
    ensures k > 0 && Finite(d.graph, d.context, k) && Finite(d.graph, d.kwargs, k) && Finite(d.graph, d.metadata, k)
  {
    var a := Accepted(d.graph, d.context, {});
    var b := Accepted(d.graph, d.kwargs, {});
    var c := Accepted(d.graph, d.metadata, {});
    k := a + b + c + 1;
    FiniteMore(d.graph, d.context, a, k);
    FiniteMore(d.graph, d.kwargs, b, k);
    FiniteMore(d.graph, d.metadata, c, k);
  }

  lemma RootKey(d: Definition, root: Id, name: Id, entrypoint: Id, mode: Id, k: nat)
    requires RootOf(d, root, name, entrypoint, mode) && Finite(d.graph, root, k)
    ensures KeyValue(d).Some? && Normalize(d.graph, root, {}) == Ok(KeyValue(d).value)
  {
    RootDenotes(d, root, name, entrypoint, mode, k);
    Computes(d.graph, root, {}, k);
    Computes(d.graph, d.context, {}, k - 1);
    Computes(d.graph, d.kwargs, {}, k - 1);
    Computes(d.graph, d.metadata, {}, k - 1);
    hide Normalize, Denote, Finite, KeyOf, RootOf;
  }

  /** The key is the JSON text of the normal form of the mapping of the definition's six fields, and
      there is none exactly when normalisation fails. */
  lemma KeyIsNormalForm(d: Definition, root: Id, name: Id, entrypoint: Id, mode: Id)
    requires RootOf(d, root, name, entrypoint, mode)
    ensures Key(d).Some? <==> Normalize(d.graph, root, {}).Ok?
    ensures Key(d).Some? ==> Key(d).value == Json(Normalize(d.graph, root, {}).value)
  {
    SameKeys(d, d);
    hide Normalize, KeyValue, Finite, Json;
    if Key(d).Some? {
      var k := SettingsFinite(d);
      RootFinite(d, root, name, entrypoint, mode, k);
      RootKey(d, root, name, entrypoint, mode, k + 1);
    } else if Normalize(d.graph, root, {}).Ok? {
      var k := Accepted(d.graph, root, {});
      RootKey(d, root, name, entrypoint, mode, k);
    }
  }

  /** cache_key as it is computed: a search of the mapping of the six fields with a fresh stack, and
      the JSON text of what it returns. */
  method ComputeKey(d: Definition, root: Id, name: Id, entrypoint: Id, mode: Id) returns (key: Option<KeyText>)
    requires RootOf(d, root, name, entrypoint, mode)
    ensures key == Key(d)
  {
    KeyIsNormalForm(d, root, name, entrypoint, mode);
    var seen := new Stack();
    var r := Search(d.graph, root, seen);
    hide Key, Normalize, Json;
    key := if r.Ok? then Some(Json(r.value)) else None;
  }

  // ---------- definitions with equal keys ----------

  /** The three settings are plain values. */
  ghost predicate PlainSettings(d: Definition, k: nat) {
    Plain(d.graph, d.context, k) && Plain(d.graph, d.kwargs, k) && Plain(d.graph, d.metadata, k)
  }

  /** Two definitions say the same, up to sharing, the order of mapping items and of set elements, and
      a list in the order of its texts standing for a set. */
  ghost predicate SameDefinition(d: Definition, e: Definition, k: nat) {
    && d.name == e.name && d.entrypoint == e.entrypoint && d.transient == e.transient
    && Alike(d.graph, d.context, e.graph, e.context, k) && Alike(d.graph, d.kwargs, e.graph, e.kwargs, k)
    && Alike(d.graph, d.metadata, e.graph, e.metadata, k)
  }

  /** Definitions with plain settings have the same key if and only if they say the same. */
  lemma KeyTellsApart(d: Definition, e: Definition, k: nat)
    requires PlainSettings(d, k) && PlainSettings(e, k)
    ensures Key(d).Some? && Key(e).Some?
    ensures Key(d) == Key(e) <==> SameDefinition(d, e, k)
  {
    NormalFormsTellApart(d.graph, d.context, e.graph, e.context, k);
    NormalFormsTellApart(d.graph, d.kwargs, e.graph, e.kwargs, k);
    NormalFormsTellApart(d.graph, d.metadata, e.graph, e.metadata, k);
    NormalFormsTellApart(e.graph, e.context, e.graph, e.context, k);
    NormalFormsTellApart(e.graph, e.kwargs, e.graph, e.kwargs, k);
    NormalFormsTellApart(e.graph, e.metadata, e.graph, e.metadata, k);
    hide Normalize, Plain, Alike, Closed;
    if Key(d) == Key(e) { KeyParts(d, e); }
  }

  /** In every run, an execution under a definition with plain settings gets a handler that was
      loaded under the same definition, provided that one's settings were plain too. */
  lemma InstanceOfSameDefinition(states: seq<State>, events: seq<Event>, i: nat, name: Name, ok: bool, k: nat)
    requires Run(states, events) && i < |states| && Find(states[i].registry, name).Some?
    ensures var d := Find(states[i].registry, name).value;
            var r := Obtain(states[i].cache, d, ok).1;
      r.Ok? && PlainSettings(d, k) && PlainSettings(r.value.definition, k) ==> SameDefinition(r.value.definition, d, k)
  {
    CacheAgreesWithRegistry(states, events, i, name, ok);
    var d := Find(states[i].registry, name).value;
    var r := Obtain(states[i].cache, d, ok).1;
    if r.Ok? && PlainSettings(d, k) && PlainSettings(r.value.definition, k) {
      KeyTellsApart(r.value.definition, d, k);
    }
  }

  // ---------- a stale instance ----------

  /** A path, the mapping that looks like it, and a keyword dictionary holding each. */
  function LookAlikes(text: string): Graph {
    Graph(map[0 := Mapping([]), 1 := PathValue(text), 2 := Mapping([Item("p", 1)]),
              3 := Mapping([Item("__path__", 4)]), 4 := Str(text), 5 := Mapping([Item("p", 3)])], map[], 1)
  }

  lemma LookAlikesClosed(text: string)
    ensures Closed(LookAlikes(text))
    ensures Finite(LookAlikes(text), 0, 4) && Finite(LookAlikes(text), 1, 1) && Finite(LookAlikes(text), 4, 1)
  {
    var g := LookAlikes(text);
    forall n, c | n in g.nodes && Child(g.nodes[n], c) ensures c in g.nodes {}
  }

  function WithKwargs(name: Name, text: string, kwargs: Id): Definition
    requires kwargs in LookAlikes(text).nodes
  {
    LookAlikesClosed(text);
    Settings(name, "", LookAlikes(text), 0, kwargs, 0, false)
  }

  lemma LookAlikesSameKey(name: Name, text: string)
    ensures Key(WithKwargs(name, text, 2)).Some?
    ensures Key(WithKwargs(name, text, 2)) == Key(WithKwargs(name, text, 5))
    ensures forall k: nat :: !Alike(LookAlikes(text), 2, LookAlikes(text), 5, k)
  {
    var g := LookAlikes(text);
    LookAlikesClosed(text);
    OneItem(g, 2, "p", 1, 2);
    OneItem(g, 3, "__path__", 4, 2);
    OneItem(g, 5, "p", 3, 3);
    assert Denote(g, 1, 1) == Denote(g, 3, 2);
    Computes(g, 0, {}, 4);
    Computes(g, 2, {}, 2);
    Computes(g, 5, {}, 3);
    hide Normalize, Closed, Denote;
    forall k: nat ensures !Alike(g, 2, g, 5, k) { LookAlikesApart(text, k); }
  }

  lemma LookAlikesApart(text: string, k: nat)
    ensures !Alike(LookAlikes(text), 2, LookAlikes(text), 5, k)
  {
    var g := LookAlikes(text);
    if k > 0 {
      assert [Item("p", 1)][0] in [Item("p", 1)];
      assert forall y :: y in [Item("p", 3)] ==> !Alike(g, 1, g, y.value, k - 1);
      assert !ItemsAlike(g, [Item("p", 1)], g, [Item("p", 3)], k - 1);
    }
  }

  /** A path in the keyword arguments is replaced by the mapping that looks like it: the handler
      registered now is never loaded, and executions go on with the old one. */
  lemma StaleInstance(name: Name, text: string, ok: bool)
    ensures var d, e := WithKwargs(name, text, 2), WithKwargs(name, text, 5);
            var first := Step(Step(State([], Cache(map[], map[], 0)), Register(d)), Execute(name, true));
            var now := Step(first, Register(e));
      && Find(now.registry, name) == Some(e) && (forall k: nat :: !SameDefinition(d, e, k))
      && Obtain(now.cache, e, ok) == (now.cache, Ok(Handler(d, 0)))
  {
    LookAlikesSameKey(name, text);
    hide Key, Alike, Settings.Valid;
    var d, e := WithKwargs(name, text, 2), WithKwargs(name, text, 5);
    var key := Key(d).value;
    var s1 := Step(State([], Cache(map[], map[], 0)), Register(d));
    assert s1.registry == [d];
    var first := Step(s1, Execute(name, true));
    assert first.cache == Cache(map[key := Handler(d, 0)], map[name := key], 1);
    var now := Step(first, Register(e));
    assert [d][1..] == [] && now.registry == [e];
    assert first.cache.active[name := key] == first.cache.active;
  }
}
