/** The executor's handler cache and the registry it reads, as values. */
module HandlerCache {
  import opened Core
  import opened CacheKey
  import opened CacheKeyText

  type Name = string

  /** A handler definition; its three settings are nodes of the graph of the objects they hold. */
  datatype Settings = Settings(name: Name, entrypoint: string, graph: Graph, context: Id, kwargs: Id, metadata: Id,
                               transient: bool)
  {
    ghost predicate Valid() {
      Closed(graph) && context in graph.nodes && kwargs in graph.nodes && metadata in graph.nodes
    }
  }

  type Definition = d: Settings | d.Valid()
    ghost witness Settings("", "", Graph(map[0 := Str("")], map[], 1), 0, 0, 0, false)

  function ReuseMode(transient: bool): string {
    if transient then "task_transient" else "worker_cached"
  }

  function KeyOf(d: Definition, context: Canon, kwargs: Canon, metadata: Canon): Canon {
    Dict(map["handler_name" := Text(d.name)]["entrypoint" := Text(d.entrypoint)]["init_context" := context]
            ["init_kwargs" := kwargs]["metadata" := metadata]["reuse_mode" := Text(ReuseMode(d.transient))])
  }

  /** What cache_key gives to json.dumps; None when a setting cannot be normalised. */
  function KeyValue(d: Definition): Option<Canon> {
    match (Normalize(d.graph, d.context, {}), Normalize(d.graph, d.kwargs, {}), Normalize(d.graph, d.metadata, {}))
    case (Ok(c), Ok(k), Ok(m)) => Some(KeyOf(d, c, k, m))
    case _ => None
  }

  type KeyText = string

  /** cache_key. */
  function Key(d: Definition): Option<KeyText> {
    match KeyValue(d)
    case None => None
    case Some(c) => Some(Json(c))
  }

  /** The text of a key says as much as the value it was written from. */
  lemma SameKeys(d: Definition, e: Definition)
    ensures Key(d).Some? <==> KeyValue(d).Some?
    ensures Key(d) == Key(e) <==> KeyValue(d) == KeyValue(e)
  {
    hide KeyValue, Json;
    if KeyValue(d).Some? && KeyValue(e).Some? { TextsTellApart(KeyValue(d).value, KeyValue(e).value); }
  }

  /** Equal keys have equal parts. */
  lemma KeyParts(d: Definition, e: Definition)
    requires Key(d).Some? && Key(d) == Key(e)
    ensures d.name == e.name && d.entrypoint == e.entrypoint && d.transient == e.transient
    ensures Normalize(d.graph, d.context, {}) == Normalize(e.graph, e.context, {})
    ensures Normalize(d.graph, d.kwargs, {}) == Normalize(e.graph, e.kwargs, {})
    ensures Normalize(d.graph, d.metadata, {}) == Normalize(e.graph, e.metadata, {})
  {
    hide Normalize, Json;
    SameKeys(d, e);
    var m, n := KeyValue(d).value.entries, KeyValue(e).value.entries;
    assert m["handler_name"] == n["handler_name"] && m["entrypoint"] == n["entrypoint"];
    assert m["init_context"] == n["init_context"] && m["init_kwargs"] == n["init_kwargs"];
    assert m["metadata"] == n["metadata"] && m["reuse_mode"] == n["reuse_mode"];
    assert |ReuseMode(true)| == 14 && |ReuseMode(false)| == 13;
  }

  /** A loaded handler: the definition it was loaded under, and which load it came from. */
  datatype Handler = Handler(definition: Definition, serial: nat)

  datatype LoadError = NotRegistered | NoTaskId | NotNormalisable | LoadFailed

  /** _instances, _active_keys, and how often load_handler was called. */
  datatype Cache = Cache(instances: map<KeyText, Handler>, active: map<Name, KeyText>, loads: nat)

  function Remember(c: Cache, d: Definition, key: KeyText): Cache {
    var added := c.instances[key := Handler(d, c.loads)];
    Cache(if d.name in c.active && c.active[d.name] != key then added - {c.active[d.name]} else added,
          c.active[d.name := key], c.loads + 1)
  }

  /** _get_or_load under the registry's current definition; ok says whether load_handler succeeds. */
  function GetOrLoad(c: Cache, d: Definition, ok: bool): (Cache, Result<Handler, LoadError>) {
    match Key(d)
    case None => (c, Err(NotNormalisable))
    case Some(key) =>
      if key in c.instances then (c.(active := c.active[d.name := key]), Ok(c.instances[key]))
      else if !ok then (c.(loads := c.loads + 1), Err(LoadFailed))
      else (Remember(c, d, key), Ok(Handler(d, c.loads)))
  }

  function Forget(c: Cache, name: Name): Cache {
    if name in c.active then c.(instances := c.instances - {c.active[name]}, active := c.active - {name}) else c
  }

  /** _load_transient. */
  function LoadTransient(c: Cache, d: Definition, ok: bool): (Cache, Result<Handler, LoadError>) {
    var dropped := Forget(c, d.name);
    (dropped.(loads := c.loads + 1), if ok then Ok(Handler(d, c.loads)) else Err(LoadFailed))
  }

  /** What execute obtains the handler with. */
  function Obtain(c: Cache, d: Definition, ok: bool): (Cache, Result<Handler, LoadError>) {
    if d.transient then LoadTransient(c, d, ok) else GetOrLoad(c, d, ok)
  }

  // ---------- the registry ----------

  /** The registered definitions in insertion order, one per name. */
  type Registry = seq<Definition>

  predicate OnePerName(reg: Registry) {
    forall i, j :: 0 <= i < j < |reg| ==> reg[i].name != reg[j].name
  }

  function Find(reg: Registry, name: Name): (r: Option<Definition>)
    ensures r.Some? ==> r.value in reg && r.value.name == name
    ensures r.None? ==> forall d :: d in reg ==> d.name != name
  {
    if reg == [] then None
    else if reg[0].name == name then Some(reg[0])
    else Find(reg[1..], name)
  }

  /** Registering again replaces the definition. */
  function Add(reg: Registry, d: Definition): Registry {
    if reg == [] then [d]
    else if reg[0].name == d.name then [d] + reg[1..]
    else [reg[0]] + Add(reg[1..], d)
  }

  function InsertByName(d: Definition, sorted: seq<Definition>): (r: seq<Definition>)
    ensures forall e :: e in r <==> e == d || e in sorted
  {
    if sorted == [] then [d]
    else if TextLess(d.name, sorted[0].name) then [d] + sorted
    else [sorted[0]] + InsertByName(d, sorted[1..])
  }

  /** list(): the definitions sorted by name. */
  function Listing(reg: Registry): (r: seq<Definition>)
    ensures forall d :: d in r <==> d in reg
  {
    if reg == [] then [] else InsertByName(reg[|reg| - 1], Listing(reg[..|reg| - 1]))
  }

  lemma {:induction false} AddOnePerName(reg: Registry, d: Definition)
    requires OnePerName(reg)
    ensures OnePerName(Add(reg, d)) && forall e :: e in Add(reg, d) ==> e == d || e in reg
  {
    hide Settings.Valid;
    if reg != [] && reg[0].name != d.name {
      var rest := Add(reg[1..], d);
      AddOnePerName(reg[1..], d);
      forall i | 0 <= i < |rest| ensures rest[i].name != reg[0].name {
        assert rest[i] in rest;
        assert rest[i] in reg[1..] ==> exists j :: 0 < j < |reg| && reg[j] == rest[i];
      }
    }
  }

  lemma {:induction false} AddFinds(reg: Registry, d: Definition, name: Name)
    ensures Find(Add(reg, d), name) == if name == d.name then Some(d) else Find(reg, name)
  {
    if reg != [] && reg[0].name != d.name { AddFinds(reg[1..], d, name); }
  }

  // ---------- preload ----------

  /** The loop of preload; an error ends it. */
  function Preload(c: Cache, defs: seq<Definition>, loadable: set<Name>): (Cache, Option<LoadError>)
    decreases |defs|
  {
    if defs == [] then (c, None)
    else if defs[0].transient then Preload(c, defs[1..], loadable)
    else
      var (next, r) := GetOrLoad(c, defs[0], defs[0].name in loadable);
      if r.Err? then (next, Some(r.error)) else Preload(next, defs[1..], loadable)
  }

  // ---------- what the cache keeps ----------

  /** The instances are exactly those under the active keys, and each was loaded under its key
      for the handler name that is active with it. */
  ghost predicate CacheInv(c: Cache) {
    && (forall name :: name in c.active ==> c.active[name] in c.instances)
    && (forall key :: key in c.instances ==>
          var d := c.instances[key].definition;
          && Key(d) == Some(key) && !d.transient
          && d.name in c.active && c.active[d.name] == key
          && c.instances[key].serial < c.loads)
    && (forall name :: name in c.active ==> c.instances[c.active[name]].definition.name == name)
  }

  lemma RememberKeeps(c: Cache, d: Definition, key: KeyText)
    requires CacheInv(c) && Key(d) == Some(key) && key !in c.instances && !d.transient
    ensures CacheInv(Remember(c, d, key))
  {
    hide Settings.Valid;
    hide Key;
  }

  /** The handler returned was loaded under a definition with the current key; it is loaded anew
      exactly when the active key is not the current one, and then the old instance is gone. */
  lemma GetOrLoadCurrent(c: Cache, d: Definition, ok: bool)
    requires CacheInv(c) && !d.transient
    ensures var (next, r) := GetOrLoad(c, d, ok);
      && CacheInv(next)
      && (r.Ok? ==> Key(r.value.definition) == Key(d) && d.name in next.active
                    && next.instances[next.active[d.name]] == r.value)
      && (r.Ok? && next.loads != c.loads ==> r.value.definition == d)
      && (next.loads == c.loads <==> Key(d).None? || (d.name in c.active && Key(d) == Some(c.active[d.name])))
      && (r.Err? ==> next == c.(loads := next.loads))
      && (r.Err? <==> Key(d).None? || (next.loads != c.loads && !ok))
      && forall name :: name != d.name ==> (name in next.active <==> name in c.active)
                                           && (name in c.active ==> next.active[name] == c.active[name])
  {
    hide Settings.Valid, Key;
    if Key(d).Some? {
      var key := Key(d).value;
      if key in c.instances {
        KeyParts(d, c.instances[key].definition);
        assert c.active[d.name := key] == c.active;
      } else if ok {
        RememberKeeps(c, d, key);
      }
    }
  }

  lemma ForgetKeeps(c: Cache, name: Name)
    requires CacheInv(c)
    ensures CacheInv(Forget(c, name).(loads := c.loads + 1)) && name !in Forget(c, name).active
  {
    hide Settings.Valid, Key;
  }

  /** A transient handler is loaded every time and nothing is kept for its name. */
  lemma LoadTransientFresh(c: Cache, d: Definition, ok: bool)
    requires CacheInv(c)
    ensures var (next, r) := LoadTransient(c, d, ok);
      && CacheInv(next) && d.name !in next.active
      && r == (if ok then Ok(Handler(d, c.loads)) else Err(LoadFailed))
      && forall key :: key in c.instances ==> c.instances[key].serial != c.loads
  {
    hide Settings.Valid, Key, Forget;
    ForgetKeeps(c, d.name);
  }

  /** The current definition's instance is the one held for its name. */
  predicate Current(c: Cache, d: Definition) {
    d.name in c.active && Key(d) == Some(c.active[d.name])
  }

  /** Preloading succeeds exactly when every cached definition has a key and either is current
      already or can be loaded, and then all of them are current. */
  lemma {:induction false} PreloadKeeps(c: Cache, defs: seq<Definition>, loadable: set<Name>)
    requires CacheInv(c) && OnePerName(defs)
    ensures var (next, error) := Preload(c, defs, loadable);
      && CacheInv(next)
      && (error.None? <==>
            forall d :: d in defs && !d.transient ==> Key(d).Some? && (d.name in loadable || Current(c, d)))
      && (error.None? ==> forall d :: d in defs && !d.transient ==> Current(next, d))
      && (forall e: Definition :: (forall d :: d in defs ==> d.name != e.name) ==> Current(next, e) == Current(c, e))
    decreases |defs|
  {
    hide Settings.Valid, OnePerName, GetOrLoad, CacheInv, Key, Current;
    if defs != [] {
      var d, rest := defs[0], defs[1..];
      NamesApart(defs);
      if d.transient {
        PreloadKeeps(c, rest, loadable);
      } else {
        PreloadOne(c, d, d.name in loadable);
        PreloadKeeps(GetOrLoad(c, d, d.name in loadable).0, rest, loadable);
      }
    }
  }

  lemma PreloadOne(c: Cache, d: Definition, ok: bool)
    requires CacheInv(c) && !d.transient
    ensures var (next, r) := GetOrLoad(c, d, ok);
      && CacheInv(next)
      && (r.Ok? <==> Key(d).Some? && (ok || Current(c, d)))
      && (r.Ok? ==> Current(next, d))
      && forall e: Definition :: e.name != d.name ==> Current(next, e) == Current(c, e)
  {
    hide Settings.Valid;
    GetOrLoadCurrent(c, d, ok);
  }

  lemma NamesApart(defs: seq<Definition>)
    requires OnePerName(defs) && defs != []
    ensures OnePerName(defs[1..]) && forall e :: e in defs[1..] ==> e.name != defs[0].name
    ensures forall e :: e in defs <==> e == defs[0] || e in defs[1..]
  {
  }

  // ---------- whole runs ----------

  datatype State = State(registry: Registry, cache: Cache)

  datatype Event =
    | Register(definition: Definition)
    | Execute(name: Name, ok: bool)
    | Warm(loadable: set<Name>)

  function Step(s: State, e: Event): State {
    match e
    case Register(d) => s.(registry := Add(s.registry, d))
    case Execute(name, ok) =>
      (match Find(s.registry, name)
       case None => s
       case Some(d) => s.(cache := Obtain(s.cache, d, ok).0))
    case Warm(loadable) => s.(cache := Preload(s.cache, Listing(s.registry), loadable).0)
  }

  ghost predicate Run(states: seq<State>, events: seq<Event>) {
    && |states| == |events| + 1 && states[0] == State([], Cache(map[], map[], 0))
    && forall i {:trigger events[i]} :: 0 <= i < |events| ==> states[i + 1] == Step(states[i], events[i])
  }

  ghost predicate Inv(s: State) {
    OnePerName(s.registry) && CacheInv(s.cache)
  }

  lemma {:induction false} ListingOnePerName(reg: Registry)
    requires OnePerName(reg)
    ensures OnePerName(Listing(reg))
  {
    if reg != [] {
      var n := |reg| - 1;
      ListingOnePerName(reg[..n]);
      InsertOnePerName(reg[n], Listing(reg[..n]));
    }
  }

  lemma {:induction false} InsertOnePerName(d: Definition, sorted: seq<Definition>)
    requires OnePerName(sorted) && forall e :: e in sorted ==> e.name != d.name
    ensures OnePerName(InsertByName(d, sorted))
  {
    hide Settings.Valid;
    if sorted != [] && !TextLess(d.name, sorted[0].name) {
      InsertOnePerName(d, sorted[1..]);
      var rest := InsertByName(d, sorted[1..]);
      forall i | 0 <= i < |rest| ensures rest[i].name != sorted[0].name {
        assert rest[i] in rest;
        assert rest[i] in sorted[1..] ==> exists j :: 0 < j < |sorted| && sorted[j] == rest[i];
      }
    }
  }

  lemma StepKeeps(s: State, e: Event)
    requires Inv(s)
    ensures Inv(Step(s, e))
  {
    hide GetOrLoad, LoadTransient, Preload, CacheInv;
    match e
    case Register(d) => AddOnePerName(s.registry, d);
    case Execute(name, ok) =>
      var found := Find(s.registry, name);
      if found.Some? {
        if found.value.transient { LoadTransientFresh(s.cache, found.value, ok); }
        else { GetOrLoadCurrent(s.cache, found.value, ok); }
      }
    case Warm(loadable) =>
      ListingOnePerName(s.registry);
      PreloadKeeps(s.cache, Listing(s.registry), loadable);
  }

  lemma {:induction false} RunInv(states: seq<State>, events: seq<Event>, i: nat)
    requires Run(states, events) && i < |states|
    ensures Inv(states[i])
  {
    hide Settings.Valid;
    if i > 0 {
      RunInv(states, events, i - 1);
      StepKeeps(states[i - 1], events[i - 1]);
      assert states[i] == Step(states[i - 1], events[i - 1]);
    }
  }

  /** Over every run of registrations, executions and preloads, the handler an execution gets was
      loaded under a definition with the key of the one registered now. It is
      loaded anew exactly when it is transient or its instance is not the one held, and at most
      one instance is held for a handler name. */
  lemma CacheAgreesWithRegistry(states: seq<State>, events: seq<Event>, i: nat, name: Name, ok: bool)
    requires Run(states, events) && i < |states| && Find(states[i].registry, name).Some?
    ensures var c, d := states[i].cache, Find(states[i].registry, name).value;
            var (next, r) := Obtain(c, d, ok);
      && (r.Ok? ==> r.value.definition == d || (!d.transient && Key(r.value.definition) == Key(d)))
      && (r.Ok? && next.loads != c.loads ==> r.value.definition == d)
      && (r.Ok? && !d.transient && Current(c, d) ==> Holds(c, d, r.value))
      && (next.loads == c.loads <==> !d.transient && (Key(d).None? || Current(c, d)))
      && (r == Err(LoadFailed) <==> !ok && next.loads != c.loads)
      && forall j, k | j in c.instances && k in c.instances ::
           c.instances[j].definition.name == c.instances[k].definition.name ==> j == k
  {
    hide Key, Settings.Valid;
    RunInv(states, events, i);
    var d := Find(states[i].registry, name).value;
    if d.transient {
      LoadTransientFresh(states[i].cache, d, ok);
    } else {
      GetOrLoadCurrent(states[i].cache, d, ok);
    }
  }

  // ---------- the same instance for as long as the definition stays ----------

  ghost predicate Holds(c: Cache, d: Definition, h: Handler) {
    Current(c, d) && c.active[d.name] in c.instances && c.instances[c.active[d.name]] == h
  }

  lemma GetOrLoadHolds(c: Cache, e: Definition, ok: bool, d: Definition, h: Handler)
    requires CacheInv(c) && !e.transient && !d.transient && (e.name == d.name ==> e == d)
    requires Holds(c, d, h)
    ensures Holds(GetOrLoad(c, e, ok).0, d, h)
  {
    hide Settings.Valid;
    if e == d {
      HeldIsFound(c, d, ok, h);
    } else {
      OthersStayHeld(c, e, ok, d, h);
    }
  }

  lemma HeldIsFound(c: Cache, d: Definition, ok: bool, h: Handler)
    requires Holds(c, d, h)
    ensures Holds(GetOrLoad(c, d, ok).0, d, h)
  {
    hide Settings.Valid, Key;
    assert c.active[d.name := c.active[d.name]] == c.active;
  }

  lemma KeysDiffer(e: Definition, d: Definition)
    requires e.name != d.name && Key(e).Some?
    ensures Key(e) != Key(d)
  {
    if Key(e) == Key(d) { KeyParts(e, d); }
  }

  lemma OthersStayHeld(c: Cache, e: Definition, ok: bool, d: Definition, h: Handler)
    requires CacheInv(c) && !e.transient && e.name != d.name && Holds(c, d, h)
    ensures Holds(GetOrLoad(c, e, ok).0, d, h)
  {
    hide Settings.Valid, Key;
    if Key(e).Some? {
      KeysDiffer(e, d);
      if e.name in c.active { assert c.instances[c.active[e.name]].definition.name == e.name; }
    }
    hide CacheInv;
  }

  lemma {:induction false} PreloadHolds(c: Cache, defs: seq<Definition>, loadable: set<Name>, d: Definition, h: Handler)
    requires CacheInv(c) && !d.transient && forall e :: e in defs && e.name == d.name ==> e == d
    requires Holds(c, d, h)
    ensures Holds(Preload(c, defs, loadable).0, d, h)
    decreases |defs|
  {
    if defs != [] {
      var e := defs[0];
      if e.transient {
        PreloadHolds(c, defs[1..], loadable, d, h);
      } else {
        GetOrLoadHolds(c, e, e.name in loadable, d, h);
        GetOrLoadCurrent(c, e, e.name in loadable);
        hide GetOrLoad, CacheInv, Key;
        PreloadHolds(GetOrLoad(c, e, e.name in loadable).0, defs[1..], loadable, d, h);
      }
    }
  }

  lemma TransientHolds(c: Cache, e: Definition, ok: bool, d: Definition, h: Handler)
    requires CacheInv(c) && e.name != d.name && Holds(c, d, h)
    ensures Holds(LoadTransient(c, e, ok).0, d, h)
  {
    hide Settings.Valid, Key;
  }

  lemma {:induction false} FindOnly(reg: Registry, d: Definition, e: Definition)
    requires OnePerName(reg) && Find(reg, d.name) == Some(d) && e in reg && e.name == d.name
    ensures e == d
  {
    if reg[0].name != d.name { FindOnly(reg[1..], d, e); }
  }

  /** While a cached handler's definition stays registered, every execution gets the very instance
      that was loaded first, whatever else is registered, executed or preloaded meanwhile. */
  lemma {:induction false} SameInstance(states: seq<State>, events: seq<Event>, i: nat, j: nat, d: Definition,
                                        h: Handler)
    requires Run(states, events) && i <= j < |states| && !d.transient && Holds(states[i].cache, d, h)
    requires forall k :: i <= k <= j ==> Find(states[k].registry, d.name) == Some(d)
    ensures Holds(states[j].cache, d, h)
    decreases j - i
  {
    hide Settings.Valid, Step, Holds, Find, Inv;
    if i < j {
      SameInstance(states, events, i, j - 1, d, h);
      RunInv(states, events, j - 1);
      assert states[j] == Step(states[j - 1], events[j - 1]);
      StepHolds(states[j - 1], events[j - 1], d, h);
    }
  }

  lemma StepHolds(s: State, e: Event, d: Definition, h: Handler)
    requires Inv(s) && !d.transient && Holds(s.cache, d, h) && Find(s.registry, d.name) == Some(d)
    ensures Holds(Step(s, e).cache, d, h)
  {
    hide Settings.Valid, GetOrLoad, LoadTransient, Preload, CacheInv, Key, Holds;
    match e
    case Register(_) =>
    case Execute(name, ok) => ExecuteHolds(s, name, ok, d, h);
    case Warm(loadable) =>
      forall x | x in Listing(s.registry) && x.name == d.name ensures x == d { FindOnly(s.registry, d, x); }
      PreloadHolds(s.cache, Listing(s.registry), loadable, d, h);
  }

  lemma ExecuteHolds(s: State, name: Name, ok: bool, d: Definition, h: Handler)
    requires Inv(s) && !d.transient && Holds(s.cache, d, h) && Find(s.registry, d.name) == Some(d)
    ensures Holds(Step(s, Execute(name, ok)).cache, d, h)
  {
    hide Settings.Valid, GetOrLoad, LoadTransient, CacheInv, Key, Holds;
    var found := Find(s.registry, name);
    if found.Some? {
      if found.value.transient {
        TransientHolds(s.cache, found.value, ok, d, h);
      } else {
        GetOrLoadHolds(s.cache, found.value, ok, d, h);
      }
    }

  }
}
