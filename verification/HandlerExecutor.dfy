/** The registry and the executor as the program keeps them: dictionaries updated in place. */
module HandlerExecutor {
  import opened Core
  import opened CacheKey
  import C = HandlerCache

  class HandlerRegistry {
    var definitions: C.Registry

    constructor ()
      ensures definitions == []
    {
      definitions := [];
    }

    /** A definition with a registered name takes that name's place. */
    method Add(d: C.Definition)
      modifies this
      ensures definitions == C.Add(old(definitions), d)
    {
      hide C.Settings.Valid;
      for i := 0 to |definitions|
        invariant definitions == old(definitions)
        invariant C.Add(definitions, d) == definitions[..i] + C.Add(definitions[i..], d)
      {
        if definitions[i].name == d.name {
          definitions := definitions[i := d];
          return;
        }
        assert definitions[i..] == [definitions[i]] + definitions[i + 1..];
        assert definitions[..i] + [definitions[i]] == definitions[..i + 1];
      }
      definitions := definitions + [d];
    }
  }

  class HandlerExecutor {
    const registry: HandlerRegistry
    var instances: map<C.KeyText, C.Handler>
    var active: map<C.Name, C.KeyText>
    var loads: nat     // load_handler calls so far; numbers the loaded handlers

    constructor (registry: HandlerRegistry)
      ensures this.registry == registry && View() == C.Cache(map[], map[], 0)
    {
      this.registry := registry;
      instances, active, loads := map[], map[], 0;
    }

    function View(): C.Cache
      reads this
    {
      C.Cache(instances, active, loads)
    }

    /** load_handler; ok says whether it succeeds. */
    method Load(d: C.Definition, ok: bool) returns (r: Result<C.Handler, C.LoadError>)
      modifies this`loads
      ensures loads == old(loads) + 1
      ensures r == if ok then Ok(C.Handler(d, old(loads))) else Err(C.LoadFailed)
    {
      r := if ok then Ok(C.Handler(d, loads)) else Err(C.LoadFailed);
      loads := loads + 1;
    }

    /** _get_or_load: a look without the lock, then again under it. */
    method GetOrLoad(name: C.Name, ok: bool) returns (r: Result<C.Handler, C.LoadError>)
      modifies this
      ensures match C.Find(registry.definitions, name)
              case None => r == Err(C.NotRegistered) && View() == old(View())
              case Some(d) => (View(), r) == C.GetOrLoad(old(View()), d, ok)
    {
      hide C.Key, C.Settings.Valid, C.Find;
      var found := C.Find(registry.definitions, name);
      if found.None? { return Err(C.NotRegistered); }
      var key := C.Key(found.value);
      if key.None? { return Err(C.NotNormalisable); }
      if key.value in instances {
        active := active[name := key.value];
        return Ok(instances[key.value]);
      }
      r := Load(found.value, ok);
      if r.Err? { return; }
      instances := instances[key.value := r.value];
      var previous := if name in active then Some(active[name]) else None;
      active := active[name := key.value];
      if previous.Some? && previous.value != key.value { instances := instances - {previous.value}; }
    }

    /** _load_transient. */
    method LoadTransient(d: C.Definition, ok: bool) returns (r: Result<C.Handler, C.LoadError>)
      modifies this
      ensures (View(), r) == C.LoadTransient(old(View()), d, ok)
    {
      var previous := if d.name in active then Some(active[d.name]) else None;
      active := active - {d.name};
      assert previous.None? ==> active == old(active);
      if previous.Some? { instances := instances - {previous.value}; }
      r := Load(d, ok);
    }

    /** How execute obtains the handler it calls. */
    method Execute(taskId: string, name: C.Name, ok: bool) returns (r: Result<C.Handler, C.LoadError>)
      modifies this
      ensures taskId == "" ==> r == Err(C.NoTaskId) && View() == old(View())
      ensures taskId != "" ==>
                match C.Find(registry.definitions, name)
                case None => r == Err(C.NotRegistered) && View() == old(View())
                case Some(d) => (View(), r) == C.Obtain(old(View()), d, ok)
    {
      if taskId == "" { return Err(C.NoTaskId); }
      hide C.Key, C.Settings.Valid, C.Find;
      var found := C.Find(registry.definitions, name);
      if found.None? { return Err(C.NotRegistered); }
      if found.value.transient {
        r := LoadTransient(found.value, ok);
      } else {
        r := GetOrLoad(name, ok);
      }
    }

    /** preload, which stops at the first error. */
    method Preload(loadable: set<C.Name>) returns (error: Option<C.LoadError>)
      requires C.OnePerName(registry.definitions)
      modifies this
      ensures (View(), error) == C.Preload(old(View()), C.Listing(registry.definitions), loadable)
    {
      var defs := C.Listing(registry.definitions);
      for i := 0 to |defs|
        invariant C.Preload(View(), defs[i..], loadable) == C.Preload(old(View()), defs, loadable)
      {
        if !defs[i].transient {
          Registered(registry.definitions, defs[i]);
          var r := GetOrLoad(defs[i].name, defs[i].name in loadable);
          if r.Err? { return Some(r.error); }
        }
      }
      error := None;
    }

    static lemma {:induction false} Registered(reg: C.Registry, d: C.Definition)
      requires C.OnePerName(reg) && d in reg
      ensures C.Find(reg, d.name) == Some(d)
    {
      if reg[0] != d { Registered(reg[1..], d); }
    }
  }
}
