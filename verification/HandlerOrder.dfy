/** The order of the registry and of preloading, and what a preload that fails has done. */
module HandlerOrder {
  import opened Core
  import opened CacheKeyText
  import opened HandlerCache

  // ---------- the registry ----------

  /** A definition takes the place of the one registered under its name, or the last place. */
  lemma {:induction false} AddPlaces(reg: Registry, d: Definition, i: nat)
    requires OnePerName(reg)
    ensures i < |reg| && reg[i].name == d.name ==> Add(reg, d) == reg[i := d]
    ensures (forall e :: e in reg ==> e.name != d.name) ==> Add(reg, d) == reg + [d]
  {
    hide Settings.Valid;
    if reg != [] && reg[0].name != d.name {
      AddPlaces(reg[1..], d, if i > 0 then i - 1 else 0);
      assert reg == [reg[0]] + reg[1..];
      if 0 < i < |reg| { assert reg[i := d] == [reg[0]] + reg[1..][i - 1 := d]; }
    } else if reg != [] {
      if i < |reg| && reg[i].name == d.name { assert i == 0; }
      assert reg[0] in reg;
    }
  }

  ghost predicate SortedByName(defs: seq<Definition>) {
    forall i, j :: 0 <= i < j < |defs| ==> TextLess(defs[i].name, defs[j].name)
  }

  lemma {:induction false} InsertSorted(d: Definition, sorted: seq<Definition>)
    requires SortedByName(sorted) && forall e :: e in sorted ==> e.name != d.name
    ensures SortedByName(InsertByName(d, sorted))
    ensures multiset(InsertByName(d, sorted)) == multiset(sorted) + multiset{d}
  {
    hide Settings.Valid;
    if sorted != [] {
      var head, tail := sorted[0], sorted[1..];
      assert sorted == [head] + tail;
      if TextLess(d.name, head.name) {
        forall i | 0 <= i < |sorted| ensures TextLess(d.name, sorted[i].name) {
          TextLessOrder(d.name, head.name, sorted[i].name);
        }
      } else {
        InsertSorted(d, tail);
        TextLessTotal(head.name, d.name);
        assert head in sorted;
        var rest := InsertByName(d, tail);
        forall i | 0 <= i < |rest| ensures TextLess(head.name, rest[i].name) {
          assert rest[i] in rest;
          if rest[i] != d {
            var j :| 0 <= j < |tail| && tail[j] == rest[i];
            assert sorted[j + 1] == rest[i];
          }
        }
      }
    }
  }

  /** list() gives every definition once, in the order of the names. */
  lemma {:induction false} ListingSorted(reg: Registry)
    requires OnePerName(reg)
    ensures SortedByName(Listing(reg)) && multiset(Listing(reg)) == multiset(reg)
  {
    hide Settings.Valid;
    if reg != [] {
      var n := |reg| - 1;
      ListingSorted(reg[..n]);
      assert reg == reg[..n] + [reg[n]];
      forall e | e in Listing(reg[..n]) ensures e.name != reg[n].name {
        var i :| 0 <= i < n && reg[..n][i] == e;
        assert reg[i].name != reg[n].name;
      }
      InsertSorted(reg[n], Listing(reg[..n]));
    }
  }

  // ---------- a preload that fails ----------

  /** The definition cannot be preloaded: it has no key, or is not current and cannot be loaded. */
  predicate Stuck(c: Cache, d: Definition, loadable: set<Name>) {
    !d.transient && (Key(d).None? || (d.name !in loadable && !Current(c, d)))
  }

  /** A preload fails at the first definition that is stuck, with the error of that one; all before it
      are current by then, and all after it are as they were. */
  lemma {:induction false} PreloadStops(c: Cache, defs: seq<Definition>, loadable: set<Name>, n: nat)
    requires CacheInv(c) && OnePerName(defs) && n < |defs| && Stuck(c, defs[n], loadable)
    requires forall k :: 0 <= k < n ==> !Stuck(c, defs[k], loadable)
    ensures var (next, error) := Preload(c, defs, loadable);
      && error == Some(if Key(defs[n]).None? then NotNormalisable else LoadFailed)
      && (forall k :: 0 <= k < n && !defs[k].transient ==> Current(next, defs[k]))
      && (forall e: Definition ::
            (forall k :: 0 <= k <= n ==> defs[k].name != e.name) ==> Current(next, e) == Current(c, e))
    decreases n
  {
    hide Settings.Valid, OnePerName, GetOrLoad, CacheInv, Key, Current;
    var d, rest := defs[0], defs[1..];
    NamesApart(defs);
    if n == 0 {
      StuckFails(c, d, loadable);
    } else {
      forall k | 0 <= k < n ensures defs[k + 1] == rest[k] && rest[k].name != d.name { assert rest[k] in rest; }
      if d.transient {
        PreloadStops(c, rest, loadable, n - 1);
      } else {
        assert !Stuck(c, defs[0], loadable);
        PreloadOne(c, d, d.name in loadable);
        var next := GetOrLoad(c, d, d.name in loadable).0;
        forall k | 0 <= k < n ensures Stuck(next, rest[k], loadable) == Stuck(c, rest[k], loadable) {
          assert Current(next, rest[k]) == Current(c, rest[k]);
        }
        forall k | 0 <= k < n - 1 ensures !Stuck(next, rest[k], loadable) { assert !Stuck(c, defs[k + 1], loadable); }
        PreloadStops(next, rest, loadable, n - 1);
      }
    }
  }

  lemma StuckFails(c: Cache, d: Definition, loadable: set<Name>)
    requires CacheInv(c) && Stuck(c, d, loadable)
    ensures var (next, r) := GetOrLoad(c, d, d.name in loadable);
      && r == Err(if Key(d).None? then NotNormalisable else LoadFailed)
      && forall e: Definition :: e.name != d.name ==> Current(next, e) == Current(c, e)
  {
    hide Settings.Valid, CacheInv, Key, Current, Remember;
    PreloadOne(c, d, d.name in loadable);
  }
}
