/** What close leaves: its own futures are resolved, those another thread has taken may not be. */
module PoolClose {
  import opened Core
  import opened SmoothRoundRobin
  import opened PoolModel
  import opened PoolInvariant
  import opened PoolRuns

  /** The futures a step takes out of the table, to be resolved outside the lock. */
  function Taken(s: Sys, e: Event): set<nat> {
    match e
    case Result(t, a) => var f := Receive(s.pool, t, a).1; if f.Some? then {f.value} else {}
    case Exit(w) => HandleExit(s.pool, w).1
    case Unload(g) => Unregister(s.pool, g).1
    case FailPending(_) => FailAll(s.pool).1
    case _ => {}
  }

  /** Every future that was ever created is done. */
  ghost predicate AllDone(s: Sys) {
    forall f: nat :: f < s.created ==> f in s.done
  }

  /** Every future created since is done. */
  ghost predicate DoneFrom(s: Sys, first: nat) {
    forall f: nat :: first <= f < s.created ==> f in s.done
  }

  lemma StepHolds(s: Sys, e: Event)
    requires Inv(s) && Enabled(s, e)
    ensures Apply(s, e).held == s.held + Taken(s, e) - (if e.Resolve? then {e.future} else {})
    ensures s.done <= Apply(s, e).done && s.created <= Apply(s, e).created
    ensures e.Resolve? ==> e.future in Apply(s, e).done
    ensures forall f :: f in s.held && f in Apply(s, e).done ==> e == Resolve(f)
    ensures forall f :: f in Taken(s, e) ==> f < s.created && f !in s.done && f !in s.held
  {
    TakenPending(s, e);
    hide PoolInv, Execute, Receive, HandleExit, Unregister, FailAll;
  }

  /** What a step takes was pending. */
  lemma TakenPending(s: Sys, e: Event)
    requires Inv(s)
    ensures forall f :: f in Taken(s, e) ==> f in s.pool.futures.Values
  {
    hide PoolInv;
  }

  lemma HeldNotDone(states: seq<Sys>, events: seq<Event>, k: nat)
    requires Run(states, events) && k < |states|
    ensures states[k].held !! states[k].done
    ensures forall f: nat ::
              f < states[k].created <==>
                f in states[k].pool.futures.Values || f in states[k].held || f in states[k].done
  {
    RunInv(states, events, k);
    hide PoolInv;
  }

  lemma RunStep(states: seq<Sys>, events: seq<Event>, k: nat)
    requires Run(states, events) && k < |events|
    ensures Inv(states[k]) && Enabled(states[k], events[k]) && states[k + 1] == Apply(states[k], events[k])
  {
    RunInv(states, events, k);
  }

  // ---------- what a thread holds, in terms of the events ----------

  predicate Took(states: seq<Sys>, events: seq<Event>, k: nat, f: nat)
    requires k < |events| < |states|
  {
    f in Taken(states[k], events[k])
  }

  /** The step k took the future and nobody has resolved it before n. */
  ghost predicate Owes(states: seq<Sys>, events: seq<Event>, k: nat, n: nat, f: nat)
    requires k < n <= |events| < |states|
  {
    Took(states, events, k, f) && forall m :: k < m < n ==> events[m] != Resolve(f)
  }

  lemma OwesNext(states: seq<Sys>, events: seq<Event>, k: nat, n: nat, f: nat)
    requires k < n < |events| < |states|
    ensures Owes(states, events, k, n + 1, f) <==> Owes(states, events, k, n, f) && events[n] != Resolve(f)
  {
  }

  ghost predicate SomeOwes(states: seq<Sys>, events: seq<Event>, n: nat, f: nat)
    requires n <= |events| < |states|
  {
    exists k :: 0 <= k < n && Owes(states, events, k, n, f)
  }

  lemma SomeOwesNext(states: seq<Sys>, events: seq<Event>, n: nat, f: nat)
    requires n < |events| < |states|
    ensures SomeOwes(states, events, n + 1, f) <==>
              Took(states, events, n, f) || (SomeOwes(states, events, n, f) && events[n] != Resolve(f))
  {
    hide Took;
    if SomeOwes(states, events, n + 1, f) {
      var k :| 0 <= k < n + 1 && Owes(states, events, k, n + 1, f);
      if k < n { OwesNext(states, events, k, n, f); }
    }
    if Took(states, events, n, f) { assert Owes(states, events, n, n + 1, f); }
    if SomeOwes(states, events, n, f) && events[n] != Resolve(f) {
      var k :| 0 <= k < n && Owes(states, events, k, n, f);
      OwesNext(states, events, k, n, f);
    }
  }

  lemma NothingHeldFirst(states: seq<Sys>, events: seq<Event>)
    requires Run(states, events)
    ensures states[0].held == {}
  {
    hide Apply, Enabled;
  }

  /** A future is held exactly between the step that takes it and its resolution. */
  lemma {:induction false} HeldMeans(states: seq<Sys>, events: seq<Event>, n: nat, f: nat)
    requires Run(states, events) && n <= |events|
    ensures f in states[n].held <==> SomeOwes(states, events, n, f)
  {
    hide Apply, Inv, Enabled, Start, SomeOwes, Taken;
    if n == 0 {
      NothingHeldFirst(states, events);
      NobodyOwesFirst(states, events, f);
    } else {
      HeldMeans(states, events, n - 1, f);
      RunStep(states, events, n - 1);
      OwesNextHeld(states, events, n - 1, f);
    }
  }

  lemma HeldNext(s: Sys, e: Event, f: nat)
    requires Inv(s) && Enabled(s, e)
    ensures f in Apply(s, e).held <==> f in Taken(s, e) || (f in s.held && e != Resolve(f))
  {
    hide Apply, Inv, Enabled;
    StepHolds(s, e);
    ResolveTakesNone(s, e);
    hide Taken;
  }

  lemma OwesNextHeld(states: seq<Sys>, events: seq<Event>, n: nat, f: nat)
    requires n < |events| < |states| && Inv(states[n]) && Enabled(states[n], events[n])
    requires states[n + 1] == Apply(states[n], events[n]) && (f in states[n].held <==> SomeOwes(states, events, n, f))
    ensures f in states[n + 1].held <==> SomeOwes(states, events, n + 1, f)
  {
    hide Apply, Inv, Enabled, SomeOwes, Taken;
    HeldNext(states[n], events[n], f);
    SomeOwesNext(states, events, n, f);
  }

  lemma NobodyOwesFirst(states: seq<Sys>, events: seq<Event>, f: nat)
    requires |events| < |states|
    ensures !SomeOwes(states, events, 0, f)
  {
  }

  lemma ResolveTakesNone(s: Sys, e: Event)
    ensures e.Resolve? ==> Taken(s, e) == {}
  {
  }

  lemma {:induction false} DoneStays(states: seq<Sys>, events: seq<Event>, i: nat, j: nat)
    requires Run(states, events) && i <= j < |states|
    ensures states[i].done <= states[j].done && states[i].created <= states[j].created
    decreases j - i
  {
    hide Apply, Inv, Enabled;
    if i < j {
      DoneStays(states, events, i, j - 1);
      RunStep(states, events, j - 1);
      StepHolds(states[j - 1], events[j - 1]);
    }
  }

  /** A future that was held is done later only through its resolution. */
  lemma {:induction false} DoneMeansResolved(states: seq<Sys>, events: seq<Event>, i: nat, j: nat, f: nat)
    requires Run(states, events) && i <= j < |states| && f in states[i].held
    ensures f in states[j].done <==> exists m :: i <= m < j && events[m] == Resolve(f)
    decreases j - i
  {
    hide Apply, Inv, Enabled;
    HeldNotDone(states, events, i);
    if i < j {
      DoneMeansResolved(states, events, i, j - 1, f);
      RunStep(states, events, j - 1);
      StepHolds(states[j - 1], events[j - 1]);
      if f !in states[j - 1].done { StillHeld(states, events, i, j - 1, f); }
    }
  }

  lemma {:induction false} StillHeld(states: seq<Sys>, events: seq<Event>, i: nat, j: nat, f: nat)
    requires Run(states, events) && i <= j < |states| && f in states[i].held && f !in states[j].done
    ensures f in states[j].held
    decreases j - i
  {
    hide Apply, Inv, Enabled;
    if i < j {
      RunStep(states, events, j - 1);
      StepHolds(states[j - 1], events[j - 1]);
      StillHeld(states, events, i, j - 1, f);
    }
  }

  // ---------- close ----------

  lemma {:induction false} ClosingStays(states: seq<Sys>, events: seq<Event>, i: nat, j: nat)
    requires Run(states, events) && i <= j < |states| && states[i].pool.closing
    ensures states[j].pool.closing
    ensures DoneFrom(states[j], states[i].created)
    decreases j - i
  {
    hide Apply, Inv, Enabled;
    if i < j {
      ClosingStays(states, events, i, j - 1);
      RunStep(states, events, j - 1);
      ClosingStep(states[j - 1], events[j - 1]);
      StepHolds(states[j - 1], events[j - 1]);
    }
  }

  lemma ClosingStep(s: Sys, e: Event)
    requires Inv(s) && s.pool.closing
    ensures Apply(s, e).pool.closing
    ensures DoneFrom(Apply(s, e), s.created)
  {
    if e.Exec? { ExecuteFlags(s.pool, e.task, e.handler, s.created, e.oracle); }
    hide PoolInv, Conserved, Execute;
  }

  lemma {:induction false} TookStays(states: seq<Sys>, events: seq<Event>, i: nat, j: nat, c: nat)
    requires Run(states, events) && i <= j < |states| && c in states[i].took
    ensures c in states[j].took && states[j].took[c] == states[i].took[c]
    decreases j - i
  {
    hide Apply, Enabled;
    if i < j {
      TookStays(states, events, i, j - 1, c);
      RunStep(states, events, j - 1);
      TookStep(states[j - 1], events[j - 1], c);
    }
  }

  lemma TookStep(s: Sys, e: Event, c: nat)
    requires Enabled(s, e) && c in s.took
    ensures c in Apply(s, e).took && Apply(s, e).took[c] == s.took[c]
  {
    hide Execute, Receive, HandleExit, Unregister, FailAll, Relaunch, Register, BeginClose, SetAlive, ResetWeight;
  }

  /** When a call of close returns, everything that was pending when it failed what was pending
      is done, and so is everything created since. */
  lemma CloseResolvesPending(states: seq<Sys>, events: seq<Event>, i: nat, j: nat, c: nat)
    requires Run(states, events) && i < j < |events|
    requires events[i] == FailPending(Some(c)) && events[j] == Closed(c)
    ensures states[i].pool.futures.Values <= states[j].done
    ensures DoneFrom(states[j + 1], states[i].created)
  {
    assert Enabled(states[i], events[i]) && states[i + 1] == Apply(states[i], events[i]);
    assert Enabled(states[j], events[j]) && states[j + 1] == Apply(states[j], events[j]);
    TookStays(states, events, i + 1, j, c);
    ClosingStays(states, events, i, j + 1);
    hide FailAll;
    assert FailAll(states[i].pool).1 == states[i].pool.futures.Values by { FailsAll(states[i].pool); }
  }

  lemma FailsAll(p: Pool<nat>)
    ensures FailAll(p).1 == p.futures.Values
  {
  }

  /** Exactly when everything is done at the end of close: every future that another thread held
      when this call failed what was pending has been resolved since. */
  lemma CloseDoneIffHeldResolved(states: seq<Sys>, events: seq<Event>, i: nat, j: nat, c: nat)
    requires Run(states, events) && i < j < |events|
    requires events[i] == FailPending(Some(c)) && events[j] == Closed(c)
    ensures AllDone(states[j + 1]) <==> states[i].held <= states[j + 1].done
  {
    hide Apply, Inv, Enabled;
    CloseResolvesPending(states, events, i, j, c);
    DoneStays(states, events, i, j + 1);
    DoneStays(states, events, j, j + 1);
    HeldNotDone(states, events, i);
  }

  /** The same in terms of what happened: everything is done at the end of close if and only if
      each future taken by an earlier unload, exit, result or other failure step has had its
      resolution before close ends. */
  lemma CloseDoneIffResolved(states: seq<Sys>, events: seq<Event>, i: nat, j: nat, c: nat)
    requires Run(states, events) && i < j < |events|
    requires events[i] == FailPending(Some(c)) && events[j] == Closed(c)
    ensures AllDone(states[j + 1]) <==>
              forall k, f | 0 <= k < i && Took(states, events, k, f) :: exists m :: k < m < j && events[m] == Resolve(f)
  {
    hide Apply, Inv, Enabled, Took, Taken;
    assert |states| == |events| + 1;
    hide Run;
    CloseDoneIffHeldResolved(states, events, i, j, c);
    if AllDone(states[j + 1]) {
      forall k, f | 0 <= k < i && Took(states, events, k, f) ensures exists m :: k < m < j && events[m] == Resolve(f) {
        TakenIsHeld(states, events, k, f);
        DoneStays(states, events, k, j + 1);
        DoneMeansResolved(states, events, k + 1, j + 1, f);
      }
    }
    if forall k, f | 0 <= k < i && Took(states, events, k, f) :: exists m :: k < m < j && events[m] == Resolve(f) {
      forall f | f in states[i].held ensures f in states[j + 1].done {
        HeldMeans(states, events, i, f);
        var k :| 0 <= k < i && Owes(states, events, k, i, f);
        var m :| k < m < j && events[m] == Resolve(f);
        TakenIsHeld(states, events, k, f);
        DoneMeansResolved(states, events, k + 1, j + 1, f);
      }
    }
  }

  lemma TakenIsHeld(states: seq<Sys>, events: seq<Event>, k: nat, f: nat)
    requires Run(states, events) && k < |events| && Took(states, events, k, f)
    ensures f in states[k + 1].held && f < states[k].created
  {
    hide Apply, Inv, Enabled;
    RunStep(states, events, k);
    StepHolds(states[k], events[k]);
  }
}
