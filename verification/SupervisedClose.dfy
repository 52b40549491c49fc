/** When close can end: process objects that somebody has closed make it raise. */
module SupervisedClose {
  import opened Core
  import opened SmoothRoundRobin
  import opened PoolModel
  import opened PoolInvariant
  import opened StaleResults
  import opened SupervisedPool
  import opened SupervisedInvariant
  import P = PoolRuns
  import R = RestartLimiter
  import C = PoolClose

  predicate Complete(s: World) {
    s.sys.pool.closeComplete
  }

  /** Some continuation of n events completes the close. */
  ghost predicate EndsIn(s: World, n: nat)
    decreases n
  {
    if n == 0 then Complete(s) else exists e :: Enabled(s, e) && EndsIn(Apply(s, e), n - 1)
  }

  ghost predicate CanEnd(s: World) {
    exists n: nat :: EndsIn(s, n)
  }

  /** What a call of close needs to get to its end: it is past the processes, or it has itself
      stopped every one that is closed, or none is closed and a new call can be made. */
  ghost predicate Passable(s: World) {
    || (forall w :: !GoneAt(s, w))
    || (exists c :: StoppingAt(s, c) && forall w :: GoneAt(s, w) ==> w in s.calls[c].stopped)
    || (exists c :: EmptiedAt(s, c))
  }

  // ---------- a closed process object in the way stays there ----------

  /** Every call is stopped by some closed process object. */
  ghost predicate Blocked(s: World) {
    && s.sys.pool.closing && !Complete(s)
    && (exists w :: GoneAt(s, w))
    && (forall c :: !EmptiedAt(s, c))
    && (forall c :: StoppingAt(s, c) ==> BlockedCall(s, c))
  }

  ghost predicate BlockedCall(s: World, c: nat)
    requires StoppingAt(s, c)
  {
    exists w :: GoneAt(s, w) && w !in s.calls[c].stopped
  }

  lemma GoneStays(s: World, e: Event, w: WorkerId)
    requires Enabled(s, e) && s.sys.pool.closing && GoneAt(s, w)
    ensures GoneAt(Apply(s, e), w)
  {
    NextState(s, e);
    if PoolStep(s, e).Some? { OnlyUnloadRemoves(s.sys, PoolStep(s, e).value, w); }
    hide Apply, P.Apply, P.Enabled;
  }

  lemma StaysIncomplete(s: World, e: Event)
    requires Inv(s) && Enabled(s, e) && !Complete(s) && (forall c :: !EmptiedAt(s, c))
    ensures !Complete(Apply(s, e))
  {
    NextState(s, e);
    if PoolStep(s, e).Some? { PoolIncomplete(s.sys, PoolStep(s, e).value); }
    hide Apply, P.Apply, P.Enabled, P.Inv;
  }

  lemma PoolIncomplete(s: P.Sys, e: P.Event)
    requires P.Inv(s) && P.Enabled(s, e) && !s.pool.closeComplete && !e.Closed?
    ensures !P.Apply(s, e).pool.closeComplete
  {
    if e.Exec? { P.ExecuteFlags(s.pool, e.task, e.handler, s.created, e.oracle); }
    hide Execute, P.Inv, AddRoutes, DropRoutes, GroupTasks, FuturesOf, Owned;
  }

  /** A blocked call stays so: it does not stop what is closed, and gets no further before. */
  lemma CallStays(s: World, e: Event, c: nat)
    requires Enabled(s, e) && s.sys.pool.closing && !EmptiedAt(s, c) && (StoppingAt(s, c) ==> BlockedCall(s, c))
    requires exists w :: GoneAt(s, w)
    ensures var s' := Apply(s, e);
      !EmptiedAt(s', c) && (StoppingAt(s', c) ==> BlockedCall(s', c))
  {
    NextState(s, e);
    var w :| GoneAt(s, w) && (StoppingAt(s, c) ==> w !in s.calls[c].stopped);
    GoneStays(s, e, w);
    if CallOf(e) == Some(c) {
      CallGuard(s, e);
      OwnCallStays(s, e, c, w);
    } else {
      OtherCalls(s, e, c);
    }
    hide Apply, Enabled, NextSys, NextCalls, CallOf, GoneAt;
    assert StoppingAt(Apply(s, e), c) ==> w !in Apply(s, e).calls[c].stopped;
  }

  /** A call does not stop a closed process object and does not fail anything before it has. */
  lemma OwnCallStays(s: World, e: Event, c: nat, w: WorkerId)
    requires CallCan(s, e) && CallOf(e) == Some(c) && GoneAt(s, w) && !EmptiedAt(s, c)
    requires StoppingAt(s, c) ==> w !in s.calls[c].stopped
    ensures c in NextCalls(s, e) && !NextCalls(s, e)[c].Emptied?
    ensures NextCalls(s, e)[c].Stopping? ==> w !in NextCalls(s, e)[c].stopped
  {
  }

  lemma BlockedStays(s: World, e: Event)
    requires Inv(s) && Enabled(s, e) && Blocked(s)
    ensures Blocked(Apply(s, e))
  {
    CallsClose(s, e);
    StaysIncomplete(s, e);
    var w :| GoneAt(s, w);
    GoneStays(s, e, w);
    forall c ensures !EmptiedAt(Apply(s, e), c) && (StoppingAt(Apply(s, e), c) ==> BlockedCall(Apply(s, e), c)) {
      CallStays(s, e, c);
    }
    NextState(s, e);
    hide Apply, P.Inv, Enabled, EmptiedAt, StoppingAt, BlockedCall, GoneAt, NextSys;
  }

  lemma {:induction false} NeverEnds(s: World, n: nat)
    requires Inv(s) && Blocked(s)
    ensures !EndsIn(s, n)
    decreases n
  {
    hide Inv, Apply, Enabled;
    if n > 0 {
      forall e | Enabled(s, e) ensures !EndsIn(Apply(s, e), n - 1) {
        StepKeeps(s, e);
        BlockedStays(s, e);
        NeverEnds(Apply(s, e), n - 1);
      }
    }
  }

  lemma BlockedForEver(s: World)
    requires Inv(s) && Blocked(s)
    ensures !CanEnd(s)
  {
    hide Inv, Blocked;
    forall n: nat ensures !EndsIn(s, n) { NeverEnds(s, n); }
  }

  // ---------- with nothing in the way close can end ----------

  lemma EndsBefore(s: World, e: Event)
    requires Enabled(s, e) && CanEnd(Apply(s, e))
    ensures CanEnd(s)
  {
    hide Enabled, Apply;
    var n: nat :| EndsIn(Apply(s, e), n);
    assert EndsIn(s, n + 1);
  }

  lemma CompleteEnds(s: World)
    requires Complete(s)
    ensures CanEnd(s)
  {
    assert EndsIn(s, 0);
  }

  lemma ResolveStep(s: World, c: nat, f: nat)
    requires Inv(s) && EmptiedAt(s, c) && c in s.sys.took && f in s.sys.took[c] && f !in s.sys.done
    ensures var e := Other(P.Resolve(f));
            var s' := Apply(s, e);
      Enabled(s, e) && EmptiedAt(s', c) && c in s'.sys.took && s'.sys.took[c] - s'.sys.done < s.sys.took[c] - s.sys.done
  {
    assert CallInv(s, c);
    NextState(s, Other(P.Resolve(f)));
    hide Apply, P.Inv;
    assert f in s.sys.took[c] - s.sys.done;
  }

  lemma LastStep(s: World, c: nat)
    requires EmptiedAt(s, c) && c in s.sys.took && s.sys.took[c] <= s.sys.done
    ensures Enabled(s, CallEnds(c)) && Complete(Apply(s, CallEnds(c)))
  {
    NextState(s, CallEnds(c));
    hide Apply;
  }

  /** A call past _fail_all_pending ends as soon as its futures are resolved. */
  lemma {:induction false} EmptiedEnds(s: World, c: nat)
    requires Inv(s) && EmptiedAt(s, c) && c in s.sys.took
    ensures CanEnd(s)
    decreases s.sys.took[c] - s.sys.done
  {
    hide Inv, Apply, Enabled, EmptiedAt, Complete, CanEnd;
    if s.sys.took[c] <= s.sys.done {
      LastStep(s, c);
      CompleteEnds(Apply(s, CallEnds(c)));
      EndsBefore(s, CallEnds(c));
    } else {
      var f :| f in s.sys.took[c] && f !in s.sys.done;
      ResolveStep(s, c, f);
      StepKeeps(s, Other(P.Resolve(f)));
      EmptiedEnds(Apply(s, Other(P.Resolve(f))), c);
      EndsBefore(s, Other(P.Resolve(f)));
    }
  }

  /** Every closed process object was closed by the call itself. */
  ghost predicate OnlyOwn(s: World, c: nat) {
    StoppingAt(s, c) && forall w :: GoneAt(s, w) ==> w in s.calls[c].stopped
  }

  lemma StopStep(s: World, c: nat, v: WorkerId)
    requires Inv(s) && OnlyOwn(s, c) && InTable(s, v) && v !in s.calls[c].stopped
    ensures var e := CallStops(c, v, false);
            var s' := Apply(s, e);
      && Enabled(s, e) && StoppingAt(s', c) && OnlyOwn(s', c) && s'.calls[c].stopped == s.calls[c].stopped + {v}
      && s'.sys.pool.workers.Keys == s.sys.pool.workers.Keys
  {
    NextState(s, CallStops(c, v, false));
    hide Apply, P.Inv;
  }

  lemma EmptyStep(s: World, c: nat)
    requires Inv(s) && OnlyOwn(s, c) && s.sys.pool.workers.Keys <= s.calls[c].stopped
    ensures var s' := Apply(s, CallFails(c));
      Enabled(s, CallFails(c)) && EmptiedAt(s', c) && c in s'.sys.took
  {
    assert CallInv(s, c);
    NextState(s, CallFails(c));
    hide Apply, P.Inv;
  }

  lemma {:induction false} StoppingEnds(s: World, c: nat)
    requires Inv(s) && StoppingAt(s, c) && OnlyOwn(s, c)
    ensures CanEnd(s)
    decreases s.sys.pool.workers.Keys - s.calls[c].stopped
  {
    hide Inv, Apply, Enabled, OnlyOwn, EmptiedAt, CanEnd;
    if s.sys.pool.workers.Keys <= s.calls[c].stopped {
      EmptyStep(s, c);
      StepKeeps(s, CallFails(c));
      EmptiedEnds(Apply(s, CallFails(c)), c);
      EndsBefore(s, CallFails(c));
    } else {
      var v :| v in s.sys.pool.workers && v !in s.calls[c].stopped;
      StopStep(s, c, v);
      assert v in s.sys.pool.workers.Keys - s.calls[c].stopped;
      StepKeeps(s, CallStops(c, v, false));
      StoppingEnds(Apply(s, CallStops(c, v, false)), c);
      EndsBefore(s, CallStops(c, v, false));
    }
  }

  ghost predicate NoneGone(s: World) {
    forall w :: !GoneAt(s, w)
  }

  lemma AskStep(s: World, c: nat, v: WorkerId)
    requires NoneGone(s) && AskingAt(s, c) && InTable(s, v) && v !in s.calls[c].asked
    ensures var e := CallAsks(c, v);
            var s' := Apply(s, e);
      && Enabled(s, e) && NoneGone(s') && AskingAt(s', c) && s'.calls[c].asked == s.calls[c].asked + {v}
      && s'.sys == s.sys
  {
    NextState(s, CallAsks(c, v));
    hide Apply;
    assert forall w :: GoneAt(Apply(s, CallAsks(c, v)), w) ==> GoneAt(s, w);
  }

  lemma AskedStep(s: World, c: nat)
    requires NoneGone(s) && AskingAt(s, c) && s.sys.pool.workers.Keys <= s.calls[c].asked
    ensures Enabled(s, CallAsked(c)) && StoppingAt(Apply(s, CallAsked(c)), c) && OnlyOwn(Apply(s, CallAsked(c)), c)
  {
    NextState(s, CallAsked(c));
    hide Apply;
    assert forall w :: GoneAt(Apply(s, CallAsked(c)), w) ==> GoneAt(s, w);
  }

  lemma {:induction false} AskingEnds(s: World, c: nat)
    requires Inv(s) && NoneGone(s) && AskingAt(s, c)
    ensures CanEnd(s)
    decreases s.sys.pool.workers.Keys - s.calls[c].asked
  {
    hide Inv, Apply, Enabled, OnlyOwn, NoneGone, CanEnd;
    if s.sys.pool.workers.Keys <= s.calls[c].asked {
      AskedStep(s, c);
      StepKeeps(s, CallAsked(c));
      StoppingEnds(Apply(s, CallAsked(c)), c);
      EndsBefore(s, CallAsked(c));
    } else {
      var v :| v in s.sys.pool.workers && v !in s.calls[c].asked;
      AskStep(s, c, v);
      assert v in s.sys.pool.workers.Keys - s.calls[c].asked;
      StepKeeps(s, CallAsks(c, v));
      AskingEnds(Apply(s, CallAsks(c, v)), c);
      EndsBefore(s, CallAsks(c, v));
    }
  }

  /** There is always another call of close to come. */
  lemma {:induction false} Above(calls: set<nat>) returns (c: nat)
    ensures forall d :: d in calls ==> d < c
  {
    c := 0;
    if d :| d in calls {
      c := Above(calls - {d});
      forall e | e in calls ensures e <= d || e < c { assert e == d || e in calls - {d}; }
      c := if d < c then c else d + 1;
    }
  }

  lemma CallStep(s: World, c: nat)
    requires NoneGone(s) && c !in s.calls && !Complete(s)
    ensures Enabled(s, CallClose(c)) && NoneGone(Apply(s, CallClose(c))) && AskingAt(Apply(s, CallClose(c)), c)
  {
    NextState(s, CallClose(c));
    hide Apply;
    assert forall w :: GoneAt(Apply(s, CallClose(c)), w) ==> GoneAt(s, w);
  }

  lemma NewCallEnds(s: World)
    requires Inv(s) && NoneGone(s)
    ensures CanEnd(s)
  {
    if Complete(s) {
      CompleteEnds(s);
    } else {
      hide Inv, Apply, Enabled, NoneGone, CanEnd, AskingAt;
      var c := Above(s.calls.Keys);
      CallStep(s, c);
      StepKeeps(s, CallClose(c));
      AskingEnds(Apply(s, CallClose(c)), c);
      EndsBefore(s, CallClose(c));
    }
  }

  lemma EmptiedTook(s: World, c: nat)
    requires Inv(s) && EmptiedAt(s, c)
    ensures c in s.sys.took
  {
    assert CallInv(s, c);
  }

  lemma PassableEnds(s: World)
    requires Inv(s) && Passable(s)
    ensures CanEnd(s)
  {
    hide Inv, CanEnd;
    if c :| EmptiedAt(s, c) {
      EmptiedTook(s, c);
      EmptiedEnds(s, c);
    } else if c :| StoppingAt(s, c) && forall w :: GoneAt(s, w) ==> w in s.calls[c].stopped {
      StoppingEnds(s, c);
    } else {
      NewCallEnds(s);
    }
  }

  lemma ImpassableBlocked(s: World)
    requires s.sys.pool.closing && !Complete(s) && !Passable(s)
    ensures Blocked(s)
  {
  }

  /** The exact condition, in every reachable state in which the pool is closing: close can still
      end, whatever the threads do, if and only if it has ended, or a call is past
      _fail_all_pending, or no worker in the table has a closed process object, or some call that
      is stopping the workers has itself stopped all that have one. */
  lemma CloseEndsIff(states: seq<World>, events: seq<Event>, i: nat)
    requires Run(states, events) && i < |states| && states[i].sys.pool.closing
    ensures CanEnd(states[i]) <==> Complete(states[i]) || Passable(states[i])
  {
    RunInv(states, events, i);
    var s := states[i];
    hide Inv, Passable, Complete, Blocked, CanEnd;
    if Complete(s) {
      CompleteEnds(s);
    } else if Passable(s) {
      PassableEnds(s);
    } else {
      ImpassableBlocked(s);
      BlockedForEver(s);
    }
  }
}
