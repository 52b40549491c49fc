/** A waiting query lasts until its task is finished: over every run, and however often it is woken. */
module SchedulerQuery {
  import opened Core
  import opened SchedulerMachine
  import opened SchedulerInvariant
  import opened SchedulerFrame
  import opened SchedulerThreads
  import opened SchedulerTheorems

  /** Consumed or evicted, or with a terminal status. */
  predicate Over(s: State, t: TaskId) {
    t !in s.records || s.records[t].Completed? || s.records[t].Failed?
  }

  /** The client waits for the task. */
  predicate WaitsFor(s: State, c: nat, t: TaskId, timed: bool) {
    Client(c) in s.pcs &&
    match s.pcs[Client(c)]
    case QueryLock(u, b) => u == t && b == timed
    case QueryCheck(u, b) => u == t && b == timed
    case QueryHold(u, b) => u == t && b == timed
    case QueryParked(u, b) => u == t && b == timed
    case _ => false
  }

  lemma OnlyQueries(s: State, e: Event, c: nat, t: TaskId, timed: bool)
    requires Enabled(s, e) && ActorOf(e) == Some(Client(c)) && WaitsFor(s, c, t, timed)
    ensures e.Query? && e.client == c && CanQuery(s, c, e.query) && !e.query.Ask?
  {
  }

  lemma OwnQueryStep(s: State, c: nat, step: QueryStep, t: TaskId, timed: bool)
    requires CanQuery(s, c, step) && WaitsFor(s, c, t, timed) && !step.Ask?
    ensures Client(c) in ApplyQuery(s, c, step).pcs ==> WaitsFor(ApplyQuery(s, c, step), c, t, timed)
    ensures Client(c) !in ApplyQuery(s, c, step).pcs ==> Ends(s, step, c, t, timed)
  {
    if step.Look? {
      hide ApplyQuery;
      LookEnds(s, c);
      LookIs(s, c);
    } else {
      OtherSteps(s, c, step, t, timed);
      hide ApplyQuery, CanQuery;
    }
  }

  lemma OtherSteps(s: State, c: nat, step: QueryStep, t: TaskId, timed: bool)
    requires CanQuery(s, c, step) && WaitsFor(s, c, t, timed) && !step.Ask? && !step.Look?
    ensures Client(c) in ApplyQuery(s, c, step).pcs ==> WaitsFor(ApplyQuery(s, c, step), c, t, timed)
    ensures Client(c) !in ApplyQuery(s, c, step).pcs ==> Ends(s, step, c, t, timed)
  {
  }

  /** The query gets its answer, or gives up holding the lock it looked under. */
  predicate Ends(s: State, step: QueryStep, c: nat, t: TaskId, timed: bool) {
    || (step.Look? && Over(s, t))
    || (step.GiveUp? && timed && s.At(Client(c), QueryHold(t, timed)))
  }

  lemma LookIs(s: State, c: nat)
    requires CanQuery(s, c, Look)
    ensures ApplyQuery(s, c, Look) == DoLook(s, c)
  {
    hide DoLook;
  }

  /** Looking ends the wait exactly when the task is over. */
  lemma LookEnds(s: State, c: nat)
    requires CanQuery(s, c, Look)
    ensures Client(c) !in DoLook(s, c).pcs <==> Over(s, s.pcs[Client(c)].task)
    ensures Client(c) in DoLook(s, c).pcs ==>
              DoLook(s, c).pcs[Client(c)] == QueryHold(s.pcs[Client(c)].task, s.pcs[Client(c)].timed)
  {
    if Over(s, s.pcs[Client(c)].task) {
    } else {
    }
  }

  lemma QueryStepKeeps(s: State, e: Event, c: nat, t: TaskId, timed: bool)
    requires Enabled(s, e) && WaitsFor(s, c, t, timed)
    ensures Client(c) in Apply(s, e).pcs ==> WaitsFor(Apply(s, e), c, t, timed)
    ensures Client(c) !in Apply(s, e).pcs ==> e.Query? && e.client == c && Ends(s, e.query, c, t, timed)
  {
    if ActorOf(e) == Some(Client(c)) {
      OnlyQueries(s, e, c, t, timed);
      hide CanQuery, ApplyQuery, WaitsFor, Ends;
      OwnQueryStep(s, c, e.query, t, timed);
    } else {
      ThreadStays(s, e, Client(c));
      hide Apply, Enabled;
    }
  }

  lemma AskStarts(s: State, c: nat, t: TaskId, timed: bool)
    requires Enabled(s, Query(c, Ask(t, timed)))
    ensures WaitsFor(Apply(s, Query(c, Ask(t, timed))), c, t, timed) && !Over(s, t)
  {
  }

  lemma {:induction false} Waits(states: seq<State>, events: seq<Event>, i: nat, j: nat, c: nat, t: TaskId, timed: bool)
    requires Run(states, events) && i < j <= |events| && events[i] == Query(c, Ask(t, timed))
    requires forall k :: i < k < j ==> Client(c) in states[k].pcs
    ensures Client(c) in states[j].pcs ==> WaitsFor(states[j], c, t, timed)
    ensures Client(c) !in states[j].pcs ==>
              events[j - 1].Query? && events[j - 1].client == c && Ends(states[j - 1], events[j - 1].query, c, t, timed)
  {
    hide Init, Fresh, Apply, Enabled, WaitsFor, Ends;
    assert Step(states[j - 1], events[j - 1], states[j - 1 + 1]);
    if j == i + 1 {
      AskStarts(states[i], c, t, timed);
      StartsInside(states[j], c, t, timed);
    } else {
      Waits(states, events, i, j - 1, c, t, timed);
      assert Client(c) in states[j - 1].pcs;
      QueryStepKeeps(states[j - 1], events[j - 1], c, t, timed);
    }
  }

  lemma StartsInside(s: State, c: nat, t: TaskId, timed: bool)
    requires WaitsFor(s, c, t, timed)
    ensures Client(c) in s.pcs
  {
  }

  /** The client looked at step k, found the task unfinished and has held the lock up to state j. */
  predicate HeldSince(states: seq<State>, events: seq<Event>, k: nat, j: nat, c: nat, t: TaskId)
    requires j < |states| == |events| + 1 && k < j
  {
    && events[k] == Query(c, Look) && !Over(states[k], t)
    && forall m :: k < m <= j ==> states[m].condLock == Some(Client(c))
  }

  lemma {:induction false} LookedBefore(states: seq<State>, events: seq<Event>, j: nat, c: nat, t: TaskId, timed: bool)
    returns (k: nat)
    requires Run(states, events) && j < |states| && states[j].At(Client(c), QueryHold(t, timed))
    ensures k < j && HeldSince(states, events, k, j, c, t)
  {
    hide Fresh, Apply, Enabled, Inv;
    RunInv(states, events, j);
    HoldLocks(states[j], c);
    if j == 0 {
    } else {
      assert Step(states[j - 1], events[j - 1], states[j - 1 + 1]);
      HoldStep(states[j - 1], events[j - 1], c, t, timed);
      if states[j - 1].At(Client(c), QueryHold(t, timed)) {
        k := LookedBefore(states, events, j - 1, c, t, timed);
      } else {
        k := j - 1;
      }
    }
  }

  lemma HoldLocks(s: State, c: nat)
    requires Inv(s) && Client(c) in s.pcs && s.pcs[Client(c)].QueryHold?
    ensures s.condLock == Some(Client(c))
  {
    assert ThreadInv(s, Client(c));
  }

  lemma HoldStep(s: State, e: Event, c: nat, t: TaskId, timed: bool)
    requires Enabled(s, e) && Apply(s, e).At(Client(c), QueryHold(t, timed))
    ensures s.At(Client(c), QueryHold(t, timed)) || (e == Query(c, Look) && !Over(s, t))
  {
    if ActorOf(e) == Some(Client(c)) {
      OwnHold(s, e, c, t, timed);
    } else {
      ThreadStays(s, e, Client(c));
      hide Apply, Enabled;
    }
  }

  lemma OwnHold(s: State, e: Event, c: nat, t: TaskId, timed: bool)
    requires Enabled(s, e) && ActorOf(e) == Some(Client(c)) && Apply(s, e).At(Client(c), QueryHold(t, timed))
    ensures e == Query(c, Look) && !Over(s, t)
  {
    if e.Query? {
      LookHolds(s, c, e.query, t, timed);
    } else if e.Submit? {
      hide CanSubmit, ApplySubmit;
      SubmitElsewhere(s, c, e.submit);
    } else if e.Stop? {
      hide CanStop, ApplyStop;
      StopElsewhere(s, c, e.stop);
    } else if e.Sweep? {
      hide CanSweep, ApplySweep;
      SweepElsewhere(s, c, e.sweep);
    } else {
      hide CanFinish, ApplyFinish;
      FinishElsewhere(s, c, e.finish);
    }
  }

  lemma LookHolds(s: State, c: nat, step: QueryStep, t: TaskId, timed: bool)
    requires CanQuery(s, c, step) && ApplyQuery(s, c, step).At(Client(c), QueryHold(t, timed))
    ensures step == Look && !Over(s, t)
  {
    if step.Look? {
      hide ApplyQuery;
      LookIs(s, c);
      LookEnds(s, c);
    }
  }

  /** Only looking takes a client to where it holds the condition before it waits. */
  predicate Elsewhere(s: State, c: nat) {
    Client(c) !in s.pcs || !s.pcs[Client(c)].QueryHold?
  }

  lemma SubmitElsewhere(s: State, c: nat, step: SubmitStep)
    requires CanSubmit(s, c, step)
    ensures Elsewhere(ApplySubmit(s, c, step), c)
  {
    match step
    case Call(t) => CallElsewhere(s, c, t);
    case Enter => EnterElsewhere(s, c);
    case _ => InsideElsewhere(s, c, step);
  }

  lemma CallElsewhere(s: State, c: nat, t: TaskId)
    requires CanSubmit(s, c, Call(t))
    ensures Elsewhere(ApplySubmit(s, c, Call(t)), c)
  {
  }

  lemma EnterElsewhere(s: State, c: nat)
    requires CanSubmit(s, c, Enter)
    ensures Elsewhere(ApplySubmit(s, c, Enter), c)
  {
  }

  lemma InsideElsewhere(s: State, c: nat, step: SubmitStep)
    requires CanSubmit(s, c, step) && !step.Call? && !step.Enter?
    ensures Elsewhere(ApplySubmit(s, c, step), c)
  {
  }

  lemma StopElsewhere(s: State, c: nat, step: StopStep)
    requires CanStop(s, c, step)
    ensures Elsewhere(ApplyStop(s, c, step), c)
  {
  }

  lemma SweepElsewhere(s: State, c: nat, step: SweepStep)
    requires CanSweep(s, Client(c), step)
    ensures Elsewhere(ApplySweep(s, Client(c), step), c)
  {
    if step.NotifySwept? {
    } else if step.End? {
    } else {
    }
  }

  lemma FinishElsewhere(s: State, c: nat, step: FinishStep)
    requires CanFinish(s, Client(c), step)
    ensures Elsewhere(ApplyFinish(s, Client(c), step), c)
  {
  }

  lemma Lengths(states: seq<State>, events: seq<Event>)
    requires Run(states, events)
    ensures |states| == |events| + 1
  {
  }

  /** A query ends only in one of two ways, however often it was woken before: by a look that finds its
      task consumed or evicted or with a terminal status, or, with a time limit, after a look under the
      lock it still holds that found the task unfinished. */
  lemma QueryWaits(states: seq<State>, events: seq<Event>, i: nat, j: nat, c: nat, t: TaskId, timed: bool)
    requires Run(states, events) && i < j < |events| && events[i] == Query(c, Ask(t, timed))
    requires (forall k :: i < k <= j ==> Client(c) in states[k].pcs) && Client(c) !in states[j + 1].pcs
    ensures
      || (events[j] == Query(c, Look)
          && (t !in states[j].records || states[j].records[t].Completed? || states[j].records[t].Failed?))
      || (timed && events[j] == Query(c, GiveUp)
          && exists k :: 0 <= k < j && HeldSince(states, events, k, j, c, t))
  {
    hide Run, HeldSince;
    Lengths(states, events);
    Waits(states, events, i, j + 1, c, t, timed);
    if events[j] == Query(c, GiveUp) {
      var k := LookedBefore(states, events, j, c, t, timed);
    }
  }

  /** A query that looks at its task ends if and only if the task is over; until then it goes to
      sleep. */
  lemma LookEndsIff(states: seq<State>, events: seq<Event>, i: nat, c: nat)
    requires Run(states, events) && i < |events| && events[i] == Query(c, Look)
    ensures Client(c) in states[i].pcs && states[i].pcs[Client(c)].QueryCheck?
    ensures Client(c) !in states[i + 1].pcs <==> Over(states[i], states[i].pcs[Client(c)].task)
    ensures Client(c) in states[i + 1].pcs ==> states[i + 1].pcs[Client(c)].QueryHold?
  {
    assert Step(states[i], events[i], states[i + 1]);
    LookEnds(states[i], c);
  }

  // ---------- no busy waiting ----------

  /** A query without a time limit that has found its task unfinished and sleeps, or is about to. */
  predicate Sleeps(s: State, c: nat) {
    && Client(c) in s.pcs && (s.pcs[Client(c)].QueryHold? || s.pcs[Client(c)].QueryParked?)
    && !s.pcs[Client(c)].timed
  }

  /** It looks again only after a notification. */
  lemma {:induction false} SleepsUntilNotified(states: seq<State>, events: seq<Event>, i: nat, j: nat, c: nat)
    requires Run(states, events) && i <= j < |states| && Sleeps(states[i], c)
    requires forall k :: i <= k < j ==> !Notifies(events[k])
    ensures Sleeps(states[j], c)
    decreases j - i
  {
    hide Init, Fresh, Apply, Enabled, Sleeps;
    if i < j {
      SleepsUntilNotified(states, events, i, j - 1, c);
      assert Step(states[j - 1], events[j - 1], states[j - 1 + 1]);
      SleepsOn(states[j - 1], events[j - 1], c);
    }
  }

  lemma SleepsOn(s: State, e: Event, c: nat)
    requires Enabled(s, e) && Sleeps(s, c) && !Notifies(e)
    ensures Sleeps(Apply(s, e), c)
  {
    if ActorOf(e) == Some(Client(c)) {
      assert e == Query(c, Wait);
    } else {
      ThreadStays(s, e, Client(c));
      hide Apply, Enabled;
    }
  }
}
