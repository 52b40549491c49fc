/**
 The process pool as the program keeps it: worker objects and dictionaries updated in place.
 Every method is tied to the function on Pool values that states what its locked region does;
 what those functions keep true is proved in PoolInvariant, PoolRuns and the modules after it.
 */
module ProcessPool {
  import opened Core
  import opened SmoothRoundRobin
  import opened PoolModel
  import opened Supervisor
  import Restarts = RestartLimiter

  datatype Payload = Payload(text: string)

  class TaskFuture {
    var outcome: Option<Result<Payload, ErrorCode>>

    constructor ()
      ensures outcome == None
    {
      outcome := None;
    }

    /** set_result and set_exception; both refuse a future that is done. */
    method Set(r: Result<Payload, ErrorCode>)
      requires outcome.None?
      modifies this
      ensures outcome == Some(r)
    {
      outcome := Some(r);
    }
  }

  class WorkerState {
    const id: WorkerId
    var generation: nat
    var alive: bool
    var outstanding: nat
    var retiring: bool
    /** The process object has been closed: any use of it raises. */
    var closed: bool
    var restartTimes: seq<int>
    var nextRestartAt: Option<int>

    constructor (id: WorkerId)
      ensures this.id == id && Value() == Worker(0, false, 0) && !retiring && !closed
      ensures Limiter() == Restarts.Limiter([], None)
    {
      this.id := id;
      generation, alive, outstanding, retiring, closed := 0, false, 0, false, false;
      restartTimes, nextRestartAt := [], None;
    }

    function Value(): Worker
      reads this`generation, this`alive, this`outstanding
    {
      Worker(generation, alive, outstanding)
    }

    function Limiter(): Restarts.Limiter
      reads this`restartTimes, this`nextRestartAt
    {
      Restarts.Limiter(restartTimes, nextRestartAt)
    }

    /** _launch_worker, with a new process object. */
    method Launch()
      modifies this`generation, this`alive, this`outstanding, this`nextRestartAt, this`closed
      ensures Value() == Worker(old(generation) + 1, false, 0) && nextRestartAt == None && !closed
    {
      closed := false;
      generation := generation + 1;
      alive := false;
      outstanding := 0;
      nextRestartAt := None;
    }

    /** _stop_process: the object is closed when the process has ended in time. */
    method StopProcess(ends: bool) returns (raised: bool)
      modifies this`alive, this`closed
      ensures raised == old(closed)
      ensures Value() == if raised then old(Value()) else old(Value()).(alive := false)
      ensures closed == (old(closed) || ends)
    {
      if closed { return true; }
      closed := ends;
      alive := false;
      raised := false;
    }

    /** _schedule_restart. */
    method ScheduleRestart(now: int, policy: Restarts.Policy)
      modifies this`restartTimes, this`nextRestartAt
      ensures Limiter() == Restarts.Schedule(old(Limiter()), now, policy)
    {
      hide Restarts.Prune;
      var cutoff := now - policy.window;
      while restartTimes != [] && restartTimes[0] < cutoff
        invariant Restarts.Prune(restartTimes, cutoff) == Restarts.Prune(old(restartTimes), cutoff)
        decreases |restartTimes|
      {
        Restarts.PruneStep(restartTimes, cutoff);
        restartTimes := restartTimes[1..];
      }
      Restarts.PruneStep(restartTimes, cutoff);
      if |restartTimes| >= policy.limit {
        nextRestartAt := None;
        return;
      }
      nextRestartAt := Some(now + policy.backoff);
    }
  }

  class ProcessPoolStrategy {
    var accepting: bool
    var closing: bool
    var closeComplete: bool
    var groups: seq<GroupName>
    var processCount: map<GroupName, nat>
    var groupHandlers: map<GroupName, seq<HandlerName>>
    var handlerGroups: map<HandlerName, seq<GroupName>>
    var workers: map<WorkerId, WorkerState>
    var cursors: map<GroupName, nat>
    var smooth: Weights
    var futures: map<TaskId, TaskFuture>
    var assignments: map<TaskId, Assignment>

    /** The table holds every worker under its own id. */
    ghost predicate Keyed()
      reads this`workers
    {
      forall w :: w in workers ==> workers[w].id == w
    }

    /** Between locked regions no worker in the table is being disposed of. */
    ghost predicate Valid()
      reads this`workers, workers.Values`retiring
    {
      Keyed() && forall w :: w in workers ==> !workers[w].retiring
    }

    predicate InTable(worker: WorkerState)
      reads this`workers
    {
      worker.id in workers && workers[worker.id] == worker
    }

    function WorkerValues(): map<WorkerId, Worker>
      reads this`workers, workers.Values`generation, workers.Values`alive, workers.Values`outstanding
    {
      map w | w in workers :: workers[w].Value()
    }

    function View(): Pool<TaskFuture>
      reads this, workers.Values`generation, workers.Values`alive, workers.Values`outstanding
    {
      Pool(accepting, closing, closeComplete, groups, processCount, groupHandlers, handlerGroups,
           WorkerValues(), cursors, smooth, futures, assignments)
    }

    /** Changing one worker object changes the value under its id and no other. */
    twostate lemma OneWorker(worker: WorkerState)
      requires old(Keyed()) && workers == old(workers) && worker.id in workers && workers[worker.id] == worker
      requires forall v :: v in workers && workers[v] != worker ==> workers[v].Value() == old(workers[v].Value())
      ensures WorkerValues() == old(WorkerValues())[worker.id := worker.Value()]
    {
    }

    // ---------- execute ----------

    /** _select_group_locked. */
    method SelectGroup(names: seq<GroupName>, live: set<WorkerId>) returns (g: GroupName)
      requires names != []
      modifies this`smooth
      ensures (g, View()) == PoolModel.SelectGroup(old(View()), names, live) && g in names
    {
      hide LiveWeights, Largest, Sum;
      var weights := LiveWeights(View(), names, live);
      for i := 0 to |names|
        invariant Bump(smooth, weights, names[i..]) == Bump(old(smooth), weights, names)
      {
        smooth := smooth[names[i] := At(smooth, names[i]) + At(weights, names[i])];
      }
      g := Largest(smooth, groups, names);
      smooth := smooth[g := At(smooth, g) - Sum(weights, names)];
    }

    /** A worker's entry with a different load. */
    static function Loaded(p: Pool<TaskFuture>, w: WorkerId, change: int): Pool<TaskFuture>
      requires w in p.workers && p.workers[w].outstanding + change >= 0
    {
      p.(workers := p.workers[w := p.workers[w].(outstanding := p.workers[w].outstanding + change)])
    }

    lemma LoadOf(worker: WorkerState)
      requires InTable(worker)
      ensures worker.id in View().workers && View().workers[worker.id] == worker.Value()
    {
    }

    method SetLoad(worker: WorkerState, change: int)
      requires Valid() && InTable(worker) && worker.outstanding + change >= 0
      modifies worker`outstanding
      ensures Valid() && worker.outstanding == old(worker.outstanding) + change
      ensures worker.id in old(View()).workers && old(View()).workers[worker.id].outstanding == old(worker.outstanding)
      ensures View() == Loaded(old(View()), worker.id, change)
    {
      LoadOf(worker);
      worker.outstanding := worker.outstanding + change;
      OneWorker(worker);
    }

    static lemma LoadedBack(p: Pool<TaskFuture>, q: Pool<TaskFuture>, t: TaskId, w: WorkerId, a: Assignment)
      requires w in p.workers && t !in p.assignments
      requires q == Loaded(p.(assignments := p.assignments[t := a]), w, 1)
      ensures w in q.workers && Loaded(q.(assignments := q.assignments - {t}), w, -1) == p
    {
      assert p.assignments[t := a] - {t} == p.assignments;
    }

    static lemma LoadedIsAssigned(p: Pool<TaskFuture>, q: Pool<TaskFuture>, t: TaskId, w: WorkerId)
      requires w in p.workers
      requires q == Loaded(p.(assignments := p.assignments[t := Assignment(w, p.workers[w].generation)]), w, 1)
      ensures q.(cursors := q.cursors[w.group := Mod(w.index + 1, Count(q, w.group))]) == Assign(p, t, w)
    {
    }

    method Book(t: TaskId, worker: WorkerState)
      requires Valid() && InTable(worker) && t !in assignments
      modifies this`assignments, worker`outstanding
      ensures Valid() && worker.outstanding > 0 && t in assignments
      ensures worker.id in old(View()).workers
      ensures var a := Assignment(worker.id, worker.generation);
        View() == Loaded(old(View()).(assignments := old(assignments)[t := a]), worker.id, 1)
      ensures worker.generation == old(View()).workers[worker.id].generation
    {
      LoadOf(worker);
      assignments := assignments[t := Assignment(worker.id, worker.generation)];
      hide WorkerValues, Valid, Loaded;
      SetLoad(worker, 1);
    }

    method Unbook(t: TaskId, worker: WorkerState)
      requires Valid() && InTable(worker) && worker.outstanding > 0
      modifies this`assignments, worker`outstanding
      ensures Valid() && worker.id in old(View()).workers && old(View()).workers[worker.id].outstanding > 0
      ensures View() == Loaded(old(View()).(assignments := old(assignments) - {t}), worker.id, -1)
    {
      LoadOf(worker);
      assignments := assignments - {t};
      hide WorkerValues, Valid, Loaded;
      SetLoad(worker, -1);
    }

    /** One turn of the inner loop of execute: the assignment is recorded first and undone when
        the put fails. */
    method TryWorker(t: TaskId, worker: WorkerState, accepted: bool)
      requires Valid() && InTable(worker) && t !in assignments
      modifies this`assignments, this`cursors, worker`outstanding
      ensures Valid()
      ensures accepted ==> View() == Assign(old(View()), t, worker.id)
      ensures !accepted ==> View() == old(View())
    {
      ghost var p := View();
      hide WorkerValues, Loaded, Assign, Count, Mod;
      Book(t, worker);
      if accepted {
        LoadedIsAssigned(p, View(), t, worker.id);
        cursors := cursors[worker.id.group := Mod(worker.id.index + 1, Count(View(), worker.id.group))];
      } else {
        LoadedBack(p, View(), t, worker.id, Assignment(worker.id, worker.generation));
        Unbook(t, worker);
      }
    }

    /** The inner loop of execute. */
    method TryGroup(t: TaskId, g: GroupName, o: Oracle) returns (chosen: Option<WorkerId>)
      requires Valid() && t !in assignments
      modifies this`assignments, this`cursors, workers.Values`outstanding
      ensures Valid()
      ensures match FirstAccepting(g, Ordered(old(View()), g, o.live), o.accepts)
              case Some(i) => chosen == Some(WorkerId(g, i)) && WorkerId(g, i) in workers
                              && View() == Assign(old(View()), t, WorkerId(g, i))
              case None => chosen == None && View() == old(View())
    {
      var order := Ordered(View(), g, o.live);
      for i := 0 to |order|
        invariant Valid() && View() == old(View())
        invariant FirstAccepting(g, order[i..], o.accepts) == FirstAccepting(g, order, o.accepts)
      {
        var w := WorkerId(g, order[i]);
        assert order[i] in order && Usable(old(View()), w, o.live);
        TryWorker(t, workers[w], w in o.accepts);
        if w in o.accepts { return Some(w); }
      }
      return None;
    }

    /** The outer loop of execute. */
    method TryGroups(t: TaskId, names: seq<GroupName>, o: Oracle) returns (chosen: Option<WorkerId>)
      requires Valid() && t !in assignments
      modifies this`assignments, this`cursors, this`smooth, this`futures, workers.Values`outstanding
      ensures Valid()
      ensures (View(), if chosen.Some? then Assigned(chosen.value) else Rejected(WorkerUnavailable))
              == Dispatch(old(View()), t, names, o)
    {
      hide Ordered, PoolModel.SelectGroup, Valid, WorkerValues;
      var remaining := names;
      while remaining != []
        invariant Valid() && t !in assignments
        invariant Dispatch(View(), t, remaining, o) == Dispatch(old(View()), t, names, o)
        decreases |remaining|
      {
        var g := SelectGroup(remaining, o.live);
        chosen := TryGroup(t, g, o);
        if chosen.Some? { return; }
        remaining := RemoveName(remaining, g);
      }
      futures := futures - {t};
      return None;
    }

    /** The locked region of execute; the error to set on the future, if any. */
    method Accept(t: TaskId, h: HandlerName, future: TaskFuture, o: Oracle) returns (error: Option<ErrorCode>)
      requires Valid() && assignments.Keys <= futures.Keys && t.text != ""
      modifies this`assignments, this`cursors, this`smooth, this`futures, workers.Values`outstanding
      ensures Valid()
      ensures var (q, out) := PoolModel.Execute(old(View()), t, h, future, o);
        View() == q && error == if out.Rejected? then Some(out.code) else None
    {
      hide Dispatch, Candidates, Routed, Valid;
      if !accepting { return Some(InternalError); }
      if t in futures { return Some(InternalError); }
      var names := Candidates(View(), Routed(View(), h), o.live);
      if names == [] { return Some(WorkerUnavailable); }
      futures := futures[t := future];
      var chosen := TryGroups(t, names, o);
      error := if chosen.None? then Some(WorkerUnavailable) else None;
    }

    method Execute(t: TaskId, h: HandlerName, o: Oracle) returns (future: TaskFuture)
      requires Valid() && assignments.Keys <= futures.Keys
      modifies this`assignments, this`cursors, this`smooth, this`futures, workers.Values`outstanding
      ensures Valid() && fresh(future)
      ensures var (q, out) := PoolModel.Execute(old(View()), t, h, future, o);
        View() == q && future.outcome == if out.Rejected? then Some(Err(out.code)) else None
    {
      future := new TaskFuture();
      hide WorkerValues, Valid, Dispatch, Candidates, Routed;
      if t.text == "" {
        future.Set(Err(InvalidRequest));
      } else {
        hide PoolModel.Execute;
        var error := Accept(t, h, future, o);
        if error.Some? { future.Set(Err(error.value)); }
      }
    }

    // ---------- results ----------

    /** The locked part of _result_loop. */
    method PopAssignment(t: TaskId, from: Assignment) returns (future: Option<TaskFuture>)
      requires Valid()
      modifies this`assignments, this`futures, workers.Values`outstanding
      ensures Valid() && (View(), future) == Receive(old(View()), t, from)
    {
      if t !in assignments || assignments[t] != from { return None; }
      assignments := assignments - {t};
      future := if t in futures then Some(futures[t]) else None;
      futures := futures - {t};
      if from.worker in workers {
        var worker := workers[from.worker];
        if worker.outstanding > 0 { worker.outstanding := worker.outstanding - 1; }
        OneWorker(worker);
      }
    }

    /** One message of _result_loop. */
    method HandleResult(t: TaskId, from: Assignment, result: Result<Payload, ErrorCode>)
      requires Valid()
      modifies this`assignments, this`futures, workers.Values`outstanding, futures.Values
      ensures Valid() && View() == Receive(old(View()), t, from).0
      ensures var taken := Receive(old(View()), t, from).1;
        forall f :: f in old(futures.Values) ==>
          f.outcome == if taken == Some(f) && old(f.outcome).None? then Some(result) else old(f.outcome)
    {
      var future := PopAssignment(t, from);
      if future.Some? && future.value.outcome.None? { future.value.Set(result); }
    }

    static function Outcomes(some: set<TaskFuture>): map<TaskFuture, Option<Result<Payload, ErrorCode>>>
      reads some
    {
      map f | f in some :: f.outcome
    }

    static lemma OutcomesOf(some: set<TaskFuture>)
      ensures Outcomes(some).Keys == some
    {
    }

    /** Outcomes after exactly those in failed that were not done have got the error. */
    static function Failing(before: map<TaskFuture, Option<Result<Payload, ErrorCode>>>, failed: set<TaskFuture>,
                            code: ErrorCode): map<TaskFuture, Option<Result<Payload, ErrorCode>>>
    {
      map f | f in before :: if f in failed && before[f].None? then Some(Err(code)) else before[f]
    }

    static twostate predicate FailedWith(some: set<TaskFuture>, new failed: set<TaskFuture>, code: ErrorCode)
      reads some
    {
      Outcomes(some) == Failing(old(Outcomes(some)), failed, code)
    }

    static twostate lemma EachFailed(some: set<TaskFuture>, new failed: set<TaskFuture>, code: ErrorCode)
      requires forall f :: f in some ==>
        f.outcome == if f in failed && old(f.outcome).None? then Some(Err(code)) else old(f.outcome)
      ensures FailedWith(some, failed, code)
    {
    }

    static lemma FailingNone(before: map<TaskFuture, Option<Result<Payload, ErrorCode>>>, code: ErrorCode)
      ensures Failing(before, {}, code) == before
    {
    }

    /** Failing some and then others is failing them all. */
    static lemma FailingTwice(before: map<TaskFuture, Option<Result<Payload, ErrorCode>>>, a: set<TaskFuture>,
                              b: set<TaskFuture>, all: set<TaskFuture>, code: ErrorCode)
      requires forall f :: f in before ==> (f in all <==> f in a || f in b)
      ensures Failing(Failing(before, a, code), b, code) == Failing(before, all, code)
    {
    }

    /** _fail_futures; all is any set that holds the futures in question. */
    static method FailFutures(failed: seq<TaskFuture>, code: ErrorCode, ghost all: set<TaskFuture>)
      requires Members(failed) <= all
      modifies failed
      ensures FailedWith(all, Members(failed), code)
    {
      for i := 0 to |failed|
        invariant forall f :: f in failed ==>
          f.outcome == old(f.outcome) || (old(f.outcome).None? && f.outcome == Some(Err(code)))
        invariant forall k :: 0 <= k < i ==> failed[k].outcome.Some?
      {
        if failed[i].outcome.None? { failed[i].Set(Err(code)); }
      }
      forall f | f in all
        ensures f.outcome == if f in failed && old(f.outcome).None? then Some(Err(code)) else old(f.outcome)
      {
      }
    }

    // ---------- exits and restarts ----------

    /** The futures of a sequence, as a set. */
    static ghost function Members(fs: seq<TaskFuture>): set<TaskFuture> {
      set f | f in fs
    }

    static lemma InMembers(fs: seq<TaskFuture>)
      ensures forall f :: f in fs ==> f in Members(fs)
    {
    }

    static lemma NothingTaken(p: Pool<TaskFuture>)
      ensures Members([]) == FuturesOf(p, {}) == {}
    {
    }

    static lemma MembersAppend(fs: seq<TaskFuture>, f: TaskFuture)
      ensures Members(fs + [f]) == Members(fs) + {f}
    {
    }

    static lemma MembersJoin(fs: seq<TaskFuture>, gs: seq<TaskFuture>)
      ensures Members(fs + gs) == Members(fs) + Members(gs)
    {
    }

    static lemma FuturesOfMore(p: Pool<TaskFuture>, tasks: set<TaskId>, t: TaskId)
      ensures FuturesOf(p, tasks + {t}) == FuturesOf(p, tasks) + if t in p.futures then {p.futures[t]} else {}
    {
    }

    /** The loop over the assignments: those of one incarnation are popped. */
    method PopOwned(owner: Assignment) returns (failed: seq<TaskFuture>)
      modifies this`assignments, this`futures
      ensures assignments == old(assignments) - Owned(old(View()), owner)
      ensures futures == old(futures) - Owned(old(View()), owner)
      ensures Members(failed) == FuturesOf(old(View()), Owned(old(View()), owner))
    {
      hide FuturesOf, Members, WorkerValues;
      ghost var p := View();
      var items := assignments;
      var rest := items.Keys;
      ghost var taken := {};
      failed := [];
      NothingTaken(p);
      while rest != {}
        invariant rest <= items.Keys && taken == Owned(p, owner) - rest
        invariant assignments == p.assignments - taken && futures == p.futures - taken
        invariant Members(failed) == FuturesOf(p, taken)
        decreases rest
      {
        var t :| t in rest;
        rest := rest - {t};
        if items[t] != owner { continue; }
        assignments := assignments - {t};
        FuturesOfMore(p, taken, t);
        if t in futures {
          MembersAppend(failed, futures[t]);
          failed := failed + [futures[t]];
          futures := futures - {t};
        }
        taken := taken + {t};
      }
      assert taken == Owned(p, owner);
    }

    /** _take_worker_futures_locked: the assignments to the worker's current generation. */
    method TakeWorkerFutures(worker: WorkerState) returns (failed: seq<TaskFuture>)
      requires Keyed() && InTable(worker)
      modifies this`assignments, this`futures, worker`outstanding
      ensures (View(), Members(failed)) == Take(old(View()), worker.id)
    {
      hide FuturesOf, Members, Owned;
      assert View().workers[worker.id] == worker.Value();
      failed := PopOwned(Assignment(worker.id, worker.generation));
      worker.outstanding := 0;
      OneWorker(worker);
    }

    // ---------- exits and restarts, the whole step ----------

    /** The locked part of _handle_worker_exit. */
    method MarkExited(worker: WorkerState) returns (failed: seq<TaskFuture>)
      requires Valid() && InTable(worker) && worker.alive
      modifies this`assignments, this`futures, this`smooth, worker`outstanding, worker`alive
      ensures Valid() && (View(), Members(failed)) == HandleExit(old(View()), worker.id)
      ensures !worker.alive
    {
      worker.alive := false;
      smooth := smooth[worker.id.group := 0];
      OneWorker(worker);
      failed := TakeWorkerFutures(worker);
    }

    /** list(self._futures.values()) */
    method PendingFutures() returns (pending: seq<TaskFuture>)
      ensures Members(pending) == futures.Values
    {
      pending := [];
      var rest := futures.Keys;
      while rest != {}
        invariant rest <= futures.Keys
        invariant forall f :: f in pending ==> f in futures.Values
        invariant forall t :: t in futures && t !in rest ==> futures[t] in pending
        decreases rest
      {
        var t :| t in rest;
        pending := pending + [futures[t]];
        rest := rest - {t};
      }
    }

    /** The locked part of _fail_all_pending. */
    method ClearBooks() returns (failed: seq<TaskFuture>)
      requires Valid()
      modifies this`assignments, this`futures, workers.Values`outstanding
      ensures Valid() && View() == FailAll(old(View())).0
      ensures Members(failed) == FailAll(old(View())).1 == old(futures.Values)
    {
      hide Members, Valid, WorkerValues;
      failed := PendingFutures();
      futures := map[];
      assignments := map[];
      ClearCounts();
      assert WorkerValues() == FailAll(old(View())).0.workers;
    }

    method ClearCounts()
      requires Valid()
      modifies workers.Values`outstanding
      ensures Valid()
      ensures WorkerValues() == map w | w in old(WorkerValues()) :: old(WorkerValues())[w].(outstanding := 0)
    {
      var ids := workers.Keys;
      while ids != {}
        invariant ids <= workers.Keys
        invariant forall w :: w in workers && w !in ids ==> workers[w].outstanding == 0
        decreases ids
      {
        var w :| w in ids;
        workers[w].outstanding := 0;
        ids := ids - {w};
      }
    }

    /** _fail_all_pending. */
    method FailAllPending(code: ErrorCode, ghost all: set<TaskFuture>)
      requires Valid() && futures.Values <= all
      modifies this`assignments, this`futures, workers.Values`outstanding, futures.Values
      ensures Valid() && View() == FailAll(old(View())).0
      ensures FailedWith(all, old(futures.Values), code)
    {
      hide Valid, View, FailAll, Members, Outcomes, Failing;
      var failed := ClearBooks();
      InMembers(failed);
      FailFutures(failed, code, all);
    }

    // ---------- the supervisor ----------

    /** The first half of _handle_worker_exit: the worker's requests fail. */
    method FailWorker(worker: WorkerState)
      requires Valid() && InTable(worker) && worker.alive
      modifies this`assignments, this`futures, this`smooth, worker`alive, worker`outstanding, futures.Values
      ensures Valid() && !worker.alive && View() == HandleExit(old(View()), worker.id).0
      ensures FailedWith(old(futures.Values), HandleExit(old(View()), worker.id).1, WorkerUnavailable)
      ensures futures.Values <= old(futures.Values)
    {
      hide View, Valid, HandleExit, Members, Outcomes, Failing;
      ghost var all := futures.Values;
      ViewFutures();
      TakenPending(View(), worker.id);
      var failed := MarkExited(worker);
      InMembers(failed);
      ViewFutures();
      FailFutures(failed, WorkerUnavailable, all);
    }

    lemma ViewFutures()
      ensures View().futures == futures
    {
    }

    static lemma TakenPending(p: Pool<TaskFuture>, w: WorkerId)
      ensures forall f :: f in HandleExit(p, w).1 ==> f in p.futures.Values
      ensures forall f :: f in p.futures.Values ==> f in HandleExit(p, w).1 || f in HandleExit(p, w).0.futures.Values
      ensures forall f :: f in HandleExit(p, w).0.futures.Values ==> f in p.futures.Values
    {
      var q := HandleExit(p, w).0;
      forall f | f in p.futures.Values ensures f in HandleExit(p, w).1 || f in q.futures.Values {
        var t :| t in p.futures && p.futures[t] == f;
        if t in q.futures { assert q.futures[t] == f; }
      }
    }

    method StopAccepting()
      modifies this`accepting, this`closing
      ensures View() == old(View()).(accepting := false, closing := true)
    {
      accepting := false;
      closing := true;
    }

    /** Some worker in the table has a closed process object. */
    predicate SomeClosed(ids: set<WorkerId>)
      reads this`workers, workers.Values`closed
    {
      exists w :: w in ids && w in workers && workers[w].closed
    }

    static lemma StoppedMore(p: Pool<TaskFuture>, ids: set<WorkerId>, w: WorkerId)
      requires w in p.workers
      ensures w in StoppedIn(p, ids).workers
      ensures var q := StoppedIn(p, ids);
        q.(workers := q.workers[w := q.workers[w].(alive := false)]) == StoppedIn(p, ids + {w})
    {
    }

    static lemma StoppedNone(p: Pool<TaskFuture>)
      ensures StoppedIn(p, {}) == p
    {
    }

    method StopOne(worker: WorkerState, ends: bool)
      requires Valid() && InTable(worker) && !worker.closed
      modifies worker`alive, worker`closed
      ensures Valid() && worker.closed == ends && !worker.alive
      ensures worker.id in old(View()).workers
      ensures var p := old(View());
        View() == p.(workers := p.workers[worker.id := p.workers[worker.id].(alive := false)])
    {
      var raised := worker.StopProcess(ends);
      OneWorker(worker);
    }

    /** The loop that stops the processes of some workers; ends says which end in time. */
    method StopAll(ids: set<WorkerId>, ends: set<WorkerId>) returns (raised: bool, ghost stopped: set<WorkerId>)
      requires Valid() && ids <= workers.Keys
      modifies workers.Values`alive, workers.Values`closed
      ensures Valid() && raised == old(SomeClosed(ids))
      ensures stopped <= ids && (!raised ==> stopped == ids)
      ensures View() == StoppedIn(old(View()), stopped)
      ensures forall w :: w in workers ==> workers[w].closed == (old(workers[w].closed) || (w in stopped && w in ends))
      ensures forall w :: w in workers && workers[w].alive ==> old(workers[w].alive)
    {
      hide View, StoppedIn;
      StoppedNone(View());
      var rest := ids;
      stopped := {};
      while rest != {}
        invariant rest <= ids && stopped == ids - rest && Valid()
        invariant View() == StoppedIn(old(View()), stopped)
        invariant forall w :: w in stopped ==> !old(workers[w].closed)
        invariant forall w :: w in workers ==>
          workers[w].closed == (old(workers[w].closed) || (w in stopped && w in ends))
        invariant forall w :: w in workers && workers[w].alive ==> old(workers[w].alive)
        decreases rest
      {
        var w :| w in rest;
        if workers[w].closed { return true, stopped; }
        ViewKeys(w);
        StoppedMore(old(View()), stopped, w);
        StopOne(workers[w], w in ends);
        rest := rest - {w};
        stopped := stopped + {w};
      }
      raised := false;
    }

    twostate lemma ViewKeys(w: WorkerId)
      requires w in workers && workers == old(workers)
      ensures w in old(View()).workers && w in View().workers
    {
    }

    /** Stops the processes of some workers and then fails everything pending; a process object that
        is closed already makes it raise before anything fails. */
    method StopThenFail(ids: set<WorkerId>, ends: set<WorkerId>, code: ErrorCode, ghost all: set<TaskFuture>)
      returns (raised: bool, ghost halt: Halt)
      requires Valid() && futures.Values <= all && ids <= workers.Keys
      modifies this`assignments, this`futures
      modifies workers.Values`alive, workers.Values`closed, workers.Values`outstanding, futures.Values
      ensures Valid() && raised == halt.Met? == old(SomeClosed(ids))
      ensures View() == match halt
                        case Met(stopped) => StoppedIn(old(View()), stopped)
                        case Through => FailAll(StoppedIn(old(View()), ids)).0
      ensures FailedWith(all, if raised then {} else old(futures.Values), code)
      ensures halt.Met? ==> halt.stopped <= ids
      ensures forall w :: w in workers && workers[w].alive ==> old(workers[w].alive)
      ensures forall w :: w in workers && !raised ==> workers[w].closed == (old(workers[w].closed) || w in ids * ends)
    {
      hide FailAll, Valid, View, StoppedIn, Outcomes, Failing;
      FailingNone(Outcomes(all), code);
      ghost var stopped;
      raised, stopped := StopAll(ids, ends);
      if raised { return raised, Met(stopped); }
      FailAllPending(code, all);
      halt := Through;
    }

    /** _shutdown_after_worker_failure, which leaves the failed worker's own process alone. */
    method ShutDown(worker: WorkerId, ends: set<WorkerId>, ghost all: set<TaskFuture>)
      returns (raised: bool, ghost halt: Halt)
      requires Valid() && futures.Values <= all
      modifies this`assignments, this`futures, this`accepting, this`closing
      modifies workers.Values`alive, workers.Values`closed, workers.Values`outstanding, futures.Values
      ensures Valid() && raised == halt.Met? == old(SomeClosed(workers.Keys - {worker}))
      ensures var r := old(View()).(accepting := false, closing := true);
        View() == match halt
                  case Met(stopped) => StoppedIn(r, stopped)
                  case Through => FailAll(StoppedIn(r, r.workers.Keys - {worker})).0
      ensures FailedWith(all, if raised then {} else old(futures.Values), WorkerUnavailable)
      ensures halt.Met? ==> halt.stopped <= workers.Keys - {worker}
      ensures forall w :: w in workers && workers[w].alive ==> old(workers[w].alive)
    {
      hide FailAll, Valid, View, StoppedIn, Outcomes, Failing, SomeClosed;
      StopAccepting();
      ViewIds();
      raised, halt := StopThenFail(workers.Keys - {worker}, ends, WorkerUnavailable, all);
    }

    lemma ViewIds()
      ensures View().workers.Keys == workers.Keys
    {
    }

    /** What a visit of the supervisor to a worker leaves: the pool's value, the futures that
        failed, the limiter and whether the worker is alive. */
    twostate predicate Left(worker: WorkerState, pending: set<TaskFuture>,
                            new after: (Pool<TaskFuture>, set<TaskFuture>, Restarts.Limiter))
      reads this, workers.Values, worker, pending
    {
      && Valid() && View() == after.0 && FailedWith(pending, after.1, WorkerUnavailable)
      && worker.Limiter() == after.2
      && (old(InTable(worker)) ==> worker.id in after.0.workers && worker.alive == after.0.workers[worker.id].alive)
    }

    /** Nothing has changed. */
    twostate predicate Untouched(worker: WorkerState, pending: set<TaskFuture>)
      reads this, workers.Values, worker, pending
    {
      Left(worker, pending, (old(View()), {}, old(worker.Limiter()))) && worker.alive == old(worker.alive)
    }

    lemma AliveInTable(worker: WorkerState)
      ensures InTable(worker) ==> worker.id in View().workers && worker.alive == View().workers[worker.id].alive
    {
    }

    /** _handle_worker_exit in shutdown mode: the other processes are stopped, and unless one of
        them is closed already everything still pending fails as well. */
    method ExitShutsDown(worker: WorkerState, ends: set<WorkerId>) returns (raised: bool, ghost halt: Halt)
      requires Valid() && InTable(worker) && worker.alive
      modifies this`assignments, this`futures, this`smooth, this`accepting, this`closing
      modifies workers.Values`alive, workers.Values`closed, workers.Values`outstanding, futures.Values
      ensures Valid() && !worker.alive && raised == halt.Met? == old(SomeClosed(workers.Keys - {worker.id}))
      ensures View() == AfterExit(old(View()), worker.id, Shutdown, halt).0
      ensures FailedWith(old(futures.Values), AfterExit(old(View()), worker.id, Shutdown, halt).1, WorkerUnavailable)
    {
      ghost var p, all, before := View(), futures.Values, Outcomes(futures.Values);
      hide HandleExit, FailAll, AfterExit, StoppedIn, Valid, Failing, Outcomes, View;
      ShutdownExit(p, worker.id);
      ViewFutures();
      OutcomesOf(all);
      FailWorker(worker);
      ghost var taken, left := HandleExit(p, worker.id).1, futures.Values;
      ViewFutures();
      raised, halt := ShutDown(worker.id, ends, all);
      ghost var failed := AfterExit(p, worker.id, Shutdown, halt).1;
      FailingTwice(before, taken, if raised then {} else left, failed, WorkerUnavailable);
    }

    /** In shutdown mode everything that was pending fails, taken with the worker or after it, when
        stopping the processes gets through; otherwise what was taken with the worker. */
    static lemma ShutdownExit(p: Pool<TaskFuture>, w: WorkerId)
      ensures var (q, taken) := HandleExit(p, w);
              var r := q.(accepting := false, closing := true);
        && AfterExit(p, w, Shutdown, Through).0 == FailAll(StoppedIn(r, r.workers.Keys - {w})).0
        && (forall f :: f in p.futures.Values ==>
              f in AfterExit(p, w, Shutdown, Through).1 && (f in taken || f in q.futures.Values))
        && (forall st :: AfterExit(p, w, Shutdown, Met(st)) == (StoppedIn(r, st), taken))
    {
      TakenPending(p, w);
      hide HandleExit;
    }

    /** _handle_worker_exit in the other modes. */
    method ExitSchedules(worker: WorkerState, now: int, mode: SafetyMode, policy: Restarts.Policy)
      requires Valid() && InTable(worker) && worker.alive && !mode.Shutdown?
      modifies this`assignments, this`futures, this`smooth
      modifies worker`alive, worker`restartTimes, worker`nextRestartAt, worker`outstanding, futures.Values
      ensures Valid() && !worker.alive && View() == AfterExit(old(View()), worker.id, mode, Through).0
      ensures FailedWith(old(futures.Values), AfterExit(old(View()), worker.id, mode, Through).1, WorkerUnavailable)
      ensures worker.Limiter() == LimiterAfterExit(old(worker.Limiter()), now, mode, policy)
    {
      hide HandleExit, Valid, Restarts.Schedule;
      FailWorker(worker);
      if mode.Restart? { worker.ScheduleRestart(now, policy); }
    }

    /** The guard of _handle_worker_exit: the worker is alive and still the one in the table. */
    predicate Serving(worker: WorkerState)
      reads this`workers, worker`alive, worker`retiring
    {
      worker.alive && !worker.retiring && InTable(worker)
    }

    /** ends says which processes end in time when they are stopped. */
    method HandleWorkerExit(worker: WorkerState, now: int, mode: SafetyMode, policy: Restarts.Policy,
                            ends: set<WorkerId>)
      returns (raised: bool, ghost halt: Halt)
      requires Valid()
      modifies this`assignments, this`futures, this`smooth, this`accepting, this`closing
      modifies worker`alive, worker`restartTimes, worker`nextRestartAt
      modifies workers.Values`alive, workers.Values`closed, workers.Values`outstanding, futures.Values
      ensures raised == halt.Met?
      ensures raised == old(Serving(worker) && mode.Shutdown? && SomeClosed(workers.Keys - {worker.id}))
      ensures !old(Serving(worker)) ==> Untouched(worker, old(futures.Values))
      ensures old(Serving(worker)) ==>
                var (q, failed) := AfterExit(old(View()), worker.id, mode, halt);
                !worker.alive && Left(worker, old(futures.Values),
                                      (q, failed, LimiterAfterExit(old(worker.Limiter()), now, mode, policy)))
    {
      hide Valid, View, HandleExit, FailAll, AfterExit, Restarts.Schedule;
      raised, halt := false, Through;
      if Serving(worker) {
        if mode.Shutdown? {
          raised, halt := ExitShutsDown(worker, ends);
        } else {
          ExitSchedules(worker, now, mode, policy);
        }
      }
      AliveInTable(worker);
    }

    /** The locked launch in _restart_worker. */
    method Relaunch(worker: WorkerState)
      requires Valid() && InTable(worker) && !closing
      modifies worker`generation, worker`alive, worker`outstanding, worker`nextRestartAt, worker`closed
      ensures Valid() && View() == PoolModel.Relaunch(old(View()), worker.id)
      ensures worker.Limiter() == old(worker.Limiter()).(next := None) && !worker.alive && !worker.closed
    {
      worker.Launch();
      OneWorker(worker);
    }

    /** The worker reported READY; then its group's smooth weight is cleared. */
    method MarkReady(worker: WorkerState)
      requires Valid() && InTable(worker)
      modifies this`smooth, worker`alive
      ensures Valid() && View() == ResetWeight(SetAlive(old(View()), worker.id, true), worker.id.group)
      ensures worker.alive
    {
      worker.alive := true;
      smooth := smooth[worker.id.group := 0];
      OneWorker(worker);
    }

    /** The launch failed: the process is stopped and the next restart scheduled. */
    method MarkFailed(worker: WorkerState, now: int, policy: Restarts.Policy, ends: bool)
      requires Valid() && InTable(worker) && !worker.closed
      modifies worker`alive, worker`closed, worker`restartTimes, worker`nextRestartAt
      ensures Valid() && View() == SetAlive(old(View()), worker.id, false) && worker.closed == ends
      ensures !worker.alive && worker.Limiter() == Restarts.Schedule(old(worker.Limiter()), now, policy)
    {
      hide Restarts.Schedule;
      var raised := worker.StopProcess(ends);
      worker.ScheduleRestart(now, policy);
      OneWorker(worker);
    }

    /** The pool started closing during the launch: the process is stopped, which raises when the
        closing thread has stopped it already, and no restart is scheduled. */
    method MarkInterrupted(worker: WorkerState, stopped: bool, ends: bool) returns (raised: bool)
      requires Valid() && InTable(worker) && !worker.closed && !worker.alive
      modifies worker`alive, worker`closed
      ensures Valid() && View() == SetAlive(old(View()), worker.id, false) && !worker.alive
      ensures raised == stopped && worker.closed == (stopped || ends)
    {
      worker.closed := stopped;
      raised := worker.StopProcess(ends);
      OneWorker(worker);
    }

    /** _restart_worker after its guard, given how the launch ends; Abandoned when the pool starts
        closing after the attempt was recorded. */
    method AttemptRestart(worker: WorkerState, at: int, outcome: Restarts.Outcome, policy: Restarts.Policy, ends: bool)
      returns (raised: bool)
      requires Valid() && InTable(worker) && !closing
      modifies this`smooth, worker
      ensures raised == (outcome.Interrupted? && outcome.stopped)
      ensures Left(worker, old(futures.Values),
                   (AfterRestart(old(View()), worker.id, outcome), {},
                    LimiterAfterRestart(old(worker.Limiter()), at, outcome, policy)))
      ensures worker.closed == match outcome
                               case Ready => false
                               case FailedAt(_) => ends
                               case Abandoned => old(worker.closed)
                               case Interrupted(stopped) => stopped || ends
    {
      hide Restarts.Schedule, SetAlive, ResetWeight, PoolModel.Relaunch, View, Valid, Outcomes, Failing;
      FailingNone(Outcomes(futures.Values), WorkerUnavailable);
      RecordAttempt(worker, at);
      raised := false;
      if !outcome.Abandoned? {
        Relaunch(worker);
        raised := EndLaunch(worker, outcome, policy, ends);
      }
      AliveInTable(worker);
    }

    /** The end of a launch: READY, a failure, or an interruption by a close. */
    method EndLaunch(worker: WorkerState, outcome: Restarts.Outcome, policy: Restarts.Policy, ends: bool)
      returns (raised: bool)
      requires Valid() && InTable(worker) && !worker.closed && !worker.alive && !outcome.Abandoned?
      modifies this`smooth, worker`alive, worker`closed, worker`restartTimes, worker`nextRestartAt
      ensures Valid() && raised == (outcome.Interrupted? && outcome.stopped)
      ensures View() == if outcome.Ready? then ResetWeight(SetAlive(old(View()), worker.id, true), worker.id.group)
                        else SetAlive(old(View()), worker.id, false)
      ensures worker.Limiter() ==
                if outcome.FailedAt? then Restarts.Schedule(old(worker.Limiter()), outcome.time, policy)
                else old(worker.Limiter())
      ensures worker.closed == if outcome.Interrupted? then outcome.stopped || ends else outcome.FailedAt? && ends
    {
      hide Restarts.Schedule, SetAlive, ResetWeight, View, Valid;
      raised := false;
      match outcome
      case Ready =>
        MarkReady(worker);
      case FailedAt(t) =>
        MarkFailed(worker, t, policy, ends);
      case Interrupted(stopped) =>
        raised := MarkInterrupted(worker, stopped, ends);
    }

    method RecordAttempt(worker: WorkerState, at: int)
      requires Valid()
      modifies worker`restartTimes, worker`nextRestartAt
      ensures Valid() && View() == old(View()) && worker.Limiter() == Restarts.Attempt(old(worker.Limiter()), at)
    {
      worker.nextRestartAt := None;
      worker.restartTimes := worker.restartTimes + [at];
      assert WorkerValues() == old(WorkerValues());
    }

    /** Still the worker in the table of an open pool. */
    predicate Restartable(worker: WorkerState)
      reads this`workers, this`closing, worker`retiring
    {
      !closing && !worker.retiring && InTable(worker)
    }

    method RestartWorker(worker: WorkerState, at: int, outcome: Restarts.Outcome, policy: Restarts.Policy, ends: bool)
      returns (raised: bool)
      requires Valid()
      modifies this`smooth, worker
      ensures raised == (old(Restartable(worker)) && outcome.Interrupted? && outcome.stopped)
      ensures !old(Restartable(worker)) ==> Untouched(worker, old(futures.Values))
      ensures old(Restartable(worker)) ==>
                Left(worker, old(futures.Values),
                     (AfterRestart(old(View()), worker.id, outcome), {},
                      LimiterAfterRestart(old(worker.Limiter()), at, outcome, policy)))
    {
      hide Valid, View, SetAlive, ResetWeight, PoolModel.Relaunch, Restarts.Schedule;
      AliveInTable(worker);
      raised := false;
      if Restartable(worker) { raised := AttemptRestart(worker, at, outcome, policy, ends); }
    }

    /** One pass of the supervisor loop over a worker; an exception ends the supervisor thread. */
    method Visit(worker: WorkerState, visit: Restarts.Visit, mode: SafetyMode, policy: Restarts.Policy,
                 ends: set<WorkerId>)
      returns (raised: bool, ghost halt: Halt)
      requires Valid()
      modifies this`assignments, this`futures, this`smooth, this`accepting, this`closing
      modifies worker, workers.Values`alive, workers.Values`closed, workers.Values`outstanding, futures.Values
      ensures !old(Restartable(worker)) ==> !raised && Untouched(worker, old(futures.Values))
      ensures old(Restartable(worker)) ==>
                Left(worker, old(futures.Values),
                     AfterVisit(old(View()), worker.id, old(worker.Limiter()), visit, mode, policy, halt))
      ensures halt.Met? <==> old(Restartable(worker) && worker.alive && SomeClosed(workers.Keys - {worker.id}))
                             && visit.dead && mode.Shutdown?
      ensures raised <==> halt.Met?
                          || (old(Restartable(worker) && RestartDue(worker.alive, worker.Limiter(), visit.now))
                              && visit.outcome.Interrupted? && visit.outcome.stopped)
    {
      raised, halt := false, Through;
      if closing || worker.retiring || worker.id !in workers || workers[worker.id] != worker { return; }
      var exited := worker.alive && visit.dead;
      var due := !worker.alive && worker.nextRestartAt.Some? && visit.now >= worker.nextRestartAt.value;
      if exited {
        raised, halt := HandleWorkerExit(worker, visit.now, mode, policy, ends);
      } else if due {
        raised := RestartWorker(worker, visit.at, visit.outcome, policy, worker.id in ends);
      }
    }

    // ---------- loading and unloading groups ----------

    predicate Open(g: GroupName)
      reads this
    {
      !closing && !closeComplete && accepting && g !in groups
    }

    static function Table(g: GroupName, ws: seq<WorkerState>): (m: map<WorkerId, WorkerState>)
      ensures forall w :: w in m <==> w.group == g && w.index < |ws|
      ensures forall w :: w in m ==> m[w] == ws[w.index]
    {
      if ws == [] then map[]
      else
        var n := |ws| - 1;
        Table(g, ws[..n])[WorkerId(g, n) := ws[n]]
    }

    lemma Joined(before: map<WorkerId, WorkerState>, values: map<WorkerId, Worker>, g: GroupName,
                 launched: seq<WorkerState>)
      requires workers == before + Table(g, launched)
      requires values.Keys == before.Keys && forall w :: w in before ==> before[w].Value() == values[w]
      requires forall i :: 0 <= i < |launched| ==> launched[i].Value() == Worker(1, true, 0)
      ensures WorkerValues() == values + NewWorkers(g, |launched|)
    {
      hide Table;
      var now, sum := WorkerValues(), values + NewWorkers(g, |launched|);
      forall w ensures w in now <==> w in sum {}
      forall w | w in now ensures now[w] == sum[w] {}
    }

    /** The group's entries in the other dictionaries. */
    method AddEntries(g: GroupName, handlers: seq<HandlerName>, count: nat)
      modifies this`groups, this`processCount, this`groupHandlers, this`handlerGroups
      ensures View() == old(View()).(groups := old(groups) + [g], groupHandlers := old(groupHandlers)[g := handlers],
                                     processCount := old(processCount)[g := count],
                                     handlerGroups := AddRoutes(old(handlerGroups), handlers, g))
    {
      hide AddRoutes, WorkerValues;
      groups := groups + [g];
      processCount := processCount[g := count];
      groupHandlers := groupHandlers[g := handlers];
      AppendRoutes(g, handlers);
    }

    /** The group's entries in the dictionaries. */
    method AddPublished(g: GroupName, handlers: seq<HandlerName>, launched: seq<WorkerState>)
      requires Valid()
      requires forall i :: 0 <= i < |launched| ==>
        launched[i].id == WorkerId(g, i) && !launched[i].retiring && launched[i].Value() == Worker(1, true, 0)
      modifies this`groups, this`processCount, this`groupHandlers, this`handlerGroups, this`workers
      ensures Valid() && View() == AddGroup(old(View()), g, handlers, |launched|)
      ensures workers == old(workers) + Table(g, launched)
    {
      hide AddRoutes, NewWorkers, Table, Valid, WorkerValues;
      AddWorkers(g, launched);
      AddEntries(g, handlers, |launched|);
    }

    /** The publishing part of register_worker_group, once every worker has reported READY. */
    method PublishGroup(g: GroupName, handlers: seq<HandlerName>, launched: seq<WorkerState>) returns (ok: bool)
      requires Valid()
      requires forall i :: 0 <= i < |launched| ==>
        launched[i].id == WorkerId(g, i) && !launched[i].retiring && launched[i].Value() == Worker(1, true, 0)
      modifies this`groups, this`processCount, this`groupHandlers, this`handlerGroups, this`workers
      ensures Valid() && ok == old(Open(g)) && View() == Register(old(View()), g, handlers, |launched|)
      ensures workers == if ok then old(workers) + Table(g, launched) else old(workers)
    {
      hide AddGroup, Valid, Table;
      ok := Open(g);
      if ok { AddPublished(g, handlers, launched); }
    }

    method AddWorkers(g: GroupName, launched: seq<WorkerState>)
      requires Valid()
      requires forall i :: 0 <= i < |launched| ==>
        launched[i].id == WorkerId(g, i) && !launched[i].retiring && launched[i].Value() == Worker(1, true, 0)
      modifies this`workers
      ensures Valid() && WorkerValues() == old(WorkerValues()) + NewWorkers(g, |launched|)
      ensures workers == old(workers) + Table(g, launched)
    {
      ghost var before := WorkerValues();
      ValuesBefore();
      hide Table, NewWorkers, WorkerValues, WorkerState.Value;
      workers := workers + Table(g, launched);
      Joined(old(workers), before, g, launched);
    }

    lemma ValuesBefore()
      ensures WorkerValues().Keys == workers.Keys
      ensures forall w :: w in workers ==> workers[w].Value() == WorkerValues()[w]
    {
    }

    method AppendRoutes(g: GroupName, handlers: seq<HandlerName>)
      modifies this`handlerGroups
      ensures handlerGroups == AddRoutes(old(handlerGroups), handlers, g)
    {
      for i := 0 to |handlers|
        invariant AddRoutes(handlerGroups, handlers[i..], g) == AddRoutes(old(handlerGroups), handlers, g)
      {
        var h := handlers[i];
        handlerGroups := handlerGroups[h := (if h in handlerGroups then handlerGroups[h] else []) + [g]];
      }
    }

    /** The workers of a new group, each launched for the first time. */
    static method LaunchAll(g: GroupName, count: nat) returns (launched: seq<WorkerState>)
      ensures |launched| == count && forall i :: 0 <= i < count ==>
        fresh(launched[i]) && launched[i].id == WorkerId(g, i) && !launched[i].retiring
        && launched[i].Value() == Worker(1, false, 0)
    {
      launched := [];
      for i := 0 to count
        invariant |launched| == i && forall k :: 0 <= k < i ==>
          fresh(launched[k]) && launched[k].id == WorkerId(g, k) && !launched[k].retiring
          && launched[k].Value() == Worker(1, false, 0)
      {
        var worker := new WorkerState(WorkerId(g, i));
        worker.Launch();
        launched := launched + [worker];
      }
    }

    /** Waits for every worker's READY in order; only the first ready of them report it. */
    static method AwaitReady(launched: seq<WorkerState>, ready: nat) returns (ok: bool)
      requires forall i :: 0 <= i < |launched| ==>
        launched[i].id.index == i && launched[i].Value() == Worker(1, false, 0)
      modifies launched`alive
      ensures ok <==> |launched| <= ready
      ensures ok ==> forall i :: 0 <= i < |launched| ==> launched[i].Value() == Worker(1, true, 0)
    {
      for i := 0 to |launched|
        invariant forall k :: 0 <= k < |launched| ==> launched[k].Value() == Worker(1, k < i, 0)
        invariant i <= ready
      {
        if i >= ready { return false; }
        launched[i].alive := true;
      }
      ok := true;
    }

    /** _resolve_group_handlers, whose lookups raise for a handler that is not registered. */
    static method ResolveHandlers(registry: seq<HandlerName>, handlers: seq<HandlerName>)
      returns (names: Option<seq<HandlerName>>)
      ensures names == if Known(registry, handlers) then Some(Deployed(registry, handlers)) else None
    {
      var wanted := if handlers != [] then handlers else registry;
      for i := 0 to |wanted|
        invariant forall k :: 0 <= k < i ==> wanted[k] in registry
      {
        if wanted[i] !in registry { return None; }
      }
      names := Some(wanted);
    }

    /** register_worker_group: every handler must be known, every worker is launched and must
        report READY before the group is published; otherwise nothing is. Only the first ready of
        them report READY. */
    method RegisterWorkerGroup(registry: seq<HandlerName>, g: GroupName, handlers: seq<HandlerName>, count: nat,
                               ready: nat)
      returns (error: Option<ErrorCode>)
      requires Valid()
      modifies this`groups, this`processCount, this`groupHandlers, this`handlerGroups, this`workers
      ensures Valid()
      ensures error == if Known(registry, handlers) && old(Open(g)) && count <= ready then None else Some(InternalError)
      ensures View() == if error.Some? then old(View())
                        else Register(old(View()), g, Deployed(registry, handlers), count)
    {
      hide Register;
      var names := ResolveHandlers(registry, handlers);
      if names.None? || !Open(g) { return Some(InternalError); }
      var launched := LaunchAll(g, count);
      var ok := AwaitReady(launched, ready);
      assert Valid() && View() == old(View());
      if ok {
        ok := PublishGroup(g, names.value, launched);
      }
      error := if ok then None else Some(InternalError);
    }

    method DropRoutesOf(g: GroupName, handlers: seq<HandlerName>)
      modifies this`handlerGroups
      ensures handlerGroups == DropRoutes(old(handlerGroups), handlers, g)
    {
      for i := 0 to |handlers|
        invariant DropRoutes(handlerGroups, handlers[i..], g) == DropRoutes(old(handlerGroups), handlers, g)
      {
        var h := handlers[i];
        if h in handlerGroups {
          var rest := RemoveName(handlerGroups[h], g);
          handlerGroups := if rest == [] then handlerGroups - {h} else handlerGroups[h := rest];
        }
      }
    }

    /** The tasks assigned to the current incarnations of some workers. */
    static function TasksOf(p: Pool<TaskFuture>, ids: set<WorkerId>): set<TaskId> {
      set t | t in p.assignments && p.assignments[t].worker in ids && p.assignments[t].worker in p.workers
              && p.assignments[t].generation == p.workers[p.assignments[t].worker].generation
    }

    /** The pool without some workers and the tasks of their current incarnations. */
    static function Retired(p: Pool<TaskFuture>, ids: set<WorkerId>): Pool<TaskFuture> {
      p.(workers := p.workers - ids, assignments := p.assignments - TasksOf(p, ids),
         futures := p.futures - TasksOf(p, ids))
    }

    static lemma RetireNone(p: Pool<TaskFuture>)
      ensures TasksOf(p, {}) == {} && Retired(p, {}) == p
    {
      assert p.workers - {} == p.workers && p.assignments - {} == p.assignments && p.futures - {} == p.futures;
    }

    static lemma TasksNext(p: Pool<TaskFuture>, done: set<WorkerId>, w: WorkerId)
      requires w in p.workers && w !in done
      ensures var owned := Owned(p, Assignment(w, p.workers[w].generation));
        && Owned(Retired(p, done), Assignment(w, p.workers[w].generation)) == owned
        && TasksOf(p, done + {w}) == TasksOf(p, done) + owned && owned !! TasksOf(p, done)
    {
    }

    static lemma RetireNext(p: Pool<TaskFuture>, done: set<WorkerId>, w: WorkerId)
      requires w in p.workers && w !in done
      ensures w in Retired(p, done).workers
      ensures var (q, taken) := Take(Retired(p, done), w);
        && q.(workers := q.workers - {w}) == Retired(p, done + {w})
        && FuturesOf(p, TasksOf(p, done + {w})) == FuturesOf(p, TasksOf(p, done)) + taken
    {
      TasksNext(p, done, w);
      hide Owned, TasksOf;
    }

    /** Whether a worker is marked dead makes no difference to what is taken from it. */
    static lemma TakeFromDead(p: Pool<TaskFuture>, dead: Pool<TaskFuture>, w: WorkerId)
      requires w in p.workers && dead == p.(workers := p.workers[w := p.workers[w].(alive := false)])
      ensures var (q, taken) := Take(p, w);
              var (q', taken') := Take(dead, w);
        taken' == taken && q'.(workers := q'.workers - {w}) == q.(workers := q.workers - {w})
    {
      var a := Assignment(w, p.workers[w].generation);
      assert Owned(dead, a) == Owned(p, a);
      assert Take(dead, w).0.workers - {w} == Take(p, w).0.workers - {w};
    }

    method MarkRetired(worker: WorkerState)
      requires Keyed() && InTable(worker)
      modifies worker`retiring, worker`alive, worker`nextRestartAt
      ensures worker.retiring && !worker.alive && worker.nextRestartAt == None && worker.id in old(View()).workers
      ensures var p := old(View());
        View() == p.(workers := p.workers[worker.id := p.workers[worker.id].(alive := false)])
    {
      worker.retiring := true;
      worker.alive := false;
      worker.nextRestartAt := None;
      OneWorker(worker);
    }

    method RetireWorker(worker: WorkerState) returns (failed: seq<TaskFuture>)
      requires Valid() && InTable(worker)
      modifies this`assignments, this`futures, this`workers
      modifies worker`retiring, worker`alive, worker`nextRestartAt, worker`outstanding
      ensures Valid() && workers == old(workers) - {worker.id}
      ensures var (q, taken) := Take(old(View()), worker.id);
        View() == q.(workers := q.workers - {worker.id}) && Members(failed) == taken
      ensures worker.retiring && !worker.alive && worker.nextRestartAt == None
    {
      MarkRetired(worker);
      ghost var dead := View();
      failed := TakeWorkerFutures(worker);
      TakeFromDead(old(View()), dead, worker.id);
      hide Take, Members, View;
      PopWorker(worker.id);
    }

    method PopWorker(w: WorkerId)
      requires Keyed()
      modifies this`workers
      ensures Keyed() && workers == old(workers) - {w}
      ensures View() == old(View()).(workers := old(View()).workers - {w})
    {
      workers := workers - {w};
      assert WorkerValues() == old(WorkerValues()) - {w};
    }

    /** The loop of unregister_worker_group over the group's workers. */
    method RetireWorkers(retired: set<WorkerId>) returns (failed: seq<TaskFuture>)
      requires Valid() && retired <= workers.Keys
      modifies this`assignments, this`futures, this`workers
      modifies workers.Values`retiring, workers.Values`alive, workers.Values`nextRestartAt, workers.Values`outstanding
      ensures Valid() && workers == old(workers) - retired && View() == Retired(old(View()), retired)
      ensures Members(failed) == FuturesOf(old(View()), TasksOf(old(View()), retired))
      ensures forall w :: w in retired ==>
        var worker := old(workers)[w]; worker.retiring && !worker.alive && worker.nextRestartAt == None
    {
      hide Members, FuturesOf, TasksOf, Retired, Take;
      ghost var p := View();
      failed := [];
      var rest := retired;
      NothingTaken(p);
      RetireNone(p);
      assert retired - rest == {};
      while rest != {}
        invariant rest <= retired && workers == old(workers) - (retired - rest) && Valid()
        invariant View() == Retired(p, retired - rest)
        invariant Members(failed) == FuturesOf(p, TasksOf(p, retired - rest))
        invariant forall w :: w in retired - rest ==>
          var worker := old(workers)[w]; worker.retiring && !worker.alive && worker.nextRestartAt == None
        decreases rest
      {
        var w :| w in rest;
        assert retired - (rest - {w}) == retired - rest + {w};
        RetireNext(p, retired - rest, w);
        var more := RetireWorker(workers[w]);
        MembersJoin(failed, more);
        failed := failed + more;
        rest := rest - {w};
      }
      assert retired - rest == retired;
    }

    static lemma GroupRetired(p: Pool<TaskFuture>, g: GroupName)
      requires !p.closing && !p.closeComplete && g in p.groups && g in p.groupHandlers
      ensures var ids := set w | w in p.workers && w.group == g;
              var (q, taken) := Unregister(p, g);
        && q == Retired(p.(groups := q.groups, groupHandlers := q.groupHandlers, processCount := q.processCount,
                           handlerGroups := q.handlerGroups, cursors := q.cursors, smooth := q.smooth), ids)
        && taken == FuturesOf(p, TasksOf(p, ids))
    {
      var ids := set w | w in p.workers && w.group == g;
      assert TasksOf(p, ids) == GroupTasks(p, g);
      assert p.workers - ids == map w | w in p.workers && w.group != g :: p.workers[w];
    }

    /** The part of unregister_worker_group before the loop over the workers. */
    method DropGroup(g: GroupName)
      requires g in groups && g in groupHandlers && !closing && !closeComplete
      modifies this`groups, this`groupHandlers, this`processCount, this`handlerGroups, this`cursors, this`smooth
      ensures var p, q := old(View()), Unregister(old(View()), g).0;
        View() == p.(groups := q.groups, groupHandlers := q.groupHandlers, processCount := q.processCount,
                     handlerGroups := q.handlerGroups, cursors := q.cursors, smooth := q.smooth)
    {
      hide WorkerValues, DropRoutes, RemoveName;
      DropFields(View(), g);
      hide Unregister;
      groups := RemoveName(groups, g);
      var handlers := groupHandlers[g];
      groupHandlers := groupHandlers - {g};
      processCount := processCount - {g};
      DropRoutesOf(g, handlers);
      cursors := cursors - {g};
      smooth := smooth - {g};
    }

    static lemma DropFields(p: Pool<TaskFuture>, g: GroupName)
      requires g in p.groups && g in p.groupHandlers && !p.closing && !p.closeComplete
      ensures var q := Unregister(p, g).0;
        && q.groups == RemoveName(p.groups, g) && q.groupHandlers == p.groupHandlers - {g}
        && q.processCount == p.processCount - {g}
        && q.handlerGroups == DropRoutes(p.handlerGroups, p.groupHandlers[g], g)
        && q.cursors == p.cursors - {g} && q.smooth == p.smooth - {g}
    {
    }

    /** The locked part of unregister_worker_group. */
    method Unload(g: GroupName) returns (failed: seq<TaskFuture>)
      requires Valid() && g in groups && g in groupHandlers && !closing && !closeComplete
      modifies this`groups, this`groupHandlers, this`processCount, this`handlerGroups, this`cursors, this`smooth
      modifies this`assignments, this`futures, this`workers
      modifies workers.Values`retiring, workers.Values`alive, workers.Values`nextRestartAt, workers.Values`outstanding
      ensures Valid() && View() == Unregister(old(View()), g).0 && Members(failed) == Unregister(old(View()), g).1
      ensures forall w :: w in old(workers) && w.group == g ==> old(workers)[w].retiring && !old(workers)[w].alive
      ensures workers == old(workers) - OfGroup(old(workers), g).Keys
    {
      ghost var p := View();
      GroupRetired(p, g);
      DropGroup(g);
      ghost var q := View();
      var ids := set w | w in workers && w.group == g;
      SameTasks(p, q, ids);
      assert ids == set w | w in p.workers && w.group == g;
      hide Retired, Unregister, TasksOf, FuturesOf, Members, View, WorkerValues, Valid;
      failed := RetireWorkers(ids);
    }

    static lemma SameTasks(p: Pool<TaskFuture>, q: Pool<TaskFuture>, ids: set<WorkerId>)
      requires p.assignments == q.assignments && p.workers == q.workers && p.futures == q.futures
      ensures TasksOf(p, ids) == TasksOf(q, ids) && FuturesOf(p, TasksOf(p, ids)) == FuturesOf(q, TasksOf(q, ids))
    {
      assert FuturesOf(p, TasksOf(p, ids)) == FuturesOf(q, TasksOf(p, ids));
    }

    /** unregister_worker_group. The disposal of the workers raises when a process object is closed
        already, and then what was taken is never failed. */
    method UnregisterWorkerGroup(g: GroupName, ends: set<WorkerId>) returns (error: Option<ErrorCode>, raised: bool)
      requires Valid() && (g in groups ==> g in groupHandlers)
      modifies this`groups, this`groupHandlers, this`processCount, this`handlerGroups, this`cursors, this`smooth
      modifies this`assignments, this`futures, this`workers, workers.Values, futures.Values
      ensures Valid() && View() == Unregister(old(View()), g).0
      ensures error == if old(closing || closeComplete) then Some(InternalError)
                       else if g !in old(groups) then Some(NotFound) else None
      ensures raised == (error.None? && old(SomeClosed(set w | w in workers && w.group == g)))
      ensures FailedWith(old(futures.Values), if raised then {} else Unregister(old(View()), g).1, WorkerUnavailable)
    {
      FailingNone(Outcomes(futures.Values), WorkerUnavailable);
      UnloadRefused(g);
      hide Unregister, Valid, View, Outcomes, Failing;
      raised := false;
      if closing || closeComplete { return Some(InternalError), raised; }
      if g !in groups { return Some(NotFound), raised; }
      raised := UnloadAndFail(g, ends);
      error := None;
    }

    /** Past the guards: the group goes, its workers are disposed of, then its futures fail. */
    method UnloadAndFail(g: GroupName, ends: set<WorkerId>) returns (raised: bool)
      requires Valid() && g in groups && g in groupHandlers && !closing && !closeComplete
      modifies this`groups, this`groupHandlers, this`processCount, this`handlerGroups, this`cursors, this`smooth
      modifies this`assignments, this`futures, this`workers, workers.Values, futures.Values
      ensures Valid() && View() == Unregister(old(View()), g).0
      ensures raised == old(SomeClosed(set w | w in workers && w.group == g))
      ensures FailedWith(old(futures.Values), if raised then {} else Unregister(old(View()), g).1, WorkerUnavailable)
    {
      hide Unregister, Valid, View, Members, Outcomes, Failing;
      ghost var all := futures.Values;
      FailingNone(Outcomes(all), WorkerUnavailable);
      UnloadPending(View(), g);
      ViewFutures();
      var retired := OfGroup(workers, g);
      ClosedOfGroup(g);
      hide OfGroup, SomeClosed;
      var failed := Unload(g);
      raised := Dispose(retired, ends);
      if raised { return; }
      InMembers(failed);
      FailFutures(failed, WorkerUnavailable, all);
    }

    static function OfGroup(table: map<WorkerId, WorkerState>, g: GroupName): map<WorkerId, WorkerState> {
      map w | w in table && w.group == g :: table[w]
    }

    lemma ClosedOfGroup(g: GroupName)
      requires Valid()
      ensures var retired := OfGroup(workers, g);
        && retired.Values !! (workers - retired.Keys).Values
        && (forall w :: w in retired ==> w in workers && retired[w] == workers[w] && retired[w].id == w)
        && (SomeClosed(set w | w in workers && w.group == g) <==> exists w :: w in retired && retired[w].closed)
    {
      assert forall w :: w in workers && w.group == g <==> w in OfGroup(workers, g);
    }

    /** _dispose_workers, of workers that are out of the table. */
    method Dispose(retired: map<WorkerId, WorkerState>, ends: set<WorkerId>) returns (raised: bool)
      requires Valid() && retired.Values !! workers.Values && forall w :: w in retired ==> retired[w].id == w
      modifies retired.Values
      ensures Valid() && View() == old(View())
      ensures raised <==> exists w :: w in retired && old(retired[w].closed)
    {
      var rest := retired.Keys;
      while rest != {}
        invariant rest <= retired.Keys && Valid() && View() == old(View())
        invariant forall w :: w in retired && w !in rest ==> !old(retired[w].closed)
        invariant forall w :: w in rest ==> retired[w].closed == old(retired[w].closed)
        decreases rest
      {
        var w :| w in rest;
        if retired[w].closed { return true; }
        raised := retired[w].StopProcess(w in ends);
        rest := rest - {w};
      }
      raised := false;
    }

    lemma UnloadRefused(g: GroupName)
      ensures closing || closeComplete || g !in groups ==> Unregister(View(), g) == (View(), {})
    {
    }

    static lemma UnloadPending(p: Pool<TaskFuture>, g: GroupName)
      ensures forall f :: f in Unregister(p, g).1 ==> f in p.futures.Values
    {
    }

    // ---------- closing ----------

    /** close: no new requests; then every process is asked whether it is alive and stopped, which
        raises when an object is closed already; then everything pending fails; then the logs are
        stopped, which may raise as well. */
    method Close(ends: set<WorkerId>, logsRaise: bool) returns (raised: bool)
      requires Valid()
      modifies this`accepting, this`closing, this`closeComplete, this`assignments, this`futures
      modifies workers.Values`alive, workers.Values`closed, workers.Values`outstanding, futures.Values
      ensures Valid() && raised == (!old(closeComplete) && (old(SomeClosed(workers.Keys)) || logsRaise))
      ensures closeComplete == !raised
      ensures View() == AfterClose(old(View()), old(SomeClosed(workers.Keys)), logsRaise)
      ensures FailedWith(old(futures.Values),
                         if old(closeComplete) || old(SomeClosed(workers.Keys)) then {} else old(futures.Values),
                         InternalError)
      ensures !old(closeComplete) && !old(SomeClosed(workers.Keys)) ==>
                forall w :: w in workers ==> workers[w].closed == (w in ends)
    {
      hide FailAll, StoppedIn, Valid, View, Outcomes, Failing;
      FailingNone(Outcomes(futures.Values), InternalError);
      ViewIds();
      ViewFlags();
      NoneClosed();
      hide SomeClosed;
      if closeComplete { return false; }
      StopAccepting();
      raised := AnyClosed();
      if raised { return; }
      ghost var halt;
      raised, halt := StopThenFail(workers.Keys, ends, InternalError, futures.Values);
      if logsRaise { return true; }
      SetComplete();
    }

    static function AfterClose(p: Pool<TaskFuture>, gone: bool, logsRaise: bool): Pool<TaskFuture> {
      if p.closeComplete then p
      else if gone then BeginClose(p)
      else
        var q := FailAll(StoppedIn(BeginClose(p), p.workers.Keys)).0;
        if logsRaise then q else q.(closeComplete := true)
    }

    lemma NoneClosed()
      ensures !SomeClosed(workers.Keys) ==> forall w :: w in workers ==> !workers[w].closed
    {
    }

    lemma ViewFlags()
      ensures View().closeComplete == closeComplete
    {
    }

    /** The loop that asks every process. */
    method AnyClosed() returns (found: bool)
      ensures found == SomeClosed(workers.Keys)
    {
      var rest := workers.Keys;
      while rest != {}
        invariant rest <= workers.Keys
        invariant forall w :: w in workers && w !in rest ==> !workers[w].closed
        decreases rest
      {
        var w :| w in rest;
        if workers[w].closed { return true; }
        rest := rest - {w};
      }
      found := false;
    }

    method SetComplete()
      modifies this`closeComplete
      ensures closeComplete && View() == old(View()).(closeComplete := true)
    {
      closeComplete := true;
    }

    // ---------- construction ----------

    /** The constructor, when every worker reports READY. */
    constructor (specs: seq<GroupSpec>)
      ensures Valid() && View() == Constructed(specs)
    {
      accepting, closing, closeComplete := true, false, false;
      groups, processCount, groupHandlers, handlerGroups := [], map[], map[], map[];
      workers, cursors, smooth, futures, assignments := map[], map[], map[], map[], map[];
      new;
      for i := 0 to |specs|
        invariant Valid() && fresh(workers.Values) && View() == Constructed(specs[..i])
      {
        AddSpec(specs[i]);
        assert specs[..i + 1][..i] == specs[..i];
      }
      assert specs[..|specs|] == specs;
    }

    method AddSpec(spec: GroupSpec)
      requires Valid()
      modifies this`groups, this`processCount, this`groupHandlers, this`handlerGroups, this`workers
      ensures Valid() && View() == AddGroup(old(View()), spec.name, spec.handlers, spec.count)
      ensures fresh(workers.Values - old(workers.Values))
    {
      var launched := LaunchAll(spec.name, spec.count);
      var ok := AwaitReady(launched, spec.count);
      assert Valid() && View() == old(View());
      AddPublished(spec.name, spec.handlers, launched);
    }

    /** The constructor's checks, its construction, and its wait for the first ready workers that
        report READY; if anything fails no pool is returned. */
    static method Create(registry: seq<HandlerName>, specs: seq<GroupSpec>, timeout: int, ready: nat)
      returns (r: Result<ProcessPoolStrategy, ErrorCode>)
      ensures r.Ok? <==> Startable(registry, specs, timeout, ready)
      ensures r.Ok? ==> fresh(r.value) && r.value.Valid() && r.value.View() == Constructed(Resolved(registry, specs))
      ensures r.Err? ==> r.error == InternalError
    {
      if specs == [] || timeout <= 0 { return Err(InternalError); }
      var distinct := DistinctNames(specs);
      if !distinct { return Err(InternalError); }
      var resolved := [];
      var total := 0;
      for i := 0 to |specs|
        invariant |resolved| == i && total == Workers(specs[..i])
        invariant forall k :: 0 <= k < i ==>
          Known(registry, specs[k].handlers)
          && resolved[k] == specs[k].(handlers := Deployed(registry, specs[k].handlers))
      {
        var names := ResolveHandlers(registry, specs[i].handlers);
        if names.None? { return Err(InternalError); }
        resolved := resolved + [specs[i].(handlers := names.value)];
        assert specs[..i + 1][..i] == specs[..i];
        total := total + specs[i].count;
      }
      assert specs[..|specs|] == specs;
      if total > ready { return Err(InternalError); }
      var pool := new ProcessPoolStrategy(resolved);
      assert resolved == Resolved(registry, specs);
      r := Ok(pool);
    }

    /** Whether len(names) == len(set(names)). */
    static method DistinctNames(specs: seq<GroupSpec>) returns (distinct: bool)
      ensures distinct <==> forall i, j :: 0 <= i < j < |specs| ==> specs[i].name != specs[j].name
    {
      var names := {};
      for i := 0 to |specs|
        invariant forall g :: g in names <==> exists k :: 0 <= k < i && specs[k].name == g
        invariant forall j, k :: 0 <= j < k < i ==> specs[j].name != specs[k].name
      {
        if specs[i].name in names { return false; }
        names := names + {specs[i].name};
      }
      distinct := true;
    }
  }
}
