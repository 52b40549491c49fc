/**
 The pool under its supervisor: the supervisor's passes over the workers, their restart limiters
 and process objects, and the calls of close, interleaved with the locked regions of the other
 threads. The supervisor reads the clock once a pass and again at each restart.
 */
module SupervisedPool {
  import opened Core
  import opened SmoothRoundRobin
  import opened PoolModel
  import opened PoolInvariant
  import P = PoolRuns
  import R = RestartLimiter
  import opened StaleResults

  datatype Mode = Shutdown | Degrade | Restart(policy: R.Policy)

  /** A worker's limiter, every restart attempt, which the program does not keep, and the clock
      reading of the supervisor's last action on it. */
  datatype Watch = Watch(limiter: R.Limiter, attempts: seq<int>, last: int)

  /** Where the supervisor thread is. */
  datatype Doing =
    | Looking                                              // between two workers of a pass, or between passes
    | Waiting(worker: WorkerId, here: bool, anew: bool)   // for READY; still in the table; has a new process
    | Clearing(group: GroupName)                           // READY came, about to clear the smooth weight
    | Failing(worker: WorkerId)                            // exited in shutdown mode, the pool not closing yet
    | ShuttingDown(worker: WorkerId, stopped: set<WorkerId>)
    | Over                                                 // an exception ended the thread, or the pool is shut down

  /** How far a call of close has got. */
  datatype Call =
    | Asking(asked: set<WorkerId>)       // is_alive of every process
    | Stopping(stopped: set<WorkerId>)   // _stop_process of every worker
    | Emptied                            // past _fail_all_pending
    | Ended
    | Raised

  datatype World = World(
    sys: P.Sys, modes: map<GroupName, Mode>,
    clock: int,                          // the last reading of any thread
    now: int, todo: set<WorkerId>,       // the reading of the current pass, and whom it has not visited yet
    doing: Doing,
    watches: map<WorkerId, Watch>,
    gone: set<WorkerId>,                 // workers whose process object _stop_process has closed
    calls: map<nat, Call>)

  datatype Event =
    | Tick(time: int)
    | Other(step: P.Event)                              // dispatchers, the result thread, unloads, resolutions
    | Load(group: GroupName, handlers: seq<HandlerName>, count: nat, mode: Mode)
    // the supervisor
    | BeginPass(time: int)
    | SeeExit(worker: WorkerId)
    | BeginRestart(worker: WorkerId, at: int, launched: bool, anew: bool)
    | BecomeReady
    | ClearWeight
    | LaunchFails(time: int, closes: bool)
    | BeginShutdown
    | ShutdownStops(worker: WorkerId, closes: bool)
    | ShutdownFails
    | SupervisorRaises
    // calls of close
    | CallClose(call: nat)
    | CallAsks(call: nat, worker: WorkerId)
    | CallAsked(call: nat)
    | CallStops(call: nat, worker: WorkerId, closes: bool)
    | CallRaises(call: nat, worker: WorkerId)
    | CallFails(call: nat)
    | CallEnds(call: nat)

  predicate ValidMode(m: Mode) {
    m.Restart? ==> m.policy.Valid()
  }

  /** A worker of a group that is not in restart mode is never restarted, as under a limit of
      zero. */
  function PolicyOf(s: World, w: WorkerId): R.Policy {
    if w.group in s.modes && s.modes[w.group].Restart? then s.modes[w.group].policy else R.Policy(0, 1, 0)
  }

  // ---------- the step of the bare pool an event contains ----------

  function PoolStep(s: World, e: Event): Option<P.Event> {
    match e
    case Other(step) => Some(step)
    case Load(g, hs, n, _) => Some(P.Load(g, hs, n))
    case SeeExit(w) => Some(P.Exit(w))
    case BeginRestart(w, _, launched, _) => if launched then Some(P.Restart(w)) else None
    case BecomeReady => if s.doing.Waiting? && s.doing.here then Some(P.Ready(s.doing.worker)) else None
    case ClearWeight => if s.doing.Clearing? then Some(P.ClearWeight(s.doing.group)) else None
    case BeginShutdown => Some(P.Closing)
    case ShutdownStops(v, _) => Some(P.Stopped(v))
    case ShutdownFails => Some(P.FailPending(None))
    case CallClose(_) => Some(P.Closing)
    case CallStops(_, v, _) => Some(P.Stopped(v))
    case CallFails(c) => Some(P.FailPending(Some(c)))
    case CallEnds(c) => Some(P.Closed(c))
    case _ => None
  }

  function NextSys(s: World, e: Event): P.Sys {
    if PoolStep(s, e).Some? then P.Apply(s.sys, PoolStep(s, e).value) else s.sys
  }

  // ---------- guards ----------

  predicate InTable(s: World, w: WorkerId) {
    w in s.sys.pool.workers
  }

  /** A process object in the table that is closed: asking or stopping it raises. */
  predicate GoneAt(s: World, w: WorkerId) {
    w in s.sys.pool.workers && w in s.gone
  }

  predicate DueAt(s: World, w: WorkerId) {
    && w in s.sys.pool.workers && !s.sys.pool.workers[w].alive
    && w in s.watches && s.watches[w].limiter.next.Some? && s.watches[w].limiter.next.value <= s.now
  }

  predicate SupervisorCan(s: World, e: Event) {
    match e
    case BeginPass(t) => s.doing.Looking? && !s.sys.pool.closing && s.clock <= t
    case SeeExit(w) => s.doing.Looking? && w in s.todo && InTable(s, w) && s.sys.pool.workers[w].alive
    case BeginRestart(w, at, launched, anew) =>
      && s.doing.Looking? && w in s.todo && DueAt(s, w) && s.clock <= at
      && launched == !s.sys.pool.closing && (anew ==> launched)
    case BecomeReady => s.doing.Waiting? && s.doing.anew
    case ClearWeight => s.doing.Clearing?
    case LaunchFails(t, _) =>
      s.doing.Waiting? && s.clock <= t && (s.doing.here ==> !GoneAt(s, s.doing.worker))
    case BeginShutdown => s.doing.Failing?
    case ShutdownStops(v, _) =>
      s.doing.ShuttingDown? && InTable(s, v) && v != s.doing.worker && v !in s.doing.stopped && !GoneAt(s, v)
    case ShutdownFails =>
      s.doing.ShuttingDown? && s.sys.pool.workers.Keys <= s.doing.stopped + {s.doing.worker}
    case SupervisorRaises =>
      || (s.doing.Waiting? && (s.doing.here ==> GoneAt(s, s.doing.worker)))
      || (s.doing.ShuttingDown? && exists v | v in s.sys.pool.workers ::
            GoneAt(s, v) && v != s.doing.worker && v !in s.doing.stopped)
    case _ => false
  }

  predicate AskingAt(s: World, c: nat) {
    c in s.calls && s.calls[c].Asking?
  }

  predicate StoppingAt(s: World, c: nat) {
    c in s.calls && s.calls[c].Stopping?
  }

  predicate EmptiedAt(s: World, c: nat) {
    c in s.calls && s.calls[c].Emptied?
  }

  predicate CallCan(s: World, e: Event) {
    match e
    case CallClose(c) => c !in s.calls && !s.sys.pool.closeComplete
    case CallAsks(c, v) => AskingAt(s, c) && InTable(s, v) && v !in s.calls[c].asked && !GoneAt(s, v)
    case CallAsked(c) => AskingAt(s, c) && s.sys.pool.workers.Keys <= s.calls[c].asked
    case CallStops(c, v, _) => StoppingAt(s, c) && InTable(s, v) && v !in s.calls[c].stopped && !GoneAt(s, v)
    case CallRaises(c, v) =>
      || (AskingAt(s, c) && GoneAt(s, v) && v !in s.calls[c].asked)
      || (StoppingAt(s, c) && GoneAt(s, v) && v !in s.calls[c].stopped)
    case CallFails(c) => StoppingAt(s, c) && s.sys.pool.workers.Keys <= s.calls[c].stopped
    case CallEnds(c) => EmptiedAt(s, c)
    case _ => false
  }

  predicate Enabled(s: World, e: Event) {
    && (PoolStep(s, e).Some? ==> P.Enabled(s.sys, PoolStep(s, e).value))
    && match e
       case Tick(t) => s.clock <= t
       case Other(step) => step.Exec? || step.Result? || step.Resolve? || step.Unload?
       case Load(_, _, _, mode) => ValidMode(mode)
       case _ => SupervisorCan(s, e) || CallCan(s, e)
  }

  // ---------- effects ----------

  function NextClock(s: World, e: Event): int {
    match e
    case Tick(t) => t
    case BeginPass(t) => t
    case BeginRestart(_, at, _, _) => at
    case LaunchFails(t, _) => t
    case _ => s.clock
  }

  /** The call an event belongs to. */
  function CallOf(e: Event): Option<nat> {
    match e
    case CallClose(c) => Some(c)
    case CallAsks(c, _) => Some(c)
    case CallAsked(c) => Some(c)
    case CallStops(c, _, _) => Some(c)
    case CallRaises(c, _) => Some(c)
    case CallFails(c) => Some(c)
    case CallEnds(c) => Some(c)
    case _ => None
  }

  lemma PoolGuard(s: World, e: Event)
    requires Enabled(s, e) && PoolStep(s, e).Some?
    ensures P.Enabled(s.sys, PoolStep(s, e).value)
  {
    hide P.Enabled, PoolStep, SupervisorCan, CallCan;
  }

  lemma CallGuard(s: World, e: Event)
    requires Enabled(s, e) && CallOf(e).Some?
    ensures CallCan(s, e)
  {
    hide P.Enabled, CallCan;
  }

  lemma OtherCalls(s: World, e: Event, c: nat)
    requires CallOf(e) != Some(c)
    ensures c in NextCalls(s, e) <==> c in s.calls
    ensures c in s.calls ==> NextCalls(s, e)[c] == s.calls[c]
  {
  }

  /** A pass visits each worker that was in the table when it began at most once. */
  function NextTodo(s: World, e: Event): set<WorkerId> {
    match e
    case BeginPass(_) => s.sys.pool.workers.Keys
    case SeeExit(w) => s.todo - {w}
    case BeginRestart(w, _, _, _) => s.todo - {w}
    case Other(_) => set w | w in s.todo && w in NextSys(s, e).pool.workers
    case _ => s.todo
  }

  function NextDoing(s: World, e: Event): Doing {
    match e
    case SeeExit(w) =>
      if w.group in s.modes && s.modes[w.group].Shutdown? then Failing(w) else Looking
    case BeginRestart(w, _, launched, anew) => if launched then Waiting(w, true, anew) else Looking
    case BecomeReady => if s.doing.Waiting? then Clearing(s.doing.worker.group) else s.doing
    case ClearWeight => Looking
    case LaunchFails(_, _) => Looking
    case BeginShutdown => if s.doing.Failing? then ShuttingDown(s.doing.worker, {}) else s.doing
    case ShutdownStops(v, _) => if s.doing.ShuttingDown? then s.doing.(stopped := s.doing.stopped + {v}) else s.doing
    case ShutdownFails => Over
    case SupervisorRaises => Over
    case Other(_) =>
      if s.doing.Waiting? then
        s.doing.(here := s.doing.here && s.doing.worker in NextSys(s, e).pool.workers)
      else s.doing
    case _ => s.doing
  }

  /** A worker that was not in the table before has a new limiter. */
  function WatchOf(s: World, w: WorkerId): Watch {
    if w in s.watches then s.watches[w] else Watch(R.Limiter([], None), [], s.clock)
  }

  /** Scheduling the next restart of a worker, which a group in another mode does not do. */
  function Scheduled(s: World, w: WorkerId, now: int): Watch {
    var x := WatchOf(s, w);
    if w.group in s.modes && s.modes[w.group].Restart? then
      x.(limiter := R.Schedule(x.limiter, now, PolicyOf(s, w)), last := now)
    else x
  }

  function NextWatch(s: World, e: Event, w: WorkerId): Watch {
    var x := WatchOf(s, w);
    match e
    case SeeExit(v) => if v == w then Scheduled(s, w, s.now) else x
    case BeginRestart(v, at, _, _) =>
      if v == w then Watch(R.Attempt(x.limiter, at), x.attempts + [at], at) else x
    case LaunchFails(t, _) =>
      if s.doing.Waiting? && s.doing.here && s.doing.worker == w && !s.sys.pool.closing then Scheduled(s, w, t) else x
    case _ => x
  }

  /** A launch puts a new process object in place of a closed one. */
  function NextGone(s: World, e: Event): set<WorkerId> {
    match e
    case BeginRestart(w, _, _, anew) => if anew then s.gone - {w} else s.gone
    case LaunchFails(_, closes) =>
      if closes && s.doing.Waiting? && s.doing.here then s.gone + {s.doing.worker} else s.gone
    case ShutdownStops(w, closes) => if closes then s.gone + {w} else s.gone
    case CallStops(_, w, closes) => if closes then s.gone + {w} else s.gone
    case Other(_) => set w | w in s.gone && w in NextSys(s, e).pool.workers
    case _ => s.gone
  }

  function NextCalls(s: World, e: Event): map<nat, Call> {
    match e
    case CallClose(c) => s.calls[c := Asking({})]
    case CallAsks(c, v) => if AskingAt(s, c) then s.calls[c := Asking(s.calls[c].asked + {v})] else s.calls
    case CallAsked(c) => s.calls[c := Stopping({})]
    case CallStops(c, v, _) => if StoppingAt(s, c) then s.calls[c := Stopping(s.calls[c].stopped + {v})] else s.calls
    case CallRaises(c, _) => s.calls[c := Raised]
    case CallFails(c) => s.calls[c := Emptied]
    case CallEnds(c) => s.calls[c := Ended]
    case _ => s.calls
  }

  function NextModes(s: World, e: Event): map<GroupName, Mode> {
    if e.Load? && CanRegister(s.sys.pool, e.group) then s.modes[e.group := e.mode] else s.modes
  }

  function Apply(s: World, e: Event): World {
    World(NextSys(s, e), NextModes(s, e), NextClock(s, e),
          if e.BeginPass? then e.time else s.now, NextTodo(s, e), NextDoing(s, e),
          map w | w in NextSys(s, e).pool.workers :: NextWatch(s, e, w),
          NextGone(s, e), NextCalls(s, e))
  }

  ghost predicate Start(s: World) {
    && (exists specs :: P.Start(s.sys, specs))
    && s.modes.Keys == (set g | g in s.sys.pool.groups) && (forall g :: g in s.modes ==> ValidMode(s.modes[g]))
    && s.now == s.clock && s.todo == {} && s.doing == Looking && s.gone == {} && s.calls == map[]
    && s.watches == (map w | w in s.sys.pool.workers :: Watch(R.Limiter([], None), [], s.clock))
  }

  ghost predicate Step(s: World, e: Event, s': World) {
    Enabled(s, e) && s' == Apply(s, e)
  }

  ghost predicate Run(states: seq<World>, events: seq<Event>) {
    && |states| == |events| + 1 && Start(states[0])
    && forall i :: 0 <= i < |events| ==> Step(states[i], events[i], states[i + 1])
  }

  /** What the next state is made of. */
  lemma NextState(s: World, e: Event)
    ensures var s' := Apply(s, e);
      && s'.sys == NextSys(s, e) && s'.clock == NextClock(s, e) && s'.doing == NextDoing(s, e)
      && s'.calls == NextCalls(s, e) && s'.gone == NextGone(s, e) && s'.todo == NextTodo(s, e)
      && s'.modes == NextModes(s, e) && s'.watches.Keys == s'.sys.pool.workers.Keys
      && s'.now == (if e.BeginPass? then e.time else s.now)
      && forall w :: w in s'.watches ==> s'.watches[w] == NextWatch(s, e, w)
  {
    hide NextSys, NextClock, NextDoing, NextCalls, NextGone, NextTodo, NextModes, NextWatch;
  }

  // ---------- the bare pool underneath ----------

  /** Forgetting the supervisor leaves a run of the pool, so that whatever holds over every run of
      the pool holds here. */
  lemma {:induction false} Projected(states: seq<World>, events: seq<Event>, i: nat)
    returns (inner: seq<P.Sys>, steps: seq<P.Event>)
    requires Run(states, events) && i < |states|
    ensures P.Run(inner, steps) && inner[|inner| - 1] == states[i].sys
  {
    hide P.Run, Start, Enabled, Apply;
    if i == 0 {
      inner, steps := [states[0].sys], [];
      StartsRun(states[0], inner);
    } else {
      inner, steps := Projected(states, events, i - 1);
      assert Step(states[i - 1], events[i - 1], states[i - 1 + 1]);
      NextState(states[i - 1], events[i - 1]);
      inner, steps := ProjectStep(states[i - 1], events[i - 1], inner, steps);
    }
  }

  lemma StartsRun(s: World, inner: seq<P.Sys>)
    requires Start(s) && inner == [s.sys]
    ensures P.Run(inner, [])
  {
    assert inner[0] == s.sys;
  }

  lemma ProjectStep(s: World, e: Event, inner0: seq<P.Sys>, steps0: seq<P.Event>)
    returns (inner: seq<P.Sys>, steps: seq<P.Event>)
    requires P.Run(inner0, steps0) && inner0[|inner0| - 1] == s.sys && Enabled(s, e)
    ensures P.Run(inner, steps) && inner[|inner| - 1] == NextSys(s, e)
  {
    inner, steps := inner0, steps0;
    if PoolStep(s, e).Some? {
      Longer(inner0, steps0, PoolStep(s, e).value);
      inner, steps := inner0 + [NextSys(s, e)], steps0 + [PoolStep(s, e).value];
    }
    hide P.Enabled, P.Apply, P.Start, SupervisorCan, CallCan;
  }

  lemma Longer(inner: seq<P.Sys>, steps: seq<P.Event>, e: P.Event)
    requires P.Run(inner, steps) && P.Enabled(inner[|inner| - 1], e)
    ensures P.Run(inner + [P.Apply(inner[|inner| - 1], e)], steps + [e])
  {
    hide P.Enabled, P.Apply, P.Start;
    var inner', steps' := inner + [P.Apply(inner[|inner| - 1], e)], steps + [e];
    assert inner'[0] == inner[0];
    forall k | 0 <= k < |steps'|
      ensures P.Enabled(inner'[k], steps'[k]) && inner'[k + 1] == P.Apply(inner'[k], steps'[k])
    {
      if k < |steps| { assert steps'[k] == steps[k]; }
    }
  }
}
