/**
 The bookkeeping of the process pool as a value, with one function per locked region.
 F is the identity of a future object.
 */
module PoolModel {
  import opened Core
  import opened SmoothRoundRobin

  datatype HandlerName = HandlerName(text: string)

  /** "<group>_R<index>": the id determines the group and the index. */
  datatype WorkerId = WorkerId(group: GroupName, index: nat)

  datatype Worker = Worker(generation: nat, alive: bool, outstanding: nat)

  datatype Assignment = Assignment(worker: WorkerId, generation: nat)

  datatype Pool<F(==)> = Pool(
    accepting: bool, closing: bool, closeComplete: bool,
    groups: seq<GroupName>,                               // _groups, in insertion order
    processCount: map<GroupName, nat>,
    groupHandlers: map<GroupName, seq<HandlerName>>,
    handlerGroups: map<HandlerName, seq<GroupName>>,
    workers: map<WorkerId, Worker>,
    cursors: map<GroupName, nat>,
    smooth: Weights,
    futures: map<TaskId, F>,
    assignments: map<TaskId, Assignment>)

  /** What execute does with a request: an already failed future, or an assignment. */
  datatype Outcome = Rejected(code: ErrorCode) | Assigned(worker: WorkerId)

  /** The processes that are alive and the queues that accept a put, fixed during one step. */
  datatype Oracle = Oracle(live: set<WorkerId>, accepts: set<WorkerId>)

  // ---------- reading the bookkeeping ----------

  predicate Usable<F>(p: Pool<F>, w: WorkerId, live: set<WorkerId>) {
    w in p.workers && p.workers[w].alive && w in live
  }

  function Count<F>(p: Pool<F>, g: GroupName): nat {
    if g in p.processCount then p.processCount[g] else 0
  }

  /** _alive_workers_locked: the indices below n of the usable workers of a group. */
  function AliveBelow<F>(p: Pool<F>, g: GroupName, live: set<WorkerId>, n: nat): (r: seq<nat>)
    ensures forall i: nat :: i in r <==> i < n && Usable(p, WorkerId(g, i), live)
    ensures forall j, k :: 0 <= j < k < |r| ==> r[j] < r[k]
  {
    if n == 0 then []
    else
      var below := AliveBelow(p, g, live, n - 1);
      assert forall j :: 0 <= j < |below| ==> below[j] in below;
      if Usable(p, WorkerId(g, n - 1), live) then below + [n - 1] else below
  }

  function Alive<F>(p: Pool<F>, g: GroupName, live: set<WorkerId>): seq<nat> {
    AliveBelow(p, g, live, Count(p, g))
  }

  function Routed<F>(p: Pool<F>, h: HandlerName): seq<GroupName> {
    if h in p.handlerGroups then p.handlerGroups[h] else []
  }

  /** The routed groups that have a usable worker. */
  function Candidates<F>(p: Pool<F>, names: seq<GroupName>, live: set<WorkerId>): (r: seq<GroupName>)
    ensures forall g :: g in r ==> g in names && Alive(p, g, live) != []
    ensures Distinct(names) ==> Distinct(r)
  {
    if names == [] then []
    else if Alive(p, names[0], live) != [] then [names[0]] + Candidates(p, names[1..], live)
    else Candidates(p, names[1..], live)
  }

  function LiveWeights<F>(p: Pool<F>, names: seq<GroupName>, live: set<WorkerId>): Weights {
    map g | g in names :: |Alive(p, g, live)|
  }

  /** _select_group_locked. */
  function SelectGroup<F>(p: Pool<F>, names: seq<GroupName>, live: set<WorkerId>): (GroupName, Pool<F>)
    requires names != []
  {
    var weights := LiveWeights(p, names, live);
    (Selected(p.smooth, weights, p.groups, names),
     p.(smooth := Charged(p.smooth, weights, p.groups, names)))
  }

  function Cursor<F>(p: Pool<F>, g: GroupName): nat {
    if g in p.cursors then p.cursors[g] else 0
  }

  /** Python's %, for a positive divisor. */
  function Mod(a: int, n: nat): nat {
    if n == 0 then 0 else a % n
  }

  function Load<F>(p: Pool<F>, g: GroupName, i: nat): nat {
    if WorkerId(g, i) in p.workers then p.workers[WorkerId(g, i)].outstanding else 0
  }

  /** The sort key of _ordered_workers_locked: fewest outstanding tasks, then nearest to the
      cursor. */
  predicate Sooner<F>(p: Pool<F>, g: GroupName, i: nat, j: nat) {
    var ki := Mod(i - Cursor(p, g), Count(p, g));
    var kj := Mod(j - Cursor(p, g), Count(p, g));
    Load(p, g, i) < Load(p, g, j) || (Load(p, g, i) == Load(p, g, j) && ki < kj)
  }

  function InsertWorker<F>(p: Pool<F>, g: GroupName, i: nat, sorted: seq<nat>): (r: seq<nat>)
    ensures forall k :: k in r <==> k == i || k in sorted
  {
    if sorted == [] then [i]
    else if Sooner(p, g, i, sorted[0]) then [i] + sorted
    else [sorted[0]] + InsertWorker(p, g, i, sorted[1..])
  }

  function SortWorkers<F>(p: Pool<F>, g: GroupName, xs: seq<nat>): (r: seq<nat>)
    ensures forall k :: k in r <==> k in xs
  {
    if xs == [] then []
    else
      var last := |xs| - 1;
      assert xs == xs[..last] + [xs[last]];
      InsertWorker(p, g, xs[last], SortWorkers(p, g, xs[..last]))
  }

  function Ordered<F>(p: Pool<F>, g: GroupName, live: set<WorkerId>): seq<nat> {
    SortWorkers(p, g, Alive(p, g, live))
  }

  // ---------- execute ----------

  function FirstAccepting(g: GroupName, order: seq<nat>, accepts: set<WorkerId>): (r: Option<nat>)
    ensures r.Some? ==> r.value in order && WorkerId(g, r.value) in accepts
    ensures r.None? ==> forall i :: i in order ==> WorkerId(g, i) !in accepts
  {
    if order == [] then None
    else if WorkerId(g, order[0]) in accepts then Some(order[0])
    else FirstAccepting(g, order[1..], accepts)
  }

  function Assign<F>(p: Pool<F>, t: TaskId, w: WorkerId): Pool<F>
    requires w in p.workers
  {
    var worker := p.workers[w];
    p.(assignments := p.assignments[t := Assignment(w, worker.generation)],
       workers := p.workers[w := worker.(outstanding := worker.outstanding + 1)],
       cursors := p.cursors[w.group := Mod(w.index + 1, Count(p, w.group))])
  }

  function RemoveName(names: seq<GroupName>, g: GroupName): (r: seq<GroupName>)
    ensures g in names ==> |r| == |names| - 1
    ensures forall h :: h in r ==> h in names
    ensures g !in names ==> r == names
    ensures forall h :: h in names && h != g ==> h in r
  {
    if names == [] then []
    else
      assert names == [names[0]] + names[1..];
      if names[0] == g then names[1..] else [names[0]] + RemoveName(names[1..], g)
  }

  /** The while loop of execute over the groups that are left. */
  function Dispatch<F>(p: Pool<F>, t: TaskId, names: seq<GroupName>, o: Oracle): (Pool<F>, Outcome)
    decreases |names|
  {
    if names == [] then (p.(futures := p.futures - {t}), Rejected(WorkerUnavailable))
    else
      var (g, q) := SelectGroup(p, names, o.live);
      match FirstAccepting(g, Ordered(q, g, o.live), o.accepts)
      case Some(i) => (Assign(q, t, WorkerId(g, i)), Assigned(WorkerId(g, i)))
      case None => Dispatch(q, t, RemoveName(names, g), o)
  }

  function Execute<F>(p: Pool<F>, t: TaskId, h: HandlerName, f: F, o: Oracle): (Pool<F>, Outcome) {
    if t.text == "" then (p, Rejected(InvalidRequest))
    else if !p.accepting then (p, Rejected(InternalError))
    else if t in p.futures then (p, Rejected(InternalError))
    else
      var names := Candidates(p, Routed(p, h), o.live);
      if names == [] then (p, Rejected(WorkerUnavailable))
      else Dispatch(p.(futures := p.futures[t := f]), t, names, o)
  }

  // ---------- results, exits, restarts ----------

  function Unload(w: Worker): Worker {
    if w.outstanding > 0 then w.(outstanding := w.outstanding - 1) else w
  }

  /** The locked part of _result_loop; the future to resolve, if the message is not stale. */
  function Receive<F>(p: Pool<F>, t: TaskId, from: Assignment): (Pool<F>, Option<F>) {
    if t !in p.assignments || p.assignments[t] != from then (p, None)
    else
      (p.(assignments := p.assignments - {t}, futures := p.futures - {t},
          workers := if from.worker in p.workers
                     then p.workers[from.worker := Unload(p.workers[from.worker])] else p.workers),
       if t in p.futures then Some(p.futures[t]) else None)
  }

  function Owned<F>(p: Pool<F>, a: Assignment): set<TaskId> {
    set t | t in p.assignments && p.assignments[t] == a
  }

  /** The futures of a set of tasks. */
  function FuturesOf<F>(p: Pool<F>, tasks: set<TaskId>): set<F> {
    set t | t in tasks && t in p.futures :: p.futures[t]
  }

  /** _take_worker_futures_locked. */
  function Take<F>(p: Pool<F>, w: WorkerId): (Pool<F>, set<F>)
    requires w in p.workers
  {
    var owned := Owned(p, Assignment(w, p.workers[w].generation));
    (p.(assignments := p.assignments - owned, futures := p.futures - owned,
        workers := p.workers[w := p.workers[w].(outstanding := 0)]),
     FuturesOf(p, owned))
  }

  /** The locked part of _handle_worker_exit. */
  function HandleExit<F>(p: Pool<F>, w: WorkerId): (Pool<F>, set<F>) {
    if w !in p.workers || !p.workers[w].alive then (p, {})
    else
      Take(p.(workers := p.workers[w := p.workers[w].(alive := false)],
              smooth := p.smooth[w.group := 0]), w)
  }

  /** The locked part of _restart_worker, with _launch_worker. */
  function Relaunch<F>(p: Pool<F>, w: WorkerId): Pool<F> {
    if p.closing || w !in p.workers then p
    else p.(workers := p.workers[w := Worker(p.workers[w].generation + 1, false, 0)])
  }

  /** A relaunched worker reported READY; afterwards its group's smooth weight is reset. */
  function SetAlive<F>(p: Pool<F>, w: WorkerId, alive: bool): Pool<F> {
    if w !in p.workers then p else p.(workers := p.workers[w := p.workers[w].(alive := alive)])
  }

  /** Some workers' processes have been stopped. */
  function StoppedIn<F>(p: Pool<F>, ids: set<WorkerId>): Pool<F> {
    p.(workers := map w | w in p.workers :: if w in ids then p.workers[w].(alive := false) else p.workers[w])
  }

  function ResetWeight<F>(p: Pool<F>, g: GroupName): Pool<F> {
    p.(smooth := p.smooth[g := 0])
  }

  // ---------- groups ----------

  function AddRoutes(routes: map<HandlerName, seq<GroupName>>, handlers: seq<HandlerName>, g: GroupName)
    : map<HandlerName, seq<GroupName>>
    decreases handlers
  {
    if handlers == [] then routes
    else
      var h := handlers[0];
      AddRoutes(routes[h := (if h in routes then routes[h] else []) + [g]], handlers[1..], g)
  }

  function DropRoute(routes: map<HandlerName, seq<GroupName>>, h: HandlerName, g: GroupName)
    : map<HandlerName, seq<GroupName>>
  {
    if h !in routes then routes
    else if RemoveName(routes[h], g) == [] then routes - {h}
    else routes[h := RemoveName(routes[h], g)]
  }

  function DropRoutes(routes: map<HandlerName, seq<GroupName>>, handlers: seq<HandlerName>, g: GroupName)
    : map<HandlerName, seq<GroupName>>
    decreases handlers
  {
    if handlers == [] then routes else DropRoutes(DropRoute(routes, handlers[0], g), handlers[1..], g)
  }

  function NewWorkers(g: GroupName, count: nat): map<WorkerId, Worker> {
    map i: nat | 0 <= i < count :: WorkerId(g, i) := Worker(1, true, 0)
  }

  predicate CanRegister<F>(p: Pool<F>, g: GroupName) {
    !p.closing && !p.closeComplete && p.accepting && g !in p.groups
  }

  function AddGroup<F>(p: Pool<F>, g: GroupName, handlers: seq<HandlerName>, count: nat): Pool<F> {
    p.(groups := p.groups + [g], groupHandlers := p.groupHandlers[g := handlers],
       processCount := p.processCount[g := count],
       handlerGroups := AddRoutes(p.handlerGroups, handlers, g),
       workers := p.workers + NewWorkers(g, count))
  }

  /** Publishing a group, after every one of its workers has reported READY. */
  function Register<F>(p: Pool<F>, g: GroupName, handlers: seq<HandlerName>, count: nat): Pool<F> {
    if CanRegister(p, g) then AddGroup(p, g, handlers, count) else p
  }

  datatype GroupSpec = GroupSpec(name: GroupName, handlers: seq<HandlerName>, count: nat)

  /** _resolve_group_handlers: a group that names no handler deploys all of the registry. */
  function Deployed(registry: seq<HandlerName>, handlers: seq<HandlerName>): seq<HandlerName> {
    if handlers != [] then handlers else registry
  }

  predicate Known(registry: seq<HandlerName>, handlers: seq<HandlerName>) {
    forall h :: h in Deployed(registry, handlers) ==> h in registry
  }

  function Resolved(registry: seq<HandlerName>, specs: seq<GroupSpec>): (r: seq<GroupSpec>)
    ensures |r| == |specs|
    ensures forall i :: 0 <= i < |specs| ==> r[i] == specs[i].(handlers := Deployed(registry, specs[i].handlers))
  {
    seq(|specs|, i requires 0 <= i < |specs| => specs[i].(handlers := Deployed(registry, specs[i].handlers)))
  }

  function Workers(specs: seq<GroupSpec>): nat {
    if specs == [] then 0 else Workers(specs[..|specs| - 1]) + specs[|specs| - 1].count
  }

  /** What the constructor accepts: it names the groups it wants, distinct ones, with handlers it
      knows, waits for a positive time, and every worker reports READY in it. */
  predicate Startable(registry: seq<HandlerName>, specs: seq<GroupSpec>, timeout: int, ready: nat) {
    && specs != [] && timeout > 0
    && (forall i, j :: 0 <= i < j < |specs| ==> specs[i].name != specs[j].name)
    && (forall i :: 0 <= i < |specs| ==> Known(registry, specs[i].handlers))
    && Workers(specs) <= ready
  }

  /** The pool after its construction, when every worker has reported READY. */
  function Constructed<F>(specs: seq<GroupSpec>): Pool<F> {
    if specs == [] then
      Pool(true, false, false, [], map[], map[], map[], map[], map[], map[], map[], map[])
    else
      var last := specs[|specs| - 1];
      AddGroup(Constructed(specs[..|specs| - 1]), last.name, last.handlers, last.count)
  }

  /** The tasks assigned to the current incarnations of a group's workers. */
  function GroupTasks<F>(p: Pool<F>, g: GroupName): set<TaskId> {
    set t | t in p.assignments && p.assignments[t].worker.group == g && p.assignments[t].worker in p.workers
            && p.assignments[t].generation == p.workers[p.assignments[t].worker].generation
  }

  /** The locked part of unregister_worker_group. */
  function Unregister<F>(p: Pool<F>, g: GroupName): (Pool<F>, set<F>) {
    if p.closing || p.closeComplete || g !in p.groups || g !in p.groupHandlers then (p, {})
    else
      var tasks := GroupTasks(p, g);
      (p.(groups := RemoveName(p.groups, g), groupHandlers := p.groupHandlers - {g},
          processCount := p.processCount - {g},
          handlerGroups := DropRoutes(p.handlerGroups, p.groupHandlers[g], g),
          cursors := p.cursors - {g}, smooth := p.smooth - {g},
          workers := map w | w in p.workers && w.group != g :: p.workers[w],
          assignments := p.assignments - tasks, futures := p.futures - tasks),
       FuturesOf(p, tasks))
  }

  // ---------- closing ----------

  /** close, and the shutdown mode of a worker failure: no more requests, no more restarts. */
  function BeginClose<F>(p: Pool<F>): Pool<F> {
    if p.closeComplete then p else p.(accepting := false, closing := true)
  }

  /** _fail_all_pending. */
  function FailAll<F>(p: Pool<F>): (Pool<F>, set<F>) {
    (p.(futures := map[], assignments := map[],
        workers := map w | w in p.workers :: p.workers[w].(outstanding := 0)),
     p.futures.Values)
  }
}
