/** The in-memory task backend. Every method body runs under the backend's lock. */
module TaskBackend {
  import opened Core
  import opened PriorityOrder
  import opened BinaryHeap
  import opened Retention

  datatype BackendError = DuplicateTask | UnknownTask | UnstampedTask

  class InMemoryTaskBackend {
    const maxRetainedTerminalTasks: nat
    var records: map<TaskId, TaskRecord>
    var pending: seq<Entry>
    var terminalFinishedAt: map<TaskId, Stamp>
    var readTerminalTasks: set<TaskId>
    var terminalSequence: nat
    var sequence: nat

    /** The queued entries in submission order. */
    ghost var queue: seq<Entry>
    /** The last reading of the monotonic clock. */
    ghost var clock: int

    ghost predicate Valid()
      reads this
    {
      && IsHeap(pending) && multiset(pending) == multiset(queue)
      && InSubmissionOrder(queue)
      && (forall i :: 0 <= i < |queue| ==> queue[i].sequence < sequence)
      && StoreInv(Finished(), clock)
    }

    /** Every terminal record has its finish stamp and the limit is respected. */
    ghost predicate Retained()
      reads this
    {
      RetentionInv(Finished(), maxRetainedTerminalTasks, clock)
    }

    /** The part of the state that retention is about. */
    function Finished(): Store
      reads this
    {
      Store(records, terminalFinishedAt, readTerminalTasks, terminalSequence)
    }

    constructor (maxRetained: nat)
      ensures Valid() && Retained() && maxRetainedTerminalTasks == maxRetained
      ensures queue == [] && clock == 0 && Finished() == Store(map[], map[], {}, 0)
    {
      maxRetainedTerminalTasks := maxRetained;
      records, terminalFinishedAt, readTerminalTasks := map[], map[], {};
      pending, queue := [], [];
      terminalSequence, sequence, clock := 0, 0, 0;
    }

    /** A record enters the backend with whatever status it has; one that is terminal already
        gets no finish stamp. */
    method Submit(record: TaskRecord, priority: int) returns (r: Result<(), BackendError>)
      requires Valid()
      modifies this
      ensures Valid() && clock == old(clock)
      ensures old(Retained()) ==> (Retained() <==> r.Err? || !Terminal(record.status))
      ensures r.Err? <==> record.taskId in old(records)
      ensures r.Err? ==> r == Err(DuplicateTask) && unchanged(this)
      ensures r.Ok? ==> queue == old(queue) + [Entry(-priority, old(sequence), record.taskId)]
      ensures r.Ok? ==> Finished() == old(Finished()).(records := old(records)[record.taskId := record])
    {
      if record.taskId in records { return Err(DuplicateTask); }
      NewRecordKeeps(Finished(), maxRetainedTerminalTasks, clock, record);
      var entry := Entry(-priority, sequence, record.taskId);
      AppendKeepsOrder(queue, entry);
      hide StoreInv, RetentionInv, IsHeap, InSubmissionOrder;
      records := records[record.taskId := record];
      pending := HeapPush(pending, entry);
      queue := queue + [entry];
      sequence := sequence + 1;
      r := Ok(());
    }

    /** Pull returns the best task of the queue in submission order: highest priority, then
        earliest submission. */
    method Pull() returns (r: Option<TaskId>)
      requires Valid()
      modifies this`pending, this`queue
      ensures Valid() && Retained() == old(Retained())
      ensures old(queue) == [] ==> r == None && queue == []
      ensures old(queue) != [] ==>
                && r == Some(old(queue)[Best(old(queue))].id)
                && queue == Without(old(queue), Best(old(queue)))
    {
      hide IsHeap, InSubmissionOrder, StoreInv, RetentionInv, Best, Without, Less;
      if pending == [] {
        EmptyToo(pending, queue);
        return None;
      }
      ghost var was := pending;
      var first, rest := HeapPop(pending);
      r := Some(first.id);
      BestLeaves(was, queue, first, rest, sequence);
      pending, queue := rest, Without(queue, Best(queue));
    }

    method Get(taskId: TaskId) returns (r: Option<TaskRecord>)
      ensures r == if taskId in records then Some(records[taskId]) else None
    {
      r := if taskId in records then Some(records[taskId]) else None;
    }

    /** Only a terminal record can be read; a consuming read forgets it, another one marks it. */
    method Read(taskId: TaskId, consume: bool) returns (r: Option<TaskRecord>)
      requires Valid()
      modifies this
      ensures Valid() && queue == old(queue) && clock == old(clock) && (old(Retained()) ==> Retained())
      ensures r == if taskId in Terminals(old(records)) then Some(old(records)[taskId]) else None
      ensures r == None ==> unchanged(this)
      ensures r.Some? && consume ==> Finished() == DropAll(old(Finished()), {taskId})
      ensures r.Some? && !consume ==> Finished() == old(Finished()).(read := old(readTerminalTasks) + {taskId})
    {
      if taskId !in records || !Terminal(records[taskId].status) { return None; }
      r := Some(records[taskId]);
      if consume {
        ConsumeKeeps(Finished(), maxRetainedTerminalTasks, clock, taskId);
        terminalFinishedAt := terminalFinishedAt - {taskId};
        readTerminalTasks := readTerminalTasks - {taskId};
        records := records - {taskId};
      } else {
        readTerminalTasks := readTerminalTasks + {taskId};
      }
    }

    /** A status update replaces the record. A terminal update stamps the task and prunes; pruning
        sorts all terminal records by their stamps, and raises when one has none. */
    method UpdateStatus(taskId: TaskId, status: TaskStatus, result: Option<string>, errorCode: Option<ErrorCode>,
                        errorMessage: Option<string>, now: int)
      returns (r: Result<TaskRecord, BackendError>)
      requires Valid() && clock <= now
      modifies this
      ensures Valid() && queue == old(queue)
      ensures taskId !in old(records) ==> r == Err(UnknownTask) && unchanged(this)
      ensures taskId in old(records) ==>
                var updated := old(records)[taskId].(status := status, result := result, errorCode := errorCode,
                                                     errorMessage := errorMessage, updatedAt := now);
                var mid := Stamped(old(Finished()), taskId, updated, now);
                if !Terminal(status) then r == Ok(updated) && Finished() == Reopened(old(Finished()), taskId, updated)
                else if maxRetainedTerminalTasks > 0 && !AllStamped(mid) then
                  r == Err(UnstampedTask) && Finished() == mid
                else r == Ok(updated)
                     && exists gone :: Evicts(mid, maxRetainedTerminalTasks, gone) && Finished() == DropAll(mid, gone)
      ensures old(Retained()) ==> Retained() && (r.Err? <==> taskId !in old(records))
    {
      hide Evicts, StampsInv, RetentionInv, StoreInv, Terminals, IsHeap, InSubmissionOrder;
      if taskId !in records { return Err(UnknownTask); }
      var updated := records[taskId].(status := status, result := result, errorCode := errorCode,
                                      errorMessage := errorMessage, updatedAt := now);
      ghost var before := Finished();
      ghost var limit := maxRetainedTerminalTasks;
      records := records[taskId := updated];
      if Terminal(status) {
        if taskId !in terminalFinishedAt {
          terminalFinishedAt := terminalFinishedAt[taskId := Stamp(now, terminalSequence)];
          terminalSequence := terminalSequence + 1;
        }
        assert Finished() == Stamped(before, taskId, updated, now);
        StampedKeeps(before, clock, taskId, updated, now);
        StampedAll(before, limit, clock, taskId, updated, now);
        var pruned := PruneTerminalRecords(now);
        r := if pruned then Ok(updated) else Err(UnstampedTask);
      } else {
        terminalFinishedAt := terminalFinishedAt - {taskId};
        readTerminalTasks := readTerminalTasks - {taskId};
        ReopenKeeps(before, limit, clock, taskId, updated, now);
        r := Ok(updated);
      }
      clock := now;
    }

    /** Sort the terminal tasks by eviction key and drop all but the last limit of them. Looking up
        the key of a task without a stamp raises. */
    method PruneTerminalRecords(ghost now: int) returns (ok: bool)
      requires StoreInv(Finished(), now)
      modifies this`records, this`terminalFinishedAt, this`readTerminalTasks
      ensures StoreInv(Finished(), now)
      ensures ok <==> maxRetainedTerminalTasks == 0 || old(AllStamped(Finished()))
      ensures !ok ==> Finished() == old(Finished())
      ensures ok ==> exists gone ::
                Evicts(old(Finished()), maxRetainedTerminalTasks, gone) && Finished() == DropAll(old(Finished()), gone)
      ensures ok && old(AllStamped(Finished())) ==> RetentionInv(Finished(), maxRetainedTerminalTasks, now)
    {
      var limit := maxRetainedTerminalTasks;
      ghost var st := Finished();
      if limit == 0 {
        NothingEvicted(st, limit);
        return true;
      }
      if !(Terminals(records) <= terminalFinishedAt.Keys) { return false; }
      var ids := SortedTerminals();
      hide StoreInv, InEvictionOrder, Evicts, DropAll;
      EvictFirst(ids, limit);
      ghost var n := if |ids| > limit then |ids| - limit else 0;
      PrefixEvicted(st, limit, now, ids, n);
      EvictKeeps(st, limit, now, Ids(ids[..n]));
      ok := true;
    }

    /** The loop over ids[:-limit]. */
    method EvictFirst(ids: seq<TaskId>, limit: nat)
      modifies this`records, this`terminalFinishedAt, this`readTerminalTasks
      ensures var n := if |ids| > limit then |ids| - limit else 0;
        Finished() == DropAll(old(Finished()), Ids(ids[..n]))
    {
      var i := 0;
      assert ids[..0] == [];
      while i + limit < |ids|
        invariant i == 0 || i + limit <= |ids|
        invariant i <= |ids| && Finished() == DropAll(old(Finished()), Ids(ids[..i]))
      {
        assert ids[..i + 1] == ids[..i] + [ids[i]];
        records := records - {ids[i]};
        terminalFinishedAt := terminalFinishedAt - {ids[i]};
        readTerminalTasks := readTerminalTasks - {ids[i]};
        i := i + 1;
      }
    }

    /** sorted(...) over the terminal tasks, by eviction key. */
    method SortedTerminals() returns (ids: seq<TaskId>)
      requires Terminals(records) <= terminalFinishedAt.Keys
      ensures Ids(ids) == Terminals(records)
      ensures InEvictionOrder(Finished(), ids)
    {
      ids := [];
      var left := Terminals(records);
      while left != {}
        invariant left <= Terminals(records)
        invariant forall t :: t in ids <==> t in Terminals(records) && t !in left
        invariant InEvictionOrder(Finished(), ids)
        decreases left
      {
        hide InEvictionOrder;
        var t :| t in left;
        ids := InsertTerminal(Finished(), ids, t);
        left := left - {t};
      }
    }

    method ListAll() returns (all: set<TaskRecord>)
      ensures all == records.Values
    {
      all := records.Values;
    }
  }

  // ---------- a record that is terminal when it is submitted ----------

  /** A finished record is submitted and then another one: with a limit, finishing the second raises,
      and without one it does not. */
  method FinishAnother(limit: nat, done: TaskRecord, open: TaskRecord, status: TaskStatus, now: int)
    returns (r: Result<TaskRecord, BackendError>)
    requires done.taskId != open.taskId && Terminal(done.status) && !Terminal(open.status)
    requires Terminal(status) && now >= 0
    ensures r == if limit > 0 then Err(UnstampedTask)
                 else Ok(open.(status := status, result := None, errorCode := None, errorMessage := None,
                               updatedAt := now))
  {
    hide Evicts, StampsInv;
    var backend := new InMemoryTaskBackend(limit);
    var first := backend.Submit(done, 0);
    var second := backend.Submit(open, 0);
    ghost var st := backend.Finished();
    assert done.taskId in Terminals(st.records) - {open.taskId} && done.taskId !in st.finished;
    r := backend.UpdateStatus(open.taskId, status, None, None, None, now);
    var updated := open.(status := status, result := None, errorCode := None, errorMessage := None, updatedAt := now);
    UpdateStampsAllIff(st, 0, open.taskId, updated, now);
  }

  /** Finishing the submitted record itself stamps it and succeeds. */
  method FinishItself(limit: nat, done: TaskRecord, status: TaskStatus, now: int)
    returns (r: Result<TaskRecord, BackendError>)
    requires Terminal(done.status) && Terminal(status) && now >= 0
    ensures r == Ok(done.(status := status, result := None, errorCode := None, errorMessage := None, updatedAt := now))
  {
    hide Evicts, StampsInv;
    var backend := new InMemoryTaskBackend(limit);
    var first := backend.Submit(done, 0);
    ghost var st := backend.Finished();
    assert Terminals(st.records) - {done.taskId} <= st.finished.Keys;
    var updated := done.(status := status, result := None, errorCode := None, errorMessage := None, updatedAt := now);
    UpdateStampsAllIff(st, 0, done.taskId, updated, now);
    r := backend.UpdateStatus(done.taskId, status, None, None, None, now);
  }

  lemma EmptyToo(heap: seq<Entry>, queue: seq<Entry>)
    requires multiset(heap) == multiset(queue) && heap == []
    ensures queue == []
  {
    assert |multiset(queue)| == 0;
  }

  /** Popping the heap takes the best entry out of the reference queue. */
  lemma BestLeaves(heap: seq<Entry>, queue: seq<Entry>, first: Entry, rest: seq<Entry>, next: nat)
    requires heap != [] && multiset(heap) == multiset(queue) && InSubmissionOrder(queue)
    requires forall i :: 0 <= i < |queue| ==> queue[i].sequence < next
    requires multiset(heap) == multiset(rest) + multiset{first} && forall e :: e in heap ==> !Less(e, first)
    ensures queue != [] && queue[Best(queue)] == first
    ensures multiset(rest) == multiset(Without(queue, Best(queue)))
    ensures InSubmissionOrder(Without(queue, Best(queue)))
    ensures forall i :: 0 <= i < |Without(queue, Best(queue))| ==> Without(queue, Best(queue))[i].sequence < next
  {
    SameMembers(heap, queue);
    assert heap[0] in heap;
    assert first in multiset(heap);
    assert first in heap;
    BestIsFirst(queue, first);
    OrderWithout(queue, Best(queue), next);
    WithoutOne(queue, Best(queue));
    hide Best, Without, InSubmissionOrder;
    Cancel(multiset(rest), multiset(Without(queue, Best(queue))), first);
  }

  lemma AppendKeepsOrder(queue: seq<Entry>, e: Entry)
    requires InSubmissionOrder(queue) && forall i :: 0 <= i < |queue| ==> queue[i].sequence < e.sequence
    ensures InSubmissionOrder(queue + [e]) && multiset(queue + [e]) == multiset(queue) + multiset{e}
    ensures forall i :: 0 <= i < |queue + [e]| ==> (queue + [e])[i].sequence < e.sequence + 1
  {
  }

  function Ids(ids: seq<TaskId>): set<TaskId> {
    set t | t in ids
  }

  /** A store in order stays so up to the limit, whatever is stamped. */
  lemma StampedAll(st: Store, limit: nat, clock: int, id: TaskId, updated: TaskRecord, now: int)
    requires StoreInv(st, clock) && clock <= now && Terminal(updated.status)
    ensures RetentionInv(st, limit, clock) ==> AllStamped(Stamped(st, id, updated, now))
  {
    StampedKeeps(st, clock, id, updated, now);
    hide Terminals, StampsInv;
  }

  lemma NothingEvicted(st: Store, limit: nat)
    requires limit == 0
    ensures exists gone :: Evicts(st, limit, gone) && st == DropAll(st, gone)
  {
    assert st.records - {} == st.records && st.finished - {} == st.finished;
    assert Evicts(st, limit, {}) && DropAll(st, {}) == st;
  }

  /** The first of the sorted tasks are what pruning evicts. */
  lemma PrefixEvicted(st: Store, limit: nat, clock: int, ids: seq<TaskId>, n: nat)
    requires StoreInv(st, clock) && AllStamped(st) && limit > 0
    requires Ids(ids) == Terminals(st.records) && InEvictionOrder(st, ids)
    requires n <= |ids| && n == if |ids| > limit then |ids| - limit else 0
    ensures Evicts(st, limit, Ids(ids[..n]))
  {
    NoDuplicatesSize(ids);
    NoDuplicatesSize(ids[..n]);
    var gone := Ids(ids[..n]);
    assert forall k :: 0 <= k < n ==> ids[..n][k] in gone;
    forall a, b | a in gone && b in Terminals(st.records) && b !in gone
      ensures a in st.finished && b in st.finished && EvictedBefore(st, a, b)
    {
      var i :| 0 <= i < n && ids[i] == a;
      assert b in Ids(ids);
      var j :| 0 <= j < |ids| && ids[j] == b;
      assert j >= n;
      OneGoesFirst(st, ids[i], ids[j]);
    }
  }

  /** Finish orders are distinct, so of two tasks one goes first. */
  lemma OneGoesFirst(st: Store, a: TaskId, b: TaskId)
    requires a in st.finished && b in st.finished && a != b
    requires st.finished[a].order != st.finished[b].order
    ensures EvictedBefore(st, a, b) || EvictedBefore(st, b, a)
  {
  }

  /** Distinct terminal tasks, none of which is evicted before an earlier one. */
  ghost predicate InEvictionOrder(st: Store, ids: seq<TaskId>) {
    && (forall t :: t in ids ==> t in st.finished)
    && (forall i, j :: 0 <= i < j < |ids| ==> ids[i] != ids[j])
    && (forall i, j :: 0 <= i < j < |ids| ==> !EvictedBefore(st, ids[j], ids[i]))
  }

  /** One insertion of the sort. */
  method InsertTerminal(st: Store, ids: seq<TaskId>, t: TaskId) returns (r: seq<TaskId>)
    requires InEvictionOrder(st, ids) && t in st.finished && t !in ids
    ensures InEvictionOrder(st, r) && forall u :: u in r <==> u in ids || u == t
  {
    var at := 0;
    while at < |ids| && !EvictedBefore(st, t, ids[at])
      invariant at <= |ids|
      invariant forall i :: 0 <= i < at ==> !EvictedBefore(st, t, ids[i])
    {
      at := at + 1;
    }
    r := InsertAt(ids, at, t);
    if at < |ids| { AfterInserted(st, ids, at, t); }
  }

  /** What follows the inserted task is evicted after it. */
  lemma AfterInserted(st: Store, ids: seq<TaskId>, at: nat, t: TaskId)
    requires InEvictionOrder(st, ids) && at < |ids| && t in st.finished && EvictedBefore(st, t, ids[at])
    ensures forall i :: at <= i < |ids| ==> !EvictedBefore(st, ids[i], t)
  {
    forall i | at <= i < |ids| ensures !EvictedBefore(st, ids[i], t) {
      assert i > at ==> !EvictedBefore(st, ids[i], ids[at]);
    }
  }

  lemma {:induction false} NoDuplicatesSize(ids: seq<TaskId>)
    requires forall i, j :: 0 <= i < j < |ids| ==> ids[i] != ids[j]
    ensures |(set t | t in ids)| == |ids|
  {
    if ids != [] {
      var init, last := ids[..|ids| - 1], ids[|ids| - 1];
      NoDuplicatesSize(init);
      assert (set t | t in ids) == (set t | t in init) + {last};
    }
  }

  function InsertAt(ids: seq<TaskId>, at: nat, t: TaskId): (r: seq<TaskId>)
    requires at <= |ids|
    ensures |r| == |ids| + 1 && r[at] == t
    ensures forall i :: 0 <= i < at ==> r[i] == ids[i]
    ensures forall i :: at < i < |r| ==> r[i] == ids[i - 1]
    ensures forall u :: u in r <==> u in ids || u == t
  {
    assert ids == ids[..at] + ids[at..];
    ids[..at] + [t] + ids[at..]
  }

  lemma SameMembers(a: seq<Entry>, b: seq<Entry>)
    requires multiset(a) == multiset(b)
    ensures forall e :: e in a <==> e in b
  {
    forall e ensures e in a <==> e in b {
      assert e in a <==> e in multiset(a);
      assert e in b <==> e in multiset(b);
    }
  }

  lemma WithoutOne(queue: seq<Entry>, b: nat)
    requires b < |queue|
    ensures multiset(queue) == multiset(Without(queue, b)) + multiset{queue[b]}
  {
    assert queue == queue[..b] + ([queue[b]] + queue[b + 1..]);
  }

  lemma Cancel(a: multiset<Entry>, b: multiset<Entry>, e: Entry)
    requires a + multiset{e} == b + multiset{e}
    ensures a == b
  {
    assert a == (a + multiset{e}) - multiset{e};
  }

  /** The first entry of the heap order is the best of the reference queue. */
  lemma BestIsFirst(queue: seq<Entry>, first: Entry)
    requires InSubmissionOrder(queue) && first in queue
    requires forall e :: e in queue ==> !Less(e, first)
    ensures queue[Best(queue)] == first
  {
    var b := Best(queue);
    var k :| 0 <= k < |queue| && queue[k] == first;
    assert !Less(queue[b], first);
  }

  lemma OrderWithout(queue: seq<Entry>, b: nat, next: nat)
    requires InSubmissionOrder(queue) && b < |queue|
    requires forall i :: 0 <= i < |queue| ==> queue[i].sequence < next
    ensures InSubmissionOrder(Without(queue, b))
    ensures forall i :: 0 <= i < |Without(queue, b)| ==> Without(queue, b)[i].sequence < next
  {
    var rest := Without(queue, b);
    assert forall i :: 0 <= i < |rest| ==> rest[i] == (if i < b then queue[i] else queue[i + 1]);
  }
}
