/** What the backend remembers about finished tasks, and which of them it forgets. */
module Retention {
  import opened Core

  datatype TaskRecord = TaskRecord(
    taskId: TaskId, request: string, status: TaskStatus, result: Option<string>,
    errorCode: Option<ErrorCode>, errorMessage: Option<string>, createdAt: int, updatedAt: int)

  /** When a task finished: the clock reading and the position among all finishes. */
  datatype Stamp = Stamp(time: int, order: nat)

  datatype Store = Store(
    records: map<TaskId, TaskRecord>, finished: map<TaskId, Stamp>, read: set<TaskId>, next: nat)

  function Terminals(records: map<TaskId, TaskRecord>): set<TaskId> {
    set t | t in records && Terminal(records[t].status)
  }

  /** Finish stamps and read marks exist only for terminal records; stamps are distinct and agree
      with the clock. */
  ghost predicate StoreInv(st: Store, clock: int) {
    && st.finished.Keys <= Terminals(st.records)
    && st.read <= Terminals(st.records)
    && StampsInv(st, clock)
  }

  /** Beyond that, every terminal record has its stamp and at most limit of them are kept. */
  ghost predicate RetentionInv(st: Store, limit: nat, clock: int) {
    && StoreInv(st, clock) && AllStamped(st)
    && (limit > 0 ==> |Terminals(st.records)| <= limit)
  }

  predicate AllStamped(st: Store) {
    Terminals(st.records) <= st.finished.Keys
  }

  ghost predicate StampsInv(st: Store, clock: int) {
    && (forall t :: t in st.finished ==> st.finished[t].order < st.next && st.finished[t].time <= clock)
    && (forall t, u :: t in st.finished && u in st.finished && t != u ==>
          st.finished[t].order != st.finished[u].order)
    && (forall t, u :: t in st.finished && u in st.finished && st.finished[t].order < st.finished[u].order ==>
          st.finished[t].time <= st.finished[u].time)
  }

  /** The sort key of the pruning: read tasks first, then by finish time, then by finish order. */
  predicate EvictedBefore(st: Store, a: TaskId, b: TaskId)
    requires a in st.finished && b in st.finished
  {
    if (a in st.read) != (b in st.read) then a in st.read
    else
      || st.finished[a].time < st.finished[b].time
      || (st.finished[a].time == st.finished[b].time && st.finished[a].order < st.finished[b].order)
  }

  /** The candidates for eviction: the read tasks if there are any, else all terminal tasks. */
  function Candidates(st: Store): set<TaskId> {
    if st.read != {} then st.read else Terminals(st.records)
  }

  /** The candidate that finished first. */
  ghost predicate IsVictim(st: Store, v: TaskId) {
    && v in Candidates(st) && v in st.finished
    && forall u :: u in Candidates(st) && u in st.finished && u != v ==> st.finished[v].order < st.finished[u].order
  }

  function DropAll(st: Store, gone: set<TaskId>): Store {
    st.(records := st.records - gone, finished := st.finished - gone, read := st.read - gone)
  }

  /** The set pruning evicts: what exceeds the limit, and nothing that is kept goes before it. */
  ghost predicate Evicts(st: Store, limit: nat, gone: set<TaskId>) {
    && gone <= Terminals(st.records)
    && |gone| == (if limit > 0 && |Terminals(st.records)| > limit then |Terminals(st.records)| - limit else 0)
    && forall a, b :: a in gone && b in Terminals(st.records) && b !in gone ==>
         a in st.finished && b in st.finished && EvictedBefore(st, a, b)
  }

  /** The store after a terminal status was written and before the pruning. */
  function Stamped(st: Store, id: TaskId, updated: TaskRecord, now: int): Store {
    if id in st.finished then st.(records := st.records[id := updated])
    else st.(records := st.records[id := updated], finished := st.finished[id := Stamp(now, st.next)],
             next := st.next + 1)
  }

  /** The store after a non-terminal status was written. */
  function Reopened(st: Store, id: TaskId, updated: TaskRecord): Store {
    Store(st.records[id := updated], st.finished - {id}, st.read - {id}, st.next)
  }

  lemma TerminalsInsert(st: Store, record: TaskRecord)
    requires record.taskId !in st.records
    ensures Terminals(st.records[record.taskId := record]) ==
              Terminals(st.records) + if Terminal(record.status) then {record.taskId} else {}
  {
  }

  /** A new record changes nothing about retention exactly when it is not terminal: one that
      already is has no stamp. */
  lemma NewRecordKeeps(st: Store, limit: nat, clock: int, record: TaskRecord)
    requires StoreInv(st, clock) && record.taskId !in st.records
    ensures var st' := st.(records := st.records[record.taskId := record]);
      && StoreInv(st', clock)
      && (RetentionInv(st, limit, clock) ==> (RetentionInv(st', limit, clock) <==> !Terminal(record.status)))
  {
    TerminalsInsert(st, record);
    assert record.taskId !in Terminals(st.records);
    hide Terminals;
    var st' := st.(records := st.records[record.taskId := record]);
    if Terminal(record.status) { assert record.taskId in Terminals(st'.records) && record.taskId !in st'.finished; }
  }

  lemma ReopenKeeps(st: Store, limit: nat, clock: int, id: TaskId, updated: TaskRecord, now: int)
    requires StoreInv(st, clock) && !Terminal(updated.status) && clock <= now
    ensures StoreInv(Reopened(st, id, updated), now)
    ensures RetentionInv(st, limit, clock) ==> RetentionInv(Reopened(st, id, updated), limit, now)
  {
    assert Terminals(st.records[id := updated]) == Terminals(st.records) - {id};
  }

  /** Without one task, read and consumed. */
  lemma ConsumeKeeps(st: Store, limit: nat, clock: int, id: TaskId)
    requires StoreInv(st, clock)
    ensures StoreInv(DropAll(st, {id}), clock)
    ensures RetentionInv(st, limit, clock) ==> RetentionInv(DropAll(st, {id}), limit, clock)
  {
    DropTerminals(st, {id});
    StampsDropped(st, clock, {id});
    hide Terminals, StampsInv;
  }

  lemma StampsDropped(st: Store, clock: int, gone: set<TaskId>)
    requires StampsInv(st, clock)
    ensures StampsInv(DropAll(st, gone), clock)
  {
  }

  lemma DropTerminals(st: Store, gone: set<TaskId>)
    ensures Terminals(DropAll(st, gone).records) == Terminals(st.records) - gone
  {
  }

  lemma TerminalsUpdate(records: map<TaskId, TaskRecord>, id: TaskId, updated: TaskRecord)
    requires Terminal(updated.status)
    ensures Terminals(records[id := updated]) == Terminals(records) + {id}
  {
  }

  lemma StampsKept(st: Store, clock: int, id: TaskId, updated: TaskRecord, now: int)
    requires StampsInv(st, clock) && clock <= now
    ensures StampsInv(Stamped(st, id, updated, now), now)
  {
  }

  /** Finishing one task keeps the stamps in order. */
  lemma StampedKeeps(st: Store, clock: int, id: TaskId, updated: TaskRecord, now: int)
    requires StoreInv(st, clock) && clock <= now && Terminal(updated.status)
    ensures var mid := Stamped(st, id, updated, now);
      && StoreInv(mid, now) && id in mid.finished
      && Terminals(mid.records) == Terminals(st.records) + {id}
      && mid.finished.Keys == st.finished.Keys + {id} && mid.read == st.read
  {
    StampsKept(st, clock, id, updated, now);
    TerminalsUpdate(st.records, id, updated);
    hide StampsInv, Terminals;
  }

  /** After a terminal update everything is stamped exactly when every other terminal record was. */
  lemma UpdateStampsAllIff(st: Store, clock: int, id: TaskId, updated: TaskRecord, now: int)
    requires StoreInv(st, clock) && clock <= now && Terminal(updated.status)
    ensures AllStamped(Stamped(st, id, updated, now)) <==> Terminals(st.records) - {id} <= st.finished.Keys
  {
    StampedKeeps(st, clock, id, updated, now);
    hide Terminals, StampsInv;
  }

  /** Pruning keeps the order of the stamps and, when everything is stamped, restores the limit. */
  lemma EvictKeeps(mid: Store, limit: nat, now: int, gone: set<TaskId>)
    requires StoreInv(mid, now) && Evicts(mid, limit, gone)
    ensures StoreInv(DropAll(mid, gone), now)
    ensures AllStamped(mid) ==> RetentionInv(DropAll(mid, gone), limit, now)
  {
    DropTerminals(mid, gone);
    hide Terminals, EvictedBefore;
  }

  /** What pruning evicts is determined: of two choices of one size, neither goes first. */
  lemma EvictsUnique(st: Store, limit: nat, gone: set<TaskId>, gone': set<TaskId>)
    requires Evicts(st, limit, gone) && Evicts(st, limit, gone')
    ensures gone == gone'
  {
    hide Terminals, EvictedBefore;
    if gone != gone' {
      SameSize(gone, gone');
      var a :| a in gone && a !in gone';
      var b :| b in gone' && b !in gone;
      NotBoth(st, a, b);
    }
  }

  lemma NotBoth(st: Store, a: TaskId, b: TaskId)
    requires a in st.finished && b in st.finished
    ensures !(EvictedBefore(st, a, b) && EvictedBefore(st, b, a))
  {
  }

  lemma SameSize(a: set<TaskId>, b: set<TaskId>)
    requires |a| == |b| && a != b
    ensures a - b != {} && b - a != {}
  {
    if a <= b { Smaller(a, b); }
    if b <= a { Smaller(b, a); }
    var x :| x in a && x !in b;
    var y :| y in b && y !in a;
    assert x in a - b && y in b - a;
  }

  lemma Smaller(a: set<TaskId>, b: set<TaskId>)
    requires a <= b && a != b
    ensures |a| < |b|
  {
    assert b == a + (b - a);
  }

  /** When one too many is kept, pruning evicts the victim: the clock never contradicts the finish
      order. */
  lemma EvictsVictim(st: Store, limit: nat, clock: int, gone: set<TaskId>) returns (v: TaskId)
    requires StoreInv(st, clock) && AllStamped(st) && limit > 0 && |Terminals(st.records)| == limit + 1
    requires Evicts(st, limit, gone)
    ensures gone == {v} && IsVictim(st, v)
  {
    hide Terminals, EvictedBefore;
    v :| v in gone;
    OnlyOne(gone, v);
    LeastIsVictim(st, clock, v);
  }

  lemma OnlyOne(gone: set<TaskId>, v: TaskId)
    requires |gone| == 1 && v in gone
    ensures gone == {v}
  {
    assert |gone - {v}| == 0;
    assert gone == {v} + (gone - {v});
  }

  /** Of all terminal tasks the first by eviction key is the victim. */
  lemma LeastIsVictim(st: Store, clock: int, v: TaskId)
    requires StoreInv(st, clock) && AllStamped(st) && v in st.finished
    requires forall u :: u in Terminals(st.records) && u != v ==> EvictedBefore(st, v, u)
    ensures IsVictim(st, v)
  {
    if st.read != {} {
      var r :| r in st.read;
      assert r in st.finished;
    }
    forall u | u in Candidates(st) && u in st.finished && u != v
      ensures st.finished[v].order < st.finished[u].order
    {
      assert EvictedBefore(st, v, u);
    }
  }

  /** The task that just finished is never the victim. */
  lemma JustUpdatedSurvives(st: Store, limit: nat, clock: int, id: TaskId, updated: TaskRecord, now: int, v: TaskId)
    requires RetentionInv(st, limit, clock) && clock <= now && Terminal(updated.status) && limit > 0
    requires |Terminals(Stamped(st, id, updated, now).records)| > limit
    requires IsVictim(Stamped(st, id, updated, now), v)
    ensures v != id && v in st.records && Terminal(st.records[v].status)
  {
    var mid := Stamped(st, id, updated, now);
    TerminalsUpdate(st.records, id, updated);
    assert id !in Terminals(st.records) && id !in mid.read;
    if mid.read == {} {
      assert Terminals(st.records) != {};
      var u :| u in Terminals(st.records);
      OlderThanNew(st, limit, clock, id, updated, now, u);
    }
  }

  /** A task that had finished before has an earlier stamp than the one just written. */
  lemma OlderThanNew(st: Store, limit: nat, clock: int, id: TaskId, updated: TaskRecord, now: int, u: TaskId)
    requires RetentionInv(st, limit, clock) && id !in Terminals(st.records) && u in Terminals(st.records)
    ensures var mid := Stamped(st, id, updated, now);
      u != id && u in mid.finished && id in mid.finished && mid.finished[u].order < mid.finished[id].order
  {
    assert u in st.finished;
  }

  /** A terminal update of a store in order evicts nothing, or the victim alone, which is never the
      task that was updated. */
  lemma UpdateEvicts(st: Store, limit: nat, clock: int, id: TaskId, updated: TaskRecord, now: int, gone: set<TaskId>)
    requires RetentionInv(st, limit, clock) && clock <= now && Terminal(updated.status)
    requires Evicts(Stamped(st, id, updated, now), limit, gone)
    ensures var mid := Stamped(st, id, updated, now);
      && AllStamped(mid)
      && (limit == 0 || |Terminals(mid.records)| <= limit ==> gone == {})
      && (limit > 0 && |Terminals(mid.records)| > limit ==>
            exists v :: gone == {v} && v != id && v in st.records && Terminal(st.records[v].status) && IsVictim(mid, v))
  {
    var mid := Stamped(st, id, updated, now);
    StampedKeeps(st, clock, id, updated, now);
    hide Terminals, StampsInv, EvictedBefore, IsVictim;
    if limit > 0 && |Terminals(mid.records)| > limit {
      assert |Terminals(mid.records)| <= limit + 1;
      var v := EvictsVictim(mid, limit, now, gone);
      JustUpdatedSurvives(st, limit, clock, id, updated, now, v);
    }
  }

  /** There is only one victim, so the store after an update is determined. */
  lemma VictimUnique(st: Store, v: TaskId, w: TaskId)
    requires IsVictim(st, v) && IsVictim(st, w)
    ensures v == w
  {
  }
}
