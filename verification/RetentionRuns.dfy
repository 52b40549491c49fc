/** Finish stamps and read marks over whole runs of the backend. */
module RetentionRuns {
  import opened Core
  import opened Retention

  datatype Op =
    | New(record: TaskRecord)
    | Update(id: TaskId, updated: TaskRecord, now: int)
    | Read(id: TaskId)
    | Consume(id: TaskId)

  /** What an operation does to the store; pruning evicts, or raises when a record has no stamp. */
  ghost predicate Step(st: Store, limit: nat, op: Op, st': Store) {
    match op
    case New(record) =>
      st' == if record.taskId in st.records then st else st.(records := st.records[record.taskId := record])
    case Update(id, updated, now) =>
      if id !in st.records then st' == st
      else if !Terminal(updated.status) then st' == Reopened(st, id, updated)
      else
        var mid := Stamped(st, id, updated, now);
        if limit > 0 && !AllStamped(mid) then st' == mid
        else exists gone :: Evicts(mid, limit, gone) && st' == DropAll(mid, gone)
    case Read(id) => st' == if id in Terminals(st.records) then st.(read := st.read + {id}) else st
    case Consume(id) => st' == if id in Terminals(st.records) then DropAll(st, {id}) else st
  }

  ghost predicate Run(states: seq<Store>, ops: seq<Op>, limit: nat) {
    && |states| == |ops| + 1 && states[0] == Store(map[], map[], {}, 0)
    && forall i :: 0 <= i < |ops| ==> Step(states[i], limit, ops[i], states[i + 1])
  }

  /** The update that finishes the task: terminal, of a stored task that has no stamp. */
  predicate Finishes(st: Store, op: Op, t: TaskId) {
    op.Update? && op.id == t && Terminal(op.updated.status) && t in st.records && t !in st.finished
  }

  /** How many updates finished a task before. */
  function FinishesBefore(states: seq<Store>, ops: seq<Op>, n: nat): nat
    requires n <= |ops| < |states|
  {
    if n == 0 then 0
    else
      FinishesBefore(states, ops, n - 1)
      + if ops[n - 1].Update? && Finishes(states[n - 1], ops[n - 1], ops[n - 1].id) then 1 else 0
  }

  lemma StepStamps(st: Store, limit: nat, op: Op, st': Store, t: TaskId)
    requires Step(st, limit, op, st') && t in st'.finished
    ensures if Finishes(st, op, t) then st'.finished[t] == Stamp(op.now, st.next)
            else t in st.finished && st'.finished[t] == st.finished[t]
  {
    hide Terminals, Evicts;
  }

  lemma StepCounts(st: Store, limit: nat, op: Op, st': Store)
    requires Step(st, limit, op, st')
    ensures st'.next == st.next + if op.Update? && Finishes(st, op, op.id) then 1 else 0
  {
    hide Terminals, Evicts;
  }

  lemma {:induction false} NextCounts(states: seq<Store>, ops: seq<Op>, limit: nat, i: nat)
    requires Run(states, ops, limit) && i < |states|
    ensures states[i].next == FinishesBefore(states, ops, i)
  {
    hide Step, Finishes;
    if i > 0 {
      NextCounts(states, ops, limit, i - 1);
      assert Step(states[i - 1], limit, ops[i - 1], states[i - 1 + 1]);
      StepCounts(states[i - 1], limit, ops[i - 1], states[i]);
    }
  }

  /** A stamp is that of the update that finished the task, and says when that was and how many tasks
      had finished before: no later update of a finished task moves it, as long as it is not reopened. */
  lemma {:induction false} StampIsFirstFinish(states: seq<Store>, ops: seq<Op>, limit: nat, i: nat, t: TaskId)
    returns (k: nat)
    requires Run(states, ops, limit) && i < |states| && t in states[i].finished
    ensures k < i && Finishes(states[k], ops[k], t) && forall j :: k < j <= i ==> t in states[j].finished
    ensures states[i].finished[t] == Stamp(ops[k].now, FinishesBefore(states, ops, k))
  {
    hide Step, Finishes;
    var s, op := states[i - 1], ops[i - 1];
    assert Step(s, limit, op, states[i - 1 + 1]);
    StepStamps(s, limit, op, states[i], t);
    if Finishes(s, op, t) {
      k := i - 1;
      NextCounts(states, ops, limit, k);
    } else {
      k := StampIsFirstFinish(states, ops, limit, i - 1, t);
    }
  }

  // ---------- read marks ----------

  lemma StepMarks(st: Store, limit: nat, op: Op, st': Store, t: TaskId)
    requires Step(st, limit, op, st') && MarksStored(st)
    ensures t in st'.read <==>
              || (op == Read(t) && t in Terminals(st.records))
              || (t in st.read && !Loses(st, op, st', t))
  {
    hide Evicts;
  }

  /** The task is reopened, consumed or evicted. */
  predicate Loses(st: Store, op: Op, st': Store, t: TaskId) {
    || (op.Update? && op.id == t && t in st.records && !Terminal(op.updated.status))
    || (t in st.records && t !in st'.records)
  }

  ghost predicate MarksStored(st: Store) {
    forall t :: t in st.read ==> t in st.records
  }

  lemma StepStores(st: Store, limit: nat, op: Op, st': Store)
    requires Step(st, limit, op, st') && MarksStored(st)
    ensures MarksStored(st')
  {
    hide Evicts;
  }

  /** A task is marked exactly when it was read without being consumed and has not been reopened,
      consumed or evicted since. */
  lemma {:induction false} MarkIffRead(states: seq<Store>, ops: seq<Op>, limit: nat, i: nat, t: TaskId)
    requires Run(states, ops, limit) && i < |states|
    ensures MarksStored(states[i])
    ensures t in states[i].read <==>
              exists k :: 0 <= k < i && ops[k] == Read(t) && t in Terminals(states[k].records)
                          && forall j :: k < j < i ==> !Loses(states[j], ops[j], states[j + 1], t)
  {
    hide Step, Loses, Terminals;
    if i > 0 {
      MarkIffRead(states, ops, limit, i - 1, t);
      assert Step(states[i - 1], limit, ops[i - 1], states[i - 1 + 1]);
      StepStores(states[i - 1], limit, ops[i - 1], states[i]);
      StepMarks(states[i - 1], limit, ops[i - 1], states[i], t);
      if k :| 0 <= k < i && ops[k] == Read(t) && t in Terminals(states[k].records)
              && forall j :: k < j < i ==> !Loses(states[j], ops[j], states[j + 1], t) {
        if k < i - 1 { assert !Loses(states[i - 1], ops[i - 1], states[i - 1 + 1], t); }
      }
    }
  }
}
