/** The order in which queued tasks are pulled: highest priority first, and among equal
    priorities the one submitted first. */
module PriorityOrder {
  import opened Core

  /** A heap entry, as the backend stores it: negated priority, submission number, task id. */
  datatype Entry = Entry(negPriority: int, sequence: nat, id: TaskId) {
    function Priority(): int { -negPriority }
  }

  /** Tuple comparison; submission numbers differ, so ids are never compared. */
  predicate Less(a: Entry, b: Entry) {
    a.negPriority < b.negPriority || (a.negPriority == b.negPriority && a.sequence < b.sequence)
  }

  /** Entries in submission order carry increasing submission numbers. */
  ghost predicate InSubmissionOrder(q: seq<Entry>) {
    forall i, j :: 0 <= i < j < |q| ==> q[i].sequence < q[j].sequence
  }

  // ---------- the reference queue: a list in submission order ----------

  /** The position of the first entry of the highest priority. */
  function Best(q: seq<Entry>): (b: nat)
    requires q != []
    ensures b < |q|
    ensures forall i :: 0 <= i < |q| ==> q[i].Priority() <= q[b].Priority()
    ensures forall i :: 0 <= i < b ==> q[i].Priority() < q[b].Priority()
  {
    var last := |q| - 1;
    if last == 0 then 0
    else
      var b := Best(q[..last]);
      if q[last].Priority() > q[b].Priority() then last else b
  }

  function Without(q: seq<Entry>, i: nat): seq<Entry>
    requires i < |q|
  {
    q[..i] + q[i + 1..]
  }

  /** Pulling until nothing is left. */
  function Drain(q: seq<Entry>): (out: seq<Entry>)
    ensures |out| == |q|
    decreases |q|
  {
    if q == [] then [] else [q[Best(q)]] + Drain(Without(q, Best(q)))
  }

  /** Insertion behind every entry of the same or a higher priority. */
  function InsertStable(sorted: seq<Entry>, e: Entry): seq<Entry> {
    if sorted == [] then [e]
    else if sorted[0].Priority() >= e.Priority() then [sorted[0]] + InsertStable(sorted[1..], e)
    else [e] + sorted
  }

  /** The textbook stable sort by descending priority. */
  function StableSort(q: seq<Entry>): seq<Entry> {
    if q == [] then [] else InsertStable(StableSort(q[..|q| - 1]), q[|q| - 1])
  }

  lemma {:induction false} DrainAppend(q: seq<Entry>, e: Entry)
    ensures Drain(q + [e]) == InsertStable(Drain(q), e)
    decreases |q|
  {
    var all := q + [e];
    assert all[..|q|] == q;
    if q == [] {
      assert Without(all, 0) == [];
    } else {
      var b := Best(q);
      if e.Priority() > q[b].Priority() {
        assert Best(all) == |q| && Without(all, |q|) == q;
      } else {
        assert Best(all) == b;
        assert Without(all, b) == Without(q, b) + [e];
        DrainAppend(Without(q, b), e);
        assert Drain(q)[0] == q[b] && Drain(q)[1..] == Drain(Without(q, b));
      }
    }
  }

  /** Draining the queue yields the stable sort of what was submitted. */
  lemma {:induction false} DrainIsStableSort(q: seq<Entry>)
    ensures Drain(q) == StableSort(q)
    decreases |q|
  {
    if q != [] {
      var init := q[..|q| - 1];
      DrainIsStableSort(init);
      DrainAppend(init, q[|q| - 1]);
      assert init + [q[|q| - 1]] == q;
    }
  }

  // ---------- interleaved submissions and pulls ----------

  datatype Op = Submit(id: TaskId, priority: int) | Pull

  datatype QueueState = QueueState(queue: seq<Entry>, next: nat, pulled: seq<Entry>)

  function Do(s: QueueState, op: Op): QueueState {
    match op
    case Submit(id, p) => QueueState(s.queue + [Entry(-p, s.next, id)], s.next + 1, s.pulled)
    case Pull =>
      if s.queue == [] then s
      else QueueState(Without(s.queue, Best(s.queue)), s.next, s.pulled + [s.queue[Best(s.queue)]])
  }

  function DoAll(ops: seq<Op>): QueueState {
    if ops == [] then QueueState([], 0, []) else Do(DoAll(ops[..|ops| - 1]), ops[|ops| - 1])
  }

  ghost predicate OrderInv(s: QueueState) {
    && InSubmissionOrder(s.queue)
    && (forall i :: 0 <= i < |s.queue| ==> s.queue[i].sequence < s.next)
    && (forall i :: 0 <= i < |s.pulled| ==> s.pulled[i].sequence < s.next)
    && (forall i, j | 0 <= i < |s.pulled| && 0 <= j < |s.queue| ::
          s.pulled[i].negPriority == s.queue[j].negPriority ==> s.pulled[i].sequence < s.queue[j].sequence)
    && (forall i, j | 0 <= i < j < |s.pulled| ::
          s.pulled[i].negPriority == s.pulled[j].negPriority ==> s.pulled[i].sequence < s.pulled[j].sequence)
  }

  /** What happens to the queue when its best entry leaves. */
  lemma WithoutAt(queue: seq<Entry>, b: nat, i: nat)
    requires b < |queue| && i < |Without(queue, b)|
    ensures Without(queue, b)[i] == if i < b then queue[i] else queue[i + 1]
  {
  }

  lemma PullKeepsWaiting(s: QueueState)
    requires OrderInv(s) && s.queue != []
    ensures var s' := Do(s, Pull);
      && InSubmissionOrder(s'.queue)
      && (forall i :: 0 <= i < |s'.queue| ==> s'.queue[i] in s.queue && s'.queue[i].sequence < s'.next)
  {
    var b := Best(s.queue);
    hide Best;
    forall i: nat | i < |Without(s.queue, b)| { WithoutAt(s.queue, b, i); }
    hide Without;
  }

  /** The best entry was submitted before every other that waits at its priority. */
  lemma BestBeforeRest(queue: seq<Entry>)
    requires InSubmissionOrder(queue) && queue != []
    ensures forall e :: e in Without(queue, Best(queue)) && e.negPriority == queue[Best(queue)].negPriority ==>
              queue[Best(queue)].sequence < e.sequence
  {
    var b := Best(queue);
    forall e | e in Without(queue, b) && e.negPriority == queue[b].negPriority ensures queue[b].sequence < e.sequence {
      var i :| 0 <= i < |Without(queue, b)| && Without(queue, b)[i] == e;
      WithoutAt(queue, b, i);
    }
  }

  lemma PullKeepsPulled(s: QueueState)
    requires OrderInv(s) && s.queue != []
    ensures var s' := Do(s, Pull);
      && (forall i :: 0 <= i < |s'.pulled| ==> s'.pulled[i].sequence < s'.next)
      && (forall i, j | 0 <= i < j < |s'.pulled| ::
            s'.pulled[i].negPriority == s'.pulled[j].negPriority ==> s'.pulled[i].sequence < s'.pulled[j].sequence)
  {
    hide Without;
  }

  lemma PullKeepsBetween(s: QueueState)
    requires OrderInv(s) && s.queue != []
    ensures var s' := Do(s, Pull);
      forall i, e | 0 <= i < |s'.pulled| && e in s'.queue ::
        s'.pulled[i].negPriority == e.negPriority ==> s'.pulled[i].sequence < e.sequence
  {
    BestBeforeRest(s.queue);
    PullKeepsWaiting(s);
    var s' := Do(s, Pull);
    hide Without, Best;
    forall i, e | 0 <= i < |s'.pulled| && e in s'.queue && s'.pulled[i].negPriority == e.negPriority
      ensures s'.pulled[i].sequence < e.sequence
    {
      if i < |s.pulled| {
        var j :| 0 <= j < |s.queue| && s.queue[j] == e;
        assert s'.pulled[i] == s.pulled[i];
      }
    }
  }

  lemma PullKeepsOrder(s: QueueState)
    requires OrderInv(s) && s.queue != []
    ensures OrderInv(Do(s, Pull))
  {
    PullKeepsWaiting(s);
    PullKeepsPulled(s);
    PullKeepsBetween(s);
    hide Do, InSubmissionOrder;
  }

  lemma DoKeepsOrder(s: QueueState, op: Op)
    requires OrderInv(s)
    ensures OrderInv(Do(s, op))
  {
    if op.Pull? && s.queue != [] {
      hide Do;
      PullKeepsOrder(s);
    }
  }

  /** First in, first out among equal priorities, for every interleaving of submissions and
      pulls: tasks of one priority are pulled in the order of their submission, and no pulled
      task was submitted after a task of its priority that still waits. */
  lemma {:induction false} FifoAmongEquals(ops: seq<Op>)
    ensures OrderInv(DoAll(ops))
  {
    if ops != [] {
      FifoAmongEquals(ops[..|ops| - 1]);
      DoKeepsOrder(DoAll(ops[..|ops| - 1]), ops[|ops| - 1]);
    }
  }

  function Submitted(ops: seq<Op>): multiset<(TaskId, int)> {
    if ops == [] then multiset{}
    else
      var rest := Submitted(ops[..|ops| - 1]);
      match ops[|ops| - 1]
      case Submit(id, p) => rest + multiset{(id, p)}
      case Pull => rest
  }

  function Tasks(q: seq<Entry>): multiset<(TaskId, int)> {
    if q == [] then multiset{} else Tasks(q[..|q| - 1]) + multiset{(q[|q| - 1].id, q[|q| - 1].Priority())}
  }

  lemma {:induction false} TasksConcat(a: seq<Entry>, b: seq<Entry>)
    ensures Tasks(a + b) == Tasks(a) + Tasks(b)
    decreases |b|
  {
    if b == [] {
      assert a + b == a;
    } else {
      var n := |b| - 1;
      assert (a + b)[..|a + b| - 1] == a + b[..n];
      TasksConcat(a, b[..n]);
    }
  }

  lemma TasksOne(e: Entry)
    ensures Tasks([e]) == multiset{(e.id, e.Priority())}
  {
    assert [e][..0] == [];
  }

  lemma Regroup<T>(a: multiset<T>, b: multiset<T>, c: multiset<T>)
    ensures (a + b) + c == a + (b + c)
    ensures (a + b) + c == a + (c + b)
  {
  }

  lemma TasksWithout(q: seq<Entry>, b: nat)
    requires b < |q|
    ensures Tasks(q) == Tasks(Without(q, b)) + Tasks([q[b]])
  {
    hide Tasks;
    var left, x, right := q[..b], [q[b]], q[b + 1..];
    assert q == left + (x + right);
    TasksConcat(left, right);
    TasksConcat(left, x + right);
    TasksConcat(x, right);
    Regroup(Tasks(left), Tasks(right), Tasks(x));
  }

  lemma DoConserves(s: QueueState, op: Op)
    ensures Tasks(Do(s, op).pulled) + Tasks(Do(s, op).queue)
         == Tasks(s.pulled) + Tasks(s.queue) + (if op.Submit? then multiset{(op.id, op.priority)} else multiset{})
  {
    hide Tasks, Best;
    var p, q := Tasks(s.pulled), Tasks(s.queue);
    if op.Submit? {
      var e := Entry(-op.priority, s.next, op.id);
      TasksConcat(s.queue, [e]);
      TasksOne(e);
      Regroup(p, q, Tasks([e]));
    } else if s.queue != [] {
      var b := Best(s.queue);
      TasksWithout(s.queue, b);
      TasksConcat(s.pulled, [s.queue[b]]);
      Regroup(p, Tasks([s.queue[b]]), Tasks(Without(s.queue, b)));
    }
  }

  /** Nothing is lost or invented: what was pulled and what still waits is what was submitted. */
  lemma {:induction false} QueueConservation(ops: seq<Op>)
    ensures Tasks(DoAll(ops).pulled) + Tasks(DoAll(ops).queue) == Submitted(ops)
  {
    if ops != [] {
      QueueConservation(ops[..|ops| - 1]);
      DoConserves(DoAll(ops[..|ops| - 1]), ops[|ops| - 1]);
    }
  }
}
