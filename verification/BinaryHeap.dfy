/**
 The binary heap behind the backend's list of pending entries: heappush and heappop with
 the sift procedures of the Python standard library.
 */
module BinaryHeap {
  import opened PriorityOrder

  function Parent(i: nat): nat
    requires i > 0
  {
    (i - 1) / 2
  }

  /** No entry precedes its parent. */
  ghost predicate IsHeap(h: seq<Entry>) {
    forall i :: 0 < i < |h| ==> !Less(h[i], h[Parent(i)])
  }

  /** A heap whose position pos is a hole: every pair that avoids the hole is in order, and the
      children of the hole are in order with its parent. */
  ghost predicate HoleHeap(h: seq<Entry>, pos: nat) {
    && pos < |h|
    && (forall i :: 0 < i < |h| && i != pos && Parent(i) != pos ==> !Less(h[i], h[Parent(i)]))
    && (forall i :: 0 < i < |h| && Parent(i) == pos && pos > 0 ==> !Less(h[i], h[Parent(pos)]))
  }

  lemma {:induction false} RootIsFirst(h: seq<Entry>, i: nat)
    requires IsHeap(h) && i < |h|
    ensures !Less(h[i], h[0])
  {
    if i > 0 { RootIsFirst(h, Parent(i)); }
  }

  /** _siftdown: move the item in the hole towards the root until its parent precedes it. */
  method SiftDown(heap: seq<Entry>, hole: nat, item: Entry) returns (h: seq<Entry>)
    requires HoleHeap(heap, hole)
    requires forall i :: 0 < i < |heap| && Parent(i) == hole ==> !Less(heap[i], item)
    ensures IsHeap(h) && |h| == |heap|
    ensures multiset(h) == multiset(heap[hole := item])
  {
    h := heap;
    var pos := hole;
    while pos > 0
      invariant |h| == |heap| && HoleHeap(h, pos)
      invariant forall i :: 0 < i < |h| && Parent(i) == pos ==> !Less(h[i], item)
      invariant multiset(h[pos := item]) == multiset(heap[hole := item])
    {
      var parent := Parent(pos);
      if !Less(item, h[parent]) { break; }
      SwapHole(h, pos, parent, item);
      h := h[pos := h[parent]];
      pos := parent;
    }
    h := h[pos := item];
  }

  /** Moving a value into the hole makes its old position the hole. */
  lemma SwapHole(h: seq<Entry>, pos: nat, other: nat, item: Entry)
    requires pos < |h| && other < |h|
    ensures multiset(h[pos := h[other]][other := item]) == multiset(h[pos := item])
  {
  }

  /** Filling the hole from its smaller child moves the hole there. */
  lemma MoveHole(h: seq<Entry>, pos: nat, child: nat)
    requires HoleHeap(h, pos) && (child == 2 * pos + 1 || child == 2 * pos + 2) && child < |h|
    requires 2 * pos + 1 < |h| && !Less(h[2 * pos + 1], h[child])
    requires 2 * pos + 2 < |h| ==> !Less(h[2 * pos + 2], h[child])
    ensures HoleHeap(h[pos := h[child]], child)
  {
    var g := h[pos := h[child]];
    forall i | 0 < i < |g| && i != child && Parent(i) != child ensures !Less(g[i], g[Parent(i)]) {
      AwayFromHole(h, pos, child, i);
    }
    forall i | 0 < i < |g| && Parent(i) == child ensures !Less(g[i], g[Parent(child)]) {
      assert !Less(h[i], h[child]);
    }
  }

  lemma AwayFromHole(h: seq<Entry>, pos: nat, child: nat, i: nat)
    requires HoleHeap(h, pos) && (child == 2 * pos + 1 || child == 2 * pos + 2) && child < |h|
    requires 2 * pos + 1 < |h| && !Less(h[2 * pos + 1], h[child])
    requires 2 * pos + 2 < |h| ==> !Less(h[2 * pos + 2], h[child])
    requires 0 < i < |h| && i != child && Parent(i) != child
    ensures var g := h[pos := h[child]]; !Less(g[i], g[Parent(i)])
  {
  }

  /** _siftup: move the hole at the root down to a leaf along the smaller children, put the
      item there and let it rise. */
  method SiftUp(heap: seq<Entry>, item: Entry) returns (h: seq<Entry>)
    requires heap != [] && HoleHeap(heap, 0)
    ensures IsHeap(h) && |h| == |heap|
    ensures multiset(h) == multiset(heap[0 := item])
  {
    hide HoleHeap;
    h := heap;
    var pos := 0;
    var child := 1;
    while child < |h|
      invariant |h| == |heap| && pos < |h| && HoleHeap(h, pos) && child == 2 * pos + 1
      invariant multiset(h[pos := item]) == multiset(heap[0 := item])
      decreases |h| - pos
    {
      var right := child + 1;
      if right < |h| && !Less(h[child], h[right]) { child := right; }
      SwapHole(h, pos, child, item);
      MoveHole(h, pos, child);
      h := h[pos := h[child]];
      pos := child;
      child := 2 * pos + 1;
    }
    h := SiftDown(h, pos, item);
  }

  method HeapPush(heap: seq<Entry>, item: Entry) returns (h: seq<Entry>)
    requires IsHeap(heap)
    ensures IsHeap(h) && multiset(h) == multiset(heap) + multiset{item}
  {
    var grown := heap + [item];
    assert grown[|heap| := item] == grown;
    h := SiftDown(grown, |heap|, item);
  }

  method HeapPop(heap: seq<Entry>) returns (first: Entry, h: seq<Entry>)
    requires IsHeap(heap) && heap != []
    ensures IsHeap(h) && multiset(heap) == multiset(h) + multiset{first}
    ensures forall e :: e in heap ==> !Less(e, first)
  {
    forall i | 0 <= i < |heap| ensures !Less(heap[i], heap[0]) { RootIsFirst(heap, i); }
    var last := heap[|heap| - 1];
    h := heap[..|heap| - 1];
    assert heap == h + [last];
    first := last;
    if h != [] {
      first := h[0];
      SwapRoot(h, last);
      h := SiftUp(h, last);
    }
  }

  lemma SwapRoot(h: seq<Entry>, last: Entry)
    requires h != []
    ensures multiset(h[0 := last]) + multiset{h[0]} == multiset(h + [last])
  {
  }
}
