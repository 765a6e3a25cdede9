/** Comparators and the value-level theory of binary heaps (queue/heaps.go).
    A heap is looked at here as a sequence of message values; the mutable heap
    in Heaps keeps such a sequence as its ghost image. */
module HeapOrder {
  import opened Msgs

  /** The three comparators a heap can be built with. */
  datatype Order = ByArrival(mode: Mode) | ByVisibleAt | ByLeaseExpiry
  {
    predicate Less(a: Msg, b: Msg) {
      match this
      case ByArrival(mode) =>
        if a.priority != b.priority then a.priority > b.priority
        else if mode == LIFO then a.seqNo > b.seqNo
        else a.seqNo < b.seqNo
      case ByVisibleAt => a.visibleAt < b.visibleAt
      case ByLeaseExpiry => a.leaseExpiry < b.leaseExpiry
    }
  }

  function Parent(i: nat): nat {
    if i == 0 then 0 else (i - 1) / 2
  }

  function Swapped<T>(s: seq<T>, i: nat, j: nat): seq<T>
    requires i < |s| && j < |s|
  {
    s[i := s[j]][j := s[i]]
  }

  /** Slot k is not smaller than its parent. */
  ghost predicate Edge(order: Order, ks: seq<Msg>, k: nat)
    requires k < |ks|
  {
    !order.Less(ks[k], ks[Parent(k)])
  }

  /** The first n slots form a heap. */
  ghost predicate HeapTo(order: Order, ks: seq<Msg>, n: nat)
    requires n <= |ks|
  {
    forall k :: 0 < k < n ==> Edge(order, ks, k)
  }

  /** The children of slot i are not smaller than the parent of slot i. */
  ghost predicate Grandparent(order: Order, ks: seq<Msg>, n: nat, i: nat)
    requires i < n <= |ks|
  {
    0 < i ==> forall k :: 0 < k < n && Parent(k) == i ==> !order.Less(ks[k], ks[Parent(i)])
  }

  /** A heap but for the edge above slot i. */
  ghost predicate HeapButUp(order: Order, ks: seq<Msg>, n: nat, i: nat)
    requires i < n <= |ks|
  {
    && (forall k :: 0 < k < n && k != i ==> Edge(order, ks, k))
    && Grandparent(order, ks, n, i)
  }

  /** A heap but for the edges around slot i. */
  ghost predicate HeapBut(order: Order, ks: seq<Msg>, n: nat, i: nat)
    requires i < n <= |ks|
  {
    && (forall k :: 0 < k < n && k != i && Parent(k) != i ==> Edge(order, ks, k))
    && Grandparent(order, ks, n, i)
  }

  ghost predicate LeastChild(order: Order, ks: seq<Msg>, n: nat, i: nat, j: nat)
    requires i < n <= |ks|
  {
    && i < j < n && Parent(j) == i
    && forall k :: 0 < k < n && Parent(k) == i ==> !order.Less(ks[k], ks[j])
  }

  lemma UpStep(order: Order, ks: seq<Msg>, n: nat, j: nat)
    requires 0 < j < n <= |ks|
    requires HeapButUp(order, ks, n, j)
    requires order.Less(ks[j], ks[Parent(j)])
    ensures HeapButUp(order, Swapped(ks, Parent(j), j), n, Parent(j))
  {
    var p, out := Parent(j), Swapped(ks, Parent(j), j);
    forall k | 0 < k < n && k != p
      ensures Edge(order, out, k)
    {
      assert k != j ==> Edge(order, ks, k);
    }
    if 0 < p {
      assert Edge(order, ks, p);
      forall k | 0 < k < n && Parent(k) == p
        ensures !order.Less(out[k], out[Parent(p)])
      {
        assert k != j ==> Edge(order, ks, k);
      }
    }
  }

  lemma DownStep(order: Order, ks: seq<Msg>, n: nat, i: nat, j: nat)
    requires i < n <= |ks|
    requires HeapBut(order, ks, n, i)
    requires LeastChild(order, ks, n, i, j)
    requires order.Less(ks[j], ks[i])
    ensures HeapBut(order, Swapped(ks, i, j), n, j)
    ensures Edge(order, Swapped(ks, i, j), j)
  {
    var out := Swapped(ks, i, j);
    forall k | 0 < k < n && k != j && Parent(k) != j
      ensures Edge(order, out, k)
    {
      assert k != i && Parent(k) != i ==> Edge(order, ks, k);
    }
    forall k | 0 < k < n && Parent(k) == j
      ensures !order.Less(out[k], out[Parent(j)])
    {
      assert Edge(order, ks, k);
    }
  }

  /** When the least child is not smaller than slot i, no child is. */
  lemma ChildrenFit(order: Order, ks: seq<Msg>, n: nat, i: nat, j: nat)
    requires i < n <= |ks| && HeapBut(order, ks, n, i)
    requires LeastChild(order, ks, n, i, j) && !order.Less(ks[j], ks[i])
    ensures HeapButUp(order, ks, n, i)
  {
    forall k | 0 < k < n && k != i
      ensures Edge(order, ks, k)
    {
      if Parent(k) == i {
        assert !order.Less(ks[k], ks[j]);
      }
    }
  }

  lemma HeapFront(order: Order, ks: seq<Msg>)
    requires |ks| > 0 && HeapTo(order, ks, |ks| - 1)
    ensures HeapTo(order, ks[..|ks| - 1], |ks| - 1)
  {
    var front := ks[..|ks| - 1];
    forall k | 0 < k < |front|
      ensures Edge(order, front, k)
    {
      assert Edge(order, ks, k);
    }
  }

  /** A value appended to a heap can only be wrong about its parent. */
  lemma AppendBreaksUp(order: Order, ks: seq<Msg>, m: Msg)
    requires HeapTo(order, ks, |ks|)
    ensures HeapButUp(order, ks + [m], |ks| + 1, |ks|)
  {
    forall k | 0 < k < |ks|
      ensures Edge(order, ks + [m], k)
    {
      assert Edge(order, ks, k);
    }
  }

  /** ks and out agree on the first n slots but for slot i. */
  ghost predicate SameBut(ks: seq<Msg>, out: seq<Msg>, n: nat, i: nat) {
    n <= |ks| == |out| && forall k :: 0 <= k < n && k != i ==> out[k] == ks[k]
  }

  /** Any value written over slot i breaks the heap around slot i only. */
  lemma OverwriteBreaks(order: Order, ks: seq<Msg>, n: nat, i: nat, out: seq<Msg>)
    requires i < n && SameBut(ks, out, n, i) && HeapTo(order, ks, n)
    ensures HeapBut(order, out, n, i)
  {
    forall k | 0 < k < n && k != i && Parent(k) != i
      ensures Edge(order, out, k)
    {
      assert Edge(order, ks, k);
    }
    if 0 < i {
      assert Edge(order, ks, i);
      forall k | 0 < k < n && Parent(k) == i
        ensures !order.Less(out[k], out[Parent(i)])
      {
        assert Edge(order, ks, k);
      }
    }
  }

  /** The root of a heap is a least element. */
  lemma {:induction false} RootLeast(order: Order, ks: seq<Msg>, n: nat, k: nat)
    requires k < n <= |ks|
    requires HeapTo(order, ks, n)
    ensures !order.Less(ks[k], ks[0])
  {
    if k > 0 {
      RootLeast(order, ks, n, Parent(k));
      assert Edge(order, ks, k);
    }
  }
}
