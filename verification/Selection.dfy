/** Which messages a receive must return: the first of all eligible ones in the
    queue's order (queue/heaps.go:77-87, queue/queue.go:238-310). */
module Selection {
  import opened Msgs
  import opened HeapOrder
  import opened Partition
  import opened Sequences

  /** Distinct sequence numbers make the ready order strict and total. */
  lemma ReadyOrderIsTotal(order: Order, from: map<Id, Msg>, a: Id, b: Id)
    requires order.ByArrival? && DistinctSeq(from) && a in from && b in from && a != b
    ensures order.Less(from[a], from[b]) <==> !order.Less(from[b], from[a])
  {
    assert from[a].seqNo != from[b].seqNo;
  }

  /** all lists the messages of from, each once, in order. */
  ghost predicate Sorting(all: seq<Msg>, from: map<Id, Msg>, order: Order) {
    && (forall i, j :: 0 <= i < j < |all| ==> order.Less(all[i], all[j]))
    && (forall i :: 0 <= i < |all| ==> all[i].id in from && from[all[i].id] == all[i])
    && (forall id :: id in from ==> from[id] in all)
  }

  /** out was taken from the front of from's order, and rest is left. */
  ghost predicate Taken(out: seq<Msg>, from: map<Id, Msg>, rest: map<Id, Msg>, order: Order) {
    && (forall i, j :: 0 <= i < j < |out| ==> order.Less(out[i], out[j]))
    && (forall i :: 0 <= i < |out| ==> out[i].id in from && from[out[i].id] == out[i] && out[i].id !in rest)
    && (forall id :: id in rest ==> id in from && rest[id] == from[id])
    && (forall id :: id in from && id !in rest ==> from[id] in out)
    && (forall i, id :: 0 <= i < |out| && id in rest ==> order.Less(out[i], rest[id]))
  }

  lemma TakenNothing(from: map<Id, Msg>, order: Order)
    ensures Taken([], from, from, order)
  {
  }

  lemma TakeNext(out: seq<Msg>, from: map<Id, Msg>, rest: map<Id, Msg>, order: Order, m: Msg)
    requires Taken(out, from, rest, order) && order.ByArrival? && DistinctSeq(from) && Keyed(from)
    requires m.id in rest && rest[m.id] == m && forall id :: id in rest ==> !order.Less(rest[id], m)
    ensures Taken(out + [m], from, rest - {m.id}, order)
  {
    forall id | id in rest && id != m.id
      ensures order.Less(m, rest[id])
    {
      ReadyOrderIsTotal(order, from, id, m.id);
    }
  }

  /** a goes out before b: a higher priority first, and among equals the older message
      first, or the newer one under LIFO. */
  ghost predicate Precedes(mode: Mode, a: Msg, b: Msg) {
    || a.priority > b.priority
    || (a.priority == b.priority && (if mode == "lifo" then a.seqNo > b.seqNo else a.seqNo < b.seqNo))
  }

  /** What was taken is in this order, and precedes all that is left. */
  lemma TakenInOrder(out: seq<Msg>, from: map<Id, Msg>, rest: map<Id, Msg>, mode: Mode)
    requires Taken(out, from, rest, ByArrival(mode))
    ensures forall i, j :: 0 <= i < j < |out| ==> Precedes(mode, out[i], out[j])
    ensures forall i, id :: 0 <= i < |out| && id in rest ==> Precedes(mode, out[i], rest[id])
  {
  }

  lemma Asymmetric(order: Order, a: Msg, b: Msg)
    ensures order.Less(a, b) ==> !order.Less(b, a)
  {
  }

  /** If all but the last one taken start the sorted whole, the last one is next. */
  lemma LastFits(out: seq<Msg>, from: map<Id, Msg>, rest: map<Id, Msg>, order: Order, all: seq<Msg>, n: nat)
    requires Taken(out, from, rest, order) && Sorting(all, from, order)
    requires |out| == n + 1 && n <= |all| && out[..n] == all[..n]
    ensures n < |all| && all[n] == out[n]
  {
    hide Order.Less;
    var m := out[n];
    var k :| 0 <= k < |all| && all[k] == m;
    if k < n {
      assert out[k] == all[k];
      Asymmetric(order, m, m);
      assert false;
    }
    if k > n {
      var x := all[n];
      Asymmetric(order, x, m);
      assert order.Less(x, m);
      AmongTaken(out, from, rest, order, x);
      var i :| 0 <= i < |out| && out[i] == x;
      assert i < n && all[i] == out[i];
      Asymmetric(order, x, x);
      assert false;
    }
  }

  /** What precedes something taken was taken. */
  lemma AmongTaken(out: seq<Msg>, from: map<Id, Msg>, rest: map<Id, Msg>, order: Order, x: Msg)
    requires Taken(out, from, rest, order) && x.id in from && from[x.id] == x
    requires exists i :: 0 <= i < |out| && order.Less(x, out[i])
    ensures x in out
  {
    var i :| 0 <= i < |out| && order.Less(x, out[i]);
    Asymmetric(order, x, out[i]);
    hide Order.Less;
  }

  /** What was taken is a prefix of the sorted whole: there is no other answer. */
  lemma {:induction false} TakenIsPrefix(out: seq<Msg>, from: map<Id, Msg>, rest: map<Id, Msg>, order: Order,
                                         all: seq<Msg>)
    requires Taken(out, from, rest, order) && Sorting(all, from, order) && Keyed(from)
    ensures |out| <= |all| && out == all[..|out|]
  {
    hide Taken, Sorting;
    if out != [] {
      var n := |out| - 1;
      TakenFront(out, from, rest, order);
      TakenIsPrefix(out[..n], from, rest[out[n].id := out[n]], order, all);
      LastFits(out, from, rest, order, all, n);
    }
  }

  lemma TakenFront(out: seq<Msg>, from: map<Id, Msg>, rest: map<Id, Msg>, order: Order)
    requires Taken(out, from, rest, order) && out != [] && Keyed(from)
    ensures var n := |out| - 1; Taken(out[..n], from, rest[out[n].id := out[n]], order)
  {
    hide Order.Less;
    var n := |out| - 1;
    var front, more := out[..n], rest[out[n].id := out[n]];
    Asymmetric(order, out[n], out[n]);
    forall id | id in from && id !in more
      ensures from[id] in front
    {
      var i :| 0 <= i < |out| && out[i] == from[id];
      assert i != n;
      assert front[i] == from[id];
    }
    forall i | 0 <= i < |front|
      ensures front[i].id != out[n].id
    {
      assert order.Less(out[i], out[n]);
    }
  }

  /** Taking until n are out or none is left gives the first n of the sorted
      whole, or the whole. */
  lemma FirstOfSorted(out: seq<Msg>, from: map<Id, Msg>, rest: map<Id, Msg>, order: Order, all: seq<Msg>, n: nat)
    requires Taken(out, from, rest, order) && Sorting(all, from, order) && Keyed(from)
    requires |out| <= n && (|out| == n || rest == map[])
    ensures out == if n <= |all| then all[..n] else all
  {
    hide Order.Less;
    TakenIsPrefix(out, from, rest, order, all);
    if rest == map[] && |out| < |all| {
      NextIsNew(out, from, order, all);
      NoneIsLeft(out, from, order, all[|out|]);
    }
  }

  lemma NoneIsLeft(out: seq<Msg>, from: map<Id, Msg>, order: Order, m: Msg)
    requires Taken(out, from, map[], order) && m.id in from && from[m.id] == m
    ensures m in out
  {
  }

  lemma NextIsNew(out: seq<Msg>, from: map<Id, Msg>, order: Order, all: seq<Msg>)
    requires Sorting(all, from, order) && |out| < |all| && out == all[..|out|]
    ensures all[|out|] !in out
  {
    forall i | 0 <= i < |out|
      ensures out[i] != all[|out|]
    {
      assert order.Less(all[i], all[|out|]);
      Asymmetric(order, all[i], all[|out|]);
    }
  }

  /** Draining leaves the sorted whole behind, so there is exactly one. */
  lemma DrainedIsSorted(out: seq<Msg>, from: map<Id, Msg>, order: Order, all: seq<Msg>)
    requires Taken(out, from, map[], order) && Keyed(from)
    ensures Sorting(out, from, order) && (Sorting(all, from, order) ==> all == out)
  {
    if Sorting(all, from, order) {
      FirstOfSorted(out, from, map[], order, all, |out| + |all|);
    }
  }
}
