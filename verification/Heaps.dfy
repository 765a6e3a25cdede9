/** The mutable binary heap with cached slots (queue/heaps.go), together with
    the sift loops of Go's container/heap that drive it. */
module Heaps {
  import opened Msgs
  import opened HeapOrder

  /** A message in memory: what a *Msg points to. Heaps, the lease table and the
      dead letter list share these objects. */
  class MsgRef {
    ghost const id: Id  // the ID its message keeps for life
    var msg: Msg
    var index: int

    constructor (m: Msg)
      ensures msg == m && id == m.id
    {
      id := m.id;
      msg := m;
      index := 0;
    }
  }

  class MsgHeap {
    const order: Order
    var items: seq<MsgRef>
    ghost var keys: seq<Msg>            // the values in items
    ghost var contents: set<MsgRef>     // the objects in items
    ghost var byId: map<Id, MsgRef>     // the objects in items, by message ID
    ghost var view: map<Id, Msg>        // the messages held, by ID

    /** Every message's index names its own slot, and keys mirrors the values. */
    ghost predicate Slots()
      reads this`items, this`keys, this`contents, contents
    {
      && |keys| == |items|
      && (forall i :: 0 <= i < |items| ==>
            items[i] in contents && items[i].index == i && items[i].msg == keys[i])
      && (forall o :: o in contents ==> 0 <= o.index < |items| && items[o.index] == o)
    }

    /** byId lists exactly the messages of c, under their own IDs. */
    static ghost predicate Named(byId: map<Id, MsgRef>, c: set<MsgRef>) {
      && (forall o :: o in c ==> o.id in byId && byId[o.id] == o)
      && (forall id :: id in byId ==> byId[id] in c && byId[id].id == id)
    }

    static lemma NamedAdd(byId: map<Id, MsgRef>, c: set<MsgRef>, m: MsgRef)
      requires Named(byId, c) && m.id !in byId
      ensures Named(byId[m.id := m], c + {m})
    {
    }

    static lemma NamedRemove(byId: map<Id, MsgRef>, c: set<MsgRef>, m: MsgRef)
      requires Named(byId, c) && m in c
      ensures Named(byId - {m.id}, c - {m})
    {
    }

    /** view shows the current value of every message held. */
    ghost predicate Viewed()
      reads this`contents, this`byId, this`view, contents`msg
    {
      && view.Keys == byId.Keys
      && (forall o :: o in contents ==> o.msg.id == o.id && o.id in view && view[o.id] == o.msg)
    }

    ghost predicate Valid()
      reads this, contents
    {
      Slots() && HeapTo(order, keys, |keys|) && Named(byId, contents) && Viewed()
    }

    constructor (order: Order)
      ensures Valid() && view == map[] && contents == {} && this.order == order
    {
      this.order := order;
      items, keys, contents, byId, view := [], [], {}, map[], map[];
    }

    method Swap(i: nat, j: nat)
      requires Slots() && i < |items| && j < |items|
      modifies this`items, this`keys, contents`index
      ensures Slots()
      ensures items == Swapped(old(items), i, j)
      ensures keys == Swapped(old(keys), i, j)
    {
      items := items[i := items[j]][j := items[i]];
      items[i].index := i;
      items[j].index := j;
      keys := keys[i := keys[j]][j := keys[i]];
    }

    /** Sift slot j towards the root until its parent is not larger. */
    method Up(j0: nat, ghost n: nat)
      requires Slots() && j0 < n <= |items|
      requires HeapButUp(order, keys, n, j0)
      modifies this`items, this`keys, contents`index
      ensures |items| == old(|items|) && items[n..] == old(items[n..])
      ensures Slots() && HeapTo(order, keys, n)
    {
      var j: nat := j0;
      while j > 0 && order.Less(items[j].msg, items[Parent(j)].msg)
        invariant Slots() && j < n
        invariant |items| == old(|items|) && items[n..] == old(items[n..])
        invariant HeapButUp(order, keys, n, j)
        decreases j
      {
        UpStep(order, keys, n, j);
        Swap(Parent(j), j);
        j := Parent(j);
      }
      if j > 0 {
        assert Edge(order, keys, j);
      }
    }

    /** The child of slot i that sifting compares with. */
    method SmallerChild(i: nat, n: nat) returns (j: nat)
      requires Slots() && 2 * i + 1 < n <= |items|
      ensures LeastChild(order, keys, n, i, j)
    {
      j := 2 * i + 1;
      if j + 1 < n && order.Less(items[j + 1].msg, items[j].msg) {
        j := j + 1;
      }
    }

    /** One round of sifting down: stop at i, or exchange it with its smaller child j. */
    method DownOnce(i: nat, n: nat) returns (stop: bool, j: nat)
      requires Slots() && 2 * i + 1 < n <= |items|
      requires HeapBut(order, keys, n, i)
      modifies this`items, this`keys, contents`index
      ensures Slots() && |items| == old(|items|) && items[n..] == old(items[n..])
      ensures stop ==> j == i && HeapButUp(order, keys, n, i) && keys == old(keys)
      ensures !stop ==> i < j < n && HeapBut(order, keys, n, j) && Edge(order, keys, j)
    {
      j := SmallerChild(i, n);
      stop := !order.Less(items[j].msg, items[i].msg);
      if stop {
        ChildrenFit(order, keys, n, i, j);
        j := i;
      } else {
        DownStep(order, keys, n, i, j);
        Swap(i, j);
      }
    }

    /** Sift slot i0 down within the first n slots; tell whether it moved. */
    method Down(i0: nat, n: nat) returns (moved: bool)
      requires Slots() && i0 < n <= |items|
      requires HeapBut(order, keys, n, i0)
      modifies this`items, this`keys, contents`index
      ensures Slots() && |items| == old(|items|) && items[n..] == old(items[n..])
      ensures if moved then HeapTo(order, keys, n) else HeapButUp(order, keys, n, i0)
    {
      var i, stop := i0, false;
      while !stop && 2 * i + 1 < n
        invariant Slots() && i0 <= i < n
        invariant |items| == old(|items|) && items[n..] == old(items[n..])
        invariant if stop then HeapButUp(order, keys, n, i) else HeapBut(order, keys, n, i)
        invariant i > i0 ==> Edge(order, keys, i)
        decreases n - i, !stop
      {
        stop, i := DownOnce(i, n);
      }
      moved := i > i0;
    }

    /** Restore the order around slot i of the first n, as Fix and Remove do. */
    method Sift(i: nat, n: nat)
      requires Slots() && i < n <= |items|
      requires HeapBut(order, keys, n, i)
      modifies this`items, this`keys, contents`index
      ensures |items| == old(|items|) && items[n..] == old(items[n..])
      ensures Slots() && HeapTo(order, keys, n)
    {
      var moved := Down(i, n);
      if !moved {
        Up(i, n);
      }
    }

    /** msgHeap.Push: append without restoring the order. */
    method Append(m: MsgRef)
      requires Slots() && m !in contents
      modifies this`items, this`keys, this`contents, m`index
      ensures Slots() && contents == old(contents) + {m}
      ensures items == old(items) + [m] && keys == old(keys) + [m.msg]
    {
      m.index := |items|;
      items := items + [m];
      keys := keys + [m.msg];
      contents := contents + {m};
    }

    /** msgHeap.Pop: detach the last slot. */
    method DropLast() returns (m: MsgRef)
      requires Slots() && |items| > 0
      modifies this`items, this`keys, this`contents, contents`index
      ensures Slots() && contents == old(contents) - {m}
      ensures m == old(items[|items| - 1]) && m in old(contents) && m.index == -1
      ensures items == old(items[..|items| - 1]) && keys == old(keys[..|keys| - 1])
    {
      m := items[|items| - 1];
      m.index := -1;
      contents := contents - {m};
      items := items[..|items| - 1];
      keys := keys[..|keys| - 1];
    }

    /** The cached index of a held message leads to it, and the view shows it. */
    lemma SlotOf(m: MsgRef)
      requires Valid() && m in contents
      ensures 0 <= m.index < |items| && items[m.index] == m
      ensures m.msg.id == m.id && m.id in view && view[m.id] == m.msg
    {
    }

    /** heap.Push on the slots: append, then sift up. */
    method PushSlot(m: MsgRef)
      requires Slots() && HeapTo(order, keys, |keys|) && m !in contents
      modifies this`items, this`keys, this`contents, m`index, contents`index
      ensures Slots() && HeapTo(order, keys, |keys|)
      ensures contents == old(contents) + {m}
    {
      AppendBreaksUp(order, keys, m.msg);
      Append(m);
      Up(|items| - 1, |items|);
    }

    /** Bring slot i to the end and restore the order of the slots before it. */
    method MoveToEnd(i: nat)
      requires Slots() && HeapTo(order, keys, |keys|) && i < |items|
      modifies this`items, this`keys, contents`index
      ensures |items| == old(|items|) && items[|items| - 1] == old(items[i])
      ensures Slots() && HeapTo(order, keys, |keys| - 1)
    {
      var n := |items| - 1;
      if n != i {
        Swap(i, n);
        OverwriteBreaks(order, old(keys), n, i, keys);
        Sift(i, n);
        assert items[n..][0] == old(items[i]);
      }
    }

    /** heap.Remove on the slots. */
    method RemoveSlot(i: nat) returns (m: MsgRef)
      requires Slots() && HeapTo(order, keys, |keys|) && i < |items|
      modifies this`items, this`keys, this`contents, contents`index
      ensures Slots() && HeapTo(order, keys, |keys|)
      ensures m == old(items[i]) && m in old(contents) && m.index == -1
      ensures contents == old(contents) - {m}
    {
      MoveToEnd(i);
      HeapFront(order, keys);
      m := DropLast();
    }

    /** heap.Push */
    method Push(m: MsgRef)
      requires Valid() && m !in contents && m.msg.id == m.id && m.id !in view
      modifies this`items, this`keys, this`contents, this`byId, this`view, m`index, contents`index
      ensures Valid() && contents == old(contents) + {m}
      ensures view == old(view)[m.id := m.msg]
    {
      hide HeapTo, Slots, Named;
      NamedAdd(byId, contents, m);
      byId := byId[m.id := m];
      view := view[m.id := m.msg];
      PushSlot(m);
    }

    /** heap.Remove: detach the message in slot i. */
    method Remove(i: nat) returns (m: MsgRef)
      requires Valid() && i < |items|
      modifies this`items, this`keys, this`contents, this`byId, this`view, contents`index
      ensures Valid() && m == old(items[i]) && m in old(contents) && m.index == -1
      ensures contents == old(contents) - {m} && view == old(view) - {m.id}
    {
      NamedRemove(byId, contents, items[i]);
      byId := byId - {items[i].id};
      view := view - {items[i].id};
      m := RemoveSlot(i);
    }

    /** heap.Pop: detach the root, which no message held precedes. */
    method Pop() returns (m: MsgRef)
      requires Valid() && |items| > 0
      modifies this`items, this`keys, this`contents, this`byId, this`view, contents`index
      ensures Valid() && m == old(items[0]) && m in old(contents) && m.index == -1
      ensures contents == old(contents) - {m} && view == old(view) - {m.id}
      ensures forall id :: id in old(view) ==> !order.Less(old(view)[id], m.msg)
    {
      hide Slots, HeapTo, Named, Viewed, Order.Less;
      var root := Peek();
      m := Remove(0);
    }

    /** Like Valid, except that the message in slot i has a new key. */
    ghost predicate ValidBut(i: nat)
      reads this, contents
    {
      && i < |items| == |keys| && HeapTo(order, keys, |keys|)
      && Named(byId, contents) && view.Keys == byId.Keys
      && (forall k :: 0 <= k < |items| ==> items[k] in contents && items[k].index == k)
      && (forall k :: 0 <= k < |items| && k != i ==> items[k].msg == keys[k])
      && (forall o :: o in contents ==> 0 <= o.index < |items| && items[o.index] == o)
      && (forall o :: o in contents ==> o.msg.id == o.id && (o != items[i] ==> view[o.id] == o.msg))
    }

    /** Overwrite the value of a held message; only its own key may be out of order. */
    method ChangeMsg(m: MsgRef, value: Msg)
      requires Valid() && m in contents && value.id == m.id
      modifies m`msg
      ensures m.index >= 0 && ValidBut(m.index) && items[m.index] == m && m.msg == value
    {
      m.msg := value;
    }

    /** Record the new key of slot i in the ghost tables. */
    ghost method Rekey(i: nat)
      requires ValidBut(i)
      modifies this`keys, this`view
      ensures Slots() && Viewed() && HeapBut(order, keys, |keys|, i)
      ensures view == old(view)[items[i].id := items[i].msg]
    {
      hide HeapTo, HeapBut, Order.Less;
      OverwriteBreaks(order, keys, |keys|, i, keys[i := items[i].msg]);
      keys := keys[i := items[i].msg];
      view := view[items[i].id := items[i].msg];
    }

    /** heap.Fix: restore the order after the message in slot i changed its key. */
    method Fix(i: nat)
      requires ValidBut(i)
      modifies this`items, this`keys, this`view, contents`index
      ensures Valid() && view == old(view)[old(items[i]).id := old(items[i]).msg]
    {
      hide HeapTo, HeapBut, Order.Less;
      Rekey(i);
      Sift(i, |items|);
    }

    /** peek: the root without removing it. */
    method Peek() returns (m: MsgRef?)
      requires Valid()
      ensures m == null <==> view == map[]
      ensures m != null ==> |items| > 0 && m == items[0] && m in contents && m.id in view && view[m.id] == m.msg
      ensures m != null ==> forall id :: id in view ==> !order.Less(view[id], m.msg)
    {
      if |items| == 0 {
        return null;
      }
      m := items[0];
      forall id | id in view
        ensures !order.Less(view[id], m.msg)
      {
        RootLeast(order, keys, |keys|, byId[id].index);
      }
    }
  }
}
