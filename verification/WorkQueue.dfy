/** sin_wi_queue on the heap: what each critical section does to the linked queue. */
module WorkQueue {
  import opened PacketLists
  import opened QueueSpec

  class WiQueue {
    var head: Pkt?
    var tail: Pkt?
    var nwait: nat
    var length: nat
    ghost var items: seq<Pkt>

    /** length is the chain length, the chain is acyclic and ends in NULL, and head, tail
        and length agree on emptiness. */
    ghost predicate Valid()
      reads this, items`sinNext
    {
      Linked(items) && head == First(items) && tail == Last(items) && length == |items|
    }

    ghost function State(): QState<Pkt>
      reads this
    {
      QState(items, nwait)
    }

    constructor ()
      ensures Valid() && State() == QState([], 0)
    {
      head, tail, nwait, length, items := null, null, 0, 0, [];
    }

    /** sin_wi_queue_put_item; signalled tells whether the condition was signalled. */
    method PutItem(wi: Pkt, maxqlen: nat) returns (rc: int, signalled: bool)
      requires Valid() && wi !in items
      modifies this, items`sinNext, wi`sinNext
      ensures Valid() && signalled == Signals(old(State()))
      ensures rc == if Rejects(old(State()), maxqlen) then -1 else 0
      ensures State() == if Rejects(old(State()), maxqlen) then old(State()) else Put(old(State()), [wi])
      ensures Rejects(old(State()), maxqlen) ==> wi.sinNext == old(wi.sinNext)
    {
      if maxqlen > 0 && length >= maxqlen {
        return -1, nwait > 0;
      }
      wi.sinNext := null;
      if head == null {
        head, tail := wi, wi;
      } else {
        tail.sinNext := wi;
        tail := wi;
      }
      length := length + 1;
      items := items + [wi];
      return 0, nwait > 0;
    }

    /** sin_wi_queue_put_items.  With nothing to put, the queue is left whole only if it was
        empty: otherwise its tail is lost. */
    method PutItems(lst: SinList) returns (signalled: bool)
      requires Valid() && lst.Valid() && forall p :: p in lst.items ==> p !in items
      modifies this, items`sinNext
      ensures signalled == Signals(old(State()))
      ensures lst.items != [] || old(items) == [] ==> Valid() && State() == Put(old(State()), lst.items)
      ensures lst.items == [] && old(items) != [] ==> head != null && tail == null
      ensures forall p :: p in old(items) && p != old(tail) ==> p.sinNext == old(p.sinNext)
      ensures forall p :: p in lst.items ==> p.sinNext == old(p.sinNext)
    {
      assert forall i :: 0 <= i < |lst.items| ==> lst.items[i] in lst.items && lst.items[i] !in items;
      if head == null {
        head, tail, length := lst.head, lst.tail, lst.len;
      } else {
        tail.sinNext := lst.head;
        tail := lst.tail;
        length := length + lst.len;
      }
      if lst.items != [] || items == [] {
        JoinLinked(items, lst.items);
      }
      items := items + lst.items;
      return nwait > 0;
    }

    /** sin_wi_queue_pump. */
    method Pump() returns (n: nat, signalled: bool)
      requires Valid()
      ensures n == nwait && signalled == Signals(State())
    {
      return nwait, nwait > 0;
    }

    /** sin_wi_queue_get_item, from entry to its wait or its return. */
    method GetItem(waitok: bool) returns (got: Got<Pkt>)
      requires Valid()
      modifies this, items`sinNext
      ensures Valid() && (State(), got) == Enter(old(State()), false, waitok)
      ensures got.Taken? ==> |got.items| == 1 && got.items[0].sinNext == null
    {
      if head == null {
        if !waitok {
          return Nothing;
        }
        nwait := nwait + 1;
        return Blocked;
      }
      got := TakeHead();
    }

    /** sin_wi_queue_get_item, after its wait has returned. */
    method WakeItem(returnOnWake: bool) returns (got: Got<Pkt>)
      requires Valid() && nwait > 0
      modifies this, items`sinNext
      ensures Valid() && (State(), got) == Wake(old(State()), false, returnOnWake)
      ensures got.Taken? ==> |got.items| == 1 && got.items[0].sinNext == null
    {
      nwait := nwait - 1;
      if head == null && returnOnWake {
        return Nothing;
      }
      got := GetItem(true);
    }

    method TakeHead() returns (got: Got<Pkt>)
      requires Valid() && items != []
      modifies this, items`sinNext
      ensures Valid() && (State(), got) == Take(old(State()), false)
      ensures |got.items| == 1 && got.items[0].sinNext == null
    {
      TailLinked(items);
      var wi := head;
      head := wi.sinNext;
      if head == null {
        tail := null;
      }
      length := length - 1;
      ghost var rest := items[1..];
      got := Taken([wi]);
      assert items[..1] == [wi];
      items := rest;
      wi.sinNext := null;
    }

    /** sin_wi_queue_get_items, from entry to its wait or its return: the taken items are
        spliced, in order, to the end of the caller's list. */
    method GetItems(lst: SinList, waitok: bool) returns (ghost got: Got<Pkt>, nadded: nat)
      requires Valid() && lst.Valid() && forall p :: p in lst.items ==> p !in items
      modifies this, lst, lst.items`sinNext
      ensures Valid() && (State(), got) == Enter(old(State()), true, waitok)
      ensures lst.Valid() && lst.items == old(lst.items) + if got.Taken? then got.items else []
      ensures nadded == if got.Taken? then |got.items| else 0
    {
      if head == null {
        if !waitok {
          return Nothing, 0;
        }
        nwait := nwait + 1;
        return Blocked, 0;
      }
      got, nadded := TakeAll(lst);
    }

    /** sin_wi_queue_get_items, after its wait has returned. */
    method WakeItems(lst: SinList, returnOnWake: bool) returns (ghost got: Got<Pkt>, nadded: nat)
      requires Valid() && nwait > 0 && lst.Valid() && forall p :: p in lst.items ==> p !in items
      modifies this, lst, lst.items`sinNext
      ensures Valid() && (State(), got) == Wake(old(State()), true, returnOnWake)
      ensures lst.Valid() && lst.items == old(lst.items) + if got.Taken? then got.items else []
      ensures nadded == if got.Taken? then |got.items| else 0
    {
      nwait := nwait - 1;
      if head == null && returnOnWake {
        return Nothing, 0;
      }
      got, nadded := GetItems(lst, true);
    }

    method TakeAll(lst: SinList) returns (ghost got: Got<Pkt>, nadded: nat)
      requires Valid() && items != [] && lst.Valid() && forall p :: p in lst.items ==> p !in items
      modifies this, lst, lst.items`sinNext
      ensures Valid() && (State(), got) == Take(old(State()), true)
      ensures lst.Valid() && lst.items == old(lst.items) + got.items && nadded == |got.items|
    {
      assert forall i :: 0 <= i < |lst.items| ==> lst.items[i] in lst.items && lst.items[i] !in items;
      if lst.head == null {
        lst.head, lst.tail := head, tail;
        lst.len, nadded := length, length;
      } else {
        lst.tail.sinNext := head;
        lst.tail := tail;
        lst.len := lst.len + length;
        nadded := length;
      }
      JoinLinked(lst.items, items);
      got := Taken(items);
      assert items[..|items|] == items && items[|items|..] == [];
      lst.items := lst.items + items;
      length, head, tail, items := 0, null, null, [];
    }
  }

  /** A queue whose head is set and whose tail is NULL is the state of no queue contents:
      putting an empty list on a queue that holds something breaks it. */
  lemma LostTail(q: WiQueue)
    requires q.head != null && q.tail == null
    ensures !q.Valid()
  {}
}
