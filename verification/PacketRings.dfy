/** Rings on the heap: dequeue_pkts and spin_ring on the receive side, advance_tx_ring on the
    transmit side. */
module PacketRings {
  import opened Octets
  import opened Circular
  import opened PacketLists

  /** A netmap ring, its slots, the buffers of its memory region by index, and the packet
      objects made for its slots. */
  class Ring {
    const numSlots: nat
    var head: nat
    var cur: nat
    var tail: nat
    const slots: seq<NetmapSlot>
    const netmapBuf: seq<array<Byte>>
    const pmap: seq<Pkt>

    ghost predicate Valid()
      reads this
    {
      && OnRing(numSlots, head) && OnRing(numSlots, cur) && OnRing(numSlots, tail)
      && |pmap| == numSlots && Distinct(pmap)
    }

    /** Each packet knows its index in the zone, and its slot.  Fixed once the ring is made. */
    ghost predicate Mapped() {
      |slots| == |pmap| && forall i :: 0 <= i < |pmap| ==> pmap[i].zoneIdx == i && pmap[i].slot == slots[i]
    }

    /** pkt->buf is the buffer its slot names. */
    ghost predicate Bound(pkt: Pkt)
      reads pkt`buf, pkt.slot`bufIdx
    {
      pkt.slot.bufIdx < |netmapBuf| && pkt.buf == netmapBuf[pkt.slot.bufIdx]
    }

    /** sin_pkt_zone_fill_from_ring: one packet object a slot, bound to the slot's buffer. */
    constructor (slots: seq<NetmapSlot>, netmapBuf: seq<array<Byte>>, fd: int, head: nat, tail: nat)
      requires OnRing(|slots|, head) && OnRing(|slots|, tail)
      requires forall i :: 0 <= i < |slots| ==> slots[i].bufIdx < |netmapBuf|
      ensures Valid() && Mapped() && this.slots == slots && this.netmapBuf == netmapBuf
      ensures this.head == this.cur == head && this.tail == tail
      ensures forall i :: 0 <= i < |pmap| ==>
        && fresh(pmap[i]) && Bound(pmap[i]) && pmap[i].netmapFd == fd
        && pmap[i].sinNext == null && !pmap[i].busy && pmap[i].len == 0
    {
      var pkts: seq<Pkt> := [];
      var i := 0;
      while i < |slots|
        invariant 0 <= i == |pkts| <= |slots| && Distinct(pkts)
        invariant forall k :: 0 <= k < i ==>
          && fresh(pkts[k]) && pkts[k].zoneIdx == k && pkts[k].slot == slots[k]
          && pkts[k].buf == netmapBuf[slots[k].bufIdx]
          && pkts[k].netmapFd == fd && pkts[k].sinNext == null && !pkts[k].busy && pkts[k].len == 0
      {
        var pkt := new Pkt(i, slots[i], fd, netmapBuf[slots[i].bufIdx]);
        pkts := pkts + [pkt];
        i := i + 1;
      }
      this.numSlots, this.head, this.cur, this.tail := |slots|, head, head, tail;
      this.slots, this.netmapBuf, this.pmap := slots, netmapBuf, pkts;
    }

    /** The packets of k slots from slot a. */
    ghost function Window(a: nat, k: nat): (w: seq<Pkt>)
      requires |pmap| == numSlots && OnRing(numSlots, a) && k <= numSlots
      ensures |w| == k
    {
      seq(k, x requires 0 <= x < k => pmap[Slot(numSlots, a, x)])
    }

    /** The number of slots from cur up to tail, at least one slot being kept unused. */
    ghost function Free(): (k: nat)
      requires Valid()
      reads this
      ensures k < numSlots && (k == 0 <==> cur == tail)
    {
      Dist(numSlots, cur, tail)
    }

    lemma WindowDistinct(a: nat, k: nat)
      requires |pmap| == numSlots && Distinct(pmap) && OnRing(numSlots, a) && k <= numSlots
      ensures Distinct(Window(a, k))
      ensures k < numSlots ==> pmap[Slot(numSlots, a, k)] !in Window(a, k)
    {
      var w := Window(a, k);
      forall i, j | 0 <= i < j < k ensures w[i] != w[j] {
        assert Slot(numSlots, a, i) != Slot(numSlots, a, j);
      }
    }

    /** dequeue_pkts: every slot from cur up to tail, in ring order, is marked BUSY and its
        packet appended; the loop ends because each turn shortens the way to tail.  Its three
        assertions hold at every turn. */
    method DequeuePkts(pl: SinList) returns (nrx: nat)
      requires Valid() && Mapped() && pl.Valid() && Fresh(Window(cur, Dist(numSlots, cur, tail)), pl.items)
      requires forall p :: p in Window(cur, Dist(numSlots, cur, tail)) ==> Bound(p)
      modifies this`cur, pl, pl.items`sinNext
      modifies Window(cur, Dist(numSlots, cur, tail))`sinNext, Window(cur, Dist(numSlots, cur, tail))`busy,
               Window(cur, Dist(numSlots, cur, tail))`len
      ensures Valid() && cur == tail && nrx == Dist(numSlots, old(cur), tail)
      ensures Dequeued(Window(old(cur), nrx), nrx, pl, old(pl.items))
    {
      hide Fresh, Dequeued, Distinct, Mapped;
      ghost var from, before := cur, pl.items;
      ghost var all := Window(cur, Dist(numSlots, cur, tail));
      WindowDistinct(from, |all|);
      NothingDequeued(all, pl);
      nrx := 0;
      while cur != tail
        invariant Valid() && nrx <= |all| && cur == Slot(numSlots, from, nrx)
        invariant Dist(numSlots, cur, tail) == |all| - nrx && Dequeued(all, nrx, pl, before)
        invariant forall q :: q in pl.items ==> q in before || q in all
        decreases Dist(numSlots, cur, tail)
      {
        assert pmap[cur] == all[nrx] && all[nrx] in all;
        assert forall x :: 0 <= x < |pl.items| ==> pl.items[x] in before || pl.items[x] in all;
        assert before == old(pl.items) && all == old(Window(cur, Dist(numSlots, cur, tail)));
        DequeueSlot(all, nrx, pl, before, pmap[cur]);
        nrx := nrx + 1;
      }
    }

    /** One turn of the dequeue loop. */
    method DequeueSlot(ghost all: seq<Pkt>, ghost n: nat, pl: SinList, ghost before: seq<Pkt>, pkt: Pkt)
      requires Valid() && Mapped() && cur != tail && Dequeued(all, n, pl, before)
      requires n < |all| && pkt == pmap[cur] == all[n] && Bound(pkt)
      modifies this`cur, pl, pl.items`sinNext, pkt`sinNext, pkt`busy, pkt`len
      ensures Valid() && cur == Next(numSlots, old(cur))
      ensures Dequeued(all, n + 1, pl, before) && pl.items == old(pl.items) + [all[n]]
    {
      hide Dequeued, Distinct;
      var i := cur;
      NextIdle(all, n, pl, before);
      assert !pkt.busy;
      assert pkt.zoneIdx == i;
      assert pkt.buf == netmapBuf[slots[i].bufIdx];
      cur := Next(numSlots, i);
      DequeueOne(all, n, pl, before, pkt);
    }

    /** spin_ring: head moves past the longest run of packets that are not BUSY, and never
        past cur. */
    method SpinRing() returns (ghost m: nat)
      requires Valid()
      modifies this`head
      ensures Valid() && m <= Dist(numSlots, old(head), cur) && head == Slot(numSlots, old(head), m)
      ensures forall x :: 0 <= x < m ==> !Window(old(head), m)[x].busy
      ensures m < Dist(numSlots, old(head), cur) ==> pmap[head].busy
      ensures Dist(numSlots, head, cur) == Dist(numSlots, old(head), cur) - m
      ensures Dist(numSlots, old(head), cur) <= Dist(numSlots, old(head), tail) ==>
        Dist(numSlots, head, cur) <= Dist(numSlots, head, tail)
    {
      m := 0;
      var newHead := head;
      var i := head;
      while i != cur
        invariant OnRing(numSlots, newHead) && i == newHead == Slot(numSlots, head, m)
        invariant m <= Dist(numSlots, head, cur) && Dist(numSlots, i, cur) == Dist(numSlots, head, cur) - m
        invariant forall x :: 0 <= x < m ==> !pmap[Slot(numSlots, head, x)].busy
        decreases Dist(numSlots, i, cur)
      {
        if pmap[i].busy {
          break;
        }
        newHead := Next(numSlots, i);
        m := m + 1;
        i := newHead;
      }
      if newHead == head {
        return;
      }
      head := newHead;
    }

    /** tx_ring_nslots: as many slots as lie from cur up to tail, which is not all of them. */
    method TxRingNslots() returns (k: nat)
      requires Valid()
      ensures k == Free()
      ensures forall j :: InWindow(numSlots, cur, tail, j) <==> Met(numSlots, cur, k, j)
    {
      WindowIsWalk(numSlots, cur, tail);
      if cur > tail {
        return numSlots + tail - cur;
      }
      return tail - cur;
    }

    /** advance_tx_ring, for the slot counts its assertion allows. */
    method AdvanceTx(ntx: nat)
      requires Valid() && ntx < numSlots
      modifies this`head, this`cur
      ensures Valid() && head == cur == Slot(numSlots, old(cur), ntx) == (old(cur) + ntx) % numSlots
    {
      WalkIsSlot(numSlots, cur, ntx);
      var curidx := cur + ntx;
      while curidx >= numSlots
        invariant curidx == cur + ntx || curidx == cur + ntx - numSlots >= 0
      {
        curidx := curidx - numSlots;
      }
      head, cur := curidx, curidx;
    }

    /** sin_pkt_zone_ret_all: every packet of the list is unlinked and released, its link being
        read before it is cut; each belongs to the zone, at its own index. */
    method RetAll(pl: SinList)
      requires Mapped() && pl.Valid()
      requires forall i :: 0 <= i < |pl.items| ==> pl.items[i].busy && pl.items[i] in pmap
      modifies pl.items`sinNext, pl.items`busy
      ensures forall i :: 0 <= i < |pl.items| ==> !pl.items[i].busy && pl.items[i].sinNext == null
    {
      hide Mapped, Released, Linked, LinkedOpen;
      ghost var ls, n := pl.items, 0;
      NoneReleased(ls);
      var pkt := pl.head;
      while pkt != null
        invariant 0 <= n <= |ls| && pkt == PktAt(ls, n) && Released(ls, n)
        decreases |ls| - n
      {
        assert pkt in pmap;
        assert pkt == pmap[pkt.zoneIdx] by { AtOwnIndex(pkt); }
        pkt := ReleaseNext(pkt, ls, n);
        n := n + 1;
      }
      AllReleased(ls);
    }

    lemma AtOwnIndex(pkt: Pkt)
      requires Mapped() && pkt in pmap
      ensures pkt.zoneIdx < |pmap| && pkt == pmap[pkt.zoneIdx]
    {}
  }

  /** The first n packets are unlinked and released, the rest still chained and BUSY. */
  ghost predicate Released(ls: seq<Pkt>, n: nat)
    reads ls`sinNext, ls`busy
  {
    && n <= |ls| && Distinct(ls) && ChainFrom(ls, n)
    && (forall i :: 0 <= i < n ==> !ls[i].busy && ls[i].sinNext == null)
    && (forall i :: n <= i < |ls| ==> ls[i].busy)
  }

  lemma NoneReleased(ls: seq<Pkt>)
    requires Linked(ls) && forall i :: 0 <= i < |ls| ==> ls[i].busy
    ensures Released(ls, 0)
  {}

  lemma AllReleased(ls: seq<Pkt>)
    requires Released(ls, |ls|)
    ensures forall i :: 0 <= i < |ls| ==> !ls[i].busy && ls[i].sinNext == null
  {}

  /** One turn of the loop: the link is read, then cut, and the packet released. */
  method ReleaseNext(pkt: Pkt, ghost ls: seq<Pkt>, ghost n: nat) returns (pktNext: Pkt?)
    requires Released(ls, n) && n < |ls| && pkt == ls[n]
    modifies pkt`sinNext, pkt`busy
    ensures pktNext == PktAt(ls, n + 1) && Released(ls, n + 1)
  {
    assert pkt.busy;
    pktNext := pkt.sinNext;
    pkt.sinNext := null;
    pkt.busy := false;
  }

  /** Packets about to be dequeued: not BUSY, unlinked, and not on the list yet. */
  ghost predicate Fresh(all: seq<Pkt>, before: seq<Pkt>)
    reads all
  {
    && (forall x :: 0 <= x < |all| ==> !all[x].busy && all[x].sinNext == null && all[x] !in before)
  }

  /** The first n packets are BUSY, carry their slot's length and follow `before` on the list;
      the rest are as they were. */
  ghost predicate Dequeued(all: seq<Pkt>, n: nat, pl: SinList, before: seq<Pkt>)
    reads pl, before`sinNext, all, set p | p in all :: p.slot
  {
    && n <= |all| && Distinct(all) && (forall x :: 0 <= x < |all| ==> all[x] !in before)
    && pl.items == before + all[..n]
    && (forall x :: 0 <= x < n ==> all[x].busy && all[x].len == all[x].slot.len)
    && (forall x :: n <= x < |all| ==> !all[x].busy && all[x].sinNext == null)
    && pl.Valid()
  }

  lemma NothingDequeued(all: seq<Pkt>, pl: SinList)
    requires pl.Valid() && Distinct(all) && Fresh(all, pl.items)
    ensures Dequeued(all, 0, pl, pl.items)
  {
    assert pl.items + all[..0] == pl.items;
  }

  lemma NextIdle(all: seq<Pkt>, n: nat, pl: SinList, before: seq<Pkt>)
    requires Dequeued(all, n, pl, before) && n < |all|
    ensures !all[n].busy
  {}

  /** One turn of the dequeue loop, after cur has moved. */
  method DequeueOne(ghost all: seq<Pkt>, ghost n: nat, pl: SinList, ghost before: seq<Pkt>, pkt: Pkt)
    requires Dequeued(all, n, pl, before) && n < |all| && pkt == all[n]
    modifies pkt`sinNext, pkt`busy, pkt`len, pl, pl.items`sinNext
    ensures Dequeued(all, n + 1, pl, before) && pl.items == old(pl.items) + [pkt]
  {
    forall x | n <= x < |all| ensures all[x] !in pl.items {
      assert all[x] !in before;
    }
    pkt.busy := true;
    pkt.len := pkt.slot.len;
    assert pl.Valid();
    pl.Append(pkt);
    assert before + all[..n] + [pkt] == before + all[..n + 1];
  }
}
