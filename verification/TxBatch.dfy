/** The transmit thread's batch on the heap: the lockstep walk over the packets to send and
    the packets of the free transmit slots. */
module TxBatch {
  import opened Octets
  import opened Circular
  import opened MemFast
  import opened PacketLists
  import opened PacketRings

  // ---------- one packet ----------

  /** sin_pkt_zone_swap: buffers and buffer indices change places, by three exclusive-ors
      each; a reference exchange stands for the pointers'. */
  method PktZoneSwap(p1: Pkt, p2: Pkt)
    requires p1 != p2 && p1.slot != p2.slot && p1.slot.bufIdx < Pow2(32) && p2.slot.bufIdx < Pow2(32)
    modifies p1`buf, p2`buf, p2`len, p1.slot, p2.slot
    ensures p1.buf == old(p2.buf) && p2.buf == old(p1.buf) && p2.len == p1.len
    ensures p1.slot.bufIdx == old(p2.slot.bufIdx) && p2.slot.bufIdx == old(p1.slot.bufIdx)
    ensures p2.slot.len == p1.len && p1.slot.len == old(p1.slot.len)
    ensures p1.slot.bufChanged && p2.slot.bufChanged
  {
    hide Xor;
    var src, dst := p1.slot, p2.slot;
    XorThrice(32, dst.bufIdx, src.bufIdx);
    dst.bufIdx := Xor(32, dst.bufIdx, src.bufIdx);
    src.bufIdx := Xor(32, dst.bufIdx, src.bufIdx);
    dst.bufIdx := Xor(32, dst.bufIdx, src.bufIdx);
    p1.buf, p2.buf := p2.buf, p1.buf;
    dst.bufChanged := true;
    src.bufChanged := true;
    dst.len := p1.len;
    p2.len := p1.len;
  }

  /** sin_pkt_zone_copy. */
  method PktZoneCopy(p1: Pkt, p2: Pkt)
    requires p1.buf != p2.buf && CopyWidth(p1.len) <= p1.buf.Length && CopyWidth(p1.len) <= p2.buf.Length && p1 != p2
    modifies p2`len, p2.slot, p2.buf
    ensures p2.buf[..] == CopyInto(p1.buf[..], old(p2.buf[..]), p1.len)
    ensures p2.len == p2.slot.len == p1.len && p2.slot.bufChanged && p2.slot.bufIdx == old(p2.slot.bufIdx)
  {
    MemCpy(p1.buf, p2.buf, p1.len);
    p2.slot.len := p1.len;
    p2.len := p1.len;
    p2.slot.bufChanged := true;
  }

  /** What a pair of packets, one received and one to send, looked like before the batch. */
  datatype Snap = Snap(pbuf: array<Byte>, tbuf: array<Byte>, pidx: nat, tidx: nat, len: nat, data: Bytes)

  /** The pair as it was: p BUSY, with its data. */
  ghost predicate Before(p: Pkt, t: Pkt, sn: Snap)
    reads p`buf, p`len, p`busy, t`buf, p.slot, t.slot, sn.pbuf, sn.tbuf
  {
    && p != t && p.slot != t.slot && sn.pbuf != sn.tbuf
    && p.buf == sn.pbuf && t.buf == sn.tbuf && p.slot.bufIdx == sn.pidx && t.slot.bufIdx == sn.tidx
    && sn.pidx < Pow2(32) && sn.tidx < Pow2(32)
    && p.busy && p.len == sn.len && sn.len <= CopyWidth(sn.len) <= sn.pbuf.Length && CopyWidth(sn.len) <= sn.tbuf.Length
    && sn.pbuf[..sn.len] == sn.data
  }

  /** The pair afterwards: t carries p's data, by exchange of buffers within one memory region
      and by copy across two; p is released; neither is linked to anything. */
  ghost predicate Sent(p: Pkt, t: Pkt, sn: Snap)
    reads p, t, p.slot, t.slot, sn.pbuf, sn.tbuf
  {
    && t.len == t.slot.len == sn.len && t.slot.bufChanged && sn.len <= t.buf.Length
    && (if p.netmapFd == t.netmapFd
        then t.buf == sn.pbuf && p.buf == sn.tbuf && t.slot.bufIdx == sn.pidx && p.slot.bufIdx == sn.tidx
        else t.buf == sn.tbuf && p.buf == sn.pbuf && t.slot.bufIdx == sn.tidx && p.slot.bufIdx == sn.pidx)
    && sn.len <= sn.pbuf.Length && sn.len <= sn.tbuf.Length
    && (if p.netmapFd == t.netmapFd then sn.pbuf[..sn.len] == sn.data else sn.tbuf[..sn.len] == sn.data)
    && !p.busy && p.sinNext == null && t.sinNext == null
  }

  /** One turn of the batch loop: the links are read before they are cut, and cut before the
      packet is released. */
  method SendOne(pkt: Pkt, pktTx: Pkt, ghost sn: Snap) returns (pktNext: Pkt?, pktTxNext: Pkt?)
    requires Before(pkt, pktTx, sn)
    modifies pkt, pktTx, pkt.slot, pktTx.slot, sn.tbuf
    ensures pktNext == old(pkt.sinNext) && pktTxNext == old(pktTx.sinNext)
    ensures Sent(pkt, pktTx, sn)
  {
    if pktTx.netmapFd == pkt.netmapFd {
      PktZoneSwap(pkt, pktTx);
    } else {
      CopyMeans(pkt.buf[..], pktTx.buf[..], pkt.len);
      PktZoneCopy(pkt, pktTx);
      assert sn.tbuf[..sn.len] == sn.tbuf[..][..sn.len];
      assert sn.pbuf[..sn.len] == sn.pbuf[..][..sn.len];
    }
    pktNext := pkt.sinNext;
    pkt.sinNext := null;
    pkt.busy := false;
    pktTxNext := pktTx.sinNext;
    pktTx.sinNext := null;
  }

  // ---------- the batch ----------

  /** No two pairs share a packet, a slot or a buffer. */
  ghost predicate PairsApart(held: seq<Pkt>, gathered: seq<Pkt>, sns: seq<Snap>) {
    && |gathered| == |sns| <= |held| && Distinct(held) && Distinct(gathered)
    && (forall i, j :: 0 <= i < |gathered| && 0 <= j < |held| ==> gathered[i] != held[j])
    && (forall i, j :: 0 <= i < |sns| && 0 <= j < |sns| && i != j ==>
         PairApart(held[i], gathered[i], sns[i], held[j], gathered[j], sns[j]))
  }

  ghost predicate PairApart(p: Pkt, t: Pkt, sn: Snap, p': Pkt, t': Pkt, sn': Snap) {
    && {p.slot, t.slot} !! {p'.slot, t'.slot} && {sn.pbuf, sn.tbuf} !! {sn'.pbuf, sn'.tbuf}
  }

  /** The first i pairs have been sent, the rest are as they were, and both lists are still
      chained from i on. */
  ghost predicate Progress(held: seq<Pkt>, gathered: seq<Pkt>, sns: seq<Snap>, i: nat)
    requires |gathered| == |sns| <= |held|
    reads held, gathered, (set k | 0 <= k < |sns| :: sns[k].pbuf), (set k | 0 <= k < |sns| :: sns[k].tbuf),
          (set k | 0 <= k < |sns| :: held[k].slot), (set k | 0 <= k < |sns| :: gathered[k].slot)
  {
    && i <= |sns| && ChainFrom(held, i) && ChainFrom(gathered, i)
    && (forall k :: 0 <= k < i ==> Sent(held[k], gathered[k], sns[k]))
    && (forall k :: i <= k < |sns| ==> Before(held[k], gathered[k], sns[k]))
  }

  /** One turn of the loop keeps the other pairs as they are. */
  method SendNext(pkt: Pkt, pktTx: Pkt, ghost held: seq<Pkt>, ghost gathered: seq<Pkt>, ghost sns: seq<Snap>,
                  ghost i: nat)
    returns (pktNext: Pkt?, pktTxNext: Pkt?)
    requires |gathered| == |sns| <= |held| && PairsApart(held, gathered, sns)
    requires i < |sns| && pkt == held[i] && pktTx == gathered[i]
    requires Progress(held, gathered, sns, i)
    modifies pkt, pktTx, pkt.slot, pktTx.slot, sns[i].tbuf
    ensures pktNext == PktAt(held, i + 1) && pktTxNext == PktAt(gathered, i + 1)
    ensures Progress(held, gathered, sns, i + 1)
  {
    hide Before, Sent, PairsApart;
    OtherPairs(held, gathered, sns, i);
    pktNext, pktTxNext := SendOne(pkt, pktTx, sns[i]);
    forall k | 0 <= k < i ensures Sent(held[k], gathered[k], sns[k]) {
      assert Clear(held[i], gathered[i], sns[i], held[k], gathered[k], sns[k]);
    }
    forall k | i < k < |sns| ensures Before(held[k], gathered[k], sns[k]) {
      assert Clear(held[i], gathered[i], sns[i], held[k], gathered[k], sns[k]);
    }
  }

  lemma OtherPairs(held: seq<Pkt>, gathered: seq<Pkt>, sns: seq<Snap>, i: nat)
    requires PairsApart(held, gathered, sns) && i < |sns|
    ensures forall k :: 0 <= k < |sns| && k != i ==> Clear(held[i], gathered[i], sns[i], held[k], gathered[k], sns[k])
    ensures forall j :: i < j < |held| ==> held[j] != held[i] && held[j] != gathered[i]
    ensures forall j :: i < j < |gathered| ==> gathered[j] != held[i] && gathered[j] != gathered[i]
  {}

  /** What sending the first pair writes is no part of the second. */
  ghost predicate Clear(p: Pkt, t: Pkt, sn: Snap, p': Pkt, t': Pkt, sn': Snap) {
    && p' != p && p' != t && t' != p && t' != t
    && p'.slot != p.slot && p'.slot != t.slot && t'.slot != p.slot && t'.slot != t.slot
    && sn'.pbuf != sn.tbuf && sn'.tbuf != sn.tbuf
  }

  /** tx_zone_getpkts: the packets of ntx slots from cur, linked in ring order. */
  method TxZoneGetPkts(ring: Ring, plp: SinList, ntx: nat)
    requires ring.Valid() && 1 <= ntx <= ring.numSlots
    requires forall p :: p in ring.Window(ring.cur, ntx) ==> p.sinNext == null
    modifies plp, ring.Window(ring.cur, ntx)`sinNext
    ensures plp.Valid() && plp.items == ring.Window(ring.cur, ntx)
  {
    hide Linking;
    ghost var all := ring.Window(ring.cur, ntx);
    ring.WindowDistinct(ring.cur, ntx);
    var curidx := ring.cur;
    assert ring.pmap[curidx] == all[0] && all[0] in all;
    plp.head, plp.tail := ring.pmap[curidx], ring.pmap[curidx];
    plp.len := 1;
    plp.items := [ring.pmap[curidx]];
    OneLinked(plp, all);
    var left := ntx;
    while left > 1
      invariant 1 <= left <= ntx && curidx == Slot(ring.numSlots, ring.cur, ntx - left)
      invariant Linking(plp, all, ntx - left + 1)
    {
      curidx := Next(ring.numSlots, curidx);
      assert ring.pmap[curidx] == all[ntx - left + 1];
      LinkNext(plp, all, ntx - left + 1, ring.pmap[curidx]);
      left := left - 1;
    }
    AllLinked(plp, all);
  }

  /** The first k transmit packets are on plp, the others unlinked. */
  ghost predicate Linking(plp: SinList, all: seq<Pkt>, k: nat)
    reads plp, all`sinNext
  {
    && 1 <= k <= |all| && Distinct(all) && plp.items == all[..k] && LinkedOpen(all[..k]) && all[k - 1].sinNext == null
    && plp.head == all[0] && plp.tail == all[k - 1] && plp.len == k
    && forall x :: k <= x < |all| ==> all[x].sinNext == null
  }

  lemma OneLinked(plp: SinList, all: seq<Pkt>)
    requires all != [] && Distinct(all) && plp.items == [all[0]] && plp.head == plp.tail == all[0] && plp.len == 1
    requires forall p :: p in all ==> p.sinNext == null
    ensures Linking(plp, all, 1)
  {
    assert all[..1] == [all[0]];
    assert forall x :: 0 <= x < |all| ==> all[x] in all;
  }

  lemma AllLinked(plp: SinList, all: seq<Pkt>)
    requires Linking(plp, all, |all|)
    ensures plp.Valid() && plp.items == all
  {
    assert all[..|all|] == all;
  }

  method LinkNext(plp: SinList, ghost all: seq<Pkt>, ghost k: nat, p: Pkt)
    requires Linking(plp, all, k) && k < |all| && p == all[k]
    modifies plp, all`sinNext
    ensures Linking(plp, all, k + 1)
  {
    assert Last(all[..k]) == all[k - 1];
    assert plp.Valid();
    assert forall x :: 0 <= x < |plp.items| ==> plp.items[x] == all[x] && plp.items[x] in all;
    plp.Append(p);
    assert all[..k + 1] == all[..k] + [p];
  }

  /** The slots and buffers of a batch. */
  ghost predicate Covers(held: seq<Pkt>, gathered: seq<Pkt>, sns: seq<Snap>, slots: set<NetmapSlot>,
                         bufs: set<array<Byte>>)
    requires |gathered| == |sns| <= |held|
  {
    forall k :: 0 <= k < |sns| ==> held[k].slot in slots && gathered[k].slot in slots && sns[k].tbuf in bufs
  }

  /** The loop over the batch. */
  method SendAll(head: Pkt?, headTx: Pkt?, ntx: nat, ghost held: seq<Pkt>, ghost gathered: seq<Pkt>,
                 ghost sns: seq<Snap>,
                 ghost slots: set<NetmapSlot>, ghost bufs: set<array<Byte>>)
    returns (pkt: Pkt?)
    requires |gathered| == |sns| == ntx <= |held| && PairsApart(held, gathered, sns) && Progress(held, gathered, sns, 0)
    requires head == PktAt(held, 0) && headTx == PktAt(gathered, 0) && Covers(held, gathered, sns, slots, bufs)
    modifies held[..ntx], gathered, slots, bufs
    ensures pkt == PktAt(held, ntx) && Progress(held, gathered, sns, ntx)
  {
    hide PairsApart, Progress;
    assert forall k :: 0 <= k < ntx ==> held[k].slot in slots && gathered[k].slot in slots && sns[k].tbuf in bufs;
    pkt := head;
    var pktTx := headTx;
    var i := 0;
    while i < ntx
      invariant 0 <= i <= ntx && pkt == PktAt(held, i) && pktTx == PktAt(gathered, i)
      invariant Progress(held, gathered, sns, i)
    {
      assert held[i] == held[..ntx][i] && held[i] in held[..ntx] && gathered[i] in gathered;
      pkt, pktTx := SendNext(pkt, pktTx, held, gathered, sns, i);
      i := i + 1;
    }
  }

  /** The k-th free transmit slot gets the k-th held packet. */
  ghost predicate AllBefore(held: seq<Pkt>, gathered: seq<Pkt>, sns: seq<Snap>)
    requires |gathered| == |sns| <= |held|
    reads held`buf, held`len, held`busy, gathered`buf,
          (set k | 0 <= k < |sns| :: sns[k].pbuf), (set k | 0 <= k < |sns| :: sns[k].tbuf),
          (set k | 0 <= k < |sns| :: held[k].slot), (set k | 0 <= k < |sns| :: gathered[k].slot)
  {
    forall k :: 0 <= k < |sns| ==> Before(held[k], gathered[k], sns[k])
  }

  ghost predicate AllSent(held: seq<Pkt>, gathered: seq<Pkt>, sns: seq<Snap>)
    requires |gathered| == |sns| <= |held|
    reads held, gathered, (set k | 0 <= k < |sns| :: sns[k].pbuf), (set k | 0 <= k < |sns| :: sns[k].tbuf),
          (set k | 0 <= k < |sns| :: held[k].slot), (set k | 0 <= k < |sns| :: gathered[k].slot)
  {
    forall k :: 0 <= k < |sns| ==> Sent(held[k], gathered[k], sns[k])
  }

  /** The batch of sin_tx_thread with its partial drain: with ntx the smaller of the ring's free
      slots and the list's length, the k-th packet of the list goes to the k-th free slot,
      the list keeps the rest with head, tail and len in agreement, and the ring hands over
      exactly those slots. */
  method SendBatch(ring: Ring, out: SinList, plp: SinList, ghost sns: seq<Snap>,
                   ghost slots: set<NetmapSlot>, ghost bufs: set<array<Byte>>) returns (ntx: nat)
    requires ring.Valid() && ring.Free() > 0 && out.Valid() && out.items != [] && plp != out
    requires |sns| == Min(ring.Free(), |out.items|)
    requires forall p :: p in ring.Window(ring.cur, |sns|) ==> p.sinNext == null && p !in out.items
    requires PairsApart(out.items, ring.Window(ring.cur, |sns|), sns)
      && AllBefore(out.items, ring.Window(ring.cur, |sns|), sns)
    requires Covers(out.items, ring.Window(ring.cur, |sns|), sns, slots, bufs)
    modifies ring`head, ring`cur, out, plp, out.items[..|sns|], ring.Window(ring.cur, |sns|), slots, bufs
    ensures ntx == Min(old(ring.Free()), |old(out.items)|) >= 1
    ensures out.Valid() && out.items == old(out.items)[ntx..]
    ensures ring.Valid() && ring.head == ring.cur == (old(ring.cur) + ntx) % ring.numSlots
    ensures ring.Free() == old(ring.Free()) - ntx
    ensures AllSent(old(out.items), ring.Window(old(ring.cur), ntx), sns)
  {
    hide PairsApart, AllBefore, Slot, Covers, ring.Free;
    var aslots := FreeSlots(ring, out.items, ring.Window(ring.cur, |sns|), sns);
    ntx := Min(aslots, out.len);
    SendFirst(ring, out, plp, ntx, sns, slots, bufs);
  }

  /** The batch, for a given number of packets. */
  method SendFirst(ring: Ring, out: SinList, plp: SinList, ntx: nat, ghost sns: seq<Snap>,
                   ghost slots: set<NetmapSlot>, ghost bufs: set<array<Byte>>)
    requires ring.Valid() && out.Valid() && plp != out && 1 <= ntx == |sns| <= |out.items| && ntx <= ring.Free()
    requires forall p :: p in ring.Window(ring.cur, ntx) ==> p.sinNext == null && p !in out.items
    requires PairsApart(out.items, ring.Window(ring.cur, ntx), sns)
      && AllBefore(out.items, ring.Window(ring.cur, ntx), sns)
    requires Covers(out.items, ring.Window(ring.cur, ntx), sns, slots, bufs)
    modifies ring`head, ring`cur, out, plp, out.items[..ntx], ring.Window(ring.cur, ntx), slots, bufs
    ensures out.Valid() && out.items == old(out.items)[ntx..]
    ensures ring.Valid() && ring.head == ring.cur == (old(ring.cur) + ntx) % ring.numSlots
    ensures ring.Free() == old(ring.Free()) - ntx
    ensures AllSent(old(out.items), ring.Window(old(ring.cur), ntx), sns)
  {
    hide PairsApart, Before, Sent, AllBefore, Slot, Dist, Covers;
    ghost var held, gathered := out.items, ring.Window(ring.cur, ntx);
    AdvanceStaysInWindow(ring.numSlots, ring.cur, ring.tail, ntx);
    var pkt := SendLinked(ring, out, plp, ntx, sns, slots, bufs);
    label Walked:
    ring.AdvanceTx(ntx);
    DrainOut(out, pkt, ntx, held);
    forall k | 0 <= k < ntx ensures Sent(held[k], gathered[k], sns[k]) {
      assert old@Walked(allocated(sns[k].pbuf) && allocated(sns[k].tbuf) && allocated(held[k].slot)
          && allocated(gathered[k].slot));
      assert old@Walked(Sent(held[k], gathered[k], sns[k]));
    }
  }

  /** The batch up to the hand-over. */
  method SendLinked(ring: Ring, out: SinList, plp: SinList, ntx: nat, ghost sns: seq<Snap>,
                    ghost slots: set<NetmapSlot>, ghost bufs: set<array<Byte>>) returns (pkt: Pkt?)
    requires ring.Valid() && out.Valid() && plp != out && 1 <= ntx == |sns| <= |out.items| && ntx <= ring.numSlots
    requires forall p :: p in ring.Window(ring.cur, ntx) ==> p.sinNext == null && p !in out.items
    requires PairsApart(out.items, ring.Window(ring.cur, ntx), sns)
      && AllBefore(out.items, ring.Window(ring.cur, ntx), sns)
    requires Covers(out.items, ring.Window(ring.cur, ntx), sns, slots, bufs)
    modifies plp, out.items[..ntx], ring.Window(ring.cur, ntx), slots, bufs
    ensures pkt == PktAt(out.items, ntx) && Linked(out.items[ntx..])
    ensures AllSent(out.items, ring.Window(ring.cur, ntx), sns)
  {
    hide PairsApart, Before, Sent, Progress, AllBefore, Slot, Covers;
    ghost var held, gathered := out.items, ring.Window(ring.cur, ntx);
    Gather(ring, plp, ntx, held, sns);
    pkt := SendAll(out.head, plp.head, ntx, held, gathered, sns, slots, bufs);
    RestLinked(held, gathered, sns, ntx);
  }

  /** Reading the ring leaves the pairs as they were. */
  method FreeSlots(ring: Ring, ghost held: seq<Pkt>, ghost gathered: seq<Pkt>, ghost sns: seq<Snap>)
    returns (aslots: nat)
    requires ring.Valid() && |gathered| == |sns| <= |held| && AllBefore(held, gathered, sns)
    requires forall p :: p in gathered ==> p.sinNext == null
    ensures aslots == ring.Free() && AllBefore(held, gathered, sns)
    ensures forall p :: p in gathered ==> p.sinNext == null
  {
    hide Before;
    aslots := ring.TxRingNslots();
    forall k | 0 <= k < |sns| ensures Before(held[k], gathered[k], sns[k]) {
      assert old(allocated(sns[k].pbuf) && allocated(sns[k].tbuf) && allocated(held[k].slot)
          && allocated(gathered[k].slot));
      assert old(Before(held[k], gathered[k], sns[k]));
    }
  }

  /** pkts_out after the batch: head moves to where the walk stopped; tail stays, unless
      nothing is left. */
  method DrainOut(out: SinList, pkt: Pkt?, ntx: nat, ghost held: seq<Pkt>)
    requires out.items == held && out.tail == Last(held) && out.len == |held| && 1 <= ntx <= |held|
    requires pkt == PktAt(held, ntx) && Linked(held[ntx..])
    modifies out
    ensures out.Valid() && out.items == held[ntx..]
  {
    out.head := pkt;
    if pkt == null {
      assert out.len == ntx;
      out.tail := null;
      out.len := 0;
    } else {
      out.len := out.len - ntx;
    }
    out.items := out.items[ntx..];
  }

  lemma LinkedChain(ls: seq<Pkt>)
    requires Linked(ls)
    ensures ChainFrom(ls, 0)
  {}

  lemma ProgressStart(held: seq<Pkt>, gathered: seq<Pkt>, sns: seq<Snap>)
    requires |gathered| == |sns| <= |held| && Linked(held) && Linked(gathered)
    requires forall k :: 0 <= k < |sns| ==> Before(held[k], gathered[k], sns[k])
    ensures Progress(held, gathered, sns, 0)
  {
    hide Before;
    LinkedChain(held);
    LinkedChain(gathered);
  }

  /** Linking the transmit packets starts the batch. */
  method Gather(ring: Ring, plp: SinList, ntx: nat, ghost held: seq<Pkt>, ghost sns: seq<Snap>)
    requires ring.Valid() && 1 <= ntx <= ring.numSlots && |sns| == ntx <= |held| && Linked(held)
    requires forall p :: p in ring.Window(ring.cur, ntx) ==> p.sinNext == null && p !in held
    requires AllBefore(held, ring.Window(ring.cur, ntx), sns)
    modifies plp, ring.Window(ring.cur, ntx)`sinNext
    ensures plp.Valid() && plp.items == ring.Window(ring.cur, ntx) && Progress(held, plp.items, sns, 0)
    ensures plp.head == PktAt(plp.items, 0)
  {
    hide Before, Progress;
    ghost var all := ring.Window(ring.cur, ntx);
    assert forall j :: 0 <= j < |held| ==> held[j] !in all by {
      assert forall x :: 0 <= x < |all| ==> all[x] in all && all[x] !in held;
    }
    TxZoneGetPkts(ring, plp, ntx);
    forall k | 0 <= k < |sns| ensures Before(held[k], plp.items[k], sns[k]) {
      assert old(allocated(sns[k].pbuf) && allocated(sns[k].tbuf) && allocated(held[k].slot) && allocated(all[k].slot));
      assert old(Before(held[k], all[k], sns[k]));
    }
    ProgressStart(held, plp.items, sns);
  }

  lemma RestLinked(held: seq<Pkt>, gathered: seq<Pkt>, sns: seq<Snap>, n: nat)
    requires |gathered| == |sns| == n <= |held| && PairsApart(held, gathered, sns) && Progress(held, gathered, sns, n)
    ensures Linked(held[n..]) && AllSent(held, gathered, sns)
    ensures n < |held| ==> Last(held[n..]) == Last(held) && First(held[n..]) == held[n]
  {
    var rest := held[n..];
    forall i | 0 <= i < |rest| - 1 ensures rest[i].sinNext == rest[i + 1] {
      assert held[n + i].sinNext == PktAt(held, n + i + 1);
    }
    if rest != [] {
      assert held[|held| - 1].sinNext == PktAt(held, |held|);
    }
  }
}
