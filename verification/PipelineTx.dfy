/** The steps of transmit threads keep the invariant. */
module PipelineTx {
  import opened Circular
  import opened Octets
  import opened MemFast
  import opened PipelineModel
  import opened PipelineLinks
  import opened PipelineInv
  import opened PipelineData
  import opened PipelineOrder

  // ---------- steps that only move to another phase ----------

  lemma PhaseKeeps(cfg: Config, s: State, t: nat, phase: Phase)
    requires Inv(cfg, s) && t < |s.tx| && PhaseOk(cfg.txSlots[t], s.tx[t], phase) && Done(phase) == Done(s.phase[t])
    requires phase.Asleep? ==> On(s.lists, Queue(t)) == []
    requires BatchOk(cfg.txSlots[t], t, s.tx[t].cur, phase, s.heldLen[t], On(s.lists, Held(t)),
      On(s.lists, Gathered(t)))
    ensures Inv(cfg, s.(phase := s.phase[t := phase]))
  {
    hide LinksInv, HomeInv, WindowInv, BufInv, DataInv, PlacedInv, DeliveredInv, OrderInv, StageInv, SleepInv, ZoneInv,
         BatchOk, WireOk, PhaseOk;
    var phase' := s.phase[t := phase];
    SleepFrame(s.phase, s.lists, phase', s.lists);
    forall u | 0 <= u < |s.tx|
      ensures BatchOk(cfg.txSlots[u], u, s.tx[u].cur, phase'[u], s.heldLen[u], On(s.lists, Held(u)),
        On(s.lists, Gathered(u)))
    {
      assert u != t ==> phase'[u] == s.phase[u];
    }
  }

  lemma SizeKeeps(cfg: Config, s: State, t: nat)
    requires Inv(cfg, s) && Guard(cfg, s, Size(t))
    ensures Safe(cfg, s, Size(t)) && Inv(cfg, Apply(cfg, s, Size(t)))
  {
    hide RingInv, LinksInv, HomeInv, WindowInv, BatchInv, BufInv, DataInv, PlacedInv, WireInv, DeliveredInv, OrderInv,
         StageInv, SleepInv, ZoneInv;
    BatchOf(cfg, s, t);
    PhaseKeeps(cfg, s, t, Sized(Dist(cfg.txSlots[t], s.tx[t].cur, s.tx[t].tail)));
  }

  lemma SleepKeeps(cfg: Config, s: State, t: nat)
    requires Inv(cfg, s) && Guard(cfg, s, Sleep(t))
    ensures Safe(cfg, s, Sleep(t)) && Inv(cfg, Apply(cfg, s, Sleep(t)))
  {
    hide RingInv, LinksInv, HomeInv, WindowInv, BatchInv, BufInv, DataInv, PlacedInv, WireInv, DeliveredInv, OrderInv,
         StageInv, SleepInv, ZoneInv;
    BatchOf(cfg, s, t);
    PhaseKeeps(cfg, s, t, Asleep(s.phase[t].aslots));
  }

  lemma WakeKeeps(cfg: Config, s: State, t: nat)
    requires Inv(cfg, s) && Guard(cfg, s, Wake(t))
    ensures Safe(cfg, s, Wake(t)) && Inv(cfg, Apply(cfg, s, Wake(t)))
  {
    hide RingInv, LinksInv, HomeInv, WindowInv, BatchInv, BufInv, DataInv, PlacedInv, WireInv, DeliveredInv, OrderInv,
         StageInv, SleepInv, ZoneInv;
    BatchOf(cfg, s, t);
    PhaseKeeps(cfg, s, t, Woken(s.phase[t].aslots));
  }

  lemma ReturnKeeps(cfg: Config, s: State, t: nat)
    requires Inv(cfg, s) && Guard(cfg, s, Return(t))
    ensures Safe(cfg, s, Return(t)) && Inv(cfg, Apply(cfg, s, Return(t)))
  {
    hide RingInv, LinksInv, HomeInv, WindowInv, BatchInv, BufInv, DataInv, PlacedInv, WireInv, DeliveredInv, OrderInv,
         StageInv, SleepInv, ZoneInv;
    BatchOf(cfg, s, t);
    PhaseKeeps(cfg, s, t, Idle);
  }

  lemma StartKeeps(cfg: Config, s: State, t: nat)
    requires Inv(cfg, s) && Guard(cfg, s, StartBatch(t))
    ensures Safe(cfg, s, StartBatch(t)) && Inv(cfg, Apply(cfg, s, StartBatch(t)))
  {
    hide RingInv, LinksInv, HomeInv, WindowInv, BatchInv, BufInv, DataInv, PlacedInv, WireInv, DeliveredInv, OrderInv,
         StageInv, SleepInv, ZoneInv;
    BatchOf(cfg, s, t);
    PhaseKeeps(cfg, s, t, Gather(Min(s.phase[t].aslots, s.heldLen[t]), 0));
  }

  /** The part of the invariant about one transmit thread. */
  lemma BatchOf(cfg: Config, s: State, t: nat)
    requires Inv(cfg, s) && t < |s.tx|
    ensures BatchOk(cfg.txSlots[t], t, s.tx[t].cur, s.phase[t], s.heldLen[t], On(s.lists, Held(t)),
      On(s.lists, Gathered(t)))
    ensures PhaseOk(cfg.txSlots[t], s.tx[t], s.phase[t]) && s.tx[t].head == s.tx[t].cur
    ensures WireOk(cfg, t, s.tx[t].cur, Done(s.phase[t]), s.placed[t], s.wire[t], s.mem, s.bufIdx, s.slotLen)
    ensures OnRing(cfg.txSlots[t], s.tx[t].cur) && OnRing(cfg.txSlots[t], s.tx[t].tail)
  {
    hide LinksInv, HomeInv, WindowInv, BufInv, DataInv, PlacedInv, DeliveredInv, OrderInv, StageInv, SleepInv, ZoneInv,
         BatchOk, WireOk, PhaseOk;
  }

  /** Changing the batch of one thread. */
  lemma BatchUpdate(cfg: Config, tx: seq<Ring>, phase: seq<Phase>, heldLen: seq<int>, lists: map<Place, seq<Loc>>,
                    tx': seq<Ring>, phase': seq<Phase>, heldLen': seq<int>, lists': map<Place, seq<Loc>>, t: nat)
    requires |tx| == |phase| == |heldLen| == |tx'| == |phase'| == |heldLen'| == |cfg.txSlots| && t < |tx|
    requires BatchInv(cfg, tx, phase, heldLen, lists)
    requires forall u :: 0 <= u < |tx| && u != t ==>
      && tx'[u] == tx[u] && phase'[u] == phase[u] && heldLen'[u] == heldLen[u]
      && On(lists', Held(u)) == On(lists, Held(u)) && On(lists', Gathered(u)) == On(lists, Gathered(u))
    requires BatchOk(cfg.txSlots[t], t, tx'[t].cur, phase'[t], heldLen'[t], On(lists', Held(t)),
      On(lists', Gathered(t)))
    ensures BatchInv(cfg, tx', phase', heldLen', lists')
  {
    hide BatchOk;
    forall u | 0 <= u < |tx|
      ensures BatchOk(cfg.txSlots[u], u, tx'[u].cur, phase'[u], heldLen'[u], On(lists', Held(u)),
        On(lists', Gathered(u)))
    {
      assert u != t ==> tx'[u] == tx[u];
      assert BatchOk(cfg.txSlots[u], u, tx[u].cur, phase[u], heldLen[u], On(lists, Held(u)), On(lists, Gathered(u)));
    }
  }

  // ---------- sin_wi_queue_get_items ----------

  lemma QueueMembers(cfg: Config, s: State, t: nat)
    requires ConfigOk(cfg) && LinksInv(s.next, s.lists, s.place) && HomeInv(cfg, s.place, s.busy, s.arr)
    ensures forall l :: l in On(s.lists, Queue(t)) ==>
      l in s.place && s.place[l] == Queue(t) && PlaceOk(cfg, s.arr, l, Queue(t))
  {
    hide ConfigOk, PlaceOk;
    assert ListOk(s.next, s.place, Queue(t), On(s.lists, Queue(t)));
  }

  lemma TakeHome(cfg: Config, place: map<Loc, Place>, busy: set<Loc>, arr: map<Loc, Bytes>,
                 mem: map<Buf, Bytes>, pktBuf: map<Loc, Buf>, pktLen: map<Loc, nat>, ls: seq<Loc>, t: nat)
    requires ConfigOk(cfg) && HomeInv(cfg, place, busy, arr) && DataInv(cfg, place, arr, mem, pktBuf, pktLen)
    requires forall l :: l in ls ==> l in place && place[l] == Queue(t) && PlaceOk(cfg, arr, l, Queue(t))
    ensures var place' := Relabel(place, ls, Held(t));
      HomeInv(cfg, place', busy, arr) && DataInv(cfg, place', arr, mem, pktBuf, pktLen)
  {
    hide ConfigOk, PktData;
    var place' := Relabel(place, ls, Held(t));
    forall x | x in place' ensures PlaceOk(cfg, arr, x, place'[x]) {
      assert PlaceOk(cfg, arr, x, place[x]);
    }
  }

  lemma TakeSized(cfg: Config, s: State, t: nat)
    requires Inv(cfg, s) && Guard(cfg, s, Take(t)) && s.phase[t].Sized?
    ensures Safe(cfg, s, Take(t)) && Inv(cfg, Apply(cfg, s, Take(t)))
  {
    hide RingInv, LinksInv, HomeInv, WindowInv, BatchInv, BufInv, DataInv, PlacedInv, WireInv, DeliveredInv, OrderInv,
         StageInv, SleepInv, ZoneInv;
    var ls := On(s.lists, Queue(t));
    BatchOf(cfg, s, t);
    QueueMembers(cfg, s, t);
    TakeHome(cfg, s.place, s.busy, s.arr, s.mem, s.pktBuf, s.pktLen, ls, t);
    SpliceKeepsLinks(s.next, s.lists, s.place, Queue(t), Held(t));
    assert On(s.lists, Held(t)) + ls == ls;
    TakeOrder(cfg, s.arr, s.lists, s.dequeued, s.placed, t);
    var s' := Apply(cfg, s, Take(t));
    assert s'.phase == s.phase;
    StageFrame(cfg, s.stage, s.lists, s'.lists);
    SleepFrame(s.phase, s.lists, s'.phase, s'.lists);
    BatchUpdate(cfg, s.tx, s.phase, s.heldLen, s.lists, s'.tx, s'.phase, s'.heldLen, s'.lists, t);
  }

  /** After a wake the thread takes the queue as it would have without a wait. */
  lemma TakeKeeps(cfg: Config, s: State, t: nat)
    requires Inv(cfg, s) && Guard(cfg, s, Take(t))
    ensures Safe(cfg, s, Take(t)) && Inv(cfg, Apply(cfg, s, Take(t)))
  {
    hide RingInv, LinksInv, HomeInv, WindowInv, BatchInv, BufInv, DataInv, PlacedInv, WireInv, DeliveredInv, OrderInv,
         StageInv, SleepInv, ZoneInv, Relabel, TakeStep;
    BatchOf(cfg, s, t);
    PhaseKeeps(cfg, s, t, Sized(s.phase[t].aslots));
    TakeAfterWake(s, t);
    TakeSized(cfg, s.(phase := s.phase[t := Sized(s.phase[t].aslots)]), t);
  }

  lemma TakeAfterWake(s: State, t: nat)
    requires t < |s.heldLen| && t < |s.phase| && Getting(s.phase[t])
    ensures TakeStep(s.(phase := s.phase[t := Sized(s.phase[t].aslots)]), t) == TakeStep(s, t)
  {
    hide Relabel;
    var phase1 := s.phase[t := Sized(s.phase[t].aslots)];
    assert phase1[t := Sized(phase1[t].aslots)] == phase1;
  }

  // ---------- tx_zone_getpkts ----------

  lemma GatherFree(cfg: Config, s: State, t: nat)
    requires Inv(cfg, s) && Guard(cfg, s, GatherOne(t))
    ensures Safe(cfg, s, GatherOne(t))
    ensures var l := Tx(t, Slot(cfg.txSlots[t], s.tx[t].cur, s.phase[t].g)); l !in s.place && Valid(cfg, l)
  {
    hide RingInv, WindowInv, BatchInv, BufInv, DataInv, PlacedInv, WireInv, DeliveredInv, OrderInv, StageInv, SleepInv,
         ZoneInv, AllOk;
    BatchOf(cfg, s, t);
    var l := Tx(t, Slot(cfg.txSlots[t], s.tx[t].cur, s.phase[t].g));
    assert l in s.place ==> PlaceOk(cfg, s.arr, l, s.place[l]);
  }

  lemma GatherBatch(cfg: Config, s: State, t: nat)
    requires Inv(cfg, s) && Guard(cfg, s, GatherOne(t)) && Safe(cfg, s, GatherOne(t))
    ensures var s' := GatherStep(cfg, s, t);
      && BatchInv(cfg, s'.tx, s'.phase, s'.heldLen, s'.lists)
      && PhaseOk(cfg.txSlots[t], s.tx[t], s'.phase[t]) && Done(s'.phase[t]) == Done(s.phase[t])
  {
    hide RingInv, LinksInv, HomeInv, WindowInv, BatchInv, BufInv, DataInv, PlacedInv, WireInv, DeliveredInv, OrderInv,
         StageInv, SleepInv, ZoneInv;
    BatchOf(cfg, s, t);
    var s' := GatherStep(cfg, s, t);
    BatchUpdate(cfg, s.tx, s.phase, s.heldLen, s.lists, s'.tx, s'.phase, s'.heldLen, s'.lists, t);
  }

  lemma GatherHome(cfg: Config, s: State, l: Loc)
    requires ConfigOk(cfg) && HomeInv(cfg, s.place, s.busy, s.arr) && l.Tx? && Valid(cfg, l)
    requires DataInv(cfg, s.place, s.arr, s.mem, s.pktBuf, s.pktLen)
    ensures var place' := s.place[l := Gathered(l.ring)];
      HomeInv(cfg, place', s.busy, s.arr) && DataInv(cfg, place', s.arr, s.mem, s.pktBuf, s.pktLen)
  {
    hide ConfigOk, PktData;
    var place' := s.place[l := Gathered(l.ring)];
    forall x | x in place' ensures PlaceOk(cfg, s.arr, x, place'[x]) {
      if x != l { assert PlaceOk(cfg, s.arr, x, s.place[x]); }
    }
  }

  lemma GatherKeeps(cfg: Config, s: State, t: nat)
    requires Inv(cfg, s) && Guard(cfg, s, GatherOne(t))
    ensures Safe(cfg, s, GatherOne(t)) && Inv(cfg, Apply(cfg, s, GatherOne(t)))
  {
    hide LinksInv, HomeInv, WindowInv, BatchInv, BufInv, DataInv, PlacedInv, WireInv, DeliveredInv, OrderInv, StageInv,
         SleepInv, ZoneInv, PhaseOk;
    GatherFree(cfg, s, t);
    var l := Tx(t, Slot(cfg.txSlots[t], s.tx[t].cur, s.phase[t].g));
    GatherBatch(cfg, s, t);
    GatherHome(cfg, s, l);
    AppendKeepsLinks(s.next, s.lists, s.place, Gathered(t), l);
    GatherOrder(cfg, s.arr, s.lists, s.dequeued, s.placed, t, On(s.lists, Gathered(t)) + [l]);
    var s' := Apply(cfg, s, GatherOne(t));
    StageFrame(cfg, s.stage, s.lists, s'.lists);
    SleepFrame(s.phase, s.lists, s'.phase, s'.lists);
    BatchOf(cfg, s, t);
    WireUpdate(cfg, s.tx, s.phase, s.placed, s.wire, s'.tx, s'.phase, s'.placed, s'.wire, s.mem, s.bufIdx, s.slotLen,
        t);
  }

  /** The transmit side is the same for every other thread, and given for this one. */
  lemma WireUpdate(cfg: Config, tx: seq<Ring>, phase: seq<Phase>, placed: seq<seq<Sent>>, wire: seq<seq<Bytes>>,
                   tx': seq<Ring>, phase': seq<Phase>, placed': seq<seq<Sent>>, wire': seq<seq<Bytes>>,
                   mem: map<Buf, Bytes>, bufIdx: map<Loc, nat>, slotLen: map<Loc, nat>, t: nat)
    requires ConfigOk(cfg) && |tx| == |phase| == |placed| == |wire| == |cfg.txSlots| && t < |tx|
    requires |tx'| == |phase'| == |placed'| == |wire'| == |cfg.txSlots|
    requires WireInv(cfg, tx, phase, placed, wire, mem, bufIdx, slotLen)
    requires forall u :: 0 <= u < |tx| && u != t ==>
      tx'[u].cur == tx[u].cur && phase'[u] == phase[u] && placed'[u] == placed[u] && wire'[u] == wire[u]
    requires WireOk(cfg, t, tx'[t].cur, Done(phase'[t]), placed'[t], wire'[t], mem, bufIdx, slotLen)
    ensures WireInv(cfg, tx', phase', placed', wire', mem, bufIdx, slotLen)
  {
    hide WireOk, ConfigOk;
    forall u | 0 <= u < |tx'|
      ensures WireOk(cfg, u, tx'[u].cur, Done(phase'[u]), placed'[u], wire'[u], mem, bufIdx, slotLen)
    {
      assert u != t ==> tx'[u].cur == tx[u].cur;
      assert WireOk(cfg, u, tx[u].cur, Done(phase[u]), placed[u], wire[u], mem, bufIdx, slotLen);
    }
  }

  // ---------- the batch loop ----------

  /** The head of a transmit thread's list is a BUSY packet its consumer has rewritten. */
  lemma HeldHead(cfg: Config, s: State, t: nat)
    requires WellFormed(cfg, s) && t < |cfg.txSlots| && On(s.lists, Held(t)) != []
    requires LinksInv(s.next, s.lists, s.place) && HomeInv(cfg, s.place, s.busy, s.arr)
    requires DataInv(cfg, s.place, s.arr, s.mem, s.pktBuf, s.pktLen)
    ensures var p := On(s.lists, Held(t))[0];
      && p in s.place && s.place[p] == Held(t) && PlaceOk(cfg, s.arr, p, Held(t)) && p in s.busy
      && PktData(s.mem, s.pktBuf, s.pktLen, p) == Rewritten(cfg, p.ring, s.arr[p])
  {
    hide ConfigOk, PktData, Rewritten;
    assert ListOk(s.next, s.place, Held(t), On(s.lists, Held(t)));
    var p := On(s.lists, Held(t))[0];
    assert PlaceOk(cfg, s.arr, p, s.place[p]);
  }

  /** What the walking pointers point at: the head of the thread's list, a BUSY packet its
      consumer has rewritten, and the packet of the next transmit slot. */
  ghost predicate WalkersOk(cfg: Config, s: State, t: nat)
    requires WellFormed(cfg, s) && t < |cfg.txSlots|
  {
    var held, gathered := On(s.lists, Held(t)), On(s.lists, Gathered(t));
    && s.phase[t].Move? && held != [] && gathered != []
    && s.phase[t].pkt == Some(held[0]) && s.phase[t].ptx == Some(gathered[0])
    && 0 <= Slot(cfg.txSlots[t], s.tx[t].cur, s.phase[t].m)
    && gathered[0] == Tx(t, Slot(cfg.txSlots[t], s.tx[t].cur, s.phase[t].m))
    && held[0] in s.place && s.place[held[0]] == Held(t) && PlaceOk(cfg, s.arr, held[0], Held(t))
    && PktData(s.mem, s.pktBuf, s.pktLen, held[0]) == Rewritten(cfg, held[0].ring, s.arr[held[0]])
  }

  lemma MovePkts(cfg: Config, s: State, t: nat)
    requires WellFormed(cfg, s) && Guard(cfg, s, MoveOne(t)) && Inv(cfg, s)
    ensures Safe(cfg, s, MoveOne(t)) && WalkersOk(cfg, s, t)
  {
    hide RingInv, LinksInv, HomeInv, DataInv, WindowInv, BatchInv, BufInv, PlacedInv, WireInv, DeliveredInv, OrderInv,
         StageInv, SleepInv, WireOk, PktData, Rewritten, ConfigOk;
    BatchOf(cfg, s, t);
    HeldHead(cfg, s, t);
    assert On(s.lists, Gathered(t))[0] == Tx(t, Slot(cfg.txSlots[t], s.tx[t].cur, s.phase[t].m));
  }

  lemma MoveBatch(cfg: Config, s: State, t: nat)
    requires WellFormed(cfg, s) && Guard(cfg, s, MoveOne(t)) && Safe(cfg, s, MoveOne(t)) && Inv(cfg, s)
    ensures var s' := MoveStep(cfg, s, t);
      BatchInv(cfg, s'.tx, s'.phase, s'.heldLen, s'.lists) && PhaseOk(cfg.txSlots[t], s.tx[t], s'.phase[t])
  {
    hide RingInv, LinksInv, HomeInv, WindowInv, BatchInv, BufInv, DataInv, PlacedInv, WireInv, DeliveredInv, OrderInv,
         StageInv, SleepInv, ZoneInv, WireOk, ConfigOk, SlotsPresent, RingsOnRing, Region, SlotData, CopyInto;
    MovePkts(cfg, s, t);
    BatchOf(cfg, s, t);
    MoveLinks(s.next, s.lists, s.place, t);
    var s' := MoveStep(cfg, s, t);
    BatchUpdate(cfg, s.tx, s.phase, s.heldLen, s.lists, s'.tx, s'.phase, s'.heldLen, s'.lists, t);
  }

  lemma MoveKeepsLinks(cfg: Config, s: State, t: nat)
    requires WellFormed(cfg, s) && Guard(cfg, s, MoveOne(t)) && Safe(cfg, s, MoveOne(t)) && Inv(cfg, s)
    ensures var s' := MoveStep(cfg, s, t); LinksInv(s'.next, s'.lists, s'.place)
  {
    hide RingInv, LinksInv, HomeInv, WindowInv, BatchInv, BufInv, DataInv, PlacedInv, WireInv, DeliveredInv, OrderInv,
         StageInv, SleepInv, ZoneInv, ConfigOk, SlotsPresent, RingsOnRing, Region, SlotData, CopyInto, PktData,
         Rewritten;
    MovePkts(cfg, s, t);
    MoveLinks(s.next, s.lists, s.place, t);
  }

  lemma MoveLinks(next: map<Loc, Loc>, lists: map<Place, seq<Loc>>, place: map<Loc, Place>, t: nat)
    requires LinksInv(next, lists, place) && On(lists, Held(t)) != [] && On(lists, Gathered(t)) != []
    ensures var held, gathered := On(lists, Held(t)), On(lists, Gathered(t));
      && LinksInv(next - {held[0]} - {gathered[0]}, lists[Held(t) := held[1..]][Gathered(t) := gathered[1..]],
                  place - {held[0]} - {gathered[0]})
      && Find(next, held[0]) == First(held[1..]) && Find(next, gathered[0]) == First(gathered[1..])
      && held[0] != gathered[0]
  {
    hide LinksInv, AllOk, Listed;
    var held, gathered := On(lists, Held(t)), On(lists, Gathered(t));
    UnlinkKeepsLinks(next, lists, place, Held(t));
    UnlinkKeepsLinks(next - {held[0]}, lists[Held(t) := held[1..]], place - {held[0]}, Gathered(t));
    UnlinkKeepsLinks(next, lists, place, Gathered(t));
    DifferentHeads(next, lists, place, Held(t), Gathered(t));
  }

  lemma DifferentHeads(next: map<Loc, Loc>, lists: map<Place, seq<Loc>>, place: map<Loc, Place>, p: Place, q: Place)
    requires LinksInv(next, lists, place) && p != q && On(lists, p) != [] && On(lists, q) != []
    ensures On(lists, p)[0] != On(lists, q)[0]
  {
    assert ListOk(next, place, p, On(lists, p)) && ListOk(next, place, q, On(lists, q));
  }

  /** sin_pkt_zone_swap within one region keeps every buffer in exactly one slot. */
  lemma SwapBuffers(cfg: Config, bufIdx: map<Loc, nat>, pktBuf: map<Loc, Buf>, mem: map<Buf, Bytes>, p1: Loc, p2: Loc)
    requires ConfigOk(cfg) && BufInv(cfg, bufIdx, pktBuf, mem) && Valid(cfg, p1) && Valid(cfg, p2) && p1 != p2
    requires Region(cfg, p1) == Region(cfg, p2)
    ensures BufInv(cfg, bufIdx[p2 := bufIdx[p1]][p1 := bufIdx[p2]], pktBuf[p1 := pktBuf[p2]][p2 := pktBuf[p1]], mem)
  {
    hide ConfigOk, Region;
    var pktBuf' := pktBuf[p1 := pktBuf[p2]][p2 := pktBuf[p1]];
    forall b | b in mem ensures exists l :: Valid(cfg, l) && pktBuf'[l] == b {
      var l :| Valid(cfg, l) && pktBuf[l] == b;
      var k := if l == p1 then p2 else if l == p2 then p1 else l;
      assert Valid(cfg, k) && pktBuf'[k] == b;
    }
  }

  lemma MoveBuffers(cfg: Config, s: State, t: nat)
    requires WellFormed(cfg, s) && Guard(cfg, s, MoveOne(t)) && Safe(cfg, s, MoveOne(t))
    requires BufInv(cfg, s.bufIdx, s.pktBuf, s.mem)
    ensures var s' := MoveStep(cfg, s, t);
      BufInv(cfg, s'.bufIdx, s'.pktBuf, s'.mem) && s'.mem.Keys == s.mem.Keys
  {
    hide ConfigOk, RingsOnRing, SlotData, CopyInto, Region, BufInv;
    var s' := MoveStep(cfg, s, t);
    var p1, p2 := s.phase[t].pkt.value, s.phase[t].ptx.value;
    if Region(cfg, p1) == Region(cfg, p2) {
      SwapBuffers(cfg, s.bufIdx, s.pktBuf, s.mem, p1, p2);
    } else {
      BufFrame(cfg, s.bufIdx, s.pktBuf, s.mem, s'.mem);
    }
  }

  lemma MoveShape(cfg: Config, s: State, t: nat)
    requires WellFormed(cfg, s) && Guard(cfg, s, MoveOne(t)) && Safe(cfg, s, MoveOne(t))
    requires BufInv(cfg, s.bufIdx, s.pktBuf, s.mem)
    ensures WellFormed(cfg, MoveStep(cfg, s, t))
  {
    hide ConfigOk, RingsOnRing, SlotData, BufInv, NetmapBuf;
  }

  /** Slots and packets other than the two are untouched. */
  lemma MoveOthers(cfg: Config, s: State, t: nat)
    requires WellFormed(cfg, s) && Guard(cfg, s, MoveOne(t)) && Safe(cfg, s, MoveOne(t))
    requires BufInv(cfg, s.bufIdx, s.pktBuf, s.mem)
    ensures var s' := MoveStep(cfg, s, t); var p1, p2 := s.phase[t].pkt.value, s.phase[t].ptx.value;
      && (forall l :: Valid(cfg, l) && l != p1 && l != p2 ==>
            SlotSame(cfg, l, s.mem, s.bufIdx, s.slotLen, s'.mem, s'.bufIdx, s'.slotLen))
      && (forall l :: Valid(cfg, l) && l != p1 && l != p2 ==>
            PktData(s'.mem, s'.pktBuf, s'.pktLen, l) == PktData(s.mem, s.pktBuf, s.pktLen, l))
  {
    hide ConfigOk, RingsOnRing, SlotData, CopyInto;
    var s' := MoveStep(cfg, s, t);
    var p1, p2 := s.phase[t].pkt.value, s.phase[t].ptx.value;
    forall l | Valid(cfg, l) && l != p1 && l != p2
      ensures SlotSame(cfg, l, s.mem, s.bufIdx, s.slotLen, s'.mem, s'.bufIdx, s'.slotLen)
      ensures PktData(s'.mem, s'.pktBuf, s'.pktLen, l) == PktData(s.mem, s.pktBuf, s.pktLen, l)
    {
      assert s.pktBuf[l] != s.pktBuf[p2] && s.pktBuf[l] == NetmapBuf(cfg, l, s.bufIdx[l]);
    }
  }

  /** The transmit slot ends up holding what the received packet held. */
  lemma MoveContents(cfg: Config, s: State, t: nat)
    requires WellFormed(cfg, s) && Guard(cfg, s, MoveOne(t)) && Safe(cfg, s, MoveOne(t))
    requires BufInv(cfg, s.bufIdx, s.pktBuf, s.mem)
    ensures var s' := MoveStep(cfg, s, t); var p1, p2 := s.phase[t].pkt.value, s.phase[t].ptx.value;
      SlotData(cfg, s'.mem, s'.bufIdx, s'.slotLen, p2) == PktData(s.mem, s.pktBuf, s.pktLen, p1)
  {
    hide RingsOnRing;
    var p1, p2 := s.phase[t].pkt.value, s.phase[t].ptx.value;
    CopyWidthFits(s.pktLen[p1], cfg.bufSize);
    assert s.pktBuf[p1] == NetmapBuf(cfg, p1, s.bufIdx[p1]) && s.pktBuf[p2] == NetmapBuf(cfg, p2, s.bufIdx[p2]);
    CopyPrefix(s.mem[s.pktBuf[p1]], s.mem[s.pktBuf[p2]], s.pktLen[p1]);
  }

  lemma CopyPrefix(src: Bytes, dst: Bytes, len: nat)
    requires len <= CopyWidth(len) <= |src| && CopyWidth(len) <= |dst|
    ensures |CopyInto(src, dst, len)| == |dst| && CopyInto(src, dst, len)[..len] == src[..len]
  {}

  lemma MoveHome(cfg: Config, s: State, t: nat)
    requires WellFormed(cfg, s) && Guard(cfg, s, MoveOne(t)) && Safe(cfg, s, MoveOne(t)) && Inv(cfg, s)
    ensures var s' := MoveStep(cfg, s, t);
      && HomeInv(cfg, s'.place, s'.busy, s'.arr) && WindowInv(cfg, s'.rx, s'.spin, s'.busy)
      && DataInv(cfg, s'.place, s'.arr, s'.mem, s'.pktBuf, s'.pktLen)
  {
    hide RingInv, LinksInv, HomeInv, WindowInv, BatchInv, BufInv, DataInv, PlacedInv, WireInv, DeliveredInv, OrderInv,
         StageInv, SleepInv, ZoneInv, PktData, SlotData, CopyInto, SlotSame, SlotsPresent, RingsOnRing, Region;
    MoveOthers(cfg, s, t);
    var s' := MoveStep(cfg, s, t);
    var p1, p2 := s.phase[t].pkt.value, s.phase[t].ptx.value;
    GoneHome(cfg, s.place, s.busy, s.arr, p1, p2);
    GoneWindow(cfg, s.rx, s.spin, s.busy, p1);
    GoneData(cfg, s.place, s.arr, s.mem, s.pktBuf, s.pktLen, s'.mem, s'.pktBuf, s'.pktLen, p1, p2);
  }

  /** Two packets that leave their lists, the received one released. */
  lemma GoneHome(cfg: Config, place: map<Loc, Place>, busy: set<Loc>, arr: map<Loc, Bytes>, p1: Loc, p2: Loc)
    requires ConfigOk(cfg) && HomeInv(cfg, place, busy, arr) && p1.Rx? && p2.Tx?
    ensures HomeInv(cfg, place - {p1} - {p2}, busy - {p1}, arr)
  {
    hide ConfigOk;
    forall x | x in place - {p1} - {p2} ensures PlaceOk(cfg, arr, x, place[x]) {}
  }

  lemma GoneWindow(cfg: Config, rx: seq<Ring>, spin: seq<int>, busy: set<Loc>, p: Loc)
    requires |rx| == |spin| == |cfg.rxSlots| && WindowInv(cfg, rx, spin, busy)
    ensures WindowInv(cfg, rx, spin, busy - {p})
  {}

  lemma GoneData(cfg: Config, place: map<Loc, Place>, arr: map<Loc, Bytes>,
                 mem: map<Buf, Bytes>, pktBuf: map<Loc, Buf>, pktLen: map<Loc, nat>,
                 mem': map<Buf, Bytes>, pktBuf': map<Loc, Buf>, pktLen': map<Loc, nat>, p1: Loc, p2: Loc)
    requires ConfigOk(cfg) && DataInv(cfg, place, arr, mem, pktBuf, pktLen)
    requires forall l :: Valid(cfg, l) && l != p1 && l != p2 ==>
      PktData(mem', pktBuf', pktLen', l) == PktData(mem, pktBuf, pktLen, l)
    ensures DataInv(cfg, place - {p1} - {p2}, arr, mem', pktBuf', pktLen')
  {
    hide ConfigOk, PktData, Expected;
  }

  lemma MoveDelivered(cfg: Config, s: State, t: nat)
    requires WellFormed(cfg, s) && Guard(cfg, s, MoveOne(t)) && Safe(cfg, s, MoveOne(t)) && Inv(cfg, s)
    ensures var s' := MoveStep(cfg, s, t);
      DeliveredInv(cfg, s'.rx, s'.delivered, s'.dequeued, s'.mem, s'.bufIdx, s'.slotLen)
  {
    hide LinksInv, HomeInv, BatchInv, BufInv, DataInv, PlacedInv, WireInv, DeliveredInv, OrderInv, StageInv, SleepInv,
         ZoneInv, PktData, SlotData, CopyInto, SlotSame;
    MoveOthers(cfg, s, t);
    var s' := MoveStep(cfg, s, t);
    var p1 := s.phase[t].pkt.value;
    assert RxRingOk(cfg.rxSlots[p1.ring], s.rx[p1.ring], s.spin[p1.ring]);
    DeliveredFrame(cfg, s.rx, s.delivered, s.dequeued, s.mem, s.bufIdx, s.slotLen, s'.mem, s'.bufIdx, s'.slotLen);
  }

  /** The batch has one more filled slot, holding what was placed. */
  lemma MoveRun(cfg: Config, t: nat, cur: int, done: int, placed: seq<Sent>, wire: seq<Bytes>, e: Sent,
                mem: map<Buf, Bytes>, bufIdx: map<Loc, nat>, slotLen: map<Loc, nat>)
    requires ConfigOk(cfg) && t < |cfg.txSlots| && WireOk(cfg, t, cur, done, placed, wire, mem, bufIdx, slotLen)
    requires TxHolds(cfg, t, cur, done, e.out, mem, bufIdx, slotLen)
    ensures WireOk(cfg, t, cur, done + 1, placed + [e], wire, mem, bufIdx, slotLen)
  {
    hide ConfigOk, TxHolds;
    assert (placed + [e])[|wire|..] == placed[|wire|..] + [e];
  }

  lemma MoveWire(cfg: Config, s: State, t: nat)
    requires WellFormed(cfg, s) && Guard(cfg, s, MoveOne(t)) && Safe(cfg, s, MoveOne(t)) && Inv(cfg, s)
    ensures var s' := MoveStep(cfg, s, t);
      WireInv(cfg, s'.tx, s'.phase, s'.placed, s'.wire, s'.mem, s'.bufIdx, s'.slotLen)
  {
    hide LinksInv, HomeInv, BatchInv, BufInv, DataInv, PlacedInv, WireInv, DeliveredInv, OrderInv, StageInv, SleepInv,
         ZoneInv, WindowInv, PktData, SlotData, CopyInto, SlotSame, WireOk, TxRun;
    MoveOthers(cfg, s, t);
    MovePkts(cfg, s, t);
    BatchOf(cfg, s, t);
    var s' := MoveStep(cfg, s, t);
    var p2 := s.phase[t].ptx.value;
    DoneFits(cfg, s.tx, s.rx, s.spin, s.phase);
    WireFrame(cfg, s.tx, s.phase, s.placed, s.wire, s.mem, s.bufIdx, s.slotLen, s'.mem, s'.bufIdx, s'.slotLen);
    assert WireOk(cfg, t, s.tx[t].cur, Done(s.phase[t]), s.placed[t], s.wire[t], s'.mem, s'.bufIdx, s'.slotLen) by {
      BatchOfWire(cfg, s.tx, s.phase, s.placed, s.wire, s'.mem, s'.bufIdx, s'.slotLen, t);
    }
    var e := s'.placed[t][|s.placed[t]|];
    MoveRun(cfg, t, s.tx[t].cur, s.phase[t].m, s.placed[t], s.wire[t], e, s'.mem, s'.bufIdx, s'.slotLen);
    WireUpdate(cfg, s.tx, s.phase, s.placed, s.wire, s'.tx, s'.phase, s'.placed, s'.wire, s'.mem, s'.bufIdx,
        s'.slotLen, t);
  }

  lemma BatchOfWire(cfg: Config, tx: seq<Ring>, phase: seq<Phase>, placed: seq<seq<Sent>>, wire: seq<seq<Bytes>>,
                    mem: map<Buf, Bytes>, bufIdx: map<Loc, nat>, slotLen: map<Loc, nat>, t: nat)
    requires ConfigOk(cfg) && |tx| == |phase| == |placed| == |wire| == |cfg.txSlots| && t < |tx|
    requires WireInv(cfg, tx, phase, placed, wire, mem, bufIdx, slotLen)
    ensures WireOk(cfg, t, tx[t].cur, Done(phase[t]), placed[t], wire[t], mem, bufIdx, slotLen)
  {}

  lemma MoveKeeps(cfg: Config, s: State, t: nat)
    requires WellFormed(cfg, s) && Guard(cfg, s, MoveOne(t)) && Inv(cfg, s)
    ensures Safe(cfg, s, MoveOne(t)) && Inv(cfg, Apply(cfg, s, MoveOne(t)))
  {
    hide LinksInv, HomeInv, WindowInv, BatchInv, BufInv, DataInv, WireInv, DeliveredInv, OrderInv, StageInv, SleepInv,
         ZoneInv, PhaseOk, PktData, SlotData, CopyInto;
    MovePkts(cfg, s, t);
    MoveBatch(cfg, s, t);
    MoveKeepsLinks(cfg, s, t);
    MoveBuffers(cfg, s, t);
    MoveShape(cfg, s, t);
    MoveContents(cfg, s, t);
    MoveHome(cfg, s, t);
    MoveDelivered(cfg, s, t);
    MoveWire(cfg, s, t);
    var s' := Apply(cfg, s, MoveOne(t));
    StageFrame(cfg, s.stage, s.lists, s'.lists);
    SleepFrame(s.phase, s.lists, s'.phase, s'.lists);
    var e := s'.placed[t][|s.placed[t]|];
    MoveOrder(cfg, s.arr, s.lists, s.dequeued, s.placed, t, e);
    GatherOrder(cfg, s.arr, s.lists[Held(t) := On(s.lists, Held(t))[1..]], s.dequeued, s'.placed, t,
                On(s.lists, Gathered(t))[1..]);
  }

  // ---------- advance_tx_ring ----------

  lemma {:induction false} SlotRunIs(cfg: Config, s: State, t: nat, cur: int, k: int, x: int)
    requires ConfigOk(cfg) && t < |cfg.txSlots| && OnRing(cfg.txSlots[t], cur) && 0 <= x < k <= cfg.txSlots[t]
    ensures SlotRun(cfg, s, t, cur, k)[x]
         == SlotData(cfg, s.mem, s.bufIdx, s.slotLen, Tx(t, Slot(cfg.txSlots[t], cur, x)))
  {
    if x < k - 1 { SlotRunIs(cfg, s, t, cur, k - 1, x); }
  }

  lemma FinishBatch(cfg: Config, s: State, t: nat)
    requires Inv(cfg, s) && Guard(cfg, s, Finish(t))
    ensures Safe(cfg, s, Finish(t))
    ensures var s' := FinishStep(cfg, s, t);
      && BatchInv(cfg, s'.tx, s'.phase, s'.heldLen, s'.lists)
      && RingInv(cfg, s'.rx, s'.spin, s'.tx, s'.phase) && WellFormed(cfg, s')
  {
    hide LinksInv, HomeInv, WindowInv, BatchInv, BufInv, DataInv, PlacedInv, WireInv, DeliveredInv, OrderInv, StageInv,
         SleepInv, ZoneInv, WireOk, SlotRun;
    BatchOf(cfg, s, t);
    var s' := FinishStep(cfg, s, t);
    BatchUpdate(cfg, s.tx, s.phase, s.heldLen, s.lists, s'.tx, s'.phase, s'.heldLen, s'.lists, t);
  }

  lemma FinishWire(cfg: Config, s: State, t: nat)
    requires Inv(cfg, s) && Guard(cfg, s, Finish(t)) && Safe(cfg, s, Finish(t))
    ensures var s' := FinishStep(cfg, s, t);
      WireInv(cfg, s'.tx, s'.phase, s'.placed, s'.wire, s'.mem, s'.bufIdx, s'.slotLen)
  {
    hide LinksInv, HomeInv, WindowInv, BatchInv, BufInv, DataInv, PlacedInv, WireInv, DeliveredInv, OrderInv, StageInv,
         SleepInv, ZoneInv, SlotData, SlotRun;
    BatchOf(cfg, s, t);
    var s' := FinishStep(cfg, s, t);
    var w := |s.wire[t]|;
    forall x | 0 <= x < |s'.wire[t]| ensures s'.wire[t][x] == s'.placed[t][x].out {
      if x >= w {
        SlotRunIs(cfg, s, t, s.tx[t].cur, s.phase[t].ntx, x - w);
        assert TxHolds(cfg, t, s.tx[t].cur, x - w, s.placed[t][w..][x - w].out, s.mem, s.bufIdx, s.slotLen);
      }
    }
    WireUpdate(cfg, s.tx, s.phase, s.placed, s.wire, s'.tx, s'.phase, s'.placed, s'.wire, s.mem, s.bufIdx, s.slotLen,
        t);
  }

  lemma FinishKeeps(cfg: Config, s: State, t: nat)
    requires Inv(cfg, s) && Guard(cfg, s, Finish(t))
    ensures Safe(cfg, s, Finish(t)) && Inv(cfg, Apply(cfg, s, Finish(t)))
  {
    hide RingInv, LinksInv, HomeInv, WindowInv, BatchInv, BufInv, DataInv, PlacedInv, WireInv, DeliveredInv, OrderInv,
         StageInv, SleepInv, ZoneInv, SlotRun;
    FinishBatch(cfg, s, t);
    SleepFrame(s.phase, s.lists, FinishStep(cfg, s, t).phase, s.lists);
    FinishWire(cfg, s, t);
  }
}
