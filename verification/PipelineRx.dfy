/** The steps of receive threads, of their sorters and of the kernel keep the invariant. */
module PipelineRx {
  import opened Circular
  import opened Octets
  import opened PipelineModel
  import opened PipelineLinks
  import opened PipelineInv
  import opened PipelineData
  import opened PipelineOrder

  // ---------- dequeue_pkts ----------

  /** A slot outside [new_head, cur) has a packet on no list. */
  lemma OutsideIsFree(cfg: Config, s: State, l: Loc)
    requires WellFormed(cfg, s) && Valid(cfg, l) && l.Rx?
    requires HomeInv(cfg, s.place, s.busy, s.arr) && WindowInv(cfg, s.rx, s.spin, s.busy)
    requires !InSpinWindow(cfg.rxSlots[l.ring], s.rx[l.ring], s.spin[l.ring], l.idx)
    ensures l !in s.busy && l !in s.place
  {}

  lemma NotOnAnyList(next: map<Loc, Loc>, lists: map<Place, seq<Loc>>, place: map<Loc, Place>, l: Loc)
    requires LinksInv(next, lists, place) && l !in place
    ensures forall p :: l !in On(lists, p)
  {
    forall p ensures l !in On(lists, p) {
      assert ListOk(next, place, p, On(lists, p));
    }
  }

  lemma DequeueSafe(cfg: Config, s: State, r: nat)
    requires WellFormed(cfg, s) && Guard(cfg, s, Dequeue(r))
    requires LinksInv(s.next, s.lists, s.place) && BufInv(cfg, s.bufIdx, s.pktBuf, s.mem)
    requires HomeInv(cfg, s.place, s.busy, s.arr) && WindowInv(cfg, s.rx, s.spin, s.busy)
    requires ZoneInv(cfg, s.zoneIdx)
    ensures Safe(cfg, s, Dequeue(r)) && Rx(r, s.rx[r].cur) !in s.place
  {
    OutsideIsFree(cfg, s, Rx(r, s.rx[r].cur));
  }

  lemma DequeueRings(cfg: Config, s: State, r: nat)
    requires WellFormed(cfg, s) && Guard(cfg, s, Dequeue(r))
    requires RingInv(cfg, s.rx, s.spin, s.tx, s.phase) && WindowInv(cfg, s.rx, s.spin, s.busy)
    ensures var s' := DequeueStep(cfg, s, r);
      && WellFormed(cfg, s') && RingInv(cfg, s'.rx, s'.spin, s'.tx, s'.phase) && WindowInv(cfg, s'.rx, s'.spin, s'.busy)
  {
    assert RxRingOk(cfg.rxSlots[r], s.rx[r], s.spin[r]);
  }

  lemma DequeueData(cfg: Config, s: State, r: nat)
    requires WellFormed(cfg, s) && Guard(cfg, s, Dequeue(r))
    requires BufInv(cfg, s.bufIdx, s.pktBuf, s.mem) && DataInv(cfg, s.place, s.arr, s.mem, s.pktBuf, s.pktLen)
    requires Rx(r, s.rx[r].cur) !in s.place
    ensures var s' := DequeueStep(cfg, s, r); DataInv(cfg, s'.place, s'.arr, s'.mem, s'.pktBuf, s'.pktLen)
  {
    var l := Rx(r, s.rx[r].cur);
    var s' := DequeueStep(cfg, s, r);
    assert PktData(s'.mem, s'.pktBuf, s'.pktLen, l) == SlotData(cfg, s.mem, s.bufIdx, s.slotLen, l);
    forall x | x in s'.place && x.Rx? && Valid(cfg, x) && x in s'.arr && x != l
      ensures PktData(s'.mem, s'.pktBuf, s'.pktLen, x) == Expected(cfg, s'.place[x], x, s'.arr[x])
    {
      assert PktData(s.mem, s.pktBuf, s.pktLen, x) == Expected(cfg, s.place[x], x, s.arr[x]);
    }
  }

  lemma DequeueRun(cfg: Config, r: nat, ring: Ring, delivered: seq<Bytes>, dequeued: seq<Bytes>,
                   mem: map<Buf, Bytes>, bufIdx: map<Loc, nat>, slotLen: map<Loc, nat>)
    requires ConfigOk(cfg) && r < |cfg.rxSlots| && DeliveredOk(cfg, r, ring, delivered, dequeued, mem, bufIdx, slotLen)
    requires OnRing(cfg.rxSlots[r], ring.cur) && OnRing(cfg.rxSlots[r], ring.tail) && ring.cur != ring.tail
    ensures DeliveredOk(cfg, r, ring.(cur := Next(cfg.rxSlots[r], ring.cur)), delivered,
                        dequeued + [SlotData(cfg, mem, bufIdx, slotLen, Rx(r, ring.cur))], mem, bufIdx, slotLen)
  {
    hide ConfigOk, SlotData;
    var n, cur := cfg.rxSlots[r], ring.cur;
    var run := delivered[|dequeued|..];
    var dequeued' := dequeued + [SlotData(cfg, mem, bufIdx, slotLen, Rx(r, cur))];
    assert RxHolds(cfg, r, cur, 0, run[0], mem, bufIdx, slotLen);
    assert dequeued' <= delivered;
    var run' := delivered[|dequeued'|..];
    forall x | 0 <= x < |run'| ensures RxHolds(cfg, r, Next(n, cur), x, run'[x], mem, bufIdx, slotLen) {
      assert RxHolds(cfg, r, cur, x + 1, run[x + 1], mem, bufIdx, slotLen);
    }
  }

  lemma DequeueDelivered(cfg: Config, s: State, r: nat)
    requires WellFormed(cfg, s) && Guard(cfg, s, Dequeue(r))
    requires DeliveredInv(cfg, s.rx, s.delivered, s.dequeued, s.mem, s.bufIdx, s.slotLen)
    ensures var s' := DequeueStep(cfg, s, r);
      DeliveredInv(cfg, s'.rx, s'.delivered, s'.dequeued, s'.mem, s'.bufIdx, s'.slotLen)
  {
    hide DeliveredOk, ConfigOk, SlotData;
    var s' := DequeueStep(cfg, s, r);
    DequeueRun(cfg, r, s.rx[r], s.delivered[r], s.dequeued[r], s.mem, s.bufIdx, s.slotLen);
    forall q | 0 <= q < |s'.rx|
      ensures DeliveredOk(cfg, q, s'.rx[q], s'.delivered[q], s'.dequeued[q], s'.mem, s'.bufIdx, s'.slotLen)
    {
      assert DeliveredOk(cfg, q, s.rx[q], s.delivered[q], s.dequeued[q], s.mem, s.bufIdx, s.slotLen);
    }
  }

  lemma HomeOfNew(cfg: Config, place: map<Loc, Place>, busy: set<Loc>, arr: map<Loc, Bytes>, l: Loc, data: Bytes)
    requires ConfigOk(cfg) && HomeInv(cfg, place, busy, arr) && l !in place && l.Rx? && Valid(cfg, l)
    ensures HomeInv(cfg, place[l := Local(l.ring)], busy + {l}, arr[l := data])
  {
    var place', arr' := place[l := Local(l.ring)], arr[l := data];
    forall x | x in place' ensures PlaceOk(cfg, arr', x, place'[x]) {
      if x != l { assert PlaceOk(cfg, arr, x, place[x]); }
    }
  }

  lemma DequeueKeeps(cfg: Config, s: State, r: nat)
    requires Inv(cfg, s) && Guard(cfg, s, Dequeue(r))
    ensures Safe(cfg, s, Dequeue(r)) && Inv(cfg, Apply(cfg, s, Dequeue(r)))
  {
    hide RingInv, LinksInv, HomeInv, WindowInv, BatchInv, BufInv, DataInv, PlacedInv, WireInv, DeliveredInv, OrderInv,
         StageInv, SleepInv, ZoneInv;
    var l := Rx(r, s.rx[r].cur);
    var data := SlotData(cfg, s.mem, s.bufIdx, s.slotLen, l);
    DequeueSafe(cfg, s, r);
    DequeueRings(cfg, s, r);
    DequeueData(cfg, s, r);
    DequeueDelivered(cfg, s, r);
    HomeOfNew(cfg, s.place, s.busy, s.arr, l, data);
    AppendKeepsLinks(s.next, s.lists, s.place, Local(r), l);
    NotOnAnyList(s.next, s.lists, s.place, l);
    DequeueOrder(cfg, s.arr, s.lists, s.dequeued, s.placed, r, l, data);
    var s' := Apply(cfg, s, Dequeue(r));
    BatchFrame(cfg, s.tx, s.phase, s.heldLen, s.lists, s'.lists);
    SleepFrame(s.phase, s.lists, s'.phase, s'.lists);
    StageOf(cfg, s, r);
    StageUpdate(cfg, s.stage, s.lists, s'.stage, s'.lists, r);
  }

  lemma StageOf(cfg: Config, s: State, r: nat)
    requires WellFormed(cfg, s) && r < |s.stage| && StageInv(cfg, s.stage, s.lists)
    ensures StageOk(|cfg.consumers[r]|, s.stage[r], s.lists, r)
  {
    hide ConfigOk, SlotsPresent, RingsOnRing, StageOk;
  }

  lemma BatchFrame(cfg: Config, tx: seq<Ring>, phase: seq<Phase>, heldLen: seq<int>,
                   lists: map<Place, seq<Loc>>, lists': map<Place, seq<Loc>>)
    requires |tx| == |phase| == |heldLen| == |cfg.txSlots| && BatchInv(cfg, tx, phase, heldLen, lists)
    requires forall t :: On(lists', Held(t)) == On(lists, Held(t)) && On(lists', Gathered(t)) == On(lists, Gathered(t))
    ensures BatchInv(cfg, tx, phase, heldLen, lists')
  {
    forall t | 0 <= t < |tx|
      ensures BatchOk(cfg.txSlots[t], t, tx[t].cur, phase[t], heldLen[t], On(lists', Held(t)), On(lists', Gathered(t)))
    {
      assert On(lists', Held(t)) == On(lists, Held(t));
    }
  }

  // ---------- sin_pkt_sorter_proc ----------

  lemma LocalHead(cfg: Config, s: State, r: nat)
    requires ConfigOk(cfg) && r < |cfg.rxSlots| && On(s.lists, Local(r)) != []
    requires LinksInv(s.next, s.lists, s.place) && HomeInv(cfg, s.place, s.busy, s.arr)
    requires DataInv(cfg, s.place, s.arr, s.mem, s.pktBuf, s.pktLen)
    ensures var l := On(s.lists, Local(r))[0];
      && l in s.place && s.place[l] == Local(r) && l.Rx? && l.ring == r && Valid(cfg, l) && l in s.arr
      && PktData(s.mem, s.pktBuf, s.pktLen, l) == s.arr[l]
  {
    hide ConfigOk, PktData;
    var l := On(s.lists, Local(r))[0];
    assert ListOk(s.next, s.place, Local(r), On(s.lists, Local(r)));
    assert PlaceOk(cfg, s.arr, l, s.place[l]);
  }

  /** A packet that changes lists keeps its contents when the consumer has run on both or
      on neither. */
  lemma MoveHome(cfg: Config, place: map<Loc, Place>, busy: set<Loc>, arr: map<Loc, Bytes>,
                 mem: map<Buf, Bytes>, pktBuf: map<Loc, Buf>, pktLen: map<Loc, nat>, l: Loc, p: Place)
    requires ConfigOk(cfg) && HomeInv(cfg, place, busy, arr) && DataInv(cfg, place, arr, mem, pktBuf, pktLen)
    requires l in place && l.Rx? && PlaceOk(cfg, arr, l, p)
    requires Expected(cfg, p, l, arr[l]) == Expected(cfg, place[l], l, arr[l])
    ensures HomeInv(cfg, place[l := p], busy, arr) && DataInv(cfg, place[l := p], arr, mem, pktBuf, pktLen)
  {
    hide ConfigOk, PktData;
    var place' := place[l := p];
    forall x | x in place' ensures PlaceOk(cfg, arr, x, place'[x]) {
      if x != l { assert PlaceOk(cfg, arr, x, place[x]); }
    }
  }

  lemma SortLinks(next: map<Loc, Loc>, lists: map<Place, seq<Loc>>, place: map<Loc, Place>, r: nat, w: Place)
    requires LinksInv(next, lists, place) && On(lists, Local(r)) != [] && w.Work?
    ensures var here := On(lists, Local(r)); var l := here[0];
      LinksInv(LinkAfter(next - {l}, On(lists, w), l),
               lists[Local(r) := here[1..]][w := On(lists, w) + [l]], place[l := w])
  {
    hide LinksInv;
    var here := On(lists, Local(r));
    var l := here[0];
    UnlinkKeepsLinks(next, lists, place, Local(r));
    AppendKeepsLinks(next - {l}, lists[Local(r) := here[1..]], place - {l}, w, l);
    assert (place - {l})[l := w] == place[l := w];
  }

  lemma SortKeeps(cfg: Config, s: State, r: nat)
    requires Inv(cfg, s) && Guard(cfg, s, SortOne(r))
    ensures Safe(cfg, s, SortOne(r)) && Inv(cfg, Apply(cfg, s, SortOne(r)))
  {
    hide RingInv, LinksInv, HomeInv, WindowInv, BatchInv, BufInv, DataInv, PlacedInv, WireInv, DeliveredInv, OrderInv,
         StageInv, SleepInv, ZoneInv;
    LocalHead(cfg, s, r);
    var l := On(s.lists, Local(r))[0];
    var k := Class(cfg, r, s.arr[l]);
    MoveHome(cfg, s.place, s.busy, s.arr, s.mem, s.pktBuf, s.pktLen, l, Work(r, k));
    SortLinks(s.next, s.lists, s.place, r, Work(r, k));
    SortOrder(cfg, s.arr, s.lists, s.dequeued, s.placed, r, k);
    var s' := Apply(cfg, s, SortOne(r));
    BatchFrame(cfg, s.tx, s.phase, s.heldLen, s.lists, s'.lists);
    SleepFrame(s.phase, s.lists, s'.phase, s'.lists);
    StageUpdate(cfg, s.stage, s.lists, s'.stage, s'.lists, r);
  }

  // ---------- pkt_consume ----------

  /** What the packets of a work list have in common. */
  lemma WorkMembers(cfg: Config, s: State, r: nat, k: nat)
    requires WellFormed(cfg, s) && r < |cfg.rxSlots|
    requires LinksInv(s.next, s.lists, s.place) && HomeInv(cfg, s.place, s.busy, s.arr)
    ensures forall l :: l in On(s.lists, Work(r, k)) ==>
      && l in s.place && s.place[l] == Work(r, k) && Valid(cfg, l)
      && l.Rx? && l.ring == r && l in s.busy && Mine(cfg, s.arr, l, r, k)
    ensures On(s.lists, Work(r, k)) != [] ==> k < |cfg.consumers[r]|
  {
    var ls := On(s.lists, Work(r, k));
    assert ListOk(s.next, s.place, Work(r, k), ls);
    forall l | l in ls
      ensures l in s.place && s.place[l] == Work(r, k) && PlaceOk(cfg, s.arr, l, Work(r, k)) {}
    if ls != [] { assert Mine(cfg, s.arr, ls[0], r, k); }
  }

  lemma DeliverMemory(cfg: Config, s: State, r: nat, k: nat)
    requires WellFormed(cfg, s) && r < |cfg.rxSlots| && k < |cfg.consumers[r]|
    requires LinksInv(s.next, s.lists, s.place) && HomeInv(cfg, s.place, s.busy, s.arr)
    requires BufInv(cfg, s.bufIdx, s.pktBuf, s.mem)
    ensures var ls := On(s.lists, Work(r, k)); var f := cfg.consumers[r][k].rewrite;
      var mem' := RewriteAll(s.mem, s.pktBuf, s.pktLen, ls, f);
      && mem'.Keys == s.mem.Keys
      && (forall b :: b in s.mem ==> |mem'[b]| == |s.mem[b]|)
      && (forall l :: Valid(cfg, l) && l !in ls ==> mem'[s.pktBuf[l]] == s.mem[s.pktBuf[l]])
      && (forall l :: l in ls ==> PktData(mem', s.pktBuf, s.pktLen, l) == f(PktData(s.mem, s.pktBuf, s.pktLen, l)))
  {
    var ls, f := On(s.lists, Work(r, k)), cfg.consumers[r][k].rewrite;
    WorkMembers(cfg, s, r, k);
    assert LenKept(f);
    forall i, j | 0 <= i < j < |ls| && ls[i] in s.pktBuf
        && ls[j] in s.pktBuf ensures s.pktBuf[ls[i]] != s.pktBuf[ls[j]] {
      assert ls[i] in ls && ls[j] in ls;
      assert ListOk(s.next, s.place, Work(r, k), ls);
    }
    RewriteAllEffect(s.mem, s.pktBuf, s.pktLen, ls, f);
  }

  lemma DeliverSlots(cfg: Config, s: State, r: nat, k: nat, mem': map<Buf, Bytes>)
    requires WellFormed(cfg, s) && r < |cfg.rxSlots| && BufInv(cfg, s.bufIdx, s.pktBuf, s.mem)
    requires mem'.Keys == s.mem.Keys
    requires forall l :: Valid(cfg, l) && l !in On(s.lists, Work(r, k)) ==> mem'[s.pktBuf[l]] == s.mem[s.pktBuf[l]]
    ensures forall l :: Valid(cfg, l) && l !in On(s.lists, Work(r, k)) ==>
      SlotSame(cfg, l, s.mem, s.bufIdx, s.slotLen, mem', s.bufIdx, s.slotLen)
  {}

  lemma DeliverData(cfg: Config, s: State, r: nat, k: nat)
    requires WellFormed(cfg, s) && Guard(cfg, s, Deliver(r, k)) && k < |cfg.consumers[r]|
    requires LinksInv(s.next, s.lists, s.place) && HomeInv(cfg, s.place, s.busy, s.arr)
    requires BufInv(cfg, s.bufIdx, s.pktBuf, s.mem) && DataInv(cfg, s.place, s.arr, s.mem, s.pktBuf, s.pktLen)
    ensures var s' := DeliverStep(cfg, s, r, k); DataInv(cfg, s'.place, s'.arr, s'.mem, s'.pktBuf, s'.pktLen)
  {
    hide LinksInv, HomeInv, BufInv, RewriteAll;
    DeliverMemory(cfg, s, r, k);
    WorkMembers(cfg, s, r, k);
    var s' := DeliverStep(cfg, s, r, k);
    forall x | x in s'.place && x.Rx? && Valid(cfg, x) && x in s'.arr
      ensures PktData(s'.mem, s'.pktBuf, s'.pktLen, x) == Expected(cfg, s'.place[x], x, s'.arr[x])
    {
      assert PktData(s.mem, s.pktBuf, s.pktLen, x) == Expected(cfg, s.place[x], x, s.arr[x]);
    }
  }

  lemma DeliverHome(cfg: Config, place: map<Loc, Place>, busy: set<Loc>, arr: map<Loc, Bytes>, ls: seq<Loc>, r: nat,
                    k: nat)
    requires ConfigOk(cfg) && HomeInv(cfg, place, busy, arr) && r < |cfg.rxSlots| && k < |cfg.consumers[r]|
    requires forall l :: l in ls ==> l in place && Valid(cfg, l) && Mine(cfg, arr, l, r, k)
    ensures HomeInv(cfg, Relabel(place, ls, Queue(cfg.consumers[r][k].queue)), busy, arr)
  {
    var place' := Relabel(place, ls, Queue(cfg.consumers[r][k].queue));
    forall x | x in place' ensures PlaceOk(cfg, arr, x, place'[x]) {
      assert PlaceOk(cfg, arr, x, place[x]);
    }
  }

  lemma WaitingIsFree(cfg: Config, s: State)
    requires WellFormed(cfg, s) && RingInv(cfg, s.rx, s.spin, s.tx, s.phase) && WindowInv(cfg, s.rx, s.spin, s.busy)
    ensures forall l :: Waiting(cfg, s.rx, l) ==> l !in s.busy
  {
    forall l | Waiting(cfg, s.rx, l) ensures l !in s.busy {
      assert RxRingOk(cfg.rxSlots[l.ring], s.rx[l.ring], s.spin[l.ring]);
    }
  }

  /** Slots in use on either side are not those of a work list's packets. */
  lemma DeliverFrames(cfg: Config, s: State, r: nat, k: nat)
    requires WellFormed(cfg, s) && Guard(cfg, s, Deliver(r, k)) && k < |cfg.consumers[r]|
    requires RingInv(cfg, s.rx, s.spin, s.tx, s.phase)
    requires LinksInv(s.next, s.lists, s.place) && HomeInv(cfg, s.place, s.busy, s.arr)
    requires WindowInv(cfg, s.rx, s.spin, s.busy) && BufInv(cfg, s.bufIdx, s.pktBuf, s.mem)
    ensures var mem' := DeliverStep(cfg, s, r, k).mem;
      && (forall l :: Filled(cfg, s.tx, s.phase, l) ==>
        SlotSame(cfg, l, s.mem, s.bufIdx, s.slotLen, mem', s.bufIdx, s.slotLen))
      && (forall l :: Waiting(cfg, s.rx, l) ==> SlotSame(cfg, l, s.mem, s.bufIdx, s.slotLen, mem', s.bufIdx, s.slotLen))
  {
    hide LinksInv, HomeInv, BufInv, WindowInv, RingInv, RewriteAll, SlotSame;
    DeliverMemory(cfg, s, r, k);
    DeliverSlots(cfg, s, r, k, DeliverStep(cfg, s, r, k).mem);
    WorkMembers(cfg, s, r, k);
    WaitingIsFree(cfg, s);
  }

  /** What delivery does to contents. */
  lemma DeliverContents(cfg: Config, s: State, r: nat, k: nat)
    requires Inv(cfg, s) && Guard(cfg, s, Deliver(r, k)) && k < |cfg.consumers[r]|
    ensures var s' := DeliverStep(cfg, s, r, k);
      && BufInv(cfg, s'.bufIdx, s'.pktBuf, s'.mem) && DataInv(cfg, s'.place, s'.arr, s'.mem, s'.pktBuf, s'.pktLen)
      && DeliveredInv(cfg, s'.rx, s'.delivered, s'.dequeued, s'.mem, s'.bufIdx, s'.slotLen)
      && WireInv(cfg, s'.tx, s'.phase, s'.placed, s'.wire, s'.mem, s'.bufIdx, s'.slotLen)
  {
    hide RingInv, LinksInv, HomeInv, WindowInv, BatchInv, BufInv, DataInv, PlacedInv, WireInv, DeliveredInv, OrderInv,
         StageInv, SleepInv, ZoneInv, RewriteAll, LinkAfter, Relabel, Signalled;
    DeliverMemory(cfg, s, r, k);
    var s' := DeliverStep(cfg, s, r, k);
    BufFrame(cfg, s.bufIdx, s.pktBuf, s.mem, s'.mem);
    DeliverData(cfg, s, r, k);
    DeliverFrames(cfg, s, r, k);
    DeliveredFrame(cfg, s.rx, s.delivered, s.dequeued, s.mem, s.bufIdx, s.slotLen, s'.mem, s'.bufIdx, s'.slotLen);
    DoneFits(cfg, s.tx, s.rx, s.spin, s.phase);
    WireFrame(cfg, s.tx, s.phase, s.placed, s.wire, s.mem, s.bufIdx, s.slotLen, s'.mem, s'.bufIdx, s'.slotLen);
    SignalWire(cfg, s.tx, s.phase, s.placed, s.wire, s'.mem, s.bufIdx, s.slotLen, cfg.consumers[r][k].queue);
  }

  /** What delivery does to lists and threads. */
  lemma DeliverThreads(cfg: Config, s: State, r: nat, k: nat)
    requires Inv(cfg, s) && Guard(cfg, s, Deliver(r, k)) && k < |cfg.consumers[r]|
    ensures var s' := DeliverStep(cfg, s, r, k);
      && LinksInv(s'.next, s'.lists, s'.place) && HomeInv(cfg, s'.place, s'.busy, s'.arr)
      && OrderInv(cfg, s'.arr, s'.lists, s'.dequeued, s'.placed)
      && RingInv(cfg, s'.rx, s'.spin, s'.tx, s'.phase) && BatchInv(cfg, s'.tx, s'.phase, s'.heldLen, s'.lists)
      && StageInv(cfg, s'.stage, s'.lists) && SleepInv(s'.phase, s'.lists)
  {
    hide RingInv, LinksInv, HomeInv, WindowInv, BatchInv, BufInv, DataInv, PlacedInv, WireInv, DeliveredInv, OrderInv,
         StageInv, SleepInv, ZoneInv, RewriteAll, LinkAfter, Relabel, SlotsPresent, RingsOnRing;
    WorkMembers(cfg, s, r, k);
    var ls, q := On(s.lists, Work(r, k)), Queue(cfg.consumers[r][k].queue);
    DeliverHome(cfg, s.place, s.busy, s.arr, ls, r, k);
    SpliceKeepsLinks(s.next, s.lists, s.place, Work(r, k), q);
    DeliverOrder(cfg, s.arr, s.lists, s.dequeued, s.placed, r, k);
    var s' := DeliverStep(cfg, s, r, k);
    BatchFrame(cfg, s.tx, s.phase, s.heldLen, s.lists, s'.lists);
    SignalFrame(cfg, s.rx, s.spin, s.tx, s.phase, s.heldLen, s'.lists, cfg.consumers[r][k].queue);
    SleepFrame(s.phase, s.lists, s'.phase, s'.lists);
    StageOf(cfg, s, r);
    StageUpdate(cfg, s.stage, s.lists, s'.stage, s'.lists, r);
  }

  lemma DeliverKeeps(cfg: Config, s: State, r: nat, k: nat)
    requires Inv(cfg, s) && Guard(cfg, s, Deliver(r, k))
    ensures Safe(cfg, s, Deliver(r, k)) && Inv(cfg, Apply(cfg, s, Deliver(r, k)))
  {
    hide RingInv, LinksInv, HomeInv, WindowInv, BatchInv, BufInv, DataInv, PlacedInv, WireInv, DeliveredInv, OrderInv,
         StageInv, SleepInv, ZoneInv, RewriteAll, LinkAfter, Relabel, Signalled;
    WorkMembers(cfg, s, r, k);
    DeliverMemory(cfg, s, r, k);
    DeliverContents(cfg, s, r, k);
    DeliverThreads(cfg, s, r, k);
  }

  // ---------- spin_ring ----------

  lemma SpinKeeps(cfg: Config, s: State, r: nat, step: Step)
    requires Inv(cfg, s) && Guard(cfg, s, step)
    requires step == SpinScan(r) || step == SpinPublish(r)
    ensures Safe(cfg, s, step) && Inv(cfg, Apply(cfg, s, step))
  {
    hide RingInv, LinksInv, HomeInv, WindowInv, BatchInv, BufInv, DataInv, PlacedInv, WireInv, DeliveredInv, OrderInv,
         StageInv, SleepInv, ZoneInv;
    var s' := Apply(cfg, s, step);
    SpinRings(cfg, s, r, step);
    HeadFrame(cfg, s.rx, s'.rx, s.delivered, s.dequeued, s.mem, s.bufIdx, s.slotLen);
    StageOf(cfg, s, r);
    StageUpdate(cfg, s.stage, s.lists, s'.stage, s'.lists, r);
  }

  /** Where head is does not matter to what was delivered and dequeued. */
  lemma HeadFrame(cfg: Config, rx: seq<Ring>, rx': seq<Ring>, delivered: seq<seq<Bytes>>, dequeued: seq<seq<Bytes>>,
                  mem: map<Buf, Bytes>, bufIdx: map<Loc, nat>, slotLen: map<Loc, nat>)
    requires ConfigOk(cfg) && |rx| == |rx'| == |delivered| == |dequeued| == |cfg.rxSlots|
    requires DeliveredInv(cfg, rx, delivered, dequeued, mem, bufIdx, slotLen)
    requires forall q :: 0 <= q < |rx| ==> rx'[q].cur == rx[q].cur && rx'[q].tail == rx[q].tail
    ensures DeliveredInv(cfg, rx', delivered, dequeued, mem, bufIdx, slotLen)
  {
    hide ConfigOk, RxRun;
    forall q | 0 <= q < |rx'| ensures DeliveredOk(cfg, q, rx'[q], delivered[q], dequeued[q], mem, bufIdx, slotLen) {
      assert DeliveredOk(cfg, q, rx[q], delivered[q], dequeued[q], mem, bufIdx, slotLen);
    }
  }

  /** Entering and leaving the loops of a receive thread. */
  lemma TurnKeeps(cfg: Config, s: State, r: nat, to: Stage)
    requires Inv(cfg, s) && Guard(cfg, s, Turn(r, to))
    ensures Safe(cfg, s, Turn(r, to)) && Inv(cfg, Apply(cfg, s, Turn(r, to)))
  {
    hide RingInv, LinksInv, HomeInv, WindowInv, BatchInv, BufInv, DataInv, PlacedInv, WireInv, DeliveredInv, OrderInv,
         StageInv, SleepInv, ZoneInv;
    var s' := Apply(cfg, s, Turn(r, to));
    SpinRings(cfg, s, r, Turn(r, to));
    StageOf(cfg, s, r);
    NoWorkBeyond(cfg, s, r);
    StageUpdate(cfg, s.stage, s.lists, s'.stage, s'.lists, r);
  }

  /** There are no work lists past the default consumer's. */
  lemma NoWorkBeyond(cfg: Config, s: State, r: nat)
    requires WellFormed(cfg, s) && r < |cfg.rxSlots|
    requires LinksInv(s.next, s.lists, s.place) && HomeInv(cfg, s.place, s.busy, s.arr)
    ensures forall k: nat :: k >= |cfg.consumers[r]| ==> On(s.lists, Work(r, k)) == []
  {
    hide LinksInv, HomeInv, SlotsPresent, RingsOnRing;
    forall k: nat | k >= |cfg.consumers[r]| ensures On(s.lists, Work(r, k)) == [] {
      WorkMembers(cfg, s, r, k);
    }
  }

  /** Moving new_head past a free slot, restarting it at head, or publishing it. */
  lemma SpinArithmetic(n: nat, ring: Ring, spin: int, i: int)
    requires OnRing(n, ring.head) && OnRing(n, ring.cur) && OnRing(n, ring.tail) && OnRing(n, spin) && OnRing(n, i)
    requires RxRingOk(n, ring, spin)
    ensures RxRingOk(n, ring, ring.head) && RxRingOk(n, ring.(head := spin), spin)
    ensures spin != ring.cur ==> RxRingOk(n, ring, Next(n, spin))
    ensures InSpinWindow(n, ring, spin, i) ==>
      && InSpinWindow(n, ring, ring.head, i) && InSpinWindow(n, ring.(head := spin), spin, i)
      && (i != spin && spin != ring.cur ==> InSpinWindow(n, ring, Next(n, spin), i))
  {}

  lemma SpinRings(cfg: Config, s: State, r: nat, step: Step)
    requires WellFormed(cfg, s) && Guard(cfg, s, step)
    requires (step.Turn? && step.r == r) || step == SpinScan(r) || step == SpinPublish(r)
    requires RingInv(cfg, s.rx, s.spin, s.tx, s.phase) && WindowInv(cfg, s.rx, s.spin, s.busy)
    ensures var s' := Apply(cfg, s, step);
      && WellFormed(cfg, s') && RingInv(cfg, s'.rx, s'.spin, s'.tx, s'.phase) && WindowInv(cfg, s'.rx, s'.spin, s'.busy)
  {
    hide ConfigOk, SlotsPresent, PhaseOk, RxRingOk, InSpinWindow;
    var n := cfg.rxSlots[r];
    assert RxRingOk(n, s.rx[r], s.spin[r]);
    SpinArithmetic(n, s.rx[r], s.spin[r], s.rx[r].head);
    var s' := Apply(cfg, s, step);
    forall l | l in s'.busy
      ensures Valid(cfg, l) && l.Rx? && InSpinWindow(cfg.rxSlots[l.ring], s'.rx[l.ring], s'.spin[l.ring], l.idx)
    {
      if l.ring == r {
        SpinArithmetic(n, s.rx[r], s.spin[r], l.idx);
      }
    }
  }

  // ---------- the kernel ----------

  /** The kernel's slots are neither filled by a batch, nor waiting, nor in use. */
  lemma KernelSlotUnused(cfg: Config, s: State, l: Loc)
    requires WellFormed(cfg, s) && KernelOwns(cfg, s, l) && RingInv(cfg, s.rx, s.spin, s.tx, s.phase)
    requires HomeInv(cfg, s.place, s.busy, s.arr) && WindowInv(cfg, s.rx, s.spin, s.busy)
    ensures !Filled(cfg, s.tx, s.phase, l) && !Waiting(cfg, s.rx, l) && (l.Rx? ==> l !in s.place)
  {
    match l {
      case Rx(r, i) => assert RxRingOk(cfg.rxSlots[r], s.rx[r], s.spin[r]);
      case Tx(t, j) => assert PhaseOk(cfg.txSlots[t], s.tx[t], s.phase[t]);
    }
  }

  lemma WrittenPresent(cfg: Config, bufIdx: map<Loc, nat>, slotLen: map<Loc, nat>, pktBuf: map<Loc, Buf>,
                       pktLen: map<Loc, nat>, mem: map<Buf, Bytes>, l: Loc, len: nat, b: Buf, data: Bytes)
    requires SlotsPresent(cfg, bufIdx, slotLen, pktBuf, pktLen, mem)
    requires b in mem && |data| == cfg.bufSize && len <= cfg.bufSize
    ensures mem[b := data].Keys == mem.Keys
    ensures SlotsPresent(cfg, bufIdx, slotLen[l := len], pktBuf, pktLen, mem[b := data])
  {
    hide Valid;
  }

  lemma KernelWriteShape(cfg: Config, s: State, l: Loc, data: Bytes, len: nat)
    requires WellFormed(cfg, s) && Guard(cfg, s, KernelWrite(l, data, len)) && BufInv(cfg, s.bufIdx, s.pktBuf, s.mem)
    ensures var s' := Apply(cfg, s, KernelWrite(l, data, len)); s'.mem.Keys == s.mem.Keys && WellFormed(cfg, s')
  {
    hide ConfigOk, RingsOnRing, KernelOwns, NetmapBuf, SlotData, SlotsPresent;
    BufferOf(cfg, s, l);
    WrittenPresent(cfg, s.bufIdx, s.slotLen, s.pktBuf, s.pktLen, s.mem, l, len, NetmapBuf(cfg, l, s.bufIdx[l]), data);
  }

  lemma BufferOf(cfg: Config, s: State, l: Loc)
    requires WellFormed(cfg, s) && Valid(cfg, l) && BufInv(cfg, s.bufIdx, s.pktBuf, s.mem)
    ensures l in s.bufIdx && l in s.pktBuf && s.pktBuf[l] == NetmapBuf(cfg, l, s.bufIdx[l]) && s.pktBuf[l] in s.mem
  {
    hide ConfigOk, RingsOnRing, NetmapBuf;
  }

  lemma KernelWriteSlots(cfg: Config, s: State, l: Loc, data: Bytes, len: nat)
    requires WellFormed(cfg, s) && Guard(cfg, s, KernelWrite(l, data, len)) && BufInv(cfg, s.bufIdx, s.pktBuf, s.mem)
    ensures var s' := Apply(cfg, s, KernelWrite(l, data, len));
      && (forall x :: Valid(cfg, x) && x != l ==> s'.mem[s.pktBuf[x]] == s.mem[s.pktBuf[x]])
      && (forall x :: Valid(cfg, x) && x != l ==>
            SlotSame(cfg, x, s.mem, s.bufIdx, s.slotLen, s'.mem, s'.bufIdx, s'.slotLen))
  {
    hide ConfigOk, RingsOnRing, KernelOwns;
    var s' := Apply(cfg, s, KernelWrite(l, data, len));
    forall x | Valid(cfg, x) && x != l
      ensures s'.mem[s.pktBuf[x]] == s.mem[s.pktBuf[x]]
      ensures SlotSame(cfg, x, s.mem, s.bufIdx, s.slotLen, s'.mem, s'.bufIdx, s'.slotLen)
    {
      assert s.pktBuf[x] == NetmapBuf(cfg, x, s.bufIdx[x]) != s.pktBuf[l] == NetmapBuf(cfg, l, s.bufIdx[l]);
    }
  }

  lemma KernelWriteKeeps(cfg: Config, s: State, l: Loc, data: Bytes, len: nat)
    requires Inv(cfg, s) && Guard(cfg, s, KernelWrite(l, data, len))
    ensures Safe(cfg, s, KernelWrite(l, data, len)) && Inv(cfg, Apply(cfg, s, KernelWrite(l, data, len)))
  {
    hide RingInv, LinksInv, HomeInv, WindowInv, BatchInv, BufInv, DataInv, PlacedInv, WireInv, DeliveredInv, OrderInv,
         StageInv, SleepInv, ZoneInv;
    var s' := Apply(cfg, s, KernelWrite(l, data, len));
    KernelSlotUnused(cfg, s, l);
    KernelWriteShape(cfg, s, l, data, len);
    KernelWriteSlots(cfg, s, l, data, len);
    KernelWriteData(cfg, s, l, data, len);
    BufFrame(cfg, s.bufIdx, s.pktBuf, s.mem, s'.mem);
    DeliveredFrame(cfg, s.rx, s.delivered, s.dequeued, s.mem, s.bufIdx, s.slotLen, s'.mem, s'.bufIdx, s'.slotLen);
    DoneFits(cfg, s.tx, s.rx, s.spin, s.phase);
    WireFrame(cfg, s.tx, s.phase, s.placed, s.wire, s.mem, s.bufIdx, s.slotLen, s'.mem, s'.bufIdx, s'.slotLen);
  }

  lemma KernelWriteData(cfg: Config, s: State, l: Loc, data: Bytes, len: nat)
    requires WellFormed(cfg, s) && Guard(cfg, s, KernelWrite(l, data, len)) && (l.Rx? ==> l !in s.place)
    requires BufInv(cfg, s.bufIdx, s.pktBuf, s.mem) && DataInv(cfg, s.place, s.arr, s.mem, s.pktBuf, s.pktLen)
    ensures var s' := Apply(cfg, s, KernelWrite(l, data, len));
      DataInv(cfg, s'.place, s'.arr, s'.mem, s'.pktBuf, s'.pktLen)
  {
    hide ConfigOk, BufInv, SlotSame;
    KernelWriteSlots(cfg, s, l, data, len);
    var s' := Apply(cfg, s, KernelWrite(l, data, len));
    forall x | x in s'.place && x.Rx? && Valid(cfg, x) && x in s'.arr
      ensures PktData(s'.mem, s'.pktBuf, s'.pktLen, x) == Expected(cfg, s'.place[x], x, s'.arr[x])
    {
      assert PktData(s.mem, s.pktBuf, s.pktLen, x) == Expected(cfg, s.place[x], x, s.arr[x]);
    }
  }

  lemma KernelRxKeeps(cfg: Config, s: State, r: nat)
    requires Inv(cfg, s) && Guard(cfg, s, KernelRx(r))
    ensures Safe(cfg, s, KernelRx(r)) && Inv(cfg, Apply(cfg, s, KernelRx(r)))
  {
    hide RingInv, LinksInv, HomeInv, WindowInv, BatchInv, BufInv, DataInv, PlacedInv, WireInv, DeliveredInv, OrderInv,
         StageInv, SleepInv, ZoneInv;
    var s' := Apply(cfg, s, KernelRx(r));
    KernelRxRings(cfg, s, r);
    KernelRxDelivered(cfg, s, r);
  }

  lemma KernelRxRings(cfg: Config, s: State, r: nat)
    requires WellFormed(cfg, s) && Guard(cfg, s, KernelRx(r))
    requires RingInv(cfg, s.rx, s.spin, s.tx, s.phase) && WindowInv(cfg, s.rx, s.spin, s.busy)
    ensures var s' := Apply(cfg, s, KernelRx(r));
      && WellFormed(cfg, s') && RingInv(cfg, s'.rx, s'.spin, s'.tx, s'.phase) && WindowInv(cfg, s'.rx, s'.spin, s'.busy)
  {
    assert RxRingOk(cfg.rxSlots[r], s.rx[r], s.spin[r]);
  }

  lemma KernelRun(cfg: Config, r: nat, ring: Ring, delivered: seq<Bytes>, dequeued: seq<Bytes>,
                  mem: map<Buf, Bytes>, bufIdx: map<Loc, nat>, slotLen: map<Loc, nat>)
    requires ConfigOk(cfg) && r < |cfg.rxSlots| && DeliveredOk(cfg, r, ring, delivered, dequeued, mem, bufIdx, slotLen)
    requires OnRing(cfg.rxSlots[r], ring.cur) && OnRing(cfg.rxSlots[r], ring.tail)
    requires Next(cfg.rxSlots[r], ring.tail) != ring.cur
    ensures DeliveredOk(cfg, r, ring.(tail := Next(cfg.rxSlots[r], ring.tail)),
                        delivered + [SlotData(cfg, mem, bufIdx, slotLen, Rx(r, ring.tail))], dequeued, mem, bufIdx,
                            slotLen)
  {
    hide ConfigOk, SlotData;
    var cur := ring.cur;
    var run := delivered[|dequeued|..];
    var delivered' := delivered + [SlotData(cfg, mem, bufIdx, slotLen, Rx(r, ring.tail))];
    var run' := delivered'[|dequeued|..];
    forall x | 0 <= x < |run'| ensures RxHolds(cfg, r, cur, x, run'[x], mem, bufIdx, slotLen) {
      if x < |run| { assert RxHolds(cfg, r, cur, x, run[x], mem, bufIdx, slotLen); }
    }
  }

  lemma KernelRxDelivered(cfg: Config, s: State, r: nat)
    requires WellFormed(cfg, s) && Guard(cfg, s, KernelRx(r)) && RingInv(cfg, s.rx, s.spin, s.tx, s.phase)
    requires DeliveredInv(cfg, s.rx, s.delivered, s.dequeued, s.mem, s.bufIdx, s.slotLen)
    ensures var s' := Apply(cfg, s, KernelRx(r));
      DeliveredInv(cfg, s'.rx, s'.delivered, s'.dequeued, s'.mem, s'.bufIdx, s'.slotLen)
  {
    hide DeliveredOk, ConfigOk, SlotData;
    var s' := Apply(cfg, s, KernelRx(r));
    assert RxRingOk(cfg.rxSlots[r], s.rx[r], s.spin[r]);
    KernelRun(cfg, r, s.rx[r], s.delivered[r], s.dequeued[r], s.mem, s.bufIdx, s.slotLen);
    forall q | 0 <= q < |s'.rx|
      ensures DeliveredOk(cfg, q, s'.rx[q], s'.delivered[q], s'.dequeued[q], s'.mem, s'.bufIdx, s'.slotLen)
    {
      assert DeliveredOk(cfg, q, s.rx[q], s.delivered[q], s.dequeued[q], s.mem, s.bufIdx, s.slotLen);
    }
  }

  lemma KernelTxKeeps(cfg: Config, s: State, t: nat)
    requires Inv(cfg, s) && Guard(cfg, s, KernelTx(t))
    ensures Safe(cfg, s, KernelTx(t)) && Inv(cfg, Apply(cfg, s, KernelTx(t)))
  {
    hide LinksInv, HomeInv, WindowInv, BatchInv, BufInv, DataInv, PlacedInv, WireInv, DeliveredInv, OrderInv, StageInv,
         SleepInv, ZoneInv;
    assert PhaseOk(cfg.txSlots[t], s.tx[t], s.phase[t]);
    KernelTxBatch(cfg, s, t);
  }

  lemma KernelTxBatch(cfg: Config, s: State, t: nat)
    requires WellFormed(cfg, s) && t < |s.tx|
    requires BatchInv(cfg, s.tx, s.phase, s.heldLen, s.lists)
    requires WireInv(cfg, s.tx, s.phase, s.placed, s.wire, s.mem, s.bufIdx, s.slotLen)
    ensures var tx' := s.tx[t := s.tx[t].(tail := Next(cfg.txSlots[t], s.tx[t].tail))];
      && BatchInv(cfg, tx', s.phase, s.heldLen, s.lists)
      && WireInv(cfg, tx', s.phase, s.placed, s.wire, s.mem, s.bufIdx, s.slotLen)
  {
    var tx' := s.tx[t := s.tx[t].(tail := Next(cfg.txSlots[t], s.tx[t].tail))];
    forall u | 0 <= u < |tx'|
      ensures BatchOk(cfg.txSlots[u], u, tx'[u].cur, s.phase[u], s.heldLen[u], On(s.lists, Held(u)),
        On(s.lists, Gathered(u)))
      ensures WireOk(cfg, u, tx'[u].cur, Done(s.phase[u]), s.placed[u], s.wire[u], s.mem, s.bufIdx, s.slotLen)
    {
      assert s.tx[u].cur == tx'[u].cur;
      assert BatchOk(cfg.txSlots[u], u, s.tx[u].cur, s.phase[u], s.heldLen[u], On(s.lists, Held(u)),
          On(s.lists, Gathered(u)));
      assert WireOk(cfg, u, s.tx[u].cur, Done(s.phase[u]), s.placed[u], s.wire[u], s.mem, s.bufIdx, s.slotLen);
    }
  }
}
