/** The ownership invariant of the pipeline, one predicate per concern.  Each takes only
    the parts of the state it speaks of. */
module PipelineInv {
  import opened Circular
  import opened Octets
  import opened PipelineModel
  import opened PipelineLinks

  /** head, cur and tail stay in circular order, new_head between head and cur; a
      transmit thread moves head and cur together and never counts on more slots than
      are free. */
  predicate RingInv(cfg: Config, rx: seq<Ring>, spin: seq<int>, tx: seq<Ring>, phase: seq<Phase>)
    requires |rx| == |spin| == |cfg.rxSlots| && |tx| == |phase| == |cfg.txSlots|
  {
    && (forall r :: 0 <= r < |rx| ==> RxRingOk(cfg.rxSlots[r], rx[r], spin[r]))
    && (forall t :: 0 <= t < |tx| ==> tx[t].head == tx[t].cur && PhaseOk(cfg.txSlots[t], tx[t], phase[t]))
  }

  predicate RxRingOk(n: nat, ring: Ring, spin: int) {
    Dist(n, ring.head, spin) <= Dist(n, ring.head, ring.cur) <= Dist(n, ring.head, ring.tail)
  }

  predicate PhaseOk(n: nat, ring: Ring, phase: Phase) {
    match phase
    case Idle => true
    case Sized(aslots) => 0 < aslots <= Dist(n, ring.cur, ring.tail)
    case Asleep(aslots) => 0 < aslots <= Dist(n, ring.cur, ring.tail)
    case Woken(aslots) => 0 < aslots <= Dist(n, ring.cur, ring.tail)
    case Gather(ntx, g) => 0 <= g < ntx <= Dist(n, ring.cur, ring.tail)
    case Move(ntx, m, _, _) => 0 <= m <= ntx <= Dist(n, ring.cur, ring.tail) && 1 <= ntx
  }

  /** Which packets may be on which list: local and work lists hold their own ring's
      packets, queues and held lists the packets consumed for that transmit thread. */
  predicate PlaceOk(cfg: Config, arr: map<Loc, Bytes>, l: Loc, p: Place)
    requires ConfigOk(cfg)
  {
    && Valid(cfg, l)
    && match p
       case Local(r) => l.Rx? && l.ring == r && l in arr
       case Work(r, k) => l.Rx? && l.ring == r && l in arr && Class(cfg, r, arr[l]) == k
       case Queue(t) => l.Rx? && l in arr && Dest(cfg, l.ring, arr[l]) == t
       case Held(t) => l.Rx? && l in arr && Dest(cfg, l.ring, arr[l]) == t
       case Gathered(t) => l.Tx? && l.ring == t
  }

  /** A received packet is BUSY exactly while it is on a list; no other packet is. */
  ghost predicate HomeInv(cfg: Config, place: map<Loc, Place>, busy: set<Loc>, arr: map<Loc, Bytes>)
    requires ConfigOk(cfg)
  {
    && (forall l :: l in place ==> PlaceOk(cfg, arr, l, place[l]))
    && (forall l :: l in busy <==> l in place && l.Rx?)
  }

  /** Every BUSY packet sits at a slot of its ring in [new_head, cur), so in [head, cur). */
  ghost predicate WindowInv(cfg: Config, rx: seq<Ring>, spin: seq<int>, busy: set<Loc>)
    requires |rx| == |spin| == |cfg.rxSlots|
  {
    forall l :: l in busy ==>
      Valid(cfg, l) && l.Rx? && InSpinWindow(cfg.rxSlots[l.ring], rx[l.ring], spin[l.ring], l.idx)
  }

  predicate InSpinWindow(n: nat, ring: Ring, spin: int, i: int) {
    Dist(n, ring.head, spin) <= Dist(n, ring.head, i) < Dist(n, ring.head, ring.cur)
  }

  /** The batch of a transmit thread: pkts_out.len, the gathered slots in ring order and
      the two walking pointers. */
  ghost predicate BatchInv(cfg: Config, tx: seq<Ring>, phase: seq<Phase>, heldLen: seq<int>,
                           lists: map<Place, seq<Loc>>)
    requires |tx| == |phase| == |heldLen| == |cfg.txSlots|
  {
    forall t :: 0 <= t < |tx| ==>
      BatchOk(cfg.txSlots[t], t, tx[t].cur, phase[t], heldLen[t], On(lists, Held(t)), On(lists, Gathered(t)))
  }

  ghost predicate BatchOk(n: nat, t: nat, cur: int, phase: Phase, heldLen: int, held: seq<Loc>, gathered: seq<Loc>) {
    match phase
    case Idle => heldLen == |held| && gathered == []
    case Sized(_) => heldLen == |held| && gathered == []
    case Asleep(_) => heldLen == 0 && held == [] && gathered == []
    case Woken(_) => heldLen == 0 && held == [] && gathered == []
    case Gather(ntx, g) =>
      heldLen == |held| && ntx <= |held| && |gathered| == g && SlotsFrom(n, t, cur, 0, gathered)
    case Move(ntx, m, pkt, ptx) =>
      && heldLen == |held| + m && ntx <= heldLen
      && |gathered| == ntx - m && SlotsFrom(n, t, cur, m, gathered)
      && pkt == First(held) && ptx == First(gathered)
  }

  /** ls holds the packets of consecutive slots of transmit ring t, from slot cur + k. */
  ghost predicate SlotsFrom(n: nat, t: nat, cur: int, k: int, ls: seq<Loc>) {
    forall x :: 0 <= x < |ls| ==> ls[x].Tx? && ls[x].ring == t && ls[x].idx == Slot(n, cur, k + x)
  }

  /** Each buffer is named by exactly one slot, and pkt->buf is the buffer its slot names. */
  ghost predicate BufInv(cfg: Config, bufIdx: map<Loc, nat>, pktBuf: map<Loc, Buf>, mem: map<Buf, Bytes>)
    requires ConfigOk(cfg)
  {
    && (forall l :: Valid(cfg, l) ==> l in bufIdx && l in pktBuf && pktBuf[l] == NetmapBuf(cfg, l, bufIdx[l]))
    && (forall l, k :: Valid(cfg, l) && Valid(cfg, k) && l != k ==> pktBuf[l] != pktBuf[k])
    && (forall b :: b in mem ==> exists l :: Valid(cfg, l) && pktBuf[l] == b)
  }

  /** A packet holds what arrived in it until its consumer has run, and the consumer's
      rewriting of it from then on. */
  ghost predicate DataInv(cfg: Config, place: map<Loc, Place>, arr: map<Loc, Bytes>,
                          mem: map<Buf, Bytes>, pktBuf: map<Loc, Buf>, pktLen: map<Loc, nat>)
    requires ConfigOk(cfg)
  {
    forall l :: l in place && l.Rx? && Valid(cfg, l) && l in arr ==>
      PktData(mem, pktBuf, pktLen, l) == Expected(cfg, place[l], l, arr[l])
  }

  function Expected(cfg: Config, p: Place, l: Loc, a: Bytes): Bytes
    requires ConfigOk(cfg) && Valid(cfg, l) && l.Rx?
  {
    if p.Queue? || p.Held? then Rewritten(cfg, l.ring, a) else a
  }

  /** Everything placed on transmit ring t was consumed for t and rewritten by its
      consumer. */
  ghost predicate PlacedInv(cfg: Config, placed: seq<seq<Sent>>)
    requires ConfigOk(cfg)
  {
    forall t, x :: 0 <= t < |placed| && 0 <= x < |placed[t]| ==> SentOk(cfg, t, placed[t][x])
  }

  predicate SentOk(cfg: Config, t: nat, e: Sent)
    requires ConfigOk(cfg)
  {
    e.src < |cfg.rxSlots| && Dest(cfg, e.src, e.arrival) == t && e.out == Rewritten(cfg, e.src, e.arrival)
  }

  /** What has been placed is what was handed over followed by what the current batch has
      put in the slots from cur. */
  ghost predicate WireInv(cfg: Config, tx: seq<Ring>, phase: seq<Phase>, placed: seq<seq<Sent>>, wire: seq<seq<Bytes>>,
                          mem: map<Buf, Bytes>, bufIdx: map<Loc, nat>, slotLen: map<Loc, nat>)
    requires ConfigOk(cfg) && |tx| == |phase| == |placed| == |wire| == |cfg.txSlots|
  {
    forall t :: 0 <= t < |tx| ==> WireOk(cfg, t, tx[t].cur, Done(phase[t]), placed[t], wire[t], mem, bufIdx, slotLen)
  }

  function Done(phase: Phase): int {
    if phase.Move? then phase.m else 0
  }

  ghost predicate WireOk(cfg: Config, t: nat, cur: int, done: int, placed: seq<Sent>, wire: seq<Bytes>,
                         mem: map<Buf, Bytes>, bufIdx: map<Loc, nat>, slotLen: map<Loc, nat>)
    requires ConfigOk(cfg) && t < |cfg.txSlots|
  {
    && 0 <= done && |placed| == |wire| + done
    && (forall x :: 0 <= x < |wire| ==> wire[x] == placed[x].out)
    && TxRun(cfg, t, cur, placed[|wire|..], mem, bufIdx, slotLen)
  }

  ghost predicate TxRun(cfg: Config, t: nat, cur: int, run: seq<Sent>,
                        mem: map<Buf, Bytes>, bufIdx: map<Loc, nat>, slotLen: map<Loc, nat>)
    requires ConfigOk(cfg) && t < |cfg.txSlots|
  {
    forall x :: 0 <= x < |run| ==> TxHolds(cfg, t, cur, x, run[x].out, mem, bufIdx, slotLen)
  }

  predicate TxHolds(cfg: Config, t: nat, cur: int, x: int, data: Bytes,
                    mem: map<Buf, Bytes>, bufIdx: map<Loc, nat>, slotLen: map<Loc, nat>)
    requires ConfigOk(cfg) && t < |cfg.txSlots|
  {
    && OnRing(cfg.txSlots[t], Slot(cfg.txSlots[t], cur, x))
    && SlotData(cfg, mem, bufIdx, slotLen, Tx(t, Slot(cfg.txSlots[t], cur, x))) == data
  }

  /** What the kernel delivered is what was dequeued followed by what the slots in
      [cur, tail) hold. */
  ghost predicate DeliveredInv(cfg: Config, rx: seq<Ring>, delivered: seq<seq<Bytes>>, dequeued: seq<seq<Bytes>>,
                               mem: map<Buf, Bytes>, bufIdx: map<Loc, nat>, slotLen: map<Loc, nat>)
    requires ConfigOk(cfg) && |rx| == |delivered| == |dequeued| == |cfg.rxSlots|
  {
    forall r :: 0 <= r < |rx| ==> DeliveredOk(cfg, r, rx[r], delivered[r], dequeued[r], mem, bufIdx, slotLen)
  }

  ghost predicate DeliveredOk(cfg: Config, r: nat, ring: Ring, delivered: seq<Bytes>, dequeued: seq<Bytes>,
                              mem: map<Buf, Bytes>, bufIdx: map<Loc, nat>, slotLen: map<Loc, nat>)
    requires ConfigOk(cfg) && r < |cfg.rxSlots|
  {
    && dequeued <= delivered
    && |delivered| == |dequeued| + Dist(cfg.rxSlots[r], ring.cur, ring.tail)
    && RxRun(cfg, r, ring.cur, delivered[|dequeued|..], mem, bufIdx, slotLen)
  }

  ghost predicate RxRun(cfg: Config, r: nat, cur: int, run: seq<Bytes>,
                        mem: map<Buf, Bytes>, bufIdx: map<Loc, nat>, slotLen: map<Loc, nat>)
    requires ConfigOk(cfg) && r < |cfg.rxSlots|
  {
    forall x :: 0 <= x < |run| ==> RxHolds(cfg, r, cur, x, run[x], mem, bufIdx, slotLen)
  }

  predicate RxHolds(cfg: Config, r: nat, cur: int, x: int, data: Bytes,
                    mem: map<Buf, Bytes>, bufIdx: map<Loc, nat>, slotLen: map<Loc, nat>)
    requires ConfigOk(cfg) && r < |cfg.rxSlots|
  {
    && OnRing(cfg.rxSlots[r], Slot(cfg.rxSlots[r], cur, x))
    && SlotData(cfg, mem, bufIdx, slotLen, Rx(r, Slot(cfg.rxSlots[r], cur, x))) == data
  }

  // ---------- order ----------

  predicate Mine(cfg: Config, arr: map<Loc, Bytes>, l: Loc, r: nat, k: nat)
    requires ConfigOk(cfg) && r < |cfg.rxSlots|
  {
    l.Rx? && l.ring == r && l in arr && Class(cfg, r, arr[l]) == k
  }

  /** The arrivals held by the packets of ls that came in on ring r for consumer k. */
  function Pick(cfg: Config, arr: map<Loc, Bytes>, ls: seq<Loc>, r: nat, k: nat): seq<Bytes>
    requires ConfigOk(cfg) && r < |cfg.rxSlots|
  {
    if ls == [] then []
    else (if Mine(cfg, arr, ls[0], r, k) then [arr[ls[0]]] else []) + Pick(cfg, arr, ls[1..], r, k)
  }

  /** The members of a ring's arrivals that are for consumer k. */
  function OfClass(cfg: Config, arrivals: seq<Bytes>, r: nat, k: nat): seq<Bytes>
    requires ConfigOk(cfg) && r < |cfg.rxSlots|
  {
    if arrivals == [] then []
    else OfClass(cfg, arrivals[..|arrivals| - 1], r, k)
         + if Class(cfg, r, arrivals[|arrivals| - 1]) == k then [arrivals[|arrivals| - 1]] else []
  }

  predicate From(cfg: Config, e: Sent, r: nat, k: nat)
    requires ConfigOk(cfg) && r < |cfg.rxSlots|
  {
    e.src == r && Class(cfg, r, e.arrival) == k
  }

  /** What was placed on a transmit ring for ring r and consumer k, as it had arrived. */
  function SentOf(cfg: Config, es: seq<Sent>, r: nat, k: nat): seq<Bytes>
    requires ConfigOk(cfg) && r < |cfg.rxSlots|
  {
    if es == [] then []
    else SentOf(cfg, es[..|es| - 1], r, k)
         + if From(cfg, es[|es| - 1], r, k) then [es[|es| - 1].arrival] else []
  }

  /** Every list on the way from receive ring r through consumer k, nearest to the wire
      first. */
  function Pipe(lists: map<Place, seq<Loc>>, r: nat, k: nat, t: nat): seq<Loc> {
    On(lists, Held(t)) + On(lists, Queue(t)) + On(lists, Work(r, k)) + On(lists, Local(r))
  }

  /** The packets of (r, k) in flight, as they had arrived. */
  function InFlight(cfg: Config, arr: map<Loc, Bytes>, lists: map<Place, seq<Loc>>, r: nat, k: nat): seq<Bytes>
    requires ConfigOk(cfg) && r < |cfg.rxSlots| && k < |cfg.consumers[r]|
  {
    Pick(cfg, arr, Pipe(lists, r, k, cfg.consumers[r][k].queue), r, k)
  }

  ghost predicate OrderOk(cfg: Config, arr: map<Loc, Bytes>, lists: map<Place, seq<Loc>>,
                          dequeued: seq<seq<Bytes>>, placed: seq<seq<Sent>>, r: nat, k: nat)
    requires ConfigOk(cfg) && |dequeued| == |cfg.rxSlots| && |placed| == |cfg.txSlots|
    requires r < |cfg.rxSlots| && k < |cfg.consumers[r]|
  {
    OfClass(cfg, dequeued[r], r, k)
    == SentOf(cfg, placed[cfg.consumers[r][k].queue], r, k) + InFlight(cfg, arr, lists, r, k)
  }

  /** For every receive ring and consumer: dequeued = placed + in flight, in order. */
  ghost predicate OrderInv(cfg: Config, arr: map<Loc, Bytes>, lists: map<Place, seq<Loc>>,
                           dequeued: seq<seq<Bytes>>, placed: seq<seq<Sent>>)
    requires ConfigOk(cfg) && |dequeued| == |cfg.rxSlots| && |placed| == |cfg.txSlots|
  {
    forall r, k :: 0 <= r < |cfg.rxSlots| && 0 <= k < |cfg.consumers[r]| ==>
      OrderOk(cfg, arr, lists, dequeued, placed, r, k)
  }

  // ---------- receive threads ----------

  /** Outside its loops a receive thread holds nothing: the local list is empty but while
      dequeuing and sorting, and the work lists but while sorting and delivering. */
  ghost predicate StageInv(cfg: Config, stage: seq<Stage>, lists: map<Place, seq<Loc>>)
    requires |stage| <= |cfg.consumers|
  {
    forall r: nat :: r < |stage| ==> StageOk(|cfg.consumers[r]|, stage[r], lists, r)
  }

  ghost predicate StageOk(n: nat, stage: Stage, lists: map<Place, seq<Loc>>, r: nat) {
    && (stage.Dequeuing? || stage.Sorting? || On(lists, Local(r)) == [])
    && (stage.Sorting? || (forall j: nat :: (stage.Delivering? ==> j < stage.k) ==> On(lists, Work(r, j)) == []))
    && (stage.Delivering? ==> stage.k <= n)
  }

  // ---------- transmit threads ----------

  /** No wakeup is lost: a transmit thread asleep in get_items has nothing queued. */
  ghost predicate SleepInv(phase: seq<Phase>, lists: map<Place, seq<Loc>>) {
    forall t: nat :: t < |phase| && phase[t].Asleep? ==> On(lists, Queue(t)) == []
  }

  /** A packet knows its index in its zone. */
  ghost predicate ZoneInv(cfg: Config, zoneIdx: map<Loc, nat>) {
    forall l :: Valid(cfg, l) ==> Find(zoneIdx, l) == Some(l.idx)
  }

  ghost predicate Inv(cfg: Config, s: State) {
    && WellFormed(cfg, s)
    && RingInv(cfg, s.rx, s.spin, s.tx, s.phase)
    && LinksInv(s.next, s.lists, s.place)
    && HomeInv(cfg, s.place, s.busy, s.arr)
    && WindowInv(cfg, s.rx, s.spin, s.busy)
    && BatchInv(cfg, s.tx, s.phase, s.heldLen, s.lists)
    && BufInv(cfg, s.bufIdx, s.pktBuf, s.mem)
    && DataInv(cfg, s.place, s.arr, s.mem, s.pktBuf, s.pktLen)
    && PlacedInv(cfg, s.placed)
    && WireInv(cfg, s.tx, s.phase, s.placed, s.wire, s.mem, s.bufIdx, s.slotLen)
    && DeliveredInv(cfg, s.rx, s.delivered, s.dequeued, s.mem, s.bufIdx, s.slotLen)
    && OrderInv(cfg, s.arr, s.lists, s.dequeued, s.placed)
    && StageInv(cfg, s.stage, s.lists)
    && SleepInv(s.phase, s.lists)
    && ZoneInv(cfg, s.zoneIdx)
  }
}
