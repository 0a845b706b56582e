/** The packet pipeline as a system of steps.

    Receive threads, transmit threads and the kernel take steps in any order.  A packet
    object belongs to one slot of one ring for life, so a location names both.  Links
    (sin_next) are one map shared by every thread, with an absent key for NULL; `lists`
    says which packets each list of the program holds. */
module PipelineModel {
  import opened Circular
  import opened Octets
  import opened Routing
  import opened MemFast

  /** A slot of a receive or transmit ring, and the packet object made for it. */
  datatype Loc = Rx(ring: nat, idx: nat) | Tx(ring: nat, idx: nat)

  /** The lists a packet can be on: a receive thread's local list, a sorter work list, a
      transmit thread's queue, its list of packets still to send (pkts_out), and the
      list of transmit packets gathered for a batch (pkts_tx). */
  datatype Place =
    | Local(r: nat)
    | Work(r: nat, k: nat)
    | Queue(t: nat)
    | Held(t: nat)
    | Gathered(t: nat)

  /** A packet buffer: netmap memory regions number their buffers separately. */
  datatype Buf = Buf(region: nat, idx: nat)

  /** A consumer rewrites packets and puts them on the queue of one transmit thread. */
  datatype Consumer = Consumer(queue: nat, rewrite: Bytes -> Bytes)

  datatype Config = Config(
    rxSlots: seq<nat>,
    txSlots: seq<nat>,
    rxRegion: seq<nat>,
    txRegion: seq<nat>,
    bufSize: nat,
    tastes: seq<seq<Taste>>,
    consumers: seq<seq<Consumer>>)

  datatype Ring = Ring(head: int, cur: int, tail: int)

  /** Where a receive thread is in its cycle: waiting in poll, in the dequeue loop, in the
      sorter's relinking loop, in its delivery loop at consumer k, or scanning for released
      slots. */
  datatype Stage = Polling | Dequeuing | Sorting | Delivering(k: nat) | Spinning

  /** Where a transmit thread is in its cycle.  Sized: aslots has been read.  Asleep,
      Woken: waiting in get_items, and signalled but not yet back inside.  Gather: g of
      ntx transmit packets are linked.  Move: m of ntx packets are done; pkt and ptx are
      the two walking pointers. */
  datatype Phase =
    | Idle
    | Sized(aslots: int)
    | Asleep(aslots: int)
    | Woken(aslots: int)
    | Gather(ntx: int, g: int)
    | Move(ntx: int, m: int, pkt: Option<Loc>, ptx: Option<Loc>)

  /** One packet placed in a transmit slot: its receive ring, what had arrived, what was
      placed. */
  datatype Sent = Sent(src: nat, arrival: Bytes, out: Bytes)

  datatype State = State(
    rx: seq<Ring>,
    stage: seq<Stage>,
    spin: seq<int>,          // new_head of each receive thread's spin_ring
    tx: seq<Ring>,
    phase: seq<Phase>,
    heldLen: seq<int>,       // pkts_out.len of each transmit thread
    bufIdx: map<Loc, nat>,   // slot.buf_idx
    slotLen: map<Loc, nat>,  // slot.len
    pktBuf: map<Loc, Buf>,   // pkt->buf
    pktLen: map<Loc, nat>,   // pkt->len
    zoneIdx: map<Loc, nat>,  // pkt->zone_idx
    busy: set<Loc>,          // SPKT_BUSY
    next: map<Loc, Loc>,     // sin_next
    lists: map<Place, seq<Loc>>,
    mem: map<Buf, Bytes>,
    // History, read by no step: the list each packet is on, what arrived in it, what the
    // kernel delivered and what was dequeued on each receive ring, what was placed on
    // and handed over with each transmit ring.
    place: map<Loc, Place>,
    arr: map<Loc, Bytes>,
    delivered: seq<seq<Bytes>>,
    dequeued: seq<seq<Bytes>>,
    placed: seq<seq<Sent>>,
    wire: seq<seq<Bytes>>)

  // ---------- static facts ----------

  predicate Valid(cfg: Config, l: Loc) {
    match l
    case Rx(r, i) => r < |cfg.rxSlots| && i < cfg.rxSlots[r]
    case Tx(t, j) => t < |cfg.txSlots| && j < cfg.txSlots[t]
  }

  ghost predicate ConfigOk(cfg: Config) {
    && |cfg.rxRegion| == |cfg.tastes| == |cfg.consumers| == |cfg.rxSlots|
    && |cfg.txRegion| == |cfg.txSlots|
    && cfg.bufSize % 64 == 0
    && (forall r :: 0 <= r < |cfg.rxSlots| ==> |cfg.consumers[r]| == |cfg.tastes[r]| + 1)
    && (forall r, k :: 0 <= r < |cfg.rxSlots| && 0 <= k < |cfg.consumers[r]| ==>
         cfg.consumers[r][k].queue < |cfg.txSlots|)
    && (forall r, k, b :: 0 <= r < |cfg.rxSlots| && 0 <= k < |cfg.consumers[r]| ==>
         |cfg.consumers[r][k].rewrite(b)| == |b|)
  }

  function Region(cfg: Config, l: Loc): nat
    requires ConfigOk(cfg) && Valid(cfg, l)
  {
    match l
    case Rx(r, _) => cfg.rxRegion[r]
    case Tx(t, _) => cfg.txRegion[t]
  }

  /** NETMAP_BUF: a buffer index names one buffer of the ring's region. */
  function NetmapBuf(cfg: Config, l: Loc, idx: nat): Buf
    requires ConfigOk(cfg) && Valid(cfg, l)
  {
    Buf(Region(cfg, l), idx)
  }

  function Class(cfg: Config, r: nat, b: Bytes): (k: nat)
    requires ConfigOk(cfg) && r < |cfg.rxSlots|
    ensures k < |cfg.consumers[r]|
  {
    FirstMatch(cfg.tastes[r], b)
  }

  function Dest(cfg: Config, r: nat, b: Bytes): (t: nat)
    requires ConfigOk(cfg) && r < |cfg.rxSlots|
    ensures t < |cfg.txSlots|
  {
    cfg.consumers[r][Class(cfg, r, b)].queue
  }

  function Rewritten(cfg: Config, r: nat, b: Bytes): (c: Bytes)
    requires ConfigOk(cfg) && r < |cfg.rxSlots|
    ensures |c| == |b|
  {
    cfg.consumers[r][Class(cfg, r, b)].rewrite(b)
  }

  // ---------- lists and links ----------

  function On(lists: map<Place, seq<Loc>>, p: Place): seq<Loc> {
    if p in lists then lists[p] else []
  }

  function Last(ls: seq<Loc>): Loc
    requires ls != []
  {
    ls[|ls| - 1]
  }

  function First(ls: seq<Loc>): Option<Loc> {
    if ls == [] then None else Some(ls[0])
  }

  /** sin_list_append and sin_wi_queue_put_items: the old tail is linked to the first new
      element; an empty list only gets a new head. */
  function LinkAfter(next: map<Loc, Loc>, ls: seq<Loc>, l: Loc): map<Loc, Loc> {
    if ls == [] then next else next[Last(ls) := l]
  }

  // ---------- shape ----------

  /** Every ring, packet and buffer of the configuration is present, with indices and
      lengths in range. */
  ghost predicate Shape(cfg: Config, s: State) {
    && |s.rx| == |s.stage| == |s.spin| == |s.delivered| == |s.dequeued| == |cfg.rxSlots|
    && |s.tx| == |s.phase| == |s.heldLen| == |s.placed| == |s.wire| == |cfg.txSlots|
    && SlotsPresent(cfg, s.bufIdx, s.slotLen, s.pktBuf, s.pktLen, s.mem)
  }

  ghost predicate SlotsPresent(cfg: Config, bufIdx: map<Loc, nat>, slotLen: map<Loc, nat>,
                               pktBuf: map<Loc, Buf>, pktLen: map<Loc, nat>, mem: map<Buf, Bytes>)
  {
    && (forall l :: Valid(cfg, l) ==> l in bufIdx)
    && (forall l :: Valid(cfg, l) ==> l in slotLen && slotLen[l] <= cfg.bufSize)
    && (forall l :: Valid(cfg, l) ==> l in pktBuf && pktBuf[l] in mem)
    && (forall l :: Valid(cfg, l) ==> l in pktLen && pktLen[l] <= cfg.bufSize)
    && (forall b :: b in mem ==> |mem[b]| == cfg.bufSize)
  }

  predicate RingsOnRing(cfg: Config, rx: seq<Ring>, spin: seq<int>, tx: seq<Ring>)
    requires |rx| == |spin| == |cfg.rxSlots| && |tx| == |cfg.txSlots|
  {
    && (forall r :: 0 <= r < |rx| ==>
         && OnRing(cfg.rxSlots[r], rx[r].head) && OnRing(cfg.rxSlots[r], rx[r].cur)
         && OnRing(cfg.rxSlots[r], rx[r].tail) && OnRing(cfg.rxSlots[r], spin[r]))
    && (forall t :: 0 <= t < |tx| ==>
         && OnRing(cfg.txSlots[t], tx[t].head) && OnRing(cfg.txSlots[t], tx[t].cur)
         && OnRing(cfg.txSlots[t], tx[t].tail))
  }

  ghost predicate WellFormed(cfg: Config, s: State) {
    ConfigOk(cfg) && Shape(cfg, s) && RingsOnRing(cfg, s.rx, s.spin, s.tx)
  }

  /** What a packet object holds: the first len bytes of its buffer. */
  function PktData(mem: map<Buf, Bytes>, pktBuf: map<Loc, Buf>, pktLen: map<Loc, nat>, l: Loc): Bytes {
    if l in pktBuf && l in pktLen && pktBuf[l] in mem && pktLen[l] <= |mem[pktBuf[l]]|
    then mem[pktBuf[l]][..pktLen[l]]
    else []
  }

  /** What a ring slot holds: the first len bytes of the buffer its buf_idx names. */
  function SlotData(cfg: Config, mem: map<Buf, Bytes>, bufIdx: map<Loc, nat>, slotLen: map<Loc, nat>, l: Loc): Bytes
    requires ConfigOk(cfg) && Valid(cfg, l)
  {
    if l in bufIdx && l in slotLen && NetmapBuf(cfg, l, bufIdx[l]) in mem
       && slotLen[l] <= |mem[NetmapBuf(cfg, l, bufIdx[l])]|
    then mem[NetmapBuf(cfg, l, bufIdx[l])][..slotLen[l]]
    else []
  }

  /** The kernel may touch exactly the slots outside [head, tail). */
  predicate KernelOwns(cfg: Config, s: State, l: Loc)
    requires |s.rx| == |cfg.rxSlots| && |s.tx| == |cfg.txSlots|
  {
    && Valid(cfg, l)
    && match l
       case Rx(r, i) => !InWindow(cfg.rxSlots[r], s.rx[r].head, s.rx[r].tail, i)
       case Tx(t, j) => !InWindow(cfg.txSlots[t], s.tx[t].head, s.tx[t].tail, j)
  }

  // ---------- steps ----------

  datatype Step =
    | Dequeue(r: nat)               // one iteration of dequeue_pkts
    | SortOne(r: nat)               // one packet of the sorter's relinking loop
    | Deliver(r: nat, k: nat)       // pkt_consume: rewrite a work list, put it on a queue
    | Turn(r: nat, to: Stage)       // a receive thread enters or leaves a loop
    | SpinScan(r: nat)              // one iteration of the spin_ring loop
    | SpinPublish(r: nat)           // ring->head = new_head, where the scan stopped
    | Size(t: nat)                  // aslots = tx_ring_nslots
    | Take(t: nat)                  // sin_wi_queue_get_items took the whole queue
    | Sleep(t: nat)                 // get_items waits: the queue is empty
    | Wake(t: nat)                  // a spurious wakeup, or a pump
    | Return(t: nat)                // get_items returns with nothing after a wake
    | StartBatch(t: nat)            // ntx = MIN(aslots, pkts_out.len)
    | GatherOne(t: nat)             // one packet of tx_zone_getpkts
    | MoveOne(t: nat)               // one iteration of the batch loop
    | Finish(t: nat)                // advance_tx_ring and the new head of pkts_out
    | KernelWrite(l: Loc, data: Bytes, len: nat)
    | KernelRx(r: nat)              // the kernel delivers the slot at tail
    | KernelTx(t: nat)              // the kernel gives back the slot at tail

  predicate InRange(cfg: Config, step: Step) {
    match step
    case Dequeue(r) => r < |cfg.rxSlots|
    case SortOne(r) => r < |cfg.rxSlots|
    case Deliver(r, _) => r < |cfg.rxSlots|
    case Turn(r, _) => r < |cfg.rxSlots|
    case SpinScan(r) => r < |cfg.rxSlots|
    case SpinPublish(r) => r < |cfg.rxSlots|
    case KernelRx(r) => r < |cfg.rxSlots|
    case Size(t) => t < |cfg.txSlots|
    case Take(t) => t < |cfg.txSlots|
    case Sleep(t) => t < |cfg.txSlots|
    case Wake(t) => t < |cfg.txSlots|
    case Return(t) => t < |cfg.txSlots|
    case StartBatch(t) => t < |cfg.txSlots|
    case GatherOne(t) => t < |cfg.txSlots|
    case MoveOne(t) => t < |cfg.txSlots|
    case Finish(t) => t < |cfg.txSlots|
    case KernelTx(t) => t < |cfg.txSlots|
    case KernelWrite(l, _, _) => Valid(cfg, l)
  }

  /** The loops of a receive thread's cycle: poll may find packets or not; the dequeue loop
      ends at tail; the relinking loop at the end of the list; the delivery loop passes over
      empty work lists and ends after the default consumer. */
  predicate Turns(cfg: Config, s: State, r: nat, to: Stage)
    requires WellFormed(cfg, s) && r < |cfg.rxSlots|
  {
    match s.stage[r]
    case Polling => to.Spinning? || (to.Dequeuing? && s.rx[r].cur != s.rx[r].tail)
    case Dequeuing => to.Sorting? && s.rx[r].cur == s.rx[r].tail
    case Sorting => to == Delivering(0) && On(s.lists, Local(r)) == []
    case Delivering(k) =>
      if k < |cfg.consumers[r]| then to == Delivering(k + 1) && On(s.lists, Work(r, k)) == []
      else to.Spinning?
    case Spinning => false
  }

  /** The scan of spin_ring stops at cur or at the first BUSY packet. */
  predicate SpinStops(s: State, r: nat)
    requires r < |s.rx| && r < |s.spin| && s.spin[r] >= 0
  {
    s.spin[r] == s.rx[r].cur || Rx(r, s.spin[r]) in s.busy
  }

  /** Inside get_items, before or after a wait. */
  predicate Getting(phase: Phase) {
    phase.Sized? || phase.Woken?
  }

  /** When the code (or the kernel) takes the step. */
  predicate Guard(cfg: Config, s: State, step: Step)
    requires WellFormed(cfg, s)
  {
    && InRange(cfg, step)
    && match step
       case Dequeue(r) => s.stage[r].Dequeuing? && s.rx[r].cur != s.rx[r].tail
       case SortOne(r) => s.stage[r].Sorting? && On(s.lists, Local(r)) != []
       case Deliver(r, k) => s.stage[r] == Delivering(k) && On(s.lists, Work(r, k)) != []
       case Turn(r, to) => Turns(cfg, s, r, to)
       case SpinScan(r) => s.stage[r].Spinning? && !SpinStops(s, r)
       case SpinPublish(r) => s.stage[r].Spinning? && SpinStops(s, r)
       case Size(t) => s.phase[t].Idle? && s.tx[t].cur != s.tx[t].tail
       case Take(t) => Getting(s.phase[t]) && s.heldLen[t] == 0 && On(s.lists, Queue(t)) != []
       case Sleep(t) => s.phase[t].Sized? && s.heldLen[t] == 0 && On(s.lists, Queue(t)) == []
       case Wake(t) => s.phase[t].Asleep?
       case Return(t) => s.phase[t].Woken? && On(s.lists, Queue(t)) == []
       case StartBatch(t) => s.phase[t].Sized? && s.heldLen[t] != 0
       case GatherOne(t) => s.phase[t].Gather?
       case MoveOne(t) => s.phase[t].Move? && s.phase[t].m < s.phase[t].ntx
       case Finish(t) => s.phase[t].Move? && s.phase[t].m >= s.phase[t].ntx
       case KernelWrite(l, data, len) => KernelOwns(cfg, s, l) && |data| == cfg.bufSize && len <= cfg.bufSize
       case KernelRx(r) => Next(cfg.rxSlots[r], s.rx[r].tail) != s.rx[r].head
       case KernelTx(t) => Next(cfg.txSlots[t], s.tx[t].tail) != s.tx[t].head
  }

  /** The debug assertions on the step, and the pointers it follows being non-NULL. */
  predicate Safe(cfg: Config, s: State, step: Step)
    requires WellFormed(cfg, s) && Guard(cfg, s, step)
  {
    match step
    case Dequeue(r) =>
      var l := Rx(r, s.rx[r].cur);
      && l !in s.busy
      && Find(s.zoneIdx, l) == Some(l.idx)
      && s.pktBuf[l] == NetmapBuf(cfg, l, s.bufIdx[l])
      && l !in s.next
    case Deliver(r, k) => k < |cfg.consumers[r]|
    case GatherOne(t) =>
      && var j := Slot(cfg.txSlots[t], s.tx[t].cur, s.phase[t].g);
      && OnRing(cfg.txSlots[t], j)
      && Tx(t, j) !in s.next
    case MoveOne(t) =>
      && s.phase[t].pkt.Some? && s.phase[t].ptx.Some?
      && s.phase[t].pkt.value in s.busy
      && Find(s.zoneIdx, s.phase[t].pkt.value) == Some(s.phase[t].pkt.value.idx)
      && Valid(cfg, s.phase[t].pkt.value) && Valid(cfg, s.phase[t].ptx.value)
      && s.phase[t].pkt.value in s.arr
      && s.phase[t].pkt.value.Rx? && s.phase[t].ptx.value.Tx?
    case Finish(t) =>
      && s.phase[t].ntx < cfg.txSlots[t]
      && (s.phase[t].pkt == None ==> s.heldLen[t] == s.phase[t].ntx)
    case _ => true
  }

  function DequeueStep(cfg: Config, s: State, r: nat): State
    requires ConfigOk(cfg) && |s.rx| == |s.dequeued| == |cfg.rxSlots| && r < |cfg.rxSlots|
    requires OnRing(cfg.rxSlots[r], s.rx[r].cur) && Rx(r, s.rx[r].cur) in s.slotLen
  {
    var l := Rx(r, s.rx[r].cur);
    var len := s.slotLen[l];
    var data := SlotData(cfg, s.mem, s.bufIdx, s.slotLen, l);
    var here := On(s.lists, Local(r));
    s.(busy := s.busy + {l},
       pktLen := s.pktLen[l := len],
       rx := s.rx[r := s.rx[r].(cur := Next(cfg.rxSlots[r], s.rx[r].cur))],
       next := LinkAfter(s.next, here, l),
       lists := s.lists[Local(r) := here + [l]],
       place := s.place[l := Local(r)],
       arr := s.arr[l := data],
       dequeued := s.dequeued[r := s.dequeued[r] + [data]])
  }

  function SortStep(cfg: Config, s: State, r: nat): State
    requires ConfigOk(cfg) && r < |cfg.rxSlots| && On(s.lists, Local(r)) != []
  {
    var here := On(s.lists, Local(r));
    var l := here[0];
    var w := Work(r, Class(cfg, r, PktData(s.mem, s.pktBuf, s.pktLen, l)));
    s.(next := LinkAfter(s.next - {l}, On(s.lists, w), l),
       lists := s.lists[Local(r) := here[1..]][w := On(s.lists, w) + [l]],
       place := s.place[l := w])
  }

  /** The consumer's loop over its list: each packet is rewritten in its buffer. */
  function RewriteAll(mem: map<Buf, Bytes>, pktBuf: map<Loc, Buf>, pktLen: map<Loc, nat>,
                      ls: seq<Loc>, f: Bytes -> Bytes): map<Buf, Bytes>
  {
    if ls == [] then mem
    else RewriteAll(RewriteOne(mem, pktBuf, pktLen, ls[0], f), pktBuf, pktLen, ls[1..], f)
  }

  function RewriteOne(mem: map<Buf, Bytes>, pktBuf: map<Loc, Buf>, pktLen: map<Loc, nat>,
                      l: Loc, f: Bytes -> Bytes): map<Buf, Bytes>
  {
    var out := f(PktData(mem, pktBuf, pktLen, l));
    if l in pktBuf && pktBuf[l] in mem && |out| <= |mem[pktBuf[l]]|
    then mem[pktBuf[l] := Poke(mem[pktBuf[l]], out)]
    else mem
  }

  function DeliverStep(cfg: Config, s: State, r: nat, k: nat): State
    requires r < |cfg.consumers| && k < |cfg.consumers[r]| && r < |s.stage|
    requires On(s.lists, Work(r, k)) != []
  {
    var ls := On(s.lists, Work(r, k));
    var q := Queue(cfg.consumers[r][k].queue);
    s.(phase := Signalled(s.phase, cfg.consumers[r][k].queue),
       mem := RewriteAll(s.mem, s.pktBuf, s.pktLen, ls, cfg.consumers[r][k].rewrite),
       next := LinkAfter(s.next, On(s.lists, q), ls[0]),
       lists := s.lists[Work(r, k) := []][q := On(s.lists, q) + ls],
       place := Relabel(s.place, ls, q),
       stage := s.stage[r := Delivering(k + 1)])
  }

  /** The phases after a signal on the queue of transmit thread t, its one consumer. */
  function Signalled(phase: seq<Phase>, t: nat): (r: seq<Phase>)
    ensures |r| == |phase|
  {
    if t < |phase| && phase[t].Asleep? then phase[t := Woken(phase[t].aslots)] else phase
  }

  function Relabel(place: map<Loc, Place>, ls: seq<Loc>, p: Place): map<Loc, Place> {
    map l | l in place :: if l in ls then p else place[l]
  }

  function TakeStep(s: State, t: nat): State
    requires t < |s.heldLen| && t < |s.phase| && Getting(s.phase[t])
  {
    var ls := On(s.lists, Queue(t));
    s.(phase := s.phase[t := Sized(s.phase[t].aslots)],
       heldLen := s.heldLen[t := |ls|],
       lists := s.lists[Queue(t) := []][Held(t) := ls],
       place := Relabel(s.place, ls, Held(t)))
  }

  function GatherStep(cfg: Config, s: State, t: nat): State
    requires |s.tx| == |s.phase| == |cfg.txSlots| && t < |s.tx| && s.phase[t].Gather?
    requires OnRing(cfg.txSlots[t], Slot(cfg.txSlots[t], s.tx[t].cur, s.phase[t].g))
  {
    var l := Tx(t, Slot(cfg.txSlots[t], s.tx[t].cur, s.phase[t].g));
    var here := On(s.lists, Gathered(t));
    var g := s.phase[t].g + 1;
    s.(next := LinkAfter(s.next, here, l),
       lists := s.lists[Gathered(t) := here + [l]],
       place := s.place[l := Gathered(t)],
       phase := s.phase[t := if g < s.phase[t].ntx then Gather(s.phase[t].ntx, g)
                             else Move(s.phase[t].ntx, 0, First(On(s.lists, Held(t))), First(here + [l]))])
  }

  /** sin_pkt_zone_swap and sin_pkt_zone_copy on p1 (received) and p2 (to send), then the
      unlinking of both and the release of p1. */
  function MoveStep(cfg: Config, s: State, t: nat): State
    requires WellFormed(cfg, s)
    requires Guard(cfg, s, MoveOne(t)) && Safe(cfg, s, MoveOne(t))
  {
    var ph := s.phase[t];
    var p1, p2 := ph.pkt.value, ph.ptx.value;
    var zeroCopy := Region(cfg, p1) == Region(cfg, p2);
    var len := s.pktLen[p1];
    var bufIdx := if zeroCopy then s.bufIdx[p2 := s.bufIdx[p1]][p1 := s.bufIdx[p2]] else s.bufIdx;
    var pktBuf := if zeroCopy then s.pktBuf[p1 := s.pktBuf[p2]][p2 := s.pktBuf[p1]] else s.pktBuf;
    var mem := if zeroCopy then s.mem
               else s.mem[s.pktBuf[p2] := CopyInto(s.mem[s.pktBuf[p1]], s.mem[s.pktBuf[p2]], len)];
    var slotLen := s.slotLen[p2 := len];
    s.(bufIdx := bufIdx, pktBuf := pktBuf, mem := mem,
       slotLen := slotLen,
       pktLen := s.pktLen[p2 := len],
       next := s.next - {p1} - {p2},
       busy := s.busy - {p1},
       lists := s.lists[Held(t) := On(s.lists, Held(t))[if |On(s.lists, Held(t))| > 0 then 1 else 0..]]
                       [Gathered(t) := On(s.lists, Gathered(t))[if |On(s.lists, Gathered(t))| > 0 then 1 else 0..]],
       place := s.place - {p1} - {p2},
       phase := s.phase[t := Move(ph.ntx, ph.m + 1, Find(s.next, p1), Find(s.next, p2))],
       placed := s.placed[t := s.placed[t] +
         [Sent(p1.ring, s.arr[p1], SlotData(cfg, mem, bufIdx, slotLen, p2))]])
  }

  /** The contents of k slots from slot cur of transmit ring t. */
  function SlotRun(cfg: Config, s: State, t: nat, cur: int, k: int): (run: seq<Bytes>)
    requires ConfigOk(cfg) && t < |cfg.txSlots| && OnRing(cfg.txSlots[t], cur) && k <= cfg.txSlots[t]
    ensures |run| == if k < 0 then 0 else k
    decreases k
  {
    if k <= 0 then []
    else SlotRun(cfg, s, t, cur, k - 1)
         + [SlotData(cfg, s.mem, s.bufIdx, s.slotLen, Tx(t, Slot(cfg.txSlots[t], cur, k - 1)))]
  }

  function FinishStep(cfg: Config, s: State, t: nat): State
    requires WellFormed(cfg, s)
    requires Guard(cfg, s, Finish(t)) && Safe(cfg, s, Finish(t))
  {
    var ph := s.phase[t];
    var ring := s.tx[t];
    var cur := Slot(cfg.txSlots[t], ring.cur, ph.ntx);
    s.(tx := s.tx[t := ring.(head := cur, cur := cur)],
       heldLen := s.heldLen[t := if ph.pkt == None then 0 else s.heldLen[t] - ph.ntx],
       phase := s.phase[t := Idle],
       wire := s.wire[t := s.wire[t] + SlotRun(cfg, s, t, ring.cur, ph.ntx)])
  }

  function Apply(cfg: Config, s: State, step: Step): State
    requires WellFormed(cfg, s) && Guard(cfg, s, step) && Safe(cfg, s, step)
  {
    match step
    case Dequeue(r) => DequeueStep(cfg, s, r)
    case SortOne(r) => SortStep(cfg, s, r)
    case Deliver(r, k) => DeliverStep(cfg, s, r, k)
    case Turn(r, to) =>
      s.(stage := s.stage[r := to], spin := if to.Spinning? then s.spin[r := s.rx[r].head] else s.spin)
    case SpinScan(r) => s.(spin := s.spin[r := Next(cfg.rxSlots[r], s.spin[r])])
    case SpinPublish(r) => s.(rx := s.rx[r := s.rx[r].(head := s.spin[r])], stage := s.stage[r := Polling])
    case Size(t) => s.(phase := s.phase[t := Sized(Dist(cfg.txSlots[t], s.tx[t].cur, s.tx[t].tail))])
    case Take(t) => TakeStep(s, t)
    case Sleep(t) => s.(phase := s.phase[t := Asleep(s.phase[t].aslots)])
    case Wake(t) => s.(phase := s.phase[t := Woken(s.phase[t].aslots)])
    case Return(t) => s.(phase := s.phase[t := Idle])
    case StartBatch(t) => s.(phase := s.phase[t := Gather(Min(s.phase[t].aslots, s.heldLen[t]), 0)])
    case GatherOne(t) => GatherStep(cfg, s, t)
    case MoveOne(t) => MoveStep(cfg, s, t)
    case Finish(t) => FinishStep(cfg, s, t)
    case KernelWrite(l, data, len) =>
      s.(slotLen := s.slotLen[l := len], mem := s.mem[NetmapBuf(cfg, l, s.bufIdx[l]) := data])
    case KernelRx(r) =>
      s.(rx := s.rx[r := s.rx[r].(tail := Next(cfg.rxSlots[r], s.rx[r].tail))],
         delivered := s.delivered[r := s.delivered[r] +
           [SlotData(cfg, s.mem, s.bufIdx, s.slotLen, Rx(r, s.rx[r].tail))]])
    case KernelTx(t) =>
      s.(tx := s.tx[t := s.tx[t].(tail := Next(cfg.txSlots[t], s.tx[t].tail))])
  }
}
