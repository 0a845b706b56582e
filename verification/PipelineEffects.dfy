/** What single steps of the system do to the rings, queues and buffers, in any reachable
    state: how much each takes, and what it leaves alone. */
module PipelineEffects {
  import opened Circular
  import opened Octets
  import opened MemFast
  import opened PipelineModel
  import opened PipelineLinks
  import opened PipelineInv
  import opened PipelineData
  import opened PipelineRx
  import opened PipelineTx
  import opened Pipeline

  // ---------- buffers ----------

  /** p1 and p2 have exchanged their buffers, and no byte was written. */
  ghost predicate Exchanged(s: State, s': State, p1: Loc, p2: Loc) {
    && s'.mem == s.mem
    && Find(s'.bufIdx, p1) == Find(s.bufIdx, p2) && Find(s'.bufIdx, p2) == Find(s.bufIdx, p1)
    && Find(s'.pktBuf, p1) == Find(s.pktBuf, p2) && Find(s'.pktBuf, p2) == Find(s.pktBuf, p1)
  }

  /** Both keep their buffers, and no buffer but p2's was written. */
  ghost predicate Copied(s: State, s': State, p2: Loc) {
    && s'.bufIdx == s.bufIdx && s'.pktBuf == s.pktBuf
    && forall b :: b in s.mem && Some(b) != Find(s.pktBuf, p2) ==> Find(s'.mem, b) == Some(s.mem[b])
  }

  /** A move within one memory region writes nothing: the transmit slot names the buffer the
      packet came in and the receive slot the one that was to be filled.  Across two regions
      only the transmit packet's buffer is written.  Either way slot and packet to send hold
      the bytes of the received packet, which is released. */
  lemma MoveEffect(cfg: Config, s: State, t: nat)
    requires Reachable(cfg, s) && WellFormed(cfg, s) && Guard(cfg, s, MoveOne(t))
    ensures Safe(cfg, s, MoveOne(t))
    ensures var s' := Apply(cfg, s, MoveOne(t)); var p1, p2 := s.phase[t].pkt.value, s.phase[t].ptx.value;
      && (Region(cfg, p1) == Region(cfg, p2) ==> Exchanged(s, s', p1, p2))
      && (Region(cfg, p1) != Region(cfg, p2) ==> Copied(s, s', p2))
      && SlotData(cfg, s'.mem, s'.bufIdx, s'.slotLen, p2) == PktData(s.mem, s.pktBuf, s.pktLen, p1)
      && PktData(s'.mem, s'.pktBuf, s'.pktLen, p2) == PktData(s.mem, s.pktBuf, s.pktLen, p1)
      && p1 !in s'.busy
  {
    hide Inv, Safe, Guard, Reachable, Exchanged, Copied, SlotData, PktData, Region, Apply, WellFormed;
    ReachableInv(cfg, s);
    AssertionsHold(cfg, s, MoveOne(t));
    MoveEffectInv(cfg, s, t);
  }

  lemma MoveEffectInv(cfg: Config, s: State, t: nat)
    requires Inv(cfg, s) && Guard(cfg, s, MoveOne(t)) && Safe(cfg, s, MoveOne(t))
    ensures var s' := Apply(cfg, s, MoveOne(t)); var p1, p2 := s.phase[t].pkt.value, s.phase[t].ptx.value;
      && (Region(cfg, p1) == Region(cfg, p2) ==> Exchanged(s, s', p1, p2))
      && (Region(cfg, p1) != Region(cfg, p2) ==> Copied(s, s', p2))
      && SlotData(cfg, s'.mem, s'.bufIdx, s'.slotLen, p2) == PktData(s.mem, s.pktBuf, s.pktLen, p1)
      && PktData(s'.mem, s'.pktBuf, s'.pktLen, p2) == PktData(s.mem, s.pktBuf, s.pktLen, p1)
      && p1 !in s'.busy
  {
    hide RingInv, LinksInv, HomeInv, WindowInv, BatchInv, BufInv, DataInv, PlacedInv, WireInv, DeliveredInv, OrderInv,
         StageInv, SleepInv, ZoneInv, ConfigOk, SlotData, PktData, Region, CopyInto, RingsOnRing;
    MoveContents(cfg, s, t);
    MoveShape(cfg, s, t);
    MoveBuffers(cfg, s, t);
    var s' := MoveStep(cfg, s, t);
    SlotIsPkt(cfg, s', s.phase[t].ptx.value);
  }

  /** A slot and its packet hold the same bytes when their lengths agree. */
  lemma SlotIsPkt(cfg: Config, s: State, l: Loc)
    requires WellFormed(cfg, s) && Valid(cfg, l) && BufInv(cfg, s.bufIdx, s.pktBuf, s.mem)
    requires s.slotLen[l] == s.pktLen[l]
    ensures PktData(s.mem, s.pktBuf, s.pktLen, l) == SlotData(cfg, s.mem, s.bufIdx, s.slotLen, l)
  {}

  /** l is BUSY in every state of the run. */
  ghost predicate StaysBusy(cfg: Config, s: State, steps: seq<Step>, l: Loc)
    decreases |steps|
  {
    && l in s.busy
    && (steps != [] ==>
         && WellFormed(cfg, s) && Guard(cfg, s, steps[0]) && Safe(cfg, s, steps[0])
         && StaysBusy(cfg, Apply(cfg, s, steps[0]), steps[1..], l))
  }

  lemma RunHead(cfg: Config, s: State, steps: seq<Step>, s': State)
    requires Run(cfg, s, steps, s') && steps != []
    ensures WellFormed(cfg, s) && Guard(cfg, s, steps[0]) && Safe(cfg, s, steps[0])
    ensures Run(cfg, Apply(cfg, s, steps[0]), steps[1..], s')
  {
    hide WellFormed, Guard, Safe, Apply;
  }

  /** A received packet keeps its buffer for as long as it is BUSY: on its way through lists,
      consumers and queues nothing is copied or exchanged. */
  lemma {:induction false} BufferKept(cfg: Config, s: State, steps: seq<Step>, s': State, l: Loc)
    requires Inv(cfg, s) && Run(cfg, s, steps, s') && StaysBusy(cfg, s, steps, l) && l.Rx? && Valid(cfg, l)
    ensures Find(s'.pktBuf, l) == Find(s.pktBuf, l) && Find(s'.bufIdx, l) == Find(s.bufIdx, l)
    decreases |steps|
  {
    if steps != [] {
      hide Inv, Guard, Safe, Apply, WellFormed, Run;
      RunHead(cfg, s, steps, s');
      StepKeeps(cfg, s, steps[0]);
      BufferKeptStep(cfg, s, steps[0], l);
      BufferKept(cfg, Apply(cfg, s, steps[0]), steps[1..], s', l);
    }
  }

  lemma BufferKeptStep(cfg: Config, s: State, step: Step, l: Loc)
    requires WellFormed(cfg, s) && Guard(cfg, s, step) && Safe(cfg, s, step) && l.Rx?
    requires l in Apply(cfg, s, step).busy
    ensures var s' := Apply(cfg, s, step);
      Find(s'.pktBuf, l) == Find(s.pktBuf, l) && Find(s'.bufIdx, l) == Find(s.bufIdx, l)
  {
    hide WellFormed, SlotData, PktData, SlotRun, Relabel, RewriteAll;
    if !step.MoveOne? {
      BuffersStay(cfg, s, step);
    }
  }

  /** Only a move exchanges buffers. */
  lemma BuffersStay(cfg: Config, s: State, step: Step)
    requires WellFormed(cfg, s) && Guard(cfg, s, step) && Safe(cfg, s, step) && !step.MoveOne?
    ensures Apply(cfg, s, step).pktBuf == s.pktBuf && Apply(cfg, s, step).bufIdx == s.bufIdx
  {
    hide WellFormed, Guard, Safe, SlotData, PktData, SlotRun, Relabel, RewriteAll, LinkAfter, Signalled, Class, Slot,
         Next, Dist, Min, First;
  }

  /** A consumer writes the bytes of the packets on its list and no others. */
  lemma DeliverEffect(cfg: Config, s: State, r: nat, k: nat)
    requires Reachable(cfg, s) && WellFormed(cfg, s) && Guard(cfg, s, Deliver(r, k))
    ensures Safe(cfg, s, Deliver(r, k))
    ensures var s', ls := Apply(cfg, s, Deliver(r, k)), On(s.lists, Work(r, k));
      && (forall l :: l in ls ==> PktData(s'.mem, s'.pktBuf, s'.pktLen, l)
                                  == cfg.consumers[r][k].rewrite(PktData(s.mem, s.pktBuf, s.pktLen, l)))
      && (forall b, i :: !InPackets(s.pktBuf, s.pktLen, ls, b, i) ==> ByteAt(s'.mem, b, i) == ByteAt(s.mem, b, i))
  {
    hide LinksInv, HomeInv, WindowInv, BatchInv, BufInv, DataInv, PlacedInv, WireInv, DeliveredInv, OrderInv, StageInv,
         SleepInv, ZoneInv, RingInv, Reachable, RewriteAll, SlotsPresent, RingsOnRing, InPackets, ByteAt, PktData;
    ReachableInv(cfg, s);
    AssertionsHold(cfg, s, Deliver(r, k));
    DeliverMemory(cfg, s, r, k);
    KeepsLen(cfg, r, k);
    RewriteBeyond(s.mem, s.pktBuf, s.pktLen, On(s.lists, Work(r, k)), cfg.consumers[r][k].rewrite);
  }

  lemma KeepsLen(cfg: Config, r: nat, k: nat)
    requires ConfigOk(cfg) && r < |cfg.rxSlots| && k < |cfg.consumers[r]|
    ensures LenKept(cfg.consumers[r][k].rewrite)
  {}

  /** Byte i of buffer b is one of the bytes of a packet of ls. */
  ghost predicate InPackets(pktBuf: map<Loc, Buf>, pktLen: map<Loc, nat>, ls: seq<Loc>, b: Buf, i: int) {
    exists x :: 0 <= x < |ls| && Find(pktBuf, ls[x]) == Some(b) && ls[x] in pktLen && i < pktLen[ls[x]]
  }

  function ByteAt(mem: map<Buf, Bytes>, b: Buf, i: int): Option<Byte> {
    if b in mem && 0 <= i < |mem[b]| then Some(mem[b][i]) else None
  }

  lemma {:induction false} RewriteBeyond(mem: map<Buf, Bytes>, pktBuf: map<Loc, Buf>, pktLen: map<Loc, nat>,
                                         ls: seq<Loc>, f: Bytes -> Bytes)
    requires LenKept(f)
    ensures var mem' := RewriteAll(mem, pktBuf, pktLen, ls, f);
      forall b, i :: !InPackets(pktBuf, pktLen, ls, b, i) ==> ByteAt(mem', b, i) == ByteAt(mem, b, i)
    decreases |ls|
  {
    if ls != [] {
      hide InPackets, ByteAt;
      var mem1 := RewriteOne(mem, pktBuf, pktLen, ls[0], f);
      RewriteBeyond(mem1, pktBuf, pktLen, ls[1..], f);
      forall b, i | !InPackets(pktBuf, pktLen, ls, b, i)
        ensures ByteAt(mem1, b, i) == ByteAt(mem, b, i) && !InPackets(pktBuf, pktLen, ls[1..], b, i)
      {
        OneBeyond(mem, pktBuf, pktLen, ls, f, b, i);
      }
    }
  }

  lemma OneBeyond(mem: map<Buf, Bytes>, pktBuf: map<Loc, Buf>, pktLen: map<Loc, nat>, ls: seq<Loc>,
                  f: Bytes -> Bytes, b: Buf, i: int)
    requires LenKept(f) && ls != [] && !InPackets(pktBuf, pktLen, ls, b, i)
    ensures ByteAt(RewriteOne(mem, pktBuf, pktLen, ls[0], f), b, i) == ByteAt(mem, b, i)
    ensures !InPackets(pktBuf, pktLen, ls[1..], b, i)
  {
    assert forall x :: 0 <= x < |ls[1..]| ==> ls[1..][x] == ls[x + 1];
  }

  /** All rings lie in one memory region. */
  ghost predicate OneRegion(cfg: Config)
    requires ConfigOk(cfg)
  {
    forall l, k :: Valid(cfg, l) && Valid(cfg, k) ==> Region(cfg, l) == Region(cfg, k)
  }

  /** Neither a consumer's step nor one in which the kernel fills a slot. */
  predicate PassesOn(step: Step) {
    !step.Deliver? && !step.KernelWrite?
  }

  /** Within one memory region no byte of any buffer is written in a run but by consumers and
      kernel: packets are passed on by exchanging buffers alone. */
  lemma {:induction false} NoCopies(cfg: Config, s: State, steps: seq<Step>, s': State)
    requires Inv(cfg, s) && Run(cfg, s, steps, s') && OneRegion(cfg)
    requires forall i :: 0 <= i < |steps| ==> PassesOn(steps[i])
    ensures s'.mem == s.mem
    decreases |steps|
  {
    if steps != [] {
      hide Inv, Guard, Safe, Apply, WellFormed, OneRegion, PassesOn, Run;
      RunHead(cfg, s, steps, s');
      assert PassesOn(steps[0]);
      StepKeeps(cfg, s, steps[0]);
      CopiesNothing(cfg, s, steps[0]);
      var s1 := Apply(cfg, s, steps[0]);
      NoCopies(cfg, s1, steps[1..], s');
    }
  }

  lemma CopiesNothing(cfg: Config, s: State, step: Step)
    requires WellFormed(cfg, s) && Guard(cfg, s, step) && Safe(cfg, s, step) && PassesOn(step) && OneRegion(cfg)
    ensures Apply(cfg, s, step).mem == s.mem
  {
    hide Region, ConfigOk, SlotsPresent, RingsOnRing;
    if step.MoveOne? {
      assert Region(cfg, s.phase[step.t].pkt.value) == Region(cfg, s.phase[step.t].ptx.value);
    } else {
      ContentsSame(cfg, s, step);
    }
  }

  // ---------- how much each step takes ----------

  /** tx_ring_nslots, in terms of steps along the ring: the slots counted are exactly those
      from cur up to tail. */
  lemma SizeReadsRing(cfg: Config, s: State, t: nat)
    requires Reachable(cfg, s) && WellFormed(cfg, s) && Guard(cfg, s, Size(t))
    ensures var phase := Apply(cfg, s, Size(t)).phase[t];
      && phase.Sized?
      && forall j :: InWindow(cfg.txSlots[t], s.tx[t].cur, s.tx[t].tail, j)
           <==> Met(cfg.txSlots[t], s.tx[t].cur, phase.aslots, j)
  {
    hide Reachable, ConfigOk, SlotsPresent, InWindow, Met, Dist;
    WindowIsWalk(cfg.txSlots[t], s.tx[t].cur, s.tx[t].tail);
  }

  /** A transmit thread takes all that was queued, in order, and has its batch to start. */
  lemma TakesAll(cfg: Config, s: State, t: nat)
    requires Reachable(cfg, s) && WellFormed(cfg, s) && Guard(cfg, s, Take(t))
    ensures var s' := Apply(cfg, s, Take(t));
      && On(s'.lists, Queue(t)) == [] && On(s'.lists, Held(t)) == On(s.lists, Queue(t))
      && Guard(cfg, s', StartBatch(t))
  {
    hide Reachable, ConfigOk, Inv;
    ReachableInv(cfg, s);
    StepKeeps(cfg, s, Take(t));
    InvIsWellFormed(cfg, Apply(cfg, s, Take(t)));
  }

  /** A thread that was woken for nothing is back at the top of its cycle: nothing in hand, and
      the ring is read again before it may sleep or send. */
  lemma ReturnsToTop(cfg: Config, s: State, t: nat)
    requires Reachable(cfg, s) && WellFormed(cfg, s) && Guard(cfg, s, Return(t))
    ensures var s' := Apply(cfg, s, Return(t));
      && On(s'.lists, Held(t)) == [] && On(s'.lists, Gathered(t)) == []
      && WellFormed(cfg, s') && Guard(cfg, s', Size(t))
  {
    hide Reachable, LinksInv, HomeInv, WindowInv, BatchInv, BufInv, DataInv, PlacedInv, WireInv, DeliveredInv, OrderInv,
         StageInv, SleepInv, ZoneInv, RingInv, ConfigOk, SlotsPresent;
    ReachableInv(cfg, s);
    BatchOf(cfg, s, t);
  }

  /** The batch is as long as free slots and packets in hand allow. */
  lemma BatchIsLongest(cfg: Config, s: State, t: nat)
    requires Reachable(cfg, s) && WellFormed(cfg, s) && Guard(cfg, s, StartBatch(t))
    ensures var phase, held := Apply(cfg, s, StartBatch(t)).phase[t], On(s.lists, Held(t));
      && phase.Gather? && 1 <= phase.ntx <= s.phase[t].aslots && phase.ntx <= |held|
      && (phase.ntx == s.phase[t].aslots || phase.ntx == |held|)
  {
    hide Reachable, LinksInv, HomeInv, WindowInv, BatchInv, BufInv, DataInv, PlacedInv, WireInv, DeliveredInv, OrderInv,
         StageInv, SleepInv, ZoneInv, RingInv;
    ReachableInv(cfg, s);
    BatchOf(cfg, s, t);
  }

  /** A receive thread goes on to sorting only when everything the kernel delivered has been
      dequeued. */
  lemma DequeuesAll(cfg: Config, s: State, r: nat, to: Stage)
    requires Reachable(cfg, s) && WellFormed(cfg, s) && Guard(cfg, s, Turn(r, to)) && s.stage[r].Dequeuing?
    ensures to.Sorting? && s.dequeued[r] == s.delivered[r]
  {
    hide Reachable, LinksInv, HomeInv, WindowInv, BatchInv, BufInv, DataInv, PlacedInv, WireInv, OrderInv, StageInv,
         SleepInv, ZoneInv, RingInv;
    ReachableInv(cfg, s);
    assert DeliveredOk(cfg, r, s.rx[r], s.delivered[r], s.dequeued[r], s.mem, s.bufIdx, s.slotLen);
  }

  /** spin_ring gives back exactly the longest run of released slots from head on, up to cur. */
  lemma PublishesLongest(cfg: Config, s: State, r: nat)
    requires Reachable(cfg, s) && WellFormed(cfg, s) && Guard(cfg, s, SpinPublish(r))
    ensures var n, head, head' := cfg.rxSlots[r], s.rx[r].head, Apply(cfg, s, SpinPublish(r)).rx[r].head;
      && OnRing(n, head') && Dist(n, head, head') <= Dist(n, head, s.rx[r].cur)
      && (forall i: nat :: Met(n, head, Dist(n, head, head'), i) ==> Rx(r, i) !in s.busy)
      && (head' == s.rx[r].cur || Rx(r, head') in s.busy)
  {
    hide Reachable, LinksInv, HomeInv, BatchInv, BufInv, DataInv, PlacedInv, WireInv, DeliveredInv, OrderInv, StageInv,
         SleepInv, ZoneInv, ConfigOk, Met;
    ReachableInv(cfg, s);
    var n, head, spin := cfg.rxSlots[r], s.rx[r].head, s.spin[r];
    assert RxRingOk(n, s.rx[r], spin);
    WindowIsWalk(n, head, spin);
    forall i: nat | Met(n, head, Dist(n, head, spin), i) ensures Rx(r, i) !in s.busy {
      assert InWindow(n, head, spin, i);
      assert Rx(r, i) in s.busy ==> InSpinWindow(n, s.rx[r], spin, i);
    }
  }

  /** What the kernel writes is what the slot then holds; no other slot changes. */
  lemma KernelWrites(cfg: Config, s: State, l: Loc, data: Bytes, len: nat)
    requires Reachable(cfg, s) && WellFormed(cfg, s) && Guard(cfg, s, KernelWrite(l, data, len))
    ensures var s' := Apply(cfg, s, KernelWrite(l, data, len));
      && SlotData(cfg, s'.mem, s'.bufIdx, s'.slotLen, l) == data[..len]
      && forall k :: Valid(cfg, k) && k != l ==>
           SlotData(cfg, s'.mem, s'.bufIdx, s'.slotLen, k) == SlotData(cfg, s.mem, s.bufIdx, s.slotLen, k)
  {
    hide Reachable, LinksInv, HomeInv, WindowInv, BatchInv, DataInv, PlacedInv, WireInv, DeliveredInv, OrderInv,
         StageInv, SleepInv, ZoneInv, RingInv, ConfigOk;
    ReachableInv(cfg, s);
  }
}
