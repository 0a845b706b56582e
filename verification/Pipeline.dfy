/** The main theorems about the packet pipeline: over every run, of any number of rings,
    packets and steps in any interleaving. */
module Pipeline {
  import opened Circular
  import opened Octets
  import opened PipelineModel
  import opened PipelineLinks
  import opened PipelineInv
  import opened PipelineData
  import opened PipelineRx
  import opened PipelineTx

  // ---------- the start ----------

  /** What netmap provides: rings with nothing in use, and every buffer linked to exactly
      one slot. */
  ghost predicate NetmapReady(cfg: Config, rx: seq<Ring>, tx: seq<Ring>,
                              bufIdx: map<Loc, nat>, slotLen: map<Loc, nat>, mem: map<Buf, Bytes>)
  {
    && ConfigOk(cfg) && |rx| == |cfg.rxSlots| && |tx| == |cfg.txSlots|
    && (forall r :: 0 <= r < |rx| ==> OnRing(cfg.rxSlots[r], rx[r].cur) && rx[r].head == rx[r].cur == rx[r].tail)
    && (forall t :: 0 <= t < |tx| ==> OnRing(cfg.txSlots[t], tx[t].cur) && OnRing(cfg.txSlots[t], tx[t].tail)
                                      && tx[t].head == tx[t].cur)
    && (forall l :: l in bufIdx <==> Valid(cfg, l))
    && (forall l :: Valid(cfg, l) ==> l in slotLen && slotLen[l] <= cfg.bufSize && NetmapBuf(cfg, l, bufIdx[l]) in mem)
    && (forall b :: b in mem ==> |mem[b]| == cfg.bufSize)
    && (forall l, k :: Valid(cfg, l) && Valid(cfg, k) && l != k ==>
      NetmapBuf(cfg, l, bufIdx[l]) != NetmapBuf(cfg, k, bufIdx[k]))
    && (forall b :: b in mem ==> exists l :: Valid(cfg, l) && NetmapBuf(cfg, l, bufIdx[l]) == b)
  }

  /** sin_pkt_zone_fill_from_ring on every ring: one packet object a slot, zeroed, with
      buf taken from the slot; the threads have not begun. */
  ghost function Start(cfg: Config, rx: seq<Ring>, tx: seq<Ring>,
                       bufIdx: map<Loc, nat>, slotLen: map<Loc, nat>, mem: map<Buf, Bytes>): State
    requires NetmapReady(cfg, rx, tx, bufIdx, slotLen, mem)
  {
    State(rx, seq(|rx|, _ => Polling), seq(|rx|, r requires 0 <= r < |rx| => rx[r].head), tx, seq(|tx|, _ => Idle),
        seq(|tx|, _ => 0),
          bufIdx, slotLen, map l | l in bufIdx :: NetmapBuf(cfg, l, bufIdx[l]), map l | l in bufIdx :: 0,
          map l | l in bufIdx :: l.idx,
          {}, map[], map[], mem,
          map[], map[], seq(|rx|, _ => []), seq(|rx|, _ => []), seq(|tx|, _ => []), seq(|tx|, _ => []))
  }

  lemma StartInv(cfg: Config, rx: seq<Ring>, tx: seq<Ring>,
                 bufIdx: map<Loc, nat>, slotLen: map<Loc, nat>, mem: map<Buf, Bytes>)
    requires NetmapReady(cfg, rx, tx, bufIdx, slotLen, mem)
    ensures Inv(cfg, Start(cfg, rx, tx, bufIdx, slotLen, mem))
  {
    assert ConfigOk(cfg) && |rx| == |cfg.rxSlots| && |tx| == |cfg.txSlots|;
    hide LinksInv, HomeInv, WindowInv, DataInv, PlacedInv, OrderInv, StageInv, SleepInv, ZoneInv, BufInv, NetmapReady,
         WellFormed, RingInv, BatchInv, WireInv, DeliveredInv, ConfigOk;
    var s := Start(cfg, rx, tx, bufIdx, slotLen, mem);
    StartOrder(cfg, s);
    StartShape(cfg, rx, tx, bufIdx, slotLen, mem);
    StartBuffers(cfg, rx, tx, bufIdx, slotLen, mem);
    StartRings(cfg, rx, tx, bufIdx, slotLen, mem);
    StartEmpty(cfg, s);
  }

  lemma StartEmpty(cfg: Config, s: State)
    requires ConfigOk(cfg) && |s.rx| == |s.spin| == |s.stage| == |cfg.rxSlots|
    requires s.busy == {} && s.next == map[] && s.lists == map[] && s.place == map[]
    requires forall t :: 0 <= t < |s.placed| ==> s.placed[t] == []
    requires forall r :: 0 <= r < |s.stage| ==> s.stage[r] == Polling
    ensures StageInv(cfg, s.stage, s.lists)
    ensures LinksInv(s.next, s.lists, s.place) && HomeInv(cfg, s.place, s.busy, s.arr)
      && WindowInv(cfg, s.rx, s.spin, s.busy)
    ensures DataInv(cfg, s.place, s.arr, s.mem, s.pktBuf, s.pktLen) && PlacedInv(cfg, s.placed)
  {
    hide ConfigOk;
  }

  lemma StartShape(cfg: Config, rx: seq<Ring>, tx: seq<Ring>,
                   bufIdx: map<Loc, nat>, slotLen: map<Loc, nat>, mem: map<Buf, Bytes>)
    requires NetmapReady(cfg, rx, tx, bufIdx, slotLen, mem)
    ensures WellFormed(cfg, Start(cfg, rx, tx, bufIdx, slotLen, mem))
  {
    hide ConfigOk;
  }

  lemma StartBuffers(cfg: Config, rx: seq<Ring>, tx: seq<Ring>,
                     bufIdx: map<Loc, nat>, slotLen: map<Loc, nat>, mem: map<Buf, Bytes>)
    requires NetmapReady(cfg, rx, tx, bufIdx, slotLen, mem)
    ensures BufInv(cfg, bufIdx, Start(cfg, rx, tx, bufIdx, slotLen, mem).pktBuf, mem)
  {
    hide ConfigOk, NetmapBuf;
    var pktBuf := Start(cfg, rx, tx, bufIdx, slotLen, mem).pktBuf;
    forall b | b in mem ensures exists l :: Valid(cfg, l) && pktBuf[l] == b {
      var l :| Valid(cfg, l) && NetmapBuf(cfg, l, bufIdx[l]) == b;
      assert pktBuf[l] == b;
    }
  }

  lemma StartRings(cfg: Config, rx: seq<Ring>, tx: seq<Ring>,
                   bufIdx: map<Loc, nat>, slotLen: map<Loc, nat>, mem: map<Buf, Bytes>)
    requires NetmapReady(cfg, rx, tx, bufIdx, slotLen, mem)
    ensures var s := Start(cfg, rx, tx, bufIdx, slotLen, mem);
      && RingInv(cfg, s.rx, s.spin, s.tx, s.phase) && BatchInv(cfg, s.tx, s.phase, s.heldLen, s.lists)
      && WireInv(cfg, s.tx, s.phase, s.placed, s.wire, s.mem, s.bufIdx, s.slotLen)
      && DeliveredInv(cfg, s.rx, s.delivered, s.dequeued, s.mem, s.bufIdx, s.slotLen)
  {
    hide ConfigOk, NetmapBuf, SlotData;
  }

  lemma StartOrder(cfg: Config, s: State)
    requires ConfigOk(cfg) && |s.dequeued| == |cfg.rxSlots| && |s.placed| == |cfg.txSlots| && s.lists == map[]
    requires (forall r :: 0 <= r < |s.dequeued| ==> s.dequeued[r] == []) && forall t :: 0 <= t < |s.placed| ==>
      s.placed[t] == []
    ensures OrderInv(cfg, s.arr, s.lists, s.dequeued, s.placed)
  {
    forall r, k | 0 <= r < |cfg.rxSlots| && 0 <= k < |cfg.consumers[r]|
      ensures OrderOk(cfg, s.arr, s.lists, s.dequeued, s.placed, r, k)
    {
      assert Pipe(s.lists, r, k, cfg.consumers[r][k].queue) == [];
    }
  }

  // ---------- one step, and every run ----------

  /** From a state that meets the invariant, every step the code can take meets its debug
      assertions, follows no NULL pointer, and leads to such a state again. */
  lemma StepKeeps(cfg: Config, s: State, step: Step)
    requires Inv(cfg, s) && Guard(cfg, s, step)
    ensures Safe(cfg, s, step) && Inv(cfg, Apply(cfg, s, step))
  {
    hide Inv, Safe, Guard, Apply, WellFormed;
    assert WellFormed(cfg, s) by { InvIsWellFormed(cfg, s); }
    match step {
      case Dequeue(r) => DequeueKeeps(cfg, s, r);
      case SortOne(r) => SortKeeps(cfg, s, r);
      case Deliver(r, k) => DeliverKeeps(cfg, s, r, k);
      case Turn(r, to) => TurnKeeps(cfg, s, r, to);
      case SpinScan(r) => SpinKeeps(cfg, s, r, step);
      case SpinPublish(r) => SpinKeeps(cfg, s, r, step);
      case Size(t) => SizeKeeps(cfg, s, t);
      case Take(t) => TakeKeeps(cfg, s, t);
      case Sleep(t) => SleepKeeps(cfg, s, t);
      case Wake(t) => WakeKeeps(cfg, s, t);
      case Return(t) => ReturnKeeps(cfg, s, t);
      case StartBatch(t) => StartKeeps(cfg, s, t);
      case GatherOne(t) => GatherKeeps(cfg, s, t);
      case MoveOne(t) => MoveKeeps(cfg, s, t);
      case Finish(t) => FinishKeeps(cfg, s, t);
      case KernelWrite(l, data, len) => KernelWriteKeeps(cfg, s, l, data, len);
      case KernelRx(r) => KernelRxKeeps(cfg, s, r);
      case KernelTx(t) => KernelTxKeeps(cfg, s, t);
    }
  }

  lemma InvIsWellFormed(cfg: Config, s: State)
    requires Inv(cfg, s)
    ensures WellFormed(cfg, s)
  {}

  /** s' is reached from s by the given steps, each taken when its guard holds. */
  ghost predicate Run(cfg: Config, s: State, steps: seq<Step>, s': State)
    decreases |steps|
  {
    if steps == [] then s' == s
    else
      && WellFormed(cfg, s) && Guard(cfg, s, steps[0]) && Safe(cfg, s, steps[0])
      && Run(cfg, Apply(cfg, s, steps[0]), steps[1..], s')
  }

  lemma {:induction false} RunKeeps(cfg: Config, s: State, steps: seq<Step>, s': State)
    requires Inv(cfg, s) && Run(cfg, s, steps, s')
    ensures Inv(cfg, s') && s'.mem.Keys == s.mem.Keys
    decreases |steps|
  {
    if steps != [] {
      hide Inv;
      StepKeeps(cfg, s, steps[0]);
      StepKeepsBuffers(cfg, s, steps[0]);
      RunKeeps(cfg, Apply(cfg, s, steps[0]), steps[1..], s');
    }
  }

  lemma StepKeepsBuffers(cfg: Config, s: State, step: Step)
    requires WellFormed(cfg, s) && Guard(cfg, s, step) && Safe(cfg, s, step) && Inv(cfg, s)
    ensures Apply(cfg, s, step).mem.Keys == s.mem.Keys
  {
    if step.Deliver? {
      DeliverKeepsBuffers(cfg, s, step.r, step.k);
    } else if step.MoveOne? {
      MoveKeepsBuffers(cfg, s, step.t);
    } else if step.KernelWrite? {
      WriteKeepsBuffers(cfg, s, step.l, step.data, step.len);
    } else {
      ContentsSame(cfg, s, step);
    }
  }

  lemma DeliverKeepsBuffers(cfg: Config, s: State, r: nat, k: nat)
    requires Inv(cfg, s) && Guard(cfg, s, Deliver(r, k)) && Safe(cfg, s, Deliver(r, k))
    ensures Apply(cfg, s, Deliver(r, k)).mem.Keys == s.mem.Keys
  {
    hide RingInv, LinksInv, HomeInv, WindowInv, BatchInv, BufInv, DataInv, PlacedInv, WireInv, DeliveredInv, OrderInv,
         StageInv, SleepInv, ZoneInv, RewriteAll;
    DeliverMemory(cfg, s, r, k);
  }

  lemma MoveKeepsBuffers(cfg: Config, s: State, t: nat)
    requires Inv(cfg, s) && Guard(cfg, s, MoveOne(t)) && Safe(cfg, s, MoveOne(t))
    ensures Apply(cfg, s, MoveOne(t)).mem.Keys == s.mem.Keys
  {
    hide RingInv, LinksInv, HomeInv, WindowInv, BatchInv, BufInv, DataInv, PlacedInv, WireInv, DeliveredInv, OrderInv,
         StageInv, SleepInv, ZoneInv, MoveStep;
    MoveBuffers(cfg, s, t);
  }

  lemma WriteKeepsBuffers(cfg: Config, s: State, l: Loc, data: Bytes, len: nat)
    requires Inv(cfg, s) && Guard(cfg, s, KernelWrite(l, data, len)) && Safe(cfg, s, KernelWrite(l, data, len))
    ensures Apply(cfg, s, KernelWrite(l, data, len)).mem.Keys == s.mem.Keys
  {
    hide RingInv, LinksInv, HomeInv, WindowInv, BatchInv, BufInv, DataInv, PlacedInv, WireInv, DeliveredInv, OrderInv,
         StageInv, SleepInv, ZoneInv;
    KernelWriteShape(cfg, s, l, data, len);
  }

  /** Steps that write no buffer and no slot. */
  lemma ContentsSame(cfg: Config, s: State, step: Step)
    requires WellFormed(cfg, s) && Guard(cfg, s, step) && Safe(cfg, s, step)
    requires !step.Deliver? && !step.MoveOne? && !step.KernelWrite?
    ensures var s' := Apply(cfg, s, step); s'.mem == s.mem && s'.bufIdx == s.bufIdx && s'.slotLen == s.slotLen
  {
    hide WellFormed, Guard, Safe, SlotData, PktData, SlotRun, Relabel;
  }

  /** Some run of the configuration, from some start, leads to s. */
  ghost predicate Reachable(cfg: Config, s: State) {
    exists rx, tx, bufIdx, slotLen, mem, steps ::
      NetmapReady(cfg, rx, tx, bufIdx, slotLen, mem) && Run(cfg, Start(cfg, rx, tx, bufIdx, slotLen, mem), steps, s)
  }

  lemma ReachableInv(cfg: Config, s: State)
    requires Reachable(cfg, s)
    ensures Inv(cfg, s)
  {
    hide Inv;
    var rx, tx, bufIdx, slotLen, mem, steps :|
      NetmapReady(cfg, rx, tx, bufIdx, slotLen, mem) && Run(cfg, Start(cfg, rx, tx, bufIdx, slotLen, mem), steps, s);
    StartInv(cfg, rx, tx, bufIdx, slotLen, mem);
    RunKeeps(cfg, Start(cfg, rx, tx, bufIdx, slotLen, mem), steps, s);
  }

  // ---------- what holds in every reachable state ----------

  /** The debug assertions never fail and no NULL link is followed. */
  lemma AssertionsHold(cfg: Config, s: State, step: Step)
    requires Reachable(cfg, s) && WellFormed(cfg, s) && Guard(cfg, s, step)
    ensures Safe(cfg, s, step)
  {
    hide Inv, Safe, Guard, Reachable;
    ReachableInv(cfg, s);
    StepKeeps(cfg, s, step);
  }

  /** Received packet l is BUSY, sits in [head, cur) of its ring and is on exactly one list,
      at exactly one position; or it is on no list and has a NULL link. */
  ghost predicate Owned(cfg: Config, s: State, l: Loc)
    requires |s.rx| == |cfg.rxSlots| && l.Rx? && Valid(cfg, l)
  {
    && (l in s.busy ==>
         && InWindow(cfg.rxSlots[l.ring], s.rx[l.ring].head, s.rx[l.ring].cur, l.idx)
         && exists p, i :: 0 <= i < |On(s.lists, p)| && On(s.lists, p)[i] == l
              && forall q, j :: 0 <= j < |On(s.lists, q)| && On(s.lists, q)[j] == l ==> q == p && j == i)
    && (l !in s.busy ==> l !in s.next && forall q :: l !in On(s.lists, q))
  }

  /** In every reachable state every received packet is owned by exactly one side. */
  lemma Ownership(cfg: Config, s: State)
    requires Reachable(cfg, s)
    ensures |s.rx| == |cfg.rxSlots|
    ensures forall l: Loc :: l.Rx? && Valid(cfg, l) ==> Owned(cfg, s, l)
  {
    hide Reachable, RingInv, LinksInv, HomeInv, WindowInv, BatchInv, BufInv, DataInv, PlacedInv, WireInv, DeliveredInv,
         OrderInv, StageInv, SleepInv, ZoneInv, Owned;
    ReachableInv(cfg, s);
    forall l: Loc | l.Rx? && Valid(cfg, l) ensures Owned(cfg, s, l) {
      OwnershipInv(cfg, s, l);
    }
  }

  lemma OwnershipInv(cfg: Config, s: State, l: Loc)
    requires Inv(cfg, s) && l.Rx? && Valid(cfg, l)
    ensures Owned(cfg, s, l)
  {
    hide RingInv, BatchInv, BufInv, DataInv, PlacedInv, WireInv, DeliveredInv, OrderInv, StageInv, SleepInv, ZoneInv,
         AllOk;
    if l in s.busy {
      var p := s.place[l];
      var i :| 0 <= i < |On(s.lists, p)| && On(s.lists, p)[i] == l;
      OnlyThere(s.next, s.lists, s.place, l, p, i);
    } else {
      NotOnAnyList(s.next, s.lists, s.place, l);
    }
  }

  lemma OnlyThere(next: map<Loc, Loc>, lists: map<Place, seq<Loc>>, place: map<Loc, Place>, l: Loc, p: Place, i: int)
    requires LinksInv(next, lists, place) && 0 <= i < |On(lists, p)| && On(lists, p)[i] == l
    ensures forall q, j :: 0 <= j < |On(lists, q)| && On(lists, q)[j] == l ==> q == p && j == i
  {
    assert ListOk(next, place, p, On(lists, p));
    forall q, j | 0 <= j < |On(lists, q)| && On(lists, q)[j] == l ensures q == p && j == i {
      assert ListOk(next, place, q, On(lists, q));
    }
  }

  /** Following sin_next from the head of any list visits exactly that list. */
  lemma LinksSpellLists(cfg: Config, s: State, p: Place)
    requires Reachable(cfg, s)
    ensures Follow(s.next, First(On(s.lists, p)), |On(s.lists, p)|) == On(s.lists, p)
    ensures On(s.lists, p) != [] ==> Last(On(s.lists, p)) !in s.next
  {
    ReachableInv(cfg, s);
    assert ListOk(s.next, s.place, p, On(s.lists, p));
    FollowIs(s.next, s.place, p, On(s.lists, p));
  }

  /** The packets met by following at most fuel links. */
  function Follow(next: map<Loc, Loc>, l: Option<Loc>, fuel: nat): seq<Loc>
    decreases fuel
  {
    if fuel == 0 || l == None then [] else [l.value] + Follow(next, Find(next, l.value), fuel - 1)
  }

  lemma {:induction false} FollowIs(next: map<Loc, Loc>, place: map<Loc, Place>, p: Place, ls: seq<Loc>)
    requires ListOk(next, place, p, ls)
    ensures Follow(next, First(ls), |ls|) == ls
    decreases |ls|
  {
    if ls != [] {
      TailOk(next, place, p, ls);
      FollowIs(next, place, p, ls[1..]);
    }
  }

  lemma TailOk(next: map<Loc, Loc>, place: map<Loc, Place>, p: Place, ls: seq<Loc>)
    requires ls != [] && ListOk(next, place, p, ls)
    ensures ListOk(next, place, p, ls[1..]) && Find(next, ls[0]) == First(ls[1..])
  {
    if |ls| > 1 { assert Find(next, ls[0]) == Some(ls[1]); }
    forall i | 0 <= i < |ls[1..]| - 1 ensures Find(next, ls[1..][i]) == Some(ls[1..][i + 1]) {
      assert Find(next, ls[i + 1]) == Some(ls[i + 2]);
    }
  }

  /** The buffers are bufs, each named by exactly one slot, and every packet's buf is the one
      its slot names. */
  ghost predicate OneSlotEach(cfg: Config, bufIdx: map<Loc, nat>, pktBuf: map<Loc, Buf>, bufs: set<Buf>)
    requires ConfigOk(cfg)
  {
    && (forall l :: Valid(cfg, l) ==>
         l in bufIdx && l in pktBuf && pktBuf[l] == NetmapBuf(cfg, l, bufIdx[l]) && pktBuf[l] in bufs)
    && (forall b :: b in bufs ==>
         exists l :: Valid(cfg, l) && pktBuf[l] == b && forall k :: Valid(cfg, k) && pktBuf[k] == b ==> k == l)
  }

  /** Buffer conservation: whatever was swapped, the buffers are the initial ones, one a
      slot. */
  lemma BuffersConserved(cfg: Config, s0: State, steps: seq<Step>, s: State)
    requires Inv(cfg, s0) && Run(cfg, s0, steps, s)
    ensures OneSlotEach(cfg, s.bufIdx, s.pktBuf, s0.mem.Keys)
  {
    hide Run, RingInv, LinksInv, HomeInv, WindowInv, BatchInv, BufInv, DataInv, PlacedInv, WireInv, DeliveredInv,
         OrderInv, StageInv, SleepInv, ZoneInv, OneSlotEach, SlotsPresent, RingsOnRing;
    RunKeeps(cfg, s0, steps, s);
    OneSlotEachNow(cfg, s.bufIdx, s.slotLen, s.pktBuf, s.pktLen, s.mem);
  }

  lemma OneSlotEachNow(cfg: Config, bufIdx: map<Loc, nat>, slotLen: map<Loc, nat>, pktBuf: map<Loc, Buf>,
                       pktLen: map<Loc, nat>, mem: map<Buf, Bytes>)
    requires ConfigOk(cfg) && BufInv(cfg, bufIdx, pktBuf, mem)
      && SlotsPresent(cfg, bufIdx, slotLen, pktBuf, pktLen, mem)
    ensures OneSlotEach(cfg, bufIdx, pktBuf, mem.Keys)
  {
    hide ConfigOk, NetmapBuf;
    forall b | b in mem
      ensures exists l :: Valid(cfg, l) && pktBuf[l] == b && forall k :: Valid(cfg, k) && pktBuf[k] == b ==> k == l
    {
      var l :| Valid(cfg, l) && pktBuf[l] == b;
    }
  }

  /** The queue's protocol within the whole system: a transmit thread asleep in get_items, not
      signalled, has nothing queued, nothing held and no batch; whoever queues something wakes
      it in the same step. */
  lemma SleepersHaveNothing(cfg: Config, s: State, t: nat)
    requires Reachable(cfg, s)
    ensures t < |s.phase| && s.phase[t].Asleep? ==>
      On(s.lists, Queue(t)) == [] && On(s.lists, Held(t)) == [] && On(s.lists, Gathered(t)) == []
  {
    hide Reachable, RingInv, LinksInv, HomeInv, WindowInv, BufInv, DataInv, PlacedInv, WireInv, DeliveredInv, OrderInv,
         StageInv, ZoneInv;
    ReachableInv(cfg, s);
    if t < |s.phase| && s.phase[t].Asleep? {
      assert BatchOk(cfg.txSlots[t], t, s.tx[t].cur, s.phase[t], s.heldLen[t], On(s.lists, Held(t)),
                     On(s.lists, Gathered(t)));
    }
  }

  // ---------- the kernel's slots ----------

  predicate KernelStep(step: Step) {
    step.KernelWrite? || step.KernelRx? || step.KernelTx?
  }

  /** No step of the library changes a slot the kernel owns, or that slot's buffer. */
  lemma KernelSlotsUntouched(cfg: Config, s: State, step: Step)
    requires Reachable(cfg, s) && WellFormed(cfg, s) && Guard(cfg, s, step) && !KernelStep(step)
    ensures Safe(cfg, s, step)
    ensures forall l :: KernelOwns(cfg, s, l) ==> SlotUntouched(cfg, s, Apply(cfg, s, step), l)
  {
    assert ConfigOk(cfg) && |s.rx| == |cfg.rxSlots| && |s.tx| == |cfg.txSlots|;
    hide Reachable, Inv, SlotSame, Guard, Safe, Apply, KernelOwns, SlotUntouched, WellFormed, ConfigOk;
    ReachableInv(cfg, s);
    AssertionsHold(cfg, s, step);
    forall l | KernelOwns(cfg, s, l) ensures SlotUntouched(cfg, s, Apply(cfg, s, step), l) {
      KernelSlotsUntouchedInv(cfg, s, step, l);
    }
  }

  /** Slot l names the same buffer, with the same length and contents. */
  predicate SlotUntouched(cfg: Config, s: State, s': State, l: Loc)
    requires ConfigOk(cfg)
  {
    && Valid(cfg, l) && l in s.bufIdx && NetmapBuf(cfg, l, s.bufIdx[l]) in s.mem
    && SlotSame(cfg, l, s.mem, s.bufIdx, s.slotLen, s'.mem, s'.bufIdx, s'.slotLen)
  }

  lemma KernelSlotsUntouchedInv(cfg: Config, s: State, step: Step, l: Loc)
    requires WellFormed(cfg, s) && Guard(cfg, s, step) && Safe(cfg, s, step) && !KernelStep(step)
    requires KernelOwns(cfg, s, l) && Inv(cfg, s)
    ensures SlotUntouched(cfg, s, Apply(cfg, s, step), l)
  {
    hide Inv, SlotUntouched, Apply, Guard, Safe, KernelOwns, KernelSlot, WellFormed;
    KernelSlotIs(cfg, s, l);
    if step.Deliver? {
      DeliverAvoidsKernel(cfg, s, step.r, step.k, l);
    } else if step.MoveOne? {
      MoveAvoidsKernel(cfg, s, step.t, l);
    } else {
      WritesNothing(cfg, s, step, l);
    }
  }

  /** A slot of the kernel's: its packet is on no list, and its buffer is in place. */
  ghost predicate KernelSlot(cfg: Config, s: State, l: Loc)
    requires ConfigOk(cfg)
  {
    && Valid(cfg, l) && l in s.bufIdx && NetmapBuf(cfg, l, s.bufIdx[l]) in s.mem
    && (l.Rx? ==> l !in s.place)
  }

  lemma KernelSlotIs(cfg: Config, s: State, l: Loc)
    requires Inv(cfg, s) && KernelOwns(cfg, s, l)
    ensures KernelSlot(cfg, s, l)
  {
    hide LinksInv, BatchInv, DataInv, PlacedInv, WireInv, DeliveredInv, OrderInv, StageInv, SleepInv, ZoneInv, HomeInv,
         WindowInv, RingInv, BufInv, ConfigOk, NetmapBuf;
    KernelBuffer(cfg, s.bufIdx, s.pktBuf, s.mem, l);
    KernelSlotUnused(cfg, s, l);
  }

  /** Steps that move no contents. */
  lemma WritesNothing(cfg: Config, s: State, step: Step, l: Loc)
    requires WellFormed(cfg, s) && Guard(cfg, s, step) && Safe(cfg, s, step) && KernelSlot(cfg, s, l)
    requires !KernelStep(step) && !step.Deliver? && !step.MoveOne?
    ensures SlotUntouched(cfg, s, Apply(cfg, s, step), l)
  {
    hide WellFormed, Guard, Safe, Apply, NetmapBuf;
    ContentsSame(cfg, s, step);
  }

  lemma DeliverAvoidsKernel(cfg: Config, s: State, r: nat, k: nat, l: Loc)
    requires Inv(cfg, s) && WellFormed(cfg, s) && Guard(cfg, s, Deliver(r, k)) && Safe(cfg, s, Deliver(r, k))
    requires KernelSlot(cfg, s, l)
    ensures SlotUntouched(cfg, s, Apply(cfg, s, Deliver(r, k)), l)
  {
    hide RingInv, LinksInv, HomeInv, WindowInv, BatchInv, BufInv, DataInv, PlacedInv, WireInv, DeliveredInv, OrderInv,
         StageInv, SleepInv, ZoneInv, RewriteAll, SlotSame, NetmapBuf;
    DeliverMemory(cfg, s, r, k);
    WorkMembers(cfg, s, r, k);
    DeliverSlots(cfg, s, r, k, DeliverStep(cfg, s, r, k).mem);
  }

  lemma KernelBuffer(cfg: Config, bufIdx: map<Loc, nat>, pktBuf: map<Loc, Buf>, mem: map<Buf, Bytes>, l: Loc)
    requires ConfigOk(cfg) && Valid(cfg, l) && BufInv(cfg, bufIdx, pktBuf, mem)
    ensures l in bufIdx && l in pktBuf && pktBuf[l] == NetmapBuf(cfg, l, bufIdx[l])
  {}

  lemma MoveAvoidsKernel(cfg: Config, s: State, t: nat, l: Loc)
    requires Inv(cfg, s) && WellFormed(cfg, s) && Guard(cfg, s, MoveOne(t)) && Safe(cfg, s, MoveOne(t))
    requires KernelOwns(cfg, s, l) && KernelSlot(cfg, s, l)
    ensures SlotUntouched(cfg, s, Apply(cfg, s, MoveOne(t)), l)
  {
    hide RingInv, LinksInv, HomeInv, WindowInv, BatchInv, BufInv, DataInv, PlacedInv, WireInv, DeliveredInv, OrderInv,
         StageInv, SleepInv, ZoneInv, MoveStep, SlotSame, NetmapBuf, ConfigOk, SlotsPresent, RingsOnRing;
    MoveOthers(cfg, s, t);
    WalkersNotKernels(cfg, s, t, l);
  }

  predicate WalksOn(phase: Phase, l: Loc) {
    phase.Move? && (phase.pkt == Some(l) || phase.ptx == Some(l))
  }

  lemma WalkersNotKernels(cfg: Config, s: State, t: nat, l: Loc)
    requires WellFormed(cfg, s) && Guard(cfg, s, MoveOne(t)) && KernelOwns(cfg, s, l)
    requires (l.Rx? ==> l !in s.place) && Inv(cfg, s)
    ensures !WalksOn(s.phase[t], l)
  {
    hide RingInv, LinksInv, BatchInv, DataInv, PlacedInv, WireInv, DeliveredInv, OrderInv, StageInv, SleepInv, ZoneInv,
         HomeInv, WindowInv, BufInv, SlotData, PktData, BatchOk, WireOk, ConfigOk;
    MovePkts(cfg, s, t);
    BatchOf(cfg, s, t);
  }

  /** advance_tx_ring hands over exactly the ntx slots just filled. */
  lemma FinishHandsOver(cfg: Config, s: State, t: nat)
    requires Reachable(cfg, s) && WellFormed(cfg, s) && Guard(cfg, s, Finish(t))
    ensures Safe(cfg, s, Finish(t))
    ensures var s' := FinishStep(cfg, s, t);
      && |s'.tx| == |s.tx|
      && s'.tx[t].cur == (s.tx[t].cur + s.phase[t].ntx) % cfg.txSlots[t]
      && forall l :: KernelOwns(cfg, s', l) <==> KernelOwns(cfg, s, l) || InBatch(cfg, s, t, l)
  {
    hide Reachable, RingInv, LinksInv, HomeInv, WindowInv, BatchInv, BufInv, DataInv, PlacedInv, WireInv, DeliveredInv,
         OrderInv, StageInv, SleepInv, ZoneInv, SlotData, SlotRun, BatchOk, WireOk, ConfigOk;
    ReachableInv(cfg, s);
    AssertionsHold(cfg, s, Finish(t));
    BatchOf(cfg, s, t);
    AdvanceStaysInWindow(cfg.txSlots[t], s.tx[t].cur, s.tx[t].tail, s.phase[t].ntx);
  }

  /** l is one of the slots the batch of transmit thread t fills. */
  predicate InBatch(cfg: Config, s: State, t: nat, l: Loc)
    requires t < |cfg.txSlots| && t < |s.tx| && t < |s.phase| && s.phase[t].Move?
  {
    l.Tx? && l.ring == t && exists i :: 0 <= i < s.phase[t].ntx && l.idx == Slot(cfg.txSlots[t], s.tx[t].cur, i)
  }

  /** Publishing new_head hands over only slots whose packets are on no list. */
  lemma SpinHandsOver(cfg: Config, s: State, r: nat)
    requires Reachable(cfg, s) && WellFormed(cfg, s) && Guard(cfg, s, SpinPublish(r))
    ensures forall l :: KernelOwns(cfg, Apply(cfg, s, SpinPublish(r)), l) && !KernelOwns(cfg, s, l) ==>
      l.Rx? && l.ring == r && l !in s.busy && l !in s.next && forall p :: l !in On(s.lists, p)
  {
    hide Reachable, LinksInv, BatchInv, BufInv, DataInv, PlacedInv, WireInv, DeliveredInv, OrderInv, StageInv, SleepInv,
         ZoneInv, SlotData, ConfigOk;
    ReachableInv(cfg, s);
    assert RxRingOk(cfg.rxSlots[r], s.rx[r], s.spin[r]);
    forall l | KernelOwns(cfg, Apply(cfg, s, SpinPublish(r)), l) && !KernelOwns(cfg, s, l)
      ensures l.Rx? && l.ring == r && l !in s.busy && l !in s.next && forall p :: l !in On(s.lists, p)
    {
      assert l !in s.place;
      NotOnAnyList(s.next, s.lists, s.place, l);
      NullLink(s.next, s.lists, s.place, l);
    }
  }

  lemma NullLink(next: map<Loc, Loc>, lists: map<Place, seq<Loc>>, place: map<Loc, Place>, l: Loc)
    requires LinksInv(next, lists, place) && l !in place
    ensures l !in next
  {}
}
