/** What packets, slots and buffers hold: frames and the effect of consumers. */
module PipelineData {
  import opened Circular
  import opened Octets
  import opened PipelineModel
  import opened PipelineInv

  /** Slot l names the same buffer with the same length and contents in both states. */
  predicate SlotSame(cfg: Config, l: Loc,
                     mem: map<Buf, Bytes>, bufIdx: map<Loc, nat>, slotLen: map<Loc, nat>,
                     mem': map<Buf, Bytes>, bufIdx': map<Loc, nat>, slotLen': map<Loc, nat>)
    requires ConfigOk(cfg) && Valid(cfg, l)
  {
    && Find(bufIdx', l) == Find(bufIdx, l) && Find(slotLen', l) == Find(slotLen, l)
    && (l in bufIdx ==> Find(mem', NetmapBuf(cfg, l, bufIdx[l])) == Find(mem, NetmapBuf(cfg, l, bufIdx[l])))
  }

  lemma SlotDataFrame(cfg: Config, l: Loc,
                      mem: map<Buf, Bytes>, bufIdx: map<Loc, nat>, slotLen: map<Loc, nat>,
                      mem': map<Buf, Bytes>, bufIdx': map<Loc, nat>, slotLen': map<Loc, nat>)
    requires ConfigOk(cfg) && Valid(cfg, l) && SlotSame(cfg, l, mem, bufIdx, slotLen, mem', bufIdx', slotLen')
    ensures SlotData(cfg, mem', bufIdx', slotLen', l) == SlotData(cfg, mem, bufIdx, slotLen, l)
  {
    if l in bufIdx {
      var b := NetmapBuf(cfg, l, bufIdx[l]);
      assert Find(mem', b) == Find(mem, b);
      assert b in mem <==> b in mem';
    }
  }

  lemma TxRunFrame(cfg: Config, t: nat, cur: int, run: seq<Sent>,
                   mem: map<Buf, Bytes>, bufIdx: map<Loc, nat>, slotLen: map<Loc, nat>,
                   mem': map<Buf, Bytes>, bufIdx': map<Loc, nat>, slotLen': map<Loc, nat>)
    requires ConfigOk(cfg) && t < |cfg.txSlots| && OnRing(cfg.txSlots[t], cur) && |run| <= cfg.txSlots[t]
    requires TxRun(cfg, t, cur, run, mem, bufIdx, slotLen)
    requires forall x :: 0 <= x < |run| ==>
      SlotSame(cfg, Tx(t, Slot(cfg.txSlots[t], cur, x)), mem, bufIdx, slotLen, mem', bufIdx', slotLen')
    ensures TxRun(cfg, t, cur, run, mem', bufIdx', slotLen')
  {
    forall x | 0 <= x < |run| ensures TxHolds(cfg, t, cur, x, run[x].out, mem', bufIdx', slotLen') {
      assert TxHolds(cfg, t, cur, x, run[x].out, mem, bufIdx, slotLen);
      SlotDataFrame(cfg, Tx(t, Slot(cfg.txSlots[t], cur, x)), mem, bufIdx, slotLen, mem', bufIdx', slotLen');
    }
  }

  lemma RxRunFrame(cfg: Config, r: nat, cur: int, run: seq<Bytes>,
                   mem: map<Buf, Bytes>, bufIdx: map<Loc, nat>, slotLen: map<Loc, nat>,
                   mem': map<Buf, Bytes>, bufIdx': map<Loc, nat>, slotLen': map<Loc, nat>)
    requires ConfigOk(cfg) && r < |cfg.rxSlots| && OnRing(cfg.rxSlots[r], cur) && |run| <= cfg.rxSlots[r]
    requires RxRun(cfg, r, cur, run, mem, bufIdx, slotLen)
    requires forall x :: 0 <= x < |run| ==>
      SlotSame(cfg, Rx(r, Slot(cfg.rxSlots[r], cur, x)), mem, bufIdx, slotLen, mem', bufIdx', slotLen')
    ensures RxRun(cfg, r, cur, run, mem', bufIdx', slotLen')
  {
    forall x | 0 <= x < |run| ensures RxHolds(cfg, r, cur, x, run[x], mem', bufIdx', slotLen') {
      assert RxHolds(cfg, r, cur, x, run[x], mem, bufIdx, slotLen);
      SlotDataFrame(cfg, Rx(r, Slot(cfg.rxSlots[r], cur, x)), mem, bufIdx, slotLen, mem', bufIdx', slotLen');
    }
  }

  /** Slots a current batch has filled, and slots received but not dequeued. */
  predicate Filled(cfg: Config, tx: seq<Ring>, phase: seq<Phase>, l: Loc)
    requires |tx| == |phase| == |cfg.txSlots|
  {
    l.Tx? && Valid(cfg, l) && Dist(cfg.txSlots[l.ring], tx[l.ring].cur, l.idx) < Done(phase[l.ring])
  }

  predicate Waiting(cfg: Config, rx: seq<Ring>, l: Loc)
    requires |rx| == |cfg.rxSlots|
  {
    l.Rx? && Valid(cfg, l) && InWindow(cfg.rxSlots[l.ring], rx[l.ring].cur, rx[l.ring].tail, l.idx)
  }

  /** The transmit side sees no change when every slot filled by a current batch is the
      same; likewise the receive side for the slots in [cur, tail). */
  lemma WireFrame(cfg: Config, tx: seq<Ring>, phase: seq<Phase>, placed: seq<seq<Sent>>, wire: seq<seq<Bytes>>,
                  mem: map<Buf, Bytes>, bufIdx: map<Loc, nat>, slotLen: map<Loc, nat>,
                  mem': map<Buf, Bytes>, bufIdx': map<Loc, nat>, slotLen': map<Loc, nat>)
    requires ConfigOk(cfg) && |tx| == |phase| == |placed| == |wire| == |cfg.txSlots|
    requires forall t :: 0 <= t < |tx| ==> OnRing(cfg.txSlots[t], tx[t].cur) && Done(phase[t]) <= cfg.txSlots[t]
    requires WireInv(cfg, tx, phase, placed, wire, mem, bufIdx, slotLen)
    requires forall l :: Filled(cfg, tx, phase, l) ==> SlotSame(cfg, l, mem, bufIdx, slotLen, mem', bufIdx', slotLen')
    ensures WireInv(cfg, tx, phase, placed, wire, mem', bufIdx', slotLen')
  {
    forall t | 0 <= t < |tx|
      ensures WireOk(cfg, t, tx[t].cur, Done(phase[t]), placed[t], wire[t], mem', bufIdx', slotLen')
    {
      assert WireOk(cfg, t, tx[t].cur, Done(phase[t]), placed[t], wire[t], mem, bufIdx, slotLen);
      forall x | 0 <= x < Done(phase[t])
        ensures SlotSame(cfg, Tx(t, Slot(cfg.txSlots[t], tx[t].cur, x)), mem, bufIdx, slotLen, mem', bufIdx', slotLen')
      {
        assert Filled(cfg, tx, phase, Tx(t, Slot(cfg.txSlots[t], tx[t].cur, x)));
      }
      TxRunFrame(cfg, t, tx[t].cur, placed[t][|wire[t]|..], mem, bufIdx, slotLen, mem', bufIdx', slotLen');
    }
  }

  lemma DeliveredFrame(cfg: Config, rx: seq<Ring>, delivered: seq<seq<Bytes>>, dequeued: seq<seq<Bytes>>,
                       mem: map<Buf, Bytes>, bufIdx: map<Loc, nat>, slotLen: map<Loc, nat>,
                       mem': map<Buf, Bytes>, bufIdx': map<Loc, nat>, slotLen': map<Loc, nat>)
    requires ConfigOk(cfg) && |rx| == |delivered| == |dequeued| == |cfg.rxSlots|
    requires forall r :: 0 <= r < |rx| ==> OnRing(cfg.rxSlots[r], rx[r].cur) && OnRing(cfg.rxSlots[r], rx[r].tail)
    requires DeliveredInv(cfg, rx, delivered, dequeued, mem, bufIdx, slotLen)
    requires forall l :: Waiting(cfg, rx, l) ==> SlotSame(cfg, l, mem, bufIdx, slotLen, mem', bufIdx', slotLen')
    ensures DeliveredInv(cfg, rx, delivered, dequeued, mem', bufIdx', slotLen')
  {
    forall r | 0 <= r < |rx|
      ensures DeliveredOk(cfg, r, rx[r], delivered[r], dequeued[r], mem', bufIdx', slotLen')
    {
      assert DeliveredOk(cfg, r, rx[r], delivered[r], dequeued[r], mem, bufIdx, slotLen);
      forall x | 0 <= x < Dist(cfg.rxSlots[r], rx[r].cur, rx[r].tail)
        ensures SlotSame(cfg, Rx(r, Slot(cfg.rxSlots[r], rx[r].cur, x)), mem, bufIdx, slotLen, mem', bufIdx', slotLen')
      {
        assert Waiting(cfg, rx, Rx(r, Slot(cfg.rxSlots[r], rx[r].cur, x)));
      }
      RxRunFrame(cfg, r, rx[r].cur, delivered[r][|dequeued[r]|..], mem, bufIdx, slotLen, mem', bufIdx', slotLen');
    }
  }

  lemma DoneFits(cfg: Config, tx: seq<Ring>, rx: seq<Ring>, spin: seq<int>, phase: seq<Phase>)
    requires |rx| == |spin| == |cfg.rxSlots| && |tx| == |phase| == |cfg.txSlots|
    requires RingInv(cfg, rx, spin, tx, phase)
    requires forall t :: 0 <= t < |tx| ==> OnRing(cfg.txSlots[t], tx[t].cur) && OnRing(cfg.txSlots[t], tx[t].tail)
    ensures forall t :: 0 <= t < |tx| ==> OnRing(cfg.txSlots[t], tx[t].cur) && Done(phase[t]) <= cfg.txSlots[t]
  {
    forall t | 0 <= t < |tx| ensures OnRing(cfg.txSlots[t], tx[t].cur) && Done(phase[t]) <= cfg.txSlots[t] {
      assert PhaseOk(cfg.txSlots[t], tx[t], phase[t]);
    }
  }

  lemma BufFrame(cfg: Config, bufIdx: map<Loc, nat>, pktBuf: map<Loc, Buf>, mem: map<Buf, Bytes>, mem': map<Buf, Bytes>)
    requires ConfigOk(cfg) && BufInv(cfg, bufIdx, pktBuf, mem) && mem'.Keys == mem.Keys
    ensures BufInv(cfg, bufIdx, pktBuf, mem')
  {
    forall b | b in mem' ensures exists l :: Valid(cfg, l) && pktBuf[l] == b {
      assert b in mem;
    }
  }

  // ---------- consumers ----------

  ghost predicate PktsPresent(mem: map<Buf, Bytes>, pktBuf: map<Loc, Buf>, pktLen: map<Loc, nat>, ls: seq<Loc>) {
    forall l :: l in ls ==> l in pktBuf && pktBuf[l] in mem && l in pktLen && pktLen[l] <= |mem[pktBuf[l]]|
  }

  ghost predicate BufsApart(pktBuf: map<Loc, Buf>, ls: seq<Loc>) {
    forall i, j :: 0 <= i < j < |ls| && ls[i] in pktBuf && ls[j] in pktBuf ==> pktBuf[ls[i]] != pktBuf[ls[j]]
  }

  /** Same buffers, of the same sizes, unchanged outside the packets of ls. */
  ghost predicate OnlyWrites(mem: map<Buf, Bytes>, mem': map<Buf, Bytes>, pktBuf: map<Loc, Buf>, ls: seq<Loc>) {
    && mem'.Keys == mem.Keys
    && (forall b :: b in mem ==> |mem'[b]| == |mem[b]|)
    && (forall b :: b in mem && (forall l :: l in ls && l in pktBuf ==> pktBuf[l] != b) ==> mem'[b] == mem[b])
  }

  lemma RewriteOneEffect(mem: map<Buf, Bytes>, pktBuf: map<Loc, Buf>, pktLen: map<Loc, nat>, l: Loc, f: Bytes -> Bytes)
    requires LenKept(f) && PktsPresent(mem, pktBuf, pktLen, [l])
    ensures var mem' := RewriteOne(mem, pktBuf, pktLen, l, f);
      && mem'.Keys == mem.Keys
      && (forall b :: b in mem ==> |mem'[b]| == |mem[b]|)
      && (forall b :: b in mem && b != pktBuf[l] ==> mem'[b] == mem[b])
      && PktData(mem', pktBuf, pktLen, l) == f(PktData(mem, pktBuf, pktLen, l))
  {
    assert l in [l];
  }

  /** A consumer's loop applies its rewriting once to each packet of its list, and touches
      nothing else. */
  lemma {:induction false} RewriteAllEffect(mem: map<Buf, Bytes>, pktBuf: map<Loc, Buf>, pktLen: map<Loc, nat>,
                                            ls: seq<Loc>, f: Bytes -> Bytes)
    requires LenKept(f) && PktsPresent(mem, pktBuf, pktLen, ls) && BufsApart(pktBuf, ls)
    ensures var mem' := RewriteAll(mem, pktBuf, pktLen, ls, f);
      && OnlyWrites(mem, mem', pktBuf, ls)
      && forall l :: l in ls ==> PktData(mem', pktBuf, pktLen, l) == f(PktData(mem, pktBuf, pktLen, l))
    decreases |ls|, 0
  {
    if ls != [] {
      var l, rest := ls[0], ls[1..];
      var mem1 := RewriteOne(mem, pktBuf, pktLen, l, f);
      assert l in ls;
      RewriteOneEffect(mem, pktBuf, pktLen, l, f);
      forall x | x in rest
        ensures x in ls && x in pktBuf && pktBuf[x] != pktBuf[l]
        ensures PktData(mem1, pktBuf, pktLen, x) == PktData(mem, pktBuf, pktLen, x)
      {
        var i :| 0 <= i < |rest| && rest[i] == x;
        assert ls[i + 1] == x;
      }
      RewriteTail(mem, mem1, pktBuf, pktLen, l, rest, f);
      forall x | x in ls ensures x == l || x in rest {
        var i :| 0 <= i < |ls| && ls[i] == x;
        if i > 0 { assert rest[i - 1] == x; }
      }
      var mem' := RewriteAll(mem1, pktBuf, pktLen, rest, f);
      forall b | b in mem && (forall x :: x in ls && x in pktBuf ==> pktBuf[x] != b) ensures mem'[b] == mem[b] {
        assert l in ls && b != pktBuf[l];
      }
    }
  }

  lemma {:induction false} RewriteTail(mem: map<Buf, Bytes>, mem1: map<Buf, Bytes>, pktBuf: map<Loc, Buf>,
                                       pktLen: map<Loc, nat>,
                                       l: Loc, rest: seq<Loc>, f: Bytes -> Bytes)
    requires LenKept(f) && PktsPresent(mem, pktBuf, pktLen, [l] + rest) && BufsApart(pktBuf, [l] + rest)
    requires mem1.Keys == mem.Keys && forall b :: b in mem ==> |mem1[b]| == |mem[b]|
    ensures var mem' := RewriteAll(mem1, pktBuf, pktLen, rest, f);
      && OnlyWrites(mem1, mem', pktBuf, rest)
      && (forall x :: x in rest ==> PktData(mem', pktBuf, pktLen, x) == f(PktData(mem1, pktBuf, pktLen, x)))
      && mem'[pktBuf[l]] == mem1[pktBuf[l]]
    decreases |rest|, 1
  {
    assert ([l] + rest)[0] == l && l in [l] + rest;
    forall x | x in rest ensures x in [l] + rest && x in pktBuf && pktBuf[x] != pktBuf[l] {
      var i :| 0 <= i < |rest| && rest[i] == x;
      assert ([l] + rest)[i + 1] == x;
    }
    forall i, j | 0 <= i < j < |rest| && rest[i] in pktBuf
        && rest[j] in pktBuf ensures pktBuf[rest[i]] != pktBuf[rest[j]] {
      assert ([l] + rest)[i + 1] == rest[i] && ([l] + rest)[j + 1] == rest[j];
    }
    RewriteAllEffect(mem1, pktBuf, pktLen, rest, f);
  }

  // ---------- receive threads' lists ----------

  /** Steps of transmit threads and the kernel are no business of receive threads. */
  lemma StageFrame(cfg: Config, stage: seq<Stage>, lists: map<Place, seq<Loc>>, lists': map<Place, seq<Loc>>)
    requires |stage| <= |cfg.consumers| && StageInv(cfg, stage, lists)
    requires forall p: Place :: p.Local? || p.Work? ==> On(lists', p) == On(lists, p)
    ensures StageInv(cfg, stage, lists')
  {
    forall r: nat | r < |stage| ensures StageOk(|cfg.consumers[r]|, stage[r], lists', r) {
      assert StageOk(|cfg.consumers[r]|, stage[r], lists, r);
    }
  }

  /** Changing the stage or the lists of one receive thread. */
  lemma StageUpdate(cfg: Config, stage: seq<Stage>, lists: map<Place, seq<Loc>>,
                    stage': seq<Stage>, lists': map<Place, seq<Loc>>, r: nat)
    requires |stage| == |stage'| <= |cfg.consumers| && r < |stage| && StageInv(cfg, stage, lists)
    requires forall q: nat :: q < |stage| && q != r ==> stage'[q] == stage[q]
    requires forall p: Place :: (p.Local? || p.Work?) && p.r != r ==> On(lists', p) == On(lists, p)
    requires StageOk(|cfg.consumers[r]|, stage'[r], lists', r)
    ensures StageInv(cfg, stage', lists')
  {
    forall q: nat | q < |stage'| ensures StageOk(|cfg.consumers[q]|, stage'[q], lists', q) {
      assert StageOk(|cfg.consumers[q]|, stage[q], lists, q);
    }
  }

  // ---------- sleeping transmit threads ----------

  lemma SleepFrame(phase: seq<Phase>, lists: map<Place, seq<Loc>>, phase': seq<Phase>, lists': map<Place, seq<Loc>>)
    requires SleepInv(phase, lists) && |phase'| == |phase|
    requires forall t: nat :: t < |phase| && phase'[t].Asleep? ==>
      On(lists', Queue(t)) == [] || (phase[t].Asleep? && On(lists', Queue(t)) == On(lists, Queue(t)))
    ensures SleepInv(phase', lists')
  {}

  /** A signal changes nothing about rings, batches and what was placed. */
  lemma SignalFrame(cfg: Config, rx: seq<Ring>, spin: seq<int>, tx: seq<Ring>, phase: seq<Phase>, heldLen: seq<int>,
                    lists: map<Place, seq<Loc>>, t: nat)
    requires |rx| == |spin| == |cfg.rxSlots| && |tx| == |phase| == |heldLen| == |cfg.txSlots|
    requires RingInv(cfg, rx, spin, tx, phase) && BatchInv(cfg, tx, phase, heldLen, lists)
    ensures var phase' := Signalled(phase, t);
      RingInv(cfg, rx, spin, tx, phase') && BatchInv(cfg, tx, phase', heldLen, lists)
  {
    hide RxRingOk;
    var phase' := Signalled(phase, t);
    forall u | 0 <= u < |tx|
      ensures PhaseOk(cfg.txSlots[u], tx[u], phase'[u])
      ensures BatchOk(cfg.txSlots[u], u, tx[u].cur, phase'[u], heldLen[u], On(lists, Held(u)), On(lists, Gathered(u)))
    {
      assert BatchOk(cfg.txSlots[u], u, tx[u].cur, phase[u], heldLen[u], On(lists, Held(u)), On(lists, Gathered(u)));
    }
  }

  lemma SignalWire(cfg: Config, tx: seq<Ring>, phase: seq<Phase>, placed: seq<seq<Sent>>, wire: seq<seq<Bytes>>,
                   mem: map<Buf, Bytes>, bufIdx: map<Loc, nat>, slotLen: map<Loc, nat>, t: nat)
    requires ConfigOk(cfg) && |tx| == |phase| == |placed| == |wire| == |cfg.txSlots|
    requires WireInv(cfg, tx, phase, placed, wire, mem, bufIdx, slotLen)
    ensures WireInv(cfg, tx, Signalled(phase, t), placed, wire, mem, bufIdx, slotLen)
  {
    hide ConfigOk, WireOk;
    forall u | 0 <= u < |tx|
      ensures WireOk(cfg, u, tx[u].cur, Done(Signalled(phase, t)[u]), placed[u], wire[u], mem, bufIdx, slotLen)
    {
      assert WireOk(cfg, u, tx[u].cur, Done(phase[u]), placed[u], wire[u], mem, bufIdx, slotLen);
    }
  }
}
