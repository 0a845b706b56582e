/** Order and conservation from the kernel's receive slots to its transmit slots. */
module EndToEnd {
  import opened Octets
  import opened PipelineModel
  import opened PipelineLinks
  import opened PipelineInv
  import opened Pipeline

  /** The packets among those handed over on a transmit ring that came from receive ring r
      through consumer k, as the transmit slots held them. */
  function OnWire(cfg: Config, placed: seq<Sent>, wire: seq<Bytes>, r: nat, k: nat): seq<Bytes>
    requires ConfigOk(cfg) && r < |cfg.rxSlots| && |wire| <= |placed|
    decreases |wire|
  {
    if wire == [] then []
    else OnWire(cfg, placed, wire[..|wire| - 1], r, k)
         + if From(cfg, placed[|wire| - 1], r, k) then [wire[|wire| - 1]] else []
  }

  function Rewrites(f: Bytes -> Bytes, arrivals: seq<Bytes>): seq<Bytes> {
    seq(|arrivals|, i requires 0 <= i < |arrivals| => f(arrivals[i]))
  }

  // ---------- splitting ----------

  lemma {:induction false} OfClassConcat(cfg: Config, a: seq<Bytes>, b: seq<Bytes>, r: nat, k: nat)
    requires ConfigOk(cfg) && r < |cfg.rxSlots|
    ensures OfClass(cfg, a + b, r, k) == OfClass(cfg, a, r, k) + OfClass(cfg, b, r, k)
  {
    hide ConfigOk;
    if b == [] {
      assert a + b == a;
    } else {
      var c := b[..|b| - 1];
      OfClassConcat(cfg, a, c, r, k);
      assert (a + b)[..|a + b| - 1] == a + c;
    }
  }

  lemma {:induction false} SentConcat(cfg: Config, a: seq<Sent>, b: seq<Sent>, r: nat, k: nat)
    requires ConfigOk(cfg) && r < |cfg.rxSlots|
    ensures SentOf(cfg, a + b, r, k) == SentOf(cfg, a, r, k) + SentOf(cfg, b, r, k)
  {
    hide ConfigOk;
    if b == [] {
      assert a + b == a;
    } else {
      var c := b[..|b| - 1];
      SentConcat(cfg, a, c, r, k);
      assert (a + b)[..|a + b| - 1] == a + c;
    }
  }

  /** What is on the wire for (r, k) is the consumer's rewriting of what was sent for
      (r, k), in the same order. */
  lemma {:induction false} WireIsRewritten(cfg: Config, placed: seq<Sent>, wire: seq<Bytes>, r: nat, k: nat)
    requires ConfigOk(cfg) && r < |cfg.rxSlots| && k < |cfg.consumers[r]| && |wire| <= |placed|
    requires forall x :: 0 <= x < |wire| ==> wire[x] == placed[x].out
    requires forall x :: 0 <= x < |placed| && placed[x].src < |cfg.rxSlots| ==>
      placed[x].out == Rewritten(cfg, placed[x].src, placed[x].arrival)
    ensures OnWire(cfg, placed, wire, r, k)
         == Rewrites(cfg.consumers[r][k].rewrite, SentOf(cfg, placed[..|wire|], r, k))
    decreases |wire|
  {
    if wire != [] {
      var n := |wire| - 1;
      WireIsRewritten(cfg, placed, wire[..n], r, k);
      assert placed[..|wire|][..n] == placed[..n];
      assert placed[..|wire|][n] == placed[n];
      var f := cfg.consumers[r][k].rewrite;
      var sent := SentOf(cfg, placed[..n], r, k);
      assert Rewrites(f, sent + [placed[n].arrival]) == Rewrites(f, sent) + [f(placed[n].arrival)];
    }
  }

  lemma SplitAtWire(cfg: Config, placed: seq<Sent>, n: nat, r: nat, k: nat)
    requires ConfigOk(cfg) && r < |cfg.rxSlots| && n <= |placed|
    ensures SentOf(cfg, placed, r, k) == SentOf(cfg, placed[..n], r, k) + SentOf(cfg, placed[n..], r, k)
  {
    hide ConfigOk, SentOf;
    assert placed == placed[..n] + placed[n..];
    SentConcat(cfg, placed[..n], placed[n..], r, k);
  }

  lemma SplitAtDequeued(cfg: Config, delivered: seq<Bytes>, n: nat, r: nat, k: nat)
    requires ConfigOk(cfg) && r < |cfg.rxSlots| && n <= |delivered|
    ensures OfClass(cfg, delivered, r, k) == OfClass(cfg, delivered[..n], r, k) + OfClass(cfg, delivered[n..], r, k)
  {
    hide ConfigOk, OfClass;
    assert delivered == delivered[..n] + delivered[n..];
    OfClassConcat(cfg, delivered[..n], delivered[n..], r, k);
  }

  // ---------- the theorems ----------

  /** Conservation and order.  For every receive ring r and consumer k, in every reachable
      state, what the kernel has delivered for k is, in order and without loss or
      duplicate: what has been handed over to it for transmission, what the current batch
      has already put in transmit slots, what the lists of the program hold, and what is
      still in the receive slots. */
  lemma Conservation(cfg: Config, s: State, r: nat, k: nat)
    requires Reachable(cfg, s) && ConfigOk(cfg) && r < |cfg.rxSlots| && k < |cfg.consumers[r]|
    ensures WellFormed(cfg, s)
    ensures var t := cfg.consumers[r][k].queue;
      && |s.wire[t]| <= |s.placed[t]| && |s.dequeued[r]| <= |s.delivered[r]|
      && OfClass(cfg, s.delivered[r], r, k)
         == SentOf(cfg, s.placed[t][..|s.wire[t]|], r, k)
            + SentOf(cfg, s.placed[t][|s.wire[t]|..], r, k)
            + InFlight(cfg, s.arr, s.lists, r, k)
            + OfClass(cfg, s.delivered[r][|s.dequeued[r]|..], r, k)
  {
    hide Reachable, RingInv, LinksInv, HomeInv, WindowInv, BatchInv, BufInv, DataInv, PlacedInv, OfClass, SentOf,
         InFlight;
    ReachableInv(cfg, s);
    var t := cfg.consumers[r][k].queue;
    assert OrderOk(cfg, s.arr, s.lists, s.dequeued, s.placed, r, k);
    ConservationParts(cfg, s, r, k, t);
  }

  lemma ConservationParts(cfg: Config, s: State, r: nat, k: nat, t: nat)
    requires WellFormed(cfg, s) && r < |cfg.rxSlots| && k < |cfg.consumers[r]| && t == cfg.consumers[r][k].queue
    requires WireInv(cfg, s.tx, s.phase, s.placed, s.wire, s.mem, s.bufIdx, s.slotLen)
    requires DeliveredInv(cfg, s.rx, s.delivered, s.dequeued, s.mem, s.bufIdx, s.slotLen)
    requires OrderOk(cfg, s.arr, s.lists, s.dequeued, s.placed, r, k)
    ensures |s.wire[t]| <= |s.placed[t]| && |s.dequeued[r]| <= |s.delivered[r]|
    ensures OfClass(cfg, s.delivered[r], r, k)
         == SentOf(cfg, s.placed[t][..|s.wire[t]|], r, k)
            + SentOf(cfg, s.placed[t][|s.wire[t]|..], r, k)
            + InFlight(cfg, s.arr, s.lists, r, k)
            + OfClass(cfg, s.delivered[r][|s.dequeued[r]|..], r, k)
  {
    hide OfClass, SentOf, InFlight, TxRun, RxRun;
    assert DeliveredOk(cfg, r, s.rx[r], s.delivered[r], s.dequeued[r], s.mem, s.bufIdx, s.slotLen);
    assert WireOk(cfg, t, s.tx[t].cur, Done(s.phase[t]), s.placed[t], s.wire[t], s.mem, s.bufIdx, s.slotLen);
    SplitAtWire(cfg, s.placed[t], |s.wire[t]|, r, k);
    SplitAtDequeued(cfg, s.delivered[r], |s.dequeued[r]|, r, k);
    assert s.delivered[r][..|s.dequeued[r]|] == s.dequeued[r];
  }

  /** End to end.  For every receive ring and consumer, the contents of the transmit slots
      handed to the kernel for that consumer's packets are a prefix of the consumer's
      rewriting of what the kernel delivered for it, in arrival order. */
  lemma EndToEndOrder(cfg: Config, s: State, r: nat, k: nat)
    requires Reachable(cfg, s) && ConfigOk(cfg) && r < |cfg.rxSlots| && k < |cfg.consumers[r]|
    ensures WellFormed(cfg, s)
    ensures var t := cfg.consumers[r][k].queue;
      && |s.wire[t]| <= |s.placed[t]|
      && OnWire(cfg, s.placed[t], s.wire[t], r, k)
         <= Rewrites(cfg.consumers[r][k].rewrite, OfClass(cfg, s.delivered[r], r, k))
  {
    hide Reachable, OfClass, SentOf, InFlight, OnWire;
    Conservation(cfg, s, r, k);
    var t := cfg.consumers[r][k].queue;
    HandedOver(cfg, s, t);
    WireIsRewritten(cfg, s.placed[t], s.wire[t], r, k);
    var sent := SentOf(cfg, s.placed[t][..|s.wire[t]|], r, k);
    var all := OfClass(cfg, s.delivered[r], r, k);
    assert sent <= all;
  }

  /** Nothing else is sent: every transmit slot handed over held the rewriting, by the
      consumer it was classified for, of something that arrived, and that consumer sends
      through this transmit ring. */
  lemma HandedOver(cfg: Config, s: State, t: nat)
    requires Reachable(cfg, s) && ConfigOk(cfg) && t < |cfg.txSlots|
    ensures |s.wire| == |s.placed| == |cfg.txSlots| && |s.wire[t]| <= |s.placed[t]|
    ensures forall x :: 0 <= x < |s.wire[t]| ==> s.wire[t][x] == s.placed[t][x].out
    ensures forall x :: 0 <= x < |s.placed[t]| ==> SentOk(cfg, t, s.placed[t][x])
  {
    hide Reachable, RingInv, LinksInv, HomeInv, WindowInv, BatchInv, BufInv, DataInv, DeliveredInv, OrderInv, StageInv,
         SleepInv, ZoneInv, SentOk;
    ReachableInv(cfg, s);
    assert WireOk(cfg, t, s.tx[t].cur, Done(s.phase[t]), s.placed[t], s.wire[t], s.mem, s.bufIdx, s.slotLen);
  }
}
