/** The library's own wiring of rings, sorters and queues, and what the pipeline theorems
    say about it.  The rings below nrings are the interface's, ring nrings is the
    host's. */
module Wiring {
  import opened Octets
  import opened Checksum
  import opened PacketRewrite
  import opened Routing
  import opened PipelineModel
  import opened PipelineInv
  import opened Pipeline
  import opened PipelineEffects
  import opened EndToEnd
  import opened Drain
  import opened Arrivals

  /** The UDP mirror's port range, when the mirror application is registered. */
  datatype Ports = Ports(min: int, max: int)

  datatype Device = Device(nrings: nat, rxSlots: seq<nat>, txSlots: seq<nat>, bufSize: nat, mirror: Option<Ports>)

  ghost predicate DeviceOk(d: Device) {
    d.nrings >= 1 && |d.rxSlots| == |d.txSlots| == d.nrings + 1 && d.bufSize % 64 == 0
  }

  predicate Mirrored(d: Device, b: Bytes) {
    d.mirror.Some? && UdpmTaste(b, d.mirror.value.min, d.mirror.value.max)
  }

  predicate Answered(d: Device, b: Bytes) {
    !Mirrored(d, b) && IcmpTaste(b)
  }

  /** The default consumers put packets on their queue as they are. */
  function LeavePkt(b: Bytes): (r: Bytes) {
    b
  }

  /** A phy sorter asks the mirror, registered last, before the echo replier; the host's has
      no entries. */
  function TastesAt(d: Device, r: nat): seq<Taste> {
    if r >= d.nrings then []
    else
      (match d.mirror
       case None => []
       case Some(p) => [b => UdpmTaste(b, p.min, p.max)])
      + [b => IcmpTaste(b)]
  }

  /** Both answer on the ring the packet came from; the rest goes to the host, and what the
      host sends goes out on ring 0. */
  function ConsumersAt(d: Device, r: nat): seq<Consumer> {
    if r >= d.nrings then [Consumer(0, LeavePkt)]
    else
      (if d.mirror.Some? then [Consumer(r, MirrorUdpPkt)] else [])
      + [Consumer(r, AnswerPkt), Consumer(d.nrings, LeavePkt)]
  }

  /** All zones share one netmap descriptor, so one memory region. */
  function Wire(d: Device): Config
    requires DeviceOk(d)
  {
    var n := d.nrings + 1;
    Config(d.rxSlots, d.txSlots, seq(n, _ => 0), seq(n, _ => 0), d.bufSize,
           seq(n, r requires 0 <= r < n => TastesAt(d, r)), seq(n, r requires 0 <= r < n => ConsumersAt(d, r)))
  }

  function MirrorClass(d: Device): nat { 0 }

  function EchoClass(d: Device): nat {
    if d.mirror.Some? then 1 else 0
  }

  function RestClass(d: Device): nat {
    EchoClass(d) + 1
  }

  /** The wiring meets what the pipeline theorems ask of a configuration. */
  lemma WiringOk(d: Device)
    requires DeviceOk(d)
    ensures ConfigOk(Wire(d))
  {
    hide Mirror, Req2Rpl, UdpmTaste, IcmpTaste;
  }

  /** Which consumer a packet is for, in plain words. */
  lemma ClassOnPhy(d: Device, r: nat, b: Bytes)
    requires DeviceOk(d) && r < d.nrings
    ensures ConfigOk(Wire(d))
    ensures d.mirror.Some? ==> (Class(Wire(d), r, b) == MirrorClass(d) <==> Mirrored(d, b))
    ensures Class(Wire(d), r, b) == EchoClass(d) <==> Answered(d, b)
    ensures Class(Wire(d), r, b) == RestClass(d) <==> !Mirrored(d, b) && !IcmpTaste(b)
  {
    hide UdpmTaste, IcmpTaste, ConfigOk, FirstMatch;
    WiringOk(d);
    var ts := TastesAt(d, r);
    assert Wire(d).tastes[r] == ts;
    assert ts[|ts| - 1](b) == IcmpTaste(b);
    assert d.mirror.Some? ==> |ts| == 2 && ts[0](b) == UdpmTaste(b, d.mirror.value.min, d.mirror.value.max);
  }

  lemma ClassOnHost(d: Device, b: Bytes)
    requires DeviceOk(d)
    ensures ConfigOk(Wire(d)) && Class(Wire(d), d.nrings, b) == 0
  {
    WiringOk(d);
  }

  // ---------- what goes out ----------

  /** Every transmit slot handed over on an interface ring held the mirror image of a packet
      received on that ring for the mirror, with both checksums as good as they were, or
      the reply to an echo request received on that ring, or, on ring 0 only, a packet
      from the host as it was. */
  lemma PhyWire(d: Device, s: State, t: nat, x: nat)
    requires DeviceOk(d) && t < d.nrings && Reachable(Wire(d), s)
    requires t < |s.wire| && t < |s.placed| && x < |s.wire[t]|
    ensures x < |s.placed[t]|
    ensures var e, out := s.placed[t][x], s.wire[t][x];
      || (e.src == t && Mirrored(d, e.arrival) && out == Mirror(e.arrival)
          && OcSum(out[IP..L4]) == OcSum(e.arrival[IP..L4])
          && (UdpFits(e.arrival) ==> UdpFits(out) && UdpSum(out) == UdpSum(e.arrival)))
      || (e.src == t && Answered(d, e.arrival) && out == Req2Rpl(e.arrival)
          && IcmpReplTaste(out) && !IcmpTaste(out))
      || (e.src == d.nrings && t == 0 && out == e.arrival)
  {
    hide ConfigOk, Reachable, Mirror, Req2Rpl, UdpmTaste, IcmpTaste, IcmpReplTaste, OcSum, UdpFits, UdpSum, Class;
    WiringOk(d);
    HandedOver(Wire(d), s, t);
    var e := s.placed[t][x];
    assert SentOk(Wire(d), t, e);
    if e.src == d.nrings {
      ClassOnHost(d, e.arrival);
    } else {
      ClassOnPhy(d, e.src, e.arrival);
      PhySent(d, e, t);
    }
  }

  lemma PhySent(d: Device, e: Sent, t: nat)
    requires DeviceOk(d) && ConfigOk(Wire(d)) && t < d.nrings && e.src < d.nrings && SentOk(Wire(d), t, e)
    ensures e.src == t
    ensures || (Mirrored(d, e.arrival) && e.out == Mirror(e.arrival)
                && OcSum(e.out[IP..L4]) == OcSum(e.arrival[IP..L4])
                && (UdpFits(e.arrival) ==> UdpFits(e.out) && UdpSum(e.out) == UdpSum(e.arrival)))
            || (Answered(d, e.arrival) && e.out == Req2Rpl(e.arrival) && IcmpReplTaste(e.out) && !IcmpTaste(e.out))
  {
    hide ConfigOk, Mirror, Req2Rpl, OcSum, UdpSum, Class, IsIp4;
    ClassOnPhy(d, e.src, e.arrival);
    assert Wire(d).consumers[e.src] == ConsumersAt(d, e.src);
    if Mirrored(d, e.arrival) {
      MirrorKeepsChecksums(e.arrival);
    } else if IcmpTaste(e.arrival) {
      ReplyIsReply(e.arrival);
    }
  }

  /** Every transmit slot handed over to the host held, unchanged, a packet received on an
      interface ring that neither the mirror nor the echo replier takes. */
  lemma HostWire(d: Device, s: State, x: nat)
    requires DeviceOk(d) && Reachable(Wire(d), s)
    requires d.nrings < |s.wire| && d.nrings < |s.placed| && x < |s.wire[d.nrings]|
    ensures x < |s.placed[d.nrings]|
    ensures var e := s.placed[d.nrings][x];
      && e.src < d.nrings && !Mirrored(d, e.arrival) && !IcmpTaste(e.arrival)
      && s.wire[d.nrings][x] == e.arrival
  {
    hide ConfigOk, Reachable, Mirror, Req2Rpl, UdpmTaste, IcmpTaste, Class;
    WiringOk(d);
    HandedOver(Wire(d), s, d.nrings);
    var e := s.placed[d.nrings][x];
    assert SentOk(Wire(d), d.nrings, e);
    assert Wire(d).consumers[e.src] == ConsumersAt(d, e.src);
    if e.src == d.nrings {
      ClassOnHost(d, e.arrival);
    } else {
      ClassOnPhy(d, e.src, e.arrival);
    }
  }

  // ---------- without copying ----------

  lemma WireIsOneRegion(d: Device)
    requires DeviceOk(d)
    ensures ConfigOk(Wire(d)) && OneRegion(Wire(d))
  {
    hide ConfigOk;
    WiringOk(d);
  }

  /** Every packet sent is sent by exchanging its buffer with the transmit slot's. */
  lemma EveryMoveExchanges(d: Device, s: State, t: nat)
    requires DeviceOk(d) && Reachable(Wire(d), s)
    requires WellFormed(Wire(d), s) && Guard(Wire(d), s, MoveOne(t))
    ensures Safe(Wire(d), s, MoveOne(t))
    ensures Exchanged(s, Apply(Wire(d), s, MoveOne(t)), s.phase[t].pkt.value, s.phase[t].ptx.value)
  {
    hide Reachable, Wire, ConfigOk, WellFormed, Guard, Apply, Exchanged, Copied, Region, OneRegion, SlotData, PktData;
    MoveEffect(Wire(d), s, t);
    SameRegion(d, s, t);
  }

  lemma SameRegion(d: Device, s: State, t: nat)
    requires DeviceOk(d) && WellFormed(Wire(d), s) && Guard(Wire(d), s, MoveOne(t)) && Safe(Wire(d), s, MoveOne(t))
    ensures Region(Wire(d), s.phase[t].pkt.value) == Region(Wire(d), s.phase[t].ptx.value)
  {
    hide ConfigOk, SlotsPresent, RingsOnRing, Region, Wire;
    WireIsOneRegion(d);
  }

  /** From any reachable state on, however long it runs, the library writes no byte of any
      buffer other than by its consumers. */
  lemma ZeroCopy(d: Device, s: State, steps: seq<Step>, s': State)
    requires DeviceOk(d) && Reachable(Wire(d), s) && Run(Wire(d), s, steps, s')
    requires forall i :: 0 <= i < |steps| ==> PassesOn(steps[i])
    ensures s'.mem == s.mem
  {
    hide Reachable, Run, Inv, OneRegion, PassesOn, Wire, ConfigOk;
    WireIsOneRegion(d);
    ReachableInv(Wire(d), s);
    NoCopies(Wire(d), s, steps, s');
  }

  // ---------- in what order ----------

  /** What arrived that f accepts, in order. */
  function Only(f: Bytes -> bool, arrivals: seq<Bytes>): seq<Bytes> {
    if arrivals == [] then []
    else
      var n := |arrivals| - 1;
      Only(f, arrivals[..n]) + if f(arrivals[n]) then [arrivals[n]] else []
  }

  lemma {:induction false} OnlyIsClass(cfg: Config, f: Bytes -> bool, arrivals: seq<Bytes>, r: nat, k: nat)
    requires ConfigOk(cfg) && r < |cfg.rxSlots|
    requires forall b :: f(b) <==> Class(cfg, r, b) == k
    ensures OfClass(cfg, arrivals, r, k) == Only(f, arrivals)
    decreases |arrivals|
  {
    hide ConfigOk, Class;
    if arrivals != [] {
      OnlyIsClass(cfg, f, arrivals[..|arrivals| - 1], r, k);
    }
  }

  lemma Unrewritten(arrivals: seq<Bytes>)
    ensures Rewrites(LeavePkt, arrivals) == arrivals
  {
    var same: Bytes -> Bytes := LeavePkt;
    forall i | 0 <= i < |arrivals| ensures Rewrites(same, arrivals)[i] == arrivals[i] {
      assert same(arrivals[i]) == LeavePkt(arrivals[i]);
    }
  }

  /** Per interface ring: the mirrored packets go out as the mirror images of those the
      kernel delivered for the mirror, the echo replies as the replies to the requests
      delivered, and the host gets the rest unchanged; each a prefix, in arrival order. */
  lemma AnsweredInOrder(d: Device, s: State, r: nat)
    requires DeviceOk(d) && r < d.nrings && Reachable(Wire(d), s)
    ensures ConfigOk(Wire(d)) && WellFormed(Wire(d), s)
    ensures |s.wire[r]| <= |s.placed[r]| && |s.wire[d.nrings]| <= |s.placed[d.nrings]|
    ensures d.mirror.Some? ==>
      OnWire(Wire(d), s.placed[r], s.wire[r], r, MirrorClass(d))
      <= Rewrites(MirrorUdpPkt, Only(b => Mirrored(d, b), s.delivered[r]))
    ensures OnWire(Wire(d), s.placed[r], s.wire[r], r, EchoClass(d))
         <= Rewrites(AnswerPkt, Only(b => Answered(d, b), s.delivered[r]))
    ensures OnWire(Wire(d), s.placed[d.nrings], s.wire[d.nrings], r, RestClass(d))
         <= Only(b => !Mirrored(d, b) && !IcmpTaste(b), s.delivered[r])
  {
    hide ConfigOk, Reachable, OfClass, Only, OnWire, Class, Mirrored, Answered, IcmpTaste;
    WiringOk(d);
    var cfg := Wire(d);
    assert cfg.consumers[r] == ConsumersAt(d, r);
    ClassesOnPhy(d, r);
    if d.mirror.Some? {
      EndToEndOrder(cfg, s, r, MirrorClass(d));
      OnlyIsClass(cfg, b => Mirrored(d, b), s.delivered[r], r, MirrorClass(d));
    }
    EndToEndOrder(cfg, s, r, EchoClass(d));
    OnlyIsClass(cfg, b => Answered(d, b), s.delivered[r], r, EchoClass(d));
    EndToEndOrder(cfg, s, r, RestClass(d));
    OnlyIsClass(cfg, b => !Mirrored(d, b) && !IcmpTaste(b), s.delivered[r], r, RestClass(d));
    Unrewritten(Only(b => !Mirrored(d, b) && !IcmpTaste(b), s.delivered[r]));
  }

  lemma ClassesOnPhy(d: Device, r: nat)
    requires DeviceOk(d) && r < d.nrings
    ensures ConfigOk(Wire(d))
    ensures d.mirror.Some? ==> forall b :: Mirrored(d, b) <==> Class(Wire(d), r, b) == MirrorClass(d)
    ensures forall b :: Answered(d, b) <==> Class(Wire(d), r, b) == EchoClass(d)
    ensures forall b :: (!Mirrored(d, b) && !IcmpTaste(b)) <==> Class(Wire(d), r, b) == RestClass(d)
  {
    WiringOk(d);
    forall b {
      ClassOnPhy(d, r, b);
    }
  }

  /** What the host sends goes out on ring 0, unchanged and in order. */
  lemma HostSendsInOrder(d: Device, s: State)
    requires DeviceOk(d) && Reachable(Wire(d), s)
    ensures ConfigOk(Wire(d)) && WellFormed(Wire(d), s) && |s.wire[0]| <= |s.placed[0]|
    ensures OnWire(Wire(d), s.placed[0], s.wire[0], d.nrings, 0) <= s.delivered[d.nrings]
  {
    hide ConfigOk, Reachable, OfClass, OnWire, Class, Only;
    WiringOk(d);
    var cfg := Wire(d);
    assert cfg.consumers[d.nrings] == ConsumersAt(d, d.nrings);
    EndToEndOrder(cfg, s, d.nrings, 0);
    AllToDefault(d, s.delivered[d.nrings]);
    Unrewritten(s.delivered[d.nrings]);
  }

  lemma {:induction false} AllToDefault(d: Device, arrivals: seq<Bytes>)
    requires DeviceOk(d)
    ensures ConfigOk(Wire(d)) && OfClass(Wire(d), arrivals, d.nrings, 0) == arrivals
    decreases |arrivals|
  {
    hide ConfigOk, Class;
    WiringOk(d);
    if arrivals != [] {
      AllToDefault(d, arrivals[..|arrivals| - 1]);
      ClassOnHost(d, arrivals[|arrivals| - 1]);
    }
  }

  // ---------- every packet is answered ----------

  /** The last packet of out is b. */
  predicate EndsWith(out: seq<Bytes>, b: Bytes) {
    out != [] && out[|out| - 1] == b
  }

  /** Whatever has happened, a packet that comes in on an interface ring can be served: by its
      mirror image or its reply on the same ring, or as it is to the host. */
  lemma Served(d: Device, s: State, r: nat, b: Bytes)
    requires DeviceOk(d) && r < d.nrings && Reachable(Wire(d), s) && d.rxSlots[r] >= 2 && |b| <= d.bufSize
    requires forall t :: 0 <= t < |d.txSlots| ==> d.txSlots[t] >= 2
    ensures ConfigOk(Wire(d)) && |s.delivered| == d.nrings + 1
    ensures exists s' ::
      && Leads(Wire(d), s, s') && s'.busy == {} && s'.delivered == s.delivered[r := s.delivered[r] + [b]]
      && WellFormed(Wire(d), s') && (forall t :: 0 <= t <= d.nrings ==> |s'.wire[t]| <= |s'.placed[t]|)
      && (Mirrored(d, b) ==>
           EndsWith(OnWire(Wire(d), s'.placed[r], s'.wire[r], r, MirrorClass(d)), Mirror(b)))
      && (Answered(d, b) ==>
           EndsWith(OnWire(Wire(d), s'.placed[r], s'.wire[r], r, EchoClass(d)), Req2Rpl(b)))
      && (!Mirrored(d, b) && !IcmpTaste(b) ==>
           EndsWith(OnWire(Wire(d), s'.placed[d.nrings], s'.wire[d.nrings], r, RestClass(d)), b))
  {
    hide ConfigOk, Reachable, Class, Mirrored, Answered, IcmpTaste, OnWire, LastSent, Leads, AllThrough;
    WiringOk(d);
    AnyPacketPasses(Wire(d), s, r, b);
    var s' :| Leads(Wire(d), s, s') && s'.busy == {} && s'.delivered == s.delivered[r := s.delivered[r] + [b]]
        && LastSent(Wire(d), s', r, b);
    ReachableLeads(Wire(d), s, s');
    WellFormedAt(Wire(d), s');
    forall t | 0 <= t <= d.nrings ensures |s'.wire[t]| <= |s'.placed[t]| {
      HandedOver(Wire(d), s', t);
    }
    ServedBy(d, s', r, b);
  }

  lemma ServedBy(d: Device, s: State, r: nat, b: Bytes)
    requires DeviceOk(d) && r < d.nrings && ConfigOk(Wire(d)) && LastSent(Wire(d), s, r, b)
    requires |s.placed| == |s.wire| == d.nrings + 1 && forall t :: 0 <= t <= d.nrings ==> |s.wire[t]| <= |s.placed[t]|
    ensures Mirrored(d, b) ==> EndsWith(OnWire(Wire(d), s.placed[r], s.wire[r], r, MirrorClass(d)), Mirror(b))
    ensures Answered(d, b) ==> EndsWith(OnWire(Wire(d), s.placed[r], s.wire[r], r, EchoClass(d)), Req2Rpl(b))
    ensures !Mirrored(d, b) && !IcmpTaste(b) ==>
      EndsWith(OnWire(Wire(d), s.placed[d.nrings], s.wire[d.nrings], r, RestClass(d)), b)
  {
    hide ConfigOk, Mirror, Req2Rpl, Class, OnWire, IsIp4;
    ClassOnPhy(d, r, b);
    assert Wire(d).consumers[r] == ConsumersAt(d, r);
  }
}
