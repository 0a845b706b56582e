/** Whatever has happened so far, any packet can still come in on any receive ring, and is
    then sent on by its consumer. */
module Arrivals {
  import opened Circular
  import opened Octets
  import opened PipelineModel
  import opened PipelineInv
  import opened Pipeline
  import opened PipelineEffects
  import opened EndToEnd
  import opened Drain

  ghost predicate Leads(cfg: Config, s: State, s': State) {
    exists steps :: Run(cfg, s, steps, s')
  }

  lemma LeadsOn(cfg: Config, s: State, s1: State, s2: State)
    requires Leads(cfg, s, s1) && Leads(cfg, s1, s2)
    ensures Leads(cfg, s, s2)
  {
    hide Run;
    var a :| Run(cfg, s, a, s1);
    var b :| Run(cfg, s1, b, s2);
    RunConcat(cfg, s, a, s1, b, s2);
  }

  lemma ReachableLeads(cfg: Config, s: State, s': State)
    requires Reachable(cfg, s) && Leads(cfg, s, s')
    ensures Reachable(cfg, s')
  {
    hide Run, NetmapReady, Start;
    var rx, tx, bufIdx, slotLen, mem, steps :|
      NetmapReady(cfg, rx, tx, bufIdx, slotLen, mem) && Run(cfg, Start(cfg, rx, tx, bufIdx, slotLen, mem), steps, s);
    var more :| Run(cfg, s, more, s');
    RunConcat(cfg, Start(cfg, rx, tx, bufIdx, slotLen, mem), steps, s, more, s');
  }

  lemma LeadsStep(cfg: Config, s: State, step: Step)
    requires WellFormed(cfg, s) && Guard(cfg, s, step) && Safe(cfg, s, step)
    ensures Leads(cfg, s, Apply(cfg, s, step))
  {
    hide WellFormed, Guard, Safe, Apply;
    var s' := Apply(cfg, s, step);
    assert Run(cfg, s', [], s');
    assert [step][1..] == [];
    assert Run(cfg, s, [step], s');
  }

  /** The state after the kernel has put b in slot tail of receive ring r and delivered it. */
  lemma Arrives(cfg: Config, s: State, r: nat, b: Bytes) returns (s': State)
    requires Reachable(cfg, s) && ConfigOk(cfg) && r < |cfg.rxSlots| && |b| <= cfg.bufSize
    requires WellFormed(cfg, s) && Next(cfg.rxSlots[r], s.rx[r].tail) != s.rx[r].head
    ensures Leads(cfg, s, s') && |s.delivered| == |cfg.rxSlots|
    ensures s'.delivered == s.delivered[r := s.delivered[r] + [b]]
  {
    hide Reachable, ConfigOk, Safe, Inv, Leads, SlotsPresent, SlotData;
    var l, data := Rx(r, s.rx[r].tail), b + seq(cfg.bufSize - |b|, _ => 0);
    var write := KernelWrite(l, data, |b|);
    ReachableInv(cfg, s);
    TailIsKernels(cfg, s, r);
    StepKeeps(cfg, s, write);
    LeadsStep(cfg, s, write);
    KernelWrites(cfg, s, l, data, |b|);
    var s1 := Apply(cfg, s, write);
    InvIsWellFormed(cfg, s1);
    StepKeeps(cfg, s1, KernelRx(r));
    LeadsStep(cfg, s1, KernelRx(r));
    s' := Apply(cfg, s1, KernelRx(r));
    assert data[..|b|] == b;
    LeadsOn(cfg, s, s1, s');
  }

  lemma TailIsKernels(cfg: Config, s: State, r: nat)
    requires WellFormed(cfg, s) && r < |cfg.rxSlots|
    ensures KernelOwns(cfg, s, Rx(r, s.rx[r].tail))
  {
    hide ConfigOk, SlotsPresent;
  }

  /** Of what came in on ring r for b's consumer, the last thing handed over is its rewriting
      of b. */
  ghost predicate LastSent(cfg: Config, s: State, r: nat, b: Bytes)
    requires ConfigOk(cfg) && r < |cfg.rxSlots|
  {
    var k, t := Class(cfg, r, b), Dest(cfg, r, b);
    && |s.placed| == |s.wire| == |cfg.txSlots| && |s.wire[t]| <= |s.placed[t]|
    && var out := OnWire(cfg, s.placed[t], s.wire[t], r, k);
      out != [] && out[|out| - 1] == Rewritten(cfg, r, b)
  }

  /** From every reachable state some run takes in packet b on ring r as the next arrival,
      hands over everything that arrived, b last for its consumer, and ends with nothing in
      hand. */
  lemma AnyPacketPasses(cfg: Config, s: State, r: nat, b: Bytes)
    requires Reachable(cfg, s) && ConfigOk(cfg) && forall t :: 0 <= t < |cfg.txSlots| ==> cfg.txSlots[t] >= 2
    requires r < |cfg.rxSlots| && cfg.rxSlots[r] >= 2 && |b| <= cfg.bufSize
    ensures |s.delivered| == |cfg.rxSlots|
    ensures exists s' ::
      && Leads(cfg, s, s') && s'.busy == {} && s'.delivered == s.delivered[r := s.delivered[r] + [b]]
      && LastSent(cfg, s', r, b)
      && forall q, k :: 0 <= q < |cfg.rxSlots| && 0 <= k < |cfg.consumers[q]| ==>
           AllThrough(cfg, s'.delivered, s', q, k)
  {
    hide Reachable, ConfigOk, Inv, Leads, CanReach, AllThrough, LastSent, Class;
    var s1 := Rests(cfg, s);
    WellFormedAt(cfg, s1);
    assert Next(cfg.rxSlots[r], s1.rx[r].tail) != s1.rx[r].head;
    var s2 := Arrives(cfg, s1, r, b);
    LeadsOn(cfg, s, s1, s2);
    ReachableLeads(cfg, s, s2);
    var s3 := Rests(cfg, s2);
    LeadsOn(cfg, s, s2, s3);
    LastOfAll(cfg, s3, r, s.delivered[r], b);
  }

  lemma WellFormedAt(cfg: Config, s: State)
    requires Reachable(cfg, s)
    ensures WellFormed(cfg, s)
  {
    hide Reachable, WellFormed;
    ReachableInv(cfg, s);
  }

  /** The rest that all work in hand comes to. */
  lemma Rests(cfg: Config, s: State) returns (s': State)
    requires Reachable(cfg, s) && ConfigOk(cfg) && forall t :: 0 <= t < |cfg.txSlots| ==> cfg.txSlots[t] >= 2
    ensures Leads(cfg, s, s') && Reachable(cfg, s') && s'.busy == {} && s'.delivered == s.delivered
    ensures forall r :: 0 <= r < |s'.rx| ==> s'.rx[r].head == s'.rx[r].cur == s'.rx[r].tail
    ensures forall r, k :: 0 <= r < |cfg.rxSlots| && 0 <= k < |cfg.consumers[r]| ==>
      AllThrough(cfg, s'.delivered, s', r, k)
  {
    hide Reachable, AllThrough, Run;
    NothingStuck(cfg, s);
    s' :| && CanReach(cfg, s, s') && s'.busy == {} && s'.delivered == s.delivered
          && (forall r :: 0 <= r < |s'.rx| ==> s'.rx[r].head == s'.rx[r].cur == s'.rx[r].tail)
          && forall r, k :: 0 <= r < |cfg.rxSlots| && 0 <= k < |cfg.consumers[r]| ==>
               AllThrough(cfg, s.delivered, s', r, k);
    ReachableLeads(cfg, s, s');
  }

  lemma LastOfAll(cfg: Config, s: State, r: nat, before: seq<Bytes>, b: Bytes)
    requires ConfigOk(cfg) && r < |cfg.rxSlots| && |s.delivered| == |cfg.rxSlots| && s.delivered[r] == before + [b]
    requires AllThrough(cfg, s.delivered, s, r, Class(cfg, r, b))
    ensures LastSent(cfg, s, r, b)
  {
    hide OnWire, ConfigOk;
    var k := Class(cfg, r, b);
    OfClassConcat(cfg, before, [b], r, k);
    assert OfClass(cfg, [b], r, k) == [b] by { assert [b][..0] == []; }
    var arrived := OfClass(cfg, before, r, k) + [b];
    assert arrived[|arrived| - 1] == b;
  }
}
