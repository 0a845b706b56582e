/** Nothing gets stuck: from every reachable state the threads can finish the work in hand,
    if the kernel goes on giving back transmit slots. */
module Drain {
  import opened Circular
  import opened Octets
  import opened PipelineModel
  import opened PipelineLinks
  import opened PipelineInv
  import opened PipelineRx
  import opened PipelineTx
  import opened Pipeline
  import opened EndToEnd

  // ---------- what is left to do ----------

  /** Slots received but not dequeued. */
  function Undequeued(cfg: Config, rx: seq<Ring>): set<Loc> {
    set r: nat, i: nat | r < |rx| && r < |cfg.rxSlots| && i < cfg.rxSlots[r]
        && InWindow(cfg.rxSlots[r], rx[r].cur, rx[r].tail, i) :: Rx(r, i)
  }

  function InLocal(place: map<Loc, Place>): set<Loc> {
    set l | l in place && place[l].Local?
  }

  function InWork(place: map<Loc, Place>): set<Loc> {
    set l | l in place && place[l].Work?
  }

  function InQueue(place: map<Loc, Place>): set<Loc> {
    set l | l in place && place[l].Queue?
  }

  function InHeld(place: map<Loc, Place>): set<Loc> {
    set l | l in place && place[l].Held?
  }

  /** Slots dequeued but not given back to the kernel. */
  function Unreturned(cfg: Config, rx: seq<Ring>): set<Loc> {
    set r: nat, i: nat | r < |rx| && r < |cfg.rxSlots| && i < cfg.rxSlots[r]
                         && InWindow(cfg.rxSlots[r], rx[r].head, rx[r].cur, i) :: Rx(r, i)
  }

  ghost predicate Blocked(busy: set<Loc>, r: nat) {
    exists i: nat :: Rx(r, i) in busy
  }

  /** How far a receive thread on a ring of n slots with c consumers is from the point of its
      cycle where it next dequeues, or rests in poll. */
  function Rank(n: nat, c: nat, ring: Ring, spin: int, stage: Stage, blocked: bool): int {
    match stage
    case Dequeuing => if ring.cur == ring.tail then n + c + 7 else 0
    case Sorting => n + c + 6
    case Delivering(k) => n + 5 + c - k
    case Polling => if ring.head != ring.cur && !blocked then n + 4 else 1
    case Spinning => 2 + Dist(n, spin, ring.cur)
  }

  ghost function RankOf(cfg: Config, s: State, r: nat): nat {
    if r < |cfg.rxSlots| && r < |cfg.consumers| && r < |s.rx| && r < |s.spin| && r < |s.stage| then
      var rank := Rank(cfg.rxSlots[r], |cfg.consumers[r]|, s.rx[r], s.spin[r], s.stage[r], Blocked(s.busy, r));
      if rank < 0 then 0 else rank
    else 0
  }

  ghost function Ranks(cfg: Config, s: State, n: nat): nat {
    if n == 0 then 0 else Ranks(cfg, s, n - 1) + RankOf(cfg, s, n - 1)
  }

  /** Transmit threads whose batch has filled slots it has not handed over. */
  function Filling(phase: seq<Phase>): set<nat> {
    set t: nat | t < |phase| && phase[t].Move? && phase[t].m > 0
  }

  /** Idle transmit threads without a free slot, idle ones, ones about to start a batch, and
      the transmit packets a batch has still to link. */
  function Roomless(tx: seq<Ring>, phase: seq<Phase>): set<nat> {
    set t: nat | t < |phase| && t < |tx| && phase[t].Idle? && tx[t].cur == tx[t].tail
  }

  function Idling(phase: seq<Phase>): set<nat> {
    set t: nat | t < |phase| && phase[t].Idle?
  }

  function Starting(phase: seq<Phase>): set<nat> {
    set t: nat | t < |phase| && phase[t].Sized?
  }

  function ToGather(phase: seq<Phase>): set<(nat, int)> {
    set t: nat, x: int | t < |phase| && phase[t].Gather? && phase[t].g <= x < phase[t].ntx :: (t, x)
  }

  /** The later state has less to do: stage by stage, the first stage that differs has lost
      something. */
  ghost predicate Less(cfg: Config, s': State, s: State) {
    || Undequeued(cfg, s'.rx) < Undequeued(cfg, s.rx)
    || (Undequeued(cfg, s'.rx) == Undequeued(cfg, s.rx)
        && (|| LessPlaced(s'.place, s.place)
            || (SamePlaced(s'.place, s.place)
                && (|| LessRx(cfg, s', s)
                    || (SameRx(cfg, s', s) && LessPhase(s'.tx, s'.phase, s.tx, s.phase))))))
  }

  ghost predicate LessRx(cfg: Config, s': State, s: State) {
    || Unreturned(cfg, s'.rx) < Unreturned(cfg, s.rx)
    || (Unreturned(cfg, s'.rx) == Unreturned(cfg, s.rx)
        && Ranks(cfg, s', |cfg.rxSlots|) < Ranks(cfg, s, |cfg.rxSlots|))
  }

  ghost predicate SameRx(cfg: Config, s': State, s: State) {
    && Unreturned(cfg, s'.rx) == Unreturned(cfg, s.rx)
    && Ranks(cfg, s', |cfg.rxSlots|) == Ranks(cfg, s, |cfg.rxSlots|)
  }

  predicate LessPlaced(p': map<Loc, Place>, p: map<Loc, Place>) {
    || InLocal(p') < InLocal(p)
    || (InLocal(p') == InLocal(p)
        && (|| InWork(p') < InWork(p)
            || (InWork(p') == InWork(p)
                && (|| InQueue(p') < InQueue(p)
                    || (InQueue(p') == InQueue(p) && InHeld(p') < InHeld(p))))))
  }

  predicate SamePlaced(p': map<Loc, Place>, p: map<Loc, Place>) {
    InLocal(p') == InLocal(p) && InWork(p') == InWork(p) && InQueue(p') == InQueue(p) && InHeld(p') == InHeld(p)
  }

  predicate LessPhase(tx': seq<Ring>, ph': seq<Phase>, tx: seq<Ring>, ph: seq<Phase>) {
    || Filling(ph') < Filling(ph)
    || (Filling(ph') == Filling(ph)
        && (|| Roomless(tx', ph') < Roomless(tx, ph)
            || (Roomless(tx', ph') == Roomless(tx, ph)
                && (|| Idling(ph') < Idling(ph)
                    || (Idling(ph') == Idling(ph)
                        && (|| Starting(ph') < Starting(ph)
                            || (Starting(ph') == Starting(ph) && ToGather(ph') < ToGather(ph))))))))
  }

  /** Nothing received is left in a slot or on a list, nothing placed is left to hand over, and
      every receive slot is back with the kernel. */
  predicate Drained(cfg: Config, s: State) {
    && Undequeued(cfg, s.rx) == {} && Unreturned(cfg, s.rx) == {}
    && InLocal(s.place) == {} && InWork(s.place) == {} && InQueue(s.place) == {} && InHeld(s.place) == {}
    && Filling(s.phase) == {}
  }

  /** A step that brings nothing in, and wakes no thread but by a signal. */
  predicate Unaided(step: Step) {
    !step.KernelWrite? && !step.KernelRx? && !step.Wake?
  }

  // ---------- each step leaves less to do ----------

  lemma DequeueShrinks(cfg: Config, rx: seq<Ring>, r: nat)
    requires |rx| == |cfg.rxSlots| && r < |rx| && rx[r].cur != rx[r].tail
    requires OnRing(cfg.rxSlots[r], rx[r].cur) && OnRing(cfg.rxSlots[r], rx[r].tail)
    ensures Undequeued(cfg, rx[r := rx[r].(cur := Next(cfg.rxSlots[r], rx[r].cur))]) < Undequeued(cfg, rx)
  {
    var rx' := rx[r := rx[r].(cur := Next(cfg.rxSlots[r], rx[r].cur))];
    assert Rx(r, rx[r].cur) in Undequeued(cfg, rx) && Rx(r, rx[r].cur) !in Undequeued(cfg, rx');
    assert Undequeued(cfg, rx') <= Undequeued(cfg, rx);
  }

  lemma SortShrinks(place: map<Loc, Place>, l: Loc, r: nat, k: nat)
    requires l in place && place[l] == Local(r)
    ensures LessPlaced(place[l := Work(r, k)], place)
  {
    assert InLocal(place[l := Work(r, k)]) == InLocal(place) - {l};
    assert l in InLocal(place);
  }

  lemma RelabelShrinks(place: map<Loc, Place>, ls: seq<Loc>, p: Place, p': Place)
    requires ls != [] && forall x :: x in ls ==> x in place && place[x] == p
    requires (p.Work? && p'.Queue?) || (p.Queue? && p'.Held?)
    ensures LessPlaced(Relabel(place, ls, p'), place)
  {
    var place' := Relabel(place, ls, p');
    assert ls[0] in ls;
    assert InLocal(place') == InLocal(place);
    if p.Work? {
      assert InWork(place') <= InWork(place) && ls[0] in InWork(place) && ls[0] !in InWork(place');
    } else {
      assert InWork(place') == InWork(place);
      assert InQueue(place') <= InQueue(place) && ls[0] in InQueue(place) && ls[0] !in InQueue(place');
    }
  }

  lemma MoveShrinks(place: map<Loc, Place>, p1: Loc, p2: Loc)
    requires p1 in place && place[p1].Held? && p2 in place && place[p2].Gathered?
    ensures LessPlaced(place - {p1} - {p2}, place)
  {
    var place' := place - {p1} - {p2};
    assert InLocal(place') == InLocal(place) && InWork(place') == InWork(place) && InQueue(place') == InQueue(place);
    assert InHeld(place') == InHeld(place) - {p1} && p1 in InHeld(place);
  }

  lemma GatherSame(place: map<Loc, Place>, l: Loc, t: nat)
    requires l !in place
    ensures SamePlaced(place[l := Gathered(t)], place)
  {
    var place' := place[l := Gathered(t)];
    assert InLocal(place') == InLocal(place) && InWork(place') == InWork(place);
    assert InQueue(place') == InQueue(place) && InHeld(place') == InHeld(place);
  }

  /** What a change of one thread's phase may do. */
  lemma PhaseShrinks(tx: seq<Ring>, phase: seq<Phase>, t: nat, ph: Phase)
    requires t < |phase| == |tx|
    requires || (phase[t].Idle? && tx[t].cur != tx[t].tail && ph.Sized?)
             || (phase[t].Sized? && ph.Gather?)
             || (phase[t].Gather? && ph == Gather(phase[t].ntx, phase[t].g + 1) && phase[t].g < phase[t].ntx)
             || (phase[t].Gather? && phase[t].g < phase[t].ntx && ph.Move? && ph.m == 0)
    ensures LessPhase(tx, phase[t := ph], tx, phase)
  {
    var phase' := phase[t := ph];
    assert Filling(phase') == Filling(phase);
    assert Roomless(tx, phase') == Roomless(tx, phase);
    if phase[t].Idle? {
      assert Idling(phase') == Idling(phase) - {t} && t in Idling(phase);
    } else {
      assert Idling(phase') == Idling(phase);
      if phase[t].Sized? {
        assert Starting(phase') == Starting(phase) - {t} && t in Starting(phase);
      } else {
        assert Starting(phase') == Starting(phase);
        assert (t, phase[t].g) in ToGather(phase) && (t, phase[t].g) !in ToGather(phase');
        assert ToGather(phase') <= ToGather(phase);
      }
    }
  }

  lemma FinishShrinks(tx': seq<Ring>, tx: seq<Ring>, phase: seq<Phase>, t: nat)
    requires t < |phase| && phase[t].Move? && phase[t].m > 0
    ensures LessPhase(tx', phase[t := Idle], tx, phase)
  {
    assert Filling(phase[t := Idle]) == Filling(phase) - {t} && t in Filling(phase);
  }

  lemma RoomShrinks(tx: seq<Ring>, phase: seq<Phase>, t: nat, ring: Ring)
    requires t < |phase| == |tx| && phase[t].Idle? && tx[t].cur == tx[t].tail && ring.cur != ring.tail
    ensures LessPhase(tx[t := ring], phase, tx, phase)
  {
    assert Roomless(tx[t := ring], phase) == Roomless(tx, phase) - {t} && t in Roomless(tx, phase);
  }

  // ---------- some step can always be taken ----------

  ghost predicate Advances(cfg: Config, s: State, step: Step)
    requires Inv(cfg, s)
  {
    && Guard(cfg, s, step) && Unaided(step) && Safe(cfg, s, step)
    && Apply(cfg, s, step).delivered == s.delivered
    && Less(cfg, Apply(cfg, s, step), s)
  }

  lemma DequeueAdvances(cfg: Config, s: State, r: nat)
    requires Inv(cfg, s) && Guard(cfg, s, Dequeue(r))
    ensures Advances(cfg, s, Dequeue(r))
  {
    hide RingInv, LinksInv, HomeInv, WindowInv, BatchInv, BufInv, DataInv, PlacedInv, WireInv, DeliveredInv, OrderInv,
         StageInv, SleepInv, ZoneInv, ConfigOk, SlotsPresent, LessPlaced, SamePlaced, LessRx, SameRx, LessPhase,
         Undequeued;
    StepKeeps(cfg, s, Dequeue(r));
    DequeueShrinks(cfg, s.rx, r);
  }

  /** When the rank of one receive thread falls and the others' stay, so does their sum. */
  lemma {:induction false} RanksFall(cfg: Config, s: State, s': State, r: nat, n: nat)
    requires forall q: nat :: q < n && q != r ==> RankOf(cfg, s', q) == RankOf(cfg, s, q)
    requires r < n ==> RankOf(cfg, s', r) < RankOf(cfg, s, r)
    ensures if r < n then Ranks(cfg, s', n) < Ranks(cfg, s, n) else Ranks(cfg, s', n) == Ranks(cfg, s, n)
  {
    hide RankOf;
    if n > 0 { RanksFall(cfg, s, s', r, n - 1); }
  }

  lemma {:induction false} RanksSame(cfg: Config, s: State, s': State, n: nat)
    requires s'.rx == s.rx && s'.spin == s.spin && s'.stage == s.stage && s'.busy == s.busy
    ensures Ranks(cfg, s', n) == Ranks(cfg, s, n)
  {
    if n > 0 { RanksSame(cfg, s, s', n - 1); }
  }

  /** A change of one receive thread's own state that lowers its rank. */
  lemma RankFalls(cfg: Config, s: State, s': State, r: nat)
    requires r < |cfg.rxSlots| == |cfg.consumers| == |s.rx| == |s.spin| == |s.stage|
    requires |s'.rx| == |s.rx| && |s'.spin| == |s.spin| && |s'.stage| == |s.stage| && s'.busy == s.busy
    requires forall q: nat :: q < |s.rx| && q != r ==>
      s'.rx[q] == s.rx[q] && s'.spin[q] == s.spin[q] && s'.stage[q] == s.stage[q]
    requires var n, c, b := cfg.rxSlots[r], |cfg.consumers[r]|, Blocked(s.busy, r);
      0 <= Rank(n, c, s'.rx[r], s'.spin[r], s'.stage[r], b) < Rank(n, c, s.rx[r], s.spin[r], s.stage[r], b)
    ensures Ranks(cfg, s', |cfg.rxSlots|) < Ranks(cfg, s, |cfg.rxSlots|)
  {
    hide Rank;
    RanksFall(cfg, s, s', r, |cfg.rxSlots|);
  }

  /** A receive thread that rests in poll: nothing has come in, and nothing can be given back. */
  ghost predicate Resting(s: State, r: nat)
    requires r < |s.stage| && r < |s.rx|
  {
    && s.stage[r].Polling? && s.rx[r].cur == s.rx[r].tail
    && (s.rx[r].head == s.rx[r].cur || Blocked(s.busy, r))
  }

  /** Entering or leaving a loop; from poll only with something to do. */
  lemma TurnAdvances(cfg: Config, s: State, r: nat, to: Stage)
    requires Inv(cfg, s) && Guard(cfg, s, Turn(r, to))
    requires s.stage[r].Polling? ==> !Resting(s, r) && (to.Spinning? ==> s.rx[r].cur == s.rx[r].tail)
    ensures Advances(cfg, s, Turn(r, to))
  {
    hide RingInv, LinksInv, HomeInv, WindowInv, BatchInv, BufInv, DataInv, PlacedInv, WireInv, DeliveredInv, OrderInv,
         StageInv, SleepInv, ZoneInv, LessPlaced, LessPhase, Undequeued, Unreturned, Blocked, SlotsPresent, Ranks;
    StepKeeps(cfg, s, Turn(r, to));
    StageOf(cfg, s, r);
    RankFalls(cfg, s, Apply(cfg, s, Turn(r, to)), r);
  }

  lemma ScanAdvances(cfg: Config, s: State, r: nat)
    requires Inv(cfg, s) && Guard(cfg, s, SpinScan(r))
    ensures Advances(cfg, s, SpinScan(r))
  {
    hide RingInv, LinksInv, HomeInv, WindowInv, BatchInv, BufInv, DataInv, PlacedInv, WireInv, DeliveredInv, OrderInv,
         StageInv, SleepInv, ZoneInv, LessPlaced, LessPhase, Undequeued, Unreturned, Blocked, SlotsPresent, Ranks;
    StepKeeps(cfg, s, SpinScan(r));
    RankFalls(cfg, s, Apply(cfg, s, SpinScan(r)), r);
  }

  /** Publishing new_head gives slots back, or leaves nothing to do here. */
  lemma PublishShrinks(cfg: Config, rx: seq<Ring>, r: nat, spin: int)
    requires r < |rx| == |cfg.rxSlots| && RxRingOk(cfg.rxSlots[r], rx[r], spin) && spin != rx[r].head
    requires var n := cfg.rxSlots[r]; OnRing(n, rx[r].head) && OnRing(n, rx[r].cur) && OnRing(n, spin)
    ensures Unreturned(cfg, rx[r := rx[r].(head := spin)]) < Unreturned(cfg, rx)
  {
    var rx' := rx[r := rx[r].(head := spin)];
    assert Rx(r, rx[r].head) in Unreturned(cfg, rx) && Rx(r, rx[r].head) !in Unreturned(cfg, rx');
    assert Unreturned(cfg, rx') <= Unreturned(cfg, rx);
  }

  lemma PublishAdvances(cfg: Config, s: State, r: nat)
    requires Inv(cfg, s) && Guard(cfg, s, SpinPublish(r))
    ensures Advances(cfg, s, SpinPublish(r))
  {
    hide LinksInv, HomeInv, WindowInv, BatchInv, BufInv, DataInv, PlacedInv, WireInv, DeliveredInv, OrderInv, StageInv,
         SleepInv, ZoneInv, LessPlaced, LessPhase, Undequeued, Unreturned, SlotsPresent, Ranks;
    StepKeeps(cfg, s, SpinPublish(r));
    var s' := Apply(cfg, s, SpinPublish(r));
    assert RxRingOk(cfg.rxSlots[r], s.rx[r], s.spin[r]);
    CursKept(cfg, s.rx, s'.rx);
    if s.spin[r] != s.rx[r].head {
      PublishShrinks(cfg, s.rx, r, s.spin[r]);
    } else {
      assert s'.rx == s.rx;
      assert SpinStops(s, r) && (s.spin[r] != s.rx[r].cur ==> Blocked(s.busy, r));
      RankFalls(cfg, s, s', r);
    }
  }

  lemma CursKept(cfg: Config, rx: seq<Ring>, rx': seq<Ring>)
    requires |rx'| == |rx| && forall q :: 0 <= q < |rx| ==> rx'[q].cur == rx[q].cur && rx'[q].tail == rx[q].tail
    ensures Undequeued(cfg, rx') == Undequeued(cfg, rx)
  {}

  /** The step a receive thread's code comes to next; from poll, the one with something to do. */
  function NextStep(cfg: Config, s: State, r: nat): Step
    requires WellFormed(cfg, s) && r < |s.stage|
  {
    match s.stage[r]
    case Polling => Turn(r, if s.rx[r].cur != s.rx[r].tail then Dequeuing else Spinning)
    case Dequeuing => if s.rx[r].cur != s.rx[r].tail then Dequeue(r) else Turn(r, Sorting)
    case Sorting => if On(s.lists, Local(r)) != [] then SortOne(r) else Turn(r, Delivering(0))
    case Delivering(k) =>
      if k == |cfg.consumers[r]| then Turn(r, Spinning)
      else if On(s.lists, Work(r, k)) != [] then Deliver(r, k)
      else Turn(r, Delivering(k + 1))
    case Spinning => if SpinStops(s, r) then SpinPublish(r) else SpinScan(r)
  }

  predicate OwnStep(step: Step, r: nat) {
    || step == Dequeue(r) || step == SortOne(r) || (step.Deliver? && step.r == r) || (step.Turn? && step.r == r)
    || step == SpinScan(r) || step == SpinPublish(r)
  }

  lemma NextStepTaken(cfg: Config, s: State, r: nat)
    requires WellFormed(cfg, s) && r < |s.stage| && Inv(cfg, s)
    ensures Guard(cfg, s, NextStep(cfg, s, r)) && OwnStep(NextStep(cfg, s, r), r)
    ensures s.stage[r].Polling? && NextStep(cfg, s, r) == Turn(r, Spinning) ==> s.rx[r].cur == s.rx[r].tail
  {
    hide RingInv, LinksInv, HomeInv, WindowInv, BatchInv, BufInv, DataInv, PlacedInv, WireInv, DeliveredInv, OrderInv,
         StageInv, SleepInv, ZoneInv, SlotsPresent, KernelOwns;
    StageOf(cfg, s, r);
    NoWorkBeyond(cfg, s, r);
  }

  /** A receive thread that does not rest gets on with its cycle. */
  lemma RxAdvances(cfg: Config, s: State, r: nat)
    requires WellFormed(cfg, s) && r < |s.stage| && !Resting(s, r) && Inv(cfg, s)
    ensures Advances(cfg, s, NextStep(cfg, s, r))
  {
    hide Inv, WellFormed, Guard, Resting, Advances, NextStep;
    NextStepTaken(cfg, s, r);
    var step := NextStep(cfg, s, r);
    if step.Dequeue? {
      DequeueAdvances(cfg, s, r);
    } else if step.SortOne? {
      SortAdvances(cfg, s, r);
    } else if step.Deliver? {
      DeliverAdvances(cfg, s, r, step.k);
    } else if step.SpinScan? {
      ScanAdvances(cfg, s, r);
    } else if step.SpinPublish? {
      PublishAdvances(cfg, s, r);
    } else {
      TurnAdvances(cfg, s, r, step.to);
    }
  }

  lemma SortAdvances(cfg: Config, s: State, r: nat)
    requires Inv(cfg, s) && Guard(cfg, s, SortOne(r))
    ensures Advances(cfg, s, SortOne(r))
  {
    hide RingInv, LinksInv, HomeInv, WindowInv, BatchInv, BufInv, DataInv, PlacedInv, WireInv, DeliveredInv, OrderInv,
         StageInv, SleepInv, ZoneInv, ConfigOk, LessPlaced, SamePlaced, LessRx, SameRx, LessPhase, Undequeued, PktData;
    StepKeeps(cfg, s, SortOne(r));
    LocalHead(cfg, s, r);
    var l := On(s.lists, Local(r))[0];
    SortShrinks(s.place, l, r, Class(cfg, r, PktData(s.mem, s.pktBuf, s.pktLen, l)));
  }

  lemma DeliverAdvances(cfg: Config, s: State, r: nat, k: nat)
    requires Inv(cfg, s) && Guard(cfg, s, Deliver(r, k))
    ensures Advances(cfg, s, Deliver(r, k))
  {
    hide RingInv, LinksInv, HomeInv, WindowInv, BatchInv, BufInv, DataInv, PlacedInv, WireInv, DeliveredInv, OrderInv,
         StageInv, SleepInv, ZoneInv, LessPlaced, SamePlaced, LessRx, SameRx, LessPhase, Undequeued, RewriteAll,
         Relabel;
    StepKeeps(cfg, s, Deliver(r, k));
    WorkMembers(cfg, s, r, k);
    RelabelShrinks(s.place, On(s.lists, Work(r, k)), Work(r, k), Queue(cfg.consumers[r][k].queue));
  }

  lemma TakeAdvances(cfg: Config, s: State, t: nat)
    requires Inv(cfg, s) && Guard(cfg, s, Take(t))
    ensures Advances(cfg, s, Take(t))
  {
    hide RingInv, LinksInv, HomeInv, WindowInv, BatchInv, BufInv, DataInv, PlacedInv, WireInv, DeliveredInv, OrderInv,
         StageInv, SleepInv, ZoneInv, ConfigOk, LessPlaced, SamePlaced, LessRx, SameRx, LessPhase, Undequeued, Relabel;
    StepKeeps(cfg, s, Take(t));
    QueueMembers(cfg, s, t);
    RelabelShrinks(s.place, On(s.lists, Queue(t)), Queue(t), Held(t));
  }

  /** Reading the slot count, and starting a batch. */
  lemma BeginAdvances(cfg: Config, s: State, t: nat, step: Step)
    requires Inv(cfg, s) && (step == Size(t) || step == StartBatch(t)) && Guard(cfg, s, step)
    ensures Advances(cfg, s, step)
  {
    hide RingInv, LinksInv, HomeInv, WindowInv, BatchInv, BufInv, DataInv, PlacedInv, WireInv, DeliveredInv, OrderInv,
         StageInv, SleepInv, ZoneInv, ConfigOk, LessPlaced, LessRx, LessPhase, Undequeued, Ranks, Unreturned;
    StepKeeps(cfg, s, step);
    RanksSame(cfg, s, Apply(cfg, s, step), |cfg.rxSlots|);
    PhaseShrinks(s.tx, s.phase, t, Apply(cfg, s, step).phase[t]);
  }

  lemma GatherAdvances(cfg: Config, s: State, t: nat)
    requires Inv(cfg, s) && Guard(cfg, s, GatherOne(t))
    ensures Advances(cfg, s, GatherOne(t))
  {
    hide RingInv, LinksInv, HomeInv, WindowInv, BatchInv, BufInv, DataInv, PlacedInv, WireInv, DeliveredInv, OrderInv,
         StageInv, SleepInv, ZoneInv, ConfigOk, LessPlaced, SamePlaced, LessRx, LessPhase, Undequeued, WireOk, BatchOk,
         Ranks, Unreturned;
    StepKeeps(cfg, s, GatherOne(t));
    GatherFree(cfg, s, t);
    BatchOf(cfg, s, t);
    RanksSame(cfg, s, Apply(cfg, s, GatherOne(t)), |cfg.rxSlots|);
    GatherSame(s.place, Tx(t, Slot(cfg.txSlots[t], s.tx[t].cur, s.phase[t].g)), t);
    PhaseShrinks(s.tx, s.phase, t, Apply(cfg, s, GatherOne(t)).phase[t]);
  }

  lemma MoveAdvances(cfg: Config, s: State, t: nat)
    requires Inv(cfg, s) && Guard(cfg, s, MoveOne(t))
    ensures Advances(cfg, s, MoveOne(t))
  {
    hide RingInv, LinksInv, HomeInv, WindowInv, BatchInv, BufInv, DataInv, PlacedInv, WireInv, DeliveredInv, OrderInv,
         StageInv, SleepInv, ZoneInv, ConfigOk, LessPlaced, SamePlaced, LessRx, SameRx, LessPhase, Undequeued, SlotData,
         PktData, Rewritten;
    StepKeeps(cfg, s, MoveOne(t));
    MovePkts(cfg, s, t);
    GatheredHead(s.next, s.lists, s.place, t);
    MoveShrinks(s.place, s.phase[t].pkt.value, s.phase[t].ptx.value);
  }

  lemma GatheredHead(next: map<Loc, Loc>, lists: map<Place, seq<Loc>>, place: map<Loc, Place>, t: nat)
    requires LinksInv(next, lists, place) && On(lists, Gathered(t)) != []
    ensures var l := On(lists, Gathered(t))[0]; l in place && place[l] == Gathered(t)
  {
    assert ListOk(next, place, Gathered(t), On(lists, Gathered(t)));
  }

  lemma FinishAdvances(cfg: Config, s: State, t: nat)
    requires Inv(cfg, s) && Guard(cfg, s, Finish(t))
    ensures Advances(cfg, s, Finish(t))
  {
    hide RingInv, LinksInv, HomeInv, WindowInv, BatchInv, BufInv, DataInv, PlacedInv, WireInv, DeliveredInv, OrderInv,
         StageInv, SleepInv, ZoneInv, ConfigOk, LessPlaced, LessRx, LessPhase, Undequeued, WireOk, BatchOk, SlotRun,
         Ranks, Unreturned;
    StepKeeps(cfg, s, Finish(t));
    BatchOf(cfg, s, t);
    RanksSame(cfg, s, Apply(cfg, s, Finish(t)), |cfg.rxSlots|);
    FinishShrinks(Apply(cfg, s, Finish(t)).tx, s.tx, s.phase, t);
  }

  lemma RoomAdvances(cfg: Config, s: State, t: nat)
    requires Inv(cfg, s) && t < |s.tx| && s.phase[t].Idle? && s.tx[t].cur == s.tx[t].tail && cfg.txSlots[t] >= 2
    ensures Advances(cfg, s, KernelTx(t))
  {
    hide RingInv, LinksInv, HomeInv, WindowInv, BatchInv, BufInv, DataInv, PlacedInv, WireInv, DeliveredInv, OrderInv,
         StageInv, SleepInv, ZoneInv, ConfigOk, LessPlaced, LessRx, LessPhase, Undequeued, WireOk, BatchOk, Ranks,
         Unreturned;
    BatchOf(cfg, s, t);
    StepKeeps(cfg, s, KernelTx(t));
    RanksSame(cfg, s, Apply(cfg, s, KernelTx(t)), |cfg.rxSlots|);
    RoomShrinks(s.tx, s.phase, t, s.tx[t].(tail := Next(cfg.txSlots[t], s.tx[t].tail)));
  }

  /** A transmit thread with something to send is not asleep: whoever queued it has signalled. */
  lemma AwakeWithWork(cfg: Config, s: State, t: nat)
    requires Inv(cfg, s) && t < |s.tx|
    requires On(s.lists, Queue(t)) != [] || On(s.lists, Held(t)) != []
             || (s.phase[t].Move? && s.phase[t].m > 0)
    ensures !s.phase[t].Asleep?
  {
    hide RingInv, LinksInv, HomeInv, WindowInv, BatchInv, BufInv, DataInv, PlacedInv, WireInv, DeliveredInv, OrderInv,
         StageInv, ZoneInv, ConfigOk, WireOk;
    BatchOf(cfg, s, t);
  }

  /** A transmit thread with something to send, or slots to hand over, can go on. */
  lemma TxAdvances(cfg: Config, s: State, t: nat) returns (step: Step)
    requires Inv(cfg, s) && t < |s.tx| && cfg.txSlots[t] >= 2
    requires On(s.lists, Queue(t)) != [] || On(s.lists, Held(t)) != [] || (s.phase[t].Move? && s.phase[t].m > 0)
    ensures Advances(cfg, s, step)
  {
    hide RingInv, LinksInv, HomeInv, WindowInv, BatchInv, BufInv, DataInv, PlacedInv, WireInv, DeliveredInv, OrderInv,
         StageInv, SleepInv, ZoneInv, ConfigOk, Safe, Apply, Advances, WireOk;
    BatchOf(cfg, s, t);
    AwakeWithWork(cfg, s, t);
    match s.phase[t] {
      case Idle =>
        if s.tx[t].cur == s.tx[t].tail {
          step := KernelTx(t);
          RoomAdvances(cfg, s, t);
        } else {
          step := Size(t);
          BeginAdvances(cfg, s, t, step);
        }
      case Sized(_) =>
        if s.heldLen[t] == 0 {
          step := Take(t);
          TakeAdvances(cfg, s, t);
        } else {
          step := StartBatch(t);
          BeginAdvances(cfg, s, t, step);
        }
      case Woken(_) =>
        step := Take(t);
        TakeAdvances(cfg, s, t);
      case Gather(_, _) =>
        step := GatherOne(t);
        GatherAdvances(cfg, s, t);
      case Move(ntx, m, _, _) =>
        if m < ntx {
          step := MoveOne(t);
          MoveAdvances(cfg, s, t);
        } else {
          step := Finish(t);
          FinishAdvances(cfg, s, t);
        }
    }
  }

  lemma PlaceHolds(cfg: Config, s: State, l: Loc)
    requires Inv(cfg, s) && l in s.place
    ensures On(s.lists, s.place[l]) != [] && PlaceOk(cfg, s.arr, l, s.place[l]) && Valid(cfg, l)
  {
    hide RingInv, WindowInv, BatchInv, BufInv, DataInv, PlacedInv, WireInv, DeliveredInv, OrderInv, StageInv, SleepInv,
         ZoneInv, AllOk, ConfigOk;
  }

  /** When every receive thread rests, nothing is waiting before the queues. */
  lemma RestingEmpty(cfg: Config, s: State)
    requires Inv(cfg, s) && forall r: nat :: r < |s.stage| ==> Resting(s, r)
    ensures Undequeued(cfg, s.rx) == {} && InLocal(s.place) == {} && InWork(s.place) == {}
  {
    hide RingInv, LinksInv, HomeInv, WindowInv, BatchInv, BufInv, DataInv, PlacedInv, WireInv, DeliveredInv, OrderInv,
         StageInv, SleepInv, ZoneInv, ConfigOk, SlotsPresent;
    UndequeuedWakes(cfg, s);
    assert forall l :: l in Undequeued(cfg, s.rx) ==> l.ring < |s.stage|;
    forall l | l in s.place ensures !s.place[l].Local? && !s.place[l].Work? {
      if s.place[l].Local? || s.place[l].Work? { HolderBusy(cfg, s, l); }
    }
  }

  lemma UndequeuedWakes(cfg: Config, s: State)
    requires WellFormed(cfg, s)
    ensures forall l :: l in Undequeued(cfg, s.rx) ==> l.Rx? && l.ring < |s.stage| && !Resting(s, l.ring)
  {
    hide ConfigOk, SlotsPresent;
  }

  /** The receive thread whose list a packet is on does not rest. */
  lemma HolderBusy(cfg: Config, s: State, l: Loc)
    requires Inv(cfg, s) && l in s.place && (s.place[l].Local? || s.place[l].Work?)
    ensures s.place[l].r < |s.stage| && !Resting(s, s.place[l].r)
  {
    hide RingInv, LinksInv, HomeInv, WindowInv, BatchInv, BufInv, DataInv, PlacedInv, WireInv, DeliveredInv, OrderInv,
         StageInv, SleepInv, ZoneInv, ConfigOk, SlotsPresent;
    PlaceHolds(cfg, s, l);
    StageOf(cfg, s, s.place[l].r);
  }

  /** A slot that cannot be given back has a packet on its way. */
  lemma UnreturnedBlocked(cfg: Config, s: State)
    requires Inv(cfg, s) && Unreturned(cfg, s.rx) != {} && forall r: nat :: r < |s.stage| ==> Resting(s, r)
    ensures InQueue(s.place) + InHeld(s.place) != {}
  {
    hide RingInv, LinksInv, HomeInv, WindowInv, BatchInv, BufInv, DataInv, PlacedInv, WireInv, DeliveredInv, OrderInv,
         StageInv, SleepInv, ZoneInv, ConfigOk, SlotsPresent, Undequeued;
    RestingEmpty(cfg, s);
    var l :| l in Unreturned(cfg, s.rx);
    assert Resting(s, l.ring);
    var i: nat :| Rx(l.ring, i) in s.busy;
    BusyPlaced(cfg, s.place, s.busy, s.arr, Rx(l.ring, i));
  }

  lemma BusyPlaced(cfg: Config, place: map<Loc, Place>, busy: set<Loc>, arr: map<Loc, Bytes>, l: Loc)
    requires ConfigOk(cfg) && HomeInv(cfg, place, busy, arr) && l in busy
    ensures l in InLocal(place) + InWork(place) + InQueue(place) + InHeld(place)
  {
    hide ConfigOk;
    assert PlaceOk(cfg, arr, l, place[l]);
  }

  /** As long as anything is left to do, some thread has a step that does part of it, the one
      its code comes to next, or the kernel has a slot to give back to a transmit thread that
      has none. */
  lemma SomeAdvances(cfg: Config, s: State) returns (step: Step)
    requires Inv(cfg, s) && !Drained(cfg, s) && forall t :: 0 <= t < |cfg.txSlots| ==> cfg.txSlots[t] >= 2
    ensures Advances(cfg, s, step)
  {
    hide RingInv, LinksInv, HomeInv, WindowInv, BatchInv, BufInv, DataInv, PlacedInv, WireInv, DeliveredInv, OrderInv,
         StageInv, SleepInv, ZoneInv, ConfigOk, Guard, Safe, Apply, Advances, Undequeued, Unreturned, Resting;
    if r: nat :| r < |s.stage| && !Resting(s, r) {
      step := NextStep(cfg, s, r);
      RxAdvances(cfg, s, r);
    } else {
      RestingEmpty(cfg, s);
      if Unreturned(cfg, s.rx) != {} { UnreturnedBlocked(cfg, s); }
      if InQueue(s.place) + InHeld(s.place) != {} {
        var l :| l in InQueue(s.place) + InHeld(s.place);
        PlaceHolds(cfg, s, l);
        step := TxAdvances(cfg, s, s.place[l].t);
      } else {
        var t :| t in Filling(s.phase);
        step := TxAdvances(cfg, s, t);
      }
    }
  }

  // ---------- to the end ----------

  /** Some run without arrivals leads from s to s'. */
  ghost predicate CanReach(cfg: Config, s: State, s': State) {
    exists steps :: Run(cfg, s, steps, s') && forall x :: x in steps ==> Unaided(x)
  }

  lemma ReachHere(cfg: Config, s: State)
    ensures CanReach(cfg, s, s)
  {
    assert Run(cfg, s, [], s);
  }

  lemma ReachFirst(cfg: Config, s: State, step: Step, s': State)
    requires Inv(cfg, s) && Guard(cfg, s, step) && Safe(cfg, s, step) && Unaided(step)
    requires CanReach(cfg, Apply(cfg, s, step), s')
    ensures CanReach(cfg, s, s')
  {
    hide Inv, Guard, Safe, Apply, WellFormed;
    InvIsWellFormed(cfg, s);
    var rest :| Run(cfg, Apply(cfg, s, step), rest, s') && forall x :: x in rest ==> Unaided(x);
    var steps := [step] + rest;
    assert steps[1..] == rest;
    assert Run(cfg, s, steps, s');
    assert forall x :: x in steps ==> x == step || x in rest;
  }

  /** All the work in hand can be finished. */
  lemma {:induction false} Drains(cfg: Config, s: State) returns (s': State)
    requires Inv(cfg, s) && forall t :: 0 <= t < |cfg.txSlots| ==> cfg.txSlots[t] >= 2
    ensures CanReach(cfg, s, s') && Inv(cfg, s') && Drained(cfg, s') && s'.delivered == s.delivered
    decreases Undequeued(cfg, s.rx), InLocal(s.place), InWork(s.place), InQueue(s.place), InHeld(s.place),
              Unreturned(cfg, s.rx), Ranks(cfg, s, |cfg.rxSlots|), Filling(s.phase), Roomless(s.tx, s.phase),
                  Idling(s.phase), Starting(s.phase), ToGather(s.phase)
  {
    hide Drained, Guard, Safe, Apply, Inv, Undequeued, Unreturned, Ranks, InLocal, InWork, InQueue, InHeld, Filling,
         Roomless, Idling, Starting, ToGather, CanReach;
    if Drained(cfg, s) {
      s' := s;
      ReachHere(cfg, s);
    } else {
      var step := SomeAdvances(cfg, s);
      InvIsWellFormed(cfg, s);
      StepKeeps(cfg, s, step);
      s' := Drains(cfg, Apply(cfg, s, step));
      ReachFirst(cfg, s, step, s');
    }
  }

  lemma {:induction false} RunConcat(cfg: Config, s: State, a: seq<Step>, s1: State, b: seq<Step>, s2: State)
    requires Run(cfg, s, a, s1) && Run(cfg, s1, b, s2)
    ensures Run(cfg, s, a + b, s2)
    decreases |a|
  {
    hide WellFormed, Guard, Safe, Apply;
    if a == [] {
      assert a + b == b;
    } else {
      RunConcat(cfg, Apply(cfg, s, a[0]), a[1..], s1, b, s2);
      assert (a + b)[1..] == a[1..] + b;
    }
  }

  lemma ReachableGoesOn(cfg: Config, s: State, s': State)
    requires Reachable(cfg, s) && CanReach(cfg, s, s')
    ensures Reachable(cfg, s')
  {
    hide Run, NetmapReady, Start;
    var rx, tx, bufIdx, slotLen, mem, steps :|
      NetmapReady(cfg, rx, tx, bufIdx, slotLen, mem) && Run(cfg, Start(cfg, rx, tx, bufIdx, slotLen, mem), steps, s);
    var more :| Run(cfg, s, more, s') && forall x :: x in more ==> Unaided(x);
    RunConcat(cfg, Start(cfg, rx, tx, bufIdx, slotLen, mem), steps, s, more, s');
  }

  // ---------- what is there at the end ----------

  lemma DrainedLists(cfg: Config, s: State, p: Place)
    requires LinksInv(s.next, s.lists, s.place) && Drained(cfg, s) && !p.Gathered?
    ensures On(s.lists, p) == []
  {
    hide Undequeued, Filling;
    assert ListOk(s.next, s.place, p, On(s.lists, p));
    assert forall l :: l in s.place ==> s.place[l].Gathered? by {
      assert forall l :: l in s.place ==>
        l in InLocal(s.place) || l in InWork(s.place) || l in InQueue(s.place) || l in InHeld(s.place)
            || s.place[l].Gathered?;
    }
  }

  lemma DrainedBusy(cfg: Config, s: State)
    requires ConfigOk(cfg) && HomeInv(cfg, s.place, s.busy, s.arr) && Drained(cfg, s)
    ensures s.busy == {}
  {
    hide Undequeued, Unreturned, Filling, ConfigOk, HomeInv;
    if l :| l in s.busy { BusyPlaced(cfg, s.place, s.busy, s.arr, l); }
  }

  /** Every receive slot is back with the kernel. */
  lemma DrainedRings(cfg: Config, s: State)
    requires WellFormed(cfg, s) && Drained(cfg, s)
    ensures forall r :: 0 <= r < |s.rx| ==> s.rx[r].head == s.rx[r].cur == s.rx[r].tail
  {
    hide ConfigOk, SlotsPresent, InLocal, InWork, InQueue, InHeld, Filling;
    forall r | 0 <= r < |s.rx| ensures s.rx[r].head == s.rx[r].cur == s.rx[r].tail {
      assert Rx(r, s.rx[r].cur) !in Undequeued(cfg, s.rx) && Rx(r, s.rx[r].head) !in Unreturned(cfg, s.rx);
    }
  }

  lemma DrainedTx(cfg: Config, s: State, t: nat)
    requires Inv(cfg, s) && Drained(cfg, s) && t < |cfg.txSlots|
    ensures |s.placed[t]| == |s.wire[t]|
  {
    hide RingInv, LinksInv, HomeInv, WindowInv, BatchInv, BufInv, DataInv, PlacedInv, WireInv, DeliveredInv, OrderInv,
         StageInv, SleepInv, ZoneInv, Undequeued, InLocal, InWork, InQueue, InHeld, TxRun, BatchOk;
    BatchOf(cfg, s, t);
    assert s.phase[t].Move? && s.phase[t].m > 0 ==> t in Filling(s.phase);
  }

  lemma DrainedRx(cfg: Config, rx: seq<Ring>, r: nat)
    requires |rx| == |cfg.rxSlots| && r < |rx| && Undequeued(cfg, rx) == {}
    requires OnRing(cfg.rxSlots[r], rx[r].cur) && OnRing(cfg.rxSlots[r], rx[r].tail)
    ensures Dist(cfg.rxSlots[r], rx[r].cur, rx[r].tail) == 0
  {
    assert Rx(r, rx[r].cur) !in Undequeued(cfg, rx);
  }

  /** Everything delivered for consumer k of ring r has been handed over, rewritten and in
      order. */
  ghost predicate AllThrough(cfg: Config, delivered: seq<seq<Bytes>>, s: State, r: nat, k: nat)
    requires ConfigOk(cfg) && r < |cfg.rxSlots| && k < |cfg.consumers[r]|
  {
    var t := cfg.consumers[r][k].queue;
    && |delivered| == |cfg.rxSlots| && |s.placed| == |s.wire| == |cfg.txSlots| && |s.wire[t]| <= |s.placed[t]|
    && OnWire(cfg, s.placed[t], s.wire[t], r, k)
       == Rewrites(cfg.consumers[r][k].rewrite, OfClass(cfg, delivered[r], r, k))
  }

  lemma DrainedThrough(cfg: Config, s: State, r: nat, k: nat)
    requires Reachable(cfg, s) && Drained(cfg, s) && ConfigOk(cfg) && r < |cfg.rxSlots| && k < |cfg.consumers[r]|
    ensures AllThrough(cfg, s.delivered, s, r, k)
  {
    hide Reachable, RingInv, LinksInv, HomeInv, WindowInv, BatchInv, BufInv, DataInv, PlacedInv, WireInv, OrderInv,
         StageInv, SleepInv, ZoneInv, OfClass, SentOf, InFlight, OnWire, RxRun, SentOk, Undequeued, InLocal, InWork,
         InQueue, InHeld, Filling;
    var t := cfg.consumers[r][k].queue;
    ReachableInv(cfg, s);
    Conservation(cfg, s, r, k);
    HandedOver(cfg, s, t);
    DrainedTx(cfg, s, t);
    DrainedRx(cfg, s.rx, r);
    assert DeliveredOk(cfg, r, s.rx[r], s.delivered[r], s.dequeued[r], s.mem, s.bufIdx, s.slotLen);
    NothingInFlight(cfg, s, r, k);
    NothingOf(cfg, r, k);
    var sent := SentOf(cfg, s.placed[t][..|s.wire[t]|], r, k);
    assert s.placed[t][|s.wire[t]|..] == [] && s.delivered[r][|s.dequeued[r]|..] == [];
    assert OfClass(cfg, s.delivered[r], r, k) == sent + [] + [] + [] == sent;
    SentIsRewritten(cfg, s, t);
    WireIsRewritten(cfg, s.placed[t], s.wire[t], r, k);
  }

  lemma NothingInFlight(cfg: Config, s: State, r: nat, k: nat)
    requires ConfigOk(cfg) && r < |cfg.rxSlots| && k < |cfg.consumers[r]|
    requires LinksInv(s.next, s.lists, s.place) && Drained(cfg, s)
    ensures InFlight(cfg, s.arr, s.lists, r, k) == []
  {
    var t := cfg.consumers[r][k].queue;
    hide LinksInv, Drained, ConfigOk;
    DrainedLists(cfg, s, Held(t));
    DrainedLists(cfg, s, Queue(t));
    DrainedLists(cfg, s, Work(r, k));
    DrainedLists(cfg, s, Local(r));
  }

  lemma NothingOf(cfg: Config, r: nat, k: nat)
    requires ConfigOk(cfg) && r < |cfg.rxSlots|
    ensures OfClass(cfg, [], r, k) == [] && SentOf(cfg, [], r, k) == []
  {}

  lemma SentIsRewritten(cfg: Config, s: State, t: nat)
    requires ConfigOk(cfg) && t < |s.placed| && forall x :: 0 <= x < |s.placed[t]| ==> SentOk(cfg, t, s.placed[t][x])
    ensures forall x :: 0 <= x < |s.placed[t]| && s.placed[t][x].src < |cfg.rxSlots| ==>
      s.placed[t][x].out == Rewritten(cfg, s.placed[t][x].src, s.placed[t][x].arrival)
  {
    hide ConfigOk;
    forall x | 0 <= x < |s.placed[t]| && s.placed[t][x].src < |cfg.rxSlots|
      ensures s.placed[t][x].out == Rewritten(cfg, s.placed[t][x].src, s.placed[t][x].arrival)
    {
      assert SentOk(cfg, t, s.placed[t][x]);
    }
  }

  /** Nothing is ever stuck.  From every reachable state of every interleaving some run without
      further arrivals leads to a state in which every packet is released, every receive slot
      is back with the kernel, and everything the kernel has delivered has been handed over,
      rewritten by its consumer, complete and in arrival order. */
  lemma NothingStuck(cfg: Config, s: State)
    requires Reachable(cfg, s) && ConfigOk(cfg) && forall t :: 0 <= t < |cfg.txSlots| ==> cfg.txSlots[t] >= 2
    ensures exists s' ::
      && CanReach(cfg, s, s') && s'.busy == {} && s'.delivered == s.delivered
      && (forall r :: 0 <= r < |s'.rx| ==> s'.rx[r].head == s'.rx[r].cur == s'.rx[r].tail)
      && forall r, k :: 0 <= r < |cfg.rxSlots| && 0 <= k < |cfg.consumers[r]| ==> AllThrough(cfg, s.delivered, s', r, k)
  {
    hide Reachable, RingInv, LinksInv, HomeInv, WindowInv, BatchInv, BufInv, DataInv, PlacedInv, WireInv, DeliveredInv,
         OrderInv, StageInv, SleepInv, ZoneInv, CanReach, Drained, AllThrough;
    ReachableInv(cfg, s);
    var s' := Drains(cfg, s);
    ReachableGoesOn(cfg, s, s');
    DrainedBusy(cfg, s');
    DrainedRings(cfg, s');
    forall r, k | 0 <= r < |cfg.rxSlots| && 0 <= k < |cfg.consumers[r]| ensures AllThrough(cfg, s.delivered, s', r, k) {
      DrainedThrough(cfg, s', r, k);
    }
  }
}
