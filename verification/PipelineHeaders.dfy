/** The list headers the code keeps.  The system of steps decides by what a list holds; the
    code reads a head, a tail, a length, a link or a walking pointer.  Here every step is
    taken a second time from those alone, and the two agree on every run. */
module PipelineHeaders {
  import opened Circular
  import opened Octets
  import opened MemFast
  import opened PipelineModel
  import opened PipelineLinks
  import opened PipelineInv
  import opened PipelineRx
  import opened PipelineTx
  import opened Pipeline

  /** A list or queue header. */
  datatype Header = Header(head: Option<Loc>, tail: Option<Loc>, len: int)

  /** All headers, and the `pkt` of each sorter's relinking loop. */
  datatype Heads = Heads(hdr: map<Place, Header>, walk: seq<Option<Loc>>)

  const EMPTY := Header(None, None, 0)

  function Of(h: Heads, p: Place): Header {
    if p in h.hdr then h.hdr[p] else EMPTY
  }

  // ---------- the code's list operations ----------

  /** sin_list_append. */
  function Appended(hd: Header, l: Loc): Header {
    if hd.head == None then Header(Some(l), Some(l), hd.len + 1) else Header(hd.head, Some(l), hd.len + 1)
  }

  /** The one link an append or a splice writes. */
  function LinkTail(next: map<Loc, Loc>, hd: Header, l: Option<Loc>): map<Loc, Loc> {
    if hd.head == None || hd.tail == None || l == None then next else next[hd.tail.value := l.value]
  }

  /** sin_wi_queue_put_items and sin_wi_queue_get_items. */
  function Spliced(hd: Header, lst: Header): Header {
    if hd.head == None then lst else Header(hd.head, lst.tail, hd.len + lst.len)
  }

  // ---------- what the code decides ----------

  ghost predicate Fits(cfg: Config, s: State, h: Heads) {
    WellFormed(cfg, s) && |h.walk| == |s.stage|
  }

  /** Guard, from headers and walking pointers. */
  predicate CodeGuard(cfg: Config, s: State, h: Heads, step: Step)
    requires Fits(cfg, s, h)
  {
    && InRange(cfg, step)
    && match step
       case SortOne(r) => s.stage[r].Sorting? && h.walk[r] != None
       case Deliver(r, k) => s.stage[r] == Delivering(k) && Of(h, Work(r, k)).len != 0
       case Turn(r, to) =>
         (match s.stage[r]
          case Sorting => to == Delivering(0) && h.walk[r] == None
          case Delivering(k) =>
            if k < |cfg.consumers[r]| then to == Delivering(k + 1) && Of(h, Work(r, k)).len == 0 else to.Spinning?
          case _ => Turns(cfg, s, r, to))
       case Take(t) => Getting(s.phase[t]) && Of(h, Held(t)).len == 0 && Of(h, Queue(t)).head != None
       case Sleep(t) => s.phase[t].Sized? && Of(h, Held(t)).len == 0 && Of(h, Queue(t)).head == None
       case Return(t) => s.phase[t].Woken? && Of(h, Queue(t)).head == None
       case StartBatch(t) => s.phase[t].Sized? && Of(h, Held(t)).len != 0
       case _ => Guard(cfg, s, step)
  }

  /** The links after the step. */
  function CodeNext(cfg: Config, s: State, h: Heads, step: Step): map<Loc, Loc>
    requires Fits(cfg, s, h) && CodeGuard(cfg, s, h, step)
  {
    match step
    case Dequeue(r) => LinkTail(s.next, Of(h, Local(r)), Some(Rx(r, s.rx[r].cur)))
    case SortOne(r) =>
      var l := h.walk[r].value;
      LinkTail(s.next - {l}, Of(h, SortTo(cfg, s, r, l)), Some(l))
    case Deliver(r, k) =>
      if k < |cfg.consumers[r]|
      then LinkTail(s.next, Of(h, Queue(cfg.consumers[r][k].queue)), Of(h, Work(r, k)).head)
      else s.next
    case Take(t) => LinkTail(s.next, Of(h, Held(t)), Of(h, Queue(t)).head)
    case GatherOne(t) =>
      if s.phase[t].g == 0 || GatherLoc(cfg, s, t) == None then s.next
      else LinkTail(s.next, Of(h, Gathered(t)), GatherLoc(cfg, s, t))
    case MoveOne(t) =>
      if s.phase[t].pkt == None || s.phase[t].ptx == None then s.next
      else s.next - {s.phase[t].pkt.value} - {s.phase[t].ptx.value}
    case _ => s.next
  }

  /** The work list a packet is relinked to. */
  function SortTo(cfg: Config, s: State, r: nat, l: Loc): Place
    requires ConfigOk(cfg) && r < |cfg.rxSlots|
  {
    Work(r, Class(cfg, r, PktData(s.mem, s.pktBuf, s.pktLen, l)))
  }

  function GatherLoc(cfg: Config, s: State, t: nat): Option<Loc>
    requires t < |cfg.txSlots| && t < |s.tx| && t < |s.phase| && s.phase[t].Gather?
  {
    var j := Slot(cfg.txSlots[t], s.tx[t].cur, s.phase[t].g);
    if j < 0 then None else Some(Tx(t, j))
  }

  /** The headers and walking pointers after the step. */
  function CodeHeads(cfg: Config, s: State, h: Heads, step: Step): Heads
    requires Fits(cfg, s, h) && CodeGuard(cfg, s, h, step)
  {
    match step
    case Dequeue(r) => h.(hdr := h.hdr[Local(r) := Appended(Of(h, Local(r)), Rx(r, s.rx[r].cur))])
    case Turn(r, to) =>
      if to.Sorting? then h.(walk := h.walk[r := Of(h, Local(r)).head])
      else if s.stage[r].Delivering? && to.Spinning? then h.(hdr := h.hdr[Local(r) := EMPTY])
      else h
    case SortOne(r) =>
      var l := h.walk[r].value;
      var w := SortTo(cfg, s, r, l);
      Heads(h.hdr[w := Appended(Of(h, w), l)], h.walk[r := Find(s.next, l)])
    case Deliver(r, k) =>
      if k < |cfg.consumers[r]| then
        var q := Queue(cfg.consumers[r][k].queue);
        h.(hdr := h.hdr[q := Spliced(Of(h, q), Of(h, Work(r, k)))][Work(r, k) := EMPTY])
      else h
    case Take(t) =>
      h.(hdr := h.hdr[Held(t) := Spliced(Of(h, Held(t)), Of(h, Queue(t)))][Queue(t) := EMPTY])
    case GatherOne(t) => h.(hdr := h.hdr[Gathered(t) := GatheredTo(cfg, s, h, t)])
    case Finish(t) =>
      var hd := Of(h, Held(t));
      var pkt := s.phase[t].pkt;
      h.(hdr := h.hdr[Held(t) := if pkt == None then EMPTY else Header(pkt, hd.tail, hd.len - s.phase[t].ntx)])
    case _ => h
  }

  /** pkts_tx with one more packet: the first one starts the list afresh. */
  function GatheredTo(cfg: Config, s: State, h: Heads, t: nat): Header
    requires t < |cfg.txSlots| && t < |s.tx| && t < |s.phase| && s.phase[t].Gather?
  {
    var l := GatherLoc(cfg, s, t);
    if l == None then Of(h, Gathered(t))
    else if s.phase[t].g == 0 then Header(l, l, 1)
    else Appended(Of(h, Gathered(t)), l.value)
  }

  /** The transmit threads' phases after the step. */
  function CodePhase(cfg: Config, s: State, h: Heads, step: Step): seq<Phase>
    requires Fits(cfg, s, h) && CodeGuard(cfg, s, h, step)
  {
    match step
    case Size(t) => s.phase[t := Sized(Dist(cfg.txSlots[t], s.tx[t].cur, s.tx[t].tail))]
    case Deliver(r, k) => if k < |cfg.consumers[r]| then Signalled(s.phase, cfg.consumers[r][k].queue) else s.phase
    case Take(t) => s.phase[t := Sized(s.phase[t].aslots)]
    case Sleep(t) => s.phase[t := Asleep(s.phase[t].aslots)]
    case Wake(t) => s.phase[t := Woken(s.phase[t].aslots)]
    case Return(t) => s.phase[t := Idle]
    case StartBatch(t) => s.phase[t := Gather(Min(s.phase[t].aslots, Of(h, Held(t)).len), 0)]
    case GatherOne(t) =>
      var g, ntx := s.phase[t].g + 1, s.phase[t].ntx;
      s.phase[t := if g < ntx then Gather(ntx, g)
                   else Move(ntx, 0, Of(h, Held(t)).head, GatheredTo(cfg, s, h, t).head)]
    case MoveOne(t) =>
      var ph := s.phase[t];
      if ph.pkt == None || ph.ptx == None then s.phase
      else s.phase[t := Move(ph.ntx, ph.m + 1, Find(s.next, ph.pkt.value), Find(s.next, ph.ptx.value))]
    case Finish(t) => s.phase[t := Idle]
    case _ => s.phase
  }

  /** The buffers after a consumer's loop, which follows the links from the head. */
  function CodeMem(cfg: Config, s: State, h: Heads, r: nat, k: nat): map<Buf, Bytes>
    requires r < |cfg.consumers| && k < |cfg.consumers[r]|
  {
    var hd := Of(h, Work(r, k));
    RewriteAll(s.mem, s.pktBuf, s.pktLen, Follow(s.next, hd.head, if hd.len < 0 then 0 else hd.len),
               cfg.consumers[r][k].rewrite)
  }

  // ---------- headers and lists ----------

  function LastOf(ls: seq<Loc>): Option<Loc> {
    if ls == [] then None else Some(Last(ls))
  }

  predicate Is(hd: Header, ls: seq<Loc>) {
    hd == Header(First(ls), LastOf(ls), |ls|)
  }

  /** Header p describes list p, except where the code lets it go stale: pkts_in from the
      relinking loop to its reset, pkts_out during a batch, pkts_tx between batches. */
  predicate HeadOk(s: State, h: Heads, p: Place)
    requires |h.walk| == |s.stage| && |s.heldLen| == |s.phase|
  {
    var hd, ls := Of(h, p), On(s.lists, p);
    match p
    case Work(_, _) => Is(hd, ls)
    case Queue(_) => Is(hd, ls)
    case Local(r) =>
      r < |s.stage| ==>
        (match s.stage[r]
         case Sorting => h.walk[r] == First(ls)
         case Delivering(_) => true
         case _ => Is(hd, ls))
    case Held(t) =>
      t < |s.phase| ==>
        && hd.len == s.heldLen[t]
        && (if s.phase[t].Move? then ls != [] ==> hd.tail == LastOf(ls) else Is(hd, ls))
    case Gathered(t) => t < |s.phase| && s.phase[t].Gather? && s.phase[t].g > 0 ==> Is(hd, ls)
  }

  ghost predicate Coupled(s: State, h: Heads) {
    |h.walk| == |s.stage| && |s.heldLen| == |s.phase| && forall p :: HeadOk(s, h, p)
  }

  /** An append or a splice through the header writes the link the list's end calls for. */
  lemma LinkTailIs(next: map<Loc, Loc>, hd: Header, ls: seq<Loc>, l: Loc)
    requires Is(hd, ls)
    ensures LinkTail(next, hd, Some(l)) == LinkAfter(next, ls, l)
    ensures Is(Appended(hd, l), ls + [l])
  {}

  lemma SplicedIs(hd: Header, a: seq<Loc>, lst: Header, b: seq<Loc>)
    requires Is(hd, a) && Is(lst, b) && b != []
    ensures Is(Spliced(hd, lst), a + b)
  {
    assert a == [] ==> a + b == b;
  }

  // ---------- the guards agree ----------

  lemma GuardsAgree(cfg: Config, s: State, h: Heads, step: Step)
    requires Inv(cfg, s) && Coupled(s, h)
    ensures Fits(cfg, s, h) && (CodeGuard(cfg, s, h, step) <==> Guard(cfg, s, step))
  {
    hide RingInv, LinksInv, HomeInv, WindowInv, BatchInv, BufInv, DataInv, PlacedInv, WireInv, DeliveredInv, OrderInv,
         StageInv, SleepInv, ZoneInv, ConfigOk, SlotsPresent, RingsOnRing, KernelOwns, BatchOk, WireOk, PhaseOk;
    match step {
      case SortOne(r) => assert HeadOk(s, h, Local(r));
      case Deliver(r, k) => assert HeadOk(s, h, Work(r, k));
      case Turn(r, to) =>
        assert HeadOk(s, h, Local(r));
        if r < |s.stage| && s.stage[r].Delivering? { assert HeadOk(s, h, Work(r, s.stage[r].k)); }
      case Take(t) => assert HeadOk(s, h, Held(t)) && HeadOk(s, h, Queue(t));
      case Sleep(t) => assert HeadOk(s, h, Held(t)) && HeadOk(s, h, Queue(t));
      case Return(t) => assert HeadOk(s, h, Queue(t));
      case StartBatch(t) => assert HeadOk(s, h, Held(t));
      case _ =>
    }
  }

  // ---------- the effects agree ----------

  /** What the code computes is what the step does, and the headers keep up. */
  ghost predicate Agrees(cfg: Config, s: State, h: Heads, step: Step)
    requires Fits(cfg, s, h) && CodeGuard(cfg, s, h, step) && Guard(cfg, s, step) && Safe(cfg, s, step)
  {
    var s' := Apply(cfg, s, step);
    && CodeNext(cfg, s, h, step) == s'.next
    && CodePhase(cfg, s, h, step) == s'.phase
    && (step.Deliver? ==> CodeMem(cfg, s, h, step.r, step.k) == s'.mem)
    && Coupled(s', CodeHeads(cfg, s, h, step))
  }

  lemma DequeueAgrees(cfg: Config, s: State, h: Heads, r: nat)
    requires Inv(cfg, s) && Coupled(s, h) && Guard(cfg, s, Dequeue(r)) && Safe(cfg, s, Dequeue(r))
    ensures Fits(cfg, s, h) && Agrees(cfg, s, h, Dequeue(r))
  {
    hide RingInv, LinksInv, HomeInv, WindowInv, BatchInv, BufInv, DataInv, PlacedInv, WireInv, DeliveredInv, OrderInv,
         StageInv, SleepInv, ZoneInv, ConfigOk, SlotsPresent, SlotData, LinkTail, Appended, LinkAfter, Is;
    var l := Rx(r, s.rx[r].cur);
    assert HeadOk(s, h, Local(r));
    LinkTailIs(s.next, Of(h, Local(r)), On(s.lists, Local(r)), l);
    var s', h' := Apply(cfg, s, Dequeue(r)), CodeHeads(cfg, s, h, Dequeue(r));
    forall p ensures HeadOk(s', h', p) { assert HeadOk(s, h, p); }
  }

  lemma TurnAgrees(cfg: Config, s: State, h: Heads, r: nat, to: Stage)
    requires Inv(cfg, s) && Coupled(s, h) && Guard(cfg, s, Turn(r, to)) && Fits(cfg, s, h)
      && CodeGuard(cfg, s, h, Turn(r, to))
    ensures Agrees(cfg, s, h, Turn(r, to))
  {
    hide RingInv, LinksInv, HomeInv, WindowInv, BatchInv, BufInv, DataInv, PlacedInv, WireInv, DeliveredInv, OrderInv,
         StageInv, SleepInv, ZoneInv, ConfigOk, SlotsPresent, RingsOnRing, LastOf, Last;
    StageOf(cfg, s, r);
    EmptyIs();
    assert HeadOk(s, h, Local(r));
    var s', h' := Apply(cfg, s, Turn(r, to)), CodeHeads(cfg, s, h, Turn(r, to));
    forall p ensures HeadOk(s', h', p) { assert HeadOk(s, h, p); }
  }

  lemma SortAgrees(cfg: Config, s: State, h: Heads, r: nat)
    requires Inv(cfg, s) && Coupled(s, h) && Guard(cfg, s, SortOne(r)) && Fits(cfg, s, h)
      && CodeGuard(cfg, s, h, SortOne(r))
    ensures Agrees(cfg, s, h, SortOne(r))
  {
    hide Inv, ConfigOk, SlotsPresent, RingsOnRing, PktData, LinkTail, Appended, LinkAfter, Is, LastOf;
    assert HeadOk(s, h, Local(r));
    var l := On(s.lists, Local(r))[0];
    var w := SortTo(cfg, s, r, l);
    assert HeadOk(s, h, w);
    LinkTailIs(s.next - {l}, Of(h, w), On(s.lists, w), l);
    NextInList(cfg, s, Local(r));
    var s', h' := Apply(cfg, s, SortOne(r)), CodeHeads(cfg, s, h, SortOne(r));
    forall p ensures HeadOk(s', h', p) { assert HeadOk(s, h, p); }
  }

  /** The link of a list's first packet leads to its second. */
  lemma NextInList(cfg: Config, s: State, p: Place)
    requires Inv(cfg, s) && On(s.lists, p) != []
    ensures Find(s.next, On(s.lists, p)[0]) == First(On(s.lists, p)[1..])
  {
    hide RingInv, LinksInv, HomeInv, WindowInv, BatchInv, BufInv, DataInv, PlacedInv, WireInv, DeliveredInv, OrderInv,
         StageInv, SleepInv, ZoneInv, WellFormed;
    UnlinkKeepsLinks(s.next, s.lists, s.place, p);
  }

  lemma DeliverAgrees(cfg: Config, s: State, h: Heads, r: nat, k: nat)
    requires Inv(cfg, s) && Coupled(s, h) && Guard(cfg, s, Deliver(r, k)) && Safe(cfg, s, Deliver(r, k))
    requires Fits(cfg, s, h) && CodeGuard(cfg, s, h, Deliver(r, k))
    ensures Agrees(cfg, s, h, Deliver(r, k))
  {
    hide Inv, SlotsPresent, RingsOnRing, RewriteAll, Relabel, Is, First, LastOf, LinkTail, LinkAfter, Spliced, Follow;
    var w, q := Work(r, k), Queue(cfg.consumers[r][k].queue);
    assert HeadOk(s, h, w) && HeadOk(s, h, q);
    SplicedIs(Of(h, q), On(s.lists, q), Of(h, w), On(s.lists, w));
    DeliverLinks(cfg, s, h, r, k);
    EmptyIs();
    var s', h' := Apply(cfg, s, Deliver(r, k)), CodeHeads(cfg, s, h, Deliver(r, k));
    forall p ensures HeadOk(s', h', p) { assert HeadOk(s, h, p); }
  }

  lemma EmptyIs()
    ensures Is(EMPTY, [])
  {}

  /** The consumer's loop meets the packets of its list, and the splice links the first. */
  lemma DeliverLinks(cfg: Config, s: State, h: Heads, r: nat, k: nat)
    requires Inv(cfg, s) && Coupled(s, h) && r < |cfg.consumers| && k < |cfg.consumers[r]|
      && On(s.lists, Work(r, k)) != []
    ensures var w, q := Work(r, k), Queue(cfg.consumers[r][k].queue); var ls := On(s.lists, w);
      && LinkTail(s.next, Of(h, q), Of(h, w).head) == LinkAfter(s.next, On(s.lists, q), ls[0])
      && Follow(s.next, Of(h, w).head, if Of(h, w).len < 0 then 0 else Of(h, w).len) == ls
  {
    hide RingInv, LinksInv, HomeInv, WindowInv, BatchInv, BufInv, DataInv, PlacedInv, WireInv, DeliveredInv, OrderInv,
         StageInv, SleepInv, ZoneInv, ConfigOk, SlotsPresent, RingsOnRing, LinkTail, LinkAfter, Follow;
    var w, q := Work(r, k), Queue(cfg.consumers[r][k].queue);
    assert HeadOk(s, h, w) && HeadOk(s, h, q);
    LinkTailIs(s.next, Of(h, q), On(s.lists, q), On(s.lists, w)[0]);
    Follows(s, w);
  }

  lemma Follows(s: State, p: Place)
    requires LinksInv(s.next, s.lists, s.place)
    ensures Follow(s.next, First(On(s.lists, p)), |On(s.lists, p)|) == On(s.lists, p)
  {
    assert ListOk(s.next, s.place, p, On(s.lists, p));
    FollowIs(s.next, s.place, p, On(s.lists, p));
  }

  lemma TakeAgrees(cfg: Config, s: State, h: Heads, t: nat)
    requires Inv(cfg, s) && Coupled(s, h) && Guard(cfg, s, Take(t)) && Fits(cfg, s, h) && CodeGuard(cfg, s, h, Take(t))
    ensures Agrees(cfg, s, h, Take(t))
  {
    hide RingInv, LinksInv, HomeInv, WindowInv, BatchInv, BufInv, DataInv, PlacedInv, WireInv, DeliveredInv, OrderInv,
         StageInv, SleepInv, ZoneInv, ConfigOk, SlotsPresent, Relabel;
    assert HeadOk(s, h, Held(t)) && HeadOk(s, h, Queue(t));
    var s', h' := Apply(cfg, s, Take(t)), CodeHeads(cfg, s, h, Take(t));
    forall p ensures HeadOk(s', h', p) { assert HeadOk(s, h, p); }
  }

  lemma GatherAgrees(cfg: Config, s: State, h: Heads, t: nat)
    requires Inv(cfg, s) && Coupled(s, h) && Guard(cfg, s, GatherOne(t)) && Safe(cfg, s, GatherOne(t))
    requires Fits(cfg, s, h) && CodeGuard(cfg, s, h, GatherOne(t))
    ensures Agrees(cfg, s, h, GatherOne(t))
  {
    hide RingInv, LinksInv, HomeInv, WindowInv, BatchInv, BufInv, DataInv, PlacedInv, WireInv, DeliveredInv, OrderInv,
         StageInv, SleepInv, ZoneInv, ConfigOk, SlotsPresent, RingsOnRing, WireOk, LinkTail, LinkAfter, Appended, Is,
         LastOf, Last;
    BatchOf(cfg, s, t);
    GatheredIs(cfg, s, h, t);
    var s', h' := Apply(cfg, s, GatherOne(t)), CodeHeads(cfg, s, h, GatherOne(t));
    forall p ensures HeadOk(s', h', p) { assert HeadOk(s, h, p); }
  }

  /** The header and the link of the transmit packet at hand. */
  lemma GatheredIs(cfg: Config, s: State, h: Heads, t: nat)
    requires Fits(cfg, s, h) && Coupled(s, h) && Guard(cfg, s, GatherOne(t)) && Safe(cfg, s, GatherOne(t))
    requires BatchOk(cfg.txSlots[t], t, s.tx[t].cur, s.phase[t], s.heldLen[t], On(s.lists, Held(t)),
      On(s.lists, Gathered(t)))
    ensures GatherLoc(cfg, s, t).Some?
    ensures var l, ls := GatherLoc(cfg, s, t).value, On(s.lists, Gathered(t));
      && Is(GatheredTo(cfg, s, h, t), ls + [l])
      && LinkAfter(s.next, ls, l) == if s.phase[t].g == 0 then s.next else LinkTail(s.next, Of(h, Gathered(t)), Some(l))
    ensures GatheredTo(cfg, s, h, t).head == First(On(s.lists, Gathered(t)) + [GatherLoc(cfg, s, t).value])
    ensures Of(h, Held(t)).head == First(On(s.lists, Held(t)))
    ensures Of(h, Held(t)).tail == LastOf(On(s.lists, Held(t)))
  {
    hide ConfigOk, SlotsPresent, RingsOnRing, LinkTail, Appended;
    assert HeadOk(s, h, Held(t)) && HeadOk(s, h, Gathered(t));
    var l := GatherLoc(cfg, s, t).value;
    if s.phase[t].g > 0 { LinkTailIs(s.next, Of(h, Gathered(t)), On(s.lists, Gathered(t)), l); }
  }

  lemma MoveAgrees(cfg: Config, s: State, h: Heads, t: nat)
    requires Inv(cfg, s) && Coupled(s, h) && Guard(cfg, s, MoveOne(t)) && Safe(cfg, s, MoveOne(t)) && Fits(cfg, s, h)
    ensures CodeGuard(cfg, s, h, MoveOne(t)) && Agrees(cfg, s, h, MoveOne(t))
  {
    hide RingInv, LinksInv, HomeInv, WindowInv, BatchInv, BufInv, DataInv, PlacedInv, WireInv, DeliveredInv, OrderInv,
         StageInv, SleepInv, ZoneInv, ConfigOk, SlotsPresent, SlotData, PktData, Region, CopyInto, Rewritten,
         RingsOnRing, Is, PlaceOk;
    MovePkts(cfg, s, t);
    assert HeadOk(s, h, Held(t));
    var s' := Apply(cfg, s, MoveOne(t));
    forall p ensures HeadOk(s', h, p) { assert HeadOk(s, h, p); }
  }

  lemma FinishAgrees(cfg: Config, s: State, h: Heads, t: nat)
    requires Inv(cfg, s) && Coupled(s, h) && Guard(cfg, s, Finish(t)) && Safe(cfg, s, Finish(t)) && Fits(cfg, s, h)
    ensures CodeGuard(cfg, s, h, Finish(t)) && Agrees(cfg, s, h, Finish(t))
  {
    hide RingInv, LinksInv, HomeInv, WindowInv, BatchInv, BufInv, DataInv, PlacedInv, WireInv, DeliveredInv, OrderInv,
         StageInv, SleepInv, ZoneInv, ConfigOk, SlotsPresent, WireOk, SlotRun;
    BatchOf(cfg, s, t);
    assert HeadOk(s, h, Held(t));
    var s', h' := Apply(cfg, s, Finish(t)), CodeHeads(cfg, s, h, Finish(t));
    forall p ensures HeadOk(s', h', p) { assert HeadOk(s, h, p); }
  }

  /** Steps that touch no list and no stage or phase. */
  lemma QuietAgrees(cfg: Config, s: State, h: Heads, step: Step)
    requires Inv(cfg, s) && Coupled(s, h) && Guard(cfg, s, step) && Safe(cfg, s, step) && Fits(cfg, s, h)
    requires CodeGuard(cfg, s, h, step) && (step.SpinScan? || KernelStep(step))
    ensures Agrees(cfg, s, h, step)
  {
    hide Inv, ConfigOk, SlotsPresent, RingsOnRing, SlotData, KernelOwns, HeadOk;
    StillCoupled(s, Apply(cfg, s, step), h);
  }

  lemma StillCoupled(s: State, s': State, h: Heads)
    requires Coupled(s, h)
    requires s'.stage == s.stage && s'.phase == s.phase && s'.heldLen == s.heldLen && s'.lists == s.lists
    ensures Coupled(s', h)
  {
    forall p ensures HeadOk(s', h, p) { assert HeadOk(s, h, p); }
  }

  /** Steps that only change a stage or a phase. */
  lemma PhaseAgrees(cfg: Config, s: State, h: Heads, step: Step)
    requires Inv(cfg, s) && Coupled(s, h) && Guard(cfg, s, step) && Safe(cfg, s, step) && Fits(cfg, s, h)
    requires CodeGuard(cfg, s, h, step)
    requires step.SpinPublish? || step.Size? || step.Sleep? || step.Wake? || step.Return? || step.StartBatch?
    ensures Agrees(cfg, s, h, step)
  {
    hide Inv, ConfigOk, SlotsPresent, RingsOnRing, Is;
    if step.StartBatch? { assert HeadOk(s, h, Held(step.t)); }
    var s' := Apply(cfg, s, step);
    forall p ensures HeadOk(s', h, p) { assert HeadOk(s, h, p); }
  }

  /** Every step the list-based system takes, the code takes, and to the same effect; and it
      takes no other. */
  lemma StepsAgree(cfg: Config, s: State, h: Heads, step: Step)
    requires Inv(cfg, s) && Coupled(s, h)
    ensures Fits(cfg, s, h) && (CodeGuard(cfg, s, h, step) <==> Guard(cfg, s, step))
    ensures Guard(cfg, s, step) ==> Safe(cfg, s, step) && Agrees(cfg, s, h, step)
  {
    GuardsAgree(cfg, s, h, step);
    hide Inv, Guard, Safe, CodeGuard, Agrees, Coupled, Fits, WellFormed;
    if Guard(cfg, s, step) {
      StepKeeps(cfg, s, step);
      match step {
        case Dequeue(r) => DequeueAgrees(cfg, s, h, r);
        case SortOne(r) => SortAgrees(cfg, s, h, r);
        case Deliver(r, k) => DeliverAgrees(cfg, s, h, r, k);
        case Turn(r, to) => TurnAgrees(cfg, s, h, r, to);
        case Take(t) => TakeAgrees(cfg, s, h, t);
        case GatherOne(t) => GatherAgrees(cfg, s, h, t);
        case MoveOne(t) => MoveAgrees(cfg, s, h, t);
        case Finish(t) => FinishAgrees(cfg, s, h, t);
        case SpinScan(_) => QuietAgrees(cfg, s, h, step);
        case SpinPublish(_) => PhaseAgrees(cfg, s, h, step);
        case Size(_) => PhaseAgrees(cfg, s, h, step);
        case Sleep(_) => PhaseAgrees(cfg, s, h, step);
        case Wake(_) => PhaseAgrees(cfg, s, h, step);
        case Return(_) => PhaseAgrees(cfg, s, h, step);
        case StartBatch(_) => PhaseAgrees(cfg, s, h, step);
        case KernelWrite(_, _, _) => QuietAgrees(cfg, s, h, step);
        case KernelRx(_) => QuietAgrees(cfg, s, h, step);
        case KernelTx(_) => QuietAgrees(cfg, s, h, step);
      }
    }
  }

  // ---------- over whole runs ----------

  /** The step as the code takes it: what a list decided comes from links and headers. */
  function CodeApply(cfg: Config, s: State, h: Heads, step: Step): State
    requires Fits(cfg, s, h) && CodeGuard(cfg, s, h, step) && Guard(cfg, s, step) && Safe(cfg, s, step)
  {
    var s' := Apply(cfg, s, step);
    s'.(next := CodeNext(cfg, s, h, step),
        phase := CodePhase(cfg, s, h, step),
        heldLen := Lens(CodeHeads(cfg, s, h, step), |s.heldLen|),
        mem := if step.Deliver? && step.k < |cfg.consumers[step.r]| then CodeMem(cfg, s, h, step.r, step.k) else s'.mem)
  }

  function Lens(h: Heads, n: nat): seq<int> {
    seq(n, t requires 0 <= t < n => Of(h, Held(t)).len)
  }

  lemma ApplyAgrees(cfg: Config, s: State, h: Heads, step: Step)
    requires Inv(cfg, s) && Coupled(s, h) && Guard(cfg, s, step)
    ensures Fits(cfg, s, h) && CodeGuard(cfg, s, h, step) && Safe(cfg, s, step)
    ensures CodeApply(cfg, s, h, step) == Apply(cfg, s, step)
    ensures Coupled(Apply(cfg, s, step), CodeHeads(cfg, s, h, step))
  {
    hide Inv, Guard, Safe, Apply, CodeGuard, CodeNext, CodeHeads, CodePhase, CodeMem, HeadOk;
    StepsAgree(cfg, s, h, step);
    LensAre(Apply(cfg, s, step), CodeHeads(cfg, s, h, step));
    LensKept(cfg, s, step);
  }

  lemma LensAre(s: State, h: Heads)
    requires Coupled(s, h)
    ensures Lens(h, |s.heldLen|) == s.heldLen
  {
    forall t | 0 <= t < |s.heldLen| ensures Of(h, Held(t)).len == s.heldLen[t] {
      assert HeadOk(s, h, Held(t));
    }
  }

  lemma LensKept(cfg: Config, s: State, step: Step)
    requires WellFormed(cfg, s) && Guard(cfg, s, step) && Safe(cfg, s, step)
    ensures |Apply(cfg, s, step).heldLen| == |s.heldLen|
    ensures step.Deliver? ==> step.r < |cfg.consumers| && step.k < |cfg.consumers[step.r]|
  {
    hide SlotsPresent, RingsOnRing, SlotData, SlotRun, PktData, Turns, KernelOwns;
  }

  lemma CoupledFits(cfg: Config, s: State, h: Heads)
    requires Inv(cfg, s) && Coupled(s, h)
    ensures WellFormed(cfg, s) && Fits(cfg, s, h)
  {}

  /** Where the code is: the state and its headers. */
  datatype Conf = Conf(s: State, h: Heads)

  /** One step of the code, taken when its own guard allows it.  The successor is the code's
      wherever the step is defined. */
  ghost predicate CodeStep(cfg: Config, c: Conf, step: Step, c': Conf) {
    && Fits(cfg, c.s, c.h) && CodeGuard(cfg, c.s, c.h, step)
    && (Guard(cfg, c.s, step) && Safe(cfg, c.s, step) ==>
         c' == Conf(CodeApply(cfg, c.s, c.h, step), CodeHeads(cfg, c.s, c.h, step)))
  }

  /** A run of the code, state by state. */
  ghost predicate CodeTrace(cfg: Config, trace: seq<Conf>, steps: seq<Step>) {
    && |trace| == |steps| + 1
    && forall i :: 0 <= i < |steps| ==> CodeStep(cfg, trace[i], steps[i], trace[i + 1])
  }

  /** From where the headers describe the lists, a step the code's guard allows is a step of
      the list-based system, meets its assertions, and has the same outcome. */
  lemma CodeStepIsStep(cfg: Config, c: Conf, step: Step, c': Conf)
    requires Inv(cfg, c.s) && Coupled(c.s, c.h) && CodeStep(cfg, c, step, c')
    ensures WellFormed(cfg, c.s) && Guard(cfg, c.s, step) && Safe(cfg, c.s, step)
    ensures c'.s == Apply(cfg, c.s, step) && Inv(cfg, c'.s) && Coupled(c'.s, c'.h)
  {
    hide Inv, Guard, Safe, Apply, CodeGuard, CodeApply, CodeHeads, Coupled, Fits;
    CoupledFits(cfg, c.s, c.h);
    StepsAgree(cfg, c.s, c.h, step);
    ApplyAgrees(cfg, c.s, c.h, step);
    StepKeeps(cfg, c.s, step);
  }

  /** Every run of the code is a run of the list-based system through the same states. */
  lemma {:induction false} CodeRunsAreRuns(cfg: Config, trace: seq<Conf>, steps: seq<Step>)
    requires CodeTrace(cfg, trace, steps) && Inv(cfg, trace[0].s) && Coupled(trace[0].s, trace[0].h)
    ensures Run(cfg, trace[0].s, steps, trace[|steps|].s)
    ensures Inv(cfg, trace[|steps|].s) && Coupled(trace[|steps|].s, trace[|steps|].h)
    decreases |steps|
  {
    hide Inv, WellFormed, Guard, Safe, Apply, CodeStep, Coupled;
    if steps != [] {
      assert CodeStep(cfg, trace[0], steps[0], trace[1]);
      CodeStepIsStep(cfg, trace[0], steps[0], trace[1]);
      var rest := trace[1..];
      forall i | 0 <= i < |steps[1..]| ensures CodeStep(cfg, rest[i], steps[1..][i], rest[i + 1]) {
        assert CodeStep(cfg, trace[i + 1], steps[i + 1], trace[i + 2]);
      }
      CodeRunsAreRuns(cfg, rest, steps[1..]);
    }
  }

  /** And every run of the list-based system is one of the code. */
  lemma {:induction false} RunsAreCodeRuns(cfg: Config, c: Conf, steps: seq<Step>, s': State) returns (trace: seq<Conf>)
    requires Inv(cfg, c.s) && Coupled(c.s, c.h) && Run(cfg, c.s, steps, s')
    ensures CodeTrace(cfg, trace, steps) && trace[0] == c && trace[|steps|].s == s'
    decreases |steps|
  {
    hide Inv, WellFormed, Guard, Safe, Apply, CodeGuard, CodeApply, CodeHeads, Coupled, Fits;
    if steps == [] {
      trace := [c];
    } else {
      ApplyAgrees(cfg, c.s, c.h, steps[0]);
      StepKeeps(cfg, c.s, steps[0]);
      var c1 := Conf(CodeApply(cfg, c.s, c.h, steps[0]), CodeHeads(cfg, c.s, c.h, steps[0]));
      assert CodeStep(cfg, c, steps[0], c1);
      var rest := RunsAreCodeRuns(cfg, c1, steps[1..], s');
      trace := [c] + rest;
      Prepended(cfg, c, steps, rest);
    }
  }

  lemma Prepended(cfg: Config, c: Conf, steps: seq<Step>, rest: seq<Conf>)
    requires steps != [] && CodeTrace(cfg, rest, steps[1..]) && CodeStep(cfg, c, steps[0], rest[0])
    ensures CodeTrace(cfg, [c] + rest, steps)
  {
    hide CodeStep;
    var trace := [c] + rest;
    forall i | 0 <= i < |steps| ensures CodeStep(cfg, trace[i], steps[i], trace[i + 1]) {
      if i > 0 { assert CodeStep(cfg, rest[i - 1], steps[1..][i - 1], rest[i]); }
    }
  }

  /** The headers the constructors leave, all empty, describe the lists at the start. */
  lemma StartCoupled(cfg: Config, rx: seq<Ring>, tx: seq<Ring>,
                     bufIdx: map<Loc, nat>, slotLen: map<Loc, nat>, mem: map<Buf, Bytes>)
    requires NetmapReady(cfg, rx, tx, bufIdx, slotLen, mem)
    ensures Coupled(Start(cfg, rx, tx, bufIdx, slotLen, mem), Heads(map[], seq(|rx|, _ => None)))
  {
    hide NetmapReady, ConfigOk;
    var s, h := Start(cfg, rx, tx, bufIdx, slotLen, mem), Heads(map[], seq(|rx|, _ => None));
    forall p ensures HeadOk(s, h, p) {}
  }

  /** Where the constructors leave the code: zones filled, every header empty. */
  ghost predicate CodeStart(cfg: Config, c: Conf) {
    exists rx, tx, bufIdx, slotLen, mem ::
      && NetmapReady(cfg, rx, tx, bufIdx, slotLen, mem)
      && c == Conf(Start(cfg, rx, tx, bufIdx, slotLen, mem), Heads(map[], seq(|rx|, _ => None)))
  }

  ghost predicate CodeReachable(cfg: Config, s: State) {
    exists trace: seq<Conf>, steps ::
      CodeTrace(cfg, trace, steps) && CodeStart(cfg, trace[0]) && trace[|steps|].s == s
  }

  /** The states the code comes to, from the constructors' and by its own guards, are exactly
      the reachable ones: what the theorems say of every reachable state holds of the code. */
  lemma CodeReaches(cfg: Config, s: State)
    ensures CodeReachable(cfg, s) <==> Reachable(cfg, s)
  {
    if CodeReachable(cfg, s) { CodeStatesReachable(cfg, s); }
    if Reachable(cfg, s) { ReachableByCode(cfg, s); }
  }

  lemma CodeStatesReachable(cfg: Config, s: State)
    requires CodeReachable(cfg, s)
    ensures Reachable(cfg, s)
  {
    hide NetmapReady, Run, CodeStep, Coupled, Inv;
    var trace: seq<Conf>, steps :| CodeTrace(cfg, trace, steps) && CodeStart(cfg, trace[0]) && trace[|steps|].s == s;
    var rx, tx, bufIdx, slotLen, mem :|
      && NetmapReady(cfg, rx, tx, bufIdx, slotLen, mem)
      && trace[0] == Conf(Start(cfg, rx, tx, bufIdx, slotLen, mem), Heads(map[], seq(|rx|, _ => None)));
    StartInv(cfg, rx, tx, bufIdx, slotLen, mem);
    StartCoupled(cfg, rx, tx, bufIdx, slotLen, mem);
    CodeRunsAreRuns(cfg, trace, steps);
    assert Run(cfg, Start(cfg, rx, tx, bufIdx, slotLen, mem), steps, s);
  }

  lemma ReachableByCode(cfg: Config, s: State)
    requires Reachable(cfg, s)
    ensures CodeReachable(cfg, s)
  {
    hide NetmapReady, Run, Coupled, Inv;
    var rx, tx, bufIdx, slotLen, mem, steps :|
      NetmapReady(cfg, rx, tx, bufIdx, slotLen, mem) && Run(cfg, Start(cfg, rx, tx, bufIdx, slotLen, mem), steps, s);
    StartInv(cfg, rx, tx, bufIdx, slotLen, mem);
    StartCoupled(cfg, rx, tx, bufIdx, slotLen, mem);
    var c := Conf(Start(cfg, rx, tx, bufIdx, slotLen, mem), Heads(map[], seq(|rx|, _ => None)));
    var trace := RunsAreCodeRuns(cfg, c, steps, s);
    assert CodeStart(cfg, trace[0]);
  }
}
