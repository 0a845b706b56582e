/** How a worker thread is stopped: the destructor posts SIGTERM on the control queue, pumps
    the queue the worker may be sleeping on, joins, frees the signal and drains. */
module Shutdown {
  import opened QueueSpec

  datatype Kind = Rx | Tx

  /** Where the worker stands: at the top of its loop, asleep in get_items, woken but not yet
      back inside, past the get and before its control check, or gone. */
  datatype Pc = Top | Waiting | Woken | Busy | Exited

  /** How far the destructor has come. */
  datatype Dtor = Before | Posted | Pumped | Joined | Freed | Done

  /** A queued signal; `own` marks the SIGTERM object allocated with the thread. */
  datatype Signal = Signal(num: nat, own: bool)

  const SIGTERM: nat := 15
  const OWN := Signal(SIGTERM, true)

  datatype Sys = Sys(
    kind: Kind,
    pc: Pc,
    slots: nat,          // free tx slots seen at the top of the cycle
    held: seq<int>,      // pkts_out
    q: QState<int>,      // the out queue, which a tx thread also names as its notify queue
    ctrl: QState<Signal>,
    dtor: Dtor,
    freed: seq<Signal>)

  datatype Step =
    | Produce(xs: seq<int>)
    | Cycle(slots: nat)
    | Recheck
    | Check
    | Spurious
    | Post
    | Pump
    | Join
    | Free
    | Drain

  /** The producers are joined before the first tx thread is stopped, so nothing arrives once
      the destructor runs. */
  predicate Enabled(s: Sys, step: Step) {
    match step
    case Produce(xs) => s.kind == Tx && s.dtor == Before && xs != []
    case Cycle(_) => s.pc == Top
    case Recheck => s.pc == Woken && s.q.nwait > 0
    case Check => s.pc == Busy
    case Spurious => s.pc == Waiting
    case Post => s.dtor == Before
    case Pump => s.dtor == Posted
    case Join => s.dtor == Pumped && s.pc == Exited
    case Free => s.dtor == Joined
    case Drain => s.dtor == Freed
  }

  /** The worker's place after a signal on its queue. */
  function Notified(s: Sys): Pc {
    if Signals(s.q) && s.pc == Waiting then Woken else s.pc
  }

  function AfterGet(s: Sys, q: QState<int>, got: Got<int>): Sys {
    match got
    case Blocked => s.(q := q, pc := Waiting)
    case Nothing => s.(q := q, pc := Busy)
    case Taken(items) => s.(q := q, held := s.held + items, pc := Busy)
  }

  /** check_ctrl: a non-blocking get; every signal but the thread's own is freed at once. */
  function CheckCtrl(s: Sys): (Sys, Got<Signal>) {
    var (ctrl, got) := Enter(s.ctrl, false, false);
    (s.(ctrl := ctrl,
        freed := if got.Taken? && got.items != [] && !got.items[0].own then s.freed + got.items else s.freed),
     got)
  }

  predicate IsSigterm(got: Got<Signal>) {
    got.Taken? && got.items != [] && got.items[0].num == SIGTERM
  }

  function Sent(s: Sys): (n: nat)
    ensures n <= |s.held|
  {
    if s.slots < |s.held| then s.slots else |s.held|
  }

  function Apply(s: Sys, step: Step): Sys
    requires Enabled(s, step)
  {
    match step
    case Produce(xs) => s.(q := Put(s.q, xs), pc := Notified(s))
    case Cycle(n) =>
      var s1 := s.(slots := n);
      if s.kind == Rx || n == 0 || s.held != [] then s1.(pc := Busy)
      else
        var (q, got) := Enter(s.q, true, true);
        AfterGet(s1, q, got)
    case Recheck =>
      var (q, got) := Wake(s.q, true, true);
      AfterGet(s, q, got)
    case Check =>
      var (s1, got) := CheckCtrl(s);
      s1.(held := s.held[Sent(s)..], pc := if IsSigterm(got) then Exited else Top)
    case Spurious => s.(pc := Woken)
    case Post => s.(ctrl := if Rejects(s.ctrl, 1) then s.ctrl else Put(s.ctrl, [OWN]), dtor := Posted)
    case Pump => s.(pc := if s.kind == Tx then Notified(s) else s.pc, dtor := Pumped)
    case Join => s.(dtor := Joined)
    case Free => s.(freed := s.freed + [OWN], dtor := Freed)
    case Drain =>
      var (s1, got) := CheckCtrl(s);
      if got.Taken? then s1 else s1.(dtor := Done)
  }

  ghost predicate Run(s: Sys, steps: seq<Step>, t: Sys)
    decreases |steps|
  {
    if steps == [] then t == s
    else Enabled(s, steps[0]) && Run(Apply(s, steps[0]), steps[1..], t)
  }

  /** As the constructors leave it. */
  predicate Start(s: Sys) {
    && s.pc == Top && s.held == [] && s.q == QState([], 0) && s.ctrl == QState([], 0)
    && s.dtor == Before && s.freed == []
  }

  ghost predicate Reachable(s: Sys) {
    exists s0, steps :: Start(s0) && Run(s0, steps, s)
  }

  predicate Late(d: Dtor) {
    d == Joined || d == Freed || d == Done
  }

  /** The handshake's invariant. */
  predicate Inv(s: Sys) {
    && s.q.nwait == (if s.pc == Waiting || s.pc == Woken then 1 else 0)
    && s.ctrl == QState(if s.dtor != Before && s.pc != Exited then [OWN] else [], 0)
    && (s.pc == Exited ==> s.dtor != Before)
    && (Late(s.dtor) ==> s.pc == Exited)
    && s.freed == (if s.dtor == Freed || s.dtor == Done then [OWN] else [])
    && (s.kind == Rx ==> s.pc != Waiting && s.pc != Woken)
    && (s.pc == Waiting ==> s.q.items == [])
    && (s.pc == Waiting || s.pc == Woken ==> s.held == [])
  }

  lemma StepKeeps(s: Sys, step: Step)
    requires Inv(s) && Enabled(s, step)
    ensures Inv(Apply(s, step))
  {}

  lemma {:induction false} RunKeeps(s: Sys, steps: seq<Step>, t: Sys)
    requires Inv(s) && Run(s, steps, t)
    ensures Inv(t)
    decreases |steps|
  {
    if steps != [] {
      StepKeeps(s, steps[0]);
      RunKeeps(Apply(s, steps[0]), steps[1..], t);
    }
  }

  lemma ReachableInv(s: Sys)
    requires Reachable(s)
    ensures Inv(s)
  {
    var s0, steps :| Start(s0) && Run(s0, steps, s);
    RunKeeps(s0, steps, s);
  }

  // ---------- what every run guarantees ----------

  /** The destructor's post is never rejected; from then on SIGTERM stays queued until the
      worker's next control check, which takes it and leaves the loop. */
  lemma CheckDelivers(s: Sys)
    requires Reachable(s)
    ensures s.dtor == Before ==> !Rejects(s.ctrl, 1)
    ensures s.dtor != Before && s.pc == Busy ==> Apply(s, Check).pc == Exited && Apply(s, Check).ctrl.items == []
    ensures s.dtor == Before && s.pc == Busy ==> Apply(s, Check).pc == Top
  {
    ReachableInv(s);
  }

  /** The signal object is freed exactly once, after the worker has gone, and the drain that
      follows finds nothing that could touch it. */
  lemma FreedOnce(s: Sys)
    requires Reachable(s)
    ensures s.dtor == Done ==> s.freed == [OWN]
    ensures s.dtor == Joined ==> s.freed == [] && s.pc == Exited
    ensures s.dtor == Freed ==> Apply(s, Drain).dtor == Done && CheckCtrl(s).1 == Nothing
    ensures s.pc == Busy ==> OWN !in s.freed
  {
    ReachableInv(s);
  }

  /** A tx thread asleep when pump runs is woken, comes back with an empty list, and its
      control check ends it: three steps. */
  lemma PumpReachesSleeper(s: Sys)
    requires Reachable(s) && s.dtor == Posted && s.pc == Waiting
    ensures var t := Apply(s, Pump);
            && t.pc == Woken
            && Enabled(t, Recheck)
            && Apply(t, Recheck).pc == Busy && Apply(t, Recheck).held == []
            && Apply(Apply(t, Recheck), Check).pc == Exited
  {
    ReachableInv(s);
  }

  /** The cycle that ends with a control check sends as many of the held packets as there are
      free slots, oldest first, and keeps the others. */
  lemma CheckSends(s: Sys)
    requires s.pc == Busy
    ensures var held := Apply(s, Check).held;
      && |held| == (if |s.held| > s.slots then |s.held| - s.slots else 0)
      && s.held == s.held[..|s.held| - |held|] + held
  {}

  /** A check takes the oldest signal; it frees any but the thread's own, which is left to the
      destructor. */
  lemma CheckFrees(s: Sys, sig: Signal, rest: seq<Signal>)
    requires s.ctrl.items == [sig] + rest
    ensures var (t, got) := CheckCtrl(s);
      && got == Taken([sig]) && t.ctrl.items == rest && t.freed == (if sig.own then s.freed else s.freed + [sig])
  {}

  /** Packets the step sends, and packets it brings. */
  function SentBy(s: Sys, step: Step): seq<int> {
    if step.Check? then (if s.slots < |s.held| then s.held[..s.slots] else s.held) else []
  }

  function AllSent(s: Sys, steps: seq<Step>): seq<int>
    decreases |steps|
  {
    if steps == [] || !Enabled(s, steps[0]) then []
    else SentBy(s, steps[0]) + AllSent(Apply(s, steps[0]), steps[1..])
  }

  function AllProduced(steps: seq<Step>): seq<int>
    decreases |steps|
  {
    if steps == [] then []
    else (if steps[0].Produce? then steps[0].xs else []) + AllProduced(steps[1..])
  }

  /** Stopping a worker loses no packet on its way: whatever was produced has been sent, is held
      or is still queued, in order. */
  lemma {:induction false} RunConserves(s: Sys, steps: seq<Step>, t: Sys)
    requires Inv(s) && Run(s, steps, t)
    ensures AllSent(s, steps) + t.held + t.q.items == s.held + s.q.items + AllProduced(steps)
    decreases |steps|
  {
    if steps != [] {
      var s1 := Apply(s, steps[0]);
      StepKeeps(s, steps[0]);
      RunConserves(s1, steps[1..], t);
      StepConserves(s, steps[0]);
      var made := if steps[0].Produce? then steps[0].xs else [];
      Regroup(SentBy(s, steps[0]), AllSent(s1, steps[1..]), t.held + t.q.items, s.held + s.q.items, made,
              AllProduced(steps[1..]), s1.held + s1.q.items);
    }
  }

  lemma StepConserves(s: Sys, step: Step)
    requires Inv(s) && Enabled(s, step)
    ensures SentBy(s, step) + (Apply(s, step).held + Apply(s, step).q.items)
         == (s.held + s.q.items) + (if step.Produce? then step.xs else [])
  {
    hide AfterGet, CheckCtrl, Inv, Enter;
    match step {
      case Produce(xs) => assert s.held + (s.q.items + xs) == (s.held + s.q.items) + xs;
      case Cycle(n) => GetConserves(s.(slots := n), s.q);
      case Recheck => GetConserves(s, s.q.(nwait := s.q.nwait - 1));
      case Check =>
        CheckLeaves(s);
        var k := Sent(s);
        assert s.held[..k] + (s.held[k..] + s.q.items) == s.held + s.q.items;
      case Drain => CheckLeaves(s);
      case _ =>
    }
  }

  /** A get of the worker moves the whole queue behind what it holds, or nothing. */
  lemma GetConserves(s: Sys, q0: QState<int>)
    ensures var (q, got) := Enter(q0, true, true); var t := AfterGet(s, q, got);
      t.held + t.q.items == s.held + q0.items
    ensures q0.items == [] ==> var t := AfterGet(s, q0, Nothing); t.held + t.q.items == s.held + q0.items
  {}

  lemma CheckLeaves(s: Sys)
    ensures CheckCtrl(s).0.held == s.held && CheckCtrl(s).0.q == s.q
  {}

  // ---------- when the handshake completes ----------

  /** Between a failed control check and the next wait, with nothing to keep it from waiting. */
  predicate Gap(s: Sys) {
    s.kind == Tx && s.pc == Top && s.held == [] && s.q.items == []
  }

  /** Unfinished, with nothing left to happen but a spurious wakeup. */
  ghost predicate Hung(s: Sys) {
    s.dtor != Done && forall step :: Enabled(s, step) ==> step == Spurious
  }

  /** The steps left: the worker's own, then the destructor's. */
  function Left(s: Sys): nat {
    (match s.pc
     case Exited => 0
     case Busy => 1
     case _ => 2) +
    (match s.dtor
     case Done => 0
     case Freed => 1
     case Joined => 2
     case _ => 3)
  }

  predicate Closing(s: Sys) {
    Inv(s) && (s.dtor == Pumped || Late(s.dtor)) && s.pc != Waiting && !Gap(s)
  }

  lemma ClosingStep(s: Sys, step: Step)
    requires Closing(s) && Enabled(s, step)
    ensures Closing(Apply(s, step)) && Left(Apply(s, step)) == Left(s) - 1
  {}

  lemma {:induction false} ClosingRun(s: Sys, steps: seq<Step>, t: Sys)
    requires Closing(s) && Run(s, steps, t)
    ensures Closing(t) && |steps| + Left(t) == Left(s)
    decreases |steps|
  {
    if steps != [] {
      ClosingStep(s, steps[0]);
      ClosingRun(Apply(s, steps[0]), steps[1..], t);
    }
  }

  lemma ClosingMoves(s: Sys)
    requires Closing(s)
    ensures !Hung(s)
  {
    var step :=
      if s.pc == Top then Cycle(0) else if s.pc == Woken then Recheck else if s.pc == Busy then Check
      else if s.dtor == Pumped then Join else if s.dtor == Joined then Free else Drain;
    assert s.dtor != Done ==> Enabled(s, step);
  }

  lemma PumpCloses(s: Sys)
    requires Inv(s) && s.dtor == Posted && !Gap(s)
    ensures Closing(Apply(s, Pump))
  {}

  /** Outside the gap every continuation of a pump is at most five steps long, and one that
      cannot be continued has finished: the worker gone, the signal freed. */
  lemma ShutdownCompletes(s: Sys, steps: seq<Step>, t: Sys)
    requires Reachable(s) && s.dtor == Posted && !Gap(s)
    requires Run(Apply(s, Pump), steps, t)
    ensures |steps| <= 5 && !Hung(t) && t.pc != Waiting
    ensures t.dtor == Done <==> |steps| == Left(Apply(s, Pump))
    ensures t.dtor == Done ==> t.pc == Exited && t.freed == [OWN]
  {
    ReachableInv(s);
    PumpCloses(s);
    ClosingRun(Apply(s, Pump), steps, t);
    ClosingMoves(t);
  }

  /** In the gap the next cycle falls asleep behind the pump, and nothing wakes it. */
  lemma GapHangs(s: Sys)
    requires Inv(s) && s.dtor == Posted && Gap(s)
    ensures exists t :: Run(Apply(s, Pump), [Cycle(1)], t) && Hung(t)
  {
    var p := Apply(s, Pump);
    var t := Apply(p, Cycle(1));
    assert Run(t, [], t);
    assert [Cycle(1)][1..] == [];
    assert Run(p, [Cycle(1)], t);
    assert t.pc == Waiting && t.dtor == Pumped;
  }

  /** The shutdown of a worker can hang if and only if the pump comes while a tx thread is in
      the gap.  An rx thread, whose poll times out, never hangs. */
  lemma HangsExactly(s: Sys)
    requires Reachable(s) && s.dtor == Posted
    ensures (exists steps, t :: Run(Apply(s, Pump), steps, t) && Hung(t)) <==> Gap(s)
  {
    ReachableInv(s);
    if Gap(s) {
      GapHangs(s);
    } else {
      forall steps, t | Run(Apply(s, Pump), steps, t) ensures !Hung(t) {
        ShutdownCompletes(s, steps, t);
      }
    }
  }

  /** The gap is reached by a real run: one idle cycle, then the post. */
  lemma GapIsReal(s0: Sys)
    requires Start(s0) && s0.kind == Tx
    ensures exists s :: Reachable(s) && s.dtor == Posted && Gap(s)
  {
    var steps := [Cycle(0), Check, Post];
    var s1 := Apply(s0, Cycle(0));
    var s2 := Apply(s1, Check);
    var s3 := Apply(s2, Post);
    assert Run(s3, [], s3);
    assert Run(s2, [Post], s3) by { assert [Post][1..] == []; }
    assert Run(s1, [Check, Post], s3) by { assert [Check, Post][1..] == [Post]; }
    assert Run(s0, steps, s3) by { assert steps[1..] == [Check, Post]; }
    assert Reachable(s3);
  }
}
