/** The condition-variable protocol of the work queue: any number of producers, any number of
    consumers, spurious wakeups. */
module Wakeup {
  import opened Octets
  import opened QueueSpec

  /** Where a consumer stands: outside the wait, waiting and not signalled, or woken but not
      yet back inside the critical section. */
  datatype Status = Outside | Asleep | Woken

  datatype Sys<T> = Sys(q: QState<T>, st: map<nat, Status>)

  /** The atomic steps.  `who` is the waiter that a signal wakes, if there is one. */
  datatype Step<T> =
    | PutItem(x: T, maxqlen: nat, who: Option<nat>)
    | PutItems(xs: seq<T>, who: Option<nat>)
    | Pump(who: Option<nat>)
    | StartGet(c: nat, waitok: bool)
    | Resume(c: nat, returnOnWake: bool)
    | Spurious(c: nat)

  predicate IsAsleep<T>(s: Sys<T>, c: nat) {
    c in s.st && s.st[c] == Asleep
  }

  predicate IsWoken<T>(s: Sys<T>, c: nat) {
    c in s.st && s.st[c] == Woken
  }

  /** pthread_cond_signal wakes one waiting thread if there is any; the code signals when
      nwait is positive. */
  ghost predicate SignalOk<T>(s: Sys<T>, who: Option<nat>) {
    match who
    case None => Signals(s.q) ==> forall c :: !IsAsleep(s, c)
    case Some(c) => Signals(s.q) && IsAsleep(s, c)
  }

  function Wake1(st: map<nat, Status>, who: Option<nat>): map<nat, Status> {
    match who
    case None => st
    case Some(c) => st[c := Woken]
  }

  ghost predicate Enabled<T>(s: Sys<T>, step: Step<T>) {
    match step
    case PutItem(_, _, who) => SignalOk(s, who)
    case PutItems(xs, who) => xs != [] && SignalOk(s, who)
    case Pump(who) => SignalOk(s, who)
    case StartGet(c, _) => c in s.st && s.st[c] == Outside
    case Resume(c, _) => IsWoken(s, c)
    case Spurious(c) => IsAsleep(s, c)
  }

  function AfterGet(got: Got<int>): Status {
    if got.Blocked? then Asleep else Outside
  }

  function Apply(s: Sys<int>, bulk: bool, step: Step<int>): Sys<int>
    requires step.Resume? ==> s.q.nwait > 0
  {
    match step
    case PutItem(x, maxqlen, who) =>
      Sys(if Rejects(s.q, maxqlen) then s.q else Put(s.q, [x]), Wake1(s.st, who))
    case PutItems(xs, who) => Sys(Put(s.q, xs), Wake1(s.st, who))
    case Pump(who) => Sys(s.q, Wake1(s.st, who))
    case StartGet(c, waitok) =>
      var (q, got) := Enter(s.q, bulk, waitok);
      Sys(q, s.st[c := AfterGet(got)])
    case Resume(c, returnOnWake) =>
      var (q, got) := Wake(s.q, bulk, returnOnWake);
      Sys(q, s.st[c := AfterGet(got)])
    case Spurious(c) => Sys(s.q, s.st[c := Woken])
  }

  /** The consumers between their wait and their re-check. */
  function Waiters(st: map<nat, Status>): set<nat> {
    set c | c in st && st[c] != Outside
  }

  /** nwait counts them exactly. */
  predicate CountInv(s: Sys<int>) {
    s.q.nwait == |Waiters(s.st)|
  }

  /** With items queued, a sleeping consumer implies one on its way. */
  ghost predicate NoLostWakeup(s: Sys<int>) {
    s.q.items != [] && (exists c :: IsAsleep(s, c)) ==> exists c :: IsWoken(s, c)
  }

  lemma CountUpdate(st: map<nat, Status>, c: nat, v: Status)
    requires c in st
    ensures |Waiters(st[c := v])|
         == |Waiters(st)| - (if st[c] != Outside then 1 else 0) + (if v != Outside then 1 else 0)
  {
    var w, w' := Waiters(st), Waiters(st[c := v]);
    assert w - {c} == w' - {c};
    assert c in w ==> w == (w - {c}) + {c};
    assert c in w' ==> w' == (w' - {c}) + {c};
  }

  lemma StepCounts(s: Sys<int>, bulk: bool, step: Step<int>)
    requires CountInv(s) && Enabled(s, step)
    ensures step.Resume? ==> s.q.nwait > 0
    ensures CountInv(Apply(s, bulk, step)) && Apply(s, bulk, step).st.Keys == s.st.Keys
  {
    if step.Resume? { assert step.c in Waiters(s.st); }
    var s' := Apply(s, bulk, step);
    match step {
      case PutItem(x, maxqlen, who) => if who.Some? { CountUpdate(s.st, who.value, Woken); }
      case PutItems(xs, who) => if who.Some? { CountUpdate(s.st, who.value, Woken); }
      case Pump(who) => if who.Some? { CountUpdate(s.st, who.value, Woken); }
      case StartGet(c, waitok) => CountUpdate(s.st, c, s'.st[c]);
      case Resume(c, ror) => CountUpdate(s.st, c, s'.st[c]);
      case Spurious(c) => CountUpdate(s.st, c, Woken);
    }
  }

  /** A wakeup is not lost when gets take everything, or when there is only one consumer. */
  lemma StepKeepsWakeup(s: Sys<int>, bulk: bool, step: Step<int>)
    requires CountInv(s) && Enabled(s, step) && NoLostWakeup(s)
    requires bulk || |s.st| <= 1
    ensures step.Resume? ==> s.q.nwait > 0
    ensures NoLostWakeup(Apply(s, bulk, step))
  {
    StepCounts(s, bulk, step);
    var s' := Apply(s, bulk, step);
    match step {
      case PutItem(x, maxqlen, who) => SignalReaches(s, s', who);
      case PutItems(xs, who) => SignalReaches(s, s', who);
      case Pump(who) => SignalReaches(s, s', who);
      case StartGet(c, waitok) => GetLeaves(s, s', bulk, c);
      case Resume(c, ror) => GetLeaves(s, s', bulk, c);
      case Spurious(c) => assert IsWoken(s', c);
    }
  }

  lemma SignalReaches(s: Sys<int>, s': Sys<int>, who: Option<nat>)
    requires CountInv(s) && SignalOk(s, who) && s'.st == Wake1(s.st, who)
    ensures (exists c :: IsAsleep(s', c)) ==> exists c :: IsWoken(s', c)
  {
    if who.Some? {
      assert IsWoken(s', who.value);
    } else {
      assert forall c :: IsAsleep(s', c) ==> IsAsleep(s, c) && c in Waiters(s.st);
      assert s.q.nwait == 0 ==> Waiters(s.st) == {};
    }
  }

  /** Every put, rejected or not, and every pump wakes one sleeping consumer if there is any,
      and changes nothing for the others. */
  lemma SignalWakesOne(s: Sys<int>, bulk: bool, step: Step<int>)
    requires CountInv(s) && Enabled(s, step) && (step.PutItem? || step.PutItems? || step.Pump?)
    ensures var s' := Apply(s, bulk, step);
      if exists c :: IsAsleep(s, c) then exists c :: IsAsleep(s, c) && s'.st == s.st[c := Woken] else s'.st == s.st
  {
    if c :| IsAsleep(s, c) {
      assert c in Waiters(s.st);
      assert step.who.Some? && IsAsleep(s, step.who.value);
    }
  }

  lemma GetLeaves(s: Sys<int>, s': Sys<int>, bulk: bool, c: nat)
    requires c in s.st && c in s'.st && s'.st == s.st[c := s'.st[c]]
    requires s'.q.items != [] ==> !bulk && s'.st[c] == Outside
    requires bulk || |s.st| <= 1
    ensures NoLostWakeup(s')
  {
    if s'.q.items != [] {
      forall d | d in s.st && d != c ensures |s.st| >= 2 {
        TwoKeys(s.st, c, d);
      }
    }
  }

  lemma TwoKeys(st: map<nat, Status>, c: nat, d: nat)
    requires c in st && d in st && c != d
    ensures |st| >= 2
  {
    var rest := st.Keys - {c};
    assert d in rest && st.Keys == rest + {c};
    assert |st.Keys| == |rest| + 1;
  }

  // ---------- over whole runs ----------

  ghost predicate Run(s: Sys<int>, bulk: bool, steps: seq<Step<int>>, s': Sys<int>)
    decreases |steps|
  {
    if steps == [] then s' == s
    else
      && Enabled(s, steps[0]) && (steps[0].Resume? ==> s.q.nwait > 0)
      && Run(Apply(s, bulk, steps[0]), bulk, steps[1..], s')
  }

  ghost predicate Idle(s: Sys<int>) {
    s.q == QState([], 0) && forall c :: c in s.st ==> s.st[c] == Outside
  }

  /** In every run, nwait is the number of consumers between their wait and re-check. */
  lemma {:induction false} RunCounts(s: Sys<int>, bulk: bool, steps: seq<Step<int>>, s': Sys<int>)
    requires CountInv(s) && Run(s, bulk, steps, s')
    ensures CountInv(s') && s'.st.Keys == s.st.Keys
    decreases |steps|
  {
    if steps != [] {
      StepCounts(s, bulk, steps[0]);
      RunCounts(Apply(s, bulk, steps[0]), bulk, steps[1..], s');
    }
  }

  lemma {:induction false} RunKeepsWakeup(s: Sys<int>, bulk: bool, steps: seq<Step<int>>, s': Sys<int>)
    requires CountInv(s) && NoLostWakeup(s) && (bulk || |s.st| <= 1) && Run(s, bulk, steps, s')
    ensures NoLostWakeup(s')
    decreases |steps|
  {
    if steps != [] {
      var s1 := Apply(s, bulk, steps[0]);
      StepCounts(s, bulk, steps[0]);
      StepKeepsWakeup(s, bulk, steps[0]);
      assert |s1.st.Keys| == |s.st.Keys|;
      RunKeepsWakeup(s1, bulk, steps[1..], s');
    }
  }

  /** What a step puts on the queue: a bounded put nothing if the queue is full. */
  function PutBy(s: Sys<int>, step: Step<int>): seq<int> {
    match step
    case PutItem(x, maxqlen, _) => if 0 < maxqlen <= |s.q.items| then [] else [x]
    case PutItems(xs, _) => xs
    case _ => []
  }

  /** What the consumer that takes a step comes away with. */
  function GotBy(s: Sys<int>, bulk: bool, step: Step<int>): seq<int>
    requires step.Resume? ==> s.q.nwait > 0
  {
    var got :=
      match step
      case StartGet(_, waitok) => Enter(s.q, bulk, waitok).1
      case Resume(_, returnOnWake) => Wake(s.q, bulk, returnOnWake).1
      case _ => Nothing;
    if got.Taken? then got.items else []
  }

  ghost function AllPut(s: Sys<int>, bulk: bool, steps: seq<Step<int>>): seq<int>
    decreases |steps|
  {
    if steps == [] || (steps[0].Resume? && s.q.nwait == 0) then []
    else PutBy(s, steps[0]) + AllPut(Apply(s, bulk, steps[0]), bulk, steps[1..])
  }

  ghost function AllGot(s: Sys<int>, bulk: bool, steps: seq<Step<int>>): seq<int>
    decreases |steps|
  {
    if steps == [] || (steps[0].Resume? && s.q.nwait == 0) then []
    else GotBy(s, bulk, steps[0]) + AllGot(Apply(s, bulk, steps[0]), bulk, steps[1..])
  }

  /** In every run, what all consumers came away with, in the order of their gets, followed by
      what is left is what was queued followed by what the accepted puts brought. */
  lemma {:induction false} RunConserves(s: Sys<int>, bulk: bool, steps: seq<Step<int>>, s': Sys<int>)
    requires Run(s, bulk, steps, s')
    ensures AllGot(s, bulk, steps) + s'.q.items == s.q.items + AllPut(s, bulk, steps)
    decreases |steps|
  {
    if steps != [] {
      var s1 := Apply(s, bulk, steps[0]);
      RunConserves(s1, bulk, steps[1..], s');
      StepConserves(s, bulk, steps[0]);
      Regroup(GotBy(s, bulk, steps[0]), AllGot(s1, bulk, steps[1..]), s'.q.items, s.q.items, PutBy(s, steps[0]),
              AllPut(s1, bulk, steps[1..]), s1.q.items);
    }
  }

  lemma StepConserves(s: Sys<int>, bulk: bool, step: Step<int>)
    requires step.Resume? ==> s.q.nwait > 0
    ensures GotBy(s, bulk, step) + Apply(s, bulk, step).q.items == s.q.items + PutBy(s, step)
  {}

  lemma IdleCounts(s: Sys<int>)
    requires Idle(s)
    ensures CountInv(s) && NoLostWakeup(s)
  {
    assert Waiters(s.st) == {};
  }

  /** No wakeup is lost on any run from an idle queue if and only if gets take everything
      or there is at most one consumer. */
  lemma WakeupExactly(s: Sys<int>, bulk: bool)
    requires Idle(s)
    ensures (forall steps, s' :: Run(s, bulk, steps, s') ==> NoLostWakeup(s')) <==> bulk || |s.st| <= 1
  {
    IdleCounts(s);
    if bulk || |s.st| <= 1 {
      forall steps, s' | Run(s, bulk, steps, s') ensures NoLostWakeup(s') {
        RunKeepsWakeup(s, bulk, steps, s');
      }
    } else {
      LostWakeup(s);
    }
  }

  /** Two consumers that each take one item: two items arrive in one put, one consumer is
      signalled and takes one, the other sleeps on with an item queued. */
  lemma LostWakeup(s: Sys<int>)
    requires Idle(s) && |s.st| >= 2
    ensures exists steps, s' :: Run(s, false, steps, s') && !NoLostWakeup(s')
  {
    hide Run, NoLostWakeup;
    var a :| a in s.st;
    assert |s.st.Keys - {a}| >= 1;
    var b :| b in s.st.Keys - {a};
    var s1 := Apply(s, false, StartGet(a, true));
    var s2 := Apply(s1, false, StartGet(b, true));
    assert s2.q == QState([], 2) && s2.st == s.st[a := Asleep][b := Asleep];
    var steps, s4 := OneLeftAsleep(s2, a, b);
    Prepend(s1, false, StartGet(b, true), steps, s4);
    Prepend(s, false, StartGet(a, true), [StartGet(b, true)] + steps, s4);
  }

  /** Two items in one put to two sleepers. */
  lemma OneLeftAsleep(s: Sys<int>, a: nat, b: nat) returns (steps: seq<Step<int>>, s': Sys<int>)
    requires s.q == QState([], 2) && IsAsleep(s, a) && IsAsleep(s, b) && a != b && forall c :: !IsWoken(s, c)
    ensures Run(s, false, steps, s') && !NoLostWakeup(s')
  {
    hide Run;
    var put, resume := PutItems([0, 1], Some(a)), Resume(a, true);
    var s1 := Apply(s, false, put);
    assert s1.q == QState([0, 1], 2) && IsWoken(s1, a);
    s' := Apply(s1, false, resume);
    assert s'.q.items == [1] && s'.st == s.st[a := Woken][a := Outside];
    NoSteps(s', false);
    Prepend(s1, false, resume, [], s');
    Prepend(s, false, put, [resume] + [], s');
    steps := [put] + ([resume] + []);
    assert IsAsleep(s', b);
    assert forall c :: IsWoken(s', c) ==> c != a && IsWoken(s, c);
  }

  lemma NoSteps(s: Sys<int>, bulk: bool)
    ensures Run(s, bulk, [], s)
  {}

  lemma Prepend(s: Sys<int>, bulk: bool, step: Step<int>, rest: seq<Step<int>>, s': Sys<int>)
    requires Enabled(s, step) && (step.Resume? ==> s.q.nwait > 0) && Run(Apply(s, bulk, step), bulk, rest, s')
    ensures Run(s, bulk, [step] + rest, s')
  {
    assert ([step] + rest)[1..] == rest;
  }

  /** With the one consumer every queue of the program has: whenever it sleeps unsignalled,
      its queue is empty. */
  lemma SleepsOnlyWhenEmpty(s: Sys<int>, bulk: bool, steps: seq<Step<int>>, s': Sys<int>, c: nat)
    requires Idle(s) && s.st.Keys == {c} && Run(s, bulk, steps, s') && IsAsleep(s', c)
    ensures s'.q.items == [] && s'.q.nwait == 1
  {
    IdleCounts(s);
    assert |s.st| == |s.st.Keys| == 1;
    RunCounts(s, bulk, steps, s');
    RunKeepsWakeup(s, bulk, steps, s');
    assert Waiters(s'.st) == {c};
    assert forall d :: IsWoken(s', d) ==> d in s'.st.Keys;
  }
}
