/** The work queue as a value, and its operations as functions of it.  The heap class and the
    condition-variable protocol are both stated in these terms. */
module QueueSpec {

  /** The queued items, oldest first, and the number of consumers between their wait and
      their re-check. */
  datatype QState<T> = QState(items: seq<T>, nwait: nat)

  /** How a get comes out of its critical section. */
  datatype Got<T> = Nothing | Blocked | Taken(items: seq<T>)

  /** A bounded put is rejected exactly when the queue is full; 0 stands for no bound. */
  predicate Rejects<T>(q: QState<T>, maxqlen: nat) {
    maxqlen > 0 && |q.items| >= maxqlen
  }

  function Put<T>(q: QState<T>, xs: seq<T>): QState<T> {
    q.(items := q.items + xs)
  }

  /** Producers and pump signal exactly when somebody waits. */
  predicate Signals<T>(q: QState<T>) {
    q.nwait > 0
  }

  /** get_items takes everything, get_item the oldest. */
  function Share<T>(q: QState<T>, bulk: bool): (k: nat)
    ensures k <= |q.items|
  {
    if bulk || |q.items| == 0 then |q.items| else 1
  }

  function Take<T>(q: QState<T>, bulk: bool): (QState<T>, Got<T>) {
    var k := Share(q, bulk);
    (q.(items := q.items[k..]), Taken(q.items[..k]))
  }

  /** From entry to the first wait or the return. */
  function Enter<T>(q: QState<T>, bulk: bool, waitok: bool): (QState<T>, Got<T>) {
    if q.items != [] then Take(q, bulk)
    else if !waitok then (q, Nothing)
    else (q.(nwait := q.nwait + 1), Blocked)
  }

  /** From a return of the wait to the next wait or the return of the get. */
  function Wake<T>(q: QState<T>, bulk: bool, returnOnWake: bool): (QState<T>, Got<T>)
    requires q.nwait > 0
  {
    var q1 := q.(nwait := q.nwait - 1);
    if q1.items == [] && returnOnWake then (q1, Nothing)
    else Enter(q1, bulk, true)
  }

  // ---------- first in, first out ----------

  datatype Op<T> = PutOne(x: T, maxqlen: nat) | PutMany(xs: seq<T>) | Get(bulk: bool)

  /** What an operation puts in, and what it takes out. */
  function In<T>(q: QState<T>, op: Op<T>): seq<T> {
    match op
    case PutOne(x, maxqlen) => if Rejects(q, maxqlen) then [] else [x]
    case PutMany(xs) => xs
    case Get(_) => []
  }

  function Out<T>(q: QState<T>, op: Op<T>): seq<T> {
    if op.Get? then q.items[..Share(q, op.bulk)] else []
  }

  function After<T>(q: QState<T>, op: Op<T>): QState<T> {
    if op.Get? then Take(q, op.bulk).0 else Put(q, In(q, op))
  }

  function AllIn<T>(q: QState<T>, ops: seq<Op<T>>): seq<T>
    decreases |ops|
  {
    if ops == [] then [] else In(q, ops[0]) + AllIn(After(q, ops[0]), ops[1..])
  }

  function AllOut<T>(q: QState<T>, ops: seq<Op<T>>): seq<T>
    decreases |ops|
  {
    if ops == [] then [] else Out(q, ops[0]) + AllOut(After(q, ops[0]), ops[1..])
  }

  function Final<T>(q: QState<T>, ops: seq<Op<T>>): QState<T>
    decreases |ops|
  {
    if ops == [] then q else Final(After(q, ops[0]), ops[1..])
  }

  /** Over any mix of puts and gets, what came out followed by what is left is what was
      there followed by what went in: nothing lost, duplicated or reordered. */
  lemma {:induction false} Fifo<T>(q: QState<T>, ops: seq<Op<T>>)
    ensures AllOut(q, ops) + Final(q, ops).items == q.items + AllIn(q, ops)
    decreases |ops|
  {
    if ops != [] {
      var q1 := After(q, ops[0]);
      Fifo(q1, ops[1..]);
      FifoStep(q, ops[0], AllIn(q1, ops[1..]), AllOut(q1, ops[1..]), Final(q1, ops[1..]).items);
    }
  }

  lemma FifoStep<T>(q: QState<T>, op: Op<T>, ins: seq<T>, outs: seq<T>, left: seq<T>)
    requires outs + left == After(q, op).items + ins
    ensures (Out(q, op) + outs) + left == q.items + (In(q, op) + ins)
  {
    assert Out(q, op) + After(q, op).items == q.items + In(q, op);
    Regroup(Out(q, op), outs, left, q.items, In(q, op), ins, After(q, op).items);
  }

  /** One conserving step before a conserving run. */
  lemma Regroup<T>(got: seq<T>, gots: seq<T>, left: seq<T>, first: seq<T>, put: seq<T>, puts: seq<T>, mid: seq<T>)
    requires got + mid == first + put && gots + left == mid + puts
    ensures (got + gots) + left == first + (put + puts)
  {
    assert (got + gots) + left == got + (gots + left) == (got + mid) + puts;
  }

  /** A queue fed only through bounded puts never exceeds its bound. */
  lemma {:induction false} BoundKept<T>(q: QState<T>, ops: seq<Op<T>>, bound: nat)
    requires 0 < bound && |q.items| <= bound
    requires forall op :: op in ops ==> op.Get? || (op.PutOne? && op.maxqlen == bound)
    ensures |Final(q, ops).items| <= bound
    decreases |ops|
  {
    if ops != [] {
      assert ops[0] in ops;
      BoundKept(After(q, ops[0]), ops[1..], bound);
    }
  }
}
