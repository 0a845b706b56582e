/** Order and conservation: for every receive ring and consumer, each step keeps
    dequeued = placed + in flight. */
module PipelineOrder {
  import opened Octets
  import opened PipelineModel
  import opened PipelineInv

  lemma {:induction false} PickConcat(cfg: Config, arr: map<Loc, Bytes>, a: seq<Loc>, b: seq<Loc>, r: nat, k: nat)
    requires ConfigOk(cfg) && r < |cfg.rxSlots|
    ensures Pick(cfg, arr, a + b, r, k) == Pick(cfg, arr, a, r, k) + Pick(cfg, arr, b, r, k)
  {
    if a == [] {
      assert a + b == b;
    } else {
      PickConcat(cfg, arr, a[1..], b, r, k);
      assert (a + b)[1..] == a[1..] + b;
    }
  }

  /** A new arrival in a packet on no list changes nothing that is in flight. */
  lemma {:induction false} PickFrame(cfg: Config, arr: map<Loc, Bytes>, l: Loc, data: Bytes, ls: seq<Loc>, r: nat,
                                     k: nat)
    requires ConfigOk(cfg) && r < |cfg.rxSlots| && l !in ls
    ensures Pick(cfg, arr[l := data], ls, r, k) == Pick(cfg, arr, ls, r, k)
  {
    if ls != [] {
      assert ls[0] in ls && l !in ls[1..];
      PickFrame(cfg, arr, l, data, ls[1..], r, k);
    }
  }

  lemma {:induction false} PickOthers(cfg: Config, arr: map<Loc, Bytes>, ls: seq<Loc>, r0: nat, k0: nat, r: nat, k: nat)
    requires ConfigOk(cfg) && r < |cfg.rxSlots| && r0 < |cfg.rxSlots| && (r, k) != (r0, k0)
    requires forall l :: l in ls ==> Mine(cfg, arr, l, r0, k0)
    ensures Pick(cfg, arr, ls, r, k) == []
  {
    if ls != [] {
      assert Mine(cfg, arr, ls[0], r0, k0);
      PickOthers(cfg, arr, ls[1..], r0, k0, r, k);
    }
  }

  lemma PickOne(cfg: Config, arr: map<Loc, Bytes>, l: Loc, r: nat, k: nat)
    requires ConfigOk(cfg) && r < |cfg.rxSlots|
    ensures Pick(cfg, arr, [l], r, k) == if Mine(cfg, arr, l, r, k) then [arr[l]] else []
  {
    assert Pick(cfg, arr, [l][1..], r, k) == [];
  }

  /** A stretch of the pipe that holds none of (r, k)'s packets does not count. */
  lemma PickInsert(cfg: Config, arr: map<Loc, Bytes>, front: seq<Loc>, ls: seq<Loc>, back: seq<Loc>, r: nat, k: nat)
    requires ConfigOk(cfg) && r < |cfg.rxSlots| && Pick(cfg, arr, ls, r, k) == []
    ensures Pick(cfg, arr, front + ls + back, r, k) == Pick(cfg, arr, front + back, r, k)
  {
    PickConcat(cfg, arr, front + ls, back, r, k);
    PickConcat(cfg, arr, front, ls, r, k);
    PickConcat(cfg, arr, front, back, r, k);
  }

  lemma PickDrop(cfg: Config, arr: map<Loc, Bytes>, front: seq<Loc>, l: Loc, back: seq<Loc>, r: nat, k: nat)
    requires ConfigOk(cfg) && r < |cfg.rxSlots| && !Mine(cfg, arr, l, r, k)
    ensures Pick(cfg, arr, front + [l] + back, r, k) == Pick(cfg, arr, front + back, r, k)
  {
    PickOne(cfg, arr, l, r, k);
    PickInsert(cfg, arr, front, [l], back, r, k);
  }

  function DeliverLists(cfg: Config, lists: map<Place, seq<Loc>>, r: nat, k: nat): map<Place, seq<Loc>>
    requires r < |cfg.consumers| && k < |cfg.consumers[r]|
  {
    var q := Queue(cfg.consumers[r][k].queue);
    lists[Work(r, k) := []][q := On(lists, q) + On(lists, Work(r, k))]
  }

  lemma PipeOmits(lists: map<Place, seq<Loc>>, l: Loc, r: nat, k: nat, t: nat)
    requires forall p :: l !in On(lists, p)
    ensures l !in Pipe(lists, r, k, t)
  {}

  lemma DequeuePipe(lists: map<Place, seq<Loc>>, l: Loc, r: nat, k: nat, t: nat)
    ensures Pipe(lists[Local(r) := On(lists, Local(r)) + [l]], r, k, t) == Pipe(lists, r, k, t) + [l]
  {}

  /** A packet that arrives last is last among its class's arrivals and last in the pipe. */
  lemma ArrivalOrder(cfg: Config, arr: map<Loc, Bytes>, arrivals: seq<Bytes>, pipe: seq<Loc>, sent: seq<Bytes>,
                     l: Loc, data: Bytes, r: nat, k: nat)
    requires ConfigOk(cfg) && r < |cfg.rxSlots|
    requires OfClass(cfg, arrivals, r, k) == sent + Pick(cfg, arr, pipe, r, k)
    requires l.Rx? && l.ring == r && l in arr && arr[l] == data
    ensures OfClass(cfg, arrivals + [data], r, k) == sent + Pick(cfg, arr, pipe + [l], r, k)
  {
    PickConcat(cfg, arr, pipe, [l], r, k);
    PickOne(cfg, arr, l, r, k);
    assert (arrivals + [data])[..|arrivals|] == arrivals;
    Regroup(sent, Pick(cfg, arr, pipe, r, k), Pick(cfg, arr, [l], r, k));
  }

  /** A consumer's list joining a queue is not in the way of another consumer's packets. */
  lemma DeliverElsewhere(cfg: Config, arr: map<Loc, Bytes>, lists: map<Place, seq<Loc>>, r0: nat, k0: nat, r: nat,
                         k: nat)
    requires ConfigOk(cfg) && r < |cfg.rxSlots| && k < |cfg.consumers[r]|
    requires r0 < |cfg.rxSlots| && k0 < |cfg.consumers[r0]| && (r, k) != (r0, k0)
    requires cfg.consumers[r][k].queue == cfg.consumers[r0][k0].queue
    requires Pick(cfg, arr, On(lists, Work(r0, k0)), r, k) == []
    ensures InFlight(cfg, arr, DeliverLists(cfg, lists, r0, k0), r, k) == InFlight(cfg, arr, lists, r, k)
  {
    var t := cfg.consumers[r][k].queue;
    var ls := On(lists, Work(r0, k0));
    var front := On(lists, Held(t)) + On(lists, Queue(t));
    var back := On(lists, Work(r, k)) + On(lists, Local(r));
    assert Pipe(lists, r, k, t) == front + back;
    DeliverPipe(cfg, lists, r0, k0, r, k);
    PickInsert(cfg, arr, front, ls, back, r, k);
  }

  lemma TakePipe(lists: map<Place, seq<Loc>>, t0: nat, r: nat, k: nat, t: nat)
    requires On(lists, Held(t0)) == []
    ensures Pipe(lists[Queue(t0) := []][Held(t0) := On(lists, Queue(t0))], r, k, t) == Pipe(lists, r, k, t)
  {
    if t == t0 {
      assert [] + On(lists, Queue(t)) == On(lists, Queue(t)) + [];
    }
  }

  lemma MovePipe(lists: map<Place, seq<Loc>>, t0: nat, r: nat, k: nat, t: nat)
    requires On(lists, Held(t0)) != []
    ensures var held := On(lists, Held(t0)); var pipe := Pipe(lists[Held(t0) := held[1..]], r, k, t);
      Pipe(lists, r, k, t) == if t == t0 then [held[0]] + pipe else pipe
  {
    var held := On(lists, Held(t0));
    assert held == [held[0]] + held[1..];
  }

  lemma SortPipe(lists: map<Place, seq<Loc>>, r0: nat, k0: nat, r: nat, k: nat, t: nat)
    requires On(lists, Local(r0)) != []
    ensures var here := On(lists, Local(r0));
      var pipe' := Pipe(lists[Local(r0) := here[1..]][Work(r0, k0) := On(lists, Work(r0, k0)) + [here[0]]], r, k, t);
      var front := On(lists, Held(t)) + On(lists, Queue(t)) + On(lists, Work(r, k));
      if r == r0 && k != k0
      then Pipe(lists, r, k, t) == front + [here[0]] + here[1..] && pipe' == front + here[1..]
      else pipe' == Pipe(lists, r, k, t)
  {
    var here := On(lists, Local(r0));
    var front := On(lists, Held(t)) + On(lists, Queue(t));
    Reassoc3(front, On(lists, Work(r, k)), here);
  }

  lemma Reassoc3(front: seq<Loc>, w: seq<Loc>, here: seq<Loc>)
    requires here != []
    ensures front + (w + [here[0]]) + here[1..] == front + w + here
    ensures front + w + [here[0]] + here[1..] == front + w + here
  {}

  lemma SentLast(cfg: Config, es: seq<Sent>, e: Sent, r: nat, k: nat)
    requires ConfigOk(cfg) && r < |cfg.rxSlots|
    ensures SentOf(cfg, es + [e], r, k) == SentOf(cfg, es, r, k) + if From(cfg, e, r, k) then [e.arrival] else []
  {
    assert (es + [e])[..|es|] == es;
  }

  lemma DeliverSamePipe(cfg: Config, lists: map<Place, seq<Loc>>, r0: nat, k0: nat, r: nat, k: nat)
    requires r < |cfg.consumers| && k < |cfg.consumers[r]|
    requires r0 < |cfg.consumers| && k0 < |cfg.consumers[r0]|
    requires (r, k) == (r0, k0) || cfg.consumers[r][k].queue != cfg.consumers[r0][k0].queue
    ensures var t := cfg.consumers[r][k].queue;
      Pipe(DeliverLists(cfg, lists, r0, k0), r, k, t) == Pipe(lists, r, k, t)
  {
    if (r, k) == (r0, k0) {
      var t := cfg.consumers[r][k].queue;
      Reassoc(On(lists, Held(t)), On(lists, Queue(t)), On(lists, Work(r, k)), [], On(lists, Local(r)));
      assert On(lists, Work(r, k)) + ([] + On(lists, Local(r))) == On(lists, Work(r, k)) + On(lists, Local(r));
    }
  }

  lemma DeliverPipe(cfg: Config, lists: map<Place, seq<Loc>>, r0: nat, k0: nat, r: nat, k: nat)
    requires r < |cfg.consumers| && k < |cfg.consumers[r]|
    requires r0 < |cfg.consumers| && k0 < |cfg.consumers[r0]| && (r, k) != (r0, k0)
    requires cfg.consumers[r][k].queue == cfg.consumers[r0][k0].queue
    ensures var t := cfg.consumers[r][k].queue;
      Pipe(DeliverLists(cfg, lists, r0, k0), r, k, t)
      == (On(lists, Held(t)) + On(lists, Queue(t))) + On(lists,
          Work(r0, k0)) + (On(lists, Work(r, k)) + On(lists, Local(r)))
  {
    var t := cfg.consumers[r][k].queue;
    var lists' := DeliverLists(cfg, lists, r0, k0);
    assert On(lists', Queue(t)) == On(lists, Queue(t)) + On(lists, Work(r0, k0));
    assert On(lists', Held(t)) == On(lists, Held(t)) && On(lists', Work(r, k)) == On(lists, Work(r, k));
    assert On(lists', Local(r)) == On(lists, Local(r));
    Reassoc(On(lists, Held(t)), On(lists, Queue(t)), On(lists, Work(r0, k0)), On(lists, Work(r, k)),
        On(lists, Local(r)));
  }

  lemma Reassoc(a: seq<Loc>, b: seq<Loc>, c: seq<Loc>, d: seq<Loc>, e: seq<Loc>)
    ensures a + (b + c) + d + e == (a + b) + c + (d + e)
  {}

  lemma Regroup(a: seq<Bytes>, b: seq<Bytes>, c: seq<Bytes>)
    ensures a + (b + c) == (a + b) + c
  {}

  lemma DequeueOrderAt(cfg: Config, arr: map<Loc, Bytes>, lists: map<Place, seq<Loc>>,
                       dequeued: seq<seq<Bytes>>, placed: seq<seq<Sent>>,
                       r0: nat, l: Loc, data: Bytes, r: nat, k: nat)
    requires ConfigOk(cfg) && |dequeued| == |cfg.rxSlots| && |placed| == |cfg.txSlots|
    requires r < |cfg.rxSlots| && k < |cfg.consumers[r]|
    requires OrderOk(cfg, arr, lists, dequeued, placed, r, k)
    requires r0 < |cfg.rxSlots| && l.Rx? && l.ring == r0 && forall p :: l !in On(lists, p)
    ensures OrderOk(cfg, arr[l := data], lists[Local(r0) := On(lists, Local(r0)) + [l]],
                    dequeued[r0 := dequeued[r0] + [data]], placed, r, k)
  {
    var t := cfg.consumers[r][k].queue;
    var arr', lists' := arr[l := data], lists[Local(r0) := On(lists, Local(r0)) + [l]];
    hide ConfigOk, Pick, SentOf, OfClass;
    PipeOmits(lists, l, r, k, t);
    PickFrame(cfg, arr, l, data, Pipe(lists, r, k, t), r, k);
    if r == r0 {
      DequeuePipe(lists, l, r, k, t);
      ArrivalOrder(cfg, arr', dequeued[r], Pipe(lists, r, k, t), SentOf(cfg, placed[t], r, k), l, data, r, k);
    } else {
      assert Pipe(lists', r, k, t) == Pipe(lists, r, k, t);
    }
  }

  lemma DequeueOrder(cfg: Config, arr: map<Loc, Bytes>, lists: map<Place, seq<Loc>>,
                     dequeued: seq<seq<Bytes>>, placed: seq<seq<Sent>>, r0: nat, l: Loc, data: Bytes)
    requires ConfigOk(cfg) && |dequeued| == |cfg.rxSlots| && |placed| == |cfg.txSlots|
    requires OrderInv(cfg, arr, lists, dequeued, placed)
    requires r0 < |cfg.rxSlots| && l.Rx? && l.ring == r0 && forall p :: l !in On(lists, p)
    ensures OrderInv(cfg, arr[l := data], lists[Local(r0) := On(lists, Local(r0)) + [l]],
                     dequeued[r0 := dequeued[r0] + [data]], placed)
  {
    var arr' := arr[l := data];
    var dequeued' := dequeued[r0 := dequeued[r0] + [data]];
    var lists' := lists[Local(r0) := On(lists, Local(r0)) + [l]];
    forall r, k | 0 <= r < |cfg.rxSlots| && 0 <= k < |cfg.consumers[r]|
      ensures OrderOk(cfg, arr', lists', dequeued', placed, r, k)
    {
      DequeueOrderAt(cfg, arr, lists, dequeued, placed, r0, l, data, r, k);
    }
  }

  lemma SortOrderAt(cfg: Config, arr: map<Loc, Bytes>, lists: map<Place, seq<Loc>>,
                    dequeued: seq<seq<Bytes>>, placed: seq<seq<Sent>>,
                    r0: nat, k0: nat, r: nat, k: nat)
    requires ConfigOk(cfg) && |dequeued| == |cfg.rxSlots| && |placed| == |cfg.txSlots|
    requires r < |cfg.rxSlots| && k < |cfg.consumers[r]|
    requires OrderOk(cfg, arr, lists, dequeued, placed, r, k)
    requires r0 < |cfg.rxSlots| && On(lists, Local(r0)) != [] && Mine(cfg, arr, On(lists, Local(r0))[0], r0, k0)
    ensures OrderOk(cfg, arr, lists[Local(r0) := On(lists, Local(r0))[1..]][Work(r0, k0) := On(lists,
      Work(r0, k0)) + [On(lists, Local(r0))[0]]],
                    dequeued, placed, r, k)
  {
    var t := cfg.consumers[r][k].queue;
    var here := On(lists, Local(r0));
    var lists' := lists[Local(r0) := here[1..]][Work(r0, k0) := On(lists, Work(r0, k0)) + [here[0]]];
    hide Pick, SentOf, OfClass;
    SortPipe(lists, r0, k0, r, k, t);
    if r == r0 && k != k0 {
      PickDrop(cfg, arr, On(lists, Held(t)) + On(lists, Queue(t)) + On(lists, Work(r, k)), here[0], here[1..], r, k);
    }
  }

  lemma SortOrder(cfg: Config, arr: map<Loc, Bytes>, lists: map<Place, seq<Loc>>,
                  dequeued: seq<seq<Bytes>>, placed: seq<seq<Sent>>, r0: nat, k0: nat)
    requires ConfigOk(cfg) && |dequeued| == |cfg.rxSlots| && |placed| == |cfg.txSlots|
    requires OrderInv(cfg, arr, lists, dequeued, placed)
    requires r0 < |cfg.rxSlots| && On(lists, Local(r0)) != [] && Mine(cfg, arr, On(lists, Local(r0))[0], r0, k0)
    ensures OrderInv(cfg, arr, lists[Local(r0) := On(lists, Local(r0))[1..]][Work(r0, k0) := On(lists,
      Work(r0, k0)) + [On(lists, Local(r0))[0]]],
                     dequeued, placed)
  {
    var lists' := lists[Local(r0) := On(lists, Local(r0))[1..]][Work(r0, k0) := On(lists,
        Work(r0, k0)) + [On(lists, Local(r0))[0]]];
    forall r, k | 0 <= r < |cfg.rxSlots| && 0 <= k < |cfg.consumers[r]|
      ensures OrderOk(cfg, arr, lists', dequeued, placed, r, k)
    {
      SortOrderAt(cfg, arr, lists, dequeued, placed, r0, k0, r, k);
    }
  }

  lemma DeliverOrderAt(cfg: Config, arr: map<Loc, Bytes>, lists: map<Place, seq<Loc>>,
                       dequeued: seq<seq<Bytes>>, placed: seq<seq<Sent>>,
                       r0: nat, k0: nat, r: nat, k: nat)
    requires ConfigOk(cfg) && |dequeued| == |cfg.rxSlots| && |placed| == |cfg.txSlots|
    requires r < |cfg.rxSlots| && k < |cfg.consumers[r]|
    requires OrderOk(cfg, arr, lists, dequeued, placed, r, k)
    requires r0 < |cfg.rxSlots| && k0 < |cfg.consumers[r0]|
    requires forall l :: l in On(lists, Work(r0, k0)) ==> Mine(cfg, arr, l, r0, k0)
    ensures OrderOk(cfg, arr, DeliverLists(cfg, lists, r0, k0),
                    dequeued, placed, r, k)
  {
    var t, t0 := cfg.consumers[r][k].queue, cfg.consumers[r0][k0].queue;
    hide Pick, SentOf, OfClass;
    if (r, k) == (r0, k0) || t != t0 {
      DeliverSamePipe(cfg, lists, r0, k0, r, k);
    } else {
      PickOthers(cfg, arr, On(lists, Work(r0, k0)), r0, k0, r, k);
      DeliverElsewhere(cfg, arr, lists, r0, k0, r, k);
    }
  }

  lemma DeliverOrder(cfg: Config, arr: map<Loc, Bytes>, lists: map<Place, seq<Loc>>,
                     dequeued: seq<seq<Bytes>>, placed: seq<seq<Sent>>, r0: nat, k0: nat)
    requires ConfigOk(cfg) && |dequeued| == |cfg.rxSlots| && |placed| == |cfg.txSlots|
    requires OrderInv(cfg, arr, lists, dequeued, placed)
    requires r0 < |cfg.rxSlots| && k0 < |cfg.consumers[r0]|
    requires forall l :: l in On(lists, Work(r0, k0)) ==> Mine(cfg, arr, l, r0, k0)
    ensures OrderInv(cfg, arr, DeliverLists(cfg, lists, r0, k0),
                     dequeued, placed)
  {
    var lists' := DeliverLists(cfg, lists, r0, k0);
    forall r, k | 0 <= r < |cfg.rxSlots| && 0 <= k < |cfg.consumers[r]|
      ensures OrderOk(cfg, arr, lists', dequeued, placed, r, k)
    {
      DeliverOrderAt(cfg, arr, lists, dequeued, placed, r0, k0, r, k);
    }
  }

  lemma TakeOrderAt(cfg: Config, arr: map<Loc, Bytes>, lists: map<Place, seq<Loc>>,
                    dequeued: seq<seq<Bytes>>, placed: seq<seq<Sent>>,
                    t0: nat, r: nat, k: nat)
    requires ConfigOk(cfg) && |dequeued| == |cfg.rxSlots| && |placed| == |cfg.txSlots|
    requires r < |cfg.rxSlots| && k < |cfg.consumers[r]|
    requires OrderOk(cfg, arr, lists, dequeued, placed, r, k)
    requires On(lists, Held(t0)) == []
    ensures OrderOk(cfg, arr, lists[Queue(t0) := []][Held(t0) := On(lists, Queue(t0))],
                    dequeued, placed, r, k)
  {
    hide Pick, SentOf, OfClass;
    TakePipe(lists, t0, r, k, cfg.consumers[r][k].queue);
  }

  lemma TakeOrder(cfg: Config, arr: map<Loc, Bytes>, lists: map<Place, seq<Loc>>,
                  dequeued: seq<seq<Bytes>>, placed: seq<seq<Sent>>, t0: nat)
    requires ConfigOk(cfg) && |dequeued| == |cfg.rxSlots| && |placed| == |cfg.txSlots|
    requires OrderInv(cfg, arr, lists, dequeued, placed)
    requires On(lists, Held(t0)) == []
    ensures OrderInv(cfg, arr, lists[Queue(t0) := []][Held(t0) := On(lists, Queue(t0))],
                     dequeued, placed)
  {
    var lists' := lists[Queue(t0) := []][Held(t0) := On(lists, Queue(t0))];
    forall r, k | 0 <= r < |cfg.rxSlots| && 0 <= k < |cfg.consumers[r]|
      ensures OrderOk(cfg, arr, lists', dequeued, placed, r, k)
    {
      TakeOrderAt(cfg, arr, lists, dequeued, placed, t0, r, k);
    }
  }

  lemma GatherOrderAt(cfg: Config, arr: map<Loc, Bytes>, lists: map<Place, seq<Loc>>,
                      dequeued: seq<seq<Bytes>>, placed: seq<seq<Sent>>,
                      t0: nat, ls: seq<Loc>, r: nat, k: nat)
    requires ConfigOk(cfg) && |dequeued| == |cfg.rxSlots| && |placed| == |cfg.txSlots|
    requires r < |cfg.rxSlots| && k < |cfg.consumers[r]|
    requires OrderOk(cfg, arr, lists, dequeued, placed, r, k)
    ensures OrderOk(cfg, arr, lists[Gathered(t0) := ls],
                    dequeued, placed, r, k)
  {
    hide ConfigOk, Pick, SentOf, OfClass;
  }

  lemma GatherOrder(cfg: Config, arr: map<Loc, Bytes>, lists: map<Place, seq<Loc>>,
                    dequeued: seq<seq<Bytes>>, placed: seq<seq<Sent>>, t0: nat, ls: seq<Loc>)
    requires ConfigOk(cfg) && |dequeued| == |cfg.rxSlots| && |placed| == |cfg.txSlots|
    requires OrderInv(cfg, arr, lists, dequeued, placed)
    ensures OrderInv(cfg, arr, lists[Gathered(t0) := ls],
                     dequeued, placed)
  {
    var lists' := lists[Gathered(t0) := ls];
    forall r, k | 0 <= r < |cfg.rxSlots| && 0 <= k < |cfg.consumers[r]|
      ensures OrderOk(cfg, arr, lists', dequeued, placed, r, k)
    {
      GatherOrderAt(cfg, arr, lists, dequeued, placed, t0, ls, r, k);
    }
  }

  lemma MoveOrderAt(cfg: Config, arr: map<Loc, Bytes>, lists: map<Place, seq<Loc>>,
                    dequeued: seq<seq<Bytes>>, placed: seq<seq<Sent>>,
                    t0: nat, e: Sent, r: nat, k: nat)
    requires ConfigOk(cfg) && |dequeued| == |cfg.rxSlots| && |placed| == |cfg.txSlots|
    requires r < |cfg.rxSlots| && k < |cfg.consumers[r]|
    requires OrderOk(cfg, arr, lists, dequeued, placed, r, k)
    requires t0 < |placed| && On(lists, Held(t0)) != []
    requires var l := On(lists, Held(t0))[0];
      l.Rx? && l in arr && e.src == l.ring < |cfg.rxSlots| && e.arrival == arr[l] && Dest(cfg, l.ring, arr[l]) == t0
    ensures OrderOk(cfg, arr, lists[Held(t0) := On(lists, Held(t0))[1..]],
                    dequeued, placed[t0 := placed[t0] + [e]], r, k)
  {
    var t := cfg.consumers[r][k].queue;
    var l := On(lists, Held(t0))[0];
    var lists' := lists[Held(t0) := On(lists, Held(t0))[1..]];
    hide Pick, SentOf, OfClass;
    MovePipe(lists, t0, r, k, t);
    if t == t0 {
      SentLast(cfg, placed[t], e, r, k);
      PickConcat(cfg, arr, [l], Pipe(lists', r, k, t), r, k);
      PickOne(cfg, arr, l, r, k);
      assert From(cfg, e, r, k) <==> Mine(cfg, arr, l, r, k);
      Regroup(SentOf(cfg, placed[t], r, k), Pick(cfg, arr, [l], r, k), InFlight(cfg, arr, lists', r, k));
    }
  }

  lemma MoveOrder(cfg: Config, arr: map<Loc, Bytes>, lists: map<Place, seq<Loc>>,
                  dequeued: seq<seq<Bytes>>, placed: seq<seq<Sent>>, t0: nat, e: Sent)
    requires ConfigOk(cfg) && |dequeued| == |cfg.rxSlots| && |placed| == |cfg.txSlots|
    requires OrderInv(cfg, arr, lists, dequeued, placed)
    requires t0 < |placed| && On(lists, Held(t0)) != []
    requires var l := On(lists, Held(t0))[0];
      l.Rx? && l in arr && e.src == l.ring < |cfg.rxSlots| && e.arrival == arr[l] && Dest(cfg, l.ring, arr[l]) == t0
    ensures OrderInv(cfg, arr, lists[Held(t0) := On(lists, Held(t0))[1..]],
                     dequeued, placed[t0 := placed[t0] + [e]])
  {
    var placed' := placed[t0 := placed[t0] + [e]];
    var lists' := lists[Held(t0) := On(lists, Held(t0))[1..]];
    forall r, k | 0 <= r < |cfg.rxSlots| && 0 <= k < |cfg.consumers[r]|
      ensures OrderOk(cfg, arr, lists', dequeued, placed', r, k)
    {
      MoveOrderAt(cfg, arr, lists, dequeued, placed, t0, e, r, k);
    }
  }
}
