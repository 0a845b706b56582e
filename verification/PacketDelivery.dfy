/** The second half of sin_pkt_sorter_proc: every non-empty work list is rewritten by its
    consumer, spliced onto that consumer's queue, and reset. */
module PacketDelivery {
  import opened Octets
  import opened Routing
  import opened PacketLists
  import opened PacketRewrite
  import opened WorkQueue
  import opened PacketSorter

  /** What the first k consumers put on queue q, when outs[j] is consumer j's queue and w[j]
      its work list. */
  ghost function To(outs: seq<WiQueue>, w: seq<seq<Pkt>>, q: WiQueue, k: nat): seq<Pkt>
    requires k <= |outs| == |w|
  {
    if k == 0 then [] else To(outs, w, q, k - 1) + if outs[k - 1] == q then w[k - 1] else []
  }

  lemma {:induction false} ToMembers(outs: seq<WiQueue>, w: seq<seq<Pkt>>, q: WiQueue, k: nat, x: Pkt)
    requires k <= |outs| == |w| && x in To(outs, w, q, k)
    ensures exists j :: 0 <= j < k && outs[j] == q && x in w[j]
  {
    if x !in To(outs, w, q, k - 1) {
      assert outs[k - 1] == q && x in w[k - 1];
    } else {
      ToMembers(outs, w, q, k - 1, x);
    }
  }

  /** Work lists and queues share nothing to begin with: base[j] is what queue outs[j]
      holds beforehand. */
  ghost predicate Separate(outs: seq<WiQueue>, lists: seq<SinList>, base: seq<seq<Pkt>>, w: seq<seq<Pkt>>) {
    && |outs| == |lists| == |base| == |w|
    && (forall i, j :: 0 <= i < j < |lists| ==> lists[i] != lists[j])
    && (forall i, j :: 0 <= i < |w| && 0 <= j < |w| && i != j ==> Unshared(w[i], w[j]))
    && (forall i, j :: 0 <= i < |w| && 0 <= j < |w| ==> Unshared(w[i], base[j]))
    && (forall i, j :: 0 <= i < |w| && 0 <= j < |w| && outs[i] != outs[j] ==> Unshared(base[i], base[j]))
    && (forall i, j :: 0 <= i < |w| && 0 <= j < |w| && outs[i] == outs[j] ==> base[i] == base[j])
  }

  ghost predicate Unshared(a: seq<Pkt>, b: seq<Pkt>) {
    forall x :: x in a ==> x !in b
  }

  ghost predicate Within(a: seq<Pkt>, pkts: set<Pkt>) {
    forall i :: 0 <= i < |a| ==> a[i] in pkts
  }

  /** The first k consumers have run: their lists are reset and their packets are on their
      queues, in order; the other lists are untouched. */
  ghost predicate Delivered(outs: seq<WiQueue>, lists: seq<SinList>, base: seq<seq<Pkt>>, w: seq<seq<Pkt>>, k: nat,
                            pkts: set<Pkt>)
    reads outs, lists, pkts`sinNext
  {
    && k <= |outs| == |lists| == |base| == |w|
    && (forall j :: 0 <= j < k ==> Empty(lists[j]))
    && (forall j :: k <= j < |lists| ==> Within(lists[j].items, pkts) && lists[j].items == w[j] && lists[j].Valid())
    && (forall j :: 0 <= j < |outs| ==>
         Within(outs[j].items, pkts) && outs[j].items == base[j] + To(outs, w, outs[j], k) && outs[j].Valid())
  }

  /** No queue holds packets of a list that has not been delivered, and different queues
      hold different packets. */
  lemma DeliveredApart(outs: seq<WiQueue>, lists: seq<SinList>, base: seq<seq<Pkt>>, w: seq<seq<Pkt>>, k: nat,
                       pkts: set<Pkt>)
    requires Separate(outs, lists, base, w) && Delivered(outs, lists, base, w, k, pkts)
    ensures forall i, j :: k <= i < |w| && 0 <= j < |w| ==> Unshared(w[i], outs[j].items)
    ensures forall i, j :: 0 <= i < |w| && 0 <= j < |w| && outs[i] != outs[j] ==> Unshared(outs[i].items, outs[j].items)
  {
    hide SinList.Valid;
    forall i, j | k <= i < |w| && 0 <= j < |w| ensures Unshared(w[i], outs[j].items) {
      forall x | x in w[i] ensures x !in outs[j].items {
        if x in To(outs, w, outs[j], k) { ToMembers(outs, w, outs[j], k, x); }
        assert Unshared(w[i], base[j]);
      }
    }
    forall i, j | 0 <= i < |w| && 0 <= j < |w| && outs[i] != outs[j] ensures Unshared(outs[i].items, outs[j].items) {
      forall x | x in outs[i].items ensures x !in outs[j].items {
        if x in To(outs, w, outs[i], k) { ToMembers(outs, w, outs[i], k, x); }
        if x in To(outs, w, outs[j], k) { ToMembers(outs, w, outs[j], k, x); }
        assert Unshared(base[i], base[j]);
      }
    }
  }

  /** pkt_consume on one list: the packets go to the end of the consumer's queue, and the
      list is reset. */
  method PutAndReset(ghost outs: seq<WiQueue>, ghost lists: seq<SinList>, ghost base: seq<seq<Pkt>>,
                     ghost w: seq<seq<Pkt>>,
                     ghost k: nat, ghost pkts: set<Pkt>, q: WiQueue, lst: SinList)
    requires Separate(outs, lists, base, w) && Delivered(outs, lists, base, w, k, pkts)
    requires k < |outs| && q == outs[k] && lst == lists[k] && lst.items != []
    modifies q, lst, pkts`sinNext
    ensures Delivered(outs, lists, base, w, k + 1, pkts)
  {
    hide To, Linked;
    PutReady(outs, lists, base, w, k, pkts);
    PutBeside(outs, lists, k, q, lst, pkts);
    lst.Reset();
    DeliveredNext(outs, lists, base, w, k, pkts);
  }

  lemma PutReady(outs: seq<WiQueue>, lists: seq<SinList>, base: seq<seq<Pkt>>, w: seq<seq<Pkt>>, k: nat, pkts: set<Pkt>)
    requires Separate(outs, lists, base, w) && Delivered(outs, lists, base, w, k, pkts) && k < |outs|
    ensures Unshared(lists[k].items, outs[k].items)
    ensures forall j :: k < j < |lists| ==> Avoids(lists[j].items, outs[k].items)
    ensures forall j :: 0 <= j < |outs| && outs[j] != outs[k] ==> Avoids(outs[j].items, outs[k].items)
  {
    hide Linked, To;
    DeliveredApart(outs, lists, base, w, k, pkts);
    assert Unshared(w[k], outs[k].items);
    forall j | k < j < |lists| ensures Avoids(lists[j].items, outs[k].items) {
      assert Unshared(w[j], outs[k].items);
    }
    forall j | 0 <= j < |outs| && outs[j] != outs[k] ensures Avoids(outs[j].items, outs[k].items) {
      assert Unshared(outs[j].items, outs[k].items);
    }
  }

  lemma DeliveredNext(outs: seq<WiQueue>, lists: seq<SinList>, base: seq<seq<Pkt>>, w: seq<seq<Pkt>>, k: nat,
                      pkts: set<Pkt>)
    requires k < |outs| == |lists| == |base| == |w|
    requires forall j :: 0 <= j <= k ==> Empty(lists[j])
    requires forall j :: k < j < |lists| ==> Within(lists[j].items, pkts) && lists[j].items == w[j] && lists[j].Valid()
    requires forall j :: 0 <= j < |outs| ==> outs[j].Valid() && Within(outs[j].items, pkts)
    requires forall j :: 0 <= j < |outs| ==>
      outs[j].items == (base[j] + To(outs, w, outs[j], k)) + if outs[j] == outs[k] then w[k] else []
    ensures Delivered(outs, lists, base, w, k + 1, pkts)
  {
    hide Linked, To, SinList.Valid, WiQueue.Valid;
    forall j | 0 <= j < |outs| ensures outs[j].items == base[j] + To(outs, w, outs[j], k + 1) {
      ToStep(outs, w, outs[j], k, base[j]);
    }
  }

  lemma ToStep(outs: seq<WiQueue>, w: seq<seq<Pkt>>, q: WiQueue, k: nat, base: seq<Pkt>)
    requires k < |outs| == |w|
    ensures base + To(outs, w, q, k + 1) == (base + To(outs, w, q, k)) + if outs[k] == q then w[k] else []
  {
    var t := To(outs, w, q, k);
    assert base + (t + w[k]) == (base + t) + w[k];
    assert base + (t + []) == (base + t) + [];
  }

  /** A splice onto one queue leaves the other queues and the later lists as they were. */
  method PutBeside(ghost outs: seq<WiQueue>, ghost lists: seq<SinList>, ghost k: nat, q: WiQueue, lst: SinList,
                   ghost pkts: set<Pkt>)
    requires k < |outs| == |lists| && q == outs[k] && lst == lists[k] && lst.items != [] && Unshared(lst.items, q.items)
    requires forall j :: k <= j < |lists| ==> Within(lists[j].items, pkts) && lists[j].Valid()
    requires forall j :: k < j < |lists| ==> Avoids(lists[j].items, q.items)
    requires forall j :: 0 <= j < |outs| ==> Within(outs[j].items, pkts) && outs[j].Valid()
    requires forall j :: 0 <= j < |outs| && outs[j] != q ==> Avoids(outs[j].items, q.items)
    modifies q, pkts`sinNext
    ensures forall j :: k < j < |lists| ==> lists[j].Valid()
    ensures forall j :: 0 <= j < |outs| ==> outs[j].Valid() && Within(outs[j].items, pkts)
    ensures forall j :: 0 <= j < |outs| ==> outs[j].items == old(outs[j].items) + if outs[j] == q then lst.items else []
  {
    assert forall i :: 0 <= i < |q.items| ==> q.items[i] in pkts;
    var signalled := q.PutItems(lst);
  }

  /** Avoidance by position, as the frame of a splice needs it. */
  ghost predicate Avoids(a: seq<Pkt>, b: seq<Pkt>) {
    forall i :: 0 <= i < |a| ==> a[i] !in b
  }

  // ---------- a consumer's rewriting loop ----------

  /** Every packet has a buffer of its own that holds its length. */
  ghost predicate OwnBuffers(ls: seq<Pkt>)
    reads ls`buf, ls`len
  {
    && (forall i :: 0 <= i < |ls| ==> ls[i].len <= ls[i].buf.Length)
    && (forall i, j :: 0 <= i < j < |ls| ==> ls[i].buf != ls[j].buf)
  }

  ghost function Contents(ls: seq<Pkt>): (data: seq<Bytes>)
    reads ls, set p | p in ls :: p.buf
    ensures |data| == |ls| && forall i :: 0 <= i < |ls| ==> data[i] == Content(ls[i])
  {
    seq(|ls|, i requires 0 <= i < |ls| reads ls, set p | p in ls :: p.buf => Content(ls[i]))
  }

  /** The first n packets hold f of what they held, data, the rest hold it still. */
  ghost predicate Partly(ls: seq<Pkt>, n: nat, data: seq<Bytes>, f: Bytes -> Bytes)
    reads ls, set p | p in ls :: p.buf
  {
    |data| == |ls| && forall i :: 0 <= i < |ls| ==> Content(ls[i]) == if i < n then f(data[i]) else data[i]
  }

  lemma NothingRewritten(ls: seq<Pkt>, data: seq<Bytes>, f: Bytes -> Bytes)
    requires |data| == |ls| && forall i :: 0 <= i < |ls| ==> data[i] == Content(ls[i])
    ensures Partly(ls, 0, data, f)
  {}

  lemma AllRewritten(ls: seq<Pkt>, data: seq<Bytes>, f: Bytes -> Bytes)
    requires Partly(ls, |ls|, data, f)
    ensures |data| == |ls| && forall i :: 0 <= i < |ls| ==> Content(ls[i]) == f(data[i])
  {}

  lemma NextLink(ls: seq<Pkt>, n: nat)
    requires Linked(ls) && n < |ls|
    ensures ls[n].sinNext == PktAt(ls, n + 1)
  {}

  /** A consumer with rewriting f: the loop over the list before it is put on the queue. */
  method RewriteList(head: Pkt?, f: Bytes -> Bytes, ghost ls: seq<Pkt>)
    requires Linked(ls) && head == PktAt(ls, 0) && OwnBuffers(ls) && LenKept(f)
    modifies set p | p in ls :: p.buf
    ensures forall i :: 0 <= i < |ls| ==> Content(ls[i]) == f(old(Content(ls[i])))
  {
    hide Content, Partly, LinkedOpen, OwnBuffers, LenKept;
    ghost var data := Contents(ls);
    NothingRewritten(ls, data, f);
    ghost var n := 0;
    var pkt := head;
    while pkt != null
      invariant 0 <= n <= |ls| && pkt == PktAt(ls, n) && Partly(ls, n, data, f)
      decreases |ls| - n
    {
      assert pkt == ls[n] && pkt in ls;
      NextLink(ls, n);
      RewriteNext(pkt, f, ls, n, data);
      pkt := pkt.sinNext;
      n := n + 1;
    }
    AllRewritten(ls, data, f);
  }

  /** One turn of a consumer's loop. */
  method RewriteNext(pkt: Pkt, f: Bytes -> Bytes, ghost ls: seq<Pkt>, ghost n: nat, ghost data: seq<Bytes>)
    requires n < |ls| && pkt == ls[n] && OwnBuffers(ls) && Partly(ls, n, data, f) && LenKept(f)
    modifies pkt.buf
    ensures Partly(ls, n + 1, data, f)
  {
    hide LenKept;
    var out := Rewriting(pkt, f);
    forall i | 0 <= i < |out| { pkt.buf[i] := out[i]; }
    assert pkt.buf[..pkt.len] == out;
  }

  method Rewriting(pkt: Pkt, f: Bytes -> Bytes) returns (out: Bytes)
    requires pkt.len <= pkt.buf.Length && LenKept(f)
    ensures out == f(Content(pkt)) && |out| == pkt.len
  {
    out := f(pkt.buf[..pkt.len]);
  }

  /** udpm_proc's loop, which is RewriteList's with the mirror in place of f. */
  method UdpmLoop(head: Pkt?, ghost ls: seq<Pkt>)
    requires Linked(ls) && head == PktAt(ls, 0) && OwnBuffers(ls)
    requires forall i :: 0 <= i < |ls| ==> ls[i].len >= UDP_MINLEN
    modifies set p | p in ls :: p.buf
    ensures forall i :: 0 <= i < |ls| ==> Content(ls[i]) == MirrorUdpPkt(old(Content(ls[i])))
  {
    hide Content, Partly, LinkedOpen, OwnBuffers, MirrorUdpPkt;
    ghost var data := Contents(ls);
    NothingRewritten(ls, data, MirrorUdpPkt);
    ghost var n := 0;
    var pkt := head;
    while pkt != null
      invariant 0 <= n <= |ls| && pkt == PktAt(ls, n) && Partly(ls, n, data, MirrorUdpPkt)
      decreases |ls| - n
    {
      assert pkt == ls[n] && pkt in ls;
      NextLink(ls, n);
      MirrorNext(pkt, ls, n, data);
      pkt := pkt.sinNext;
      n := n + 1;
    }
    AllRewritten(ls, data, MirrorUdpPkt);
  }

  method MirrorNext(pkt: Pkt, ghost ls: seq<Pkt>, ghost n: nat, ghost data: seq<Bytes>)
    requires n < |ls| && pkt == ls[n] && OwnBuffers(ls) && Partly(ls, n, data, MirrorUdpPkt) && pkt.len >= UDP_MINLEN
    modifies pkt.buf
    ensures Partly(ls, n + 1, data, MirrorUdpPkt)
  {
    hide Mirror;
    ghost var was := pkt.buf[..];
    MirrorOfPacket(was, pkt.len);
    assert was[..pkt.len] == pkt.buf[..pkt.len];
    MirrorUdp(pkt.buf, false);
    assert pkt.buf[..pkt.len] == pkt.buf[..][..pkt.len];
  }

  /** sin_ip4_icmp_proc's loop, which is RewriteList's with the replier in place of f. */
  method IcmpLoop(head: Pkt?, ghost ls: seq<Pkt>)
    requires Linked(ls) && head == PktAt(ls, 0) && OwnBuffers(ls)
    requires forall i :: 0 <= i < |ls| ==> ls[i].len >= ICMP_MINLEN
    modifies set p | p in ls :: p.buf
    ensures forall i :: 0 <= i < |ls| ==> Content(ls[i]) == AnswerPkt(old(Content(ls[i])))
  {
    hide Content, Partly, LinkedOpen, OwnBuffers, AnswerPkt;
    ghost var data := Contents(ls);
    NothingRewritten(ls, data, AnswerPkt);
    ghost var n := 0;
    var pkt := head;
    while pkt != null
      invariant 0 <= n <= |ls| && pkt == PktAt(ls, n) && Partly(ls, n, data, AnswerPkt)
      decreases |ls| - n
    {
      assert pkt == ls[n] && pkt in ls;
      NextLink(ls, n);
      AnswerNext(pkt, ls, n, data);
      pkt := pkt.sinNext;
      n := n + 1;
    }
    AllRewritten(ls, data, AnswerPkt);
  }

  method AnswerNext(pkt: Pkt, ghost ls: seq<Pkt>, ghost n: nat, ghost data: seq<Bytes>)
    requires n < |ls| && pkt == ls[n] && OwnBuffers(ls) && Partly(ls, n, data, AnswerPkt) && pkt.len >= ICMP_MINLEN
    modifies pkt.buf
    ensures Partly(ls, n + 1, data, AnswerPkt)
  {
    hide Req2Rpl;
    ghost var was := pkt.buf[..];
    ReplyOfPacket(was, pkt.len);
    assert was[..pkt.len] == pkt.buf[..pkt.len];
    ReplyIcmp(pkt.buf);
    assert pkt.buf[..pkt.len] == pkt.buf[..][..pkt.len];
  }

  // ---------- the delivery loop ----------

  /** The packets of the first k classes hold their consumer's rewriting of what they held,
      data; the others hold it still. */
  ghost predicate Consumed(ls: seq<Pkt>, cls: seq<nat>, fs: seq<Bytes -> Bytes>, data: seq<Bytes>, k: nat)
    reads ls`buf, ls`len, set p | p in ls :: p.buf
  {
    && |ls| == |cls| == |data|
    && forall i :: 0 <= i < |ls| ==>
         cls[i] < |fs| && Content(ls[i]) == if cls[i] < k then fs[cls[i]](data[i]) else data[i]
  }

  /** The work lists as values. */
  ghost function ByClass(ls: seq<Pkt>, cls: seq<nat>, n: nat): (w: seq<seq<Pkt>>)
    requires |ls| == |cls|
    ensures |w| == n && forall k :: 0 <= k < n ==> w[k] == Keep(ls, cls, k)
  {
    seq(n, k requires 0 <= k < n => Keep(ls, cls, k))
  }

  lemma {:induction false} KeepHas(ls: seq<Pkt>, cls: seq<nat>, k: nat, i: nat)
    requires i < |ls| == |cls| && cls[i] == k
    ensures ls[i] in Keep(ls, cls, k)
  {
    var n := |ls| - 1;
    if i < n {
      KeepHas(ls[..n], cls[..n], k, i);
    }
  }

  lemma {:induction false} KeepOwn(ls: seq<Pkt>, cls: seq<nat>, k: nat)
    requires |ls| == |cls| && OwnBuffers(ls)
    ensures OwnBuffers(Keep(ls, cls, k))
  {
    if ls != [] {
      var n := |ls| - 1;
      KeepOwn(ls[..n], cls[..n], k);
      var r := Keep(ls[..n], cls[..n], k);
      forall i | 0 <= i < |r| ensures r[i].buf != ls[n].buf {
        assert r[i] in r;
      }
    }
  }

  /** A class's list has exactly its class's packets, and nobody else's buffers. */
  lemma ClassBuffers(ls: seq<Pkt>, cls: seq<nat>, k: nat)
    requires |ls| == |cls| && OwnBuffers(ls)
    ensures var w := Keep(ls, cls, k);
      && OwnBuffers(w) && (forall m :: 0 <= m < |w| ==> w[m] in ls)
      && (forall i :: 0 <= i < |ls| && cls[i] == k ==> exists m :: 0 <= m < |w| && w[m] == ls[i])
      && (forall i, m :: 0 <= i < |ls| && cls[i] != k && 0 <= m < |w| ==> w[m].buf != ls[i].buf)
  {
    hide Keep, OwnBuffers;
    var w := Keep(ls, cls, k);
    KeepOwn(ls, cls, k);
    forall m | 0 <= m < |w| ensures w[m] in ls {
      var j := KeptFrom(ls, cls, k, m);
    }
    forall i | 0 <= i < |ls| && cls[i] == k ensures exists m :: 0 <= m < |w| && w[m] == ls[i] {
      KeepHas(ls, cls, k, i);
    }
    forall i, m | 0 <= i < |ls| && cls[i] != k && 0 <= m < |w| ensures w[m].buf != ls[i].buf {
      var j := KeptFrom(ls, cls, k, m);
      OwnAt(ls, i, j);
    }
  }

  lemma KeptFrom(ls: seq<Pkt>, cls: seq<nat>, k: nat, m: nat) returns (j: nat)
    requires |ls| == |cls| && m < |Keep(ls, cls, k)|
    ensures j < |ls| && ls[j] == Keep(ls, cls, k)[m] && cls[j] == k
  {
    hide Keep;
    var x := Keep(ls, cls, k)[m];
    assert x in Keep(ls, cls, k);
    j :| 0 <= j < |ls| && ls[j] == x && cls[j] == k;
  }

  lemma OwnAt(ls: seq<Pkt>, i: nat, j: nat)
    requires OwnBuffers(ls) && i < |ls| && j < |ls| && i != j
    ensures ls[i].buf != ls[j].buf
  {}

  /** Rewriting one class's packets. */
  method RewriteClass(head: Pkt?, f: Bytes -> Bytes, ghost ls: seq<Pkt>, ghost cls: seq<nat>,
                      ghost fs: seq<Bytes -> Bytes>, ghost data: seq<Bytes>, ghost k: nat)
    requires |ls| == |cls| && OwnBuffers(ls) && Consumed(ls, cls, fs, data, k) && k < |fs| && f == fs[k] && LenKept(f)
    requires Linked(Keep(ls, cls, k)) && head == PktAt(Keep(ls, cls, k), 0)
    modifies set p | p in ls :: p.buf
    ensures Consumed(ls, cls, fs, data, k + 1)
  {
    hide Linked, LinkedOpen, LenKept, Keep, OwnBuffers;
    ghost var w := Keep(ls, cls, k);
    ClassBuffers(ls, cls, k);
    RewriteList(head, f, w);
  }

  lemma SkipEmpty(outs: seq<WiQueue>, lists: seq<SinList>, base: seq<seq<Pkt>>, w: seq<seq<Pkt>>, k: nat,
                  pkts: set<Pkt>)
    requires Delivered(outs, lists, base, w, k, pkts) && k < |outs| && lists[k].items == []
    ensures Delivered(outs, lists, base, w, k + 1, pkts)
  {
    hide To;
    assert lists[k].Valid();
    DeliveredNext(outs, lists, base, w, k, pkts);
  }

  lemma SkipConsumed(ls: seq<Pkt>, cls: seq<nat>, fs: seq<Bytes -> Bytes>, data: seq<Bytes>, k: nat)
    requires Consumed(ls, cls, fs, data, k) && Keep(ls, cls, k) == []
    ensures Consumed(ls, cls, fs, data, k + 1)
  {
    hide Keep;
    forall i | 0 <= i < |ls| ensures cls[i] != k {
      if cls[i] == k { KeepHas(ls, cls, k, i); }
    }
  }

  /** One consumer of the delivery loop. */
  method ConsumeOne(ghost outs: seq<WiQueue>, ghost lists: seq<SinList>, ghost base: seq<seq<Pkt>>,
                    ghost ls: seq<Pkt>, ghost cls: seq<nat>, ghost fs: seq<Bytes -> Bytes>, ghost data: seq<Bytes>,
                    ghost k: nat, ghost pkts: set<Pkt>, q: WiQueue, lst: SinList, f: Bytes -> Bytes)
    requires |ls| == |cls| && k < |outs| == |lists| == |fs| && q == outs[k] && lst == lists[k] && f == fs[k]
      && LenKept(f)
    requires OwnBuffers(ls) && Separate(outs, lists, base, ByClass(ls, cls, |outs|))
    requires Delivered(outs, lists, base, ByClass(ls, cls, |outs|), k, pkts) && Consumed(ls, cls, fs, data, k)
    modifies q, lst, pkts`sinNext, set p | p in ls :: p.buf
    ensures Delivered(outs, lists, base, ByClass(ls, cls, |outs|), k + 1, pkts) && Consumed(ls, cls, fs, data, k + 1)
  {
    ghost var w := ByClass(ls, cls, |outs|);
    assert lst.items == w[k] == Keep(ls, cls, k) && lst.Valid();
    hide Delivered, Separate, Consumed, OwnBuffers, Keep;
    if lst.len != 0 {
      RewriteClass(lst.head, f, ls, cls, fs, data, k);
      PutAndReset(outs, lists, base, w, k, pkts, q, lst);
    } else {
      SkipEmpty(outs, lists, base, w, k, pkts);
      SkipConsumed(ls, cls, fs, data, k);
    }
  }

  function OutsOf(es: seq<PsEntry>, d: WiQueue): (outs: seq<WiQueue>)
    ensures |outs| == |es| + 1 && outs[|es|] == d && forall k :: 0 <= k < |es| ==> outs[k] == es[k].outq
  {
    if es == [] then [d] else [es[0].outq] + OutsOf(es[1..], d)
  }

  function ConsumesOf(es: seq<PsEntry>, d: Bytes -> Bytes): (fs: seq<Bytes -> Bytes>)
    ensures |fs| == |es| + 1 && fs[|es|] == d && forall k :: 0 <= k < |es| ==> fs[k] == es[k].consume
  {
    if es == [] then [d] else [es[0].consume] + ConsumesOf(es[1..], d)
  }

  /** The delivery loop, over the entries and then the default consumer. */
  method Deliver(s: PktSorter, ghost outs: seq<WiQueue>, ghost lists: seq<SinList>, ghost base: seq<seq<Pkt>>,
                 ghost ls: seq<Pkt>, ghost cls: seq<nat>, ghost fs: seq<Bytes -> Bytes>, ghost data: seq<Bytes>,
                     ghost pkts: set<Pkt>)
    requires s.Valid() && lists == s.Lists() && outs == OutsOf(s.entries, s.outq)
      && fs == ConsumesOf(s.entries, s.consumeDefault)
    requires |ls| == |cls| && OwnBuffers(ls) && Separate(outs, lists, base, ByClass(ls, cls, |outs|))
    requires Delivered(outs, lists, base, ByClass(ls, cls, |outs|), 0, pkts) && Consumed(ls, cls, fs, data, 0)
    requires forall k :: 0 <= k < |fs| ==> LenKept(fs[k])
    modifies outs, lists, pkts`sinNext, set p | p in ls :: p.buf
    ensures s.Valid() && Delivered(outs, lists, base, ByClass(ls, cls, |outs|), |outs|, pkts)
      && Consumed(ls, cls, fs, data, |fs|)
  {
    hide PktSorter.Valid, Delivered, Separate, Consumed, OwnBuffers, LenKept, OutsOf, ConsumesOf, ListsOf, TastesOf,
         ByClass, PktSorter.Lists, PktSorter.Tastes;
    ghost var n := |s.entries|;
    EntryFacts(s, outs, lists, fs);
    DeliverEntries(s.first, s.entries, outs, lists, base, ls, cls, fs, data, pkts);
    ConsumeOne(outs, lists, base, ls, cls, fs, data, n, pkts, s.outq, s.wrklist, s.consumeDefault);
  }

  /** The entries, in order, and the default consumer after them. */
  lemma EntryFacts(s: PktSorter, outs: seq<WiQueue>, lists: seq<SinList>, fs: seq<Bytes -> Bytes>)
    requires s.Valid() && lists == s.Lists() && outs == OutsOf(s.entries, s.outq)
    requires fs == ConsumesOf(s.entries, s.consumeDefault)
    ensures var es, n := s.entries, |s.entries|;
      && s.first == EntryAt(es, 0) && (forall k :: 0 <= k < n ==> es[k].next == EntryAt(es, k + 1))
      && |outs| == |lists| == |fs| == n + 1
      && (forall k :: 0 <= k < n ==> outs[k] == es[k].outq && lists[k] == es[k].wrklist && fs[k] == es[k].consume)
      && outs[n] == s.outq && lists[n] == s.wrklist && fs[n] == s.consumeDefault
  {
    hide ListsOf, TastesOf, OutsOf, ConsumesOf;
  }

  /** The loop over the registered entries. */
  method DeliverEntries(first: PsEntry?, ghost es: seq<PsEntry>,
                        ghost outs: seq<WiQueue>, ghost lists: seq<SinList>, ghost base: seq<seq<Pkt>>,
                        ghost ls: seq<Pkt>, ghost cls: seq<nat>, ghost fs: seq<Bytes -> Bytes>, ghost data: seq<Bytes>,
                            ghost pkts: set<Pkt>)
    requires first == EntryAt(es, 0) && forall k :: 0 <= k < |es| ==> es[k].next == EntryAt(es, k + 1)
    requires |outs| == |lists| == |fs| == |es| + 1
    requires forall k :: 0 <= k < |es| ==> outs[k] == es[k].outq && lists[k] == es[k].wrklist && fs[k] == es[k].consume
    requires |ls| == |cls| && OwnBuffers(ls) && Separate(outs, lists, base, ByClass(ls, cls, |outs|))
    requires Delivered(outs, lists, base, ByClass(ls, cls, |outs|), 0, pkts) && Consumed(ls, cls, fs, data, 0)
    requires forall k :: 0 <= k < |fs| ==> LenKept(fs[k])
    modifies outs, lists, pkts`sinNext, set p | p in ls :: p.buf
    ensures Delivered(outs, lists, base, ByClass(ls, cls, |outs|), |es|, pkts) && Consumed(ls, cls, fs, data, |es|)
  {
    hide Delivered, Separate, Consumed, OwnBuffers, LenKept, ByClass;
    ghost var k := 0;
    var psep := first;
    while psep != null
      invariant 0 <= k <= |es| && psep == EntryAt(es, k) && OwnBuffers(ls)
      invariant Delivered(outs, lists, base, ByClass(ls, cls, |outs|), k, pkts) && Consumed(ls, cls, fs, data, k)
      decreases |es| - k
    {
      assert psep == es[k] && psep.outq == outs[k] && psep.wrklist == lists[k];
      assert outs[k] in outs && lists[k] in lists;
      ConsumeOne(outs, lists, base, ls, cls, fs, data, k, pkts, psep.outq, psep.wrklist, psep.consume);
      psep := psep.next;
      k := k + 1;
    }
  }

  /** Queues and the incoming list share nothing, and every packet is in pkts. */
  ghost predicate Ready(outs: seq<WiQueue>, ls: seq<Pkt>, pkts: set<Pkt>)
    reads outs, pkts`sinNext
  {
    && Within(ls, pkts)
    && (forall j :: 0 <= j < |outs| ==> Within(outs[j].items, pkts) && Unshared(ls, outs[j].items) && outs[j].Valid())
    && (forall i, j :: 0 <= i < |outs| && 0 <= j < |outs| && outs[i] != outs[j] ==>
      Unshared(outs[i].items, outs[j].items))
  }

  ghost function ItemsOf(outs: seq<WiQueue>): (base: seq<seq<Pkt>>)
    reads outs
    ensures |base| == |outs| && forall j :: 0 <= j < |outs| ==> base[j] == outs[j].items
  {
    seq(|outs|, j requires 0 <= j < |outs| reads outs => outs[j].items)
  }

  lemma SeparateAtStart(outs: seq<WiQueue>, lists: seq<SinList>, ls: seq<Pkt>, cls: seq<nat>, pkts: set<Pkt>)
    requires Ready(outs, ls, pkts) && |lists| == |outs| && |ls| == |cls| && Distinct(ls)
    requires forall j, k :: 0 <= j < k < |lists| ==> lists[j] != lists[k]
    ensures Separate(outs, lists, ItemsOf(outs), ByClass(ls, cls, |outs|))
  {
    hide Keep;
    var base, w := ItemsOf(outs), ByClass(ls, cls, |outs|);
    forall i, j | 0 <= i < |w| && 0 <= j < |w| && i != j ensures Unshared(w[i], w[j]) {
      KeepApart(ls, cls, i, j);
    }
    forall i, j | 0 <= i < |w| && 0 <= j < |w| ensures Unshared(w[i], base[j]) {
      forall x | x in w[i] ensures x !in base[j] {
        assert x in ls && Unshared(ls, outs[j].items);
      }
    }
    forall i, j | 0 <= i < |w| && 0 <= j < |w| && outs[i] != outs[j] ensures Unshared(base[i], base[j]) {
      assert Unshared(outs[i].items, outs[j].items);
    }
  }

  lemma DeliveredAtStart(outs: seq<WiQueue>, lists: seq<SinList>, base: seq<seq<Pkt>>, ls: seq<Pkt>, cls: seq<nat>,
                         pkts: set<Pkt>)
    requires Parted(lists, ls, |ls|, cls) && |lists| == |outs| == |base|
    requires Within(ls, pkts)
    requires forall j :: 0 <= j < |outs| ==> Within(outs[j].items, pkts) && outs[j].items == base[j] && outs[j].Valid()
    ensures Delivered(outs, lists, base, ByClass(ls, cls, |outs|), 0, pkts)
  {
    hide Keep, Linked, LinkedOpen;
    assert ls[..|ls|] == ls && cls[..|cls|] == cls;
    forall j | 0 <= j < |lists| ensures Within(lists[j].items, pkts) {
      forall i | 0 <= i < |lists[j].items| ensures lists[j].items[i] in pkts {
        assert lists[j].items[i] in ls;
      }
    }
    forall j | 0 <= j < |outs| ensures outs[j].items == base[j] + To(outs, ByClass(ls, cls, |outs|), outs[j], 0) {}
  }

  /** sin_pkt_sorter_proc.  Each packet goes, rewritten, to the queue of the first consumer
      whose taste accepts it, or to the default consumer's; every queue gets its consumers'
      packets in consumer order and arrival order, after what it held; the sorter is at
      rest again. */
  method Proc(s: PktSorter, pl: SinList, ghost cls: seq<nat>, ghost data: seq<Bytes>, ghost pkts: set<Pkt>)
    requires s.Valid() && s.AtRest() && pl.Valid() && pl !in s.Lists() && OwnBuffers(pl.items)
    requires forall k :: 0 <= k <= |s.entries| ==> LenKept(ConsumesOf(s.entries, s.consumeDefault)[k])
    requires Ready(OutsOf(s.entries, s.outq), pl.items, pkts)
    requires Classified(s.Tastes(), pl.items, cls)
    requires |data| == |pl.items| && forall i :: 0 <= i < |data| ==> data[i] == Content(pl.items[i])
    modifies OutsOf(s.entries, s.outq), s.Lists(), pkts`sinNext, set p | p in pl.items :: p.buf
    ensures s.Valid() && s.AtRest() && s.entries == old(s.entries) && pl.items == old(pl.items)
    ensures var outs, n := OutsOf(s.entries, s.outq), |s.entries| + 1;
      forall j :: 0 <= j < n ==>
        && outs[j].Valid()
        && outs[j].items == old(ItemsOf(OutsOf(s.entries, s.outq)))[j] + To(outs, ByClass(pl.items, cls, n), outs[j], n)
    ensures forall i :: 0 <= i < |pl.items| ==>
      cls[i] <= |s.entries| && Content(pl.items[i]) == ConsumesOf(s.entries, s.consumeDefault)[cls[i]](data[i])
  {
    hide PktSorter.Valid, PktSorter.AtRest, SinList.Valid, WiQueue.Valid, PktSorter.Lists, PktSorter.Tastes, Separate,
         Delivered, Consumed, Ready, Classified, OwnBuffers, LenKept, To, Keep, Content, ListsOf, TastesOf, OutsOf,
         ConsumesOf, FirstMatch, Empty, ItemsOf, ByClass, Within, Linked;
    ghost var ls, lists, n := pl.items, s.Lists(), |s.entries| + 1;
    ghost var outs, fs := OutsOf(s.entries, s.outq), ConsumesOf(s.entries, s.consumeDefault);
    ghost var base := ItemsOf(outs);
    ProcStart(s, pl, cls, data, pkts);
    SortThenDeliver(s, pl, outs, lists, base, cls, fs, data, pkts);
    AllDelivered(outs, lists, base, ByClass(ls, cls, n), pkts);
    AllConsumed(ls, cls, fs, data);
    RestOf(s);
  }

  /** What holds before the packets are sorted. */
  lemma ProcStart(s: PktSorter, pl: SinList, cls: seq<nat>, data: seq<Bytes>, pkts: set<Pkt>)
    requires s.Valid() && pl.Valid() && Ready(OutsOf(s.entries, s.outq), pl.items, pkts)
    requires Classified(s.Tastes(), pl.items, cls)
    requires |data| == |pl.items| && forall i :: 0 <= i < |data| ==> data[i] == Content(pl.items[i])
    ensures |cls| == |pl.items| && Within(pl.items, pkts)
    ensures var outs := OutsOf(s.entries, s.outq);
      && Separate(outs, s.Lists(), ItemsOf(outs), ByClass(pl.items, cls, |outs|))
      && Consumed(pl.items, cls, ConsumesOf(s.entries, s.consumeDefault), data, 0)
  {
    hide Separate, Consumed, OwnBuffers, Keep, Content, ListsOf, TastesOf, OutsOf, ConsumesOf, FirstMatch, ItemsOf,
         ByClass, WiQueue.Valid;
    SeparateAtStart(OutsOf(s.entries, s.outq), s.Lists(), pl.items, cls, pkts);
    ConsumedAtStart(s.Tastes(), pl.items, cls, ConsumesOf(s.entries, s.consumeDefault), data);
  }

  lemma RestOf(s: PktSorter)
    requires forall k :: 0 <= k < |s.Lists()| ==> Empty(s.Lists()[k])
    ensures s.AtRest()
  {}

  lemma AllDelivered(outs: seq<WiQueue>, lists: seq<SinList>, base: seq<seq<Pkt>>, w: seq<seq<Pkt>>, pkts: set<Pkt>)
    requires Delivered(outs, lists, base, w, |outs|, pkts)
    ensures |outs| == |lists| == |base| == |w|
    ensures forall j :: 0 <= j < |lists| ==> Empty(lists[j])
    ensures forall j :: 0 <= j < |outs| ==> outs[j].Valid() && outs[j].items == base[j] + To(outs, w, outs[j], |outs|)
  {
    hide To, Empty, Within, SinList.Valid, WiQueue.Valid;
  }

  lemma AllConsumed(ls: seq<Pkt>, cls: seq<nat>, fs: seq<Bytes -> Bytes>, data: seq<Bytes>)
    requires Consumed(ls, cls, fs, data, |fs|)
    ensures |cls| == |data| == |ls|
    ensures forall i :: 0 <= i < |ls| ==> cls[i] < |fs| && Content(ls[i]) == fs[cls[i]](data[i])
  {
    hide Content;
  }

  lemma ConsumedAtStart(tastes: seq<Taste>, ls: seq<Pkt>, cls: seq<nat>, fs: seq<Bytes -> Bytes>, data: seq<Bytes>)
    requires Classified(tastes, ls, cls) && |fs| == |tastes| + 1 && |data| == |ls|
    requires forall i :: 0 <= i < |data| ==> data[i] == Content(ls[i])
    ensures Consumed(ls, cls, fs, data, 0)
  {}

  method SortThenDeliver(s: PktSorter, pl: SinList, ghost outs: seq<WiQueue>, ghost lists: seq<SinList>,
                         ghost base: seq<seq<Pkt>>,
                         ghost cls: seq<nat>, ghost fs: seq<Bytes -> Bytes>, ghost data: seq<Bytes>,
                             ghost pkts: set<Pkt>)
    requires s.Valid() && s.AtRest() && pl.Valid() && lists == s.Lists() && pl !in lists && OwnBuffers(pl.items)
    requires outs == OutsOf(s.entries, s.outq) && fs == ConsumesOf(s.entries, s.consumeDefault) && base == ItemsOf(outs)
    requires forall k :: 0 <= k < |fs| ==> LenKept(fs[k])
    requires Ready(outs, pl.items, pkts) && Within(pl.items, pkts) && Classified(s.Tastes(), pl.items, cls)
    requires |cls| == |pl.items| && Separate(outs, lists, base, ByClass(pl.items, cls, |outs|))
      && Consumed(pl.items, cls, fs, data, 0)
    modifies outs, lists, pkts`sinNext, set p | p in pl.items :: p.buf
    ensures s.Valid() && s.entries == old(s.entries) && pl.items == old(pl.items)
    ensures Delivered(outs, lists, base, ByClass(pl.items, cls, |outs|), |outs|, pkts)
      && Consumed(pl.items, cls, fs, data, |fs|)
  {
    hide PktSorter.Valid, PktSorter.AtRest, SinList.Valid, Content, Linked;
    hide Ready, Delivered, Separate, Consumed, OwnBuffers, LenKept, OutsOf, ConsumesOf, ListsOf, TastesOf, ByClass,
         ItemsOf, Classified;
    assert forall i :: 0 <= i < |pl.items| ==> pl.items[i] in pkts;
    ghost var ls := pl.items;
    SortKeepingQueues(s, pl, outs, lists, base, cls, pkts);
    Deliver(s, outs, lists, base, ls, cls, fs, data, pkts);
  }

  /** The relinking loop, seen from the queues: they are as they were. */
  method SortKeepingQueues(s: PktSorter, pl: SinList, ghost outs: seq<WiQueue>, ghost lists: seq<SinList>,
                           ghost base: seq<seq<Pkt>>,
                           ghost cls: seq<nat>, ghost pkts: set<Pkt>)
    requires s.Valid() && s.AtRest() && pl.Valid() && lists == s.Lists() && pl !in lists
    requires outs == OutsOf(s.entries, s.outq) && base == ItemsOf(outs)
    requires Ready(outs, pl.items, pkts) && Classified(s.Tastes(), pl.items, cls) && |cls| == |pl.items|
    modifies lists, pl.items`sinNext
    ensures s.Valid() && Delivered(outs, lists, base, ByClass(pl.items, cls, |outs|), 0, pkts)
  {
    hide OutsOf, ListsOf, TastesOf, ByClass, Keep, Classified, To, Ready, Parted, Delivered, Linked, LinkedOpen,
         ItemsOf;
    QueuesUntouched(outs, pl.items, pkts);
    PartitionBeside(s, pl, outs, cls);
    DeliveredAtStart(outs, lists, base, pl.items, cls, pkts);
  }

  method PartitionBeside(s: PktSorter, pl: SinList, ghost outs: seq<WiQueue>, ghost cls: seq<nat>)
    requires s.Valid() && s.AtRest() && pl.Valid() && pl !in s.Lists() && Classified(s.Tastes(), pl.items, cls)
    requires forall j :: 0 <= j < |outs| ==> Avoids(outs[j].items, pl.items) && outs[j].Valid()
    modifies s.Lists(), pl.items`sinNext
    ensures s.Valid() && s.Lists() == old(s.Lists()) && Parted(s.Lists(), pl.items, |pl.items|, cls)
    ensures forall j :: 0 <= j < |outs| ==> outs[j].Valid()
  {
    hide ListsOf, TastesOf, Keep, Classified, Parted;
    s.Partition(pl, cls);
  }

  /** Relinking the incoming packets does not touch a queue. */
  lemma QueuesUntouched(outs: seq<WiQueue>, ls: seq<Pkt>, pkts: set<Pkt>)
    requires Ready(outs, ls, pkts)
    ensures Within(ls, pkts)
    ensures forall j :: 0 <= j < |outs| ==>
      Avoids(outs[j].items, ls) && Within(outs[j].items, pkts) && outs[j].Valid()
  {
    forall j | 0 <= j < |outs| ensures Avoids(outs[j].items, ls) {
      assert Unshared(ls, outs[j].items);
    }
  }
}
