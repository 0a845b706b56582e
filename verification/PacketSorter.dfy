/** sin_pkt_sorter on the heap: the relinking loop and the delivery to consumers. */
module PacketSorter {
  import opened Octets
  import opened Routing
  import opened PacketLists
  import opened WorkQueue

  /** What a packet carries. */
  function Content(p: Pkt): Bytes
    reads p`buf, p`len, p.buf
  {
    if p.len <= p.buf.Length then p.buf[..p.len] else p.buf[..]
  }

  /** A registered consumer: what it accepts, what it turns a packet into, and the queue it
      puts packets on. */
  class PsEntry {
    const taste: Taste
    const consume: Bytes -> Bytes
    const outq: WiQueue
    const wrklist: SinList
    var next: PsEntry?

    constructor (taste: Taste, consume: Bytes -> Bytes, outq: WiQueue, next: PsEntry?)
      ensures this.taste == taste && this.consume == consume && this.outq == outq && this.next == next
      ensures fresh(wrklist) && Empty(wrklist)
    {
      this.taste, this.consume, this.outq, this.next := taste, consume, outq, next;
      wrklist := new SinList();
    }
  }

  ghost predicate Empty(l: SinList)
    reads l
  {
    l.head == null && l.tail == null && l.len == 0 && l.items == []
  }

  function ListsOf(es: seq<PsEntry>, d: SinList): (ls: seq<SinList>)
    ensures |ls| == |es| + 1 && ls[|es|] == d
    ensures forall k :: 0 <= k < |es| ==> ls[k] == es[k].wrklist
  {
    if es == [] then [d] else [es[0].wrklist] + ListsOf(es[1..], d)
  }

  lemma OneMore(ent: PsEntry, es: seq<PsEntry>, d: SinList)
    ensures ListsOf([ent] + es, d) == [ent.wrklist] + ListsOf(es, d)
    ensures TastesOf([ent] + es) == [ent.taste] + TastesOf(es)
  {
    assert ([ent] + es)[1..] == es;
  }

  lemma ChainOneMore(ent: PsEntry, es: seq<PsEntry>)
    requires ent.next == EntryAt(es, 0) && forall k :: 0 <= k < |es| ==> es[k].next == EntryAt(es, k + 1)
    ensures forall k :: 0 <= k < |[ent] + es| ==> ([ent] + es)[k].next == EntryAt([ent] + es, k + 1)
  {
    forall k | 0 <= k < |[ent] + es| ensures ([ent] + es)[k].next == EntryAt([ent] + es, k + 1) {
      if k > 0 { assert es[k - 1].next == EntryAt(es, k); }
    }
  }

  function EntryAt(es: seq<PsEntry>, k: nat): PsEntry? {
    if k < |es| then es[k] else null
  }

  function TastesOf(es: seq<PsEntry>): (ts: seq<Taste>)
    ensures |ts| == |es| && forall k :: 0 <= k < |es| ==> ts[k] == es[k].taste
  {
    if es == [] then [] else [es[0].taste] + TastesOf(es[1..])
  }

  class PktSorter {
    var first: PsEntry?
    const consumeDefault: Bytes -> Bytes
    const outq: WiQueue
    const wrklist: SinList
    ghost var entries: seq<PsEntry>

    constructor (outq: WiQueue, consumeDefault: Bytes -> Bytes)
      ensures Valid() && AtRest() && entries == [] && this.outq == outq && this.consumeDefault == consumeDefault
      ensures fresh(wrklist)
    {
      first, this.outq, this.consumeDefault, entries := null, outq, consumeDefault, [];
      wrklist := new SinList();
    }

    /** The work lists, the default consumer's last. */
    ghost function Lists(): (ls: seq<SinList>)
      reads this
      ensures |ls| == |entries| + 1
    {
      ListsOf(entries, wrklist)
    }

    ghost function Tastes(): (ts: seq<Taste>)
      reads this
      ensures |ts| == |entries|
    {
      TastesOf(entries)
    }

    ghost predicate Valid()
      reads this, entries
    {
      && first == EntryAt(entries, 0)
      && (forall k :: 0 <= k < |entries| ==> entries[k].next == EntryAt(entries, k + 1))
      && (forall j, k :: 0 <= j < k <= |entries| ==> Lists()[j] != Lists()[k])
    }

    ghost predicate AtRest()
      reads this, Lists()
    {
      forall k :: 0 <= k <= |entries| ==> Empty(Lists()[k])
    }

    /** sin_pkt_sorter_reg: the newest entry is asked first. */
    method Reg(outq: WiQueue, taste: Taste, consume: Bytes -> Bytes) returns (ent: PsEntry)
      requires Valid() && AtRest()
      modifies this
      ensures Valid() && AtRest() && fresh(ent) && fresh(ent.wrklist)
      ensures entries == [ent] + old(entries) && Tastes() == [taste] + old(Tastes())
      ensures ent.outq == outq && ent.consume == consume
    {
      hide ListsOf, TastesOf;
      ghost var was := entries;
      forall k | 0 <= k < |Lists()| ensures allocated(Lists()[k]) {
        if k < |was| { assert Lists()[k] == was[k].wrklist; }
      }
      ghost var lists := Lists();
      ent := new PsEntry(taste, consume, outq, first);
      assert ent.wrklist !in lists;
      first := ent;
      entries := [ent] + entries;
      OneMore(ent, was, wrklist);
      ChainOneMore(ent, was);
      hide Empty;
    }

    /** The inner loop of sin_pkt_sorter_proc: the first entry whose taste accepts. */
    method FindEntry(pkt: Pkt) returns (psep: PsEntry?)
      requires Valid()
      ensures psep == EntryAt(entries, FirstMatch(Tastes(), Content(pkt)))
    {
      hide ListsOf, TastesOf, FirstMatch;
      psep := first;
      ghost var k := 0;
      while psep != null
        invariant 0 <= k <= |entries|
        invariant psep == EntryAt(entries, k)
        invariant forall j :: 0 <= j < k ==> !Tastes()[j](Content(pkt))
        decreases |entries| - k
      {
        var data := if pkt.len <= pkt.buf.Length then pkt.buf[..pkt.len] else pkt.buf[..];
        if psep.taste(data) {
          assert Tastes()[k](Content(pkt));
          return;
        }
        assert psep == entries[k];
        psep := psep.next;
        k := k + 1;
      }
    }

    /** The relinking loop: each packet is unlinked and appended to the work list of the
        first entry that accepts it, or to the default one.  Every work list ends up with
        the packets of its class, in arrival order; pl's header is left stale. */
    method Partition(pl: SinList, ghost cls: seq<nat>)
      requires Valid() && AtRest() && pl.Valid() && pl !in Lists() && Classified(Tastes(), pl.items, cls)
      modifies pl.items`sinNext, Lists()
      ensures Valid() && Parted(Lists(), pl.items, |pl.items|, cls)
    {
      NothingParted(Lists(), pl.items, cls);
      RelinkAll(pl.head, pl.items, cls);
    }

    method RelinkAll(head: Pkt?, ghost ls: seq<Pkt>, ghost cls: seq<nat>)
      requires Valid() && head == PktAt(ls, 0) && Classified(Tastes(), ls, cls) && Parted(Lists(), ls, 0, cls)
      modifies ls`sinNext, Lists()
      ensures Valid() && Parted(Lists(), ls, |ls|, cls)
    {
      hide Valid, AtRest, Parted, Classified, TastesOf, ListsOf, FirstMatch, Linked, LinkedOpen, Keep, Empty, Content;
      ghost var tastes, lists := Tastes(), Lists();
      ghost var i := 0;
      var pkt := head;
      while pkt != null
        invariant 0 <= i <= |ls| && pkt == PktAt(ls, i)
        invariant Valid() && Tastes() == tastes && Lists() == lists
        invariant Classified(tastes, ls, cls) && Parted(lists, ls, i, cls)
        decreases |ls| - i
      {
        var lst := FindList(pkt);
        ClassOf(tastes, ls, cls, i);
        pkt := Relink(lists, lst, pkt, ls, i, cls);
        i := i + 1;
      }
    }

    /** The work list a packet goes to. */
    method FindList(pkt: Pkt) returns (lst: SinList)
      requires Valid()
      ensures FirstMatch(Tastes(), Content(pkt)) <= |entries| && lst == Lists()[FirstMatch(Tastes(), Content(pkt))]
      ensures lst in Lists()
    {
      var psep := FindEntry(pkt);
      lst := if psep != null then psep.wrklist else wrklist;
      assert lst == Lists()[FirstMatch(Tastes(), Content(pkt))];
    }
  }

  /** cls gives the class of each packet: the first taste that accepts its contents. */
  ghost predicate Classified(tastes: seq<Taste>, ls: seq<Pkt>, cls: seq<nat>)
    reads ls`buf, ls`len, set p | p in ls :: p.buf
  {
    |cls| == |ls| && forall j :: 0 <= j < |ls| ==> cls[j] == FirstMatch(tastes, Content(ls[j]))
  }

  lemma ClassOf(tastes: seq<Taste>, ls: seq<Pkt>, cls: seq<nat>, i: nat)
    requires Classified(tastes, ls, cls) && i < |ls|
    ensures |cls| == |ls| && cls[i] == FirstMatch(tastes, Content(ls[i])) <= |tastes|
  {}

  /** The first i packets of ls have been relinked to the lists of their classes; the rest
      are chained as they came. */
  ghost predicate Parted(lists: seq<SinList>, ls: seq<Pkt>, i: nat, cls: seq<nat>)
    reads lists, ls`sinNext
  {
    && i <= |ls| == |cls| && Distinct(ls)
    && ChainFrom(ls, i)
    && (forall j, k :: 0 <= j < k < |lists| ==> lists[j] != lists[k])
    && (forall k :: 0 <= k < |lists| ==>
         lists[k].items == Keep(ls[..i], cls[..i], k)
         && (forall x :: 0 <= x < |lists[k].items| ==> lists[k].items[x] in ls) && lists[k].Valid())
  }

  lemma NothingParted(lists: seq<SinList>, ls: seq<Pkt>, cls: seq<nat>)
    requires |cls| == |ls| && Linked(ls) && forall k :: 0 <= k < |lists| ==> Empty(lists[k])
    requires forall j, k :: 0 <= j < k < |lists| ==> lists[j] != lists[k]
    ensures Parted(lists, ls, 0, cls)
  {}

  /** One packet of the loop: unlinked, and appended to its class's list. */
  method Relink(ghost lists: seq<SinList>, lst: SinList, pkt: Pkt, ghost ls: seq<Pkt>, ghost i: nat,
                ghost cls: seq<nat>)
    returns (pktNext: Pkt?)
    requires i < |ls| == |cls| && pkt == ls[i] && cls[i] < |lists| && lst == lists[cls[i]]
    requires Parted(lists, ls, i, cls)
    modifies ls`sinNext, lst
    ensures pktNext == PktAt(ls, i + 1) && Parted(lists, ls, i + 1, cls)
  {
    hide Keep;
    ListsApart(ls, cls, i, lists);
    pktNext := pkt.sinNext;
    Unlink(lists, pkt);
    NotAhead(ls, i, lst);
    AppendTo(lists, cls[i], lst, pkt);
    forall j | 0 <= j < |lists|
      ensures lists[j].items == Keep(ls[..i + 1], cls[..i + 1], j)
      ensures forall x :: 0 <= x < |lists[j].items| ==> lists[j].items[x] in ls
    {
      KeepStep(ls, cls, i, j);
    }
  }

  /** The lists of one sorter share no packet, and the packet at hand is on none. */
  lemma ListsApart(ls: seq<Pkt>, cls: seq<nat>, i: nat, lists: seq<SinList>)
    requires i < |ls| == |cls| && Distinct(ls)
    requires forall k :: 0 <= k < |lists| ==> lists[k].items == Keep(ls[..i], cls[..i], k)
    ensures forall j, k :: 0 <= j < |lists| && 0 <= k < |lists| && j != k ==> Disjoint(lists[j], lists[k])
    ensures forall k, x :: 0 <= k < |lists| && x in lists[k].items ==> x in ls[..i]
    ensures forall k :: 0 <= k < |lists| ==> ls[i] !in lists[k].items
  {
    hide Keep;
    forall j, k | 0 <= j < |lists| && 0 <= k < |lists| && j != k ensures Disjoint(lists[j], lists[k]) {
      KeepApart(ls[..i], cls[..i], j, k);
    }
  }

  lemma KeepStep(ls: seq<Pkt>, cls: seq<nat>, i: nat, j: nat)
    requires i < |ls| == |cls|
    ensures Keep(ls[..i + 1], cls[..i + 1], j) == Keep(ls[..i], cls[..i], j) + if j == cls[i] then [ls[i]] else []
  {
    assert (ls[..i + 1])[..i] == ls[..i] && (cls[..i + 1])[..i] == cls[..i];
  }

  lemma NotAhead(ls: seq<Pkt>, i: nat, lst: SinList)
    requires i < |ls| && Distinct(ls) && forall x :: x in lst.items ==> x in ls[..i]
    ensures forall j :: i <= j < |ls| ==> ls[j] !in lst.items
    ensures forall x :: 0 <= x < |lst.items| ==> lst.items[x] in ls
  {
    forall x | 0 <= x < |lst.items| ensures lst.items[x] in ls { assert lst.items[x] in lst.items; }
  }

  ghost predicate Disjoint(a: SinList, b: SinList)
    reads a`items, b`items
  {
    forall x :: x in a.items ==> x !in b.items
  }

  /** SIN_TYPE_LINK(pkt, NULL) on a packet that is on none of the lists. */
  method Unlink(ghost lists: seq<SinList>, p: Pkt)
    requires forall k :: 0 <= k < |lists| ==> lists[k].Valid() && p !in lists[k].items
    modifies p`sinNext
    ensures p.sinNext == null && forall k :: 0 <= k < |lists| ==> lists[k].Valid()
  {
    forall k | 0 <= k < |lists| ensures forall x :: 0 <= x < |lists[k].items| ==> lists[k].items[x] != p {
      assert p !in lists[k].items;
    }
    p.sinNext := null;
  }

  /** Appending to one list leaves the others as they were. */
  method AppendTo(ghost lists: seq<SinList>, ghost k: nat, lst: SinList, p: Pkt)
    requires k < |lists| && lists[k] == lst && forall i, j :: 0 <= i < j < |lists| ==> lists[i] != lists[j]
    requires forall j :: 0 <= j < |lists| ==> lists[j].Valid() && p !in lists[j].items
    requires forall i, j :: 0 <= i < |lists| && 0 <= j < |lists| && i != j ==> Disjoint(lists[i], lists[j])
    requires p.sinNext == null
    modifies lst, lst.items`sinNext
    ensures forall j :: 0 <= j < |lists| ==>
      lists[j].Valid() && lists[j].items == old(lists[j].items) + if j == k then [p] else []
  {
    forall j | 0 <= j < |lists| && j != k
      ensures forall x :: 0 <= x < |lists[j].items| ==> lists[j].items[x] !in lst.items
    {
      assert Disjoint(lists[j], lst);
    }
    lst.Append(p);
  }
}
