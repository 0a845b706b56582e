/** Packet objects and the intrusive lists they are linked into through sin_next. */
module PacketLists {
  import opened Octets

  /** A netmap slot. */
  class NetmapSlot {
    var bufIdx: nat
    var len: nat
    var bufChanged: bool

    constructor (bufIdx: nat, len: nat)
      ensures this.bufIdx == bufIdx && this.len == len && !this.bufChanged
    {
      this.bufIdx, this.len, this.bufChanged := bufIdx, len, false;
    }
  }

  /** A packet object: its place in its zone, its slot, and what it carries. */
  class Pkt {
    var sinNext: Pkt?
    const zoneIdx: nat
    const slot: NetmapSlot
    const netmapFd: int
    var buf: array<Byte>
    var len: nat
    var busy: bool

    constructor (zoneIdx: nat, slot: NetmapSlot, netmapFd: int, buf: array<Byte>)
      ensures sinNext == null && this.zoneIdx == zoneIdx && this.slot == slot && this.netmapFd == netmapFd
      ensures this.buf == buf && len == 0 && !busy
    {
      sinNext, this.zoneIdx, this.slot, this.netmapFd := null, zoneIdx, slot, netmapFd;
      this.buf, len, busy := buf, 0, false;
    }
  }

  ghost predicate Distinct(ls: seq<Pkt>) {
    forall i, j :: 0 <= i < j < |ls| ==> ls[i] != ls[j]
  }

  /** ls is linked up to its last element, whose link may lead anywhere. */
  ghost predicate LinkedOpen(ls: seq<Pkt>)
    reads ls`sinNext
  {
    Distinct(ls) && forall i :: 0 <= i < |ls| - 1 ==> ls[i].sinNext == ls[i + 1]
  }

  /** The packets of ls are distinct, each linked to the next, the last to NULL. */
  ghost predicate Linked(ls: seq<Pkt>)
    reads ls`sinNext
  {
    LinkedOpen(ls) && (ls != [] ==> ls[|ls| - 1].sinNext == null)
  }

  function PktAt(ls: seq<Pkt>, i: nat): Pkt? {
    if i < |ls| then ls[i] else null
  }

  /** The packets of ls from i on are chained in order, the last to NULL. */
  ghost predicate ChainFrom(ls: seq<Pkt>, i: nat)
    reads ls`sinNext
  {
    forall j :: i <= j < |ls| ==> ls[j].sinNext == PktAt(ls, j + 1)
  }

  function First(ls: seq<Pkt>): Pkt? {
    if ls == [] then null else ls[0]
  }

  function Last(ls: seq<Pkt>): Pkt? {
    if ls == [] then null else ls[|ls| - 1]
  }

  lemma JoinLinked(a: seq<Pkt>, b: seq<Pkt>)
    requires LinkedOpen(a) && Linked(b) && (a != [] ==> a[|a| - 1].sinNext == First(b))
    requires forall p :: p in a ==> p !in b
    ensures Linked(a + b) && First(a + b) == (if a != [] then First(a) else First(b))
    ensures Last(a + b) == if b != [] then Last(b) else Last(a)
  {
    var c := a + b;
    forall i, j | 0 <= i < j < |c| ensures c[i] != c[j] {
      if i < |a| <= j { assert a[i] in a && b[j - |a|] in b; }
    }
    forall i | 0 <= i < |c| - 1 ensures c[i].sinNext == c[i + 1] {
      if i >= |a| { assert c[i] == b[i - |a|]; }
    }
  }

  lemma TailLinked(ls: seq<Pkt>)
    requires Linked(ls) && ls != []
    ensures Linked(ls[1..]) && ls[0] !in ls[1..] && ls[0].sinNext == First(ls[1..])
    ensures Last(ls[1..]) == if |ls| > 1 then Last(ls) else null
  {
    var c := ls[1..];
    forall i | 0 <= i < |c| - 1 ensures c[i].sinNext == c[i + 1] {
      assert ls[i + 1].sinNext == ls[i + 2];
    }
    if c != [] { assert ls[0].sinNext == ls[1]; }
  }

  /** A list header; items is the list it stands for. */
  class SinList {
    var head: Pkt?
    var tail: Pkt?
    var len: nat
    ghost var items: seq<Pkt>

    ghost predicate Valid()
      reads this, items`sinNext
    {
      Linked(items) && head == First(items) && tail == Last(items) && len == |items|
    }

    constructor ()
      ensures Valid() && items == []
    {
      head, tail, len, items := null, null, 0, [];
    }

    /** SIN_LIST_RESET. */
    method Reset()
      modifies this
      ensures Valid() && items == []
    {
      head, tail, len, items := null, null, 0, [];
    }

    /** sin_list_append; its assertion that the new element's link is NULL is the caller's
        obligation. */
    method Append(p: Pkt)
      requires Valid() && p !in items && p.sinNext == null
      modifies this, items`sinNext
      ensures Valid() && items == old(items) + [p]
      ensures forall q :: q in old(items) && q != old(tail) ==> q.sinNext == old(q.sinNext)
    {
      if head == null {
        head, tail := p, p;
      } else {
        tail.sinNext := p;
        tail := p;
      }
      len := len + 1;
      items := items + [p];
    }
  }
}
