/** Lists threaded through the shared sin_next links: what append, unlinking the head and
    splicing keep. */
module PipelineLinks {
  import opened Octets
  import opened PipelineModel

  /** ls is list p: its packets are distinct, recorded as being on p, chained in order,
      and the last one has a NULL link. */
  ghost predicate ListOk(next: map<Loc, Loc>, place: map<Loc, Place>, p: Place, ls: seq<Loc>) {
    && (forall i :: 0 <= i < |ls| ==> ls[i] in place && place[ls[i]] == p)
    && (forall i, j :: 0 <= i < j < |ls| ==> ls[i] != ls[j])
    && (forall i :: 0 <= i < |ls| - 1 ==> Find(next, ls[i]) == Some(ls[i + 1]))
    && (ls != [] ==> Last(ls) !in next)
  }

  /** Every list is well chained, every packet is on at most one list, at one position,
      and a packet on no list has a NULL link. */
  ghost predicate LinksInv(next: map<Loc, Loc>, lists: map<Place, seq<Loc>>, place: map<Loc, Place>) {
    && AllOk(next, lists, place)
    && Listed(lists, place)
    && (forall l :: l in next ==> l in place)
  }

  ghost predicate AllOk(next: map<Loc, Loc>, lists: map<Place, seq<Loc>>, place: map<Loc, Place>) {
    forall p :: ListOk(next, place, p, On(lists, p))
  }

  ghost predicate Listed(lists: map<Place, seq<Loc>>, place: map<Loc, Place>) {
    forall l :: l in place ==> l in On(lists, place[l])
  }

  lemma ListFrame(next: map<Loc, Loc>, place: map<Loc, Place>, next': map<Loc, Loc>, place': map<Loc, Place>,
                  p: Place, ls: seq<Loc>)
    requires ListOk(next, place, p, ls)
    requires forall l :: l in ls ==> Find(next', l) == Find(next, l) && Find(place', l) == Find(place, l)
    ensures ListOk(next', place', p, ls)
  {
    forall i | 0 <= i < |ls|
      ensures ls[i] in place' && place'[ls[i]] == p
      ensures Find(next', ls[i]) == Find(next, ls[i])
    {
      assert ls[i] in ls;
      assert Find(place', ls[i]) == Find(place, ls[i]) == Some(p);
    }
    if ls != [] {
      assert Find(next', Last(ls)) == Find(next, Last(ls)) == None;
    }
  }

  lemma Member(next: map<Loc, Loc>, place: map<Loc, Place>, p: Place, ls: seq<Loc>, l: Loc)
    requires ListOk(next, place, p, ls) && l in ls
    ensures Find(place, l) == Some(p)
  {}

  // ---------- sin_list_append ----------

  lemma AppendOk(next: map<Loc, Loc>, place: map<Loc, Place>, p: Place, ls: seq<Loc>, l: Loc)
    requires ListOk(next, place, p, ls) && l !in place && l !in next
    ensures ListOk(LinkAfter(next, ls, l), place[l := p], p, ls + [l])
  {
    var next', place', c := LinkAfter(next, ls, l), place[l := p], ls + [l];
    forall i | 0 <= i < |ls| ensures c[i] == ls[i] && ls[i] != l && c[i] in place' && place'[c[i]] == p {
      Member(next, place, p, ls, ls[i]);
    }
    forall i | 0 <= i < |c| - 1 ensures Find(next', c[i]) == Some(c[i + 1]) {
      if i < |ls| - 1 { assert ls[i] != Last(ls); }
    }
  }

  lemma AppendOther(next: map<Loc, Loc>, place: map<Loc, Place>, p: Place, ls: seq<Loc>, l: Loc, q: Place, qs: seq<Loc>)
    requires ListOk(next, place, p, ls) && ListOk(next, place, q, qs) && p != q && l !in place
    ensures ListOk(LinkAfter(next, ls, l), place[l := p], q, qs)
  {
    forall x | x in qs
      ensures Find(LinkAfter(next, ls, l), x) == Find(next, x) && Find(place[l := p], x) == Find(place, x)
    {
      Member(next, place, q, qs, x);
      if ls != [] { Member(next, place, p, ls, Last(ls)); }
    }
    ListFrame(next, place, LinkAfter(next, ls, l), place[l := p], q, qs);
  }

  lemma AppendKeepsLinks(next: map<Loc, Loc>, lists: map<Place, seq<Loc>>, place: map<Loc, Place>, p: Place, l: Loc)
    requires LinksInv(next, lists, place) && l !in place
    ensures LinksInv(LinkAfter(next, On(lists, p), l), lists[p := On(lists, p) + [l]], place[l := p])
  {
    var ls := On(lists, p);
    var next', lists', place' := LinkAfter(next, ls, l), lists[p := ls + [l]], place[l := p];
    assert ListOk(next, place, p, ls);
    forall q ensures ListOk(next', place', q, On(lists', q)) {
      if q == p {
        AppendOk(next, place, p, ls, l);
      } else {
        assert ListOk(next, place, q, On(lists, q));
        AppendOther(next, place, p, ls, l, q, On(lists, q));
      }
    }
    forall x | x in place' ensures x in On(lists', place'[x]) {
      if x == l { assert (ls + [l])[|ls|] == l; }
    }
    if ls != [] { Member(next, place, p, ls, Last(ls)); }
  }

  // ---------- taking the head off a list ----------

  lemma UnlinkOk(next: map<Loc, Loc>, place: map<Loc, Place>, p: Place, ls: seq<Loc>)
    requires ls != [] && ListOk(next, place, p, ls)
    ensures ListOk(next - {ls[0]}, place - {ls[0]}, p, ls[1..])
    ensures Find(next, ls[0]) == First(ls[1..])
  {
    var next', place', c := next - {ls[0]}, place - {ls[0]}, ls[1..];
    forall i | 0 <= i < |c| ensures c[i] == ls[i + 1] != ls[0] && Find(place', c[i]) == Some(p) {
      Member(next, place, p, ls, ls[i + 1]);
    }
    forall i | 0 <= i < |c| - 1 ensures Find(next', c[i]) == Some(c[i + 1]) {
      assert Find(next, ls[i + 1]) == Some(ls[i + 2]);
    }
    if |ls| > 1 { assert Find(next, ls[0]) == Some(ls[1]); }
  }

  lemma UnlinkOther(next: map<Loc, Loc>, place: map<Loc, Place>, p: Place, ls: seq<Loc>, q: Place, qs: seq<Loc>)
    requires ls != [] && ListOk(next, place, p, ls) && ListOk(next, place, q, qs) && p != q
    ensures ListOk(next - {ls[0]}, place - {ls[0]}, q, qs)
  {
    Member(next, place, p, ls, ls[0]);
    forall x | x in qs ensures x != ls[0] { Member(next, place, q, qs, x); }
    ListFrame(next, place, next - {ls[0]}, place - {ls[0]}, q, qs);
  }

  /** Unlinking the head of a list leaves its tail as the list, and the link that was
      read first leads to the new head. */
  lemma UnlinkKeepsLinks(next: map<Loc, Loc>, lists: map<Place, seq<Loc>>, place: map<Loc, Place>, p: Place)
    requires LinksInv(next, lists, place) && On(lists, p) != []
    ensures var ls := On(lists, p);
      && LinksInv(next - {ls[0]}, lists[p := ls[1..]], place - {ls[0]})
      && Find(next, ls[0]) == First(ls[1..])
  {
    var ls := On(lists, p);
    assert ListOk(next, place, p, ls);
    UnlinkOk(next, place, p, ls);
    UnlinkAll(next, lists, place, p);
    UnlinkListed(lists, place, p);
  }

  lemma UnlinkAll(next: map<Loc, Loc>, lists: map<Place, seq<Loc>>, place: map<Loc, Place>, p: Place)
    requires AllOk(next, lists, place) && On(lists, p) != []
    ensures var ls := On(lists, p); AllOk(next - {ls[0]}, lists[p := ls[1..]], place - {ls[0]})
  {
    var ls := On(lists, p);
    var lists' := lists[p := ls[1..]];
    assert ListOk(next, place, p, ls);
    forall q ensures ListOk(next - {ls[0]}, place - {ls[0]}, q, On(lists', q)) {
      if q == p {
        UnlinkOk(next, place, p, ls);
        assert On(lists', p) == ls[1..];
      } else {
        assert On(lists', q) == On(lists, q) && ListOk(next, place, q, On(lists, q));
        UnlinkOther(next, place, p, ls, q, On(lists, q));
      }
    }
  }

  lemma UnlinkListed(lists: map<Place, seq<Loc>>, place: map<Loc, Place>, p: Place)
    requires Listed(lists, place) && On(lists, p) != []
    ensures var ls := On(lists, p); Listed(lists[p := ls[1..]], place - {ls[0]})
  {
    var ls := On(lists, p);
    forall x | x in place - {ls[0]} ensures x in On(lists[p := ls[1..]], place[x]) {
      assert x in On(lists, place[x]) && x != ls[0];
      if place[x] == p { InTail(ls, x); }
    }
  }

  lemma InTail(ls: seq<Loc>, x: Loc)
    requires x in ls && x != ls[0]
    ensures x in ls[1..]
  {
    var i :| 0 <= i < |ls| && ls[i] == x;
    assert ls[1..][i - 1] == x;
  }

  // ---------- moving a whole list ----------

  lemma SpliceOk(next: map<Loc, Loc>, place: map<Loc, Place>, a: seq<Loc>, b: seq<Loc>, dst: Place, src: Place)
    requires b != [] && src != dst && ListOk(next, place, dst, a) && ListOk(next, place, src, b)
    ensures ListOk(LinkAfter(next, a, b[0]), Relabel(place, b, dst), dst, a + b)
  {
    var next', place' := LinkAfter(next, a, b[0]), Relabel(place, b, dst);
    var c := a + b;
    forall i | 0 <= i < |a| ensures c[i] == a[i] && a[i] !in b && Find(place', a[i]) == Some(dst) {
      Member(next, place, dst, a, a[i]);
      if a[i] in b { Member(next, place, src, b, a[i]); }
    }
    forall i | 0 <= i < |b| ensures c[|a| + i] == b[i] && Find(place', b[i]) == Some(dst) {
      Member(next, place, src, b, b[i]);
      assert b[i] in b;
    }
    forall i, j | 0 <= i < j < |c| ensures c[i] != c[j] {
      if i < |a| <= j { assert b[j - |a|] in b; }
    }
    forall i | 0 <= i < |c| - 1 ensures Find(next', c[i]) == Some(c[i + 1]) {
      if i < |a| - 1 {
        assert a[i] != Last(a);
      } else if i >= |a| && a != [] {
        assert a[|a| - 1] !in b && b[i - |a|] in b;
      }
    }
    assert Last(c) == b[|b| - 1] && Last(b) in b;
  }

  lemma SpliceOther(next: map<Loc, Loc>, place: map<Loc, Place>, a: seq<Loc>, b: seq<Loc>, dst: Place, src: Place,
                    q: Place, qs: seq<Loc>)
    requires b != [] && ListOk(next, place, dst, a) && ListOk(next, place, src, b)
    requires ListOk(next, place, q, qs) && q != src && q != dst
    ensures ListOk(LinkAfter(next, a, b[0]), Relabel(place, b, dst), q, qs)
  {
    var next', place' := LinkAfter(next, a, b[0]), Relabel(place, b, dst);
    forall x | x in qs ensures Find(next', x) == Find(next, x) && Find(place', x) == Find(place, x) {
      Member(next, place, q, qs, x);
      if x in b { Member(next, place, src, b, x); }
      if a != [] { Member(next, place, dst, a, Last(a)); }
    }
    ListFrame(next, place, next', place', q, qs);
  }

  /** sin_wi_queue_put_items and sin_wi_queue_get_items: list src moves, whole and in
      order, to the end of list dst. */
  lemma SpliceKeepsLinks(next: map<Loc, Loc>, lists: map<Place, seq<Loc>>, place: map<Loc, Place>, src: Place,
                         dst: Place)
    requires LinksInv(next, lists, place) && src != dst && On(lists, src) != []
    ensures LinksInv(LinkAfter(next, On(lists, dst), On(lists, src)[0]),
                     lists[src := []][dst := On(lists, dst) + On(lists, src)],
                     Relabel(place, On(lists, src), dst))
  {
    var a, b := On(lists, dst), On(lists, src);
    assert ListOk(next, place, dst, a) && ListOk(next, place, src, b);
    SpliceAll(next, lists, place, src, dst);
    SpliceListed(lists, place, src, dst);
    if a != [] { Member(next, place, dst, a, Last(a)); }
  }

  lemma SpliceAll(next: map<Loc, Loc>, lists: map<Place, seq<Loc>>, place: map<Loc, Place>, src: Place, dst: Place)
    requires AllOk(next, lists, place) && src != dst && On(lists, src) != []
    ensures AllOk(LinkAfter(next, On(lists, dst), On(lists, src)[0]),
                  lists[src := []][dst := On(lists, dst) + On(lists, src)],
                  Relabel(place, On(lists, src), dst))
  {
    var a, b := On(lists, dst), On(lists, src);
    var next', place' := LinkAfter(next, a, b[0]), Relabel(place, b, dst);
    var lists' := lists[src := []][dst := a + b];
    assert ListOk(next, place, dst, a) && ListOk(next, place, src, b);
    forall q ensures ListOk(next', place', q, On(lists', q)) {
      if q == dst {
        SpliceOk(next, place, a, b, dst, src);
        assert On(lists', q) == a + b;
      } else if q == src {
        assert On(lists', q) == [];
      } else {
        assert On(lists', q) == On(lists, q) && ListOk(next, place, q, On(lists, q));
        SpliceOther(next, place, a, b, dst, src, q, On(lists, q));
      }
    }
  }

  lemma SpliceListed(lists: map<Place, seq<Loc>>, place: map<Loc, Place>, src: Place, dst: Place)
    requires Listed(lists, place) && src != dst
    ensures Listed(lists[src := []][dst := On(lists, dst) + On(lists, src)], Relabel(place, On(lists, src), dst))
  {
    var a, b := On(lists, dst), On(lists, src);
    forall x | x in Relabel(place, b, dst)
      ensures x in On(lists[src := []][dst := a + b], Relabel(place, b, dst)[x])
    {
      assert x in On(lists, place[x]);
      assert x in a || x in b ==> x in a + b;
    }
  }
}
