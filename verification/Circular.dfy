/** Positions on a netmap ring of n slots.  Every ring pointer (head, cur, tail) is an
    index in [0, n), and the slots between two pointers form a circular window. */
module Circular {

  /** nm_ring_next: one slot further, wrapping at the end of the ring. */
  function Next(n: int, i: int): int {
    if i + 1 == n then 0 else i + 1
  }

  /** The number of slots from a up to, and not including, b. */
  function Dist(n: int, a: int, b: int): int {
    if a > b then n + b - a else b - a
  }

  /** The slot k places after a, for k no greater than n. */
  function Slot(n: int, a: int, k: int): int {
    if a + k < n then a + k else a + k - n
  }

  function Min(a: int, b: int): int {
    if a > b then b else a
  }

  predicate OnRing(n: int, i: int) {
    0 <= i < n
  }

  /** i lies in the circular window [a, b). */
  predicate InWindow(n: int, a: int, b: int, i: int) {
    OnRing(n, i) && Dist(n, a, i) < Dist(n, a, b)
  }

  /** The reference reading of ring positions: k steps of nm_ring_next from a. */
  function Walk(n: int, a: int, k: nat): int {
    if k == 0 then a else Next(n, Walk(n, a, k - 1))
  }

  lemma SmallMod(n: int, x: int)
    requires 0 <= x < 2 * n
    ensures x % n == if x < n then x else x - n
  {
    assert x == n * (x / n) + x % n;
  }

  lemma {:induction false} WalkIsSlot(n: int, a: int, k: nat)
    requires OnRing(n, a) && k <= n
    ensures Walk(n, a, k) == Slot(n, a, k) == (a + k) % n
  {
    SmallMod(n, a + k);
    if k > 0 {
      WalkIsSlot(n, a, k - 1);
    }
  }

  /** Dist is the number of steps that lead from a to b: it is below n, walking that far
      arrives at b, and no other step count below n does. */
  lemma DistCountsSteps(n: int, a: int, b: int, d: nat)
    requires OnRing(n, a) && OnRing(n, b) && d < n
    ensures 0 <= Dist(n, a, b) < n
    ensures Walk(n, a, d) == b <==> d == Dist(n, a, b)
  {
    WalkIsSlot(n, a, d);
  }

  /** j is one of the k positions met by walking from a. */
  ghost predicate Met(n: int, a: int, k: int, j: int) {
    exists i: nat :: i < k && j == Walk(n, a, i)
  }

  /** The window [a, b) is what the first Dist(n, a, b) steps from a meet. */
  lemma WindowIsWalk(n: int, a: int, b: int)
    requires OnRing(n, a) && OnRing(n, b)
    ensures forall j :: InWindow(n, a, b, j) <==> Met(n, a, Dist(n, a, b), j)
  {
    hide Walk;
    forall j ensures InWindow(n, a, b, j) <==> Met(n, a, Dist(n, a, b), j) {
      if InWindow(n, a, b, j) {
        WalkIsSlot(n, a, Dist(n, a, j));
      }
      if Met(n, a, Dist(n, a, b), j) {
        var i: nat :| i < Dist(n, a, b) && j == Walk(n, a, i);
        WalkIsSlot(n, a, i);
      }
    }
  }

  /** Advancing cur by ntx, where ntx is at most the free window [cur, tail): the slots
      taken are pairwise distinct slots of the window, cur lands where ntx steps lead,
      the free window shrinks by exactly ntx and what is left is the old window without
      the slots taken. */
  lemma AdvanceStaysInWindow(n: int, cur: int, tail: int, ntx: nat)
    requires OnRing(n, cur) && OnRing(n, tail) && ntx <= Dist(n, cur, tail)
    ensures var next := Slot(n, cur, ntx);
      && next == (cur + ntx) % n
      && OnRing(n, next)
      && Dist(n, next, tail) == Dist(n, cur, tail) - ntx
      && (forall i, j :: 0 <= i < j < ntx ==> Slot(n, cur, i) != Slot(n, cur, j))
      && (forall i :: 0 <= i < ntx ==> InWindow(n, cur, tail, Slot(n, cur, i)))
      && (forall s :: InWindow(n, next, tail, s) <==>
           InWindow(n, cur, tail, s) && forall i :: 0 <= i < ntx ==> s != Slot(n, cur, i))
  {
    WalkIsSlot(n, cur, ntx);
    var next := Slot(n, cur, ntx);
    forall s | InWindow(n, cur, tail, s) && !InWindow(n, next, tail, s)
      ensures exists i :: 0 <= i < ntx && s == Slot(n, cur, i)
    {
      assert s == Slot(n, cur, Dist(n, cur, s));
    }
  }
}
