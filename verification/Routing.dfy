/** How the packet sorter chooses a consumer: entries are asked in list order, and the
    first taste that accepts wins; the default consumer comes after all entries. */
module Routing {
  import opened Octets

  type Taste = Bytes -> bool

  /** The index of the first accepting taste, |tastes| standing for the default consumer. */
  function FirstMatch(tastes: seq<Taste>, b: Bytes): (k: nat)
    ensures k <= |tastes|
    ensures k < |tastes| ==> tastes[k](b)
    ensures forall j :: 0 <= j < k ==> !tastes[j](b)
  {
    if tastes == [] then 0
    else if tastes[0](b) then 0
    else 1 + FirstMatch(tastes[1..], b)
  }

  // ---------- the partition ----------

  /** The members of ls that are of class k, in order; cls gives each member's class. */
  function Keep<T>(ls: seq<T>, cls: seq<nat>, k: nat): (r: seq<T>)
    requires |ls| == |cls|
    ensures forall x :: x in r ==> exists i :: 0 <= i < |ls| && ls[i] == x && cls[i] == k
  {
    if ls == [] then []
    else
      var n := |ls| - 1;
      Keep(ls[..n], cls[..n], k) + if cls[n] == k then [ls[n]] else []
  }

  /** The classes 0..n, one after the other. */
  function Sorted<T>(ls: seq<T>, cls: seq<nat>, n: nat): seq<T>
    requires |ls| == |cls|
  {
    if n == 0 then [] else Sorted(ls, cls, n - 1) + Keep(ls, cls, n - 1)
  }

  lemma {:induction false} SortedOneMore<T>(ls: seq<T>, cls: seq<nat>, n: nat)
    requires |ls| == |cls| && ls != []
    ensures var m := |ls| - 1;
      multiset(Sorted(ls, cls, n))
      == multiset(Sorted(ls[..m], cls[..m], n)) + if cls[m] < n then multiset{ls[m]} else multiset{}
  {
    hide Keep;
    if n > 0 {
      var m := |ls| - 1;
      SortedOneMore(ls, cls, n - 1);
      KeepLast(ls, cls, n - 1);
      var a, b := Sorted(ls[..m], cls[..m], n - 1), Keep(ls[..m], cls[..m], n - 1);
      assert multiset(Sorted(ls[..m], cls[..m], n)) == multiset(a) + multiset(b);
      assert multiset(Sorted(ls, cls, n)) == multiset(Sorted(ls, cls, n - 1)) + multiset(Keep(ls, cls, n - 1));
    }
  }

  lemma KeepLast<T>(ls: seq<T>, cls: seq<nat>, k: nat)
    requires |ls| == |cls| && ls != []
    ensures var m := |ls| - 1;
      multiset(Keep(ls, cls, k))
      == multiset(Keep(ls[..m], cls[..m], k)) + if cls[m] == k then multiset{ls[m]} else multiset{}
  {}

  /** Splitting a list by class loses and duplicates nothing: each member is in exactly one
      class. */
  lemma {:induction false} SortedIsPermutation<T>(ls: seq<T>, cls: seq<nat>, n: nat)
    requires |ls| == |cls| && forall i :: 0 <= i < |cls| ==> cls[i] < n
    ensures multiset(Sorted(ls, cls, n)) == multiset(ls)
    decreases |ls|
  {
    if ls == [] {
      SortedNothing<T>(cls, n);
    } else {
      var m := |ls| - 1;
      SortedIsPermutation(ls[..m], cls[..m], n);
      SortedOneMore(ls, cls, n);
      assert ls == ls[..m] + [ls[m]];
    }
  }

  lemma {:induction false} SortedNothing<T>(cls: seq<nat>, n: nat)
    requires cls == []
    ensures Sorted<T>([], cls, n) == []
  {
    if n > 0 { SortedNothing<T>(cls, n - 1); }
  }

  /** Different classes share nothing when members are distinct. */
  lemma KeepApart<T>(ls: seq<T>, cls: seq<nat>, j: nat, k: nat)
    requires |ls| == |cls| && j != k
    requires forall a, b :: 0 <= a < b < |ls| ==> ls[a] != ls[b]
    ensures forall x :: x in Keep(ls, cls, j) ==> x in ls && x !in Keep(ls, cls, k)
  {}
}
