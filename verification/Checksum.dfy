/** The Internet checksum: 16-bit one's-complement sums (RFC 1071), computed with a wide
    accumulator and carries folded back at the end.  Words are read as a little-endian
    machine reads them; RFC 1071 section 2 allows either byte order. */
module Checksum {
  import opened Octets

  function Word(lo: Byte, hi: Byte): (w: nat)
    ensures w < 65536
  {
    (lo as int) + 256 * (hi as int)
  }

  /** The plain sum of the 16-bit words of s; an odd last byte counts as a low byte. */
  function WordSum(s: Bytes): (sum: nat)
    ensures 2 * sum <= 65535 * |s| + 255
  {
    if s == [] then 0
    else if |s| == 1 then s[0] as int
    else Word(s[0], s[1]) + WordSum(s[2..])
  }

  // ---------- the reference: one's-complement addition ----------

  /** 16-bit addition with the carry out added back in. */
  function OcAdd(a: nat, b: nat): (c: nat)
    requires a < 65536 && b < 65536
    ensures c < 65536
  {
    if a + b < 65536 then a + b else a + b - 65535
  }

  /** RFC 1071: the one's-complement sum of the words of s, padded to a whole word. */
  function OcSum(s: Bytes): (sum: nat)
    ensures sum < 65536
  {
    if s == [] then 0
    else if |s| == 1 then s[0] as int
    else OcAdd(Word(s[0], s[1]), OcSum(s[2..]))
  }

  /** A checksummed range verifies when its one's-complement sum is all ones. */
  predicate Verifies(s: Bytes) {
    OcSum(s) == 0xffff
  }

  // ---------- the code: deferred carries and two folds ----------

  /** The two folds and the complement truncated to 16 bits. */
  function Finish(sum: nat): (answer: nat)
    ensures answer < 65536
  {
    var once := sum / 65536 + sum % 65536;
    var twice := once + once / 65536;
    65535 - twice % 65536
  }

  /** The unique value in [0, 65535] congruent to n modulo 65535 that is 0 only for 0. */
  function Canon(n: nat): (c: nat)
    ensures c < 65536 && (c == 0 <==> n == 0) && c % 65535 == n % 65535
  {
    if n == 0 then 0 else (n - 1) % 65535 + 1
  }

  lemma CanonUnique(n: nat, c: nat)
    requires c < 65536 && (c == 0 <==> n == 0) && c % 65535 == n % 65535
    ensures c == Canon(n)
  {}

  /** Two folds are enough for any 32-bit accumulator. */
  lemma FoldsToCanon(sum: nat)
    requires sum < 0x1_0000_0000
    ensures Finish(sum) == 65535 - Canon(sum)
  {
    var hi, lo := sum / 65536, sum % 65536;
    var once := hi + lo;
    var twice := once + once / 65536;
    assert sum == 65536 * hi + lo;
    assert sum - once == 65535 * hi;
    CongruentBy(sum, once, hi);
    if once < 65536 {
      CanonUnique(sum, once);
    } else {
      assert once < 131072 && twice == once + 1 && twice % 65536 == once - 65535;
      CongruentBy(once, once - 65535, 1);
      CanonUnique(sum, once - 65535);
    }
  }

  lemma CongruentBy(a: nat, b: nat, k: nat)
    requires a == b + 65535 * k
    ensures a % 65535 == b % 65535
  {}

  lemma CanonAdd(a: nat, b: nat)
    requires a < 65536
    ensures Canon(a + b) == OcAdd(a, Canon(b))
  {
    CanonUnique(a + b, OcAdd(a, Canon(b)));
  }

  /** The one's-complement sum is the plain sum reduced at the end. */
  lemma {:induction false} OcSumIsCanon(s: Bytes)
    ensures OcSum(s) == Canon(WordSum(s))
  {
    if |s| >= 2 {
      OcSumIsCanon(s[2..]);
      CanonAdd(Word(s[0], s[1]), WordSum(s[2..]));
    }
  }

  /** sin_ip4_cksum stores the complement of the RFC 1071 sum, for every length whose sum
      fits the accumulator. */
  lemma FinishIsComplement(s: Bytes)
    requires WordSum(s) < 0x1_0000_0000
    ensures Finish(WordSum(s)) == 65535 - OcSum(s)
  {
    FoldsToCanon(WordSum(s));
    OcSumIsCanon(s);
  }

  predicate AllZero(s: Bytes) {
    forall i :: 0 <= i < |s| ==> s[i] == 0
  }

  /** The sum is zero for no input but the all-zero ones. */
  lemma {:induction false} ZeroOnlyForZeros(s: Bytes)
    ensures OcSum(s) == 0 <==> AllZero(s)
    decreases |s|
  {
    if |s| >= 2 {
      ZeroOnlyForZeros(s[2..]);
      ZeroTail(s);
    }
  }

  lemma ZeroTail(s: Bytes)
    requires |s| >= 2
    ensures AllZero(s) <==> Word(s[0], s[1]) == 0 && AllZero(s[2..])
  {
    if AllZero(s[2..]) {
      forall i | 2 <= i < |s| ensures s[i] == 0 {
        assert s[i] == s[2..][i - 2];
      }
    }
  }

  // ---------- the accumulator's range ----------

  function Ones(n: nat): (s: Bytes)
    ensures |s| == n
  {
    seq(n, _ => 255)
  }

  lemma {:induction false} OnesSum(n: nat)
    requires n % 2 == 0
    ensures 2 * WordSum(Ones(n)) == 65535 * n
  {
    if n > 0 {
      assert Ones(n)[2..] == Ones(n - 2);
      OnesSum(n - 2);
    }
  }

  /** The signed 32-bit accumulator cannot overflow on any input of n bytes if and only if
      n is at most 65537. */
  lemma AccumulatorFits(n: nat)
    ensures (forall s: Bytes :: |s| == n ==> WordSum(s) < 0x8000_0000) <==> n <= 65537
  {
    if n <= 65537 {
      forall s: Bytes | |s| == n ensures WordSum(s) < 0x8000_0000 {
        if n == 65537 { OddSum(s); }
      }
    } else if n % 2 == 0 {
      OnesSum(n);
      assert |Ones(n)| == n && WordSum(Ones(n)) >= 0x8000_0000;
    } else {
      OnesSum(n - 1);
      assert Ones(n) == Ones(n - 1) + [255];
      SumConcat(Ones(n - 1), [255]);
      assert |Ones(n)| == n && WordSum(Ones(n)) >= 0x8000_0000;
    }
  }

  lemma {:induction false} OddSum(s: Bytes)
    requires |s| % 2 == 1
    ensures 2 * WordSum(s) <= 65535 * (|s| - 1) + 510
  {
    if |s| > 1 { OddSum(s[2..]); }
  }

  // ---------- sums of parts ----------

  lemma {:induction false} SumConcat(a: Bytes, b: Bytes)
    requires |a| % 2 == 0
    ensures WordSum(a + b) == WordSum(a) + WordSum(b)
  {
    if a == [] {
      assert a + b == b;
    } else {
      SumConcat(a[2..], b);
      assert (a + b)[2..] == a[2..] + b;
    }
  }

  /** The sum of a range in two parts, split at an even distance. */
  lemma SumSplit(b: Bytes, lo: nat, mid: nat, hi: nat)
    requires lo <= mid <= hi <= |b| && (mid - lo) % 2 == 0
    ensures WordSum(b[lo..hi]) == WordSum(b[lo..mid]) + WordSum(b[mid..hi])
  {
    assert b[lo..hi] == b[lo..mid] + b[mid..hi];
    SumConcat(b[lo..mid], b[mid..hi]);
  }

  // ---------- 16-bit fields ----------

  function Load16(b: Bytes, at: nat): (w: nat)
    requires at + 2 <= |b|
    ensures w < 65536
  {
    Word(b[at], b[at + 1])
  }

  function Store16(b: Bytes, at: nat, w: nat): (r: Bytes)
    requires at + 2 <= |b| && w < 65536
    ensures |r| == |b| && r[..at] == b[..at] && r[at + 2..] == b[at + 2..]
  {
    b[at := (w % 256) as Byte][at + 1 := (w / 256) as Byte]
  }

  lemma LoadStored(b: Bytes, at: nat, w: nat)
    requires at + 2 <= |b| && w < 65536
    ensures Load16(Store16(b, at, w), at) == w
  {}

  lemma SumOfField(b: Bytes, at: nat)
    requires at + 2 <= |b|
    ensures WordSum(b[at..at + 2]) == Load16(b, at)
  {
    assert b[at..at + 2][2..] == [];
  }

  /** The sum of a range is the rest of it plus any field at an even distance. */
  lemma SumAroundField(b: Bytes, lo: nat, at: nat, hi: nat)
    requires lo <= at && at + 2 <= hi <= |b| && (at - lo) % 2 == 0
    ensures WordSum(b[lo..hi]) == WordSum(b[lo..at]) + Load16(b, at) + WordSum(b[at + 2..hi])
  {
    SumSplit(b, lo, at, hi);
    SumSplit(b, at, at + 2, hi);
    SumOfField(b, at);
  }

  /** A checksum stored where the sum it came from had zero makes the range verify. */
  lemma StoredVerifies(rest: nat)
    ensures Canon(rest + (65535 - Canon(rest))) == 65535
  {
    var total := rest + (65535 - Canon(rest));
    assert total % 65535 == 0 && total > 0;
    CanonUnique(total, 65535);
  }

  /** The two checksums that can make a given rest verify are one value, or 0 and 65535. */
  lemma VerifyingFields(rest: nat, c: nat)
    requires c < 65536 && Canon(rest + c) == 65535
    ensures var anew := 65535 - Canon(rest); c == anew || (c == 0 && anew == 65535) || (c == 65535 && anew == 0)
  {}

  // ---------- sin_ip4_cksum ----------

  /** sin_ip4_cksum over len bytes at offset `at` of a packet buffer. */
  method Ip4Cksum(buf: array<Byte>, at: nat, len: nat) returns (answer: nat)
    requires at + len <= buf.Length && len <= 65537
    ensures answer == 65535 - OcSum(buf[at..at + len])
  {
    hide WordSum, Word, OcSum;
    var nleft, sum, w := len, 0, at;
    ghost var all := buf[at..at + len];
    AccumulatorFits(len);
    while nleft > 1
      invariant 0 <= nleft <= len && w == at + len - nleft && (len - nleft) % 2 == 0
      invariant sum + WordSum(all[len - nleft..]) == WordSum(all)
    {
      SumStep(all, len - nleft);
      sum := sum + Word(buf[w], buf[w + 1]);
      w := w + 2;
      nleft := nleft - 2;
    }
    SumEnd(all, len - nleft);
    if nleft == 1 {
      sum := sum + (buf[w] as int);
    }
    assert sum == WordSum(all) < 0x8000_0000;
    FinishIsComplement(all);
    sum := sum / 65536 + sum % 65536;
    sum := sum + sum / 65536;
    answer := 65535 - sum % 65536;
  }

  lemma SumStep(s: Bytes, k: nat)
    requires k + 2 <= |s|
    ensures WordSum(s[k..]) == Word(s[k], s[k + 1]) + WordSum(s[k + 2..])
  {
    assert s[k..][2..] == s[k + 2..];
  }

  lemma SumEnd(s: Bytes, k: nat)
    requires |s| - 1 <= k <= |s|
    ensures WordSum(s[k..]) == if k < |s| then s[k] as int else 0
  {}
}
