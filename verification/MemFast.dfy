/** Swapping and copying packet bytes. */
module MemFast {
  import opened Octets

  /** b with its ranges [p, p+len) and [q, q+len) exchanged. */
  function Swapped(b: Bytes, p: nat, q: nat, len: nat): (r: Bytes)
    requires p + len <= |b| && q + len <= |b|
    ensures |r| == |b|
  {
    seq(|b|, i requires 0 <= i < |b| =>
      if p <= i < p + len then b[q + (i - p)]
      else if q <= i < q + len then b[p + (i - q)]
      else b[i])
  }

  predicate Apart(p: nat, q: nat, len: nat) {
    p + len <= q || q + len <= p
  }

  /** Exchanging twice restores the bytes. */
  lemma SwapTwice(b: Bytes, p: nat, q: nat, len: nat)
    requires p + len <= |b| && q + len <= |b| && Apart(p, q, len)
    ensures Swapped(Swapped(b, p, q, len), p, q, len) == b
  {
    var s := Swapped(b, p, q, len);
    forall i | 0 <= i < |b| ensures Swapped(s, p, q, len)[i] == b[i] {
      if p <= i < p + len { assert s[q + (i - p)] == b[i]; }
      else if q <= i < q + len { assert s[p + (i - q)] == b[i]; }
    }
  }

  /** What one range holds afterwards is what the other held. */
  lemma SwapRanges(b: Bytes, p: nat, q: nat, len: nat)
    requires p + len <= |b| && q + len <= |b| && Apart(p, q, len)
    ensures Swapped(b, p, q, len)[p..p + len] == b[q..q + len]
    ensures Swapped(b, p, q, len)[q..q + len] == b[p..p + len]
  {}

  /** sin_memswp on two disjoint ranges of one packet buffer: three exclusive-ors a byte. */
  method MemSwp(a: array<Byte>, p: nat, q: nat, len: nat)
    requires p + len <= a.Length && q + len <= a.Length && Apart(p, q, len)
    modifies a
    ensures a[..] == Swapped(old(a[..]), p, q, len)
  {
    ghost var was := a[..];
    assert Swapped(was, p, q, 0) == was;
    var i := 0;
    while i < len
      invariant 0 <= i <= len
      invariant a[..] == Swapped(was, p, q, i)
    {
      SwapOneMore(was, p, q, i);
      XorBytes(a, p + i, q + i);
      i := i + 1;
    }
  }

  /** The three assignments of the loop body. */
  method XorBytes(a: array<Byte>, i: nat, j: nat)
    requires i < a.Length && j < a.Length && i != j
    modifies a
    ensures a[..] == old(a[..])[i := old(a[j])][j := old(a[i])]
  {
    hide Xor;
    XorThrice(8, a[i] as nat, a[j] as nat);
    a[i] := XorByte(a[i], a[j]);
    a[j] := XorByte(a[i], a[j]);
    a[i] := XorByte(a[i], a[j]);
  }

  lemma SwapOneMore(b: Bytes, p: nat, q: nat, i: nat)
    requires p + i < |b| && q + i < |b| && Apart(p, q, i + 1)
    ensures Swapped(b, p, q, i + 1) == Swapped(b, p, q, i)[p + i := b[q + i]][q + i := b[p + i]]
  {}

  // ---------- exclusive or ----------

  function Pow2(w: nat): nat {
    if w == 0 then 1 else 2 * Pow2(w - 1)
  }

  /** The bitwise exclusive or of two w-bit numbers. */
  function Xor(w: nat, a: nat, b: nat): (x: nat)
    requires a < Pow2(w) && b < Pow2(w)
    ensures x < Pow2(w)
  {
    if w == 0 then 0 else (a % 2 + b % 2) % 2 + 2 * Xor(w - 1, a / 2, b / 2)
  }

  function XorByte(x: Byte, y: Byte): Byte {
    assert Pow2(8) == 256 by { EightBits(); }
    Xor(8, x as nat, y as nat) as Byte
  }

  lemma EightBits()
    ensures Pow2(8) == 256
  {
    assert Pow2(4) == 16;
  }

  /** Applying the same operand twice undoes it, on either side: the three assignments of
      _SIN_SWAP_I exchange two values of any width. */
  lemma {:induction false} XorThrice(w: nat, a: nat, b: nat)
    requires a < Pow2(w) && b < Pow2(w)
    ensures Xor(w, Xor(w, a, b), b) == a && Xor(w, Xor(w, a, b), a) == b
  {
    hide Xor;
    if w > 0 {
      var x := Xor(w, a, b);
      XorThrice(w - 1, a / 2, b / 2);
      XorBits(w, a, b);
      XorBits(w, x, b);
      XorBits(w, x, a);
      SameBits(Xor(w, x, b), a);
      SameBits(Xor(w, x, a), b);
    }
  }

  lemma XorBits(w: nat, a: nat, b: nat)
    requires w > 0 && a < Pow2(w) && b < Pow2(w)
    ensures Xor(w, a, b) % 2 == (a % 2 + b % 2) % 2 && Xor(w, a, b) / 2 == Xor(w - 1, a / 2, b / 2)
  {}

  lemma SameBits(m: nat, n: nat)
    requires m % 2 == n % 2 && m / 2 == n / 2
    ensures m == n
  {}

  /** How many bytes sin_memcpy writes for a length l: whole 64-byte blocks below 1024,
      exactly l from there on. */
  function CopyWidth(l: int): nat {
    if l >= 1024 then l else if l <= 0 then 0 else (l + 63) / 64 * 64
  }

  /** The copy covers the length asked for and stays within a buffer that is a whole
      number of blocks. */
  lemma CopyWidthFits(l: nat, size: nat)
    requires l <= size && size % 64 == 0
    ensures l <= CopyWidth(l) <= size
  {}

  /** The destination after sin_memcpy(src, dst, l). */
  function CopyInto(src: Bytes, dst: Bytes, l: int): Bytes {
    var w := CopyWidth(l);
    if w <= |src| && w <= |dst| then src[..w] + dst[w..] else dst
  }

  /** d with its bytes [at, at+m) taken from s. */
  function Blit(d: Bytes, s: Bytes, at: nat, m: nat): (r: Bytes)
    requires at + m <= |d| && at + m <= |s|
    ensures |r| == |d|
  {
    d[..at] + s[at..at + m] + d[at + m..]
  }

  lemma BlitTwice(d: Bytes, s: Bytes, at: nat, m: nat, k: nat)
    requires at + m + k <= |d| && at + m + k <= |s|
    ensures Blit(Blit(d, s, at, m), s, at + m, k) == Blit(d, s, at, m + k)
  {}

  lemma BlitNone(d: Bytes, s: Bytes, at: nat)
    requires at <= |d| && at <= |s|
    ensures Blit(d, s, at, 0) == d
  {}

  lemma CopyIsBlit(src: Bytes, dst: Bytes, l: int)
    requires CopyWidth(l) <= |src| && CopyWidth(l) <= |dst|
    ensures Blit(dst, src, 0, CopyWidth(l)) == CopyInto(src, dst, l)
  {}

  /** One 64-bit assignment. */
  method CopyWord(src: array<Byte>, dst: array<Byte>, at: nat)
    requires src != dst && at + 8 <= src.Length && at + 8 <= dst.Length
    modifies dst
    ensures dst[..] == Blit(old(dst[..]), src[..], at, 8)
  {
    forall k | 0 <= k < 8 { dst[at + k] := src[at + k]; }
  }

  /** The loop body of sin_memcpy: eight 64-bit assignments. */
  method CopyBlock(src: array<Byte>, dst: array<Byte>, at: nat)
    requires src != dst && at + 64 <= src.Length && at + 64 <= dst.Length
    modifies dst
    ensures dst[..] == Blit(old(dst[..]), src[..], at, 64)
  {
    hide Blit;
    ghost var was := dst[..];
    BlitNone(was, src[..], at);
    var w := 0;
    while w < 8
      invariant 0 <= w <= 8
      invariant dst[..] == Blit(was, src[..], at, 8 * w)
    {
      CopyWord(src, dst, at + 8 * w);
      BlitTwice(was, src[..], at, 8 * w, 8);
      w := w + 1;
    }
  }

  /** sin_memcpy: whatever the length, the first l bytes of the destination become those of
      the source, and nothing beyond CopyWidth(l) is written. */
  method MemCpy(src: array<Byte>, dst: array<Byte>, l: int)
    requires src != dst && CopyWidth(l) <= src.Length && CopyWidth(l) <= dst.Length
    modifies dst
    ensures dst[..] == CopyInto(src[..], old(dst[..]), l)
  {
    CopyIsBlit(src[..], dst[..], l);
    if l >= 1024 {
      ghost var was := dst[..];
      forall k | 0 <= k < l { dst[k] := src[k]; }
      assert dst[..] == Blit(was, src[..], 0, l);
    } else {
      CopyBlocks(src, dst, l);
    }
  }

  method CopyBlocks(src: array<Byte>, dst: array<Byte>, l: int)
    requires l < 1024 && src != dst && CopyWidth(l) <= src.Length && CopyWidth(l) <= dst.Length
    modifies dst
    ensures dst[..] == Blit(old(dst[..]), src[..], 0, CopyWidth(l))
  {
    hide Blit, CopyInto, CopyWidth;
    ghost var was := dst[..];
    BlitNone(was, src[..], 0);
    ghost var done := 0;
    Blocks(l, done);
    var left, at := l, 0;
    while left > 0
      invariant 0 <= done && at == 64 * done && at + left == l && at <= CopyWidth(l)
      invariant left <= 0 ==> at == CopyWidth(l)
      invariant dst[..] == Blit(was, src[..], 0, at)
    {
      Blocks(l, done);
      CopyBlock(src, dst, at);
      BlitTwice(was, src[..], 0, at, 64);
      left, at := left - 64, at + 64;
      done := done + 1;
    }
  }

  /** After `done` blocks: another one fits while bytes are left, and the last one ends at
      CopyWidth(l). */
  lemma Blocks(l: int, done: nat)
    requires l < 1024
    ensures 64 * done < l ==> 64 * (done + 1) <= CopyWidth(l)
    ensures 64 * done < l <= 64 * (done + 1) ==> 64 * (done + 1) == CopyWidth(l)
    ensures l <= 0 ==> CopyWidth(l) == 0
  {}

  /** What a caller of sin_memcpy gets. */
  lemma CopyMeans(src: Bytes, dst: Bytes, l: nat)
    requires CopyWidth(l) <= |src| && CopyWidth(l) <= |dst|
    ensures var r := CopyInto(src, dst, l);
      |r| == |dst| && l <= |src| && r[..l] == src[..l] && r[CopyWidth(l)..] == dst[CopyWidth(l)..]
  {
    assert l <= CopyWidth(l);
  }
}
