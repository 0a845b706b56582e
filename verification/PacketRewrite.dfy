/** The packet rewriting done by the two consumers: the ICMP echo replier and the UDP
    mirror.  Offsets are those of an Ethernet frame with a 20-byte IPv4 header. */
module PacketRewrite {
  import opened Octets
  import opened MemFast
  import opened Checksum

  const ETH_DST := 0
  const ETH_SRC := 6
  const ETH_TYPE := 12
  const IP := 14
  const IP_PROTO := 23
  const IP_SUM := 24
  const IP_SRC := 26
  const IP_DST := 30
  const L4 := 34
  const UDP_SRC := 34
  const UDP_DST := 36
  const UDP_LEN := 38
  const UDP_SUM := 40
  const UDP_DATA := 42
  const ICMP_TYPE := 34
  const ICMP_SUM := 36
  const UDP_MINLEN := 42
  const ICMP_MINLEN := 50

  /** ntohs of the field at `at`. */
  function Net16(b: Bytes, at: nat): (w: nat)
    requires at + 2 <= |b|
    ensures w < 65536
  {
    256 * (b[at] as int) + (b[at + 1] as int)
  }

  predicate IsIp4(b: Bytes, proto: Byte)
    requires |b| >= 34
  {
    Net16(b, ETH_TYPE) == 0x0800 && (b[IP] as int) / 16 == 4 && b[IP_PROTO] == proto
  }

  // ---------- the taste functions ----------

  predicate IcmpTaste(b: Bytes) {
    |b| >= ICMP_MINLEN && IsIp4(b, 0x01) && b[ICMP_TYPE] == 0x08
  }

  predicate IcmpReplTaste(b: Bytes) {
    |b| >= ICMP_MINLEN && IsIp4(b, 0x01) && b[ICMP_TYPE] == 0x00
  }

  predicate UdpmTaste(b: Bytes, portMin: int, portMax: int) {
    && |b| >= UDP_MINLEN && IsIp4(b, 0x11)
    && Net16(b, UDP_LEN) >= 8
    && portMin <= Net16(b, UDP_DST) <= portMax
    && portMin <= Net16(b, UDP_SRC) <= portMax
  }

  // ---------- the rewriting, as functions ----------

  /** Ethernet and IP source and destination exchanged. */
  function SwapAddrs(b: Bytes): (r: Bytes)
    requires |b| >= 34
    ensures |r| == |b|
  {
    Swapped(Swapped(b, ETH_SRC, ETH_DST, 6), IP_SRC, IP_DST, 4)
  }

  function Mirror(b: Bytes): (r: Bytes)
    requires |b| >= UDP_MINLEN
    ensures |r| == |b|
  {
    Swapped(SwapAddrs(b), UDP_SRC, UDP_DST, 2)
  }

  /** The sum the debug build takes over the UDP pseudo-header, header and data, leaving out
      the checksum field. */
  function DebugSum(b: Bytes, n: nat): nat
    requires 8 <= n && L4 + n <= |b|
  {
    WordSum(b[IP_SRC..IP_DST]) + WordSum(b[IP_DST..L4]) + Word(0x00, 0x11) + WordSum(b[UDP_LEN..UDP_SUM])
    + WordSum(b[UDP_SRC..UDP_DST]) + WordSum(b[UDP_DST..UDP_LEN]) + WordSum(b[UDP_LEN..UDP_SUM])
    + WordSum(b[UDP_DATA..L4 + n])
  }

  /** The IP checksum of a buffer recomputed over a zeroed field. */
  function FreshIpSum(b: Bytes): (r: Bytes)
    requires |b| >= 34
    ensures |r| == |b|
  {
    var z := Store16(b, IP_SUM, 0);
    Store16(z, IP_SUM, 65535 - OcSum(z[IP..L4]))
  }

  /** The debug build's mirror up to its UDP checksum. */
  function DebugHeader(b: Bytes): (r: Bytes)
    requires |b| >= UDP_MINLEN
    ensures |r| == |b|
  {
    Swapped(FreshIpSum(SwapAddrs(b)), UDP_SRC, UDP_DST, 2)
  }

  /** The mirror of the debug build, which also recomputes both checksums.  b is the memory
      from the packet's buffer on: the code sums as many bytes as the UDP length says, within
      the packet or not. */
  function DebugMirror(b: Bytes): (r: Bytes)
    requires UdpFits(b)
    ensures |r| == |b|
  {
    var h := DebugHeader(b);
    Store16(h, UDP_SUM, Finish(DebugSum(h, Net16(b, UDP_LEN))))
  }

  /** The UDP length covers its header and lies within the bytes at hand. */
  predicate UdpFits(b: Bytes) {
    |b| >= UDP_MINLEN && 8 <= Net16(b, UDP_LEN) && L4 + Net16(b, UDP_LEN) <= |b|
  }

  function Req2Rpl(b: Bytes): (r: Bytes)
    requires |b| >= 38
    ensures |r| == |b|
  {
    var m := SwapAddrs(b);
    var h := Store16(m, IP_SUM, 65535 - OcSum(m[IP..L4]));
    var z := h[ICMP_TYPE := 0x00];
    Store16(z, ICMP_SUM, (Load16(z, ICMP_SUM) + 0x0008) % 65536)
  }

  // ---------- the rewriting, in place ----------

  /** sin_ip_chksum_update, for the even lengths its assertion allows. */
  method ChksumUpdate(wsum: nat, buf: array<Byte>, at: nat, len: nat) returns (sum: nat)
    requires at + len <= buf.Length && len % 2 == 0
    ensures sum == wsum + WordSum(buf[at..at + len])
  {
    hide WordSum, Word;
    ghost var all := buf[at..at + len];
    assert all[0..] == all;
    sum := wsum;
    var nleft, ww := len, at;
    while nleft > 1
      invariant 0 <= nleft <= len && nleft % 2 == 0 && ww == at + len - nleft
      invariant sum + WordSum(all[len - nleft..]) == wsum + WordSum(all)
    {
      SumStep(all, len - nleft);
      sum := sum + Word(buf[ww], buf[ww + 1]);
      ww, nleft := ww + 2, nleft - 2;
    }
    SumEnd(all, len);
  }

  /** sin_ip_chksum_update_data, which adds an odd last byte as a low byte. */
  method ChksumUpdateData(wsum: nat, buf: array<Byte>, at: nat, len: nat) returns (sum: nat)
    requires at + len <= buf.Length
    ensures sum == wsum + WordSum(buf[at..at + len])
  {
    hide WordSum, Word;
    ghost var all := buf[at..at + len];
    assert all[0..] == all;
    sum := wsum;
    var nleft, ww := len, at;
    while nleft > 1
      invariant 0 <= nleft <= len && ww == at + len - nleft
      invariant sum + WordSum(all[len - nleft..]) == wsum + WordSum(all)
    {
      SumStep(all, len - nleft);
      sum := sum + Word(buf[ww], buf[ww + 1]);
      ww, nleft := ww + 2, nleft - 2;
    }
    SumEnd(all, len - nleft);
    if nleft == 1 {
      sum := sum + (buf[ww] as int);
    }
  }

  method PutField(buf: array<Byte>, at: nat, w: nat)
    requires at + 2 <= buf.Length && w < 65536
    modifies buf
    ensures buf[..] == Store16(old(buf[..]), at, w)
  {
    buf[at] := (w % 256) as Byte;
    buf[at + 1] := (w / 256) as Byte;
  }

  /** sin_ip4_udp_mirror on the memory from the packet's buffer on.  The debug build trusts the
      UDP length field; all that is asked is that the bytes it reads are there. */
  method MirrorUdp(buf: array<Byte>, debug: bool)
    requires buf.Length >= UDP_MINLEN && (debug ==> UdpFits(buf[..]))
    modifies buf
    ensures buf[..] == if debug then DebugMirror(old(buf[..])) else Mirror(old(buf[..]))
  {
    hide Swapped, OcSum, Store16, Finish, Word, WordSum, Net16;
    ghost var was := buf[..];
    MemSwp(buf, ETH_SRC, ETH_DST, 6);
    MemSwp(buf, IP_SRC, IP_DST, 4);
    assert buf[..] == SwapAddrs(was);
    if debug {
      PutField(buf, IP_SUM, 0);
      var c := Ip4Cksum(buf, IP, 20);
      assert buf[IP..IP + 20] == buf[..][IP..L4];
      PutField(buf, IP_SUM, c);
    }
    MemSwp(buf, UDP_SRC, UDP_DST, 2);
    if debug {
      DebugParts(was);
      PutUdpSum(buf);
    }
  }

  /** The debug build's recomputation of the UDP checksum. */
  method PutUdpSum(buf: array<Byte>)
    requires UdpFits(buf[..])
    modifies buf
    ensures buf[..] == Store16(old(buf[..]), UDP_SUM, Finish(DebugSum(old(buf[..]), Net16(old(buf[..]), UDP_LEN))))
  {
    hide Store16, Finish, Word, WordSum;
    ghost var was := buf[..];
    var n := 256 * (buf[UDP_LEN] as int) + (buf[UDP_LEN + 1] as int);
    assert n == Net16(was, UDP_LEN);
    var wsum := SumUdp(buf, n);
    PutField(buf, UDP_SUM, Finish(wsum));
  }

  method SumUdp(buf: array<Byte>, n: nat) returns (wsum: nat)
    requires 8 <= n && L4 + n <= buf.Length
    ensures wsum == DebugSum(buf[..], n)
  {
    hide Word, WordSum;
    SameSlices(buf, n);
    wsum := ChksumUpdate(0, buf, IP_SRC, 4);
    wsum := ChksumUpdate(wsum, buf, IP_DST, 4);
    wsum := wsum + Word(0x00, 0x11);
    wsum := ChksumUpdate(wsum, buf, UDP_LEN, 2);
    wsum := ChksumUpdate(wsum, buf, UDP_SRC, 2);
    wsum := ChksumUpdate(wsum, buf, UDP_DST, 2);
    wsum := ChksumUpdate(wsum, buf, UDP_LEN, 2);
    wsum := ChksumUpdateData(wsum, buf, UDP_DATA, n - 8);
  }

  lemma SameSlices(buf: array<Byte>, n: nat)
    requires 8 <= n && L4 + n <= buf.Length
    ensures buf[IP_SRC..IP_SRC + 4] == buf[..][IP_SRC..IP_DST] && buf[IP_DST..IP_DST + 4] == buf[..][IP_DST..L4]
    ensures buf[UDP_SRC..UDP_SRC + 2] == buf[..][UDP_SRC..UDP_DST]
      && buf[UDP_DST..UDP_DST + 2] == buf[..][UDP_DST..UDP_LEN]
    ensures buf[UDP_LEN..UDP_LEN + 2] == buf[..][UDP_LEN..UDP_SUM]
    ensures buf[UDP_DATA..UDP_DATA + (n - 8)] == buf[..][UDP_DATA..L4 + n]
  {}

  /** sin_ip4_icmp_req2rpl. */
  method ReplyIcmp(buf: array<Byte>)
    requires buf.Length >= 38
    modifies buf
    ensures buf[..] == Req2Rpl(old(buf[..]))
  {
    hide Swapped, OcSum, Store16, WordSum;
    ghost var was := buf[..];
    MemSwp(buf, ETH_SRC, ETH_DST, 6);
    MemSwp(buf, IP_SRC, IP_DST, 4);
    assert buf[..] == SwapAddrs(was);
    var c := Ip4Cksum(buf, IP, 20);
    assert buf[IP..IP + 20] == buf[..][IP..L4];
    PutField(buf, IP_SUM, c);
    buf[ICMP_TYPE] := 0x00;
    var sum := Word(buf[ICMP_SUM], buf[ICMP_SUM + 1]);
    PutField(buf, ICMP_SUM, (sum + 0x0008) % 65536);
  }

  // ---------- what moves where ----------

  /** Where the byte at i came from when addresses, and then ports, were exchanged. */
  function AddrIdx(i: int): int {
    if 0 <= i < 6 then i + 6 else if 6 <= i < 12 then i - 6
    else if 26 <= i < 30 then i + 4 else if 30 <= i < 34 then i - 4 else i
  }

  function PortIdx(i: int): int {
    if 34 <= i < 36 then i + 2 else if 36 <= i < 38 then i - 2 else i
  }

  lemma AddrsAt(b: Bytes)
    requires |b| >= 34
    ensures forall i :: 0 <= i < |b| ==> 0 <= AddrIdx(i) < |b| && SwapAddrs(b)[i] == b[AddrIdx(i)]
  {}

  lemma PortsAt(a: Bytes)
    requires |a| >= UDP_MINLEN
    ensures forall i :: 0 <= i < |a| ==> 0 <= PortIdx(i) < |a| && Swapped(a, UDP_SRC, UDP_DST, 2)[i] == a[PortIdx(i)]
  {}

  lemma StoredElsewhere(b: Bytes, at: nat, w: nat)
    requires at + 2 <= |b| && w < 65536
    ensures forall i :: 0 <= i < |b| && i != at && i != at + 1 ==> Store16(b, at, w)[i] == b[i]
    ensures Load16(Store16(b, at, w), at) == w
  {
    LoadStored(b, at, w);
  }

  /** x and y agree from lo up to hi. */
  predicate Agree(x: Bytes, y: Bytes, lo: nat, hi: nat) {
    hi <= |x| && hi <= |y| && forall i :: lo <= i < hi ==> x[i] == y[i]
  }

  lemma SameSlice(x: Bytes, y: Bytes, lo: nat, hi: nat)
    requires lo <= hi && Agree(x, y, lo, hi)
    ensures x[lo..hi] == y[lo..hi]
  {}

  // ---------- the IP header ----------

  /** The IP header's sum without its checksum field. */
  function HeaderRest(b: Bytes): nat
    requires |b| >= 34
  {
    WordSum(b[IP..IP_SUM]) + WordSum(b[IP_SRC..L4])
  }

  lemma HeaderSum(b: Bytes)
    requires |b| >= 34
    ensures WordSum(b[IP..L4]) == HeaderRest(b) + Load16(b, IP_SUM)
  {
    hide WordSum, Load16;
    SumAroundField(b, IP, IP_SUM, L4);
  }

  lemma RestKept(b: Bytes, r: Bytes)
    requires |b| >= 34 && Agree(r, b, IP, IP_SUM) && Agree(r, b, IP_SRC, L4)
    ensures HeaderRest(r) == HeaderRest(b)
  {
    hide WordSum;
    SameSlice(r, b, IP, IP_SUM);
    SameSlice(r, b, IP_SRC, L4);
  }

  lemma AddrsKeepRest(b: Bytes)
    requires |b| >= 34
    ensures HeaderRest(SwapAddrs(b)) == HeaderRest(b) && Load16(SwapAddrs(b), IP_SUM) == Load16(b, IP_SUM)
  {
    hide WordSum, SwapAddrs;
    var m := SwapAddrs(b);
    AddrsAt(b);
    SumSplit(m, IP_SRC, IP_DST, L4);
    SumSplit(b, IP_SRC, IP_DST, L4);
    assert m[IP_SRC..IP_DST] == b[IP_DST..L4] && m[IP_DST..L4] == b[IP_SRC..IP_DST];
    SameSlice(m, b, IP, IP_SUM);
  }

  /** Exchanging the addresses leaves the IP header's checksum as good as it was. */
  lemma AddrsKeepIpSum(b: Bytes)
    requires |b| >= 34
    ensures OcSum(SwapAddrs(b)[IP..L4]) == OcSum(b[IP..L4])
  {
    hide WordSum, OcSum, SwapAddrs, Load16, HeaderRest;
    AddrsKeepRest(b);
    HeaderSum(b);
    HeaderSum(SwapAddrs(b));
    OcSumIsCanon(b[IP..L4]);
    OcSumIsCanon(SwapAddrs(b)[IP..L4]);
  }

  /** Recomputing the IP checksum makes the header verify and changes only that field. */
  lemma FreshParts(b: Bytes)
    requires |b| >= 34
    ensures var r := FreshIpSum(b);
      && (forall i :: 0 <= i < |b| && i != IP_SUM && i != IP_SUM + 1 ==> r[i] == b[i])
      && Load16(r, IP_SUM) == 65535 - Canon(HeaderRest(b))
      && Verifies(r[IP..L4])
  {
    hide WordSum, OcSum, Canon, Store16, Load16, HeaderRest;
    var z := Store16(b, IP_SUM, 0);
    var r := FreshIpSum(b);
    StoredElsewhere(b, IP_SUM, 0);
    StoredElsewhere(z, IP_SUM, 65535 - OcSum(z[IP..L4]));
    RestKept(b, z);
    RestKept(b, r);
    HeaderSum(z);
    HeaderSum(r);
    OcSumIsCanon(z[IP..L4]);
    OcSumIsCanon(r[IP..L4]);
    StoredVerifies(HeaderRest(b));
  }

  // ---------- the mirror ----------

  lemma MirrorAt(b: Bytes)
    requires |b| >= UDP_MINLEN
    ensures forall i :: 0 <= i < |b| ==> 0 <= AddrIdx(PortIdx(i)) < |b| && Mirror(b)[i] == b[AddrIdx(PortIdx(i))]
  {
    hide Swapped, SwapAddrs;
    AddrsAt(b);
    PortsAt(SwapAddrs(b));
  }

  /** The mirror exchanges the Ethernet, IP and UDP sources and destinations and leaves
      every other byte alone. */
  lemma MirrorParts(b: Bytes)
    requires |b| >= UDP_MINLEN
    ensures var m := Mirror(b);
      && m[ETH_DST..ETH_SRC] == b[ETH_SRC..ETH_TYPE] && m[ETH_SRC..ETH_TYPE] == b[ETH_DST..ETH_SRC]
      && m[IP_SRC..IP_DST] == b[IP_DST..L4] && m[IP_DST..L4] == b[IP_SRC..IP_DST]
      && m[UDP_SRC..UDP_DST] == b[UDP_DST..UDP_LEN] && m[UDP_DST..UDP_LEN] == b[UDP_SRC..UDP_DST]
      && m[ETH_TYPE..IP_SRC] == b[ETH_TYPE..IP_SRC] && m[UDP_LEN..] == b[UDP_LEN..]
  {
    hide Mirror;
    MirrorAt(b);
  }

  /** Mirroring twice restores the packet, and a packet is for the mirror exactly when its
      mirror image is. */
  lemma MirrorInvolution(b: Bytes, portMin: int, portMax: int)
    requires |b| >= UDP_MINLEN
    ensures Mirror(Mirror(b)) == b
    ensures UdpmTaste(Mirror(b), portMin, portMax) <==> UdpmTaste(b, portMin, portMax)
  {
    hide Mirror;
    MirrorAt(b);
    MirrorAt(Mirror(b));
    forall i | 0 <= i < |b| ensures Mirror(Mirror(b))[i] == b[i] {
      assert AddrIdx(PortIdx(AddrIdx(PortIdx(i)))) == i;
    }
  }

  /** The RFC 768 sum: pseudo-header (addresses, protocol, length), UDP header and data. */
  function UdpSum(b: Bytes): nat
    requires UdpFits(b)
  {
    WordSum(b[IP_SRC..IP_DST]) + WordSum(b[IP_DST..L4]) + Word(0x00, 0x11) + WordSum(b[UDP_LEN..UDP_SUM])
    + WordSum(b[UDP_SRC..L4 + Net16(b, UDP_LEN)])
  }

  predicate UdpVerifies(b: Bytes)
    requires UdpFits(b)
  {
    Canon(UdpSum(b)) == 0xffff
  }

  /** The RFC 768 sum is the debug build's sum plus the checksum field. */
  lemma UdpSumSplits(b: Bytes)
    requires UdpFits(b)
    ensures UdpSum(b) == DebugSum(b, Net16(b, UDP_LEN)) + Load16(b, UDP_SUM)
  {
    hide WordSum, Net16, Load16, Word;
    var hi := L4 + Net16(b, UDP_LEN);
    SumSplit(b, UDP_SRC, UDP_DST, hi);
    SumSplit(b, UDP_DST, UDP_LEN, hi);
    SumAroundField(b, UDP_LEN, UDP_SUM, hi);
  }

  /** The debug build's sum is blind to the mirror's exchanges. */
  lemma MirrorKeepsDebugSum(b: Bytes, n: nat)
    requires 8 <= n && L4 + n <= |b|
    ensures DebugSum(Mirror(b), n) == DebugSum(b, n)
  {
    hide WordSum, Word, Mirror;
    var m := Mirror(b);
    MirrorParts(b);
    MirrorAt(b);
    SameSlice(m, b, UDP_LEN, UDP_SUM);
    SameSlice(m, b, UDP_DATA, L4 + n);
  }

  /** Both checksums of a packet are exactly as good after the mirror as before it. */
  lemma MirrorKeepsChecksums(b: Bytes)
    requires |b| >= UDP_MINLEN
    ensures OcSum(Mirror(b)[IP..L4]) == OcSum(b[IP..L4])
    ensures UdpFits(Mirror(b)) <==> UdpFits(b)
    ensures UdpFits(b) ==> UdpSum(Mirror(b)) == UdpSum(b)
  {
    hide WordSum, OcSum, SwapAddrs, Mirror, DebugSum, UdpSum;
    var m := Mirror(b);
    MirrorHead(b);
    AddrsKeepIpSum(b);
    MirrorAt(b);
    if UdpFits(b) {
      UdpSumSplits(b);
      UdpSumSplits(m);
      MirrorKeepsDebugSum(b, Net16(b, UDP_LEN));
    }
  }

  lemma MirrorHead(b: Bytes)
    requires |b| >= UDP_MINLEN
    ensures Mirror(b)[IP..L4] == SwapAddrs(b)[IP..L4]
  {
    hide SwapAddrs, Swapped;
    PortsAt(SwapAddrs(b));
  }

  // ---------- the debug build's recomputation ----------

  /** Where the debug build's bytes come from. */
  lemma DebugParts(b: Bytes)
    requires UdpFits(b)
    ensures var h, d := DebugHeader(b), DebugMirror(b);
      && Agree(d, h, 0, UDP_SUM) && Agree(d, h, UDP_DATA, |b|)
      && UdpFits(h) && UdpFits(d) && Net16(h, UDP_LEN) == Net16(d, UDP_LEN) == Net16(b, UDP_LEN)
      && Load16(d, UDP_SUM) == Finish(DebugSum(h, Net16(b, UDP_LEN)))
  {
    hide Swapped, SwapAddrs, FreshIpSum, WordSum, OcSum, Store16, Finish, DebugSum;
    var a := SwapAddrs(b);
    var h := DebugHeader(b);
    AddrsAt(b);
    FreshParts(a);
    PortsAt(FreshIpSum(a));
    StoredElsewhere(h, UDP_SUM, Finish(DebugSum(h, Net16(b, UDP_LEN))));
  }

  /** The debug build's mirror is the mirror but for the two checksum fields. */
  lemma DebugMirrors(b: Bytes)
    requires UdpFits(b)
    ensures forall i :: 0 <= i < |b| && !(IP_SUM <= i < IP_SRC) && !(UDP_SUM <= i < UDP_DATA) ==>
      DebugMirror(b)[i] == Mirror(b)[i]
  {
    hide Swapped, SwapAddrs, FreshIpSum, DebugMirror, Mirror, Net16;
    var a := SwapAddrs(b);
    DebugParts(b);
    FreshParts(a);
    AddrsAt(b);
    PortsAt(FreshIpSum(a));
    MirrorAt(b);
  }

  /** In the debug build the mirrored packet's IP header always verifies, whatever sum w the UDP
      pass stores; and if the packet's header verified to begin with, the new checksum is the
      old one, up to the two representations of zero. */
  lemma DebugIpVerifies(b: Bytes, w: nat)
    requires |b| >= UDP_MINLEN && w < 65536
    ensures var d := Store16(DebugHeader(b), UDP_SUM, w);
      && Verifies(d[IP..L4])
      && (Verifies(b[IP..L4]) ==>
           var anew, prev := Load16(d, IP_SUM), Load16(b, IP_SUM);
           anew == prev || (anew == 0 && prev == 65535) || (anew == 65535 && prev == 0))
  {
    hide Swapped, SwapAddrs, FreshIpSum, WordSum, OcSum, Canon, HeaderRest, Store16;
    var a := SwapAddrs(b);
    var f, h := FreshIpSum(a), DebugHeader(b);
    FreshParts(a);
    AddrsKeepRest(b);
    HeaderSum(b);
    OcSumIsCanon(b[IP..L4]);
    PortsAt(f);
    StoredElsewhere(h, UDP_SUM, w);
    SameSlice(Store16(h, UDP_SUM, w), f, IP, L4);
    if Verifies(b[IP..L4]) {
      VerifyingFields(HeaderRest(b), Load16(b, IP_SUM));
    }
  }

  /** In the debug build the mirrored packet's UDP checksum always verifies. */
  lemma DebugUdpVerifies(b: Bytes)
    requires UdpFits(b)
    ensures UdpFits(DebugMirror(b)) && UdpVerifies(DebugMirror(b))
  {
    hide DebugHeader, DebugMirror, WordSum, OcSum, Load16, Canon, Finish, Word, DebugSum, Net16;
    var h := DebugHeader(b);
    var n := Net16(b, UDP_LEN);
    var d := DebugMirror(b);
    DebugParts(b);
    DebugSumKept(h, d, n);
    UdpSumSplits(d);
    DebugSumFits(h, n);
    FoldsToCanon(DebugSum(h, n));
    StoredVerifies(DebugSum(h, n));
  }

  lemma DebugSumKept(h: Bytes, d: Bytes, n: nat)
    requires 8 <= n && L4 + n <= |h| && Agree(d, h, 0, UDP_SUM) && Agree(d, h, UDP_DATA, |h|) && |d| == |h|
    ensures DebugSum(d, n) == DebugSum(h, n)
  {
    hide WordSum, Word;
    SameSlice(d, h, IP_SRC, IP_DST);
    SameSlice(d, h, IP_DST, L4);
    SameSlice(d, h, UDP_SRC, UDP_DST);
    SameSlice(d, h, UDP_DST, UDP_LEN);
    SameSlice(d, h, UDP_LEN, UDP_SUM);
    SameSlice(d, h, UDP_DATA, L4 + n);
  }

  lemma DebugSumFits(b: Bytes, n: nat)
    requires 8 <= n < 65536 && L4 + n <= |b|
    ensures DebugSum(b, n) < 0x1_0000_0000
  {
    hide WordSum, Word;
  }

  // ---------- the echo reply ----------

  lemma ReplyParts(b: Bytes)
    requires |b| >= 38
    ensures var m := SwapAddrs(b); var r := Req2Rpl(b);
      && Agree(r, m, 0, IP_SUM) && Agree(r, m, IP_SRC, L4) && Agree(r, m, L4 + 4, |b|)
      && Load16(r, IP_SUM) == 65535 - OcSum(m[IP..L4])
      && r[ICMP_TYPE] == 0x00 && r[ICMP_TYPE + 1] == m[ICMP_TYPE + 1]
      && Load16(r, ICMP_SUM) == (Load16(m, ICMP_SUM) + 0x0008) % 65536
  {
    hide SwapAddrs, OcSum, Store16;
    var m := SwapAddrs(b);
    var h := Store16(m, IP_SUM, 65535 - OcSum(m[IP..L4]));
    var z := h[ICMP_TYPE := 0x00];
    StoredElsewhere(m, IP_SUM, 65535 - OcSum(m[IP..L4]));
    StoredElsewhere(z, ICMP_SUM, (Load16(z, ICMP_SUM) + 0x0008) % 65536);
  }

  /** A request for the echo replier becomes a reply, no longer a request, from the
      request's destination to its source, with every other byte but the two checksums
      unchanged. */
  lemma ReplyIsReply(b: Bytes)
    requires IcmpTaste(b)
    ensures var r := Req2Rpl(b);
      && IcmpReplTaste(r) && !IcmpTaste(r)
      && r[ETH_DST..ETH_SRC] == b[ETH_SRC..ETH_TYPE] && r[ETH_SRC..ETH_TYPE] == b[ETH_DST..ETH_SRC]
      && r[IP_SRC..IP_DST] == b[IP_DST..L4] && r[IP_DST..L4] == b[IP_SRC..IP_DST]
      && r[ETH_TYPE..IP_SUM] == b[ETH_TYPE..IP_SUM] && r[ICMP_TYPE + 1] == b[ICMP_TYPE + 1]
        && r[L4 + 4..] == b[L4 + 4..]
  {
    hide SwapAddrs, Req2Rpl;
    AddrsAt(b);
    ReplyParts(b);
  }

  /** The ICMP checksum of a reply, over any message length: if the request's checksum
      verified, the reply's does if and only if adding 0x0008 to the stored word did not
      wrap around 16 bits. */
  lemma ReplyIcmpSum(b: Bytes, n: nat)
    requires |b| >= 38 && b[ICMP_TYPE] == 0x08 && 4 <= n && L4 + n <= |b|
    requires Verifies(b[L4..L4 + n])
    ensures Verifies(Req2Rpl(b)[L4..L4 + n]) <==> Load16(b, ICMP_SUM) < 0xfff8
  {
    hide OcSum, WordSum, Canon, Req2Rpl, Load16;
    ReplyMessage(b, n);
    OcSumIsCanon(b[L4..L4 + n]);
    OcSumIsCanon(Req2Rpl(b)[L4..L4 + n]);
    OffByOne(WordSum(b[L4..L4 + n]), WordSum(Req2Rpl(b)[L4..L4 + n]));
  }

  lemma OffByOne(was: nat, now: nat)
    requires Canon(was) == 65535 && (now == was || now == was - 65536)
    ensures Canon(now) == 65535 <==> now == was
  {}

  /** The sum of the reply's message. */
  lemma ReplyMessage(b: Bytes, n: nat)
    requires |b| >= 38 && b[ICMP_TYPE] == 0x08 && 4 <= n && L4 + n <= |b|
    ensures WordSum(Req2Rpl(b)[L4..L4 + n])
         == WordSum(b[L4..L4 + n]) - if Load16(b, ICMP_SUM) < 0xfff8 then 0 else 65536
  {
    hide SwapAddrs, OcSum, WordSum, Req2Rpl, Word;
    var r := Req2Rpl(b);
    ReplyFields(b);
    MessageSum(b, n);
    MessageSum(r, n);
    SameSlice(r, b, L4 + 4, L4 + n);
  }

  /** In the message, the type goes from 8 to 0, 8 is added to the checksum word without a
      carry out, and nothing else changes. */
  lemma ReplyFields(b: Bytes)
    requires |b| >= 38 && b[ICMP_TYPE] == 0x08
    ensures var r := Req2Rpl(b);
      && Word(r[ICMP_TYPE], r[ICMP_TYPE + 1]) + 8 == Word(b[ICMP_TYPE], b[ICMP_TYPE + 1])
      && Load16(r, ICMP_SUM) == (Load16(b, ICMP_SUM) + 8) % 65536
      && Agree(r, b, L4 + 4, |b|)
  {
    hide SwapAddrs, OcSum, Req2Rpl;
    AddrsAt(b);
    ReplyParts(b);
  }

  lemma MessageSum(b: Bytes, n: nat)
    requires 4 <= n && L4 + n <= |b|
    ensures WordSum(b[L4..L4 + n])
         == Word(b[ICMP_TYPE], b[ICMP_TYPE + 1]) + Load16(b, ICMP_SUM) + WordSum(b[L4 + 4..L4 + n])
  {
    hide WordSum;
    SumSplit(b, L4, ICMP_SUM, L4 + n);
    SumOfField(b, L4);
    SumAroundField(b, ICMP_SUM, ICMP_SUM, L4 + n);
    EmptySum(b);
  }

  lemma EmptySum(b: Bytes)
    requires |b| >= 38
    ensures WordSum(b[ICMP_SUM..ICMP_SUM]) == 0
  {}

  /** The IP header of a reply: the replier sums over the old checksum field, so whatever
      the request, the reply's header verifies if and only if that field held one of the
      two zeros; a request that verified gets 0 stored. */
  lemma ReplyIpSum(b: Bytes)
    requires IcmpTaste(b)
    ensures Verifies(Req2Rpl(b)[IP..L4]) <==> Load16(b, IP_SUM) == 0 || Load16(b, IP_SUM) == 65535
    ensures Verifies(b[IP..L4]) ==> Load16(Req2Rpl(b), IP_SUM) == 0
  {
    hide SwapAddrs, OcSum, WordSum, Canon, Req2Rpl, HeaderRest;
    var m, r := SwapAddrs(b), Req2Rpl(b);
    ReplyParts(b);
    AddrsKeepIpSum(b);
    AddrsKeepRest(b);
    HeaderSum(b);
    OcSumIsCanon(b[IP..L4]);
    RestKept(m, r);
    HeaderSum(r);
    OcSumIsCanon(r[IP..L4]);
    HeaderNotZero(b);
    OldSumIncluded(HeaderRest(b), Load16(b, IP_SUM));
  }

  lemma HeaderNotZero(b: Bytes)
    requires |b| >= 34 && (b[IP] as int) / 16 == 4
    ensures HeaderRest(b) > 0
  {
    var s := b[IP..IP_SUM];
    assert WordSum(s) >= Word(s[0], s[1]) && s[0] == b[IP];
  }

  lemma OldSumIncluded(rest: nat, c: nat)
    requires rest > 0 && c < 65536
    ensures Canon(rest + (65535 - Canon(rest + c))) == 65535 <==> c == 0 || c == 65535
  {}

  // ---------- the packet within its buffer ----------

  /** The mirror of a packet is the front of the mirror of its buffer. */
  lemma MirrorOfPacket(b: Bytes, n: nat)
    requires UDP_MINLEN <= n <= |b|
    ensures Mirror(b)[..n] == Mirror(b[..n])
  {
    hide Mirror;
    MirrorAt(b);
    MirrorAt(b[..n]);
  }

  /** The reply to a packet is the front of the reply in its buffer. */
  lemma ReplyOfPacket(b: Bytes, n: nat)
    requires 38 <= n <= |b|
    ensures Req2Rpl(b)[..n] == Req2Rpl(b[..n])
  {
    hide SwapAddrs, OcSum, Store16, Load16;
    var c := b[..n];
    AddrsOfPacket(b, n);
    var m, k := SwapAddrs(b), SwapAddrs(c);
    assert m[IP..L4] == k[IP..L4];
    var w := 65535 - OcSum(m[IP..L4]);
    StoreOfPacket(m, n, IP_SUM, w);
    var h := Store16(m, IP_SUM, w);
    var z := h[ICMP_TYPE := 0x00];
    assert z[..n] == h[..n][ICMP_TYPE := 0x00];
    LoadOfPacket(z, n, ICMP_SUM);
    StoreOfPacket(z, n, ICMP_SUM, (Load16(z, ICMP_SUM) + 0x0008) % 65536);
  }

  lemma AddrsOfPacket(b: Bytes, n: nat)
    requires 34 <= n <= |b|
    ensures SwapAddrs(b)[..n] == SwapAddrs(b[..n])
  {
    hide SwapAddrs;
    AddrsAt(b);
    AddrsAt(b[..n]);
  }

  lemma StoreOfPacket(b: Bytes, n: nat, at: nat, w: nat)
    requires at + 2 <= n <= |b| && w < 65536
    ensures Store16(b, at, w)[..n] == Store16(b[..n], at, w)
  {}

  lemma LoadOfPacket(b: Bytes, n: nat, at: nat)
    requires at + 2 <= n <= |b|
    ensures Load16(b, at) == Load16(b[..n], at)
  {}

  /** For every packet the taste accepts, 65535 bytes past the IP header are all the debug build
      can read: with that much memory behind the buffer it never runs out. */
  lemma AcceptedFits(b: Bytes, n: nat, portMin: int, portMax: int)
    requires n <= |b| && UdpmTaste(b[..n], portMin, portMax) && |b| >= L4 + 65535
    ensures UdpFits(b)
  {
    assert Net16(b[..n], UDP_LEN) == Net16(b, UDP_LEN);
  }

  // ---------- the conditions are real ----------

  /** An echo request with both checksums right, the ICMP one 0xfff8 as stored; all bytes not
      named are 0. */
  function WrappingRequest(): (b: Bytes)
    ensures |b| == 50
  {
    seq(50, i requires 0 <= i < 50 =>
      if i == 12 then 0x08
      else if i == 14 then 0x45 else if i == 23 then 0x01 else if i == 24 then 0xba else if i == 25 then 0xfe
      else if i == 34 then 0x08 else if i == 36 then 0xf8 else if i == 37 then 0xff else if i == 38 then 0xfe
      else if i == 39 then 0xff
      else 0)
  }

  lemma WrappingMessage()
    ensures Verifies(WrappingRequest()[L4..])
  {
    hide OcSum;
    var m := WrappingRequest()[L4..];
    assert AllZero(m[6..]);
    ZeroOnlyForZeros(m[6..]);
    OcSumOf(m, 4);
    assert OcSum(m[4..]) == 0xfffe;
    OcSumOf(m, 2);
    assert OcSum(m[2..]) == 0xfff7;
    OcSumOf(m, 0);
    assert m[0..] == m;
  }

  lemma WrappingHeader()
    ensures Verifies(WrappingRequest()[IP..L4])
  {
    hide OcSum;
    var h := WrappingRequest()[IP..L4];
    assert AllZero(h[12..]);
    ZeroOnlyForZeros(h[12..]);
    OcSumOf(h, 10);
    assert OcSum(h[10..]) == 0xfeba;
    OcSumOf(h, 8);
    assert OcSum(h[8..]) == 0xffba;
    OcSumOf(h, 6);
    OcSumOf(h, 4);
    OcSumOf(h, 2);
    assert OcSum(h[2..]) == 0xffba;
    OcSumOf(h, 0);
    assert h[0..] == h;
  }

  lemma OcSumOf(s: Bytes, k: nat)
    requires k + 2 <= |s|
    ensures OcSum(s[k..]) == OcAdd(Word(s[k], s[k + 1]), OcSum(s[k + 2..]))
  {
    assert s[k..][2..] == s[k + 2..];
  }

  /** The replier takes this request, whose checksums verify, and answers it with two that do
      not. */
  lemma ReplyCanFail()
    ensures var b := WrappingRequest();
      && IcmpTaste(b) && Verifies(b[IP..L4]) && Verifies(b[L4..])
      && !Verifies(Req2Rpl(b)[IP..L4]) && !Verifies(Req2Rpl(b)[L4..])
  {
    hide OcSum, Req2Rpl;
    var b := WrappingRequest();
    var r := Req2Rpl(b);
    WrappingMessage();
    WrappingHeader();
    assert |b| == |r| == L4 + 16;
    assert b[L4..L4 + 16] == b[L4..] && r[L4..L4 + 16] == r[L4..];
    assert b[ICMP_TYPE] == 0x08 && Word(b[ICMP_SUM], b[ICMP_SUM + 1]) == 0xfff8
        && Word(b[IP_SUM], b[IP_SUM + 1]) == 0xfeba;
    ReplyIcmpSum(b, 16);
    ReplyIpSum(b);
  }

  /** A packet the mirror takes whose UDP length, 9, runs past its end. */
  function LongDatagram(): (b: Bytes)
    ensures |b| == UDP_MINLEN
  {
    seq(UDP_MINLEN, i requires 0 <= i < UDP_MINLEN =>
      if i == 12 then 0x08 else if i == 14 then 0x45 else if i == 23 then 0x11
      else if i == 34 || i == 36 then 0x03 else if i == 35 || i == 37 then 0xe8
      else if i == 39 then 0x09
      else 0)
  }

  lemma AcceptedNeedNotFit()
    ensures UdpmTaste(LongDatagram(), 1000, 65535) && !UdpFits(LongDatagram())
  {
    assert Net16(LongDatagram(), UDP_LEN) == 9;
  }

  // ---------- as consumers of whole packets ----------

  /** The two consumers' rewritings as total functions: the code applies each only to packets
      its taste accepted. */
  function MirrorUdpPkt(b: Bytes): (r: Bytes)
    ensures |r| == |b|
  {
    if |b| >= UDP_MINLEN then Mirror(b) else b
  }

  function AnswerPkt(b: Bytes): (r: Bytes)
    ensures |r| == |b|
  {
    if |b| >= ICMP_MINLEN then Req2Rpl(b) else b
  }
}
