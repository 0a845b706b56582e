/** Frames as senders build them, field by field, and what the tastes and the rewriting make
    of the fields. */
module PacketFrames {
  import opened Octets
  import opened MemFast
  import opened PacketRewrite

  /** A 16-bit field in network order. */
  function Be16(w: nat): (b: Bytes)
    requires w < 65536
    ensures |b| == 2
  {
    [(w / 256) as Byte, (w % 256) as Byte]
  }

  /** Ethernet and IPv4 header fields; tos holds the eight bytes from the type of service to
      the time to live. */
  datatype Ip4 = Ip4(dst: Bytes, src: Bytes, etherType: nat, version: nat, ihl: nat, tos: Bytes, proto: Byte,
                     sum: Bytes, saddr: Bytes, daddr: Bytes)

  predicate Ip4Ok(f: Ip4) {
    && |f.dst| == |f.src| == 6 && f.etherType < 65536 && f.version < 16 && f.ihl < 16
    && |f.tos| == 8 && |f.sum| == 2 && |f.saddr| == |f.daddr| == 4
  }

  function EmitEth(f: Ip4): (b: Bytes)
    requires Ip4Ok(f)
    ensures |b| == 14
  {
    f.dst + f.src + Be16(f.etherType)
  }

  function EmitIp(f: Ip4): (b: Bytes)
    requires Ip4Ok(f)
    ensures |b| == 20
  {
    [(16 * f.version + f.ihl) as Byte] + f.tos + [f.proto] + f.sum + f.saddr + f.daddr
  }

  function Emit(f: Ip4, l4: Bytes): (b: Bytes)
    requires Ip4Ok(f)
    ensures |b| == 34 + |l4|
  {
    EmitEth(f) + EmitIp(f) + l4
  }

  datatype Udp = Udp(sport: nat, dport: nat, length: nat, sum: Bytes, data: Bytes)

  predicate UdpOk(u: Udp) {
    u.sport < 65536 && u.dport < 65536 && u.length < 65536 && |u.sum| == 2
  }

  function EmitUdp(u: Udp): (b: Bytes)
    requires UdpOk(u)
    ensures |b| == 8 + |u.data|
  {
    Be16(u.sport) + Be16(u.dport) + Be16(u.length) + u.sum + u.data
  }

  // ---------- where the fields are ----------

  lemma EthAt(f: Ip4)
    requires Ip4Ok(f)
    ensures var e := EmitEth(f); e[..6] == f.dst && e[6..12] == f.src && Net16(e, 12) == f.etherType
  {}

  lemma IpAt(f: Ip4)
    requires Ip4Ok(f)
    ensures var h := EmitIp(f);
      && (h[0] as int) / 16 == f.version && (h[0] as int) % 16 == f.ihl && h[1..9] == f.tos && h[9] == f.proto
      && h[10..12] == f.sum && h[12..16] == f.saddr && h[16..20] == f.daddr
  {
    var v := 16 * f.version + f.ihl;
    assert v / 16 == f.version && v % 16 == f.ihl;
  }

  lemma UdpAt(u: Udp)
    requires UdpOk(u)
    ensures var d := EmitUdp(u);
      && Net16(d, 0) == u.sport && Net16(d, 2) == u.dport && Net16(d, 4) == u.length
      && d[6..8] == u.sum && d[8..] == u.data
  {}

  lemma PartsAt(f: Ip4, l4: Bytes)
    requires Ip4Ok(f)
    ensures var b := Emit(f, l4); b[..14] == EmitEth(f) && b[14..34] == EmitIp(f) && b[34..] == l4
  {
    hide EmitEth, EmitIp;
  }

  lemma HeaderAt(f: Ip4, l4: Bytes)
    requires Ip4Ok(f)
    ensures var b := Emit(f, l4);
      && Net16(b, ETH_TYPE) == f.etherType && (b[IP] as int) / 16 == f.version && b[IP_PROTO] == f.proto
      && forall i :: 0 <= i < |l4| ==> b[34 + i] == l4[i]
  {
    hide EmitEth, EmitIp, Emit;
    var b := Emit(f, l4);
    PartsAt(f, l4);
    EthAt(f);
    IpAt(f);
    assert b[12] == b[..14][12] && b[13] == b[..14][13];
    assert b[14] == b[14..34][0] && b[23] == b[14..34][9];
    forall i | 0 <= i < |l4| ensures b[34 + i] == l4[i] {
      assert b[34..][i] == b[34 + i];
    }
  }

  // ---------- what the tastes accept ----------

  /** The mirror takes a UDP frame if and only if its type, version, protocol, length and both
      ports are what the source asks for. */
  lemma UdpmTasteExactly(f: Ip4, u: Udp, portMin: int, portMax: int)
    requires Ip4Ok(f) && UdpOk(u)
    ensures UdpmTaste(Emit(f, EmitUdp(u)), portMin, portMax) <==>
      && f.etherType == 0x0800 && f.version == 4 && f.proto == 0x11 && u.length >= 8
      && portMin <= u.dport <= portMax && portMin <= u.sport <= portMax
  {
    hide Emit, EmitUdp, Ip4Ok;
    HeaderAt(f, EmitUdp(u));
    UdpAt(u);
  }

  /** The replier takes a frame if and only if it carries at least 16 bytes behind its IP
      header and its type, version, protocol and ICMP type are what the source asks for; a
      reply is the same with ICMP type 0. */
  lemma IcmpTasteExactly(f: Ip4, icmpType: Byte, rest: Bytes)
    requires Ip4Ok(f)
    ensures IcmpTaste(Emit(f, [icmpType] + rest)) <==>
      |rest| >= 15 && f.etherType == 0x0800 && f.version == 4 && f.proto == 0x01 && icmpType == 0x08
    ensures IcmpReplTaste(Emit(f, [icmpType] + rest)) <==>
      |rest| >= 15 && f.etherType == 0x0800 && f.version == 4 && f.proto == 0x01 && icmpType == 0x00
  {
    hide Emit, Ip4Ok;
    var l4 := [icmpType] + rest;
    HeaderAt(f, l4);
    assert Emit(f, l4)[34 + 0] == l4[0];
  }

  /** Every packet long enough for the mirror is such a UDP frame. */
  lemma EveryUdpFrame(b: Bytes) returns (f: Ip4, u: Udp)
    requires |b| >= 42
    ensures Ip4Ok(f) && UdpOk(u) && b == Emit(f, EmitUdp(u))
  {
    f := FieldsOf(b);
    u := Udp(Net16(b, 34), Net16(b, 36), Net16(b, 38), b[40..42], b[42..]);
    EveryHeader(b);
    assert Be16(u.sport) == b[34..36] && Be16(u.dport) == b[36..38] && Be16(u.length) == b[38..40];
    assert EmitUdp(u) == b[34..];
  }

  function FieldsOf(b: Bytes): (f: Ip4)
    requires |b| >= 34
    ensures Ip4Ok(f)
  {
    Ip4(b[..6], b[6..12], Net16(b, 12), (b[14] as int) / 16, (b[14] as int) % 16, b[15..23], b[23],
        b[24..26], b[26..30], b[30..34])
  }

  lemma EveryHeader(b: Bytes)
    requires |b| >= 34
    ensures Emit(FieldsOf(b), b[34..]) == b
  {
    var f := FieldsOf(b);
    assert EmitEth(f) == b[..14];
    assert EmitIp(f) == b[14..34];
  }

  /** Shorter packets are for neither consumer, and no packet is for both. */
  lemma TastesApart(b: Bytes, portMin: int, portMax: int)
    ensures |b| < 42 ==> !UdpmTaste(b, portMin, portMax)
    ensures |b| < 50 ==> !IcmpTaste(b) && !IcmpReplTaste(b)
    ensures !(UdpmTaste(b, portMin, portMax) && IcmpTaste(b))
  {
    if |b| >= 50 {
      var f, u := EveryUdpFrame(b);
      UdpmTasteExactly(f, u, portMin, portMax);
      var rest := b[35..];
      assert b[34..] == [b[34]] + rest;
      EveryHeader(b);
      IcmpTasteExactly(FieldsOf(b), b[34], rest);
      HeaderAt(f, EmitUdp(u));
    }
  }

  // ---------- what the rewriting does to the fields ----------

  /** Ethernet and IP source and destination exchanged. */
  function Back(f: Ip4): Ip4 {
    f.(dst := f.src, src := f.dst, saddr := f.daddr, daddr := f.saddr)
  }

  /** The mirror image of a UDP frame is the frame sent back from the port it was sent to. */
  lemma MirrorOfFrame(f: Ip4, u: Udp)
    requires Ip4Ok(f) && UdpOk(u)
    ensures Mirror(Emit(f, EmitUdp(u))) == Emit(Back(f), EmitUdp(u.(sport := u.dport, dport := u.sport)))
  {
    hide Mirror, Emit, EmitUdp, Be16;
    var b, c := Emit(f, EmitUdp(u)), Emit(Back(f), EmitUdp(u.(sport := u.dport, dport := u.sport)));
    MirrorParts(b);
    FrameSlices(f, u);
    FrameSlices(Back(f), u.(sport := u.dport, dport := u.sport));
    SameBySlices(Mirror(b), c);
  }

  /** The slices of a UDP frame. */
  lemma FrameSlices(f: Ip4, u: Udp)
    requires Ip4Ok(f) && UdpOk(u)
    ensures var b := Emit(f, EmitUdp(u));
      && b[0..6] == f.dst && b[6..12] == f.src && b[12..26] == Kept(f)
      && b[26..30] == f.saddr && b[30..34] == f.daddr
      && b[34..36] == Be16(u.sport) && b[36..38] == Be16(u.dport) && b[38..] == Be16(u.length) + u.sum + u.data
  {
    hide Emit, EmitEth, EmitIp, EmitUdp, Be16, Kept;
    var b := Emit(f, EmitUdp(u));
    PartsAt(f, EmitUdp(u));
    SubSlices(b);
    EthSlices(f);
    IpSlices(f);
    UdpSlices(u);
    assert b[12..26] == b[12..14] + b[14..26];
    KeptIs(f);
  }

  /** The bytes between the Ethernet and the IP addresses. */
  function Kept(f: Ip4): Bytes
    requires Ip4Ok(f)
  {
    Be16(f.etherType) + ([(16 * f.version + f.ihl) as Byte] + f.tos + [f.proto] + f.sum)
  }

  lemma KeptIs(f: Ip4)
    requires Ip4Ok(f)
    ensures Kept(f) == EmitEth(f)[12..14] + EmitIp(f)[..12]
  {
    hide Be16;
    assert EmitEth(f)[12..14] == Be16(f.etherType);
    assert EmitIp(f)[..12] == [(16 * f.version + f.ihl) as Byte] + f.tos + [f.proto] + f.sum;
  }

  lemma SubSlices(b: Bytes)
    requires |b| >= 42
    ensures b[0..6] == b[..14][..6] && b[6..12] == b[..14][6..12] && b[12..14] == b[..14][12..14]
    ensures b[14..26] == b[14..34][..12] && b[26..30] == b[14..34][12..16] && b[30..34] == b[14..34][16..20]
    ensures b[34..36] == b[34..][..2] && b[36..38] == b[34..][2..4] && b[38..] == b[34..][4..]
  {
    SliceOf(b, 0, 14, 0, 6);
    SliceOf(b, 0, 14, 6, 12);
    SliceOf(b, 0, 14, 12, 14);
    SliceOf(b, 14, 34, 0, 12);
    SliceOf(b, 14, 34, 12, 16);
    SliceOf(b, 14, 34, 16, 20);
    SliceOf(b, 34, |b|, 0, 2);
    SliceOf(b, 34, |b|, 2, 4);
    SliceOf(b, 34, |b|, 4, |b| - 34);
  }

  lemma SliceOf(b: Bytes, lo: nat, hi: nat, i: nat, j: nat)
    requires i <= j <= hi - lo && lo <= hi <= |b|
    ensures b[lo..hi][i..j] == b[lo + i..lo + j]
  {
    var x, y := b[lo..hi][i..j], b[lo + i..lo + j];
    forall k | 0 <= k < |x| ensures x[k] == y[k] {
      assert x[k] == b[lo..hi][i + k] == b[lo + (i + k)];
    }
  }

  lemma EthSlices(f: Ip4)
    requires Ip4Ok(f)
    ensures EmitEth(f)[..6] == f.dst && EmitEth(f)[6..12] == f.src
  {}

  lemma IpSlices(f: Ip4)
    requires Ip4Ok(f)
    ensures EmitIp(f)[12..16] == f.saddr && EmitIp(f)[16..20] == f.daddr
  {}

  lemma UdpSlices(u: Udp)
    requires UdpOk(u)
    ensures EmitUdp(u)[..2] == Be16(u.sport) && EmitUdp(u)[2..4] == Be16(u.dport)
    ensures EmitUdp(u)[4..] == Be16(u.length) + u.sum + u.data
  {
    hide Be16;
    var ports := Be16(u.sport) + Be16(u.dport);
    assert EmitUdp(u) == ports + (Be16(u.length) + u.sum + u.data);
  }

  lemma SameBySlices(x: Bytes, y: Bytes)
    requires |x| >= 42 && |y| >= 42
    requires x[0..6] == y[0..6] && x[6..12] == y[6..12] && x[12..26] == y[12..26] && x[26..30] == y[26..30]
    requires x[30..34] == y[30..34] && x[34..36] == y[34..36] && x[36..38] == y[36..38] && x[38..] == y[38..]
    ensures x == y
  {
    assert x == x[0..6] + x[6..12] + x[12..26] + x[26..30] + x[30..34] + x[34..36] + x[36..38] + x[38..];
    assert y == y[0..6] + y[6..12] + y[12..26] + y[26..30] + y[30..34] + y[34..36] + y[36..38] + y[38..];
  }
}
