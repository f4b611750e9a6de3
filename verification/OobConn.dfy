/** The control messages oobConn writes and reads (raw/sys_conn_oob.go and, for
    segment sizes, raw/sys_conn_helper_linux.go). */
module OobConn {
  import opened Wrappers
  import opened Sequences
  import opened Bytes
  import opened Ecn
  import opened ControlMessages

  const IPPROTO_IP: nat := 0
  const IPPROTO_UDP: nat := 17
  const IPPROTO_IPV6: nat := 41
  const IP_TOS: nat := 1
  const IPV6_TCLASS: nat := 67
  const UDP_SEGMENT: nat := 103

  // ---- the messages --------------------------------------------------------

  function TosMsg(bits: Byte): Msg {
    Msg(IPPROTO_IP, IP_TOS, [bits])
  }

  function TrafficClassMsg(bits: Byte): Msg {
    Msg(IPPROTO_IPV6, IPV6_TCLASS, [bits, 0, 0, 0])
  }

  function SegmentMsg(size: nat): Msg {
    Msg(IPPROTO_UDP, UDP_SEGMENT, ToLE(size, 2))
  }

  // ---- writing, byte by byte -----------------------------------------------

  /** append(b, make([]byte, extra)...) */
  method AppendZeroed(b: array<Byte>, extra: nat) returns (r: array<Byte>)
    ensures fresh(r) && r[..] == b[..] + Zeros(extra)
  {
    r := new Byte[b.Length + extra](_ => 0);
    for i := 0 to b.Length
      invariant r[..i] == b[..i]
      invariant forall j :: b.Length <= j < r.Length ==> r[j] == 0
    {
      r[i] := b[i];
    }
    assert r[..] == r[..b.Length] + r[b.Length..];
    assert b[..b.Length] == b[..];
    assert r[b.Length..] == Zeros(extra);
  }

  lemma NextLE(done: seq<Byte>, rest: nat, n: nat)
    requires n > 0
    ensures done + ToLE(rest, n) == (done + [rest % 256]) + ToLE(rest / 256, n - 1)
  {
    Regroup(done, [rest % 256], ToLE(rest / 256, n - 1));
  }

  /** Stores v at off, least significant byte first. */
  method PutLE(r: array<Byte>, off: nat, width: nat, v: nat)
    requires off + width <= r.Length
    modifies r
    ensures r[..] == old(r[..off]) + ToLE(v, width) + old(r[off + width..])
  {
    var rest := v;
    var i := 0;
    while i < width
      invariant i <= width
      invariant forall j :: 0 <= j < off || off + i <= j < r.Length ==> r[j] == old(r[j])
      invariant r[off..off + i] + ToLE(rest, width - i) == ToLE(v, width)
    {
      ghost var done := r[off..off + i];
      NextLE(done, rest, width - i);
      r[off + i] := rest % 256;
      assert r[off..off + i + 1] == done + [rest % 256];
      rest := rest / 256;
      i := i + 1;
    }
    assert r[..off] == old(r[..off]) && r[off + width..] == old(r[off + width..]);
    assert r[..] == r[..off] + r[off..off + width] + r[off + width..];
    assert ToLE(rest, 0) == [];
  }

  lemma ZerosSplit(n: nat, a: nat, b: nat)
    requires n == a + b
    ensures Zeros(n) == Zeros(a) + Zeros(b)
  {
  }

  /** Three fields overwritten one after the other. */
  lemma FieldsWritten<T>(was: seq<T>, space: seq<T>, pad: seq<T>, len: seq<T>, level: seq<T>, typ: seq<T>)
    requires |space| == HEADER && |len| == 8 && |level| == 4 && |typ| == 4
    ensures var s := |was|;
            var x0 := was + (space + pad);
            var x1 := x0[..s + 8] + level + x0[s + 12..];
            var x2 := x1[..s + 12] + typ + x1[s + 16..];
            x2[..s] + len + x2[s + 8..] == was + (len + level + typ) + pad
  {
    var s := |was|;
    var s0, s1, s2 := space[..8], space[8..12], space[12..];
    var x0 := was + (space + pad);
    assert x0 == (was + s0) + s1 + (s2 + pad);
    Around(was + s0, s1, s2 + pad);
    var x1 := x0[..s + 8] + level + x0[s + 12..];
    assert x1 == (was + s0 + level) + s2 + pad;
    Around(was + s0 + level, s2, pad);
    var x2 := x1[..s + 12] + typ + x1[s + 16..];
    assert x2 == was + s0 + (level + typ + pad);
    Around(was, s0, level + typ + pad);
  }

  /** Writes a header and zeroed data behind b: the part the three append
      functions share. */
  method AppendHeader(b: array<Byte>, level: nat, typ: nat, dataLen: nat) returns (r: array<Byte>)
    ensures fresh(r)
    ensures r[..] == b[..] + (ToLE(CmsgLen(dataLen), 8) + ToLE(level, 4) + ToLE(typ, 4)) + Zeros(AlignUp(dataLen))
  {
    var startLen := b.Length;
    r := AppendZeroed(b, CmsgSpace(dataLen));
    ZerosSplit(CmsgSpace(dataLen), HEADER, AlignUp(dataLen));
    PutLE(r, startLen + 8, 4, level);
    PutLE(r, startLen + 12, 4, typ);
    PutLE(r, startLen, 8, CmsgLen(dataLen));
    FieldsWritten(b[..], Zeros(HEADER), Zeros(AlignUp(dataLen)),
                  ToLE(CmsgLen(dataLen), 8), ToLE(level, 4), ToLE(typ, 4));
  }

  lemma FillFirst(a: seq<Byte>, h: seq<Byte>, n: nat, x: Byte)
    requires n > 0
    ensures (a + h + Zeros(n))[|a| + |h| := x] == a + (h + [x] + Zeros(n - 1))
  {
  }

  /** appendIPv4ECNMsg; None where ToHeaderBits panics. */
  method AppendIPv4ECNMsg(b: array<Byte>, val: ECN) returns (r: Option<array<Byte>>)
    ensures r.Some? <==> ToHeaderBits(val).Some?
    ensures r.Some? ==> r.value[..] == b[..] + Encode(TosMsg(ToHeaderBits(val).value))
  {
    var a := AppendHeader(b, IPPROTO_IP, IP_TOS, 1);
    match ToHeaderBits(val)
    case None => r := None;
    case Some(bits) =>
      ghost var h := Header(TosMsg(bits));
      FillFirst(b[..], h, 8, bits);
      a[b.Length + CmsgSpace(0)] := bits;
      r := Some(a);
      assert h + [bits] + Zeros(7) == Encode(TosMsg(bits));
  }

  lemma EncodedTrafficClass(bits: Byte)
    ensures Encode(TrafficClassMsg(bits)) == Header(TrafficClassMsg(bits)) + [bits, 0, 0, 0] + Zeros(4)
  {
  }

  lemma PadFour(h: seq<Byte>, x: Byte)
    ensures h + [x] + Zeros(7) == h + [x, 0, 0, 0] + Zeros(4)
  {
  }

  /** appendIPv6ECNMsg; None where ToHeaderBits panics. */
  method AppendIPv6ECNMsg(b: array<Byte>, val: ECN) returns (r: Option<array<Byte>>)
    ensures r.Some? <==> ToHeaderBits(val).Some?
    ensures r.Some? ==> r.value[..] == b[..] + Encode(TrafficClassMsg(ToHeaderBits(val).value))
  {
    var a := AppendHeader(b, IPPROTO_IPV6, IPV6_TCLASS, 4);
    match ToHeaderBits(val)
    case None => r := None;
    case Some(bits) =>
      ghost var h := Header(TrafficClassMsg(bits));
      FillFirst(b[..], h, 8, bits);
      a[b.Length + CmsgSpace(0)] := bits;
      r := Some(a);
      PadFour(h, bits);
      EncodedTrafficClass(bits);
  }

  /** AppendUDPSegmentSizeMsg: the payload is a uint16. */
  method AppendUDPSegmentSizeMsg(b: array<Byte>, size: nat) returns (r: array<Byte>)
    requires size < 0x1_0000
    ensures r[..] == b[..] + Encode(SegmentMsg(size))
  {
    var a := AppendHeader(b, IPPROTO_UDP, UDP_SEGMENT, 2);
    ghost var h := Header(SegmentMsg(size));
    ZerosSplit(8, 2, 6);
    assert a[..] == (b[..] + h) + Zeros(2) + Zeros(6);
    Around(b[..] + h, Zeros(2), Zeros(6));
    PutLE(a, b.Length + CmsgSpace(0), 2, size);
    r := a;
    assert b[..] + h + ToLE(size, 2) + Zeros(6) == b[..] + (h + ToLE(size, 2) + Zeros(6));
  }

  // ---- WritePacket ---------------------------------------------------------

  datatype Remote = UDPv4 | UDPv6 | NotUDP

  /** The first two failures are logged at panic level, which ends the process. */
  datatype Assembly =
    | Ready(oob: array<Byte>)
    | GSODisabled
    | ECNDisabled
    | Panics             // ToHeaderBits has no bits for the value

  /** The ECN message WritePacket adds for a codepoint that can be sent. */
  function ECNMsgs(ecn: ECN, remote: Remote): seq<Msg> {
    match ToHeaderBits(ecn)
    case None => []
    case Some(bits) =>
      match remote
      case UDPv4 => [TosMsg(bits)]
      case UDPv6 => [TrafficClassMsg(bits)]
      case NotUDP => []
  }

  function SegmentMsgs(gsoSize: nat): seq<Msg> {
    if gsoSize > 0 then [SegmentMsg(gsoSize)] else []
  }

  lemma EncodeSingle(m: Msg)
    ensures EncodeAll([m]) == Encode(m)
  {
    assert EncodeAll([m]) == Encode(m) + EncodeAll([]);
  }

  /** A control buffer with the messages WritePacket adds behind it. */
  function Extended(packetInfo: seq<Byte>, gsoSize: nat, ecn: ECN, remote: Remote): seq<Byte> {
    packetInfo + EncodeAll(SegmentMsgs(gsoSize)) + EncodeAll(ECNMsgs(ecn, remote))
  }

  /** The control data oobConn.WritePacket hands to its writer. */
  method AssembleOOB(packetInfo: array<Byte>, gsoSize: nat, ecn: ECN, canGSO: bool, canECN: bool, remote: Remote)
    returns (out: Assembly)
    requires gsoSize < 0x1_0000
    ensures out.GSODisabled? <==> gsoSize > 0 && !canGSO
    ensures out.ECNDisabled? <==> !out.GSODisabled? && ecn != ECN_UNSUPPORTED && !canECN
    ensures out.Panics? <==> !out.GSODisabled? && !out.ECNDisabled? && ecn != ECN_UNSUPPORTED && !remote.NotUDP?
                             && ToHeaderBits(ecn).None?
    ensures out.Ready? ==> out.oob[..] == Extended(packetInfo[..], gsoSize, ecn, remote)
    ensures out.Ready? && WellFormed(packetInfo[..]) && packetInfo.Length % 8 == 0 ==>
              && WellFormed(out.oob[..]) && out.oob.Length % 8 == 0
              && Added(Messages(packetInfo[..]), Messages(out.oob[..]), gsoSize, ecn, remote)
  {
    var oob := packetInfo;
    if gsoSize > 0 {
      if !canGSO {
        return GSODisabled;
      }
      oob := AppendUDPSegmentSizeMsg(oob, gsoSize);
      EncodeSingle(SegmentMsg(gsoSize));
    }
    assert oob[..] == packetInfo[..] + EncodeAll(SegmentMsgs(gsoSize));
    if ecn != ECN_UNSUPPORTED {
      if !canECN {
        return ECNDisabled;
      }
      if remote != NotUDP {
        var r;
        if remote == UDPv4 {
          r := AppendIPv4ECNMsg(oob, ecn);
        } else {
          r := AppendIPv6ECNMsg(oob, ecn);
        }
        match r {
          case None => return Panics;
          case Some(a) => oob := a;
        }
        EncodeSingle(ECNMsgs(ecn, remote)[0]);
      }
    }
    if WellFormed(packetInfo[..]) && packetInfo.Length % 8 == 0 {
      AddedToMessages(packetInfo[..], gsoSize, ecn, remote);
    }
    return Ready(oob);
  }

  lemma AddedIsEncodable(gsoSize: nat, ecn: ECN, remote: Remote)
    requires gsoSize < 0x1_0000
    ensures forall m :: m in SegmentMsgs(gsoSize) ==> Encodable(m)
    ensures forall m :: m in ECNMsgs(ecn, remote) ==> Encodable(m)
  {
    assert Pow256(4) == 0x1_0000_0000;
    assert Pow256(8) == 0x1_0000_0000_0000_0000;
  }

  lemma WalkTwo(b: seq<Byte>, e: seq<Byte>, ms: seq<Msg>)
    requires WellFormed(b) && |b| % 8 == 0 && WellFormed(e) && Messages(e) == ms
    ensures WellFormed(b + e) && Messages(b + e) == Messages(b) + ms
  {
    WalkAppended(b, e);
  }

  lemma ConcatIsAligned(b: seq<Byte>, e: seq<Byte>)
    requires |b| % 8 == 0 && |e| % 8 == 0
    ensures |b + e| % 8 == 0
  {
  }

  lemma WalkAdded(b: seq<Byte>, added: seq<Msg>)
    requires WellFormed(b) && |b| % 8 == 0
    requires forall m :: m in added ==> Encodable(m)
    ensures var r := b + EncodeAll(added); WellFormed(r) && |r| % 8 == 0 && Messages(r) == Messages(b) + added
  {
    DecodeInvertsEncode(added);
    EncodedIsAligned(added);
    WalkTwo(b, EncodeAll(added), added);
    ConcatIsAligned(b, EncodeAll(added));
  }

  /** Behind a well-formed aligned buffer, what WritePacket assembled is again
      well formed and aligned and decodes to the original messages, the segment
      size if any, and the ECN message if any. */
  lemma AssembledDecodes(packetInfo: seq<Byte>, gsoSize: nat, ecn: ECN, remote: Remote)
    requires WellFormed(packetInfo) && |packetInfo| % 8 == 0 && gsoSize < 0x1_0000
    ensures var oob := Extended(packetInfo, gsoSize, ecn, remote);
            && WellFormed(oob)
            && |oob| % 8 == 0
            && Messages(oob) == Messages(packetInfo) + SegmentMsgs(gsoSize) + ECNMsgs(ecn, remote)
            && Added(Messages(packetInfo), Messages(oob), gsoSize, ecn, remote)
  {
    AddedIsEncodable(gsoSize, ecn, remote);
    WalkAdded(packetInfo, SegmentMsgs(gsoSize));
    WalkAdded(packetInfo + EncodeAll(SegmentMsgs(gsoSize)), ECNMsgs(ecn, remote));
    AddedMessages(Messages(packetInfo), gsoSize, ecn, remote);
  }

  /** after is before with what WritePacket adds, in the numbers of the Linux
      headers: UDP_SEGMENT (103) at level 17 with the size in two bytes, then IP_TOS
      (1) at level 0 with one byte for IPv4, or IPV6_TCLASS (67) at level 41 with
      four for IPv6, the ECN field in the first byte. */
  ghost predicate Added(before: seq<Msg>, after: seq<Msg>, gsoSize: nat, ecn: ECN, remote: Remote) {
    var n := |before|;
    var segments := if gsoSize > 0 then 1 else 0;
    var marks := if 1 <= ecn <= 4 && !remote.NotUDP? then 1 else 0;
    && |after| == n + segments + marks
    && after[..n] == before
    && (segments == 1 ==>
          var m := after[n];
          && m.level == 17 && m.typ == 103
          && |m.data| == 2 && m.data[0] as int + 256 * (m.data[1] as int) == gsoSize)
    && (marks == 1 ==>
          var m := after[n + segments];
          if remote.UDPv4? then m.level == 0 && m.typ == 1 && m.data == [ecn - 1]
          else m.level == 41 && m.typ == 67 && m.data == [ecn - 1, 0, 0, 0])
  }

  lemma SegmentBytes(size: nat)
    requires size < 0x1_0000
    ensures var d := SegmentMsg(size).data; |d| == 2 && d[0] as int + 256 * (d[1] as int) == size
  {
    assert ToLE(size, 2) == [size % 256] + ToLE(size / 256, 1);
    assert ToLE(size / 256, 1) == [size / 256 % 256] + ToLE(size / 256 / 256, 0);
  }

  lemma AddedToMessages(packetInfo: seq<Byte>, gsoSize: nat, ecn: ECN, remote: Remote)
    requires WellFormed(packetInfo) && |packetInfo| % 8 == 0 && gsoSize < 0x1_0000
    ensures var oob := Extended(packetInfo, gsoSize, ecn, remote);
            && WellFormed(oob) && |oob| % 8 == 0
            && Added(Messages(packetInfo), Messages(oob), gsoSize, ecn, remote)
  {
    AssembledDecodes(packetInfo, gsoSize, ecn, remote);
  }

  lemma AddedMessages(before: seq<Msg>, gsoSize: nat, ecn: ECN, remote: Remote)
    requires gsoSize < 0x1_0000
    ensures Added(before, before + SegmentMsgs(gsoSize) + ECNMsgs(ecn, remote), gsoSize, ecn, remote)
  {
    SegmentBytes(gsoSize);
    if 1 <= ecn <= 4 {
      CodepointsAreInverse(ecn, ecn - 1);
    } else {
      CodepointsAreInverse(ecn, 0);
    }
  }

  // ---- ReadPacket ----------------------------------------------------------

  predicate IsECN(m: Msg) {
    || (m.level == IPPROTO_IP && m.typ == IP_TOS)
    || (m.level == IPPROTO_IPV6 && m.typ == IPV6_TCLASS)
  }

  /** Some TOS or traffic class message has no data byte to look at. */
  ghost predicate SomeECNEmpty(ms: seq<Msg>) {
    exists i :: 0 <= i < |ms| && IsECN(ms[i]) && ms[i].data == []
  }

  /** The codepoint in the last TOS or traffic class message, or the zero value. */
  function LastECN(ms: seq<Msg>): ECN {
    if ms == [] then ECN_UNSUPPORTED else
    var m := ms[|ms| - 1];
    if IsECN(m) && m.data != [] then ParseHeaderBits(m.data[0] % 4).value else LastECN(ms[..|ms| - 1])
  }

  datatype Outcome = Value(ecn: ECN) | Invalid | OutOfRange

  /** What the walk of ReadPacket must come to. */
  ghost function ECNOutcome(oob: seq<Byte>): Outcome {
    if SomeECNEmpty(Messages(oob)) then OutOfRange
    else if !WellFormed(oob) then Invalid
    else Value(LastECN(Messages(oob)))
  }

  lemma LastOfExtended(ms: seq<Msg>, m: Msg)
    requires !SomeECNEmpty(ms) && !(IsECN(m) && m.data == [])
    ensures !SomeECNEmpty(ms + [m])
    ensures LastECN(ms + [m]) == if IsECN(m) then ParseHeaderBits(m.data[0] % 4).value else LastECN(ms)
  {
    assert (ms + [m])[..|ms|] == ms;
  }

  /** One turn of the loop moves one message from what is left to what was seen. */
  lemma WalkTurn(all: seq<Msg>, seen: seq<Msg>, b: seq<Byte>, m: Msg, rest: seq<Byte>)
    requires all == seen + Messages(b) && b != [] && ParseOne(b) == Got(m, rest)
    ensures all == (seen + [m]) + Messages(rest) && |seen| < |all| && all[|seen|] == m
    ensures WellFormed(b) <==> WellFormed(rest)
  {
    WalkStep(b, m, rest);
    Regroup(seen, [m], Messages(rest));
  }

  lemma WalkOver(all: seq<Msg>, seen: seq<Msg>, b: seq<Byte>)
    requires all == seen + Messages(b) && (b == [] || ParseOne(b).Bad?)
    ensures all == seen
    ensures WellFormed(b) <==> b == []
  {
  }

  /** A TOS message (type 1 at level 0) or a traffic class message (type 67 at
      level 41). */
  ghost predicate HasTrafficByte(m: Msg) {
    (m.level == 0 && m.typ == 1) || (m.level == 41 && m.typ == 67)
  }

  /** What a walk over ms comes to, which ends in an error unless `whole`: the two
      low bits of the first byte of the last such message give the codepoint, by
      the numbers 1 to 4 of the four codepoints; without such a message it is 0. */
  ghost predicate Walked(ms: seq<Msg>, whole: bool, out: Outcome) {
    && (out.OutOfRange? <==> exists i :: 0 <= i < |ms| && HasTrafficByte(ms[i]) && ms[i].data == [])
    && (out.Invalid? <==> !out.OutOfRange? && !whole)
    && (out.Value? ==> forall i :: 0 <= i < |ms| && HasTrafficByte(ms[i]) && NoneBehind(ms, i) ==>
                         ms[i].data != [] && out.ecn == ms[i].data[0] % 4 + 1)
    && (out.Value? && NoneBehind(ms, -1) ==> out.ecn == 0)
  }

  ghost predicate NoneBehind(ms: seq<Msg>, i: int)
    requires -1 <= i < |ms|
  {
    forall j :: i < j < |ms| ==> !HasTrafficByte(ms[j])
  }

  lemma {:induction false} LastCounts(ms: seq<Msg>, i: int)
    requires !SomeECNEmpty(ms) && -1 <= i < |ms| && NoneBehind(ms, i)
    requires 0 <= i ==> HasTrafficByte(ms[i])
    ensures LastECN(ms) == if i < 0 then 0 else ms[i].data[0] % 4 + 1
  {
    if ms != [] {
      var last := |ms| - 1;
      if i == last {
        CodepointsAreInverse(ms[i].data[0] % 4 + 1, ms[i].data[0] % 4);
      } else {
        assert !HasTrafficByte(ms[last]);
        assert forall j :: 0 <= j < last ==> ms[..last][j] == ms[j];
        LastCounts(ms[..last], i);
      }
    }
  }

  lemma OutcomeIsWalked(oob: seq<Byte>)
    ensures Walked(Messages(oob), WellFormed(oob), ECNOutcome(oob))
  {
    var ms := Messages(oob);
    if !SomeECNEmpty(ms) {
      forall i | -1 <= i < |ms| && NoneBehind(ms, i) && (0 <= i ==> HasTrafficByte(ms[i]))
        ensures LastECN(ms) == if i < 0 then 0 else ms[i].data[0] % 4 + 1
      {
        LastCounts(ms, i);
      }
    }
  }

  /** The loop of oobConn.ReadPacket over the control data. */
  method WalkECN(oob: seq<Byte>) returns (out: Outcome)
    ensures out == ECNOutcome(oob)
  {
    var ecn := ECN_UNSUPPORTED;
    var oobData := oob;
    ghost var all, seen := Messages(oob), [];
    while |oobData| > 0
      invariant all == seen + Messages(oobData)
      invariant WellFormed(oob) <==> WellFormed(oobData)
      invariant !SomeECNEmpty(seen) && ecn == LastECN(seen)
      decreases |oobData|
    {
      var p := ParseOne(oobData);
      if p.Bad? {
        WalkOver(all, seen, oobData);
        return Invalid;
      }
      WalkTurn(all, seen, oobData, p.m, p.rest);
      if IsECN(p.m) {
        if p.m.data == [] {
          return OutOfRange;
        }
        ecn := ParseHeaderBits(p.m.data[0] % 4).value;
      }
      LastOfExtended(seen, p.m);
      seen := seen + [p.m];
      oobData := p.rest;
    }
    WalkOver(all, seen, oobData);
    return Value(ecn);
  }

  /** What ReadPacket makes of the control data. */
  method ReadECN(oob: seq<Byte>) returns (out: Outcome)
    ensures out == ECNOutcome(oob)
    ensures Walked(Messages(oob), WellFormed(oob), out)
  {
    out := WalkECN(oob);
    OutcomeIsWalked(oob);
  }

  lemma LastOfAdded(before: seq<Msg>, seg: seq<Msg>, m: Msg)
    requires |seg| <= 1 && (forall s :: s in seg ==> !IsECN(s)) && IsECN(m) && m.data != []
    ensures SomeECNEmpty(before + seg + [m]) <==> SomeECNEmpty(before)
    ensures !SomeECNEmpty(before) ==> LastECN(before + seg + [m]) == ParseHeaderBits(m.data[0] % 4).value
  {
    if SomeECNEmpty(before) {
      var i :| 0 <= i < |before| && IsECN(before[i]) && before[i].data == [];
      assert (before + seg + [m])[i] == before[i];
    } else {
      if seg == [] {
        assert before + seg == before;
      } else {
        assert seg == [seg[0]];
        LastOfExtended(before, seg[0]);
      }
      LastOfExtended(before + seg, m);
    }
  }

  lemma OutcomeOf(b: seq<Byte>, ms: seq<Msg>)
    requires WellFormed(b) && Messages(b) == ms
    ensures ECNOutcome(b) == if SomeECNEmpty(ms) then OutOfRange else Value(LastECN(ms))
  {
  }

  /** Send, then parse: behind a well-formed aligned buffer the walk returns the
      codepoint WritePacket wrote, exactly when it gets past the TOS and traffic
      class messages that were there before. */
  lemma SendThenParse(packetInfo: seq<Byte>, gsoSize: nat, ecn: ECN, remote: Remote)
    requires WellFormed(packetInfo) && |packetInfo| % 8 == 0 && gsoSize < 0x1_0000
    requires ToHeaderBits(ecn).Some? && remote != NotUDP
    ensures ECNOutcome(Extended(packetInfo, gsoSize, ecn, remote)) == Value(ecn)
            <==> !SomeECNEmpty(Messages(packetInfo))
  {
    var before, seg, own := Messages(packetInfo), SegmentMsgs(gsoSize), ECNMsgs(ecn, remote);
    AssembledDecodes(packetInfo, gsoSize, ecn, remote);
    OutcomeOf(Extended(packetInfo, gsoSize, ecn, remote), before + seg + own);
    OwnMessage(ecn, remote);
    LastOfAdded(before, seg, own[0]);
  }

  lemma OwnMessage(ecn: ECN, remote: Remote)
    requires ToHeaderBits(ecn).Some? && remote != NotUDP
    ensures var own := ECNMsgs(ecn, remote);
            && own == [own[0]] && IsECN(own[0]) && own[0].data != []
            && ParseHeaderBits(own[0].data[0] % 4).value == ecn
  {
    CodepointsAreInverse(ecn, ToHeaderBits(ecn).value);
  }
}
