/** Ancillary data in the layout of section 20 of RFC 3542, for 64-bit little
    endian Linux: a header of length (8 bytes), level (4) and type (4), the data,
    and padding to a multiple of 8. */
module ControlMessages {
  import opened Sequences
  import opened Bytes

  const HEADER: nat := 16

  function AlignUp(n: nat): (a: nat)
    ensures n <= a < n + 8 && a % 8 == 0
  {
    (n + 7) / 8 * 8
  }

  function CmsgLen(dataLen: nat): nat {
    HEADER + dataLen
  }

  function CmsgSpace(dataLen: nat): nat {
    HEADER + AlignUp(dataLen)
  }

  // ---- little endian numbers -----------------------------------------------

  function Pow256(n: nat): (p: nat)
    ensures p >= 1
  {
    if n == 0 then 1 else 256 * Pow256(n - 1)
  }

  function ToLE(v: nat, width: nat): (bs: seq<Byte>)
    ensures |bs| == width
    decreases width
  {
    if width == 0 then [] else [v % 256] + ToLE(v / 256, width - 1)
  }

  function FromLE(bs: seq<Byte>): nat {
    if bs == [] then 0 else bs[0] + 256 * FromLE(bs[1..])
  }

  lemma {:induction false} LERoundTrip(v: nat, width: nat)
    requires v < Pow256(width)
    ensures FromLE(ToLE(v, width)) == v
    decreases width
  {
    if width > 0 {
      LERoundTrip(v / 256, width - 1);
      assert ToLE(v, width)[1..] == ToLE(v / 256, width - 1);
    }
  }

  /** The i-th byte is the i-th digit to the base 256, the lowest first. */
  lemma {:induction false} LowestFirst(v: nat, width: nat, i: nat)
    requires i < width
    ensures ToLE(v, width)[i] == v / Pow256(i) % 256
    decreases width
  {
    if i > 0 {
      LowestFirst(v / 256, width - 1, i - 1);
      DivTwice(v, Pow256(i - 1));
    }
  }

  lemma DivTwice(v: nat, q: nat)
    requires q >= 1
    ensures v / 256 / q == v / (256 * q)
  {
    var a := v / 256 / q;
    var r := v / 256 % q;
    var s := v % 256;
    assert v == 256 * (a * q + r) + s;
    assert v == (256 * q) * a + (256 * r + s);
    assert 0 <= 256 * r + s < 256 * q;
    Quotient(v, 256 * q, a, 256 * r + s);
  }

  lemma Quotient(v: nat, q: nat, a: nat, r: nat)
    requires q >= 1 && v == q * a + r && r < q
    ensures v / q == a
  {
    var b := v / q;
    assert v == q * b + v % q;
    assert a < b ==> q * (a + 1) <= q * b;
    assert b < a ==> q * (b + 1) <= q * a;
  }

  // ---- one message ---------------------------------------------------------

  datatype Msg = Msg(level: nat, typ: nat, data: seq<Byte>)

  predicate Encodable(m: Msg) {
    m.level < Pow256(4) && m.typ < Pow256(4) && CmsgLen(|m.data|) < Pow256(8)
  }

  function Header(m: Msg): (bs: seq<Byte>)
    ensures |bs| == HEADER
  {
    ToLE(CmsgLen(|m.data|), 8) + ToLE(m.level, 4) + ToLE(m.typ, 4)
  }

  function Encode(m: Msg): (bs: seq<Byte>)
    ensures |bs| == CmsgSpace(|m.data|) && |bs| % 8 == 0
  {
    Header(m) + m.data + Zeros(AlignUp(|m.data|) - |m.data|)
  }

  datatype Parsed = Bad | Got(m: Msg, rest: seq<Byte>)

  /** ParseOneSocketControlMessage: a header that does not fit, or a length that
      is below the header's or beyond the buffer, is an error. */
  function ParseOne(b: seq<Byte>): (p: Parsed)
    ensures p.Got? ==> |p.rest| < |b|
  {
    if |b| < HEADER then Bad else
    var len := FromLE(b[..8]);
    if len < HEADER || len > |b| then Bad else
    Got(Msg(FromLE(b[8..12]), FromLE(b[12..16]), b[HEADER..len]),
        if AlignUp(len) < |b| then b[AlignUp(len)..] else [])
  }

  lemma Parts(a: seq<Byte>, b: seq<Byte>, c: seq<Byte>, d: seq<Byte>, e: seq<Byte>)
    ensures var s := a + b + c + d + e;
            && s[..|a|] == a
            && s[|a|..|a| + |b|] == b
            && s[|a| + |b|..|a| + |b| + |c|] == c
            && s[|a| + |b| + |c|..|a| + |b| + |c| + |d|] == d
            && s[|a| + |b| + |c| + |d|..] == e
  {
  }

  /** The parse of a message laid out field by field. */
  lemma {:induction false} ParseLaidOut(len: seq<Byte>, level: seq<Byte>, typ: seq<Byte>, data: seq<Byte>, pad: seq<Byte>,
                                        tail: seq<Byte>)
    requires |len| == 8 && |level| == 4 && |typ| == 4 && FromLE(len) == HEADER + |data|
    requires |pad| == AlignUp(|data|) - |data|
    ensures ParseOne(len + level + typ + data + (pad + tail)) == Got(Msg(FromLE(level), FromLE(typ), data), tail)
  {
    Parts(len, level, typ, data, pad + tail);
    var b := len + level + typ + data + (pad + tail);
    assert AlignUp(HEADER + |data|) == HEADER + |data| + |pad|;
    assert b[HEADER + |data| + |pad|..] == (pad + tail)[|pad|..] == tail;
  }

  lemma ParseFields(len: seq<Byte>, level: seq<Byte>, typ: seq<Byte>, m: Msg, tail: seq<Byte>)
    requires |len| == 8 && |level| == 4 && |typ| == 4
    requires FromLE(len) == CmsgLen(|m.data|) && FromLE(level) == m.level && FromLE(typ) == m.typ
    ensures ParseOne(len + level + typ + m.data + Zeros(AlignUp(|m.data|) - |m.data|) + tail) == Got(m, tail)
  {
    var pad := Zeros(AlignUp(|m.data|) - |m.data|);
    ParseLaidOut(len, level, typ, m.data, pad, tail);
    assert len + level + typ + m.data + pad + tail == len + level + typ + m.data + (pad + tail);
  }

  /** A message is parsed back, whatever follows it. */
  lemma ParseEncoded(m: Msg, tail: seq<Byte>)
    requires Encodable(m)
    ensures ParseOne(Encode(m) + tail) == Got(m, tail)
  {
    LERoundTrip(CmsgLen(|m.data|), 8);
    LERoundTrip(m.level, 4);
    LERoundTrip(m.typ, 4);
    ParseFields(ToLE(CmsgLen(|m.data|), 8), ToLE(m.level, 4), ToLE(m.typ, 4), m, tail);
  }

  /** The padding of the last message may be cut off. */
  lemma LastMayLackPadding(m: Msg, n: nat)
    requires Encodable(m) && 16 + |m.data| <= n <= |Encode(m)|
    ensures ParseOne(Encode(m)[..n]) == Got(m, [])
  {
    ParseEncoded(m, []);
    assert Encode(m) + [] == Encode(m);
    LengthField(m);
    ParsePart(Encode(m), n);
  }

  lemma ParsePart(b: seq<Byte>, n: nat)
    requires ParseOne(b).Got? && ParseOne(b).rest == [] && FromLE(b[..8]) <= n <= |b|
    ensures ParseOne(b[..n]) == ParseOne(b)
  {
    var c := b[..n];
    var len := FromLE(b[..8]);
    assert c[..8] == b[..8] && c[8..12] == b[8..12] && c[12..16] == b[12..16];
    assert c[HEADER..len] == b[HEADER..len];
  }

  lemma LengthField(m: Msg)
    requires Encodable(m)
    ensures FromLE(Encode(m)[..8]) == 16 + |m.data|
  {
    LERoundTrip(CmsgLen(|m.data|), 8);
    assert Encode(m)[..8] == ToLE(CmsgLen(|m.data|), 8);
  }

  /** Without all of its data a message is not accepted. */
  lemma CutShortIsBad(m: Msg, n: nat)
    requires Encodable(m) && n < 16 + |m.data|
    ensures ParseOne(Encode(m)[..n]).Bad?
  {
    if n >= HEADER {
      LengthField(m);
      assert Encode(m)[..n][..8] == Encode(m)[..8];
    }
  }

  /** Nor with a length that does not cover the header. */
  lemma ShortLengthIsBad(length: nat, rest: seq<Byte>)
    requires length < 16
    ensures ParseOne(ToLE(length, 8) + rest).Bad?
  {
    assert Pow256(8) == 0x1_0000_0000_0000_0000;
    LERoundTrip(length, 8);
    assert (ToLE(length, 8) + rest)[..8] == ToLE(length, 8);
  }

  // ---- a whole buffer ------------------------------------------------------

  /** The messages a walk over b reaches, up to the first error. */
  function Messages(b: seq<Byte>): seq<Msg>
    decreases |b|
  {
    var p := ParseOne(b);
    if b == [] || p.Bad? then [] else [p.m] + Messages(p.rest)
  }

  /** The walk ends without an error. */
  predicate WellFormed(b: seq<Byte>)
    decreases |b|
  {
    b == [] || (ParseOne(b).Got? && WellFormed(ParseOne(b).rest))
  }

  function EncodeAll(ms: seq<Msg>): seq<Byte> {
    if ms == [] then [] else Encode(ms[0]) + EncodeAll(ms[1..])
  }

  lemma WalkStep(b: seq<Byte>, m: Msg, rest: seq<Byte>)
    requires b != [] && ParseOne(b) == Got(m, rest)
    ensures Messages(b) == [m] + Messages(rest)
    ensures WellFormed(b) <==> WellFormed(rest)
  {
  }

  lemma WalkEncoded(m: Msg, tail: seq<Byte>)
    requires Encodable(m)
    ensures Messages(Encode(m) + tail) == [m] + Messages(tail)
    ensures WellFormed(Encode(m) + tail) <==> WellFormed(tail)
  {
    ParseEncoded(m, tail);
    WalkStep(Encode(m) + tail, m, tail);
  }

  /** Decoding inverts encoding. */
  lemma {:induction false} DecodeInvertsEncode(ms: seq<Msg>)
    requires forall m :: m in ms ==> Encodable(m)
    ensures WellFormed(EncodeAll(ms)) && Messages(EncodeAll(ms)) == ms
  {
    if ms != [] {
      var m, rest := ms[0], ms[1..];
      HeadAndTail(ms);
      DecodeInvertsEncode(rest);
      WalkEncoded(m, EncodeAll(rest));
    }
  }

  lemma {:induction false} EncodedIsAligned(ms: seq<Msg>)
    ensures |EncodeAll(ms)| % 8 == 0
  {
    if ms != [] {
      EncodedIsAligned(ms[1..]);
      SumIsAligned(|Encode(ms[0])|, |EncodeAll(ms[1..])|);
    }
  }

  lemma SumIsAligned(x: nat, y: nat)
    requires x % 8 == 0
    ensures (x + y) % 8 == y % 8
  {
  }

  lemma AlignFits(len: nat, n: nat)
    requires len <= n
    ensures n % 8 == 0 ==> AlignUp(len) <= n
    ensures AlignUp(len) <= n ==> (n - AlignUp(len)) % 8 == n % 8
  {
  }

  /** Parsing a message is blind to what follows an aligned buffer. */
  lemma ParseFirst(b: seq<Byte>, tail: seq<Byte>)
    requires ParseOne(b).Got? && (|b| % 8 == 0 || ParseOne(b).rest != [])
    ensures ParseOne(b + tail) == Got(ParseOne(b).m, ParseOne(b).rest + tail)
    ensures |ParseOne(b).rest| % 8 == |b| % 8
  {
    var len := FromLE(b[..8]);
    AlignFits(len, |b|);
    SliceOfFirst(b, tail, 0, 8);
    SliceOfFirst(b, tail, 8, 12);
    SliceOfFirst(b, tail, 12, 16);
    SliceOfFirst(b, tail, HEADER, len);
    SliceOfFirst(b, tail, 0, AlignUp(len));
  }

  /** What is appended to a well-formed aligned buffer is walked after it. */
  lemma {:induction false} WalkAppended(b: seq<Byte>, tail: seq<Byte>)
    requires WellFormed(b) && |b| % 8 == 0
    ensures Messages(b + tail) == Messages(b) + Messages(tail)
    ensures WellFormed(b + tail) <==> WellFormed(tail)
    decreases |b|
  {
    if b == [] {
      assert b + tail == tail;
    } else {
      var m, rest := ParseOne(b).m, ParseOne(b).rest;
      ParseFirst(b, tail);
      WalkStep(b, m, rest);
      WalkAppended(rest, tail);
      WalkBoth(b, tail, m, rest);
    }
  }

  lemma WalkBoth(b: seq<Byte>, tail: seq<Byte>, m: Msg, rest: seq<Byte>)
    requires b != [] && ParseOne(b) == Got(m, rest) && ParseOne(b + tail) == Got(m, rest + tail)
    requires Messages(rest + tail) == Messages(rest) + Messages(tail)
    requires WellFormed(rest + tail) <==> WellFormed(tail)
    ensures Messages(b + tail) == Messages(b) + Messages(tail)
    ensures WellFormed(b + tail) <==> WellFormed(tail)
  {
    WalkStep(b, m, rest);
    WalkStep(b + tail, m, rest + tail);
    Regroup([m], Messages(rest), Messages(tail));
  }

  /** A message of fewer than 256 bytes entered off its start is not a message:
      its length field reads as a multiple of 256. */
  lemma OffStartIsBad(m: Msg, k: nat)
    requires |Encode(m)| < 256 && 1 <= k <= 7
    ensures ParseOne(Encode(m)[k..]).Bad?
  {
    var len := ToLE(CmsgLen(|m.data|), 8);
    SmallLE(CmsgLen(|m.data|), 8, k);
    assert Encode(m)[k] == Header(m)[k] == len[k];
    ZeroFirstIsBad(Encode(m)[k..]);
  }

  lemma ZeroFirstIsBad(b: seq<Byte>)
    requires 0 < |b| < 256 && b[0] == 0
    ensures ParseOne(b).Bad?
  {
    if |b| >= HEADER {
      assert b[..8][0] == b[0];
      assert FromLE(b[..8]) == 256 * FromLE(b[..8][1..]);
    }
  }

  lemma SmallLE(v: nat, width: nat, k: nat)
    requires v < 256 && 1 <= k < width
    ensures ToLE(v, width)[k] == 0
    decreases width
  {
    ZeroLE(width - 1, k - 1);
  }

  lemma {:induction false} ZeroLE(width: nat, k: nat)
    requires k < width
    ensures ToLE(0, width)[k] == 0
    decreases width
  {
    if k > 0 {
      ZeroLE(width - 1, k - 1);
    }
  }

  /** A message whose padding is missing takes it from what is appended. */
  lemma EntersOffStart(b: seq<Byte>, e: seq<Byte>) returns (k: nat)
    requires ParseOne(b).Got? && ParseOne(b).rest == [] && |b| % 8 != 0 && |e| >= 8
    ensures 1 <= k <= 7 && ParseOne(b + e).Got? && ParseOne(b + e).rest == e[k..]
  {
    var len := FromLE(b[..8]);
    var c := b + e;
    k := AlignUp(len) - |b|;
    assert c[..8] == b[..8];
    assert c[AlignUp(len)..] == e[k..];
  }

  /** After a well-formed buffer that is not aligned, the walk enters whatever is
      appended off its start. */
  lemma {:induction false} MisalignedWalk(b: seq<Byte>, m: Msg)
    requires WellFormed(b) && |b| % 8 != 0 && |Encode(m)| < 256
    ensures !WellFormed(b + Encode(m))
    decreases |b|
  {
    var p := ParseOne(b);
    if p.rest != [] {
      ParseFirst(b, Encode(m));
      MisalignedWalk(p.rest, m);
    } else {
      var k := EntersOffStart(b, Encode(m));
      OffStartIsBad(m, k);
    }
  }

  /** Appending a message to a well-formed buffer adds that message, and the
      buffer stays well formed, exactly when the buffer is aligned. */
  lemma {:induction false} AppendWorksIffAligned(b: seq<Byte>, m: Msg)
    requires WellFormed(b) && Encodable(m) && |Encode(m)| < 256
    ensures WellFormed(b + Encode(m)) && Messages(b + Encode(m)) == Messages(b) + [m] <==> |b| % 8 == 0
  {
    if |b| % 8 == 0 {
      ParseEncoded(m, []);
      assert Encode(m) + [] == Encode(m);
      assert Messages([]) == [];
      WalkAppended(b, Encode(m));
    } else {
      MisalignedWalk(b, m);
    }
  }
}
