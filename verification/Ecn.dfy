/** The ECN codepoints of section 5 of RFC 3168, as types/ecn.go numbers them. */
module Ecn {
  import opened Wrappers
  import opened Bytes

  /** types.ECN is a uint8, so values beyond the five constants exist. */
  type ECN = e: int | 0 <= e < 256

  const ECN_UNSUPPORTED: ECN := 0
  const ECN_NON: ECN := 1
  const ECT1: ECN := 2
  const ECT0: ECN := 3
  const ECN_CE: ECN := 4

  /** ParseECNHeaderBits; None where the source panics. */
  function ParseHeaderBits(bits: Byte): Option<ECN> {
    match bits
    case 0 => Some(ECN_NON)
    case 2 => Some(ECT0)
    case 1 => Some(ECT1)
    case 3 => Some(ECN_CE)
    case _ => None
  }

  /** ToHeaderBits; None where the source panics. */
  function ToHeaderBits(e: ECN): Option<Byte> {
    match e
    case 1 => Some(0)
    case 3 => Some(2)
    case 2 => Some(1)
    case 4 => Some(3)
    case _ => None
  }

  /** The two maps are inverse, and defined on the two-bit field and on the four
      codepoints exactly: Not-ECT 00, ECT(1) 01, ECT(0) 10 and CE 11 have the
      numbers 1 to 4. */
  lemma CodepointsAreInverse(e: ECN, bits: Byte)
    ensures ParseHeaderBits(bits) == Some(e) <==> bits < 4 && e == bits + 1
    ensures ToHeaderBits(e) == Some(bits) <==> ParseHeaderBits(bits) == Some(e)
    ensures ParseHeaderBits(bits).Some? <==> bits < 4
    ensures ToHeaderBits(e).Some? <==> e in {ECN_NON, ECT1, ECT0, ECN_CE}
  {
  }
}
