/** Bytes as Go's uint8. */
module Bytes {
  type Byte = b: int | 0 <= b < 256

  function Zeros(n: nat): (bs: seq<Byte>)
    ensures |bs| == n && forall i :: 0 <= i < n ==> bs[i] == 0
  {
    seq(n, _ => 0)
  }
}
