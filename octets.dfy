/** Bytes, as the Java `byte[]` arrays and the Python `bytes` objects of the system carry them. */
module Octets {

  /** An unsigned byte value; Java's signed bytes are read as their unsigned value. */
  type byte = b: int | 0 <= b < 256

  /** Text whose characters all fit in one byte (the ASCII/Latin-1 range). */
  predicate IsByteText(s: string)
  {
    forall i :: 0 <= i < |s| ==> s[i] as int < 256
  }

  /** The one-byte encoding of such text. */
  function Latin1(s: string): (r: seq<byte>)
    requires IsByteText(s)
    ensures |r| == |s|
    ensures forall i :: 0 <= i < |s| ==> r[i] == s[i] as int
  {
    if |s| == 0 then [] else [s[0] as int as byte] + Latin1(s[1..])
  }
}
