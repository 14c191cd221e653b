/** ASCII text as it travels over the UART, and the C string length of a NUL-terminated buffer. */
module Ascii {
  import opened Primitives

  /** Seven-bit text without a NUL: what `sprintf` can put in a C string and `strlen` counts in full. */
  predicate IsText(s: string) {
    forall i :: 0 <= i < |s| ==> 0 < s[i] as int < 0x80
  }

  lemma TextConcat(a: string, b: string)
    requires IsText(a) && IsText(b)
    ensures IsText(a + b)
  {
  }

  /** The bytes of `s`, one per character. */
  function ToBytes(s: string): (b: seq<uint8>)
    requires IsText(s)
    ensures |b| == |s|
    ensures forall i :: 0 <= i < |s| ==> b[i] as int == s[i] as int && b[i] != 0
  {
    seq(|s|, i requires 0 <= i < |s| => s[i] as int as uint8)
  }

  /** The characters of the bytes `b`, one per byte. */
  function FromBytes(b: seq<uint8>): (s: string)
    ensures |s| == |b|
    ensures forall i :: 0 <= i < |b| ==> s[i] as int == b[i] as int
  {
    seq(|b|, i requires 0 <= i < |b| => b[i] as int as char)
  }

  lemma FromToBytes(s: string)
    requires IsText(s)
    ensures FromBytes(ToBytes(s)) == s
  {
  }

  /** `strlen`: the index of the first NUL of a buffer that holds one. */
  function CStrLen(s: seq<uint8>): (n: nat)
    requires 0 in s
    ensures n < |s| && s[n] == 0
    ensures forall i :: 0 <= i < n ==> s[i] != 0
    decreases |s|
  {
    if s[0] == 0 then 0 else 1 + CStrLen(s[1..])
  }
}
