/** Octets as the serial link carries them, and ASCII literals turned into octets. */
module Bytes {

  /** One octet of a QByteArray. */
  type byte = b: int | 0 <= b < 256

  predicate IsAscii(s: string)
  {
    forall i :: 0 <= i < |s| ==> s[i] as int < 128
  }

  /** The octets of an ASCII literal (Qt converts such literals to a QByteArray byte for byte). */
  function AsciiBytes(s: string): (r: seq<byte>)
    requires IsAscii(s)
    ensures |r| == |s|
    ensures forall i :: 0 <= i < |s| ==> r[i] == s[i] as int
  {
    seq(|s|, i requires 0 <= i < |s| => s[i] as int)
  }

  /** Converting a concatenation converts each part. */
  lemma AsciiBytesAppend(s: string, t: string)
    requires IsAscii(s) && IsAscii(t)
    ensures IsAscii(s + t) && AsciiBytes(s + t) == AsciiBytes(s) + AsciiBytes(t)
  {
    assert forall i :: 0 <= i < |s + t| ==> (s + t)[i] == if i < |s| then s[i] else t[i - |s|];
  }
}
