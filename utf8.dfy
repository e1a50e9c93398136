/** Well-formed UTF-8, as Rust's `std::str::from_utf8` accepts it (shortest forms only,
    no surrogate code points, nothing above U+10FFFF). */
module Utf8 {
  import opened Bytes

  predicate IsContinuation(b: u8) {
    0x80 <= b <= 0xBF
  }

  /** Length of the well-formed scalar encoding that starts b, or 0 when b does not start with one. */
  function ScalarLength(b: seq<u8>): (n: nat)
    requires |b| > 0
    ensures n <= 4 && n <= |b|
  {
    var b0 := b[0];
    if b0 < 0x80 then 1
    else if 0xC2 <= b0 <= 0xDF then
      if |b| >= 2 && IsContinuation(b[1]) then 2 else 0
    else if 0xE0 <= b0 <= 0xEF then
      var lo := if b0 == 0xE0 then 0xA0 else 0x80;
      var hi := if b0 == 0xED then 0x9F else 0xBF;
      if |b| >= 3 && lo <= b[1] <= hi && IsContinuation(b[2]) then 3 else 0
    else if 0xF0 <= b0 <= 0xF4 then
      var lo := if b0 == 0xF0 then 0x90 else 0x80;
      var hi := if b0 == 0xF4 then 0x8F else 0xBF;
      if |b| >= 4 && lo <= b[1] <= hi && IsContinuation(b[2]) && IsContinuation(b[3]) then 4 else 0
    else 0
  }

  /** b is a sequence of well-formed scalar encodings. */
  predicate IsValid(b: seq<u8>)
    decreases |b|
  {
    |b| == 0 || (ScalarLength(b) > 0 && IsValid(b[ScalarLength(b)..]))
  }

  /** Well-formed UTF-8 starts with an ASCII byte or a lead byte: never with a continuation
      byte, the overlong leads 0xC0 and 0xC1, or a byte above 0xF4. */
  lemma ValidStartsWithLead(b: seq<u8>)
    requires IsValid(b) && |b| > 0
    ensures b[0] < 0x80 || 0xC2 <= b[0] <= 0xF4
  {
  }

  /** Plain ASCII is well-formed UTF-8. */
  lemma {:induction false} AsciiIsValid(b: seq<u8>)
    requires forall i :: 0 <= i < |b| ==> b[i] < 0x80
    ensures IsValid(b)
    decreases |b|
  {
    if |b| > 0 {
      assert ScalarLength(b) == 1;
      assert forall i :: 0 <= i < |b[1..]| ==> b[1..][i] == b[i + 1];
      AsciiIsValid(b[1..]);
    }
  }
}
