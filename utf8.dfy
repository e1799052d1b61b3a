/**
 * UTF-8 well-formedness, the check a decoded `string` field must pass.
 * The byte patterns are those of the Unicode Standard, table 3-7
 * ("Well-Formed UTF-8 Byte Sequences"): no overlong forms, no surrogates,
 * nothing above U+10FFFF.
 */
module Utf8 {

  predicate InRange(b: int, lo: int, hi: int) { lo <= b <= hi }

  predicate Continuation(b: int) { InRange(b, 0x80, 0xBF) }

  /** The length of the well-formed scalar encoding at the start of `s`, or 0 if there is none. */
  function ScalarLength(s: seq<int>): (n: nat)
    requires s != []
    ensures n <= 4 && n <= |s|
    ensures n == 1 <==> 0 <= s[0] < 0x80
  {
    var b0 := s[0];
    if 0 <= b0 < 0x80 then 1
    else if InRange(b0, 0xC2, 0xDF) then
      if |s| >= 2 && Continuation(s[1]) then 2 else 0
    else if InRange(b0, 0xE0, 0xEF) then
      var lo := if b0 == 0xE0 then 0xA0 else 0x80;
      var hi := if b0 == 0xED then 0x9F else 0xBF;
      if |s| >= 3 && InRange(s[1], lo, hi) && Continuation(s[2]) then 3 else 0
    else if InRange(b0, 0xF0, 0xF4) then
      var lo := if b0 == 0xF0 then 0x90 else 0x80;
      var hi := if b0 == 0xF4 then 0x8F else 0xBF;
      if |s| >= 4 && InRange(s[1], lo, hi) && Continuation(s[2]) && Continuation(s[3]) then 4 else 0
    else 0
  }

  /** True when `s` is a sequence of well-formed UTF-8 scalar encodings. */
  predicate IsValid(s: seq<int>)
    decreases |s|
  {
    s == [] || (ScalarLength(s) > 0 && IsValid(s[ScalarLength(s)..]))
  }

  /** Every ASCII byte string is valid UTF-8. */
  lemma {:induction false} AsciiIsValid(s: seq<int>)
    requires forall k :: 0 <= k < |s| ==> 0 <= s[k] < 0x80
    ensures IsValid(s)
    decreases |s|
  {
    if s != [] {
      AsciiIsValid(s[1..]);
    }
  }

  /** A lone continuation byte, or a truncated two-byte form, is rejected. */
  lemma StrayContinuationInvalid(s: seq<int>)
    requires s != [] && (Continuation(s[0]) || (InRange(s[0], 0xC2, 0xDF) && |s| == 1))
    ensures !IsValid(s)
  {
  }
}
