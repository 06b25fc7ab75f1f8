/** Well-formed UTF-8, byte by byte, as section 4 of RFC 3629 gives it. */
module Utf8 {

  /** A byte 10xxxxxx. */
  predicate IsContinuation(c: char) {
    c as int / 0x40 == 2
  }

  /** The length of the character that starts with this byte; 0 when none does. */
  function LeadLength(c: char): nat {
    var b := c as int;
    if b <= 0x7F then 1
    else if 0xC2 <= b <= 0xDF then 2
    else if 0xE0 <= b <= 0xEF then 3
    else if 0xF0 <= b <= 0xF4 then 4
    else 0
  }

  /** The second byte is limited after four of the lead bytes: no overlong forms, no surrogates, nothing past U+10FFFF. */
  predicate SecondByteFits(first: char, second: char) {
    var b := second as int;
    match first as int
    case 0xE0 => 0xA0 <= b <= 0xBF
    case 0xED => 0x80 <= b <= 0x9F
    case 0xF0 => 0x90 <= b <= 0xBF
    case 0xF4 => 0x80 <= b <= 0x8F
    case _ => 0x80 <= b <= 0xBF
  }

  /** The text begins with one whole character, `LeadLength(text[0])` bytes long. */
  predicate StartsWithChar(text: string) {
    && text != ""
    && 0 < LeadLength(text[0]) <= |text|
    && (LeadLength(text[0]) > 1 ==> SecondByteFits(text[0], text[1]))
    && (forall i :: 2 <= i < LeadLength(text[0]) ==> IsContinuation(text[i]))
  }

  predicate WellFormed(text: string) {
    text == "" || (StartsWithChar(text) && WellFormed(text[LeadLength(text[0])..]))
  }

  lemma InsideCharIsContinuation(text: string, i: nat)
    requires StartsWithChar(text) && 0 < i < LeadLength(text[0])
    ensures IsContinuation(text[i])
  {
  }

  lemma {:induction false} CutAtBoundary(text: string, k: nat)
    requires WellFormed(text) && k <= |text|
    ensures WellFormed(text[..k]) <==> (k == |text| || !IsContinuation(text[k]))
    decreases |text|
  {
    if text != "" && k > 0 {
      var n := LeadLength(text[0]);
      if k < n {
        InsideCharIsContinuation(text, k);
      } else {
        CutAtBoundary(text[n..], k - n);
        assert text[n..][..k - n] == text[..k][n..];
      }
    }
  }
}
