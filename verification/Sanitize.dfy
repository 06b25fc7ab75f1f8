/** Cleaning of chat text, src/Sanitize.cpp: control bytes out, ends trimmed, cut at a byte limit. */
module Sanitize {
  import opened Text
  import opened Utf8

  const MESSAGE_LIMIT := 512
  const NAME_LIMIT := 64

  predicate IsControl(c: char) {
    c as int < 0x20 || c as int == 0x7F
  }

  /** `std::isspace` in the "C" locale. */
  predicate IsSpace(c: char) {
    c == ' ' || 0x09 <= c as int <= 0x0D
  }

  predicate Printing(text: string) {
    forall i :: 0 <= i < |text| ==> !IsControl(text[i])
  }

  function Kept(c: char): string {
    if IsControl(c) then "" else [c]
  }

  /** The text without its control bytes. */
  function Printable(text: string): (printable: string)
    ensures Printing(printable)
  {
    if text == "" then "" else Printable(text[..|text| - 1]) + Kept(text[|text| - 1])
  }

  function Stripped(text: string): string {
    Trim(Printable(text), IsSpace)
  }

  method StripControlAndTrim(input: string) returns (result: string)
    ensures result == Stripped(input)
  {
    var out := "";
    for i := 0 to |input|
      invariant out == Printable(input[..i])
    {
      var c := input[i];
      assert input[..i + 1][..i] == input[..i];
      if IsControl(c) {
        continue;
      }
      out := out + [c];
    }
    assert input[..|input|] == input;
    result := TrimEnds(out, IsSpace);
  }

  /** Where the walk back over continuation bytes from `cut` ends. */
  function CutPoint(text: string, cut: nat): (k: nat)
    requires cut < |text|
    ensures k <= cut && (k == 0 || !IsContinuation(text[k]))
    ensures forall i :: k < i <= cut ==> IsContinuation(text[i])
  {
    if cut > 0 && IsContinuation(text[cut]) then CutPoint(text, cut - 1) else cut
  }

  function Truncated(text: string, limit: nat): string {
    if |text| <= limit then text else text[..CutPoint(text, limit)]
  }

  method TruncateUtf8(input: string, maxBytes: nat) returns (result: string)
    ensures result == Truncated(input, maxBytes)
  {
    if |input| <= maxBytes {
      return input;
    }
    var cut: nat := maxBytes;
    while cut > 0 && IsContinuation(input[cut])
      invariant cut <= maxBytes && CutPoint(input, cut) == CutPoint(input, maxBytes)
    {
      cut := cut - 1;
    }
    result := input[..cut];
  }

  function Sanitized(text: string, limit: nat): string {
    Truncated(Stripped(text), limit)
  }

  method SanitizeMessage(input: string, maxBytes: nat) returns (result: string)
    ensures result == Sanitized(input, maxBytes)
  {
    var cleaned := StripControlAndTrim(input);
    if cleaned == "" {
      return "";
    }
    result := TruncateUtf8(cleaned, maxBytes);
  }

  predicate NoticeKeeps(c: char) {
    c == '\n' || !IsControl(c)
  }

  predicate NoticeTrims(c: char) {
    c == ' ' || c == '\t' || c == '\r'
  }

  function NoticePrintable(text: string): string {
    if text == "" then ""
    else NoticePrintable(text[..|text| - 1]) + (if NoticeKeeps(text[|text| - 1]) then [text[|text| - 1]] else "")
  }

  function NoticeText(text: string, limit: nat): string {
    Truncated(Trim(NoticePrintable(text), NoticeTrims), limit)
  }

  lemma {:induction false} NoticePrintableKeeps(text: string)
    ensures forall c :: c in NoticePrintable(text) <==> c in text && (c == '\n' || !IsControl(c))
    ensures (forall c :: c in text ==> c == '\n' || !IsControl(c)) ==> NoticePrintable(text) == text
    ensures |NoticePrintable(text)| <= |text|
  {
    if text != "" {
      var init, last := text[..|text| - 1], text[|text| - 1];
      assert text == init + [last];
      NoticePrintableKeeps(init);
    }
  }

  /**
    * A notice keeps its line ends and loses all other control bytes. One without such bytes, that does not begin or end
    * with a blank, tab or carriage return and is not too long, stays as it is.
    */
  lemma NoticeIsClean(text: string, limit: nat)
    ensures var clean := NoticeText(text, limit);
            |clean| <= limit && forall c :: c in clean ==> c == '\n' || !IsControl(c)
    ensures (text != "" && |text| <= limit && (forall c :: c in text ==> c == '\n' || !IsControl(c)) &&
             text[0] != ' ' && text[|text| - 1] != ' ') ==> NoticeText(text, limit) == text
  {
    hide NoticePrintable;
    NoticePrintableKeeps(text);
    TrimKeeps(NoticePrintable(text), NoticeTrims);
    if text != "" && (forall c :: c in text ==> c == '\n' || !IsControl(c)) && text[0] != ' ' && text[|text| - 1] != ' ' {
      assert text[0] in text && text[|text| - 1] in text;
      TrimIs(text, NoticeTrims, 0, |text|);
    }
  }

  lemma {:induction false} TrimKeeps(text: string, drop: char -> bool)
    ensures |Trim(text, drop)| <= |text| && forall c :: c in Trim(text, drop) ==> c in text
    decreases |text|
  {
    if text == "" {
    } else if drop(text[0]) {
      TrimKeeps(text[1..], drop);
    } else if drop(text[|text| - 1]) {
      TrimKeeps(text[..|text| - 1], drop);
    }
  }

  /** The cleaning of server notices, which keeps line ends. */
  method SanitizeNotice(input: string, maxBytes: nat) returns (result: string)
    ensures result == NoticeText(input, maxBytes)
  {
    var out := "";
    for i := 0 to |input|
      invariant out == NoticePrintable(input[..i])
    {
      assert input[..i + 1][..i] == input[..i];
      if NoticeKeeps(input[i]) {
        out := out + [input[i]];
      }
    }
    assert input[..|input|] == input;
    out := TrimEnds(out, NoticeTrims);
    if out == "" {
      return "";
    }
    result := TruncateUtf8(out, maxBytes);
  }

  method StartsWithAnyPrefix(message: string, prefixes: seq<string>) returns (found: bool)
    ensures found <==> HasAnyPrefix(message, prefixes)
  {
    for i := 0 to |prefixes|
      invariant forall j :: 0 <= j < i ==> prefixes[j] == "" || !(prefixes[j] <= message)
    {
      if prefixes[i] == "" {
        continue;
      }
      if |message| >= |prefixes[i]| && message[..|prefixes[i]|] == prefixes[i] {
        return true;
      }
    }
    return false;
  }

  predicate HasAnyPrefix(message: string, prefixes: seq<string>) {
    exists i :: 0 <= i < |prefixes| && prefixes[i] != "" && prefixes[i] <= message
  }

  // ----- truncation at character boundaries

  /** For well-formed text, truncation keeps the longest well-formed prefix within the limit. */
  lemma TruncatedIsLongest(text: string, limit: nat)
    requires WellFormed(text)
    ensures Truncated(text, limit) <= text && |Truncated(text, limit)| <= limit
    ensures WellFormed(Truncated(text, limit))
    ensures forall k :: 0 <= k <= |text| && k <= limit && WellFormed(text[..k]) ==> k <= |Truncated(text, limit)|
  {
    if |text| > limit {
      var cut := CutPoint(text, limit);
      CutAtBoundary(text, cut);
      forall k | 0 <= k <= |text| && k <= limit && WellFormed(text[..k])
        ensures k <= cut
      {
        CutAtBoundary(text, k);
      }
    } else {
      assert text[..|text|] == text;
    }
  }

  lemma {:induction false} PrintableOfSum(a: string, b: string)
    ensures Printable(a + b) == Printable(a) + Printable(b)
  {
    if b == "" {
      assert a + b == a;
    } else {
      var n := |b| - 1;
      PrintableOfSum(a, b[..n]);
      assert (a + b)[..|a + b| - 1] == a + b[..n];
      Concat3(Printable(a), Printable(b[..n]), Kept(b[n]));
    }
  }

  lemma {:induction false} PrintableIsIdentity(text: string)
    requires Printing(text)
    ensures Printable(text) == text
  {
    if text != "" {
      PrintableIsIdentity(text[..|text| - 1]);
    }
  }

  lemma PrintableChar(first: string)
    requires StartsWithChar(first) && |first| == LeadLength(first[0])
    ensures Printable(first) == first || (|first| == 1 && Printable(first) == "")
  {
    if |first| > 1 {
      forall i | 0 <= i < |first|
        ensures !IsControl(first[i])
      {
        if i > 0 {
          InsideCharIsContinuation(first, i);
        }
      }
      PrintableIsIdentity(first);
    } else {
      assert first[..0] == "";
    }
  }

  lemma CharInFront(first: string, rest: string)
    requires StartsWithChar(first) && |first| == LeadLength(first[0]) && WellFormed(rest)
    ensures WellFormed(first + rest)
  {
    assert (first + rest)[|first|..] == rest;
    assert forall i :: 0 <= i < |first| ==> (first + rest)[i] == first[i];
  }

  /** Control bytes are whole characters: taking them out of well-formed text leaves well-formed text. */
  lemma {:induction false} PrintableIsWellFormed(text: string)
    requires WellFormed(text)
    ensures WellFormed(Printable(text))
    decreases |text|
  {
    if text != "" {
      hide Printable;
      var n := LeadLength(text[0]);
      var first, rest := text[..n], text[n..];
      assert text == first + rest;
      PrintableIsWellFormed(rest);
      PrintableOfSum(first, rest);
      PrintableChar(first);
      if Printable(first) == first {
        CharInFront(first, Printable(rest));
      } else {
        assert Printable(first) + Printable(rest) == Printable(rest);
      }
    }
  }

  lemma SpaceIsWhole(c: char)
    requires IsSpace(c)
    ensures LeadLength(c) == 1 && !IsContinuation(c)
  {
  }

  lemma {:induction false} TrimIsWellFormed(text: string)
    requires WellFormed(text)
    ensures WellFormed(Trim(text, IsSpace))
    decreases |text|
  {
    if text == "" {
    } else if IsSpace(text[0]) {
      SpaceIsWhole(text[0]);
      TrimIsWellFormed(text[1..]);
    } else if IsSpace(text[|text| - 1]) {
      SpaceIsWhole(text[|text| - 1]);
      CutAtBoundary(text, |text| - 1);
      TrimIsWellFormed(text[..|text| - 1]);
    }
  }

  /** Sanitizing maps well-formed text to well-formed text. */
  lemma SanitizedIsWellFormed(text: string, limit: nat)
    requires WellFormed(text)
    ensures WellFormed(Sanitized(text, limit))
  {
    PrintableIsWellFormed(text);
    TrimIsWellFormed(Printable(text));
    TruncatedIsLongest(Stripped(text), limit);
  }

  // ----- sanitizing again

  predicate Trimmed(text: string) {
    text != "" ==> !IsSpace(text[0]) && !IsSpace(text[|text| - 1])
  }

  lemma {:induction false} TrimTrims(text: string)
    ensures Trimmed(Trim(text, IsSpace))
    ensures Printing(text) ==> Printing(Trim(text, IsSpace))
    ensures |Trim(text, IsSpace)| <= |text|
    decreases |text|
  {
    if text == "" {
    } else if IsSpace(text[0]) {
      TrimTrims(text[1..]);
    } else if IsSpace(text[|text| - 1]) {
      TrimTrims(text[..|text| - 1]);
    }
  }

  /** What every sanitized text is: within the limit, free of control bytes, and not led by a space. */
  lemma SanitizedIsClean(text: string, limit: nat)
    ensures |Sanitized(text, limit)| <= limit
    ensures Printing(Sanitized(text, limit))
    ensures Sanitized(text, limit) != "" ==> !IsSpace(Sanitized(text, limit)[0])
  {
    TrimTrims(Printable(text));
  }

  /** The text has to be cut, and the cut falls behind a space. */
  predicate CutsBehindSpace(text: string, limit: nat) {
    var clean := Stripped(text);
    |clean| > limit && 0 < CutPoint(clean, limit) && IsSpace(clean[CutPoint(clean, limit) - 1])
  }

  /** One more pass changes a clean text exactly when the cut has left it ending in a space. */
  lemma FixedPointWhenTrimmed(text: string, limit: nat)
    ensures var once := Sanitized(text, limit);
            && (Sanitized(once, limit) == once <==> !CutsBehindSpace(text, limit))
            && (CutsBehindSpace(text, limit) <==> once != "" && IsSpace(once[|once| - 1]))
  {
    hide Printable;
    var once := Sanitized(text, limit);
    TrimTrims(Printable(text));
    SanitizedIsClean(text, limit);
    PrintableIsIdentity(once);
    TrimTrims(once);
    if once != "" && !IsSpace(once[|once| - 1]) {
      assert Trim(once, IsSpace) == once;
    }
    if Sanitized(once, limit) == once {
      assert |Trim(once, IsSpace)| <= limit;
    }
  }

  /** Sanitizing settles: the third pass changes nothing. */
  lemma SanitizedSettles(text: string, limit: nat)
    ensures var twice := Sanitized(Sanitized(text, limit), limit);
            Sanitized(twice, limit) == twice
  {
    var once := Sanitized(text, limit);
    SanitizedIsClean(text, limit);
    PrintableIsIdentity(once);
    TrimTrims(once);
    FixedPointWhenTrimmed(once, limit);
  }

  lemma CutBehindSpace()
    ensures Sanitized("a b", 2) == "a "
  {
    hide Printable;
    var text := "a b";
    PrintableIsIdentity(text);
    assert Trim(text, IsSpace) == text;
    hide Trim;
    assert CutPoint(text, 2) == 2 && text[..2] == "a ";
  }

  lemma SpaceGoesNext()
    ensures Sanitized("a ", 2) == "a"
  {
    var text := "a ";
    PrintableIsIdentity(text);
    TrimIs(text, IsSpace, 0, 1);
  }

  /** One pass need not settle: a limit can fall behind a space. */
  lemma OnePassIsNotEnough()
    ensures Sanitized(Sanitized("a b", 2), 2) != Sanitized("a b", 2)
  {
    CutBehindSpace();
    SpaceGoesNext();
  }
}
