/**
  * Player ids. `Format` is the printer of src/ChatCapture.cpp and src/Audience.cpp, `TryParseGuid` the reader of
  * src/ChatInject.cpp.
  */
module Guids {
  import opened Text

  /** A 32-bit unsigned word. */
  type Word = w: int | 0 <= w < 0x1_0000_0000

  datatype Guid = Guid(a: Word, b: Word, c: Word, d: Word)

  const NIL := Guid(0, 0, 0, 0)

  type Nibble = v: int | 0 <= v < 16

  function HexDigit(v: Nibble): char {
    "0123456789ABCDEF"[v]
  }

  /** The `width` low hexadecimal digits of `v`, most significant first. */
  function Nibbles(v: nat, width: nat): (ds: seq<Nibble>)
    ensures |ds| == width
  {
    if width == 0 then [] else Nibbles(v / 16, width - 1) + [v % 16]
  }

  function Printed(ds: seq<Nibble>): (text: string)
    ensures |text| == |ds|
  {
    if ds == [] then "" else Printed(ds[..|ds| - 1]) + [HexDigit(ds[|ds| - 1])]
  }

  /** `%0<width>X` of a value that fits. */
  function Hex(v: nat, width: nat): string {
    Printed(Nibbles(v, width))
  }

  /** The printer: groups of 8, 4, 4, 4 and 12 digits. */
  function Format(g: Guid): string {
    Hex(g.a, 8) + "-" + Hex(g.b / 0x10000 % 0x10000, 4) + "-" + Hex(g.b % 0x10000, 4) + "-"
    + Hex(g.c / 0x10000 % 0x10000, 4) + "-" + Hex(g.c % 0x10000, 4) + Hex(g.d, 8)
  }

  predicate IsSeparator(c: char) {
    c == '-' || c == '{' || c == '}'
  }

  function DigitValue(c: char): Option<Nibble> {
    if '0' <= c <= '9' then Some(c as int - '0' as int)
    else if 'a' <= c <= 'f' then Some(c as int - 'a' as int + 10)
    else if 'A' <= c <= 'F' then Some(c as int - 'A' as int + 10)
    else None
  }

  /** The digits of a text that has nothing but digits and separators. */
  function Digits(text: string): Option<seq<Nibble>> {
    if text == "" then Some([])
    else
      match Digits(text[..|text| - 1])
      case None => None
      case Some(ds) => DigitsAfter(ds, text[|text| - 1])
  }

  function DigitsAfter(ds: seq<Nibble>, c: char): Option<seq<Nibble>> {
    if IsSeparator(c) then Some(ds)
    else
      match DigitValue(c)
      case None => None
      case Some(v) => Some(ds + [v])
  }

  function Number(ds: seq<Nibble>): nat {
    if ds == [] then 0 else 16 * Number(ds[..|ds| - 1]) + ds[|ds| - 1]
  }

  function Pow16(n: nat): nat {
    if n == 0 then 1 else 16 * Pow16(n - 1)
  }

  lemma {:induction false} NumberFits(ds: seq<Nibble>)
    ensures Number(ds) < Pow16(|ds|)
  {
    if ds != [] {
      NumberFits(ds[..|ds| - 1]);
    }
  }

  function WordOf(ds: seq<Nibble>): Word
    requires |ds| == 8
  {
    NumberFits(ds);
    Number(ds)
  }

  /** The id that 32 digits spell: A, B, C, D in order. */
  function Spelled(ds: seq<Nibble>): Guid
    requires |ds| == 32
  {
    Guid(WordOf(ds[..8]), WordOf(ds[8..16]), WordOf(ds[16..24]), WordOf(ds[24..]))
  }

  /** What a text means: 32 digits among separators, and not the nil id. */
  function Parse(text: string): Option<Guid> {
    match Digits(text)
    case None => None
    case Some(ds) => if |ds| == 32 && Spelled(ds) != NIL then Some(Spelled(ds)) else None
  }

  lemma {:induction false} DigitsOfPrefix(text: string, n: nat)
    requires n <= |text|
    ensures Digits(text).Some? ==> Digits(text[..n]).Some? && |Digits(text[..n]).value| <= |Digits(text).value|
  {
    if n < |text| {
      DigitsOfPrefix(text[..|text| - 1], n);
      assert text[..|text| - 1][..n] == text[..n];
    } else {
      assert text[..n] == text;
    }
  }

  /** The digits that go into word `k`. */
  ghost function Slot(ds: seq<Nibble>, k: nat): seq<Nibble> {
    var n := |ds|;
    ds[if 8 * k < n then 8 * k else n..if 8 * k + 8 < n then 8 * k + 8 else n]
  }

  lemma SlotStep(ds: seq<Nibble>, v: Nibble, k: nat)
    ensures Slot(ds + [v], k) == if 8 * k <= |ds| < 8 * k + 8 then Slot(ds, k) + [v] else Slot(ds, k)
  {
  }

  lemma NumberStep(ds: seq<Nibble>, v: Nibble)
    requires |ds| < 8
    ensures Number(ds + [v]) == 16 * Number(ds) + v < 0x1_0000_0000
  {
    assert (ds + [v])[..|ds|] == ds;
    NumberFits(ds + [v]);
    PowMonotone(|ds| + 1, 8);
  }

  lemma PowMonotone(m: nat, n: nat)
    requires m <= n
    ensures Pow16(m) <= Pow16(n)
  {
  }

  /** The four words hold the digits read so far. */
  ghost predicate Holds(words: seq<Word>, ds: seq<Nibble>) {
    |words| == 4 && forall k :: 0 <= k < 4 ==> words[k] == Number(Slot(ds, k))
  }

  function Shifted(word: Word, v: Nibble): Word {
    (word * 16 + v) % 0x1_0000_0000
  }

  lemma ShiftFits(word: Word, v: Nibble, n: nat)
    requires n == 16 * word + v < 0x1_0000_0000
    ensures Shifted(word, v) == n
  {
  }

  lemma HoldsAt(word: Word, ds: seq<Nibble>, v: Nibble, k: nat)
    requires |ds| < 32 && k < 4 && word == Number(Slot(ds, k))
    ensures (if k == |ds| / 8 then Shifted(word, v) else word) == Number(Slot(ds + [v], k))
  {
    var slot := Slot(ds, k);
    SlotStep(ds, v, k);
    if k == |ds| / 8 {
      NumberStep(slot, v);
      ShiftFits(word, v, Number(slot + [v]));
    }
  }

  lemma HoldsStep(words: seq<Word>, ds: seq<Nibble>, v: Nibble)
    requires Holds(words, ds) && |ds| < 32
    ensures Holds(words[|ds| / 8 := Shifted(words[|ds| / 8], v)], ds + [v])
  {
    forall k | 0 <= k < 4
      ensures words[|ds| / 8 := Shifted(words[|ds| / 8], v)][k] == Number(Slot(ds + [v], k))
    {
      HoldsAt(words[k], ds, v, k);
    }
  }

  lemma TooManyDigits(text: string, n: nat)
    requires n < |text| && Digits(text[..n]).Some? && !IsSeparator(text[n])
    requires DigitValue(text[n]) == None || |Digits(text[..n]).value| >= 32
    ensures Parse(text) == None
  {
    DigitsOfPrefix(text, n + 1);
    assert text[..n + 1][..n] == text[..n];
  }

  /** The reader: four words filled four bits at a time. */
  method TryParseGuid(text: string) returns (ok: bool, out: Guid)
    ensures ok <==> Parse(text).Some?
    ensures ok ==> out == Parse(text).value
  {
    var words := new Word[4](_ => 0);
    var digits := 0;
    out := NIL;
    ghost var ds: seq<Nibble> := [];
    for i := 0 to |text|
      invariant Digits(text[..i]) == Some(ds) && |ds| == digits <= 32
      invariant Holds(words[..], ds)
    {
      var c := text[i];
      assert text[..i + 1][..i] == text[..i];
      if IsSeparator(c) {
        continue;
      }
      var value := DigitValue(c);
      if value.None? || digits >= 32 {
        TooManyDigits(text, i);
        return false, out;
      }
      HoldsStep(words[..], ds, value.value);
      words[digits / 8] := Shifted(words[digits / 8], value.value);
      ds := ds + [value.value];
      digits := digits + 1;
    }
    assert text[..|text|] == text;
    if digits != 32 {
      return false, out;
    }
    SlotsOfAll(ds);
    out := Guid(words[0], words[1], words[2], words[3]);
    ok := out != NIL;
  }

  lemma SlotsOfAll(ds: seq<Nibble>)
    requires |ds| == 32
    ensures Number(Slot(ds, 0)) == Spelled(ds).a && Number(Slot(ds, 1)) == Spelled(ds).b
    ensures Number(Slot(ds, 2)) == Spelled(ds).c && Number(Slot(ds, 3)) == Spelled(ds).d
  {
    assert Slot(ds, 0) == ds[..8] && Slot(ds, 1) == ds[8..16] && Slot(ds, 2) == ds[16..24] && Slot(ds, 3) == ds[24..];
  }

  // ----- printer and reader undo each other

  lemma {:induction false} DigitsOfSum(x: string, y: string)
    requires Digits(x).Some? && Digits(y).Some?
    ensures Digits(x + y) == Some(Digits(x).value + Digits(y).value)
  {
    if y == "" {
      assert x + y == x && Digits(x).value + [] == Digits(x).value;
    } else {
      var n := |y| - 1;
      DigitsOfSum(x, y[..n]);
      assert (x + y)[..|x + y| - 1] == x + y[..n];
      if DigitValue(y[n]).Some? {
        Concat3(Digits(x).value, Digits(y[..n]).value, [DigitValue(y[n]).value]);
      }
    }
  }

  lemma DigitOfHex(v: Nibble)
    ensures !IsSeparator(HexDigit(v)) && DigitValue(HexDigit(v)) == Some(v)
  {
  }

  lemma {:induction false} DigitsOfPrinted(ds: seq<Nibble>)
    ensures Digits(Printed(ds)) == Some(ds)
  {
    if ds != [] {
      var n := |ds| - 1;
      DigitsOfPrinted(ds[..n]);
      DigitOfHex(ds[n]);
      assert Printed(ds)[..n] == Printed(ds[..n]);
      assert ds == ds[..n] + [ds[n]];
    }
  }

  /** Reading the digits of a number gives it back, and spelling a number of digits gives them back. */
  lemma {:induction false} NumberOfNibbles(v: nat, width: nat)
    requires v < Pow16(width)
    ensures Number(Nibbles(v, width)) == v
  {
    if width > 0 {
      NumberOfNibbles(v / 16, width - 1);
      assert Nibbles(v, width)[..width - 1] == Nibbles(v / 16, width - 1);
    }
  }

  lemma {:induction false} NibblesOfNumber(ds: seq<Nibble>)
    ensures Nibbles(Number(ds), |ds|) == ds
  {
    if ds != [] {
      NibblesOfNumber(ds[..|ds| - 1]);
    }
  }

  lemma LowFour(v: nat, width: nat)
    requires width >= 4
    ensures Nibbles(v, width)
         == Nibbles(v / 0x10000, width - 4) + [v / 0x1000 % 16, v / 0x100 % 16, v / 0x10 % 16, v % 16]
  {
    var v1 := v / 16;
    var v2 := v1 / 16;
    var v3 := v2 / 16;
    assert v3 / 16 == v / 0x10000 && v3 == v / 0x1000 && v2 == v / 0x100;
    assert Nibbles(v1, width - 1) == Nibbles(v2, width - 2) + [v1 % 16];
    assert Nibbles(v2, width - 2) == Nibbles(v3, width - 3) + [v2 % 16];
    assert Nibbles(v3, width - 3) == Nibbles(v3 / 16, width - 4) + [v3 % 16];
  }

  lemma SameRemainder(q: nat, r: nat)
    ensures (16 * q + r) % 16 == r % 16
  {
  }

  lemma LowDigit3(v: nat)
    ensures v % 0x10000 / 0x1000 % 16 == v / 0x1000 % 16
  {
    var high, low := v / 0x10000, v % 0x10000;
    assert v / 0x1000 == high * 16 + low / 0x1000;
  }

  lemma LowDigit2(v: nat)
    ensures v % 0x10000 / 0x100 % 16 == v / 0x100 % 16
  {
    var high, low := v / 0x10000, v % 0x10000;
    assert v / 0x100 == 16 * (high * 16) + low / 0x100;
    SameRemainder(high * 16, low / 0x100);
  }

  lemma LowDigit1(v: nat)
    ensures v % 0x10000 / 0x10 % 16 == v / 0x10 % 16 && v % 0x10000 % 16 == v % 16
  {
    var high, low := v / 0x10000, v % 0x10000;
    assert v / 0x10 == high * 0x1000 + low / 0x10;
  }

  lemma LowGroup(v: nat)
    ensures Nibbles(v % 0x10000, 4) == [v / 0x1000 % 16, v / 0x100 % 16, v / 0x10 % 16, v % 16]
  {
    LowFour(v % 0x10000, 4);
    assert Nibbles(v % 0x10000 / 0x10000, 0) == [];
    LowDigit3(v);
    LowDigit2(v);
    LowDigit1(v);
  }

  /** The two 4-digit groups of a word are its 8 digits. */
  lemma HalvesOfWord(v: Word)
    ensures Nibbles(v / 0x10000 % 0x10000, 4) + Nibbles(v % 0x10000, 4) == Nibbles(v, 8)
  {
    var high := v / 0x10000;
    assert high % 0x10000 == high;
    LowGroup(v);
    LowFour(v, 8);
  }

  function AllNibbles(g: Guid): (ds: seq<Nibble>)
    ensures |ds| == 32
  {
    Nibbles(g.a, 8) + Nibbles(g.b, 8) + Nibbles(g.c, 8) + Nibbles(g.d, 8)
  }

  lemma DigitsOfFormat(g: Guid)
    ensures Digits(Format(g)) == Some(AllNibbles(g))
  {
    var b1, b0 := Nibbles(g.b / 0x10000 % 0x10000, 4), Nibbles(g.b % 0x10000, 4);
    var c1, c0 := Nibbles(g.c / 0x10000 % 0x10000, 4), Nibbles(g.c % 0x10000, 4);
    HalvesOfWord(g.b);
    HalvesOfWord(g.c);
    DigitsOfGroups(Nibbles(g.a, 8), b1, b0, c1, c0, Nibbles(g.d, 8));
    assert Nibbles(g.a, 8) + b1 + b0 + c1 + c0 + Nibbles(g.d, 8) == AllNibbles(g);
  }

  lemma DigitsOfGroup(x: string, ds: seq<Nibble>)
    requires Digits(x).Some?
    ensures Digits(x + Printed(ds)) == Some(Digits(x).value + ds)
    ensures Digits(x + "-") == Digits(x)
  {
    DigitsOfPrinted(ds);
    DigitsOfSum(x, Printed(ds));
    assert (x + "-")[..|x|] == x;
  }

  lemma DigitsOfGroups(a: seq<Nibble>, b1: seq<Nibble>, b0: seq<Nibble>, c1: seq<Nibble>, c0: seq<Nibble>, d: seq<Nibble>)
    ensures Digits(Printed(a) + "-" + Printed(b1) + "-" + Printed(b0) + "-" + Printed(c1) + "-" + Printed(c0) + Printed(d))
         == Some(a + b1 + b0 + c1 + c0 + d)
  {
    DigitsOfPrinted(a);
    var s0 := Printed(a);
    DigitsOfGroup(s0, []);
    DigitsOfGroup(s0 + "-", b1);
    var s1 := s0 + "-" + Printed(b1);
    DigitsOfGroup(s1, []);
    DigitsOfGroup(s1 + "-", b0);
    var s2 := s1 + "-" + Printed(b0);
    DigitsOfGroup(s2, []);
    DigitsOfGroup(s2 + "-", c1);
    var s3 := s2 + "-" + Printed(c1);
    DigitsOfGroup(s3, []);
    DigitsOfGroup(s3 + "-", c0);
    DigitsOfGroup(s3 + "-" + Printed(c0), d);
  }

  lemma SpelledOfNibbles(g: Guid)
    ensures Spelled(AllNibbles(g)) == g
  {
    NumberOfNibbles(g.a, 8);
    NumberOfNibbles(g.b, 8);
    NumberOfNibbles(g.c, 8);
    NumberOfNibbles(g.d, 8);
    var ds := AllNibbles(g);
    assert ds[..8] == Nibbles(g.a, 8) && ds[8..16] == Nibbles(g.b, 8);
    assert ds[16..24] == Nibbles(g.c, 8) && ds[24..] == Nibbles(g.d, 8);
  }

  lemma NibblesOfSpelled(ds: seq<Nibble>)
    requires |ds| == 32
    ensures AllNibbles(Spelled(ds)) == ds
  {
    NibblesOfNumber(ds[..8]);
    NibblesOfNumber(ds[8..16]);
    NibblesOfNumber(ds[16..24]);
    NibblesOfNumber(ds[24..]);
  }

  /** Reading what was printed gives the id back; only the nil id is refused. */
  lemma ParseOfFormat(g: Guid)
    ensures Parse(Format(g)) == if g == NIL then None else Some(g)
  {
    DigitsOfFormat(g);
    SpelledOfNibbles(g);
  }

  /** Two ids never print alike, so a map keyed by the text is a map keyed by the id. */
  lemma FormatIsInjective(g: Guid, h: Guid)
    requires Format(g) == Format(h)
    ensures g == h
  {
    DigitsOfFormat(g);
    DigitsOfFormat(h);
    SpelledOfNibbles(g);
    SpelledOfNibbles(h);
  }

  function Upper(c: char): char {
    if 'a' <= c <= 'f' then (c as int - 'a' as int + 'A' as int) as char else c
  }

  /** A text without separators, its letters in upper case. */
  function Bare(text: string): string {
    if text == "" then ""
    else
      var c := text[|text| - 1];
      Bare(text[..|text| - 1]) + (if IsSeparator(c) then "" else [Upper(c)])
  }

  lemma UpperOfDigit(c: char)
    requires DigitValue(c).Some?
    ensures HexDigit(DigitValue(c).value) == Upper(c)
  {
  }

  lemma {:induction false} BareIsPrinted(text: string)
    requires Digits(text).Some?
    ensures Bare(text) == Printed(Digits(text).value)
  {
    if text != "" {
      var n := |text| - 1;
      BareIsPrinted(text[..n]);
      var ds := Digits(text[..n]).value;
      if !IsSeparator(text[n]) {
        UpperOfDigit(text[n]);
        assert (ds + [DigitValue(text[n]).value])[..|ds|] == ds;
      }
    }
  }

  /** Printing what was read gives the digits of the text again, in upper case. */
  lemma FormatOfParse(text: string)
    requires Parse(text).Some?
    ensures Bare(Format(Parse(text).value)) == Bare(text)
  {
    var g := Parse(text).value;
    BareIsPrinted(text);
    NibblesOfSpelled(Digits(text).value);
    DigitsOfFormat(g);
    BareIsPrinted(Format(g));
  }
}
