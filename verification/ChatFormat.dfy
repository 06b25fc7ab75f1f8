/**
  * The chat line template of src/ChatFormat.cpp: in-place search and replace, blank collapsing, and the split of a
  * template into the Sender field and the Message field.
  */
module ChatFormat {
  import opened Text

  /** The text that replacing from `pos` on still has to produce. */
  ghost function Pending(result: string, pos: nat, from: string, to: string): string
    requires from != "" && pos <= |result|
  {
    result[..pos] + Replaced(result[pos..], from, to)
  }

  /** `std::string::replace` of the `width` bytes at `at`. */
  function Splice(text: string, at: nat, width: nat, to: string): string
    requires at + width <= |text|
  {
    text[..at] + to + text[at + width..]
  }

  lemma PendingAfterReplacing(result: string, pos: nat, from: string, to: string, at: nat)
    requires from != "" && pos <= |result| && Find(result, from, pos) == Some(at)
    ensures at + |from| <= |result| && |Splice(result, at, |from|, to)| - (at + |to|) < |result| - pos
    ensures Pending(Splice(result, at, |from|, to), at + |to|, from, to) == Pending(result, pos, from, to)
  {
    var next := Splice(result, at, |from|, to);
    var kept, rest, i := result[..pos], result[pos..], at - pos;
    var last := rest[i + |from|..];
    FindInSuffix(result, from, pos);
    ReplacedAt(rest, from, to, i);
    assert result[..at] == kept + rest[..i] && result[at + |from|..] == last;
    assert next[..at + |to|] == kept + rest[..i] + to && next[at + |to|..] == last;
    Concat4(kept, rest[..i], to, Replaced(last, from, to));
  }

  lemma PendingNothing(result: string, pos: nat, from: string, to: string)
    requires from != "" && pos <= |result| && Find(result, from, pos) == None
    ensures Pending(result, pos, from, to) == result
  {
    FindInSuffix(result, from, pos);
  }

  /** In-place search and replace: the cursor jumps over the new text, so none of it is searched again. */
  method ReplaceAll(text: string, from: string, to: string) returns (result: string)
    ensures from == "" ==> result == text
    ensures from != "" ==> result == Replaced(text, from, to)
  {
    result := text;
    if from == "" {
      return;
    }
    var pos: nat := 0;
    var at := Find(result, from, pos);
    assert text[..0] + Replaced(text[0..], from, to) == Replaced(text, from, to) by {
      assert text[0..] == text;
    }
    while at.Some?
      invariant pos <= |result| && at == Find(result, from, pos)
      invariant Pending(result, pos, from, to) == Replaced(text, from, to)
      decreases |result| - pos
    {
      PendingAfterReplacing(result, pos, from, to, at.value);
      result := Splice(result, at.value, |from|, to);
      pos := at.value + |to|;
      at := Find(result, from, pos);
    }
    PendingNothing(result, pos, from, to);
  }

  predicate IsBlank(c: char) {
    c == ' ' || c == '\t'
  }

  predicate BlankFree(text: string) {
    forall i :: 0 <= i < |text| ==> !IsBlank(text[i])
  }

  ghost predicate AreWords(words: seq<string>) {
    forall i :: 0 <= i < |words| ==> words[i] != "" && BlankFree(words[i])
  }

  predicate EndsBlank(text: string) {
    text != "" && IsBlank(text[|text| - 1])
  }

  /** The maximal blank-free stretches of a text, in order. */
  function Words(text: string): (words: seq<string>)
    ensures AreWords(words)
    ensures text != "" && !EndsBlank(text) ==> words != []
  {
    if text == "" then []
    else WordsAfter(Words(text[..|text| - 1]), text[..|text| - 1], text[|text| - 1])
  }

  /** The words of `before + [c]`, from those of `before`. */
  function WordsAfter(words: seq<string>, before: string, c: char): (more: seq<string>)
    requires AreWords(words) && (before != "" && !EndsBlank(before) ==> words != [])
    ensures AreWords(more)
    ensures !IsBlank(c) ==> more != []
  {
    if IsBlank(c) then words
    else if before == "" || EndsBlank(before) then words + [[c]]
    else words[..|words| - 1] + [words[|words| - 1] + [c]]
  }

  /** The words one space apart. */
  function Spaced(words: seq<string>): string {
    if words == [] then ""
    else if |words| == 1 then words[0]
    else Spaced(words[..|words| - 1]) + " " + words[|words| - 1]
  }

  lemma SpacedSnoc(words: seq<string>, w: string)
    ensures Spaced(words + [w]) == if words == [] then w else Spaced(words) + " " + w
  {
    assert (words + [w])[..|words|] == words;
  }

  /** Growing the last word grows the joined text. */
  lemma SpacedGrows(words: seq<string>, c: char)
    requires words != []
    ensures Spaced(words[..|words| - 1] + [words[|words| - 1] + [c]]) == Spaced(words) + [c]
  {
    var init, last := words[..|words| - 1], words[|words| - 1];
    SpacedSnoc(init, last + [c]);
    Concat3(Spaced(init) + " ", last, [c]);
  }

  lemma {:induction false} SpacedEnds(words: seq<string>)
    requires words != [] && AreWords(words)
    ensures Spaced(words) != ""
    ensures !IsBlank(Spaced(words)[0]) && !IsBlank(Spaced(words)[|Spaced(words)| - 1])
  {
    if |words| > 1 {
      SpacedEnds(words[..|words| - 1]);
    }
  }

  /** What the collapsing loop has written after reading `text`: its words one space apart, and one space at a blank end. */
  ghost function Squeezed(text: string): string {
    if text == "" then ""
    else if Words(text) == [] then " "
    else (if IsBlank(text[0]) then " " else "") + Spaced(Words(text)) + (if EndsBlank(text) then " " else "")
  }

  lemma {:induction false} WordlessIsBlank(text: string)
    requires Words(text) == []
    ensures forall i :: 0 <= i < |text| ==> IsBlank(text[i])
  {
    if text != "" {
      WordlessIsBlank(text[..|text| - 1]);
    }
  }

  lemma WordsStep(text: string, c: char)
    ensures Words(text + [c]) == WordsAfter(Words(text), text, c)
  {
    assert (text + [c])[..|text|] == text;
  }

  /** What the collapsing loop has written after one more character. */
  function Written(out: string, prevSpace: bool, c: char): string {
    if IsBlank(c) then if prevSpace then out else out + " " else out + [c]
  }

  lemma SqueezedFirst(c: char)
    ensures Squeezed([c]) == Written("", false, c)
  {
    WordsStep("", c);
    assert "" + [c] == [c] && Words("") == [];
  }

  lemma SqueezedBlank(text: string, c: char)
    requires text != "" && IsBlank(c)
    ensures Squeezed(text + [c]) == Written(Squeezed(text), EndsBlank(text), c)
  {
    hide Words, Spaced;
    WordsStep(text, c);
  }

  lemma SqueezedNewWord(text: string, c: char)
    requires EndsBlank(text) && !IsBlank(c)
    ensures Squeezed(text + [c]) == Squeezed(text) + [c]
  {
    hide Words, Spaced;
    WordsStep(text, c);
    SpacedSnoc(Words(text), [c]);
    if Words(text) == [] {
      WordlessIsBlank(text);
    }
  }

  lemma SqueezedSameWord(text: string, c: char)
    requires text != "" && !EndsBlank(text) && !IsBlank(c)
    ensures Squeezed(text + [c]) == Squeezed(text) + [c]
  {
    hide Words, Spaced;
    WordsStep(text, c);
    SpacedGrows(Words(text), c);
    Concat3(if IsBlank(text[0]) then " " else "", Spaced(Words(text)), [c]);
  }

  lemma SqueezedNext(text: string, i: nat)
    requires i < |text|
    ensures Squeezed(text[..i + 1]) == Written(Squeezed(text[..i]), EndsBlank(text[..i]), text[i])
    ensures EndsBlank(text[..i + 1]) == IsBlank(text[i])
  {
    var before, c := text[..i], text[i];
    assert text[..i + 1] == before + [c];
    if i == 0 {
      SqueezedFirst(c);
    } else if IsBlank(c) {
      SqueezedBlank(before, c);
    } else if EndsBlank(before) {
      SqueezedNewWord(before, c);
    } else {
      SqueezedSameWord(before, c);
    }
  }

  /** Every stretch of blanks becomes one space, and the ends lose theirs: the words of the text, one space apart. */
  method CollapseSpaces(text: string) returns (result: string)
    ensures result == Spaced(Words(text))
  {
    var out := "";
    var prevSpace := false;
    for i := 0 to |text|
      invariant out == Squeezed(text[..i])
      invariant prevSpace == EndsBlank(text[..i])
    {
      var c := text[i];
      SqueezedNext(text, i);
      if IsBlank(c) {
        if !prevSpace {
          out := out + [' '];
          prevSpace := true;
        }
      } else {
        prevSpace := false;
        out := out + [c];
      }
    }
    assert text[..|text|] == text;
    result := TrimEnds(out, c => c == ' ');
    TrimSqueezed(text);
  }

  lemma TrimSqueezed(text: string)
    ensures Trim(Squeezed(text), c => c == ' ') == Spaced(Words(text))
  {
    var out, words := Squeezed(text), Words(text);
    if words == [] {
      TrimIs(out, c => c == ' ', 0, 0);
    } else {
      SpacedEnds(words);
      var start := if IsBlank(text[0]) then 1 else 0;
      TrimIs(out, c => c == ' ', start, start + |Spaced(words)|);
      assert out[start..start + |Spaced(words)|] == Spaced(words);
    }
  }

  lemma WordGrows(text: string, words: seq<string>, w: string, c: char)
    requires w != "" && BlankFree(w) && !IsBlank(c)
    requires Words(text + w) == words + [w]
    ensures Words(text + (w + [c])) == words + [w + [c]]
  {
    Concat3(text, w, [c]);
    WordsStep(text + w, c);
  }

  /** A blank-free word at the start of a text or behind a blank is one more word. */
  lemma {:induction false} WordsOfWord(text: string, w: string)
    requires text == "" || EndsBlank(text)
    requires w != "" && BlankFree(w)
    ensures Words(text + w) == Words(text) + [w]
  {
    var n := |w| - 1;
    assert w == w[..n] + [w[n]];
    if n == 0 {
      WordsStep(text, w[0]);
    } else {
      WordsOfWord(text, w[..n]);
      WordGrows(text, Words(text), w[..n], w[n]);
    }
  }

  lemma WordsBehindBlank(text: string, w: string)
    requires w != "" && BlankFree(w)
    ensures Words(text + " " + w) == Words(text) + [w]
  {
    WordsStep(text, ' ');
    WordsOfWord(text + " ", w);
  }

  lemma WordsOfOne(w: string)
    requires w != "" && BlankFree(w)
    ensures Words(w) == [w]
  {
    WordsOfWord("", w);
    assert "" + w == w;
  }

  /** Collapsing keeps the words: doing it twice is doing it once. */
  lemma {:induction false} WordsOfSpaced(words: seq<string>)
    requires AreWords(words)
    ensures Words(Spaced(words)) == words
  {
    if |words| == 1 {
      WordsOfOne(words[0]);
    } else if words != [] {
      hide Words;
      var init, last := words[..|words| - 1], words[|words| - 1];
      WordsOfSpaced(init);
      WordsBehindBlank(Spaced(init), last);
      assert words == init + [last];
    }
  }

  // ----- empty brackets

  const PAIR := "[]"
  const BLANK_PAIR := "[ ]"

  /** A text without the pairs "[]", each gone once, then without the "[ ]" that are left, and its blanks collapsed. */
  function Cleaned(text: string): string {
    Spaced(Words(Replaced(Replaced(text, PAIR, ""), BLANK_PAIR, "")))
  }

  lemma ReplacedStep(text: string, from: string, to: string)
    requires text != "" && from != ""
    ensures Replaced(text, from, to) ==
            if OccursAt(text, from, 0) then to + Replaced(text[|from|..], from, to)
            else [text[0]] + Replaced(text[1..], from, to)
  {
    if OccursAt(text, from, 0) {
      assert text == from + text[|from|..];
      ReplacedTakes(text[|from|..], from, to);
    } else {
      assert text == [text[0]] + text[1..];
      ReplacedSkips([text[0]], text[1..], from, to);
    }
  }

  /** A pair next to a blank on one side; its removal leaves the blank. */
  predicate IsBlankedPair(from: string) {
    from == " []" || from == "[] "
  }

  /** Such a removal puts no closing bracket in front. */
  lemma FrontStaysOpen(text: string, from: string)
    requires IsBlankedPair(from) && (text == "" || text[0] != ']')
    ensures var rest := Replaced(text, from, " "); rest == "" || rest[0] != ']'
  {
    if text == "" {
      ReplacedNothing(text, from, " ", 0);
    } else {
      ReplacedStep(text, from, " ");
    }
  }

  lemma StartsWithPair(text: string)
    requires 1 < |text| && text[0] == '[' && text[1] == ']'
    ensures text == PAIR + text[2..]
  {
  }

  /** Removing a pair next to a blank neither makes new pairs nor takes anything but a pair. */
  lemma {:induction false} BlankedPairsAreSpared(text: string, from: string)
    requires IsBlankedPair(from)
    ensures Replaced(Replaced(text, from, " "), PAIR, "") == Replaced(text, PAIR, "")
    decreases |text|
  {
    if text == "" {
      ReplacedNothing("", from, " ", 0);
    } else if OccursAt(text, from, 0) {
      BlankedPairTaken(text, from);
    } else if 1 < |text| && text[0] == '[' && text[1] == ']' {
      PairKept(text, from);
    } else {
      var rest := text[1..];
      ReplacedStep(text, from, " ");
      if text[0] == '[' {
        FrontStaysOpen(rest, from);
      }
      BlankedPairsAreSpared(rest, from);
      OpenStep(text[0], Replaced(rest, from, " "));
      OpenStep(text[0], rest);
      assert text == [text[0]] + rest;
    }
  }

  /** No pair starts at a character that no closing bracket follows. */
  lemma OpenStep(c: char, rest: string)
    requires c == '[' ==> rest == "" || rest[0] != ']'
    ensures Replaced([c] + rest, PAIR, "") == [c] + Replaced(rest, PAIR, "")
  {
    var text := [c] + rest;
    PairAt(text, 0);
    ReplacedStep(text, PAIR, "");
    assert text[1..] == rest;
  }

  /** A pair behind or in front of a blank. */
  lemma PairByBlank(rest: string)
    ensures Replaced(" " + (PAIR + rest), PAIR, "") == " " + Replaced(rest, PAIR, "")
    ensures Replaced(PAIR + (" " + rest), PAIR, "") == " " + Replaced(rest, PAIR, "")
  {
    OpenStep(' ', PAIR + rest);
    OpenStep(' ', rest);
    ReplacedTakes(rest, PAIR, "");
    ReplacedTakes(" " + rest, PAIR, "");
  }

  lemma BlankedPairTaken(text: string, from: string)
    requires IsBlankedPair(from) && OccursAt(text, from, 0)
    ensures Replaced(Replaced(text, from, " "), PAIR, "") == Replaced(text, PAIR, "")
    decreases |text|, 0
  {
    var rest := text[3..];
    assert text == from + rest;
    ReplacedTakes(rest, from, " ");
    BlankedPairsAreSpared(rest, from);
    OpenStep(' ', Replaced(rest, from, " "));
    PairByBlank(rest);
    BlankedPairParts(rest);
  }

  lemma BlankedPairParts(rest: string)
    ensures " []" + rest == " " + (PAIR + rest) && "[] " + rest == PAIR + (" " + rest)
  {
  }

  lemma PairKept(text: string, from: string)
    requires IsBlankedPair(from) && !OccursAt(text, from, 0) && 1 < |text| && text[0] == '[' && text[1] == ']'
    ensures Replaced(Replaced(text, from, " "), PAIR, "") == Replaced(text, PAIR, "")
    decreases |text|, 0
  {
    hide Replaced;
    var rest := text[2..];
    StartsWithPair(text);
    ReplacedStep(text, from, " ");
    assert text[1..][0] != from[0] && text[1..][1..] == rest;
    NotAt(text[1..], from, 0, 0);
    ReplacedStep(text[1..], from, " ");
    assert Replaced(text, from, " ") == PAIR + Replaced(rest, from, " ");
    BlankedPairsAreSpared(rest, from);
    ReplacedTakes(Replaced(rest, from, " "), PAIR, "");
    ReplacedTakes(rest, PAIR, "");
  }

  /** Of the four passes, the first two do nothing that the third does not do anyway. */
  lemma PassesAreTwoDeletions(text: string)
    ensures Replaced(Replaced(Replaced(Replaced(text, " []", " "), "[] ", " "), PAIR, ""), BLANK_PAIR, "")
         == Replaced(Replaced(text, PAIR, ""), BLANK_PAIR, "")
  {
    BlankedPairsAreSpared(Replaced(text, " []", " "), "[] ");
    BlankedPairsAreSpared(text, " []");
  }

  method CleanupEmptyGuildBrackets(text: string) returns (result: string)
    ensures result == Cleaned(text)
  {
    result := ReplaceAll(text, " []", " ");
    result := ReplaceAll(result, "[] ", " ");
    result := ReplaceAll(result, "[]", "");
    result := ReplaceAll(result, "[ ]", "");
    PassesAreTwoDeletions(text);
    result := CollapseSpaces(result);
  }

  /** No blank at the ends, none next to another, and no tab. */
  ghost predicate Tidy(text: string) {
    && (text != "" ==> !IsBlank(text[0]) && !IsBlank(text[|text| - 1]))
    && (forall i :: 0 <= i < |text| - 1 ==> !(IsBlank(text[i]) && IsBlank(text[i + 1])))
    && '\t' !in text
  }

  lemma TidyWord(text: string, word: string)
    requires Tidy(text) && text != "" && word != "" && BlankFree(word)
    ensures Tidy(text + " " + word)
  {
    var more := text + " " + word;
    forall i | 0 <= i < |more|
      ensures more[i] == if i < |text| then text[i] else if i == |text| then ' ' else word[i - |text| - 1]
    {
    }
  }

  lemma {:induction false} SpacedIsTidy(words: seq<string>)
    requires AreWords(words)
    ensures Tidy(Spaced(words)) && (words != [] ==> Spaced(words) != "")
  {
    if |words| > 1 {
      SpacedIsTidy(words[..|words| - 1]);
      TidyWord(Spaced(words[..|words| - 1]), words[|words| - 1]);
    }
  }

  lemma TidyIsWritten(text: string, n: nat)
    requires Tidy(text) && n < |text|
    ensures Written(text[..n], EndsBlank(text[..n]), text[n]) == text[..n + 1]
  {
    assert text[..n + 1] == text[..n] + [text[n]];
    if n > 0 && IsBlank(text[n]) {
      assert text[..n][n - 1] == text[n - 1];
      assert !IsBlank(text[n - 1]) && text[n] != '\t';
    }
  }

  lemma TidyStep(text: string, n: nat)
    requires Tidy(text) && n < |text| && Squeezed(text[..n]) == text[..n]
    ensures Squeezed(text[..n + 1]) == text[..n + 1]
  {
    hide Squeezed, Written, Tidy, EndsBlank;
    SqueezedNext(text, n);
    TidyIsWritten(text, n);
  }

  lemma NothingSqueezed(text: string)
    ensures Squeezed(text[..0]) == text[..0]
  {
  }

  lemma {:induction false} TidyIsSqueezed(text: string, i: nat)
    requires Tidy(text) && i <= |text|
    ensures Squeezed(text[..i]) == text[..i]
    decreases i
  {
    hide Squeezed, Tidy;
    if i == 0 {
      NothingSqueezed(text);
    } else {
      TidyIsSqueezed(text, i - 1);
      TidyStep(text, i - 1);
    }
  }

  /** Collapsing leaves a tidy text alone. */
  lemma TidyStays(text: string)
    requires Tidy(text)
    ensures Spaced(Words(text)) == text
  {
    TidyIsSqueezed(text, |text|);
    assert text[..|text|] == text;
    assert "" + Spaced(Words(text)) + "" == Spaced(Words(text));
  }

  /** The words of two texts with a blank between them are those of both. */
  lemma {:induction false} WordsJoin(a: string, b: string)
    ensures Words(a + " " + b) == Words(a) + Words(b)
    decreases |b|
  {
    if b == "" {
      assert a + " " + b == a + [' '];
      WordsStep(a, ' ');
    } else {
      var init, c := b[..|b| - 1], b[|b| - 1];
      WordsJoin(a, init);
      assert b == init + [c];
      Concat3(a + " ", init, [c]);
      WordsStep(a + " " + init, c);
      WordsStep(init, c);
      GrowBehind(Words(a), Words(init), a + " " + init, init, c);
    }
  }

  lemma GrowBehind(front: seq<string>, words: seq<string>, before: string, init: string, c: char)
    requires AreWords(front) && AreWords(words) && (init != "" && !EndsBlank(init) ==> words != [])
    requires before != "" && (EndsBlank(before) <==> init == "" || EndsBlank(init))
    ensures WordsAfter(front + words, before, c) == front + WordsAfter(words, init, c)
  {
    if !IsBlank(c) && init != "" && !EndsBlank(init) {
      assert (front + words)[..|front + words| - 1] == front + words[..|words| - 1];
    }
  }

  lemma CleanedIsTidy(text: string)
    ensures Tidy(Cleaned(text))
  {
    SpacedIsTidy(Words(Replaced(Replaced(text, PAIR, ""), BLANK_PAIR, "")));
  }

  ghost predicate HasPair(text: string) {
    exists i: nat :: OccursAt(text, PAIR, i)
  }

  lemma PairAt(text: string, i: nat)
    ensures OccursAt(text, PAIR, i) <==> i + 1 < |text| && text[i] == '[' && text[i + 1] == ']'
  {
    if i + 1 < |text| {
      assert text[i..i + 2] == [text[i], text[i + 1]];
    }
  }

  lemma PairSnoc(text: string, c: char)
    ensures HasPair(text + [c]) <==> HasPair(text) || (text != "" && text[|text| - 1] == '[' && c == ']')
  {
    var more := text + [c];
    forall i: nat
      ensures OccursAt(more, PAIR, i) <==> OccursAt(text, PAIR, i) || (i + 1 == |text| && text[i] == '[' && c == ']')
    {
      PairAt(more, i);
      PairAt(text, i);
    }
    if text != "" {
      assert OccursAt(more, PAIR, |text| - 1) <==> OccursAt(text, PAIR, |text| - 1) || (text[|text| - 1] == '[' && c == ']');
    }
  }

  lemma PairCons(c: char, text: string)
    ensures HasPair([c] + text) <==> HasPair(text) || (c == '[' && text != "" && text[0] == ']')
  {
    var more := [c] + text;
    forall i: nat
      ensures OccursAt(more, PAIR, i + 1) <==> OccursAt(text, PAIR, i)
    {
      PairAt(more, i + 1);
      PairAt(text, i);
    }
    PairAt(more, 0);
    if HasPair(more) {
      var i: nat :| OccursAt(more, PAIR, i);
      assert i > 0 ==> OccursAt(text, PAIR, i - 1);
    }
  }

  lemma NoPairInNothing()
    ensures !HasPair("")
  {
  }

  /** The text and its collapsed form have pairs both or neither, and end alike unless in a blank. */
  ghost predicate PairsAgree(text: string) {
    var out := Spaced(Words(text));
    && (HasPair(out) <==> HasPair(text))
    && (text != "" && !EndsBlank(text) ==> out != "" && out[|out| - 1] == text[|text| - 1])
  }

  lemma PairsAgreeAtBlank(text: string, c: char)
    requires PairsAgree(text) && IsBlank(c)
    ensures PairsAgree(text + [c])
  {
    hide HasPair, Spaced;
    WordsStep(text, c);
    PairSnoc(text, c);
  }

  lemma PairsAgreeAtWord(text: string, c: char)
    requires PairsAgree(text) && !IsBlank(c) && (text == "" || EndsBlank(text))
    ensures PairsAgree(text + [c])
  {
    hide HasPair, Spaced;
    var out := Spaced(Words(text));
    WordsStep(text, c);
    PairSnoc(text, c);
    SpacedSnoc(Words(text), [c]);
    PairSnoc(out, ' ');
    PairSnoc(out + " ", c);
    SingleHasNoPair(text, c);
  }

  lemma SingleHasNoPair(text: string, c: char)
    ensures !HasPair([c]) && (Words(text) == [] ==> !HasPair(Spaced(Words(text))))
  {
    NoPairInNothing();
    PairSnoc("", c);
    assert "" + [c] == [c];
  }

  lemma PairsAgreeInWord(text: string, c: char)
    requires PairsAgree(text) && !IsBlank(c) && text != "" && !EndsBlank(text)
    ensures PairsAgree(text + [c])
  {
    hide HasPair, Spaced;
    WordsStep(text, c);
    PairSnoc(text, c);
    SpacedGrows(Words(text), c);
    PairSnoc(Spaced(Words(text)), c);
  }

  /** Collapsing blanks makes and breaks no pair. */
  lemma {:induction false} SpacedKeepsPairs(text: string)
    ensures PairsAgree(text)
  {
    if text == "" {
      NoPairInNothing();
    } else {
      var before, c := text[..|text| - 1], text[|text| - 1];
      assert text == before + [c];
      SpacedKeepsPairs(before);
      if IsBlank(c) {
        PairsAgreeAtBlank(before, c);
      } else if before == "" || EndsBlank(before) {
        PairsAgreeAtWord(before, c);
      } else {
        PairsAgreeInWord(before, c);
      }
    }
  }

  /** After any number of "[ ]" comes a closing bracket. */
  predicate Closes(text: string) {
    if |text| >= 3 && text[..3] == BLANK_PAIR then Closes(text[3..]) else text != "" && text[0] == ']'
  }

  /** The opening bracket that will meet a closing one. */
  ghost predicate WillMeet(text: string) {
    exists i: nat :: i < |text| && text[i] == '[' && Closes(text[i + 1..])
  }

  lemma MeetsCons(c: char, text: string)
    ensures WillMeet([c] + text) <==> WillMeet(text) || (c == '[' && Closes(text))
  {
    var more := [c] + text;
    assert more[0 + 1..] == text;
    forall i: nat | i < |text|
      ensures more[i + 1 + 1..] == text[i + 1..] && more[i + 1] == text[i]
    {
    }
    if WillMeet(more) {
      var i: nat :| i < |more| && more[i] == '[' && Closes(more[i + 1..]);
      assert i > 0 ==> text[i - 1] == '[' && Closes(text[i - 1 + 1..]);
    }
    if WillMeet(text) {
      var i: nat :| i < |text| && text[i] == '[' && Closes(text[i + 1..]);
      assert more[i + 1] == '[' && Closes(more[i + 1 + 1..]);
    }
  }

  lemma BlankPairMeetsNothing(rest: string)
    ensures WillMeet(BLANK_PAIR + rest) <==> WillMeet(rest)
  {
    hide WillMeet;
    var one, two := [']'] + rest, [' '] + ([']'] + rest);
    MeetsCons(']', rest);
    MeetsCons(' ', one);
    MeetsCons('[', two);
    assert |two| >= 3 ==> two[..3][0] == ' ';
    assert BLANK_PAIR + rest == ['['] + two;
  }

  lemma {:induction false} FrontCloses(text: string)
    ensures var rest := Replaced(text, BLANK_PAIR, ""); Closes(text) <==> rest != "" && rest[0] == ']'
    decreases |text|
  {
    if text == "" {
      ReplacedNothing("", BLANK_PAIR, "", 0);
    } else {
      ReplacedStep(text, BLANK_PAIR, "");
      if OccursAt(text, BLANK_PAIR, 0) {
        FrontCloses(text[3..]);
      }
    }
  }

  lemma {:induction false} MeetingPairs(text: string)
    ensures HasPair(Replaced(text, BLANK_PAIR, "")) <==> WillMeet(text)
    decreases |text|
  {
    if text == "" {
      ReplacedNothing("", BLANK_PAIR, "", 0);
    } else if OccursAt(text, BLANK_PAIR, 0) {
      var rest := text[3..];
      assert text == BLANK_PAIR + rest;
      ReplacedTakes(rest, BLANK_PAIR, "");
      MeetingPairs(rest);
      BlankPairMeetsNothing(rest);
      assert "" + Replaced(rest, BLANK_PAIR, "") == Replaced(rest, BLANK_PAIR, "");
    } else {
      var rest := text[1..];
      ReplacedStep(text, BLANK_PAIR, "");
      MeetingPairs(rest);
      FrontCloses(rest);
      MeetsCons(text[0], rest);
      PairCons(text[0], Replaced(rest, BLANK_PAIR, ""));
      assert text == [text[0]] + rest;
    }
  }

  /**
    * "[]" is left in the end exactly if, once the pairs are gone, an opening bracket is followed by a closing one with
    * nothing but "[ ]" between them.
    */
  lemma BracketsSurviveIff(text: string)
    ensures HasPair(Cleaned(text)) <==> WillMeet(Replaced(text, PAIR, ""))
  {
    MeetingPairs(Replaced(text, PAIR, ""));
    SpacedKeepsPairs(Replaced(Replaced(text, PAIR, ""), BLANK_PAIR, ""));
  }

  const PREFIX := "{prefix}"
  const GUILD := "{guild}"
  const PLAYER := "{player}"
  const MESSAGE := "{message}"

  predicate EndsWith(text: string, tail: string) {
    |tail| <= |text| && text[|text| - |tail|..] == tail
  }

  /** The colon that ends the sender part of a template belongs to the client's own `]:`. */
  function DropColon(part: string): string {
    if EndsWith(part, ": ") then part[..|part| - 2]
    else if EndsWith(part, ":") then part[..|part| - 1]
    else part
  }

  /** The part of a template that makes the Sender field. */
  function SenderPart(format: string): string {
    match Find(format, MESSAGE, 0)
    case None => format
    case Some(i) => DropColon(format[..i])
  }

  /** The Message field: the message, after one space when the template has one between the colon and the message. */
  function MessageField(format: string, message: string): (text: string)
    ensures text == message || text == " " + message
  {
    match Find(format, MESSAGE, 0)
    case None => message
    case Some(i) =>
      if EndsWith(format[..i], ": ") && message != "" && message[0] != ' ' then " " + message else message
  }

  /**
    * The message comes behind a space exactly if a colon and a blank stand in front of the first `{message}`, and it does
    * not begin with a space of its own.
    */
  lemma MessageBehindColon(head: string, tail: string, message: string)
    requires Find(head + "{message}", "{message}", 0) == Some(|head|)
    ensures var text := MessageField(head + "{message}" + tail, message);
            && (EndsWith(head, ": ") && message != "" && message[0] != ' ' ==> text == " " + message)
            && (!EndsWith(head, ": ") || message == "" || message[0] == ' ' ==> text == message)
  {
    hide Find;
    FindIgnoresRest(head, MESSAGE, tail);
    assert (head + MESSAGE + tail)[..|head|] == head;
  }

  function Substituted(part: string, prefix: string, guild: string, player: string): string {
    Replaced(Replaced(Replaced(part, PREFIX, prefix), GUILD, guild), PLAYER, player)
  }

  /** The game puts a '[' in front; an empty Sender falls back to the player. */
  function Finished(part: string, player: string): (sender: string)
    ensures sender != ""
  {
    var rest := if part != "" && part[0] == '[' then part[1..] else part;
    if rest != "" then rest else if player == "" then "Unknown" else player
  }

  /** The Sender field without a template. */
  function PlainSender(prefix: string, player: string): (sender: string)
    ensures sender != ""
  {
    var both := (if prefix == "" then "" else if player == "" then prefix else prefix + " ") + player;
    if both == "" then "Unknown" else both
  }

  function SenderField(format: string, prefix: string, guild: string, player: string): (sender: string)
    ensures sender != ""
  {
    if format == "" then PlainSender(prefix, player)
    else Finished(Cleaned(Substituted(SenderPart(format), prefix, guild, player)), player)
  }

  /** The split at `{message}`, made before anything is substituted. */
  method SplitTemplate(format: string, message: string) returns (part: string, text: string)
    ensures part == SenderPart(format) && text == MessageField(format, message)
  {
    part, text := format, message;
    var at := Find(format, MESSAGE, 0);
    if at.Some? {
      part := format[..at.value];
      if EndsWith(part, ": ") {
        part := part[..|part| - 2];
        if text != "" && text[0] != ' ' {
          text := " " + text;
        }
      } else if EndsWith(part, ":") {
        part := part[..|part| - 1];
      }
    }
  }

  method FinishSender(part: string, player: string) returns (sender: string)
    ensures sender == Finished(part, player)
  {
    sender := part;
    if sender != "" && sender[0] == '[' {
      sender := sender[1..];
    }
    if sender == "" {
      sender := if player == "" then "Unknown" else player;
    }
  }

  method FormatWithoutTemplate(prefix: string, player: string) returns (sender: string)
    ensures sender == PlainSender(prefix, player)
  {
    sender := "";
    if prefix != "" {
      sender := prefix;
      if player != "" {
        sender := sender + " ";
      }
    }
    sender := sender + player;
    if sender == "" {
      sender := "Unknown";
    }
  }

  /**
    * Sender and Message fields of one line. The Sender field is a function of everything but the message, so two
    * messages never change it; the Message field is the message or one space and the message.
    */
  method ApplyChatFormat(format: string, prefix: string, guild: string, player: string, message: string)
    returns (sender: string, text: string)
    ensures sender == SenderField(format, prefix, guild, player) && sender != ""
    ensures text == MessageField(format, message)
    ensures text == message || text == " " + message
    ensures format == "" && prefix != "" && player != "" ==> sender == prefix + " " + player
    ensures format == "" && prefix == "" && player != "" ==> sender == player
    ensures format == "" && prefix != "" && player == "" ==> sender == prefix
    ensures format == "" && prefix == "" && player == "" ==> sender == "Unknown"
  {
    if format == "" {
      sender := FormatWithoutTemplate(prefix, player);
      text := message;
      NoPlaceholderInNothing();
      return;
    }
    var part;
    part, text := SplitTemplate(format, message);
    part := ReplaceAll(part, PREFIX, prefix);
    part := ReplaceAll(part, GUILD, guild);
    part := ReplaceAll(part, PLAYER, player);
    part := CleanupEmptyGuildBrackets(part);
    sender := FinishSender(part, player);
    if text == "" {
      text := message;
    }
  }

  lemma NoPlaceholderInNothing()
    ensures Find("", MESSAGE, 0) == None
  {
    ReplacedNothing("", MESSAGE, "", 0);
  }

  /** The line Xbox clients get: the bare name and the message. */
  function ApplyChatFormatAttributed(player: string, message: string): (line: (string, string))
    ensures line.0 != "" && line.1 == message
    ensures player != "" ==> line.0 == player
  {
    (if player == "" then "Unknown" else player, message)
  }
}
