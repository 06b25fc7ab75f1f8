/**
  * Byte strings and substring search. A `string` models a `std::string`: every `char` stands for one byte.
  * `Find` is `std::string::find`; `Split` and `Join` give the meaning of search-and-replace.
  */
module Text {

  datatype Option<+T> = None | Some(value: T)

  /** The text `from` stands at index `i` of `text`. */
  predicate OccursAt(text: string, from: string, i: nat) {
    i + |from| <= |text| && text[i..i + |from|] == from
  }

  /** Index of the leftmost occurrence of `from` at or after `pos`. */
  function Find(text: string, from: string, pos: nat): (at: Option<nat>)
    ensures at.Some? ==> pos <= at.value && OccursAt(text, from, at.value)
    ensures at.Some? ==> forall j: nat :: pos <= j < at.value ==> !OccursAt(text, from, j)
    ensures at.None? ==> forall j: nat :: pos <= j ==> !OccursAt(text, from, j)
    decreases |text| - pos
  {
    if |text| < pos + |from| then None
    else if OccursAt(text, from, pos) then Some(pos)
    else if pos == |text| then None
    else Find(text, from, pos + 1)
  }

  /** The only answer `Find` can give, stated by what it means. */
  lemma FindIs(text: string, from: string, pos: nat, i: nat)
    requires pos <= i && OccursAt(text, from, i)
    requires forall j: nat :: pos <= j < i ==> !OccursAt(text, from, j)
    ensures Find(text, from, pos) == Some(i)
  {
  }

  /** Searching from `pos` is searching the rest of the text. */
  lemma FindInSuffix(text: string, from: string, pos: nat)
    requires pos <= |text|
    ensures Find(text, from, pos).Some? <==> Find(text[pos..], from, 0).Some?
    ensures Find(text, from, pos).Some? ==> Find(text, from, pos).value == pos + Find(text[pos..], from, 0).value
  {
    var rest := text[pos..];
    forall j: nat
      ensures OccursAt(rest, from, j) <==> OccursAt(text, from, pos + j)
    {
    }
    match Find(rest, from, 0)
    case Some(i) =>
      forall j: nat | pos <= j < pos + i
        ensures !OccursAt(text, from, j)
      {
        assert !OccursAt(rest, from, j - pos);
      }
      FindIs(text, from, pos, pos + i);
    case None =>
      forall j: nat | pos <= j
        ensures !OccursAt(text, from, j)
      {
        assert !OccursAt(rest, from, j - pos);
      }
  }

  /** The pieces of `text` between the leftmost, non-overlapping occurrences of `from`. */
  function Split(text: string, from: string): (pieces: seq<string>)
    requires from != ""
    ensures |pieces| > 0
    decreases |text|
  {
    match Find(text, from, 0)
    case None => [text]
    case Some(i) => [text[..i]] + Split(text[i + |from|..], from)
  }

  function Join(pieces: seq<string>, separator: string): string
    requires |pieces| > 0
  {
    if |pieces| == 1 then pieces[0] else pieces[0] + separator + Join(pieces[1..], separator)
  }

  /** `text` with every leftmost occurrence of `from` exchanged for `to`, none of the new text being searched again. */
  function Replaced(text: string, from: string, to: string): string
    requires from != ""
  {
    Join(Split(text, from), to)
  }

  /**
    * `pieces` cut `text` at occurrences of `from`, each of them the leftmost one after the cut before it,
    * and nothing is left to cut.
    */
  ghost predicate CutsLeftmost(text: string, from: string, pieces: seq<string>) {
    && |pieces| > 0
    && Join(pieces, from) == text
    && (forall k :: 0 <= k < |pieces| - 1 ==> Find(pieces[k] + from, from, 0) == Some(|pieces[k]|))
    && Find(pieces[|pieces| - 1], from, 0) == None
  }

  /** The leftmost occurrence does not depend on what follows it. */
  lemma FindIgnoresRest(head: string, from: string, rest: string)
    ensures Find(head + from, from, 0) == Some(|head|) <==> Find(head + from + rest, from, 0) == Some(|head|)
  {
    forall j: nat | j <= |head|
      ensures OccursAt(head + from, from, j) <==> OccursAt(head + from + rest, from, j)
    {
      assert (head + from)[j..j + |from|] == (head + from + rest)[j..j + |from|];
    }
    assert OccursAt(head + from, from, |head|);
    if Find(head + from, from, 0) == Some(|head|) {
      FindIs(head + from + rest, from, 0, |head|);
    }
    if Find(head + from + rest, from, 0) == Some(|head|) {
      FindIs(head + from, from, 0, |head|);
    }
  }

  lemma CutsCons(head: string, from: string, rest: string, pieces: seq<string>)
    requires CutsLeftmost(rest, from, pieces) && Find(head + from, from, 0) == Some(|head|)
    ensures CutsLeftmost(head + from + rest, from, [head] + pieces)
  {
    hide Find, Join;
    var all := [head] + pieces;
    JoinCons(head, pieces, from);
    assert |all| == |pieces| + 1 && all[|all| - 1] == pieces[|pieces| - 1];
    forall k | 0 <= k < |all| - 1
      ensures Find(all[k] + from, from, 0) == Some(|all[k]|)
    {
      if k > 0 {
        assert all[k] == pieces[k - 1];
      }
    }
  }

  lemma {:induction false} SplitCutsLeftmost(text: string, from: string)
    requires from != ""
    ensures CutsLeftmost(text, from, Split(text, from))
    decreases |text|
  {
    hide CutsLeftmost;
    match Find(text, from, 0)
    case None => UncutIsCut(text, from);
    case Some(i) =>
      var head, rest := text[..i], text[i + |from|..];
      SplitCutsLeftmost(rest, from);
      assert text == head + from + rest;
      FindIgnoresRest(head, from, rest);
      CutsCons(head, from, rest, Split(rest, from));
  }

  lemma UncutIsCut(text: string, from: string)
    requires Find(text, from, 0) == None
    ensures CutsLeftmost(text, from, [text])
  {
  }

  /** `Split` is the only way to cut at the leftmost occurrences. */
  lemma {:induction false} LeftmostCutsAreSplit(text: string, from: string, pieces: seq<string>)
    requires from != "" && CutsLeftmost(text, from, pieces)
    ensures pieces == Split(text, from)
    decreases |pieces|
  {
    if |pieces| > 1 {
      var head, tail := pieces[0], pieces[1..];
      var rest := Join(tail, from);
      assert text == head + from + rest;
      FindIgnoresRest(head, from, rest);
      assert text[|head| + |from|..] == rest && text[..|head|] == head;
      LeftmostCutsAreSplit(rest, from, tail);
    }
  }

  /** Nothing starts inside `kept`, so the leftmost occurrence is the one of `rest`. */
  lemma FindSkips(kept: string, rest: string, from: string)
    requires forall j: nat :: j < |kept| ==> !OccursAt(kept + rest, from, j)
    ensures Find(rest, from, 0).None? <==> Find(kept + rest, from, 0).None?
    ensures Find(rest, from, 0).Some? ==> Find(kept + rest, from, 0) == Some(|kept| + Find(rest, from, 0).value)
  {
    var text := kept + rest;
    assert text[|kept|..] == rest;
    FindInSuffix(text, from, |kept|);
    if Find(text, from, |kept|).Some? {
      FindIs(text, from, 0, Find(text, from, |kept|).value);
    }
  }

  lemma Concat3<T>(a: seq<T>, b: seq<T>, c: seq<T>)
    ensures a + (b + c) == a + b + c
  {
  }

  lemma Concat4<T>(a: seq<T>, b: seq<T>, c: seq<T>, d: seq<T>)
    ensures a + b + c + d == a + (b + c + d)
  {
  }

  lemma CutsShift<T>(kept: seq<T>, rest: seq<T>, i: nat, j: nat)
    requires i <= |rest| && j <= |rest|
    ensures (kept + rest)[..|kept| + i] == kept + rest[..i] && (kept + rest)[|kept| + j..] == rest[j..]
  {
  }

  lemma SplitAt(text: string, from: string, i: nat)
    requires from != "" && Find(text, from, 0) == Some(i)
    ensures i + |from| <= |text| && Split(text, from) == [text[..i]] + Split(text[i + |from|..], from)
  {
  }

  lemma JoinCons(piece: string, pieces: seq<string>, separator: string)
    requires pieces != []
    ensures Join([piece] + pieces, separator) == piece + separator + Join(pieces, separator)
  {
    assert ([piece] + pieces)[1..] == pieces;
  }

  /** One replacement step: up to the leftmost occurrence, the new text, and the rest treated alike. */
  lemma ReplacedAt(text: string, from: string, to: string, i: nat)
    requires from != "" && Find(text, from, 0) == Some(i)
    ensures i + |from| <= |text|
    ensures Replaced(text, from, to) == text[..i] + to + Replaced(text[i + |from|..], from, to)
  {
    SplitAt(text, from, i);
    JoinCons(text[..i], Split(text[i + |from|..], from), to);
  }

  /** Behind `kept`, the first piece grows and the others stay. */
  lemma SplitBehind(kept: string, rest: string, from: string, i: nat)
    requires from != "" && Find(rest, from, 0) == Some(i) && Find(kept + rest, from, 0) == Some(|kept| + i)
    ensures i + |from| <= |rest|
    ensures Split(rest, from) == [rest[..i]] + Split(rest[i + |from|..], from)
    ensures Split(kept + rest, from) == [kept + rest[..i]] + Split(rest[i + |from|..], from)
  {
    SplitAt(rest, from, i);
    SplitAt(kept + rest, from, |kept| + i);
    CutsShift(kept, rest, i, i + |from|);
  }

  lemma ReplacedBehind(kept: string, rest: string, from: string, to: string, i: nat)
    requires from != "" && Find(rest, from, 0) == Some(i) && Find(kept + rest, from, 0) == Some(|kept| + i)
    ensures Replaced(kept + rest, from, to) == kept + Replaced(rest, from, to)
  {
    SplitBehind(kept, rest, from, i);
  }

  /** A stretch in which no occurrence starts is kept as it is. */
  lemma ReplacedSkips(kept: string, rest: string, from: string, to: string)
    requires from != ""
    requires forall j: nat :: j < |kept| ==> !OccursAt(kept + rest, from, j)
    ensures Replaced(kept + rest, from, to) == kept + Replaced(rest, from, to)
  {
    FindSkips(kept, rest, from);
    if Find(rest, from, 0).Some? {
      ReplacedBehind(kept, rest, from, to, Find(rest, from, 0).value);
    }
  }

  /** An occurrence at the front is exchanged, and the rest follows. */
  lemma ReplacedTakes(rest: string, from: string, to: string)
    requires from != ""
    ensures Replaced(from + rest, from, to) == to + Replaced(rest, from, to)
  {
    var text := from + rest;
    assert OccursAt(text, from, 0) by {
      assert text[0..|from|] == from;
    }
    FindIs(text, from, 0, 0);
    ReplacedAt(text, from, to, 0);
    assert text[|from|..] == rest && text[..0] == "";
  }

  lemma OccurrenceHas(text: string, from: string, j: nat, k: nat)
    requires k < |from| && OccursAt(text, from, j)
    ensures j + k < |text| && text[j + k] == from[k]
  {
    assert text[j + k] == text[j..j + |from|][k];
  }

  /** A text that lacks one character of `from` has no occurrence of it. */
  lemma ReplacedNothing(text: string, from: string, to: string, k: nat)
    requires k < |from| && from[k] !in text
    ensures Find(text, from, 0) == None && Replaced(text, from, to) == text
  {
    if Find(text, from, 0).Some? {
      OccurrenceHas(text, from, Find(text, from, 0).value, k);
      assert false;
    }
  }

  /** `text` without the characters of the class `drop` at both of its ends. */
  function Trim(text: string, drop: char -> bool): string
    decreases |text|
  {
    if text == "" then ""
    else if drop(text[0]) then Trim(text[1..], drop)
    else if drop(text[|text| - 1]) then Trim(text[..|text| - 1], drop)
    else text
  }

  /** What trimming leaves is the part between two stretches of dropped characters that starts and ends with a kept one. */
  lemma {:induction false} TrimIs(text: string, drop: char -> bool, start: nat, end: nat)
    requires start <= end <= |text|
    requires forall i :: 0 <= i < start ==> drop(text[i])
    requires forall i :: end <= i < |text| ==> drop(text[i])
    requires start < end ==> !drop(text[start]) && !drop(text[end - 1])
    ensures Trim(text, drop) == text[start..end]
    decreases |text|
  {
    if text == "" {
    } else if drop(text[0]) {
      if start > 0 {
        TrimIs(text[1..], drop, start - 1, end - 1);
      } else {
        TrimIs(text[1..], drop, 0, 0);
      }
    } else if drop(text[|text| - 1]) {
      var n := |text| - 1;
      TrimIs(text[..n], drop, start, end);
      assert text[..n][start..end] == text[start..end];
    }
  }

  /** No occurrence starts in a stretch without the first character of `from`. */
  lemma ReplacedSkipsFree(kept: string, rest: string, from: string, to: string)
    requires from != "" && from[0] !in kept
    ensures Replaced(kept + rest, from, to) == kept + Replaced(rest, from, to)
  {
    forall j: nat | j < |kept|
      ensures !OccursAt(kept + rest, from, j)
    {
      NotAt(kept + rest, from, j, 0);
    }
    ReplacedSkips(kept, rest, from, to);
  }

  lemma NotAt(text: string, from: string, j: nat, k: nat)
    requires k < |from| && j + k < |text| && text[j + k] != from[k]
    ensures !OccursAt(text, from, j)
  {
    if OccursAt(text, from, j) {
      OccurrenceHas(text, from, j, k);
      assert false;
    }
  }

  /** The two index loops that end the cleaning functions and the blank collapsing. */
  method TrimEnds(out: string, drop: char -> bool) returns (result: string)
    ensures result == Trim(out, drop)
  {
    var start := 0;
    while start < |out| && drop(out[start])
      invariant start <= |out| && forall i :: 0 <= i < start ==> drop(out[i])
    {
      start := start + 1;
    }
    var end := |out|;
    while end > start && drop(out[end - 1])
      invariant start <= end <= |out| && forall i :: end <= i < |out| ==> drop(out[i])
    {
      end := end - 1;
    }
    result := out[start..end];
    TrimIs(out, drop, start, end);
  }
}
