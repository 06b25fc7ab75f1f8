/**
  * What a chat template means. A template written with placeholders and brace-free literals is a list of tokens;
  * the three search-and-replace passes of `ApplyChatFormat` fill all tokens at once, and no value that is put in
  * makes or breaks a placeholder that a later pass looks for.
  */
module ChatTemplates {
  import opened Text
  import opened ChatFormat

  datatype Token = Lit(text: string) | Prefix | Guild | Player | Message

  function Shown(token: Token): string {
    match token
    case Lit(text) => text
    case Prefix => PREFIX
    case Guild => GUILD
    case Player => PLAYER
    case Message => MESSAGE
  }

  /** The template as the operator writes it. */
  function Show(tokens: seq<Token>): string {
    if tokens == [] then "" else Shown(tokens[0]) + Show(tokens[1..])
  }

  predicate BraceFree(text: string) {
    '{' !in text && '}' !in text
  }

  predicate Plain(tokens: seq<Token>) {
    forall i :: 0 <= i < |tokens| ==> tokens[i].Lit? ==> BraceFree(tokens[i].text)
  }

  /** All tokens filled at once; `{message}` is left alone. */
  function Fill(tokens: seq<Token>, prefix: string, guild: string, player: string): string {
    if tokens == [] then ""
    else
      (match tokens[0]
       case Prefix => prefix
       case Guild => guild
       case Player => player
       case _ => Shown(tokens[0])) + Fill(tokens[1..], prefix, guild, player)
  }

  function Put(tokens: seq<Token>, x: Token, value: string): seq<Token> {
    if tokens == [] then []
    else [if tokens[0] == x then Lit(value) else tokens[0]] + Put(tokens[1..], x, value)
  }

  /** No occurrence of placeholder `x` starts inside a brace-free literal or another placeholder. */
  lemma NoneInside(token: Token, rest: string, x: Token, j: nat)
    requires !x.Lit? && token != x
    requires token.Lit? ==> BraceFree(token.text)
    requires j < |Shown(token)|
    ensures !OccursAt(Shown(token) + rest, Shown(x), j)
  {
    var text := Shown(token) + rest;
    assert text[j] == Shown(token)[j];
    if OccursAt(text, Shown(x), j) {
      OccurrenceHas(text, Shown(x), j, 0);
      OccurrenceHas(text, Shown(x), j, 1);
      OccurrenceHas(text, Shown(x), j, 2);
      assert false;
    }
  }

  /** One search-and-replace pass fills one kind of token, whatever the value. */
  lemma {:induction false} PassFills(tokens: seq<Token>, x: Token, value: string)
    requires Plain(tokens) && !x.Lit?
    ensures Replaced(Show(tokens), Shown(x), value) == Show(Put(tokens, x, value))
  {
    if tokens == [] {
      ReplacedNothing("", Shown(x), value, 0);
    } else {
      var rest := Show(tokens[1..]);
      PassFills(tokens[1..], x, value);
      if tokens[0] == x {
        ReplacedTakes(rest, Shown(x), value);
      } else {
        forall j: nat | j < |Shown(tokens[0])|
          ensures !OccursAt(Shown(tokens[0]) + rest, Shown(x), j)
        {
          NoneInside(tokens[0], rest, x, j);
        }
        ReplacedSkips(Shown(tokens[0]), rest, Shown(x), value);
      }
    }
  }

  lemma {:induction false} PutKeepsPlain(tokens: seq<Token>, x: Token, value: string)
    requires Plain(tokens) && BraceFree(value)
    ensures Plain(Put(tokens, x, value))
  {
    if tokens != [] {
      PutKeepsPlain(tokens[1..], x, value);
    }
  }

  lemma {:induction false} PutAllIsFill(tokens: seq<Token>, prefix: string, guild: string, player: string)
    ensures Show(Put(Put(Put(tokens, Prefix, prefix), Guild, guild), Player, player)) == Fill(tokens, prefix, guild, player)
  {
    if tokens != [] {
      PutAllIsFill(tokens[1..], prefix, guild, player);
      var one := Put(tokens, Prefix, prefix);
      var two := Put(one, Guild, guild);
      var three := Put(two, Player, player);
      assert one[1..] == Put(tokens[1..], Prefix, prefix);
      assert two[1..] == Put(one[1..], Guild, guild);
      assert three[1..] == Put(two[1..], Player, player);
    }
  }

  /**
    * The three passes, one after the other, are one simultaneous substitution: for every plain template, every
    * brace-free prefix and guild, and every player text.
    */
  lemma SequentialIsSimultaneous(tokens: seq<Token>, prefix: string, guild: string, player: string)
    requires Plain(tokens) && BraceFree(prefix) && BraceFree(guild)
    ensures Substituted(Show(tokens), prefix, guild, player) == Fill(tokens, prefix, guild, player)
  {
    var one := Put(tokens, Prefix, prefix);
    PassFills(tokens, Prefix, prefix);
    PutKeepsPlain(tokens, Prefix, prefix);
    PassFills(one, Guild, guild);
    PutKeepsPlain(one, Guild, guild);
    PassFills(Put(one, Guild, guild), Player, player);
    PutAllIsFill(tokens, prefix, guild, player);
  }

  /** A brace in the prefix can make a placeholder: the passes are then not one substitution. */
  lemma BracesInPrefixMatter()
    ensures Substituted(Show([Prefix]), "{player}", "", "Bob") == "Bob"
    ensures Fill([Prefix], "{player}", "", "Bob") == "{player}"
  {
    var lits := [Lit("{player}")];
    PassFills([Prefix], Prefix, "{player}");
    assert Show([Prefix]) == "{prefix}" && Show(Put([Prefix], Prefix, "{player}")) == "{player}";
    ReplacedNothing("{player}", GUILD, "", 2);
    ReplacedTakes("", PLAYER, "Bob");
    assert PLAYER + "" == "{player}";
    ReplacedNothing("", PLAYER, "Bob", 0);
    assert "Bob" + "" == "Bob";
  }

  // ----- values with braces

  /** However it is repeated around brace-free text, the value makes no placeholder `x`. */
  ghost predicate Harmless(value: string, x: Token) {
    forall m :: BraceFree(m) ==> Find(value + m + value, Shown(x), 0) == None
  }

  /** The template with `value` in place of the tokens `s`. */
  function ShowWith(tokens: seq<Token>, s: Token, value: string): string {
    if tokens == [] then ""
    else (if tokens[0] == s then value else Shown(tokens[0])) + ShowWith(tokens[1..], s, value)
  }

  lemma {:induction false} ShowPut(tokens: seq<Token>, s: Token, value: string)
    ensures Show(Put(tokens, s, value)) == ShowWith(tokens, s, value)
  {
    if tokens != [] {
      ShowPut(tokens[1..], s, value);
      assert Put(tokens, s, value)[1..] == Put(tokens[1..], s, value);
    }
  }

  /** A rest of a placeholder: no opening brace, and a closing one only at the end. */
  predicate IsTail(y: string) {
    y != "" && '{' !in y && y[|y| - 1] == '}'
  }

  lemma ValueEndsIt(value: string, rest: string, y: string)
    requires '{' in value && '{' !in y && y <= value + rest
    ensures y <= value
  {
    var text := value + rest;
    assert y == text[..|y|];
    assert forall k :: 0 <= k < |y| ==> text[k] == y[k];
    var i :| 0 <= i < |value| && value[i] == '{';
    assert text[i] == '{';
  }

  lemma LiteralIsInside(token: Token, rest: string, y: string)
    requires (token.Lit? ==> BraceFree(token.text)) && IsTail(y) && y <= Shown(token) + rest
    ensures token.Lit? && |token.text| < |y| && IsTail(y[|token.text|..])
    ensures y == token.text + y[|token.text|..] && y[|token.text|..] <= rest
  {
    var text, n := Shown(token) + rest, |y| - 1;
    assert y[0] == text[0] && y[n] == text[n] && y == text[..|y|];
    PlaceholderStarts(token);
  }

  lemma PlaceholderStarts(token: Token)
    ensures !token.Lit? ==> Shown(token) != "" && Shown(token)[0] == '{'
  {
  }

  /** If such a rest stands at the front of a template, it runs through literals and ends in the value. */
  lemma {:induction false} TailRunsIntoValue(tokens: seq<Token>, s: Token, value: string, y: string) returns (m: string)
    requires Plain(tokens) && !s.Lit? && '{' in value && IsTail(y) && y <= ShowWith(tokens, s, value)
    ensures BraceFree(m) && y <= m + value
  {
    var rest := ShowWith(tokens[1..], s, value);
    if tokens[0] == s {
      m := "";
      ValueEndsIt(value, rest, y);
      assert m + value == value;
    } else {
      LiteralIsInside(tokens[0], rest, y);
      var text := tokens[0].text;
      var more := TailRunsIntoValue(tokens[1..], s, value, y[|text|..]);
      m := text + more;
      Concat3(text, more, value);
    }
  }

  lemma TailOf(x: Token, n: nat)
    requires !x.Lit? && 0 < n < |Shown(x)|
    ensures IsTail(Shown(x)[n..])
  {
  }

  /** So no placeholder starts in a harmless value. */
  lemma NoneInValue(tokens: seq<Token>, s: Token, value: string, x: Token, j: nat)
    requires Plain(tokens) && !s.Lit? && !x.Lit? && Harmless(value, x) && j < |value|
    ensures !OccursAt(value + ShowWith(tokens, s, value), Shown(x), j)
  {
    var from, rest := Shown(x), ShowWith(tokens, s, value);
    if OccursAt(value + rest, from, j) {
      OccurrenceHas(value + rest, from, j, 0);
      var m := "";
      if j + |from| > |value| {
        var n := |value| - j;
        TailOf(x, n);
        OccurrenceSplits(value, rest, from, j);
        m := TailRunsIntoValue(tokens, s, value, from[n..]);
      }
      assert Find(value + m + value, from, 0) == None;
      Concat3(value, m, value);
      OccurrenceMoves(value, rest, m + value, from, j);
      assert false;
    }
  }

  lemma OccurrenceSplits(value: string, rest: string, from: string, j: nat)
    requires OccursAt(value + rest, from, j) && j < |value| < j + |from|
    ensures value[j..] == from[..|value| - j] && from[|value| - j..] <= rest
  {
    assert (value + rest)[j..j + |from|] == value[j..] + rest[..j + |from| - |value|];
  }

  /** What follows an occurrence may change. */
  lemma OccurrenceMoves(value: string, rest: string, other: string, from: string, j: nat)
    requires OccursAt(value + rest, from, j) && j < |value|
    requires j + |from| > |value| ==> from[|value| - j..] <= other
    ensures OccursAt(value + other, from, j)
  {
    if j + |from| > |value| {
      OccurrenceSplits(value, rest, from, j);
      assert (value + other)[j..j + |from|] == value[j..] + other[..j + |from| - |value|];
    } else {
      assert (value + other)[j..j + |from|] == value[j..j + |from|] == (value + rest)[j..j + |from|];
    }
  }

  /** A pass fills its tokens and nothing else, with a harmless value in place of some others. */
  lemma {:induction false} PassFillsWith(tokens: seq<Token>, s: Token, value: string, x: Token, put: string)
    requires Plain(tokens) && !s.Lit? && !x.Lit? && s != x && Harmless(value, x)
    ensures Replaced(ShowWith(tokens, s, value), Shown(x), put) == ShowWith(Put(tokens, x, put), s, value)
  {
    if tokens == [] {
      ReplacedNothing("", Shown(x), put, 0);
    } else {
      var rest := ShowWith(tokens[1..], s, value);
      PassFillsWith(tokens[1..], s, value, x, put);
      assert Put(tokens, x, put)[1..] == Put(tokens[1..], x, put);
      if tokens[0] == x {
        ReplacedTakes(rest, Shown(x), put);
      } else {
        var front := if tokens[0] == s then value else Shown(tokens[0]);
        forall j: nat | j < |front|
          ensures !OccursAt(front + rest, Shown(x), j)
        {
          if tokens[0] == s {
            NoneInValue(tokens[1..], s, value, x, j);
          } else {
            NoneInside(tokens[0], rest, x, j);
          }
        }
        ReplacedSkips(front, rest, Shown(x), put);
      }
    }
  }

  lemma {:induction false} FillWithPrefix(tokens: seq<Token>, prefix: string, guild: string, player: string)
    ensures ShowWith(Put(Put(tokens, Guild, guild), Player, player), Prefix, prefix) == Fill(tokens, prefix, guild, player)
  {
    if tokens != [] {
      var one := Put(tokens, Guild, guild);
      FillWithPrefix(tokens[1..], prefix, guild, player);
      assert one[1..] == Put(tokens[1..], Guild, guild);
      assert Put(one, Player, player)[1..] == Put(one[1..], Player, player);
    }
  }

  lemma {:induction false} FillWithGuild(tokens: seq<Token>, prefix: string, guild: string, player: string)
    ensures ShowWith(Put(Put(tokens, Prefix, prefix), Player, player), Guild, guild) == Fill(tokens, prefix, guild, player)
  {
    if tokens != [] {
      var one := Put(tokens, Prefix, prefix);
      FillWithGuild(tokens[1..], prefix, guild, player);
      assert one[1..] == Put(tokens[1..], Prefix, prefix);
      assert Put(one, Player, player)[1..] == Put(one[1..], Player, player);
    }
  }

  lemma {:induction false} DeletingShrinks(text: string, from: string)
    requires from != ""
    ensures |Replaced(text, from, "")| <= |text|
    ensures Find(text, from, 0).Some? ==> |Replaced(text, from, "")| < |text|
    decreases |text|
  {
    match Find(text, from, 0)
    case None =>
    case Some(i) =>
      ReplacedAt(text, from, "", i);
      DeletingShrinks(text[i + |from|..], from);
  }

  /** The passes are one substitution with this prefix, whatever the template, a brace-free guild and the player are. */
  ghost predicate PrefixIsSafe(prefix: string) {
    forall tokens, guild, player :: Plain(tokens) && BraceFree(guild) ==>
      Substituted(Show(tokens), prefix, guild, player) == Fill(tokens, prefix, guild, player)
  }

  ghost predicate GuildIsSafe(guild: string) {
    forall tokens, prefix, player :: Plain(tokens) && BraceFree(prefix) ==>
      Substituted(Show(tokens), prefix, guild, player) == Fill(tokens, prefix, guild, player)
  }

  /** The value twice, with text between. */
  function Doubled(s: Token, m: string): seq<Token> {
    [s] + ([Lit(m)] + [s])
  }

  lemma PutCons(token: Token, tokens: seq<Token>, x: Token, value: string)
    ensures Put([token] + tokens, x, value) == [if token == x then Lit(value) else token] + Put(tokens, x, value)
  {
    assert ([token] + tokens)[1..] == tokens;
  }

  lemma DoubledPut(s: Token, m: string, x: Token, value: string)
    requires !s.Lit? && !x.Lit?
    ensures Put(Doubled(s, m), x, value) == if s == x then [Lit(value)] + ([Lit(m)] + [Lit(value)]) else Doubled(s, m)
  {
    PutCons(s, [Lit(m)] + [s], x, value);
    PutCons(Lit(m), [s], x, value);
    assert [s] + [] == [s] && [Lit(value)] + [] == [Lit(value)];
    PutCons(s, [], x, value);
  }

  lemma ThreeShown(value: string, m: string)
    ensures Show([Lit(value)] + ([Lit(m)] + [Lit(value)])) == value + m + value
  {
    ShowCons(Lit(value), [Lit(m)] + [Lit(value)]);
    ShowCons(Lit(m), [Lit(value)]);
    assert [Lit(value)] + [] == [Lit(value)];
    ShowCons(Lit(value), []);
    assert value + "" == value;
    Concat3(value, m, value);
  }

  lemma DoubledFills(s: Token, m: string, prefix: string, guild: string)
    requires s == Prefix || s == Guild
    ensures var value := if s == Prefix then prefix else guild; Fill(Doubled(s, m), prefix, guild, "") == value + m + value
  {
    var value := if s == Prefix then prefix else guild;
    FillCons(s, [Lit(m)] + [s], prefix, guild, "");
    FillCons(Lit(m), [s], prefix, guild, "");
    FillOne(s, prefix, guild);
    FillOne(Lit(m), prefix, guild);
    Concat3(value, m, value);
  }

  lemma FillOne(token: Token, prefix: string, guild: string)
    ensures Fill([token], prefix, guild, "") ==
            match token
            case Prefix => prefix
            case Guild => guild
            case Player => ""
            case _ => Shown(token)
  {
    assert [token][1..] == [];
  }

  lemma UnsafePrefix(prefix: string, m: string)
    requires BraceFree(m)
    requires Find(prefix + m + prefix, GUILD, 0).Some? || Find(prefix + m + prefix, PLAYER, 0).Some?
    ensures !PrefixIsSafe(prefix)
  {
    var tokens, text := Doubled(Prefix, m), prefix + m + prefix;
    PassFills(tokens, Prefix, prefix);
    DoubledPut(Prefix, m, Prefix, prefix);
    ThreeShown(prefix, m);
    DoubledFills(Prefix, m, prefix, "");
    DeletingShrinks(text, GUILD);
    DeletingShrinks(Replaced(text, GUILD, ""), PLAYER);
    if Find(text, GUILD, 0) == None {
      assert Replaced(text, GUILD, "") == text;
    }
    assert Substituted(Show(tokens), prefix, "", "") != Fill(tokens, prefix, "", "");
  }

  lemma UnsafeGuild(guild: string, m: string)
    requires BraceFree(m) && Find(guild + m + guild, PLAYER, 0).Some?
    ensures !GuildIsSafe(guild)
  {
    var tokens, text := Doubled(Guild, m), guild + m + guild;
    PassFills(tokens, Prefix, "");
    DoubledPut(Guild, m, Prefix, "");
    PassFills(tokens, Guild, guild);
    DoubledPut(Guild, m, Guild, guild);
    ThreeShown(guild, m);
    DoubledFills(Guild, m, "", guild);
    DeletingShrinks(text, PLAYER);
    assert Substituted(Show(tokens), "", guild, "") != Fill(tokens, "", guild, "");
  }

  /**
    * A prefix is safe exactly if it makes no "{guild}" and no "{player}", neither in itself nor twice around brace-free
    * text.
    */
  lemma PrefixIsSafeIff(prefix: string)
    ensures PrefixIsSafe(prefix) <==> Harmless(prefix, Guild) && Harmless(prefix, Player)
  {
    if Harmless(prefix, Guild) && Harmless(prefix, Player) {
      forall tokens, guild, player | Plain(tokens) && BraceFree(guild)
        ensures Substituted(Show(tokens), prefix, guild, player) == Fill(tokens, prefix, guild, player)
      {
        PassFills(tokens, Prefix, prefix);
        ShowPut(tokens, Prefix, prefix);
        PassFillsWith(tokens, Prefix, prefix, Guild, guild);
        PutKeepsPlain(tokens, Guild, guild);
        PassFillsWith(Put(tokens, Guild, guild), Prefix, prefix, Player, player);
        FillWithPrefix(tokens, prefix, guild, player);
      }
    } else {
      var m :| BraceFree(m) &&
               (Find(prefix + m + prefix, GUILD, 0).Some? || Find(prefix + m + prefix, PLAYER, 0).Some?);
      UnsafePrefix(prefix, m);
    }
  }

  /** A guild, which its members name, is safe exactly if it makes no "{player}". */
  lemma GuildIsSafeIff(guild: string)
    ensures GuildIsSafe(guild) <==> Harmless(guild, Player)
  {
    if Harmless(guild, Player) {
      forall tokens, prefix, player | Plain(tokens) && BraceFree(prefix)
        ensures Substituted(Show(tokens), prefix, guild, player) == Fill(tokens, prefix, guild, player)
      {
        var one := Put(tokens, Prefix, prefix);
        PassFills(tokens, Prefix, prefix);
        PutKeepsPlain(tokens, Prefix, prefix);
        PassFills(one, Guild, guild);
        ShowPut(one, Guild, guild);
        PassFillsWith(one, Guild, guild, Player, player);
        FillWithGuild(tokens, prefix, guild, player);
      }
    } else {
      var m :| BraceFree(m) && Find(guild + m + guild, PLAYER, 0).Some?;
      UnsafeGuild(guild, m);
    }
  }

  /** The tokens before the first `x`. */
  function Before(tokens: seq<Token>, x: Token): (before: seq<Token>)
    ensures Plain(tokens) ==> Plain(before)
  {
    if tokens == [] || tokens[0] == x then [] else [tokens[0]] + Before(tokens[1..], x)
  }

  lemma FindsFront(text: string, rest: string)
    ensures Find(text + rest, text, 0) == Some(0)
  {
    assert (text + rest)[0..|text|] == text;
    FindIs(text + rest, text, 0, 0);
  }

  function Shift(at: Option<nat>, n: nat): Option<nat> {
    match at
    case None => None
    case Some(i) => Some(n + i)
  }

  lemma FindsBehind(token: Token, rest: string, x: Token)
    requires !x.Lit? && token != x && (token.Lit? ==> BraceFree(token.text))
    ensures Find(Shown(token) + rest, Shown(x), 0) == Shift(Find(rest, Shown(x), 0), |Shown(token)|)
  {
    forall j: nat | j < |Shown(token)|
      ensures !OccursAt(Shown(token) + rest, Shown(x), j)
    {
      NoneInside(token, rest, x, j);
    }
    FindSkips(Shown(token), rest, Shown(x));
  }

  lemma ShowCons(token: Token, tokens: seq<Token>)
    ensures Show([token] + tokens) == Shown(token) + Show(tokens)
  {
    assert ([token] + tokens)[1..] == tokens;
  }

  /** Where the first token `x` stands in the text of a template. */
  function Place(tokens: seq<Token>, x: Token): (at: Option<nat>)
    ensures at.Some? <==> x in tokens
  {
    if tokens == [] then None
    else if tokens[0] == x then Some(0)
    else Shift(Place(tokens[1..], x), |Shown(tokens[0])|)
  }

  lemma PlaceCons(token: Token, rest: seq<Token>, x: Token)
    requires token != x
    ensures Place([token] + rest, x) == Shift(Place(rest, x), |Shown(token)|)
    ensures Before([token] + rest, x) == [token] + Before(rest, x)
  {
    var all := [token] + rest;
    assert all[0] == token && all[1..] == rest;
  }

  lemma ShowConsLength(token: Token, tokens: seq<Token>, n: nat)
    requires |Show(tokens)| == n
    ensures |Show([token] + tokens)| == |Shown(token)| + n
  {
    ShowCons(token, tokens);
  }

  lemma PlaceBehind(token: Token, rest: seq<Token>, x: Token)
    requires token != x && Place(rest, x) == Some(|Show(Before(rest, x))|)
    ensures Place([token] + rest, x) == Some(|Show(Before([token] + rest, x))|)
  {
    hide Show, Place, Before;
    PlaceCons(token, rest, x);
    ShowConsLength(token, Before(rest, x), Place(rest, x).value);
  }

  lemma {:induction false} PlaceIsBefore(tokens: seq<Token>, x: Token)
    requires x in tokens
    ensures Place(tokens, x) == Some(|Show(Before(tokens, x))|)
  {
    assert tokens == [tokens[0]] + tokens[1..];
    if tokens[0] == x {
      assert Before(tokens, x) == [];
    } else {
      PlaceIsBefore(tokens[1..], x);
      PlaceBehind(tokens[0], tokens[1..], x);
    }
  }

  /** Searching a template for a placeholder finds its first token. */
  lemma {:induction false} FindsToken(tokens: seq<Token>, x: Token)
    requires Plain(tokens) && !x.Lit?
    ensures Find(Show(tokens), Shown(x), 0) == Place(tokens, x)
  {
    if tokens == [] {
      ReplacedNothing("", Shown(x), "", 0);
    } else if tokens[0] == x {
      FindsFront(Shown(x), Show(tokens[1..]));
    } else {
      FindsToken(tokens[1..], x);
      FindsBehind(tokens[0], Show(tokens[1..]), x);
    }
  }

  lemma {:induction false} BeforeIsPrefix(tokens: seq<Token>, x: Token)
    ensures |Show(Before(tokens, x))| <= |Show(tokens)|
    ensures Show(tokens)[..|Show(Before(tokens, x))|] == Show(Before(tokens, x))
  {
    if tokens != [] && tokens[0] != x {
      BeforeIsPrefix(tokens[1..], x);
    }
  }

  /** The tokens with the last character of the last non-empty literal gone. */
  function Chop(tokens: seq<Token>): (chopped: seq<Token>)
    ensures Plain(tokens) ==> Plain(chopped)
  {
    if tokens == [] then []
    else
      var n := |tokens| - 1;
      match tokens[n]
      case Lit(text) => if text == "" then Chop(tokens[..n]) else tokens[..n] + [Lit(text[..|text| - 1])]
      case _ => tokens
  }

  lemma {:induction false} ShowSnoc(tokens: seq<Token>, last: Token)
    ensures Show(tokens + [last]) == Show(tokens) + Shown(last)
  {
    if tokens != [] {
      ShowSnoc(tokens[1..], last);
      assert (tokens + [last])[1..] == tokens[1..] + [last];
    }
  }

  lemma ChopLiteral(tokens: seq<Token>, text: string)
    requires text != ""
    ensures Chop(tokens + [Lit(text)]) == tokens + [Lit(text[..|text| - 1])]
    ensures Show(Chop(tokens + [Lit(text)])) == Show(tokens) + text[..|text| - 1]
  {
    assert (tokens + [Lit(text)])[..|tokens|] == tokens;
    ShowSnoc(tokens, Lit(text[..|text| - 1]));
  }

  lemma PlaceholderEnds(token: Token)
    ensures !token.Lit? ==> Shown(token) != "" && Shown(token)[|Shown(token)| - 1] == '}'
  {
  }

  function CutOff(text: string): string {
    if text == "" then "" else text[..|text| - 1]
  }

  lemma LastOfSum(a: string, b: string)
    requires b != ""
    ensures (a + b)[|a + b| - 1] == b[|b| - 1] && CutOff(a + b) == a + CutOff(b)
  {
  }

  lemma ChopSnoc(init: seq<Token>, last: Token)
    requires Shown(last) != ""
    requires Show(init + [last]) != "" && Show(init + [last])[|Show(init + [last])| - 1] != '}'
    ensures Show(Chop(init + [last])) == CutOff(Show(init + [last]))
  {
    ShowSnoc(init, last);
    LastOfSum(Show(init), Shown(last));
    PlaceholderEnds(last);
    ChopLiteral(init, last.text);
  }

  lemma ChopNothing(init: seq<Token>)
    ensures Chop(init + [Lit("")]) == Chop(init) && Show(init + [Lit("")]) == Show(init)
  {
    ShowSnoc(init, Lit(""));
    assert (init + [Lit("")])[..|init|] == init;
  }

  /** A template that does not end in a placeholder loses its last character by losing one of a literal. */
  lemma {:induction false} ChopShows(tokens: seq<Token>)
    requires Show(tokens) != "" && Show(tokens)[|Show(tokens)| - 1] != '}'
    ensures Show(Chop(tokens)) == CutOff(Show(tokens))
  {
    assert tokens == tokens[..|tokens| - 1] + [tokens[|tokens| - 1]];
    ChopShowsSnoc(tokens[..|tokens| - 1], tokens[|tokens| - 1]);
  }

  lemma {:induction false} ChopShowsSnoc(init: seq<Token>, last: Token)
    requires Show(init + [last]) != "" && Show(init + [last])[|Show(init + [last])| - 1] != '}'
    ensures Show(Chop(init + [last])) == CutOff(Show(init + [last]))
    decreases |init|
  {
    hide Chop;
    if last != Lit("") {
      ChopSnoc(init, last);
    } else {
      ChopNothing(init);
      assert init != [];
      var n := |init| - 1;
      assert init[..n] + [init[n]] == init;
      ChopShowsSnoc(init[..n], init[n]);
    }
  }

  /** The tokens that make the Sender field: those before `{message}`, without the colon that precedes it. */
  function SenderTokens(tokens: seq<Token>): (sender: seq<Token>)
    ensures Plain(tokens) ==> Plain(sender)
  {
    if Message !in tokens then tokens
    else
      var before := Before(tokens, Message);
      if EndsWith(Show(before), ": ") then Chop(Chop(before))
      else if EndsWith(Show(before), ":") then Chop(before)
      else before
  }

  lemma EndsWithLast(text: string, tail: string)
    requires tail != "" && EndsWith(text, tail)
    ensures text != "" && text[|text| - 1] == tail[|tail| - 1]
  {
    assert text[|text| - 1] == text[|text| - |tail|..][|tail| - 1];
  }

  lemma ChopColon(tokens: seq<Token>)
    requires EndsWith(Show(tokens), ":")
    ensures Show(Chop(tokens)) == DropColon(Show(tokens))
  {
    var text := Show(tokens);
    EndsWithLast(text, ":");
    if EndsWith(text, ": ") {
      EndsWithLast(text, ": ");
      assert false;
    }
    ChopShows(tokens);
  }

  lemma ChopColonBlank(tokens: seq<Token>)
    requires EndsWith(Show(tokens), ": ")
    ensures Show(Chop(Chop(tokens))) == DropColon(Show(tokens))
  {
    var text := Show(tokens);
    assert text[|text| - 1] == text[|text| - 2..][1] && text[|text| - 2] == text[|text| - 2..][0];
    ChopShows(tokens);
    ChopShows(Chop(tokens));
  }

  /** The Sender field of a template: its tokens before the message filled at once, then the cosmetics. */
  lemma SenderOfTemplate(tokens: seq<Token>, prefix: string, guild: string, player: string)
    requires Plain(tokens) && BraceFree(prefix) && BraceFree(guild) && Show(tokens) != ""
    ensures SenderField(Show(tokens), prefix, guild, player)
         == Finished(Cleaned(Fill(SenderTokens(tokens), prefix, guild, player)), player)
  {
    FindsToken(tokens, Message);
    var before := Before(tokens, Message);
    if Message in tokens {
      PlaceIsBefore(tokens, Message);
      BeforeIsPrefix(tokens, Message);
      if EndsWith(Show(before), ": ") {
        ChopColonBlank(before);
      } else if EndsWith(Show(before), ":") {
        ChopColon(before);
      }
    }
    assert SenderPart(Show(tokens)) == Show(SenderTokens(tokens));
    SequentialIsSimultaneous(SenderTokens(tokens), prefix, guild, player);
  }

  /** The template a server has when its operator sets none: `[{prefix}] [{guild}] {player}: {message}`. */
  function DefaultTokens(): seq<Token> {
    SenderOfDefault() + [Lit(": "), Message]
  }

  function SenderOfDefault(): seq<Token> {
    [Lit("["), Prefix, Lit("] ["), Guild, Lit("] "), Player]
  }

  /** A name as it usually is: no brackets, and no blanks but single spaces inside. */
  ghost predicate IsName(text: string) {
    '[' !in text && ']' !in text && Tidy(text)
  }

  const DEFAULT_FORMAT := "[{prefix}] [{guild}] {player}: {message}"

  /** The operator's text of the default template. */
  lemma DefaultIsWritten()
    ensures Show(DefaultTokens()) == DEFAULT_FORMAT
  {
    hide Show;
    FirstTokensShow();
    LastTokensShow();
    DefaultIsInParts([Lit("] "), Player, Lit(": "), Message]);
  }

  lemma DefaultIsInParts(tail: seq<Token>)
    requires tail == [Lit("] "), Player, Lit(": "), Message]
    ensures Show(DefaultTokens()) == "[" + ("{prefix}" + ("] [" + ("{guild}" + Show(tail))))
  {
    hide Show;
    var guild := [Guild] + tail;
    var mid := [Lit("] [")] + guild;
    assert DefaultTokens() == [Lit("[")] + ([Prefix] + mid);
    ShowCons(Guild, tail);
    ShowCons(Lit("] ["), guild);
    ShowCons(Prefix, mid);
    ShowCons(Lit("["), [Prefix] + mid);
  }

  lemma FirstTokensShow()
    ensures DEFAULT_FORMAT == "[" + ("{prefix}" + ("] [" + ("{guild}" + "] {player}: {message}")))
  {
  }

  lemma LastTokensShow()
    ensures Show([Lit("] "), Player, Lit(": "), Message]) == "] {player}: {message}"
  {
    assert [Message][1..] == [];
    assert Show([Message]) == MESSAGE + "";
    ShowCons(Lit(": "), [Message]);
    ShowCons(Player, [Lit(": ")] + [Message]);
    ShowCons(Lit("] "), [Player] + ([Lit(": ")] + [Message]));
    assert [Lit("] "), Player, Lit(": "), Message] == [Lit("] ")] + ([Player] + ([Lit(": ")] + [Message]));
    assert "] {player}: {message}" == "] " + ("{player}" + (": " + "{message}"));
  }

  lemma FillCons(token: Token, tokens: seq<Token>, prefix: string, guild: string, player: string)
    ensures Fill([token] + tokens, prefix, guild, player)
         == Fill([token], prefix, guild, player) + Fill(tokens, prefix, guild, player)
  {
    assert ([token] + tokens)[1..] == tokens && [token][1..] == [];
  }

  lemma FillPlayerPart(prefix: string, guild: string, player: string)
    ensures Fill([Lit("] "), Player, Lit("")], prefix, guild, player) == "] " + player
  {
    assert [Lit("] "), Player, Lit("")] == [Lit("] ")] + ([Player] + [Lit("")]);
    FillCons(Lit("] "), [Player] + [Lit("")], prefix, guild, player);
    FillCons(Player, [Lit("")], prefix, guild, player);
  }

  lemma FillGuildPart(prefix: string, guild: string, player: string)
    ensures Fill([Lit("] ["), Guild] + [Lit("] "), Player, Lit("")], prefix, guild, player) == "] [" + (guild + ("] " + player))
  {
    var tail := [Lit("] "), Player, Lit("")];
    assert [Lit("] ["), Guild] + tail == [Lit("] [")] + ([Guild] + tail);
    FillCons(Lit("] ["), [Guild] + tail, prefix, guild, player);
    FillCons(Guild, tail, prefix, guild, player);
    FillPlayerPart(prefix, guild, player);
  }

  lemma DefaultFills(prefix: string, guild: string, player: string)
    ensures Fill(SenderOfDefault() + [Lit("")], prefix, guild, player)
         == "[" + (prefix + ("] [" + (guild + ("] " + player))))
  {
    var tail := [Lit("] ["), Guild] + [Lit("] "), Player, Lit("")];
    assert SenderOfDefault() + [Lit("")] == [Lit("[")] + ([Prefix] + tail);
    FillCons(Lit("["), [Prefix] + tail, prefix, guild, player);
    FillCons(Prefix, tail, prefix, guild, player);
    FillGuildPart(prefix, guild, player);
  }

  lemma {:induction false} BeforeIs(before: seq<Token>, x: Token, after: seq<Token>)
    requires x !in before
    ensures Before(before + ([x] + after), x) == before
  {
    if before != [] {
      BeforeIs(before[1..], x, after);
      assert (before + ([x] + after))[1..] == before[1..] + ([x] + after);
    }
  }

  lemma DefaultBefore()
    ensures Before(DefaultTokens(), Message) == SenderOfDefault() + [Lit(": ")] && Message in DefaultTokens()
  {
    var before := SenderOfDefault() + [Lit(": ")];
    assert DefaultTokens() == before + ([Message] + []);
    assert DefaultTokens()[7] == Message;
    BeforeIs(before, Message, []);
  }

  lemma ColonChops(sender: seq<Token>)
    ensures Chop(Chop(sender + [Lit(": ")])) == sender + [Lit("")]
    ensures EndsWith(Show(sender + [Lit(": ")]), ": ")
  {
    ShowSnoc(sender, Lit(": "));
    ChopLiteral(sender, ": ");
    assert ": "[..1] == ":" && ":"[..0] == "";
    ChopLiteral(sender, ":");
  }

  lemma DefaultSenderTokens()
    ensures SenderTokens(DefaultTokens()) == SenderOfDefault() + [Lit("")]
  {
    DefaultBefore();
    ColonChops(SenderOfDefault());
  }

  /** A bracketed part of a line, before empty brackets go and after. */
  function Bracket(x: string): string {
    "[" + x + "] "
  }

  function Kept(x: string): string {
    if x == "" then " " else Bracket(x)
  }

  function Lead(x: string): string {
    if x == "" then "" else Bracket(x)
  }

  lemma NothingInBracket(x: string, rest: string, from: string, to: string)
    requires x != "" && '[' !in x && |from| > 1 && from[0] == '[' && x[0] != from[1]
    ensures Replaced(Bracket(x) + rest, from, to) == Bracket(x) + Replaced(rest, from, to)
  {
    var kept, text := Bracket(x), Bracket(x) + rest;
    forall j: nat | j < |kept|
      ensures !OccursAt(text, from, j)
    {
      if j == 0 {
        assert text[1] == x[0];
        NotAt(text, from, 0, 1);
      } else {
        assert text[j] == (x + "] ")[j - 1];
        NotAt(text, from, j, 0);
      }
    }
    ReplacedSkips(kept, rest, from, to);
  }

  lemma PairGoes(x: string, rest: string)
    requires '[' !in x && ']' !in x
    ensures Replaced(Bracket(x) + rest, PAIR, "") == Kept(x) + Replaced(rest, PAIR, "")
  {
    if x == "" {
      assert Bracket(x) + rest == PAIR + (" " + rest);
      ReplacedTakes(" " + rest, PAIR, "");
      ReplacedSkipsFree(" ", rest, PAIR, "");
      assert "" + (" " + Replaced(rest, PAIR, "")) == " " + Replaced(rest, PAIR, "");
    } else {
      NothingInBracket(x, rest, PAIR, "");
    }
  }

  lemma KeptStays(x: string, rest: string)
    requires IsName(x)
    ensures Replaced(Kept(x) + rest, BLANK_PAIR, "") == Kept(x) + Replaced(rest, BLANK_PAIR, "")
  {
    if x == "" {
      ReplacedSkipsFree(" ", rest, BLANK_PAIR, "");
    } else {
      NothingInBracket(x, rest, BLANK_PAIR, "");
    }
  }

  lemma EmptyBracketsGo(prefix: string, guild: string, player: string)
    requires IsName(prefix) && IsName(guild) && '[' !in player
    ensures Replaced(Replaced(Bracket(prefix) + (Bracket(guild) + player), PAIR, ""), BLANK_PAIR, "")
         == Kept(prefix) + (Kept(guild) + player)
  {
    hide Replaced, Kept, Bracket;
    PairGoes(prefix, Bracket(guild) + player);
    PairGoes(guild, player);
    ReplacedNothing(player, PAIR, "", 0);
    KeptStays(prefix, Kept(guild) + player);
    KeptStays(guild, player);
    ReplacedNothing(player, BLANK_PAIR, "", 0);
  }

  /** What is left of a bracketed part has the words of the part, if it is not empty. */
  lemma KeptWords(x: string, rest: string)
    ensures Words(Kept(x) + rest) == Words(Lead(x) + rest)
  {
    if x == "" {
      WordsJoin("", rest);
      assert "" + " " + rest == Kept(x) + rest && Words("") + Words(rest) == Words(rest);
      assert Lead(x) + rest == rest;
    }
  }

  lemma BracketEnds(x: string, rest: string)
    ensures Bracket(x) + rest == "[" + x + "]" + " " + rest
  {
  }

  lemma LeadWords(x: string, a: string, b: string)
    requires Words(a) == Words(b)
    ensures Words(Lead(x) + a) == Words(Lead(x) + b)
  {
    hide Words, Bracket;
    if x == "" {
      assert Lead(x) + a == a && Lead(x) + b == b;
    } else {
      BracketEnds(x, a);
      BracketEnds(x, b);
      WordsJoin("[" + x + "]", a);
      WordsJoin("[" + x + "]", b);
    }
  }

  lemma TidyBehindBlank(front: string, rest: string)
    requires Tidy(front) && Tidy(rest) && front != "" && rest != ""
    ensures Tidy(front + " " + rest)
  {
    var text, n := front + " " + rest, |front|;
    forall i | 0 <= i < |text|
      ensures text[i] == if i < n then front[i] else if i == n then ' ' else rest[i - n - 1]
    {
    }
    assert !IsBlank(front[n - 1]) && !IsBlank(rest[0]);
  }

  lemma TidyInBrackets(x: string)
    requires Tidy(x)
    ensures Tidy("[" + x + "]")
  {
    var text := "[" + x + "]";
    forall i | 0 < i < |text| - 1
      ensures text[i] == x[i - 1]
    {
    }
  }

  lemma LeadIsTidy(x: string, rest: string)
    requires IsName(x) && Tidy(rest) && rest != ""
    ensures Tidy(Lead(x) + rest) && Lead(x) + rest != ""
  {
    if x == "" {
      assert Lead(x) + rest == rest;
    } else {
      hide Tidy;
      BracketEnds(x, rest);
      TidyInBrackets(x);
      TidyBehindBlank("[" + x + "]", rest);
    }
  }

  lemma LineIsCleaned(prefix: string, guild: string, player: string)
    requires IsName(prefix) && IsName(guild) && IsName(player) && player != ""
    ensures Cleaned(Bracket(prefix) + (Bracket(guild) + player)) == Lead(prefix) + (Lead(guild) + player)
  {
    hide Replaced, Kept, Lead, Bracket, Words, Spaced, Tidy;
    EmptyBracketsGo(prefix, guild, player);
    KeptWords(guild, player);
    KeptWords(prefix, Kept(guild) + player);
    LeadWords(prefix, Kept(guild) + player, Lead(guild) + player);
    LeadIsTidy(guild, player);
    LeadIsTidy(prefix, Lead(guild) + player);
    TidyStays(Lead(prefix) + (Lead(guild) + player));
  }

  /** The name of a line with its prefix and guild as the game shows them: it puts the first bracket there itself. */
  ghost predicate IsTitle(sender: string, prefix: string, guild: string, player: string) {
    && (prefix != "" && guild != "" ==> sender == prefix + "] [" + guild + "] " + player)
    && (prefix != "" && guild == "" ==> sender == prefix + "] " + player)
    && (prefix == "" && guild != "" ==> sender == guild + "] " + player)
    && (prefix == "" && guild == "" ==> sender == player)
  }

  lemma FirstBracketGoes(x: string, rest: string, player: string)
    requires x != "" && rest != ""
    ensures Finished(Bracket(x) + rest, player) == x + "] " + rest
  {
    var text := Bracket(x) + rest;
    assert text[1..] == x + "] " + rest;
  }

  lemma LineIsTitled(prefix: string, guild: string, player: string)
    requires player != "" && '[' !in player
    ensures IsTitle(Finished(Lead(prefix) + (Lead(guild) + player), player), prefix, guild, player)
  {
    if prefix != "" {
      FirstBracketGoes(prefix, Lead(guild) + player, player);
      if guild != "" {
        GuildInBrackets(prefix, guild, player);
      } else {
        assert "" + player == player;
      }
    } else {
      assert "" + (Lead(guild) + player) == Lead(guild) + player;
      if guild != "" {
        FirstBracketGoes(guild, player, player);
      } else {
        assert "" + player == player;
      }
    }
  }

  lemma GuildInBrackets(prefix: string, guild: string, player: string)
    ensures prefix + "] " + (Bracket(guild) + player) == prefix + "] [" + guild + "] " + player
  {
  }

  /**
    * The default template, `[{prefix}] [{guild}] {player}: {message}`: the game shows `[prefix] [guild] player]: message`,
    * and without a prefix or a guild nothing is left of its brackets.
    */
  lemma DefaultLine(prefix: string, guild: string, player: string)
    requires IsName(prefix) && IsName(guild) && IsName(player) && player != "" && BraceFree(prefix) && BraceFree(guild)
    ensures IsTitle(SenderField(DEFAULT_FORMAT, prefix, guild, player), prefix, guild, player)
  {
    hide Fill, Lead, Bracket, SenderField, Finished, Cleaned, IsName, IsTitle, SenderTokens;
    DefaultIsWritten();
    DefaultIsPlain();
    SenderOfTemplate(DefaultTokens(), prefix, guild, player);
    DefaultSenderTokens();
    DefaultFills(prefix, guild, player);
    BracketsInLine(prefix, guild, player);
    LineIsCleaned(prefix, guild, player);
    NamesHaveNoBracket(player);
    LineIsTitled(prefix, guild, player);
  }

  lemma NamesHaveNoBracket(player: string)
    requires IsName(player)
    ensures '[' !in player
  {
  }

  lemma DefaultIsPlain()
    ensures Plain(DefaultTokens()) && DEFAULT_FORMAT != ""
  {
  }

  lemma BracketsInLine(prefix: string, guild: string, player: string)
    ensures "[" + (prefix + ("] [" + (guild + ("] " + player)))) == Bracket(prefix) + (Bracket(guild) + player)
  {
  }

  /** Its message field is the message behind a space. */
  lemma DefaultMessage(message: string)
    ensures MessageField(DEFAULT_FORMAT, message) ==
            if message != "" && message[0] != ' ' then " " + message else message
  {
    FindsToken(DefaultTokens(), Message);
    DefaultIsPlain();
    DefaultIsWritten();
    DefaultBefore();
    PlaceIsBefore(DefaultTokens(), Message);
    BeforeIsPrefix(DefaultTokens(), Message);
    ColonChops(SenderOfDefault());
  }
}
