/**
  * Who gets which chat line. A message is posted as one formatted line without a uid to everyone who does not play on
  * Xbox, and as one plain line under the sender's uid to the Xbox players if the sender is online here.
  */
module Delivery {
  import opened Text
  import opened Guids
  import opened Audience
  import opened ChatFormat
  import opened Sanitize

  datatype Settings = Settings(
    chatFormat: string, prefixNa: string, prefixEu: string, prefixDiscord: string,
    serverOrigin: string, injectCategory: int, showLocalServerTag: bool)

  datatype Line = Line(sender: string, text: string, uid: Guid)

  /** A line and the players it is for. */
  datatype Post = Post(line: Line, targets: seq<Guid>)

  /**
    * A ProcessEvent call. `targets` are the players a broadcast is for, everyone if there are none; `roomy` says whether
    * the receiver array could be allocated.
    */
  datatype Event =
    | Shown(line: Line, category: int, targets: seq<Guid>, roomy: bool, at: int, faulted: bool)
    | Noticed(text: string, at: int, faulted: bool)
    | Logged(controller: Object, text: string, at: int, faulted: bool)

  const MAX_RECEIVERS := 512

  /** The receiver array that is passed; the game takes an empty one for everyone. */
  function Receivers(e: Event): seq<Guid>
    requires e.Shown?
  {
    if 0 < |e.targets| < MAX_RECEIVERS && e.roomy then e.targets else []
  }

  predicate Reaches(e: Event, g: Guid)
    requires e.Shown?
  {
    Receivers(e) == [] || g in Receivers(e)
  }

  function PrefixForOrigin(config: Settings, origin: string): string {
    if origin == "pal-na" then config.prefixNa
    else if origin == "pal-eu" then config.prefixEu
    else if origin == "discord" then config.prefixDiscord
    else ""
  }

  function CleanName(name: string): string {
    var clean := Sanitized(name, NAME_LIMIT);
    if clean == "" then "Unknown" else clean
  }

  function FormattedLine(config: Settings, origin: string, sender: string, guild: string, message: string): Line {
    Line(SenderField(config.chatFormat, PrefixForOrigin(config, origin), Sanitized(guild, NAME_LIMIT), CleanName(sender)),
         MessageField(config.chatFormat, Sanitized(message, MESSAGE_LIMIT)), NIL)
  }

  /** What one message leads to; `local` says that the sender is on the roster. */
  function Posts(xbox: seq<Guid>, others: seq<Guid>, formatted: Line, attributed: Line, local: bool): seq<Post> {
    (if others == [] then [] else [Post(formatted, others)]) +
    (if xbox == [] || !local then [] else [Post(attributed, xbox)])
  }

  /** How one display call ends. */
  datatype Outcome =
    | Dropped                                     // the circuit was open
    | NotReady                                    // no game state or function: nothing was called
    | Called(roomy: bool, faulted: bool)

  /** The broadcasts made for the posts, given how each went. */
  function Issued(posts: seq<Post>, outs: seq<Outcome>, category: int, at: int): seq<Event>
    requires |outs| == |posts|
  {
    if posts == [] then []
    else
      var n := |posts| - 1;
      var before := Issued(posts[..n], outs[..n], category, at);
      match outs[n]
      case Called(roomy, faulted) =>
        before + [Shown(posts[n].line, category, posts[n].targets, roomy, at, faulted)]
      case _ => before
  }

  lemma IssuedSnoc(posts: seq<Post>, outs: seq<Outcome>, post: Post, out: Outcome, category: int, at: int)
    requires |outs| == |posts|
    ensures Issued(posts + [post], outs + [out], category, at) ==
            Issued(posts, outs, category, at) +
            if out.Called? then [Shown(post.line, category, post.targets, out.roomy, at, out.faulted)] else []
  {
    assert (posts + [post])[..|posts|] == posts && (outs + [out])[..|outs|] == outs;
    assert Issued(posts, outs, category, at) + [] == Issued(posts, outs, category, at);
  }

  // ----- the partition

  /** The lines a player gets from the broadcasts. */
  function Received(es: seq<Event>, g: Guid): seq<Line> {
    if es == [] then []
    else
      var before := Received(es[..|es| - 1], g);
      var e := es[|es| - 1];
      if e.Shown? && !e.faulted && Reaches(e, g) then before + [e.line] else before
  }

  /** What a player should get. */
  function Due(entry: Option<Entry>, formatted: Line, attributed: Line, local: bool): seq<Line> {
    match entry
    case None => []
    case Some(e) => if !IsXbox(e.platform) then [formatted] else if local then [attributed] else []
  }

  /** Every call was made and went well. */
  predicate AllWell(outs: seq<Outcome>) {
    forall i :: 0 <= i < |outs| ==> outs[i] == Called(true, false)
  }

  /** What reaches a player of the posts, list by list. */
  function Parts(xbox: seq<Guid>, others: seq<Guid>, formatted: Line, attributed: Line, local: bool, g: Guid): seq<Line> {
    (if others != [] && (|others| >= MAX_RECEIVERS || g in others) then [formatted] else []) +
    (if xbox != [] && local && (|xbox| >= MAX_RECEIVERS || g in xbox) then [attributed] else [])
  }

  lemma ReceivedSnoc(es: seq<Event>, e: Event, g: Guid)
    ensures Received(es + [e], g) ==
            if e.Shown? && !e.faulted && Reaches(e, g) then Received(es, g) + [e.line] else Received(es, g)
  {
    assert (es + [e])[..|es|] == es;
  }

  /** The calls for one post that went well, and for two. */
  lemma OnePostReaches(post: Post, out: Outcome, category: int, at: int, g: Guid)
    requires out == Called(true, false) && post.targets != []
    ensures Received(Issued([post], [out], category, at), g) ==
            if |post.targets| >= MAX_RECEIVERS || g in post.targets then [post.line] else []
  {
    IssuedSnoc([], [], post, out, category, at);
    ReceivedSnoc([], Shown(post.line, category, post.targets, true, at, false), g);
    assert [] + [post] == [post] && [] + [out] == [out];
  }

  lemma TwoPostsReach(one: Post, two: Post, outs: seq<Outcome>, category: int, at: int, g: Guid)
    requires outs == [Called(true, false), Called(true, false)] && one.targets != [] && two.targets != []
    ensures Received(Issued([one, two], outs, category, at), g) ==
            (if |one.targets| >= MAX_RECEIVERS || g in one.targets then [one.line] else []) +
            (if |two.targets| >= MAX_RECEIVERS || g in two.targets then [two.line] else [])
  {
    OnePostReaches(one, outs[0], category, at, g);
    IssuedSnoc([one], [outs[0]], two, outs[1], category, at);
    ReceivedSnoc(Issued([one], [outs[0]], category, at), Shown(two.line, category, two.targets, true, at, false), g);
    assert [one] + [two] == [one, two] && [outs[0]] + [outs[1]] == outs;
  }

  lemma ReceivedParts(xbox: seq<Guid>, others: seq<Guid>, formatted: Line, attributed: Line, local: bool,
                      outs: seq<Outcome>, category: int, at: int, g: Guid)
    requires |outs| == |Posts(xbox, others, formatted, attributed, local)| && AllWell(outs)
    ensures Received(Issued(Posts(xbox, others, formatted, attributed, local), outs, category, at), g) ==
            Parts(xbox, others, formatted, attributed, local, g)
  {
    hide Received, Issued, Reaches;
    var posts := Posts(xbox, others, formatted, attributed, local);
    if posts == [] {
      NothingIssued(outs, category, at, g);
    } else if |posts| == 1 {
      assert posts == [posts[0]] && outs == [outs[0]];
      OnePostReaches(posts[0], outs[0], category, at, g);
    } else {
      assert posts == [Post(formatted, others), Post(attributed, xbox)] && outs == [Called(true, false), Called(true, false)];
      TwoPostsReach(Post(formatted, others), Post(attributed, xbox), outs, category, at, g);
    }
  }

  lemma NothingIssued(outs: seq<Outcome>, category: int, at: int, g: Guid)
    requires outs == []
    ensures Received(Issued([], outs, category, at), g) == []
  {
  }

  /**
    * Delivery partition. If all calls go well, each player on the roster gets what is due and nobody else gets
    * anything, exactly when every list that is addressed fits the receiver array. A longer list reaches everyone.
    */
  lemma DeliveryPartition(key: Printer, r: Roster, xbox: seq<Guid>, others: seq<Guid>, formatted: Line, attributed: Line,
                          local: bool, outs: seq<Outcome>, category: int, at: int)
    requires RosterOk(key, r) && Lists(xbox, key, r, true) && Lists(others, key, r, false)
    requires |outs| == |Posts(xbox, others, formatted, attributed, local)| && AllWell(outs)
    ensures var es := Issued(Posts(xbox, others, formatted, attributed, local), outs, category, at);
            (forall g :: Received(es, g) == Due(Lookup(key, r, g), formatted, attributed, local)) <==>
            |others| < 512 && (local ==> |xbox| < 512)
  {
    var es := Issued(Posts(xbox, others, formatted, attributed, local), outs, category, at);
    LookupByKey(key, r);
    forall g
      ensures Received(es, g) == Parts(xbox, others, formatted, attributed, local, g)
    {
      ReceivedParts(xbox, others, formatted, attributed, local, outs, category, at, g);
    }
    if |others| < MAX_RECEIVERS && (local ==> |xbox| < MAX_RECEIVERS) {
      forall g
        ensures Received(es, g) == Due(Lookup(key, r, g), formatted, attributed, local)
      {
        assert g in xbox <==> Plays(key, r, g, true);
        assert g in others <==> Plays(key, r, g, false);
      }
    } else {
      assert Lookup(key, r, NIL) == None;
      assert Received(es, NIL) != [];
    }
  }

  // ----- one line for each player

  lemma IssuedCount(posts: seq<Post>, outs: seq<Outcome>, category: int, at: int)
    requires |outs| == |posts| <= 2
    ensures |Issued(posts, outs, category, at)| ==
            (if |outs| > 0 && outs[0].Called? then 1 else 0) + (if |outs| > 1 && outs[1].Called? then 1 else 0)
  {
    if |posts| == 2 {
      assert Issued(posts[..1], outs[..1], category, at) ==
             match outs[0]
             case Called(roomy, faulted) => [Shown(posts[0].line, category, posts[0].targets, roomy, at, faulted)]
             case _ => [];
    }
  }

  /** The receiver array holds the players it is for. */
  predicate IsExact(e: Event) {
    e.Shown? && e.roomy && 0 < |e.targets| < MAX_RECEIVERS
  }

  lemma {:induction false} ReceivedJoin(es: seq<Event>, more: seq<Event>, g: Guid)
    ensures Received(es + more, g) == Received(es, g) + Received(more, g)
    decreases |more|
  {
    if more == [] {
      assert es + more == es;
    } else {
      var init, e := more[..|more| - 1], more[|more| - 1];
      ReceivedJoin(es, init, g);
      assert more == init + [e];
      Concat3(es, init, [e]);
      ReceivedSnoc(es + init, e, g);
      ReceivedSnoc(init, e, g);
      Concat3(Received(es, g), Received(init, g), [if e.Shown? then e.line else Line("", "", NIL)]);
    }
  }

  lemma {:induction false} ReceivedIsShort(es: seq<Event>, g: Guid)
    ensures |Received(es, g)| <= |es|
  {
    if es != [] {
      ReceivedIsShort(es[..|es| - 1], g);
    }
  }

  lemma TwoExactCalls(es: seq<Event>, g: Guid)
    requires |es| == 2 && IsExact(es[0]) && IsExact(es[1]) && !(g in es[0].targets && g in es[1].targets)
    ensures |Received(es, g)| <= 1
  {
    assert es == [] + [es[0]] + [es[1]];
    ReceivedSnoc([], es[0], g);
    ReceivedSnoc([] + [es[0]], es[1], g);
  }

  /** Both calls of a split message were made. */
  lemma BothIssued(posts: seq<Post>, outs: seq<Outcome>, category: int, at: int)
    requires |posts| == |outs| == 2 && outs[0].Called? && outs[1].Called?
    ensures var es := Issued(posts, outs, category, at);
            && |es| == 2 && es[0].Shown? && es[1].Shown?
            && es[0].targets == posts[0].targets && es[1].targets == posts[1].targets
            && es[0].line == posts[0].line && es[1].line == posts[1].line
  {
    IssuedSnoc([], [], posts[0], outs[0], category, at);
    IssuedSnoc([] + [posts[0]], [] + [outs[0]], posts[1], outs[1], category, at);
    assert posts == [] + [posts[0]] + [posts[1]] && outs == [] + [outs[0]] + [outs[1]];
  }

  /** One attempt gives a player one line at most, if the receiver arrays are exact and the lists have nobody in common. */
  lemma AttemptReachesOnce(xbox: seq<Guid>, others: seq<Guid>, formatted: Line, attributed: Line, local: bool,
                           outs: seq<Outcome>, category: int, at: int, g: Guid)
    requires |outs| == |Posts(xbox, others, formatted, attributed, local)| && !(g in xbox && g in others)
    requires forall e :: e in Issued(Posts(xbox, others, formatted, attributed, local), outs, category, at) ==> IsExact(e)
    ensures |Received(Issued(Posts(xbox, others, formatted, attributed, local), outs, category, at), g)| <= 1
  {
    hide Received, Issued;
    var posts := Posts(xbox, others, formatted, attributed, local);
    var es := Issued(posts, outs, category, at);
    IssuedCount(posts, outs, category, at);
    ReceivedIsShort(es, g);
    if |es| == 2 {
      BothIssued(posts, outs, category, at);
      assert es[0] in es && es[1] in es;
      TwoExactCalls(es, g);
    }
  }

  // ----- trying again

  /** A message is split: one line for the Xbox players and one for the others. */
  predicate IsSplit(xbox: seq<Guid>, others: seq<Guid>, local: bool) {
    xbox != [] && others != [] && local
  }

  lemma SplitHasTwoPosts(xbox: seq<Guid>, others: seq<Guid>, formatted: Line, attributed: Line, local: bool)
    ensures |Posts(xbox, others, formatted, attributed, local)| <= 2
    ensures |Posts(xbox, others, formatted, attributed, local)| == 2 <==> IsSplit(xbox, others, local)
  {
  }

  /** The calls of an attempt that were made, and whether there is to be another attempt, go by the number of posts. */
  lemma AttemptIsBounded(posts: seq<Post>, outs: seq<Outcome>, category: int, at: int)
    requires |outs| == |posts| <= 2
    ensures |Issued(posts, outs, category, at)| + (if NotReady in outs then 1 else 0) <= if |posts| == 2 then 2 else 1
  {
    IssuedCount(posts, outs, category, at);
  }

  /**
    * Whether a message can be shown and tried again all the same is known before the first call: exactly if it is
    * split, that is, there are Xbox players and others online and the sender is on the roster.
    */
  lemma RetryRepeatsIff(xbox: seq<Guid>, others: seq<Guid>, formatted: Line, attributed: Line, local: bool,
                        category: int, at: int)
    ensures var posts := Posts(xbox, others, formatted, attributed, local);
            (exists outs :: |outs| == |posts| && NotReady in outs && Issued(posts, outs, category, at) != []) <==>
            IsSplit(xbox, others, local)
  {
    var posts := Posts(xbox, others, formatted, attributed, local);
    SplitHasTwoPosts(xbox, others, formatted, attributed, local);
    if IsSplit(xbox, others, local) {
      var outs := [Called(true, false), NotReady];
      IssuedCount(posts, outs, category, at);
      assert outs[1] == NotReady && Issued(posts, outs, category, at) != [];
    }
    forall outs | |outs| == |posts| && NotReady in outs && Issued(posts, outs, category, at) != []
      ensures IsSplit(xbox, others, local)
    {
      IssuedCount(posts, outs, category, at);
    }
  }

  /** The line of a call is that of one of the posts. */
  lemma {:induction false} IssuedFromPosts(posts: seq<Post>, outs: seq<Outcome>, category: int, at: int, e: Event)
    requires |posts| == |outs| && e in Issued(posts, outs, category, at)
    ensures e.Shown? && e.category == category && Post(e.line, e.targets) in posts
  {
    var n := |posts| - 1;
    if e in Issued(posts[..n], outs[..n], category, at) {
      IssuedFromPosts(posts[..n], outs[..n], category, at, e);
    }
  }

  lemma {:induction false} IssuedAt(posts: seq<Post>, outs: seq<Outcome>, category: int, at: int)
    requires |outs| == |posts|
    ensures forall e :: e in Issued(posts, outs, category, at) ==> e.Shown? && e.at == at
  {
    if posts != [] {
      var n := |posts| - 1;
      IssuedAt(posts[..n], outs[..n], category, at);
    }
  }
}
