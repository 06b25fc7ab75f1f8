/**
  * The capturing side of the game thread: the chat hook as an ordered row of gates, and the work put off to the next
  * frame because names and platform ids cannot be resolved inside the hook.
  */
module ChatCapture {
  import opened Text
  import opened Guids
  import opened Queues
  import opened Audience
  import opened Delivery
  import opened WordFilter
  import opened Sanitize
  import opened Relaying
  import opened GameSide
  import opened Injection
  import CF = ChatFormat
  import CI = ChatInject
  import Linking
  import Relay

  const MAX_LINK_COMMANDS := 32
  const CODE_LIMIT := 16
  const REMINDER := 15 * SECOND

  // ----- the link command

  const COMMAND := "!setdiscord"

  /** `std::tolower` in the "C" locale. */
  function ToLower(c: char): char {
    if 'A' <= c <= 'Z' then (c as int + 32) as char else c
  }

  predicate StartsCommand(text: string) {
    |COMMAND| <= |text| && forall i :: 0 <= i < |COMMAND| ==> ToLower(text[i]) == COMMAND[i]
  }

  predicate AllSpace(text: string, lo: nat, hi: nat)
    requires hi <= |text|
  {
    forall i :: lo <= i < hi ==> IsSpace(text[i])
  }

  predicate SpaceFree(text: string, lo: nat, hi: nat)
    requires hi <= |text|
  {
    forall i :: lo <= i < hi ==> !IsSpace(text[i])
  }

  /** After the command and any white space, the code reaches from `n` to `m`, where the text ends or white space follows. */
  predicate CodeAt(text: string, n: nat, m: nat) {
    && StartsCommand(text)
    && |COMMAND| <= n < m <= |text|
    && AllSpace(text, |COMMAND|, n)
    && SpaceFree(text, n, m)
    && (m == |text| || IsSpace(text[m]))
  }

  ghost predicate IsLinkCommand(text: string) {
    exists n: nat, m: nat :: CodeAt(text, n, m)
  }

  /** A text has one code at most. */
  lemma OneCode(text: string, n: nat, m: nat, n': nat, m': nat)
    requires CodeAt(text, n, m) && CodeAt(text, n', m')
    ensures n == n' && m == m'
  {
    assert !IsSpace(text[n]) && !IsSpace(text[n']);
    assert m < |text| ==> IsSpace(text[m]);
    assert m' < |text| ==> IsSpace(text[m']);
  }

  method TryParseSetDiscord(text: string) returns (code: Option<string>)
    ensures code.Some? <==> IsLinkCommand(text)
    ensures code.Some? ==> code.value != "" && exists n: nat, m: nat :: CodeAt(text, n, m) && code.value == text[n..m]
  {
    if |text| < |COMMAND| {
      return None;
    }
    for i := 0 to |COMMAND|
      invariant forall j :: 0 <= j < i ==> ToLower(text[j]) == COMMAND[j]
    {
      if ToLower(text[i]) != COMMAND[i] {
        return None;
      }
    }
    var pos := |COMMAND|;
    while pos < |text| && IsSpace(text[pos])
      invariant |COMMAND| <= pos <= |text| && AllSpace(text, |COMMAND|, pos)
    {
      pos := pos + 1;
    }
    if pos >= |text| {
      NoCodeInSpace(text);
      return None;
    }
    assert StartsCommand(text);
    var end := pos;
    while end < |text| && !IsSpace(text[end])
      invariant pos <= end <= |text| && SpaceFree(text, pos, end)
      invariant end == pos ==> !IsSpace(text[pos])
    {
      end := end + 1;
    }
    assert CodeAt(text, pos, end);
    code := Some(text[pos..end]);
  }

  lemma NoCodeInSpace(text: string)
    requires |COMMAND| <= |text| && AllSpace(text, |COMMAND|, |text|)
    ensures !IsLinkCommand(text)
  {
    forall n: nat, m: nat | |COMMAND| <= n < m <= |text|
      ensures !SpaceFree(text, n, m)
    {
      assert IsSpace(text[n]);
    }
  }

  /** Cleaning a code only cuts it to its length, and does so once. */
  lemma CodeIsClean(text: string, n: nat, m: nat)
    requires Printing(text) && CodeAt(text, n, m)
    ensures Sanitized(text[n..m], CODE_LIMIT) == Truncated(text[n..m], CODE_LIMIT)
    ensures IsCode(Truncated(text[n..m], CODE_LIMIT))
  {
    var code := text[n..m];
    assert forall i :: 0 <= i < |code| ==> code[i] == text[n + i];
    PrintableIsIdentity(code);
    assert Stripped(code) == code;
    SanitizedIsClean(code, CODE_LIMIT);
    FixedPointWhenTrimmed(code, CODE_LIMIT);
    assert !CutsBehindSpace(code, CODE_LIMIT);
  }

  /** Cleaned and cut already. */
  predicate IsCode(code: string) {
    Sanitized(code, CODE_LIMIT) == code
  }

  ghost predicate CodesOk(commands: seq<PendingLink>) {
    forall i :: 0 <= i < |commands| ==> IsCode(commands[i].code)
  }

  /** No link command is relayed: it starts with an exclamation mark. */
  lemma CommandsStop(text: string)
    requires IsLinkCommand(text)
    ensures text != ""
    ensures forall config, filter :: !TextPasses(config, filter, text)
  {
    assert ToLower(text[0]) == COMMAND[0] == '!';
  }

  // ----- banners

  method ReplacePlaceholder(text: string, key: string, value: string) returns (result: string)
    ensures result == Replaced(text, "{" + key + "}", value)
  {
    var token := "{" + key + "}";
    result := text;
    var pos: nat := 0;
    var at := Find(result, token, pos);
    assert text[0..] == text && text[..0] + Replaced(text, token, value) == Replaced(text, token, value);
    while at.Some?
      invariant pos <= |result| && at == Find(result, token, pos)
      invariant CF.Pending(result, pos, token, value) == Replaced(text, token, value)
      decreases |result| - pos
    {
      CF.PendingAfterReplacing(result, pos, token, value, at.value);
      result := CF.Splice(result, at.value, |token|, value);
      pos := at.value + |value|;
      at := Find(result, token, pos);
    }
    CF.PendingNothing(result, pos, token, value);
  }

  function Decimal(n: nat): string {
    if n < 10 then [('0' as int + n) as char] else Decimal(n / 10) + [('0' as int + n % 10) as char]
  }

  function FormatDuration(totalSeconds: int): string {
    var total := if totalSeconds < 0 then 0 else totalSeconds;
    if total < 60 then Decimal(total) + "s"
    else if total % 60 == 0 then Decimal(total / 60) + "m"
    else Decimal(total / 60) + "m " + Decimal(total % 60) + "s"
  }

  /** The number that digits stand for. */
  function Value(digits: string): nat {
    if digits == "" then 0
    else
      var d := digits[|digits| - 1];
      10 * Value(digits[..|digits| - 1]) + (if '0' <= d <= '9' then d as int - '0' as int else 0)
  }

  lemma {:induction false} DecimalValue(n: nat)
    ensures Value(Decimal(n)) == n && Decimal(n) != ""
  {
    var last := [('0' as int + n % 10) as char];
    if n < 10 {
      assert last[..0] == "";
    } else {
      DecimalValue(n / 10);
      assert (Decimal(n / 10) + last)[..|Decimal(n / 10)|] == Decimal(n / 10);
    }
  }

  /** The text gives the time in minutes and seconds, leaving out what is zero. */
  ghost predicate Tells(text: string, total: nat) {
    || (exists a :: text == a + "s" && Value(a) == total < 60)
    || (exists a :: text == a + "m" && 60 * Value(a) == total > 0)
    || (exists a, b :: text == a + "m " + b + "s" && 60 * Value(a) + Value(b) == total && 0 < Value(a) && 0 < Value(b) < 60)
  }

  lemma DurationTells(total: nat)
    ensures Tells(FormatDuration(total), total)
  {
    DecimalValue(total);
    DecimalValue(total / 60);
    DecimalValue(total % 60);
  }

  /** The reminder for a mute that ends at `until`: the notice with the time left in whole seconds. */
  ghost predicate IsReminder(notice: string, until: int, now: int, text: string) {
    exists secs: nat :: secs * SECOND <= until - now < (secs + 1) * SECOND &&
                        text == Replaced(notice, "{" + "remainingtime" + "}", FormatDuration(secs))
  }

  /** What a player is told whose line matched. */
  function InitialBanner(notice: string, p: Pattern): string {
    var time := FormatDuration(p.muteMinutes * 60);
    var line := Replaced(notice, "{" + "mutetime" + "}", time);
    var line := Replaced(line, "{" + "mutemessage" + "}", p.muteMessage);
    var line := Replaced(line, "{" + "remainingtime" + "}", time);
    if p.muteMessage == "" then line else line + "\n" + p.muteMessage
  }

  // What a banner says whose notice has each placeholder once.

  /** A pass finds its placeholder behind a text without braces. */
  lemma PassFills(kept: string, from: string, to: string, rest: string)
    requires from != "" && from[0] !in kept
    ensures Replaced(kept + (from + rest), from, to) == kept + (to + Replaced(rest, from, to))
  {
    ReplacedSkipsFree(kept, from + rest, from, to);
    ReplacedTakes(rest, from, to);
  }

  /** It leaves another placeholder alone, which differs from it at `k`. */
  lemma PassSpares(kept: string, other: string, from: string, to: string, rest: string, k: nat)
    requires from != "" && from[0] !in kept && other != "" && from[0] !in other[1..]
    requires k < |other| && k < |from| && other[k] != from[k]
    ensures Replaced(kept + (other + rest), from, to) == kept + (other + Replaced(rest, from, to))
  {
    ReplacedSkipsFree(kept, other + rest, from, to);
    forall j: nat | j < |other|
      ensures !OccursAt(other + rest, from, j)
    {
      if j == 0 {
        NotAt(other + rest, from, 0, k);
      } else {
        assert other[j] == other[1..][j - 1];
        NotAt(other + rest, from, j, 0);
      }
    }
    ReplacedSkips(other, rest, from, to);
  }

  lemma {:induction false} NoBraceInDecimal(n: nat)
    ensures '{' !in Decimal(n)
  {
    if n >= 10 {
      NoBraceInDecimal(n / 10);
    }
  }

  lemma NoBraceInDuration(total: int)
    ensures '{' !in FormatDuration(total)
  {
    var n := if total < 0 then 0 else total;
    NoBraceInDecimal(n);
    NoBraceInDecimal(n / 60);
    NoBraceInDecimal(n % 60);
  }

  lemma FirstPass(a: string, b: string, c: string, d: string, to: string)
    requires '{' !in a && '{' !in b && '{' !in c && '{' !in d
    ensures Replaced(a + ("{mutetime}" + (b + ("{mutemessage}" + (c + ("{remainingtime}" + d))))), "{mutetime}", to)
         == a + (to + (b + ("{mutemessage}" + (c + ("{remainingtime}" + d)))))
  {
    PassFills(a, "{mutetime}", to, b + ("{mutemessage}" + (c + ("{remainingtime}" + d))));
    PassSpares(b, "{mutemessage}", "{mutetime}", to, c + ("{remainingtime}" + d), 5);
    PassSpares(c, "{remainingtime}", "{mutetime}", to, d, 1);
    ReplacedNothing(d, "{mutetime}", to, 0);
  }

  lemma SecondPass(front: string, c: string, d: string, to: string)
    requires '{' !in front && '{' !in c && '{' !in d
    ensures Replaced(front + ("{mutemessage}" + (c + ("{remainingtime}" + d))), "{mutemessage}", to)
         == front + (to + (c + ("{remainingtime}" + d)))
  {
    PassFills(front, "{mutemessage}", to, c + ("{remainingtime}" + d));
    PassSpares(c, "{remainingtime}", "{mutemessage}", to, d, 1);
    ReplacedNothing(d, "{mutemessage}", to, 0);
  }

  lemma ThirdPass(front: string, d: string, to: string)
    requires '{' !in front && '{' !in d
    ensures Replaced(front + ("{remainingtime}" + d), "{remainingtime}", to) == front + (to + d)
  {
    PassFills(front, "{remainingtime}", to, d);
    ReplacedNothing(d, "{remainingtime}", to, 0);
  }

  /**
    * A held-back player reads the time of the mute and the pattern's message where the notice has their placeholders, and
    * the message once more on a line of its own.
    */
  lemma BannerSays(a: string, b: string, c: string, d: string, p: Pattern) returns (time: string)
    requires '{' !in a && '{' !in b && '{' !in c && '{' !in d && '{' !in p.muteMessage && 0 <= p.muteMinutes
    ensures Tells(time, 60 * p.muteMinutes)
    ensures InitialBanner(a + ("{mutetime}" + (b + ("{mutemessage}" + (c + ("{remainingtime}" + d))))), p)
         == a + time + b + p.muteMessage + c + time + d + (if p.muteMessage == "" then "" else "\n" + p.muteMessage)
  {
    hide Replaced, FormatDuration, Tells;
    time := FormatDuration(p.muteMinutes * 60);
    DurationTells(p.muteMinutes * 60);
    NoBraceInDuration(p.muteMinutes * 60);
    FirstPass(a, b, c, d, time);
    Regrouped(a, time, b, "{mutemessage}" + (c + ("{remainingtime}" + d)));
    SecondPass(a + time + b, c, d, p.muteMessage);
    Regrouped(a + time + b, p.muteMessage, c, "{remainingtime}" + d);
    ThirdPass(a + time + b + p.muteMessage + c, d, time);
    Concat3(a + time + b + p.muteMessage + c, time, d);
    assert "{" + "mutetime" + "}" == "{mutetime}" && "{" + "mutemessage" + "}" == "{mutemessage}";
    assert "{" + "remainingtime" + "}" == "{remainingtime}";
    var line := a + time + b + p.muteMessage + c + time + d;
    assert line + "" == line;
  }

  lemma Regrouped(x: string, y: string, z: string, w: string)
    ensures x + (y + (z + w)) == x + y + z + w
  {
  }

  // ----- the hook

  /** What the hook can read when a line is typed; `uid` is nil if it cannot be read. */
  datatype Chat = Chat(
    raw: string, category: int, controller: Object, state: Option<Object>, uid: Guid,
    property: string, account: string, guild: string)

  datatype PendingLink = PendingLink(controller: Object, code: string)

  /** What can be resolved of a player between two lines. */
  datatype Identity = Identity(state: Option<Object>, uid: Guid, name: string, platform: string)

  /** What the gates say of a line, and what its player is told. */
  datatype Verdict = Verdict(stopped: bool, relayed: bool, told: Option<string>)

  /** What the hook tries to do to the line itself. */
  datatype Effect = Untouched | Cleared | Parked

  /** A banner for one player: a private line and a screen log. */
  function Banners(queue: seq<Deferred>, chat: Chat, text: string): seq<Deferred> {
    var private :=
      if chat.uid == NIL || text == "" then queue else Pushed(queue, PrivateChat(chat.uid, text), MAX_DEFERRED);
    Pushed(private, ScreenLog(chat.controller, text), MAX_DEFERRED)
  }

  /** The player is told with a screen log and, in front of it, a private line, if the uid is known. */
  ghost predicate IsTold(chat: Chat, text: string, queue: seq<Deferred>) {
    && queue != [] && queue[|queue| - 1] == ScreenLog(chat.controller, text)
    && (chat.uid != NIL && text != "" ==> |queue| > 1 && queue[|queue| - 2] == PrivateChat(chat.uid, text))
  }

  lemma BannersTell(queue: seq<Deferred>, chat: Chat, text: string)
    ensures IsTold(chat, text, Banners(queue, chat, text))
  {
  }

  /** The local line that goes with a message, if the line was to get one. */
  function Tagged(queue: seq<Deferred>, line: PendingRelay, name: string): seq<Deferred> {
    if line.localTag then Pushed(queue, TagOf(line, name), MAX_DEFERRED) else queue
  }

  /** The deferred actions after the waiting lines went out, one by one. */
  function TaggedAll(queue: seq<Deferred>, d: Desk, resolve: Resolver): seq<Deferred>
    requires |d.waiting| == |d.pending|
    decreases |d.pending|
  {
    if d.pending == [] then queue
    else
      var name := ResolvedName(d.names, d.pending[0], resolve);
      TaggedAll(Tagged(queue, d.pending[0], name), EmitOne(d, resolve), resolve)
  }

  /** Jobs always have both parts of a platform id. */
  predicate JobOk(job: Linking.Job) {
    job.platform != "" && job.userId != "" && job.platform + "_" + job.userId == job.platformUserId
  }

  /** The platform id of a player: the one cached under the uid, else the one that can be resolved. */
  function AccountOf(platforms: map<string, string>, uidKey: string, id: Identity): string {
    if uidKey != "" && uidKey in platforms && platforms[uidKey] != "" then platforms[uidKey] else id.platform
  }

  /** A player who waits for the answer to a link command. */
  datatype LinkClient = LinkClient(controller: Object, uid: Guid)

  /** What link commands leave behind: names and platform ids by uid, who waits for an answer by account, all jobs so far. */
  datatype LinkDesk = LinkDesk(
    names: Names, platforms: map<string, string>, clients: map<string, LinkClient>, jobs: seq<Linking.Job>)

  function WithPlatform(platforms: map<string, string>, uidKey: string, account: string): map<string, string> {
    if account == "" || uidKey == "" then platforms else platforms[uidKey := account]
  }

  /** There is a client and a job only for an account id with a platform and a user part. */
  function WithClient(clients: map<string, LinkClient>, account: string, client: LinkClient): map<string, LinkClient> {
    if Linking.SplitPlatformUserId(account).Some? then clients[account := client] else clients
  }

  function WithJob(jobs: seq<Linking.Job>, account: string, name: string, code: string): seq<Linking.Job> {
    match Linking.SplitPlatformUserId(account)
    case None => jobs
    case Some(parts) => jobs + [Linking.Job(code, parts.0, parts.1, account, name)]
  }

  function UidKey(key: Printer, uid: Guid): string {
    if uid == NIL then "" else key(uid)
  }

  /** One link command of a player who is still there. */
  function AfterLink(key: Printer, d: LinkDesk, command: PendingLink, id: Identity): LinkDesk {
    var uidKey, name := UidKey(key, id.uid), CleanName(id.name);
    var account := AccountOf(d.platforms, uidKey, id);
    LinkDesk(Remember(d.names, uidKey, name), WithPlatform(d.platforms, uidKey, account),
             WithClient(d.clients, account, LinkClient(command.controller, id.uid)),
             WithJob(d.jobs, account, name, Sanitized(command.code, CODE_LIMIT)))
  }

  type Identifier = Object -> Identity

  /** All link commands, one after the other; players who left are passed over. */
  function AfterLinks(key: Printer, d: LinkDesk, commands: seq<PendingLink>, live: set<Object>, identify: Identifier): LinkDesk {
    if commands == [] then d
    else
      var before := AfterLinks(key, d, commands[..|commands| - 1], live, identify);
      var last := commands[|commands| - 1];
      if last.controller in live then AfterLink(key, before, last, identify(last.controller)) else before
  }

  /** The names learned from them. */
  function NewsOf(key: Printer, commands: seq<PendingLink>, live: set<Object>, identify: Identifier): seq<(string, string)> {
    if commands == [] then []
    else
      var before := NewsOf(key, commands[..|commands| - 1], live, identify);
      var last := commands[|commands| - 1];
      if last.controller in live
      then before + [(UidKey(key, identify(last.controller).uid), CleanName(identify(last.controller).name))] else before
  }

  lemma {:induction false} LinksAreNews(key: Printer, d: LinkDesk, commands: seq<PendingLink>, live: set<Object>,
                                         identify: Identifier)
    ensures AfterLinks(key, d, commands, live, identify).names == Learned(d.names, NewsOf(key, commands, live, identify))
    ensures ShortNews(NewsOf(key, commands, live, identify))
  {
    if commands != [] {
      var init, last := commands[..|commands| - 1], commands[|commands| - 1];
      LinksAreNews(key, d, init, live, identify);
      if last.controller in live {
        var id := identify(last.controller);
        SanitizedIsShort(id.name);
        LearnedSnoc(d.names, NewsOf(key, init, live, identify), (UidKey(key, id.uid), CleanName(id.name)));
      }
    }
  }

  /** The name of a player for a link job. */
  ghost predicate IsKnownAs(id: Identity, name: string) {
    && (Sanitized(id.name, NAME_LIMIT) != "" ==> name == Sanitized(id.name, NAME_LIMIT))
    && (Sanitized(id.name, NAME_LIMIT) == "" ==> name == "Unknown")
  }

  /** The job asks for that code, on behalf of that account and under the player's name. */
  ghost predicate IsJobOf(job: Linking.Job, code: string, id: Identity, account: string) {
    && job.code == code && IsKnownAs(id, job.name) && job.platformUserId == account
    && job.platform != "" && job.userId != "" && '_' !in job.platform && job.platform + "_" + job.userId == account
  }

  /** One job more, and its player waits for the answer. */
  ghost predicate IsAsked(d: LinkDesk, d': LinkDesk, command: PendingLink, id: Identity, account: string) {
    && |d'.jobs| == |d.jobs| + 1 && d.jobs <= d'.jobs
    && IsJobOf(d'.jobs[|d.jobs|], Sanitized(command.code, CODE_LIMIT), id, account)
    && account in d'.clients && d'.clients - {account} == d.clients - {account}
    && d'.clients[account].controller == command.controller && d'.clients[account].uid == id.uid
  }

  /** The player's name and platform id are kept under the uid. */
  ghost predicate IsKept(d: LinkDesk, d': LinkDesk, uidKey: string, id: Identity, account: string) {
    && (uidKey != "" && Sanitized(id.name, NAME_LIMIT) != "" && Sanitized(id.name, NAME_LIMIT) != "Unknown" ==>
          d'.names == d.names[uidKey := Sanitized(id.name, NAME_LIMIT)])
    && (uidKey == "" || Sanitized(id.name, NAME_LIMIT) == "" || Sanitized(id.name, NAME_LIMIT) == "Unknown" ==>
          d'.names == d.names)
    && (uidKey != "" && account != "" ==> d'.platforms == d.platforms[uidKey := account])
    && (uidKey == "" || account == "" ==> d'.platforms == d.platforms)
  }

  /**
    * What a link command leads to. The account is the platform id cached under the uid, else the one that can be
    * resolved; only one with a platform and a user part gets a job.
    */
  ghost predicate IsProcessed(key: Printer, d: LinkDesk, d': LinkDesk, command: PendingLink, id: Identity) {
    var uidKey := if id.uid == NIL then "" else key(id.uid);
    var account :=
      if uidKey != "" && uidKey in d.platforms && d.platforms[uidKey] != "" then d.platforms[uidKey] else id.platform;
    && IsKept(d, d', uidKey, id, account)
    && (Linking.SplitPlatformUserId(account).Some? ==> IsAsked(d, d', command, id, account))
    && (Linking.SplitPlatformUserId(account).None? ==> d'.jobs == d.jobs && d'.clients == d.clients)
  }

  lemma LinkIsProcessed(key: Printer, d: LinkDesk, command: PendingLink, id: Identity)
    ensures IsProcessed(key, d, AfterLink(key, d, command, id), command, id)
  {
    var uidKey := UidKey(key, id.uid);
    var account := AccountOf(d.platforms, uidKey, id);
    var parts := Linking.SplitPlatformUserId(account);
    if parts.Some? {
      var d' := AfterLink(key, d, command, id);
      assert d'.clients - {account} == d.clients - {account};
      assert d.jobs <= d'.jobs;
    }
  }

  /** None of the commands in front is for a player with that uid. */
  ghost predicate IsFirstOfUid(key: Printer, commands: seq<PendingLink>, live: set<Object>, identify: Identifier, uidKey: string) {
    forall j :: 0 <= j < |commands| && commands[j].controller in live ==>
                  UidKey(key, identify(commands[j].controller).uid) != uidKey
  }

  lemma {:induction false} PlatformStays(key: Printer, d: LinkDesk, commands: seq<PendingLink>, live: set<Object>,
                                         identify: Identifier, uidKey: string)
    requires uidKey != "" && IsFirstOfUid(key, commands, live, identify, uidKey)
    ensures var after := AfterLinks(key, d, commands, live, identify);
            (uidKey in after.platforms <==> uidKey in d.platforms) &&
            (uidKey in d.platforms ==> after.platforms[uidKey] == d.platforms[uidKey])
  {
    if commands != [] {
      var init, last := commands[..|commands| - 1], commands[|commands| - 1];
      assert forall j :: 0 <= j < |init| ==> commands[j] == init[j];
      PlatformStays(key, d, init, live, identify, uidKey);
      if last.controller in live {
        assert commands[|commands| - 1].controller == last.controller;
      }
    }
  }

  lemma LinksSnoc(key: Printer, d: LinkDesk, commands: seq<PendingLink>, last: PendingLink, live: set<Object>,
                  identify: Identifier)
    ensures var before := AfterLinks(key, d, commands, live, identify);
            AfterLinks(key, d, commands + [last], live, identify) ==
            if last.controller in live then AfterLink(key, before, last, identify(last.controller)) else before
  {
    assert (commands + [last])[..|commands|] == commands;
  }

  /** The job asks for the code of a command whose player is there, under that player's name. */
  ghost predicate IsAskedFor(job: Linking.Job, commands: seq<PendingLink>, live: set<Object>, identify: Identifier) {
    exists i :: 0 <= i < |commands| && commands[i].controller in live &&
                IsJobOf(job, commands[i].code, identify(commands[i].controller), job.platformUserId)
  }

  ghost predicate JobsAreAskedFor(was: seq<Linking.Job>, jobs: seq<Linking.Job>, commands: seq<PendingLink>, live: set<Object>,
                                  identify: Identifier)
  {
    forall k :: |was| <= k < |jobs| ==> IsAskedFor(jobs[k], commands, live, identify)
  }

  /** A player who is there and whose platform id has both parts gets a job, at the latest for the first command. */
  ghost predicate GetsJob(key: Printer, d: LinkDesk, commands: seq<PendingLink>, i: nat, live: set<Object>,
                          identify: Identifier, jobs: seq<Linking.Job>)
    requires i < |commands|
  {
    var id := identify(commands[i].controller);
    var uidKey := if id.uid == NIL then "" else key(id.uid);
    var account :=
      if uidKey != "" && uidKey in d.platforms && d.platforms[uidKey] != "" then d.platforms[uidKey] else id.platform;
    commands[i].controller in live && Linking.SplitPlatformUserId(account).Some? &&
    (uidKey == "" || IsFirstOfUid(key, commands[..i], live, identify, uidKey)) ==>
      exists k :: |d.jobs| <= k < |jobs| && IsJobOf(jobs[k], commands[i].code, id, account)
  }

  lemma LastGetsJob(key: Printer, d: LinkDesk, init: seq<PendingLink>, last: PendingLink, live: set<Object>,
                    identify: Identifier)
    requires IsCode(last.code)
    ensures var before, after := AfterLinks(key, d, init, live, identify), AfterLinks(key, d, init + [last], live, identify);
            && before.jobs <= after.jobs
            && (d.jobs <= before.jobs ==> GetsJob(key, d, init + [last], |init|, live, identify, after.jobs))
            && JobsAreAskedFor(before.jobs, after.jobs, init + [last], live, identify)
  {
    hide AfterLink, IsJobOf, IsKept, IsFirstOfUid;
    LinksSnoc(key, d, init, last, live, identify);
    var before, commands := AfterLinks(key, d, init, live, identify), init + [last];
    assert commands[|init|] == last && commands[..|init|] == init;
    if last.controller in live {
      var id := identify(last.controller);
      LinkIsProcessed(key, before, last, id);
      var uidKey := UidKey(key, id.uid);
      if uidKey != "" && IsFirstOfUid(key, init, live, identify, uidKey) {
        PlatformStays(key, d, init, live, identify, uidKey);
      }
      var jobs := AfterLink(key, before, last, id).jobs;
      if |jobs| > |before.jobs| {
        JobHasItsAccount(jobs[|before.jobs|], last.code, id, AccountOf(before.platforms, uidKey, id));
      }
    }
  }

  lemma JobHasItsAccount(job: Linking.Job, code: string, id: Identity, account: string)
    requires IsJobOf(job, code, id, account)
    ensures job.platformUserId == account
  {
  }

  lemma EarlierGetJobs(key: Printer, d: LinkDesk, init: seq<PendingLink>, last: PendingLink, i: nat, live: set<Object>,
                       identify: Identifier, jobs: seq<Linking.Job>, more: seq<Linking.Job>)
    requires i < |init| && jobs <= more && GetsJob(key, d, init, i, live, identify, jobs)
    ensures GetsJob(key, d, init + [last], i, live, identify, more)
  {
    hide IsJobOf, IsFirstOfUid;
    assert (init + [last])[..i] == init[..i] && (init + [last])[i] == init[i];
    assert forall k :: 0 <= k < |jobs| ==> more[k] == jobs[k];
  }

  lemma AskedForStill(job: Linking.Job, init: seq<PendingLink>, last: PendingLink, live: set<Object>, identify: Identifier)
    requires IsAskedFor(job, init, live, identify)
    ensures IsAskedFor(job, init + [last], live, identify)
  {
    hide IsJobOf;
    var i :| 0 <= i < |init| && init[i].controller in live &&
             IsJobOf(job, init[i].code, identify(init[i].controller), job.platformUserId);
    assert (init + [last])[i] == init[i];
  }

  lemma AskedForJoin(was: seq<Linking.Job>, mid: seq<Linking.Job>, jobs: seq<Linking.Job>, init: seq<PendingLink>,
                     last: PendingLink, live: set<Object>, identify: Identifier)
    requires was <= mid <= jobs && JobsAreAskedFor(was, mid, init, live, identify)
    requires JobsAreAskedFor(mid, jobs, init + [last], live, identify)
    ensures JobsAreAskedFor(was, jobs, init + [last], live, identify)
  {
    hide IsAskedFor;
    forall k | |was| <= k < |jobs|
      ensures IsAskedFor(jobs[k], init + [last], live, identify)
    {
      if k < |mid| {
        assert jobs[k] == mid[k];
        AskedForStill(mid[k], init, last, live, identify);
      }
    }
  }

  lemma NothingAskedFor(jobs: seq<Linking.Job>, live: set<Object>, identify: Identifier)
    ensures JobsAreAskedFor(jobs, jobs, [], live, identify)
  {
  }

  /** The codes that wait are the codes that are asked for, as a whole and each for its player. */
  lemma {:induction false} CodesBecomeJobs(key: Printer, d: LinkDesk, commands: seq<PendingLink>, live: set<Object>,
                                            identify: Identifier)
    requires CodesOk(commands)
    ensures var jobs := AfterLinks(key, d, commands, live, identify).jobs;
            && d.jobs <= jobs && JobsAreAskedFor(d.jobs, jobs, commands, live, identify)
            && forall i :: 0 <= i < |commands| ==> GetsJob(key, d, commands, i, live, identify, jobs)
  {
    hide GetsJob, JobsAreAskedFor, AfterLink, IsAskedFor, IsCode;
    if commands == [] {
      NothingAskedFor(d.jobs, live, identify);
    } else {
      var init, last := commands[..|commands| - 1], commands[|commands| - 1];
      assert commands == init + [last];
      var before, after := AfterLinks(key, d, init, live, identify), AfterLinks(key, d, commands, live, identify);
      CodesBecomeJobs(key, d, init, live, identify);
      LastGetsJob(key, d, init, last, live, identify);
      AskedForJoin(d.jobs, before.jobs, after.jobs, init, last, live, identify);
      forall i | 0 <= i < |init|
        ensures GetsJob(key, d, commands, i, live, identify, after.jobs)
      {
        EarlierGetJobs(key, d, init, last, i, live, identify, before.jobs, after.jobs);
      }
    }
  }

  /** The deferred actions after a link result came back: its notice goes to the player who waits for it, once. */
  function WithNotice(queue: seq<Deferred>, clients: map<string, LinkClient>, account: string, notice: string, live: set<Object>)
    : seq<Deferred>
  {
    if notice == "" || account == "" || account !in clients then queue
    else if clients[account].uid != NIL then Pushed(queue, PrivateChat(clients[account].uid, notice), MAX_DEFERRED)
    else if clients[account].controller in live
    then Pushed(queue, ScreenLog(clients[account].controller, notice), MAX_DEFERRED)
    else queue
  }

  /** The notice goes to the player who waits for it: as a private line, or else on the screen if the player is there. */
  ghost predicate IsNotified(queue: seq<Deferred>, queue': seq<Deferred>, client: LinkClient, notice: string, live: set<Object>) {
    && (client.uid != NIL ==> queue' != [] && queue'[|queue'| - 1] == PrivateChat(client.uid, notice))
    && (client.uid == NIL && client.controller in live ==>
          queue' != [] && queue'[|queue'| - 1] == ScreenLog(client.controller, notice))
    && (client.uid == NIL && client.controller !in live ==> queue' == queue)
  }

  ghost predicate JobsOk(jobs: seq<Linking.Job>) {
    forall i :: 0 <= i < |jobs| ==> JobOk(jobs[i])
  }

  class Capture {
    const config: Settings
    const key: Printer
    const activeNotice: string
    const initialNotice: string
    const filter: Filter
    const audience: Tracker
    const inject: CI.Injector
    const side: Ends
    const linkJobs: BoundedQueue<Linking.Job>
    var pendingLinks: seq<PendingLink>
    var pendingRelays: seq<PendingRelay>
    var names: Names
    var platforms: map<string, string>
    var clients: map<string, LinkClient>
    ghost var heard: seq<Heard>
    ghost var waiting: seq<nat>
    ghost var dropped: seq<nat>
    ghost var log: seq<Emission>
    ghost var moments: seq<Moment>

    ghost function Lines(): Desk
      reads `pendingRelays, `names, `heard, `waiting, `dropped, `log
    {
      Desk(pendingRelays, names, heard, waiting, dropped, log)
    }

    ghost function LinkState(): LinkDesk
      reads `names, `platforms, `clients, linkJobs`history
    {
      LinkDesk(names, platforms, clients, linkJobs.history.pushes)
    }

    /** The objects around are sound, and are the same ones for all. */
    ghost predicate Wired()
      reads this, filter, audience, inject, inject.audience, side, side.outbound, side.inbound, linkJobs
    {
      && filter.Valid() && inject.Valid() && side.Linked() && linkJobs.Valid()
      && inject.audience == audience && inject.filter == filter
      && (side.outbound as object) != (linkJobs as object) && (side.inbound as object) != (linkJobs as object)
      && |pendingLinks| <= MAX_LINK_COMMANDS && CodesOk(pendingLinks)
      && JobsOk(linkJobs.history.pushes)
    }

    /** What each part of the work needs of the objects around. */
    ghost predicate CanPost()
      reads inject, inject.audience, side, side.outbound, side.inbound
    {
      inject.Valid() && side.Linked()
    }

    /** All that a line needs on its way out. */
    ghost predicate CanRelay()
      reads this, inject, inject.audience, side, side.outbound, side.inbound
    {
      CanPost() && LinesOk()
    }

    ghost predicate CanJudge()
      reads filter, inject, inject.audience
    {
      filter.Valid() && inject.Valid()
    }

    ghost predicate CanQueue()
      reads linkJobs
    {
      linkJobs.Valid() && JobsOk(linkJobs.history.pushes)
    }

    ghost predicate CanLink()
      reads audience, linkJobs
    {
      audience.Valid() && CanQueue()
    }

    /** Everything handed on so far is in the log. */
    ghost predicate AllHandedOn()
      reads this, side`typed, inject`tagged
    {
      HandedOn(Lines(), side.typed, inject.tagged)
    }

    /** The lines are where some run leads to that the gates allow, and what went out went where it should. */
    ghost predicate LinesOk()
      reads this, side`typed, inject`tagged
    {
      IsDay(config, filter, moments, Lines()) && AllHandedOn()
    }

    ghost predicate Valid()
      reads this, filter, audience, inject, inject.audience, side, side.outbound, side.inbound, linkJobs
    {
      Wired() && LinesOk()
    }

    constructor (config: Settings, activeNotice: string, initialNotice: string, filter: Filter, inject: CI.Injector,
                 side: Ends, linkJobs: BoundedQueue<Linking.Job>)
      requires filter.Valid() && inject.Valid() && inject.filter == filter && side.Linked() && linkJobs.Valid()
      requires (side.outbound as object) != (linkJobs as object) && (side.inbound as object) != (linkJobs as object)
      requires linkJobs.history == Empty() && side.typed == [] && inject.tagged == []
      ensures Valid() && Lines() == NEW_DESK && moments == [] && key == Format && this.config == config
      ensures pendingLinks == [] && platforms == map[] && clients == map[] && this.audience == inject.audience
      ensures this.filter == filter && this.inject == inject && this.side == side && this.linkJobs == linkJobs
    {
      this.config, this.key, this.activeNotice, this.initialNotice := config, Format, activeNotice, initialNotice;
      this.filter, this.audience, this.inject, this.side, this.linkJobs :=
        filter, inject.audience, inject, side, linkJobs;
      pendingLinks, pendingRelays, names, platforms, clients := [], [], map[], map[], map[];
      heard, waiting, dropped, log, moments := [], [], [], [], [];
    }

    /** The sender id of a line. */
    function SenderId(chat: Chat): string {
      if chat.uid == NIL then "" else key(chat.uid)
    }

    function LineOf(chat: Chat): PendingRelay {
      PendingRelay(chat.controller, Sanitized(chat.raw, MESSAGE_LIMIT), Sanitized(chat.guild, NAME_LIMIT), SenderId(chat),
                   chat.uid, chat.category, config.showLocalServerTag && chat.category == GLOBAL)
    }

    /** The line as it is heard now. */
    ghost function HeardOf(chat: Chat, now: int): Heard
      reads filter
    {
      Heard(LineOf(chat), Sanitized(chat.property, NAME_LIMIT), now, filter.calls)
    }

    /** The key that mutes go by. */
    function MuteKey(chat: Chat): string {
      if SenderId(chat) != "" then SenderId(chat)
      else if Sanitized(chat.property, NAME_LIMIT) != "" then Sanitized(chat.property, NAME_LIMIT) else "Unknown"
    }

    ghost predicate IsMuted(chat: Chat, now: int)
      reads filter
    {
      filter.IsActive() && MutedAt(filter.calls, MuteKey(chat), now)
    }

    /** All gates are open for the line. */
    ghost predicate IsRelayed(chat: Chat, now: int)
      reads filter
    {
      TextPasses(config, filter, Sanitized(chat.raw, MESSAGE_LIMIT)) && chat.category == GLOBAL && !IsMuted(chat, now)
    }

    function LookupCachedPlayerName(uidKey: string): (name: string)
      reads this
      ensures name == Cached(names, uidKey)
    {
      if uidKey == "" then "" else if uidKey in names then names[uidKey] else ""
    }

    method CachePlayerName(uidKey: string, name: string)
      modifies `names
      ensures names == Remember(old(names), uidKey, name)
      ensures uidKey != "" && name != "" && name != "Unknown" ==> names == old(names)[uidKey := name]
      ensures uidKey == "" || name == "" || name == "Unknown" ==> names == old(names)
    {
      if uidKey == "" || name == "" || name == "Unknown" {
        return;
      }
      names := names[uidKey := name];
    }

    method ShowMuteBanner(chat: Chat, text: string)
      requires CanJudge()
      modifies inject`deferred
      ensures CanJudge() && inject.deferred == Banners(old(inject.deferred), chat, text)
    {
      if chat.uid != NIL {
        inject.EnqueuePrivateChat(chat.uid, text);
      }
      inject.EnqueueScreenLog(Some(chat.controller), text);
    }

    method ReminderText(muteKey: string, now: int) returns (line: string)
      requires filter.Valid() && filter.Due(now) && MutedAt(filter.calls, muteKey, now)
      modifies filter
      ensures filter.Valid() && filter.Due(now)
      ensures IsReminder(activeNotice, Until(old(Latest(filter.calls, muteKey)).value), now, line)
    {
      var secs := filter.MuteRemainingSeconds(muteKey, now);
      var remaining := if secs.Some? then FormatDuration(secs.value) else "?";
      line := ReplacePlaceholder(activeNotice, "remainingtime", remaining);
    }

    /** A muted player gets a reminder if the last one is long enough ago. */
    method Remind(muteKey: string, chat: Chat, now: int) returns (ghost told: Option<string>)
      requires CanJudge() && filter.Due(now)
      modifies filter, inject`deferred
      ensures CanJudge() && filter.Due(now)
      ensures told.Some? <==> old(GrantedBy(filter.calls, muteKey, REMINDER, now))
      ensures told.Some? ==>
                old(MutedAt(filter.calls, muteKey, now)) &&
                IsReminder(activeNotice, Until(old(Latest(filter.calls, muteKey)).value), now, told.value)
      ensures inject.deferred == if told.Some? then Banners(old(inject.deferred), chat, told.value) else old(inject.deferred)
    {
      hide IsReminder;
      told := None;
      var granted := filter.TryConsumeMuteNotify(muteKey, REMINDER, now);
      if granted {
        LatestKept(old(filter.calls), Notify(muteKey, REMINDER, now), muteKey);
        var line := ReminderText(muteKey, now);
        ShowMuteBanner(chat, line);
        told := Some(line);
      }
    }

    /** A line that matched: its player is told, and muted if the pattern says so. */
    method HoldBack(p: Pattern, muteKey: string, chat: Chat, now: int) returns (ghost told: string)
      requires CanJudge() && filter.Due(now)
      modifies filter, inject`deferred
      ensures CanJudge() && filter.Due(now) && told == InitialBanner(initialNotice, p)
      ensures inject.deferred == Banners(old(inject.deferred), chat, told)
      ensures filter.calls == old(filter.calls) +
                              if p.muteMinutes > 0 then [Silence(muteKey, p.muteMessage, p.muteMinutes, now)] else []
    {
      if p.muteMinutes > 0 {
        filter.Mute(muteKey, p.muteMessage, p.muteMinutes, now);
      }
      var time := FormatDuration(p.muteMinutes * 60);
      var line := ReplacePlaceholder(initialNotice, "mutetime", time);
      line := ReplacePlaceholder(line, "mutemessage", p.muteMessage);
      line := ReplacePlaceholder(line, "remainingtime", time);
      if p.muteMessage != "" {
        line := line + "\n" + p.muteMessage;
      }
      ShowMuteBanner(chat, line);
      told := line;
    }

    /** A line that matches: the first pattern that does decides what is told, and whether and how long to mute. */
    ghost predicate IsHeldBack(calls: seq<Call>, calls': seq<Call>, text: string, muteKey: string, now: int, told: string) {
      exists i: nat :: FirstMatch(filter.patterns, filter.search, text, i) &&
                       told == InitialBanner(initialNotice, filter.patterns[i]) &&
                       calls' == calls + [Ask(muteKey, now)] + Muting(filter.patterns[i], muteKey, now)
    }

    /** A matching line mutes its player for the minutes of the pattern, if there are any. */
    function Muting(p: Pattern, muteKey: string, now: int): seq<Call> {
      if p.muteMinutes > 0 then [Silence(muteKey, p.muteMessage, p.muteMinutes, now)] else []
    }

    /** Muted, or a line that matches. */
    ghost predicate IsStopped(text: string, muteKey: string, now: int)
      reads filter
    {
      filter.IsActive() && (MutedAt(filter.calls, muteKey, now) || Matched(filter.patterns, filter.search, text))
    }

    /**
      * The muted are silent, with a reminder now and then; a line that matches a pattern is held back and may mute its
      * player. Everybody else is left alone.
      */
    method FilterGate(text: string, muteKey: string, chat: Chat, now: int) returns (stop: bool, ghost told: Option<string>)
      requires CanJudge() && filter.Due(now) && text != ""
      modifies filter, inject`deferred
      ensures CanJudge() && filter.Due(now) && stop == old(IsStopped(text, muteKey, now)) && (told.Some? ==> stop)
      ensures stop && old(MutedAt(filter.calls, muteKey, now)) ==>
                && (told.Some? <==> old(GrantedBy(filter.calls, muteKey, REMINDER, now)))
                && (told.Some? ==> IsReminder(activeNotice, Until(old(Latest(filter.calls, muteKey)).value), now, told.value))
      ensures stop && !old(MutedAt(filter.calls, muteKey, now)) ==>
                told.Some? && IsHeldBack(old(filter.calls), filter.calls, text, muteKey, now, told.value)
      ensures inject.deferred == if told.Some? then Banners(old(inject.deferred), chat, told.value) else old(inject.deferred)
      ensures told.Some? ==> IsTold(chat, told.value, inject.deferred)
    {
      hide IsReminder, Matched;
      if !filter.IsActive() {
        return false, None;
      }
      LatestKept(filter.calls, Ask(muteKey, now), muteKey);
      AskTellsNothing(filter.calls, muteKey, now, muteKey, REMINDER, now);
      var muted := filter.IsMuted(muteKey, now);
      if muted {
        told := Remind(muteKey, chat, now);
        if told.Some? {
          BannersTell(old(inject.deferred), chat, told.value);
        }
        return true, told;
      }
      var matched := filter.FindMatch(text);
      if matched.None? {
        return false, None;
      }
      ghost var line := HoldBack(matched.value, muteKey, chat, now);
      BannersTell(old(inject.deferred), chat, line);
      return true, Some(line);
    }

    /** The local line, if there is to be one, and the message for the other servers. */
    method Post(line: PendingRelay, name: string)
      requires CanPost()
      modifies inject`deferred, inject`tagged, side`typed, side`local, side`outer, side.outbound, side.inbound
      ensures CanPost()
      ensures side.typed == old(side.typed) + [AsMessage(line, name)]
      ensures inject.deferred == Tagged(old(inject.deferred), line, name)
      ensures inject.tagged == old(inject.tagged) + TagFor(line, name)
    {
      if line.localTag {
        inject.EnqueueLocalTagged(name, line.guild, line.message, line.category, line.uid);
      } else {
        assert inject.tagged + [] == inject.tagged;
      }
      side.Type(AsMessage(line, name));
    }

    method KeepWaiting(line: PendingRelay, ghost h: Heard)
      requires |waiting| == |pendingRelays| && NameNow(names, h) == "" && h.line == line
      modifies `pendingRelays, `heard, `waiting, `dropped
      ensures Lines() == Spoke(old(Lines()), h)
    {
      if |pendingRelays| >= MAX_PENDING {
        pendingRelays, waiting, dropped := pendingRelays[1..], waiting[1..], dropped + [waiting[0]];
      }
      pendingRelays, waiting, heard := pendingRelays + [line], waiting + [|heard|], heard + [h];
    }

    method SendAtOnce(line: PendingRelay, name: string, ghost h: Heard)
      requires CanPost() && AllHandedOn() && name == NameNow(names, h) != "" && h.line == line
      modifies `heard, `log, inject`deferred, inject`tagged, side`typed, side`local, side`outer, side.outbound, side.inbound
      ensures CanPost() && AllHandedOn() && Lines() == Spoke(old(Lines()), h)
      ensures inject.deferred == Tagged(old(inject.deferred), line, name)
    {
      hide Ends.Linked, Tracker.Valid, HandedOn;
      HandedOnAtOnce(Lines(), h, side.typed, inject.tagged);
      Post(line, name);
      log, heard := log + [Emission(|heard|, AsMessage(line, name))], heard + [h];
    }

    method SendOrKeep(line: PendingRelay, property: string, ghost h: Heard)
      requires CanPost() && AllHandedOn() && h.line == line && h.property == property
      modifies `pendingRelays, `heard, `waiting, `dropped, `log
      modifies inject`deferred, inject`tagged, side`typed, side`local, side`outer, side.outbound, side.inbound
      ensures CanPost() && AllHandedOn() && |old(waiting)| == |old(pendingRelays)| && Lines() == Spoke(old(Lines()), h)
      ensures inject.deferred == Announced(old(inject.deferred), line, NameNow(names, h))
    {
      var name := if property != "" then property else LookupCachedPlayerName(line.senderId);
      if name == "" {
        HandedOnWaiting(Lines(), h, side.typed, inject.tagged);
        KeepWaiting(line, h);
      } else {
        SendAtOnce(line, name, h);
      }
    }

    /** One more moment of the day. */
    ghost method Advance(before: Desk, m: Moment)
      requires IsDay(config, filter, moments, before) && MomentPasses(config, filter, m)
      requires |before.waiting| == |before.pending| && Lines() == Relaying.After(before, m)
      modifies `moments
      ensures IsDay(config, filter, moments, Lines()) && Lines() == old(Lines())
    {
      DayGoesOn(config, filter, moments, before, m);
      moments := moments + [m];
    }

    /** A line that passed all gates goes out at once if its player has a name, and waits otherwise. */
    method RelayLine(line: PendingRelay, property: string, ghost h: Heard)
      requires CanRelay() && HeardPasses(config, filter, h) && h.line == line && h.property == property
      modifies `pendingRelays, `heard, `waiting, `dropped, `log, `moments
      modifies inject`deferred, inject`tagged, side`typed, side`local, side`outer, side.outbound, side.inbound
      ensures CanRelay() && Lines() == Spoke(old(Lines()), h)
      ensures inject.deferred == Announced(old(inject.deferred), line, NameNow(names, h))
    {
      hide Ends.Linked;
      ghost var before := Lines();
      SendOrKeep(line, property, h);
      Advance(before, Speak(h));
    }

    /** The deferred actions after a line that passed: its local line is there if it has a name. */
    function Announced(tags: seq<Deferred>, line: PendingRelay, name: string): seq<Deferred> {
      if name == "" then tags else Tagged(tags, line, name)
    }

    /** A link command waits for the next frame. */
    method HoldLink(chat: Chat, code: string)
      requires |pendingLinks| <= MAX_LINK_COMMANDS && CodesOk(pendingLinks) && IsCode(Sanitized(code, CODE_LIMIT))
      modifies `pendingLinks
      ensures |pendingLinks| <= MAX_LINK_COMMANDS && CodesOk(pendingLinks)
      ensures IsLast(chat.controller, Sanitized(code, CODE_LIMIT), old(pendingLinks), pendingLinks)
    {
      var clean := SanitizeMessage(code, CODE_LIMIT);
      if |pendingLinks| >= MAX_LINK_COMMANDS {
        pendingLinks := pendingLinks[1..];
      }
      pendingLinks := pendingLinks + [PendingLink(chat.controller, clean)];
    }

    /** One command more waits, and it is the last one; the first one goes only if as many wait as may. */
    ghost predicate IsLast(controller: Object, code: string, was: seq<PendingLink>, now: seq<PendingLink>) {
      && now != [] && now[|now| - 1].controller == controller && now[|now| - 1].code == code
      && (|was| < MAX_LINK_COMMANDS ==> now[..|now| - 1] == was)
      && (|was| == MAX_LINK_COMMANDS ==> now[..|now| - 1] == was[1..])
    }

    /** The link command waits as the last one, with the code as it stands in the text, cut to its length. */
    ghost predicate IsHeld(chat: Chat, text: string, was: seq<PendingLink>, now: seq<PendingLink>) {
      exists n: nat, m: nat ::
        CodeAt(text, n, m) && IsLast(chat.controller, Truncated(text[n..m], CODE_LIMIT), was, now)
    }

    method HoldCommand(text: string, chat: Chat) returns (isCommand: bool)
      requires |pendingLinks| <= MAX_LINK_COMMANDS && CodesOk(pendingLinks) && Printing(text)
      modifies `pendingLinks
      ensures |pendingLinks| <= MAX_LINK_COMMANDS && CodesOk(pendingLinks) && isCommand == IsLinkCommand(text)
      ensures isCommand ==> IsHeld(chat, text, old(pendingLinks), pendingLinks)
      ensures !isCommand ==> pendingLinks == old(pendingLinks)
    {
      hide IsLast, IsCode;
      var code := TryParseSetDiscord(text);
      isCommand := code.Some?;
      if isCommand {
        ghost var n: nat, m: nat :| CodeAt(text, n, m) && code.value == text[n..m];
        CodeIsClean(text, n, m);
        HoldLink(chat, code.value);
      }
    }

    method HandleCommand(text: string, chat: Chat) returns (isCommand: bool)
      requires Valid() && Printing(text)
      modifies `pendingLinks
      ensures Valid() && isCommand == IsLinkCommand(text)
      ensures isCommand ==> IsHeld(chat, text, old(pendingLinks), pendingLinks) && !TextPasses(config, filter, text)
      ensures !isCommand ==> pendingLinks == old(pendingLinks)
    {
      hide Ends.Linked, Filter.Valid, IsDay, HandedOn, IsLinkCommand, IsHeld, CodesOk, TextPasses, Printing;
      isCommand := HoldCommand(text, chat);
      if isCommand {
        CommandsStop(text);
      }
    }

    /** The roster with one player added or refreshed, and everybody else as before. */
    ghost predicate IsEnrolled(uid: Guid, account: string, state: Option<Object>, was: Roster, r: Roster) {
      forall g :: Lookup(audience.key, r, g) ==
                  if g == uid && g != NIL
                  then Some(Merged(Lookup(audience.key, was, g), g, audience.normalize(account), state))
                  else Lookup(audience.key, was, g)
    }

    method Enroll(uid: Guid, account: string, state: Option<Object>)
      requires audience.Valid()
      modifies audience`roster, audience`xbox, audience`others
      ensures audience.Valid() && IsEnrolled(uid, account, state, old(audience.roster), audience.roster)
    {
      ghost var was := audience.roster;
      if uid != NIL {
        audience.Upsert(uid, account, state);
      }
      forall g
        ensures Lookup(audience.key, audience.roster, g) ==
                if g == uid && g != NIL
                then Some(Merged(Lookup(audience.key, was, g), g, audience.normalize(account), state))
                else Lookup(audience.key, was, g)
      {
        assert audience.Find(g) == Lookup(audience.key, audience.roster, g);
      }
    }

    /** Whoever chats is on the roster from then on. */
    ghost predicate IsGreeted(chat: Chat, was: Roster, r: Roster) {
      IsEnrolled(chat.uid, audience.normalize(chat.account), chat.state, was, r)
    }

    method Greet(chat: Chat)
      requires CanJudge() && inject.audience == audience
      modifies audience`roster, audience`xbox, audience`others
      ensures CanJudge() && IsGreeted(chat, old(audience.roster), audience.roster)
    {
      Enroll(chat.uid, audience.normalize(chat.account), chat.state);
    }

    /**
      * What the hook does to the lines and the deferred actions: all there is to a relayed line, and nothing for any
      * other but that its player may be told why.
      */
    ghost predicate HookDone(d: Desk, d': Desk, tags: seq<Deferred>, tags': seq<Deferred>, chat: Chat, h: Heard, v: Verdict)
      requires |d.waiting| == |d.pending|
    {
      if v.relayed then d' == Spoke(d, h) && tags' == Announced(tags, h.line, NameNow(d.names, h))
      else d' == d && tags' == if v.told.Some? then Banners(tags, chat, v.told.value) else tags
    }

    /** The verdict on a line; only a player whose line was stopped is told why. */
    ghost predicate IsVerdict(chat: Chat, now: int, v: Verdict)
      reads filter
    {
      && v.stopped == IsStopped(Sanitized(chat.raw, MESSAGE_LIMIT), MuteKey(chat), now)
      && v.relayed == IsRelayed(chat, now)
      && (v.told.Some? ==> v.stopped && !v.relayed)
    }

    /** What becomes of the line in the game: stopped and retagged lines are cleared, commands are parked. */
    function EffectOf(text: string, stopped: bool, relayed: bool): Effect
      requires text != ""
    {
      if stopped then Cleared
      else if text[0] == '/' || text[0] == '!' then Parked
      else if relayed && config.showLocalServerTag then Cleared
      else Untouched
    }

    /** The line that waits is this one. */
    ghost predicate IsLineOf(chat: Chat, line: PendingRelay) {
      && line.message == Sanitized(chat.raw, MESSAGE_LIMIT) && line.guild == Sanitized(chat.guild, NAME_LIMIT)
      && line.senderId == (if chat.uid == NIL then "" else key(chat.uid)) && line.uid == chat.uid
      && line.controller == chat.controller && line.category == chat.category
      && line.localTag == (config.showLocalServerTag && chat.category == GLOBAL)
    }

    /** It is the last one that waits; the first one went only if as many waited as may. */
    ghost predicate WaitsLast(chat: Chat, was: seq<PendingRelay>, pending: seq<PendingRelay>) {
      && pending != [] && IsLineOf(chat, pending[|pending| - 1])
      && (|was| < MAX_PENDING ==> pending[..|pending| - 1] == was)
      && (|was| == MAX_PENDING ==> pending[..|pending| - 1] == was[1..])
    }

    /** One message more was handed over: the cleaned text and guild of the line, under that name. */
    ghost predicate IsHandedOver(chat: Chat, name: string, was: seq<Relay.Message>, typed: seq<Relay.Message>) {
      && |typed| == |was| + 1 && was <= typed
      && typed[|was|].text == Sanitized(chat.raw, MESSAGE_LIMIT) && typed[|was|].guild == Sanitized(chat.guild, NAME_LIMIT)
      && typed[|was|].sender == name && typed[|was|].senderId == (if chat.uid == NIL then "" else key(chat.uid))
    }

    /** With local tags, the line is the last deferred action; the first one went only if the queue was full. */
    ghost predicate IsShownHere(chat: Chat, name: string, was: seq<Deferred>, queue: seq<Deferred>) {
      if !config.showLocalServerTag then queue == was
      else
        && queue != []
        && var tag := queue[|queue| - 1];
           && tag.LocalTagged? && tag.sender == name && tag.message == Sanitized(chat.raw, MESSAGE_LIMIT)
           && tag.guild == Sanitized(chat.guild, NAME_LIMIT) && tag.category == chat.category && tag.uid == chat.uid
           && (|was| < MAX_DEFERRED ==> queue[..|queue| - 1] == was)
           && (|was| == MAX_DEFERRED ==> queue[..|queue| - 1] == was[1..])
    }

    /** A relayed line goes out under the name that can be read, else the one cached for the player, else it waits. */
    ghost predicate IsCarriedOut(chat: Chat, names: Names, typed: seq<Relay.Message>, typed': seq<Relay.Message>, queue: seq<Deferred>,
                                 queue': seq<Deferred>, pending: seq<PendingRelay>, pending': seq<PendingRelay>)
    {
      var name, id := Sanitized(chat.property, NAME_LIMIT), if chat.uid == NIL then "" else key(chat.uid);
      && (name != "" ==>
            IsHandedOver(chat, name, typed, typed') && IsShownHere(chat, name, queue, queue') && pending' == pending)
      && (name == "" && id != "" && id in names && names[id] != "" ==>
            && IsHandedOver(chat, names[id], typed, typed')
            && IsShownHere(chat, names[id], queue, queue') && pending' == pending)
      && (name == "" && (id == "" || id !in names || names[id] == "") ==>
            typed' == typed && queue' == queue && WaitsLast(chat, pending, pending'))
    }

    lemma SpokenGoesOut(chat: Chat, h: Heard, d: Desk, queue: seq<Deferred>, name: string)
      requires h.line == LineOf(chat) && chat.category == GLOBAL && name == NameNow(d.names, h) != ""
      requires |d.waiting| == |d.pending| && |queue| <= MAX_DEFERRED
      ensures var after := Spoke(d, h);
              && IsHandedOver(chat, name, MessagesOf(d.log), MessagesOf(after.log)) && after.pending == d.pending
              && IsShownHere(chat, name, queue, Announced(queue, h.line, name))
    {
      hide MessagesOf;
      MessagesExtend(d.log, Spoke(d, h).log);
    }

    lemma SpokenWaits(chat: Chat, h: Heard, d: Desk)
      requires h.line == LineOf(chat) && NameNow(d.names, h) == "" && |d.waiting| == |d.pending| <= MAX_PENDING
      ensures Spoke(d, h).log == d.log && WaitsLast(chat, d.pending, Spoke(d, h).pending)
    {
    }

    lemma SpokenIsCarriedOut(chat: Chat, h: Heard, d: Desk, queue: seq<Deferred>)
      requires h.line == LineOf(chat) && h.property == Sanitized(chat.property, NAME_LIMIT) && chat.category == GLOBAL
      requires |d.waiting| == |d.pending| <= MAX_PENDING && |queue| <= MAX_DEFERRED
      ensures var after := Spoke(d, h);
              IsCarriedOut(chat, d.names, MessagesOf(d.log), MessagesOf(after.log), queue,
                           Announced(queue, h.line, NameNow(d.names, h)), d.pending, after.pending)
    {
      hide Spoke, MessagesOf, IsHandedOver, IsShownHere, WaitsLast, Sanitized;
      if NameNow(d.names, h) == "" {
        SpokenWaits(chat, h, d);
      } else {
        SpokenGoesOut(chat, h, d, queue, NameNow(d.names, h));
      }
    }

    /** What the hook did, in terms of the line itself. */
    lemma HookTells(chat: Chat, h: Heard, v: Verdict, d: Desk, d': Desk, queue: seq<Deferred>, queue': seq<Deferred>,
                    typed: seq<Relay.Message>, typed': seq<Relay.Message>, tagged: seq<Deferred>, tagged': seq<Deferred>)
      requires h.line == LineOf(chat) && h.property == Sanitized(chat.property, NAME_LIMIT)
      requires HandedOn(d, typed, tagged) && HandedOn(d', typed', tagged') && |queue| <= MAX_DEFERRED
      requires HookDone(d, d', queue, queue', chat, h, v) && (v.relayed ==> chat.category == GLOBAL)
      ensures v.relayed ==> IsCarriedOut(chat, d.names, typed, typed', queue, queue', d.pending, d'.pending)
      ensures !v.relayed ==> typed' == typed && d'.pending == d.pending
      ensures !v.relayed && v.told.None? ==> queue' == queue
      ensures !v.relayed && v.told.Some? ==> IsTold(chat, v.told.value, queue')
    {
      hide IsCarriedOut, IsTold, Spoke, Announced;
      if v.relayed {
        SpokenIsCarriedOut(chat, h, d, queue);
      } else if v.told.Some? {
        BannersTell(queue, chat, v.told.value);
      }
    }

    /** Mutes go by the player's id, else by the name that can be read. */
    ghost predicate IsJudged(chat: Chat, now: int, stopped: bool)
      reads filter
    {
      var text, name := Sanitized(chat.raw, MESSAGE_LIMIT), Sanitized(chat.property, NAME_LIMIT);
      var id := if chat.uid == NIL then "" else key(chat.uid);
      && (id != "" ==> stopped == IsStopped(text, id, now))
      && (id == "" && name != "" ==> stopped == IsStopped(text, name, now))
      && (id == "" && name == "" ==> stopped == IsStopped(text, "Unknown", now))
    }

    lemma KeyJudges(chat: Chat, now: int)
      ensures var text := Sanitized(chat.raw, MESSAGE_LIMIT);
              && IsJudged(chat, now, IsStopped(text, MuteKey(chat), now))
              && (text != "" ==>
                    (IsRelayed(chat, now) <==>
                       TextPasses(config, filter, text) && chat.category == GLOBAL && !IsStopped(text, MuteKey(chat), now)))
              && (IsRelayed(chat, now) ==> text != "" && text[0] != '/' && text[0] != '!')
    {
      hide MutedAt;
    }

    /** What is needed here of all that is sound. */
    lemma LinesAreSound()
      requires Valid()
      ensures HandedOn(Lines(), side.typed, inject.tagged) && |inject.deferred| <= MAX_DEFERRED
    {
    }

    /** The gates in their order; what stops a line decides what happens to it in the game. */
    method PassesGates(text: string, muteKey: string, chat: Chat, now: int) returns (effect: Effect, pass: bool, ghost v: Verdict)
      requires CanJudge() && filter.Due(now) && text == Sanitized(chat.raw, MESSAGE_LIMIT) != "" && muteKey == MuteKey(chat)
      modifies filter, inject`deferred
      ensures CanJudge() && filter.Due(now)
      ensures old(IsVerdict(chat, now, v)) && pass == v.relayed && (v.told.Some? ==> v.stopped)
      ensures effect == EffectOf(text, v.stopped, false) && (pass ==> v.told.None? && !v.stopped)
      ensures inject.deferred == if v.told.Some? then Banners(old(inject.deferred), chat, v.told.value) else old(inject.deferred)
    {
      SanitizedIsClean(chat.raw, MESSAGE_LIMIT);
      ghost var told;
      var stop;
      stop, told := FilterGate(text, muteKey, chat, now);
      if stop {
        return Cleared, false, Verdict(true, false, told);
      }
      if text[0] == '/' || text[0] == '!' {
        return Parked, false, Verdict(false, false, told);
      }
      if chat.category != GLOBAL {
        return Untouched, false, Verdict(false, false, told);
      }
      LoopPrefixesCatch(config, text);
      var looped := StartsWithAnyPrefix(text, LoopPrefixes(config));
      return Untouched, !looped, Verdict(false, !looped, told);
    }

    lemma RelayedPasses(chat: Chat, now: int)
      requires IsRelayed(chat, now)
      ensures HeardPasses(config, filter, HeardOf(chat, now))
    {
      SanitizedIsShort(chat.property);
    }

    /** Through the gates, and out if they are all open. */
    method JudgeAndRelay(text: string, muteKey: string, chat: Chat, now: int) returns (effect: Effect, ghost v: Verdict)
      requires CanRelay() && CanJudge() && filter.Due(now)
      requires text == Sanitized(chat.raw, MESSAGE_LIMIT) != "" && muteKey == MuteKey(chat)
      modifies `pendingRelays, `heard, `waiting, `dropped, `log, `moments, filter
      modifies inject`deferred, inject`tagged, side`typed, side`local, side`outer, side.outbound, side.inbound
      ensures CanRelay() && CanJudge() && filter.Due(now)
      ensures old(IsVerdict(chat, now, v)) && effect == EffectOf(text, v.stopped, v.relayed)
      ensures HookDone(old(Lines()), Lines(), old(inject.deferred), inject.deferred, chat, old(HeardOf(chat, now)), v)
    {
      hide Ends.Linked, CI.Injector.Valid, IsDay, Spoke, MutedAt;
      var pass;
      ghost var h := HeardOf(chat, now);
      if IsRelayed(chat, now) {
        RelayedPasses(chat, now);
      }
      effect, pass, v := PassesGates(text, muteKey, chat, now);
      if pass {
        var property := SanitizeMessage(chat.property, NAME_LIMIT);
        RelayLine(LineOf(chat), property, h);
        if config.showLocalServerTag {
          effect := Cleared;
        }
      }
    }

    /** The speaker's name as it can be read or is cached, only used for players without an id. */
    method MuteKeyFor(chat: Chat) returns (muteKey: string)
      ensures muteKey == MuteKey(chat)
    {
      var senderId := SenderId(chat);
      var senderName := SanitizeMessage(chat.property, NAME_LIMIT);
      if senderName == "" {
        senderName := LookupCachedPlayerName(senderId);
      }
      if senderName == "" {
        senderName := "Unknown";
      }
      muteKey := if senderId != "" then senderId else senderName;
    }

    /** A line that is no link command. */
    method HandleChat(text: string, chat: Chat, now: int) returns (effect: Effect, ghost v: Verdict)
      requires CanRelay() && CanJudge() && inject.audience == audience && filter.Due(now)
      requires text == Sanitized(chat.raw, MESSAGE_LIMIT) != ""
      modifies `pendingRelays, `heard, `waiting, `dropped, `log, `moments, filter
      modifies inject`deferred, inject`tagged, side`typed, side`local, side`outer, side.outbound, side.inbound
      modifies audience`roster, audience`xbox, audience`others
      ensures CanRelay() && CanJudge() && filter.Due(now) && IsGreeted(chat, old(audience.roster), audience.roster)
      ensures old(IsVerdict(chat, now, v)) && effect == EffectOf(text, v.stopped, v.relayed)
      ensures HookDone(old(Lines()), Lines(), old(inject.deferred), inject.deferred, chat, old(HeardOf(chat, now)), v)
    {
      var muteKey := MuteKeyFor(chat);
      Greet(chat);
      effect, v := JudgeAndRelay(text, muteKey, chat, now);
    }

    /** The same, with everything around still sound. */
    method HandleTalk(text: string, chat: Chat, now: int) returns (effect: Effect, ghost v: Verdict)
      requires Valid() && filter.Due(now) && text == Sanitized(chat.raw, MESSAGE_LIMIT) != ""
      modifies `pendingRelays, `heard, `waiting, `dropped, `log, `moments, filter
      modifies inject`deferred, inject`tagged, side`typed, side`local, side`outer, side.outbound, side.inbound
      modifies audience`roster, audience`xbox, audience`others
      ensures Valid() && filter.Due(now) && IsGreeted(chat, old(audience.roster), audience.roster)
      ensures old(IsVerdict(chat, now, v)) && effect == EffectOf(text, v.stopped, v.relayed)
      ensures HookDone(old(Lines()), Lines(), old(inject.deferred), inject.deferred, chat, old(HeardOf(chat, now)), v)
    {
      hide Ends.Linked, IsDay, HandedOn, IsVerdict, HookDone, IsEnrolled, JobsOk, CodesOk, BoundedQueue.Valid, Tracker.Valid;
      effect, v := HandleChat(text, chat, now);
    }

    /** One line of chat, gate by gate. */
    method HandleLine(chat: Chat, now: int) returns (effect: Effect, ghost v: Verdict)
      requires Valid() && filter.Due(now)
      modifies `pendingRelays, `heard, `waiting, `dropped, `log, `moments, `pendingLinks, filter
      modifies inject`deferred, inject`tagged, side`typed, side`local, side`outer, side.outbound, side.inbound
      modifies audience`roster, audience`xbox, audience`others
      ensures Valid() && filter.Due(now) && v.relayed == old(IsRelayed(chat, now))
      ensures HookDone(old(Lines()), Lines(), old(inject.deferred), inject.deferred, chat, old(HeardOf(chat, now)), v)
      ensures var text := Sanitized(chat.raw, MESSAGE_LIMIT);
              && (IsLinkCommand(text) ==>
                    effect == Cleared && v == Verdict(false, false, None) && IsHeld(chat, text, old(pendingLinks), pendingLinks))
              && (!IsLinkCommand(text) ==> pendingLinks == old(pendingLinks))
              && (text == "" ==> effect == Untouched && v == Verdict(false, false, None))
              && (text != "" && !IsLinkCommand(text) ==>
                    && old(IsVerdict(chat, now, v))
                    && effect == EffectOf(text, v.stopped, v.relayed)
                    && IsGreeted(chat, old(audience.roster), audience.roster))
    {
      hide Ends.Linked, IsHeld, IsLinkCommand, IsEnrolled, HandedOn, TextPasses, IsDay, Banners, MutedAt, IsStopped, JobsOk;
      hide CodesOk, Tracker.Valid;
      v := Verdict(false, false, None);
      var text := SanitizeMessage(chat.raw, MESSAGE_LIMIT);
      KeyJudges(chat, now);
      if IsLinkCommand(text) {
        CommandsStop(text);
      }
      if text == "" {
        return Untouched, v;
      }
      SanitizedIsClean(chat.raw, MESSAGE_LIMIT);
      var isCommand := HandleCommand(text, chat);
      if isCommand {
        return Cleared, v;
      }
      effect, v := HandleTalk(text, chat, now);
    }

    /**
      * One line of chat. It is relayed exactly if every gate is open, under the name of its player or after a wait; link
      * commands wait for the next frame; everything else leaves the relayed lines and the outbound queue alone. In the
      * game, stopped lines and those shown again with a tag are cleared, and commands are parked.
      */
    method HandleHook(chat: Chat, now: int) returns (effect: Effect, ghost v: Verdict)
      requires Valid() && filter.Due(now)
      modifies `pendingRelays, `heard, `waiting, `dropped, `log, `moments, `pendingLinks, filter
      modifies inject`deferred, inject`tagged, side`typed, side`local, side`outer, side.outbound, side.inbound
      modifies audience`roster, audience`xbox, audience`others
      ensures Valid() && filter.Due(now) && v.relayed == old(IsRelayed(chat, now))
      ensures HookDone(old(Lines()), Lines(), old(inject.deferred), inject.deferred, chat, old(HeardOf(chat, now)), v)
      ensures v.relayed ==> IsCarriedOut(chat, old(names), old(side.typed), side.typed, old(inject.deferred), inject.deferred,
                                         old(pendingRelays), pendingRelays)
      ensures !v.relayed ==> side.typed == old(side.typed) && pendingRelays == old(pendingRelays)
      ensures !v.relayed && v.told.None? ==> inject.deferred == old(inject.deferred)
      ensures v.told.Some? ==> v.stopped && IsTold(chat, v.told.value, inject.deferred)
      ensures var text := Sanitized(chat.raw, MESSAGE_LIMIT);
              && (text == "" ==> effect == Untouched && !v.relayed && !v.stopped)
              && (IsLinkCommand(text) ==> effect == Cleared && v.told.None? && IsHeld(chat, text, old(pendingLinks), pendingLinks))
              && (!IsLinkCommand(text) ==> pendingLinks == old(pendingLinks))
              && (text != "" && !IsLinkCommand(text) ==>
                    && old(IsJudged(chat, now, v.stopped))
                    && v.relayed == (TextPasses(config, filter, text) && chat.category == GLOBAL && !v.stopped)
                    && IsGreeted(chat, old(audience.roster), audience.roster)
                    && (v.stopped ==> effect == Cleared)
                    && (!v.stopped && (text[0] == '/' || text[0] == '!') ==> effect == Parked)
                    && (v.relayed && config.showLocalServerTag ==> effect == Cleared)
                    && (v.relayed && !config.showLocalServerTag ==> effect == Untouched)
                    && (!v.stopped && !v.relayed && text[0] != '/' && text[0] != '!' ==> effect == Untouched))
    {
      hide Capture.Valid, HandedOn, HookDone, IsCarriedOut, IsHeld, IsLinkCommand, IsEnrolled, IsTold, IsStopped, IsJudged;
      hide TextPasses, MutedAt, Banners, MuteKey, IsRelayed;
      ghost var h, queue, text := HeardOf(chat, now), inject.deferred, Sanitized(chat.raw, MESSAGE_LIMIT);
      KeyJudges(chat, now);
      LinesAreSound();
      effect, v := HandleLine(chat, now);
      LinesAreSound();
      HookTells(chat, h, v, old(Lines()), Lines(), queue, inject.deferred, old(side.typed), side.typed,
                old(inject.tagged), inject.tagged);
    }

    // ----- the next frame

    /** The platform id of a player, from the cache or resolved now. */
    method PlatformOf(uidKey: string, id: Identity) returns (platformUserId: string)
      modifies `platforms
      ensures platformUserId == AccountOf(old(platforms), uidKey, id)
      ensures platforms == WithPlatform(old(platforms), uidKey, platformUserId)
    {
      platformUserId := "";
      if uidKey != "" && uidKey in platforms {
        platformUserId := platforms[uidKey];
      }
      if platformUserId == "" {
        platformUserId := id.platform;
        if platformUserId != "" && uidKey != "" {
          platforms := platforms[uidKey := platformUserId];
        }
      } else {
        assert platforms == platforms[uidKey := platformUserId];
      }
    }

    /** The worker may have taken jobs. */
    method JobsTaken()
      requires linkJobs.Valid()
      modifies linkJobs
      ensures linkJobs.Valid() && linkJobs.history.pushes == old(linkJobs.history.pushes)
    {
      var left: int := *;
      while left > 0
        invariant linkJobs.Valid() && linkJobs.history.pushes == old(linkJobs.history.pushes)
      {
        var job := linkJobs.TryPop();
        left := left - 1;
      }
    }

    method PushJob(job: Linking.Job)
      requires CanQueue() && JobOk(job)
      modifies linkJobs
      ensures CanQueue() && linkJobs.history.pushes == old(linkJobs.history.pushes) + [job]
    {
      JobsTaken();
      var pushed := linkJobs.Push(job);
    }

    /** A client and a job for the account, if its id has both parts. */
    method QueueJob(account: string, name: string, code: string, client: LinkClient)
      requires CanQueue()
      modifies linkJobs, `clients
      ensures CanQueue() && clients == WithClient(old(clients), account, client)
      ensures linkJobs.history.pushes == WithJob(old(linkJobs.history.pushes), account, name, Sanitized(code, CODE_LIMIT))
    {
      var parts := Linking.SplitPlatformUserId(account);
      if account == "" || parts.None? {
        return;
      }
      clients := clients[account := client];
      var clean := SanitizeMessage(code, CODE_LIMIT);
      PushJob(Linking.Job(clean, parts.value.0, parts.value.1, account, name));
    }

    /**
      * A link command: the player's name is learned, the platform id cached, the roster refreshed, and if that id has
      * both parts, a job is queued and the player waits for its answer.
      */
    method ProcessSetDiscord(command: PendingLink, id: Identity)
      requires CanLink()
      modifies `names, `platforms, `clients, audience`roster, audience`xbox, audience`others, linkJobs
      ensures CanLink() && LinkState() == AfterLink(key, old(LinkState()), command, id)
      ensures IsProcessed(key, old(LinkState()), LinkState(), command, id)
      ensures IsEnrolled(id.uid, AccountOf(old(platforms), UidKey(key, id.uid), id), id.state,
                         old(audience.roster), audience.roster)
    {
      hide IsProcessed, JobsOk, BoundedQueue.Valid, Linking.SplitPlatformUserId, Tracker.Valid, Sanitized;
      LinkIsProcessed(key, LinkState(), command, id);
      var senderName := SanitizeMessage(id.name, NAME_LIMIT);
      if senderName == "" {
        senderName := "Unknown";
      }
      var uidKey := if id.uid == NIL then "" else key(id.uid);
      CachePlayerName(uidKey, senderName);
      var platformUserId := PlatformOf(uidKey, id);
      Enroll(id.uid, platformUserId, id.state);
      QueueJob(platformUserId, senderName, command.code, LinkClient(command.controller, id.uid));
    }

    /** A link result came back; the notice goes to the player who waits for it, if there is one, and to nobody twice. */
    method DeliverLinkResult(account: string, notice: string, live: set<Object>)
      requires inject.Valid()
      modifies `clients, inject`deferred
      ensures inject.Valid() && inject.deferred == WithNotice(old(inject.deferred), old(clients), account, notice, live)
      ensures clients == if notice == "" || account == "" then old(clients) else old(clients) - {account}
      ensures notice != "" && account != "" && account in old(clients) ==>
                IsNotified(old(inject.deferred), inject.deferred, old(clients)[account], notice, live)
      ensures notice == "" || account == "" || account !in old(clients) ==> inject.deferred == old(inject.deferred)
    {
      if notice == "" || account == "" || account !in clients {
        assert account !in clients ==> clients - {account} == clients;
        return;
      }
      var client := clients[account];
      clients := clients - {account};
      if client.uid != NIL {
        inject.EnqueuePrivateChat(client.uid, notice);
      } else if client.controller in live {
        inject.EnqueueScreenLog(Some(client.controller), notice);
      }
    }

    /** The name as the engine gives it, else as it is cached; a name that is known now is kept. */
    method NameFor(line: PendingRelay, resolve: Resolver) returns (name: string)
      modifies `names
      ensures name == ResolvedName(old(names), line, resolve) && names == Remember(old(names), line.senderId, name)
    {
      name := SanitizeMessage(resolve(line.controller), NAME_LIMIT);
      if name == "" {
        name := LookupCachedPlayerName(line.senderId);
      }
      if name == "" {
        name := "Unknown";
      } else {
        CachePlayerName(line.senderId, name);
      }
    }

    /** Takes the first waiting line, with the name that is known by now. */
    method TakeNext(resolve: Resolver) returns (line: PendingRelay, name: string)
      requires |waiting| == |pendingRelays| > 0
      modifies `pendingRelays, `names, `waiting, `log
      ensures Lines() == EmitOne(old(Lines()), resolve)
      ensures line == old(pendingRelays)[0] && name == ResolvedName(old(names), line, resolve)
    {
      line := pendingRelays[0];
      pendingRelays := pendingRelays[1..];
      name := NameFor(line, resolve);
      log, waiting := log + [Emission(waiting[0], AsMessage(line, name))], waiting[1..];
    }

    method EmitNext(resolve: Resolver) returns (ghost line: PendingRelay, ghost name: string)
      requires CanPost() && AllHandedOn() && pendingRelays != []
      modifies `pendingRelays, `names, `waiting, `log
      modifies inject`deferred, inject`tagged, side`typed, side`local, side`outer, side.outbound, side.inbound
      ensures CanPost() && AllHandedOn() && |old(waiting)| == |old(pendingRelays)|
      ensures Lines() == EmitOne(old(Lines()), resolve)
      ensures line == old(pendingRelays)[0] && name == ResolvedName(old(names), line, resolve)
      ensures inject.deferred == Tagged(old(inject.deferred), line, name)
    {
      HandedOnNext(Lines(), resolve, side.typed, inject.tagged);
      var next, known := TakeNext(resolve);
      Post(next, known);
      line, name := next, known;
    }

    method FlushPendingChatRelays(resolve: Resolver)
      requires CanPost() && AllHandedOn()
      modifies `pendingRelays, `names, `waiting, `log
      modifies inject`deferred, inject`tagged, side`typed, side`local, side`outer, side.outbound, side.inbound
      ensures CanPost() && AllHandedOn() && |old(waiting)| == |old(pendingRelays)|
      ensures Lines() == Flushed(old(Lines()), resolve) && pendingRelays == []
      ensures inject.deferred == TaggedAll(old(inject.deferred), old(Lines()), resolve)
    {
      while pendingRelays != []
        invariant CanPost() && AllHandedOn() && |waiting| == |pendingRelays|
        invariant Flushed(Lines(), resolve) == Flushed(old(Lines()), resolve)
        invariant TaggedAll(inject.deferred, Lines(), resolve) == TaggedAll(old(inject.deferred), old(Lines()), resolve)
        decreases |pendingRelays|
      {
        ghost var line, name;
        line, name := EmitNext(resolve);
      }
    }

    /** The link commands that wait, oldest first. */
    method FlushLinks(live: set<Object>, identify: Identifier)
      requires CanLink()
      modifies `pendingLinks, `names, `platforms, `clients, audience`roster, audience`xbox, audience`others, linkJobs
      ensures CanLink() && pendingLinks == []
      ensures LinkState() == AfterLinks(key, old(LinkState()), old(pendingLinks), live, identify)
    {
      hide AfterLink, Tracker.Valid, BoundedQueue.Valid, IsProcessed, IsEnrolled, JobsOk;
      ghost var past: seq<PendingLink> := [];
      while pendingLinks != []
        invariant CanLink() && past + pendingLinks == old(pendingLinks)
        invariant LinkState() == AfterLinks(key, old(LinkState()), past, live, identify)
        decreases |pendingLinks|
      {
        var command := pendingLinks[0];
        pendingLinks := pendingLinks[1..];
        LinksSnoc(key, old(LinkState()), past, command, live, identify);
        past := past + [command];
        if command.controller in live {
          ProcessSetDiscord(command, identify(command.controller));
        }
      }
      assert past + [] == past;
    }

    /** This is what the link commands led to; names may have come in since. */
    ghost predicate LinksDone(d: LinkDesk)
      reads `platforms, `clients, linkJobs`history
    {
      platforms == d.platforms && clients == d.clients && linkJobs.history.pushes == d.jobs
    }

    /** The link commands change nothing about the lines but the names. */
    method FlushCommands(live: set<Object>, identify: Identifier, ghost lines: Desk, ghost links: LinkDesk,
                         ghost commands: seq<PendingLink>)
      returns (ghost news: seq<(string, string)>)
      requires CanPost() && CanLink() && AllHandedOn() && inject.audience == audience
      requires (side.outbound as object) != (linkJobs as object) && (side.inbound as object) != (linkJobs as object)
      requires lines == Lines() && links == LinkState() && commands == pendingLinks
      modifies `pendingLinks, `names, `platforms, `clients, audience`roster, audience`xbox, audience`others, linkJobs
      ensures CanPost() && CanLink() && AllHandedOn() && pendingLinks == []
      ensures news == NewsOf(key, commands, live, identify) && ShortNews(news) && Lines() == WithNews(lines, news)
      ensures LinksDone(AfterLinks(key, links, commands, live, identify))
    {
      hide Ends.Linked, Tracker.Valid, JobsOk;
      news := NewsOf(key, commands, live, identify);
      LinksAreNews(key, links, commands, live, identify);
      FlushLinks(live, identify);
    }

    method FlushAll(live: set<Object>, identify: Identifier, resolve: Resolver, ghost lines: Desk, ghost links: LinkDesk,
                    ghost commands: seq<PendingLink>)
      returns (ghost news: seq<(string, string)>)
      requires CanPost() && CanLink() && AllHandedOn() && inject.audience == audience
      requires (side.outbound as object) != (linkJobs as object) && (side.inbound as object) != (linkJobs as object)
      requires lines == Lines() && links == LinkState() && commands == pendingLinks
      modifies `pendingLinks, `pendingRelays, `names, `platforms, `clients, `waiting, `log, linkJobs
      modifies inject`deferred, inject`tagged, side`typed, side`local, side`outer, side.outbound, side.inbound
      modifies audience`roster, audience`xbox, audience`others
      ensures CanPost() && CanLink() && AllHandedOn() && pendingLinks == [] && pendingRelays == []
      ensures |lines.waiting| == |lines.pending| && news == NewsOf(key, commands, live, identify) && ShortNews(news)
      ensures Lines() == Flushed(WithNews(lines, news), resolve)
      ensures inject.deferred == TaggedAll(old(inject.deferred), WithNews(lines, news), resolve)
      ensures LinksDone(AfterLinks(key, links, commands, live, identify))
    {
      hide Ends.Linked, Tracker.Valid, JobsOk, HandedOn;
      news := FlushCommands(live, identify, lines, links, commands);
      FlushPendingChatRelays(resolve);
    }

    /** The frame as a moment of the day. */
    method FlushMoment(live: set<Object>, identify: Identifier, resolve: Resolver, ghost lines: Desk, ghost links: LinkDesk,
                       ghost commands: seq<PendingLink>)
      requires CanRelay() && CanLink() && inject.audience == audience
      requires (side.outbound as object) != (linkJobs as object) && (side.inbound as object) != (linkJobs as object)
      requires lines == Lines() && links == LinkState() && commands == pendingLinks
      modifies `pendingLinks, `pendingRelays, `names, `platforms, `clients, `waiting, `log, `moments, linkJobs
      modifies inject`deferred, inject`tagged, side`typed, side`local, side`outer, side.outbound, side.inbound
      modifies audience`roster, audience`xbox, audience`others
      ensures CanRelay() && CanLink() && pendingLinks == [] && pendingRelays == []
      ensures |lines.waiting| == |lines.pending|
      ensures var news := NewsOf(key, commands, live, identify);
              && Lines() == Relaying.After(lines, Frame(news, resolve))
              && inject.deferred == TaggedAll(old(inject.deferred), WithNews(lines, news), resolve)
      ensures LinksDone(AfterLinks(key, links, commands, live, identify))
    {
      hide CI.Injector.Valid, Tracker.Valid, JobsOk, HandedOn, AfterLinks, NewsOf, TaggedAll, BoundedQueue.Valid;
      hide WithNews, Relaying.Flushed, ShortNews;
      ghost var news := FlushAll(live, identify, resolve, lines, links, commands);
      Advance(lines, Frame(news, resolve));
    }

    /** Every frame: first the link commands, then all lines that wait for a name. */
    method FlushDeferred(live: set<Object>, identify: Identifier, resolve: Resolver)
      requires Valid()
      modifies `pendingLinks, `pendingRelays, `names, `platforms, `clients, `waiting, `log, `moments, linkJobs
      modifies inject`deferred, inject`tagged, side`typed, side`local, side`outer, side.outbound, side.inbound
      modifies audience`roster, audience`xbox, audience`others
      ensures Valid() && pendingLinks == [] && pendingRelays == []
      ensures var news := NewsOf(key, old(pendingLinks), live, identify);
              && Lines() == Relaying.After(old(Lines()), Frame(news, resolve))
              && inject.deferred == TaggedAll(old(inject.deferred), WithNews(old(Lines()), news), resolve)
      ensures LinksDone(AfterLinks(key, old(LinkState()), old(pendingLinks), live, identify))
      ensures AllSent(old(pendingRelays), Learned(old(names), NewsOf(key, old(pendingLinks), live, identify)), resolve,
                      old(side.typed), side.typed)
      ensures old(linkJobs.history.pushes) <= linkJobs.history.pushes
      ensures JobsAreAskedFor(old(linkJobs.history.pushes), linkJobs.history.pushes, old(pendingLinks), live, identify)
      ensures forall i :: 0 <= i < |old(pendingLinks)| ==>
                GetsJob(key, old(LinkState()), old(pendingLinks), i, live, identify, linkJobs.history.pushes)
    {
      hide Ends.Linked, IsDay, Tracker.Valid, HandedOn, AfterLinks, NewsOf, TaggedAll, AllSent, GetsJob, JobsAreAskedFor;
      LinesAreSound();
      CodesBecomeJobs(key, LinkState(), pendingLinks, live, identify);
      FlushMoment(live, identify, resolve, Lines(), LinkState(), pendingLinks);
      LinesAreSound();
      FrameSendsAll(old(Lines()), NewsOf(key, old(pendingLinks), live, identify), resolve, old(side.typed), side.typed,
                    old(inject.tagged), inject.tagged);
    }
  }
}
