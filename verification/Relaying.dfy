/**
  * What the capture side does with chat lines that passed its gates: a line whose speaker has a name goes out at once,
  * the others wait for the next frame, when names can be resolved. The question is whether a player's lines keep their
  * order.
  */
module Relaying {
  import opened Guids
  import opened Relay
  import opened Audience
  import opened Delivery
  import opened WordFilter
  import opened Sanitize
  import opened Injection

  const MAX_PENDING := 64

  datatype PendingRelay = PendingRelay(
    controller: Object, message: string, guild: string, senderId: string, uid: Guid, category: int, localTag: bool)

  /** A line as typed at a time, with the PlayerName property then, which may be empty, and the filter's calls so far. */
  datatype Heard = Heard(line: PendingRelay, property: string, at: int, calls: seq<Call>)

  /** Mutes go by the sender id, or by the name if there is none. */
  function MuteKeyOf(h: Heard): string {
    if h.line.senderId != "" then h.line.senderId else if h.property != "" then h.property else "Unknown"
  }

  /** A message handed to the outbound queue; `index` says which of the lines heard it is. */
  datatype Emission = Emission(index: nat, message: Message)

  type Names = map<string, string>

  /**
    * The waiting lines and the name cache, with the history: all lines heard, which of them wait, which were dropped,
    * and what went out.
    */
  datatype Desk = Desk(
    pending: seq<PendingRelay>, names: Names, heard: seq<Heard>, waiting: seq<nat>, dropped: seq<nat>, log: seq<Emission>)

  function Cached(names: Names, key: string): string {
    if key != "" && key in names then names[key] else ""
  }

  function Remember(names: Names, key: string, name: string): Names {
    if key == "" || name == "" || name == "Unknown" then names else names[key := name]
  }

  /** The name a line has when it is typed. */
  function NameNow(names: Names, h: Heard): string {
    if h.property != "" then h.property else Cached(names, h.line.senderId)
  }

  function AsMessage(line: PendingRelay, name: string): Message {
    Message(name, line.senderId, line.guild, line.message)
  }

  /** A line is typed. */
  function Spoke(d: Desk, h: Heard): Desk
    requires |d.waiting| == |d.pending|
  {
    if NameNow(d.names, h) != "" then
      d.(heard := d.heard + [h], log := d.log + [Emission(|d.heard|, AsMessage(h.line, NameNow(d.names, h)))])
    else if |d.pending| >= MAX_PENDING then
      Desk(d.pending[1..] + [h.line], d.names, d.heard + [h], d.waiting[1..] + [|d.heard|], d.dropped + [d.waiting[0]], d.log)
    else
      d.(heard := d.heard + [h], pending := d.pending + [h.line], waiting := d.waiting + [|d.heard|])
  }

  /** Names as the engine resolves them, by controller; empty for those who left. */
  type Resolver = Object -> string

  function ResolvedName(names: Names, line: PendingRelay, resolve: Resolver): string {
    var name := Sanitized(resolve(line.controller), NAME_LIMIT);
    var known := if name != "" then name else Cached(names, line.senderId);
    if known == "" then "Unknown" else known
  }

  /** The first waiting line goes out. */
  function EmitOne(d: Desk, resolve: Resolver): Desk
    requires |d.waiting| == |d.pending| > 0
  {
    var line := d.pending[0];
    var name := ResolvedName(d.names, line, resolve);
    Desk(d.pending[1..], Remember(d.names, line.senderId, name), d.heard, d.waiting[1..], d.dropped,
         d.log + [Emission(d.waiting[0], AsMessage(line, name))])
  }

  function Flushed(d: Desk, resolve: Resolver): Desk
    requires |d.waiting| == |d.pending|
    decreases |d.pending|
  {
    if d.pending == [] then d else Flushed(EmitOne(d, resolve), resolve)
  }

  /** Names learned from link commands. */
  function Learned(names: Names, news: seq<(string, string)>): Names {
    if news == [] then names
    else Remember(Learned(names, news[..|news| - 1]), news[|news| - 1].0, news[|news| - 1].1)
  }

  /** A run: lines are typed, and between them frames pass. */
  datatype Moment = Speak(h: Heard) | Frame(news: seq<(string, string)>, resolve: Resolver)

  function After(d: Desk, m: Moment): Desk
    requires |d.waiting| == |d.pending|
  {
    match m
    case Speak(h) => Spoke(d, h)
    case Frame(news, resolve) => Flushed(WithNews(d, news), resolve)
  }

  function WithNews(d: Desk, news: seq<(string, string)>): Desk {
    d.(names := Learned(d.names, news))
  }

  const NEW_DESK := Desk([], map[], [], [], [], [])

  // ----- what every moment keeps

  /** Lines of one player, both typed with a readable name or both without. */
  predicate Alike(a: Heard, b: Heard) {
    a.line.senderId == b.line.senderId && (a.property == "") == (b.property == "")
  }

  /** `a` may stand in front of `b`: of two alike lines the earlier one does. */
  ghost predicate MayPrecede(a: nat, b: nat, heard: seq<Heard>) {
    a < |heard| && b < |heard| && (Alike(heard[a], heard[b]) ==> a < b)
  }

  ghost predicate InOrder(ps: seq<nat>, heard: seq<Heard>) {
    && (forall i :: 0 <= i < |ps| ==> ps[i] < |heard|)
    && (forall i, j :: 0 <= i < j < |ps| ==> MayPrecede(ps[i], ps[j], heard))
  }

  function Indexes(log: seq<Emission>): (ps: seq<nat>)
    ensures |ps| == |log| && forall k :: 0 <= k < |log| ==> ps[k] == log[k].index
  {
    if log == [] then [] else Indexes(log[..|log| - 1]) + [log[|log| - 1].index]
  }

  function Upto(n: nat): seq<nat> {
    if n == 0 then [] else Upto(n - 1) + [n - 1]
  }

  /** Each of the `n` lines went out, waits or was dropped, just once. */
  ghost predicate Conserved(out: seq<nat>, waiting: seq<nat>, dropped: seq<nat>, n: nat) {
    multiset(out) + multiset(waiting) + multiset(dropped) == multiset(Upto(n))
  }

  /** The waiting lines are those pending, and had no readable name. */
  ghost predicate WaitingOk(pending: seq<PendingRelay>, waiting: seq<nat>, heard: seq<Heard>) {
    && |waiting| == |pending| <= MAX_PENDING
    && (forall i :: 0 <= i < |waiting| ==> waiting[i] < |heard|)
    && (forall i :: 0 <= i < |waiting| ==> heard[waiting[i]].line == pending[i] && heard[waiting[i]].property == "")
  }

  /** A player with a waiting line has no cached name. */
  ghost predicate NoneCached(pending: seq<PendingRelay>, names: Names) {
    forall i :: 0 <= i < |pending| ==> Cached(names, pending[i].senderId) == ""
  }

  /** A message carries the text, the guild and the sender id of a line, and the player's name if that was readable. */
  ghost predicate IsMessageOf(m: Message, h: Heard) {
    && m.text == h.line.message && m.guild == h.line.guild && m.senderId == h.line.senderId
    && (h.property != "" ==> m.sender == h.property)
  }

  ghost predicate Carries(e: Emission, heard: seq<Heard>) {
    e.index < |heard| && IsMessageOf(e.message, heard[e.index])
  }

  ghost predicate AllCarry(log: seq<Emission>, heard: seq<Heard>) {
    forall k :: 0 <= k < |log| ==> Carries(log[k], heard)
  }

  ghost predicate NamesOk(names: Names) {
    forall k :: k in names ==> names[k] != ""
  }

  /** All of it but the cache: names may come in while lines wait, as long as those lines go out next. */
  ghost predicate FlushOk(d: Desk) {
    && WaitingOk(d.pending, d.waiting, d.heard)
    && AllCarry(d.log, d.heard)
    && InOrder(Indexes(d.log) + d.waiting, d.heard)
    && Conserved(Indexes(d.log), d.waiting, d.dropped, |d.heard|)
    && NamesOk(d.names)
  }

  ghost predicate DeskOk(d: Desk) {
    FlushOk(d) && NoneCached(d.pending, d.names)
  }

  lemma MayStillPrecede(a: nat, b: nat, heard: seq<Heard>, h: Heard)
    requires MayPrecede(a, b, heard)
    ensures MayPrecede(a, b, heard + [h])
  {
  }

  /** The newest line may come after anything, and before lines that are not like it. */
  lemma InOrderInsert(ps: seq<nat>, qs: seq<nat>, heard: seq<Heard>, h: Heard)
    requires InOrder(ps + qs, heard) && forall i :: 0 <= i < |qs| ==> qs[i] < |heard| && !Alike(h, heard[qs[i]])
    ensures InOrder(ps + [|heard|] + qs, heard + [h])
  {
    var all, more, n := ps + qs, ps + [|heard|] + qs, |ps|;
    forall i | 0 <= i < |more| && i != n
      ensures more[i] == all[if i < n then i else i - 1] < |heard|
    {
    }
    forall i, j | 0 <= i < j < |more|
      ensures MayPrecede(more[i], more[j], heard + [h])
    {
      if i != n && j != n {
        MayStillPrecede(all[if i < n then i else i - 1], all[if j < n then j else j - 1], heard, h);
      } else if i == n {
        assert more[j] == qs[j - n - 1];
      }
    }
  }

  lemma InOrderAppend(ps: seq<nat>, qs: seq<nat>, heard: seq<Heard>, h: Heard)
    requires InOrder(ps + qs, heard)
    ensures InOrder(ps + (qs + [|heard|]), heard + [h])
  {
    assert ps + qs + [] == ps + qs;
    InOrderInsert(ps + qs, [], heard, h);
    assert ps + qs + [|heard|] + [] == ps + (qs + [|heard|]);
  }

  lemma InOrderDrop(ps: seq<nat>, qs: seq<nat>, heard: seq<Heard>)
    requires InOrder(ps + qs, heard) && qs != []
    ensures InOrder(ps + qs[1..], heard)
  {
    var all, less, n := ps + qs, ps + qs[1..], |ps|;
    forall i | 0 <= i < |less|
      ensures less[i] == all[if i < n then i else i + 1]
    {
    }
    forall i, j | 0 <= i < j < |less|
      ensures MayPrecede(less[i], less[j], heard)
    {
      assert MayPrecede(all[if i < n then i else i + 1], all[if j < n then j else j + 1], heard);
    }
  }

  lemma CarriesMore(log: seq<Emission>, heard: seq<Heard>, h: Heard)
    requires AllCarry(log, heard)
    ensures AllCarry(log, heard + [h])
  {
    forall k | 0 <= k < |log|
      ensures Carries(log[k], heard + [h])
    {
      assert Carries(log[k], heard);
    }
  }

  lemma CarriesSnoc(log: seq<Emission>, e: Emission, heard: seq<Heard>)
    requires AllCarry(log, heard) && Carries(e, heard)
    ensures AllCarry(log + [e], heard)
  {
  }

  lemma WaitingMore(pending: seq<PendingRelay>, waiting: seq<nat>, heard: seq<Heard>, h: Heard)
    requires WaitingOk(pending, waiting, heard)
    ensures WaitingOk(pending, waiting, heard + [h])
    ensures |pending| < MAX_PENDING && h.property == "" ==> WaitingOk(pending + [h.line], waiting + [|heard|], heard + [h])
  {
  }

  lemma ConservedMore(out: seq<nat>, waiting: seq<nat>, dropped: seq<nat>, n: nat)
    requires Conserved(out, waiting, dropped, n)
    ensures Conserved(out + [n], waiting, dropped, n + 1) && Conserved(out, waiting + [n], dropped, n + 1)
  {
    assert multiset(Upto(n + 1)) == multiset(Upto(n)) + multiset{n};
  }

  lemma ConservedMoved(out: seq<nat>, waiting: seq<nat>, dropped: seq<nat>, n: nat)
    requires Conserved(out, waiting, dropped, n) && waiting != []
    ensures Conserved(out + [waiting[0]], waiting[1..], dropped, n) && Conserved(out, waiting[1..], dropped + [waiting[0]], n)
  {
    assert waiting == [waiting[0]] + waiting[1..];
  }

  /** No line of a player who has a name by now is waiting, unless this name is readable and was not then. */
  lemma NoneAlikeWaits(d: Desk, h: Heard)
    requires DeskOk(d) && NameNow(d.names, h) != ""
    ensures forall i :: 0 <= i < |d.waiting| ==> d.waiting[i] < |d.heard| && !Alike(h, d.heard[d.waiting[i]])
  {
    forall i | 0 <= i < |d.waiting|
      ensures !Alike(h, d.heard[d.waiting[i]])
    {
      assert Cached(d.names, d.pending[i].senderId) == "";
    }
  }

  lemma SpokeAtOnce(d: Desk, h: Heard)
    requires DeskOk(d) && NameNow(d.names, h) != ""
    ensures DeskOk(Spoke(d, h))
  {
    var e := Emission(|d.heard|, AsMessage(h.line, NameNow(d.names, h)));
    CarriesMore(d.log, d.heard, h);
    CarriesSnoc(d.log, e, d.heard + [h]);
    WaitingMore(d.pending, d.waiting, d.heard, h);
    NoneAlikeWaits(d, h);
    InOrderInsert(Indexes(d.log), d.waiting, d.heard, h);
    ConservedMore(Indexes(d.log), d.waiting, d.dropped, |d.heard|);
  }

  lemma NoneCachedMore(pending: seq<PendingRelay>, names: Names, line: PendingRelay)
    requires NoneCached(pending, names) && Cached(names, line.senderId) == ""
    ensures NoneCached(pending + [line], names)
  {
  }

  lemma SpokeToWait(d: Desk, h: Heard)
    requires DeskOk(d) && NameNow(d.names, h) == "" && |d.pending| < MAX_PENDING
    ensures DeskOk(Spoke(d, h))
  {
    NoneCachedMore(d.pending, d.names, h.line);
    CarriesMore(d.log, d.heard, h);
    WaitingMore(d.pending, d.waiting, d.heard, h);
    InOrderAppend(Indexes(d.log), d.waiting, d.heard, h);
    ConservedMore(Indexes(d.log), d.waiting, d.dropped, |d.heard|);
  }

  /** The oldest waiting line is given up. */
  function WithoutOldest(d: Desk): Desk
    requires |d.waiting| == |d.pending| > 0
  {
    d.(pending := d.pending[1..], waiting := d.waiting[1..], dropped := d.dropped + [d.waiting[0]])
  }

  lemma OldestDropped(d: Desk)
    requires DeskOk(d) && d.pending != []
    ensures DeskOk(WithoutOldest(d))
  {
    InOrderDrop(Indexes(d.log), d.waiting, d.heard);
    ConservedMoved(Indexes(d.log), d.waiting, d.dropped, |d.heard|);
  }

  lemma SpokeKeeps(d: Desk, h: Heard)
    requires DeskOk(d)
    ensures DeskOk(Spoke(d, h))
  {
    if NameNow(d.names, h) != "" {
      SpokeAtOnce(d, h);
    } else if |d.pending| < MAX_PENDING {
      SpokeToWait(d, h);
    } else {
      OldestDropped(d);
      SpokeToWait(WithoutOldest(d), h);
      assert Spoke(d, h) == Spoke(WithoutOldest(d), h);
    }
  }

  lemma FirstMoves(ps: seq<nat>, qs: seq<nat>)
    requires qs != []
    ensures ps + [qs[0]] + qs[1..] == ps + qs
  {
  }

  lemma RememberOk(names: Names, key: string, name: string)
    requires NamesOk(names)
    ensures NamesOk(Remember(names, key, name))
  {
  }

  lemma EmitOneKeeps(d: Desk, resolve: Resolver)
    requires FlushOk(d) && d.pending != []
    ensures FlushOk(EmitOne(d, resolve))
  {
    var name := ResolvedName(d.names, d.pending[0], resolve);
    var e := Emission(d.waiting[0], AsMessage(d.pending[0], name));
    RememberOk(d.names, d.pending[0].senderId, name);
    CarriesSnoc(d.log, e, d.heard);
    FirstMoves(Indexes(d.log), d.waiting);
    ConservedMoved(Indexes(d.log), d.waiting, d.dropped, |d.heard|);
  }

  lemma {:induction false} FlushedKeeps(d: Desk, resolve: Resolver)
    requires FlushOk(d)
    ensures DeskOk(Flushed(d, resolve)) && Flushed(d, resolve).pending == []
    decreases |d.pending|
  {
    if d.pending != [] {
      EmitOneKeeps(d, resolve);
      FlushedKeeps(EmitOne(d, resolve), resolve);
    }
  }

  lemma {:induction false} LearnedOk(names: Names, news: seq<(string, string)>)
    requires NamesOk(names)
    ensures NamesOk(Learned(names, news))
  {
    if news != [] {
      LearnedOk(names, news[..|news| - 1]);
    }
  }

  lemma AfterKeeps(d: Desk, m: Moment)
    requires DeskOk(d)
    ensures DeskOk(After(d, m))
  {
    match m
    case Speak(h) => SpokeKeeps(d, h);
    case Frame(news, resolve) =>
      LearnedOk(d.names, news);
      FlushedKeeps(d.(names := Learned(d.names, news)), resolve);
  }

  ghost predicate IsRun(first: Desk, moments: seq<Moment>, last: Desk)
    decreases |moments|
  {
    if moments == [] then first == last
    else |first.waiting| == |first.pending| && IsRun(After(first, moments[0]), moments[1..], last)
  }

  lemma {:induction false} RunSnoc(first: Desk, moments: seq<Moment>, last: Desk, m: Moment)
    requires IsRun(first, moments, last) && |last.waiting| == |last.pending|
    ensures IsRun(first, moments + [m], After(last, m))
    decreases |moments|
  {
    var more := moments + [m];
    if moments == [] {
      assert more[1..] == [];
    } else {
      assert more[1..] == moments[1..] + [m];
      RunSnoc(After(first, moments[0]), moments[1..], last, m);
    }
  }

  lemma {:induction false} RunKeeps(first: Desk, moments: seq<Moment>, last: Desk)
    requires DeskOk(first) && IsRun(first, moments, last)
    ensures DeskOk(last)
    decreases |moments|
  {
    if moments != [] {
      AfterKeeps(first, moments[0]);
      RunKeeps(After(first, moments[0]), moments[1..], last);
    }
  }

  lemma RunIsOk(moments: seq<Moment>, last: Desk)
    requires IsRun(NEW_DESK, moments, last)
    ensures DeskOk(last)
  {
    hide IsRun;
    RunKeeps(NEW_DESK, moments, last);
  }

  /**
    * Over any run of chat lines and frames: two lines of one player that were both typed with a readable name, or both
    * without, go out in typing order, although some go at once and some wait; and every line heard went out, waits or
    * was dropped as the oldest, just once, and only as many were dropped as could not wait.
    */
  lemma TypingOrder(moments: seq<Moment>, last: Desk, k: nat, l: nat)
    requires IsRun(NEW_DESK, moments, last) && k < l < |last.log|
    ensures last.log[k].index < |last.heard| && last.log[l].index < |last.heard|
    ensures Alike(last.heard[last.log[k].index], last.heard[last.log[l].index]) ==> last.log[k].index < last.log[l].index
    ensures multiset(Indexes(last.log)) + multiset(last.waiting) + multiset(last.dropped) == multiset(Upto(|last.heard|))
    ensures last.dropped != [] ==> |last.dropped| + MAX_PENDING <= |last.heard|
  {
    RunIsOk(moments, last);
    RunDropsLittle(NEW_DESK, moments, last);
    var ps := Indexes(last.log) + last.waiting;
    assert MayPrecede(ps[k], ps[l], last.heard);
  }

  /** Only as many lines were dropped as could not wait. */
  ghost predicate DropsAreForced(d: Desk) {
    d.dropped != [] ==> |d.dropped| + MAX_PENDING <= |d.heard|
  }

  lemma {:induction false} UptoCounts(n: nat)
    ensures |Upto(n)| == n
  {
    if n > 0 {
      UptoCounts(n - 1);
    }
  }

  lemma AllAreCounted(d: Desk)
    requires Conserved(Indexes(d.log), d.waiting, d.dropped, |d.heard|)
    ensures |d.log| + |d.waiting| + |d.dropped| == |d.heard|
  {
    UptoCounts(|d.heard|);
    assert |multiset(Indexes(d.log)) + multiset(d.waiting) + multiset(d.dropped)| == |multiset(Upto(|d.heard|))|;
  }

  lemma {:induction false} FlushedDropsNothing(d: Desk, resolve: Resolver)
    requires |d.waiting| == |d.pending|
    ensures Flushed(d, resolve).dropped == d.dropped && Flushed(d, resolve).heard == d.heard
    decreases |d.pending|
  {
    if d.pending != [] {
      FlushedDropsNothing(EmitOne(d, resolve), resolve);
    }
  }

  lemma {:induction false} RunDropsLittle(first: Desk, moments: seq<Moment>, last: Desk)
    requires DeskOk(first) && DropsAreForced(first) && IsRun(first, moments, last)
    ensures DropsAreForced(last)
    decreases |moments|
  {
    if moments != [] {
      AfterKeeps(first, moments[0]);
      AllAreCounted(first);
      match moments[0] {
        case Speak(h) =>
        case Frame(news, resolve) => FlushedDropsNothing(WithNews(first, news), resolve);
      }
      RunDropsLittle(After(first, moments[0]), moments[1..], last);
    }
  }

  /** A line passes a waiting line of its own player exactly if its name is readable; a cached name never lets it. */
  lemma PassesIff(moments: seq<Moment>, last: Desk, h: Heard, i: nat)
    requires IsRun(NEW_DESK, moments, last) && |last.waiting| == |last.pending|
    requires i < |last.pending| && last.pending[i].senderId == h.line.senderId
    ensures |Spoke(last, h).log| > |last.log| <==> h.property != ""
  {
    RunIsOk(moments, last);
    assert NoneCached(last.pending, last.names);
    assert NameNow(last.names, h) == h.property;
  }

  /** So a player whose name becomes readable between two lines has them swapped. */
  lemma OrderIsLostWhenTheNameAppears(first: Heard, next: Heard, resolve: Resolver)
    returns (moments: seq<Moment>, last: Desk)
    requires first.line.senderId == next.line.senderId && first.property == "" && next.property != ""
    ensures moments == [Speak(first), Speak(next), Frame([], resolve)]
    ensures IsRun(NEW_DESK, moments, last) && |last.log| == 2 && last.log[0].index == 1 && last.log[1].index == 0
  {
    moments := [Speak(first), Speak(next), Frame([], resolve)];
    var d1 := After(NEW_DESK, moments[0]);
    var d2 := After(d1, moments[1]);
    assert d2.pending == [first.line] && d2.waiting == [0] && |d2.log| == 1;
    var d3 := EmitOne(d2, resolve);
    assert d3.pending == [] && Flushed(d2, resolve) == Flushed(d3, resolve) == d3;
    last := After(d2, moments[2]);
    assert moments[1..][1..][1..] == [] && moments[1..][0] == moments[1] && moments[1..][1..][0] == moments[2];
    assert IsRun(last, moments[1..][1..][1..], last);
    assert IsRun(d2, moments[1..][1..], last);
    assert IsRun(d1, moments[1..], last);
  }

  // ----- local lines

  /** The messages handed to the outbound queue. */
  function MessagesOf(log: seq<Emission>): (ms: seq<Message>)
    ensures |ms| == |log| && forall k :: 0 <= k < |log| ==> ms[k] == log[k].message
  {
    if log == [] then [] else MessagesOf(log[..|log| - 1]) + [log[|log| - 1].message]
  }

  predicate IsTagged(e: Emission, heard: seq<Heard>) {
    e.index < |heard| && heard[e.index].line.localTag
  }

  /** The local line that goes with a message. */
  function TagOf(line: PendingRelay, name: string): Deferred {
    LocalTagged(name, line.guild, line.message, line.category, line.uid)
  }

  /** The lines that went out with a local line, in the order these were deferred. */
  function TaggedIndexes(log: seq<Emission>, heard: seq<Heard>): (ps: seq<nat>)
    ensures forall k :: 0 <= k < |ps| ==> ps[k] < |heard| && heard[ps[k]].line.localTag
  {
    if log == [] then []
    else
      var before, e := TaggedIndexes(log[..|log| - 1], heard), log[|log| - 1];
      if IsTagged(e, heard) then before + [e.index] else before
  }

  /** The local lines deferred. */
  function TagActions(log: seq<Emission>, heard: seq<Heard>): (tags: seq<Deferred>)
    ensures |tags| == |TaggedIndexes(log, heard)|
  {
    if log == [] then []
    else
      var before, e := TagActions(log[..|log| - 1], heard), log[|log| - 1];
      if IsTagged(e, heard) then before + [TagOf(heard[e.index].line, e.message.sender)] else before
  }

  /** Lines heard later change nothing. */
  lemma {:induction false} TagsStay(log: seq<Emission>, heard: seq<Heard>, h: Heard)
    requires AllCarry(log, heard)
    ensures TagActions(log, heard + [h]) == TagActions(log, heard)
  {
    if log != [] {
      var init, e := log[..|log| - 1], log[|log| - 1];
      TagsStay(init, heard, h);
      assert Carries(e, heard);
    }
  }

  /** A local line shows the text and the guild of a line of chat, in its category, for its player. */
  ghost predicate IsTagOf(tag: Deferred, line: PendingRelay) {
    && tag.LocalTagged? && tag.message == line.message && tag.guild == line.guild
    && tag.category == line.category && tag.uid == line.uid
  }

  /** The message of the line went out under that name. */
  ghost predicate WentOutAs(log: seq<Emission>, index: nat, name: string) {
    exists k :: 0 <= k < |log| && log[k].index == index && log[k].message.sender == name
  }

  /** What is deferred is the text of those lines. */
  lemma {:induction false} TagsCarry(log: seq<Emission>, heard: seq<Heard>, k: nat)
    requires k < |TagActions(log, heard)|
    ensures var tag, index := TagActions(log, heard)[k], TaggedIndexes(log, heard)[k];
            IsTagOf(tag, heard[index].line) && WentOutAs(log, index, tag.sender)
  {
    var init := log[..|log| - 1];
    if k < |TagActions(init, heard)| {
      TagsCarry(init, heard, k);
      var tag, index := TagActions(init, heard)[k], TaggedIndexes(init, heard)[k];
      var j :| 0 <= j < |init| && init[j].index == index && init[j].message.sender == tag.sender;
      assert log[j] == init[j];
    } else {
      assert log[|init|].index == TaggedIndexes(log, heard)[k];
    }
  }

  lemma {:induction false} TaggedInOrder(log: seq<Emission>, heard: seq<Heard>)
    requires InOrder(Indexes(log), heard)
    ensures InOrder(TaggedIndexes(log, heard), heard)
    ensures forall p :: p in TaggedIndexes(log, heard) ==> p in Indexes(log)
  {
    if log != [] {
      var init, e := log[..|log| - 1], log[|log| - 1];
      var ps, all := TaggedIndexes(init, heard), Indexes(log);
      assert Indexes(init) == all[..|init|];
      TaggedInOrder(init, heard);
      forall i | 0 <= i < |ps|
        ensures MayPrecede(ps[i], e.index, heard)
      {
        assert ps[i] in Indexes(init);
        var j :| 0 <= j < |init| && all[j] == ps[i];
        assert MayPrecede(all[j], all[|init|], heard);
      }
    }
  }

  /**
    * Over any run, local lines enter the deferred queue in typing order as well, player by player, each with the text of
    * its line and the name its message went out under.
    */
  lemma LocalLinesInTypingOrder(moments: seq<Moment>, last: Desk, k: nat, l: nat)
    requires IsRun(NEW_DESK, moments, last) && k < l < |TagActions(last.log, last.heard)|
    ensures var ps := TaggedIndexes(last.log, last.heard);
            Alike(last.heard[ps[k]], last.heard[ps[l]]) ==> ps[k] < ps[l]
    ensures var tag, index := TagActions(last.log, last.heard)[l], TaggedIndexes(last.log, last.heard)[l];
            IsTagOf(tag, last.heard[index].line) && WentOutAs(last.log, index, tag.sender)
  {
    RunIsOk(moments, last);
    var all := Indexes(last.log);
    assert (all + last.waiting)[..|all|] == all;
    TaggedInOrder(last.log, last.heard);
    TagsCarry(last.log, last.heard, l);
    var ps := TaggedIndexes(last.log, last.heard);
    assert MayPrecede(ps[k], ps[l], last.heard);
  }

  // ----- what was handed on

  /** The messages handed to the other servers and the local lines deferred are those of the log. */
  ghost predicate HandedOn(d: Desk, typed: seq<Message>, tagged: seq<Deferred>) {
    && WaitingOk(d.pending, d.waiting, d.heard) && AllCarry(d.log, d.heard)
    && typed == MessagesOf(d.log) && tagged == TagActions(d.log, d.heard)
  }

  function TagFor(line: PendingRelay, name: string): seq<Deferred> {
    if line.localTag then [TagOf(line, name)] else []
  }

  lemma HandedOnAtOnce(d: Desk, h: Heard, typed: seq<Message>, tagged: seq<Deferred>)
    requires HandedOn(d, typed, tagged) && NameNow(d.names, h) != ""
    ensures var name := NameNow(d.names, h);
            HandedOn(Spoke(d, h), typed + [AsMessage(h.line, name)], tagged + TagFor(h.line, name))
  {
    var e := Emission(|d.heard|, AsMessage(h.line, NameNow(d.names, h)));
    WaitingMore(d.pending, d.waiting, d.heard, h);
    CarriesMore(d.log, d.heard, h);
    CarriesSnoc(d.log, e, d.heard + [h]);
    TagsStay(d.log, d.heard, h);
    assert tagged + [] == tagged;
  }

  lemma HandedOnWaiting(d: Desk, h: Heard, typed: seq<Message>, tagged: seq<Deferred>)
    requires HandedOn(d, typed, tagged) && NameNow(d.names, h) == ""
    ensures HandedOn(Spoke(d, h), typed, tagged)
  {
    if |d.pending| >= MAX_PENDING {
      WaitingMore(d.pending[1..], d.waiting[1..], d.heard, h);
    } else {
      WaitingMore(d.pending, d.waiting, d.heard, h);
    }
    CarriesMore(d.log, d.heard, h);
    TagsStay(d.log, d.heard, h);
  }

  lemma HandedOnNext(d: Desk, resolve: Resolver, typed: seq<Message>, tagged: seq<Deferred>)
    requires HandedOn(d, typed, tagged) && d.pending != []
    ensures var line := d.pending[0];
            var name := ResolvedName(d.names, line, resolve);
            HandedOn(EmitOne(d, resolve), typed + [AsMessage(line, name)], tagged + TagFor(line, name))
  {
    var line := d.pending[0];
    var e := Emission(d.waiting[0], AsMessage(line, ResolvedName(d.names, line, resolve)));
    CarriesSnoc(d.log, e, d.heard);
    assert tagged + [] == tagged;
  }

  // ----- the names of waiting lines

  /** The name a waiting line goes out under: the one that can be resolved, else the one cached, else "Unknown". */
  ghost predicate GoesUnder(names: Names, line: PendingRelay, resolve: Resolver, name: string) {
    var resolved, id := Sanitized(resolve(line.controller), NAME_LIMIT), line.senderId;
    && (resolved != "" ==> name == resolved)
    && (resolved == "" && id != "" && id in names && names[id] != "" ==> name == names[id])
    && (resolved == "" && (id == "" || id !in names || names[id] == "") ==> name == "Unknown")
  }

  /** The message is that of the waiting line, under its resolved name if there is one. */
  ghost predicate IsSent(line: PendingRelay, resolve: Resolver, m: Message) {
    && m.text == line.message && m.guild == line.guild && m.senderId == line.senderId && m.sender != ""
    && (Sanitized(resolve(line.controller), NAME_LIMIT) != "" ==> m.sender == Sanitized(resolve(line.controller), NAME_LIMIT))
  }

  /** No line in front of it is of the same player. */
  ghost predicate IsFirstOfPlayer(pending: seq<PendingRelay>, i: nat) {
    i < |pending| && forall j :: 0 <= j < i ==> pending[j].senderId != pending[i].senderId
  }

  lemma FirstGoesOut(d: Desk, resolve: Resolver)
    requires |d.waiting| == |d.pending| > 0
    ensures var next := EmitOne(d, resolve);
            && next.pending == d.pending[1..] && next.waiting == d.waiting[1..]
            && |next.log| == |d.log| + 1 && d.log <= next.log && next.log[|d.log|].index == d.waiting[0]
            && IsSent(d.pending[0], resolve, next.log[|d.log|].message)
            && GoesUnder(d.names, d.pending[0], resolve, next.log[|d.log|].message.sender)
  {
  }

  /** What is learned when the first line goes out does not concern other players. */
  lemma OthersAreNamedAlike(d: Desk, resolve: Resolver, i: nat)
    requires |d.waiting| == |d.pending| && 0 < i && IsFirstOfPlayer(d.pending, i)
    ensures IsFirstOfPlayer(d.pending[1..], i - 1)
    ensures forall name :: GoesUnder(EmitOne(d, resolve).names, d.pending[i], resolve, name) <==>
                           GoesUnder(d.names, d.pending[i], resolve, name)
  {
    assert d.pending[0].senderId != d.pending[i].senderId;
    assert forall j :: 0 <= j < i - 1 ==> d.pending[1..][j] == d.pending[j + 1];
  }

  /** In a frame the waiting lines go out one after the other, each under the name that is known by then. */
  lemma {:induction false} WaitingLinesGoOut(d: Desk, resolve: Resolver, i: nat)
    requires |d.waiting| == |d.pending| && i < |d.pending|
    ensures |Flushed(d, resolve).log| == |d.log| + |d.pending| && d.log <= Flushed(d, resolve).log
    ensures var e := Flushed(d, resolve).log[|d.log| + i];
            && e.index == d.waiting[i] && IsSent(d.pending[i], resolve, e.message)
            && (IsFirstOfPlayer(d.pending, i) ==> GoesUnder(d.names, d.pending[i], resolve, e.message.sender))
    decreases |d.pending|
  {
    hide EmitOne, IsSent, GoesUnder, IsFirstOfPlayer;
    var next := EmitOne(d, resolve);
    FirstGoesOut(d, resolve);
    if |d.pending| > 1 {
      WaitingLinesGoOut(next, resolve, if i == 0 then 0 else i - 1);
    }
    if i > 0 && IsFirstOfPlayer(d.pending, i) {
      OthersAreNamedAlike(d, resolve, i);
    }
  }

  /** All waiting lines were handed over, oldest first, under the names known then. */
  ghost predicate AllSent(pending: seq<PendingRelay>, names: Names, resolve: Resolver, was: seq<Message>, typed: seq<Message>) {
    && |typed| == |was| + |pending| && was <= typed
    && forall i :: 0 <= i < |pending| ==> SentUnder(pending, i, names, resolve, was, typed)
  }

  ghost predicate SentUnder(pending: seq<PendingRelay>, i: nat, names: Names, resolve: Resolver, was: seq<Message>,
                            typed: seq<Message>)
    requires i < |pending| && |typed| == |was| + |pending|
  {
    && IsSent(pending[i], resolve, typed[|was| + i])
    && (IsFirstOfPlayer(pending, i) ==> GoesUnder(names, pending[i], resolve, typed[|was| + i].sender))
  }

  lemma MessagesExtend(log: seq<Emission>, more: seq<Emission>)
    requires log <= more
    ensures MessagesOf(log) <= MessagesOf(more)
  {
    hide MessagesOf;
    assert forall k :: 0 <= k < |log| ==> MessagesOf(more)[k] == more[k].message == log[k].message;
  }

  lemma LineIsSent(d: Desk, resolve: Resolver, i: nat)
    requires |d.waiting| == |d.pending| && i < |d.pending|
    ensures |Flushed(d, resolve).log| == |d.log| + |d.pending| && d.log <= Flushed(d, resolve).log
    ensures SentUnder(d.pending, i, d.names, resolve, MessagesOf(d.log), MessagesOf(Flushed(d, resolve).log))
  {
    hide IsSent, GoesUnder, IsFirstOfPlayer, MessagesOf, Flushed;
    WaitingLinesGoOut(d, resolve, i);
  }

  lemma FlushSends(d: Desk, resolve: Resolver)
    requires |d.waiting| == |d.pending|
    ensures AllSent(d.pending, d.names, resolve, MessagesOf(d.log), MessagesOf(Flushed(d, resolve).log))
  {
    if d.pending != [] {
      hide SentUnder, MessagesOf, Flushed;
      LineIsSent(d, resolve, 0);
      MessagesExtend(d.log, Flushed(d, resolve).log);
      forall i | 0 <= i < |d.pending|
        ensures SentUnder(d.pending, i, d.names, resolve, MessagesOf(d.log), MessagesOf(Flushed(d, resolve).log))
      {
        LineIsSent(d, resolve, i);
      }
    }
  }

  lemma FrameSendsAll(d: Desk, news: seq<(string, string)>, resolve: Resolver, typed: seq<Message>, typed': seq<Message>,
                      tagged: seq<Deferred>, tagged': seq<Deferred>)
    requires HandedOn(d, typed, tagged) && HandedOn(After(d, Frame(news, resolve)), typed', tagged')
    ensures AllSent(d.pending, Learned(d.names, news), resolve, typed, typed')
  {
    hide AllSent, AllCarry, TagActions;
    FlushSends(WithNews(d, news), resolve);
  }

  // ----- the gates

  /** The prefixes that mark a line as one of ours: the configured ones, and the same in brackets. */
  function LoopPrefixes(config: Settings): seq<string> {
    [config.prefixNa, config.prefixEu, config.prefixDiscord] +
    Bracketed(config.prefixNa) + Bracketed(config.prefixEu) + Bracketed(config.prefixDiscord)
  }

  function Bracketed(prefix: string): seq<string> {
    if prefix != "" && prefix[0] != '[' then ["[" + prefix + "]"] else []
  }

  /** A line that begins like one of ours: with a prefix, or with that prefix in brackets. */
  ghost predicate Echoes(prefix: string, text: string) {
    prefix != "" && (prefix <= text || (prefix[0] != '[' && "[" + prefix + "]" <= text))
  }

  /** The list catches exactly these lines. */
  lemma LoopPrefixesCatch(config: Settings, text: string)
    ensures HasAnyPrefix(text, LoopPrefixes(config)) <==>
            Echoes(config.prefixNa, text) || Echoes(config.prefixEu, text) || Echoes(config.prefixDiscord, text)
  {
    var na, eu, discord := Bracketed(config.prefixNa), Bracketed(config.prefixEu), Bracketed(config.prefixDiscord);
    var plain := [config.prefixNa, config.prefixEu, config.prefixDiscord];
    AnyPrefixJoin(text, plain, na);
    AnyPrefixJoin(text, plain + na, eu);
    AnyPrefixJoin(text, plain + na + eu, discord);
    BracketedCatches(config.prefixNa, text);
    BracketedCatches(config.prefixEu, text);
    BracketedCatches(config.prefixDiscord, text);
    assert plain[0] == config.prefixNa && plain[1] == config.prefixEu && plain[2] == config.prefixDiscord;
  }

  lemma AnyPrefixJoin(text: string, a: seq<string>, b: seq<string>)
    ensures HasAnyPrefix(text, a + b) <==> HasAnyPrefix(text, a) || HasAnyPrefix(text, b)
  {
    var all := a + b;
    assert forall i :: 0 <= i < |a| ==> all[i] == a[i];
    assert forall i :: 0 <= i < |b| ==> all[|a| + i] == b[i];
  }

  lemma BracketedCatches(prefix: string, text: string)
    ensures HasAnyPrefix(text, Bracketed(prefix)) <==> prefix != "" && prefix[0] != '[' && "[" + prefix + "]" <= text
  {
    if prefix != "" && prefix[0] != '[' {
      assert Bracketed(prefix)[0] == "[" + prefix + "]";
    }
  }

  /** The text of a line that may be relayed. */
  ghost predicate TextPasses(config: Settings, filter: Filter, text: string) {
    && text != "" && |text| <= MESSAGE_LIMIT && Printing(text)
    && text[0] != '/' && text[0] != '!'
    && !Echoes(config.prefixNa, text) && !Echoes(config.prefixEu, text) && !Echoes(config.prefixDiscord, text)
    && !(filter.IsActive() && Matched(filter.patterns, filter.search, text))
  }

  /** The full gate for a line: its text, the channel, and that its player was not muted when it was typed. */
  ghost predicate HeardPasses(config: Settings, filter: Filter, h: Heard) {
    && TextPasses(config, filter, h.line.message) && h.line.category == GLOBAL && |h.property| <= NAME_LIMIT
    && !(filter.IsActive() && MutedAt(h.calls, MuteKeyOf(h), h.at))
  }

  /** Names that come in have been cut to length. */
  ghost predicate MomentPasses(config: Settings, filter: Filter, m: Moment) {
    match m
    case Speak(h) => HeardPasses(config, filter, h)
    case Frame(news, _) => ShortNews(news)
  }

  ghost predicate ShortNews(news: seq<(string, string)>) {
    forall i :: 0 <= i < |news| ==> |news[i].1| <= NAME_LIMIT
  }

  lemma LearnedSnoc(names: Names, news: seq<(string, string)>, one: (string, string))
    ensures Learned(names, news + [one]) == Remember(Learned(names, news), one.0, one.1)
    ensures ShortNews(news) && |one.1| <= NAME_LIMIT ==> ShortNews(news + [one])
  {
    assert (news + [one])[..|news|] == news;
  }

  ghost predicate AllMomentsPass(config: Settings, filter: Filter, moments: seq<Moment>) {
    forall i :: 0 <= i < |moments| ==> MomentPasses(config, filter, moments[i])
  }

  ghost predicate ShortNames(names: Names) {
    forall k :: k in names ==> |names[k]| <= NAME_LIMIT
  }

  ghost predicate SendersOk(log: seq<Emission>) {
    forall k :: 0 <= k < |log| ==> log[k].message.sender != "" && |log[k].message.sender| <= NAME_LIMIT
  }

  ghost predicate AllPass(config: Settings, filter: Filter, heard: seq<Heard>) {
    forall i :: 0 <= i < |heard| ==> HeardPasses(config, filter, heard[i])
  }

  ghost predicate DeskPasses(config: Settings, filter: Filter, d: Desk) {
    AllPass(config, filter, d.heard) && ShortNames(d.names) && SendersOk(d.log)
  }

  lemma SanitizedIsShort(text: string)
    ensures |Sanitized(text, NAME_LIMIT)| <= NAME_LIMIT
  {
  }

  lemma {:induction false} FlushedPasses(config: Settings, filter: Filter, d: Desk, resolve: Resolver)
    requires DeskPasses(config, filter, d) && |d.waiting| == |d.pending|
    ensures DeskPasses(config, filter, Flushed(d, resolve))
    decreases |d.pending|
  {
    if d.pending != [] {
      SanitizedIsShort(resolve(d.pending[0].controller));
      FlushedPasses(config, filter, EmitOne(d, resolve), resolve);
    }
  }

  lemma {:induction false} LearnedIsShort(names: Names, news: seq<(string, string)>)
    requires ShortNames(names) && ShortNews(news)
    ensures ShortNames(Learned(names, news))
  {
    if news != [] {
      LearnedIsShort(names, news[..|news| - 1]);
    }
  }

  lemma AfterPasses(config: Settings, filter: Filter, d: Desk, m: Moment)
    requires DeskPasses(config, filter, d) && |d.waiting| == |d.pending| && MomentPasses(config, filter, m)
    ensures DeskPasses(config, filter, After(d, m))
  {
    match m
    case Speak(h) =>
    case Frame(news, resolve) =>
      LearnedIsShort(d.names, news);
      FlushedPasses(config, filter, d.(names := Learned(d.names, news)), resolve);
  }

  lemma {:induction false} RunPasses(config: Settings, filter: Filter, first: Desk, moments: seq<Moment>, last: Desk)
    requires DeskPasses(config, filter, first) && IsRun(first, moments, last)
    requires AllMomentsPass(config, filter, moments)
    ensures DeskPasses(config, filter, last)
    decreases |moments|
  {
    if moments != [] {
      AfterPasses(config, filter, first, moments[0]);
      RunPasses(config, filter, After(first, moments[0]), moments[1..], last);
    }
  }

  /**
    * The message may go out: its text passes the gates; it is that of the line, which was typed in the Global channel by
    * a player who was not muted then; and its name has a legal length.
    */
  ghost predicate PassedGates(config: Settings, filter: Filter, m: Message, h: Heard) {
    && TextPasses(config, filter, m.text)
    && m.text == h.line.message && m.guild == h.line.guild && m.senderId == h.line.senderId
    && m.sender != "" && |m.sender| <= NAME_LIMIT && (h.property != "" ==> m.sender == h.property)
    && h.line.category == GLOBAL && (filter.IsActive() ==> NotMuted(h))
  }

  /** Neither the player's id is muted nor, if there is none, the name. */
  ghost predicate NotMuted(h: Heard) {
    && (h.line.senderId != "" ==> !MutedAt(h.calls, h.line.senderId, h.at))
    && (h.line.senderId == "" && h.property != "" ==> !MutedAt(h.calls, h.property, h.at))
    && (h.line.senderId == "" && h.property == "" ==> !MutedAt(h.calls, "Unknown", h.at))
  }

  /** Over any run, what goes out passed the gates, whether it went at once or waited for a name. */
  lemma EmittedPassesTheGates(config: Settings, filter: Filter, moments: seq<Moment>, last: Desk, k: nat)
    requires IsRun(NEW_DESK, moments, last) && k < |last.log|
    requires AllMomentsPass(config, filter, moments)
    ensures last.log[k].index < |last.heard|
    ensures PassedGates(config, filter, last.log[k].message, last.heard[last.log[k].index])
  {
    RunIsOk(moments, last);
    RunPasses(config, filter, NEW_DESK, moments, last);
    assert Carries(last.log[k], last.heard);
    assert HeardPasses(config, filter, last.heard[last.log[k].index]);
  }

  /** The desk is where a run of the day so far leads to; everything on the way passed the gates. */
  ghost predicate IsDay(config: Settings, filter: Filter, moments: seq<Moment>, d: Desk) {
    IsRun(NEW_DESK, moments, d) && AllMomentsPass(config, filter, moments)
  }

  lemma DayGoesOn(config: Settings, filter: Filter, moments: seq<Moment>, d: Desk, m: Moment)
    requires IsDay(config, filter, moments, d) && MomentPasses(config, filter, m)
    ensures |d.waiting| == |d.pending| && IsDay(config, filter, moments + [m], After(d, m))
  {
    hide IsRun, MomentPasses, InOrder, Conserved, AllCarry, NoneCached;
    RunIsOk(moments, d);
    RunSnoc(NEW_DESK, moments, d, m);
  }
}
