/**
  * What the injecting side of the game thread does in a tick and over a run of ticks: deferred actions performed, inbound
  * rows tried, and the calls made for each of them.
  */
module Injection {
  import opened Text
  import opened Guids
  import opened Relay
  import opened RelaySafety
  import opened GameSide
  import opened Audience
  import opened Delivery
  import opened WordFilter
  import opened Sanitize

  const MAX_DEFERRED := 64
  const WARMUP := 15 * SECOND
  const RAMP := 60 * SECOND
  const GLOBAL := 1

  datatype Deferred =
    | LocalTagged(sender: string, guild: string, message: string, category: int, uid: Guid)
    | ServerNotice(notice: string)
    | ScreenLog(controller: Object, log: string)
    | PrivateChat(receiver: Guid, chat: string)

  /** What one frame can see of the engine: live objects, readable player states, and the one-time search for them. */
  datatype World = World(live: set<Object>, read: Reader, found: Option<seq<Option<Object>>>)

  // ----- the roster a message is delivered to

  /** The roster and its lists when a message is delivered. */
  datatype View = View(roster: Roster, xbox: seq<Guid>, others: seq<Guid>)

  /** What the audience is before or after something: its roster, and whether players were searched for. */
  datatype Standing = Standing(roster: Roster, booted: bool)

  /** The roster a message is delivered to: players found at the start added, leavers out. */
  ghost predicate IsView(view: View, key: Printer, was: Standing, normalize: string -> string, world: World) {
    && RosterOk(key, view.roster)
    && Lists(view.xbox, key, view.roster, true)
    && Lists(view.others, key, view.roster, false)
    && forall g :: Lookup(key, view.roster, g) == Pruned(Booted(key, was, normalize, world, g), world.live)
  }

  ghost function Booted(key: Printer, was: Standing, normalize: string -> string, world: World, g: Guid): Option<Entry> {
    if was.booted || world.found.None? then Lookup(key, was.roster, g)
    else Refreshed(Seeds(world.found.value, world.read), normalize, g, Lookup(key, was.roster, g))
  }

  /** Is the sender on the roster? */
  ghost predicate IsLocal(key: Printer, view: View, sender: Option<Guid>) {
    sender.Some? && sender.value != NIL && Lookup(key, view.roster, sender.value).Some?
  }

  /** A row without the id of a player, as all rows from Discord, is never local. */
  lemma NoSenderNeverLocal(key: Printer, view: View, row: Row)
    requires row.message.senderId == ""
    ensures !IsLocal(key, view, Parse(row.message.senderId))
  {
  }

  lemma PostsOneByOne(xbox: seq<Guid>, others: seq<Guid>, formatted: Line, attributed: Line, local: bool)
    ensures var none: seq<Post> := [];
            var one := if others == [] then none else none + [Post(formatted, others)];
            Posts(xbox, others, formatted, attributed, local) ==
            if xbox == [] || !local then one else one + [Post(attributed, xbox)]
  {
  }

  /** The uid a plain line would carry. */
  function UidOf(sender: Option<Guid>): Guid {
    if sender.Some? then sender.value else NIL
  }

  /** A message went out to the players in view, post by post, as far as the engine was ready. */
  ghost predicate Delivered(key: Printer, view: View, formatted: Line, plain: (string, string), sender: Option<Guid>,
                            category: int, at: int, outs: seq<Outcome>, shown: seq<Event>)
  {
    var posts := Posts(view.xbox, view.others, formatted, Line(plain.0, plain.1, UidOf(sender)), IsLocal(key, view, sender));
    |outs| == |posts| && shown == Issued(posts, outs, category, at)
  }

  lemma DeliveredIsBounded(key: Printer, view: View, formatted: Line, plain: (string, string), sender: Option<Guid>,
                           category: int, at: int, outs: seq<Outcome>, shown: seq<Event>)
    requires Delivered(key, view, formatted, plain, sender, category, at, outs, shown)
    ensures ShowsOnce(|shown|, NotReady !in outs, IsSplit(view.xbox, view.others, IsLocal(key, view, sender)))
    ensures forall e :: e in shown ==> e.Shown? && e.at == at
  {
    var attributed, local := Line(plain.0, plain.1, UidOf(sender)), IsLocal(key, view, sender);
    var posts := Posts(view.xbox, view.others, formatted, attributed, local);
    SplitHasTwoPosts(view.xbox, view.others, formatted, attributed, local);
    AttemptIsBounded(posts, outs, category, at);
    IssuedAt(posts, outs, category, at);
  }

  /**
    * One message: a call for the players not on Xbox, if there are any, and then one for those on Xbox, if there are any
    * and the sender is on the roster; each is made or not.
    */
  ghost predicate IsDual(key: Printer, view: View, formatted: Line, plain: Line, sender: Option<Guid>, outs: seq<Outcome>,
                         shown: seq<Event>)
  {
    var local := sender.Some? && sender.value != NIL && key(sender.value) in view.roster;
    && |outs| == (if view.others != [] then 1 else 0) + (if view.xbox != [] && local then 1 else 0)
    && |shown| <= |outs|
    && (forall e :: e in shown ==> e.Shown? && (IsFor(e, formatted, view.others) || (local && IsFor(e, plain, view.xbox))))
    && (|shown| == 2 ==> IsFor(shown[0], formatted, view.others) && IsFor(shown[1], plain, view.xbox))
  }

  ghost predicate IsFor(e: Event, line: Line, targets: seq<Guid>) {
    e.Shown? && e.line == line && e.targets == targets && targets != []
  }

  lemma DeliveredIsDual(key: Printer, view: View, formatted: Line, plain: (string, string), sender: Option<Guid>,
                        category: int, at: int, outs: seq<Outcome>, shown: seq<Event>)
    requires Delivered(key, view, formatted, plain, sender, category, at, outs, shown)
    ensures IsDual(key, view, formatted, Line(plain.0, plain.1, UidOf(sender)), sender, outs, shown)
  {
    hide Issued;
    var attributed, local := Line(plain.0, plain.1, UidOf(sender)), IsLocal(key, view, sender);
    var posts := Posts(view.xbox, view.others, formatted, attributed, local);
    IssuedCount(posts, outs, category, at);
    forall e | e in shown
      ensures e.Shown? && Post(e.line, e.targets) in posts
    {
      IssuedFromPosts(posts, outs, category, at, e);
    }
    if |shown| == 2 {
      BothIssued(posts, outs, category, at);
    }
  }

  // ----- faults

  /** A broadcast or notice that faulted; screen logs are private and do not count. */
  predicate Fatal(e: Event) {
    !e.Logged? && e.faulted
  }

  ghost predicate NoFault(es: seq<Event>) {
    forall i :: 0 <= i < |es| ==> !Fatal(es[i])
  }

  /** At most the last call is a fault, and then the circuit is open; nothing is called before the warm-up is over. */
  ghost predicate EventsOk(es: seq<Event>, open: bool, readyAt: int) {
    && (forall i :: 0 <= i < |es| && Fatal(es[i]) ==> i == |es| - 1 && open)
    && (es != [] ==> 0 < readyAt)
    && (forall i :: 0 <= i < |es| ==> readyAt + WARMUP <= es[i].at)
  }

  // ----- deeds

  /** What does not change in a run. */
  datatype Env = Env(config: Settings, filter: Filter, key: Printer, normalize: string -> string)

  /** One deferred action performed or one inbound row tried: how it was delivered, and the calls made for it. */
  datatype Deed =
    | Performed(action: Deferred, at: int, world: World, before: Standing, after: Standing,
                view: View, outs: seq<Outcome>, shown: seq<Event>)
    | Tried(row: Row, done: bool, at: int, world: World, before: Standing, after: Standing,
            view: View, outs: seq<Outcome>, shown: seq<Event>)

  /** Rows that are not shown: nothing is left of the text, or a pattern matches it. */
  ghost predicate IsDropped(filter: Filter, row: Row) {
    var clean := Sanitized(row.message.text, MESSAGE_LIMIT);
    clean == "" || (filter.IsActive() && Matched(filter.patterns, filter.search, clean))
  }

  /** The view is the audience as it was then, and unless a call faulted it is the audience afterwards. */
  ghost predicate TakesView(env: Env, d: Deed) {
    && IsView(d.view, env.key, d.before, env.normalize, d.world)
    && (NoFault(d.shown) ==> d.after == Standing(d.view.roster, true))
  }

  function PrivatePost(receiver: Guid, chat: string): Post {
    Post(Line("PalCrosschat", chat, NIL), [receiver])
  }

  lemma PrivateIssued(receiver: Guid, chat: string, out: Outcome, at: int)
    ensures var line := PrivatePost(receiver, chat).line;
            Issued([PrivatePost(receiver, chat)], [out], GLOBAL, at) ==
            if out.Called? then [Shown(line, GLOBAL, [receiver], out.roomy, at, out.faulted)] else []
  {
    IssuedSnoc([], [], PrivatePost(receiver, chat), out, GLOBAL, at);
    assert [] + [PrivatePost(receiver, chat)] == [PrivatePost(receiver, chat)] && [] + [out] == [out];
  }

  /** Unless a call faulted, the audience is as before. */
  ghost predicate SparesAudience(d: Deed) {
    NoFault(d.shown) ==> d.after == d.before
  }

  /** One call or none: none if there is nothing to call, or if the engine was not ready or the circuit open. */
  ghost predicate OneCall(d: Deed, due: bool, plain: Event, faulted: Event) {
    if !due then d.outs == [] && d.shown == []
    else |d.outs| == 1 && d.shown == if d.outs[0].Called? then [if d.outs[0].faulted then faulted else plain] else []
  }

  ghost predicate ActionOk(env: Env, d: Deed)
    requires d.Performed?
  {
    match d.action
    case LocalTagged(sender, guild, message, category, uid) =>
      if Sanitized(message, MESSAGE_LIMIT) == "" then SparesAudience(d) && d.shown == []
      else
        && TakesView(env, d)
        && Delivered(env.key, d.view, FormattedLine(env.config, env.config.serverOrigin, sender, guild, message),
                     (CleanName(sender), Sanitized(message, MESSAGE_LIMIT)), if uid == NIL then None else Some(uid),
                     category, d.at, d.outs, d.shown)
    case ServerNotice(notice) =>
      var text := NoticeText(notice, MESSAGE_LIMIT);
      SparesAudience(d) && OneCall(d, text != "", Noticed(text, d.at, false), Noticed(text, d.at, true))
    case ScreenLog(controller, log) =>
      var text := NoticeText(log, MESSAGE_LIMIT);
      && SparesAudience(d)
      && OneCall(d, controller in d.world.live && text != "", Logged(controller, text, d.at, false),
                 Logged(controller, text, d.at, true))
    case PrivateChat(receiver, chat) =>
      && SparesAudience(d) && |d.outs| == 1
      && d.shown == Issued([PrivatePost(receiver, chat)], d.outs, GLOBAL, d.at)
  }

  ghost predicate RowOk(env: Env, d: Deed)
    requires d.Tried?
  {
    var m := d.row.message;
    if IsDropped(env.filter, d.row) then SparesAudience(d) && d.done && d.shown == []
    else
      && TakesView(env, d)
      && Delivered(env.key, d.view, FormattedLine(env.config, d.row.origin, m.sender, m.guild, m.text),
                   (CleanName(m.sender), Sanitized(m.text, MESSAGE_LIMIT)), Parse(m.senderId),
                   env.config.injectCategory, d.at, d.outs, d.shown)
      && d.done == (NotReady !in d.outs)
  }

  /** The calls are those the action or row asks for, to the players of the audience at that moment. */
  ghost predicate DeedOk(env: Env, d: Deed) {
    if d.Performed? then ActionOk(env, d) else RowOk(env, d)
  }

  ghost predicate DeedsOk(env: Env, ds: seq<Deed>) {
    forall i :: 0 <= i < |ds| ==> DeedOk(env, ds[i])
  }

  /** The sender of the row is on the roster when it is tried, and both Xbox players and others are. */
  ghost predicate SplitsRow(env: Env, d: Deed) {
    d.Tried? && !IsDropped(env.filter, d.row) &&
    IsSplit(d.view.xbox, d.view.others, IsLocal(env.key, d.view, Parse(d.row.message.senderId)))
  }

  /** Each deed starts from the audience the one before it left. */
  ghost predicate Chained(ds: seq<Deed>, from: Standing, end: Standing) {
    if ds == [] then from == end
    else ds[|ds| - 1].after == end && Chained(ds[..|ds| - 1], from, ds[|ds| - 1].before)
  }

  function EventsOf(ds: seq<Deed>): seq<Event> {
    if ds == [] then [] else EventsOf(ds[..|ds| - 1]) + ds[|ds| - 1].shown
  }

  function ActionsOf(ds: seq<Deed>): seq<Deferred> {
    if ds == [] then []
    else
      var before := ActionsOf(ds[..|ds| - 1]);
      if ds[|ds| - 1].Performed? then before + [ds[|ds| - 1].action] else before
  }

  function RowsOf(ds: seq<Deed>): seq<Row> {
    if ds == [] then []
    else
      var before := RowsOf(ds[..|ds| - 1]);
      if ds[|ds| - 1].Tried? then before + [ds[|ds| - 1].row] else before
  }

  /** The rows that are done with. */
  function FinishedOf(ds: seq<Deed>): seq<Row> {
    if ds == [] then []
    else
      var before := FinishedOf(ds[..|ds| - 1]);
      if ds[|ds| - 1].Tried? && ds[|ds| - 1].done then before + [ds[|ds| - 1].row] else before
  }

  /** The rows, each as often as it was called for. */
  function ShownOf(ds: seq<Deed>): seq<Row> {
    if ds == [] then []
    else
      var before := ShownOf(ds[..|ds| - 1]);
      if ds[|ds| - 1].Tried? then before + Copies(ds[|ds| - 1].row, |ds[|ds| - 1].shown|) else before
  }

  ghost function SplitOf(env: Env, ds: seq<Deed>): set<Row> {
    if ds == [] then {}
    else SplitOf(env, ds[..|ds| - 1]) + (if SplitsRow(env, ds[|ds| - 1]) then {ds[|ds| - 1].row} else {})
  }

  // Two stretches of deeds, one after the other.

  lemma InitOfJoin(ds: seq<Deed>, more: seq<Deed>)
    requires more != []
    ensures (ds + more)[..|ds + more| - 1] == ds + more[..|more| - 1] && (ds + more)[|ds + more| - 1] == more[|more| - 1]
  {
  }

  lemma {:induction false} EventsJoin(ds: seq<Deed>, more: seq<Deed>)
    ensures EventsOf(ds + more) == EventsOf(ds) + EventsOf(more)
    decreases |more|
  {
    if more == [] {
      assert ds + more == ds;
    } else {
      var init, d := more[..|more| - 1], more[|more| - 1];
      InitOfJoin(ds, more);
      EventsJoin(ds, init);
      Concat3(EventsOf(ds), EventsOf(init), d.shown);
    }
  }

  lemma {:induction false} RowsJoin(ds: seq<Deed>, more: seq<Deed>)
    ensures RowsOf(ds + more) == RowsOf(ds) + RowsOf(more)
    decreases |more|
  {
    if more == [] {
      assert ds + more == ds;
    } else {
      var init, d := more[..|more| - 1], more[|more| - 1];
      InitOfJoin(ds, more);
      RowsJoin(ds, init);
      Concat3(RowsOf(ds), RowsOf(init), if d.Tried? then [d.row] else []);
    }
  }

  lemma {:induction false} FinishedJoin(ds: seq<Deed>, more: seq<Deed>)
    ensures FinishedOf(ds + more) == FinishedOf(ds) + FinishedOf(more)
    decreases |more|
  {
    if more == [] {
      assert ds + more == ds;
    } else {
      var init, d := more[..|more| - 1], more[|more| - 1];
      InitOfJoin(ds, more);
      FinishedJoin(ds, init);
      Concat3(FinishedOf(ds), FinishedOf(init), if d.Tried? && d.done then [d.row] else []);
    }
  }

  lemma {:induction false} ShownJoin(ds: seq<Deed>, more: seq<Deed>)
    ensures ShownOf(ds + more) == ShownOf(ds) + ShownOf(more)
    decreases |more|
  {
    if more == [] {
      assert ds + more == ds;
    } else {
      var init, d := more[..|more| - 1], more[|more| - 1];
      InitOfJoin(ds, more);
      ShownJoin(ds, init);
      Concat3(ShownOf(ds), ShownOf(init), if d.Tried? then Copies(d.row, |d.shown|) else []);
    }
  }

  lemma {:induction false} SplitJoin(env: Env, ds: seq<Deed>, more: seq<Deed>)
    ensures SplitOf(env, ds + more) == SplitOf(env, ds) + SplitOf(env, more)
    decreases |more|
  {
    if more == [] {
      assert ds + more == ds;
    } else {
      InitOfJoin(ds, more);
      SplitJoin(env, ds, more[..|more| - 1]);
    }
  }

  lemma {:induction false} ChainJoin(ds: seq<Deed>, more: seq<Deed>, from: Standing, mid: Standing, end: Standing)
    requires Chained(ds, from, mid) && Chained(more, mid, end)
    ensures Chained(ds + more, from, end)
    decreases |more|
  {
    if more == [] {
      assert ds + more == ds;
    } else {
      InitOfJoin(ds, more);
      ChainJoin(ds, more[..|more| - 1], from, mid, more[|more| - 1].before);
    }
  }

  lemma OkJoin(env: Env, ds: seq<Deed>, more: seq<Deed>)
    requires DeedsOk(env, ds) && DeedsOk(env, more)
    ensures DeedsOk(env, ds + more)
  {
    forall i | 0 <= i < |ds + more|
      ensures DeedOk(env, (ds + more)[i])
    {
      assert (ds + more)[i] == if i < |ds| then ds[i] else more[i - |ds|];
    }
  }

  // ----- books

  /** All was done right, at one time, one thing after the other. */
  ghost predicate InOneTick(env: Env, ds: seq<Deed>, now: int, world: World, from: Standing, end: Standing) {
    DeedsOk(env, ds) && AllAt(ds, now, world) && Chained(ds, from, end)
  }

  lemma TickIsOk(env: Env, ds: seq<Deed>, now: int, world: World, from: Standing, end: Standing)
    requires InOneTick(env, ds, now, world, from, end)
    ensures DeedsOk(env, ds) && AllAt(ds, now, world)
  {
  }

  lemma TickJoin(env: Env, ds: seq<Deed>, more: seq<Deed>, now: int, world: World, from: Standing, mid: Standing, end: Standing)
    requires InOneTick(env, ds, now, world, from, mid) && InOneTick(env, more, now, world, mid, end)
    ensures InOneTick(env, ds + more, now, world, from, end)
  {
    OkJoin(env, ds, more);
    ChainJoin(ds, more, from, mid, end);
  }

  lemma TickGoesOn(env: Env, ds: seq<Deed>, d: Deed, now: int, world: World, from: Standing)
    requires InOneTick(env, ds, now, world, from, d.before) && DeedOk(env, d) && d.at == now && d.world == world
    ensures InOneTick(env, ds + [d], now, world, from, d.after)
  {
    assert (ds + [d])[..|ds|] == ds;
  }

  /** The deferred actions: from calls `es` and queue `queue` to `es'` and `queue'`. */
  ghost predicate ActionBooks(ds: seq<Deed>, es: seq<Event>, queue: seq<Deferred>, es': seq<Event>, queue': seq<Deferred>) {
    es' == es + EventsOf(ds) && queue == ActionsOf(ds) + queue' && OnlyActions(ds)
  }

  ghost predicate OnlyActions(ds: seq<Deed>) {
    forall i :: 0 <= i < |ds| ==> ds[i].Performed?
  }

  lemma {:induction false} ActionsShowNoRows(env: Env, ds: seq<Deed>)
    requires OnlyActions(ds)
    ensures RowsOf(ds) == [] && FinishedOf(ds) == [] && ShownOf(ds) == [] && SplitOf(env, ds) == {}
  {
    if ds != [] {
      ActionsShowNoRows(env, ds[..|ds| - 1]);
    }
  }

  lemma ActionBooked(env: Env, ds: seq<Deed>, d: Deed, es: seq<Event>, queue: seq<Deferred>, es': seq<Event>,
                     queue': seq<Deferred>)
    requires ActionBooks(ds, es, queue, es', queue') && d.Performed? && queue' != [] && d.action == queue'[0]
    ensures ActionBooks(ds + [d], es, queue, es' + d.shown, queue'[1..])
    ensures |ActionsOf(ds + [d])| == |ActionsOf(ds)| + 1
  {
    Concat3(es, EventsOf(ds), d.shown);
    assert queue' == [d.action] + queue'[1..];
    Concat3(ActionsOf(ds), [d.action], queue'[1..]);
  }

  /** The inbound rows: from calls `es` and what the game thread did by then to `es'` and what it did by now. */
  ghost predicate RowBooks(env: Env, ds: seq<Deed>, es: seq<Event>, p: GamePart, es': seq<Event>, p': GamePart) {
    && es' == es + EventsOf(ds) && ActionsOf(ds) == []
    && p'.typed == p.typed && p'.hand == p.hand
    && p'.taken == p.taken + RowsOf(ds) && p'.finished == p.finished + FinishedOf(ds)
    && p'.shown == p.shown + ShownOf(ds) && p'.split == p.split + SplitOf(env, ds)
  }

  lemma RowBooked(env: Env, ds: seq<Deed>, d: Deed, es: seq<Event>, p: GamePart, es': seq<Event>, p': GamePart, q: GamePart)
    requires RowBooks(env, ds, es, p, es', p') && d.Tried? && p'.hand == None
    requires q == p'.(hand := Some(d.row), taken := p'.taken + [d.row])
    ensures RowBooks(env, ds + [d], es, p, es' + d.shown, Answered(q, d.row, |d.shown|, d.done, SplitsRow(env, d)))
    ensures |RowsOf(ds + [d])| == |RowsOf(ds)| + 1
  {
    Concat3(es, EventsOf(ds), d.shown);
    Concat3(p.taken, RowsOf(ds), [d.row]);
    Concat3(p.finished, FinishedOf(ds), [d.row]);
    Concat3(p.shown, ShownOf(ds), Copies(d.row, |d.shown|));
  }

  // ----- the calls for one row

  /** The calls made for a row. */
  function CallsFor(ds: seq<Deed>, r: Row): seq<Event> {
    if ds == [] then []
    else
      var before := CallsFor(ds[..|ds| - 1], r);
      var d := ds[|ds| - 1];
      if d.Tried? && d.row == r then before + d.shown else before
  }

  lemma CopiesAdd(rows: seq<Row>, x: Row, n: nat, r: Row)
    ensures multiset(rows + Copies(x, n))[r] == multiset(rows)[r] + (if x == r then n else 0)
  {
    CopiesCount(x, n);
    CountAfter(rows, Copies(x, n), r);
  }

  /** Rows are shown as often as calls were made for them. */
  lemma {:induction false} ShownCounts(ds: seq<Deed>, r: Row)
    ensures |CallsFor(ds, r)| == multiset(ShownOf(ds))[r]
  {
    if ds != [] {
      var init, d := ds[..|ds| - 1], ds[|ds| - 1];
      ShownCounts(init, r);
      if d.Tried? {
        CopiesAdd(ShownOf(init), d.row, |d.shown|, r);
      }
    }
  }

  /** All of them are calls of BroadcastChatMessage. */
  lemma {:induction false} RowCallsAreBroadcasts(env: Env, ds: seq<Deed>, r: Row)
    requires DeedsOk(env, ds)
    ensures forall e :: e in CallsFor(ds, r) ==> e.Shown?
  {
    if ds != [] {
      var init, d := ds[..|ds| - 1], ds[|ds| - 1];
      RowCallsAreBroadcasts(env, init, r);
      assert DeedOk(env, d);
      if d.Tried? {
        RowCallsAreShown(env, d);
      }
    }
  }

  lemma RowCallsAreShown(env: Env, d: Deed)
    requires d.Tried? && RowOk(env, d)
    ensures forall e :: e in d.shown ==> e.Shown? && e.at == d.at
    ensures ShowsOnce(|d.shown|, d.done, SplitsRow(env, d))
  {
    if !IsDropped(env.filter, d.row) {
      var m := d.row.message;
      DeliveredIsBounded(env.key, d.view, FormattedLine(env.config, d.row.origin, m.sender, m.guild, m.text),
                         (CleanName(m.sender), Sanitized(m.text, MESSAGE_LIMIT)), Parse(m.senderId),
                         env.config.injectCategory, d.at, d.outs, d.shown);
    }
  }

  /** The attempts at the row that called anything were done with it, and their receiver arrays were exact. */
  ghost predicate CleanTries(ds: seq<Deed>, r: Row) {
    forall i :: 0 <= i < |ds| && ds[i].Tried? && ds[i].row == r ==>
                  && (ds[i].shown != [] ==> ds[i].done)
                  && forall e :: e in ds[i].shown ==> IsExact(e)
  }

  lemma TryReachesOnce(env: Env, d: Deed, g: Guid)
    requires d.Tried? && RowOk(env, d) && forall e :: e in d.shown ==> IsExact(e)
    ensures |Received(d.shown, g)| <= 1
  {
    hide Received;
    ReceivedIsShort(d.shown, g);
    if !IsDropped(env.filter, d.row) {
      var m := d.row.message;
      var sender := Parse(m.senderId);
      AttemptReachesOnce(d.view.xbox, d.view.others, FormattedLine(env.config, d.row.origin, m.sender, m.guild, m.text),
                         Line(CleanName(m.sender), Sanitized(m.text, MESSAGE_LIMIT), UidOf(sender)),
                         IsLocal(env.key, d.view, sender), d.outs, env.config.injectCategory, d.at, g);
    }
  }

  /** A player gets the row at most as often as it was done with. */
  lemma {:induction false} LinesAreFinished(env: Env, ds: seq<Deed>, r: Row, g: Guid)
    requires DeedsOk(env, ds) && CleanTries(ds, r)
    ensures |Received(CallsFor(ds, r), g)| <= multiset(FinishedOf(ds))[r]
  {
    hide Received, RowOk;
    if ds == [] {
      ReceivedIsShort([], g);
    } else {
      var init, d := ds[..|ds| - 1], ds[|ds| - 1];
      LinesAreFinished(env, init, r, g);
      assert DeedOk(env, d);
      if d.Tried? && d.row == r {
        TryReachesOnce(env, d, g);
        ReceivedJoin(CallsFor(init, r), d.shown, g);
        ReceivedIsShort(d.shown, g);
      }
    }
  }

  lemma ActionCallsAreAt(env: Env, d: Deed)
    requires d.Performed? && ActionOk(env, d)
    ensures forall e :: e in d.shown ==> e.at == d.at
  {
    match d.action
    case LocalTagged(sender, guild, message, category, uid) =>
      if Sanitized(message, MESSAGE_LIMIT) != "" {
        DeliveredIsBounded(env.key, d.view, FormattedLine(env.config, env.config.serverOrigin, sender, guild, message),
                           (CleanName(sender), Sanitized(message, MESSAGE_LIMIT)), if uid == NIL then None else Some(uid),
                           category, d.at, d.outs, d.shown);
      }
    case PrivateChat(receiver, chat) => IssuedAt([PrivatePost(receiver, chat)], d.outs, GLOBAL, d.at);
    case _ =>
  }

  ghost predicate AllAt(ds: seq<Deed>, now: int, world: World) {
    forall i :: 0 <= i < |ds| ==> ds[i].at == now && ds[i].world == world
  }

  /** All calls of a tick are made at its time. */
  lemma {:induction false} CallsAreAt(env: Env, ds: seq<Deed>, now: int, world: World)
    requires DeedsOk(env, ds) && AllAt(ds, now, world)
    ensures forall e :: e in EventsOf(ds) ==> e.at == now
  {
    if ds != [] {
      var init, d := ds[..|ds| - 1], ds[|ds| - 1];
      CallsAreAt(env, init, now, world);
      assert DeedOk(env, d) && d.at == now;
      if d.Performed? {
        ActionCallsAreAt(env, d);
      } else {
        RowCallsAreShown(env, d);
      }
    }
  }

  // ----- runs of ticks

  /** How many actions and rows one tick may consume. */
  function TickLimit(configured: int, readyAt: int, now: int): int {
    if now - readyAt < RAMP then 1 else if configured > 0 then configured else 1
  }

  /** What a run of ticks is judged by. */
  datatype Gate = Gate(events: seq<Event>, open: bool, readyAt: int)

  /** One tick: its time, the configured limit, and what it consumed. */
  datatype Load = Load(now: int, configured: int, actions: nat, rows: nat)

  /** Calls are allowed: the circuit is closed, and the game state was first seen at least the warm-up ago. */
  predicate MayCall(g: Gate, now: int) {
    !g.open && 0 < g.readyAt && g.readyAt + WARMUP <= now
  }

  /** What one tick adds. */
  ghost predicate Tick(a: Gate, b: Gate, load: Load) {
    && a.events <= b.events
    && (forall i :: |a.events| <= i < |b.events| ==> b.events[i].at == load.now)
    && (forall i :: |a.events| <= i < |b.events| && Fatal(b.events[i]) ==> i == |b.events| - 1 && b.open)
    && (!MayCall(a, load.now) ==> b.events == a.events && load.actions == 0 && load.rows == 0)
    && (MayCall(a, load.now) ==>
          && load.actions <= TickLimit(load.configured, a.readyAt, load.now)
          && load.rows <= TickLimit(load.configured, a.readyAt, load.now))
    && (a.open ==> b.open)
    && (b.readyAt == a.readyAt || (a.readyAt == 0 && b.readyAt == load.now))
  }

  /** A tick in which calls were allowed: its calls are those of its deeds. */
  lemma WorkedTick(env: Env, a: Gate, b: Gate, load: Load, acts: seq<Deed>, rows: seq<Deed>, world: World,
                   from: Standing, end: Standing)
    requires MayCall(a, load.now) && b.readyAt == a.readyAt && EventsOk(b.events, b.open, b.readyAt)
    requires b.events == a.events + EventsOf(acts) + EventsOf(rows) && InOneTick(env, acts + rows, load.now, world, from, end)
    requires load.actions <= TickLimit(load.configured, a.readyAt, load.now)
    requires load.rows <= TickLimit(load.configured, a.readyAt, load.now)
    ensures Tick(a, b, load)
  {
    CallsAreAt(env, acts + rows, load.now, world);
    EventsJoin(acts, rows);
    Concat3(a.events, EventsOf(acts), EventsOf(rows));
  }

  /** A tick without any: nothing was taken. */
  lemma IdleTick(env: Env, a: Gate, b: Gate, now: int, configured: int, queue: seq<Deferred>, p: GamePart,
                 world: World, here: Standing)
    requires b.events == a.events && (a.open ==> b.open)
    requires b.readyAt == a.readyAt || (a.readyAt == 0 && b.readyAt == now)
    ensures InOneTick(env, [], now, world, here, here)
    ensures ActionBooks([], a.events, queue, a.events + EventsOf([]), queue)
    ensures RowBooks(env, [], a.events + EventsOf([]), p, b.events, p)
    ensures MayCall(a, now) ==> TickLimit(configured, a.readyAt, now) >= 1
    ensures Tick(a, b, Load(now, configured, |ActionsOf([])|, |RowsOf([])|))
  {
  }

  ghost predicate Ticks(gates: seq<Gate>, loads: seq<Load>) {
    && |gates| == |loads| + 1
    && gates[0] == Gate([], false, 0)
    && (forall k :: 0 <= k < |loads| ==> 0 < loads[k].now)
    && (forall k :: 0 <= k < |loads| ==> Tick(gates[k], gates[k + 1], loads[k]))
  }

  lemma TickKeepsOk(a: Gate, b: Gate, load: Load)
    requires EventsOk(a.events, a.open, a.readyAt) && Tick(a, b, load)
    ensures EventsOk(b.events, b.open, b.readyAt)
  {
    forall i | 0 <= i < |b.events|
      ensures b.readyAt + WARMUP <= b.events[i].at && (Fatal(b.events[i]) ==> i == |b.events| - 1 && b.open)
    {
      if i < |a.events| {
        assert b.events[i] == a.events[i];
      }
    }
  }

  lemma {:induction false} TicksAreOk(gates: seq<Gate>, loads: seq<Load>, j: nat)
    requires Ticks(gates, loads) && j <= |loads|
    ensures EventsOk(gates[j].events, gates[j].open, gates[j].readyAt)
  {
    if j > 0 {
      TicksAreOk(gates, loads, j - 1);
      assert Tick(gates[j - 1], gates[j], loads[j - 1]);
      TickKeepsOk(gates[j - 1], gates[j], loads[j - 1]);
    }
  }

  lemma {:induction false} TicksGoOn(gates: seq<Gate>, loads: seq<Load>, i: nat, j: nat)
    requires Ticks(gates, loads) && i <= j <= |loads|
    ensures gates[i].open ==> gates[j].open && gates[j].events == gates[i].events
    ensures gates[i].readyAt != 0 ==> gates[j].readyAt == gates[i].readyAt
    ensures gates[i].events <= gates[j].events
    decreases j - i
  {
    if i < j {
      TicksGoOn(gates, loads, i, j - 1);
      assert Tick(gates[j - 1], gates[j], loads[j - 1]);
    }
  }

  /**
    * Over any run of ticks: once the circuit is open nothing more is called; the first sight of the game state is the
    * only one that counts, and every call comes at least the warm-up after it; at most one broadcast or notice faults,
    * and it is the last call of the run.
    */
  lemma InjectionIsSafe(gates: seq<Gate>, loads: seq<Load>, i: nat, j: nat)
    requires Ticks(gates, loads) && i <= j <= |loads|
    ensures gates[i].open ==> gates[j].open && gates[j].events == gates[i].events
    ensures gates[i].readyAt != 0 ==> gates[j].readyAt == gates[i].readyAt
    ensures forall e :: e in gates[j].events ==> gates[j].readyAt != 0 && e.at >= gates[j].readyAt + 15 * SECOND
    ensures forall k :: 0 <= k < |gates[j].events| && Fatal(gates[j].events[k]) ==>
                          k == |gates[j].events| - 1 && gates[j].open
  {
    TicksGoOn(gates, loads, i, j);
    TicksAreOk(gates, loads, j);
  }

  /**
    * ... and a tick consumes nothing in the first 15 seconds after that sight or with an open circuit, one action and
    * one row at most before the 60th second, and at most the configured number of each afterwards.
    */
  lemma TicksAreCapped(gates: seq<Gate>, loads: seq<Load>, k: nat, j: nat)
    requires Ticks(gates, loads) && k < j <= |loads| && (loads[k].actions > 0 || loads[k].rows > 0)
    ensures var since := loads[k].now - gates[j].readyAt;
            var cap := if since < 60 * SECOND || loads[k].configured <= 0 then 1 else loads[k].configured;
            gates[j].readyAt != 0 && since >= 15 * SECOND && !gates[k].open && loads[k].actions <= cap && loads[k].rows <= cap
  {
    assert Tick(gates[k], gates[k + 1], loads[k]);
    TicksGoOn(gates, loads, k, j);
  }
}
