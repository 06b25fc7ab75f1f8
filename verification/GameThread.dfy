/**
  * The game thread of one server over its whole run: players join and chat in any order, and frames pass in between. All
  * that was shown is booked against the rows and actions it was shown for; what is typed meets the relay protocol in
  * the queues.
  */
module GameThread {
  import opened Text
  import opened Guids
  import opened Queues
  import opened Relay
  import opened RelaySafety
  import opened GameSide
  import opened Audience
  import opened Delivery
  import opened WordFilter
  import opened Injection
  import opened ChatLines
  import Relaying
  import CI = ChatInject
  import CC = ChatCapture
  import Linking

  /** All calls made, and all the protocol says was drawn and shown, are those of the deeds. */
  ghost predicate Booked(env: Env, ds: seq<Deed>, es: seq<Event>, taken: seq<Row>, finished: seq<Row>, shown: seq<Row>,
                         split: set<Row>)
  {
    && DeedsOk(env, ds) && es == EventsOf(ds)
    && shown == ShownOf(ds) && split == SplitOf(env, ds) && taken == RowsOf(ds) && finished == FinishedOf(ds)
  }

  lemma JoinsAgree(env: Env, ds: seq<Deed>, acts: seq<Deed>, rows: seq<Deed>)
    requires OnlyActions(acts)
    ensures EventsOf(ds + acts + rows) == EventsOf(ds) + EventsOf(acts) + EventsOf(rows)
    ensures ShownOf(ds + acts + rows) == ShownOf(ds) + ShownOf(rows)
    ensures RowsOf(ds + acts + rows) == RowsOf(ds) + RowsOf(rows)
    ensures FinishedOf(ds + acts + rows) == FinishedOf(ds) + FinishedOf(rows)
    ensures SplitOf(env, ds + acts + rows) == SplitOf(env, ds) + SplitOf(env, rows)
  {
    hide EventsOf, ShownOf, RowsOf, FinishedOf, SplitOf, OnlyActions;
    EventsJoin(ds, acts);
    EventsJoin(ds + acts, rows);
    ShownJoin(ds, acts);
    ShownJoin(ds + acts, rows);
    RowsJoin(ds, acts);
    RowsJoin(ds + acts, rows);
    FinishedJoin(ds, acts);
    FinishedJoin(ds + acts, rows);
    SplitJoin(env, ds, acts);
    SplitJoin(env, ds + acts, rows);
    ActionsShowNoRows(env, acts);
  }

  lemma BooksGoOn(env: Env, ds: seq<Deed>, acts: seq<Deed>, rows: seq<Deed>, es: seq<Event>, p: GamePart,
                  queue: seq<Deferred>, queue': seq<Deferred>, es': seq<Event>, p': GamePart)
    requires Booked(env, ds, es, p.taken, p.finished, p.shown, p.split) && DeedsOk(env, acts + rows)
    requires ActionBooks(acts, es, queue, es + EventsOf(acts), queue')
    requires RowBooks(env, rows, es + EventsOf(acts), p, es', p')
    ensures Booked(env, ds + acts + rows, es', p'.taken, p'.finished, p'.shown, p'.split)
  {
    hide DeedsOk, EventsOf, ShownOf, RowsOf, FinishedOf, SplitOf, ActionsOf, OnlyActions;
    JoinsAgree(env, ds, acts, rows);
    OkJoin(env, ds, acts + rows);
    assert ds + acts + rows == ds + (acts + rows);
  }

  lemma TicksSnoc(gates: seq<Gate>, loads: seq<Load>, b: Gate, load: Load)
    requires Injection.Ticks(gates, loads) && 0 < load.now && Tick(gates[|loads|], b, load)
    ensures Injection.Ticks(gates + [b], loads + [load])
  {
    var more, all := gates + [b], loads + [load];
    forall k | 0 <= k < |all|
      ensures Tick(more[k], more[k + 1], all[k])
    {
      if k < |loads| {
        assert Tick(gates[k], gates[k + 1], loads[k]);
      }
    }
  }

  lemma {:induction false} SplitRowsWereTried(env: Env, ds: seq<Deed>, r: Row)
    requires r in SplitOf(env, ds)
    ensures exists i :: 0 <= i < |ds| && SplitsRow(env, ds[i]) && ds[i].row == r
  {
    var init, d := ds[..|ds| - 1], ds[|ds| - 1];
    if SplitsRow(env, d) && d.row == r {
      assert ds[|ds| - 1] == d;
    } else {
      SplitRowsWereTried(env, init, r);
      var i :| 0 <= i < |init| && SplitsRow(env, init[i]) && init[i].row == r;
      assert ds[i] == init[i];
    }
  }

  /**
    * A player joins; a chat line with what the hook can read; or a frame with what it sees and the link results that came
    * back.
    */
  datatype Input =
    | Joined(at: int, state: Option<Object>, live: set<Object>)
    | Chatted(at: int, chat: CC.Chat)
    | Updated(at: int, world: World, identify: CC.Identifier, resolve: Relaying.Resolver, results: seq<(string, string)>,
            maxPerTick: int)

  /** The clock does not go back. */
  ghost predicate InTime(clock: int, inputs: seq<Input>) {
    && (forall i :: 0 <= i < |inputs| ==> 0 < inputs[i].at && clock <= inputs[i].at)
    && (forall i, j :: 0 <= i < j < |inputs| ==> inputs[i].at <= inputs[j].at)
  }

  function Frames(inputs: seq<Input>): nat {
    if inputs == [] then 0
    else Frames(inputs[..|inputs| - 1]) + if inputs[|inputs| - 1].Updated? then 1 else 0
  }

  lemma {:induction false} AllAreFinished(ds: seq<Deed>)
    requires forall d :: d in ds && d.Tried? ==> d.done
    ensures FinishedOf(ds) == RowsOf(ds)
  {
    if ds != [] {
      assert ds == ds[..|ds| - 1] + [ds[|ds| - 1]];
      AllAreFinished(ds[..|ds| - 1]);
    }
  }

  class Game {
    const capture: CC.Capture
    var clock: int
    ghost var deeds: seq<Deed>
    ghost var gates: seq<Gate>
    ghost var loads: seq<Load>

    ghost function EnvOf(): Env {
      capture.inject.EnvOf()
    }

    ghost predicate Valid()
      reads this, capture, capture.filter, capture.audience, capture.inject, capture.inject.audience
      reads capture.side, capture.side.outbound, capture.side.inbound, capture.linkJobs
    {
      && capture.Valid() && capture.side.hand.None? && IsTimely() && IsProtocol()
      && Booked(EnvOf(), deeds, capture.inject.events, capture.side.taken, capture.side.finished,
                capture.side.shown, capture.side.split)
      && Injection.Ticks(gates, loads) && |gates| == |loads| + 1 && gates[|loads|] == capture.inject.State()
    }

    /** The states that `side` keeps to are those some run of the protocol leads to. */
    ghost predicate IsProtocol() {
      capture.side.origin == capture.config.serverOrigin && capture.side.FromStart()
    }

    ghost predicate IsTimely()
      reads `clock, capture.filter, capture.inject
    {
      && 0 <= clock && capture.inject.worldReadyAt <= clock
      && forall now :: clock <= now && 0 < now ==> capture.filter.Due(now)
    }

    /** All the objects of the game thread, for a server that starts. */
    static method Assemble(config: Settings, activeNotice: string, initialNotice: string, patterns: seq<Pattern>,
                           valid: string -> bool, search: (string, string) -> bool, normalize: string -> string,
                           limit: nat, table: Table)
      returns (hooks: CC.Capture)
      requires limit >= 1 && TableOk(table)
      ensures hooks.Valid() && IsNew(hooks) && hooks.config == config && hooks.filter.patterns == Compiled(patterns, valid)
      ensures hooks.side.local == hooks.side.first == Replays.Local(table, Relay.Fresh(limit))
    {
      hide Ends.Linked, Ends.FromStart, BoundedQueue.Valid, Filter.Valid, Tracker.Valid, CI.Injector.Valid;
      hide Replays.Reachable, TableOk;
      var outbound := new BoundedQueue<Message>(QUEUE_MAX);
      var inbound := new BoundedQueue<Row>(QUEUE_MAX);
      var jobs := new BoundedQueue<Linking.Job>(QUEUE_MAX);
      var filter := new Filter(patterns, valid, search);
      var audience := new Tracker(normalize);
      var inject := new CI.Injector(config, filter, audience);
      var side := new Ends(config.serverOrigin, limit, table, outbound, inbound);
      hooks := new CC.Capture(config, activeNotice, initialNotice, filter, inject, side, jobs);
    }

    /** Nothing has happened yet. */
    static ghost predicate IsNew(hooks: CC.Capture)
      reads hooks, hooks.filter, hooks.audience, hooks.inject, hooks.side, hooks.side.outbound, hooks.side.inbound
      reads hooks.linkJobs
    {
      && hooks.filter.calls == [] && hooks.inject.State() == Gate([], false, 0)
      && hooks.inject.deferred == [] && hooks.inject.tagged == []
      && hooks.audience.roster == map[] && hooks.audience.pendingJoins == []
      && hooks.Lines() == Relaying.NEW_DESK && hooks.pendingLinks == [] && hooks.linkJobs.history == Empty()
      && hooks.side.Part() == GamePart([], None, [], [], {}, [])
      && hooks.side.outbound.items == [] && hooks.side.inbound.items == []
      && hooks.side.origin == hooks.config.serverOrigin && hooks.side.FromStart()
    }

    constructor (hooks: CC.Capture)
      requires hooks.Valid() && IsNew(hooks)
      ensures Valid() && capture == hooks && clock == 0 && deeds == [] && loads == []
    {
      hide CC.Capture.Valid;
      capture, clock, deeds, gates, loads := hooks, 0, [], [hooks.inject.State()], [];
    }

    /** The hook's part of a chat line; the clock still stands. */
    method HandleLine(chat: CC.Chat, now: int) returns (effect: CC.Effect, ghost v: CC.Verdict)
      requires capture.Valid() && capture.filter.Due(now)
      modifies capture`pendingRelays, capture`heard, capture`waiting, capture`dropped, capture`log, capture`moments
      modifies capture`pendingLinks, capture.filter, capture.inject`deferred, capture.inject`tagged
      modifies capture.side`typed, capture.side`local, capture.side`outer, capture.side.outbound, capture.side.inbound
      modifies capture.audience`roster, capture.audience`xbox, capture.audience`others
      ensures capture.Valid() && capture.filter.Due(now) && v.relayed == old(capture.IsRelayed(chat, now))
      ensures |old(capture.Lines()).waiting| == |old(capture.Lines()).pending|
      ensures capture.Lines() ==
              if v.relayed then Relaying.Spoke(old(capture.Lines()), old(capture.HeardOf(chat, now))) else old(capture.Lines())
    {
      hide CC.Capture.Valid, CC.Capture.HeardOf, CC.Capture.IsRelayed, CC.Capture.IsGreeted, CC.Capture.IsHeld;
      hide CC.Capture.Announced, CC.Banners, CC.IsLinkCommand, Relaying.Spoke;
      hide CC.Capture.IsCarriedOut, CC.IsTold, CC.Capture.IsJudged, Relaying.TextPasses;
      capture.LinesAreSound();
      effect, v := capture.HandleHook(chat, now);
    }

    /** A chat line. */
    method Hook(chat: CC.Chat, now: int) returns (effect: CC.Effect, ghost v: CC.Verdict)
      requires Valid() && clock <= now && 0 < now
      modifies this, capture, capture.filter, capture.audience, capture.inject, capture.side
      modifies capture.side.outbound, capture.side.inbound
      ensures Valid() && clock == now && deeds == old(deeds) && gates == old(gates) && loads == old(loads)
      ensures v.relayed == old(capture.IsRelayed(chat, now))
      ensures capture.Lines() ==
              if v.relayed then Relaying.Spoke(old(capture.Lines()), old(capture.HeardOf(chat, now))) else old(capture.Lines())
    {
      hide CC.Capture.Valid, CC.Capture.Lines, CC.Capture.HeardOf, CC.Capture.IsRelayed;
      hide Relaying.Spoke, Booked, Injection.Ticks, CI.Injector.State, Ends.FromStart;
      effect, v := HandleLine(chat, now);
      clock := now;
    }

    /** A player joins; the player state that the hook runs on is alive. */
    method Join(state: Option<Object>, live: set<Object>, now: int)
      requires Valid() && clock <= now && 0 < now
      modifies `clock, capture.audience`pendingJoins
      ensures Valid() && clock == now
      ensures var was := old(capture.audience.pendingJoins);
              capture.audience.pendingJoins ==
              if state.None? || (exists p :: p in was && p.state == state.value) then was
              else was + [PendingJoin(state.value, 0)]
    {
      hide Booked, Injection.Ticks, Ends.Linked, Filter.Valid, Ends.FromStart;
      capture.audience.EnqueueJoin(state, if state.Some? then live + {state.value} else live);
      clock := now;
    }

    lemma OneAudience()
      requires Valid()
      ensures capture.inject.audience == capture.audience
    {
    }

    // ----- a frame

    /** The lines after a frame: the names of the link commands come in, then all that wait go out. */
    ghost function Flushed(lines: Relaying.Desk, commands: seq<CC.PendingLink>, live: set<Object>, identify: CC.Identifier,
                           resolve: Relaying.Resolver): Relaying.Desk
      requires |lines.waiting| == |lines.pending|
    {
      Relaying.After(lines, Relaying.Frame(CC.NewsOf(capture.key, commands, live, identify), resolve))
    }

    /** Link commands, and the lines that wait for a name. */
    method FlushHooks(live: set<Object>, identify: CC.Identifier, resolve: Relaying.Resolver)
      requires Valid()
      modifies capture, capture.audience`roster, capture.audience`xbox, capture.audience`others
      modifies capture.inject, capture.side, capture.side.outbound, capture.side.inbound, capture.linkJobs
      ensures Valid() && capture.pendingLinks == [] && capture.pendingRelays == []
      ensures capture.Lines() == Flushed(old(capture.Lines()), old(capture.pendingLinks), live, identify, resolve)
    {
      hide CC.Capture.Valid, CC.Capture.Lines, Booked, Injection.Ticks, CI.Injector.State;
      hide CC.AfterLinks, CC.NewsOf, CC.TaggedAll, Relaying.After, CC.Capture.LinksDone, Ends.FromStart;
      capture.FlushDeferred(live, identify, resolve);
    }

    /** Joins that are ready, leavers out. */
    method TickAudience(live: set<Object>, read: Reader)
      requires Valid()
      modifies capture.audience
      ensures Valid() && capture.audience.pendingJoins == StillWaiting(old(capture.audience.pendingJoins), live, read)
      ensures AreOn(Joiners(old(capture.audience.pendingJoins), live, read), capture.audience.key, capture.audience.roster)
    {
      hide Booked, Injection.Ticks, Ends.FromStart;
      capture.audience.Tick(live, read);
    }

    method DeliverResult(account: string, notice: string, live: set<Object>)
      requires Valid()
      modifies capture`clients, capture.inject`deferred
      ensures Valid()
      ensures capture.clients == if notice == "" || account == "" then old(capture.clients) else old(capture.clients) - {account}
    {
      hide Booked, Injection.Ticks, Ends.Linked, Filter.Valid, CC.WithNotice, Ends.FromStart;
      capture.DeliverLinkResult(account, notice, live);
    }

    /** The link results that came back. */
    method DeliverResults(results: seq<(string, string)>, live: set<Object>)
      requires Valid()
      modifies capture`clients, capture.inject`deferred
      ensures Valid() && NoneWaits(results)
    {
      hide Game.Valid;
      for i := 0 to |results|
        invariant Valid() && NoneWaits(results[..i])
      {
        assert results[..i + 1] == results[..i] + [results[i]];
        DeliverResult(results[i].0, results[i].1, live);
      }
      assert results[..|results|] == results;
    }

    /** Whoever got an answer waits no longer. */
    ghost predicate NoneWaits(results: seq<(string, string)>)
      reads capture`clients
    {
      forall i :: 0 <= i < |results| && results[i].0 != "" && results[i].1 != "" ==> results[i].0 !in capture.clients
    }

    /** A tick that took anything, or could have, took its full share: from the 60th second on the configured number. */
    ghost predicate IsFullTick(acts: seq<Deed>, rows: seq<Deed>, maxPerTick: int, now: int)
      reads capture.inject, capture.side.inbound
    {
      var inject, inbound := capture.inject, capture.side.inbound;
      acts != [] || rows != [] || (!inject.circuitOpen && inject.gameState && inject.Warm(now)) ==>
        CI.TookShare(acts, rows, if now - inject.worldReadyAt < 60 * SECOND || maxPerTick <= 0 then 1 else maxPerTick,
                     inject.deferred, inbound.items)
    }

    /** Deferred actions and inbound rows; the books are not yet made. */
    method Inject(maxPerTick: int, world: World, now: int) returns (ghost acts: seq<Deed>, ghost rows: seq<Deed>)
      requires capture.Valid() && capture.side.hand.None? && 0 < now && capture.inject.worldReadyAt <= now
      modifies capture.audience`roster, capture.audience`xbox, capture.audience`others, capture.audience`bootstrapped
      modifies capture.inject, capture.side, capture.side.outbound, capture.side.inbound
      ensures capture.Valid() && capture.side.hand.None?
      ensures Tick(old(capture.inject.State()), capture.inject.State(), Load(now, maxPerTick, |ActionsOf(acts)|, |RowsOf(rows)|))
      ensures var mid := old(capture.inject.events) + EventsOf(acts);
              && ActionBooks(acts, old(capture.inject.events), old(capture.inject.deferred), mid, capture.inject.deferred)
              && RowBooks(EnvOf(), rows, mid, old(capture.side.Part()), capture.inject.events, capture.side.Part())
      ensures InOneTick(EnvOf(), acts + rows, now, world, old(capture.inject.Here()), capture.inject.Here())
      ensures IsFullTick(acts, rows, maxPerTick, now)
    {
      hide CI.TookShare, Tick, ActionBooks, RowBooks, InOneTick, Filter.Valid, CI.Injector.State, Ends.Linked;
      acts, rows := capture.inject.Drain(capture.side, maxPerTick, world, now);
    }

    method DrainAll(maxPerTick: int, world: World, now: int) returns (ghost acts: seq<Deed>, ghost rows: seq<Deed>)
      requires Valid() && clock <= now && 0 < now
      modifies this, capture.audience`roster, capture.audience`xbox, capture.audience`others, capture.audience`bootstrapped
      modifies capture.inject, capture.side, capture.side.outbound, capture.side.inbound
      ensures Valid() && clock == now && deeds == old(deeds) + acts + rows
      ensures InOneTick(EnvOf(), acts + rows, now, world, old(capture.inject.Here()), capture.inject.Here())
      ensures loads == old(loads) + [Load(now, maxPerTick, |ActionsOf(acts)|, |RowsOf(rows)|)]
      ensures IsFullTick(acts, rows, maxPerTick, now)
    {
      hide Game.IsFullTick, CC.Capture.Valid, Booked, ActionBooks, RowBooks, InOneTick, Injection.Ticks, Ends.FromStart;
      acts, rows := Inject(maxPerTick, world, now);
      TickIsOk(EnvOf(), acts + rows, now, world, old(capture.inject.Here()), capture.inject.Here());
      BooksGoOn(EnvOf(), deeds, acts, rows, old(capture.inject.events), old(capture.side.Part()), old(capture.inject.deferred),
                capture.inject.deferred, capture.inject.events, capture.side.Part());
      ghost var load := Load(now, maxPerTick, |ActionsOf(acts)|, |RowsOf(rows)|);
      TicksSnoc(gates, loads, capture.inject.State(), load);
      deeds, gates, loads := deeds + acts + rows, gates + [capture.inject.State()], loads + [load];
      clock := now;
    }

    /**
      * One frame, in the order of the original: waiting hook work, the roster, link results, then what is to be shown.
      * The deeds are those of this frame, one after the other from the audience `from`, which has the joins that are
      * ready; and the tick has its time and limit.
      */
    method Update(u: Input) returns (ghost acts: seq<Deed>, ghost rows: seq<Deed>, ghost from: Standing)
      requires Valid() && u.Updated? && clock <= u.at && 0 < u.at
      modifies this, capture, capture.audience, capture.inject, capture.side, capture.side.outbound, capture.side.inbound
      modifies capture.linkJobs
      ensures Valid() && clock == u.at && capture.pendingLinks == [] && NoneWaits(u.results)
      ensures capture.Lines() == Flushed(old(capture.Lines()), old(capture.pendingLinks), u.world.live, u.identify, u.resolve)
      ensures capture.audience.pendingJoins == StillWaiting(old(capture.audience.pendingJoins), u.world.live, u.world.read)
      ensures AreOn(Joiners(old(capture.audience.pendingJoins), u.world.live, u.world.read), capture.audience.key, from.roster)
      ensures deeds == old(deeds) + acts + rows
      ensures InOneTick(EnvOf(), acts + rows, u.at, u.world, from, capture.inject.Here())
      ensures loads == old(loads) + [Load(u.at, u.maxPerTick, |ActionsOf(acts)|, |RowsOf(rows)|)]
      ensures IsFullTick(acts, rows, u.maxPerTick, u.at)
    {
      hide CC.Capture.Valid, CC.Capture.Lines, Booked, Injection.Ticks, CI.Injector.State, Game.Flushed;
      hide InOneTick, AreOn, Ends.FromStart, Game.IsFullTick;
      OneAudience();
      FlushHooks(u.world.live, u.identify, u.resolve);
      TickAudience(u.world.live, u.world.read);
      DeliverResults(u.results, u.world.live);
      from := capture.inject.Here();
      acts, rows := DrainAll(u.maxPerTick, u.world, u.at);
    }

    method Take(input: Input)
      requires Valid() && clock <= input.at && 0 < input.at
      modifies this, capture, capture.filter, capture.audience, capture.inject, capture.side
      modifies capture.side.outbound, capture.side.inbound, capture.linkJobs
      ensures Valid() && clock == input.at && old(deeds) <= deeds
      ensures |loads| == |old(loads)| + if input.Updated? then 1 else 0
    {
      hide Game.Valid;
      match input
      case Joined(at, state, live) => Join(state, live, at);
      case Chatted(at, chat) =>
        ghost var v;
        var effect;
        effect, v := Hook(chat, at);
      case Updated(_, _, _, _, _, _) =>
        ghost var acts, rows, from;
        acts, rows, from := Update(input);
    }

    /** The whole run: joins, lines and frames as they come. */
    method Run(inputs: seq<Input>)
      requires Valid() && InTime(clock, inputs)
      modifies this, capture, capture.filter, capture.audience, capture.inject, capture.side
      modifies capture.side.outbound, capture.side.inbound, capture.linkJobs
      ensures Valid() && old(deeds) <= deeds && |loads| == |old(loads)| + Frames(inputs)
      ensures clock == if inputs == [] then old(clock) else inputs[|inputs| - 1].at
    {
      hide Game.Valid;
      for i := 0 to |inputs|
        invariant Valid() && old(deeds) <= deeds && |loads| == |old(loads)| + Frames(inputs[..i])
        invariant clock == if i == 0 then old(clock) else inputs[i - 1].at
      {
        assert inputs[..i + 1][..i] == inputs[..i];
        Take(inputs[i]);
      }
      assert inputs[..|inputs|] == inputs;
    }

    // ----- what holds whenever the game thread rests

    /** What went through the queues is what a run of the relay protocol leads to. */
    lemma RunsTheProtocol()
      requires Valid()
      ensures Start(Replays.Alone(capture.side.origin, capture.side.first))
      ensures exists steps ::
                IsRun(Replays.Alone(capture.side.origin, capture.side.first), steps,
                      Replays.Alone(capture.side.origin, capture.side.local))
      ensures capture.side.local.server.typed == Relaying.MessagesOf(capture.log)
      ensures capture.side.local.server.inbox.shown == ShownOf(deeds)
    {
      capture.side.RunsTheProtocol();
    }

    /**
      * A row is called for at most once in the whole run, over all its tries, unless it was tried when its sender was on
      * the roster together with Xbox players and others.
      */
    lemma RowIsShownAtMostOnce(r: Row)
      requires Valid() && forall d :: d in deeds && d.Tried? && d.row == r ==> !SplitsRow(EnvOf(), d)
      ensures |CallsFor(deeds, r)| <= 1 && forall e :: e in CallsFor(deeds, r) ==> e.Shown?
    {
      if r in SplitOf(EnvOf(), deeds) {
        SplitRowsWereTried(EnvOf(), deeds, r);
        assert false;
      }
      capture.side.NotSplitOnce(r);
      ShownCounts(deeds, r);
      RowCallsAreBroadcasts(EnvOf(), deeds, r);
    }

    /** So no row without a sender id, as all from Discord, is called for twice. */
    lemma NoSenderIsShownAtMostOnce(r: Row)
      requires Valid() && r.message.senderId == ""
      ensures |CallsFor(deeds, r)| <= 1 && forall e :: e in CallsFor(deeds, r) ==> e.Shown?
    {
      forall d | d in deeds && d.Tried? && d.row == r
        ensures !SplitsRow(EnvOf(), d)
      {
        NoSenderNeverLocal(EnvOf().key, d.view, r);
      }
      RowIsShownAtMostOnce(r);
    }

    /**
      * Even a row that was tried in two calls reaches each player once at most, if no call for it was made before another
      * try and the receiver arrays held the players they were for.
      */
    lemma RowReachesEachPlayerOnce(r: Row, g: Guid)
      requires Valid() && CleanTries(deeds, r)
      ensures |Received(CallsFor(deeds, r), g)| <= 1
    {
      LinesAreFinished(EnvOf(), deeds, r, g);
      capture.side.RowFinishedOnce(r);
    }

    /** As long as no row had to be tried again, rows are tried in the order of their ids, each once. */
    lemma RowsAreTriedInOrder()
      requires Valid() && forall d :: d in deeds && d.Tried? ==> d.done
      ensures Increasing(RowsOf(deeds))
    {
      AllAreFinished(deeds);
      capture.side.FinishedInOrder();
    }

    /** Every call shows the row or the action it was made for: its speaker, prefix and guild in their places, and its text. */
    lemma CallsTell(d: Deed, e: Event)
      requires Valid() && d in deeds && e in d.shown
      ensures d.Tried? ==> ShowsRow(EnvOf(), d, e)
      ensures d.Performed? ==> ShowsAction(EnvOf(), d, e)
    {
      hide RowOk, ActionOk, ShowsRow, ShowsAction;
      assert DeedOk(EnvOf(), d);
      if d.Tried? {
        RowIsShown(EnvOf(), d, e);
      } else {
        ActionIsShown(EnvOf(), d, e);
      }
    }

    /**
      * Every row this server inserts carries the text of a line that was heard and passed all gates: clean, of legal
      * length, no command, none of our own tagged lines, matched by no pattern, in the Global channel, of a player who
      * was not muted then.
      */
    lemma InsertedRowPassedTheGates(r: Row)
      requires Valid() && r in capture.side.local.server.inserted
      ensures r.origin == capture.config.serverOrigin
      ensures exists k :: 0 <= k < |capture.heard| &&
                          Relaying.PassedGates(capture.config, capture.filter, r.message, capture.heard[k])
    {
      capture.side.InsertedWasHandedOver(r);
      var d := capture.Lines();
      var k :| 0 <= k < |d.log| && Relaying.MessagesOf(d.log)[k] == r.message;
      Relaying.EmittedPassesTheGates(capture.config, capture.filter, capture.moments, d, k);
    }

    /**
      * All local lines ever deferred carry the text of lines heard, under the names these went out with, and player by
      * player they keep the typing order.
      */
    lemma LocalLinesKeepOrder(k: nat, l: nat)
      requires Valid() && k < l < |capture.inject.tagged|
      ensures var ps, heard := Relaying.TaggedIndexes(capture.log, capture.heard), capture.heard;
              && |ps| == |capture.inject.tagged|
              && (Relaying.Alike(heard[ps[k]], heard[ps[l]]) ==> ps[k] < ps[l])
              && Relaying.IsTagOf(capture.inject.tagged[l], heard[ps[l]].line)
              && Relaying.WentOutAs(capture.log, ps[l], capture.inject.tagged[l].sender)
    {
      Relaying.LocalLinesInTypingOrder(capture.moments, capture.Lines(), k, l);
    }

    /** No call comes before the warm-up is over; at most one broadcast or notice faults, and nothing is called after it. */
    lemma CallsAreSafe()
      requires Valid()
      ensures var es, seen := capture.inject.events, capture.inject.worldReadyAt;
              && (forall e :: e in es ==> 0 < seen && seen + 15 * SECOND <= e.at)
              && (forall k :: 0 <= k < |es| && Fatal(es[k]) ==> k == |es| - 1 && capture.inject.circuitOpen)
      ensures capture.inject.events == EventsOf(deeds)
    {
      InjectionIsSafe(gates, loads, |loads|, |loads|);
    }
  }
}
