/**
  * The injecting side of the game thread: deferred actions, the inbound queue, the circuit breaker and the warm-up. What
  * the engine answers (does the game state exist, does a call fault) is left open at every place it is asked.
  */
module ChatInject {
  import opened Text
  import opened Guids
  import opened Queues
  import opened Relay
  import opened GameSide
  import opened Audience
  import opened Delivery
  import opened WordFilter
  import opened Sanitize
  import opened Injection
  import opened ChatLines
  import CF = ChatFormat

  /** The answer of a delivery. */
  predicate Answers(ok: bool, open: bool, outs: seq<Outcome>) {
    && ok == (NotReady !in outs)
    && (!open ==> forall i :: 0 <= i < |outs| ==> outs[i].NotReady? || (outs[i].Called? && !outs[i].faulted))
  }

  /** No call of the message faulted. */
  ghost predicate NoneFaulted(outs: seq<Outcome>) {
    forall i :: 0 <= i < |outs| ==> !(outs[i].Called? && outs[i].faulted)
  }

  lemma NoneFaultedSnoc(outs: seq<Outcome>, out: Outcome)
    ensures NoneFaulted(outs + [out]) <==> NoneFaulted(outs) && !(out.Called? && out.faulted)
  {
    var more := outs + [out];
    assert more[|outs|] == out && forall i :: 0 <= i < |outs| ==> more[i] == outs[i];
  }

  lemma {:induction false} FaultsShow(posts: seq<Post>, outs: seq<Outcome>, category: int, at: int)
    requires |posts| == |outs| && NoFault(Issued(posts, outs, category, at))
    ensures NoneFaulted(outs)
  {
    if posts != [] {
      var n := |posts| - 1;
      var before, es := Issued(posts[..n], outs[..n], category, at), Issued(posts, outs, category, at);
      assert forall i :: 0 <= i < |before| ==> es[i] == before[i];
      FaultsShow(posts[..n], outs[..n], category, at);
      assert outs == outs[..n] + [outs[n]];
      NoneFaultedSnoc(outs[..n], outs[n]);
      if outs[n].Called? {
        assert !Fatal(es[|before|]);
      }
    }
  }

  /** Something that may be true or not. */
  method Oracle() returns (b: bool) {
    b := *;
  }

  /**
    * Of the deferred actions and of the inbound rows a tick took `share` each, fewer only if no more were there or the
    * last row is to be tried again.
    */
  ghost predicate TookShare(acts: seq<Deed>, rows: seq<Deed>, share: int, deferred: seq<Deferred>, inbound: seq<Row>) {
    && |ActionsOf(acts)| <= share && (|ActionsOf(acts)| < share ==> deferred == [])
    && |RowsOf(rows)| <= share && (|RowsOf(rows)| < share ==> inbound == [] || IsPutBack(rows))
  }

  /** The last of them could not be shown and is to be tried again. */
  ghost predicate IsPutBack(rows: seq<Deed>) {
    rows != [] && rows[|rows| - 1].Tried? && !rows[|rows| - 1].done
  }

  class Injector {
    const config: Settings
    const filter: Filter
    const audience: Tracker
    var gameState: bool                           // the weak reference is set
    var broadcastReady: bool
    var noticeReady: bool
    var deferred: seq<Deferred>
    var circuitOpen: bool
    var worldReadyAt: int                         // 0: never seen
    var findFaults: nat
    ghost var events: seq<Event>                  // all ProcessEvent calls so far
    ghost var tagged: seq<Deferred>               // all local lines ever deferred

    ghost predicate Valid()
      reads this, audience
    {
      && audience.Valid()
      && |deferred| <= MAX_DEFERRED
      && 0 <= worldReadyAt
      && EventsOk(events, circuitOpen, worldReadyAt)
    }

    /** The game state was first seen at least the warm-up ago. */
    predicate Warm(now: int)
      reads this
    {
      0 < worldReadyAt && worldReadyAt + WARMUP <= now
    }

    ghost function State(): Gate
      reads `events, `circuitOpen, `worldReadyAt
    {
      Gate(events, circuitOpen, worldReadyAt)
    }

    ghost function EnvOf(): Env {
      Env(config, filter, audience.key, audience.normalize)
    }

    /** The audience as it is. */
    ghost function Here(): Standing
      reads audience
    {
      Standing(audience.roster, audience.bootstrapped)
    }

    constructor (config: Settings, filter: Filter, audience: Tracker)
      requires audience.Valid()
      ensures Valid() && this.config == config && this.filter == filter && this.audience == audience
      ensures deferred == [] && tagged == [] && State() == Gate([], false, 0)
    {
      this.config, this.filter, this.audience := config, filter, audience;
      gameState, broadcastReady, noticeReady, deferred := false, false, false, [];
      circuitOpen, worldReadyAt, findFaults, events, tagged := false, 0, 0, [], [];
    }

    method TripInjectCircuit()
      modifies `circuitOpen, `gameState
      ensures circuitOpen && (gameState ==> old(gameState))
    {
      if circuitOpen {
        return;
      }
      circuitOpen := true;
      gameState := false;
    }

    /** The game state, from the weak reference or searched anew. Three faults of the search open the circuit. */
    method ResolveGameState() returns (there: bool)
      modifies `gameState, `findFaults, `circuitOpen
      ensures there ==> circuitOpen == old(circuitOpen) && gameState && findFaults == old(findFaults)
      ensures !there ==> !gameState
      ensures old(circuitOpen) ==> circuitOpen
      ensures circuitOpen && !old(circuitOpen) ==> findFaults == old(findFaults) + 1 >= 3
    {
      if gameState {
        var alive := Oracle();
        if alive {
          return true;
        }
      }
      gameState := false;
      var faulted := Oracle();
      if faulted {
        findFaults := findFaults + 1;
        if findFaults >= 3 {
          TripInjectCircuit();
        }
        return false;
      }
      var present := Oracle();
      if !present {
        return false;
      }
      var rejected := Oracle();
      if rejected {
        gameState := false;
        return false;
      }
      gameState := true;
      there := true;
    }

    method EnsureBroadcastFunction() returns (ready: bool)
      modifies `broadcastReady
      ensures ready == broadcastReady && (old(broadcastReady) ==> ready)
    {
      if !broadcastReady {
        broadcastReady := Oracle();
      }
      ready := broadcastReady;
    }

    method EnsureServerNoticeFunction() returns (ready: bool)
      modifies `noticeReady
      ensures ready == noticeReady && (old(noticeReady) ==> ready)
    {
      if !noticeReady {
        noticeReady := Oracle();
      }
      ready := noticeReady;
    }

    /** Notes a call. */
    ghost method Note(e: Event)
      requires Valid() && !circuitOpen && Warm(e.at) && !Fatal(e)
      modifies `events
      ensures Valid() && events == old(events) + [e]
    {
      events := events + [e];
    }

    /**
      * One BroadcastChatMessage to some players, or to everyone. The call is made exactly if the circuit is closed and
      * the game state and the function are there; only then can it fault, and a fault opens the circuit and takes the
      * players off the roster. `false` is answered only if no call was made.
      */
    method BroadcastDisplay(line: Line, category: int, receivers: seq<Guid>, now: int)
      returns (done: bool, ghost out: Outcome)
      requires Valid() && Warm(now)
      modifies `gameState, `findFaults, `circuitOpen, `broadcastReady, `events
      modifies audience`roster, audience`xbox, audience`others
      ensures Valid() && done == !out.NotReady? && (out.Dropped? <==> old(circuitOpen))
      ensures old(circuitOpen) ==> circuitOpen
      ensures !out.Called? ==> events == old(events)
      ensures out.Called? ==>
                && events == old(events) + [Shown(line, category, receivers, out.roomy, now, out.faulted)]
                && circuitOpen == out.faulted
      ensures !(out.Called? && out.faulted) ==> unchanged(audience)
      ensures out.Called? && out.faulted ==>
                forall g :: audience.Find(g) == if g in receivers then None else old(audience.Find(g))
    {
      if circuitOpen {
        return true, Dropped;
      }
      var there := ResolveGameState();
      if !there {
        return false, NotReady;
      }
      var ready := EnsureBroadcastFunction();
      if !ready {
        return false, NotReady;
      }
      var roomy := Oracle();
      there := ResolveGameState();
      if !there {
        return false, NotReady;
      }
      var faulted := Oracle();
      out := Called(roomy, faulted);
      done := true;
      if faulted {
        events := events + [Shown(line, category, receivers, roomy, now, true)];
        if receivers != [] {
          audience.ForgetMany(receivers);
        }
        TripInjectCircuit();
      } else {
        Note(Shown(line, category, receivers, roomy, now, false));
      }
    }

    /** The roster and its lists for one message: a first look for players already here, then the leavers out. */
    method TakeView(world: World) returns (xbox: seq<Guid>, others: seq<Guid>, ghost view: View)
      requires Valid()
      modifies audience`roster, audience`xbox, audience`others, audience`bootstrapped
      ensures Valid() && view == View(audience.roster, xbox, others)
      ensures IsView(view, audience.key, old(Here()), audience.normalize, world) && audience.bootstrapped
    {
      audience.TryBootstrapOnce(world.found, world.read);
      ghost var booted := audience.roster;
      xbox, others := audience.Snapshot(world.live);
      view := View(audience.roster, xbox, others);
      forall g
        ensures Lookup(audience.key, view.roster, g) ==
                Pruned(Booted(audience.key, old(Here()), audience.normalize, world, g), world.live)
      {
        assert audience.Find(g) == Pruned(Lookup(audience.key, booted, g), world.live);
      }
    }

    /** One more post of a message; `before` are the calls made earlier, `shown` those for this message. */
    method Send(post: Post, category: int, now: int, ok: bool, ghost posts: seq<Post>, ghost outs: seq<Outcome>,
                ghost before: seq<Event>, ghost shown: seq<Event>)
      returns (still: bool, ghost morePosts: seq<Post>, ghost moreOuts: seq<Outcome>, ghost more: seq<Event>)
      requires Valid() && Warm(now)
      requires |posts| == |outs| && shown == Issued(posts, outs, category, now) && events == before + shown
      requires Answers(ok, circuitOpen, outs)
      modifies `gameState, `findFaults, `circuitOpen, `broadcastReady, `events
      modifies audience`roster, audience`xbox, audience`others
      ensures Valid() && (old(circuitOpen) ==> circuitOpen && more == shown)
      ensures morePosts == posts + [post] && |moreOuts| == |morePosts|
      ensures more == Issued(morePosts, moreOuts, category, now) && events == before + more
      ensures Answers(still, circuitOpen, moreOuts)
      ensures NoneFaulted(moreOuts) ==> NoneFaulted(outs) && audience.roster == old(audience.roster)
    {
      var done;
      ghost var out;
      done, out := BroadcastDisplay(post.line, category, post.targets, now);
      IssuedSnoc(posts, outs, post, out, category, now);
      NoneFaultedSnoc(outs, out);
      morePosts, moreOuts := posts + [post], outs + [out];
      more := Issued(morePosts, moreOuts, category, now);
      still := done && ok;
    }

    /** The formatted line to the others, then the attributed line to Xbox. */
    method DeliverTo(xbox: seq<Guid>, others: seq<Guid>, formatted: Line, attributed: Line, local: bool, category: int, now: int)
      returns (ok: bool, ghost outs: seq<Outcome>, ghost shown: seq<Event>)
      requires Valid() && Warm(now)
      modifies `gameState, `findFaults, `circuitOpen, `broadcastReady, `events
      modifies audience`roster, audience`xbox, audience`others
      ensures Valid() && (old(circuitOpen) ==> circuitOpen && shown == [])
      ensures |outs| == |Posts(xbox, others, formatted, attributed, local)|
      ensures shown == Issued(Posts(xbox, others, formatted, attributed, local), outs, category, now)
      ensures events == old(events) + shown && Answers(ok, circuitOpen, outs)
      ensures NoneFaulted(outs) ==> audience.roster == old(audience.roster)
    {
      ok, outs, shown := true, [], [];
      ghost var posts: seq<Post> := [];
      PostsOneByOne(xbox, others, formatted, attributed, local);
      if others != [] {
        ok, posts, outs, shown := Send(Post(formatted, others), category, now, ok, posts, outs, old(events), shown);
      }
      if xbox != [] && local {
        ok, posts, outs, shown := Send(Post(attributed, xbox), category, now, ok, posts, outs, old(events), shown);
      }
    }

    /** The two broadcasts of one message. */
    method BroadcastDual(plain: (string, string), formatted: Line, category: int, sender: Option<Guid>, world: World, now: int)
      returns (ok: bool, ghost view: View, ghost outs: seq<Outcome>, ghost shown: seq<Event>)
      requires Valid() && Warm(now)
      modifies `gameState, `findFaults, `circuitOpen, `broadcastReady, `events
      modifies audience`roster, audience`xbox, audience`others, audience`bootstrapped
      ensures Valid() && (old(circuitOpen) ==> circuitOpen && shown == [])
      ensures IsView(view, audience.key, old(Here()), audience.normalize, world)
      ensures NoFault(shown) ==> Here() == Standing(view.roster, true)
      ensures Delivered(audience.key, view, formatted, plain, sender, category, now, outs, shown)
      ensures IsDual(audience.key, view, formatted, Line(plain.0, plain.1, UidOf(sender)), sender, outs, shown)
      ensures events == old(events) + shown && Answers(ok, circuitOpen, outs)
    {
      hide IsDual;
      var xbox, others;
      xbox, others, view := TakeView(world);
      var local := sender.Some? && audience.IsOnline(sender.value);
      var attributed := Line(plain.0, plain.1, if sender.Some? then sender.value else NIL);
      ok, outs, shown := DeliverTo(xbox, others, formatted, attributed, local, category, now);
      DeliveredIsDual(audience.key, view, formatted, plain, sender, category, now, outs, shown);
      if NoFault(shown) {
        FaultsShow(Posts(xbox, others, formatted, attributed, local), outs, category, now);
      }
    }

    /** The formatted line and the plain one of a message that is not empty. Neither text can come out empty. */
    method Render(origin: string, sender: string, guild: string, message: string, cleanMessage: string)
      returns (formatted: Line, plain: (string, string))
      requires cleanMessage == Sanitized(message, MESSAGE_LIMIT) != ""
      ensures formatted == FormattedLine(config, origin, sender, guild, message) && formatted.text != ""
      ensures plain == (CleanName(sender), cleanMessage)
    {
      var cleanSender := SanitizeMessage(sender, NAME_LIMIT);
      if cleanSender == "" {
        cleanSender := "Unknown";
      }
      var prefix := PrefixForOrigin(config, origin);
      var cleanGuild := SanitizeMessage(guild, NAME_LIMIT);
      var displaySender, displayMessage :=
        CF.ApplyChatFormat(config.chatFormat, prefix, cleanGuild, cleanSender, cleanMessage);
      if displayMessage == "" {
        displayMessage := cleanMessage;
      }
      plain := CF.ApplyChatFormatAttributed(cleanSender, cleanMessage);
      if plain.1 == "" {
        plain := (plain.0, cleanMessage);
      }
      formatted := Line(displaySender, displayMessage, NIL);
    }

    /** A local line with this server's tag. The answer is not looked at: local lines are never tried again. */
    method BroadcastLocalTagged(action: Deferred, world: World, now: int) returns (ok: bool, ghost deed: Deed)
      requires Valid() && Warm(now) && action.LocalTagged?
      modifies `gameState, `findFaults, `circuitOpen, `broadcastReady, `events
      modifies audience`roster, audience`xbox, audience`others, audience`bootstrapped
      ensures Valid() && (old(circuitOpen) ==> circuitOpen && deed.shown == []) && events == old(events) + deed.shown
      ensures IsPerformed(deed, action, now, world, old(Here()), Here()) && (Dropped in deed.outs ==> circuitOpen)
      ensures Sanitized(action.message, MESSAGE_LIMIT) == "" ==> !ok
      ensures forall e :: e in deed.shown ==> ShowsAction(EnvOf(), deed, e)
    {
      hide ShowsAction, ShowsMessage;
      var cleanMessage := SanitizeMessage(action.message, MESSAGE_LIMIT);
      if cleanMessage == "" {
        return false, Performed(action, now, world, Here(), Here(), View(map[], [], []), [], []);
      }
      var formatted, plain := Render(config.serverOrigin, action.sender, action.guild, action.message, cleanMessage);
      var sender := if action.uid == NIL then None else Some(action.uid);
      ghost var view, outs, shown;
      ok, view, outs, shown := BroadcastDual(plain, formatted, action.category, sender, world, now);
      deed := Performed(action, now, world, old(Here()), Here(), view, outs, shown);
      forall e | e in shown
        ensures ShowsAction(EnvOf(), deed, e)
      {
        ActionIsShown(EnvOf(), deed, e);
      }
    }

    /** The deed is this action, performed now and in the right way. */
    ghost predicate IsPerformed(d: Deed, action: Deferred, now: int, world: World, before: Standing, after: Standing) {
      && d.Performed? && d.action == action && d.at == now && d.world == world && d.before == before && d.after == after
      && DeedOk(EnvOf(), d)
    }

    /** The deed is this row, tried now and in the right way. */
    ghost predicate IsTried(d: Deed, row: Row, done: bool, now: int, world: World, before: Standing, after: Standing) {
      && d.Tried? && d.row == row && d.done == done
      && d.at == now && d.world == world && d.before == before && d.after == after
      && DeedOk(EnvOf(), d)
    }

    /** One notice to everyone; `out` says how it went if there is anything to say. */
    method ShowServerNotice(notice: string, now: int) returns (done: bool, ghost out: Outcome)
      requires Valid() && Warm(now)
      modifies `gameState, `findFaults, `circuitOpen, `noticeReady, `events
      ensures Valid() && (old(circuitOpen) ==> circuitOpen && done) && (out.Dropped? <==> old(circuitOpen))
      ensures var text := NoticeText(notice, MESSAGE_LIMIT);
              && (!old(circuitOpen) ==> done == out.Called?) && (out.Called? ==> text != "" && circuitOpen == out.faulted)
              && events == old(events) + if out.Called? then [Noticed(text, now, out.faulted)] else []
    {
      assert events + [] == events;
      if circuitOpen {
        return true, Dropped;
      }
      var clean := SanitizeNotice(notice, MESSAGE_LIMIT);
      if clean == "" {
        return false, NotReady;
      }
      var there := ResolveGameState();
      if !there {
        return false, NotReady;
      }
      var ready := EnsureServerNoticeFunction();
      if !ready {
        return false, NotReady;
      }
      there := ResolveGameState();
      if !there {
        return false, NotReady;
      }
      var faulted := Oracle();
      done, out := true, Called(false, faulted);
      if faulted {
        events := events + [Noticed(clean, now, true)];
        TripInjectCircuit();
      } else {
        Note(Noticed(clean, now, false));
      }
    }

    /** A private log line; its faults do not open the circuit. */
    method SendScreenLog(controller: Object, text: string, now: int) returns (done: bool, ghost out: Outcome)
      requires Valid() && Warm(now)
      modifies `events
      ensures Valid() && (out.Dropped? <==> circuitOpen) && done == (out.Called? && !out.faulted)
      ensures var clean := NoticeText(text, MESSAGE_LIMIT);
              && (out.Called? ==> clean != "")
              && events == old(events) + if out.Called? then [Logged(controller, clean, now, out.faulted)] else []
    {
      assert events + [] == events;
      if circuitOpen {
        return false, Dropped;
      }
      var clean := SanitizeNotice(text, MESSAGE_LIMIT);
      if clean == "" {
        return false, NotReady;
      }
      var there := Oracle();
      if !there {
        return false, NotReady;
      }
      var faulted := Oracle();
      out := Called(false, faulted);
      Note(Logged(controller, clean, now, faulted));
      done := !faulted;
    }

    // ----- deferred actions

    /** The action is the last one; the first one goes only if there are 64. */
    ghost predicate JoinsTail(action: Deferred, was: seq<Deferred>, queue: seq<Deferred>) {
      && (|was| < 64 ==> queue == was + [action])
      && (|was| == 64 ==> queue == was[1..] + [action])
    }

    method EnqueueLocalTagged(sender: string, guild: string, message: string, category: int, uid: Guid)
      requires Valid()
      modifies `deferred, `tagged
      ensures Valid() && deferred == Pushed(old(deferred), LocalTagged(sender, guild, message, category, uid), MAX_DEFERRED)
      ensures tagged == old(tagged) + [LocalTagged(sender, guild, message, category, uid)]
      ensures JoinsTail(LocalTagged(sender, guild, message, category, uid), old(deferred), deferred)
    {
      Enqueue(LocalTagged(sender, guild, message, category, uid));
      tagged := tagged + [LocalTagged(sender, guild, message, category, uid)];
    }

    /** Nothing in the repository calls this one. */
    method EnqueueServerNotice(notice: string)
      requires Valid()
      modifies `deferred
      ensures Valid() && deferred == Pushed(old(deferred), ServerNotice(notice), MAX_DEFERRED)
    {
      Enqueue(ServerNotice(notice));
    }

    method EnqueueScreenLog(controller: Option<Object>, text: string)
      requires Valid()
      modifies `deferred
      ensures Valid()
      ensures deferred ==
              if controller.None? then old(deferred)
              else Pushed(old(deferred), ScreenLog(controller.value, text), MAX_DEFERRED)
      ensures controller.Some? ==> JoinsTail(ScreenLog(controller.value, text), old(deferred), deferred)
    {
      if controller.None? {
        return;
      }
      Enqueue(ScreenLog(controller.value, text));
    }

    method EnqueuePrivateChat(receiver: Guid, text: string)
      requires Valid()
      modifies `deferred
      ensures Valid()
      ensures deferred ==
              if receiver == NIL || text == "" then old(deferred)
              else Pushed(old(deferred), PrivateChat(receiver, text), MAX_DEFERRED)
      ensures receiver != NIL && text != "" ==> JoinsTail(PrivateChat(receiver, text), old(deferred), deferred)
    {
      if receiver == NIL || text == "" {
        return;
      }
      Enqueue(PrivateChat(receiver, text));
    }

    method Enqueue(action: Deferred)
      requires Valid()
      modifies `deferred
      ensures Valid() && deferred == Pushed(old(deferred), action, MAX_DEFERRED)
      ensures JoinsTail(action, old(deferred), deferred)
    {
      if |deferred| >= MAX_DEFERRED {
        deferred := deferred[1..];
      }
      deferred := deferred + [action];
    }

    /** One deferred action; the deed says what was called for it. */
    method Perform(action: Deferred, world: World, now: int) returns (ghost deed: Deed)
      requires Valid() && Warm(now)
      modifies `gameState, `findFaults, `circuitOpen, `broadcastReady, `noticeReady, `events
      modifies audience`roster, audience`xbox, audience`others, audience`bootstrapped
      ensures Valid() && events == old(events) + deed.shown && (old(circuitOpen) ==> circuitOpen && deed.shown == [])
      ensures IsPerformed(deed, action, now, world, old(Here()), Here()) && (Dropped in deed.outs ==> circuitOpen)
    {
      match action
      case LocalTagged(_, _, _, _, _) =>
        var ok;
        ok, deed := BroadcastLocalTagged(action, world, now);
      case ServerNotice(notice) =>
        deed := PerformNotice(notice, world, now);
      case ScreenLog(controller, log) =>
        deed := PerformScreenLog(controller, log, world, now);
      case PrivateChat(receiver, chat) =>
        deed := PerformPrivateChat(receiver, chat, world, now);
    }

    method PerformNotice(notice: string, world: World, now: int) returns (ghost deed: Deed)
      requires Valid() && Warm(now)
      modifies `gameState, `findFaults, `circuitOpen, `noticeReady, `events
      ensures Valid() && events == old(events) + deed.shown && (old(circuitOpen) ==> circuitOpen && deed.shown == [])
      ensures IsPerformed(deed, ServerNotice(notice), now, world, old(Here()), Here()) && (Dropped in deed.outs ==> circuitOpen)
    {
      ghost var out;
      var done;
      done, out := ShowServerNotice(notice, now);
      ghost var text := NoticeText(notice, MESSAGE_LIMIT);
      ghost var outs := if text == "" then [] else [out];
      deed := Performed(ServerNotice(notice), now, world, Here(), Here(), View(map[], [], []), outs,
                        if out.Called? then [Noticed(text, now, out.faulted)] else []);
    }

    method PerformScreenLog(controller: Object, log: string, world: World, now: int) returns (ghost deed: Deed)
      requires Valid() && Warm(now)
      modifies `events
      ensures Valid() && events == old(events) + deed.shown && (circuitOpen ==> deed.shown == [])
      ensures IsPerformed(deed, ScreenLog(controller, log), now, world, Here(), Here()) && (Dropped in deed.outs ==> circuitOpen)
    {
      ghost var text := NoticeText(log, MESSAGE_LIMIT);
      ghost var outs, shown := [], [];
      if controller in world.live {
        ghost var out;
        var done;
        done, out := SendScreenLog(controller, log, now);
        outs := if text == "" then [] else [out];
        shown := if out.Called? then [Logged(controller, text, now, out.faulted)] else [];
      }
      deed := Performed(ScreenLog(controller, log), now, world, Here(), Here(), View(map[], [], []), outs, shown);
    }

    /** A line for one player. */
    method PerformPrivateChat(receiver: Guid, chat: string, world: World, now: int) returns (ghost deed: Deed)
      requires Valid() && Warm(now)
      modifies `gameState, `findFaults, `circuitOpen, `broadcastReady, `events
      modifies audience`roster, audience`xbox, audience`others
      ensures Valid() && events == old(events) + deed.shown && (old(circuitOpen) ==> circuitOpen && deed.shown == [])
      ensures IsPerformed(deed, PrivateChat(receiver, chat), now, world, old(Here()), Here())
      ensures Dropped in deed.outs ==> circuitOpen
    {
      hide Issued;
      ghost var out;
      var done;
      var line := Line("PalCrosschat", chat, NIL);
      done, out := BroadcastDisplay(line, GLOBAL, [receiver], now);
      ghost var shown := if out.Called? then [Shown(line, GLOBAL, [receiver], out.roomy, now, out.faulted)] else [];
      deed := Performed(PrivateChat(receiver, chat), now, world, old(Here()), Here(), View(map[], [], []), [out], shown);
      PrivateIssued(receiver, chat, out, now);
      if out.Called? {
        assert NoFault(shown) ==> !Fatal(shown[0]);
      }
    }

    /** Takes at most so many actions from the front, and loses them whether they could be performed or not. */
    method FlushDeferred(maxActions: int, world: World, now: int) returns (ghost deeds: seq<Deed>)
      requires Valid() && Warm(now) && 0 <= maxActions
      modifies `gameState, `findFaults, `circuitOpen, `broadcastReady, `noticeReady, `events, `deferred
      modifies audience`roster, audience`xbox, audience`others, audience`bootstrapped
      ensures Valid() && (old(circuitOpen) ==> circuitOpen)
      ensures ActionBooks(deeds, old(events), old(deferred), events, deferred)
      ensures InOneTick(EnvOf(), deeds, now, world, old(Here()), Here())
      ensures |ActionsOf(deeds)| <= maxActions && (|ActionsOf(deeds)| < maxActions ==> deferred == [])
    {
      deeds := [];
      for i := 0 to maxActions
        invariant Valid() && (old(circuitOpen) ==> circuitOpen)
        invariant ActionBooks(deeds, old(events), old(deferred), events, deferred) && |ActionsOf(deeds)| == i
        invariant InOneTick(EnvOf(), deeds, now, world, old(Here()), Here())
      {
        if deferred == [] {
          return;
        }
        deeds := PerformNext(world, now, old(events), old(deferred), old(Here()), deeds);
      }
    }

    method PerformNext(world: World, now: int, ghost es: seq<Event>, ghost queue: seq<Deferred>, ghost from: Standing,
                       ghost deeds: seq<Deed>)
      returns (ghost more: seq<Deed>)
      requires Valid() && Warm(now) && deferred != []
      requires ActionBooks(deeds, es, queue, events, deferred) && InOneTick(EnvOf(), deeds, now, world, from, Here())
      modifies `gameState, `findFaults, `circuitOpen, `broadcastReady, `noticeReady, `events, `deferred
      modifies audience`roster, audience`xbox, audience`others, audience`bootstrapped
      ensures Valid() && (old(circuitOpen) ==> circuitOpen)
      ensures ActionBooks(more, es, queue, events, deferred) && InOneTick(EnvOf(), more, now, world, from, Here())
      ensures |ActionsOf(more)| == |ActionsOf(deeds)| + 1
    {
      var action := deferred[0];
      deferred := deferred[1..];
      ghost var deed := Perform(action, world, now);
      ActionBooked(EnvOf(), deeds, deed, es, queue, old(events), old(deferred));
      more := deeds + [deed];
    }

    // ----- the inbound queue

    /** One inbound row; the deed says to whom it went and what was called for it. */
    method BroadcastOne(row: Row, world: World, now: int) returns (done: bool, ghost deed: Deed)
      requires Valid() && Warm(now)
      modifies `gameState, `findFaults, `circuitOpen, `broadcastReady, `events
      modifies audience`roster, audience`xbox, audience`others, audience`bootstrapped
      ensures Valid() && events == old(events) + deed.shown && (old(circuitOpen) ==> circuitOpen && deed.shown == [])
      ensures IsTried(deed, row, done, now, world, old(Here()), Here())
      ensures forall e :: e in deed.shown ==> ShowsRow(EnvOf(), deed, e)
      ensures var clean := Sanitized(row.message.text, MESSAGE_LIMIT);
              if clean == "" || Matched(filter.patterns, filter.search, clean) then done && deed.outs == []
              else done == (NotReady !in deed.outs)
    {
      hide ShowsRow, Delivered, IsView, IsDual, FirstMatch;
      var m := row.message;
      deed := Tried(row, true, now, world, Here(), Here(), View(map[], [], []), [], []);
      var cleanMessage := SanitizeMessage(m.text, MESSAGE_LIMIT);
      if cleanMessage == "" {
        return true, deed;
      }
      if filter.IsActive() {
        var matched := filter.FindMatch(cleanMessage);
        if matched.Some? {
          return true, deed;
        }
      }
      var formatted, plain := Render(row.origin, m.sender, m.guild, m.text, cleanMessage);
      var have, uid := TryParseGuid(m.senderId);
      var sender := if have then Some(uid) else None;
      ghost var view, outs, shown;
      done, view, outs, shown := BroadcastDual(plain, formatted, config.injectCategory, sender, world, now);
      deed := Tried(row, done, now, world, old(Here()), Here(), view, outs, shown);
      RowIsShownByAll(EnvOf(), deed);
    }

    /** May calls be made in this tick, and how many? The first sight of the game state starts the warm-up. */
    method CanInjectNow(configuredMax: int, now: int) returns (ok: bool, limit: int)
      requires Valid() && 0 < now && worldReadyAt <= now
      modifies `gameState, `findFaults, `circuitOpen, `worldReadyAt
      ensures Valid() && (old(circuitOpen) ==> !ok && circuitOpen)
      ensures worldReadyAt == old(worldReadyAt) || (old(worldReadyAt) == 0 && worldReadyAt == now)
      ensures ok ==> Warm(now) && !circuitOpen && limit == TickLimit(configuredMax, worldReadyAt, now)
      ensures ok ==> old(worldReadyAt) == worldReadyAt
      ensures ok ==> limit == if now - worldReadyAt < 60 * SECOND || configuredMax <= 0 then 1 else configuredMax
      ensures !ok ==> limit == 0 && (circuitOpen || !gameState || !Warm(now))
    {
      limit := 0;
      if circuitOpen {
        return false, 0;
      }
      var there := ResolveGameState();
      if !there {
        return false, 0;
      }
      if worldReadyAt == 0 {
        worldReadyAt := now;
      }
      if now - worldReadyAt < WARMUP {
        return false, 0;
      }
      var cap := if configuredMax > 0 then configuredMax else 1;
      limit := if now - worldReadyAt < RAMP then 1 else cap;
      ok := true;
    }

    /** One row to the players, and into the books; `p'` is what the game thread had done before it popped the row. */
    method TryRow(row: Row, world: World, now: int, ghost es: seq<Event>, ghost p: GamePart, ghost p': GamePart,
                  ghost from: Standing, ghost deeds: seq<Deed>)
      returns (goOn: bool, ghost more: seq<Deed>, ghost events': nat, ghost two: bool)
      requires Valid() && Warm(now) && p'.hand.None?
      requires RowBooks(EnvOf(), deeds, es, p, events, p') && InOneTick(EnvOf(), deeds, now, world, from, Here())
      modifies `gameState, `findFaults, `circuitOpen, `broadcastReady, `events
      modifies audience`roster, audience`xbox, audience`others, audience`bootstrapped
      ensures Valid() && (old(circuitOpen) ==> circuitOpen)
      ensures MayShow(Some(row), events', goOn, two) && InOneTick(EnvOf(), more, now, world, from, Here())
      ensures RowBooks(EnvOf(), more, es, p, events,
                       Answered(p'.(hand := Some(row), taken := p'.taken + [row]), row, events', goOn, two))
      ensures |RowsOf(more)| == |RowsOf(deeds)| + 1 && (goOn <==> !IsPutBack(more))
    {
      hide ShowsRow, RowOk, Answered, InOneTick;
      ghost var deed;
      goOn, deed := BroadcastOne(row, world, now);
      RowCallsAreShown(EnvOf(), deed);
      TickGoesOn(EnvOf(), deeds, deed, now, world, from);
      if row.message.senderId == "" {
        NoSenderNeverLocal(audience.key, deed.view, row);
      }
      RowBooked(EnvOf(), deeds, deed, es, p, old(events), p', p'.(hand := Some(row), taken := p'.taken + [row]));
      more, events', two := deeds + [deed], |deed.shown|, SplitsRow(EnvOf(), deed);
    }

    /** The next row from the queue to the players, and back to the queue if it is to be tried again. */
    method DrainOne(side: Ends, world: World, now: int, ghost es: seq<Event>, ghost p: GamePart, ghost from: Standing,
                    ghost deeds: seq<Deed>)
      returns (goOn: bool, ghost more: seq<Deed>)
      requires Valid() && Warm(now) && side.Linked() && side.hand.None?
      requires RowBooks(EnvOf(), deeds, es, p, events, side.Part()) && InOneTick(EnvOf(), deeds, now, world, from, Here())
      modifies `gameState, `findFaults, `circuitOpen, `broadcastReady, `events
      modifies audience`roster, audience`xbox, audience`others, audience`bootstrapped
      modifies side`hand, side`finished, side`shown, side`split, side`taken, side`local, side`outer, side.outbound, side.inbound
      ensures Valid() && side.Linked() && side.hand.None? && (old(circuitOpen) ==> circuitOpen)
      ensures RowBooks(EnvOf(), more, es, p, events, side.Part()) && InOneTick(EnvOf(), more, now, world, from, Here())
      ensures |RowsOf(more)| <= |RowsOf(deeds)| + 1 && (goOn ==> |RowsOf(more)| == |RowsOf(deeds)| + 1)
      ensures !goOn ==> side.inbound.items == [] || IsPutBack(more)
    {
      hide Ends.Linked, InOneTick, RowBooks, Answered, MayShow, IsPutBack;
      var item := side.Draw();
      if item.None? {
        return false, deeds;
      }
      ghost var n, two;
      goOn, more, n, two := TryRow(item.value, world, now, es, p, old(side.Part()), from, deeds);
      side.Answer(n, goOn, two);
    }

    method DrainInbound(side: Ends, limit: int, world: World, now: int) returns (ghost deeds: seq<Deed>)
      requires Valid() && Warm(now) && side.Linked() && side.hand.None? && 0 <= limit
      modifies `gameState, `findFaults, `circuitOpen, `broadcastReady, `events
      modifies audience`roster, audience`xbox, audience`others, audience`bootstrapped
      modifies side`hand, side`finished, side`shown, side`split, side`taken, side`local, side`outer, side.outbound, side.inbound
      ensures Valid() && side.Linked() && side.hand.None? && (old(circuitOpen) ==> circuitOpen)
      ensures RowBooks(EnvOf(), deeds, old(events), old(side.Part()), events, side.Part())
      ensures InOneTick(EnvOf(), deeds, now, world, old(Here()), Here()) && |RowsOf(deeds)| <= limit
      ensures |RowsOf(deeds)| < limit ==> side.inbound.items == [] || IsPutBack(deeds)
    {
      hide Ends.Linked, IsPutBack;
      deeds := [];
      for i := 0 to limit
        invariant Valid() && side.Linked() && side.hand.None? && (old(circuitOpen) ==> circuitOpen)
        invariant RowBooks(EnvOf(), deeds, old(events), old(side.Part()), events, side.Part())
        invariant InOneTick(EnvOf(), deeds, now, world, old(Here()), Here()) && |RowsOf(deeds)| == i
      {
        var goOn;
        goOn, deeds := DrainOne(side, world, now, old(events), old(side.Part()), old(Here()), deeds);
        if !goOn {
          break;
        }
      }
    }

    /** The work of a tick in which calls are allowed. */
    method Work(side: Ends, limit: int, world: World, now: int) returns (ghost acts: seq<Deed>, ghost rows: seq<Deed>)
      requires Valid() && Warm(now) && side.Linked() && side.hand.None? && 0 < limit
      modifies `gameState, `findFaults, `circuitOpen, `broadcastReady, `noticeReady, `events, `deferred
      modifies audience`roster, audience`xbox, audience`others, audience`bootstrapped
      modifies side`hand, side`finished, side`shown, side`split, side`taken, side`local, side`outer, side.outbound, side.inbound
      ensures Valid() && side.Linked() && side.hand.None? && (old(circuitOpen) ==> circuitOpen)
      ensures ActionBooks(acts, old(events), old(deferred), old(events) + EventsOf(acts), deferred)
      ensures RowBooks(EnvOf(), rows, old(events) + EventsOf(acts), old(side.Part()), events, side.Part())
      ensures InOneTick(EnvOf(), acts + rows, now, world, old(Here()), Here())
      ensures TookShare(acts, rows, limit, deferred, side.inbound.items)
    {
      hide IsPutBack;
      acts := FlushDeferred(if limit > 0 then limit else 1, world, now);
      ghost var mid := Here();
      rows := DrainInbound(side, limit, world, now);
      TickJoin(EnvOf(), acts, rows, now, world, old(Here()), mid, Here());
    }

    /**
      * One tick: deferred actions, then inbound rows. All calls are those of the actions and rows taken, in their order
      * and to the audience of that moment; what the queue and the protocol see is what the deeds say; and the tick
      * keeps to its limits.
      */
    method Drain(side: Ends, maxPerTick: int, world: World, now: int) returns (ghost acts: seq<Deed>, ghost rows: seq<Deed>)
      requires Valid() && 0 < now && worldReadyAt <= now && side.Linked() && side.hand.None?
      modifies `gameState, `findFaults, `circuitOpen, `broadcastReady, `noticeReady, `events, `deferred, `worldReadyAt
      modifies audience`roster, audience`xbox, audience`others, audience`bootstrapped
      modifies side`hand, side`finished, side`shown, side`split, side`taken, side`local, side`outer, side.outbound, side.inbound
      ensures Valid() && side.Linked() && side.hand.None?
      ensures Tick(old(State()), State(), Load(now, maxPerTick, |ActionsOf(acts)|, |RowsOf(rows)|))
      ensures ActionBooks(acts, old(events), old(deferred), old(events) + EventsOf(acts), deferred)
      ensures RowBooks(EnvOf(), rows, old(events) + EventsOf(acts), old(side.Part()), events, side.Part())
      ensures InOneTick(EnvOf(), acts + rows, now, world, old(Here()), Here())
      ensures acts != [] || rows != [] || (!circuitOpen && gameState && Warm(now)) ==>
                TookShare(acts, rows, if now - worldReadyAt < 60 * SECOND || maxPerTick <= 0 then 1 else maxPerTick,
                          deferred, side.inbound.items)
    {
      hide Ends.Linked, InOneTick, EventsOf, ActionsOf, RowsOf, Tick, MayShow, IsPutBack;
      acts, rows := [], [];
      var ok, limit := CanInjectNow(maxPerTick, now);
      if ok {
        acts, rows := Work(side, limit, world, now);
        WorkedTick(EnvOf(), old(State()), State(), Load(now, maxPerTick, |ActionsOf(acts)|, |RowsOf(rows)|), acts, rows, world,
                   old(Here()), Here());
      } else {
        assert acts + rows == [];
        IdleTick(EnvOf(), old(State()), State(), now, maxPerTick, deferred, side.Part(), world, Here());
      }
    }
  }
}
