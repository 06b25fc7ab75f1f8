/**
  * The audience: who is online, kept as a map from printed GUIDs to entries with weak references to player states, and
  * two cached lists of it, Xbox players and the others. Which objects are alive, and what can be read from them, are
  * parameters of every call that looks. All that is used of the GUID printer is that it is injective.
  */
module Audience {
  import opened Text
  import opened Guids

  /** A game object, by an identity that is never reused. */
  type Object = nat

  /** What is known of an online player; `state` is the weak reference, if one was ever set. */
  datatype Entry = Entry(uid: Guid, platform: string, state: Option<Object>)

  type Roster = map<string, Entry>

  datatype PendingJoin = PendingJoin(state: Object, frames: nat)

  /** Uid and normalized platform id, as read from a player state; None if the read faults or the uid is nil. */
  type Reader = Object -> Option<(Guid, string)>

  const JOIN_MAX_WAIT := 180
  const JOIN_SOFT_READY := 30

  type Printer = Guid -> string

  ghost predicate Injective(key: Printer) {
    forall g, h :: key(g) == key(h) ==> g == h
  }

  lemma FormatIsAKey()
    ensures Injective(Format)
  {
    forall g, h | Format(g) == Format(h)
      ensures g == h
    {
      FormatIsInjective(g, h);
    }
  }

  predicate IsXbox(platform: string) {
    "gdk_" <= platform
  }

  /** Every entry stands under its own printed GUID. */
  ghost predicate RosterOk(key: Printer, r: Roster) {
    Injective(key) && forall k :: k in r ==> k == key(r[k].uid) && r[k].uid != NIL
  }

  /** The roster as a map from GUIDs. */
  function Lookup(key: Printer, r: Roster, g: Guid): Option<Entry> {
    if key(g) in r then Some(r[key(g)]) else None
  }

  ghost predicate Distinct<T(!new)>(s: seq<T>) {
    forall i, j :: 0 <= i < j < |s| ==> s[i] != s[j]
  }

  /** On the roster, and of that kind. */
  predicate Plays(key: Printer, r: Roster, g: Guid, xbox: bool) {
    Lookup(key, r, g).Some? && IsXbox(Lookup(key, r, g).value.platform) == xbox
  }

  /** The list has each player of that kind once, and nobody else. */
  ghost predicate Lists(list: seq<Guid>, key: Printer, r: Roster, xbox: bool) {
    Distinct(list) && forall g :: g in list <==> Plays(key, r, g, xbox)
  }

  /** The entry after an upsert. */
  function Merged(was: Option<Entry>, g: Guid, platform: string, state: Option<Object>): Entry {
    var e := if was.Some? then was.value else Entry(g, "", None);
    Entry(g, if platform != "" then platform else e.platform, if state.Some? then state else e.state)
  }

  /**
    * A player is on the roster as of now: with the platform that is known anew, else the old one; and with the weak
    * reference that is given, else the old one.
    */
  ghost predicate IsRefreshed(was: Option<Entry>, now: Option<Entry>, g: Guid, platform: string, state: Option<Object>) {
    && now.Some? && now.value.uid == g
    && (platform != "" ==> now.value.platform == platform)
    && (platform == "" && was.Some? ==> now.value.platform == was.value.platform)
    && (platform == "" && was.None? ==> now.value.platform == "")
    && (state.Some? ==> now.value.state == state)
    && (state.None? && was.Some? ==> now.value.state == was.value.state)
    && (state.None? && was.None? ==> now.value.state == None)
  }

  /** The player state is gone. */
  predicate IsDead(e: Entry, live: set<Object>) {
    e.state.Some? && e.state.value !in live
  }

  /** The weak reference was set, and what it pointed to is gone. */
  ghost predicate StateIsGone(e: Entry, live: set<Object>) {
    exists state :: e.state == Some(state) && state !in live
  }

  /** What stays of an entry when the dead are removed. */
  function Pruned(was: Option<Entry>, live: set<Object>): Option<Entry> {
    if was.Some? && IsDead(was.value, live) then None else was
  }

  /** A key of the roster is found again through its uid, and an entry has the uid it is found under. */
  lemma LookupByKey(key: Printer, r: Roster)
    requires RosterOk(key, r)
    ensures forall k :: k in r ==> Lookup(key, r, r[k].uid) == Some(r[k])
    ensures forall g :: Lookup(key, r, g).Some? ==> Lookup(key, r, g).value.uid == g != NIL
  {
  }

  lemma LookupAfterPut(key: Printer, r: Roster, g: Guid, e: Entry)
    requires RosterOk(key, r) && e.uid == g != NIL
    ensures RosterOk(key, r[key(g) := e])
    ensures forall h :: Lookup(key, r[key(g) := e], h) == if h == g then Some(e) else Lookup(key, r, h)
  {
    forall h
      ensures Lookup(key, r[key(g) := e], h) == if h == g then Some(e) else Lookup(key, r, h)
    {
      assert key(h) == key(g) ==> h == g;
    }
  }

  lemma LookupAfterErase(key: Printer, r: Roster, g: Guid)
    requires RosterOk(key, r)
    ensures RosterOk(key, r - {key(g)})
    ensures forall h :: Lookup(key, r - {key(g)}, h) == if h == g then None else Lookup(key, r, h)
  {
  }

  // ----- joins

  datatype Fate = Joins(uid: Guid, platform: string) | Waits | Leaves

  /** What one tick does with a waiting join. */
  function FateOf(item: PendingJoin, live: set<Object>, read: Reader): Fate {
    var frames := item.frames + 1;
    if item.state !in live then Leaves
    else if read(item.state).Some? && (frames >= JOIN_SOFT_READY || frames >= JOIN_MAX_WAIT)
    then Joins(read(item.state).value.0, read(item.state).value.1)
    else if frames < JOIN_MAX_WAIT then Waits
    else Leaves
  }

  function StillWaiting(items: seq<PendingJoin>, live: set<Object>, read: Reader): seq<PendingJoin> {
    if items == [] then []
    else
      var item := items[|items| - 1];
      var before := StillWaiting(items[..|items| - 1], live, read);
      if FateOf(item, live, read).Waits? then before + [item.(frames := item.frames + 1)] else before
  }

  /** One player state that was read. */
  datatype Sighting = Sighting(uid: Guid, platform: string, state: Object)

  /** The joins that come true in this tick. */
  function Joiners(items: seq<PendingJoin>, live: set<Object>, read: Reader): seq<Sighting> {
    if items == [] then []
    else
      var item := items[|items| - 1];
      var fate := FateOf(item, live, read);
      var before := Joiners(items[..|items| - 1], live, read);
      if fate.Joins? then before + [Sighting(fate.uid, fate.platform, item.state)] else before
  }

  /** The player states found at the start that can be read. */
  function Seeds(states: seq<Option<Object>>, read: Reader): seq<Sighting> {
    if states == [] then []
    else
      var state := states[|states| - 1];
      var before := Seeds(states[..|states| - 1], read);
      if state.Some? && read(state.value).Some?
      then before + [Sighting(read(state.value).value.0, read(state.value).value.1, state.value)]
      else before
  }

  /** The entry of `g` after the sightings, from what it was. */
  function Refreshed(seen: seq<Sighting>, normalize: string -> string, g: Guid, was: Option<Entry>): Option<Entry> {
    if seen == [] then was
    else
      var last := seen[|seen| - 1];
      var before := Refreshed(seen[..|seen| - 1], normalize, g, was);
      if last.uid == g && g != NIL then Some(Merged(before, g, normalize(last.platform), Some(last.state))) else before
  }

  lemma RefreshedSnoc(seen: seq<Sighting>, s: Sighting, normalize: string -> string, g: Guid, was: Option<Entry>)
    ensures Refreshed(seen + [s], normalize, g, was) ==
            if s.uid == g && g != NIL
            then Some(Merged(Refreshed(seen, normalize, g, was), g, normalize(s.platform), Some(s.state)))
            else Refreshed(seen, normalize, g, was)
  {
    assert (seen + [s])[..|seen|] == seen;
  }

  lemma {:induction false} JoinersAreLive(items: seq<PendingJoin>, live: set<Object>, read: Reader)
    ensures forall s :: s in Joiners(items, live, read) ==> s.state in live
  {
    if items != [] {
      JoinersAreLive(items[..|items| - 1], live, read);
    }
  }

  ghost predicate Sees(seen: seq<Sighting>, g: Guid) {
    exists i :: 0 <= i < |seen| && seen[i].uid == g
  }

  /** Whoever was seen alive is not pruned. */
  lemma {:induction false} SeenStay(seen: seq<Sighting>, normalize: string -> string, live: set<Object>, g: Guid,
                                    was: Option<Entry>)
    requires forall s :: s in seen ==> s.state in live
    requires g != NIL && Sees(seen, g)
    ensures Pruned(Refreshed(seen, normalize, g, was), live).Some?
  {
    var init, last := seen[..|seen| - 1], seen[|seen| - 1];
    if last.uid != g {
      var i :| 0 <= i < |seen| && seen[i].uid == g;
      assert init[i] == seen[i];
      SeenStay(init, normalize, live, g, was);
    }
  }

  lemma {:induction false} FoundAreOn(states: seq<Option<Object>>, read: Reader, normalize: string -> string, i: nat,
                                      was: Roster, key: Printer)
    requires i < |states|
    ensures states[i].Some? && read(states[i].value).Some? && read(states[i].value).value.0 != NIL ==>
              var g := read(states[i].value).value.0;
              Refreshed(Seeds(states, read), normalize, g, Lookup(key, was, g)).Some?
  {
    var init, last := states[..|states| - 1], states[|states| - 1];
    if i < |init| {
      FoundAreOn(init, read, normalize, i, was, key);
    }
    if last.Some? && read(last.value).Some? {
      var id := read(last.value).value;
      assert Seeds(states, read) == Seeds(init, read) + [Sighting(id.0, id.1, last.value)];
      if states[i].Some? && read(states[i].value).Some? {
        var g := read(states[i].value).value.0;
        RefreshedSnoc(Seeds(init, read), Sighting(id.0, id.1, last.value), normalize, g, Lookup(key, was, g));
      }
    }
  }

  /** The players seen are on the roster. */
  ghost predicate AreOn(seen: seq<Sighting>, key: Printer, r: Roster) {
    forall s :: s in seen && s.uid != NIL ==> Lookup(key, r, s.uid).Some?
  }

  ghost predicate HasState(items: seq<PendingJoin>, state: Object) {
    exists i :: 0 <= i < |items| && items[i].state == state
  }

  lemma {:induction false} StillWaitingOk(items: seq<PendingJoin>, live: set<Object>, read: Reader)
    requires WaitingOk(items)
    ensures WaitingOk(StillWaiting(items, live, read))
    ensures forall p :: p in StillWaiting(items, live, read) ==> HasState(items, p.state)
  {
    if items != [] {
      var init, item := items[..|items| - 1], items[|items| - 1];
      StillWaitingOk(init, live, read);
      assert !HasState(init, item.state);
      forall p | p in StillWaiting(init, live, read)
        ensures HasState(items, p.state)
      {
        var i :| 0 <= i < |init| && init[i].state == p.state;
        assert items[i].state == p.state;
      }
      assert items[|items| - 1].state == item.state;
    }
  }

  /** Every waiting join meets its fate: it comes true, or waits one tick longer. */
  lemma {:induction false} EachMeetsItsFate(items: seq<PendingJoin>, live: set<Object>, read: Reader, i: nat)
    requires i < |items|
    ensures var fate := FateOf(items[i], live, read);
            && (fate.Joins? ==> Sighting(fate.uid, fate.platform, items[i].state) in Joiners(items, live, read))
            && (fate.Waits? ==> PendingJoin(items[i].state, items[i].frames + 1) in StillWaiting(items, live, read))
  {
    if i < |items| - 1 {
      EachMeetsItsFate(items[..|items| - 1], live, read, i);
    }
  }

  /** One tick after the other on one waiting join; `seen` says what each tick could read of the player state. */
  function Ticks(item: PendingJoin, seen: seq<Option<(Guid, string)>>): (Fate, nat)
    decreases |seen|
  {
    if seen == [] then (Waits, 0)
    else
      var fate := FateOf(item, {item.state}, _ => seen[0]);
      if fate.Waits? then
        var (later, n) := Ticks(item.(frames := item.frames + 1), seen[1..]);
        (later, n + 1)
      else (fate, 1)
  }

  /**
    * A player who stays joins the roster at the first tick from the 30th on at which the player state can be read; if
    * there is none up to the 180th tick, the join is given up there.
    */
  lemma {:induction false} JoinsAtFirstReadableTick(item: PendingJoin, seen: seq<Option<(Guid, string)>>, k: nat)
    requires item.frames < k <= item.frames + |seen| && 30 <= k <= 180
    requires forall i :: 0 <= i < k - item.frames - 1 && 30 <= item.frames + 1 + i ==> seen[i].None?
    requires seen[k - item.frames - 1].Some? || k == 180
    ensures Ticks(item, seen).1 == k - item.frames
    ensures match seen[k - item.frames - 1]
            case Some(id) => Ticks(item, seen).0 == Joins(id.0, id.1)
            case None => Ticks(item, seen).0 == Leaves
    decreases |seen|
  {
    if item.frames + 1 < k {
      var next := item.(frames := item.frames + 1);
      assert 30 <= item.frames + 1 ==> seen[0].None?;
      JoinsAtFirstReadableTick(next, seen[1..], k);
    }
  }

  /** Pending joins have waited less than the maximum. */
  ghost predicate WaitingOk(items: seq<PendingJoin>) {
    && (forall i :: 0 <= i < |items| ==> items[i].frames < JOIN_MAX_WAIT)
    && (forall i, j :: 0 <= i < j < |items| ==> items[i].state != items[j].state)
  }

  /** Lists the players of that kind whose keys are not among those still to do. */
  ghost predicate ListsBut(list: seq<Guid>, key: Printer, r: Roster, xbox: bool, todo: set<string>) {
    Distinct(list) && forall g :: g in list <==> Plays(key, r, g, xbox) && key(g) !in todo
  }

  lemma ListsOneMore(list: seq<Guid>, key: Printer, r: Roster, xbox: bool, todo: set<string>, k: string)
    requires RosterOk(key, r) && ListsBut(list, key, r, xbox, todo) && k in todo && k in r
    ensures ListsBut(if IsXbox(r[k].platform) == xbox then list + [r[k].uid] else list, key, r, xbox, todo - {k})
  {
    var uid := r[k].uid;
    assert key(uid) == k;
    assert uid !in list;
    forall g
      ensures Plays(key, r, g, xbox) && key(g) !in todo - {k} <==> g in list || (g == uid && IsXbox(r[k].platform) == xbox)
    {
      assert key(g) == k ==> g == uid;
    }
  }

  /** The map without the keys. */
  ghost predicate IsWithout(r: Roster, was: Roster, keys: seq<string>) {
    && (forall k :: k in r <==> k in was && k !in keys)
    && (forall k :: k in r ==> r[k] == was[k])
  }

  lemma WithoutOneMore(r: Roster, was: Roster, keys: seq<string>, i: nat)
    requires i < |keys| && IsWithout(r, was, keys[..i])
    ensures IsWithout(r - {keys[i]}, was, keys[..i + 1])
  {
    assert keys[..i + 1] == keys[..i] + [keys[i]];
  }

  class Tracker {
    const key: Printer
    /** `NormalizePlatformUserId`. */
    const normalize: string -> string
    var roster: Roster
    var pendingJoins: seq<PendingJoin>
    var xbox: seq<Guid>
    var others: seq<Guid>
    var bootstrapped: bool

    ghost predicate Valid()
      reads this
    {
      && RosterOk(key, roster)
      && Lists(xbox, key, roster, true)
      && Lists(others, key, roster, false)
      && WaitingOk(pendingJoins)
    }

    /** The entry of a player. */
    function Find(g: Guid): Option<Entry>
      reads this
    {
      Lookup(key, roster, g)
    }

    constructor (normalize: string -> string)
      ensures Valid() && roster == map[] && pendingJoins == [] && !bootstrapped && key == Format && this.normalize == normalize
    {
      this.key := Format;
      this.normalize := normalize;
      roster, pendingJoins, xbox, others, bootstrapped := map[], [], [], [], false;
      FormatIsAKey();
    }

    /** Lists the roster anew, in whatever order the map gives. */
    method RebuildLists()
      requires RosterOk(key, roster)
      modifies `xbox, `others
      ensures Lists(xbox, key, roster, true) && Lists(others, key, roster, false)
      ensures forall g :: g in xbox <==> Lookup(key, roster, g).Some? && "gdk_" <= Lookup(key, roster, g).value.platform
    {
      xbox, others := [], [];
      var todo := roster.Keys;
      while todo != {}
        invariant todo <= roster.Keys
        invariant ListsBut(xbox, key, roster, true, todo) && ListsBut(others, key, roster, false, todo)
      {
        var k :| k in todo;
        ListsOneMore(xbox, key, roster, true, todo, k);
        ListsOneMore(others, key, roster, false, todo, k);
        todo := todo - {k};
        if IsXbox(roster[k].platform) {
          xbox := xbox + [roster[k].uid];
        } else {
          others := others + [roster[k].uid];
        }
      }
    }

    /** `FormatGuidKey` and the map: a player is added, or what is new is taken over. */
    method Upsert(uid: Guid, platform: string, state: Option<Object>)
      requires Valid()
      modifies `roster, `xbox, `others
      ensures Valid()
      ensures forall g :: Find(g) ==
                          if g == uid && g != NIL then Some(Merged(old(Find(g)), g, normalize(platform), state))
                          else old(Find(g))
      ensures uid != NIL ==> IsRefreshed(old(Find(uid)), Find(uid), uid, normalize(platform), state)
      ensures forall g :: g != uid ==> Find(g) == old(Find(g))
    {
      if uid == NIL {
        return;
      }
      var normal := normalize(platform);
      var e := if key(uid) in roster then roster[key(uid)] else Entry(uid, "", None);
      e := e.(uid := uid);
      if normal != "" {
        e := e.(platform := normal);
      }
      if state.Some? {
        e := e.(state := state);
      }
      LookupAfterPut(key, roster, uid, e);
      roster := roster[key(uid) := e];
      RebuildLists();
    }

    method Forget(uid: Guid)
      requires Valid()
      modifies `roster, `xbox, `others
      ensures Valid()
      ensures forall g :: Find(g) == if g == uid then None else old(Find(g))
    {
      LookupByKey(key, roster);
      LookupAfterErase(key, roster, uid);
      if uid == NIL {
        return;
      }
      if key(uid) in roster {
        roster := roster - {key(uid)};
        RebuildLists();
      }
    }

    method ForgetMany(uids: seq<Guid>)
      requires Valid()
      modifies `roster, `xbox, `others
      ensures Valid()
      ensures forall g :: Find(g) == if g in uids then None else old(Find(g))
    {
      var n := 0;
      for i := 0 to |uids|
        invariant RosterOk(key, roster) && 0 <= n
        invariant n == 0 ==> roster == old(roster)
        invariant xbox == old(xbox) && others == old(others)
        invariant forall g :: Find(g) == if g in uids[..i] then None else old(Find(g))
      {
        LookupByKey(key, roster);
        LookupAfterErase(key, roster, uids[i]);
        assert uids[..i + 1] == uids[..i] + [uids[i]];
        if uids[i] != NIL && key(uids[i]) in roster {
          roster := roster - {key(uids[i])};
          n := n + 1;
        }
      }
      assert uids[..|uids|] == uids;
      if n > 0 {
        RebuildLists();
      }
    }

    /** The keys of entries whose player state is gone. */
    method DeadKeys(live: set<Object>) returns (dead: seq<string>)
      ensures forall k :: k in dead <==> k in roster && IsDead(roster[k], live)
    {
      dead := [];
      var todo := roster.Keys;
      while todo != {}
        invariant todo <= roster.Keys
        invariant forall k :: k in dead <==> k in roster && k !in todo && IsDead(roster[k], live)
      {
        var k :| k in todo;
        todo := todo - {k};
        if IsDead(roster[k], live) {
          dead := dead + [k];
        }
      }
    }

    /** Removes the entries whose player state is gone. */
    method PruneDead(live: set<Object>) returns (removed: nat)
      requires RosterOk(key, roster)
      modifies `roster
      ensures RosterOk(key, roster) && (removed == 0 ==> roster == old(roster))
      ensures forall g :: Find(g) == Pruned(old(Find(g)), live)
    {
      var dead := DeadKeys(live);
      for i := 0 to |dead|
        invariant IsWithout(roster, old(roster), dead[..i])
      {
        WithoutOneMore(roster, old(roster), dead, i);
        roster := roster - {dead[i]};
      }
      removed := |dead|;
      assert dead[..removed] == dead;
    }

    method Snapshot(live: set<Object>) returns (xboxNow: seq<Guid>, othersNow: seq<Guid>)
      requires Valid()
      modifies `roster, `xbox, `others
      ensures Valid() && xboxNow == xbox && othersNow == others
      ensures forall g :: Find(g) == Pruned(old(Find(g)), live)
      ensures forall g :: Find(g).None? <==> old(Find(g)).None? || StateIsGone(old(Find(g)).value, live)
      ensures forall g :: Find(g).Some? ==> Find(g) == old(Find(g))
    {
      var removed := PruneDead(live);
      if removed > 0 {
        RebuildLists();
      }
      return xbox, others;
    }

    predicate IsOnline(uid: Guid)
      reads this
    {
      uid != NIL && key(uid) in roster
    }

    /** The join hook: one waiting join for each player state. */
    method EnqueueJoin(state: Option<Object>, live: set<Object>)
      requires Valid() && (state.Some? ==> state.value in live)
      modifies `pendingJoins
      ensures Valid()
      ensures pendingJoins == if state.None? || (exists p :: p in old(pendingJoins) && p.state == state.value)
                              then old(pendingJoins) else old(pendingJoins) + [PendingJoin(state.value, 0)]
    {
      if state.None? {
        return;
      }
      for i := 0 to |pendingJoins|
        invariant forall j :: 0 <= j < i ==> pendingJoins[j].state != state.value
      {
        if pendingJoins[i].state in live && pendingJoins[i].state == state.value {
          return;
        }
      }
      pendingJoins := pendingJoins + [PendingJoin(state.value, 0)];
    }

    method ProcessPendingJoins(live: set<Object>, read: Reader)
      requires Valid()
      modifies `roster, `xbox, `others, `pendingJoins
      ensures Valid() && pendingJoins == StillWaiting(old(pendingJoins), live, read)
      ensures forall g :: Find(g) == Refreshed(Joiners(old(pendingJoins), live, read), normalize, g, old(Find(g)))
    {
      var pending := pendingJoins;
      pendingJoins := [];
      var still: seq<PendingJoin> := [];
      for i := 0 to |pending|
        invariant Valid() && pendingJoins == [] && still == StillWaiting(pending[..i], live, read)
        invariant forall g :: Find(g) == Refreshed(Joiners(pending[..i], live, read), normalize, g, old(Find(g)))
      {
        assert pending[..i + 1][..i] == pending[..i];
        var item := pending[i].(frames := pending[i].frames + 1);
        if item.state !in live {
          continue;
        }
        var id := read(item.state);
        var timedOut := item.frames >= JOIN_MAX_WAIT;
        var softReady := id.Some? && item.frames >= JOIN_SOFT_READY;
        var hardReady := id.Some? && timedOut;
        if softReady || hardReady {
          JoinedSnoc(pending[..i], pending[i], live, read, this.normalize);
          Upsert(id.value.0, id.value.1, Some(item.state));
        } else if !timedOut {
          still := still + [item];
        }
      }
      assert pending[..|pending|] == pending;
      StillWaitingOk(pending, live, read);
      pendingJoins := pendingJoins + still;
    }

    /** The join of a player who is there came true or waits on; a join of others, or one given up, is gone. */
    ghost predicate IsDecided(p: PendingJoin, live: set<Object>, read: Reader)
      reads this
    {
      var fate := FateOf(p, live, read);
      && (fate.Joins? && fate.uid != NIL ==> Find(fate.uid).Some?)
      && (fate.Waits? ==> PendingJoin(p.state, p.frames + 1) in pendingJoins)
    }

    /** Every frame: joins that are ready, leavers out, lists anew. */
    method Tick(live: set<Object>, read: Reader)
      requires Valid()
      modifies `roster, `xbox, `others, `pendingJoins
      ensures Valid() && pendingJoins == StillWaiting(old(pendingJoins), live, read)
      ensures forall g ::
                Find(g) == Pruned(Refreshed(Joiners(old(pendingJoins), live, read), normalize, g, old(Find(g))), live)
      ensures AreOn(Joiners(old(pendingJoins), live, read), key, roster)
      ensures forall p :: p in old(pendingJoins) ==> IsDecided(p, live, read)
    {
      ghost var seen := Joiners(pendingJoins, live, read);
      ProcessPendingJoins(live, read);
      var removed := PruneDead(live);
      RebuildLists();
      JoinersAreLive(old(pendingJoins), live, read);
      forall s | s in seen && s.uid != NIL
        ensures Lookup(key, roster, s.uid).Some?
      {
        SeenStay(seen, normalize, live, s.uid, old(Find(s.uid)));
        assert Find(s.uid) == Lookup(key, roster, s.uid);
      }
      assert AreOn(seen, key, roster);
      forall i | 0 <= i < |old(pendingJoins)|
        ensures IsDecided(old(pendingJoins)[i], live, read)
      {
        EachMeetsItsFate(old(pendingJoins), live, read, i);
      }
    }

    /** The player is on the roster if the player state can be read. */
    ghost predicate IsSeated(state: Option<Object>, read: Reader)
      reads this
    {
      state.Some? && read(state.value).Some? && read(state.value).value.0 != NIL ==> Find(read(state.value).value.0).Some?
    }

    /** Players already online at the first inject; `found` is None if the search faults. Never done again. */
    method TryBootstrapOnce(found: Option<seq<Option<Object>>>, read: Reader)
      requires Valid()
      modifies `roster, `xbox, `others, `bootstrapped
      ensures Valid() && bootstrapped
      ensures forall g :: Find(g) ==
                          if old(bootstrapped) || found.None? then old(Find(g))
                          else Refreshed(Seeds(found.value, read), normalize, g, old(Find(g)))
      ensures !old(bootstrapped) && found.Some? ==> forall i :: 0 <= i < |found.value| ==> IsSeated(found.value[i], read)
    {
      if bootstrapped {
        return;
      }
      bootstrapped := true;
      if found.None? {
        return;
      }
      var states := found.value;
      for i := 0 to |states|
        invariant Valid() && bootstrapped
        invariant forall g :: Find(g) == Refreshed(Seeds(states[..i], read), normalize, g, old(Find(g)))
      {
        assert states[..i + 1][..i] == states[..i];
        if states[i].None? || read(states[i].value).None? {
          continue;
        }
        var id := read(states[i].value).value;
        SeededSnoc(states[..i], states[i].value, read, normalize);
        Upsert(id.0, id.1, states[i]);
      }
      assert states[..|states|] == states;
      forall i | 0 <= i < |states|
        ensures IsSeated(states[i], read)
      {
        FoundAreOn(states, read, normalize, i, old(roster), key);
      }
    }
  }

  lemma JoinedSnoc(items: seq<PendingJoin>, item: PendingJoin, live: set<Object>, read: Reader, normalize: string -> string)
    requires FateOf(item, live, read).Joins?
    ensures forall g, was :: Refreshed(Joiners(items + [item], live, read), normalize, g, was) ==
                             var fate := FateOf(item, live, read);
                             var before := Refreshed(Joiners(items, live, read), normalize, g, was);
                             if fate.uid == g && g != NIL
                             then Some(Merged(before, g, normalize(fate.platform), Some(item.state))) else before
  {
    var fate := FateOf(item, live, read);
    assert (items + [item])[..|items|] == items;
    forall g, was {
      RefreshedSnoc(Joiners(items, live, read), Sighting(fate.uid, fate.platform, item.state), normalize, g, was);
    }
  }

  lemma SeededSnoc(states: seq<Option<Object>>, state: Object, read: Reader, normalize: string -> string)
    requires read(state).Some?
    ensures forall g, was :: Refreshed(Seeds(states + [Some(state)], read), normalize, g, was) ==
                             var id := read(state).value;
                             var before := Refreshed(Seeds(states, read), normalize, g, was);
                             if id.0 == g && g != NIL
                             then Some(Merged(before, g, normalize(id.1), Some(state))) else before
  {
    assert (states + [Some(state)])[..|states|] == states;
    forall g, was {
      RefreshedSnoc(Seeds(states, read), Sighting(read(state).value.0, read(state).value.1, state), normalize, g, was);
    }
  }

  // ----- the two lists and the roster

  lemma {:induction false} DistinctCounts(s: seq<Guid>, key: Printer, keys: set<string>)
    requires Distinct(s) && Injective(key) && (forall g :: g in s ==> key(g) in keys)
    requires forall k :: k in keys ==> exists i :: 0 <= i < |s| && key(s[i]) == k
    ensures |s| == |keys|
  {
    if s == [] {
      assert keys == {};
    } else {
      var rest, last := s[..|s| - 1], s[|s| - 1];
      forall k | k in keys - {key(last)}
        ensures exists i :: 0 <= i < |rest| && key(rest[i]) == k
      {
        var i :| 0 <= i < |s| && key(s[i]) == k;
        assert key(rest[i]) == k;
      }
      DistinctCounts(rest, key, keys - {key(last)});
    }
  }

  /** Together the lists hold every player on the roster once: their lengths add up to its size. */
  lemma ListsPartition(xbox: seq<Guid>, others: seq<Guid>, key: Printer, r: Roster)
    requires RosterOk(key, r) && Lists(xbox, key, r, true) && Lists(others, key, r, false)
    ensures Distinct(xbox + others) && |xbox| + |others| == |r|
    ensures forall g :: g in xbox + others <==> Lookup(key, r, g).Some?
  {
    var all := xbox + others;
    forall i, j | 0 <= i < |xbox| <= j < |all|
      ensures all[i] != all[j]
    {
      assert all[i] in xbox && all[j] in others;
    }
    forall k | k in r.Keys
      ensures exists i :: 0 <= i < |all| && key(all[i]) == k
    {
      assert Lookup(key, r, r[k].uid) == Some(r[k]);
      assert r[k].uid in all;
    }
    DistinctCounts(all, key, r.Keys);
  }
}
