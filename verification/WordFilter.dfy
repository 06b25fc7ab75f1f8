/**
  * The chat filter: the first pattern that matches a message, and mutes that expire only when somebody looks. Regular
  * expressions are an uninterpreted predicate on pattern and text; every method is given the time it reads.
  */
module WordFilter {
  import opened Text

  /** Clock ticks. */
  const SECOND := 1_000_000_000
  const MINUTE := 60 * SECOND

  datatype Pattern = Pattern(source: string, muteMinutes: int, muteMessage: string)

  datatype MuteEntry = MuteEntry(until: int, reason: string, lastNotify: int)

  type Mutes = map<string, MuteEntry>

  // ----- the mute map, one call after the other

  /** Any question about a key, a mute, or a request for a reminder; `now` is the time the call reads. */
  datatype Call =
    | Ask(key: string, now: int)
    | Silence(key: string, reason: string, minutes: int, now: int)
    | Notify(key: string, interval: int, now: int)

  /** The map after a lookup, which drops an entry that has run out. */
  function Looked(m: Mutes, key: string, now: int): Mutes {
    if key in m && key != "" && now >= m[key].until then m - {key} else m
  }

  predicate Active(m: Mutes, key: string, now: int) {
    key != "" && key in m && now < m[key].until
  }

  predicate Granted(m: Mutes, key: string, interval: int, now: int) {
    Active(m, key, now) && (m[key].lastNotify == 0 || now - m[key].lastNotify >= interval)
  }

  predicate Effective(c: Call, key: string) {
    c.Silence? && c.key == key && key != "" && c.minutes > 0
  }

  function After(m: Mutes, c: Call): Mutes {
    match c
    case Ask(key, now) => Looked(m, key, now)
    case Silence(key, reason, minutes, now) =>
      if Effective(c, key) then m[key := MuteEntry(now + minutes * MINUTE, reason, now)] else m
    case Notify(key, interval, now) =>
      if Granted(m, key, interval, now) then m[key := m[key].(lastNotify := now)] else Looked(m, key, now)
  }

  function Run(calls: seq<Call>): Mutes {
    if calls == [] then map[] else After(Run(calls[..|calls| - 1]), calls[|calls| - 1])
  }

  /** The clock never goes back, and does not read zero. */
  predicate Timely(calls: seq<Call>) {
    && (forall i :: 0 <= i < |calls| ==> 0 < calls[i].now)
    && (forall i, j :: 0 <= i < j < |calls| ==> calls[i].now <= calls[j].now)
  }

  // ----- what it should mean: the history alone

  /** The last mute of the key that had an effect. */
  function Latest(calls: seq<Call>, key: string): (c: Option<Call>)
    ensures c.Some? ==> c.value in calls && Effective(c.value, key)
    ensures c.None? ==> forall d :: d in calls ==> !Effective(d, key)
  {
    if calls == [] then None
    else
      var init, last := calls[..|calls| - 1], calls[|calls| - 1];
      assert calls == init + [last];
      if Effective(last, key) then Some(last) else Latest(init, key)
  }

  function Until(c: Call): int
    requires c.Silence?
  {
    c.now + c.minutes * MINUTE
  }

  /** Muted: the last mute has not run out. */
  predicate MutedAt(calls: seq<Call>, key: string, t: int) {
    var c := Latest(calls, key);
    c.Some? && t < Until(c.value)
  }

  /** The map holds what the history says, except that entries which ran out by `now` may be gone. */
  ghost predicate Agrees(m: Mutes, calls: seq<Call>, now: int, key: string) {
    var c := Latest(calls, key);
    && (key in m ==> c.Some? && m[key].until == Until(c.value) && m[key].reason == c.value.reason)
    && (c.Some? && key !in m ==> now >= Until(c.value))
  }

  lemma CallAgrees(m: Mutes, calls: seq<Call>, now: int, c: Call, key: string)
    requires Agrees(m, calls, now, key) && now <= c.now
    ensures Agrees(After(m, c), calls + [c], c.now, key)
  {
    assert (calls + [c])[..|calls|] == calls;
  }

  lemma {:induction false} RunAgrees(calls: seq<Call>, now: int, key: string)
    requires Timely(calls) && (calls != [] ==> calls[|calls| - 1].now <= now)
    ensures Agrees(Run(calls), calls, now, key)
  {
    if calls != [] {
      var init, c := calls[..|calls| - 1], calls[|calls| - 1];
      RunAgrees(init, c.now, key);
      CallAgrees(Run(init), init, c.now, c, key);
      assert init + [c] == calls;
    }
  }

  /**
    * The lazily expiring map answers as the history does: a key is muted exactly when its last effective mute has not
    * run out, whatever was asked in between and whichever entries those questions removed.
    */
  lemma MapIsHistory(calls: seq<Call>, key: string, now: int)
    requires Timely(calls + [Ask(key, now)])
    ensures Active(Run(calls), key, now) <==> MutedAt(calls, key, now)
    ensures MutedAt(calls, key, now) ==> key in Run(calls) && Run(calls)[key].until == Until(Latest(calls, key).value)
    ensures MutedAt(calls, key, now) ==> Run(calls)[key].reason == Latest(calls, key).value.reason
  {
    TimelyPrefix(calls, Ask(key, now));
    RunAgrees(calls, now, key);
  }

  lemma TimelyPrefix(calls: seq<Call>, c: Call)
    requires Timely(calls + [c])
    ensures Timely(calls) && (calls != [] ==> calls[|calls| - 1].now <= c.now)
  {
    var all := calls + [c];
    assert forall i :: 0 <= i < |calls| ==> all[i] == calls[i];
    assert all[|calls|] == c;
  }

  lemma LatestKept(calls: seq<Call>, c: Call, key: string)
    requires !Effective(c, key)
    ensures Latest(calls + [c], key) == Latest(calls, key)
  {
    assert (calls + [c])[..|calls|] == calls;
  }

  // ----- reminders

  /** When the player was last told of a mute: by the last effective mute, or by the last reminder granted after it. */
  function ToldAt(calls: seq<Call>, key: string): int
    decreases |calls|, 0
  {
    if calls == [] then 0
    else
      var init, c := calls[..|calls| - 1], calls[|calls| - 1];
      if Effective(c, key) || (c.Notify? && c.key == key && GrantedBy(init, key, c.interval, c.now)) then c.now
      else ToldAt(init, key)
  }

  /** A reminder is due to the muted who were last told the interval ago. */
  predicate GrantedBy(calls: seq<Call>, key: string, interval: int, now: int)
    decreases |calls|, 1
  {
    MutedAt(calls, key, now) && now - ToldAt(calls, key) >= interval
  }

  lemma CallTells(m: Mutes, calls: seq<Call>, c: Call, key: string)
    requires Agrees(m, calls, c.now, key) && 0 < c.now
    requires key in m ==> m[key].lastNotify == ToldAt(calls, key) > 0
    ensures key in After(m, c) ==> After(m, c)[key].lastNotify == ToldAt(calls + [c], key) > 0
  {
    assert (calls + [c])[..|calls|] == calls;
  }

  lemma {:induction false} MapTells(calls: seq<Call>, key: string)
    requires Timely(calls)
    ensures key in Run(calls) ==> Run(calls)[key].lastNotify == ToldAt(calls, key) > 0
  {
    if calls != [] {
      var init, c := calls[..|calls| - 1], calls[|calls| - 1];
      assert calls == init + [c];
      TimelyPrefix(init, c);
      MapTells(init, key);
      RunAgrees(init, c.now, key);
      CallTells(Run(init), init, c, key);
    }
  }

  /** Reminders too are granted as the history says. */
  lemma GrantedIsHistory(calls: seq<Call>, key: string, interval: int, now: int)
    requires Timely(calls + [Notify(key, interval, now)])
    ensures Granted(Run(calls), key, interval, now) <==> GrantedBy(calls, key, interval, now)
  {
    TimelyPrefix(calls, Notify(key, interval, now));
    RunAgrees(calls, now, key);
    MapTells(calls, key);
  }

  /** A mute with an effect is the last one of its key and tells of itself; otherwise nothing changes. */
  lemma MuteTells(calls: seq<Call>, c: Call, key: string)
    requires c.Silence?
    ensures Effective(c, key) ==> Latest(calls + [c], key) == Some(c) && ToldAt(calls + [c], key) == c.now
    ensures !Effective(c, key) ==>
              Latest(calls + [c], key) == Latest(calls, key) && ToldAt(calls + [c], key) == ToldAt(calls, key)
  {
    assert (calls + [c])[..|calls|] == calls;
  }

  lemma NotifyTells(calls: seq<Call>, key: string, interval: int, now: int)
    ensures ToldAt(calls + [Notify(key, interval, now)], key) ==
            if GrantedBy(calls, key, interval, now) then now else ToldAt(calls, key)
  {
    assert (calls + [Notify(key, interval, now)])[..|calls|] == calls;
  }

  lemma MuteTellsAll(calls: seq<Call>, c: Call)
    requires c.Silence?
    ensures forall k :: Effective(c, k) ==> Latest(calls + [c], k) == Some(c) && ToldAt(calls + [c], k) == c.now
    ensures forall k :: !Effective(c, k) ==>
              Latest(calls + [c], k) == Latest(calls, k) && ToldAt(calls + [c], k) == ToldAt(calls, k)
  {
    hide Latest, ToldAt;
    forall k
      ensures Effective(c, k) ==> Latest(calls + [c], k) == Some(c) && ToldAt(calls + [c], k) == c.now
      ensures !Effective(c, k) ==>
                Latest(calls + [c], k) == Latest(calls, k) && ToldAt(calls + [c], k) == ToldAt(calls, k)
    {
      MuteTells(calls, c, k);
    }
  }

  /** To ask whether somebody is muted is not to be told. */
  lemma AskTellsNothing(calls: seq<Call>, asked: string, at: int, key: string, interval: int, now: int)
    ensures GrantedBy(calls + [Ask(asked, at)], key, interval, now) == GrantedBy(calls, key, interval, now)
  {
    LatestKept(calls, Ask(asked, at), key);
    assert (calls + [Ask(asked, at)])[..|calls|] == calls;
  }

  /** How many reminders for the key are granted in the calls, from a given map on. */
  function Grants(m: Mutes, calls: seq<Call>, key: string): nat
    decreases |calls|
  {
    if calls == [] then 0
    else
      var c := calls[0];
      (if c.Notify? && c.key == key && Granted(m, key, c.interval, c.now) then 1 else 0) +
      Grants(After(m, c), calls[1..], key)
  }

  /** The calls go on after `t`, do not mute the key again, and ask for its reminders at `interval` or more. */
  predicate RemindOnly(calls: seq<Call>, key: string, interval: int) {
    forall i :: 0 <= i < |calls| ==>
                  !Effective(calls[i], key) && (calls[i].Notify? && calls[i].key == key ==> calls[i].interval >= interval)
  }

  lemma {:induction false} NoEntryNoGrants(m: Mutes, calls: seq<Call>, key: string)
    requires key !in m && forall i :: 0 <= i < |calls| ==> !Effective(calls[i], key)
    ensures Grants(m, calls, key) == 0
    decreases |calls|
  {
    if calls != [] {
      NoEntryNoGrants(After(m, calls[0]), calls[1..], key);
    }
  }

  /** From one reminder to the next at least the interval passes, and the last comes before the end. */
  lemma {:induction false} GrantsFit(m: Mutes, calls: seq<Call>, key: string, interval: int, t: int)
    requires key in m && 0 < m[key].lastNotify <= t && interval > 0
    requires Timely(calls) && (calls != [] ==> t <= calls[0].now) && RemindOnly(calls, key, interval)
    ensures Grants(m, calls, key) > 0 ==> m[key].lastNotify + interval * Grants(m, calls, key) < m[key].until
    decreases |calls|
  {
    if calls != [] {
      var c, rest := calls[0], calls[1..];
      var after := After(m, c);
      if key in after {
        GrantsFit(after, rest, key, interval, c.now);
        if c.Notify? && c.key == key && Granted(m, key, c.interval, c.now) {
          OneMore(m[key].lastNotify, c.now, interval, Grants(after, rest, key), m[key].until);
        }
      } else {
        NoEntryNoGrants(after, rest, key);
      }
    }
  }

  lemma OneMore(last: int, now: int, interval: int, n: nat, until: int)
    requires now - last >= interval && now < until && (n > 0 ==> now + interval * n < until)
    ensures last + interval * (n + 1) < until
  {
    assert interval * (n + 1) == interval * n + interval;
  }

  lemma TimelyTail(c: Call, calls: seq<Call>)
    requires Timely([c] + calls)
    ensures Timely(calls) && 0 < c.now && (calls != [] ==> c.now <= calls[0].now)
  {
    var all := [c] + calls;
    assert all[0] == c && forall i :: 0 <= i < |calls| ==> all[i + 1] == calls[i];
  }

  /** One mute of `minutes` grants fewer than four reminders a minute when they are asked for at 15 seconds or more. */
  lemma RemindersAreFew(m: Mutes, mute: Call, calls: seq<Call>, key: string)
    requires Effective(mute, key) && Timely([mute] + calls) && RemindOnly(calls, key, 15 * SECOND)
    ensures Grants(After(m, mute), calls, key) < 4 * mute.minutes
  {
    var after := After(m, mute);
    TimelyTail(mute, calls);
    assert after[key] == MuteEntry(mute.now + mute.minutes * MINUTE, mute.reason, mute.now);
    GrantsFit(after, calls, key, 15 * SECOND, mute.now);
  }

  // ----- patterns

  /** A pattern that can be used: not empty and a valid expression. */
  predicate Usable(p: Pattern, valid: string -> bool) {
    p.source != "" && valid(p.source)
  }

  /** A negative mute counts as none. */
  function Kept(p: Pattern): Pattern {
    p.(muteMinutes := if p.muteMinutes < 0 then 0 else p.muteMinutes)
  }

  function Compiled(config: seq<Pattern>, valid: string -> bool): seq<Pattern> {
    if config == [] then []
    else
      var p := config[|config| - 1];
      Compiled(config[..|config| - 1], valid) + (if Usable(p, valid) then [Kept(p)] else [])
  }

  /** The patterns at these places are taken over, in this order, and no others. */
  ghost predicate TakesOver(config: seq<Pattern>, valid: string -> bool, places: seq<nat>, patterns: seq<Pattern>) {
    && |places| == |patterns|
    && (forall i :: 0 <= i < |places| ==>
          places[i] < |config| && Usable(config[places[i]], valid) && IsKept(config[places[i]], patterns[i]))
    && (forall i, j :: 0 <= i < j < |places| ==> places[i] < places[j])
    && (forall k :: 0 <= k < |config| && config[k].source != "" && valid(config[k].source) ==> k in places)
  }

  /** Everything but a negative mute is taken over as it is. */
  ghost predicate IsKept(p: Pattern, kept: Pattern) {
    && kept.source == p.source && kept.muteMessage == p.muteMessage
    && (p.muteMinutes >= 0 ==> kept.muteMinutes == p.muteMinutes) && (p.muteMinutes < 0 ==> kept.muteMinutes == 0)
  }

  lemma TakesOverOne(config: seq<Pattern>, valid: string -> bool, places: seq<nat>, patterns: seq<Pattern>, p: Pattern)
    requires TakesOver(config, valid, places, patterns)
    ensures if Usable(p, valid) then TakesOver(config + [p], valid, places + [|config|], patterns + [Kept(p)])
            else TakesOver(config + [p], valid, places, patterns)
  {
    var more := places + [|config|];
    assert more[|places|] == |config| && forall k :: k in places ==> k in more;
  }

  /** The usable patterns are kept in their order, those with a negative mute as well but with none, and no others are. */
  lemma {:induction false} CompiledAreUsable(config: seq<Pattern>, valid: string -> bool) returns (places: seq<nat>)
    ensures TakesOver(config, valid, places, Compiled(config, valid))
    ensures forall p :: p in Compiled(config, valid) ==> p.source != "" && valid(p.source) && 0 <= p.muteMinutes
  {
    places := [];
    if config != [] {
      var init, p := config[..|config| - 1], config[|config| - 1];
      assert config == init + [p];
      places := CompiledAreUsable(init, valid);
      TakesOverOne(init, valid, places, Compiled(init, valid), p);
      if Usable(p, valid) {
        places := places + [|init|];
      }
    }
  }

  /** Index of the first pattern that matches. */
  ghost predicate FirstMatch(patterns: seq<Pattern>, search: (string, string) -> bool, message: string, i: nat) {
    && i < |patterns|
    && search(message, patterns[i].source)
    && forall j :: 0 <= j < i ==> !search(message, patterns[j].source)
  }

  ghost predicate Matched(patterns: seq<Pattern>, search: (string, string) -> bool, message: string) {
    message != "" && exists i :: 0 <= i < |patterns| && search(message, patterns[i].source)
  }

  method Compile(config: seq<Pattern>, valid: string -> bool) returns (patterns: seq<Pattern>)
    ensures patterns == Compiled(config, valid)
  {
    patterns := [];
    for i := 0 to |config|
      invariant patterns == Compiled(config[..i], valid)
    {
      assert config[..i + 1][..i] == config[..i];
      var entry := config[i];
      if entry.source == "" || !valid(entry.source) {
        continue;
      }
      patterns := patterns + [Kept(entry)];
    }
    assert config[..|config|] == config;
  }

  class Filter {
    const patterns: seq<Pattern>
    /** Does the expression match somewhere in the text? A search that throws counts as no match. */
    const search: (string, string) -> bool
    var mutes: Mutes
    ghost var calls: seq<Call>

    /** The fields are the result of some timely calls. */
    ghost predicate Valid()
      reads this
    {
      Timely(calls) && mutes == Run(calls)
    }

    /** A call may be made now. */
    ghost predicate Due(now: int)
      reads this
    {
      0 < now && (calls != [] ==> calls[|calls| - 1].now <= now)
    }

    constructor (configured: seq<Pattern>, valid: string -> bool, search: (string, string) -> bool)
      ensures Valid() && calls == [] && this.patterns == Compiled(configured, valid) && this.search == search
    {
      var kept := Compile(configured, valid);
      this.patterns, this.search, mutes, calls := kept, search, map[], [];
    }

    predicate IsActive() {
      patterns != []
    }

    /** Notes a call in the history. */
    ghost method Note(c: Call)
      requires Timely(calls) && Due(c.now) && mutes == After(Run(calls), c)
      modifies `calls
      ensures Valid() && calls == old(calls) + [c]
    {
      assert (calls + [c])[..|calls|] == calls;
      calls := calls + [c];
    }

    lemma Meaning(key: string, now: int)
      requires Valid() && Due(now)
      ensures Active(mutes, key, now) <==> MutedAt(calls, key, now)
      ensures MutedAt(calls, key, now) ==>
                && key in mutes
                && mutes[key].until == Until(Latest(calls, key).value)
                && mutes[key].reason == Latest(calls, key).value.reason
    {
      MapIsHistory(calls, key, now);
    }

    method FindActiveMute(key: string, now: int) returns (entry: Option<MuteEntry>)
      requires Valid() && Due(now)
      modifies `mutes
      ensures mutes == Looked(old(mutes), key, now)
      ensures entry.Some? <==> MutedAt(calls, key, now)
      ensures entry.Some? ==> Active(mutes, key, now) && entry.value == mutes[key] == old(mutes)[key]
      ensures entry.Some? ==> entry.value.until == Until(Latest(calls, key).value)
      ensures entry.Some? ==> entry.value.reason == Latest(calls, key).value.reason
    {
      Meaning(key, now);
      if key == "" {
        return None;
      }
      if key !in mutes {
        return None;
      }
      if now >= mutes[key].until {
        mutes := mutes - {key};
        return None;
      }
      return Some(mutes[key]);
    }

    method IsMuted(key: string, now: int) returns (muted: bool)
      requires Valid() && Due(now)
      modifies this
      ensures Valid() && calls == old(calls) + [Ask(key, now)] && (muted ==> mutes == old(mutes))
      ensures muted == MutedAt(old(calls), key, now)
    {
      var entry := FindActiveMute(key, now);
      Note(Ask(key, now));
      return entry.Some?;
    }

    method MuteRemainingSeconds(key: string, now: int) returns (seconds: Option<int>)
      requires Valid() && Due(now)
      modifies this
      ensures Valid() && calls == old(calls) + [Ask(key, now)]
      ensures seconds.Some? <==> MutedAt(old(calls), key, now)
      ensures seconds.Some? ==>
                var mute := Latest(old(calls), key).value;
                var left := mute.now + mute.minutes * 60 * SECOND - now;
                0 <= seconds.value * SECOND <= left < (seconds.value + 1) * SECOND
    {
      var entry := FindActiveMute(key, now);
      Note(Ask(key, now));
      if entry.None? {
        return None;
      }
      var secs := (entry.value.until - now) / SECOND;
      return Some(if secs > 0 then secs else 0);
    }

    method MuteReason(key: string, now: int) returns (reason: string)
      requires Valid() && Due(now)
      modifies this
      ensures Valid() && calls == old(calls) + [Ask(key, now)]
      ensures reason == if MutedAt(old(calls), key, now) then Latest(old(calls), key).value.reason else ""
    {
      var entry := FindActiveMute(key, now);
      Note(Ask(key, now));
      return if entry.None? then "" else entry.value.reason;
    }

    method FindMatch(message: string) returns (hit: Option<Pattern>)
      ensures hit.Some? <==> Matched(patterns, search, message)
      ensures hit.Some? ==> exists i: nat :: FirstMatch(patterns, search, message, i) && hit.value == patterns[i]
    {
      if message == "" || patterns == [] {
        return None;
      }
      for i := 0 to |patterns|
        invariant forall j :: 0 <= j < i ==> !search(message, patterns[j].source)
      {
        if search(message, patterns[i].source) {
          assert FirstMatch(patterns, search, message, i);
          return Some(patterns[i]);
        }
      }
      return None;
    }

    method Mute(key: string, reason: string, minutes: int, now: int)
      requires Valid() && Due(now)
      modifies this
      ensures Valid() && calls == old(calls) + [Silence(key, reason, minutes, now)]
      ensures key != "" && minutes > 0 ==> MutedAt(calls, key, now) && Latest(calls, key).value.reason == reason
      ensures key != "" && minutes > 0 ==> forall t :: MutedAt(calls, key, t) <==> t < now + minutes * 60 * SECOND
      ensures key != "" && minutes > 0 ==> ToldAt(calls, key) == now
      ensures forall k :: k != key || key == "" || minutes <= 0 ==>
                Latest(calls, k) == Latest(old(calls), k) && ToldAt(calls, k) == ToldAt(old(calls), k)
    {
      hide Latest, ToldAt, Timely, Run;
      MuteTellsAll(calls, Silence(key, reason, minutes, now));
      if key != "" && minutes > 0 {
        mutes := mutes[key := MuteEntry(now + minutes * MINUTE, reason, now)];
      }
      Note(Silence(key, reason, minutes, now));
    }

    /** May a reminder be shown? Only to the muted, and not within the interval after the mute or the last reminder. */
    method TryConsumeMuteNotify(key: string, interval: int, now: int) returns (granted: bool)
      requires Valid() && Due(now)
      modifies this
      ensures Valid() && calls == old(calls) + [Notify(key, interval, now)]
      ensures granted == GrantedBy(old(calls), key, interval, now)
      ensures granted <==> MutedAt(old(calls), key, now) && now - ToldAt(old(calls), key) >= interval
      ensures ToldAt(calls, key) == if granted then now else ToldAt(old(calls), key)
    {
      Meaning(key, now);
      GrantedIsHistory(calls, key, interval, now);
      var entry := FindActiveMute(key, now);
      granted := entry.Some? && !(entry.value.lastNotify != 0 && now - entry.value.lastNotify < interval);
      if granted {
        mutes := mutes[key := entry.value.(lastNotify := now)];
      }
      Note(Notify(key, interval, now));
      NotifyTells(old(calls), key, interval, now);
    }
  }
}
