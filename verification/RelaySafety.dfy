/** What every reachable state of the relay protocol keeps, and what follows for whole runs. */
module RelaySafety {
  import opened Text
  import opened Queues
  import opened Relay

  ghost predicate Increasing(rows: seq<Row>) {
    forall i, j :: 0 <= i < j < |rows| ==> rows[i].id < rows[j].id
  }

  // ----- the table

  lemma IdsUpToMax(t: Table)
    requires TableOk(t)
    ensures forall r :: r in t ==> 0 < r.id <= MaxId(t)
  {
  }

  lemma {:induction false} BetweenMeans(t: Table, o: string, lo: int, hi: int)
    requires TableOk(t)
    ensures forall r :: r in Between(t, o, lo, hi) <==> r in t && lo < r.id <= hi && r.origin != o
    ensures Increasing(Between(t, o, lo, hi))
  {
    if t != [] {
      var n := |t| - 1;
      BetweenMeans(t[..n], o, lo, hi);
      assert t == t[..n] + [t[n]];
      BetweenOneMore(t[..n], t[n], o, lo, hi);
    }
  }

  lemma BetweenOneMore(t: Table, x: Row, o: string, lo: int, hi: int)
    requires TableOk(t + [x]) && Increasing(Between(t, o, lo, hi))
    requires forall r :: r in Between(t, o, lo, hi) <==> r in t && lo < r.id <= hi && r.origin != o
    ensures forall r :: r in Between(t + [x], o, lo, hi) <==> r in t + [x] && lo < r.id <= hi && r.origin != o
    ensures Increasing(Between(t + [x], o, lo, hi))
  {
    var rows, all := Between(t, o, lo, hi), t + [x];
    assert all[..|t|] == t;
    forall r | r in rows
      ensures r.id < x.id
    {
      LastIsLargest(t, x, r);
    }
    IncreasingSum(rows, Within(x, o, lo, hi), x.id - 1);
  }

  lemma {:induction false} NothingBetween(t: Table, o: string, lo: int, hi: int)
    requires TableOk(t) && (hi <= lo || MaxId(t) <= lo)
    ensures Between(t, o, lo, hi) == [] && (MaxId(t) <= lo ==> Beyond(t, o, lo) == [])
  {
    if t != [] {
      NothingBetween(t[..|t| - 1], o, lo, hi);
    }
  }

  lemma AppendSplit(a: seq<Row>, b: seq<Row>, x: seq<Row>, y: seq<Row>)
    requires x == [] || (b == [] && y == [])
    ensures a + b + (x + y) == (a + x) + (b + y)
  {
  }

  lemma {:induction false} BetweenSplits(t: Table, o: string, lo: int, mid: int, hi: int)
    requires TableOk(t) && lo <= mid <= hi
    ensures Between(t, o, lo, hi) == Between(t, o, lo, mid) + Between(t, o, mid, hi)
  {
    if t != [] {
      var n := |t| - 1;
      BetweenSplits(t[..n], o, lo, mid, hi);
      if t[n].id <= mid {
        NothingBetween(t[..n], o, mid, hi);
      }
      AppendSplit(Between(t[..n], o, lo, mid), Between(t[..n], o, mid, hi), Within(t[n], o, lo, mid), Within(t[n], o, mid, hi));
      assert Within(t[n], o, lo, hi) == Within(t[n], o, lo, mid) + Within(t[n], o, mid, hi);
    }
  }

  /** `r` comes next after `lo`: it is the only row of others up to its id, and `rest` comes after it. */
  ghost predicate ComesNext(t: Table, o: string, lo: int, r: Row, rest: seq<Row>) {
    && r in t && lo < r.id && r.origin != o
    && Between(t, o, lo, r.id) == [r]
    && Beyond(t, o, r.id) == rest
  }

  lemma ComesNextStill(t: Table, x: Row, o: string, lo: int, r: Row, rest: seq<Row>)
    requires ComesNext(t, o, lo, r, rest) && r.id < x.id
    ensures ComesNext(t + [x], o, lo, r, rest + (if x.origin != o then [x] else []))
  {
    assert (t + [x])[..|t|] == t;
  }

  lemma InitIsOk(t: Table, x: Row)
    requires TableOk(t + [x])
    ensures TableOk(t)
  {
    var all := t + [x];
    assert forall i :: 0 <= i < |t| ==> all[i] == t[i];
  }

  lemma BetweenSnoc(t: Table, x: Row, o: string, lo: int, hi: int)
    ensures Between(t + [x], o, lo, hi) == Between(t, o, lo, hi) + Within(x, o, lo, hi)
  {
    assert (t + [x])[..|t|] == t;
  }

  lemma BeyondSnoc(t: Table, x: Row, o: string, lo: int)
    ensures Beyond(t + [x], o, lo) == Beyond(t, o, lo) + (if lo < x.id && x.origin != o then [x] else [])
  {
    assert (t + [x])[..|t|] == t;
  }

  lemma ComesNextNew(t: Table, x: Row, o: string, lo: int)
    requires TableOk(t + [x]) && Beyond(t, o, lo) == [] && lo < x.id && x.origin != o
    ensures ComesNext(t + [x], o, lo, x, [])
  {
    hide Between, Beyond;
    InitIsOk(t, x);
    NothingBeyond(t, o, lo, x.id);
    BetweenSnoc(t, x, o, lo, x.id);
    BeyondSnoc(t, x, o, x.id);
  }

  lemma LastIsLargest(t: Table, x: Row, r: Row)
    requires TableOk(t + [x]) && r in t
    ensures r.id < x.id
  {
    var i :| 0 <= i < |t| && t[i] == r;
    assert (t + [x])[i].id < (t + [x])[|t|].id;
  }

  /** The first of the rows beyond `lo` comes next. */
  ghost predicate HasNext(t: Table, o: string, lo: int) {
    Beyond(t, o, lo) != [] && ComesNext(t, o, lo, Beyond(t, o, lo)[0], Beyond(t, o, lo)[1..])
  }

  lemma NextRowStill(t: Table, x: Row, o: string, lo: int)
    requires TableOk(t + [x]) && HasNext(t, o, lo)
    ensures HasNext(t + [x], o, lo)
  {
    var before, more := Beyond(t, o, lo), if x.origin != o then [x] else [];
    LastIsLargest(t, x, before[0]);
    BeyondSnoc(t, x, o, lo);
    assert before + more == [before[0]] + (before[1..] + more);
    ComesNextStill(t, x, o, lo, before[0], before[1..]);
  }

  lemma NextRowNew(t: Table, x: Row, o: string, lo: int)
    requires TableOk(t + [x]) && Beyond(t, o, lo) == [] && Beyond(t + [x], o, lo) != []
    ensures HasNext(t + [x], o, lo)
  {
    BeyondSnoc(t, x, o, lo);
    assert Beyond(t + [x], o, lo) == [x];
    ComesNextNew(t, x, o, lo);
  }

  lemma {:induction false} NextRow(t: Table, o: string, lo: int)
    requires TableOk(t) && Beyond(t, o, lo) != []
    ensures HasNext(t, o, lo)
  {
    var init, x := t[..|t| - 1], t[|t| - 1];
    assert t == init + [x];
    InitIsOk(init, x);
    if Beyond(init, o, lo) != [] {
      NextRow(init, o, lo);
      NextRowStill(init, x, o, lo);
    } else {
      NextRowNew(init, x, o, lo);
    }
  }

  lemma {:induction false} NothingBeyond(t: Table, o: string, lo: int, hi: int)
    requires TableOk(t) && Beyond(t, o, lo) == [] && lo <= hi
    ensures Between(t, o, lo, hi) == [] && Beyond(t, o, hi) == []
  {
    if t != [] {
      NothingBeyond(t[..|t| - 1], o, lo, hi);
    }
  }

  lemma TableStaysOk(t: Table, r: Row)
    requires TableOk(t) && Fits(t, r)
    ensures TableOk(t + [r]) && MaxId(t) <= MaxId(t + [r])
  {
    IdsUpToMax(t);
    forall i | 0 <= i < |t|
      ensures t[i].id < r.id
    {
      assert t[i] in t;
    }
  }

  /** A new row is above all ids there are, so no range that is already covered changes. */
  lemma TableGrows(t: Table, r: Row, o: string, lo: int, hi: int)
    requires TableOk(t) && Fits(t, r)
    ensures hi <= MaxId(t) ==> Between(t + [r], o, lo, hi) == Between(t, o, lo, hi)
    ensures Beyond(t, o, lo) <= Beyond(t + [r], o, lo)
  {
    assert (t + [r])[..|t|] == t;
  }

  // ----- windows

  ghost predicate WindowsOk(t: Table, ws: seq<Window>) {
    && (forall i :: 0 <= i < |ws| ==> ws[i].lo <= ws[i].hi <= MaxId(t))
    && (forall i, j :: 0 <= i < j < |ws| ==> ws[i].hi <= ws[j].lo)
  }

  /** The rows of others inside the windows. */
  function Covered(t: Table, o: string, ws: seq<Window>): seq<Row> {
    if ws == [] then []
    else Covered(t, o, ws[..|ws| - 1]) + Between(t, o, ws[|ws| - 1].lo, ws[|ws| - 1].hi)
  }

  ghost predicate InWindow(ws: seq<Window>, id: int) {
    exists i :: 0 <= i < |ws| && ws[i].lo < id <= ws[i].hi
  }

  lemma InWindowSnoc(ws: seq<Window>, w: Window, id: int)
    ensures InWindow(ws + [w], id) <==> InWindow(ws, id) || w.lo < id <= w.hi
  {
    var all := ws + [w];
    if i :| 0 <= i < |ws| && ws[i].lo < id <= ws[i].hi {
      assert all[i] == ws[i];
    }
    if w.lo < id <= w.hi {
      assert all[|ws|] == w;
    }
  }

  /** Windows do not overlap: what lies in earlier ones is below the last. */
  lemma BelowLast(t: Table, ws: seq<Window>, w: Window, id: int)
    requires WindowsOk(t, ws + [w])
    ensures WindowsOk(t, ws) && w.lo <= w.hi && (InWindow(ws, id) ==> id <= w.lo)
  {
    var all := ws + [w];
    assert forall i :: 0 <= i < |ws| ==> all[i] == ws[i];
    assert all[|ws|] == w;
  }

  /** Covered rows are the visible rows of others in some window. */
  lemma {:induction false} CoveredInWindow(t: Table, o: string, ws: seq<Window>, r: Row)
    requires TableOk(t)
    ensures r in Covered(t, o, ws) <==> r in t && r.origin != o && InWindow(ws, r.id)
  {
    if ws != [] {
      var init, w := ws[..|ws| - 1], ws[|ws| - 1];
      assert ws == init + [w];
      CoveredInWindow(t, o, init, r);
      BetweenMeans(t, o, w.lo, w.hi);
      InWindowSnoc(init, w, r.id);
    }
  }

  lemma {:induction false} CoveredIncreases(t: Table, o: string, ws: seq<Window>)
    requires TableOk(t) && WindowsOk(t, ws)
    ensures Increasing(Covered(t, o, ws))
  {
    if ws != [] {
      var init, w := ws[..|ws| - 1], ws[|ws| - 1];
      assert ws == init + [w];
      BelowLast(t, init, w, 0);
      CoveredIncreases(t, o, init);
      BetweenMeans(t, o, w.lo, w.hi);
      forall r | r in Covered(t, o, init)
        ensures r.id <= w.lo
      {
        CoveredInWindow(t, o, init, r);
        BelowLast(t, init, w, r.id);
      }
      IncreasingSum(Covered(t, o, init), Between(t, o, w.lo, w.hi), w.lo);
    }
  }

  lemma CoveredMeans(t: Table, o: string, ws: seq<Window>)
    requires TableOk(t) && WindowsOk(t, ws)
    ensures forall r :: r in Covered(t, o, ws) <==> r in t && r.origin != o && InWindow(ws, r.id)
    ensures Increasing(Covered(t, o, ws))
  {
    CoveredIncreases(t, o, ws);
    forall r
      ensures r in Covered(t, o, ws) <==> r in t && r.origin != o && InWindow(ws, r.id)
    {
      CoveredInWindow(t, o, ws, r);
    }
  }

  lemma IncreasingSum(a: seq<Row>, b: seq<Row>, mid: int)
    requires Increasing(a) && Increasing(b)
    requires forall r :: r in a ==> r.id <= mid
    requires forall r :: r in b ==> mid < r.id
    ensures Increasing(a + b)
  {
    forall i, j | 0 <= i < j < |a + b|
      ensures (a + b)[i].id < (a + b)[j].id
    {
      if i < |a| && |a| <= j {
        assert a[i] in a && b[j - |a|] in b;
      }
    }
  }

  lemma {:induction false} CoveredGrows(t: Table, r: Row, o: string, ws: seq<Window>)
    requires TableOk(t) && Fits(t, r) && WindowsOk(t, ws)
    ensures Covered(t + [r], o, ws) == Covered(t, o, ws) && WindowsOk(t + [r], ws)
  {
    TableStaysOk(t, r);
    if ws != [] {
      CoveredGrows(t, r, o, ws[..|ws| - 1]);
      TableGrows(t, r, o, ws[|ws| - 1].lo, ws[|ws| - 1].hi);
    }
  }

  // ----- the reading half of a server

  /** Where the cursor stands, phase by phase. */
  ghost predicate CursorOk(t: Table, o: string, s: Server) {
    match s.phase
    case Down => true
    case Connected => true
    case MaxRead(m) => 0 <= m <= MaxId(t) && (s.windows != [] ==> s.windows[|s.windows| - 1].hi <= m)
    case Idle => s.windows != [] && s.cursor == s.windows[|s.windows| - 1].hi
    case Inserting(_) => s.windows != [] && s.cursor == s.windows[|s.windows| - 1].hi
    case Requeueing(_) => s.windows != [] && s.cursor == s.windows[|s.windows| - 1].hi
    case Fetching(batch) =>
      s.windows != [] && s.cursor == s.windows[|s.windows| - 1].hi && batch <= Beyond(t, o, s.cursor)
    case Writing(row, rest) =>
      s.windows != [] && s.cursor < row.id == s.windows[|s.windows| - 1].hi && rest <= Beyond(t, o, row.id)
  }

  /** The worker has pushed exactly the rows of others in its windows, and its cursor agrees with the last one. */
  ghost predicate Reading(t: Table, o: string, s: Server) {
    && WindowsOk(t, s.windows)
    && s.polled == Covered(t, o, s.windows)
    && CursorOk(t, o, s)
  }

  lemma ReadingGrows(t: Table, r: Row, o: string, s: Server)
    requires TableOk(t) && Fits(t, r) && Reading(t, o, s)
    ensures Reading(t + [r], o, s)
  {
    CoveredGrows(t, r, o, s.windows);
    match s.phase {
      case Fetching(batch) => TableGrows(t, r, o, s.cursor, 0);
      case Writing(row, rest) => TableGrows(t, r, o, row.id, 0);
      case _ =>
    }
  }

  lemma CoveredSnoc(t: Table, o: string, ws: seq<Window>, w: Window)
    ensures Covered(t, o, ws + [w]) == Covered(t, o, ws) + Between(t, o, w.lo, w.hi)
  {
    assert (ws + [w])[..|ws|] == ws;
  }

  lemma WindowOpens(t: Table, o: string, s: Server)
    requires TableOk(t) && Reading(t, o, s) && s.phase.MaxRead?
    ensures Reading(t, o, AfterAction(t, o, s, SetCursor))
  {
    var m := s.phase.maxId;
    NothingBetween(t, o, m, m);
    CoveredSnoc(t, o, s.windows, Window(m, m));
    assert Covered(t, o, s.windows) + [] == Covered(t, o, s.windows);
    WindowsAppend(t, s.windows, m);
  }

  lemma WindowsAppend(t: Table, ws: seq<Window>, m: int)
    requires WindowsOk(t, ws) && m <= MaxId(t) && (ws != [] ==> ws[|ws| - 1].hi <= m)
    ensures WindowsOk(t, ws + [Window(m, m)])
  {
    forall i | 0 <= i < |ws|
      ensures ws[i].hi <= m
    {
      if i < |ws| - 1 {
        assert ws[i].hi <= ws[|ws| - 1].lo;
      }
    }
  }

  /** The last window reaches on to the next row. */
  lemma CoveredExtends(t: Table, o: string, ws: seq<Window>, hi: int, r: Row)
    requires TableOk(t) && ws != [] && ws[|ws| - 1].lo <= ws[|ws| - 1].hi <= hi
    requires Between(t, o, ws[|ws| - 1].hi, hi) == [r]
    ensures Covered(t, o, Extended(ws, hi)) == Covered(t, o, ws) + [r]
  {
    var init, w := ws[..|ws| - 1], ws[|ws| - 1];
    CoveredSnoc(t, o, init, w.(hi := hi));
    BetweenSplits(t, o, w.lo, w.hi, hi);
    Concat3(Covered(t, o, init), Between(t, o, w.lo, w.hi), [r]);
  }

  lemma WindowsExtend(t: Table, ws: seq<Window>, hi: int)
    requires WindowsOk(t, ws) && ws != [] && ws[|ws| - 1].hi <= hi <= MaxId(t)
    ensures WindowsOk(t, Extended(ws, hi)) && Extended(ws, hi) != []
    ensures Extended(ws, hi)[|ws| - 1].hi == hi && |Extended(ws, hi)| == |ws|
  {
  }

  lemma PrefixParts(a: seq<Row>, b: seq<Row>)
    requires a != [] && a <= b
    ensures b != [] && a[0] == b[0] && a[1..] <= b[1..]
  {
  }

  lemma WindowExtends(t: Table, o: string, s: Server)
    requires TableOk(t) && Reading(t, o, s) && s.phase.Fetching? && s.phase.batch != []
    ensures Reading(t, o, AfterAction(t, o, s, PushRow))
    ensures s.phase.batch[0] in t && s.phase.batch[0].origin != o && s.cursor < s.phase.batch[0].id
  {
    hide Covered, Between, Beyond;
    var r := s.phase.batch[0];
    PrefixParts(s.phase.batch, Beyond(t, o, s.cursor));
    NextRow(t, o, s.cursor);
    IdsUpToMax(t);
    WindowsExtend(t, s.windows, r.id);
    CoveredExtends(t, o, s.windows, r.id, r);
  }

  lemma OtherActionsSpareWindows(t: Table, o: string, s: Server, a: Action)
    requires TableOk(t) && Reading(t, o, s) && Enabled(t, o, s, a)
    requires !a.SetCursor? && !a.PushRow? && !a.Insert? && !a.ReadMax?
    ensures Reading(t, o, AfterAction(t, o, s, a))
  {
    hide WindowsOk, Covered, Beyond;
  }

  lemma MaxReads(t: Table, o: string, s: Server)
    requires TableOk(t) && Reading(t, o, s) && s.phase.Connected?
    ensures Reading(t, o, s.(phase := MaxRead(MaxId(t))))
  {
  }

  lemma InsertReads(t: Table, o: string, s: Server, id: int)
    requires TableOk(t) && Reading(t, o, s) && Enabled(t, o, s, Insert(id))
    ensures Reading(t + [Row(id, o, s.phase.message)], o, AfterAction(t, o, s, Insert(id)))
  {
    ReadingGrows(t, Row(id, o, s.phase.message), o, s);
  }

  lemma ReadingKept(t: Table, o: string, s: Server, a: Action)
    requires TableOk(t) && Reading(t, o, s) && Enabled(t, o, s, a)
    ensures Reading(TableAfter(t, o, s, a), o, AfterAction(t, o, s, a))
  {
    match a {
      case ReadMax => MaxReads(t, o, s);
      case SetCursor => WindowOpens(t, o, s);
      case PushRow => WindowExtends(t, o, s);
      case Insert(id) => InsertReads(t, o, s, id);
      case _ => OtherActionsSpareWindows(t, o, s, a);
    }
  }

  lemma IncreasingIsDistinct(rows: seq<Row>, r: Row)
    requires Increasing(rows)
    ensures multiset(rows)[r] <= 1
  {
    if rows != [] {
      var n := |rows| - 1;
      assert rows == rows[..n] + [rows[n]];
      IncreasingIsDistinct(rows[..n], r);
      if r in rows[..n] {
        var i :| 0 <= i < n && rows[..n][i] == r;
        assert rows[i].id < rows[n].id;
      }
    }
  }

  // ----- the game-thread end of the inbound queue

  function InHand(hand: Option<Row>): seq<Row> {
    match hand
    case None => []
    case Some(r) => [r]
  }

  /** Every row the worker pushed is in exactly one place. */
  ghost predicate Placed(polled: seq<Row>, i: Inbox) {
    multiset(polled) == multiset(i.queue.items) + multiset(i.queue.dropped) + multiset(InHand(i.hand)) + multiset(i.finished)
  }

  /** A row that was never split has been shown at most as often as it was finished. */
  ghost predicate ShownFinished(i: Inbox) {
    forall r :: r !in i.split ==> multiset(i.shown)[r] <= multiset(i.finished)[r]
  }

  /**
    * Every row drawn is finished, in hand or was put back. While none was put back the queue saw what the worker pushed
    * and no more, and rows were finished in the order they were drawn.
    */
  ghost predicate Drawn(polled: seq<Row>, i: Inbox) {
    && |i.queue.taken| == |i.finished| + |InHand(i.hand)| + i.retries
    && (i.retries == 0 ==> i.queue.pushes == polled && i.queue.taken == i.finished + InHand(i.hand))
  }

  ghost predicate Incoming(s: Server) {
    && Consistent(s.inbox.queue, QUEUE_MAX) && Placed(s.polled, s.inbox) && ShownFinished(s.inbox)
    && Drawn(s.polled, s.inbox)
  }

  lemma {:induction false} CopiesCount(r: Row, n: nat)
    ensures multiset(Copies(r, n))[r] == n
    ensures forall x :: x != r ==> multiset(Copies(r, n))[x] == 0
  {
    if n > 0 {
      CopiesCount(r, n - 1);
    }
  }

  /** A push moves nothing but the new element and, when full, the oldest one. */
  lemma PushBalance<T(!new)>(q: Queue<T>, x: T)
    requires |q.items| <= QUEUE_MAX
    ensures multiset(q.Push(x, QUEUE_MAX).items) + multiset(q.Push(x, QUEUE_MAX).dropped)
         == multiset(q.items) + multiset(q.dropped) + multiset{x}
    ensures q.Push(x, QUEUE_MAX).taken == q.taken
  {
    if q.items != [] {
      assert q.items == [q.items[0]] + q.items[1..];
    }
  }

  lemma PopBalance<T>(q: Queue<T>)
    requires q.items != []
    ensures multiset(q.items) == multiset(q.Pop().items) + multiset{q.items[0]}
    ensures q.Pop().dropped == q.dropped && q.Pop().taken == q.taken + [q.items[0]]
  {
    assert q.items == [q.items[0]] + q.items[1..];
  }

  lemma DisplayPlaces(polled: seq<Row>, i: Inbox, events: nat, done: bool, two: bool)
    requires Placed(polled, i) && i.hand.Some? && |i.queue.items| <= QUEUE_MAX
    ensures Placed(polled, AfterDisplay(i, events, done, two))
  {
    if !done {
      PushBalance(i.queue, i.hand.value);
      var q := i.queue.Push(i.hand.value, QUEUE_MAX);
      Regroup(multiset{}, multiset(i.queue.items), multiset(i.finished), multiset(i.queue.dropped),
              multiset(q.items), multiset(q.dropped), multiset{i.hand.value});
    }
  }

  lemma CountAfter(rows: seq<Row>, more: seq<Row>, r: Row)
    ensures multiset(rows + more)[r] == multiset(rows)[r] + multiset(more)[r]
  {
  }

  lemma DisplayShows(i: Inbox, events: nat, done: bool, two: bool)
    requires ShownFinished(i) && i.hand.Some? && ShowsOnce(events, done, two)
    ensures ShownFinished(AfterDisplay(i, events, done, two))
  {
    var j := AfterDisplay(i, events, done, two);
    CopiesCount(i.hand.value, events);
    forall r | r !in j.split
      ensures multiset(j.shown)[r] <= multiset(j.finished)[r]
    {
      CountAfter(i.shown, Copies(i.hand.value, events), r);
      CountAfter(i.finished, if done then [i.hand.value] else [], r);
    }
  }

  lemma DisplayDraws(polled: seq<Row>, i: Inbox, events: nat, done: bool, two: bool)
    requires Drawn(polled, i) && i.hand.Some?
    ensures Drawn(polled, AfterDisplay(i, events, done, two))
  {
    assert i.finished + InHand(i.hand) + [] == i.finished + InHand(i.hand);
  }

  lemma DrawDraws(polled: seq<Row>, i: Inbox)
    requires Drawn(polled, i) && i.hand.None? && i.queue.items != []
    ensures Drawn(polled, i.(hand := Some(i.queue.items[0]), queue := i.queue.Pop()))
  {
    assert i.finished + [] == i.finished;
  }

  lemma DisplayKeeps(s: Server, events: nat, done: bool, two: bool)
    requires Incoming(s) && s.inbox.hand.Some? && ShowsOnce(events, done, two)
    ensures Incoming(s.(inbox := AfterDisplay(s.inbox, events, done, two)))
  {
    PushConsistent(s.inbox.queue, s.inbox.hand.value, QUEUE_MAX);
    DisplayPlaces(s.polled, s.inbox, events, done, two);
    DisplayShows(s.inbox, events, done, two);
    DisplayDraws(s.polled, s.inbox, events, done, two);
  }

  lemma DrawKeeps(s: Server)
    requires Incoming(s) && s.inbox.hand.None? && s.inbox.queue.items != []
    ensures Incoming(s.(inbox := s.inbox.(hand := Some(s.inbox.queue.items[0]), queue := s.inbox.queue.Pop())))
  {
    PopConsistent(s.inbox.queue, QUEUE_MAX);
    PopBalance(s.inbox.queue);
    DrawDraws(s.polled, s.inbox);
  }

  lemma PolledKeeps(s: Server, s': Server, r: Row)
    requires Incoming(s) && s'.polled == s.polled + [r]
    requires s'.inbox == s.inbox.(queue := s.inbox.queue.Push(r, QUEUE_MAX))
    ensures Incoming(s')
  {
    var q, q' := s.inbox.queue, s.inbox.queue.Push(r, QUEUE_MAX);
    PushConsistent(q, r, QUEUE_MAX);
    PushBalance(q, r);
    Regroup(multiset{}, multiset(q.items), multiset(InHand(s.inbox.hand)) + multiset(s.inbox.finished), multiset(q.dropped),
            multiset(q'.items), multiset(q'.dropped), multiset{r});
  }

  lemma OtherActionsSpareInbox(t: Table, o: string, s: Server, a: Action)
    requires Enabled(t, o, s, a) && !a.Draw? && !a.Display? && !a.PushRow?
    ensures AfterAction(t, o, s, a).inbox == s.inbox && AfterAction(t, o, s, a).polled == s.polled
  {
  }

  lemma IncomingKept(t: Table, o: string, s: Server, a: Action)
    requires Incoming(s) && Enabled(t, o, s, a)
    ensures Incoming(AfterAction(t, o, s, a))
  {
    match a {
      case Draw => DrawKeeps(s);
      case Display(events, done, two) => DisplayKeeps(s, events, done, two);
      case PushRow => PolledKeeps(s, AfterAction(t, o, s, a), s.phase.batch[0]);
      case _ => OtherActionsSpareInbox(t, o, s, a);
    }
  }

  // ----- the outbound queue

  function Messages(rows: seq<Row>): seq<Message> {
    if rows == [] then [] else Messages(rows[..|rows| - 1]) + [rows[|rows| - 1].message]
  }

  /** The message the worker holds between its pop and the end of its INSERT or push-back. */
  function InFlight(phase: Phase): seq<Message> {
    match phase
    case Inserting(m) => [m]
    case Requeueing(m) => [m]
    case _ => []
  }

  /**
    * What players typed is inserted, queued, held by the worker or dropped as oldest, and nowhere twice. While no
    * INSERT has failed the queue saw only what was typed, and the inserted rows are what was popped, in order.
    */
  ghost predicate Outgoing(s: Server) {
    && Consistent(s.outbound, QUEUE_MAX)
    && multiset(s.typed) == multiset(Messages(s.inserted)) + multiset(s.outbound.items)
                            + multiset(InFlight(s.phase)) + multiset(s.outbound.dropped)
    && (s.failures == 0 ==> !s.phase.Requeueing? && s.outbound.pushes == s.typed
                            && s.outbound.taken == Messages(s.inserted) + InFlight(s.phase))
  }

  lemma MessagesStep(rows: seq<Row>, r: Row)
    ensures Messages(rows + [r]) == Messages(rows) + [r.message]
  {
    assert (rows + [r])[..|rows|] == rows;
  }

  lemma Regroup<T>(a: multiset<T>, items: multiset<T>, held: multiset<T>, dropped: multiset<T>,
                   items': multiset<T>, dropped': multiset<T>, new': multiset<T>)
    requires items' + dropped' == items + dropped + new'
    ensures a + items' + held + dropped' == a + items + held + dropped + new'
  {
    assert a + items' + held + dropped' == a + held + (items' + dropped');
    assert a + items + held + dropped + new' == a + held + (items + dropped + new');
  }

  lemma TypeKeeps(s: Server, m: Message)
    requires Outgoing(s)
    ensures Outgoing(s.(outbound := s.outbound.Push(m, QUEUE_MAX), typed := s.typed + [m]))
  {
    PushConsistent(s.outbound, m, QUEUE_MAX);
    PushBalance(s.outbound, m);
    var q := s.outbound.Push(m, QUEUE_MAX);
    Regroup(multiset(Messages(s.inserted)), multiset(s.outbound.items), multiset(InFlight(s.phase)),
            multiset(s.outbound.dropped), multiset(q.items), multiset(q.dropped), multiset{m});
  }

  lemma PushBackKeeps(s: Server)
    requires Outgoing(s) && s.phase.Requeueing?
    ensures Outgoing(s.(phase := Down, outbound := s.outbound.Push(s.phase.message, QUEUE_MAX)))
  {
    PushConsistent(s.outbound, s.phase.message, QUEUE_MAX);
    PushBalance(s.outbound, s.phase.message);
    var q := s.outbound.Push(s.phase.message, QUEUE_MAX);
    Regroup(multiset(Messages(s.inserted)), multiset(s.outbound.items), multiset{},
            multiset(s.outbound.dropped), multiset(q.items), multiset(q.dropped), multiset{s.phase.message});
  }

  lemma TakeKeeps(s: Server)
    requires Outgoing(s) && s.phase.Idle? && s.outbound.items != []
    ensures Outgoing(s.(phase := Inserting(s.outbound.items[0]), outbound := s.outbound.Pop()))
  {
    PopConsistent(s.outbound, QUEUE_MAX);
    PopBalance(s.outbound);
    assert Messages(s.inserted) + [] == Messages(s.inserted);
  }

  lemma InsertBalance<T>(done: seq<T>, items: multiset<T>, dropped: multiset<T>, x: T)
    ensures multiset(done) + items + multiset([x]) + dropped == multiset(done + [x]) + items + multiset([]) + dropped
    ensures done + [x] + [] == done + [x]
  {
    assert multiset(done + [x]) == multiset(done) + multiset([x]);
  }

  lemma InsertKeeps(s: Server, r: Row)
    requires Outgoing(s) && s.phase.Inserting? && r.message == s.phase.message
    ensures Outgoing(s.(phase := Idle, inserted := s.inserted + [r]))
  {
    hide Consistent, Messages;
    MessagesStep(s.inserted, r);
    InsertBalance(Messages(s.inserted), multiset(s.outbound.items), multiset(s.outbound.dropped), r.message);
    assert InFlight(Idle) == [];
  }

  lemma InsertFailsKeeps(s: Server)
    requires Outgoing(s) && s.phase.Inserting?
    ensures Outgoing(s.(phase := Requeueing(s.phase.message), failures := s.failures + 1))
  {
  }

  /** Steps that leave the outbound side alone. */
  lemma SameOutgoing(s: Server, s': Server)
    requires Outgoing(s)
    requires s'.outbound == s.outbound && s'.typed == s.typed && s'.inserted == s.inserted && s'.failures == s.failures
    requires InFlight(s'.phase) == InFlight(s.phase) && (s'.phase.Requeueing? ==> s.phase.Requeueing?)
    ensures Outgoing(s')
  {
  }

  predicate TouchesOutbound(a: Action) {
    a.Type? || a.PushBack? || a.Take? || a.Insert? || a.InsertFails?
  }

  lemma OtherActionsSpareOutbound(t: Table, o: string, s: Server, a: Action)
    requires Enabled(t, o, s, a) && !TouchesOutbound(a)
    ensures var s' := AfterAction(t, o, s, a);
            && s'.outbound == s.outbound && s'.typed == s.typed && s'.inserted == s.inserted && s'.failures == s.failures
            && InFlight(s'.phase) == InFlight(s.phase) && (s'.phase.Requeueing? ==> s.phase.Requeueing?)
  {
  }

  lemma OutgoingKept(t: Table, o: string, s: Server, a: Action)
    requires Outgoing(s) && Enabled(t, o, s, a)
    ensures Outgoing(AfterAction(t, o, s, a))
  {
    if !TouchesOutbound(a) {
      OtherActionsSpareOutbound(t, o, s, a);
      SameOutgoing(s, AfterAction(t, o, s, a));
    } else {
      match a {
        case Type(m) => TypeKeeps(s, m);
        case PushBack => PushBackKeeps(s);
        case Take => TakeKeeps(s);
        case Insert(id) => InsertKeeps(s, Row(id, o, s.phase.message));
        case InsertFails => InsertFailsKeeps(s);
        case _ =>
      }
    }
  }

  // ----- rows of its own

  ghost predicate OwnRows(t: Table, o: string, s: Server) {
    && Increasing(s.inserted)
    && forall r :: r in s.inserted ==> r in t && r.origin == o
  }

  lemma OwnRowsKept(t: Table, o: string, s: Server, a: Action)
    requires TableOk(t) && OwnRows(t, o, s) && Enabled(t, o, s, a)
    ensures OwnRows(TableAfter(t, o, s, a), o, AfterAction(t, o, s, a))
  {
    if a.Insert? {
      IdsUpToMax(t);
      forall i | 0 <= i < |s.inserted|
        ensures s.inserted[i].id < a.id
      {
        assert s.inserted[i] in s.inserted;
      }
    }
  }

  // ----- all of it

  ghost predicate ServerOk(t: Table, o: string, s: Server) {
    && s.limit >= 1
    && Reading(t, o, s)
    && Incoming(s)
    && Outgoing(s)
    && OwnRows(t, o, s)
  }

  lemma FreshReads(t: Table, o: string, s: Server)
    requires s.phase.Down? && s.windows == [] && s.polled == []
    ensures Reading(t, o, s)
  {
  }

  lemma FreshReceives(s: Server)
    requires s.inbox == Inbox(Empty(), None, [], [], {}, 0) && s.polled == []
    ensures Incoming(s)
  {
    var none: seq<Row> := [];
    assert multiset(none) == multiset{} && none[..0] == none && none + none == none;
  }

  lemma FreshSends(s: Server)
    requires s.outbound == Empty() && s.phase.Down? && s.typed == [] && s.inserted == []
    ensures Outgoing(s)
  {
    var none: seq<Message> := [];
    assert multiset(none) == multiset{} && none[..0] == none && none + none == none;
  }

  lemma FreshIsOk(t: Table, o: string, limit: nat)
    requires limit >= 1
    ensures ServerOk(t, o, Relay.Fresh(limit))
  {
    hide Reading, Incoming, Outgoing;
    var s := Relay.Fresh(limit);
    FreshReads(t, o, s);
    FreshReceives(s);
    FreshSends(s);
  }

  /** A server's own step keeps its invariant. */
  lemma ServerStepKeeps(t: Table, o: string, s: Server, a: Action)
    requires TableOk(t) && ServerOk(t, o, s) && Enabled(t, o, s, a)
    ensures TableOk(TableAfter(t, o, s, a)) && ServerOk(TableAfter(t, o, s, a), o, AfterAction(t, o, s, a))
  {
    ReadingKept(t, o, s, a);
    IncomingKept(t, o, s, a);
    OutgoingKept(t, o, s, a);
    OwnRowsKept(t, o, s, a);
    if a.Insert? {
      TableStaysOk(t, Row(a.id, o, s.phase.message));
    }
  }

  /** A row that somebody else commits keeps it too. */
  lemma ServerOkGrows(t: Table, r: Row, o: string, s: Server)
    requires TableOk(t) && ServerOk(t, o, s) && Fits(t, r)
    ensures TableOk(t + [r]) && ServerOk(t + [r], o, s)
  {
    TableStaysOk(t, r);
    ReadingGrows(t, r, o, s);
  }

  ghost predicate AllOk(t: Table, servers: map<string, Server>) {
    forall o :: o in servers ==> ServerOk(t, o, servers[o])
  }

  ghost predicate SystemOk(s: System) {
    TableOk(s.table) && AllOk(s.table, s.servers)
  }

  lemma OutsideKeeps(s: System, row: Row)
    requires SystemOk(s) && CanStep(s, Outside(row))
    ensures SystemOk(Next(s, Outside(row)))
  {
    TableStaysOk(s.table, row);
    forall o | o in s.servers
      ensures ServerOk(s.table + [row], o, s.servers[o])
    {
      ServerOkGrows(s.table, row, o, s.servers[o]);
    }
  }

  /** The step of server `o` as another server `p` sees it: at most a new row. */
  lemma OthersKept(t: Table, o: string, s: Server, a: Action, p: string, other: Server)
    requires TableOk(t) && Enabled(t, o, s, a) && ServerOk(t, p, other)
    ensures ServerOk(TableAfter(t, o, s, a), p, other)
  {
    if a.Insert? {
      ServerOkGrows(t, Row(a.id, o, s.phase.message), p, other);
    }
  }

  lemma OneServerMoves(t': Table, servers: map<string, Server>, o: string, s': Server)
    requires o in servers && ServerOk(t', o, s')
    requires forall p :: p in servers && p != o ==> ServerOk(t', p, servers[p])
    ensures AllOk(t', servers[o := s'])
  {
  }

  lemma AtKeeps(s: System, o: string, a: Action)
    requires SystemOk(s) && CanStep(s, At(o, a))
    ensures SystemOk(Next(s, At(o, a)))
  {
    var t' := TableAfter(s.table, o, s.servers[o], a);
    var server' := AfterAction(s.table, o, s.servers[o], a);
    ServerStepKeeps(s.table, o, s.servers[o], a);
    forall p | p in s.servers && p != o
      ensures ServerOk(t', p, s.servers[p])
    {
      OthersKept(s.table, o, s.servers[o], a, p, s.servers[p]);
    }
    OneServerMoves(t', s.servers, o, server');
  }

  lemma StepKeeps(s: System, step: Step)
    requires SystemOk(s) && CanStep(s, step)
    ensures SystemOk(Next(s, step)) && Next(s, step).servers.Keys == s.servers.Keys
  {
    match step
    case Outside(row) => OutsideKeeps(s, row);
    case At(o, a) => AtKeeps(s, o, a);
  }

  lemma {:induction false} RunKeeps(first: System, steps: seq<Step>, last: System)
    requires SystemOk(first) && IsRun(first, steps, last)
    ensures SystemOk(last) && last.servers.Keys == first.servers.Keys
    decreases |steps|
  {
    if steps != [] {
      StepKeeps(first, steps[0]);
      RunKeeps(Next(first, steps[0]), steps[1..], last);
    }
  }

  lemma ReachableOk(first: System, steps: seq<Step>, last: System)
    requires Start(first) && IsRun(first, steps, last)
    ensures TableOk(last.table) && forall o :: o in last.servers ==> ServerOk(last.table, o, last.servers[o])
  {
    forall o | o in first.servers
      ensures ServerOk(first.table, o, first.servers[o])
    {
      FreshIsOk(first.table, o, first.servers[o].limit);
    }
    RunKeeps(first, steps, last);
  }

  // ----- theorems over all runs

  /**
    * The ids a server pushes to its inbound queue strictly increase over the whole run, through every poll failure,
    * lost connection and reconnect, and no row of its own is among them.
    */
  lemma PushedIdsIncrease(first: System, steps: seq<Step>, last: System, o: string)
    requires Start(first) && IsRun(first, steps, last) && o in last.servers
    ensures Increasing(last.servers[o].polled)
    ensures forall r :: r in last.servers[o].polled ==> r in last.table && r.origin != o && r !in last.servers[o].inserted
  {
    ReachableOk(first, steps, last);
    var s := last.servers[o];
    CoveredMeans(last.table, o, s.windows);
    assert ServerOk(last.table, o, s);
  }

  /**
    * A row of another origin reached the inbound queue exactly when its id lies in a window: above the MAX(id) that
    * some connection of this server started from, and up to the last row that connection pushed.
    */
  lemma PushedExactlyInWindows(first: System, steps: seq<Step>, last: System, o: string, r: Row)
    requires Start(first) && IsRun(first, steps, last) && o in last.servers
    requires r in last.table && r.origin != o
    ensures r in last.servers[o].polled <==> InWindow(last.servers[o].windows, r.id)
  {
    ReachableOk(first, steps, last);
    CoveredInWindow(last.table, o, last.servers[o].windows, r);
  }

  predicate CursorLive(phase: Phase) {
    phase.Idle? || phase.Inserting? || phase.Requeueing? || phase.Fetching?
  }

  /** Since its cursor was set to `lo` the connection pushed what one unpaged query for (lo, cursor] answers. */
  ghost predicate OneQuery(t: Table, o: string, s: Server) {
    && s.windows != []
    && var n := |s.windows| - 1;
       var lo, before := s.windows[n].lo, Covered(t, o, s.windows[..n]);
       && s.windows[n].hi == s.cursor
       && s.polled == before + Between(t, o, lo, s.cursor)
       && forall r :: r in before ==> r.id <= lo
  }

  lemma LiveIsOneQuery(t: Table, o: string, s: Server)
    requires TableOk(t) && Reading(t, o, s) && CursorLive(s.phase)
    ensures OneQuery(t, o, s)
  {
    var n := |s.windows| - 1;
    CoveredMeans(t, o, s.windows[..n]);
    if n > 0 {
      assert s.windows[n - 1].hi <= s.windows[n].lo;
    }
  }

  /**
    * Paged reading is one unpaged read: with a live cursor, what the connection pushed since it set its cursor to
    * `lo` is the one query for the rows of others in (lo, cursor], in id order and without a gap.
    */
  lemma PagedIsUnpaged(first: System, steps: seq<Step>, last: System, o: string)
    requires Start(first) && IsRun(first, steps, last) && o in last.servers
    requires CursorLive(last.servers[o].phase)
    ensures OneQuery(last.table, o, last.servers[o])
  {
    ReachableOk(first, steps, last);
    LiveIsOneQuery(last.table, o, last.servers[o]);
  }

  lemma FinishedOnce(t: Table, o: string, s: Server, r: Row)
    requires TableOk(t) && ServerOk(t, o, s)
    ensures multiset(s.inbox.finished)[r] <= 1
  {
    CoveredMeans(t, o, s.windows);
    IncreasingIsDistinct(s.polled, r);
    assert multiset(s.polled)[r] >= multiset(s.inbox.finished)[r];
  }

  /** A row of a sound server whose line was never split has been shown at most once. */
  lemma NotSplitShownOnce(t: Table, o: string, s: Server, r: Row)
    requires TableOk(t) && ServerOk(t, o, s) && r !in s.inbox.split
    ensures multiset(s.inbox.shown)[r] <= 1
  {
    FinishedOnce(t, o, s, r);
  }

  /** A row whose line was never split between Xbox players and others is broadcast at most once on each server. */
  lemma ShownAtMostOnce(first: System, steps: seq<Step>, last: System, o: string, r: Row)
    requires Start(first) && IsRun(first, steps, last) && o in last.servers
    requires r !in last.servers[o].inbox.split
    ensures multiset(last.servers[o].inbox.shown)[r] <= 1
  {
    ReachableOk(first, steps, last);
    assert ServerOk(last.table, o, last.servers[o]);
    NotSplitShownOnce(last.table, o, last.servers[o], r);
  }

  /** The queue keeps to its size, and drops no more than was pushed beyond it. */
  ghost predicate DropsAreForced<T>(q: Queue<T>) {
    && |q.items| <= QUEUE_MAX
    && (|q.pushes| <= QUEUE_MAX ==> q.dropped == [])
    && (q.dropped != [] ==> |q.dropped| + QUEUE_MAX <= |q.pushes|)
  }

  /**
    * Every polled row is queued, in the game thread's hand, finished or dropped as oldest, and nowhere twice. Only as
    * many are dropped as do not fit.
    */
  lemma InboundConserved(first: System, steps: seq<Step>, last: System, o: string)
    requires Start(first) && IsRun(first, steps, last) && o in last.servers
    ensures var s := last.servers[o];
            multiset(s.polled) == multiset(s.inbox.queue.items) + multiset(s.inbox.queue.dropped)
                                  + multiset(InHand(s.inbox.hand)) + multiset(s.inbox.finished)
    ensures DropsAreForced(last.servers[o].inbox.queue)
    ensures var s := last.servers[o];
            s.inbox.retries == 0 && |s.polled| <= QUEUE_MAX ==> s.inbox.queue.dropped == []
  {
    ReachableOk(first, steps, last);
    assert ServerOk(last.table, o, last.servers[o]);
  }

  /**
    * Every typed message is inserted, queued, held by the worker or dropped as oldest, and nowhere twice. Only as many
    * are dropped as do not fit.
    */
  lemma OutboundConserved(first: System, steps: seq<Step>, last: System, o: string)
    requires Start(first) && IsRun(first, steps, last) && o in last.servers
    ensures var s := last.servers[o];
            && multiset(s.typed) == multiset(Messages(s.inserted)) + multiset(s.outbound.items)
                                    + multiset(InFlight(s.phase)) + multiset(s.outbound.dropped)
            && Gone(s.outbound) <= |s.outbound.pushes| && s.outbound.items == s.outbound.pushes[Gone(s.outbound)..]
    ensures DropsAreForced(last.servers[o].outbound)
    ensures var s := last.servers[o];
            s.failures == 0 && |s.typed| <= QUEUE_MAX ==> s.outbound.dropped == []
  {
    ReachableOk(first, steps, last);
    assert ServerOk(last.table, o, last.servers[o]);
  }

  lemma {:induction false} SubsequenceWeakens<T(!new)>(a: seq<T>, x: seq<T>, b: seq<T>, y: seq<T>)
    requires Subsequence(a + x, b)
    ensures Subsequence(a, b + y)
    decreases |x| + |y|, |b|
  {
    if y != [] {
      var n := |y| - 1;
      SubsequenceWeakens(a, x, b, y[..n]);
      SubsequenceStep(a, b + y[..n], y[n]);
      assert b + y[..n] + [y[n]] == b + y;
    } else if x != [] {
      var n := |b| - 1;
      assert (a + x)[..|a + x| - 1] == a + x[..|x| - 1];
      if Subsequence(a + x, b[..n]) {
        SubsequenceWeakens(a, x, b[..n], []);
      } else {
        SubsequenceWeakens(a, x[..|x| - 1], b[..n], []);
      }
      assert b[..n] + [] == b[..n] && b == b[..n] + [b[n]];
      SubsequenceStep(a, b[..n], b[n]);
      assert b + y == b;
    } else {
      assert a + x == a && b + y == b;
    }
  }

  lemma {:induction false} SubsequenceIncreases(a: seq<Row>, b: seq<Row>)
    requires Subsequence(a, b) && Increasing(b)
    ensures Increasing(a) && forall r :: r in a ==> r in b
    decreases |b|
  {
    if a != [] {
      var m, n := |a| - 1, |b| - 1;
      assert forall r :: r in b[..n] ==> r in b && r.id < b[n].id;
      if a[m] == b[n] && Subsequence(a[..m], b[..n]) {
        SubsequenceIncreases(a[..m], b[..n]);
        assert a == a[..m] + [b[n]];
      } else {
        SubsequenceIncreases(a, b[..n]);
      }
    }
  }

  /** What was popped is a part of what was pushed, in order. */
  lemma TakenFromPushes<T(!new)>(q: Queue<T>, max: nat)
    requires Consistent(q, max)
    ensures Subsequence(q.taken, q.pushes)
  {
    var k := Gone(q);
    assert q.taken + [] == q.taken && q.pushes == q.pushes[..k] + q.pushes[k..];
    SubsequenceWeakens(q.taken, [], q.pushes[..k], q.pushes[k..]);
  }

  /** A server that never put a row back drew its rows in the order their ids increase. */
  lemma DrawnInIdOrder(t: Table, o: string, s: Server)
    requires TableOk(t) && ServerOk(t, o, s) && s.inbox.retries == 0
    ensures Increasing(s.inbox.queue.taken) && Subsequence(s.inbox.queue.taken, s.polled)
  {
    hide Outgoing, OwnRows, CursorOk, Placed, ShownFinished, Consistent, Subsequence;
    CoveredMeans(t, o, s.windows);
    TakenFromPushes(s.inbox.queue, QUEUE_MAX);
    SubsequenceIncreases(s.inbox.queue.taken, s.polled);
  }

  /** As long as no row was put back to be shown again, rows are drawn in the order of their ids, each once. */
  lemma DrawnInOrder(first: System, steps: seq<Step>, last: System, o: string)
    requires Start(first) && IsRun(first, steps, last) && o in last.servers
    requires last.servers[o].inbox.retries == 0
    ensures Subsequence(last.servers[o].inbox.queue.taken, last.servers[o].polled)
    ensures Increasing(last.servers[o].inbox.queue.taken)
  {
    ReachableOk(first, steps, last);
    DrawnInIdOrder(last.table, o, last.servers[o]);
  }

  lemma OrderKept(s: Server)
    requires Outgoing(s) && s.failures == 0
    ensures Subsequence(Messages(s.inserted), s.typed)
  {
    var k := Gone(s.outbound);
    assert s.typed == s.outbound.pushes[..k] + s.outbound.pushes[k..];
    SubsequenceWeakens(Messages(s.inserted), InFlight(s.phase), s.outbound.pushes[..k], s.outbound.pushes[k..]);
  }

  /** As long as no INSERT of a server failed, its rows stand in the table in the order they were typed. */
  lemma InsertedInTypingOrder(first: System, steps: seq<Step>, last: System, o: string)
    requires Start(first) && IsRun(first, steps, last) && o in last.servers
    requires last.servers[o].failures == 0
    ensures Subsequence(Messages(last.servers[o].inserted), last.servers[o].typed)
    ensures Increasing(last.servers[o].inserted)
  {
    ReachableOk(first, steps, last);
    OrderKept(last.servers[o]);
  }

  lemma {:induction false} MessagesHave(rows: seq<Row>)
    ensures forall r :: r in rows ==> r.message in Messages(rows)
  {
    if rows != [] {
      MessagesHave(rows[..|rows| - 1]);
      assert rows == rows[..|rows| - 1] + [rows[|rows| - 1]];
    }
  }

  lemma InsertedIsTyped(t: Table, o: string, s: Server, r: Row)
    requires ServerOk(t, o, s) && r in s.inserted
    ensures r.origin == o && r.message in s.typed
  {
    MessagesHave(s.inserted);
    assert r.message in multiset(Messages(s.inserted));
    assert r.message in multiset(s.typed);
  }

  /** Whatever holds of every message the game thread hands over holds of every row the server inserts. */
  lemma InsertedWasTyped(first: System, steps: seq<Step>, last: System, o: string, r: Row)
    requires Start(first) && IsRun(first, steps, last) && o in last.servers
    requires r in last.servers[o].inserted
    ensures r.origin == o && r.message in last.servers[o].typed
  {
    ReachableOk(first, steps, last);
    assert ServerOk(last.table, o, last.servers[o]);
    InsertedIsTyped(last.table, o, last.servers[o], r);
  }
}
