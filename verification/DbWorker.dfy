/**
  * The database worker of src/DbWorker.cpp, statement by statement. Whether a statement succeeds, and what other
  * servers and the game thread do between two statements, is left open. Every run of the worker's code is a run of
  * the relay protocol.
  */
module DbWorker {
  import opened Text
  import opened Queues
  import opened Relay
  import opened RelaySafety
  import opened Replays

  predicate Losable(phase: Phase) {
    phase.Connected? || phase.MaxRead? || phase.Idle? || phase.Fetching? || phase.Writing?
  }

  /** The fields of the protocol state that only the worker changes. */
  predicate WorkerSame(s: Server, s': Server) {
    && s'.limit == s.limit && s'.phase == s.phase && s'.cursor == s.cursor && s'.polled == s.polled
    && s'.windows == s.windows && s'.inserted == s.inserted && s'.failures == s.failures
    && s'.outbound.taken == s.outbound.taken
  }

  /** Where a page leaves a cursor that stood at `lo`. */
  function EndOf(page: seq<Row>, lo: int): int {
    if page == [] then lo else page[|page| - 1].id
  }

  /**
    * A page after `lo`: the rows of others from there to its end, in the order of their ids; there are `limit` of them
    * at most, and fewer only if no row of others is beyond.
    */
  ghost predicate IsPage(t: Table, o: string, lo: int, limit: nat, page: seq<Row>) {
    && |page| <= limit
    && page == Between(t, o, lo, EndOf(page, lo))
    && Increasing(page)
    && (forall r :: r in page <==> r in t && r.origin != o && lo < r.id <= EndOf(page, lo))
    && (|page| == limit || forall r :: r in t && r.origin != o ==> r.id <= EndOf(page, lo))
  }

  /** The largest id in the table, and 0 if there is none. */
  ghost predicate IsLargestId(t: Table, id: int) {
    (forall r :: r in t ==> r.id <= id) && if t == [] then id == 0 else exists r :: r in t && r.id == id
  }

  /** Some number, nobody knows which. */
  method Any() returns (n: nat) {
    var i: int := *;
    n := if i < 0 then 0 else i;
  }

  /** The tables all servers share: the messages, and where each server's cursor is. */
  class Database {
    var rows: Table
    var cursors: map<string, int>

    constructor (initial: Table, cursors: map<string, int>)
      ensures rows == initial && this.cursors == cursors
    {
      rows, this.cursors := initial, cursors;
    }
  }

  class Worker {
    const origin: string
    const maxBatch: nat
    const backoffCap: nat
    const db: Database
    const outbound: BoundedQueue<Message>
    const inbound: BoundedQueue<Row>

    var connected: bool
    var cursorReady: bool
    var backoffSec: nat
    var cursorId: int
    /** How many more times the stop token will answer no. */
    var checksLeft: nat
    /** The row the game thread has popped and not answered yet. */
    var hand: Option<Row>

    /** The protocol's view of this server, and all the states a protocol run can bring it to. */
    ghost var view: Server
    ghost const first: Local
    ghost const reachable: iset<Local>

    /** The fields and the queues are what the protocol says after the events so far. */
    ghost predicate Linked()
      reads `view, `hand, `connected, `cursorReady, `backoffSec, `cursorId, db`rows, outbound, inbound
    {
      && outbound as object != inbound as object
      && outbound.Valid() && outbound.max == QUEUE_MAX && outbound.history == view.outbound
      && inbound.Valid() && inbound.max == QUEUE_MAX && inbound.history == view.inbox.queue
      && cursorId == view.cursor && maxBatch == view.limit && hand == view.inbox.hand
      && 1 <= backoffSec <= backoffCap
      && (cursorReady ==> connected)
      && ProtocolStates(origin, reachable) && Local(db.rows, view) in reachable
    }

    /** Between two rounds of the loop the two flags tell the phase. */
    ghost predicate Settled()
      reads this, db`cursors
    {
      && view.phase == (if !connected then Down else if cursorReady then Idle else Connected)
      && (cursorReady ==> IsStored(cursorId))
    }

    /** The row of this server in the cursor table says so; nobody else writes it. */
    predicate IsStored(id: int)
      reads db`cursors
    {
      origin in db.cursors && db.cursors[origin] == id
    }

    ghost predicate Valid()
      reads this, db, outbound, inbound
    {
      Linked() && Settled()
    }

    constructor (origin: string, maxBatch: nat, backoffCap: nat, db: Database,
                 outbound: BoundedQueue<Message>, inbound: BoundedQueue<Row>, stopAfter: nat)
      requires maxBatch >= 1 && backoffCap >= 1 && TableOk(db.rows)
      requires outbound as object != inbound as object
      requires outbound.Valid() && outbound.max == QUEUE_MAX && outbound.history == Empty()
      requires inbound.Valid() && inbound.max == QUEUE_MAX && inbound.history == Empty()
      ensures Valid() && FromStart() && view == Relay.Fresh(maxBatch) && first == Local(db.rows, view)
    {
      this.origin, this.maxBatch, this.backoffCap := origin, maxBatch, backoffCap;
      this.db, this.outbound, this.inbound := db, outbound, inbound;
      connected, cursorReady := false, false;
      backoffSec, cursorId, checksLeft, hand := 1, -1, stopAfter, None;
      ghost var start := Local(db.rows, Relay.Fresh(maxBatch));
      FreshIsOk(db.rows, origin, maxBatch);
      ReachableIsProtocol(origin, start);
      view, first, reachable := start.server, start, Reachable(origin, start);
    }

    /** The states that the code keeps to are those some run of the protocol leads to from a start. */
    ghost predicate FromStart() {
      IsStart(first) && reachable == Reachable(origin, first)
    }

    /** What the worker has done is a run of the protocol. */
    lemma RunsTheProtocol()
      requires Linked() && FromStart()
      ensures Start(Alone(origin, first))
      ensures exists steps :: IsRun(Alone(origin, first), steps, Alone(origin, Local(db.rows, view)))
    {
      ReachedInAProtocolRun(origin, first, Local(db.rows, view));
    }

    /** One protocol step has been taken. */
    ghost method Record(e: Event, before: Local)
      requires ProtocolStates(origin, reachable) && before in reachable && before.server == view
      requires ReplayOne(origin, before, e).Some?
      modifies this`view
      ensures view == ReplayOne(origin, before, e).value.server
      ensures ReplayOne(origin, before, e).value in reachable
    {
      view := ReplayOne(origin, before, e).value.server;
    }

    lemma TableIsOk()
      requires Linked()
      ensures TableOk(db.rows) && 0 <= MaxId(db.rows)
    {
      assert LocalOk(origin, Local(db.rows, view));
    }

    /** A protocol step that changes no field, queue or table. */
    ghost method Act(a: Action)
      requires Linked() && Enabled(db.rows, origin, view, a)
      requires a.Connect? || a.ReadMax? || a.Lose? || a.InsertFails? || a.Select? || a.EndBatch?
      modifies this`view
      ensures Linked() && view == AfterAction(db.rows, origin, old(view), a)
    {
      Record(Own(a), Local(db.rows, view));
    }

    // ----- what happens between two statements

    /** The game thread pushes a chat line. */
    method GamePushes(m: Message)
      requires Linked()
      modifies this`view, outbound
      ensures Linked() && view == AfterAction(db.rows, origin, old(view), Type(m))
    {
      Record(Own(Type(m)), Local(db.rows, view));
      var _ := outbound.Push(m);
    }

    /** The game thread takes a row to show. */
    method GameDraws()
      requires Linked() && Enabled(db.rows, origin, view, Draw)
      modifies this`view, this`hand, inbound
      ensures Linked() && view == AfterAction(db.rows, origin, old(view), Draw)
    {
      Record(Own(Draw), Local(db.rows, view));
      hand := inbound.TryPop();
    }

    /** The game thread has shown the row in its hand, or puts it back. */
    method GameAnswers(events: nat, done: bool, two: bool)
      requires Linked() && Enabled(db.rows, origin, view, Display(events, done, two))
      modifies this`view, this`hand, inbound
      ensures Linked() && view == AfterAction(db.rows, origin, old(view), Display(events, done, two))
    {
      Record(Own(Display(events, done, two)), Local(db.rows, view));
      if !done {
        var _ := inbound.Push(hand.value);
      }
      hand := None;
    }

    /** Somebody else commits a row. */
    method OthersInsert(row: Row)
      requires Linked() && Fits(db.rows, row) && row.origin != origin
      modifies this`view, db`rows
      ensures Linked() && view == old(view) && db.rows == old(db.rows) + [row]
    {
      Record(Other(row), Local(db.rows, view));
      db.rows := db.rows + [row];
    }

    /** Any number of steps of the game thread and of other servers. */
    method Interfere()
      requires Linked()
      modifies this`view, this`hand, db`rows, outbound, inbound
      ensures Linked() && WorkerSame(old(view), view)
      ensures old(db.rows) <= db.rows
    {
      var steps := Any();
      while steps > 0
        invariant Linked() && WorkerSame(old(view), view)
        invariant old(db.rows) <= db.rows
      {
        steps := steps - 1;
        OtherThreadSteps();
      }
    }

    method OtherThreadSteps()
      requires Linked()
      modifies this`view, this`hand, db`rows, outbound, inbound
      ensures Linked() && WorkerSame(old(view), view)
      ensures old(db.rows) <= db.rows
    {
      var kind := Any();
      if kind == 0 {
        var m: Message := *;
        GamePushes(m);
      } else if kind == 1 {
        if hand.None? && inbound.items != [] {
          GameDraws();
        }
      } else if kind == 2 {
        var events := Any();
        var done: bool, two: bool := *, *;
        if MayShow(hand, events, done, two) {
          GameAnswers(events, done, two);
        }
      } else {
        var row: Row := *;
        if Fits(db.rows, row) && row.origin != origin {
          OthersInsert(row);
        }
      }
    }

    // ----- the worker's statements

    method StopRequested() returns (stop: bool)
      modifies this`checksLeft
      ensures (stop <==> old(checksLeft) == 0) && (stop ==> checksLeft == 0)
      ensures !stop ==> checksLeft < old(checksLeft)
      ensures checksLeft <= old(checksLeft)
    {
      stop := checksLeft == 0;
      if !stop {
        checksLeft := checksLeft - 1;
      }
    }

    /** Connects and prepares the statements, unless that is done. */
    method EnsureConnected() returns (ok: bool)
      requires Valid()
      modifies this`view, this`hand, this`connected, this`cursorReady, this`backoffSec, db`rows, outbound, inbound
      ensures Valid() && ok == connected
      ensures old(connected) ==> ok && cursorReady == old(cursorReady)
      ensures !old(connected) ==> !cursorReady && (ok ==> backoffSec == 1)
    {
      hide ProtocolStates, BoundedQueue.Valid;
      if connected {
        return true;
      }
      Interfere();
      var up: bool := *;
      if !up {
        connected, cursorReady := false, false;
        return false;
      }
      Act(Connect);
      connected := true;
      backoffSec := 1;
      ok := true;
    }

    /** Drops the connection. */
    method MarkFailure()
      requires Linked() && (Losable(view.phase) || view.phase.Down?)
      modifies this`view, this`connected, this`cursorReady
      ensures Valid() && !connected
    {
      if !view.phase.Down? {
        Act(Lose);
      }
      connected, cursorReady := false, false;
    }

    /** `SELECT COALESCE(MAX(id), 0)`. */
    method ReadMaxId() returns (ok: bool, maxId: int, ghost seen: Table)
      requires Linked() && view.phase.Connected?
      modifies this`view, this`hand, db`rows, outbound, inbound
      ensures Linked() && view.polled == old(view.polled) && view.windows == old(view.windows)
      ensures old(db.rows) <= seen <= db.rows
      ensures ok ==> view.phase == MaxRead(maxId) && maxId == MaxId(seen)
      ensures IsLargestId(seen, MaxId(seen))
      ensures !ok ==> view.phase.Connected?
    {
      Interfere();
      seen := db.rows;
      TableIsOk();
      MaxIdIsLargest(seen);
      var read: bool := *;
      if !read {
        return false, 0, seen;
      }
      maxId := MaxId(db.rows);
      Act(ReadMax);
      ok := true;
    }

    /** The cursor row is written; a statement that fails may have been committed. */
    method StoreCursor(id: int) returns (ok: bool)
      modifies db`cursors
      ensures (ok ==> IsStored(id)) && (db.cursors == old(db.cursors) || IsStored(id))
    {
      var committed: bool := *;
      if committed {
        db.cursors := db.cursors[origin := id];
      }
      var answered: bool := *;
      ok := committed && answered;
    }

    /** Writes the cursor row for the first time on this connection. */
    method WriteFirstCursor(maxId: int) returns (ok: bool)
      requires Linked() && view.phase == MaxRead(maxId) && connected
      modifies this`view, this`hand, this`cursorReady, this`cursorId, db, outbound, inbound
      ensures Linked() && view.polled == old(view.polled) && old(db.rows) <= db.rows
      ensures ok ==> view.phase.Idle? && cursorReady && cursorId == maxId && IsStored(maxId)
      ensures !ok ==> db.cursors == old(db.cursors) || IsStored(maxId)
      ensures ok ==> view.windows == old(view.windows) + [Window(maxId, maxId)]
      ensures !ok ==> view.phase.MaxRead? && cursorReady == old(cursorReady) && view.windows == old(view.windows)
      ensures !ok ==> cursorId == old(cursorId)
    {
      hide BoundedQueue.Valid, ProtocolStates;
      Interfere();
      var written := StoreCursor(maxId);
      if !written {
        return false;
      }
      Record(Own(SetCursor), Local(db.rows, view));
      cursorId := maxId;
      cursorReady := true;
      ok := true;
    }

    /** Live only: the cursor jumps to MAX(id), so nothing committed before the connection is ever read. */
    method InitCursor() returns (ok: bool, ghost seen: Table)
      requires Linked() && view.phase.Connected? && connected && !cursorReady
      modifies this`view, this`hand, this`cursorReady, this`cursorId, db, outbound, inbound
      ensures Linked() && view.polled == old(view.polled) && old(db.rows) <= seen <= db.rows
      ensures ok ==> view.phase.Idle? && cursorReady && cursorId == MaxId(seen) && IsStored(cursorId)
      ensures IsLargestId(seen, MaxId(seen))
      ensures ok ==> view.windows == old(view.windows) + [Window(cursorId, cursorId)]
      ensures !ok ==> view.windows == old(view.windows) && Losable(view.phase) && cursorId == old(cursorId)
      ensures !ok ==> db.cursors == old(db.cursors) || IsStored(MaxId(seen))
    {
      var maxId;
      ok, maxId, seen := ReadMaxId();
      if ok {
        ok := WriteFirstCursor(maxId);
      }
    }

    /** INSERT with this server's origin. A failed INSERT has not committed. */
    method InsertOutbound(msg: Message) returns (ok: bool)
      requires Linked() && view.phase == Inserting(msg)
      modifies this`view, this`hand, db`rows, outbound, inbound
      ensures Linked() && view.polled == old(view.polled) && view.windows == old(view.windows)
      ensures view.outbound.taken == old(view.outbound.taken) && old(db.rows) <= db.rows
      ensures ok ==> view.phase.Idle? && view.failures == old(view.failures) && db.rows != []
      ensures ok ==> var row := db.rows[|db.rows| - 1];
                     row.origin == origin && row.message == msg && view.inserted == old(view.inserted) + [row]
      ensures !ok ==> view.phase == Requeueing(msg) && view.inserted == old(view.inserted)
    {
      hide BoundedQueue.Valid, ProtocolStates;
      Interfere();
      var executed: bool := *;
      if !executed {
        Act(InsertFails);
        return false;
      }
      var gap := Any();
      TableIsOk();
      CommitRow(MaxId(db.rows) + 1 + gap, msg);
      ok := true;
    }

    method CommitRow(id: int, msg: Message)
      requires Linked() && view.phase == Inserting(msg) && Fits(db.rows, Row(id, origin, msg))
      modifies this`view, db`rows
      ensures Linked() && view == AfterAction(old(db.rows), origin, old(view), Insert(id))
      ensures db.rows == old(db.rows) + [Row(id, origin, msg)]
    {
      Record(Own(Insert(id)), Local(db.rows, view));
      db.rows := db.rows + [Row(id, origin, msg)];
    }

    /** Takes the oldest outbound message. */
    method TakeOutbound() returns (item: Option<Message>)
      requires Linked() && view.phase.Idle?
      modifies this`view, outbound
      ensures Linked() && view.polled == old(view.polled) && view.windows == old(view.windows)
      ensures view.inserted == old(view.inserted)
      ensures item.None? ==> view == old(view) && outbound.items == []
      ensures item.Some? ==> view.phase == Inserting(item.value)
      ensures item.Some? ==> view.outbound.taken == old(view.outbound.taken) + [item.value]
    {
      if outbound.items == [] {
        item := outbound.TryPop();
      } else {
        Record(Own(Take), Local(db.rows, view));
        item := outbound.TryPop();
      }
    }

    /** A message whose INSERT failed goes back to the tail. */
    method PushBackOutbound(msg: Message)
      requires Linked() && view.phase == Requeueing(msg)
      modifies this`view, outbound
      ensures Linked() && view.phase.Down? && view.polled == old(view.polled) && view.windows == old(view.windows)
      ensures view.inserted == old(view.inserted) && view.outbound.taken == old(view.outbound.taken)
      ensures outbound.items != [] && outbound.items[|outbound.items| - 1] == msg
    {
      hide BoundedQueue.Valid, ProtocolStates;
      Record(Own(PushBack), Local(db.rows, view));
      var _ := outbound.Push(msg);
    }

    /**
      * Outbound messages become rows, in the order they are taken, until the queue is empty or the worker is to stop. A
      * message whose INSERT failed ends the drain and is the last of the queue again.
      */
    method DrainOutbound() returns (ok: bool, ghost sent: seq<Row>)
      requires Linked() && view.phase.Idle?
      modifies this`view, this`hand, this`checksLeft, db`rows, outbound, inbound
      ensures Linked() && view.polled == old(view.polled) && view.windows == old(view.windows)
      ensures checksLeft <= old(checksLeft)
      ensures view.phase == if ok then Idle else Down
      ensures view.inserted == old(view.inserted) + sent
      ensures ok ==> view.outbound.taken == old(view.outbound.taken) + Messages(sent) && (outbound.items == [] || checksLeft == 0)
      ensures !ok ==>
                && outbound.items != []
                && view.outbound.taken == old(view.outbound.taken) + Messages(sent) + [outbound.items[|outbound.items| - 1]]
    {
      hide Worker.Linked;
      sent := [];
      var stop := StopRequested();
      while !stop
        invariant Linked() && view.phase.Idle? && view.polled == old(view.polled) && view.windows == old(view.windows)
        invariant checksLeft <= old(checksLeft) && (stop ==> checksLeft == 0)
        invariant view.inserted == old(view.inserted) + sent
        invariant view.outbound.taken == old(view.outbound.taken) + Messages(sent)
        decreases checksLeft, !stop
      {
        var item := TakeOutbound();
        if item.None? {
          break;
        }
        var inserted := InsertOutbound(item.value);
        if !inserted {
          PushBackOutbound(item.value);
          return false, sent;
        }
        ghost var row := db.rows[|db.rows| - 1];
        MessagesStep(sent, row);
        sent := sent + [row];
        stop := StopRequested();
      }
      ok := true;
    }

    /** The page of the poll: the first rows of others after the cursor, as the table is when SELECT runs. */
    method SelectBatch() returns (ok: bool, batch: seq<Row>, ghost page: seq<Row>, ghost seen: Table)
      requires Linked() && view.phase.Idle?
      modifies this`view, this`hand, db`rows, outbound, inbound
      ensures Linked() && view.polled == old(view.polled) && view.windows == old(view.windows)
      ensures old(db.rows) <= seen <= db.rows
      ensures IsPage(seen, origin, cursorId, maxBatch, page)
      ensures ok ==> batch == page && view.phase == Fetching(batch)
      ensures !ok ==> view.phase.Idle? || view.phase.Fetching?
    {
      hide IsPage, Batch;
      Interfere();
      TableIsOk();
      seen := db.rows;
      page := Batch(db.rows, origin, cursorId, maxBatch);
      BatchIsPage(db.rows, origin, cursorId, maxBatch);
      var selected: bool := *;
      if !selected {
        return false, [], page, seen;
      }
      batch := Batch(db.rows, origin, cursorId, maxBatch);
      Act(Select);
      ok := *;
    }

    /** Writes the cursor row for a row that has just been pushed. */
    method UpdateCursor(newId: int) returns (ok: bool)
      requires Linked() && view.phase.Writing? && view.phase.row.id == newId
      modifies this`view, this`hand, this`cursorId, db, outbound, inbound
      ensures Linked() && view.polled == old(view.polled) && old(db.rows) <= db.rows
      ensures ok ==> cursorId == newId && IsStored(newId) && view.phase == Fetching(old(view.phase).rest)
      ensures !ok ==> cursorId == old(cursorId) && view.phase == old(view.phase)
    {
      hide BoundedQueue.Valid, ProtocolStates;
      Interfere();
      var written := StoreCursor(newId);
      if !written {
        return false;
      }
      Record(Own(WriteCursor), Local(db.rows, view));
      cursorId := newId;
      ok := true;
    }

    /** The push comes before the cursor write. */
    method PushInbound(row: Row)
      requires Linked() && view.phase.Fetching? && view.phase.batch != [] && view.phase.batch[0] == row
      modifies this`view, inbound
      ensures Linked() && view.polled == old(view.polled) + [row]
      ensures view.phase == Writing(row, old(view.phase).batch[1..])
    {
      Record(Own(PushRow), Local(db.rows, view));
      var _ := inbound.Push(row);
    }

    /**
      * One poll. When it succeeds, exactly one page was pushed: the rows of others between the old cursor and the new
      * one, which is on the last of them. When it fails, the rows before the failure were pushed, and the cursor is at
      * most one row behind.
      */
    method PollInbound() returns (ok: bool, ghost page: seq<Row>, ghost seen: Table)
      requires Linked() && view.phase.Idle?
      modifies this`view, this`hand, this`cursorId, db, outbound, inbound
      ensures Linked() && old(db.rows) <= seen <= db.rows
      ensures IsPage(seen, origin, old(cursorId), maxBatch, page) && |page| <= maxBatch
      ensures ok ==> view.phase.Idle? && view.polled == old(view.polled) + page
      ensures ok ==> cursorId == if page == [] then old(cursorId) else page[|page| - 1].id
      ensures ok ==> page == Between(seen, origin, old(cursorId), cursorId)
      ensures ok ==> |page| == maxBatch || forall r :: r in seen && r.origin != origin ==> r.id <= cursorId
      ensures ok ==> if page == [] then db.cursors == old(db.cursors) else IsStored(cursorId)
      ensures !ok ==> Losable(view.phase)
      ensures !ok ==> exists n: nat :: n <= |page| && view.polled == old(view.polled) + page[..n]
    {
      hide Worker.Linked, IsPage, Between;
      var batch;
      ok, batch, page, seen := SelectBatch();
      PageEnds(seen, origin, cursorId, maxBatch, page);
      if !ok {
        assert view.polled == old(view.polled) + page[..0];
        return;
      }
      ghost var n: nat := 0;
      var rest := batch;
      while true
        invariant Linked() && n <= |page| && rest == page[n..] && view.phase == Fetching(rest)
        invariant seen <= db.rows
        invariant view.polled == old(view.polled) + page[..n]
        invariant cursorId == if n == 0 then old(cursorId) else page[n - 1].id
        invariant if n == 0 then db.cursors == old(db.cursors) else IsStored(cursorId)
        decreases |rest|
      {
        var fetched: bool := *;
        if !fetched {
          return false, page, seen;
        }
        if rest == [] {
          break;
        }
        PushInbound(rest[0]);
        assert old(view.polled) + page[..n] + [page[n]] == old(view.polled) + page[..n + 1];
        n := n + 1;
        var written := UpdateCursor(rest[0].id);
        if !written {
          return false, page, seen;
        }
        rest := rest[1..];
      }
      Act(EndBatch);
      assert page[..n] == page;
      ok := true;
    }
  
    /** Waits, and tells whether to go on. */
    method SleepInterruptible() returns (goOn: bool)
      requires Valid()
      modifies this`view, this`hand, this`checksLeft, db`rows, outbound, inbound
      ensures Valid() && checksLeft <= old(checksLeft)
      ensures old(db.rows) <= db.rows && view.windows == old(view.windows) && view.polled == old(view.polled)
    {
      Interfere();
      var stop := StopRequested();
      goOn := !stop;
    }

    /** After a failure: wait, and double the wait up to its cap. */
    method BackOff() returns (goOn: bool)
      requires Valid()
      modifies this`view, this`hand, this`checksLeft, this`backoffSec, db`rows, outbound, inbound
      ensures Valid() && checksLeft <= old(checksLeft)
      ensures goOn ==> backoffSec == if 2 * old(backoffSec) < backoffCap then 2 * old(backoffSec) else backoffCap
    {
      goOn := SleepInterruptible();
      if goOn {
        backoffSec := if backoffSec * 2 < backoffCap then backoffSec * 2 else backoffCap;
      }
    }

    /** A poll, if one is due. */
    method PollWhenDue() returns (ok: bool)
      requires Linked() && view.phase.Idle?
      modifies this`view, this`hand, this`cursorId, db, outbound, inbound
      ensures Linked() && (if ok then view.phase.Idle? else Losable(view.phase))
      ensures ok && old(IsStored(cursorId)) ==> IsStored(cursorId)
    {
      var pollDue: bool := *;
      ok := true;
      if pollDue {
        ghost var page, seen;
        ok, page, seen := PollInbound();
      }
    }

    /** What a round does before it waits; a failure drops the connection. */
    method Work() returns (ok: bool)
      requires Valid()
      modifies this`view, this`hand, this`checksLeft, this`backoffSec, this`connected, this`cursorReady, this`cursorId
      modifies db, outbound, inbound
      ensures Valid() && checksLeft <= old(checksLeft) && (!ok ==> !connected)
    {
      hide BoundedQueue.Valid, ProtocolStates;
      ok := EnsureConnected();
      if !ok {
        return;
      }
      if !cursorReady {
        ghost var seen;
        ok, seen := InitCursor();
      }
      if ok {
        ghost var sent;
        ok, sent := DrainOutbound();
      }
      if ok {
        ok := PollWhenDue();
      }
      if !ok {
        MarkFailure();
      }
    }

    /** One round of the loop; false when the worker is to stop. */
    method Round() returns (goOn: bool)
      requires Valid()
      modifies this`view, this`hand, this`checksLeft, this`backoffSec, this`connected, this`cursorReady, this`cursorId
      modifies db, outbound, inbound
      ensures Valid() && checksLeft <= old(checksLeft)
    {
      var ok := Work();
      if ok {
        goOn := SleepInterruptible();
      } else {
        goOn := BackOff();
      }
    }

    /** The worker's thread, until the stop token says so. */
    method ThreadMain()
      requires Valid()
      modifies this`view, this`hand, this`checksLeft, this`backoffSec, this`connected, this`cursorReady, this`cursorId
      modifies db, outbound, inbound
      ensures Valid() && !connected
      ensures Local(db.rows, view) in reachable
    {
      var stop := StopRequested();
      while !stop
        invariant Valid()
        decreases checksLeft, !stop
      {
        var goOn := Round();
        if !goOn {
          break;
        }
        stop := StopRequested();
      }
      MarkFailure();
    }
  }

  lemma MaxIdIsLargest(t: Table)
    requires TableOk(t)
    ensures IsLargestId(t, MaxId(t))
  {
    IdsUpToMax(t);
    assert t != [] ==> t[|t| - 1] in t;
  }

  lemma PageEnds(t: Table, o: string, lo: int, limit: nat, page: seq<Row>)
    requires IsPage(t, o, lo, limit, page)
    ensures |page| <= limit && page == Between(t, o, lo, EndOf(page, lo))
    ensures |page| == limit || forall r :: r in t && r.origin != o ==> r.id <= EndOf(page, lo)
  {
  }

  /** The first rows beyond `lo` are those up to the last of them. */
  lemma {:induction false} FirstRowsAreBetween(t: Table, o: string, lo: int, n: nat)
    requires TableOk(t) && n <= |Beyond(t, o, lo)|
    ensures var rows := Beyond(t, o, lo)[..n];
            && lo <= EndOf(rows, lo) && rows == Between(t, o, lo, EndOf(rows, lo))
            && Beyond(t, o, EndOf(rows, lo)) == Beyond(t, o, lo)[n..]
    decreases n
  {
    if n == 0 {
      NothingBetween(t, o, lo, lo);
    } else {
      hide Between, Beyond;
      NextRow(t, o, lo);
      var all := Beyond(t, o, lo);
      var rest := all[1..][..n - 1];
      FirstRowsAreBetween(t, o, all[0].id, n - 1);
      assert all[..n] == [all[0]] + rest && all[1..][n - 1..] == all[n..];
      BetweenSplits(t, o, lo, all[0].id, EndOf(rest, all[0].id));
    }
  }

  lemma {:induction false} NoneAbove(t: Table, o: string, hi: int)
    requires Beyond(t, o, hi) == []
    ensures forall r :: r in t && r.origin != o ==> r.id <= hi
  {
    if t != [] {
      NoneAbove(t[..|t| - 1], o, hi);
    }
  }

  /** What the query answers is a page. */
  lemma BatchIsPage(t: Table, o: string, lo: int, limit: nat)
    requires TableOk(t)
    ensures IsPage(t, o, lo, limit, Batch(t, o, lo, limit))
  {
    var page, rows := Batch(t, o, lo, limit), Beyond(t, o, lo);
    assert page == rows[..|page|];
    FirstRowsAreBetween(t, o, lo, |page|);
    BetweenMeans(t, o, lo, EndOf(page, lo));
    if |page| < limit {
      NoneAbove(t, o, EndOf(page, lo));
    }
  }

  /** When the cursor stands below a visible row of another origin, a page is not empty and ends beyond the cursor. */
  lemma PageMovesCursor(t: Table, o: string, lo: int, limit: nat, r: Row)
    requires TableOk(t) && limit >= 1 && r in t && r.origin != o && lo < r.id
    ensures var page := Batch(t, o, lo, limit);
            page != [] && lo < page[|page| - 1].id && (|page| < limit ==> r.id <= page[|page| - 1].id)
  {
    BatchIsPage(t, o, lo, limit);
    var page := Batch(t, o, lo, limit);
    assert page != [] ==> page[|page| - 1] in page;
  }
}
