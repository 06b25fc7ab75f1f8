/**
  * The relay protocol: any number of servers around one append-only message table. Each server is a worker that may
  * lose its connection at every statement, and a game thread that shares two queues with it. The steps of all
  * servers, and of writers outside, interleave freely.
  */
module Relay {
  import opened Text
  import opened Queues

  datatype Message = Message(sender: string, senderId: string, guild: string, text: string)

  /** A row of `crosschat_messages`, and the struct the inbound queue carries. */
  datatype Row = Row(id: int, origin: string, message: Message)

  type Table = seq<Row>

  /** Ids are positive and increase in the order the rows became visible. */
  ghost predicate TableOk(t: Table) {
    && (forall i, j :: 0 <= i < j < |t| ==> t[i].id < t[j].id)
    && (forall i :: 0 <= i < |t| ==> 0 < t[i].id)
  }

  /** `SELECT COALESCE(MAX(id), 0)`. */
  function MaxId(t: Table): int {
    if t == [] then 0 else t[|t| - 1].id
  }

  /** A row that may be committed next. */
  predicate Fits(t: Table, r: Row) {
    MaxId(t) < r.id && 0 < r.id
  }

  /** The row, if it is one of others with an id above `lo` and up to `hi`. */
  function Within(r: Row, o: string, lo: int, hi: int): seq<Row> {
    if lo < r.id <= hi && r.origin != o then [r] else []
  }

  /** The rows of others with an id above `lo` and up to `hi`, in table order. */
  function Between(t: Table, o: string, lo: int, hi: int): seq<Row> {
    if t == [] then [] else Between(t[..|t| - 1], o, lo, hi) + Within(t[|t| - 1], o, lo, hi)
  }

  /** `WHERE id > lo AND origin != o ORDER BY id`. */
  function Beyond(t: Table, o: string, lo: int): seq<Row> {
    if t == [] then []
    else
      var r := t[|t| - 1];
      Beyond(t[..|t| - 1], o, lo) + (if lo < r.id && r.origin != o then [r] else [])
  }

  /** ... `LIMIT limit`. */
  function Batch(t: Table, o: string, lo: int, limit: nat): seq<Row> {
    var rows := Beyond(t, o, lo);
    if |rows| <= limit then rows else rows[..limit]
  }

  /** Where a worker is in its loop. */
  datatype Phase =
    | Down                                        // no connection
    | Connected                                   // connected, cursor not set
    | MaxRead(maxId: int)                         // MAX(id) read, cursor row not written
    | Idle                                        // cursor set, between statements
    | Inserting(message: Message)                 // popped, INSERT not answered
    | Requeueing(message: Message)                // INSERT failed, not pushed back yet
    | Fetching(batch: seq<Row>)                   // result of SELECT, rows still to take
    | Writing(row: Row, rest: seq<Row>)           // row pushed, cursor not written

  /** What a connection has covered: the ids above `lo`, where its cursor started, up to `hi`. */
  datatype Window = Window(lo: int, hi: int)

  /**
    * The game-thread end of the inbound queue. `split` are rows that were once to be shown in two broadcasts; `retries`
    * counts the rows put back.
    */
  datatype Inbox = Inbox(
    queue: Queue<Row>, hand: Option<Row>, finished: seq<Row>, shown: seq<Row>, split: set<Row>, retries: nat)

  datatype Server = Server(
    limit: nat, phase: Phase, cursor: int, outbound: Queue<Message>, inbox: Inbox,
    polled: seq<Row>, windows: seq<Window>, typed: seq<Message>, inserted: seq<Row>, failures: nat)

  datatype Action =
    | Type(message: Message)                      // game thread: push on the outbound queue
    | Draw                                        // game thread: pop the inbound queue
    | Display(events: nat, done: bool, two: bool) // game thread: BroadcastOne made `events` calls and answered
    | Connect
    | ReadMax
    | SetCursor
    | Lose                                        // a statement failed
    | Take                                        // pop the outbound queue
    | Insert(id: int)
    | InsertFails
    | PushBack
    | Select
    | PushRow
    | WriteCursor
    | EndBatch

  /**
    * What one attempt to show a row may do: one BroadcastChatMessage, two if the line is split between Xbox players and
    * the others, and one less when it is to be tried again, because a call was not ready.
    */
  predicate ShowsOnce(events: nat, done: bool, two: bool) {
    events + (if done then 0 else 1) <= if two then 2 else 1
  }

  /** ... and the line is split only for a sender on the local roster, which needs a sender id. */
  predicate MayShow(hand: Option<Row>, events: nat, done: bool, two: bool) {
    && hand.Some?
    && ShowsOnce(events, done, two)
    && (two ==> hand.value.message.senderId != "")
  }

  predicate Enabled(t: Table, o: string, s: Server, a: Action) {
    match a
    case Type(_) => true
    case Draw => s.inbox.hand.None? && s.inbox.queue.items != []
    case Display(events, done, two) => MayShow(s.inbox.hand, events, done, two)
    case Connect => s.phase.Down?
    case ReadMax => s.phase.Connected?
    case SetCursor => s.phase.MaxRead?
    case Lose => s.phase.Connected? || s.phase.MaxRead? || s.phase.Idle? || s.phase.Fetching? || s.phase.Writing?
    case Take => s.phase.Idle? && s.outbound.items != []
    case Insert(id) => s.phase.Inserting? && Fits(t, Row(id, o, s.phase.message))
    case InsertFails => s.phase.Inserting?
    case PushBack => s.phase.Requeueing?
    case Select => s.phase.Idle?
    case PushRow => s.phase.Fetching? && s.phase.batch != []
    case WriteCursor => s.phase.Writing?
    case EndBatch => s.phase.Fetching? && s.phase.batch == []
  }

  function Copies(r: Row, n: nat): seq<Row> {
    if n == 0 then [] else Copies(r, n - 1) + [r]
  }

  function AfterDisplay(i: Inbox, events: nat, done: bool, two: bool): Inbox
    requires i.hand.Some?
  {
    var r := i.hand.value;
    var j := i.(hand := None, shown := i.shown + Copies(r, events),
                split := i.split + (if two then {r} else {}));
    if done then j.(finished := i.finished + [r]) else j.(queue := i.queue.Push(r, QUEUE_MAX), retries := i.retries + 1)
  }

  function Extended(windows: seq<Window>, hi: int): seq<Window> {
    if windows == [] then [] else windows[..|windows| - 1] + [windows[|windows| - 1].(hi := hi)]
  }

  function AfterAction(t: Table, o: string, s: Server, a: Action): Server
    requires Enabled(t, o, s, a)
  {
    match a
    case Type(m) => s.(outbound := s.outbound.Push(m, QUEUE_MAX), typed := s.typed + [m])
    case Draw => s.(inbox := s.inbox.(hand := Some(s.inbox.queue.items[0]), queue := s.inbox.queue.Pop()))
    case Display(events, done, two) => s.(inbox := AfterDisplay(s.inbox, events, done, two))
    case Connect => s.(phase := Connected)
    case ReadMax => s.(phase := MaxRead(MaxId(t)))
    case SetCursor =>
      s.(phase := Idle, cursor := s.phase.maxId, windows := s.windows + [Window(s.phase.maxId, s.phase.maxId)])
    case Lose => s.(phase := Down)
    case Take => s.(phase := Inserting(s.outbound.items[0]), outbound := s.outbound.Pop())
    case Insert(id) => s.(phase := Idle, inserted := s.inserted + [Row(id, o, s.phase.message)])
    case InsertFails => s.(phase := Requeueing(s.phase.message), failures := s.failures + 1)
    case PushBack => s.(phase := Down, outbound := s.outbound.Push(s.phase.message, QUEUE_MAX))
    case Select => s.(phase := Fetching(Batch(t, o, s.cursor, s.limit)))
    case PushRow =>
      var r := s.phase.batch[0];
      s.(phase := Writing(r, s.phase.batch[1..]), polled := s.polled + [r],
         inbox := s.inbox.(queue := s.inbox.queue.Push(r, QUEUE_MAX)), windows := Extended(s.windows, r.id))
    case WriteCursor => s.(phase := Fetching(s.phase.rest), cursor := s.phase.row.id)
    case EndBatch => s.(phase := Idle)
  }

  function TableAfter(t: Table, o: string, s: Server, a: Action): Table
    requires Enabled(t, o, s, a)
  {
    if a.Insert? then t + [Row(a.id, o, s.phase.message)] else t
  }

  function Fresh(limit: nat): Server {
    Server(limit, Down, -1, Empty(), Inbox(Empty(), None, [], [], {}, 0), [], [], [], [], 0)
  }

  // ----- all servers together

  datatype System = System(table: Table, servers: map<string, Server>)

  datatype Step =
    | Outside(row: Row)                           // the Discord bot, or a server not in the system
    | At(origin: string, action: Action)

  predicate CanStep(s: System, step: Step) {
    match step
    case Outside(row) => row.origin !in s.servers && Fits(s.table, row)
    case At(o, a) => o in s.servers && Enabled(s.table, o, s.servers[o], a)
  }

  function Next(s: System, step: Step): System
    requires CanStep(s, step)
  {
    match step
    case Outside(row) => s.(table := s.table + [row])
    case At(o, a) =>
      System(TableAfter(s.table, o, s.servers[o], a),
             s.servers[o := AfterAction(s.table, o, s.servers[o], a)])
  }

  ghost predicate IsRun(first: System, steps: seq<Step>, last: System)
    decreases |steps|
  {
    if steps == [] then first == last
    else CanStep(first, steps[0]) && IsRun(Next(first, steps[0]), steps[1..], last)
  }

  /** Processes start with nothing done; the table may hold anything from before. */
  ghost predicate Start(s: System) {
    TableOk(s.table) && forall o :: o in s.servers ==> s.servers[o].limit >= 1 && s.servers[o] == Fresh(s.servers[o].limit)
  }
}
