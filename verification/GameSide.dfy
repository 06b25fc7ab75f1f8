/**
  * The game thread's ends of the two queues. Before every access the worker of this server and everybody else may have
  * done anything the protocol lets them do; the protocol state is kept beside the queues.
  */
module GameSide {
  import opened Text
  import opened Queues
  import opened Relay
  import opened RelaySafety
  import opened Replays

  /** What only the game thread changes. */
  datatype GamePart = GamePart(
    typed: seq<Message>, hand: Option<Row>, finished: seq<Row>, shown: seq<Row>, split: set<Row>, taken: seq<Row>)

  function PartOf(s: Server): GamePart {
    GamePart(s.typed, s.inbox.hand, s.inbox.finished, s.inbox.shown, s.inbox.split, s.inbox.queue.taken)
  }

  /** Not the game thread's doing. */
  predicate IsOthers(e: Event) {
    match e
    case Own(a) => !a.Type? && !a.Draw? && !a.Display?
    case Other(_) => true
  }

  lemma OthersSparePart(o: string, l: Local, e: Event)
    requires IsOthers(e) && ReplayOne(o, l, e).Some?
    ensures PartOf(ReplayOne(o, l, e).value.server) == PartOf(l.server)
  {
  }

  /** The two records agree on everything that decides what others may do. */
  predicate SameOutside(l: Local, m: Local) {
    && l.table == m.table && l.server.phase == m.server.phase && l.server.cursor == m.server.cursor
    && l.server.limit == m.server.limit && l.server.outbound.items == m.server.outbound.items
  }

  lemma OutsideDecides(o: string, l: Local, m: Local, e: Event)
    requires SameOutside(l, m) && (IsOthers(e) || (e.Own? && e.action.Type?))
    ensures ReplayOne(o, l, e).Some? <==> ReplayOne(o, m, e).Some?
    ensures ReplayOne(o, l, e).Some? ==> SameOutside(ReplayOne(o, l, e).value, ReplayOne(o, m, e).value)
  {
  }

  lemma GameActionsStayInside(o: string, l: Local, m: Local, a: Action)
    requires SameOutside(l, m) && (a.Draw? || a.Display?) && ReplayOne(o, m, Own(a)).Some?
    ensures SameOutside(l, ReplayOne(o, m, Own(a)).value)
  {
  }

  /** What an answer adds: the calls, the row if it is done with, and whether it was split. */
  function Answered(p: GamePart, r: Row, events: nat, done: bool, two: bool): GamePart {
    p.(hand := None, shown := p.shown + Copies(r, events), split := p.split + (if two then {r} else {}),
       finished := if done then p.finished + [r] else p.finished)
  }

  lemma AnswerIsDisplay(o: string, l: Local, r: Row, events: nat, done: bool, two: bool)
    requires l.server.inbox.hand == Some(r) && MayShow(Some(r), events, done, two)
    ensures var next := ReplayOne(o, l, Own(Display(events, done, two)));
            && next.Some?
            && PartOf(next.value.server) == Answered(PartOf(l.server), r, events, done, two)
            && next.value.server.outbound == l.server.outbound
            && next.value.server.inbox.queue == if done then l.server.inbox.queue else l.server.inbox.queue.Push(r, QUEUE_MAX)
  {
  }

  lemma TakePops(o: string, l: Local)
    requires ReplayOne(o, l, Own(Take)).Some?
    ensures var next := ReplayOne(o, l, Own(Take)).value;
            && next.server.outbound == l.server.outbound.Pop() && l.server.outbound.items != []
            && next.server.inbox == l.server.inbox && next.table == l.table && PartOf(next.server) == PartOf(l.server)
  {
  }

  lemma PutBackPushes(o: string, l: Local)
    requires ReplayOne(o, l, Own(PushBack)).Some?
    ensures var next := ReplayOne(o, l, Own(PushBack)).value;
            && l.server.phase.Requeueing? && next.server.outbound == l.server.outbound.Push(l.server.phase.message, QUEUE_MAX)
            && next.server.inbox == l.server.inbox && next.table == l.table && PartOf(next.server) == PartOf(l.server)
  {
  }

  lemma RowIsPushed(o: string, l: Local)
    requires ReplayOne(o, l, Own(PushRow)).Some?
    ensures var next := ReplayOne(o, l, Own(PushRow)).value;
            && l.server.phase.Fetching? && l.server.phase.batch != []
            && next.server.inbox == l.server.inbox.(queue := l.server.inbox.queue.Push(l.server.phase.batch[0], QUEUE_MAX))
            && next.server.outbound == l.server.outbound && next.table == l.table && PartOf(next.server) == PartOf(l.server)
  {
  }

  lemma TypePushes(o: string, l: Local, m: Message)
    ensures var next := ReplayOne(o, l, Own(Action.Type(m)));
            && next.Some?
            && next.value.server.outbound == l.server.outbound.Push(m, QUEUE_MAX)
            && next.value.server.inbox == l.server.inbox && next.value.table == l.table
            && PartOf(next.value.server) == PartOf(l.server).(typed := l.server.typed + [m])
  {
  }

  lemma DrawPops(o: string, l: Local)
    requires l.server.inbox.hand.None? && l.server.inbox.queue.items != []
    ensures var next := ReplayOne(o, l, Own(Action.Draw));
            var r := l.server.inbox.queue.items[0];
            && next.Some?
            && next.value.server.inbox.queue == l.server.inbox.queue.Pop()
            && next.value.server.outbound == l.server.outbound && next.value.table == l.table
            && PartOf(next.value.server) == PartOf(l.server).(hand := Some(r), taken := l.server.inbox.queue.taken + [r])
  {
  }

  class Ends {
    const origin: string
    const outbound: BoundedQueue<Message>
    const inbound: BoundedQueue<Row>
    /** The row popped and not answered yet. */
    var hand: Option<Row>
    /** The table, and where the worker is. */
    var outer: Local
    /** The table, and this server as the protocol has it; and what of it is the game thread's. */
    ghost var local: Local
    ghost var typed: seq<Message>
    ghost var finished: seq<Row>
    ghost var shown: seq<Row>
    ghost var split: set<Row>
    ghost var taken: seq<Row>
    ghost const first: Local
    ghost const reachable: iset<Local>

    ghost predicate Linked()
      reads this, outbound, inbound
    {
      && outbound as object != inbound as object
      && outbound.Valid() && outbound.max == QUEUE_MAX && outbound.history == local.server.outbound
      && inbound.Valid() && inbound.max == QUEUE_MAX && inbound.history == local.server.inbox.queue
      && PartOf(local.server) == Part()
      && SameOutside(outer, local)
      && ProtocolStates(origin, reachable) && local in reachable
    }

    /** The states that the books keep to are those some run of the protocol leads to from a start. */
    ghost predicate FromStart() {
      IsStart(first) && reachable == Reachable(origin, first)
    }

    ghost function Part(): GamePart
      reads `typed, `hand, `finished, `shown, `split, `taken
    {
      GamePart(typed, hand, finished, shown, split, taken)
    }

    constructor (origin: string, limit: nat, table: Table, outbound: BoundedQueue<Message>, inbound: BoundedQueue<Row>)
      requires limit >= 1 && TableOk(table) && outbound as object != inbound as object
      requires outbound.Valid() && outbound.max == QUEUE_MAX && outbound.history == Empty()
      requires inbound.Valid() && inbound.max == QUEUE_MAX && inbound.history == Empty()
      ensures Linked() && FromStart() && local == first == Local(table, Relay.Fresh(limit))
      ensures Part() == GamePart([], None, [], [], {}, [])
      ensures this.origin == origin && this.outbound == outbound && this.inbound == inbound
    {
      ghost var start := Local(table, Relay.Fresh(limit));
      FreshIsOk(table, origin, limit);
      ReachableIsProtocol(origin, start);
      this.origin, this.outbound, this.inbound := origin, outbound, inbound;
      hand, outer := None, Local(table, Relay.Fresh(limit));
      typed, finished, shown, split, taken := [], [], [], {}, [];
      local, first, reachable := start, start, Reachable(origin, start);
    }

    /** The protocol is where this event leads. */
    ghost method Record(e: Event)
      requires ProtocolStates(origin, reachable) && local in reachable && ReplayOne(origin, local, e).Some?
      modifies `local
      ensures local == ReplayOne(origin, old(local), e).value && local in reachable
    {
      local := ReplayOne(origin, local, e).value;
    }

    // ----- the others

    /** The worker takes a message. */
    method WorkerTakes()
      requires Linked() && ReplayOne(origin, outer, Own(Take)).Some?
      modifies `local, `outer, outbound
      ensures Linked()
    {
      OutsideDecides(origin, outer, local, Own(Take));
      TakePops(origin, local);
      Record(Own(Take));
      outer := ReplayOne(origin, outer, Own(Take)).value;
      var item := outbound.TryPop();
    }

    /** The worker puts a message back. */
    method WorkerPutsBack()
      requires Linked() && ReplayOne(origin, outer, Own(PushBack)).Some?
      modifies `local, `outer, outbound
      ensures Linked()
    {
      OutsideDecides(origin, outer, local, Own(PushBack));
      PutBackPushes(origin, local);
      Record(Own(PushBack));
      var pushed := outbound.Push(outer.server.phase.message);
      outer := ReplayOne(origin, outer, Own(PushBack)).value;
    }

    /** The worker pushes a row. */
    method WorkerPushesRow()
      requires Linked() && ReplayOne(origin, outer, Own(PushRow)).Some?
      modifies `local, `outer, inbound
      ensures Linked()
    {
      OutsideDecides(origin, outer, local, Own(PushRow));
      RowIsPushed(origin, local);
      Record(Own(PushRow));
      var pushed := inbound.Push(outer.server.phase.batch[0]);
      outer := ReplayOne(origin, outer, Own(PushRow)).value;
    }

    /** Any other step of the worker or of somebody else. */
    method OthersStep(e: Event)
      requires Linked() && IsOthers(e) && ReplayOne(origin, outer, e).Some?
      requires e != Own(Take) && e != Own(PushBack) && e != Own(PushRow)
      modifies `local, `outer
      ensures Linked()
    {
      OutsideDecides(origin, outer, local, e);
      OthersSparePart(origin, local, e);
      Record(e);
      outer := ReplayOne(origin, outer, e).value;
    }

    method AnyOtherStep()
      requires Linked()
      modifies `local, `outer, outbound, inbound
      ensures Linked()
    {
      var e: Event := *;
      if IsOthers(e) && ReplayOne(origin, outer, e).Some? {
        if e == Own(Take) {
          WorkerTakes();
        } else if e == Own(PushBack) {
          WorkerPutsBack();
        } else if e == Own(PushRow) {
          WorkerPushesRow();
        } else {
          OthersStep(e);
        }
      }
    }

    /** Anything the worker and the others may do in the meantime. */
    method Interfere()
      requires Linked()
      modifies `local, `outer, outbound, inbound
      ensures Linked()
    {
      var left: int := *;
      while left > 0
        invariant Linked()
      {
        AnyOtherStep();
        left := left - 1;
      }
    }

    // ----- the game thread

    /** A chat line for the other servers. */
    method Type(m: Message)
      requires Linked()
      modifies `typed, `local, `outer, outbound, inbound
      ensures Linked() && typed == old(typed) + [m]
    {
      Interfere();
      var e := Own(Action.Type(m));
      OutsideDecides(origin, outer, local, e);
      TypePushes(origin, local, m);
      Record(e);
      outer := ReplayOne(origin, outer, e).value;
      var pushed := outbound.Push(m);
      typed := typed + [m];
    }

    /** The next row to show, if there is one. */
    method Draw() returns (item: Option<Row>)
      requires Linked() && hand.None?
      modifies `hand, `taken, `local, `outer, outbound, inbound
      ensures Linked() && hand == item && taken == if item.None? then old(taken) else old(taken) + [item.value]
      ensures item.None? ==> inbound.items == []
    {
      Interfere();
      if inbound.items == [] {
        return None;
      }
      DrawPops(origin, local);
      GameActionsStayInside(origin, outer, local, Action.Draw);
      Record(Own(Action.Draw));
      item := inbound.TryPop();
      hand, taken := item, taken + [item.value];
    }

    /** The row in hand was shown in so many calls; it goes back to the queue if it is to be tried again. */
    method Answer(ghost events: nat, done: bool, ghost two: bool)
      requires Linked() && MayShow(hand, events, done, two)
      modifies `hand, `finished, `shown, `split, `local, `outer, outbound, inbound
      ensures Linked() && hand.None? && Part() == Answered(old(Part()), old(hand).value, events, done, two)
    {
      hide BoundedQueue.Valid, ProtocolStates, Copies;
      Interfere();
      ghost var e := Display(events, done, two);
      AnswerIsDisplay(origin, local, hand.value, events, done, two);
      GameActionsStayInside(origin, outer, local, e);
      Record(Own(e));
      if !done {
        var pushed := inbound.Push(hand.value);
      }
      shown, split := shown + Copies(hand.value, events), split + (if two then {hand.value} else {});
      finished := if done then finished + [hand.value] else finished;
      hand := None;
    }

    // ----- what the protocol promises the game thread

    /** What the protocol has seen is what a run of it leads to from a start. */
    lemma RunsTheProtocol()
      requires Linked() && FromStart()
      ensures Start(Alone(origin, first)) && exists steps :: IsRun(Alone(origin, first), steps, Alone(origin, local))
    {
      ReachedInAProtocolRun(origin, first, local);
    }

    /** If every row drawn is finished, rows were drawn in the order of their ids. */
    lemma FinishedInOrder()
      requires Linked() && hand.None? && |taken| == |finished|
      ensures Increasing(taken)
    {
      assert LocalOk(origin, local);
      DrawnInIdOrder(local.table, origin, local.server);
    }

    /** No row is finished twice. */
    lemma RowFinishedOnce(r: Row)
      requires Linked()
      ensures multiset(finished)[r] <= 1
    {
      assert LocalOk(origin, local);
      FinishedOnce(local.table, origin, local.server, r);
    }

    /** A row that was never split has been shown at most once. */
    lemma NotSplitOnce(r: Row)
      requires Linked() && r !in split
      ensures multiset(shown)[r] <= 1
    {
      assert LocalOk(origin, local);
      NotSplitShownOnce(local.table, origin, local.server, r);
    }

    /** Every row this server inserts carries a message the game thread handed over. */
    lemma InsertedWasHandedOver(r: Row)
      requires Linked() && r in local.server.inserted
      ensures r.origin == origin && r.message in typed
    {
      assert LocalOk(origin, local);
      InsertedIsTyped(local.table, origin, local.server, r);
    }
  }
}
