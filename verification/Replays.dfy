/**
  * One server's share of a run of the relay protocol: its own actions and the rows that others commit. Code that takes
  * part in the protocol keeps such a record; whatever is proved of runs then holds of it.
  */
module Replays {
  import opened Text
  import opened Relay
  import opened RelaySafety

  /** What one server sees of a protocol run: its own actions and the rows that others commit. */
  datatype Event = Own(action: Action) | Other(row: Row)

  datatype Local = Local(table: Table, server: Server)

  function Replay(o: string, first: Local, events: seq<Event>): Option<Local> {
    if events == [] then Some(first)
    else
      match Replay(o, first, events[..|events| - 1])
      case None => None
      case Some(l) => ReplayOne(o, l, events[|events| - 1])
  }

  function ReplayOne(o: string, l: Local, e: Event): Option<Local> {
    match e
    case Own(a) =>
      if Enabled(l.table, o, l.server, a)
      then Some(Local(TableAfter(l.table, o, l.server, a), AfterAction(l.table, o, l.server, a)))
      else None
    case Other(row) =>
      if Fits(l.table, row) && row.origin != o then Some(l.(table := l.table + [row])) else None
  }

  /** A server with nothing done yet. */
  ghost predicate IsStart(l: Local) {
    TableOk(l.table) && l.server.limit >= 1 && l.server == Relay.Fresh(l.server.limit)
  }

  ghost predicate LocalOk(o: string, l: Local) {
    TableOk(l.table) && ServerOk(l.table, o, l.server)
  }

  lemma EventKeeps(o: string, l: Local, e: Event)
    requires LocalOk(o, l) && ReplayOne(o, l, e).Some?
    ensures LocalOk(o, ReplayOne(o, l, e).value)
  {
    match e
    case Own(a) => ServerStepKeeps(l.table, o, l.server, a);
    case Other(row) => ServerOkGrows(l.table, row, o, l.server);
  }

  lemma {:induction false} ReplayKeeps(o: string, first: Local, events: seq<Event>, l: Local)
    requires LocalOk(o, first) && Replay(o, first, events) == Some(l)
    ensures LocalOk(o, l)
    decreases |events|
  {
    if events != [] {
      var before := Replay(o, first, events[..|events| - 1]).value;
      ReplayKeeps(o, first, events[..|events| - 1], before);
      EventKeeps(o, before, events[|events| - 1]);
    }
  }

  /** Everything the protocol can lead to. */
  ghost function Reachable(o: string, first: Local): iset<Local> {
    iset events: seq<Event> | Replay(o, first, events).Some? :: Replay(o, first, events).value
  }

  /** What is used of such a set: it is closed under protocol steps, and its states are sound. */
  ghost predicate ProtocolStates(o: string, states: iset<Local>) {
    && (forall l, e {:trigger ReplayOne(o, l, e)} ::
          l in states && ReplayOne(o, l, e).Some? ==> ReplayOne(o, l, e).value in states)
    && (forall l {:trigger LocalOk(o, l)} :: l in states ==> LocalOk(o, l))
  }

  lemma ReplayMore(o: string, first: Local, events: seq<Event>, e: Event)
    requires Replay(o, first, events).Some?
    ensures Replay(o, first, events + [e]) == ReplayOne(o, Replay(o, first, events).value, e)
  {
    assert (events + [e])[..|events|] == events;
  }

  lemma ReachableStep(o: string, first: Local, events: seq<Event>, l: Local, e: Event, next: Local)
    requires Replay(o, first, events) == Some(l) && ReplayOne(o, l, e) == Some(next)
    ensures next in Reachable(o, first)
  {
    ReplayMore(o, first, events, e);
  }

  lemma ReachableIsClosed(o: string, first: Local, l: Local, e: Event, next: Local)
    requires l in Reachable(o, first) && ReplayOne(o, l, e) == Some(next)
    ensures next in Reachable(o, first)
  {
    var events :| Replay(o, first, events) == Some(l);
    ReachableStep(o, first, events, l, e, next);
  }

  lemma ReachableIsSound(o: string, first: Local, l: Local)
    requires LocalOk(o, first) && l in Reachable(o, first)
    ensures LocalOk(o, l)
  {
    var events :| Replay(o, first, events) == Some(l);
    ReplayKeeps(o, first, events, l);
  }

  lemma ReachableIsProtocol(o: string, first: Local)
    requires LocalOk(o, first)
    ensures first in Reachable(o, first) && ProtocolStates(o, Reachable(o, first))
  {
    var states := Reachable(o, first);
    assert first in states by {
      assert Replay(o, first, []) == Some(first);
    }
    forall l, e | l in states && ReplayOne(o, l, e).Some?
      ensures ReplayOne(o, l, e).value in states
    {
      ReachableIsClosed(o, first, l, e, ReplayOne(o, l, e).value);
    }
    forall l | l in states
      ensures LocalOk(o, l)
    {
      ReachableIsSound(o, first, l);
    }
  }

  // ----- what one server goes through is a run of the system

  function StepOf(o: string, e: Event): Step {
    match e
    case Own(a) => At(o, a)
    case Other(row) => Outside(row)
  }

  function Alone(o: string, l: Local): System {
    System(l.table, map[o := l.server])
  }

  lemma {:induction false} RunSnoc(first: System, steps: seq<Step>, last: System, step: Step)
    requires IsRun(first, steps, last) && CanStep(last, step)
    ensures IsRun(first, steps + [step], Next(last, step))
    decreases |steps|
  {
    if steps == [] {
      assert (steps + [step])[1..] == [];
    } else {
      RunSnoc(Next(first, steps[0]), steps[1..], last, step);
      assert (steps + [step])[1..] == steps[1..] + [step];
    }
  }

  lemma EventIsStep(o: string, l: Local, e: Event, next: Local)
    requires ReplayOne(o, l, e) == Some(next)
    ensures CanStep(Alone(o, l), StepOf(o, e)) && Next(Alone(o, l), StepOf(o, e)) == Alone(o, next)
  {
  }

  /** What one server went through is a run of the protocol with this server and whoever else writes the table. */
  lemma {:induction false} ReplayIsRun(o: string, first: Local, events: seq<Event>, l: Local)
    requires Replay(o, first, events) == Some(l)
    ensures IsRun(Alone(o, first), seq(|events|, i requires 0 <= i < |events| => StepOf(o, events[i])), Alone(o, l))
    decreases |events|
  {
    if events != [] {
      var n := |events| - 1;
      var before := Replay(o, first, events[..n]).value;
      ReplayIsRun(o, first, events[..n], before);
      EventIsStep(o, before, events[n], l);
      var steps := seq(n, i requires 0 <= i < n => StepOf(o, events[..n][i]));
      RunSnoc(Alone(o, first), steps, Alone(o, before), StepOf(o, events[n]));
      assert steps + [StepOf(o, events[n])] == seq(|events|, i requires 0 <= i < |events| => StepOf(o, events[i]));
    }
  }

  /** So every theorem about protocol runs from a start holds of every state that is reached. */
  lemma ReachedInAProtocolRun(o: string, first: Local, l: Local)
    requires IsStart(first) && l in Reachable(o, first)
    ensures Start(Alone(o, first)) && exists steps :: IsRun(Alone(o, first), steps, Alone(o, l))
  {
    var events :| Replay(o, first, events) == Some(l);
    ReplayIsRun(o, first, events, l);
  }
}
