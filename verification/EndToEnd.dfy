/** What the parts give together, from the table to the screens of all servers. */
module EndToEnd {
  import opened Text
  import opened Guids
  import opened Relay
  import opened RelaySafety
  import opened Delivery
  import Replays

  // ----- rows without a sender

  /** Rows are split between Xbox players and others only if they name their sender. */
  ghost predicate SplitHaveSenders(i: Inbox) {
    forall r :: r in i.split ==> r.message.senderId != ""
  }

  ghost predicate AllSplitHaveSenders(s: System) {
    forall o :: o in s.servers ==> SplitHaveSenders(s.servers[o].inbox)
  }

  lemma StepKeepsSenders(s: System, step: Step)
    requires AllSplitHaveSenders(s) && CanStep(s, step)
    ensures AllSplitHaveSenders(Next(s, step))
  {
    if step.At? {
      var server := s.servers[step.origin];
      assert SplitHaveSenders(server.inbox);
      assert SplitHaveSenders(AfterAction(s.table, step.origin, server, step.action).inbox);
    }
  }

  lemma {:induction false} RunKeepsSenders(first: System, steps: seq<Step>, last: System)
    requires AllSplitHaveSenders(first) && IsRun(first, steps, last)
    ensures AllSplitHaveSenders(last)
    decreases |steps|
  {
    if steps != [] {
      StepKeepsSenders(first, steps[0]);
      RunKeepsSenders(Next(first, steps[0]), steps[1..], last);
    }
  }

  /**
    * End to end, at most once: a row without a sender id, as every row from Discord, is broadcast at most once on each
    * server over the whole run of all servers, across failed polls, reconnects and any number of tries.
    */
  lemma NoSenderShownAtMostOnce(first: System, steps: seq<Step>, last: System, o: string, r: Row)
    requires Start(first) && IsRun(first, steps, last) && o in last.servers && r.message.senderId == ""
    ensures multiset(last.servers[o].inbox.shown)[r] <= 1
  {
    assert AllSplitHaveSenders(first);
    RunKeepsSenders(first, steps, last);
    assert SplitHaveSenders(last.servers[o].inbox);
    ShownAtMostOnce(first, steps, last, o, r);
  }

  // ----- rows of players who are here

  const HALF := Display(1, false, true)

  /** The row waits in the inbound queue, alone. */
  predicate Waits(s: System, o: string, r: Row) {
    o in s.servers && s.servers[o].inbox.hand.None? && s.servers[o].inbox.queue.items == [r]
  }

  /** One of the two lines is shown, the other is not ready, and the row waits again. */
  lemma ShownHalf(s: System, o: string, r: Row) returns (next: System)
    requires Waits(s, o, r) && r.message.senderId != ""
    ensures CanStep(s, At(o, Draw)) && CanStep(Next(s, At(o, Draw)), At(o, HALF))
    ensures next == Next(Next(s, At(o, Draw)), At(o, HALF)) && Waits(next, o, r)
    ensures next.servers[o].inbox.shown == s.servers[o].inbox.shown + [r]
  {
    var drawn := Next(s, At(o, Draw));
    assert drawn.servers[o].inbox.hand == Some(r) && drawn.servers[o].inbox.queue.items == [];
    assert Copies(r, 1) == [r];
    next := Next(drawn, At(o, HALF));
  }

  /** All attempts in a run went this way. */
  ghost predicate AttemptsAre(steps: seq<Step>, a: Action) {
    forall i :: 0 <= i < |steps| && steps[i].At? && steps[i].action.Display? ==> steps[i].action == a
  }

  function Alone(t: Table, o: string, server: Server): System {
    Replays.Alone(o, Replays.Local(t, server))
  }

  lemma AndThen(first: System, steps: seq<Step>, s: System, step: Step, next: System)
    requires IsRun(first, steps, s) && CanStep(s, step) && next == Next(s, step) && AttemptsAre(steps, HALF)
    requires step.At? && step.action.Display? ==> step.action == HALF
    ensures IsRun(first, steps + [step], next) && AttemptsAre(steps + [step], HALF)
  {
    Replays.RunSnoc(first, steps, s, step);
  }

  const CONNECTED := Fresh(1).(phase := Idle, cursor := 0, windows := [Window(0, 0)])

  /** A server starts on an empty table. */
  lemma Connects(o: string) returns (steps: seq<Step>)
    ensures IsRun(Alone([], o, Fresh(1)), steps, Alone([], o, CONNECTED)) && AttemptsAre(steps, HALF)
  {
    var first, s1, s2 := Fresh(1), Fresh(1).(phase := Connected), Fresh(1).(phase := MaxRead(0));
    AndThen(Alone([], o, first), [], Alone([], o, first), At(o, Connect), Alone([], o, s1));
    AndThen(Alone([], o, first), [] + [At(o, Connect)], Alone([], o, s1), At(o, ReadMax), Alone([], o, s2));
    steps := [] + [At(o, Connect)] + [At(o, ReadMax)];
    assert [] + [Window(0, 0)] == [Window(0, 0)];
    AndThen(Alone([], o, first), steps, Alone([], o, s2), At(o, SetCursor), Alone([], o, CONNECTED));
    steps := steps + [At(o, SetCursor)];
  }

  lemma OneRow(o: string, r: Row)
    requires r.origin != o && 0 < r.id
    ensures Batch([r], o, 0, 1) == [r] && [] + [r] == [r]
  {
    assert [r][..0] == [];
    assert Beyond([], o, 0) == [];
  }

  /** Then somebody posts the row, and the poll brings it. */
  lemma RowArrives(o: string, r: Row) returns (steps: seq<Step>, s: System)
    requires r.origin != o && 0 < r.id
    ensures IsRun(Alone([], o, Fresh(1)), steps, s) && AttemptsAre(steps, HALF)
    ensures Waits(s, o, r) && s.servers[o].inbox.shown == []
  {
    var first, t := Alone([], o, Fresh(1)), [r];
    steps := Connects(o);
    OneRow(o, r);
    AndThen(first, steps, Alone([], o, CONNECTED), Outside(r), Alone(t, o, CONNECTED));
    steps := steps + [Outside(r)];
    var polling := CONNECTED.(phase := Fetching([r]));
    AndThen(first, steps, Alone(t, o, CONNECTED), At(o, Select), Alone(t, o, polling));
    steps := steps + [At(o, Select)];
    s := Next(Alone(t, o, polling), At(o, PushRow));
    AndThen(first, steps, Alone(t, o, polling), At(o, PushRow), s);
    steps := steps + [At(o, PushRow)];
  }

  lemma {:induction false} ShownOften(o: string, r: Row, n: nat) returns (steps: seq<Step>, last: System)
    requires r.origin != o && 0 < r.id && r.message.senderId != ""
    ensures IsRun(Alone([], o, Fresh(1)), steps, last) && Waits(last, o, r) && AttemptsAre(steps, HALF)
    ensures multiset(last.servers[o].inbox.shown)[r] == n
  {
    var first := Alone([], o, Fresh(1));
    if n == 0 {
      steps, last := RowArrives(o, r);
    } else {
      var before, s := ShownOften(o, r, n - 1);
      last := ShownHalf(s, o, r);
      AndThen(first, before, s, At(o, Draw), Next(s, At(o, Draw)));
      AndThen(first, before + [At(o, Draw)], Next(s, At(o, Draw)), At(o, HALF), last);
      steps := before + [At(o, Draw)] + [At(o, HALF)];
    }
  }

  /**
    * For a sender on the local roster at-most-once fails, without any bound: with Xbox players and others online, one
    * of the two lines may be shown each time while the other is not ready, and the row is tried again. The runs start
    * from an empty table; in all their attempts the calls go as `outs` says.
    */
  lemma SplitRowIsShownAgain(o: string, r: Row, n: nat, xbox: seq<Guid>, others: seq<Guid>, formatted: Line,
                             attributed: Line, category: int, at: int)
    returns (outs: seq<Outcome>, steps: seq<Step>, last: System)
    requires r.origin != o && 0 < r.id && r.message.senderId != "" && xbox != [] && others != []
    ensures var posts := Posts(xbox, others, formatted, attributed, true);
            && |outs| == |posts|
            && HALF == Display(|Issued(posts, outs, category, at)|, NotReady !in outs, IsSplit(xbox, others, true))
    ensures AttemptsAre(steps, HALF)
    ensures Start(Alone([], o, Fresh(1))) && IsRun(Alone([], o, Fresh(1)), steps, last)
    ensures o in last.servers && multiset(last.servers[o].inbox.shown)[r] == n
  {
    var posts := Posts(xbox, others, formatted, attributed, true);
    outs := [Called(true, false), NotReady];
    IssuedCount(posts, outs, category, at);
    assert outs[1] == NotReady;
    steps, last := ShownOften(o, r, n);
  }
}
