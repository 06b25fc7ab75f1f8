/**
  * Discord linking: several servers work on one `crosschat_players` table. A job is checked for a conflict, its code
  * is looked up and the row is completed in three separate statements; the steps of all servers and of the Discord bot
  * interleave freely. Statements may fail, and a failed UPDATE may have been committed.
  */
module Linking {
  import opened Text

  /** A column that is NULL is the empty string here: no statement tells the two apart. */
  datatype Player = Player(
    discordId: string, platform: string, userId: string, platformUserId: string, name: string, code: string)

  type Players = seq<Player>

  datatype Job = Job(code: string, platform: string, userId: string, platformUserId: string, name: string)

  datatype Notice = MissingAccount | AlreadyLinked | InvalidCode | DatabaseError | Linked

  /** What a server told the player of one job. */
  datatype Outcome = Outcome(server: string, job: Job, notice: Notice)

  /** The parts of `platform_user` before and after its first underscore, if neither is empty. */
  function SplitPlatformUserId(id: string): (parts: Option<(string, string)>)
    ensures parts.Some? ==>
              parts.value.0 != "" && parts.value.1 != "" && '_' !in parts.value.0 && parts.value.0 + "_" + parts.value.1 == id
  {
    var at := Find(id, "_", 0);
    if at.None? || at.value == 0 || at.value + 1 >= |id| then None
    else
      NoneBefore(id, '_', at.value);
      assert id == id[..at.value] + "_" + id[at.value + 1..];
      Some((id[..at.value], id[at.value + 1..]))
  }

  lemma NoneBefore(text: string, c: char, n: nat)
    requires n <= |text| && forall j: nat :: 0 <= j < n ==> !OccursAt(text, [c], j)
    ensures c !in text[..n]
  {
    forall j: nat | 0 <= j < n
      ensures text[j] != c
    {
      assert text[j..j + 1] == [text[j]];
      assert !OccursAt(text, [c], j);
    }
  }

  /** There is no other way to read an id: every id that has two such parts is split into them. */
  lemma SplitIsTheOnlyReading(platform: string, user: string)
    requires platform != "" && user != "" && '_' !in platform
    ensures SplitPlatformUserId(platform + "_" + user) == Some((platform, user))
  {
    var id := platform + "_" + user;
    assert id[|platform|..|platform| + 1] == "_";
    forall j: nat | j < |platform|
      ensures !OccursAt(id, "_", j)
    {
      assert id[j] == platform[j];
      assert id[j..j + 1] == [id[j]];
    }
    FindIs(id, "_", 0, |platform|);
    assert id[..|platform|] == platform && id[|platform| + 1..] == user;
  }

  // ----- statements on the table

  predicate HasCode(ps: Players, code: string) {
    exists i :: 0 <= i < |ps| && ps[i].code == code
  }

  /** The row counts as linked to the account. */
  predicate IsLinked(p: Player, account: string) {
    p.platformUserId == account && p.userId != ""
  }

  predicate HasLinked(ps: Players, account: string) {
    exists i :: 0 <= i < |ps| && IsLinked(ps[i], account)
  }

  function Completed(p: Player, job: Job): Player {
    if p.code == job.code then Player(p.discordId, job.platform, job.userId, job.platformUserId, job.name, "") else p
  }

  /** `UPDATE ... SET ..., ConnectCode = NULL WHERE ConnectCode = ?`. */
  function CompleteLink(ps: Players, job: Job): (r: Players)
    ensures |r| == |ps| && forall i :: 0 <= i < |ps| ==> r[i] == Completed(ps[i], job)
  {
    seq(|ps|, i requires 0 <= i < |ps| => Completed(ps[i], job))
  }

  /** A row that had the code has the account and the name of the job and no code any more; other rows are as they were. */
  ghost predicate IsCompleted(was: Player, now: Player, job: Job) {
    if was.code != job.code then now == was
    else
      && now.discordId == was.discordId && now.platform == job.platform && now.userId == job.userId
      && now.platformUserId == job.platformUserId && now.name == job.name && now.code == ""
  }

  ghost predicate AreCompleted(was: Players, now: Players, job: Job) {
    |now| == |was| && forall i :: 0 <= i < |was| ==> IsCompleted(was[i], now[i], job)
  }

  lemma LinkCompletes(ps: Players, job: Job)
    ensures AreCompleted(ps, CompleteLink(ps, job), job)
  {
  }

  /** No account is linked twice. */
  ghost predicate UniqueLinks(ps: Players) {
    forall i, j :: 0 <= i < j < |ps| && ps[i].userId != "" && ps[j].userId != "" && ps[i].platformUserId != "" ==>
                     ps[i].platformUserId != ps[j].platformUserId
  }

  // ----- the protocol

  datatype Phase =
    | Free
    | Popped(job: Job)                            // taken from the queue
    | Checked(job: Job)                           // no conflict seen
    | Found(job: Job)                             // code looked up

  datatype Worker = Worker(phase: Phase, popped: seq<Job>)

  datatype Links = Links(players: Players, issued: set<string>, workers: map<string, Worker>, outcomes: seq<Outcome>)

  datatype Answer = SomeRow | NoRow | Failure

  datatype Act =
    | Take(job: Job)
    | Refuse                                      // the job lacks its code or its account
    | Check(answer: Answer)
    | Lookup(answer: Answer)
    | Update
    | UpdateFails(committed: bool)

  datatype Step =
    | Issue(row: nat, code: string)               // the bot: a new code for a player
    | Join(discordId: string, code: string)       // the bot: a new player with a code
    | Unlink(row: nat)                            // the bot
    | Serve(server: string, act: Act)

  predicate Missing(job: Job) {
    job.code == "" || job.platformUserId == ""
  }

  predicate Enabled(ps: Players, w: Worker, a: Act) {
    match a
    case Take(job) => w.phase.Free? && job.userId != ""
    case Refuse => w.phase.Popped? && Missing(w.phase.job)
    case Check(answer) =>
      w.phase.Popped? && !Missing(w.phase.job) && (answer.SomeRow? ==> HasLinked(ps, w.phase.job.platformUserId))
    case Lookup(answer) =>
      && w.phase.Checked?
      && (answer.SomeRow? ==> HasCode(ps, w.phase.job.code))
      && (answer.NoRow? ==> !HasCode(ps, w.phase.job.code))
    case Update => w.phase.Found?
    case UpdateFails(_) => w.phase.Found?
  }

  predicate Fresh(s: Links, code: string) {
    code != "" && code !in s.issued
  }

  predicate CanStep(s: Links, step: Step) {
    match step
    case Issue(row, code) => row < |s.players| && Fresh(s, code)
    case Join(_, code) => Fresh(s, code)
    case Unlink(row) => row < |s.players|
    case Serve(o, act) => o in s.workers && Enabled(s.players, s.workers[o], act)
  }

  /** The notice that ends the job in this step, if it does. */
  function Ends(ps: Players, w: Worker, a: Act): Option<Notice>
    requires Enabled(ps, w, a)
  {
    match a
    case Take(_) => None
    case Refuse => Some(MissingAccount)
    case Check(answer) =>
      (match answer
       case SomeRow => Some(AlreadyLinked)
       case NoRow => None
       case Failure => Some(DatabaseError))
    case Lookup(answer) =>
      (match answer
       case SomeRow => None
       case NoRow => Some(InvalidCode)
       case Failure => Some(DatabaseError))
    case Update => Some(if HasCode(ps, w.phase.job.code) then Linked else InvalidCode)
    case UpdateFails(_) => Some(DatabaseError)
  }

  function WorkerAfter(ps: Players, w: Worker, a: Act): Worker
    requires Enabled(ps, w, a)
  {
    if Ends(ps, w, a).Some? then w.(phase := Free)
    else
      match a
      case Take(job) => Worker(Popped(job), w.popped + [job])
      case Check(_) => w.(phase := Checked(w.phase.job))
      case Lookup(_) => w.(phase := Found(w.phase.job))
  }

  function PlayersAfter(ps: Players, w: Worker, a: Act): Players
    requires Enabled(ps, w, a)
  {
    if a.Update? || (a.UpdateFails? && a.committed) then CompleteLink(ps, w.phase.job) else ps
  }

  function OutcomesAfter(outcomes: seq<Outcome>, ps: Players, o: string, w: Worker, a: Act): seq<Outcome>
    requires Enabled(ps, w, a)
  {
    var ends := Ends(ps, w, a);
    if ends.Some? then outcomes + [Outcome(o, w.phase.job, ends.value)] else outcomes
  }

  function Next(s: Links, step: Step): Links
    requires CanStep(s, step)
  {
    match step
    case Issue(row, code) =>
      s.(players := s.players[row := s.players[row].(code := code)], issued := s.issued + {code})
    case Join(discordId, code) =>
      s.(players := s.players + [Player(discordId, "", "", "", "", code)], issued := s.issued + {code})
    case Unlink(row) =>
      s.(players := s.players[row := s.players[row].(platform := "", userId := "", platformUserId := "")])
    case Serve(o, a) =>
      var w := s.workers[o];
      Links(PlayersAfter(s.players, w, a), s.issued, s.workers[o := WorkerAfter(s.players, w, a)],
            OutcomesAfter(s.outcomes, s.players, o, w, a))
  }

  ghost predicate IsRun(first: Links, steps: seq<Step>, last: Links)
    decreases |steps|
  {
    if steps == [] then first == last
    else CanStep(first, steps[0]) && IsRun(Next(first, steps[0]), steps[1..], last)
  }

  ghost predicate Start(s: Links) {
    && CodesOk(s)
    && s.outcomes == []
    && forall o :: o in s.workers ==> s.workers[o] == Worker(Free, [])
  }

  // ----- what every step keeps

  /** Codes in the table were issued, each for one row. */
  ghost predicate CodesOk(s: Links) {
    && (forall i :: 0 <= i < |s.players| && s.players[i].code != "" ==> s.players[i].code in s.issued)
    && OneRowEach(s.players)
  }

  ghost predicate OneRowEach(ps: Players) {
    forall i, j :: 0 <= i < j < |ps| && ps[i].code != "" ==> ps[i].code != ps[j].code
  }

  /** A code that has linked someone is spent. */
  ghost predicate Spent(s: Links, e: Outcome) {
    e.notice.Linked? ==> e.job.code != "" && e.job.code in s.issued && !HasCode(s.players, e.job.code)
  }

  ghost predicate SpentOk(s: Links) {
    && (forall k :: 0 <= k < |s.outcomes| ==> Spent(s, s.outcomes[k]))
    && OneLinkEach(s.outcomes)
  }

  ghost predicate OneLinkEach(es: seq<Outcome>) {
    forall k, l :: 0 <= k < l < |es| && es[k].notice.Linked? && es[l].notice.Linked? ==> es[k].job.code != es[l].job.code
  }

  predicate PastCheck(w: Worker) {
    w.phase.Checked? || w.phase.Found?
  }

  function Hand(w: Worker): seq<Job> {
    if w.phase.Free? then [] else [w.phase.job]
  }

  /** The jobs a server has answered, in the order of its answers. */
  function Answered(es: seq<Outcome>, o: string): seq<Job> {
    if es == [] then []
    else Answered(es[..|es| - 1], o) + (if es[|es| - 1].server == o then [es[|es| - 1].job] else [])
  }

  ghost predicate WorkerOk(es: seq<Outcome>, o: string, w: Worker) {
    && Answered(es, o) + Hand(w) == w.popped
    && (PastCheck(w) ==> !Missing(w.phase.job))
    && (!w.phase.Free? ==> w.phase.job.userId != "")
  }

  ghost predicate WorkersOk(s: Links) {
    forall o :: o in s.workers ==> WorkerOk(s.outcomes, o, s.workers[o])
  }

  ghost predicate LinksOk(s: Links) {
    CodesOk(s) && SpentOk(s) && WorkersOk(s)
  }

  /** What a server said last. */
  function LastTold(es: seq<Outcome>, o: string): Option<Notice> {
    if es == [] then None
    else if es[|es| - 1].server == o then Some(es[|es| - 1].notice)
    else LastTold(es[..|es| - 1], o)
  }

  lemma AnsweredSnoc(es: seq<Outcome>, e: Outcome, o: string)
    ensures Answered(es + [e], o) == Answered(es, o) + (if e.server == o then [e.job] else [])
    ensures LastTold(es + [e], o) == if e.server == o then Some(e.notice) else LastTold(es, o)
  {
    assert (es + [e])[..|es|] == es;
  }

  lemma ActKeepsWorker(es: seq<Outcome>, ps: Players, o: string, w: Worker, a: Act)
    requires WorkerOk(es, o, w) && Enabled(ps, w, a)
    ensures WorkerOk(OutcomesAfter(es, ps, o, w, a), o, WorkerAfter(ps, w, a))
  {
    var ends := Ends(ps, w, a);
    match ends
    case Some(notice) =>
      AnsweredSnoc(es, Outcome(o, w.phase.job, notice), o);
    case None =>
      if a.Take? {
        assert Answered(es, o) + [] == Answered(es, o);
      }
  }

  lemma ActKeepsOther(es: seq<Outcome>, ps: Players, o: string, w: Worker, a: Act, p: string, other: Worker)
    requires Enabled(ps, w, a) && p != o && WorkerOk(es, p, other)
    ensures WorkerOk(OutcomesAfter(es, ps, o, w, a), p, other)
  {
    var ends := Ends(ps, w, a);
    if ends.Some? {
      AnsweredSnoc(es, Outcome(o, w.phase.job, ends.value), p);
      assert Answered(es, p) + [] == Answered(es, p);
    }
  }

  lemma ServeKeepsWorkers(s: Links, o: string, a: Act)
    requires WorkersOk(s) && CanStep(s, Serve(o, a))
    ensures WorkersOk(Next(s, Serve(o, a)))
  {
    var w := s.workers[o];
    var s' := Next(s, Serve(o, a));
    forall p | p in s'.workers
      ensures WorkerOk(s'.outcomes, p, s'.workers[p])
    {
      if p == o {
        ActKeepsWorker(s.outcomes, s.players, o, w, a);
      } else {
        ActKeepsOther(s.outcomes, s.players, o, w, a, p, s.workers[p]);
      }
    }
  }

  lemma CompletingKeepsCodes(ps: Players, job: Job)
    requires OneRowEach(ps)
    ensures OneRowEach(CompleteLink(ps, job))
    ensures job.code != "" ==> !HasCode(CompleteLink(ps, job), job.code)
    ensures forall c :: c != "" && !HasCode(ps, c) ==> !HasCode(CompleteLink(ps, job), c)
  {
    var after := CompleteLink(ps, job);
    forall c | c != "" && HasCode(after, c)
      ensures HasCode(ps, c)
    {
      var i :| 0 <= i < |after| && after[i].code == c;
      assert ps[i].code == c;
    }
  }

  lemma ServeKeepsCodes(s: Links, o: string, a: Act)
    requires CodesOk(s) && CanStep(s, Serve(o, a))
    ensures CodesOk(Next(s, Serve(o, a)))
  {
    var w := s.workers[o];
    if a.Update? || a.UpdateFails? {
      CompletingKeepsCodes(s.players, w.phase.job);
    }
  }

  lemma ServeKeepsSpent(s: Links, o: string, a: Act)
    requires LinksOk(s) && CanStep(s, Serve(o, a))
    ensures SpentOk(Next(s, Serve(o, a)))
  {
    var w := s.workers[o];
    var s' := Next(s, Serve(o, a));
    assert WorkerOk(s.outcomes, o, w);
    if a.Update? || a.UpdateFails? {
      CompletingKeepsCodes(s.players, w.phase.job);
    }
    forall k | 0 <= k < |s.outcomes|
      ensures Spent(s', s.outcomes[k])
    {
      assert Spent(s, s.outcomes[k]);
    }
    if a.Update? && HasCode(s.players, w.phase.job.code) {
      LinkIsNew(s, Outcome(o, w.phase.job, Linked));
    }
  }

  lemma LinkIsNew(s: Links, e: Outcome)
    requires SpentOk(s) && HasCode(s.players, e.job.code)
    ensures OneLinkEach(s.outcomes + [e])
  {
    forall k | 0 <= k < |s.outcomes| && s.outcomes[k].notice.Linked?
      ensures s.outcomes[k].job.code != e.job.code
    {
      assert Spent(s, s.outcomes[k]);
    }
  }

  lemma IssueKeeps(s: Links, row: nat, code: string)
    requires LinksOk(s) && CanStep(s, Issue(row, code))
    ensures LinksOk(Next(s, Issue(row, code)))
  {
    var s' := Next(s, Issue(row, code));
    assert forall i :: 0 <= i < |s.players| ==> s.players[i].code != code;
    forall k | 0 <= k < |s'.outcomes|
      ensures Spent(s', s'.outcomes[k])
    {
      assert Spent(s, s.outcomes[k]);
    }
  }

  lemma JoinKeeps(s: Links, discordId: string, code: string)
    requires LinksOk(s) && CanStep(s, Join(discordId, code))
    ensures LinksOk(Next(s, Join(discordId, code)))
  {
    var s' := Next(s, Join(discordId, code));
    assert forall i :: 0 <= i < |s.players| ==> s.players[i].code != code;
    forall k | 0 <= k < |s'.outcomes|
      ensures Spent(s', s'.outcomes[k])
    {
      assert Spent(s, s.outcomes[k]);
    }
  }

  lemma UnlinkKeeps(s: Links, row: nat)
    requires LinksOk(s) && CanStep(s, Unlink(row))
    ensures LinksOk(Next(s, Unlink(row)))
  {
    var s' := Next(s, Unlink(row));
    assert forall i :: 0 <= i < |s.players| ==> s'.players[i].code == s.players[i].code;
    forall k | 0 <= k < |s'.outcomes|
      ensures Spent(s', s'.outcomes[k])
    {
      assert Spent(s, s.outcomes[k]);
    }
  }

  lemma StepKeeps(s: Links, step: Step)
    requires LinksOk(s) && CanStep(s, step)
    ensures LinksOk(Next(s, step))
  {
    match step
    case Issue(row, code) => IssueKeeps(s, row, code);
    case Join(discordId, code) => JoinKeeps(s, discordId, code);
    case Unlink(row) => UnlinkKeeps(s, row);
    case Serve(o, a) =>
      ServeKeepsCodes(s, o, a);
      ServeKeepsSpent(s, o, a);
      ServeKeepsWorkers(s, o, a);
  }

  lemma {:induction false} RunKeeps(first: Links, steps: seq<Step>, last: Links)
    requires LinksOk(first) && IsRun(first, steps, last)
    ensures LinksOk(last)
    decreases |steps|
  {
    if steps != [] {
      StepKeeps(first, steps[0]);
      RunKeeps(Next(first, steps[0]), steps[1..], last);
    }
  }

  lemma ReachableOk(first: Links, steps: seq<Step>, last: Links)
    requires Start(first) && IsRun(first, steps, last)
    ensures LinksOk(last)
  {
    RunKeeps(first, steps, last);
  }

  /** Over any run every job a server has taken from its queue has exactly one answer, in order; all but the one in its hand. */
  lemma OneResultEach(first: Links, steps: seq<Step>, last: Links, o: string)
    requires Start(first) && IsRun(first, steps, last) && o in last.workers
    ensures Answered(last.outcomes, o) + Hand(last.workers[o]) == last.workers[o].popped
  {
    ReachableOk(first, steps, last);
    assert WorkerOk(last.outcomes, o, last.workers[o]);
  }

  /** Over any run, on all servers together, a code links at most once; from then on no row holds it. */
  lemma CodeLinksAtMostOnce(first: Links, steps: seq<Step>, last: Links, k: nat, l: nat)
    requires Start(first) && IsRun(first, steps, last)
    requires k < |last.outcomes| && l < |last.outcomes| && last.outcomes[k].notice.Linked?
    ensures last.outcomes[k].job.code in last.issued && !HasCode(last.players, last.outcomes[k].job.code)
    ensures last.outcomes[l].notice.Linked? && last.outcomes[l].job.code == last.outcomes[k].job.code ==> k == l
  {
    ReachableOk(first, steps, last);
    assert Spent(last, last.outcomes[k]);
  }

  // ----- one Discord user for each account

  /** The conflict query does not miss a linked row. */
  predicate Faithful(s: Links, step: Step)
    requires CanStep(s, step)
  {
    step.Serve? && step.act == Check(NoRow) ==> !HasLinked(s.players, s.workers[step.server].phase.job.platformUserId)
  }

  /** No two servers are between check and update for the same account. */
  ghost predicate Exclusive(s: Links) {
    forall p, q :: p in s.workers && q in s.workers && p != q && PastCheck(s.workers[p]) && PastCheck(s.workers[q]) ==>
                     s.workers[p].phase.job.platformUserId != s.workers[q].phase.job.platformUserId
  }

  /** A run with faithful answers in which no account is worked on by two servers at once. */
  ghost predicate IsCarefulRun(first: Links, steps: seq<Step>, last: Links)
    decreases |steps|
  {
    && Exclusive(first)
    && if steps == [] then first == last
       else
         && CanStep(first, steps[0])
         && Faithful(first, steps[0])
         && IsCarefulRun(Next(first, steps[0]), steps[1..], last)
  }

  /** Whoever is past the check may still rely on it. */
  ghost predicate CheckHolds(ps: Players, w: Worker) {
    PastCheck(w) ==> !HasLinked(ps, w.phase.job.platformUserId)
  }

  ghost predicate ChecksHold(s: Links) {
    forall o :: o in s.workers ==> CheckHolds(s.players, s.workers[o])
  }

  /**
    * When completing a row keeps links unique: exactly if no other row is linked to the account. The conflict query is
    * the only guard, and it looks before two more statements.
    */
  lemma CompletingKeepsUniqueIff(ps: Players, job: Job, i: nat)
    requires UniqueLinks(ps) && OneRowEach(ps) && i < |ps| && ps[i].code == job.code != ""
    requires job.userId != "" && job.platformUserId != ""
    ensures UniqueLinks(CompleteLink(ps, job)) <==> forall k :: 0 <= k < |ps| && k != i ==> !IsLinked(ps[k], job.platformUserId)
  {
    var after := CompleteLink(ps, job);
    forall k | 0 <= k < |ps| && k != i
      ensures after[k] == ps[k]
    {
      assert ps[k].code != ps[i].code;
    }
    if k :| 0 <= k < |ps| && k != i && IsLinked(ps[k], job.platformUserId) {
      assert IsLinked(after[k], job.platformUserId) && IsLinked(after[i], job.platformUserId);
    }
  }

  /** Rows without the code stay as they are. */
  lemma NothingToComplete(ps: Players, job: Job)
    requires !HasCode(ps, job.code)
    ensures CompleteLink(ps, job) == ps
  {
    assert forall i :: 0 <= i < |ps| ==> ps[i].code != job.code;
  }

  lemma CompletingKeepsUnique(ps: Players, job: Job)
    requires UniqueLinks(ps) && OneRowEach(ps) && job.code != "" && job.userId != "" && job.platformUserId != ""
    requires !HasLinked(ps, job.platformUserId)
    ensures UniqueLinks(CompleteLink(ps, job))
  {
    if i: nat :| i < |ps| && ps[i].code == job.code {
      CompletingKeepsUniqueIff(ps, job, i);
    } else {
      NothingToComplete(ps, job);
    }
  }

  /** Completing a row links no other account. */
  lemma CompletingLinksOnly(ps: Players, job: Job, account: string)
    requires account != job.platformUserId && !HasLinked(ps, account)
    ensures !HasLinked(CompleteLink(ps, job), account)
  {
    var after := CompleteLink(ps, job);
    forall i | 0 <= i < |after|
      ensures !IsLinked(after[i], account)
    {
      assert !IsLinked(ps[i], account);
    }
  }

  lemma ServeKeepsUnique(s: Links, o: string, a: Act)
    requires LinksOk(s) && CanStep(s, Serve(o, a)) && UniqueLinks(s.players) && ChecksHold(s)
    ensures UniqueLinks(Next(s, Serve(o, a)).players)
  {
    var w := s.workers[o];
    assert WorkerOk(s.outcomes, o, w) && CheckHolds(s.players, w);
    if a.Update? || a.UpdateFails? {
      CompletingKeepsUnique(s.players, w.phase.job);
    }
  }

  lemma ServeKeepsChecks(s: Links, o: string, a: Act)
    requires LinksOk(s) && CanStep(s, Serve(o, a)) && ChecksHold(s) && Exclusive(s) && Faithful(s, Serve(o, a))
    ensures ChecksHold(Next(s, Serve(o, a)))
  {
    var s' := Next(s, Serve(o, a));
    var w := s.workers[o];
    forall p | p in s'.workers
      ensures CheckHolds(s'.players, s'.workers[p])
    {
      assert CheckHolds(s.players, s.workers[p]);
      if p != o && PastCheck(s.workers[p]) && s'.players != s.players {
        assert PastCheck(w);
        CompletingLinksOnly(s.players, w.phase.job, s.workers[p].phase.job.platformUserId);
      }
    }
  }

  lemma BotKeepsUnique(s: Links, step: Step)
    requires CanStep(s, step) && !step.Serve? && UniqueLinks(s.players) && ChecksHold(s)
    ensures UniqueLinks(Next(s, step).players) && ChecksHold(Next(s, step))
  {
    var s' := Next(s, step);
    forall p | p in s'.workers
      ensures CheckHolds(s'.players, s'.workers[p])
    {
      var w := s.workers[p];
      assert CheckHolds(s.players, w);
      if PastCheck(w) {
        BotLinksNobody(s, step, w.phase.job.platformUserId);
      }
    }
  }

  lemma BotLinksNobody(s: Links, step: Step, account: string)
    requires CanStep(s, step) && !step.Serve? && !HasLinked(s.players, account)
    ensures !HasLinked(Next(s, step).players, account)
  {
    var after := Next(s, step).players;
    forall i | 0 <= i < |after|
      ensures !IsLinked(after[i], account)
    {
      if i < |s.players| {
        assert !IsLinked(s.players[i], account);
      }
    }
  }

  lemma {:induction false} CarefulRunKeeps(first: Links, steps: seq<Step>, last: Links)
    requires LinksOk(first) && UniqueLinks(first.players) && ChecksHold(first) && IsCarefulRun(first, steps, last)
    ensures UniqueLinks(last.players)
    decreases |steps|
  {
    if steps != [] {
      var step := steps[0];
      StepKeeps(first, step);
      match step {
        case Serve(o, a) =>
          ServeKeepsUnique(first, o, a);
          ServeKeepsChecks(first, o, a);
        case _ => BotKeepsUnique(first, step);
      }
      CarefulRunKeeps(Next(first, step), steps[1..], last);
    }
  }

  /** Over any run of any number of servers: with faithful answers and no two servers at one account, no account is linked twice. */
  lemma AccountsLinkedOnce(first: Links, steps: seq<Step>, last: Links)
    requires Start(first) && UniqueLinks(first.players) && IsCarefulRun(first, steps, last)
    ensures UniqueLinks(last.players)
  {
    CarefulRunKeeps(first, steps, last);
  }

  /** What a completed link leaves behind is what the conflict query looks for: the user id is never empty. */
  lemma LinkIsVisible(first: Links, steps: seq<Step>, last: Links, o: string)
    requires Start(first) && IsRun(first, steps, last) && CanStep(last, Serve(o, Update))
    requires Ends(last.players, last.workers[o], Update) == Some(Linked)
    ensures HasLinked(Next(last, Serve(o, Update)).players, last.workers[o].phase.job.platformUserId)
  {
    ReachableOk(first, steps, last);
    var w := last.workers[o];
    assert WorkerOk(last.outcomes, o, w);
    var i :| 0 <= i < |last.players| && last.players[i].code == w.phase.job.code;
    assert IsLinked(CompleteLink(last.players, w.phase.job)[i], w.phase.job.platformUserId);
  }

  // ----- where uniqueness fails

  lemma {:induction false} RunSnoc(first: Links, steps: seq<Step>, last: Links, step: Step)
    requires IsRun(first, steps, last) && CanStep(last, step)
    ensures IsRun(first, steps + [step], Next(last, step))
    decreases |steps|
  {
    var more := steps + [step];
    if steps == [] {
      assert more[1..] == [];
    } else {
      assert more[1..] == steps[1..] + [step];
      RunSnoc(Next(first, steps[0]), steps[1..], last, step);
    }
  }

  /** The table with one row for each code, nobody linked. */
  function TwoPlayers(c: string, d: string): Players {
    [Player("1", "", "", "", "", c), Player("2", "", "", "", "", d)]
  }

  /** Two servers, each past its check with a job for the same account: both updates go through. */
  lemma BothUpdatesLink(s: Links, p: string, q: string, account: string)
    requires p in s.workers && q in s.workers && p != q
    requires s.players == TwoPlayers("c", "d")
    requires s.workers[p].phase == Found(Job("c", "steam", "u", account, "n")) && account != ""
    requires s.workers[q].phase == Found(Job("d", "steam", "u", account, "n"))
    ensures CanStep(s, Serve(p, Update)) && CanStep(Next(s, Serve(p, Update)), Serve(q, Update))
    ensures !UniqueLinks(Next(Next(s, Serve(p, Update)), Serve(q, Update)).players)
  {
    var ps := Next(Next(s, Serve(p, Update)), Serve(q, Update)).players;
    assert ps[0].platformUserId == ps[1].platformUserId == account;
  }

  /** A run in which the conflict query never misses a linked row. */
  ghost predicate IsFaithfulRun(first: Links, steps: seq<Step>, last: Links)
    decreases |steps|
  {
    if steps == [] then first == last
    else
      CanStep(first, steps[0]) && Faithful(first, steps[0]) && IsFaithfulRun(Next(first, steps[0]), steps[1..], last)
  }

  lemma {:induction false} FaithfulSnoc(first: Links, steps: seq<Step>, last: Links, step: Step)
    requires IsFaithfulRun(first, steps, last) && CanStep(last, step) && Faithful(last, step)
    ensures IsFaithfulRun(first, steps + [step], Next(last, step))
    decreases |steps|
  {
    var more := steps + [step];
    if steps == [] {
      assert more[1..] == [];
    } else {
      assert more[1..] == steps[1..] + [step];
      FaithfulSnoc(Next(first, steps[0]), steps[1..], last, step);
    }
  }

  /** One server takes a job, sees truly that there is no conflict, and finds the code. */
  lemma ReachesFound(first: Links, steps: seq<Step>, s: Links, o: string, job: Job)
    returns (more: seq<Step>, t: Links)
    requires IsFaithfulRun(first, steps, s) && o in s.workers && s.workers[o].phase.Free?
    requires !Missing(job) && job.userId != "" && HasCode(s.players, job.code) && !HasLinked(s.players, job.platformUserId)
    ensures IsFaithfulRun(first, more, t) && t.players == s.players
    ensures o in t.workers && t.workers[o].phase == Found(job)
    ensures forall p :: p in s.workers && p != o ==> p in t.workers && t.workers[p] == s.workers[p]
  {
    var take, check, look := Serve(o, Take(job)), Serve(o, Check(NoRow)), Serve(o, Lookup(SomeRow));
    FaithfulSnoc(first, steps, s, take);
    var s1 := Next(s, take);
    FaithfulSnoc(first, steps + [take], s1, check);
    var s2 := Next(s1, check);
    FaithfulSnoc(first, steps + [take] + [check], s2, look);
    more, t := steps + [take] + [check] + [look], Next(s2, look);
  }

  lemma InterleavedRun(p: string, q: string, account: string)
    returns (first: Links, steps: seq<Step>, last: Links)
    requires p != q && account != ""
    ensures Start(first) && UniqueLinks(first.players) && first.workers.Keys == {p, q}
    ensures IsFaithfulRun(first, steps, last) && !UniqueLinks(last.players)
  {
    first := Links(TwoPlayers("c", "d"), {"c", "d"}, map[p := Worker(Free, []), q := Worker(Free, [])], []);
    TwoPlayersHave(first);
    var early, s := ReachesFound(first, [], first, p, Job("c", "steam", "u", account, "n"));
    var later, t := ReachesFound(first, early, s, q, Job("d", "steam", "u", account, "n"));
    BothUpdatesLink(t, p, q, account);
    FaithfulSnoc(first, later, t, Serve(p, Update));
    var u := Next(t, Serve(p, Update));
    FaithfulSnoc(first, later + [Serve(p, Update)], u, Serve(q, Update));
    steps, last := later + [Serve(p, Update)] + [Serve(q, Update)], Next(u, Serve(q, Update));
  }

  /**
    * Two servers that work on one account at once do link it twice, although every conflict query answers truly: both
    * look before either writes.
    */
  lemma InterleavingLinksTwice(p: string, q: string, account: string)
    requires p != q && account != ""
    ensures exists first, steps, last ::
              && Start(first) && UniqueLinks(first.players) && first.workers.Keys == {p, q}
              && IsFaithfulRun(first, steps, last) && !UniqueLinks(last.players)
  {
    var first, steps, last := InterleavedRun(p, q, account);
  }

  lemma TwoPlayersHave(s: Links)
    requires s.players == TwoPlayers("c", "d") && s.issued == {"c", "d"}
    ensures CodesOk(s) && UniqueLinks(s.players) && HasCode(s.players, "c") && HasCode(s.players, "d")
    ensures forall account :: account != "" ==> !HasLinked(s.players, account)
  {
    assert s.players[0].code == "c" && s.players[1].code == "d";
  }

  lemma LonelyRun(o: string, account: string) returns (first: Links, steps: seq<Step>, last: Links)
    requires account != ""
    ensures Start(first) && UniqueLinks(first.players) && first.workers.Keys == {o}
    ensures IsRun(first, steps, last) && !UniqueLinks(last.players)
  {
    var linked := Player("1", "steam", "u", account, "n", "");
    first := Links([linked, Player("2", "", "", "", "", "d")], {"d"}, map[o := Worker(Free, [])], []);
    assert first.players[1].code == "d";
    var take, check := Serve(o, Take(Job("d", "steam", "u", account, "n"))), Serve(o, Check(NoRow));
    var look, update := Serve(o, Lookup(SomeRow)), Serve(o, Update);
    RunSnoc(first, [], first, take);
    var s1 := Next(first, take);
    RunSnoc(first, [] + [take], s1, check);
    var s2 := Next(s1, check);
    RunSnoc(first, [] + [take] + [check], s2, look);
    var s3 := Next(s2, look);
    RunSnoc(first, [] + [take] + [check] + [look], s3, update);
    steps, last := [] + [take] + [check] + [look] + [update], Next(s3, update);
    assert last.players[0].platformUserId == last.players[1].platformUserId == account;
  }

  /** One server alone links an account twice if the conflict query misses the linked row. */
  lemma MissedConflictLinksTwice(o: string, account: string)
    requires account != ""
    ensures exists first, steps, last ::
              && Start(first) && UniqueLinks(first.players) && first.workers.Keys == {o}
              && IsRun(first, steps, last) && !UniqueLinks(last.players)
  {
    var first, steps, last := LonelyRun(o, account);
  }

  // ----- the worker's code

  /** Something that may be true or not. */
  method Oracle() returns (b: bool) {
    b := *;
  }

  lemma OthersAnswerTheirs(s: Links, step: Step, server: string)
    requires CanStep(s, step) && server in s.workers && (step.Serve? ==> step.server != server)
    ensures Next(s, step).workers[server] == s.workers[server]
    ensures Answered(Next(s, step).outcomes, server) == Answered(s.outcomes, server)
    ensures LastTold(Next(s, step).outcomes, server) == LastTold(s.outcomes, server)
  {
    if step.Serve? {
      var ends := Ends(s.players, s.workers[step.server], step.act);
      if ends.Some? {
        AnsweredSnoc(s.outcomes, Outcome(step.server, s.workers[step.server].phase.job, ends.value), server);
      }
    }
  }

  /** The database with all servers around it, as one server's worker sees it. */
  class LinkWorker {
    const server: string
    var links: Links
    ghost var trace: seq<Step>
    ghost const first: Links

    ghost predicate Valid()
      reads this
    {
      && Start(first)
      && IsRun(first, trace, links)
      && server in links.workers
    }

    constructor (server: string, links: Links)
      requires Start(links) && server in links.workers
      ensures Valid() && this.server == server && this.links == links && first == links
    {
      this.server, this.links, this.first, this.trace := server, links, links, [];
    }

    /** The worker's own state. */
    function Own(): Worker
      reads this
      requires server in links.workers
    {
      links.workers[server]
    }

    method Apply(step: Step)
      requires Valid() && CanStep(links, step)
      modifies this
      ensures Valid() && links == Next(old(links), step) && trace == old(trace) + [step]
    {
      RunSnoc(first, trace, links, step);
      links := Next(links, step);
      trace := trace + [step];
    }

    /** Any number of steps of the bot and the other servers. */
    method OthersAct(steps: seq<Step>)
      requires Valid()
      modifies this
      ensures Valid() && Own() == old(Own()) && old(trace) <= trace
      ensures Answered(links.outcomes, server) == old(Answered(links.outcomes, server))
      ensures LastTold(links.outcomes, server) == old(LastTold(links.outcomes, server))
    {
      for i := 0 to |steps|
        invariant Valid() && Own() == old(Own()) && old(trace) <= trace
        invariant LastTold(links.outcomes, server) == old(LastTold(links.outcomes, server))
        invariant Answered(links.outcomes, server) == old(Answered(links.outcomes, server))
      {
        var step := steps[i];
        if CanStep(links, step) && (step.Serve? ==> step.server != server) {
          OthersAnswerTheirs(links, step, server);
          Apply(step);
        }
      }
    }

    method Statement(act: Act, others: seq<Step>)
      requires Valid() && Enabled(links.players, Own(), act)
      modifies this
      ensures Valid() && Own() == WorkerAfter(old(links.players), old(Own()), act)
      ensures old(trace) + [Serve(server, act)] <= trace
      ensures Ends(old(links.players), old(Own()), act).Some? ==>
                LastTold(links.outcomes, server) == Ends(old(links.players), old(Own()), act)
      ensures Answered(links.outcomes, server) ==
              old(Answered(links.outcomes, server)) +
              (if Ends(old(links.players), old(Own()), act).Some? then [old(Own()).phase.job] else [])
    {
      ghost var ends := Ends(links.players, Own(), act);
      if ends.Some? {
        AnsweredSnoc(links.outcomes, Outcome(server, Own().phase.job, ends.value), server);
      }
      Apply(Serve(server, act));
      OthersAct(others);
    }

    /** The job is over: one more answer, and nothing in hand. */
    ghost predicate Done(w: Worker, answered: seq<Job>, job: Job, notice: Notice)
      reads this
      requires server in links.workers
    {
      && Own() == w.(phase := Free)
      && Answered(links.outcomes, server) == answered + [job]
      && LastTold(links.outcomes, server) == Some(notice)
    }

    /** Not over: the worker moved on and said nothing. */
    ghost predicate MovedOn(w: Worker, answered: seq<Job>, phase: Phase)
      reads this
      requires server in links.workers
    {
      Own() == w.(phase := phase) && Answered(links.outcomes, server) == answered
    }

    /** Is this account already linked? */
    method CheckConflict(job: Job, others: seq<Step>) returns (notice: Option<Notice>)
      requires Valid() && Own().phase == Popped(job) && !Missing(job)
      modifies this
      ensures Valid() && old(trace) <= trace
      ensures notice.None? ==> MovedOn(old(Own()), old(Answered(links.outcomes, server)), Checked(job))
      ensures notice.Some? ==> Done(old(Own()), old(Answered(links.outcomes, server)), job, notice.value)
      ensures notice in {None, Some(DatabaseError), Some(AlreadyLinked)}
      ensures notice == Some(AlreadyLinked) ==>
                exists p :: p in old(links.players) && p.platformUserId == job.platformUserId && p.userId != ""
    {
      var failed := Oracle();
      if failed {
        Statement(Check(Failure), others);
        return Some(DatabaseError);
      }
      var fetched := Oracle();
      if fetched && HasLinked(links.players, job.platformUserId) {
        Statement(Check(SomeRow), others);
        return Some(AlreadyLinked);
      }
      Statement(Check(NoRow), others);
      notice := None;
    }

    /** Does a row have this code? */
    method LookUpCode(job: Job, others: seq<Step>) returns (notice: Option<Notice>)
      requires Valid() && Own().phase == Checked(job)
      modifies this
      ensures Valid() && old(trace) <= trace
      ensures notice.None? ==> MovedOn(old(Own()), old(Answered(links.outcomes, server)), Found(job))
      ensures notice.Some? ==> Done(old(Own()), old(Answered(links.outcomes, server)), job, notice.value)
      ensures notice in {None, Some(DatabaseError), Some(InvalidCode)}
      ensures notice.None? ==> exists p :: p in old(links.players) && p.code == job.code
      ensures notice == Some(InvalidCode) ==> forall p :: p in old(links.players) ==> p.code != job.code
    {
      var failed := Oracle();
      if failed {
        Statement(Lookup(Failure), others);
        return Some(DatabaseError);
      }
      if !HasCode(links.players, job.code) {
        Statement(Lookup(NoRow), others);
        return Some(InvalidCode);
      }
      Statement(Lookup(SomeRow), others);
      notice := None;
    }

    /** The step of this server that came first since the trace was `was`. */
    ghost function MyStep(was: seq<Step>): Step
      reads this
      requires was < trace
    {
      trace[|was|]
    }

    /**
      * The UPDATE. `after` is the table when it has been answered: on success, and only then, every row with the code
      * has the account, the name and no code any more; when the database fails, that may have happened or not.
      */
    method Complete(job: Job, others: seq<Step>) returns (notice: Notice, ghost after: Players)
      requires Valid() && Own().phase == Found(job)
      modifies this
      ensures Valid() && old(trace) < trace && CanStep(old(links), MyStep(old(trace)))
      ensures after == Next(old(links), MyStep(old(trace))).players
      ensures Done(old(Own()), old(Answered(links.outcomes, server)), job, notice)
      ensures notice in {DatabaseError, InvalidCode, Linked}
      ensures notice == Linked ==>
                AreCompleted(old(links.players), after, job) && exists p :: p in old(links.players) && p.code == job.code
      ensures notice == InvalidCode ==>
                after == old(links.players) && forall p :: p in old(links.players) ==> p.code != job.code
      ensures notice == DatabaseError ==> after == old(links.players) || AreCompleted(old(links.players), after, job)
    {
      LinkCompletes(links.players, job);
      var failed := Oracle();
      if failed {
        var committed := Oracle();
        after := if committed then CompleteLink(links.players, job) else links.players;
        Statement(UpdateFails(committed), others);
        return DatabaseError, after;
      }
      var affected := HasCode(links.players, job.code);
      after := CompleteLink(links.players, job);
      Statement(Update, others);
      notice := if affected then Linked else InvalidCode;
    }

    /**
      * One job from queue to answer, others acting after each statement. Whatever fails, the job has one answer and
      * nothing of it is left over.
      */
    method ProcessLinkJob(job: Job, others: seq<seq<Step>>) returns (notice: Notice)
      requires Valid() && Own().phase == Popped(job) && |others| == 3
      modifies this
      ensures Valid() && old(trace) <= trace
      ensures Done(old(Own()), old(Answered(links.outcomes, server)), job, notice)
      ensures notice == MissingAccount <==> job.code == "" || job.platformUserId == ""
    {
      if job.code == "" || job.platformUserId == "" {
        Statement(Refuse, others[0]);
        return MissingAccount;
      }
      var conflict := CheckConflict(job, others[0]);
      if conflict.Some? {
        return conflict.value;
      }
      var lookup := LookUpCode(job, others[1]);
      if lookup.Some? {
        return lookup.value;
      }
      ghost var after;
      notice, after := Complete(job, others[2]);
    }
  }
}
