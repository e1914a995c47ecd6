/** Whole runs of `create`: its result, the errors it names, and which drops anybody hears of. */
module Create {
  import opened Decimal
  import opened Wire
  import opened ClientState
  import opened Handshake
  import opened WritePath
  import opened Lifecycle

  // ----- runs, step by step

  lemma {:induction false} RunAppend(s: Sys, a: seq<Step>, step: Step)
    requires CanRun(s, a + [step])
    ensures CanRun(s, a) && Enabled(Run(s, a), step) && Run(s, a + [step]) == Apply(Run(s, a), step)
    decreases a
  {
    if a == [] {
      assert [] + [step] == [step] && [step][1..] == [];
    } else {
      assert (a + [step])[1..] == a[1..] + [step];
      RunAppend(Apply(s, a[0]), a[1..], step);
    }
  }

  /** The run up to its `j`th step. */
  lemma {:induction false} RunPrefix(s: Sys, steps: seq<Step>, j: nat)
    requires CanRun(s, steps) && j <= |steps|
    ensures CanRun(s, steps[..j])
    ensures j < |steps| ==> Enabled(Run(s, steps[..j]), steps[j])
                            && steps[..j + 1] == steps[..j] + [steps[j]]
    decreases |steps|
  {
    if j == |steps| {
      assert steps[..j] == steps;
    } else {
      var a, last := steps[..|steps| - 1], steps[|steps| - 1];
      assert steps == a + [last];
      RunAppend(s, a, last);
      if j < |a| {
        RunPrefix(s, a, j);
        assert a[..j] == steps[..j] && a[j] == steps[j];
      } else {
        assert steps[..j] == a;
      }
    }
  }

  lemma InvAt(steps: seq<Step>)
    requires CanRun(START, steps)
    ensures Inv(Run(START, steps))
  {
    StartInv();
    InvRun(START, steps);
  }

  // ----- what `disconnect` does to the task of `create`

  /** A piece of a teardown leaves the race alone and moves `create` only when it is the owner
      and the teardown is over. */
  predicate MainMoves(s: Sys, t: Sys, owner: Owner) {
    && t.race == s.race && t.link.state == s.link.state && t.link.lost == s.link.lost
    && (t.main == s.main || (owner == ByMain && t.main == Resumed(s.main, s.race.errors)))
  }

  /** Where `create` goes on behind its own `disconnect`. */
  function Resumed(m: MainTask, errors: seq<int>): MainTask {
    if m.MFailing? then MReturned(FailureOf(m.dropped, errors)) else MRacing
  }

  lemma FinishMoves(s: Sys, owner: Owner)
    ensures MainMoves(s, FinishTeardown(s, owner), owner)
  {
  }

  lemma CloseMoves(s: Sys, owner: Owner)
    ensures MainMoves(s, CloseStream(s, owner), owner)
  {
    FinishMoves(s.(writerSlot := false, readerSlot := false), owner);
  }

  lemma CancelReaderMoves(s: Sys, owner: Owner)
    ensures MainMoves(s, CancelReader(s, owner), owner)
  {
    CloseMoves(s, owner);
  }

  lemma CancelWriterMoves(s: Sys, owner: Owner)
    ensures MainMoves(s, CancelWriter(s, owner), owner)
  {
    CancelReaderMoves(s, owner);
  }

  lemma GoOnMoves(s: Sys)
    requires s.teardown.Tearing?
    ensures MainMoves(s, GoOn(s), s.teardown.owner)
  {
    match s.teardown.stage {
      case AwaitWriter => CancelReaderMoves(s, s.teardown.owner);
      case AwaitReader => CloseMoves(s, s.teardown.owner);
      case AwaitClosed => FinishMoves(s.(closedCalls := s.closedCalls + 1), s.teardown.owner);
    }
  }

  lemma DisconnectMoves(s: Sys, owner: Owner)
    requires s.link.state == Disconnected ==> s.link.lost
    ensures var t := Disconnect(s, owner);
            && t.race == s.race && t.link.state == Disconnected && t.link.lost
            && (t.main == s.main || (owner == ByMain && t.main == Resumed(s.main, s.race.errors)))
  {
    if s.link.state != Disconnected {
      MarkedMoves(s, owner);
      CancelWriterMoves(Marked(s, owner), owner);
    }
  }

  lemma MarkedMoves(s: Sys, owner: Owner)
    ensures var t := Marked(s, owner);
            t.race == s.race && t.main == s.main && t.link.state == Disconnected && t.link.lost
  {
  }

  // ----- the history of a run

  /** The errors under id -1: the one of a failed open, and those of the server. */
  function ErrorsOf(steps: seq<Step>): seq<int> {
    if steps == [] then [] else ErrorsOf(steps[..|steps| - 1]) + NewErrors(steps[|steps| - 1])
  }

  function NewErrors(step: Step): seq<int> {
    match step
    case OpenFails => [502]
    case ServerError(code) => [code]
    case _ => []
  }

  predicate Failure(m: MainTask) {
    m.MReturned? && (m.result.ConnectionClosed? || m.result.NoNextValidId?)
  }

  /** The race is over. */
  predicate Raced(m: MainTask) {
    m.MFailing? || Failure(m) || m == MReturned(Client)
  }

  /** What the state of `create` says about the race. */
  predicate Outcome(m: MainTask, race: Race, over: bool, lost: bool) {
    && (Raced(m) <==> over)
    && (m == MReturned(Client) ==> race.nviDone)
    && (m.MFailing? ==> !race.nviDone && m.dropped == race.lostDone)
    && (m.MFailing? || Failure(m) ==> !race.nviDone && lost)
  }

  ghost predicate History(s: Sys, steps: seq<Step>) {
    && (s.race.nviDone <==> NviTask in steps) && (s.race.lostDone <==> LostTask in steps)
    && (s.race.nviSet <==> ServerNextValidId in steps) && (s.race.timer <==> RaceTimer in steps)
    && s.race.errors == ErrorsOf(steps)
    && Outcome(s.main, s.race, RaceEnds in steps, s.link.lost)
  }

  lemma HistoryAppend(steps: seq<Step>, step: Step)
    ensures NviTask in steps + [step] <==> NviTask in steps || step == NviTask
    ensures LostTask in steps + [step] <==> LostTask in steps || step == LostTask
    ensures RaceEnds in steps + [step] <==> RaceEnds in steps || step == RaceEnds
    ensures ServerNextValidId in steps + [step] <==> ServerNextValidId in steps || step == ServerNextValidId
    ensures RaceTimer in steps + [step] <==> RaceTimer in steps || step == RaceTimer
    ensures ErrorsOf(steps + [step]) == ErrorsOf(steps) + NewErrors(step)
  {
    assert (steps + [step])[..|steps|] == steps;
  }

  /** The step meets a drop as an error or as EOF. */
  predicate MeetsDrop(step: Step) {
    || step == OpenFails || step == SaluteFails || step == ReaderFails
    || (step.GreetReads? && (step.arrival == Data([]) || step.arrival == Broken))
    || step == WriterWrites(OsFault) || step == WriterDrained(OsFault)
  }

  /** The step meets it inside the handshake as an error that just leaves `connect`. */
  predicate LetsDropGo(step: Step) {
    step == SaluteFails || (step.GreetReads? && step.arrival == Broken)
  }

  /** The step signals a drop it meets. */
  predicate Signals(step: Step) {
    MeetsDrop(step) && !LetsDropGo(step)
  }

  /** The step sets the lost event: by signalling, or by a `disconnect` that tears down. */
  predicate Loses(s: Sys, step: Step) {
    || Signals(step) || (step == UserDisconnects && !NeverOpened(s))
    || (step == RaceEnds && !s.race.nviDone)
  }

  /** How `create` moves: it has a result when the race ends or its disconnect behind it, and
      then never moves again. */
  predicate MainStep(m: MainTask, n: MainTask, step: Step, race: Race) {
    var failure := MReturned(FailureOf(race.lostDone, race.errors));
    if step == RaceEnds then
      m == MRacing && if race.nviDone then n == MReturned(Client) else n == MFailing(race.lostDone) || n == failure
    else if m.MFailing? then
      n == m || (step == TeardownGoesOn && n == MReturned(FailureOf(m.dropped, race.errors)))
    else if m.MTearing? then n == m || n == MRacing
    else if Early(m) then !Raced(n)
    else n == m
  }

  /** What a step does to `create`, to the race and to the lost event. */
  predicate Moves(s: Sys, t: Sys, step: Step) {
    && (t.race.nviDone <==> s.race.nviDone || step == NviTask)
    && (t.race.lostDone <==> s.race.lostDone || step == LostTask)
    && (t.race.nviSet <==> s.race.nviSet || step == ServerNextValidId)
    && (t.race.timer <==> s.race.timer || step == RaceTimer)
    && t.race.errors == s.race.errors + NewErrors(step)
    && MainStep(s.main, t.main, step, s.race) && (step == NviTask || step == LostTask ==> s.main == MRacing)
    && (t.link.lost <==> s.link.lost || Loses(s, step))
  }

  lemma NoErrors(s: Sys)
    ensures s.race.errors + [] == s.race.errors
  {
  }

  lemma NothingMoves(s: Sys)
    requires NeverOpened(s) && s.link.state == Disconnected
    ensures Apply(s, UserDisconnects) == s && Moves(s, s, UserDisconnects)
  {
    NoErrors(s);
  }

  lemma CallerMoves(s: Sys, step: Step)
    requires Inv(s) && Enabled(s, step) && Caller(s, step).Some?
    ensures Moves(s, Apply(s, step), step)
  {
    if step == UserDisconnects && NeverOpened(s) {
      NothingMoves(s);
    } else {
      var (t, owner) := Caller(s, step).value;
      CallerDisconnects(s, step);
      CallerIs(s, step);
      DisconnectMoves(t, owner);
      CalledMoves(s, t, Disconnect(t, owner), owner, step);
    }
  }

  /** Which steps call `disconnect`, and where `create` is when they do. */
  lemma CallerIs(s: Sys, step: Step)
    requires Inv(s) && Enabled(s, step) && Caller(s, step).Some? && !(step == UserDisconnects && NeverOpened(s))
    ensures var (t, owner) := Caller(s, step).value;
            && Loses(s, step) && t.race == s.race && (t.link.state == Disconnected ==> t.link.lost)
            && !step.ServerError? && step != OpenFails
            && if step == RaceEnds then owner == ByMain && t.main == MFailing(s.race.lostDone) && s.main == MRacing
               else if step.GreetReads? then owner == ByMain && t.main == MTearing && s.main.MGreeting?
               else owner != ByMain && t.main == s.main
  {
  }

  lemma CalledMoves(s: Sys, t: Sys, d: Sys, owner: Owner, step: Step)
    requires Loses(s, step) && t.race == s.race && d.race == t.race && d.link.lost
    requires step == UserDisconnects || step == ReaderFails || step.WriterWrites? || step.WriterDrained?
             || step == RaceEnds || step.GreetReads?
    requires d.main == t.main || (owner == ByMain && d.main == Resumed(t.main, t.race.errors))
    requires if step == RaceEnds then owner == ByMain && t.main == MFailing(s.race.lostDone) && s.main == MRacing
             else if step.GreetReads? then owner == ByMain && t.main == MTearing && s.main.MGreeting?
             else owner != ByMain && t.main == s.main
    ensures Moves(s, d, step)
  {
    NoErrors(s);
  }

  lemma TeardownMoves(s: Sys)
    requires Inv(s) && s.teardown.Tearing?
    ensures Moves(s, GoOn(s), TeardownGoesOn)
  {
    NoErrors(s);
    GoOnMoves(s);
  }

  // All other steps, by where they happen.

  predicate InConnect(step: Step) {
    || step.OpenFails? || step.OpenRaises? || step.OpenSucceeds? || step.SaluteFails? || step.SaluteSent?
    || step.GreetReads?
  }

  lemma ConnectMoves(s: Sys, step: Step)
    requires Enabled(s, step) && Caller(s, step).None? && InConnect(step)
    ensures Moves(s, Apply(s, step), step)
  {
    if step.GreetReads? {
      OnlyEofCloses(s.main.raw, step.arrival);
      ReactionMoves(s, React(s.main.raw, step.arrival), step);
    } else if step == OpenFails {
      FailMoves(s);
    } else {
      OpenMoves(s, step);
    }
  }

  lemma FailMoves(s: Sys)
    requires Enabled(s, OpenFails)
    ensures Moves(s, Apply(s, OpenFails), OpenFails)
  {
  }

  lemma OpenMoves(s: Sys, step: Step)
    requires Enabled(s, step)
    requires step == OpenRaises || step == OpenSucceeds || step == SaluteFails || step == SaluteSent
    ensures Moves(s, Apply(s, step), step)
  {
    NoErrors(s);
  }

  lemma ReactionMoves(s: Sys, reaction: Reaction, step: Step)
    requires s.main.MGreeting? && reaction != Finished(ServerClosed) && step.GreetReads? && step.arrival != Data([])
    ensures Moves(s, Reacted(s, reaction, step.startApi), step)
  {
    NoErrors(s);
  }

  /** Neither `create`, nor the race, nor the event. */
  predicate Calm(s: Sys, t: Sys) {
    t.main == s.main && t.race == s.race && t.link.lost == s.link.lost
  }

  predicate IsCalm(step: Step) {
    || step.Send? || step.TransportDrops? || step.ReaderStarts? || step.ReaderTurns? || step.ReaderCancelled?
    || (InWriter(step) && step != WriterWrites(OsFault) && step != WriterDrained(OsFault))
  }

  lemma CalmMoves(s: Sys, t: Sys, step: Step)
    requires Calm(s, t) && IsCalm(step)
    ensures Moves(s, t, step)
  {
    NoErrors(s);
  }

  lemma WriteCalm(s: Sys, step: Step)
    requires Enabled(s, step) && IsCalm(step) && (step.WriterWrites? || step.WriterDrained?)
    ensures Calm(s, Apply(s, step))
  {
  }

  lemma WriterCalm(s: Sys, step: Step)
    requires Enabled(s, step) && InWriter(step) && !step.WriterWrites? && !step.WriterDrained?
    ensures Calm(s, Apply(s, step))
  {
    if step.WriterCancelled? { assert Flush(s.link, step.good).lost == s.link.lost; }
  }

  lemma OtherCalm(s: Sys, step: Step)
    requires Enabled(s, step) && IsCalm(step) && !InWriter(step)
    ensures Calm(s, Apply(s, step))
  {
  }

  lemma NviMoves(s: Sys)
    requires Enabled(s, NviTask)
    ensures Moves(s, Apply(s, NviTask), NviTask)
  {
    NoErrors(s);
  }

  lemma DropMoves(s: Sys)
    requires Enabled(s, LostTask)
    ensures Moves(s, Apply(s, LostTask), LostTask)
  {
    NoErrors(s);
  }

  lemma TimerMoves(s: Sys)
    requires Enabled(s, RaceTimer)
    ensures Moves(s, Apply(s, RaceTimer), RaceTimer)
  {
    NoErrors(s);
  }

  lemma WinMoves(s: Sys)
    requires Enabled(s, RaceEnds) && s.race.nviDone
    ensures Moves(s, Apply(s, RaceEnds), RaceEnds)
  {
    NoErrors(s);
  }

  lemma ServerMoves(s: Sys, step: Step)
    requires Enabled(s, step) && (step.ServerNextValidId? || step.ServerError?)
    ensures Moves(s, Apply(s, step), step)
  {
    NoErrors(s);
  }

  lemma StepMoves(s: Sys, step: Step)
    requires Inv(s) && Enabled(s, step)
    ensures Moves(s, Apply(s, step), step)
  {
    if step == TeardownGoesOn { TeardownMoves(s); }
    else if Caller(s, step).Some? { CallerMoves(s, step); }
    else if InConnect(step) { ConnectMoves(s, step); }
    else if step == RaceEnds { WinMoves(s); }
    else if step == NviTask { NviMoves(s); }
    else if step == LostTask { DropMoves(s); }
    else if step == RaceTimer { TimerMoves(s); }
    else if step.ServerNextValidId? || step.ServerError? { ServerMoves(s, step); }
    else { StepIsCalm(s, step); }
  }

  lemma StepIsCalm(s: Sys, step: Step)
    requires Enabled(s, step) && IsCalm(step)
    ensures Moves(s, Apply(s, step), step)
  {
    if !InWriter(step) { OtherCalm(s, step); }
    else if step.WriterWrites? || step.WriterDrained? { WriteCalm(s, step); }
    else { WriterCalm(s, step); }
    CalmMoves(s, Apply(s, step), step);
  }

  lemma OutcomeMoves(s: Sys, t: Sys, step: Step, over: bool)
    requires Outcome(s.main, s.race, over, s.link.lost) && Moves(s, t, step)
    ensures Outcome(t.main, t.race, over || step == RaceEnds, t.link.lost)
  {
  }

  lemma HistoryMoves(s: Sys, t: Sys, steps: seq<Step>, step: Step)
    requires History(s, steps) && Moves(s, t, step)
    ensures History(t, steps + [step])
  {
    HistoryAppend(steps, step);
    OutcomeMoves(s, t, step, RaceEnds in steps);
  }

  lemma {:induction false} RunHistory(steps: seq<Step>)
    requires CanRun(START, steps)
    ensures History(Run(START, steps), steps)
    decreases steps
  {
    if steps != [] {
      var a, last := steps[..|steps| - 1], steps[|steps| - 1];
      assert steps == a + [last];
      RunAppend(START, a, last);
      RunHistory(a);
      InvAt(a);
      StepMoves(Run(START, a), last);
      HistoryMoves(Run(START, a), Run(START, steps), a, last);
    }
  }

  /** The race ends once, and none of its tasks runs afterwards. */
  lemma RaceEndsOnce(steps: seq<Step>, i: nat, j: nat)
    requires CanRun(START, steps) && i < j < |steps| && steps[i] == RaceEnds
    ensures steps[j] != RaceEnds && steps[j] != NviTask && steps[j] != LostTask
  {
    RunPrefix(START, steps, j);
    RunHistory(steps[..j]);
    assert steps[..j][i] == RaceEnds;
  }

  /** Where the race ends, what the two tasks have done is what they ever do. */
  lemma TasksAtTheEnd(steps: seq<Step>, i: nat)
    requires CanRun(START, steps) && i < |steps| && steps[i] == RaceEnds
    ensures NviTask in steps <==> NviTask in steps[..i]
    ensures LostTask in steps <==> LostTask in steps[..i]
  {
    forall j | 0 <= j < |steps| && (steps[j] == NviTask || steps[j] == LostTask) ensures steps[j] in steps[..i] {
      if i < j { RaceEndsOnce(steps, i, j); }
      assert steps[..i][j] == steps[j];
    }
  }

  // ----- the result of `create`

  ghost predicate RaceWon(steps: seq<Step>, i: nat) {
    i < |steps| && steps[i] == RaceEnds && NviTask in steps[..i]
  }

  ghost predicate RaceLost(steps: seq<Step>, i: nat) {
    i < |steps| && steps[i] == RaceEnds && NviTask !in steps[..i]
  }

  /** Over every run, `create` has returned the client if and only if the `nextValidId` task
      was done when the race ended, even if the connection was lost as well; and it has failed
      or is disconnecting to fail if and only if that task was not done then. */
  lemma CreateLaw(steps: seq<Step>)
    requires CanRun(START, steps)
    ensures Run(START, steps).main == MReturned(Client) <==> exists i :: RaceWon(steps, i)
    ensures var m := Run(START, steps).main;
            m.MFailing? || Failure(m) <==> exists i :: RaceLost(steps, i)
  {
    RunHistory(steps);
    forall i | 0 <= i < |steps| && steps[i] == RaceEnds
      ensures RaceWon(steps, i) <==> NviTask in steps
      ensures RaceLost(steps, i) <==> NviTask !in steps
    {
      TasksAtTheEnd(steps, i);
    }
    if RaceEnds in steps {
      var i :| 0 <= i < |steps| && steps[i] == RaceEnds;
      assert RaceWon(steps, i) || RaceLost(steps, i);
    }
  }

  /** What the race can do next, over every run: the `nextValidId` task can be done if and only
      if the server announced an id, the drop task if and only if a drop was signalled, the
      timer can always fire, and the race can end if and only if one of the three came. */
  lemma RaceGoesOn(steps: seq<Step>)
    requires CanRun(START, steps)
    ensures var s := Run(START, steps); var racing := s.main == MRacing;
            && (Enabled(s, NviTask) <==> racing && ServerNextValidId in steps)
            && (Enabled(s, LostTask) <==> racing && exists i :: Heard(steps, i))
            && (Enabled(s, RaceTimer) <==> racing)
            && (Enabled(s, RaceEnds) <==>
                racing && (NviTask in steps || LostTask in steps || RaceTimer in steps))
  {
    RunHistory(steps);
    LostIff(steps);
    RaceEnabled(Run(START, steps));
  }

  lemma RaceEnabled(s: Sys)
    ensures var racing := s.main == MRacing;
            && (Enabled(s, NviTask) <==> racing && s.race.nviSet)
            && (Enabled(s, LostTask) <==> racing && s.link.lost)
            && (Enabled(s, RaceTimer) <==> racing)
            && (Enabled(s, RaceEnds) <==> racing && (s.race.nviDone || s.race.lostDone || s.race.timer))
  {
  }

  lemma ResultStaysStep(s: Sys, step: Step)
    requires Inv(s) && Enabled(s, step) && s.main.MReturned?
    ensures Apply(s, step).main == s.main
  {
    StepMoves(s, step);
  }

  /** A result never changes. */
  lemma {:induction false} ResultStays(s: Sys, more: seq<Step>)
    requires Inv(s) && CanRun(s, more) && s.main.MReturned?
    ensures Run(s, more).main == s.main
    decreases more
  {
    if more != [] {
      ResultStaysStep(s, more[0]);
      InvStep(s, more[0]);
      ResultStays(Apply(s, more[0]), more[1..]);
    }
  }

  /** A failure that a step brings about names the cause and the errors known just then. */
  lemma FailureStep(s: Sys, step: Step)
    requires Inv(s) && Enabled(s, step) && !s.main.MReturned? && Failure(Apply(s, step).main)
    requires s.main.MFailing? ==> s.main.dropped == s.race.lostDone
    ensures step == RaceEnds || (step == TeardownGoesOn && s.main.MFailing?)
    ensures Apply(s, step).main == MReturned(FailureOf(s.race.lostDone, s.race.errors))
  {
    StepMoves(s, step);
  }

  /** Step `j` is the one with which `create` returns. */
  ghost predicate ReturnsAt(steps: seq<Step>, j: nat) {
    && j < |steps| && CanRun(START, steps[..j]) && CanRun(START, steps[..j + 1])
    && !Run(START, steps[..j]).main.MReturned? && Run(START, steps[..j + 1]).main.MReturned?
  }

  ghost predicate FailsBecause(steps: seq<Step>, i: nat, j: nat, m: MainTask) {
    && i <= j < |steps| && RaceLost(steps, i) && ReturnsAt(steps, j)
    && var code := LastFatal(ErrorsOf(steps[..j]));
       m == MReturned(if LostTask in steps[..i] then ConnectionClosed(code) else NoNextValidId(code))
  }

  lemma FailsNow(a: seq<Step>, last: Step) returns (i: nat)
    requires CanRun(START, a + [last]) && CanRun(START, a) && !Run(START, a).main.MReturned?
    requires Enabled(Run(START, a), last) && Run(START, a + [last]) == Apply(Run(START, a), last)
    requires Failure(Run(START, a + [last]).main)
    ensures FailsBecause(a + [last], i, |a|, Run(START, a + [last]).main)
  {
    var steps := a + [last];
    RunHistory(steps);
    RunHistory(a);
    InvAt(a);
    FailureStep(Run(START, a), last);
    i :| 0 <= i < |steps| && steps[i] == RaceEnds;
    TasksAtTheEnd(steps, i);
    LostSoFar(a, last, i);
    assert steps[..|a|] == a && steps[..|a| + 1] == steps;
  }

  lemma FailsBefore(a: seq<Step>, last: Step, i: nat, j: nat, m: MainTask)
    requires FailsBecause(a, i, j, m)
    ensures FailsBecause(a + [last], i, j, m)
  {
    var steps := a + [last];
    assert steps[..i] == a[..i] && steps[..j] == a[..j] && steps[..j + 1] == a[..j + 1];
  }

  /** The failure of `create`: the race ended at some step `i` without the `nextValidId` task,
      the failure blames a drop if and only if the drop task was done by then, and it names
      the last fatal error among all those received before the step `j` at which `create`
      returned, which is behind its own disconnect. */
  lemma {:induction false} FailureLaw(steps: seq<Step>) returns (i: nat, j: nat)
    requires CanRun(START, steps) && Failure(Run(START, steps).main)
    ensures FailsBecause(steps, i, j, Run(START, steps).main)
    decreases |steps|
  {
    RunHistory(steps);
    var a, last := steps[..|steps| - 1], steps[|steps| - 1];
    assert steps == a + [last];
    RunAppend(START, a, last);
    if Run(START, a).main.MReturned? {
      InvAt(a);
      ResultStaysStep(Run(START, a), last);
      i, j := FailureLaw(a);
      FailsBefore(a, last, i, j, Run(START, a).main);
    } else {
      i := FailsNow(a, last);
      j := |a|;
    }
  }

  /** And the client is down then. */
  lemma FailureIsDown(steps: seq<Step>)
    requires CanRun(START, steps) && (Run(START, steps).main.MFailing? || Failure(Run(START, steps).main))
    ensures Run(START, steps).link.state == Disconnected && Run(START, steps).link.lost
  {
    RunHistory(steps);
    InvAt(steps);
  }

  lemma LostSoFar(a: seq<Step>, last: Step, i: nat)
    requires CanRun(START, a + [last]) && i <= |a| && (a + [last])[i] == RaceEnds
    ensures LostTask in a <==> LostTask in (a + [last])[..i]
  {
    TasksAtTheEnd(a + [last], i);
    assert forall x | x in a :: x in a + [last];
    assert (a + [last])[..i] == a[..i];
  }

  // ----- exceptions that leave `create` as they are

  /** The arrivals the handshake takes in a run. */
  function ArrivalsOf(steps: seq<Step>): seq<Arrival> {
    if steps == [] then []
    else if steps[0].GreetReads? then [steps[0].arrival] + ArrivalsOf(steps[1..])
    else ArrivalsOf(steps[1..])
  }

  predicate IsException(g: Greeting) {
    g.BadVersion? || g.TimedOut? || g.Errored?
  }

  ghost predicate HandshakeRaises(raw: Bytes, steps: seq<Step>) {
    IsException(Greet(raw, ArrivalsOf(steps)).0)
  }

  predicate Propagates(s: Sys) {
    s.main == MReturned(Propagated)
  }

  lemma ConnectedStays(s: Sys, step: Step)
    requires Inv(s) && Enabled(s, step) && !Early(s.main)
    ensures !Early(Apply(s, step).main) && (Propagates(Apply(s, step)) <==> Propagates(s))
    ensures !step.GreetReads? && step != SaluteFails && step != OpenRaises
  {
    StepMoves(s, step);
  }

  lemma {:induction false} PastConnect(s: Sys, steps: seq<Step>)
    requires Inv(s) && CanRun(s, steps) && !Early(s.main)
    ensures Propagates(Run(s, steps)) <==> Propagates(s)
    ensures ArrivalsOf(steps) == [] && SaluteFails !in steps && OpenRaises !in steps
    decreases steps
  {
    if steps != [] {
      ConnectedStays(s, steps[0]);
      InvStep(s, steps[0]);
      PastConnect(Apply(s, steps[0]), steps[1..]);
    }
  }

  /** One arrival: the handshake goes on with what is unread, or it is over. */
  lemma GreetedMain(s: Sys, arrival: Arrival, startApi: Bytes)
    requires Inv(s) && s.main.MGreeting?
    ensures var t := Greeted(s, arrival, startApi);
            match React(s.main.raw, arrival)
            case Unfinished(raw) => t.main == MGreeting(raw)
            case Finished(g) => !Early(t.main) && (Propagates(t) <==> IsException(g))
  {
    if arrival == Data([]) { DisconnectMoves(s.(main := MTearing), ByMain); }
  }

  lemma {:induction false} FromGreeting(s: Sys, steps: seq<Step>)
    requires Inv(s) && CanRun(s, steps) && s.main.MGreeting?
    ensures Propagates(Run(s, steps)) <==> HandshakeRaises(s.main.raw, steps)
    ensures SaluteFails !in steps && OpenRaises !in steps
    decreases steps
  {
    if steps != [] {
      var step, rest := steps[0], steps[1..];
      InvStep(s, step);
      if step.GreetReads? {
        GreetedMain(s, step.arrival, step.startApi);
        assert ArrivalsOf(steps)[1..] == ArrivalsOf(rest);
        if React(s.main.raw, step.arrival).Unfinished? {
          FromGreeting(Apply(s, step), rest);
        } else {
          PastConnect(Apply(s, step), rest);
        }
      } else {
        FromGreeting(Apply(s, step), rest);
      }
    }
  }

  lemma {:induction false} FromTheStart(s: Sys, steps: seq<Step>)
    requires Inv(s) && CanRun(s, steps) && (s.main == MOpening || s.main == MSaluting)
    ensures Propagates(Run(s, steps)) <==>
            OpenRaises in steps || SaluteFails in steps || HandshakeRaises([], steps)
    decreases steps
  {
    if steps != [] {
      var step, rest := steps[0], steps[1..];
      var t := Apply(s, step);
      assert ArrivalsOf(steps) == ArrivalsOf(rest);
      InvStep(s, step);
      if t.main == MOpening || t.main == MSaluting {
        FromTheStart(t, rest);
      } else if t.main.MGreeting? {
        FromGreeting(t, rest);
      } else {
        PastConnect(t, rest);
      }
    }
  }

  /** The exact condition under which `create` breaks its promise to raise a ResponseTimeout:
      another exception leaves it if and only if the opening raised something that is no
      OSError, sending the client's version failed, or the handshake stalled, broke or met a
      version that is no number. `Handshake.GreetLaw` says for which arrivals it does. */
  lemma PropagatedIff(steps: seq<Step>)
    requires CanRun(START, steps)
    ensures Run(START, steps).main == MReturned(Propagated) <==>
            OpenRaises in steps || SaluteFails in steps || IsException(Greet([], ArrivalsOf(steps)).0)
  {
    StartInv();
    FromTheStart(START, steps);
  }

  /** Each of the three exceptions has a run that ends with it. */
  lemma PropagatedHappens(arrival: Arrival)
    requires arrival in {Stalled, Broken, Data(Frame(NO_VERSION))}
    ensures var steps := [OpenSucceeds, SaluteSent, GreetReads(arrival, [])];
            CanRun(START, steps) && Run(START, steps).main == MReturned(Propagated)
  {
    var a := Apply(START, OpenSucceeds);
    var b := Apply(a, SaluteSent);
    ExceptionIsPropagated(b, arrival);
    var c := Apply(b, GreetReads(arrival, []));
    assert CanRun(c, []) && Run(c, []) == c;
    OneMore(b, GreetReads(arrival, []), []);
    OneMore(a, SaluteSent, [GreetReads(arrival, [])]);
    OneMore(START, OpenSucceeds, [SaluteSent, GreetReads(arrival, [])]);
  }

  lemma ExceptionIsPropagated(s: Sys, arrival: Arrival)
    requires arrival in {Stalled, Broken, Data(Frame(NO_VERSION))} && s.main == MGreeting([])
    ensures Greeted(s, arrival, []).main == MReturned(Propagated)
  {
    ExceptionsHappen();
  }

  lemma OneMore(s: Sys, step: Step, rest: seq<Step>)
    requires Enabled(s, step) && CanRun(Apply(s, step), rest)
    ensures CanRun(s, [step] + rest) && Run(s, [step] + rest) == Run(Apply(s, step), rest)
  {
    assert ([step] + rest)[1..] == rest;
  }

  // ----- a client that was never opened

  lemma AfterOpening(s: Sys, step: Step)
    requires Inv(s) && Enabled(s, step) && InConnect(step) && Caller(s, step).None?
    ensures NeverOpened(Apply(s, step)) <==> step == OpenRaises
  {
    if step.GreetReads? {
      OnlyEofCloses(s.main.raw, step.arrival);
    }
  }

  lemma NeverOpenedStep(s: Sys, step: Step)
    requires Inv(s) && Enabled(s, step)
    ensures NeverOpened(Apply(s, step)) <==> NeverOpened(s) || step == OpenRaises
  {
    InvStep(s, step);
    if InConnect(step) && Caller(s, step).None? {
      AfterOpening(s, step);
    } else if step == TeardownGoesOn {
      GoOnAdvances(s);
    } else if Caller(s, step).Some? {
      StepMoves(s, step);
    } else {
      StepMoves(s, step);
      QuietStep(s, step);
      AttachedStays(s, step);
    }
  }

  lemma AttachedStays(s: Sys, step: Step)
    requires Enabled(s, step) && Caller(s, step).None? && step != TeardownGoesOn && !InConnect(step)
    ensures Apply(s, step).link.attached == s.link.attached
  {
    if InWriter(step) { WriterKeepsAttached(s, step); }
  }

  lemma WriterKeepsAttached(s: Sys, step: Step)
    requires Enabled(s, step) && Caller(s, step).None? && InWriter(step)
    ensures Apply(s, step).link.attached == s.link.attached
  {
    if step.WriterCancelled? {
      assert Flush(s.link, step.good).attached == s.link.attached;
    } else if step.WriterWrites? {
      assert WriteHead(s.link, step.fault != NoFault).attached == s.link.attached;
    }
  }

  lemma {:induction false} NeverOpenedIff(steps: seq<Step>)
    requires CanRun(START, steps)
    ensures NeverOpened(Run(START, steps)) <==> OpenRaises in steps
    decreases steps
  {
    if steps != [] {
      var a, last := steps[..|steps| - 1], steps[|steps| - 1];
      assert steps == a + [last];
      RunAppend(START, a, last);
      NeverOpenedIff(a);
      InvAt(a);
      NeverOpenedStep(Run(START, a), last);
    }
  }

  /** Behind the opening, the lost event is set exactly while the client is disconnected,
      unless the opening raised something that is no OSError: then the client is disconnected
      and the event is clear, for good. It says nothing about a drop that nobody has met. */
  lemma LostMeansDisconnected(steps: seq<Step>)
    requires CanRun(START, steps)
    ensures var s := Run(START, steps);
            && (s.link.state != Disconnected ==> !s.link.lost)
            && (s.main != MOpening ==> (s.link.lost <==> s.link.state == Disconnected && OpenRaises !in steps))
  {
    InvAt(steps);
    NeverOpenedIff(steps);
  }

  // ----- what such an exception leaves behind

  /** `create` has raised before there were any tasks: nothing is torn down or signalled, and
      the stream is attached exactly while the client is connecting. */
  predicate Untouched(s: Sys) {
    && s.writer == WNone && s.reader == RNone && !s.link.lost && s.teardown == Idle && s.teardowns == 0
    && s.link.state == if s.link.attached then Connecting else Disconnected
  }

  lemma UntouchedStep(s: Sys, step: Step)
    requires Inv(s) && Enabled(s, step) && step != UserDisconnects && (Propagates(s) ==> Untouched(s))
    ensures Propagates(Apply(s, step)) ==> Untouched(Apply(s, step))
  {
    if Early(s.main) {
      if step.GreetReads? { GreetedMain(s, step.arrival, step.startApi); }
    } else {
      ConnectedStays(s, step);
    }
  }

  lemma {:induction false} NothingHappensAfterwards(steps: seq<Step>)
    requires CanRun(START, steps) && UserDisconnects !in steps
    ensures Propagates(Run(START, steps)) ==> Untouched(Run(START, steps))
    decreases steps
  {
    if steps != [] {
      var a, last := steps[..|steps| - 1], steps[|steps| - 1];
      assert steps == a + [last];
      RunAppend(START, a, last);
      NothingHappensAfterwards(a);
      InvAt(a);
      UntouchedStep(Run(START, a), last);
    }
  }

  /** Such an exception leaves the caller without a client to disconnect: in every run without
      a call of `disconnect` from outside, however long, nothing is ever torn down and no drop
      is signalled. The stream stays attached, and so leaks, if and only if there is one: if
      the exception did not come from the opening itself. */
  lemma HandshakeExceptionLeaks(steps: seq<Step>)
    requires CanRun(START, steps) && UserDisconnects !in steps
    ensures Run(START, steps).main == MReturned(Propagated) ==>
              Untouched(Run(START, steps)) && (Run(START, steps).link.attached <==> OpenRaises !in steps)
  {
    NothingHappensAfterwards(steps);
    NeverOpenedIff(steps);
  }

  /** The two exceptions that come before the handshake reads anything. */
  lemma ConnectRaises()
    ensures CanRun(START, [OpenRaises])
    ensures var s := Run(START, [OpenRaises]); Propagates(s) && NeverOpened(s) && !s.link.lost
    ensures CanRun(START, [OpenSucceeds, SaluteFails])
    ensures var s := Run(START, [OpenSucceeds, SaluteFails]);
            Propagates(s) && s.link.state == Connecting && s.link.attached && !s.link.lost
  {
    var a, b := Apply(START, OpenRaises), Apply(START, OpenSucceeds);
    var c := Apply(b, SaluteFails);
    assert CanRun(a, []) && Run(a, []) == a && CanRun(c, []) && Run(c, []) == c;
    OneMore(START, OpenRaises, []);
    assert [OpenRaises] + [] == [OpenRaises];
    OneMore(b, SaluteFails, []);
    OneMore(START, OpenSucceeds, [SaluteFails]);
  }

  /** A connection error in the middle of the handshake: met, and not signalled. */
  lemma BrokenHandshake()
    ensures var steps := [OpenSucceeds, SaluteSent, GreetReads(Broken, [])];
            && CanRun(START, steps) && Propagates(Run(START, steps))
            && Run(START, steps).link.state == Connecting && !Run(START, steps).link.lost
  {
    var steps := [OpenSucceeds, SaluteSent, GreetReads(Broken, [])];
    PropagatedHappens(Broken);
    NothingHappensAfterwards(steps);
    NeverOpenedIff(steps);
  }

  // ----- which drops are heard of

  /** The step disconnects on its own account: the user, unless there never was anything to
      disconnect, or `create` after a lost race. */
  ghost predicate Disconnects(steps: seq<Step>, i: nat) {
    && i < |steps|
    && ((steps[i] == UserDisconnects && OpenRaises !in steps[..i]) || RaceLost(steps, i))
  }

  /** A step that meets a drop signals it, unless it is an error inside the handshake: a
      failing send of the client's version or a failing read of the reply. */
  lemma MetDropIsSignalled(s: Sys, step: Step)
    requires Inv(s) && Enabled(s, step) && MeetsDrop(step)
    ensures Apply(s, step).link.lost <==>
            step != SaluteFails && !(step.GreetReads? && step.arrival == Broken)
    ensures Apply(s, step).link.lost ==> Apply(s, step).link.state == Disconnected
  {
    StepMoves(s, step);
    InvStep(s, step);
  }

  /** The exact condition for the lost event, over every run: it is set if and only if some
      step signalled a drop, or somebody disconnected. A drop that the handshake meets as an
      error, or that the loops meet only at their `isConnected` guard, is never signalled. */
  lemma {:induction false} LostIff(steps: seq<Step>)
    requires CanRun(START, steps)
    ensures Run(START, steps).link.lost <==> exists i :: Heard(steps, i)
    decreases steps
  {
    if steps != [] {
      var a, last := steps[..|steps| - 1], steps[|steps| - 1];
      assert steps == a + [last];
      RunAppend(START, a, last);
      LostIff(a);
      InvAt(a);
      RunHistory(a);
      NeverOpenedIff(a);
      StepMoves(Run(START, a), last);
      HeardAppend(a, last);
    }
  }

  ghost predicate Heard(steps: seq<Step>, i: nat) {
    i < |steps| && (Signals(steps[i]) || Disconnects(steps, i))
  }

  lemma HeardAppend(a: seq<Step>, last: Step)
    ensures (exists i :: Heard(a + [last], i)) <==>
            || (exists i :: Heard(a, i))
            || Signals(last)
            || (last == UserDisconnects && OpenRaises !in a)
            || (last == RaceEnds && NviTask !in a)
  {
    var steps := a + [last];
    assert steps[..|a|] == a;
    assert forall i | 0 <= i < |a| :: steps[i] == a[i] && steps[..i] == a[..i];
    assert forall i: nat | i < |a| :: Heard(steps, i) <==> Heard(a, i);
    assert Heard(steps, |a|) <==>
           || Signals(last) || (last == UserDisconnects && OpenRaises !in a)
           || (last == RaceEnds && NviTask !in a);
    assert forall i: nat :: Heard(steps, i) ==> i < |a| || i == |a|;
  }

  /** The read loop ends without a signal exactly at its guard ... */
  lemma ReaderEndsQuietly(s: Sys, step: Step)
    requires Inv(s) && Enabled(s, step) && !s.link.lost && s.reader != RDone && s.teardown == Idle
    ensures var t := Apply(s, step);
            t.reader == RDone && !t.link.lost <==>
            && step in {ReaderStarts, ReaderTurns}
            && !(s.link.state == Connected && s.link.attached && !s.link.closing)
  {
    StepMoves(s, step);
  }

  /** ... and so does the write loop, but for an exception that is no OSError. */
  lemma WriterEndsQuietly(s: Sys, step: Step)
    requires Inv(s) && Enabled(s, step) && !s.link.lost && s.writer != WDone && s.teardown == Idle
    ensures var t := Apply(s, step);
            t.writer == WDone && !t.link.lost <==>
            || (step in {WriterStarts, WriterIdles, WriterDrained(NoFault)}
                && !(s.link.state == Connected && s.link.attached && !s.link.closing))
            || step in {WriterWrites(OtherFault), WriterDrained(OtherFault)}
  {
    StepMoves(s, step);
  }

  /** Both loops are gone, and nothing was signalled. */
  predicate Silent(s: Sys) {
    s.reader == RDone && s.writer == WDone && !s.link.lost && !s.race.timer
  }

  /** From there on nobody notices: without a call of `disconnect` from outside and without
      the timer of `create`, the event stays clear and nothing is torn down for good. */
  lemma {:induction false} SilenceStays(s: Sys, steps: seq<Step>)
    requires Inv(s) && CanRun(s, steps) && Silent(s)
    requires UserDisconnects !in steps && RaceTimer !in steps
    ensures Silent(Run(s, steps)) && Run(s, steps).teardowns == 0 && Run(s, steps).link.state != Disconnected
    decreases steps
  {
    if steps != [] {
      assert steps[0] != UserDisconnects && steps[0] != RaceTimer;
      SilentStep(s, steps[0]);
      InvStep(s, steps[0]);
      SilenceStays(Apply(s, steps[0]), steps[1..]);
    }
  }

  lemma SilentStep(s: Sys, step: Step)
    requires Inv(s) && Silent(s) && Enabled(s, step) && step != UserDisconnects && step != RaceTimer
    ensures Silent(Apply(s, step))
  {
    StepMoves(s, step);
  }

  /** "200" and an empty time. */
  const HELLO: Bytes := [50, 48, 48, NUL, NUL]

  lemma HelloGreets()
    ensures React([], Data(Frame(HELLO))) == Finished(Negotiated(200, [], []))
  {
    assert Digits(2) == [50] && Digits(20) == [50, 48] && Digits(200) == [50, 48, 48];
    assert JoinFields([Render(200), []][1..]) == [NUL];
    assert JoinFields([Render(200), []]) == HELLO;
    RenderedReply(200, [], []);
    ReadMsgOfFrame(HELLO, []);
    assert Frame(HELLO) + [] == Frame(HELLO) == [] + Frame(HELLO);
  }

  /** A drop that silences the client: the transport closes while both loops wait, and each of
      them meets it at its guard. */
  const SILENT_DROP: seq<Step> :=
    [OpenSucceeds] + ([SaluteSent] + ([GreetReads(Data(Frame(HELLO)), [])] +
    LOOPS))

  lemma SilentDropHappens()
    ensures CanRun(START, SILENT_DROP)
    ensures var s := Run(START, SILENT_DROP);
            Silent(s) && s.main == MRacing && s.link.state == Connected && s.link.closing && s.teardowns == 0
  {
    HelloGreets();
    var greeted := Apply(Apply(START, OpenSucceeds), SaluteSent);
    var a := Apply(greeted, GreetReads(Data(Frame(HELLO)), []));
    assert a.main == MRacing && a.writer == WReady && a.reader == RReady && IsConnected(a.link);
    LoopsEndQuietly(a);
    OneMore(greeted, GreetReads(Data(Frame(HELLO)), []), LOOPS);
    OneMore(Apply(START, OpenSucceeds), SaluteSent, [GreetReads(Data(Frame(HELLO)), [])] + LOOPS);
    OneMore(START, OpenSucceeds, [SaluteSent] + ([GreetReads(Data(Frame(HELLO)), [])] + LOOPS));
  }

  // ----- runs in which `create` has a result

  /** The connected client of every run that greets well. */
  lemma Greeting()
    ensures var a := Apply(START, OpenSucceeds); var b := Apply(a, SaluteSent);
            && Enabled(b, GreetReads(Data(Frame(HELLO)), [])) && b.main == MGreeting([])
            && var c := Apply(b, GreetReads(Data(Frame(HELLO)), []));
               && c.main == MRacing && c.writer == WReady && c.reader == RReady && IsConnected(c.link)
               && c.race == Race(false, false, false, false, []) && c.link.queue == [[]]
  {
    HelloGreets();
  }

  const ANNOUNCED: seq<Step> :=
    [ReaderStarts] + ([ServerNextValidId] + ([NviTask] + ([RaceEnds] + [])))

  const SUCCESS: seq<Step> :=
    [OpenSucceeds] + ([SaluteSent] + ([GreetReads(Data(Frame(HELLO)), [])] + ANNOUNCED))

  lemma AnnouncementWins(s: Sys)
    requires s.main == MRacing && s.reader == RReady && IsConnected(s.link)
    ensures CanRun(s, ANNOUNCED) && Run(s, ANNOUNCED).main == MReturned(Client)
    ensures IsConnected(Run(s, ANNOUNCED).link)
  {
    var a := Apply(s, ReaderStarts);
    var b := Apply(a, ServerNextValidId);
    var c := Apply(b, NviTask);
    OneMore(c, RaceEnds, []);
    OneMore(b, NviTask, [RaceEnds] + []);
    OneMore(a, ServerNextValidId, [NviTask] + ([RaceEnds] + []));
    OneMore(s, ReaderStarts, [ServerNextValidId] + ([NviTask] + ([RaceEnds] + [])));
  }

  /** The server greets and announces an id, and `create` returns a connected client. */
  lemma CreateSucceeds()
    ensures CanRun(START, SUCCESS) && Run(START, SUCCESS).main == MReturned(Client)
    ensures IsConnected(Run(START, SUCCESS).link)
  {
    Greeting();
    var a := Apply(START, OpenSucceeds);
    var b := Apply(a, SaluteSent);
    AnnouncementWins(Apply(b, GreetReads(Data(Frame(HELLO)), [])));
    OneMore(b, GreetReads(Data(Frame(HELLO)), []), ANNOUNCED);
    OneMore(a, SaluteSent, [GreetReads(Data(Frame(HELLO)), [])] + ANNOUNCED);
    OneMore(START, OpenSucceeds, [SaluteSent] + ([GreetReads(Data(Frame(HELLO)), [])] + ANNOUNCED));
  }

  /** A refused connection makes `create` fail at once, naming the error of the opening. */
  lemma RefusalFails()
    ensures var steps := [OpenFails] + ([LostTask] + ([RaceEnds] + []));
            CanRun(START, steps) && Run(START, steps).main == MReturned(ConnectionClosed(Some(502)))
  {
    var a := Apply(START, OpenFails);
    var b := Apply(a, LostTask);
    assert a.race.errors == [502] && !Informational(502);
    OneMore(b, RaceEnds, []);
    OneMore(a, LostTask, [RaceEnds] + []);
    OneMore(START, OpenFails, [LostTask] + ([RaceEnds] + []));
  }

  const LOOPS: seq<Step> :=
    [WriterStarts] + ([ReaderStarts] + ([TransportDrops] + ([ReaderTurns] + ([WriterIdles] + []))))

  lemma LoopsEndQuietly(s: Sys)
    requires s.writer == WReady && s.reader == RReady && IsConnected(s.link)
    ensures CanRun(s, LOOPS)
    ensures Run(s, LOOPS) == s.(writer := WDone, reader := RDone, link := s.link.(closing := true))
  {
    var a := Apply(s, WriterStarts);
    var b := Apply(a, ReaderStarts);
    var c := Apply(b, TransportDrops);
    var d := Apply(c, ReaderTurns);
    OneMore(d, WriterIdles, []);
    OneMore(c, ReaderTurns, [WriterIdles] + []);
    OneMore(b, TransportDrops, [ReaderTurns] + ([WriterIdles] + []));
    OneMore(a, ReaderStarts, [TransportDrops] + ([ReaderTurns] + ([WriterIdles] + [])));
    OneMore(s, WriterStarts, [ReaderStarts] + ([TransportDrops] + ([ReaderTurns] + ([WriterIdles] + []))));
  }
}
