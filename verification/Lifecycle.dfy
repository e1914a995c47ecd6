/** `create`, the read loop, the write loop and any number of `disconnect` calls over one
    connection, interleaved at their `await`s. */
module Lifecycle {
  import opened Decimal
  import opened ClientState
  import opened Handshake
  import opened WritePath

  /** Who runs the body of `disconnect`, and at which of its waits it is. */
  datatype Owner = ByMain | ByUser | ByReader | ByWriter

  datatype Stage = AwaitWriter | AwaitReader | AwaitClosed

  datatype Teardown = Idle | Tearing(owner: Owner, stage: Stage)

  datatype WriterTask = WNone | WReady | WGetting | WDraining | WFlushing | WTearing | WDone

  datatype ReaderTask = RNone | RReady | RReading | RTearing | RDone

  /** `create`: opening the stream, sending the own version, the handshake with what it has
      unread, a teardown after EOF in it, the race of `nextValidId` against a drop, the
      disconnect after a lost race, and the result. */
  datatype MainTask =
    | MOpening | MSaluting | MGreeting(raw: Bytes) | MTearing | MRacing | MFailing(dropped: bool)
    | MReturned(result: Result)

  /** The two failures name the last fatal error known; `Propagated` is any other exception. */
  datatype Result = Client | ConnectionClosed(code: Option<int>) | NoNextValidId(code: Option<int>) | Propagated

  /** The race of `create`: the `nextValidId` event, the two tasks, the timer, and the errors
      received under id -1. */
  datatype Race = Race(nviSet: bool, nviDone: bool, lostDone: bool, timer: bool, errors: seq<int>)

  datatype Sys = Sys(
    link: Link, main: MainTask, writer: WriterTask, reader: ReaderTask,
    writerCancel: bool, readerCancel: bool, writerSlot: bool, readerSlot: bool,
    teardown: Teardown, teardowns: nat, closedCalls: nat,
    race: Race)

  const START := Sys(UNCONNECTED, MOpening, WNone, RNone, false, false, false, false,
                     Idle, 0, 0, Race(false, false, false, false, []))

  const CONNECT_FAIL := 502

  datatype Fault = NoFault | OsFault | OtherFault

  /** `OpenFails` is an OSError, `OpenRaises` any other exception of the opening. */
  datatype Step =
    | OpenFails | OpenRaises | OpenSucceeds | SaluteFails | SaluteSent | GreetReads(arrival: Arrival, startApi: Bytes)
    | Send(frame: Bytes) | TransportDrops
    | WriterStarts | WriterIdles | WriterWrites(fault: Fault) | WriterDrained(fault: Fault)
    | WriterCancelled(good: nat) | WriterFlushed
    | ReaderStarts | ReaderTurns | ReaderFails | ReaderCancelled
    | ServerNextValidId | ServerError(code: int)
    | UserDisconnects | TeardownGoesOn
    | NviTask | LostTask | RaceTimer | RaceEnds

  /** The last error under id -1 that is not informational. */
  function LastFatal(errors: seq<int>): (code: Option<int>)
    ensures code.None? <==> forall c | c in errors :: Informational(c)
    ensures code.Some? ==>
              exists k :: 0 <= k < |errors| && errors[k] == code.value && !Informational(errors[k])
                          && forall j | k < j < |errors| :: Informational(errors[j])
  {
    if errors == [] then None
    else if !Informational(errors[|errors| - 1]) then Some(errors[|errors| - 1])
    else
      assert errors == errors[..|errors| - 1] + [errors[|errors| - 1]];
      LastFatal(errors[..|errors| - 1])
  }

  function FailureOf(dropped: bool, errors: seq<int>): Result {
    if dropped then ConnectionClosed(LastFatal(errors)) else NoNextValidId(LastFatal(errors))
  }

  // ----- disconnect

  /** `disconnect` returns to its caller. */
  function BackTo(s: Sys, owner: Owner): Sys {
    match owner
    case ByUser => s
    case ByReader => s.(reader := RDone)
    case ByWriter => s.(writer := WDone)
    case ByMain =>
      if s.main.MFailing? then s.(main := MReturned(FailureOf(s.main.dropped, s.race.errors)))
      else s.(main := MRacing)
  }

  function FinishTeardown(s: Sys, owner: Owner): Sys {
    BackTo(s.(link := Detach(s.link), teardown := Idle), owner)
  }

  /** Behind the tasks: forget them and close the stream. */
  function CloseStream(s: Sys, owner: Owner): Sys {
    var t := s.(writerSlot := false, readerSlot := false);
    if StreamOpen(s.link) then t.(link := CloseLink(s.link), teardown := Tearing(owner, AwaitClosed))
    else FinishTeardown(t, owner)
  }

  /** A task that cancels itself absorbs the cancellation at its next wait. */
  function CancelReader(s: Sys, owner: Owner): Sys {
    if s.readerSlot && s.reader != RDone then
      s.(readerCancel := owner != ByReader, teardown := Tearing(owner, AwaitReader))
    else CloseStream(s, owner)
  }

  function CancelWriter(s: Sys, owner: Owner): Sys {
    if s.writerSlot && s.writer != WDone then
      s.(writerCancel := owner != ByWriter, teardown := Tearing(owner, AwaitWriter))
    else CancelReader(s, owner)
  }

  /** The caller that gets past the guard marks the client as disconnected. */
  function Marked(s: Sys, owner: Owner): Sys {
    var t := s.(link := MarkDown(s.link), teardowns := s.teardowns + 1);
    match owner
    case ByReader => t.(reader := RTearing)
    case ByWriter => t.(writer := WTearing)
    case _ => t
  }

  /** A call of `disconnect` up to its first wait. */
  function Disconnect(s: Sys, owner: Owner): Sys {
    if s.link.state == Disconnected then BackTo(s, owner) else CancelWriter(Marked(s, owner), owner)
  }

  /** The next piece of the running teardown; its waits end by completion or by timeout. */
  function GoOn(s: Sys): Sys
    requires s.teardown.Tearing?
  {
    var owner := s.teardown.owner;
    match s.teardown.stage
    case AwaitWriter => CancelReader(s, owner)
    case AwaitReader => CloseStream(s, owner)
    case AwaitClosed => FinishTeardown(s.(closedCalls := s.closedCalls + 1), owner)
  }

  // ----- the steps

  function WriterHead(s: Sys): Sys {
    s.(writer := if IsConnected(s.link) then WGetting else WDone)
  }

  function ReaderHead(s: Sys): Sys {
    s.(reader := if IsConnected(s.link) then RReading else RDone)
  }

  /** `create` is still inside `connect`, before it has any tasks. */
  predicate Early(m: MainTask) {
    m == MOpening || m == MSaluting || m.MGreeting?
  }

  /** How the handshake takes one arrival. */
  function Greeted(s: Sys, arrival: Arrival, startApi: Bytes): Sys
    requires s.main.MGreeting?
  {
    Reacted(s, React(s.main.raw, arrival), startApi)
  }

  function Reacted(s: Sys, reaction: Reaction, startApi: Bytes): Sys {
    match reaction
    case Unfinished(raw) => s.(main := MGreeting(raw))
    case Finished(ServerClosed) => Disconnect(s.(main := MTearing), ByMain)
    case Finished(Negotiated(_, _, _)) =>
      s.(link := Accept(s.link.(state := Connected), startApi), main := MRacing,
         writer := WReady, reader := RReady, writerSlot := true, readerSlot := true)
    case Finished(_) => s.(main := MReturned(Propagated))
  }

  predicate Enabled(s: Sys, step: Step) {
    match step
    case OpenFails => s.main == MOpening
    case OpenRaises => s.main == MOpening
    case OpenSucceeds => s.main == MOpening
    case SaluteFails => s.main == MSaluting
    case SaluteSent => s.main == MSaluting
    case GreetReads(_, _) => s.main.MGreeting?
    case Send(_) => true
    case TransportDrops => s.link.attached
    case WriterStarts => s.writer == WReady
    case WriterIdles => s.writer == WGetting
    case WriterWrites(_) => s.writer == WGetting && s.link.queue != []
    case WriterDrained(_) => s.writer == WDraining
    case WriterCancelled(_) => s.writerCancel && s.writer in {WReady, WGetting, WDraining}
    case WriterFlushed => s.writer == WFlushing
    case ReaderStarts => s.reader == RReady
    case ReaderTurns => s.reader == RReading
    case ReaderFails => s.reader == RReading
    case ReaderCancelled => s.readerCancel && s.reader in {RReady, RReading}
    case ServerNextValidId => s.reader == RReading
    case ServerError(_) => s.reader == RReading
    case UserDisconnects => !Early(s.main)
    case TeardownGoesOn => s.teardown.Tearing?
    case NviTask => s.main == MRacing && s.race.nviSet
    case LostTask => s.main == MRacing && s.link.lost
    case RaceTimer => s.main == MRacing
    case RaceEnds => s.main == MRacing && (s.race.nviDone || s.race.lostDone || s.race.timer)
  }

  function Apply(s: Sys, step: Step): Sys
    requires Enabled(s, step)
  {
    match step
    case OpenFails =>
      s.(link := s.link.(lost := true), race := s.race.(errors := s.race.errors + [CONNECT_FAIL]), main := MRacing)
    case OpenRaises => s.(main := MReturned(Propagated))
    case OpenSucceeds => s.(link := s.link.(state := Connecting, attached := true), main := MSaluting)
    case SaluteFails => s.(main := MReturned(Propagated))
    case SaluteSent => s.(main := MGreeting([]))
    case GreetReads(arrival, startApi) => Greeted(s, arrival, startApi)
    case Send(frame) => s.(link := Accept(s.link, frame))
    case TransportDrops => s.(link := s.link.(closing := true))
    case WriterStarts => if s.link.attached then WriterHead(s) else s.(writer := WDone)
    case WriterIdles => WriterHead(s)
    case WriterWrites(fault) =>
      var t := s.(link := WriteHead(s.link, fault != NoFault));
      (match fault
       case NoFault => t.(writer := WDraining)
       case OsFault => Disconnect(t, ByWriter)
       case OtherFault => t.(writer := WDone))
    case WriterDrained(fault) =>
      (match fault
       case NoFault => WriterHead(s)
       case OsFault => Disconnect(s, ByWriter)
       case OtherFault => s.(writer := WDone))
    case WriterCancelled(good) =>
      if s.writer == WReady then s.(writer := WDone, writerCancel := false)
      else s.(link := Flush(s.link, good), writer := if s.link.closing then WDone else WFlushing, writerCancel := false)
    case WriterFlushed => s.(writer := WDone)
    case ReaderStarts => ReaderHead(s)
    case ReaderTurns => ReaderHead(s)
    case ReaderFails => Disconnect(s, ByReader)
    case ReaderCancelled => s.(reader := RDone, readerCancel := false)
    case ServerNextValidId => s.(race := s.race.(nviSet := true))
    case ServerError(code) => s.(race := s.race.(errors := s.race.errors + [code]))
    case UserDisconnects => Disconnect(s, ByUser)
    case TeardownGoesOn => GoOn(s)
    case NviTask => s.(race := s.race.(nviDone := true))
    case LostTask => s.(race := s.race.(lostDone := true))
    case RaceTimer => s.(race := s.race.(timer := true))
    case RaceEnds =>
      if s.race.nviDone then s.(main := MReturned(Client))
      else Disconnect(s.(main := MFailing(s.race.lostDone)), ByMain)
  }

  predicate CanRun(s: Sys, steps: seq<Step>)
    decreases steps
  {
    steps == [] || (Enabled(s, steps[0]) && CanRun(Apply(s, steps[0]), steps[1..]))
  }

  function Run(s: Sys, steps: seq<Step>): Sys
    requires CanRun(s, steps)
    decreases steps
  {
    if steps == [] then s else Run(Apply(s, steps[0]), steps[1..])
  }

  /** Neither the peer nor the transport nor the user is restricted: a task that waits for them
      can meet anything, a write can fail in any way, and a flush at any frame. */
  lemma AnythingCanHappen(s: Sys)
    ensures forall frame :: Enabled(s, Send(frame))
    ensures s.link.attached ==> Enabled(s, TransportDrops)
    ensures s.main == MOpening ==> Enabled(s, OpenFails) && Enabled(s, OpenRaises) && Enabled(s, OpenSucceeds)
    ensures s.main == MSaluting ==> Enabled(s, SaluteFails) && Enabled(s, SaluteSent)
    ensures s.main.MGreeting? ==> forall arrival, startApi :: Enabled(s, GreetReads(arrival, startApi))
    ensures s.reader == RReading ==>
              && Enabled(s, ReaderTurns) && Enabled(s, ReaderFails) && Enabled(s, ServerNextValidId)
              && forall code :: Enabled(s, ServerError(code))
    ensures s.writer == WGetting && s.link.queue != [] ==> forall fault :: Enabled(s, WriterWrites(fault))
    ensures s.writer == WDraining ==> forall fault :: Enabled(s, WriterDrained(fault))
    ensures !Early(s.main) ==> Enabled(s, UserDisconnects)
  {
  }

  /** At its head a loop goes on if and only if the client is connected over an open stream. */
  lemma LoopHeads(s: Sys)
    ensures var open := s.link.state == Connected && s.link.attached && !s.link.closing;
            && (forall step | step in {WriterStarts, WriterIdles, WriterDrained(NoFault)} && Enabled(s, step) ::
                  Apply(s, step).writer == if open then WGetting else WDone)
            && (forall step | step in {ReaderStarts, ReaderTurns} && Enabled(s, step) ::
                  Apply(s, step).reader == if open then RReading else RDone)
  {
  }

  /** A task that is cancelled can end, whatever it waits for, and then has ended. */
  lemma CancelledTasksEnd(s: Sys)
    ensures s.writerCancel && s.writer in {WReady, WGetting, WDraining} ==>
              forall good ::
                && Enabled(s, WriterCancelled(good))
                && var t := Apply(s, WriterCancelled(good)); t.writer in {WDone, WFlushing} && !t.writerCancel
    ensures s.writer == WFlushing ==> Enabled(s, WriterFlushed) && Apply(s, WriterFlushed).writer == WDone
    ensures s.readerCancel && s.reader in {RReady, RReading} ==>
              Enabled(s, ReaderCancelled) && Apply(s, ReaderCancelled).reader == RDone
  {
  }

  // ----- invariants

  /** The write loop can write no more. */
  predicate Silenced(s: Sys) {
    s.link.closing || s.writer in {WFlushing, WTearing, WDone}
  }

  /** Conservation, and discarding only where nothing is written afterwards. */
  predicate WriteInv(s: Sys) {
    && Conserved(s.link)
    && (s.link.discarded != [] ==> Silenced(s))
    && (s.writer == WNone ==> s.link.wire == [] && s.link.discarded == [])
  }

  /** The teardown: at most one, run by the task that is inside it, and complete at its end. */
  predicate TeardownInv(s: Sys) {
    && s.teardowns <= 1
    && (s.link.state != Disconnected ==> s.teardowns == 0)
    && (s.teardown.Tearing? ==> s.teardowns == 1)
    && (s.writer == WTearing <==> s.teardown.Tearing? && s.teardown.owner == ByWriter)
    && (s.reader == RTearing <==> s.teardown.Tearing? && s.teardown.owner == ByReader)
    && (s.main.MTearing? || s.main.MFailing? <==> s.teardown.Tearing? && s.teardown.owner == ByMain)
    && (s.teardowns == 1 && s.teardown == Idle ==> !s.writerSlot && !s.readerSlot && !s.link.attached)
    && (s.teardown.Tearing? && s.teardown.stage == AwaitClosed ==>
          s.closedCalls == 0 && !s.writerSlot && !s.readerSlot && s.link.closing)
    && (s.closedCalls > 0 ==> s.closedCalls == 1 && s.teardowns == 1 && s.teardown == Idle)
    && (s.writerCancel || s.readerCancel || s.writer == WFlushing ==> s.teardowns == 1)
  }

  /** The opening raised something that `connect` does not catch, and nothing was set up. */
  predicate NeverOpened(s: Sys) {
    s.main == MReturned(Propagated) && !s.link.attached && s.teardowns == 0
  }

  /** The handshake: while opening nothing has happened yet, and from then on the lost event
      says whether the client is disconnected, unless it was never opened at all. */
  predicate HandshakeInv(s: Sys) {
    && (s.main == MOpening ==>
          s.link.state == Disconnected && !s.link.lost && !s.link.attached && s.teardowns == 0)
    && (s.main != MOpening ==> (s.link.lost <==> s.link.state == Disconnected && !NeverOpened(s)))
    && (NeverOpened(s) ==> s.link.state == Disconnected && s.writer == WNone && s.reader == RNone)
    && (Early(s.main) ==> s.writer == WNone && s.reader == RNone && !s.writerSlot && !s.readerSlot)
    && (s.main == MSaluting || s.main.MGreeting? ==> s.link.state == Connecting && s.link.attached)
    && (s.race.nviDone ==> s.race.nviSet) && (s.race.lostDone ==> s.link.lost)
  }

  predicate Inv(s: Sys) {
    WriteInv(s) && TeardownInv(s) && HandshakeInv(s)
  }

  lemma StartInv()
    ensures Inv(START)
  {
  }

  // The body of `disconnect`.

  /** What the teardown leaves to the others. */
  predicate TeardownFrame(s: Sys, t: Sys) {
    && t.link.queue == s.link.queue && t.link.wire == s.link.wire
    && t.link.discarded == s.link.discarded && t.link.accepted == s.link.accepted
    && (s.link.closing ==> t.link.closing)
    && (t.writer == s.writer || (s.writer != WNone && t.writer in {WTearing, WDone}))
    && t.race == s.race
  }

  /** `owner` is inside the body, the body has not closed anything yet, and nobody else is. */
  predicate Inside(s: Sys, owner: Owner) {
    && s.teardowns == 1 && s.link.state == Disconnected && s.link.lost && s.closedCalls == 0
    && (s.writer == WTearing <==> owner == ByWriter)
    && (s.reader == RTearing <==> owner == ByReader)
    && (s.main.MTearing? || s.main.MFailing? <==> owner == ByMain)
    && !Early(s.main)
  }

  /** What holds between any two pieces of a teardown, and after it. */
  predicate After(s: Sys, t: Sys) {
    TeardownInv(t) && TeardownFrame(s, t) && t.link.state == Disconnected && t.link.lost
    && !Early(t.main)
    && (t.teardown.Tearing? || t.teardowns == 1)
  }

  lemma FinishInv(s: Sys, owner: Owner)
    requires Inside(s.(closedCalls := 0), owner) && s.closedCalls <= 1 && !s.writerSlot && !s.readerSlot
    ensures After(s, FinishTeardown(s, owner))
  {
  }

  lemma CloseStreamInv(s: Sys, owner: Owner)
    requires Inside(s, owner)
    ensures After(s, CloseStream(s, owner))
  {
    var t := s.(writerSlot := false, readerSlot := false);
    FinishInv(t, owner);
  }

  lemma CancelReaderInv(s: Sys, owner: Owner)
    requires Inside(s, owner)
    ensures After(s, CancelReader(s, owner))
  {
    CloseStreamInv(s, owner);
  }

  lemma CancelWriterInv(s: Sys, owner: Owner)
    requires Inside(s, owner)
    ensures After(s, CancelWriter(s, owner))
  {
    CancelReaderInv(s, owner);
  }

  lemma GoOnInv(s: Sys)
    requires TeardownInv(s) && HandshakeInv(s) && s.teardown.Tearing?
    ensures After(s, GoOn(s))
  {
    var owner := s.teardown.owner;
    match s.teardown.stage {
      case AwaitWriter => CancelReaderInv(s, owner);
      case AwaitReader => CloseStreamInv(s, owner);
      case AwaitClosed => FinishInv(s.(closedCalls := s.closedCalls + 1), owner);
    }
  }

  /** Who calls `disconnect`, and what it is doing when it does. */
  predicate Calling(s: Sys, owner: Owner) {
    match owner
    case ByUser => true
    case ByReader => s.reader == RReading
    case ByWriter => s.writer in {WGetting, WDraining}
    case ByMain => s.main.MGreeting? || s.main == MRacing
  }

  /** The caller as it enters: `create` notes where it will go on. */
  function Entered(s: Sys, owner: Owner, main: MainTask): Sys {
    if owner == ByMain then s.(main := main) else s
  }

  predicate MayEnter(s: Sys, owner: Owner, main: MainTask) {
    && TeardownInv(s) && HandshakeInv(s) && Calling(s, owner) && !NeverOpened(s)
    && if owner == ByMain then main.MTearing? || main.MFailing? else !Early(s.main)
  }

  lemma MarkedInside(s: Sys, owner: Owner, main: MainTask)
    requires MayEnter(s, owner, main) && s.link.state != Disconnected
    ensures Inside(Marked(Entered(s, owner, main), owner), owner)
    ensures TeardownFrame(s, Marked(Entered(s, owner, main), owner))
  {
  }

  predicate Down(s: Sys, t: Sys) {
    && TeardownInv(t) && TeardownFrame(s, t) && t.link.state == Disconnected && t.link.lost
    && !Early(t.main) && !NeverOpened(t)
  }

  lemma SecondCall(s: Sys, owner: Owner, main: MainTask)
    requires MayEnter(s, owner, main) && s.link.state == Disconnected
    ensures Down(s, BackTo(Entered(s, owner, main), owner))
  {
  }

  /** The first call tears down, every other one returns at once. */
  lemma DisconnectInv(s: Sys, owner: Owner, main: MainTask)
    requires MayEnter(s, owner, main)
    ensures Down(s, Disconnect(Entered(s, owner, main), owner))
  {
    if s.link.state == Disconnected {
      SecondCall(s, owner, main);
    } else {
      MarkedInside(s, owner, main);
      CancelWriterInv(Marked(Entered(s, owner, main), owner), owner);
    }
  }

  // Whole steps.

  lemma DownInv(s: Sys, t: Sys)
    requires HandshakeInv(s) && Down(s, t)
    requires Conserved(s.link) && (s.link.discarded != [] ==> Silenced(t))
    requires s.writer == WNone ==> s.link.wire == [] && s.link.discarded == []
    ensures Inv(t)
  {
  }

  // The pieces of a teardown never write, and never let the write loop write again.

  predicate Harmless(s: Sys, t: Sys) {
    t.link.wire == s.link.wire && (s.link.closing ==> t.link.closing) && (Silenced(s) ==> Silenced(t))
  }

  lemma FinishHarmless(s: Sys, owner: Owner)
    ensures Harmless(s, FinishTeardown(s, owner))
  {
  }

  lemma CloseStreamHarmless(s: Sys, owner: Owner)
    ensures Harmless(s, CloseStream(s, owner))
  {
    FinishHarmless(s.(writerSlot := false, readerSlot := false), owner);
  }

  lemma CancelReaderHarmless(s: Sys, owner: Owner)
    ensures Harmless(s, CancelReader(s, owner))
  {
    CloseStreamHarmless(s, owner);
  }

  lemma CancelWriterHarmless(s: Sys, owner: Owner)
    ensures Harmless(s, CancelWriter(s, owner))
  {
    CancelReaderHarmless(s, owner);
  }

  lemma DisconnectHarmless(s: Sys, owner: Owner)
    ensures Harmless(s, Disconnect(s, owner))
    ensures owner == ByWriter ==> Silenced(Disconnect(s, owner))
  {
    CancelWriterHarmless(Marked(s, owner), owner);
  }

  lemma GoOnHarmless(s: Sys)
    requires s.teardown.Tearing?
    ensures Harmless(s, GoOn(s))
  {
    match s.teardown.stage {
      case AwaitWriter => CancelReaderHarmless(s, s.teardown.owner);
      case AwaitReader => CloseStreamHarmless(s, s.teardown.owner);
      case AwaitClosed => FinishHarmless(s.(closedCalls := s.closedCalls + 1), s.teardown.owner);
    }
  }

  lemma InvDisconnect(s: Sys, owner: Owner, main: MainTask)
    requires Inv(s) && MayEnter(s, owner, main)
    ensures Inv(Disconnect(Entered(s, owner, main), owner))
  {
    var e := Entered(s, owner, main);
    DisconnectInv(s, owner, main);
    DisconnectHarmless(e, owner);
    DownInv(s, Disconnect(e, owner));
  }

  /** The failed write itself: the frame is lost, and so is the write loop. */
  lemma InvFailedWrite(s: Sys)
    requires Inv(s) && Enabled(s, WriterWrites(OsFault))
    ensures Inv(Apply(s, WriterWrites(OsFault)))
  {
    var t := s.(link := WriteHead(s.link, true));
    WriteConserves(s.link, true);
    assert TeardownInv(t) && HandshakeInv(t);
    DisconnectInv(t, ByWriter, t.main);
    DisconnectHarmless(t, ByWriter);
    DownInv(t, Disconnect(t, ByWriter));
  }

  lemma InvGoOn(s: Sys)
    requires Inv(s) && s.teardown.Tearing?
    ensures Inv(GoOn(s))
  {
    GoOnInv(s);
    DownInv(s, GoOn(s));
  }

  lemma InvMain(s: Sys, step: Step)
    requires Inv(s) && Enabled(s, step)
    requires step.OpenFails? || step.OpenRaises? || step.OpenSucceeds? || step.SaluteFails?
             || step.SaluteSent? || step.Send? || step.TransportDrops?
    ensures Inv(Apply(s, step))
  {
    if step.Send? {
      AcceptConserves(s.link, step.frame);
    }
  }

  lemma InvReaction(s: Sys, reaction: Reaction, startApi: Bytes)
    requires Inv(s) && s.main.MGreeting?
    ensures Inv(Reacted(s, reaction, startApi))
  {
    if reaction == Finished(ServerClosed) {
      InvDisconnect(s, ByMain, MTearing);
    } else {
      AcceptConserves(s.link.(state := Connected), startApi);
    }
  }

  lemma InvGreet(s: Sys, arrival: Arrival, startApi: Bytes)
    requires Inv(s) && s.main.MGreeting?
    ensures Inv(Greeted(s, arrival, startApi))
  {
    OnlyEofCloses(s.main.raw, arrival);
    InvReaction(s, React(s.main.raw, arrival), startApi);
  }

  lemma InvWrite(s: Sys, fault: Fault)
    requires Inv(s) && Enabled(s, WriterWrites(fault)) && fault != OsFault
    ensures Inv(Apply(s, WriterWrites(fault)))
  {
    WriteConserves(s.link, fault != NoFault);
  }

  lemma InvCancelled(s: Sys, good: nat)
    requires Inv(s) && Enabled(s, WriterCancelled(good))
    ensures Inv(Apply(s, WriterCancelled(good)))
  {
    if s.writer != WReady { FlushConserves(s.link, good); }
  }

  lemma InvWriter(s: Sys, step: Step)
    requires Inv(s) && Enabled(s, step)
    requires step.WriterStarts? || step.WriterIdles? || step.WriterFlushed?
             || (step.WriterDrained? && step.fault != OsFault)
    ensures Inv(Apply(s, step))
  {
  }

  lemma InvRace(s: Sys, step: Step)
    requires Inv(s) && Enabled(s, step)
    requires step.NviTask? || step.LostTask? || step.RaceTimer? || (step.RaceEnds? && s.race.nviDone)
    ensures Inv(Apply(s, step))
  {
  }

  lemma InvReader(s: Sys, step: Step)
    requires Inv(s) && Enabled(s, step)
    requires step.ReaderStarts? || step.ReaderTurns? || step.ReaderCancelled?
    ensures Inv(Apply(s, step))
  {
  }

  lemma InvOther(s: Sys, step: Step)
    requires Inv(s) && Enabled(s, step)
    requires step.ServerNextValidId? || step.ServerError?
    ensures Inv(Apply(s, step))
  {
  }

  lemma InvStep(s: Sys, step: Step)
    requires Inv(s) && Enabled(s, step)
    ensures Inv(Apply(s, step))
  {
    match step {
      case GreetReads(arrival, startApi) => InvGreet(s, arrival, startApi);
      case ReaderFails => InvDisconnect(s, ByReader, s.main);
      case UserDisconnects =>
        if !NeverOpened(s) { InvDisconnect(s, ByUser, s.main); }
      case TeardownGoesOn => InvGoOn(s);
      case RaceEnds =>
        if s.race.nviDone { InvRace(s, step); } else { InvDisconnect(s, ByMain, MFailing(s.race.lostDone)); }
      case WriterWrites(fault) =>
        if fault == OsFault { InvFailedWrite(s); } else { InvWrite(s, fault); }
      case WriterDrained(fault) =>
        if fault == OsFault { InvDisconnect(s, ByWriter, s.main); } else { InvWriter(s, step); }
      case OpenFails => InvMain(s, step);
      case OpenRaises => InvMain(s, step);
      case OpenSucceeds => InvMain(s, step);
      case SaluteFails => InvMain(s, step);
      case SaluteSent => InvMain(s, step);
      case Send(_) => InvMain(s, step);
      case TransportDrops => InvMain(s, step);
      case WriterStarts => InvWriter(s, step);
      case WriterIdles => InvWriter(s, step);
      case WriterFlushed => InvWriter(s, step);
      case WriterCancelled(good) => InvCancelled(s, good);
      case ReaderStarts => InvReader(s, step);
      case ReaderTurns => InvReader(s, step);
      case ReaderCancelled => InvReader(s, step);
      case NviTask => InvRace(s, step);
      case LostTask => InvRace(s, step);
      case RaceTimer => InvRace(s, step);
      case _ => InvOther(s, step);
    }
  }

  lemma {:induction false} InvRun(s: Sys, steps: seq<Step>)
    requires Inv(s) && CanRun(s, steps)
    ensures Inv(Run(s, steps))
    decreases steps
  {
    if steps != [] {
      InvStep(s, steps[0]);
      InvRun(Apply(s, steps[0]), steps[1..]);
    }
  }

  // ----- what every run guarantees

  /** Write path: under every interleaving, what went on the wire is a prefix of what was
      accepted, followed by what was discarded and what is still queued. */
  lemma AcceptedIsAccountedFor(steps: seq<Step>)
    requires CanRun(START, steps)
    ensures var l := Run(START, steps).link;
            l.accepted == l.wire + l.discarded + l.queue && l.wire <= l.accepted
  {
    StartInv();
    InvRun(START, steps);
    WireIsPrefix(Run(START, steps).link);
  }

  /** The step as a call of `disconnect`: who calls, and from which state. */
  function Caller(s: Sys, step: Step): Option<(Sys, Owner)>
    requires Enabled(s, step)
  {
    match step
    case GreetReads(arrival, _) => if arrival == Data([]) then Some((s.(main := MTearing), ByMain)) else None
    case ReaderFails => Some((s, ByReader))
    case UserDisconnects => Some((s, ByUser))
    case RaceEnds => if s.race.nviDone then None else Some((s.(main := MFailing(s.race.lostDone)), ByMain))
    case WriterWrites(OsFault) => Some((s.(link := WriteHead(s.link, true)), ByWriter))
    case WriterDrained(OsFault) => Some((s, ByWriter))
    case _ => None
  }

  lemma CallerDisconnects(s: Sys, step: Step)
    requires Enabled(s, step) && Caller(s, step).Some?
    ensures Apply(s, step) == Disconnect(Caller(s, step).value.0, Caller(s, step).value.1)
    ensures Caller(s, step).value.0.teardown == s.teardown && Caller(s, step).value.0.link.state == s.link.state
    ensures Caller(s, step).value.0.link.wire == s.link.wire && Caller(s, step).value.0.teardowns == s.teardowns
    ensures Silenced(s) ==> Silenced(Caller(s, step).value.0)
  {
  }

  /** The write loop's own steps. */
  predicate InWriter(step: Step) {
    step.WriterStarts? || step.WriterIdles? || step.WriterWrites? || step.WriterDrained?
    || step.WriterCancelled? || step.WriterFlushed?
  }

  predicate Quiet(s: Sys, t: Sys) {
    && (Silenced(s) ==> Silenced(t) && t.link.wire == s.link.wire)
    && t.teardown == s.teardown && t.teardowns == s.teardowns
  }

  lemma QuietWriter(s: Sys, step: Step)
    requires Enabled(s, step) && Caller(s, step).None? && InWriter(step)
    ensures Quiet(s, Apply(s, step))
  {
  }

  lemma QuietGreet(s: Sys, arrival: Arrival, startApi: Bytes)
    requires s.main.MGreeting? && s.writer == WNone && arrival != Data([])
    ensures Quiet(s, Greeted(s, arrival, startApi))
  {
    OnlyEofCloses(s.main.raw, arrival);
    QuietReaction(s, React(s.main.raw, arrival), startApi);
  }

  lemma QuietReaction(s: Sys, reaction: Reaction, startApi: Bytes)
    requires s.writer == WNone && reaction != Finished(ServerClosed)
    ensures Quiet(s, Reacted(s, reaction, startApi))
  {
  }

  lemma QuietStep(s: Sys, step: Step)
    requires s.writer == WNone || !Early(s.main)
    requires Enabled(s, step) && Caller(s, step).None? && step != TeardownGoesOn
    ensures Quiet(s, Apply(s, step))
  {
    if InWriter(step) { QuietWriter(s, step); }
    else if step.GreetReads? { QuietGreet(s, step.arrival, step.startApi); }
  }

  lemma SilenceStep(s: Sys, step: Step)
    requires Inv(s) && Enabled(s, step) && Silenced(s)
    ensures Silenced(Apply(s, step)) && Apply(s, step).link.wire == s.link.wire
  {
    if step == TeardownGoesOn {
      GoOnHarmless(s);
    } else if Caller(s, step).Some? {
      var (t, owner) := Caller(s, step).value;
      CallerDisconnects(s, step);
      DisconnectHarmless(t, owner);
    } else {
      QuietStep(s, step);
    }
  }

  lemma {:induction false} SilenceLasts(s: Sys, steps: seq<Step>)
    requires Inv(s) && CanRun(s, steps) && Silenced(s)
    ensures Run(s, steps).link.wire == s.link.wire
    decreases steps
  {
    if steps != [] {
      InvStep(s, steps[0]);
      SilenceStep(s, steps[0]);
      SilenceLasts(Apply(s, steps[0]), steps[1..]);
    }
  }

  /** Once a frame has been discarded, nothing is ever written again. */
  lemma NothingAfterDiscard(steps: seq<Step>, more: seq<Step>)
    requires CanRun(START, steps) && CanRun(Run(START, steps), more)
    requires Run(START, steps).link.discarded != []
    ensures Run(Run(START, steps), more).link.wire == Run(START, steps).link.wire
  {
    StartInv();
    InvRun(START, steps);
    SilenceLasts(Run(START, steps), more);
  }

  /** Teardown: whoever calls `disconnect`, how often and when, its body runs at most once and
      `connectionClosed` fires at most once; and whenever the body has run, the client is
      disconnected, the drop is signalled, both tasks are forgotten and the stream is gone. */
  lemma TeardownOnce(steps: seq<Step>)
    requires CanRun(START, steps)
    ensures var s := Run(START, steps);
            && s.teardowns <= 1 && s.closedCalls <= s.teardowns
            && (s.teardowns == 1 && s.teardown == Idle ==>
                  s.link.state == Disconnected && s.link.lost && !s.writerSlot && !s.readerSlot && !s.link.attached)
  {
    StartInv();
    InvRun(START, steps);
  }

  /** How many waits a teardown still has before it. */
  function WaitsLeft(t: Teardown): nat {
    if t == Idle then 0
    else
      match t.stage
      case AwaitWriter => 3
      case AwaitReader => 2
      case AwaitClosed => 1
  }

  /** No task can hold a teardown up or interfere with it: every other step leaves its place
      alone, and each of its own steps is always possible and brings it nearer to its end. */
  lemma TeardownProgress(s: Sys, step: Step)
    requires Inv(s) && Enabled(s, step) && s.teardown.Tearing?
    ensures Enabled(s, TeardownGoesOn)
    ensures if step == TeardownGoesOn then WaitsLeft(Apply(s, step).teardown) < WaitsLeft(s.teardown)
            else Apply(s, step).teardown == s.teardown
    ensures Apply(s, step).teardowns == 1
  {
    if step == TeardownGoesOn {
      GoOnAdvances(s);
    } else if Caller(s, step).Some? {
      CallerDisconnects(s, step);
      SecondCallReturns(Caller(s, step).value.0, Caller(s, step).value.1);
    } else {
      QuietStep(s, step);
    }
  }

  lemma GoOnAdvances(s: Sys)
    requires s.teardown.Tearing?
    ensures WaitsLeft(GoOn(s).teardown) < WaitsLeft(s.teardown) && GoOn(s).teardowns == s.teardowns
  {
  }

  lemma SecondCallReturns(s: Sys, owner: Owner)
    requires s.link.state == Disconnected
    ensures Disconnect(s, owner).teardown == s.teardown && Disconnect(s, owner).teardowns == s.teardowns
  {
  }

  function CountGoOns(steps: seq<Step>): nat {
    if steps == [] then 0 else (if steps[0] == TeardownGoesOn then 1 else 0) + CountGoOns(steps[1..])
  }

  /** A teardown that is given its turns ends, after at most three of them. */
  lemma {:induction false} TeardownEnds(s: Sys, steps: seq<Step>)
    requires Inv(s) && CanRun(s, steps) && s.teardown.Tearing?
    ensures CountGoOns(steps) <= WaitsLeft(s.teardown)
    ensures Run(s, steps).teardown == Idle
            || WaitsLeft(Run(s, steps).teardown) <= WaitsLeft(s.teardown) - CountGoOns(steps)
    decreases steps
  {
    if steps != [] {
      var t := Apply(s, steps[0]);
      InvStep(s, steps[0]);
      TeardownProgress(s, steps[0]);
      if t.teardown.Tearing? {
        TeardownEnds(t, steps[1..]);
      } else {
        StaysDown(t, steps[1..]);
      }
    }
  }

  lemma {:induction false} StaysDown(s: Sys, steps: seq<Step>)
    requires Inv(s) && CanRun(s, steps) && s.teardowns == 1 && s.teardown == Idle
    ensures CountGoOns(steps) == 0 && Run(s, steps).teardown == Idle
    decreases steps
  {
    if steps != [] {
      InvStep(s, steps[0]);
      DownStays(s, steps[0]);
      StaysDown(Apply(s, steps[0]), steps[1..]);
    }
  }

  lemma DownStays(s: Sys, step: Step)
    requires Inv(s) && Enabled(s, step) && s.teardowns == 1 && s.teardown == Idle
    ensures Apply(s, step).teardowns == 1 && Apply(s, step).teardown == Idle && step != TeardownGoesOn
  {
    if Caller(s, step).Some? {
      CallerDisconnects(s, step);
      SecondCallReturns(Caller(s, step).value.0, Caller(s, step).value.1);
      assert Caller(s, step).value.0.teardowns == s.teardowns;
    } else {
      QuietStep(s, step);
    }
  }
}
