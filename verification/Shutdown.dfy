/** Whole runs of the two loops and of the teardown: the loops live as long as the connection
    does, the queue gets written, and a teardown stops what it has to stop, in order. */
module Shutdown {
  import opened Decimal
  import opened Wire
  import opened ClientState
  import opened Handshake
  import opened WritePath
  import opened Lifecycle
  import opened Create

  // ----- a teardown cancels both loops, the write loop first

  /** The write loop has ended, is about to, or is inside the teardown itself. */
  predicate WriterStopped(s: Sys) {
    s.writer in {WNone, WDone, WFlushing, WTearing} || s.writerCancel
  }

  predicate ReaderStopped(s: Sys) {
    s.reader in {RNone, RDone, RTearing} || s.readerCancel
  }

  /** The client remembers the tasks it has started. */
  predicate Remembers(s: Sys) {
    (s.writerSlot <==> s.writer != WNone) && (s.readerSlot <==> s.reader != RNone)
  }

  predicate StopInv(s: Sys) {
    && (s.teardowns == 0 || (s.teardown.Tearing? && s.teardown.stage != AwaitClosed) ==> Remembers(s))
    && (s.teardowns == 1 ==> WriterStopped(s))
    && (s.teardowns == 1 && (s.teardown == Idle || s.teardown.stage != AwaitWriter) ==> ReaderStopped(s))
  }

  lemma FinishStops(s: Sys, owner: Owner)
    requires s.teardowns == 1 && WriterStopped(s) && ReaderStopped(s)
    ensures StopInv(FinishTeardown(s, owner))
  {
  }

  lemma CloseStops(s: Sys, owner: Owner)
    requires s.teardowns == 1 && WriterStopped(s) && ReaderStopped(s)
    ensures StopInv(CloseStream(s, owner))
  {
    FinishStops(s.(writerSlot := false, readerSlot := false), owner);
  }

  lemma CancelReaderStops(s: Sys, owner: Owner)
    requires s.teardowns == 1 && WriterStopped(s) && Remembers(s) && (owner == ByReader ==> s.reader == RTearing)
    ensures StopInv(CancelReader(s, owner))
  {
    if !(s.readerSlot && s.reader != RDone) { CloseStops(s, owner); }
  }

  lemma CancelWriterStops(s: Sys, owner: Owner)
    requires s.teardowns == 1 && Remembers(s)
    requires (owner == ByReader ==> s.reader == RTearing) && (owner == ByWriter ==> s.writer == WTearing)
    ensures StopInv(CancelWriter(s, owner))
  {
    if !(s.writerSlot && s.writer != WDone) { CancelReaderStops(s, owner); }
  }

  lemma BackStops(s: Sys, owner: Owner)
    requires StopInv(s) && s.link.state == Disconnected
    requires (owner == ByReader ==> s.reader != RNone) && (owner == ByWriter ==> s.writer != WNone)
    ensures StopInv(BackTo(s, owner))
  {
  }

  lemma GoOnStops(s: Sys)
    requires StopInv(s) && TeardownInv(s) && s.teardown.Tearing?
    ensures StopInv(GoOn(s))
  {
    match s.teardown.stage {
      case AwaitWriter => CancelReaderStops(s, s.teardown.owner);
      case AwaitReader => CloseStops(s, s.teardown.owner);
      case AwaitClosed => FinishStops(s.(closedCalls := s.closedCalls + 1), s.teardown.owner);
    }
  }

  /** A step that leaves the teardown alone starts no loop again. */
  predicate StaysStopped(s: Sys, t: Sys) {
    && t.teardown == s.teardown && t.teardowns == s.teardowns
    && (WriterStopped(s) ==> WriterStopped(t)) && (ReaderStopped(s) ==> ReaderStopped(t))
    && (Remembers(s) ==> Remembers(t))
  }

  lemma ReactionStops(s: Sys, reaction: Reaction, startApi: Bytes)
    requires s.main.MGreeting? && s.writer == WNone && s.reader == RNone && s.teardowns == 0
    requires reaction != Finished(ServerClosed) && StopInv(s)
    ensures StopInv(Reacted(s, reaction, startApi))
  {
  }

  lemma WriterStops(s: Sys, step: Step)
    requires Enabled(s, step) && Caller(s, step).None? && InWriter(step) && s.link.state == Disconnected
    ensures StaysStopped(s, Apply(s, step))
  {
  }

  lemma WriterRemembers(s: Sys, step: Step)
    requires Enabled(s, step) && Caller(s, step).None? && InWriter(step)
    ensures var t := Apply(s, step);
            t.teardown == s.teardown && t.teardowns == s.teardowns && (Remembers(s) ==> Remembers(t))
  {
  }

  lemma OtherStops(s: Sys, step: Step)
    requires Enabled(s, step) && Caller(s, step).None? && step != TeardownGoesOn
    requires !InWriter(step) && !step.GreetReads? && s.link.state == Disconnected
    ensures StaysStopped(s, Apply(s, step))
  {
  }

  lemma OtherRemembers(s: Sys, step: Step)
    requires Enabled(s, step) && Caller(s, step).None? && step != TeardownGoesOn
    requires !InWriter(step) && !step.GreetReads?
    ensures var t := Apply(s, step);
            t.teardown == s.teardown && t.teardowns == s.teardowns && (Remembers(s) ==> Remembers(t))
  {
    if step.ReaderStarts? || step.ReaderTurns? || step.ReaderCancelled? { ReaderRemembers(s, step); }
  }

  lemma ReaderRemembers(s: Sys, step: Step)
    requires Enabled(s, step) && (step.ReaderStarts? || step.ReaderTurns? || step.ReaderCancelled?)
    ensures var t := Apply(s, step);
            && t.teardown == s.teardown && t.teardowns == s.teardowns && (Remembers(s) ==> Remembers(t))
            && t.writer == s.writer
  {
  }

  lemma CallerStops(s: Sys, step: Step)
    requires Inv(s) && StopInv(s) && Enabled(s, step) && Caller(s, step).Some?
    ensures var (t, owner) := Caller(s, step).value;
            && StopInv(t) && (owner == ByReader ==> t.reader != RNone) && (owner == ByWriter ==> t.writer != WNone)
            && (t.link.state != Disconnected ==> t.teardowns == 0 && t.teardown == Idle)
  {
  }

  lemma StopStep(s: Sys, step: Step)
    requires Inv(s) && StopInv(s) && Enabled(s, step)
    ensures StopInv(Apply(s, step))
  {
    if step == TeardownGoesOn {
      GoOnStops(s);
    } else if Caller(s, step).Some? {
      var (t, owner) := Caller(s, step).value;
      CallerDisconnects(s, step);
      CallerStops(s, step);
      if t.link.state == Disconnected { BackStops(t, owner); }
      else { CancelWriterStops(Marked(t, owner), owner); }
    } else if step.GreetReads? {
      OnlyEofCloses(s.main.raw, step.arrival);
      ReactionStops(s, React(s.main.raw, step.arrival), step.startApi);
    } else if InWriter(step) {
      WriterRemembers(s, step);
      if s.teardowns == 1 { WriterStops(s, step); }
    } else {
      OtherRemembers(s, step);
      if s.teardowns == 1 { OtherStops(s, step); }
    }
  }

  lemma {:induction false} RunStops(steps: seq<Step>)
    requires CanRun(START, steps)
    ensures StopInv(Run(START, steps))
    decreases steps
  {
    if steps != [] {
      var a, last := steps[..|steps| - 1], steps[|steps| - 1];
      assert steps == a + [last];
      RunAppend(START, a, last);
      RunStops(a);
      InvAt(a);
      StopStep(Run(START, a), last);
    }
  }

  /** Over every run: as soon as anybody tears down, the write loop has been cancelled, has
      ended or is the one that tears down; and from the moment the teardown is done waiting for
      it, so is the read loop. */
  lemma TeardownStopsLoops(steps: seq<Step>)
    requires CanRun(START, steps)
    ensures var s := Run(START, steps);
            && (s.teardowns == 1 ==> WriterStopped(s))
            && (s.teardowns == 1 && (s.teardown == Idle || s.teardown.stage != AwaitWriter) ==> ReaderStopped(s))
  {
    RunStops(steps);
  }

  /** Whoever is first to disconnect a client with a running write loop waits for that loop
      before anything else, and has cancelled it unless it is that loop itself. */
  lemma WriterIsAwaitedFirst(steps: seq<Step>, owner: Owner)
    requires CanRun(START, steps) && Run(START, steps).link.state != Disconnected
    requires Run(START, steps).writer !in {WNone, WDone}
    ensures var t := Disconnect(Run(START, steps), owner);
            && t.teardown == Tearing(owner, AwaitWriter) && (owner != ByWriter ==> t.writerCancel)
            && t.link.state == Disconnected && t.link.lost && t.teardowns == 1
  {
    RunStops(steps);
    InvAt(steps);
  }

  /** Then comes a running read loop, then an open stream, then `connectionClosed`. */
  lemma StagesInOrder(steps: seq<Step>)
    requires CanRun(START, steps) && Run(START, steps).teardown.Tearing?
    ensures var s := Run(START, steps); var t, owner := GoOn(s), s.teardown.owner;
            match s.teardown.stage
            case AwaitWriter =>
              s.reader !in {RNone, RDone} ==>
                t.teardown == Tearing(owner, AwaitReader) && (owner != ByReader ==> t.readerCancel)
            case AwaitReader =>
              && !t.writerSlot && !t.readerSlot
              && if s.link.attached && !s.link.closing then t.teardown == Tearing(owner, AwaitClosed) && t.link.closing
                 else t.teardown == Idle && !t.link.attached && t.closedCalls == s.closedCalls
            case AwaitClosed => t.teardown == Idle && !t.link.attached && t.closedCalls == 1
  {
    RunStops(steps);
    InvAt(steps);
  }

  // ----- `connectionClosed`

  /** The transport has closed under the client, before the teardown got to it. */
  predicate Dropped(s: Sys) {
    s.link.closing && s.closedCalls == 0 && !(s.teardown.Tearing? && s.teardown.stage == AwaitClosed)
  }

  /** The transport is open as long as the client or the teardown has not closed it. */
  predicate Undropped(s: Sys) {
    && (s.main == MOpening ==> !s.link.closing)
    && (s.link.state != Disconnected ==> StreamOpen(s.link))
    && (s.teardown.Tearing? && s.teardown.stage != AwaitClosed ==> StreamOpen(s.link) && s.closedCalls == 0)
    && (s.teardowns == 1 && s.teardown == Idle ==> s.closedCalls == 1)
  }

  lemma CloseFires(s: Sys, owner: Owner)
    requires StreamOpen(s.link) && s.teardowns == 1 && s.closedCalls == 0 && s.main != MOpening
    requires s.link.state == Disconnected
    ensures Undropped(CloseStream(s, owner))
    ensures Undropped(CancelReader(s, owner)) && Undropped(CancelWriter(s, owner))
  {
  }

  lemma TeardownFires(s: Sys)
    requires Inv(s) && Undropped(s) && s.teardown.Tearing?
    ensures Undropped(GoOn(s))
  {
    if s.teardown.stage == AwaitClosed {
      AwaitClosedEnds(s);
    } else {
      CloseFires(s, s.teardown.owner);
    }
  }

  lemma AwaitClosedEnds(s: Sys)
    requires Inv(s) && s.teardown.Tearing? && s.teardown.stage == AwaitClosed
    ensures Undropped(GoOn(s))
  {
  }

  lemma CallFires(s: Sys, owner: Owner)
    requires Undropped(s) && s.main != MOpening && s.closedCalls == 0 && s.teardowns == 0
    requires s.link.state != Disconnected
    ensures Undropped(Disconnect(s, owner))
  {
    CloseFires(Marked(s, owner), owner);
  }

  lemma ReactionFires(s: Sys, reaction: Reaction, startApi: Bytes)
    requires Undropped(s) && s.main.MGreeting? && s.link.state != Disconnected && s.teardowns == 0
    requires s.teardown == Idle && reaction != Finished(ServerClosed)
    ensures Undropped(Reacted(s, reaction, startApi))
  {
  }

  /** Neither the openness of the stream nor the teardown. */
  predicate SameStream(s: Sys, t: Sys) {
    && t.link.attached == s.link.attached && t.link.closing == s.link.closing && t.link.state == s.link.state
    && t.teardown == s.teardown && t.teardowns == s.teardowns && t.closedCalls == s.closedCalls
    && (t.main == MOpening ==> s.main == MOpening)
  }

  lemma WriterKeepsStream(s: Sys, step: Step)
    requires Enabled(s, step) && Caller(s, step).None? && InWriter(step)
    ensures SameStream(s, Apply(s, step))
  {
    if step.WriterCancelled? { FlushKeepsStream(s, step.good); }
    else if step.WriterWrites? { WriteKeepsStream(s, step.fault); }
  }

  lemma FlushKeepsStream(s: Sys, good: nat)
    requires Enabled(s, WriterCancelled(good))
    ensures SameStream(s, Apply(s, WriterCancelled(good)))
  {
    var m := Flush(s.link, good);
    assert m.attached == s.link.attached && m.closing == s.link.closing && m.state == s.link.state;
  }

  lemma WriteKeepsStream(s: Sys, fault: Fault)
    requires Enabled(s, WriterWrites(fault)) && fault != OsFault
    ensures SameStream(s, Apply(s, WriterWrites(fault)))
  {
  }

  lemma OthersKeepStream(s: Sys, step: Step)
    requires Enabled(s, step) && Caller(s, step).None? && !InWriter(step)
    requires !step.OpenSucceeds? && !step.GreetReads? && !step.TransportDrops? && !step.TeardownGoesOn?
    ensures SameStream(s, Apply(s, step))
  {
  }

  lemma CallerUndropped(s: Sys, step: Step)
    requires Inv(s) && Undropped(s) && Enabled(s, step) && Caller(s, step).Some?
    ensures Undropped(Apply(s, step))
  {
    var (t, owner) := Caller(s, step).value;
    CallerDisconnects(s, step);
    CallerKeepsStream(s, step);
    if t.link.state == Disconnected { BackKeepsStream(t, owner); }
    else { CallFires(t, owner); }
  }

  lemma CallerKeepsStream(s: Sys, step: Step)
    requires Inv(s) && Enabled(s, step) && Caller(s, step).Some?
    ensures var (t, owner) := Caller(s, step).value;
            && SameStream(s, t) && t.main != MOpening
            && (t.link.state != Disconnected ==> t.closedCalls == 0 && t.teardowns == 0)
  {
  }

  lemma BackKeepsStream(s: Sys, owner: Owner)
    requires s.link.state == Disconnected && s.main != MOpening
    ensures SameStream(s, Disconnect(s, owner))
  {
  }

  lemma UndroppedStep(s: Sys, step: Step)
    requires Inv(s) && Undropped(s) && Enabled(s, step) && step != TransportDrops
    ensures Undropped(Apply(s, step))
  {
    if step == TeardownGoesOn { TeardownFires(s); }
    else if Caller(s, step).Some? { CallerUndropped(s, step); }
    else if step.GreetReads? {
      OnlyEofCloses(s.main.raw, step.arrival);
      ReactionFires(s, React(s.main.raw, step.arrival), step.startApi);
    }
    else if step == OpenSucceeds {}
    else if InWriter(step) { WriterKeepsStream(s, step); }
    else { OthersKeepStream(s, step); }
  }

  lemma {:induction false} RunUndropped(steps: seq<Step>)
    requires CanRun(START, steps) && TransportDrops !in steps
    ensures Undropped(Run(START, steps))
    decreases steps
  {
    if steps != [] {
      var a, last := steps[..|steps| - 1], steps[|steps| - 1];
      assert steps == a + [last];
      RunAppend(START, a, last);
      RunUndropped(a);
      InvAt(a);
      UndroppedStep(Run(START, a), last);
    }
  }

  /** Unless the transport drops, a teardown that is over has fired `connectionClosed`, and
      until then the stream of a client that is not disconnected is open. */
  lemma ConnectionClosedFires(steps: seq<Step>)
    requires CanRun(START, steps) && TransportDrops !in steps
    ensures var s := Run(START, steps);
            && (s.teardowns == 1 && s.teardown == Idle ==> s.closedCalls == 1)
            && (s.link.state != Disconnected ==> StreamOpen(s.link))
  {
    RunUndropped(steps);
  }

  lemma CloseKeepsDropped(s: Sys, owner: Owner)
    requires s.link.closing && s.closedCalls == 0
    ensures Dropped(CloseStream(s, owner)) && Dropped(CancelReader(s, owner)) && Dropped(CancelWriter(s, owner))
  {
  }

  lemma DroppedStep(s: Sys, step: Step)
    requires Inv(s) && Dropped(s) && Enabled(s, step) && s.main != MOpening
    ensures Dropped(Apply(s, step))
  {
    if step == TeardownGoesOn { CloseKeepsDropped(s, s.teardown.owner); }
    else if Caller(s, step).Some? {
      var (t, owner) := Caller(s, step).value;
      CallerDisconnects(s, step);
      CallerKeepsStream(s, step);
      if t.link.state == Disconnected { BackKeepsStream(t, owner); }
      else { CloseKeepsDropped(Marked(t, owner), owner); }
    }
    else if step.GreetReads? {
      OnlyEofCloses(s.main.raw, step.arrival);
      ReactionKeepsDropped(s, React(s.main.raw, step.arrival), step.startApi);
    }
    else if step == TransportDrops {}
    else if InWriter(step) { WriterKeepsStream(s, step); }
    else { OthersKeepStream(s, step); }
  }

  lemma ReactionKeepsDropped(s: Sys, reaction: Reaction, startApi: Bytes)
    requires Dropped(s) && reaction != Finished(ServerClosed)
    ensures Dropped(Reacted(s, reaction, startApi))
  {
  }

  /** And once it has dropped in front of the teardown, `connectionClosed` never fires. */
  lemma {:induction false} DroppedNeverFires(s: Sys, steps: seq<Step>)
    requires Inv(s) && CanRun(s, steps) && Dropped(s) && s.main != MOpening
    ensures Run(s, steps).closedCalls == 0
    decreases steps
  {
    if steps != [] {
      DroppedStep(s, steps[0]);
      InvStep(s, steps[0]);
      OpeningIsOver(s, steps[0]);
      DroppedNeverFires(Apply(s, steps[0]), steps[1..]);
    }
  }

  lemma OpeningIsOver(s: Sys, step: Step)
    requires Inv(s) && Enabled(s, step) && s.main != MOpening
    ensures Apply(s, step).main != MOpening
  {
    if Early(s.main) {
      if step.GreetReads? { GreetedMain(s, step.arrival, step.startApi); }
      else { StepMoves(s, step); }
    } else {
      StepMoves(s, step);
    }
  }

  // ----- what is written, and what is lost

  /** The frames a step moves, given the link before it. */
  predicate Moved(l: Link, m: Link, accepted: seq<Bytes>, taken: nat, wire: seq<Bytes>, discarded: seq<Bytes>) {
    && taken <= |l.queue| && m.queue == l.queue[taken..] + accepted && m.accepted == l.accepted + accepted
    && m.wire == l.wire + wire && m.discarded == l.discarded + discarded
  }

  /** One write takes the head of the queue to the wire, unless it raises or the transport is
      closing: then it loses it. */
  lemma WriteLaw(s: Sys, fault: Fault)
    requires Enabled(s, WriterWrites(fault))
    ensures var head := [s.link.queue[0]]; var m := Apply(s, WriterWrites(fault)).link;
            if fault == NoFault && !s.link.closing then Moved(s.link, m, [], 1, head, [])
            else Moved(s.link, m, [], 1, [], head)
  {
    var l, m := s.link, WriteHead(s.link, fault != NoFault);
    NothingMoved(l);
    assert l.queue[1..] + [] == l.queue[1..];
    if fault == OsFault { DisconnectKeepsFrames(s.(link := m), ByWriter); }
  }

  lemma NothingMoved(l: Link)
    ensures l.accepted + [] == l.accepted && l.wire + [] == l.wire && l.discarded + [] == l.discarded
    ensures l.queue[0..] + [] == l.queue && l.queue[|l.queue|..] == []
  {
  }

  lemma DisconnectKeepsFrames(s: Sys, owner: Owner)
    ensures var l, m := s.link, Disconnect(s, owner).link;
            m.queue == l.queue && m.wire == l.wire && m.discarded == l.discarded && m.accepted == l.accepted
  {
    if s.link.state != Disconnected {
      var t := Marked(s, owner);
      assert SameFrames(s, t);
      CancelKeepsFrames(t, owner);
    } else {
      BackKeepsState(s, owner);
    }
  }

  lemma CancelKeepsFrames(s: Sys, owner: Owner)
    ensures SameFrames(s, CloseStream(s, owner)) && SameFrames(s, CancelReader(s, owner))
    ensures SameFrames(s, CancelWriter(s, owner))
  {
  }

  predicate SameFrames(s: Sys, t: Sys) {
    && t.link.queue == s.link.queue && t.link.wire == s.link.wire
    && t.link.discarded == s.link.discarded && t.link.accepted == s.link.accepted
  }

  /** A cancelled write loop that had started writes everything that is left, up to the first
      write that raises; one that is closing loses it; one that never started leaves it. */
  lemma FlushLaw(s: Sys, good: nat)
    requires Enabled(s, WriterCancelled(good))
    ensures var l, m := s.link, Apply(s, WriterCancelled(good)).link; var n := |l.queue|;
            if s.writer == WReady then m == l
            else if l.closing then Moved(l, m, [], n, [], l.queue)
            else if good >= n then Moved(l, m, [], n, l.queue, [])
            else Moved(l, m, [], good + 1, l.queue[..good], [l.queue[good]])
  {
    NothingMoved(s.link);
    if !s.link.closing && good < |s.link.queue| {
      assert s.link.queue[good + 1..] + [] == s.link.queue[good + 1..];
    }
  }

  /** Over every run: when a write loop that had started is cancelled while the transport is
      open and nothing was lost before, and no write raises, every accepted frame is written. */
  lemma CancelledLoopWritesAll(steps: seq<Step>, good: nat)
    requires CanRun(START, steps) && Enabled(Run(START, steps), WriterCancelled(good))
    requires var s := Run(START, steps);
             s.writer != WReady && !s.link.closing && s.link.discarded == [] && good >= |s.link.queue|
    ensures var t := Apply(Run(START, steps), WriterCancelled(good));
            t.link.wire == t.link.accepted && t.link.queue == [] && t.link.discarded == []
  {
    var s := Run(START, steps);
    InvAt(steps);
    FlushLaw(s, good);
    NothingMoved(s.link);
    assert s.link.wire + [] + s.link.queue == s.link.wire + s.link.queue;
  }

  /** A frame is accepted, at the end of the queue, if and only if the stream is open. */
  lemma SendLaw(s: Sys, frame: Bytes)
    ensures var l, m := s.link, Apply(s, Send(frame)).link;
            Moved(l, m, if l.attached && !l.closing then [frame] else [], 0, [], [])
  {
    NothingMoved(s.link);
  }

  /** A handshake that succeeds connects the client, starts and remembers both loops, enqueues
      START_API on an open stream, and goes on to the race. */
  lemma ConnectedLaw(s: Sys, arrival: Arrival, startApi: Bytes)
    requires s.main.MGreeting? && React(s.main.raw, arrival).Finished?
    requires React(s.main.raw, arrival).greeting.Negotiated?
    ensures var t := Apply(s, GreetReads(arrival, startApi));
            && t.link.state == Connected && t.main == MRacing
            && t.writer == WReady && t.reader == RReady && t.writerSlot && t.readerSlot
            && Moved(s.link, t.link, if s.link.attached && !s.link.closing then [startApi] else [], 0, [], [])
  {
    NothingMoved(s.link);
  }

  // ----- frames are lost only for a reason

  /** A write raises: one of the write loop, or one of its flush. */
  predicate Raises(s: Sys, step: Step) {
    match step
    case WriterWrites(fault) => fault != NoFault
    case WriterCancelled(good) => good < |s.link.queue|
    case _ => false
  }

  ghost predicate WriteRaised(steps: seq<Step>, i: nat) {
    i < |steps| && CanRun(START, steps[..i]) && Raises(Run(START, steps[..i]), steps[i])
  }

  lemma LossStep(s: Sys, step: Step)
    requires Inv(s) && Enabled(s, step)
    ensures s.link.closing ==> Apply(s, step).link.closing
    ensures Apply(s, step).link.discarded == s.link.discarded || s.link.closing || Raises(s, step)
  {
    if step == TeardownGoesOn {
      GoOnHarmless(s);
      GoOnKeepsFrames(s);
    } else if step.WriterWrites? {
      WriteLaw(s, step.fault);
      NothingMoved(s.link);
      ClosingStays(s, step);
    } else if step.WriterCancelled? {
      FlushLaw(s, step.good);
      NothingMoved(s.link);
      ClosingStays(s, step);
    } else if Caller(s, step).Some? {
      var (t, owner) := Caller(s, step).value;
      CallerDisconnects(s, step);
      DisconnectHarmless(t, owner);
      DisconnectKeepsFrames(t, owner);
    } else {
      OthersLoseNothing(s, step);
    }
  }

  lemma GoOnKeepsFrames(s: Sys)
    requires s.teardown.Tearing?
    ensures SameFrames(s, GoOn(s))
  {
    CancelKeepsFrames(s, s.teardown.owner);
  }

  lemma ClosingStays(s: Sys, step: Step)
    requires Enabled(s, step) && (step.WriterWrites? || step.WriterCancelled?)
    ensures s.link.closing ==> Apply(s, step).link.closing
  {
    if step == WriterWrites(OsFault) { DisconnectHarmless(s.(link := WriteHead(s.link, true)), ByWriter); }
  }

  lemma OthersLoseNothing(s: Sys, step: Step)
    requires Enabled(s, step) && Caller(s, step).None? && step != TeardownGoesOn
    requires !step.WriterWrites? && !step.WriterCancelled?
    ensures Apply(s, step).link.discarded == s.link.discarded && (s.link.closing ==> Apply(s, step).link.closing)
  {
    if step.GreetReads? {
      OnlyEofCloses(s.main.raw, step.arrival);
      ReactionLosesNothing(s, React(s.main.raw, step.arrival), step.startApi);
    }
  }

  lemma ReactionLosesNothing(s: Sys, reaction: Reaction, startApi: Bytes)
    requires reaction != Finished(ServerClosed)
    ensures var m := Reacted(s, reaction, startApi).link;
            m.discarded == s.link.discarded && m.closing == s.link.closing
  {
  }

  /** Over every run, a frame is discarded only if some write raised, or the transport is
      closing. */
  lemma {:induction false} LossHasCause(steps: seq<Step>)
    requires CanRun(START, steps) && Run(START, steps).link.discarded != []
    ensures Run(START, steps).link.closing || exists i: nat :: WriteRaised(steps, i)
    decreases steps
  {
    var a, last := steps[..|steps| - 1], steps[|steps| - 1];
    assert steps == a + [last];
    RunAppend(START, a, last);
    InvAt(a);
    LossStep(Run(START, a), last);
    if Run(START, a).link.discarded != [] {
      LossHasCause(a);
      RaisedEarlier(a, last);
    } else if Raises(Run(START, a), last) {
      assert steps[..|a|] == a;
      assert WriteRaised(steps, |a|);
    }
  }

  lemma RaisedEarlier(a: seq<Step>, last: Step)
    ensures (exists i: nat :: WriteRaised(a, i)) ==> exists i: nat :: WriteRaised(a + [last], i)
  {
    if i: nat :| WriteRaised(a, i) {
      assert (a + [last])[..i] == a[..i];
      assert WriteRaised(a + [last], i);
    }
  }

  // ----- the loops live as long as the connection

  predicate Alive(s: Sys) {
    s.link.state == Connected ==>
      s.writer in {WReady, WGetting, WDraining} && s.reader in {RReady, RReading}
  }

  predicate Fatal(step: Step) {
    step == WriterWrites(OtherFault) || step == WriterDrained(OtherFault)
  }

  lemma AliveWriter(s: Sys, step: Step)
    requires Inv(s) && Alive(s) && Enabled(s, step) && Caller(s, step).None? && InWriter(step) && !Fatal(step)
    requires s.link.state == Connected ==> StreamOpen(s.link)
    ensures Alive(Apply(s, step))
  {
  }

  lemma AliveOther(s: Sys, step: Step)
    requires Inv(s) && Alive(s) && Enabled(s, step) && Caller(s, step).None? && step != TeardownGoesOn
    requires !InWriter(step) && !step.GreetReads? && (s.link.state == Connected ==> StreamOpen(s.link))
    ensures Alive(Apply(s, step))
  {
  }

  lemma AliveStep(s: Sys, step: Step)
    requires Inv(s) && Alive(s) && Enabled(s, step) && step != TransportDrops && !Fatal(step)
    requires s.link.state == Connected ==> StreamOpen(s.link)
    ensures Alive(Apply(s, step))
  {
    if step == TeardownGoesOn {
      GoOnMoves(s);
    } else if Caller(s, step).Some? {
      CallerEndsConnection(s, step);
    } else if step.GreetReads? {
      OnlyEofCloses(s.main.raw, step.arrival);
      ReactionIsAlive(s, React(s.main.raw, step.arrival), step.startApi);
    } else if InWriter(step) {
      AliveWriter(s, step);
    } else {
      AliveOther(s, step);
    }
  }

  lemma CallerEndsConnection(s: Sys, step: Step)
    requires Inv(s) && Enabled(s, step) && Caller(s, step).Some?
    ensures Apply(s, step).link.state == Disconnected
  {
    var (t, owner) := Caller(s, step).value;
    CallerDisconnects(s, step);
    if t.link.state == Disconnected { BackKeepsState(t, owner); }
    else { CancelWriterMoves(Marked(t, owner), owner); }
  }

  lemma BackKeepsState(s: Sys, owner: Owner)
    ensures BackTo(s, owner).link == s.link
  {
  }

  lemma ReactionIsAlive(s: Sys, reaction: Reaction, startApi: Bytes)
    requires s.main.MGreeting? && reaction != Finished(ServerClosed) && s.link.state == Connecting
    ensures Alive(Reacted(s, reaction, startApi))
  {
  }

  /** Over every run without a drop of the transport and without an exception in the write loop
      that is no OSError: as long as the client is connected, both loops are running. */
  lemma {:induction false} LoopsLive(steps: seq<Step>)
    requires CanRun(START, steps) && TransportDrops !in steps
    requires WriterWrites(OtherFault) !in steps && WriterDrained(OtherFault) !in steps
    ensures Alive(Run(START, steps))
    decreases steps
  {
    if steps != [] {
      var a, last := steps[..|steps| - 1], steps[|steps| - 1];
      assert steps == a + [last];
      RunAppend(START, a, last);
      LoopsLive(a);
      InvAt(a);
      RunUndropped(a);
      AliveStep(Run(START, a), last);
    }
  }

  /** A running write loop of a connected client can write the whole queue, in order. */
  lemma {:induction false} QueueDrains(s: Sys) returns (steps: seq<Step>)
    requires IsConnected(s.link) && s.writer in {WReady, WGetting, WDraining}
    ensures CanRun(s, steps)
    ensures var t := Run(s, steps);
            t.link.queue == [] && t.link.wire == s.link.wire + s.link.queue && t.link.discarded == s.link.discarded
    decreases |s.link.queue|, s.writer != WGetting
  {
    if s.writer != WGetting {
      var step := if s.writer == WReady then WriterStarts else WriterDrained(NoFault);
      var rest := QueueDrains(Apply(s, step));
      OneMore(s, step, rest);
      steps := [step] + rest;
    } else if s.link.queue == [] {
      steps := [];
      assert s.link.wire + [] == s.link.wire;
    } else {
      var head, tail := [s.link.queue[0]], s.link.queue[1..];
      var t := Apply(s, WriterWrites(NoFault));
      assert s.link.queue == head + tail && t.link.wire == s.link.wire + head && t.link.queue == tail;
      var rest := QueueDrains(t);
      OneMore(s, WriterWrites(NoFault), rest);
      steps := [WriterWrites(NoFault)] + rest;
      Assoc(s.link.wire, head, tail);
    }
  }
}
