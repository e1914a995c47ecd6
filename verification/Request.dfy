/** One request on its own: what its waiter or its stream consumer can observe, and the
    automaton that the callbacks for its own id drive. */
module Request {
  import opened Decimal
  import opened ClientState
  import opened Engine

  /** `okSet`/`errSet`: the events; `val`: the content behind the success event, which is `live`
      while it is the accumulator itself; `acc`: the accumulator; `err`: the last error. */
  datatype Local =
    | Absent
    | LWaiting(name: EventName, okSet: bool, errSet: bool, okDone: bool, errDone: bool, timer: bool,
               val: Content, live: bool, err: TwsError, acc: Option<seq<int>>)
    | LReturned(outcome: Outcome)
    | LStreaming(kind: StreamKind, queue: seq<Item>, got: seq<Item>, atYield: bool, cancels: nat)
    | LClosed(kind: StreamKind, got: seq<Item>, ending: Ending, cancels: nat)

  function Fresh(name: EventName, req: int, acc: Option<seq<int>>): Local {
    LWaiting(name, false, false, false, false, false, Nothing, false, TwsError(req, 0, ""), acc)
  }

  function Subscribed(kind: StreamKind, cancels: nat): Local {
    LStreaming(kind, [], [], false, cancels)
  }

  function GetOr(acc: Option<seq<int>>): seq<int> {
    match acc
    case None => []
    case Some(items) => items
  }

  function WaitCallback(l: Local, cb: Callback): Local
    requires l.LWaiting?
  {
    match cb
    case Completed(slot, v) =>
      if slot.name == l.name then l.(okSet := true, val := One(v), live := false) else l
    case Items(slot, items) =>
      if slot.name == l.name then
        var all := GetOr(l.acc) + items;
        l.(acc := Some(all), val := if l.live then Many(all) else l.val)
      else l
    case Ended(slot) =>
      if slot.name == l.name then l.(okSet := true, val := Many(GetOr(l.acc)), live := l.acc.Some?) else l
    case ErrorAt(err) =>
      if Informational(err.code) then l else l.(errSet := true, err := err)
    case Pushed(_, _) => l
  }

  /** What a callback puts on the queue of the stream of its request. */
  function Delivered(cb: Callback): seq<Item> {
    match cb
    case Completed(_, _) => []
    case Items(slot, items) => if slot.name == HistoricalData then Rows(items) else []
    case Ended(slot) => if slot.name == HistoricalData then [End] else []
    case ErrorAt(err) => if Informational(err.code) then [] else [Failure(err)]
    case Pushed(_, item) => [Row(item)]
  }

  predicate LEnabled(l: Local, s: Step) {
    match s
    case Call(_) => true
    case OkTask(_) => l.LWaiting? && l.okSet
    case ErrTask(_) => l.LWaiting? && l.errSet
    case Timer(_) => l.LWaiting? && (l.okSet ==> l.okDone) && (l.errSet ==> l.errDone)
    case Resume(_) => l.LWaiting? && (l.okDone || l.errDone || l.timer)
    case Take(_) => l.LStreaming? && !l.atYield && l.queue != []
    case AskNext(_) => l.LStreaming? && l.atYield
    case StreamTimeout(_) => l.LStreaming? && !l.atYield && l.kind != Live
    case Abandon(_) => l.LStreaming?
    case BeginWait(_, _, _) => false
    case BeginStream(_, _) => false
  }

  function LAnswer(l: Local): Outcome
    requires l.LWaiting?
  {
    if l.okDone then Response(l.val) else if l.errDone then Raised(l.err) else TimedOut
  }

  function LClose(l: Local, ending: Ending): Local
    requires l.LStreaming?
  {
    LClosed(l.kind, l.got, ending, if ending.WithError? then l.cancels else l.cancels + 1)
  }

  function LTake(l: Local): Local
    requires l.LStreaming? && l.queue != []
  {
    match EndingOf(l.kind, l.queue[0])
    case Some(ending) => LClose(l, ending)
    case None => l.(queue := l.queue[1..], got := l.got + [l.queue[0]], atYield := l.kind != Depth)
  }

  function LApply(l: Local, s: Step): Local
    requires LEnabled(l, s)
  {
    match s
    case Call(cb) =>
      if l.LWaiting? then WaitCallback(l, cb)
      else if l.LStreaming? then l.(queue := l.queue + Delivered(cb))
      else l
    case OkTask(_) => l.(okDone := true)
    case ErrTask(_) => l.(errDone := true)
    case Timer(_) => l.(timer := true)
    case Resume(_) => LReturned(LAnswer(l))
    case Take(_) => LTake(l)
    case AskNext(_) => l.(atYield := false)
    case StreamTimeout(_) => LClose(l, AfterTimeout)
    case Abandon(_) => LClose(l, Abandoned)
  }

  predicate LCanRun(l: Local, steps: seq<Step>)
    decreases steps
  {
    steps == [] || (LEnabled(l, steps[0]) && LCanRun(LApply(l, steps[0]), steps[1..]))
  }

  function LRun(l: Local, steps: seq<Step>): Local
    requires LCanRun(l, steps)
    decreases steps
  {
    if steps == [] then l else LRun(LApply(l, steps[0]), steps[1..])
  }

  // ----- what a request sees of the shared state

  function AccumulatorOf(c: Shared, slot: Slot): Option<seq<int>> {
    if slot in c.accumulators then Some(ItemsOf(c, c.accumulators[slot])) else None
  }

  predicate IsAccumulator(c: Shared, slot: Slot) {
    slot in c.data && slot in c.accumulators && c.data[slot] == ListRef(c.accumulators[slot])
  }

  function View(w: World, req: int): Local {
    if req !in w.acts then Absent
    else
      match w.acts[req]
      case Waiting(name, okEvent, errEvent, okDone, errDone, timer) =>
        var slot := Slot(name, req);
        var okSet, errSet := okEvent in w.c.raised, errEvent in w.c.raised;
        LWaiting(name, okSet, errSet, okDone, errDone, timer,
                 if okSet then Stored(w.c, slot) else Nothing,
                 okSet && IsAccumulator(w.c, slot),
                 if errSet then ErrorOf(w.c, req) else TwsError(req, 0, ""),
                 AccumulatorOf(w.c, slot))
      case Returned(outcome) => LReturned(outcome)
      case Streaming(kind, got, atYield) =>
        LStreaming(kind, if req in w.c.queues then w.c.queues[req] else [], got, atYield, w.c.cancels[req])
      case Closed(kind, got, ending) => LClosed(kind, got, ending, w.c.cancels[req])
  }
}
