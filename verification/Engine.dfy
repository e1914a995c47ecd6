/** Any number of requests and streams running over one client: a step is what runs between two
    `await`s, and the order of the steps is arbitrary. */
module Engine {
  import opened Decimal
  import opened ClientState

  /** A coroutine suspended in `asyncio.wait` holds the identities of its two events and
      whether the task waiting on each is done; a timer that fired does not end the wait by
      itself. A generator is either waiting for its queue or suspended at a `yield`. */
  datatype Activity =
    | Waiting(name: EventName, okEvent: nat, errEvent: nat, okDone: bool, errDone: bool, timer: bool)
    | Returned(outcome: Outcome)
    | Streaming(kind: StreamKind, got: seq<Item>, atYield: bool)
    | Closed(kind: StreamKind, got: seq<Item>, ending: Ending)

  datatype Ending = AtEnd | WithError(err: TwsError) | WithException | AfterTimeout | Abandoned

  datatype World = World(c: Shared, acts: map<int, Activity>)

  const INITIAL := World(EMPTY, map[])

  /** The callbacks that matter here. `Completed` stands for every callback that stores one
      value and signals it. */
  datatype Callback =
    | Completed(slot: Slot, v: int)
    | Items(slot: Slot, items: seq<int>)
    | Ended(slot: Slot)
    | ErrorAt(err: TwsError)
    | Pushed(req: int, item: int)

  datatype Step =
    | Call(cb: Callback)
    | BeginWait(req: int, name: EventName, pop: bool)
    | OkTask(req: int)
    | ErrTask(req: int)
    | Timer(req: int)
    | Resume(req: int)
    | BeginStream(req: int, kind: StreamKind)
    | Take(req: int)
    | AskNext(req: int)
    | StreamTimeout(req: int)
    | Abandon(req: int)

  function CallbackReq(cb: Callback): int {
    match cb
    case Completed(slot, _) => slot.req
    case Items(slot, _) => slot.req
    case Ended(slot) => slot.req
    case ErrorAt(err) => err.req
    case Pushed(req, _) => req
  }

  /** The request a step belongs to. */
  function ReqOf(s: Step): int {
    if s.Call? then CallbackReq(s.cb) else s.req
  }

  function OnCallback(c: Shared, cb: Callback): Shared {
    match cb
    case Completed(slot, v) => SetEvent(c, slot, Opaque(v))
    case Items(slot, items) => OnItems(c, slot, items)
    case Ended(slot) => OnEnd(c, slot)
    case ErrorAt(err) => OnError(c, err)
    case Pushed(req, item) => Push(c, req, [Row(item)])
  }

  predicate Active(a: Activity) {
    a.Waiting? || a.Streaming?
  }

  predicate Free(w: World, req: int) {
    req in w.acts ==> !Active(w.acts[req])
  }

  predicate IsWaiting(w: World, req: int) {
    req in w.acts && w.acts[req].Waiting?
  }

  predicate IsStreaming(w: World, req: int) {
    req in w.acts && w.acts[req].Streaming?
  }

  predicate SlotOk(slot: Slot) {
    slot.name != Error
  }

  /** When a step can be taken. Only `error` signals the error slot, a request id is not used
      by two overlapping waiters or streams, and a task is done only after its event is set.
      The event loop is first in, first out: a task whose event was set before the timer fires
      is done before the timer lets its waiter go on, so it counts as done before the timer. */
  predicate Enabled(w: World, s: Step) {
    match s
    case Call(cb) =>
      (match cb
       case Completed(slot, _) => SlotOk(slot)
       case Items(slot, _) => SlotOk(slot)
       case Ended(slot) => SlotOk(slot)
       case _ => true)
    case BeginWait(req, name, _) => name != Error && Free(w, req)
    case OkTask(req) => IsWaiting(w, req) && w.acts[req].okEvent in w.c.raised
    case ErrTask(req) => IsWaiting(w, req) && w.acts[req].errEvent in w.c.raised
    case Timer(req) =>
      && IsWaiting(w, req)
      && (w.acts[req].okEvent in w.c.raised ==> w.acts[req].okDone)
      && (w.acts[req].errEvent in w.c.raised ==> w.acts[req].errDone)
    case Resume(req) =>
      IsWaiting(w, req) && (w.acts[req].okDone || w.acts[req].errDone || w.acts[req].timer)
    case BeginStream(req, _) => Free(w, req)
    case Take(req) => IsStreaming(w, req) && !w.acts[req].atYield && req in w.c.queues && w.c.queues[req] != []
    case AskNext(req) => IsStreaming(w, req) && w.acts[req].atYield
    case StreamTimeout(req) => IsStreaming(w, req) && !w.acts[req].atYield && w.acts[req].kind != Live
    case Abandon(req) => IsStreaming(w, req)
  }

  /** What the consumer of a stream does with the item it takes: go on, or end. */
  function EndingOf(kind: StreamKind, item: Item): Option<Ending> {
    match item
    case Failure(err) => Some(WithError(err))
    case OtherException => Some(WithException)
    case End => if kind == Historical then Some(AtEnd) else None
    case Row(_) => None
  }

  /** What a consumer takes as an item, by kind: no error, no exception, and, for a historical
      stream, no end. */
  predicate Passes(kind: StreamKind, item: Item) {
    !item.Failure? && item != OtherException && (kind == Historical ==> item != End)
  }

  function Close(w: World, req: int, ending: Ending): World
    requires IsStreaming(w, req)
  {
    var a := w.acts[req];
    World(Unsubscribe(w.c, req, a.kind, !ending.WithError?), w.acts[req := Closed(a.kind, a.got, ending)])
  }

  function Apply(w: World, s: Step): World
    requires Enabled(w, s)
  {
    match s
    case Call(cb) => w.(c := OnCallback(w.c, cb))
    case BeginWait(req, name, pop) =>
      var slot := Slot(name, req);
      var c := Register(if pop then w.c.(accumulators := w.c.accumulators - {slot}) else w.c, slot);
      World(c, w.acts[req := Waiting(name, c.events[slot], c.events[Slot(Error, req)], false, false, false)])
    case OkTask(req) => w.(acts := w.acts[req := w.acts[req].(okDone := true)])
    case ErrTask(req) => w.(acts := w.acts[req := w.acts[req].(errDone := true)])
    case Timer(req) => w.(acts := w.acts[req := w.acts[req].(timer := true)])
    case Resume(req) =>
      var a := w.acts[req];
      var slot := Slot(a.name, req);
      World(Release(w.c, slot), w.acts[req := Returned(Answer(w.c, slot, a.okDone, a.errDone))])
    case BeginStream(req, kind) =>
      World(ClientState.Subscribe(w.c, req), w.acts[req := Streaming(kind, [], false)])
    case Take(req) =>
      var a := w.acts[req];
      var item := w.c.queues[req][0];
      var rest := w.(c := w.c.(queues := w.c.queues[req := w.c.queues[req][1..]]));
      (match EndingOf(a.kind, item)
       case Some(ending) => Close(rest, req, ending)
       case None => rest.(acts := w.acts[req := Streaming(a.kind, a.got + [item], a.kind != Depth)]))
    case AskNext(req) => w.(acts := w.acts[req := w.acts[req].(atYield := false)])
    case StreamTimeout(req) => Close(w, req, AfterTimeout)
    case Abandon(req) => Close(w, req, Abandoned)
  }

  /** The server is unrestricted: any callback can come at any time, except that nothing but
      `error` signals the error slot. */
  lemma AnyCallbackCanCome(w: World, cb: Callback)
    ensures Enabled(w, Call(cb)) <==>
            !((cb.Completed? || cb.Items? || cb.Ended?) && cb.slot.name == Error)
  {
  }

  // ----- runs

  predicate CanRun(w: World, steps: seq<Step>)
    decreases steps
  {
    steps == [] || (Enabled(w, steps[0]) && CanRun(Apply(w, steps[0]), steps[1..]))
  }

  function Run(w: World, steps: seq<Step>): World
    requires CanRun(w, steps)
    decreases steps
  {
    if steps == [] then w else Run(Apply(w, steps[0]), steps[1..])
  }

  // ----- the live-waiter invariant and what keeps it

  /** The slot of one of the two events of a live waiter. */
  predicate LiveSlot(acts: map<int, Activity>, slot: Slot) {
    && slot.req in acts && acts[slot.req].Waiting?
    && (slot.name == acts[slot.req].name || slot.name == Error)
  }

  /** The waiter on `req` holds the events stored under its own two keys. */
  predicate HoldsItsEvents(events: map<Slot, nat>, acts: map<int, Activity>, req: int)
    requires req in acts && acts[req].Waiting?
  {
    var a := acts[req];
    && a.name != Error
    && Slot(a.name, req) in events && events[Slot(a.name, req)] == a.okEvent
    && Slot(Error, req) in events && events[Slot(Error, req)] == a.errEvent
  }

  /** `_response_events` has exactly the success and error keys of the live waiters, and each
      waiter holds the events stored under its keys. */
  ghost predicate LiveWaiters(events: map<Slot, nat>, acts: map<int, Activity>) {
    && (forall slot :: slot in events <==> LiveSlot(acts, slot))
    && (forall req | req in acts && acts[req].Waiting? :: HoldsItsEvents(events, acts, req))
  }

  /** A set event has its data stored. */
  ghost predicate SignalsHaveData(c: Shared) {
    forall slot | slot in c.events && c.events[slot] in c.raised :: slot in c.data
  }

  /** A task is done only if its event is set. */
  ghost predicate TasksFollowEvents(raised: set<nat>, acts: map<int, Activity>) {
    forall req | req in acts && acts[req].Waiting? ::
      && (acts[req].okDone ==> acts[req].okEvent in raised)
      && (acts[req].errDone ==> acts[req].errEvent in raised)
  }

  /** A list reference of a slot leads to a list made for that slot. */
  predicate OwnList(lists: map<nat, ListObject>, id: nat, slot: Slot) {
    id in lists && lists[id].owner == slot
  }

  /** No event and no list is shared between slots, identities in use are taken, and only error
      slots hold error details. */
  ghost predicate OwnObjects(c: Shared) {
    && (forall s, t | s in c.events && t in c.events && c.events[s] == c.events[t] :: s == t)
    && (forall slot | slot in c.events :: c.events[slot] < c.next)
    && (forall id | id in c.raised :: id < c.next)
    && (forall id | id in c.lists :: id < c.next)
    && (forall slot | slot in c.accumulators :: OwnList(c.lists, c.accumulators[slot], slot))
    && (forall slot | slot in c.data && c.data[slot].ListRef? :: OwnList(c.lists, c.data[slot].id, slot))
    && (forall slot | slot in c.data :: c.data[slot].ErrorInfo? <==> slot.name == Error)
  }

  /** A queue is registered exactly while its stream is running. */
  ghost predicate LiveStreams(queues: map<int, seq<Item>>, acts: map<int, Activity>) {
    forall req :: req in queues <==> req in acts && acts[req].Streaming?
  }

  ghost predicate Inv(w: World) {
    && LiveWaiters(w.c.events, w.acts)
    && SignalsHaveData(w.c)
    && TasksFollowEvents(w.c.raised, w.acts)
    && OwnObjects(w.c)
    && LiveStreams(w.c.queues, w.acts)
  }

  lemma InvInitial()
    ensures Inv(INITIAL)
  {
  }

  // The shared state alone.

  ghost predicate Sound(c: Shared) {
    SignalsHaveData(c) && OwnObjects(c)
  }

  /** What every callback leaves as it is, or only adds to. */
  ghost predicate Grows(c: Shared, d: Shared) {
    d.events == c.events && c.raised <= d.raised && d.queues.Keys == c.queues.Keys
  }

  lemma RecordSound(c: Shared, err: TwsError)
    requires Sound(c)
    ensures Sound(Record(c, err)) && Grows(c, Record(c, err))
  {
  }

  lemma SetEventSound(c: Shared, slot: Slot, value: Value)
    requires Sound(c)
    requires value.ErrorInfo? <==> slot.name == Error
    requires value.ListRef? ==> OwnList(c.lists, value.id, slot)
    ensures Sound(SetEvent(c, slot, value)) && Grows(c, SetEvent(c, slot, value))
  {
  }

  lemma AllocateSound(c: Shared, slot: Slot, items: seq<int>, keep: bool)
    requires Sound(c)
    ensures var d := c.(lists := c.lists[c.next := ListObject(slot, items)], next := c.next + 1,
                        accumulators := if keep then c.accumulators[slot := c.next] else c.accumulators);
            Sound(d) && Grows(c, d) && OwnList(d.lists, c.next, slot)
  {
  }

  lemma AccumulateSound(c: Shared, slot: Slot, items: seq<int>)
    requires Sound(c)
    ensures Sound(Accumulate(c, slot, items)) && Grows(c, Accumulate(c, slot, items))
  {
    if slot !in c.accumulators {
      AllocateSound(c, slot, items, true);
    }
  }

  lemma SignalListSound(c: Shared, slot: Slot)
    requires Sound(c) && slot.name != Error
    ensures Sound(SignalList(c, slot)) && Grows(c, SignalList(c, slot))
  {
    if slot in c.accumulators {
      SetEventSound(c, slot, ListRef(c.accumulators[slot]));
    } else {
      AllocateSound(c, slot, [], false);
      SetEventSound(c.(lists := c.lists[c.next := ListObject(slot, [])], next := c.next + 1), slot, ListRef(c.next));
    }
  }

  lemma CallbackSound(w: World, cb: Callback)
    requires Sound(w.c) && Enabled(w, Call(cb))
    ensures Sound(OnCallback(w.c, cb)) && Grows(w.c, OnCallback(w.c, cb))
  {
    match cb {
      case Completed(slot, v) => SetEventSound(w.c, slot, Opaque(v));
      case Items(slot, items) =>
        if !ToStream(w.c, slot) { AccumulateSound(w.c, slot, items); }
      case Ended(slot) =>
        if !ToStream(w.c, slot) { SignalListSound(w.c, slot); }
      case ErrorAt(err) =>
        RecordSound(w.c, err);
        if !Informational(err.code) { SetEventSound(Record(w.c, err), Slot(Error, err.req), ErrorInfo(err)); }
      case Pushed(_, _) =>
    }
  }

  lemma EnsureSound(c: Shared, slot: Slot)
    requires Sound(c)
    ensures Sound(Ensure(c, slot))
  {
    if slot !in c.events { NewEventSound(c, slot); }
  }

  lemma NewEventSound(c: Shared, slot: Slot)
    requires Sound(c) && slot !in c.events
    ensures Sound(c.(events := c.events[slot := c.next], next := c.next + 1))
  {
    assert c.next !in c.raised;
  }

  lemma CleanupSound(c: Shared, slot: Slot)
    requires Sound(c)
    ensures Sound(Cleanup(c, slot))
  {
  }

  // Whole steps.

  lemma InvCallback(w: World, cb: Callback)
    requires Inv(w) && Enabled(w, Call(cb))
    ensures Inv(Apply(w, Call(cb)))
  {
    CallbackSound(w, cb);
  }

  lemma TasksFollow(raised: set<nat>, acts: map<int, Activity>, req: int, a: Activity)
    requires TasksFollowEvents(raised, acts)
    requires a.Waiting? ==> (a.okDone ==> a.okEvent in raised) && (a.errDone ==> a.errEvent in raised)
    ensures TasksFollowEvents(raised, acts[req := a])
  {
  }

  lemma StreamsStay(queues: map<int, seq<Item>>, acts: map<int, Activity>, req: int, a: Activity)
    requires LiveStreams(queues, acts) && !a.Streaming? && (req in acts ==> !acts[req].Streaming?)
    ensures LiveStreams(queues, acts[req := a])
  {
  }

  /** The two events of a new waiter are new objects, so neither is set. */
  lemma RegisterFresh(c: Shared, slot: Slot)
    requires Sound(c) && slot.name != Error
    requires slot !in c.events && Slot(Error, slot.req) !in c.events
    ensures var d := Register(c, slot); var err := Slot(Error, slot.req);
            && Sound(d)
            && d == c.(events := c.events[slot := c.next][err := c.next + 1], next := c.next + 2)
            && c.next !in c.raised && c.next + 1 !in c.raised
  {
    EnsureSound(c, slot);
    EnsureSound(Ensure(c, slot), Slot(Error, slot.req));
  }

  lemma LiveWaitersBegin(events: map<Slot, nat>, acts: map<int, Activity>, slot: Slot, id: nat)
    requires LiveWaiters(events, acts)
    requires slot.name != Error && (slot.req in acts ==> !Active(acts[slot.req]))
    ensures slot !in events && Slot(Error, slot.req) !in events
    ensures LiveWaiters(events[slot := id][Slot(Error, slot.req) := id + 1],
                        acts[slot.req := Waiting(slot.name, id, id + 1, false, false, false)])
  {
    assert !LiveSlot(acts, slot) && !LiveSlot(acts, Slot(Error, slot.req));
    var next := acts[slot.req := Waiting(slot.name, id, id + 1, false, false, false)];
    var all := events[slot := id][Slot(Error, slot.req) := id + 1];
    forall s ensures s in all <==> LiveSlot(next, s) {
      assert s in events <==> LiveSlot(acts, s);
    }
    forall r | r in next && next[r].Waiting? ensures HoldsItsEvents(all, next, r) {
      assert r != slot.req ==> HoldsItsEvents(events, acts, r);
    }
  }

  lemma PopSound(c: Shared, slot: Slot)
    requires Sound(c)
    ensures Sound(c.(accumulators := c.accumulators - {slot}))
  {
  }

  /** The state behind `BeginWait`: two new unset events under two keys that were free. */
  function Begun(w: World, req: int, name: EventName, pop: bool): World {
    var slot, id := Slot(name, req), w.c.next;
    World(w.c.(events := w.c.events[slot := id][Slot(Error, req) := id + 1],
               accumulators := if pop then w.c.accumulators - {slot} else w.c.accumulators,
               next := id + 2),
          w.acts[req := Waiting(name, id, id + 1, false, false, false)])
  }

  lemma FreeSlots(w: World, slot: Slot)
    requires LiveWaiters(w.c.events, w.acts) && Free(w, slot.req)
    ensures slot !in w.c.events && Slot(Error, slot.req) !in w.c.events
  {
    assert !LiveSlot(w.acts, slot) && !LiveSlot(w.acts, Slot(Error, slot.req));
  }

  lemma BeginWaitIsFresh(w: World, req: int, name: EventName, pop: bool)
    requires Inv(w) && Enabled(w, BeginWait(req, name, pop))
    ensures Apply(w, BeginWait(req, name, pop)) == Begun(w, req, name, pop)
    ensures Sound(Begun(w, req, name, pop).c)
    ensures w.c.next !in w.c.raised && w.c.next + 1 !in w.c.raised
  {
    var slot := Slot(name, req);
    var c := if pop then w.c.(accumulators := w.c.accumulators - {slot}) else w.c;
    assert Sound(c) by { PopSound(w.c, slot); }
    FreeSlots(w, slot);
    RegisterFresh(c, slot);
  }

  lemma BegunWaiters(w: World, req: int, name: EventName, pop: bool)
    requires LiveWaiters(w.c.events, w.acts) && name != Error && Free(w, req)
    ensures LiveWaiters(Begun(w, req, name, pop).c.events, Begun(w, req, name, pop).acts)
  {
    LiveWaitersBegin(w.c.events, w.acts, Slot(name, req), w.c.next);
  }

  lemma BegunTasks(w: World, req: int, name: EventName, pop: bool)
    requires TasksFollowEvents(w.c.raised, w.acts)
    ensures TasksFollowEvents(Begun(w, req, name, pop).c.raised, Begun(w, req, name, pop).acts)
  {
    TasksFollow(w.c.raised, w.acts, req, Waiting(name, w.c.next, w.c.next + 1, false, false, false));
  }

  lemma BegunStreams(w: World, req: int, name: EventName, pop: bool)
    requires LiveStreams(w.c.queues, w.acts) && Free(w, req)
    ensures LiveStreams(Begun(w, req, name, pop).c.queues, Begun(w, req, name, pop).acts)
  {
    StreamsStay(w.c.queues, w.acts, req, Waiting(name, w.c.next, w.c.next + 1, false, false, false));
  }

  lemma InvBegun(w: World, req: int, name: EventName, pop: bool)
    requires LiveWaiters(w.c.events, w.acts) && TasksFollowEvents(w.c.raised, w.acts) && LiveStreams(w.c.queues, w.acts)
    requires name != Error && Free(w, req)
    requires Sound(Begun(w, req, name, pop).c)
    ensures Inv(Begun(w, req, name, pop))
  {
    BegunWaiters(w, req, name, pop);
    BegunTasks(w, req, name, pop);
    BegunStreams(w, req, name, pop);
  }

  lemma InvBeginWait(w: World, req: int, name: EventName, pop: bool)
    requires Inv(w) && Enabled(w, BeginWait(req, name, pop))
    ensures Inv(Apply(w, BeginWait(req, name, pop)))
  {
    BeginWaitIsFresh(w, req, name, pop);
    InvBegun(w, req, name, pop);
  }

  lemma LiveWaitersEnd(events: map<Slot, nat>, acts: map<int, Activity>, req: int, a: Activity)
    requires LiveWaiters(events, acts) && req in acts && acts[req].Waiting? && !Active(a)
    ensures LiveWaiters(events - {Slot(acts[req].name, req)} - {Slot(Error, req)}, acts[req := a])
  {
    var left := events - {Slot(acts[req].name, req)} - {Slot(Error, req)};
    var next := acts[req := a];
    forall slot ensures slot in left <==> LiveSlot(next, slot) {
      assert slot in events <==> LiveSlot(acts, slot);
    }
    forall r | r in next && next[r].Waiting? ensures HoldsItsEvents(left, next, r) {
      assert HoldsItsEvents(events, acts, r);
    }
  }

  lemma InvResume(w: World, req: int)
    requires Inv(w) && Enabled(w, Resume(req))
    ensures Inv(Apply(w, Resume(req)))
  {
    var slot := Slot(w.acts[req].name, req);
    CleanupSound(w.c, slot);
    CleanupSound(Cleanup(w.c, slot), Slot(Error, req));
    var a := Returned(Answer(w.c, slot, w.acts[req].okDone, w.acts[req].errDone));
    LiveWaitersEnd(w.c.events, w.acts, req, a);
    TasksFollow(w.c.raised, w.acts, req, a);
    StreamsStay(w.c.queues, w.acts, req, a);
    assert Apply(w, Resume(req)) == World(Release(w.c, slot), w.acts[req := a]);
  }

  /** Changing nothing about a waiter but its task and timer flags keeps its events. */
  lemma SameWaiters(events: map<Slot, nat>, acts: map<int, Activity>, req: int, a: Activity)
    requires LiveWaiters(events, acts) && (req in acts && acts[req].Waiting? <==> a.Waiting?)
    requires a.Waiting? ==>
               && a.name == acts[req].name
               && a.okEvent == acts[req].okEvent && a.errEvent == acts[req].errEvent
    ensures LiveWaiters(events, acts[req := a])
  {
    var next := acts[req := a];
    forall slot ensures slot in events <==> LiveSlot(next, slot) {
      assert slot in events <==> LiveSlot(acts, slot);
    }
    forall r | r in next && next[r].Waiting? ensures HoldsItsEvents(events, next, r) {
      assert HoldsItsEvents(events, acts, r);
    }
  }

  lemma InvFlag(w: World, s: Step)
    requires Inv(w) && Enabled(w, s) && (s.OkTask? || s.ErrTask? || s.Timer?)
    ensures Inv(Apply(w, s))
  {
    var a := Apply(w, s).acts[s.req];
    SameWaiters(w.c.events, w.acts, s.req, a);
    TasksFollow(w.c.raised, w.acts, s.req, a);
    StreamsStay(w.c.queues, w.acts, s.req, a);
    assert Apply(w, s) == World(w.c, w.acts[s.req := a]);
  }

  /** A stream step touches the queue, the accumulator and the activity of its own request,
      and the cancel count. */
  ghost predicate StreamStep(w: World, v: World, req: int) {
    && req in v.acts && !v.acts[req].Waiting? && v.acts == w.acts[req := v.acts[req]]
    && (v.acts[req].Streaming? <==> req in v.c.queues)
    && v.c.queues - {req} == w.c.queues - {req}
    && v.c == w.c.(queues := v.c.queues, accumulators := v.c.accumulators, cancels := v.c.cancels)
    && (forall slot | slot in v.c.accumulators ::
          slot in w.c.accumulators && v.c.accumulators[slot] == w.c.accumulators[slot])
  }

  lemma CloseIsStreamStep(w: World, req: int, ending: Ending)
    requires IsStreaming(w, req)
    ensures StreamStep(w, Close(w, req, ending), req)
  {
  }

  lemma StreamSteps(w: World, s: Step)
    requires Inv(w) && Enabled(w, s)
    requires s.BeginStream? || s.Take? || s.AskNext? || s.StreamTimeout? || s.Abandon?
    ensures StreamStep(w, Apply(w, s), s.req)
  {
    if s.StreamTimeout? {
      CloseIsStreamStep(w, s.req, AfterTimeout);
    } else if s.Abandon? {
      CloseIsStreamStep(w, s.req, Abandoned);
    } else if s.Take? {
      TakeIsStreamStep(w, s.req);
    }
  }

  lemma TakeIsStreamStep(w: World, req: int)
    requires Enabled(w, Take(req))
    ensures StreamStep(w, Apply(w, Take(req)), req)
  {
    var a, q := w.acts[req], w.c.queues[req];
    var rest := w.(c := w.c.(queues := w.c.queues[req := q[1..]]));
    assert rest.c.queues - {req} == w.c.queues - {req};
    match EndingOf(a.kind, q[0]) {
      case Some(ending) => CloseIsStreamStep(rest, req, ending);
      case None =>
    }
  }

  lemma InvStream(w: World, v: World, req: int)
    requires Inv(w) && StreamStep(w, v, req) && (req in w.acts ==> !w.acts[req].Waiting?)
    ensures Inv(v)
  {
    SameWaiters(w.c.events, w.acts, req, v.acts[req]);
    forall r ensures r in v.c.queues <==> r in v.acts && v.acts[r].Streaming? {
      assert r != req ==> (r in v.c.queues <==> r in v.c.queues - {req});
      assert r != req ==> (r in w.c.queues <==> r in w.c.queues - {req});
    }
  }

  lemma InvStep(w: World, s: Step)
    requires Inv(w) && Enabled(w, s)
    ensures Inv(Apply(w, s))
  {
    match s {
      case Call(cb) => InvCallback(w, cb);
      case BeginWait(req, name, pop) => InvBeginWait(w, req, name, pop);
      case OkTask(_) => InvFlag(w, s);
      case ErrTask(_) => InvFlag(w, s);
      case Timer(_) => InvFlag(w, s);
      case Resume(req) => InvResume(w, req);
      case _ =>
        StreamSteps(w, s);
        InvStream(w, Apply(w, s), s.req);
    }
  }

  /** The invariant holds after every run, under every interleaving. */
  lemma {:induction false} InvRun(w: World, steps: seq<Step>)
    requires Inv(w) && CanRun(w, steps)
    ensures Inv(Run(w, steps))
    decreases steps
  {
    if steps != [] {
      InvStep(w, steps[0]);
      InvRun(Apply(w, steps[0]), steps[1..]);
    }
  }

  /** In every reachable state the event keys are exactly the success and error keys of the
      live waiters, and the queues exactly those of the running streams. */
  lemma OnlyLiveKeys(steps: seq<Step>)
    requires CanRun(INITIAL, steps)
    ensures var w := Run(INITIAL, steps);
            && (forall slot :: slot in w.c.events <==> LiveSlot(w.acts, slot))
            && (forall req :: req in w.c.queues <==> IsStreaming(w, req))
  {
    InvInitial();
    InvRun(INITIAL, steps);
    var w := Run(INITIAL, steps);
    assert LiveWaiters(w.c.events, w.acts) && LiveStreams(w.c.queues, w.acts);
  }

  // ----- the error log

  /** The errors that a run brings for `req`, informational ones included. */
  function ErrorsFor(steps: seq<Step>, req: int): seq<TwsError> {
    if steps == [] then []
    else
      (match steps[0]
       case Call(ErrorAt(err)) => if err.req == req then [err] else []
       case _ => [])
      + ErrorsFor(steps[1..], req)
  }

  lemma StepLogs(w: World, s: Step, req: int)
    requires Enabled(w, s)
    ensures Logged(Apply(w, s).c, req) == Logged(w.c, req) + ErrorsFor([s], req)
  {
    assert [s][1..] == [] && ErrorsFor([], req) == [];
    assert Logged(w.c, req) + [] == Logged(w.c, req);
    if s.Call? {
      CallbackLogs(w.c, s.cb);
      var d := OnCallback(w.c, s.cb);
      if s.cb.ErrorAt? && s.cb.err.req == req {
        assert Logged(d, req) == Logged(w.c, req) + [s.cb.err];
      }
    } else {
      OthersLogNothing(w, s);
    }
  }

  lemma CallbackLogs(c: Shared, cb: Callback)
    ensures OnCallback(c, cb).errors == if cb.ErrorAt? then Record(c, cb.err).errors else c.errors
  {
    match cb {
      case ErrorAt(err) => ErrorLogs(c, err);
      case Items(slot, items) => ItemsLogNothing(c, slot, items);
      case Ended(slot) => EndLogsNothing(c, slot);
      case _ =>
    }
  }

  lemma ErrorLogs(c: Shared, err: TwsError)
    ensures OnError(c, err).errors == Record(c, err).errors
  {
  }

  lemma ItemsLogNothing(c: Shared, slot: Slot, items: seq<int>)
    ensures OnItems(c, slot, items).errors == c.errors
  {
  }

  lemma EndLogsNothing(c: Shared, slot: Slot)
    ensures OnEnd(c, slot).errors == c.errors
  {
  }

  lemma OthersLogNothing(w: World, s: Step)
    requires Enabled(w, s) && !s.Call?
    ensures Apply(w, s).c.errors == w.c.errors
  {
    match s {
      case Take(req) => TakeIsStreamStep(w, req);
      case StreamTimeout(req) => CloseIsStreamStep(w, req, AfterTimeout);
      case Abandon(req) => CloseIsStreamStep(w, req, Abandoned);
      case _ =>
    }
  }

  /** The log of a request id is exactly the sequence of its errors: none is lost, none is
      recorded twice, and their order is kept. */
  lemma {:induction false} ErrorsAreLogged(w: World, steps: seq<Step>, req: int)
    requires CanRun(w, steps)
    ensures Logged(Run(w, steps).c, req) == Logged(w.c, req) + ErrorsFor(steps, req)
    decreases steps
  {
    if steps == [] {
      assert Logged(w.c, req) + [] == Logged(w.c, req);
    } else {
      var s, rest := steps[0], steps[1..];
      StepLogs(w, s, req);
      ErrorsAreLogged(Apply(w, s), rest, req);
      assert [s][1..] == [] && ErrorsFor(steps, req) == ErrorsFor([s], req) + ErrorsFor(rest, req);
      Assoc(Logged(w.c, req), ErrorsFor([s], req), ErrorsFor(rest, req));
    }
  }
}
