/** The engine refines its single requests: whatever else runs over the client, each request
    moves exactly as its own automaton does under the steps that carry its own id. */
module Refinement {
  import opened Decimal
  import opened ClientState
  import opened Engine
  import opened Request

  /** Everything a view depends on. */
  ghost predicate SameSlot(c: Shared, d: Shared, slot: Slot) {
    && Stored(d, slot) == Stored(c, slot)
    && (slot in d.data <==> slot in c.data)
    && (slot in c.data && slot in d.data ==> d.data[slot] == c.data[slot])
    && (slot in d.accumulators <==> slot in c.accumulators)
    && (slot in c.accumulators && slot in d.accumulators ==> d.accumulators[slot] == c.accumulators[slot])
    && AccumulatorOf(d, slot) == AccumulatorOf(c, slot)
  }

  ghost predicate SameForRequest(c: Shared, d: Shared, req: int) {
    && (forall slot: Slot | slot.req == req :: SameSlot(c, d, slot))
    && (forall slot: Slot | slot.req == req && slot in c.events ::
          c.events[slot] in d.raised <==> c.events[slot] in c.raised)
    && (req in d.queues <==> req in c.queues)
    && (req in c.queues && req in d.queues ==> d.queues[req] == c.queues[req])
    && d.cancels[req] == c.cancels[req]
  }

  lemma SameView(w: World, v: World, req: int)
    requires Inv(w) && SameForRequest(w.c, v.c, req)
    requires req in w.acts <==> req in v.acts
    requires req in w.acts ==> v.acts[req] == w.acts[req]
    ensures View(v, req) == View(w, req)
  {
    if req in w.acts && w.acts[req].Waiting? {
      var a := w.acts[req];
      assert HoldsItsEvents(w.c.events, w.acts, req);
      assert SameSlot(w.c, v.c, Slot(a.name, req)) && SameSlot(w.c, v.c, Slot(Error, req));
    }
  }

  // ----- steps of other requests

  lemma SetEventElsewhere(c: Shared, slot: Slot, value: Value, req: int)
    requires Sound(c) && slot.req != req
    ensures SameForRequest(c, SetEvent(c, slot, value), req)
  {
  }

  /** Appending to one list changes nothing about another slot. */
  lemma AccumulateBeside(c: Shared, slot: Slot, items: seq<int>, other: Slot)
    requires Sound(c) && other != slot
    ensures SameSlot(c, Accumulate(c, slot, items), other)
  {
  }

  lemma AccumulateElsewhere(c: Shared, slot: Slot, items: seq<int>, req: int)
    requires Sound(c) && slot.req != req
    ensures SameForRequest(c, Accumulate(c, slot, items), req)
  {
    forall other: Slot | other.req == req ensures SameSlot(c, Accumulate(c, slot, items), other) {
      AccumulateBeside(c, slot, items, other);
    }
  }

  lemma AllocateElsewhere(c: Shared, slot: Slot, req: int)
    requires Sound(c)
    ensures SameForRequest(c, c.(lists := c.lists[c.next := ListObject(slot, [])], next := c.next + 1), req)
  {
  }

  lemma SameTransitive(c: Shared, d: Shared, e: Shared, req: int)
    requires SameForRequest(c, d, req) && SameForRequest(d, e, req) && d.events == c.events
    ensures SameForRequest(c, e, req)
  {
    forall slot: Slot | slot.req == req ensures SameSlot(c, e, slot) {
      assert SameSlot(c, d, slot) && SameSlot(d, e, slot);
    }
  }

  lemma SignalListElsewhere(c: Shared, slot: Slot, req: int)
    requires Sound(c) && slot.req != req && slot.name != Error
    ensures SameForRequest(c, SignalList(c, slot), req)
  {
    if slot !in c.accumulators {
      var d := c.(lists := c.lists[c.next := ListObject(slot, [])], next := c.next + 1);
      AllocateSound(c, slot, [], false);
      AllocateElsewhere(c, slot, req);
      SetEventElsewhere(d, slot, ListRef(c.next), req);
      SameTransitive(c, d, SignalList(c, slot), req);
    } else {
      SetEventElsewhere(c, slot, ListRef(c.accumulators[slot]), req);
    }
  }

  lemma RecordAnywhere(c: Shared, err: TwsError, req: int)
    ensures SameForRequest(c, Record(c, err), req)
  {
  }

  lemma ErrorElsewhere(c: Shared, err: TwsError, req: int)
    requires Sound(c) && err.req != req
    ensures SameForRequest(c, OnError(c, err), req)
  {
    var r := Record(c, err);
    RecordSound(c, err);
    RecordAnywhere(c, err, req);
    if !Informational(err.code) {
      var d := SetEvent(r, Slot(Error, err.req), ErrorInfo(err));
      SetEventElsewhere(r, Slot(Error, err.req), ErrorInfo(err), req);
      PushElsewhere(d, err.req, [Failure(err)], req);
      SameTransitive(r, d, OnError(c, err), req);
      SameTransitive(c, r, OnError(c, err), req);
    }
  }

  lemma PushElsewhere(c: Shared, r: int, items: seq<Item>, req: int)
    requires r != req
    ensures SameForRequest(c, Push(c, r, items), req)
  {
  }

  lemma CallbackElsewhere(w: World, cb: Callback, req: int)
    requires Inv(w) && Enabled(w, Call(cb)) && CallbackReq(cb) != req
    ensures SameForRequest(w.c, OnCallback(w.c, cb), req)
  {
    match cb {
      case Completed(slot, v) => SetEventElsewhere(w.c, slot, Opaque(v), req);
      case Items(slot, items) =>
        if ToStream(w.c, slot) { PushElsewhere(w.c, slot.req, Rows(items), req); }
        else { AccumulateElsewhere(w.c, slot, items, req); }
      case Ended(slot) =>
        if ToStream(w.c, slot) { PushElsewhere(w.c, slot.req, [End], req); }
        else { SignalListElsewhere(w.c, slot, req); }
      case ErrorAt(err) => ErrorElsewhere(w.c, err, req);
      case Pushed(r, item) => PushElsewhere(w.c, r, [Row(item)], req);
    }
  }

  lemma BeginElsewhere(w: World, r: int, name: EventName, pop: bool, req: int)
    requires Inv(w) && r != req
    ensures SameForRequest(w.c, Begun(w, r, name, pop).c, req)
  {
  }

  lemma ReleaseElsewhere(c: Shared, slot: Slot, req: int)
    requires slot.req != req
    ensures SameForRequest(c, Release(c, slot), req)
  {
  }

  lemma QueueElsewhere(c: Shared, r: int, items: seq<Item>, req: int)
    requires r != req
    ensures SameForRequest(c, c.(queues := c.queues[r := items]), req)
  {
  }

  lemma UnsubscribeElsewhere(c: Shared, r: int, kind: StreamKind, cancel: bool, req: int)
    requires r != req
    ensures SameForRequest(c, Unsubscribe(c, r, kind, cancel), req)
  {
  }

  lemma TakeElsewhere(w: World, r: int, req: int)
    requires Enabled(w, Take(r)) && r != req
    ensures SameForRequest(w.c, Apply(w, Take(r)).c, req)
  {
    var a, q := w.acts[r], w.c.queues[r];
    var d := w.c.(queues := w.c.queues[r := q[1..]]);
    QueueElsewhere(w.c, r, q[1..], req);
    match EndingOf(a.kind, q[0]) {
      case None =>
      case Some(ending) =>
        UnsubscribeElsewhere(d, r, a.kind, !ending.WithError?, req);
        SameTransitive(w.c, d, Apply(w, Take(r)).c, req);
    }
  }

  lemma StepElsewhere(w: World, s: Step, req: int)
    requires Inv(w) && Enabled(w, s) && ReqOf(s) != req
    ensures SameForRequest(w.c, Apply(w, s).c, req)
  {
    match s {
      case Call(cb) => CallbackElsewhere(w, cb, req);
      case BeginWait(r, name, pop) =>
        BeginWaitIsFresh(w, r, name, pop);
        BeginElsewhere(w, r, name, pop, req);
      case Resume(r) => ReleaseElsewhere(w.c, Slot(w.acts[r].name, r), req);
      case BeginStream(r, _) => QueueElsewhere(w.c, r, [], req);
      case Take(r) => TakeElsewhere(w, r, req);
      case StreamTimeout(r) => UnsubscribeElsewhere(w.c, r, w.acts[r].kind, true, req);
      case Abandon(r) => UnsubscribeElsewhere(w.c, r, w.acts[r].kind, true, req);
      case _ =>
    }
  }

  lemma ActsElsewhere(w: World, s: Step, req: int)
    requires Enabled(w, s) && ReqOf(s) != req
    ensures req in Apply(w, s).acts <==> req in w.acts
    ensures req in w.acts ==> Apply(w, s).acts[req] == w.acts[req]
  {
  }

  /** A step of another request leaves the view of this one as it was. */
  lemma ForeignStep(w: World, s: Step, req: int)
    requires Inv(w) && Enabled(w, s) && ReqOf(s) != req
    ensures View(Apply(w, s), req) == View(w, req)
  {
    StepElsewhere(w, s, req);
    ActsElsewhere(w, s, req);
    SameView(w, Apply(w, s), req);
  }

  // ----- steps of the request itself

  /** A wait starts with both events unset, whatever earlier requests left behind. */
  lemma BeginWaitView(w: World, req: int, name: EventName, pop: bool)
    requires Inv(w) && Enabled(w, BeginWait(req, name, pop))
    ensures View(Apply(w, BeginWait(req, name, pop)), req) ==
            Fresh(name, req, if pop then None else AccumulatorOf(w.c, Slot(name, req)))
  {
    BeginWaitIsFresh(w, req, name, pop);
  }

  lemma BeginStreamView(w: World, req: int, kind: StreamKind)
    requires Inv(w) && Enabled(w, BeginStream(req, kind))
    ensures View(Apply(w, BeginStream(req, kind)), req) == Subscribed(kind, w.c.cancels[req])
  {
  }

  /** The events of a waiter, and no queue and no third event, belong to its request. */
  lemma OwnEvents(w: World, req: int)
    requires Inv(w) && IsWaiting(w, req)
    ensures HoldsItsEvents(w.c.events, w.acts, req) && req !in w.c.queues
    ensures w.acts[req].okEvent != w.acts[req].errEvent
    ensures forall slot: Slot | slot.req == req && slot in w.c.events ::
              slot.name == w.acts[req].name || slot.name == Error
  {
    assert HoldsItsEvents(w.c.events, w.acts, req);
    assert Slot(w.acts[req].name, req) != Slot(Error, req);
  }

  /** Callbacks on a third slot of the same request leave the waiter's view alone. */
  lemma BesideView(w: World, d: Shared, req: int)
    requires Inv(w) && IsWaiting(w, req)
    requires SameSlot(w.c, d, Slot(w.acts[req].name, req)) && SameSlot(w.c, d, Slot(Error, req))
    requires d.raised == w.c.raised
    ensures View(w.(c := d), req) == View(w, req)
  {
  }

  lemma SetEventBeside(c: Shared, slot: Slot, value: Value, other: Slot)
    requires other != slot && slot !in c.events
    ensures SameSlot(c, SetEvent(c, slot, value), other) && SetEvent(c, slot, value).raised == c.raised
  {
  }

  lemma WaitingCompleted(w: World, slot: Slot, v: int)
    requires Inv(w) && slot.name != Error && IsWaiting(w, slot.req)
    ensures View(w.(c := SetEvent(w.c, slot, Opaque(v))), slot.req) ==
            WaitCallback(View(w, slot.req), Completed(slot, v))
  {
    OwnEvents(w, slot.req);
    var own := Slot(w.acts[slot.req].name, slot.req);
    if slot == own {
      OwnCompleted(w, slot, v);
    } else {
      SetEventBeside(w.c, slot, Opaque(v), own);
      SetEventBeside(w.c, slot, Opaque(v), Slot(Error, slot.req));
      BesideView(w, SetEvent(w.c, slot, Opaque(v)), slot.req);
    }
  }

  /** Appending shows up behind the event exactly when the event holds the list itself. */
  lemma AccumulateOwn(c: Shared, slot: Slot, items: seq<int>)
    requires Sound(c)
    ensures var d := Accumulate(c, slot, items);
            && AccumulatorOf(d, slot) == Some(GetOr(AccumulatorOf(c, slot)) + items)
            && (IsAccumulator(d, slot) <==> IsAccumulator(c, slot))
            && d.raised == c.raised
            && Stored(d, slot) ==
               if IsAccumulator(c, slot) then Many(GetOr(AccumulatorOf(c, slot)) + items) else Stored(c, slot)
  {
    assert [] + items == items;
    AccumulateStored(c, slot, items);
  }

  lemma AccumulateStored(c: Shared, slot: Slot, items: seq<int>)
    requires Sound(c)
    ensures Stored(Accumulate(c, slot, items), slot) ==
            if IsAccumulator(c, slot) then Many(ItemsOf(c, c.accumulators[slot]) + items) else Stored(c, slot)
  {
  }

  lemma WaitingItems(w: World, slot: Slot, items: seq<int>)
    requires Inv(w) && slot.name != Error && IsWaiting(w, slot.req)
    ensures View(w.(c := Accumulate(w.c, slot, items)), slot.req) ==
            WaitCallback(View(w, slot.req), Items(slot, items))
  {
    var own := Slot(w.acts[slot.req].name, slot.req);
    OwnEvents(w, slot.req);
    if slot == own {
      OwnItems(w, slot, items);
    } else {
      AccumulateBeside(w.c, slot, items, own);
      AccumulateBeside(w.c, slot, items, Slot(Error, slot.req));
      BesideView(w, Accumulate(w.c, slot, items), slot.req);
    }
  }

  lemma SignalListBeside(c: Shared, slot: Slot, other: Slot)
    requires Sound(c) && other != slot && slot !in c.events
    ensures SameSlot(c, SignalList(c, slot), other) && SignalList(c, slot).raised == c.raised
  {
  }

  lemma SignalListOwn(c: Shared, slot: Slot)
    requires Sound(c)
    ensures var d := SignalList(c, slot);
            && Stored(d, slot) == Many(GetOr(AccumulatorOf(c, slot)))
            && (IsAccumulator(d, slot) <==> slot in c.accumulators)
            && AccumulatorOf(d, slot) == AccumulatorOf(c, slot)
            && d.raised == if slot in c.events then c.raised + {c.events[slot]} else c.raised
  {
  }

  lemma SignalListError(c: Shared, slot: Slot)
    requires Sound(c) && slot.name != Error
    ensures ErrorOf(SignalList(c, slot), slot.req) == ErrorOf(c, slot.req)
  {
  }

  /** A waiter with its two events, apart from everything else in the world. */
  ghost predicate Holds(w: World, req: int) {
    && IsWaiting(w, req) && HoldsItsEvents(w.c.events, w.acts, req)
    && w.acts[req].okEvent != w.acts[req].errEvent && Sound(w.c)
  }

  lemma OwnCompleted(w: World, slot: Slot, v: int)
    requires Holds(w, slot.req) && w.acts[slot.req].name == slot.name
    ensures View(w.(c := SetEvent(w.c, slot, Opaque(v))), slot.req) ==
            WaitCallback(View(w, slot.req), Completed(slot, v))
  {
  }

  lemma OwnItems(w: World, slot: Slot, items: seq<int>)
    requires Holds(w, slot.req) && w.acts[slot.req].name == slot.name
    ensures View(w.(c := Accumulate(w.c, slot, items)), slot.req) ==
            WaitCallback(View(w, slot.req), Items(slot, items))
  {
    AccumulateBeside(w.c, slot, items, Slot(Error, slot.req));
    AccumulateOwn(w.c, slot, items);
  }

  lemma OwnEnded(w: World, slot: Slot)
    requires Holds(w, slot.req) && w.acts[slot.req].name == slot.name
    ensures View(w.(c := SignalList(w.c, slot)), slot.req) == WaitCallback(View(w, slot.req), Ended(slot))
  {
    SignalListOwn(w.c, slot);
    SignalListError(w.c, slot);
  }

  lemma WaitingEnded(w: World, slot: Slot)
    requires Inv(w) && slot.name != Error && IsWaiting(w, slot.req)
    ensures View(w.(c := SignalList(w.c, slot)), slot.req) == WaitCallback(View(w, slot.req), Ended(slot))
  {
    OwnEvents(w, slot.req);
    var own := Slot(w.acts[slot.req].name, slot.req);
    if slot == own {
      OwnEnded(w, slot);
    } else {
      SignalListBeside(w.c, slot, own);
      SignalListBeside(w.c, slot, Slot(Error, slot.req));
      BesideView(w, SignalList(w.c, slot), slot.req);
    }
  }

  lemma WaitingError(w: World, err: TwsError)
    requires Inv(w) && IsWaiting(w, err.req)
    ensures View(w.(c := OnError(w.c, err)), err.req) == WaitCallback(View(w, err.req), ErrorAt(err))
  {
    RecordedHolds(w, err);
    HeldError(w, err);
  }

  lemma HeldError(w: World, err: TwsError)
    requires Holds(w.(c := Record(w.c, err)), err.req) && err.req !in w.c.queues
    ensures View(w, err.req).LWaiting?
    ensures View(w.(c := OnError(w.c, err)), err.req) == WaitCallback(View(w, err.req), ErrorAt(err))
  {
    RecordedView(w, err, err.req);
    if !Informational(err.code) {
      var v := w.(c := Record(w.c, err));
      SignalledError(v, err);
      assert OnError(w.c, err) == SetEvent(v.c, Slot(Error, err.req), ErrorInfo(err));
    }
  }

  lemma RecordedHolds(w: World, err: TwsError)
    requires Inv(w) && IsWaiting(w, err.req)
    ensures Holds(w.(c := Record(w.c, err)), err.req) && err.req !in w.c.queues
  {
    OwnEvents(w, err.req);
    RecordSound(w.c, err);
  }

  lemma RecordedView(w: World, err: TwsError, req: int)
    ensures View(w.(c := Record(w.c, err)), req) == View(w, req)
  {
  }

  lemma SignalledError(w: World, err: TwsError)
    requires Holds(w, err.req) && err.req !in w.c.queues
    ensures View(w, err.req).LWaiting?
    ensures View(w.(c := SetEvent(w.c, Slot(Error, err.req), ErrorInfo(err))), err.req) ==
            View(w, err.req).(errSet := true, err := err)
  {
  }

  lemma WaitingCallback(w: World, cb: Callback)
    requires Inv(w) && Enabled(w, Call(cb)) && IsWaiting(w, CallbackReq(cb))
    ensures View(w.(c := OnCallback(w.c, cb)), CallbackReq(cb)) == WaitCallback(View(w, CallbackReq(cb)), cb)
  {
    match cb {
      case Completed(slot, v) => WaitingCompleted(w, slot, v);
      case Items(slot, items) =>
        OwnEvents(w, slot.req);
        WaitingItems(w, slot, items);
      case Ended(slot) =>
        OwnEvents(w, slot.req);
        WaitingEnded(w, slot);
      case ErrorAt(err) => WaitingError(w, err);
      case Pushed(req, _) => OwnEvents(w, req);
    }
  }

  /** While a stream is registered, a callback for its id only adds to its queue. */
  lemma QueueGrows(w: World, cb: Callback)
    requires Inv(w) && Enabled(w, Call(cb)) && CallbackReq(cb) in w.c.queues
    ensures var req, d := CallbackReq(cb), OnCallback(w.c, cb);
            req in d.queues && d.queues[req] == w.c.queues[req] + Delivered(cb) && d.cancels == w.c.cancels
  {
    var q := w.c.queues[CallbackReq(cb)];
    assert q + [] == q;
    match cb {
      case ErrorAt(err) => ErrorOnQueue(w.c, err);
      case Items(slot, items) => ItemsOnQueue(w.c, slot, items);
      case Ended(slot) => EndOnQueue(w.c, slot);
      case _ =>
    }
  }

  lemma ErrorOnQueue(c: Shared, err: TwsError)
    requires err.req in c.queues
    ensures var d := OnError(c, err);
            d.cancels == c.cancels && d.queues ==
            if Informational(err.code) then c.queues else c.queues[err.req := c.queues[err.req] + [Failure(err)]]
  {
    if !Informational(err.code) {
      var d := SetEvent(Record(c, err), Slot(Error, err.req), ErrorInfo(err));
      assert d.queues == c.queues && d.cancels == c.cancels;
    }
  }

  lemma ItemsOnQueue(c: Shared, slot: Slot, items: seq<int>)
    requires slot.req in c.queues
    ensures var d := OnItems(c, slot, items);
            d.cancels == c.cancels && d.queues ==
            if slot.name == HistoricalData then c.queues[slot.req := c.queues[slot.req] + Rows(items)] else c.queues
  {
  }

  lemma EndOnQueue(c: Shared, slot: Slot)
    requires slot.req in c.queues
    ensures var d := OnEnd(c, slot);
            d.cancels == c.cancels && d.queues ==
            if slot.name == HistoricalData then c.queues[slot.req := c.queues[slot.req] + [End]] else c.queues
  {
    if slot.name != HistoricalData { SignalListQueues(c, slot); }
  }

  lemma SignalListQueues(c: Shared, slot: Slot)
    ensures SignalList(c, slot).queues == c.queues && SignalList(c, slot).cancels == c.cancels
  {
  }

  lemma StreamingCallback(w: World, cb: Callback)
    requires Inv(w) && Enabled(w, Call(cb)) && IsStreaming(w, CallbackReq(cb))
    ensures View(w.(c := OnCallback(w.c, cb)), CallbackReq(cb)) == LApply(View(w, CallbackReq(cb)), Call(cb))
  {
    assert CallbackReq(cb) in w.c.queues;
    QueueGrows(w, cb);
  }

  lemma IdleCallback(w: World, cb: Callback)
    requires Inv(w) && Enabled(w, Call(cb)) && Free(w, CallbackReq(cb))
    ensures View(Apply(w, Call(cb)), CallbackReq(cb)) == View(w, CallbackReq(cb))
  {
  }

  lemma WaitingStep(w: World, s: Step)
    requires Inv(w) && Enabled(w, s) && (s.OkTask? || s.ErrTask? || s.Timer? || s.Resume?)
    ensures LEnabled(View(w, s.req), s) && View(Apply(w, s), s.req) == LApply(View(w, s.req), s)
  {
  }

  lemma StreamingStep(w: World, s: Step)
    requires Inv(w) && Enabled(w, s) && (s.Take? || s.AskNext? || s.StreamTimeout? || s.Abandon?)
    ensures LEnabled(View(w, s.req), s) && View(Apply(w, s), s.req) == LApply(View(w, s.req), s)
  {
    if s.Take? {
      TakeView(w, s.req);
    } else if s.StreamTimeout? {
      CloseView(w, s.req, AfterTimeout);
    } else if s.Abandon? {
      CloseView(w, s.req, Abandoned);
    }
  }

  lemma CloseView(w: World, req: int, ending: Ending)
    requires IsStreaming(w, req)
    ensures View(Close(w, req, ending), req) == LClose(View(w, req), ending)
  {
  }

  lemma TakeView(w: World, req: int)
    requires Enabled(w, Take(req))
    ensures View(Apply(w, Take(req)), req) == LTake(View(w, req))
  {
    var rest := w.(c := w.c.(queues := w.c.queues[req := w.c.queues[req][1..]]));
    match EndingOf(w.acts[req].kind, w.c.queues[req][0]) {
      case Some(ending) => CloseView(rest, req, ending);
      case None =>
    }
  }

  predicate IsBegin(s: Step) {
    s.BeginWait? || s.BeginStream?
  }

  /** A step of the request itself moves its view as its automaton moves. */
  lemma OwnStep(w: World, s: Step)
    requires Inv(w) && Enabled(w, s) && !IsBegin(s)
    ensures LEnabled(View(w, ReqOf(s)), s) && View(Apply(w, s), ReqOf(s)) == LApply(View(w, ReqOf(s)), s)
  {
    match s {
      case Call(cb) =>
        if IsWaiting(w, CallbackReq(cb)) { WaitingCallback(w, cb); }
        else if IsStreaming(w, CallbackReq(cb)) { StreamingCallback(w, cb); }
        else { IdleCallback(w, cb); }
      case OkTask(_) => WaitingStep(w, s);
      case ErrTask(_) => WaitingStep(w, s);
      case Timer(_) => WaitingStep(w, s);
      case Resume(_) => WaitingStep(w, s);
      case _ => StreamingStep(w, s);
    }
  }

  // ----- whole runs

  /** The steps of a run that carry the id `req`. */
  function Project(steps: seq<Step>, req: int): seq<Step> {
    if steps == [] then []
    else if ReqOf(steps[0]) == req then [steps[0]] + Project(steps[1..], req)
    else Project(steps[1..], req)
  }

  predicate BeginsNothing(steps: seq<Step>, req: int) {
    forall i | 0 <= i < |steps| :: ReqOf(steps[i]) == req ==> !IsBegin(steps[i])
  }

  /** Non-interference: over every interleaving, what a request sees is what its own automaton
      computes from its own steps alone. */
  lemma {:induction false} RunRefines(w: World, steps: seq<Step>, req: int)
    requires Inv(w) && CanRun(w, steps) && BeginsNothing(steps, req)
    ensures LCanRun(View(w, req), Project(steps, req))
    ensures View(Run(w, steps), req) == LRun(View(w, req), Project(steps, req))
    decreases steps
  {
    if steps != [] {
      var s, rest := steps[0], steps[1..];
      InvStep(w, s);
      assert BeginsNothing(rest, req) by { assert forall i | 0 <= i < |rest| :: rest[i] == steps[i + 1]; }
      RunRefines(Apply(w, s), rest, req);
      if ReqOf(s) == req {
        OwnStep(w, s);
        assert Project(steps, req)[1..] == Project(rest, req);
      } else {
        ForeignStep(w, s, req);
      }
    }
  }

  /** Two runs in which a request takes the same steps of its own give it the same view,
      however the other requests, streams and callbacks of the two runs differ. */
  lemma NonInterference(w1: World, steps1: seq<Step>, w2: World, steps2: seq<Step>, req: int)
    requires Inv(w1) && CanRun(w1, steps1) && BeginsNothing(steps1, req)
    requires Inv(w2) && CanRun(w2, steps2) && BeginsNothing(steps2, req)
    requires View(w1, req) == View(w2, req) && Project(steps1, req) == Project(steps2, req)
    ensures View(Run(w1, steps1), req) == View(Run(w2, steps2), req)
  {
    RunRefines(w1, steps1, req);
    RunRefines(w2, steps2, req);
  }

  // ----- and back: every run of the automaton is a run of the engine

  /** Steps of the request itself whose callbacks the server can make. */
  predicate Own(t: seq<Step>, req: int) {
    forall i | 0 <= i < |t| :: ReqOf(t[i]) == req && Callable(t[i])
  }

  predicate Callable(s: Step) {
    s.Call? ==>
      match s.cb
      case Completed(slot, _) => SlotOk(slot)
      case Items(slot, _) => SlotOk(slot)
      case Ended(slot) => SlotOk(slot)
      case _ => true
  }

  lemma OwnEnabled(w: World, s: Step)
    requires Inv(w) && LEnabled(View(w, ReqOf(s)), s) && Callable(s)
    ensures Enabled(w, s)
  {
  }

  lemma {:induction false} OwnProject(t: seq<Step>, req: int)
    requires Own(t, req)
    ensures Project(t, req) == t
  {
    if t != [] { OwnProject(t[1..], req); }
  }

  /** Whatever a request could do on its own, it can do in any world it finds itself in. */
  lemma {:induction false} Realised(w: World, t: seq<Step>, req: int)
    requires Inv(w) && LCanRun(View(w, req), t) && Own(t, req)
    ensures CanRun(w, t) && Inv(Run(w, t)) && BeginsNothing(t, req) && Project(t, req) == t
    ensures View(Run(w, t), req) == LRun(View(w, req), t)
    decreases t
  {
    OwnProject(t, req);
    if t != [] {
      var s, rest := t[0], t[1..];
      OwnEnabled(w, s);
      OwnStep(w, s);
      InvStep(w, s);
      OwnTail(t, req);
      Realised(Apply(w, s), rest, req);
    }
  }

  lemma OwnTail(t: seq<Step>, req: int)
    requires Own(t, req) && t != []
    ensures Own(t[1..], req)
    ensures BeginsNothing(t[1..], req) && !IsBegin(t[0]) ==> BeginsNothing(t, req)
  {
    assert forall i | 0 < i < |t| :: t[i] == t[1..][i - 1];
  }
}
