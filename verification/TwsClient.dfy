/** The client object itself: dictionaries under string keys that callbacks and request methods
    update in place. Its ghost fields give the same dictionaries by slot, which is sound
    because no two slots share a key. */
module TwsClient {
  import opened Decimal
  import opened ClientState
  import opened Engine
  import opened Keys

  ghost predicate HasKey<V>(slots: map<Slot, V>, key: string) {
    exists s :: s in slots && SlotKey(s) == key
  }

  ghost predicate HasEntry<V>(m: map<string, V>, slots: map<Slot, V>, s: Slot) {
    s in slots ==> SlotKey(s) in m && m[SlotKey(s)] == slots[s]
  }

  /** `m` holds exactly the entries of `slots`, each under the key of its slot. */
  ghost predicate Represents<V>(m: map<string, V>, slots: map<Slot, V>) {
    && (forall s {:trigger HasEntry(m, slots, s)} :: HasEntry(m, slots, s))
    && (forall k {:trigger HasKey(slots, k)} :: k in m ==> HasKey(slots, k))
  }

  lemma Lookup<V>(m: map<string, V>, slots: map<Slot, V>, s: Slot)
    requires Represents(m, slots)
    ensures SlotKey(s) in m <==> s in slots
    ensures s in slots ==> m[SlotKey(s)] == slots[s]
  {
    assert HasEntry(m, slots, s);
    if SlotKey(s) in m {
      assert HasKey(slots, SlotKey(s));
      var t :| t in slots && SlotKey(t) == SlotKey(s);
      SlotKeyInjective(s, t);
    }
  }

  lemma Store<V>(m: map<string, V>, slots: map<Slot, V>, s: Slot, v: V)
    requires Represents(m, slots)
    ensures Represents(m[SlotKey(s) := v], slots[s := v])
  {
    var n, more := m[SlotKey(s) := v], slots[s := v];
    forall t ensures HasEntry(n, more, t) {
      assert HasEntry(m, slots, t);
      SlotKeyInjective(s, t);
    }
    forall k ensures k in n ==> HasKey(more, k) {
      if k == SlotKey(s) {
        assert s in more;
      } else if k in m {
        assert HasKey(slots, k);
        var t :| t in slots && SlotKey(t) == k;
        assert t in more;
      }
    }
  }

  lemma Remove<V>(m: map<string, V>, slots: map<Slot, V>, s: Slot)
    requires Represents(m, slots)
    ensures Represents(m - {SlotKey(s)}, slots - {s})
  {
    var n, less := m - {SlotKey(s)}, slots - {s};
    forall t ensures HasEntry(n, less, t) {
      assert HasEntry(m, slots, t);
      SlotKeyInjective(s, t);
    }
    forall k ensures k in n ==> HasKey(less, k) {
      if k in n {
        assert HasKey(slots, k);
        var t :| t in slots && SlotKey(t) == k;
        assert t in less;
      }
    }
  }

  /** What a `get` on the stream queue leads to, as the consumer meets it. */
  datatype Got = Entry(item: Item) | GetTimedOut | ClosedByConsumer

  /** How a `get` ends a stream. */
  predicate EndsBy(kind: StreamKind, got: Got, ending: Ending) {
    match got
    case GetTimedOut => ending == AfterTimeout
    case ClosedByConsumer => ending == Abandoned
    case Entry(Failure(err)) => ending == WithError(err)
    case Entry(OtherException) => ending == WithException
    case Entry(End) => kind == Historical && ending == AtEnd
    case Entry(Row(_)) => false
  }

  /** The consumer is handed every item up to the first `get` that ends the stream, and the
      stream ends the way that one says. */
  predicate Taken(kind: StreamKind, gots: seq<Got>, yielded: seq<Item>, ending: Option<Ending>) {
    && |yielded| <= |gots|
    && (forall i | 0 <= i < |yielded| :: gots[i] == Entry(yielded[i]) && Passes(kind, yielded[i]))
    && (ending.None? <==> |yielded| == |gots|)
    && (ending.Some? ==> EndsBy(kind, gots[|yielded|], ending.value))
  }

  class Client {
    var responseEvents: map<string, nat>
    var responseData: map<string, Value>
    var raised: set<nat>
    var streamQueues: map<int, seq<Item>>
    var accumulators: map<Slot, nat>
    var lists: map<nat, ListObject>
    var cancels: multiset<int>
    var errors: map<int, seq<TwsError>>
    var nextObject: nat
    ghost var eventSlots: map<Slot, nat>
    ghost var dataSlots: map<Slot, Value>

    ghost predicate Valid()
      reads this
    {
      Represents(responseEvents, eventSlots) && Represents(responseData, dataSlots)
    }

    ghost function State(): Shared
      reads this
    {
      Shared(eventSlots, raised, dataSlots, streamQueues, accumulators, lists, cancels, errors, nextObject)
    }

    constructor ()
      ensures Valid() && State() == EMPTY
    {
      responseEvents, responseData, raised, streamQueues := map[], map[], {}, map[];
      accumulators, lists, cancels, errors, nextObject := map[], map[], multiset{}, map[], 0;
      eventSlots, dataSlots := map[], map[];
    }

    // ----- correlation helpers

    /** `key in self._response_events` and `self._response_events[key]`. */
    function HasEvent(slot: Slot): (found: bool)
      requires Valid()
      reads this
      ensures found <==> slot in eventSlots
    {
      Lookup(responseEvents, eventSlots, slot);
      SlotKey(slot) in responseEvents
    }

    function EventOf(slot: Slot): (event: nat)
      requires Valid() && HasEvent(slot)
      reads this
      ensures slot in eventSlots && event == eventSlots[slot]
    {
      Lookup(responseEvents, eventSlots, slot);
      responseEvents[SlotKey(slot)]
    }

    method Raise(event: nat)
      modifies this`raised
      ensures raised == old(raised) + {event}
    {
      raised := raised + {event};
    }

    method StoreData(slot: Slot, value: Value)
      requires Valid()
      modifies this`responseData, this`dataSlots
      ensures Valid() && dataSlots == old(dataSlots)[slot := value]
    {
      Store(responseData, dataSlots, slot, value);
      responseData := responseData[SlotKey(slot) := value];
      dataSlots := dataSlots[slot := value];
    }

    method SetEvent(slot: Slot, value: Value)
      requires Valid()
      modifies this
      ensures Valid() && State() == ClientState.SetEvent(old(State()), slot, value)
    {
      StoreData(slot, value);
      if HasEvent(slot) {
        Raise(EventOf(slot));
      }
    }

    method CleanupEvent(slot: Slot)
      requires Valid()
      modifies this
      ensures Valid() && State() == Cleanup(old(State()), slot)
    {
      PopEvent(slot);
      PopData(slot);
    }

    method PopEvent(slot: Slot)
      requires Valid()
      modifies this`responseEvents, this`eventSlots
      ensures Valid() && eventSlots == old(eventSlots) - {slot}
    {
      Remove(responseEvents, eventSlots, slot);
      responseEvents := responseEvents - {SlotKey(slot)};
      eventSlots := eventSlots - {slot};
    }

    method PopData(slot: Slot)
      requires Valid()
      modifies this`responseData, this`dataSlots
      ensures Valid() && dataSlots == old(dataSlots) - {slot}
    {
      Remove(responseData, dataSlots, slot);
      responseData := responseData - {SlotKey(slot)};
      dataSlots := dataSlots - {slot};
    }

    method NewEvent(slot: Slot)
      requires Valid()
      modifies this`responseEvents, this`eventSlots, this`nextObject
      ensures Valid() && eventSlots == old(eventSlots)[slot := old(nextObject)] && nextObject == old(nextObject) + 1
    {
      Store(responseEvents, eventSlots, slot, nextObject);
      responseEvents := responseEvents[SlotKey(slot) := nextObject];
      eventSlots := eventSlots[slot := nextObject];
      nextObject := nextObject + 1;
    }

    method EnsureEvent(slot: Slot)
      requires Valid()
      modifies this
      ensures Valid() && State() == Ensure(old(State()), slot)
    {
      ghost var before := State();
      if !HasEvent(slot) {
        NewEvent(slot);
        assert State() == before.(events := before.events[slot := before.next], next := before.next + 1);
      }
    }

    /** `_wait_for_response` up to its wait: the two events the tasks will wait on. */
    method BeginWait(slot: Slot) returns (okEvent: nat, errEvent: nat)
      requires Valid()
      modifies this
      ensures Valid() && State() == Register(old(State()), slot)
      ensures okEvent == State().events[slot] && errEvent == State().events[Slot(Error, slot.req)]
    {
      EnsureEvent(slot);
      EnsureEvent(Slot(Error, slot.req));
      okEvent, errEvent := EventOf(slot), EventOf(Slot(Error, slot.req));
    }

    /** `_wait_for_response` behind its wait. */
    method FinishWait(slot: Slot, okDone: bool, errDone: bool) returns (outcome: Outcome)
      requires Valid()
      modifies this
      ensures Valid() && State() == Release(old(State()), slot)
      ensures outcome == Answer(old(State()), slot, okDone, errDone)
    {
      var key, errSlot := SlotKey(slot), Slot(Error, slot.req);
      Lookup(responseData, dataSlots, slot);
      Lookup(responseData, dataSlots, errSlot);
      if !okDone && !errDone {
        outcome := TimedOut;
      } else if !okDone {
        var errKey := SlotKey(errSlot);
        if errKey in responseData && responseData[errKey].ErrorInfo? {
          outcome := Raised(responseData[errKey].err);
        } else {
          outcome := Raised(TwsError(slot.req, 0, ""));
        }
      } else if key in responseData {
        outcome := Response(Contents(responseData[key]));
      } else {
        outcome := Response(Nothing);
      }
      CleanupEvent(slot);
      CleanupEvent(errSlot);
    }

    function Contents(value: Value): (content: Content)
      reads this
      ensures content == ContentOf(State(), value)
    {
      match value
      case Opaque(v) => One(v)
      case ListRef(id) => Many(if id in lists then lists[id].items else [])
      case ErrorInfo(err) => Details(err)
    }

    // ----- callbacks

    method PutNowait(req: int, items: seq<Item>)
      requires Valid()
      modifies this
      ensures Valid() && State() == Push(old(State()), req, items)
    {
      if req in streamQueues {
        streamQueues := streamQueues[req := streamQueues[req] + items];
      }
    }

    method OnError(err: TwsError)
      requires Valid()
      modifies this
      ensures Valid() && State() == ClientState.OnError(old(State()), err)
    {
      if err.req !in errors {
        errors := errors[err.req := []];
      }
      errors := errors[err.req := errors[err.req] + [err]];
      assert State() == Record(old(State()), err);
      if !Informational(err.code) {
        SetEvent(Slot(Error, err.req), ErrorInfo(err));
        PutNowait(err.req, [Failure(err)]);
      }
    }

    /** `contractDetails`, `execDetails`, the `historicalTicks` variants and, without a stream,
        `historicalData`. */
    method Accumulate(slot: Slot, items: seq<int>)
      requires Valid()
      modifies this
      ensures Valid() && State() == ClientState.Accumulate(old(State()), slot, items)
    {
      if slot !in accumulators {
        accumulators := accumulators[slot := nextObject];
        lists := lists[nextObject := ListObject(slot, [])];
        nextObject := nextObject + 1;
        assert [] + items == items;
      }
      var id := accumulators[slot];
      var before := if id in lists then lists[id].items else [];
      lists := lists[id := ListObject(slot, before + items)];
    }

    /** The `...End` callbacks: signal with the list itself, or with a new empty one. */
    method SignalList(slot: Slot)
      requires Valid()
      modifies this
      ensures Valid() && State() == ClientState.SignalList(old(State()), slot)
    {
      if slot in accumulators {
        SetEvent(slot, ListRef(accumulators[slot]));
      } else {
        var id := nextObject;
        lists := lists[id := ListObject(slot, [])];
        nextObject := id + 1;
        SetEvent(slot, ListRef(id));
      }
    }

    method OnHistoricalData(req: int, bar: int)
      requires Valid()
      modifies this
      ensures Valid() && State() == OnItems(old(State()), Slot(HistoricalData, req), [bar])
    {
      if req in streamQueues {
        assert Rows([bar]) == [Row(bar)];
        PutNowait(req, [Row(bar)]);
      } else {
        Accumulate(Slot(HistoricalData, req), [bar]);
      }
    }

    method OnHistoricalDataEnd(req: int)
      requires Valid()
      modifies this
      ensures Valid() && State() == OnEnd(old(State()), Slot(HistoricalData, req))
    {
      if req in streamQueues {
        PutNowait(req, [End]);
      } else {
        SignalList(Slot(HistoricalData, req));
      }
    }

    method OnHistoricalTicks(req: int, ticks: seq<int>, done: bool)
      requires Valid()
      modifies this
      ensures Valid()
      ensures var s := ClientState.Accumulate(old(State()), Slot(HistoricalTicks, req), ticks);
              State() == if done then ClientState.SignalList(s, Slot(HistoricalTicks, req)) else s
    {
      Accumulate(Slot(HistoricalTicks, req), ticks);
      if done {
        SignalList(Slot(HistoricalTicks, req));
      }
    }

    // ----- streams

    method Subscribe(req: int)
      requires Valid()
      modifies this
      ensures Valid() && State() == ClientState.Subscribe(old(State()), req)
    {
      streamQueues := streamQueues[req := []];
    }

    /** The loop of a stream, over whatever its `get`s lead to. */
    method TakeItems(kind: StreamKind, gots: seq<Got>)
        returns (yielded: seq<Item>, ending: Option<Ending>, serverTerminated: bool)
      ensures Taken(kind, gots, yielded, ending)
      ensures serverTerminated <==> ending.Some? && ending.value.WithError?
    {
      yielded, ending, serverTerminated := [], None, false;
      while |yielded| < |gots| && ending.None?
        invariant |yielded| <= |gots|
        invariant forall i | 0 <= i < |yielded| :: gots[i] == Entry(yielded[i]) && Passes(kind, yielded[i])
        invariant ending.Some? ==> |yielded| < |gots| && EndsBy(kind, gots[|yielded|], ending.value)
        invariant serverTerminated <==> ending.Some? && ending.value.WithError?
        decreases |gots| - |yielded|, ending.None?
      {
        match gots[|yielded|] {
          case GetTimedOut => ending := Some(AfterTimeout);
          case ClosedByConsumer => ending := Some(Abandoned);
          case Entry(item) =>
            if kind == Historical && item == End {
              ending := Some(AtEnd);
            } else if item.Failure? {
              serverTerminated := true;
              ending := Some(WithError(item.err));
            } else if item == OtherException {
              ending := Some(WithException);
            } else {
              yielded := yielded + [item];
            }
        }
      }
    }

    /** The loop of a stream with its `finally` block. The queue itself is the engine's
        business; here only the ending and the clean-up are. */
    method DrainStream(req: int, kind: StreamKind, gots: seq<Got>) returns (yielded: seq<Item>, ending: Option<Ending>)
      requires Valid()
      modifies this
      ensures Valid() && Taken(kind, gots, yielded, ending)
      ensures State() == if ending.None? then old(State())
                         else Unsubscribe(old(State()), req, kind, !ending.value.WithError?)
    {
      var serverTerminated;
      yielded, ending, serverTerminated := TakeItems(kind, gots);
      if ending.Some? {
        if !serverTerminated {
          cancels := cancels + multiset{req};
        }
        streamQueues := streamQueues - {req};
        if kind == Historical {
          accumulators := accumulators - {Slot(HistoricalData, req)};
        }
      }
    }
  }
}
