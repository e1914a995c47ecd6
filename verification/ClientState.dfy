/** The response bookkeeping that all coroutines and callbacks of one client share, as a value:
    what each callback and each uninterrupted block of a request method does to it. */
module ClientState {
  import opened Decimal

  /** The event names that callbacks signal and request methods wait for. */
  datatype EventName =
    | Error | NextValidId | CurrentTime | ContractDetails | OrderStatus | OpenOrders | Executions
    | Portfolio | Positions | AccountSummary | MarketData | HistoricalData | HistoricalSchedule
    | ManagedAccounts | MatchingSymbols | HeadTimestamp | OptionChain | NewsProviders
    | ScannerParameters | Histogram | HistoricalTicks | Pnl | FundamentalData | CompletedOrders

  /** A correlation slot: an event name and a request id. */
  datatype Slot = Slot(name: EventName, req: int)

  /** Codes that inform and never end a request. */
  predicate Informational(code: int) {
    || code == 2100 || code == 2104 || code == 2106 || code == 2107 || code == 2108 || code == 2119
    || code == 2137 || code == 2158 || code == 2168 || code == 2169 || code == 10167
  }

  /** They are these eleven. */
  lemma InformationalCodes(code: int)
    ensures Informational(code) <==>
            code in [2100, 2104, 2106, 2107, 2108, 2119, 2137, 2158, 2168, 2169, 10167]
  {
  }

  datatype TwsError = TwsError(req: int, code: int, text: string)

  /** What `_response_data` can hold: a plain value, a reference to a list object that
      callbacks may still be appending to, or the details of an error. */
  datatype Value = Opaque(v: int) | ListRef(id: nat) | ErrorInfo(err: TwsError)

  /** An entry of a stream queue. */
  datatype Item = Row(v: int) | End | Failure(err: TwsError) | OtherException

  /** A list object, with the accumulator slot it was created for. */
  datatype ListObject = ListObject(owner: Slot, items: seq<int>)

  /** `events` maps a slot to the identity of its asyncio.Event, `raised` holds the events that
      are set, `accumulators` maps (dictionary, request) to the identity of a list in `lists`,
      `cancels` counts the cancel requests issued per request id, and `errors` records every
      error per request id. Identities below `next` are taken. */
  datatype Shared = Shared(
    events: map<Slot, nat>,
    raised: set<nat>,
    data: map<Slot, Value>,
    queues: map<int, seq<Item>>,
    accumulators: map<Slot, nat>,
    lists: map<nat, ListObject>,
    cancels: multiset<int>,
    errors: map<int, seq<TwsError>>,
    next: nat)

  const EMPTY := Shared(map[], {}, map[], map[], map[], map[], multiset{}, map[], 0)

  // ----- callbacks

  function SetEvent(c: Shared, slot: Slot, value: Value): Shared {
    c.(data := c.data[slot := value],
       raised := if slot in c.events then c.raised + {c.events[slot]} else c.raised)
  }

  function Push(c: Shared, req: int, items: seq<Item>): Shared {
    if req in c.queues then c.(queues := c.queues[req := c.queues[req] + items]) else c
  }

  function ItemsOf(c: Shared, id: nat): seq<int> {
    if id in c.lists then c.lists[id].items else []
  }

  /** Append to the list of the slot, creating it when it is not there. */
  function Accumulate(c: Shared, slot: Slot, items: seq<int>): Shared {
    if slot in c.accumulators then
      var id := c.accumulators[slot];
      c.(lists := c.lists[id := ListObject(slot, ItemsOf(c, id) + items)])
    else
      c.(accumulators := c.accumulators[slot := c.next],
         lists := c.lists[c.next := ListObject(slot, items)],
         next := c.next + 1)
  }

  /** Signal completion with the accumulated list itself, or with a new empty one. */
  function SignalList(c: Shared, slot: Slot): Shared {
    if slot in c.accumulators then SetEvent(c, slot, ListRef(c.accumulators[slot]))
    else SetEvent(c.(lists := c.lists[c.next := ListObject(slot, [])], next := c.next + 1), slot, ListRef(c.next))
  }

  function Rows(items: seq<int>): (rows: seq<Item>)
    ensures |rows| == |items| && forall i | 0 <= i < |rows| :: rows[i] == Row(items[i])
  {
    seq(|items|, i requires 0 <= i < |items| => Row(items[i]))
  }

  predicate ToStream(c: Shared, slot: Slot) {
    slot.name == HistoricalData && slot.req in c.queues
  }

  function OnItems(c: Shared, slot: Slot, items: seq<int>): Shared {
    if ToStream(c, slot) then Push(c, slot.req, Rows(items)) else Accumulate(c, slot, items)
  }

  function OnEnd(c: Shared, slot: Slot): Shared {
    if ToStream(c, slot) then Push(c, slot.req, [End]) else SignalList(c, slot)
  }

  function Logged(c: Shared, req: int): seq<TwsError> {
    if req in c.errors then c.errors[req] else []
  }

  /** Every error is recorded, also an informational one. */
  function Record(c: Shared, err: TwsError): Shared {
    c.(errors := c.errors[err.req := Logged(c, err.req) + [err]])
  }

  function OnError(c: Shared, err: TwsError): Shared {
    if Informational(err.code) then Record(c, err)
    else Push(SetEvent(Record(c, err), Slot(Error, err.req), ErrorInfo(err)), err.req, [Failure(err)])
  }

  // ----- waiting for a response

  datatype Content = Nothing | One(v: int) | Many(items: seq<int>) | Details(err: TwsError)

  datatype Outcome = Response(content: Content) | Raised(err: TwsError) | TimedOut

  function Ensure(c: Shared, slot: Slot): Shared {
    if slot in c.events then c
    else c.(events := c.events[slot := c.next], next := c.next + 1)
  }

  /** The block up to the wait: both events exist. */
  function Register(c: Shared, slot: Slot): Shared {
    Ensure(Ensure(c, slot), Slot(Error, slot.req))
  }

  function Cleanup(c: Shared, slot: Slot): Shared {
    c.(events := c.events - {slot}, data := c.data - {slot})
  }

  function Release(c: Shared, slot: Slot): Shared {
    Cleanup(Cleanup(c, slot), Slot(Error, slot.req))
  }

  function ContentOf(c: Shared, value: Value): Content {
    match value
    case Opaque(v) => One(v)
    case ListRef(id) => Many(ItemsOf(c, id))
    case ErrorInfo(err) => Details(err)
  }

  /** The content stored under a slot; `Nothing` stands for Python's None. */
  function Stored(c: Shared, slot: Slot): Content {
    if slot in c.data then ContentOf(c, c.data[slot]) else Nothing
  }

  function ErrorOf(c: Shared, req: int): TwsError {
    var slot := Slot(Error, req);
    if slot in c.data && c.data[slot].ErrorInfo? then c.data[slot].err else TwsError(req, 0, "")
  }

  /** The block behind the wait, which looks only at which of the two tasks are done. */
  function Answer(c: Shared, slot: Slot, okDone: bool, errDone: bool): Outcome {
    if !okDone && !errDone then TimedOut
    else if !okDone then Raised(ErrorOf(c, slot.req))
    else Response(Stored(c, slot))
  }

  // ----- streams

  datatype StreamKind = Historical | Live | Depth

  /** The start of a stream: a queue of its own, with nothing in it. */
  function Subscribe(c: Shared, req: int): Shared {
    c.(queues := c.queues[req := []])
  }

  /** The `finally` block of a stream. */
  function Unsubscribe(c: Shared, req: int, kind: StreamKind, cancel: bool): Shared {
    c.(cancels := if cancel then c.cancels + multiset{req} else c.cancels,
       queues := c.queues - {req},
       accumulators := if kind == Historical then c.accumulators - {Slot(HistoricalData, req)} else c.accumulators)
  }
}
