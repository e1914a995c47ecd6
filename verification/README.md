# Verified model of the asyncio runtime of `ibapi_async`

The package replaces the threads of the Interactive Brokers client by coroutines: a read loop
cuts the byte stream of the gateway into messages and hands them to a decoder, a write loop
drains a queue of outgoing frames, and any number of request coroutines wait, under string keys
in shared dictionaries, for the synchronous callbacks that the decoder makes. This project
models those parts and proves what holds over every byte stream, every chunking, every order
of callbacks and every schedule. A step is what runs between two `await`s; the scheduler, the
server and all timers are arbitrary. Nothing was executed: every statement below is a contract
that Dafny verifies (`dafny verify dfyconfig.toml`).

## Structure

- `Decimal`, `Wire`: bytes, decimal numbers, and the framing helpers of the `ibapi` library
  that the client calls, with what they promise one another.
- `Framing`, `Dispatch`, `RoundTrip`, `Handshake`: the incremental parser of `reader.py`, the
  routing to the decoder, the way back from `sendMsg` to the decoder, and the version
  handshake of `connect`. The loops are methods; each is proved equal to a function of what
  arrives, and the theorems are about those functions.
- `ClientState`, `Keys`, `TwsClient`: the dictionaries of `AsyncTWSClient`. The class holds
  them under string keys and updates them in place; its methods are proved against functions
  on the same state under (event, request) slots, which is sound because keys are injective.
- `Engine`, `Request`, `Refinement`, `Outcomes`, `Streams`: any number of requests and streams
  over that state. `Request` is the automaton that one request sees; `Refinement` proves that
  every interleaving looks to each request like its own automaton, driven by its own steps
  alone, and that every run of the automaton happens in the engine; `Outcomes` and `Streams` derive from that how waits and streams end.
- `Ids`, `Depth`: the shared id counter and the market-depth book. `Sharing` runs the counter
  and the engine together.
- `WritePath`, `Lifecycle`, `Create`: the fields of `AsyncEClient` and its connection; `create`,
  both loops and any number of `disconnect` calls interleaved over one connection; and what
  whole runs of `create` come to. The handshake inside those runs is the one of `Handshake`.
  `Shutdown` is about whole runs of the loops and of the teardown.

## What the code needs from its surroundings

These conditions are guards of the steps, or one side of an if-and-only-if:

- No two overlapping waiters or streams use one request id (`Engine.Enabled`). For ids from the
  counter this is proved (`Sharing.HandedOutIdsAreFree`, from `Sharing.BeginningTogether` on);
  it is a condition only on requests for the fixed id 0. `Outcomes.OverlapLosesErrors` shows
  what is lost otherwise.
- Only `error` signals the error slot, and no request waits for the event name `error`.
- `nextValidId` never rewinds the counter; `Ids.RewindIff` gives the exact condition. That
  announcements do not decrease is not enough: one that repeats an issued id makes the client
  issue it again (`Ids.RepeatedAnnouncement`), and then requests can meet on it
  (`Sharing.RewindOverlaps`).
- The server sends nothing behind its handshake reply until START_API;
  `Handshake.HandshakeThenReadLoop` gives the exact condition.
- One connection per client object, whose server version does not change.

## Where the code and its promises part

- The read loop depends on the chunking exactly when a complete frame follows an empty one:
  the empty frame ends the inner loop, and what follows waits for the next chunk
  (`Framing.ChunkingTheorem`). Nothing is lost by that (`Framing.FeedConserves`).
- The handshake reads at most one frame per chunk. It completes under every chunking exactly
  when the very first frame has two fields and starts with a number
  (`Handshake.HandshakeTheorem`). A two-field frame in front of the reply is itself taken for
  the reply, an empty one stalls the handshake for good (`Handshake.EmptyFrameStallsHandshake`),
  and any other one stalls it when both arrive in one chunk and nothing follows.
  `Handshake.GreetLaw` gives the exact arrivals for every way it can end, in terms of the
  messages read one per chunk, which are the first messages of the stream
  (`Handshake.OnePerChunkIsPrefix`).
- Chunks are of any size in these two if-and-only-ifs, while one `read` returns at most 4096
  bytes. Longer streams than that are never one chunk, so some streams that fail the
  conditions, such as an empty frame with a frame of 5000 bytes behind it, are safe in the code.
- A response that comes after the timer of its wait has fired, but before the waiter resumes,
  is lost to a timeout (`Outcomes.LateTimeout`). One that comes before the timer never is
  (`Outcomes.LostOnlyBehindTimer`).
- A bar behind `historicalDataEnd` reaches a batch request that has not resumed yet, since it
  was handed the list itself, but never a stream (`Streams.LateBarInBatch`,
  `Streams.LateBarNotInStream`). Batch and stream agree under every scheduling exactly when no
  bar comes behind an end that itself came behind a bar (`Streams.AgreementIff`).
- The documentation of `create` promises a ResponseTimeout when the handshake does not
  complete. Another exception leaves it exactly when the opening raises something that is no
  OSError (a port out of range, say), sending the client's version fails, or the handshake
  stalls, breaks or meets a version that is no number (`Create.PropagatedIff`). Nothing is torn
  down then, and the stream leaks exactly if the opening had succeeded
  (`Create.HandshakeExceptionLeaks`).
- The comment at `_connection_lost` says it is set when the connection drops. It is set exactly
  when a step signals a drop it meets, or somebody disconnects (`Create.LostIff`). Three drops
  are never signalled: one met as an error while the client's version is sent
  (`Create.ConnectRaises`) or while the reply is read (`Create.BrokenHandshake`), and one that
  both loops meet only at their `isConnected` guard (`Create.SilentDropHappens`,
  `Create.SilenceStays`).

## Model

| member | source | states |
|---|---|---|
| Decimal.ParseIntOfRender | ibapi_async/reader.py:51-54 | the decimal text of every integer, negative ones included, is read back as that integer |
| Decimal.ParseDigitsIff | ibapi_async/reader.py:54 | a text is taken for a number if and only if it has digits at both ends and every underscore stands between two digits |
| Decimal.ParseIntPadded | ibapi_async/reader.py:54 | white space around a number and a plus sign make no difference, a minus sign negates |
| Decimal.AsciiExamples | ibapi_async/reader.py:54 | digits, signs, underscore and white space are those of ASCII |
| Decimal.DigitsAreCanonical | ibapi_async/tws_client.py:223-224 | a number is rendered without leading zeros |
| Wire.FieldsRoundTrip | ibapi_async/reader.py:63 | NUL-terminated fields survive joining and splitting if and only if none of them holds a NUL |
| Wire.TrailingTextIsDropped | ibapi_async/reader.py:63 | text behind the last NUL is no field |
| Framing.FeedConserves | ibapi_async/reader.py:94-127 | at every outer loop head, messages dispatched followed by the non-empty frames still in the buffer are those of all bytes received, whatever comes later |
| Framing.ChunkingTheorem | ibapi_async/reader.py:94-127 | every chunking dispatches the frames of the whole stream and leaves its residual if and only if no complete frame follows an empty one |
| Framing.ChunkingsAgree | ibapi_async/reader.py:94-127 | two chunkings of one stream of non-empty frames dispatch the same messages, those of parsing it at once, and leave the same buffer |
| Dispatch.CallsAppend | ibapi_async/reader.py:37-70 | dispatching keeps no state: the calls of two message sequences in a row are the calls of each in a row |
| Dispatch.FaultIsolation | ibapi_async/reader.py:37-70 | a message that is oversized, without an id, without a number, or rejected by the decoder changes nothing about the calls before and behind it |
| Dispatch.DroppedIff | ibapi_async/reader.py:37-54 | a message is dropped if and only if it is oversized or, before version 201, has no NUL or no number in front of the first one |
| Dispatch.RoutedAs | ibapi_async/reader.py:43-65 | every other message reaches the decoder under the number it starts with, as protobuf above 200 and as fields otherwise |
| Dispatch.DispatchMessage | ibapi_async/reader.py:37-70 | one message leads to at most one decoder call, the one of its classification, even if the call raises |
| Dispatch.ExtractAll | ibapi_async/reader.py:119-127 | the inner loop terminates, calls the decoder with the classified messages up to the first incomplete or empty frame, and keeps exactly the bytes behind them |
| Dispatch.ReadLoop | ibapi_async/reader.py:94-136 | over any chunks, timeouts, errors and disconnections, the loop makes exactly the calls of its reference run and ends as the first turn that is neither a timeout nor bytes says |
| Dispatch.ReadingIsFeed | ibapi_async/reader.py:97-117 | timeouts, errors and the moment of the end never touch the byte stream |
| Dispatch.ExitLaw | ibapi_async/reader.py:97-114 | the loop is still reading if and only if every turn is a timeout or bytes; otherwise the first other turn decides: an error or EOF disconnects, and being not connected ends it quietly |
| Dispatch.ChunksByPosition | ibapi_async/reader.py:97-117 | up to that turn every chunk is read exactly once and in order |
| RoundTrip.DeliveredIff | ibapi_async/client.py:69-94 | a request reaches the decoder as the same id, fields or body, through the right entry point, if and only if it fits, its id is legacy and its fields are NUL-free, or it is a protobuf request with a positive id on a server that knows protobuf |
| RoundTrip.ProtoLostOnOldServers | ibapi_async/client.py:87-94 | on an older server version no protobuf request is ever understood as what it is |
| RoundTrip.RaisesIff | ibapi_async/client.py:76-89 | a request raises if and only if its id does not fit four bytes where it is written in four, or the message does not fit its length prefix |
| RoundTrip.WireRoundTrip | ibapi_async/client.py:69-94 | a conversation cut into any chunks with any timeouts in between is decoded into exactly the requests sent, in order, if and only if every request was well sent, and no byte stays behind |
| Handshake.ReadServerVersion | ibapi_async/client.py:163-180 | the handshake loop ends as its reference does, on the same arrival, for every sequence of arrivals |
| Handshake.ReplyIsRead | ibapi_async/client.py:163-183 | any fragmentation of any two-field frame yields exactly what its fields say, a version or an exception, and splits what follows into bytes dropped and chunks left |
| Handshake.HandshakeTheorem | ibapi_async/client.py:163-179 | the handshake completes under every chunking of what the server sends if and only if its first frame has two fields of which the first is a number |
| Handshake.GreetLaw | ibapi_async/client.py:163-183 | for all arrivals: the first two-field message among those read one per chunk decides between version and exception; without one, a stall, an error, EOF or the end of the arrivals decides |
| Handshake.ExceptionsHappen | ibapi_async/client.py:168-179 | one concrete arrival for each of the three exceptions |
| Handshake.OnePerChunkIsPrefix | ibapi_async/client.py:167-177 | the messages that law speaks of, one per chunk at most, are the first messages of the stream |
| Handshake.EmptyFrameStallsHandshake | ibapi_async/client.py:167-177 | behind an empty frame in front of the reply no later byte completes the handshake |
| Handshake.HandshakeThenReadLoop | ibapi_async/client.py:163-200 | for every reply the handshake accepts and every stream behind it: if no byte of that stream arrived with the reply, the read loop loses no message of it, and dispatches exactly its parse and keeps its residual if no frame follows an empty one; if it consists of complete non-empty frames, they are all dispatched only then |
| Keys.KeyInjective | ibapi_async/tws_client.py:223-224 | two keys are equal if and only if event name and request id are, for all names and all integers |
| ClientState.InformationalCodes | ibapi_async/exceptions.py:12-15 | the codes that inform and never end a request are these eleven |
| TwsClient.Client.SetEvent | ibapi_async/tws_client.py:267-281 | stores the data, and sets the event exactly if one is registered under the key |
| TwsClient.Client.CleanupEvent | ibapi_async/tws_client.py:283-285 | removes event and data of the slot and nothing else |
| TwsClient.Client.BeginWait | ibapi_async/tws_client.py:223-231 | registers both events, keeping those already there, and returns the two the tasks wait on |
| TwsClient.Client.FinishWait | ibapi_async/tws_client.py:244-265 | answers by which tasks are done alone, success before error, and removes both keys from both maps |
| TwsClient.Client.OnError | ibapi_async/tws_client.py:312-340 | records every error under its request; an informational code signals nobody, any other signals the waiter and the stream of its own request |
| TwsClient.Client.Accumulate | ibapi_async/tws_client.py:347-351 | appends to the list object of the slot, and creates it when it is missing |
| TwsClient.Client.SignalList | ibapi_async/tws_client.py:353-357 | completes a wait with the accumulated list object itself, or with a new empty list |
| TwsClient.Client.OnHistoricalData | ibapi_async/tws_client.py:514-527 | hands a bar to the stream of its request, or else to the accumulator, never to both |
| TwsClient.Client.OnHistoricalDataEnd | ibapi_async/tws_client.py:529-537 | ends the stream of its request, or else completes the wait |
| TwsClient.Client.OnHistoricalTicks | ibapi_async/tws_client.py:630-652 | extends the list and completes the wait exactly on the last batch |
| TwsClient.Client.Subscribe | ibapi_async/tws_client.py:1041-1042 | registers an empty queue for the request by the very step the engine takes, and touches no other queue |
| TwsClient.Client.TakeItems | ibapi_async/tws_client.py:1047-1064 | the consumer is handed every item up to the first get that ends the stream, none of them an error, and the stream ends as that get says |
| TwsClient.Client.DrainStream | ibapi_async/tws_client.py:1047-1069 | behind that loop the stream is unregistered, and a cancel is issued exactly unless a TWSError was consumed |
| Engine.InvStep | ibapi_async/tws_client.py:206-285 | every step of every request, stream and callback keeps the live-waiter invariant, event freshness, list ownership and the queue registry |
| Engine.InvRun | ibapi_async/tws_client.py:206-285 | the invariant holds after every run, under every interleaving |
| Engine.OnlyLiveKeys | ibapi_async/tws_client.py:223-265 | in every reachable state the event keys are exactly the success and error keys of the live waiters, and the queues exactly those of the running streams |
| Engine.AnyCallbackCanCome | ibapi_async/tws_client.py:267-281 | the server is unrestricted: every callback can come in every state |
| Engine.ErrorsAreLogged | ibapi_async/tws_client.py:320-329 | over every run, the log of a request id is exactly the sequence of its errors, informational ones included |
| Refinement.ForeignStep | ibapi_async/tws_client.py:267-285 | no step of another request changes anything a request can observe |
| Refinement.OwnStep | ibapi_async/tws_client.py:206-340 | every step that carries the id of a request moves what it observes as its own automaton moves |
| Refinement.RunRefines | ibapi_async/tws_client.py:206-340 | over every interleaving, a request observes exactly what its automaton computes from its own steps alone |
| Refinement.NonInterference | ibapi_async/tws_client.py:206-340 | two runs with the same own steps give a request the same view, however everything else in them differs |
| Refinement.Realised | ibapi_async/tws_client.py:206-340 | whatever a request can do on its own, it can do in every state of the engine, with the same result |
| Outcomes.WaiterLaw | ibapi_async/tws_client.py:244-265 | what a waiter answers is a law of the callbacks for its own id since it registered: data needs a completion of its own event, an error a non-informational error with its id, and a finished success task leaves only data |
| Outcomes.NoLostWakeup | ibapi_async/tws_client.py:223-238 | the success task can finish if and only if a completion came after registering, the error task if and only if a fatal error did, and the wait can end if and only if a task or the timer did |
| Outcomes.WaitOutcome | ibapi_async/tws_client.py:233-265 | resuming returns exactly the answer of the law |
| Outcomes.OutcomeIsExplained | ibapi_async/tws_client.py:233-265 | in terms of the steps: data means that the success task ran and is what the last completion brought, an error that only the error task ran and is the last fatal one, a timeout that neither ran |
| Outcomes.ExitIsClean | ibapi_async/tws_client.py:244-265 | each of the three exits removes both keys from both maps and leaves the id free and the invariant intact |
| Outcomes.ExecutionsLaw | ibapi_async/tws_client.py:895-919 | over every interleaving, unless an error wins, every execution delivered since the request is returned, on a timeout too; the one exception is an end before the first execution |
| Outcomes.LostOnlyBehindTimer | ibapi_async/tws_client.py:233-250 | over every interleaving, a wait that times out saw neither a response nor an error before any of its timers |
| Outcomes.LateTimeout | ibapi_async/tws_client.py:233-250 | from every state in which a wait is still open, a timer, the response and the resumption in this order end it with a timeout |
| Outcomes.OverlapLosesErrors | ibapi_async/tws_client.py:225-228 | of two waiters on one id, the error event of the one that stays is never set in any continuation, whatever callbacks, waits and streams it holds |
| Streams.StreamLifeCycle | ibapi_async/tws_client.py:1047-1069 | for every kind of stream and every run, consumed items are an in-order prefix of those delivered for the id, with no error and no exception among them, the queue is registered exactly while it runs, and at its end a cancel was issued exactly once, or never after a TWSError |
| Streams.TakeLaw | ibapi_async/tws_client.py:1295-1304 | for every kind, an error taken from the queue closes the stream with itself and without a cancel, another exception and the end of historical data close it with one, and anything else goes to the consumer |
| Streams.StreamCanGoOn | ibapi_async/tws_client.py:1293-1300 | over every run, a stream can take an item if and only if one was delivered that it has not consumed and its consumer has asked; only a live one never times out |
| Streams.DeliveredOnce | ibapi_async/tws_client.py:331-339 | every callback for a stream is delivered exactly once, in its place, as what it is worth |
| Streams.ClosingDropsAccumulator | ibapi_async/tws_client.py:1065-1069 | the end of a historical stream drops the accumulator of its request and of no other |
| Streams.BatchOutcome | ibapi_async/tws_client.py:965-983 | without timeouts a batch request answers, at some point behind the terminal callback, with the error, or with all bars so far if it holds a list, and with none otherwise |
| Streams.StreamOutcome | ibapi_async/tws_client.py:1010-1069 | without timeouts a stream that ended yielded exactly the bars in front of the terminal callback, in order, and ended as that one says |
| Streams.BatchEqualsStream | ibapi_async/tws_client.py:514-537 | under the same callbacks with one terminal, each amid any other requests and any scheduling, batch and stream give the same bars or the same TWSError, if no bar came too late |
| Streams.AgreementIff | ibapi_async/tws_client.py:514-537 | they agree in all pairs of runs if and only if no bar comes behind an end that itself came behind a bar |
| Streams.LateBarInBatch | ibapi_async/tws_client.py:529-536 | an engine run in which a bar behind the end still reaches a batch request that has not resumed |
| Streams.LateBarNotInStream | ibapi_async/tws_client.py:1057-1058 | an engine run with the same callbacks in which the stream never sees that bar |
| Ids.IdsIncrease | ibapi_async/tws_client.py:826-841 | over every interleaving of callers, parked or not, with announcements that never rewind, the ids handed out are strictly increasing |
| Ids.RewindIff | ibapi_async/tws_client.py:306-310 | an announcement keeps all later ids distinct and increasing if and only if it lies above the last id handed out |
| Ids.RepeatedAnnouncement | ibapi_async/tws_client.py:306-310 | a run in which a repeated announcement, which does not decrease, makes the client issue one id twice |
| Ids.IdsAreConsecutive | ibapi_async/tws_client.py:838-841 | between two announcements every caller who asks or wakes is served, and the ids are consecutive from the one announced |
| Ids.NobodyIsServedBefore | ibapi_async/tws_client.py:834-837 | before the first announcement nobody is served and no parked caller can be woken, over every run |
| Ids.AnnouncementWakes | ibapi_async/tws_client.py:306-309 | an announcement sets the next id and lets every parked caller go on |
| Ids.ParkedLaw | ibapi_async/tws_client.py:834-837 | callers are parked until they are woken or give up, and giving up takes no id |
| Sharing.NextKeeps | ibapi_async/tws_client.py:1040-1042 | every step of counter and engine together keeps the ids in use apart from those handed out and not used yet |
| Sharing.HandedOutIdsAreFree | ibapi_async/tws_client.py:826-841 | over every interleaving, an id that was handed out and not used yet is free, and every wait or stream may begin on it: requests with ids from the counter never overlap |
| Sharing.RewindOverlaps | ibapi_async/tws_client.py:306-310 | an announcement that rewinds to an id in use makes the next caller receive an id that is not free |
| Ids.IdSource.NextValidId | ibapi_async/tws_client.py:306-310 | overwrites the counter and wakes the parked callers |
| Ids.IdSource.GetNextValidId | ibapi_async/tws_client.py:834-841 | hands out the counter and increments it, or parks the caller |
| Ids.IdSource.Woken | ibapi_async/tws_client.py:838-841 | a woken caller finds a counter and takes the next id |
| Depth.BookRefinesLog | ibapi_async/tws_client.py:773-809 | every slot of the book holds the last update of that very slot, or nothing if that was a delete |
| Depth.SortedRows | ibapi_async/tws_client.py:1390-1395 | the sorted listing has exactly the entries of the map, once each, strictly ascending by position |
| Depth.MarketDepth.UpdateMktDepth | ibapi_async/tws_client.py:773-809 | the book of the request stays the book of its log, now one update longer; other books stay |
| Depth.MarketDepth.Drop | ibapi_async/tws_client.py:1356 | a new snapshot starts from an empty log |
| Depth.MarketDepth.Snapshot | ibapi_async/tws_client.py:1388-1399 | each side lists exactly its live positions, each with its last update, strictly ascending |
| WritePath.AsyncEClient.SendMsg | ibapi_async/client.py:69-94 | an id that cannot be packed raises and enqueues nothing; otherwise the frame is appended exactly if the stream is open |
| WritePath.AsyncEClient.Enqueue | ibapi_async/connection.py:64-81 | appends the frame and reports its length, or drops it and reports zero |
| WritePath.AsyncEClient.WriteNext | ibapi_async/client.py:276-284 | moves exactly the head of the queue to the wire, or loses it when closing or raising |
| WritePath.AsyncEClient.FlushRemaining | ibapi_async/client.py:289-295 | on an open stream writes the whole queue in order, or up to the first write that raises, which loses one frame and keeps the rest queued; on a closing stream loses it |
| WritePath.AsyncEClient.EnterTeardown | ibapi_async/client.py:217-221 | exactly the caller that finds the client connected gets past the guard, and then the client is marked down by the very step the interleaved teardown takes |
| WritePath.AsyncEClient.CloseStream | ibapi_async/connection.py:42-48 | closes the stream as the interleaved teardown does, and says whether connectionClosed follows |
| WritePath.AsyncEClient.DetachStream | ibapi_async/connection.py:54-55 | forgets the stream as the interleaved teardown does at its end |
| Lifecycle.InvStep | ibapi_async/client.py:100-303 | every step of opening, handshake, both loops, teardown and race keeps the conservation, teardown and handshake invariants |
| Lifecycle.InvRun | ibapi_async/client.py:100-303 | they hold after every run |
| Lifecycle.AcceptedIsAccountedFor | ibapi_async/client.py:256-303 | under every interleaving accepted frames are written, then discarded, then queued ones, and the wire is a prefix |
| Lifecycle.NothingAfterDiscard | ibapi_async/client.py:276-303 | once a frame has been discarded nothing is written in any continuation |
| Lifecycle.TeardownOnce | ibapi_async/client.py:211-239 | over every run the teardown body runs at most once, connectionClosed fires at most once, and a finished teardown leaves the client disconnected without tasks and stream |
| Lifecycle.TeardownProgress | ibapi_async/client.py:224-237 | no other step changes the place of a running teardown, which can always go on and then gets nearer to its end |
| Lifecycle.TeardownEnds | ibapi_async/client.py:224-239 | a teardown ends after at most three of its own turns, self-cancellation included |
| Lifecycle.AnythingCanHappen | ibapi_async/client.py:119-303 | peer, transport and user are unrestricted: a task that waits for them can meet anything, and any write can fail in any way |
| Lifecycle.CancelledTasksEnd | ibapi_async/client.py:286-301 | a cancelled task can end whatever it waits for, and then has ended |
| Lifecycle.LoopHeads | ibapi_async/client.py:268 | at its head a loop goes on if and only if the client is connected over an open stream |
| Shutdown.TeardownStopsLoops | ibapi_async/client.py:224-230 | over every run, as soon as anybody tears down, the write loop is cancelled, has ended or tears down itself, and once it has been waited for, so is the read loop |
| Shutdown.WriterIsAwaitedFirst | ibapi_async/client.py:217-231 | whoever first disconnects a client with a running write loop waits for that loop before anything else |
| Shutdown.StagesInOrder | ibapi_async/client.py:225-239 | then comes a running read loop, then an open stream, then connectionClosed |
| Shutdown.ConnectionClosedFires | ibapi_async/connection.py:44-53 | unless the transport drops, a finished teardown has fired connectionClosed, and the stream is open as long as the client is not disconnected |
| Shutdown.DroppedNeverFires | ibapi_async/connection.py:44-55 | once the transport has closed in front of the teardown, connectionClosed never fires |
| Shutdown.WriteLaw | ibapi_async/client.py:276-284 | a write moves the head of the queue to the wire, or loses it if it raises or the transport is closing |
| Shutdown.FlushLaw | ibapi_async/client.py:286-295 | a cancelled write loop that had started writes all that is left, up to the first write that raises |
| Shutdown.CancelledLoopWritesAll | ibapi_async/client.py:286-295 | over every run, a cancelled write loop on an open transport, with nothing lost and no write raising, leaves every accepted frame written |
| Shutdown.LossHasCause | ibapi_async/client.py:276-295 | over every run, a frame is lost only if a write raised or the transport is closing |
| Shutdown.SendLaw | ibapi_async/client.py:82-85 | a frame is accepted, at the end of the queue, if and only if the stream is open |
| Shutdown.ConnectedLaw | ibapi_async/client.py:185-203 | a handshake that succeeds connects the client, starts both loops and enqueues START_API on an open stream |
| Shutdown.LoopsLive | ibapi_async/client.py:187-200 | without a drop and without a foreign exception in the write loop, both loops run as long as the client is connected |
| Shutdown.QueueDrains | ibapi_async/client.py:268-280 | a running write loop of a connected client can write its whole queue, in order |
| Create.LostMeansDisconnected | ibapi_async/client.py:114-138 | behind the opening, the lost event is set if and only if the client is disconnected and the opening did not raise something that is no OSError |
| Create.MetDropIsSignalled | ibapi_async/client.py:120-172 | a step that meets a drop as an error or as EOF, in the opening, the handshake or either loop, leaves the lost event set if and only if it is not an error in sending the version or in reading the reply |
| Create.LostIff | ibapi_async/client.py:211-221 | over every run, the lost event is set if and only if some step signalled a drop, the user disconnected a client that had been opened, or create disconnected after a lost race |
| Create.ConnectRaises | ibapi_async/client.py:119-161 | two runs in which connect raises before the handshake reads anything, one in the opening and one in sending the version, and nothing is signalled |
| Create.BrokenHandshake | ibapi_async/client.py:167-168 | a run in which a connection error in the handshake is not signalled and leaves the client connecting |
| Create.ReaderEndsQuietly | ibapi_async/reader.py:97-134 | while nothing is lost, the read loop ends without a signal if and only if it finds the client not connected at its guard |
| Create.WriterEndsQuietly | ibapi_async/client.py:263-303 | so does the write loop, or with an exception that is no OSError |
| Create.SilentDropHappens | ibapi_async/client.py:268-274 | a run in which the transport closes, both loops end at their guards, and nothing is signalled or torn down |
| Create.SilenceStays | ibapi_async/client.py:268-274 | from there on nothing ever is, unless the user disconnects or the timer of create fires |
| Create.CreateLaw | ibapi_async/tws_client.py:152-187 | over every run, create has returned the client if and only if the nextValidId task was done when the race ended, and fails or has failed if and only if it was not |
| Create.RaceGoesOn | ibapi_async/tws_client.py:152-157 | over every run, the nextValidId task can finish if and only if the server announced an id, the drop task if and only if a drop was signalled, and the race can end if and only if one of them or the timer did |
| Create.CreateSucceeds | ibapi_async/tws_client.py:143-164 | a run in which the server greets and announces an id, and create returns a connected client |
| Create.RefusalFails | ibapi_async/client.py:122-136 | a run in which a refused connection makes create fail naming the error of the opening |
| Create.FailureLaw | ibapi_async/tws_client.py:171-187 | a failure blames a drop if and only if the drop task was done when the race ended, and names the last fatal error among all those received before create returned, behind its own disconnect |
| Create.FailureIsDown | ibapi_async/tws_client.py:171-187 | a client whose create fails is disconnected, with the lost event set |
| Create.ResultStays | ibapi_async/tws_client.py:163-187 | a result of create never changes |
| Create.PropagatedIff | ibapi_async/tws_client.py:144 | over every run, create ends with an exception other than ResponseTimeout if and only if the opening raised something that is no OSError, sending the client's version failed, or the handshake ended in one of its three exceptions |
| Create.PropagatedHappens | ibapi_async/client.py:163-179 | a run for each of the three exceptions of the handshake |
| Create.HandshakeExceptionLeaks | ibapi_async/client.py:120-179 | after such an exception, in every run without a call of disconnect nothing is torn down and no drop is signalled, and the stream stays attached if and only if the exception did not come from the opening |
| Lifecycle.LastFatal | ibapi_async/tws_client.py:172-179 | the last error under id -1 whose code is not informational, and none exactly if all are |

## Left out

- The `ibapi` library is not part of this model. Its framing helpers are small functions here, and the constants PROTOBUF_MSG_ID = 200, MIN_SERVER_VER_PROTOBUF = 201, MAX_MSG_LEN = 0xFFFFFF and CONNECT_FAIL = 502 are its own.
- The `ibapi` Decoder, protobuf payloads, and the fields of contracts, orders and bars: opaque values. The decoder is the record of its calls, each of which may raise.
- Text encodings: fields are byte strings. Python's limit on the number of digits `int` accepts is not modelled.
- TCP, clocks and logging: chunks are arbitrary, every timeout is an arbitrary step, and a closing transport drops what is written to it.
- asyncio internals: queue operations, event setting and task completion are atomic steps; `wait_for` does not swallow a cancellation. Of the first-in-first-out ready queue only one consequence is modelled: the tasks of events set before a timer are done before that timer ends the wait.
- `connect` called again on one client, `disconnect` called by the user during the opening or the greeting, calls from other threads, and a waiter cancelled from outside.
- The bytes of the client's own version message, which `connect` writes directly and which are not frames of the write queue.
- Whether a dropping transport wakes a loop with an error or EOF before the loop reaches its guard: both can happen here.
- Coroutines are cut at their waits: `_write_loop`, `disconnect` and `create` appear as the steps of `Lifecycle` and as the class methods of `WritePath` for their blocks, not as one method each.
- TwsClient.Client.TakeItems: takes the results of its queue reads as a sequence; that they are what the callbacks put there is proved in `Streams`.
- Streams.StreamLifeCycle: for market depth a timeout stands both for a missing first update and for the normal end of the settle window; both leave through the same clean-up.
- Outcomes.WaiterLaw: a list outcome is the content of the list when the wait ends; later appends to the returned list object are not followed.
- Callbacks that store one value and signal it, and their thin `get_*` wrappers: instances of `Engine.Completed`.
- Prices, sizes and the market meaning of depth rows. The book overwrites or removes a slot and never shifts neighbours, as in the code.
- Errors that the library itself reports under id -1 while it sends START_API on a stream that is already closing.
- Examples, containers and tunnel scripts.
