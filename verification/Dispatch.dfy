/** Routing one framed message to the decoder, and the read loop as it runs. */
module Dispatch {
  import opened Decimal
  import opened Wire
  import opened Framing

  /** A decoder entry point with its arguments. */
  datatype Call =
    | Interpret(fields: seq<Bytes>, id: int)
    | ProcessProtoBuf(body: Bytes, id: int)

  function Route(id: int, body: Bytes): Call {
    if id > PROTOBUF_MSG_ID then ProcessProtoBuf(body, id - PROTOBUF_MSG_ID)
    else Interpret(ReadFields(body), id)
  }

  /** What one message asks of the decoder; `None` when it is dropped: oversized, without a
      terminated id, or with an id that is not a number. */
  function Classify(msg: Bytes, version: int): Option<Call> {
    if |msg| > MAX_MSG_LEN then None
    else if version >= MIN_SERVER_VER_PROTOBUF then
      var k := if |msg| < 4 then |msg| else 4;
      Some(Route(FromBytes(msg[..k]), msg[k..]))
    else
      var k := NulIndex(msg);
      if k == |msg| then None
      else
        match ParseInt(msg[..k])
        case None => None
        case Some(id) => Some(Route(id, msg[k + 1..]))
  }

  /** The decoder calls of a message sequence: the classified messages, in order. */
  function Calls(msgs: seq<Bytes>, version: int): seq<Call> {
    if msgs == [] then []
    else
      match Classify(msgs[0], version)
      case None => Calls(msgs[1..], version)
      case Some(call) => [call] + Calls(msgs[1..], version)
  }

  lemma {:induction false} CallsAppend(a: seq<Bytes>, b: seq<Bytes>, version: int)
    ensures Calls(a + b, version) == Calls(a, version) + Calls(b, version)
  {
    if a == [] {
      assert a + b == b;
      assert Calls(a, version) + Calls(b, version) == Calls(b, version);
    } else {
      CallsAppend(a[1..], b, version);
      assert (a + b)[1..] == a[1..] + b;
      if Classify(a[0], version).Some? {
        Assoc([Classify(a[0], version).value], Calls(a[1..], version), Calls(b, version));
      }
    }
  }

  /** Fault isolation: replacing one message by any other, or by one the decoder rejects,
      leaves the calls before it and the calls after it as they were. */
  lemma FaultIsolation(before: seq<Bytes>, msg: Bytes, after: seq<Bytes>, version: int)
    ensures Calls(before + [msg] + after, version) ==
            Calls(before, version)
            + (if Classify(msg, version).Some? then [Classify(msg, version).value] else [])
            + Calls(after, version)
  {
    CallsAppend(before + [msg], after, version);
    CallsAppend(before, [msg], version);
    assert Calls([msg], version) ==
           match Classify(msg, version) case None => [] case Some(c) => [c] + Calls([], version);
  }

  /** The messages that are dropped, and no others: those over 0xFFFFFF bytes, and, in front of
      version 201, those without a NUL or with no number in front of the first one. */
  lemma DroppedIff(msg: Bytes, version: int)
    ensures Classify(msg, version).None? <==>
            || |msg| > 0xFF_FFFF
            || (version < 201 && (NUL !in msg || ParseInt(msg[..NulIndex(msg)]).None?))
  {
    if NulIndex(msg) < |msg| { assert msg[NulIndex(msg)] in msg; }
  }

  /** All others reach the decoder under the number they start with: as text up to the first
      NUL, or in the first four bytes, or fewer if there are no four. Above 200 it is a protobuf
      message. */
  lemma RoutedAs(msg: Bytes, version: int, id: int, body: Bytes)
    requires Classify(msg, version).Some?
    requires if version < 201 then exists p :: NulFree(p) && msg == p + [NUL] + body && ParseInt(p) == Some(id)
             else exists p :: |p| <= 4 && msg == p + body && (|p| == 4 || body == []) && FromBytes(p) == id
    ensures Classify(msg, version) ==
            Some(if id > 200 then ProcessProtoBuf(body, id - 200) else Interpret(ReadFields(body), id))
  {
    if version < 201 {
      var p :| NulFree(p) && msg == p + [NUL] + body && ParseInt(p) == Some(id);
      NulIndexOfField(p, body);
      assert msg[..|p|] == p && msg[|p| + 1..] == body;
    } else {
      var p :| |p| <= 4 && msg == p + body && (|p| == 4 || body == []) && FromBytes(p) == id;
      assert msg[..|p|] == p && msg[|p|..] == body;
    }
  }

  // ----- the running loop

  /** The decoder, reduced to the record of its calls. Whether a call raises is arbitrary. */
  class Decoder {
    var calls: seq<Call>

    constructor ()
      ensures calls == []
    {
      calls := [];
    }

    method Invoke(call: Call) returns (raised: bool)
      modifies this
      ensures calls == old(calls) + [call]
    {
      calls := calls + [call];
      raised := *;
    }
  }

  /** `_dispatch_message`. Exceptions of the decoder end here. */
  method DispatchMessage(msg: Bytes, decoder: Decoder, version: int)
    modifies decoder
    ensures decoder.calls == old(decoder.calls) + Calls([msg], version)
  {
    assert Calls([msg][1..], version) == [];
    if |msg| > MAX_MSG_LEN {
      return;
    }
    var id: int, body: Bytes;
    if version >= MIN_SERVER_VER_PROTOBUF {
      var k := if |msg| < 4 then |msg| else 4;
      id := FromBytes(msg[..k]);
      body := msg[k..];
    } else {
      var k := NulIndex(msg);
      if k == |msg| {
        return;
      }
      body := msg[k + 1..];
      match ParseInt(msg[..k]) {
        case None => return;
        case Some(n) => id := n;
      }
    }
    var raised;
    if id > PROTOBUF_MSG_ID {
      raised := decoder.Invoke(ProcessProtoBuf(body, id - PROTOBUF_MSG_ID));
    } else {
      raised := decoder.Invoke(Interpret(ReadFields(body), id));
    }
    assert Classify(msg, version) == Some(Route(id, body));
  }

  /** What one pass of the outer loop meets: `is_connected()` answers no, the read times out,
      the connection or anything else fails, or a chunk arrives (an empty one is EOF). */
  datatype Turn = NotConnected | TimedOut | Failed | Chunk(bytes: Bytes)

  datatype Exit = StillReading | Finished | Disconnecting

  datatype ReadRun = ReadRun(msgs: seq<Bytes>, buf: Bytes, exit: Exit)

  /** The read loop as a function of its turns. */
  ghost function Reading(buf: Bytes, turns: seq<Turn>): ReadRun
    decreases turns
  {
    if turns == [] then ReadRun([], buf, StillReading)
    else
      match turns[0]
      case NotConnected => ReadRun([], buf, Finished)
      case Failed => ReadRun([], buf, Disconnecting)
      case TimedOut => Reading(buf, turns[1..])
      case Chunk(bytes) =>
        if bytes == [] then ReadRun([], buf, Disconnecting)
        else
          var (now, rest) := Extract(buf + bytes);
          var later := Reading(rest, turns[1..]);
          ReadRun(now + later.msgs, later.buf, later.exit)
  }

  /** The chunks that arrive before the loop ends. */
  ghost function ChunksOf(turns: seq<Turn>): (chunks: seq<Bytes>)
    ensures NonEmptyChunks(chunks)
  {
    if turns == [] then []
    else
      match turns[0]
      case TimedOut => ChunksOf(turns[1..])
      case Chunk(bytes) => if bytes == [] then [] else [bytes] + ChunksOf(turns[1..])
      case _ => []
  }

  /** Timeouts, errors and the moment the loop ends never touch the byte stream: a run
      dispatches what its chunks alone would. */
  lemma {:induction false} ReadingIsFeed(buf: Bytes, turns: seq<Turn>)
    ensures Reading(buf, turns).msgs == Feed(buf, ChunksOf(turns)).0
    ensures Reading(buf, turns).buf == Feed(buf, ChunksOf(turns)).1
    decreases turns
  {
    if turns != [] {
      match turns[0] {
        case TimedOut => ReadingIsFeed(buf, turns[1..]);
        case Chunk(bytes) =>
          if bytes != [] { ReadingIsFeed(Extract(buf + bytes).1, turns[1..]); }
        case _ =>
      }
    }
  }

  // How the loop ends, by the position of the turn that ends it.

  /** The loop goes on behind this turn. */
  predicate GoesOn(turn: Turn) {
    turn == TimedOut || (turn.Chunk? && turn.bytes != [])
  }

  /** The first turn behind which it does not, or the number of turns. */
  function StopAt(turns: seq<Turn>): (k: nat)
    ensures k <= |turns| && (forall i | 0 <= i < k :: GoesOn(turns[i])) && (k < |turns| ==> !GoesOn(turns[k]))
  {
    if turns == [] || !GoesOn(turns[0]) then 0 else 1 + StopAt(turns[1..])
  }

  predicate EndsAs(turns: seq<Turn>, exit: Exit) {
    var k := StopAt(turns);
    && (exit == StillReading <==> k == |turns|)
    && (exit == Finished <==> k < |turns| && turns[k] == NotConnected)
    && (exit == Disconnecting <==> k < |turns| && (turns[k] == Failed || turns[k] == Chunk([])))
  }

  /** The loop ends at the first turn that is neither a timeout nor bytes: quietly when it finds
      the client not connected, and by disconnecting on an error or at EOF. */
  lemma {:induction false} ExitLaw(buf: Bytes, turns: seq<Turn>)
    ensures EndsAs(turns, Reading(buf, turns).exit)
    decreases turns
  {
    if turns != [] && GoesOn(turns[0]) {
      if turns[0] == TimedOut { ExitLaw(buf, turns[1..]); }
      else { ExitLaw(Extract(buf + turns[0].bytes).1, turns[1..]); }
    }
  }

  function CountChunks(turns: seq<Turn>): nat {
    if turns == [] then 0 else (if turns[0].Chunk? then 1 else 0) + CountChunks(turns[1..])
  }

  /** Up to there every chunk is read, once and in order. */
  lemma {:induction false} ChunksByPosition(turns: seq<Turn>, i: nat)
    requires i <= StopAt(turns)
    ensures CountChunks(turns[..i]) <= |ChunksOf(turns)|
    ensures i < StopAt(turns) && turns[i].Chunk? ==>
              CountChunks(turns[..i]) < |ChunksOf(turns)| && ChunksOf(turns)[CountChunks(turns[..i])] == turns[i].bytes
    ensures i == StopAt(turns) ==> CountChunks(turns[..i]) == |ChunksOf(turns)|
    decreases turns
  {
    if i > 0 {
      ChunksByPosition(turns[1..], i - 1);
      assert turns[..i][1..] == turns[1..][..i - 1];
    }
  }

  /** The inner loop: everything in `buf` up to the first incomplete or empty frame. */
  method ExtractAll(buf: Bytes, decoder: Decoder, version: int) returns (rest: Bytes)
    modifies decoder
    ensures rest == Extract(buf).1
    ensures decoder.calls == old(decoder.calls) + Calls(Extract(buf).0, version)
  {
    rest := buf;
    ghost var done: seq<Bytes> := [];
    assert done + Extract(buf).0 == Extract(buf).0;
    while rest != []
      invariant Extract(buf) == (done + Extract(rest).0, Extract(rest).1)
      invariant decoder.calls == old(decoder.calls) + Calls(done, version)
      decreases |rest|
    {
      var (msg, next) := ReadMsg(rest);
      ghost var was := rest;
      rest := next;
      if msg == [] {
        assert done + [] == done;
        return;
      }
      DispatchMessage(msg, decoder, version);
      CallsAppend(done, [msg], version);
      Assoc(done, [msg], Extract(rest).0);
      done := done + [msg];
    }
    assert done + [] == done;
  }

  lemma CallsOfChunk(buf: Bytes, turns: seq<Turn>, version: int)
    requires turns != [] && turns[0].Chunk? && turns[0].bytes != []
    ensures var (now, rest) := Extract(buf + turns[0].bytes);
            Calls(Reading(buf, turns).msgs, version) ==
            Calls(now, version) + Calls(Reading(rest, turns[1..]).msgs, version)
  {
    var (now, rest) := Extract(buf + turns[0].bytes);
    CallsAppend(now, Reading(rest, turns[1..]).msgs, version);
  }

  /** `_read_loop` over any sequence of turns. */
  method ReadLoop(turns: seq<Turn>, decoder: Decoder, version: int) returns (buf: Bytes, exit: Exit)
    modifies decoder
    ensures buf == Reading([], turns).buf && exit == Reading([], turns).exit
    ensures EndsAs(turns, exit)
    ensures decoder.calls == old(decoder.calls) + Calls(Reading([], turns).msgs, version)
  {
    ExitLaw([], turns);
    buf, exit := [], StillReading;
    ghost var whole := old(decoder.calls) + Calls(Reading([], turns).msgs, version);
    var i := 0;
    while i < |turns|
      invariant 0 <= i <= |turns|
      invariant exit == StillReading
      invariant Reading([], turns).buf == Reading(buf, turns[i..]).buf
      invariant Reading([], turns).exit == Reading(buf, turns[i..]).exit
      invariant decoder.calls + Calls(Reading(buf, turns[i..]).msgs, version) == whole
    {
      ghost var left := turns[i..];
      var turn := turns[i];
      i := i + 1;
      assert left[1..] == turns[i..];
      if turn == Failed {
        exit := Disconnecting;
        return;
      } else if turn == NotConnected {
        exit := Finished;
        return;
      } else if turn.Chunk? {
        if turn.bytes == [] {
          exit := Disconnecting;
          return;
        }
        CallsOfChunk(buf, left, version);
        Assoc(decoder.calls, Calls(Extract(buf + turn.bytes).0, version),
              Calls(Reading(Extract(buf + turn.bytes).1, turns[i..]).msgs, version));
        buf := ExtractAll(buf + turn.bytes, decoder, version);
      }
    }
  }
}
