/** The version handshake of `connect` and how it hands the stream over to the read loop. */
module Handshake {
  import opened Decimal
  import opened Wire
  import opened Framing

  /** What one `read` of the handshake yields: bytes (none at EOF), the ten-second timeout, or
      a connection error. */
  datatype Arrival = Data(bytes: Bytes) | Stalled | Broken

  /** How the handshake ends. `BadVersion`, `TimedOut` and `Errored` are exceptions that leave
      `connect`; `early` holds the bytes behind the reply, which nobody reads again. */
  datatype Greeting =
    | Negotiated(version: int, time: Bytes, early: Bytes)
    | BadVersion
    | ServerClosed
    | TimedOut
    | Errored
    | Waiting

  function Conclude(fields: seq<Bytes>, early: Bytes): Greeting
    requires |fields| == 2
  {
    match ParseInt(fields[0])
    case None => BadVersion
    case Some(v) => Negotiated(v, fields[1], early)
  }

  /** What one arrival does to a handshake that has `raw` unread: it goes on, or it ends. */
  datatype Reaction = Unfinished(raw: Bytes) | Finished(greeting: Greeting)

  function React(raw: Bytes, arrival: Arrival): Reaction {
    match arrival
    case Stalled => Finished(TimedOut)
    case Broken => Finished(Errored)
    case Data(bytes) =>
      var (msg, rest) := ReadMsg(raw + bytes);
      if bytes == [] then Finished(ServerClosed)
      else if msg == [] then Unfinished(raw + bytes)
      else if |ReadFields(msg)| == 2 then Finished(Conclude(ReadFields(msg), rest))
      else Unfinished(rest)
  }

  lemma OnlyEofCloses(raw: Bytes, arrival: Arrival)
    ensures React(raw, arrival) == Finished(ServerClosed) <==> arrival == Data([])
  {
  }

  /** The handshake as a function of the arrivals; the second result is what it leaves unread. */
  ghost function Greet(raw: Bytes, arrivals: seq<Arrival>): (Greeting, seq<Arrival>)
    decreases arrivals
  {
    if arrivals == [] then (Waiting, [])
    else
      match React(raw, arrivals[0])
      case Finished(greeting) => (greeting, arrivals[1..])
      case Unfinished(left) => Greet(left, arrivals[1..])
  }

  /** The handshake loop. */
  method ReadServerVersion(arrivals: seq<Arrival>) returns (r: Greeting, used: nat)
    ensures used <= |arrivals|
    ensures (r, arrivals[used..]) == Greet([], arrivals)
  {
    var raw: Bytes, fields: seq<Bytes> := [], [];
    used := 0;
    while |fields| != 2
      invariant used <= |arrivals|
      invariant Greet([], arrivals) ==
                if |fields| == 2 then (Conclude(fields, raw), arrivals[used..])
                else Greet(raw, arrivals[used..])
      decreases |arrivals| - used, |fields| != 2
    {
      if used == |arrivals| {
        return Waiting, used;
      }
      var arrival := arrivals[used];
      assert arrivals[used..][1..] == arrivals[used + 1..];
      used := used + 1;
      match arrival {
        case Stalled => return TimedOut, used;
        case Broken => return Errored, used;
        case Data(bytes) =>
          if bytes == [] {
            return ServerClosed, used;
          }
          raw := raw + bytes;
          var (msg, rest) := ReadMsg(raw);
          if msg != [] {
            fields := ReadFields(msg);
            raw := rest;
          }
      }
    }
    r := Conclude(fields, raw);
  }

  // ----- any fragmentation of the reply

  function Arrivals(chunks: seq<Bytes>): (arrivals: seq<Arrival>)
    ensures |arrivals| == |chunks|
  {
    seq(|chunks|, i requires 0 <= i < |chunks| => Data(chunks[i]))
  }

  lemma ArrivalsTail(chunks: seq<Bytes>)
    requires chunks != []
    ensures Arrivals(chunks)[1..] == Arrivals(chunks[1..])
  {
  }

  /** A payload the handshake can conclude from, and one it can conclude from well. */
  predicate TwoFields(p: Bytes) {
    |ReadFields(p)| == 2
  }

  predicate Greets(p: Bytes) {
    TwoFields(p) && ParseInt(ReadFields(p)[0]).Some?
  }

  /** The reply in its usual rendering is one of those. */
  lemma RenderedReply(version: int, time: Bytes, early: Bytes)
    requires NulFree(time)
    ensures var p := JoinFields([Render(version), time]);
            p != [] && Greets(p) && Conclude(ReadFields(p), early) == Negotiated(version, time, early)
  {
    ReadBackNulFree([Render(version), time]);
    ParseIntOfRender(version);
  }

  /** A proper prefix of a frame is not a complete frame. */
  lemma ShortIsIncomplete(s: Bytes, more: Bytes, p: Bytes, tail: Bytes)
    requires |p| < U32_LIMIT && s + more == Frame(p) + tail && |s| < |Frame(p)|
    ensures !Complete(s)
  {
    ReadMsgOfFrame(p, tail);
    if |s| >= 4 {
      assert s[..4] == (s + more)[..4];
    }
  }

  /** The handshake reads a two-field payload out of any fragmentation of its frame, concludes
      from it, and splits what follows into the bytes it drops and the chunks it leaves to the
      read loop. */
  lemma {:induction false} ReplyIsRead(raw: Bytes, chunks: seq<Bytes>, p: Bytes, tail: Bytes)
    returns (early: Bytes, left: seq<Bytes>)
    requires TwoFields(p) && |p| < U32_LIMIT
    requires NonEmptyChunks(chunks)
    requires |raw| < |Frame(p)|
    requires raw + Concat(chunks) == Frame(p) + tail
    ensures Greet(raw, Arrivals(chunks)) == (Conclude(ReadFields(p), early), Arrivals(left))
    ensures early + Concat(left) == tail && NonEmptyChunks(left)
    decreases chunks
  {
    var c, unread := chunks[0], Concat(chunks[1..]);
    var now := raw + c;
    Assoc(raw, c, unread);
    ArrivalsTail(chunks);
    if |now| < |Frame(p)| {
      ShortIsIncomplete(now, unread, p, tail);
      early, left := ReplyIsRead(now, chunks[1..], p, tail);
    } else {
      early, left := now[|Frame(p)|..], chunks[1..];
      PrefixSplits(now, unread, Frame(p), tail);
      ReadMsgOfFrame(p, early);
    }
  }

  lemma PrefixSplits(now: Bytes, unread: Bytes, frame: Bytes, tail: Bytes)
    requires now + unread == frame + tail && |now| >= |frame|
    ensures now == frame + now[|frame|..] && now[|frame|..] + unread == tail
  {
    assert now[..|frame|] == (now + unread)[..|frame|] == frame;
    assert tail == (now + unread)[|frame|..] == now[|frame|..] + unread;
  }

  // ----- when the handshake completes

  /** The first frame of the stream is all there, has two fields and starts with a number. */
  predicate FirstFrameGreets(s: Bytes) {
    Complete(s) && Greets(Payload(s))
  }

  ghost predicate AlwaysNegotiates(s: Bytes) {
    forall chunks | IsChunking(chunks, s) :: Greet([], Arrivals(chunks)).0.Negotiated?
  }

  lemma CompleteIsFrame(s: Bytes)
    requires Complete(s)
    ensures |Payload(s)| < U32_LIMIT && s == Frame(Payload(s)) + Rest(s)
  {
    var n := FromBytes(s[..4]);
    FromFourBytes(s[..4]);
    FourBytesSplit(s[0], s[1], s[2], s[3]);
    assert s[..4] == U32(n);
    assert s == s[..4] + s[4..4 + n] + s[4 + n..];
  }

  lemma FourBytesSplit(a: byte, b: byte, c: byte, d: byte)
    ensures var n := 0x100_0000 * a as int + 0x1_0000 * b as int + 256 * c as int + d;
            && 0 <= n < U32_LIMIT
            && n / 0x100_0000 == a && n / 0x1_0000 % 256 == b && n / 256 % 256 == c && n % 256 == d
  {
    var n := 0x100_0000 * a as int + 0x1_0000 * b as int + 256 * c as int + d;
    assert n / 256 == 0x1_0000 * a as int + 256 * b as int + c;
    assert n / 0x1_0000 == 256 * a as int + b;
  }

  /** The handshake completes under every chunking of what the server sends if and only if its
      very first frame greets: the handshake reads one frame per chunk, so even a frame it
      would skip can hide the reply behind it. */
  lemma HandshakeTheorem(s: Bytes)
    ensures AlwaysNegotiates(s) <==> FirstFrameGreets(s)
  {
    if FirstFrameGreets(s) {
      CompleteIsFrame(s);
      forall chunks | IsChunking(chunks, s) ensures Greet([], Arrivals(chunks)).0.Negotiated? {
        assert [] + Concat(chunks) == s;
        var _, _ := ReplyIsRead([], chunks, Payload(s), Rest(s));
      }
    } else {
      var whole := if s == [] then [] else [s];
      assert s != [] ==> Concat([s]) == s + Concat([s][1..]) == s;
      assert IsChunking(whole, s);
      OneChunk(s);
    }
  }

  lemma OneChunk(s: Bytes)
    requires !FirstFrameGreets(s)
    ensures s != [] ==> !Greet([], Arrivals([s])).0.Negotiated?
  {
    assert [] + s == s;
    var one := Arrivals([s]);
    assert one[1..] == [] && one[0] == Data(s);
  }

  // ----- how the handshake ends, for all arrivals

  /** The chunks that come before anything else does. */
  ghost function Leading(arrivals: seq<Arrival>): (chunks: seq<Bytes>)
    ensures |chunks| <= |arrivals| && NonEmptyChunks(chunks)
    ensures forall i | 0 <= i < |chunks| :: arrivals[i] == Data(chunks[i])
    ensures |chunks| < |arrivals| ==> !arrivals[|chunks|].Data? || arrivals[|chunks|].bytes == []
  {
    if arrivals == [] || !arrivals[0].Data? || arrivals[0].bytes == [] then []
    else [arrivals[0].bytes] + Leading(arrivals[1..])
  }

  /** The messages read by somebody who takes one frame per chunk, and nothing but chunks. */
  ghost function OnePerChunk(raw: Bytes, chunks: seq<Bytes>): seq<Bytes>
    decreases chunks
  {
    if chunks == [] then []
    else
      var (msg, rest) := ReadMsg(raw + chunks[0]);
      if msg == [] then OnePerChunk(raw + chunks[0], chunks[1..])
      else [msg] + OnePerChunk(rest, chunks[1..])
  }

  /** Those are the first messages of the stream. */
  lemma {:induction false} OnePerChunkIsPrefix(raw: Bytes, chunks: seq<Bytes>)
    ensures |OnePerChunk(raw, chunks)| <= |chunks|
    ensures OnePerChunk(raw, chunks) <= Extract(raw + Concat(chunks)).0
    decreases chunks
  {
    if chunks != [] {
      var now, unread := raw + chunks[0], Concat(chunks[1..]);
      Assoc(raw, chunks[0], unread);
      if ReadMsg(now).0 == [] {
        OnePerChunkIsPrefix(now, chunks[1..]);
      } else {
        CompleteIsStable(now, unread);
        OnePerChunkIsPrefix(Rest(now), chunks[1..]);
      }
    }
  }

  /** The first message with two fields. */
  ghost function FirstReply(msgs: seq<Bytes>): (p: Option<Bytes>)
    ensures p.Some? ==> TwoFields(p.value) && p.value in msgs
    ensures p.None? ==> forall m | m in msgs :: !TwoFields(m)
  {
    if msgs == [] then None
    else if TwoFields(msgs[0]) then Some(msgs[0])
    else FirstReply(msgs[1..])
  }

  ghost function ReplyOf(raw: Bytes, arrivals: seq<Arrival>): Option<Bytes> {
    FirstReply(OnePerChunk(raw, Leading(arrivals)))
  }

  /** What comes behind the leading chunks. */
  ghost function Breaker(arrivals: seq<Arrival>): Option<Arrival> {
    var n := |Leading(arrivals)|;
    if n < |arrivals| then Some(arrivals[n]) else None
  }

  ghost predicate Ends(g: Greeting, reply: Option<Bytes>, breaker: Option<Arrival>) {
    && (g.Negotiated? <==> reply.Some? && Greets(reply.value))
    && (g.Negotiated? ==>
          Some(g.version) == ParseInt(ReadFields(reply.value)[0]) && g.time == ReadFields(reply.value)[1])
    && (g.BadVersion? <==> reply.Some? && !Greets(reply.value))
    && (g.TimedOut? <==> reply.None? && breaker == Some(Stalled))
    && (g.Errored? <==> reply.None? && breaker == Some(Broken))
    && (g.ServerClosed? <==> reply.None? && breaker == Some(Data([])))
    && (g.Waiting? <==> reply.None? && breaker.None?)
  }

  /** The exact arrivals for every end of the handshake: the first two-field message among
      those read one per chunk decides whether the version is good; without one, whatever
      comes instead of a chunk decides. */
  lemma {:induction false} GreetLaw(raw: Bytes, arrivals: seq<Arrival>)
    ensures Ends(Greet(raw, arrivals).0, ReplyOf(raw, arrivals), Breaker(arrivals))
    decreases arrivals
  {
    if arrivals != [] && arrivals[0].Data? && arrivals[0].bytes != [] {
      var later := arrivals[1..];
      assert Leading(arrivals)[1..] == Leading(later);
      assert Breaker(arrivals) == Breaker(later);
      var (msg, rest) := ReadMsg(raw + arrivals[0].bytes);
      if msg == [] {
        GreetLaw(raw + arrivals[0].bytes, later);
      } else {
        assert OnePerChunk(raw, Leading(arrivals))[1..] == OnePerChunk(rest, Leading(later));
        if !TwoFields(msg) { GreetLaw(rest, later); }
      }
    }
  }

  /** One concrete arrival for each of the three exceptions. */
  const NO_VERSION: Bytes := [120, NUL, NUL]

  lemma NoVersionFields()
    ensures ReadFields(NO_VERSION) == [[120], []] && ParseInt([120]) == None
  {
    var fields: seq<Bytes> := [[120], []];
    assert JoinFields(fields[1..]) == [NUL];
    assert JoinFields(fields) == NO_VERSION;
    ReadBackNulFree(fields);
  }

  lemma ExceptionsHappen()
    ensures Greet([], [Stalled]).0.TimedOut? && Greet([], [Broken]).0.Errored?
    ensures Greet([], [Data(Frame(NO_VERSION))]).0.BadVersion?
    ensures React([], Data(Frame(NO_VERSION))) == Finished(BadVersion)
  {
    NoVersionFields();
    ReadMsgOfFrame(NO_VERSION, []);
    assert Frame(NO_VERSION) + [] == Frame(NO_VERSION) == [] + Frame(NO_VERSION);
  }

  // ----- handshake and read loop together

  ghost function FrameBytes(payloads: seq<Bytes>): nat {
    if payloads == [] then 0 else 4 + |payloads[0]| + FrameBytes(payloads[1..])
  }

  lemma {:induction false} FramesFit(s: Bytes)
    ensures FrameBytes(Frames(s)) <= |s|
    decreases |s|
  {
    if Complete(s) {
      FramesFit(Rest(s));
      assert Payload(s) != [] ==> Frames(s)[1..] == Frames(Rest(s));
      assert |s| == 4 + |Payload(s)| + |Rest(s)|;
      assert Payload(s) == [] ==> Frames(s) == Frames(Rest(s));
    }
  }

  /** The stream consists of complete non-empty frames. */
  ghost predicate Whole(s: Bytes) {
    AllFramesNonEmpty(s) && Residual(s) == []
  }

  lemma {:induction false} WholeFits(s: Bytes)
    requires Whole(s)
    ensures FrameBytes(Frames(s)) == |s|
    decreases |s|
  {
    if Complete(s) {
      WholeFits(Rest(s));
      assert Frames(s)[1..] == Frames(Rest(s));
      assert |s| == 4 + |Payload(s)| + |Rest(s)|;
    }
  }

  /** How the read loop, which starts from an empty buffer, takes over from a handshake that
      dropped the bytes `early` in front of the chunks `left`. When it dropped none, no message
      of the tail is lost, and if no frame follows an empty one, exactly its parse is dispatched
      and its residual kept. When the tail consists of complete non-empty frames, they are all
      dispatched only then. */
  ghost predicate TakesOver(tail: Bytes, early: Bytes, left: seq<Bytes>) {
    var (msgs, buf) := Feed([], left);
    && (early == [] ==> Frames(tail) == msgs + Frames(buf))
    && (early == [] && NothingAfterEmpty(tail) ==> msgs == Frames(tail) && buf == Residual(tail))
    && (Whole(tail) ==> (msgs == Frames(tail) <==> early == []))
  }

  /** For any fragmentation of a greeting followed by `tail`, the handshake obtains the version
      and time that were sent and splits the tail into what it drops and what the read loop
      takes over. */
  lemma HandshakeThenReadLoop(chunks: seq<Bytes>, p: Bytes, tail: Bytes)
    returns (early: Bytes, left: seq<Bytes>)
    requires Greets(p) && |p| < U32_LIMIT
    requires NonEmptyChunks(chunks)
    requires Concat(chunks) == Frame(p) + tail
    ensures Greet([], Arrivals(chunks)) ==
            (Negotiated(ParseInt(ReadFields(p)[0]).value, ReadFields(p)[1], early), Arrivals(left))
    ensures early + Concat(left) == tail && NonEmptyChunks(left)
    ensures TakesOver(tail, early, left)
  {
    assert [] + Concat(chunks) == Concat(chunks);
    early, left := ReplyIsRead([], chunks, p, tail);
    if Whole(tail) { NonEmptyFramesSettle(tail); }
    if early == [] {
      assert Concat(left) == tail && IsChunking(left, tail);
      ChunkingTheorem(tail);
      FeedConserves([], left, []);
      assert [] + Concat(left) + [] == tail && Feed([], left).1 + [] == Feed([], left).1;
    } else if Whole(tail) && Feed([], left).0 == Frames(tail) {
      WholeFits(tail);
      FeedFits(left);
    }
  }

  lemma FeedFits(chunks: seq<Bytes>)
    ensures FrameBytes(Feed([], chunks).0) <= |Concat(chunks)|
  {
    var (msgs, buf) := Feed([], chunks);
    FeedConserves([], chunks, []);
    assert [] + Concat(chunks) + [] == Concat(chunks) && buf + [] == buf;
    FramesFit(Concat(chunks));
    FrameBytesAppend(msgs, Frames(buf));
  }

  lemma {:induction false} FrameBytesAppend(a: seq<Bytes>, b: seq<Bytes>)
    ensures FrameBytes(a + b) == FrameBytes(a) + FrameBytes(b)
  {
    if a == [] {
      assert a + b == b;
    } else {
      FrameBytesAppend(a[1..], b);
      assert (a + b)[1..] == a[1..] + b;
    }
  }

  /** An empty frame in front of the reply stalls the handshake for good: unlike the read loop
      it never steps over one, so no later byte can complete it. */
  lemma {:induction false} EmptyFrameStallsHandshake(raw: Bytes, chunks: seq<Bytes>, tail: Bytes)
    requires NonEmptyChunks(chunks)
    requires raw + Concat(chunks) == Frame([]) + tail || raw + Concat(chunks) + tail == Frame([])
    ensures Greet(raw, Arrivals(chunks)) == (Waiting, [])
    decreases chunks
  {
    if chunks != [] {
      var c, unread := chunks[0], Concat(chunks[1..]);
      Assoc(raw, c, unread);
      ArrivalsTail(chunks);
      EmptyFrameUnread(raw + c, unread, tail);
      EmptyFrameStallsHandshake(raw + c, chunks[1..], tail);
    }
  }

  lemma EmptyFrameUnread(s: Bytes, more: Bytes, tail: Bytes)
    requires s + more == Frame([]) + tail || s + more + tail == Frame([])
    ensures ReadMsg(s).0 == []
  {
    FromBytesOfU32(0);
    if |s| >= 4 {
      var whole := if s + more == Frame([]) + tail then s + more else s + more + tail;
      assert s[..4] == whole[..4] == U32(0);
    }
  }
}
