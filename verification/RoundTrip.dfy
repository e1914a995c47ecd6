/** From `sendMsg` on one side to the decoder on the other. */
module RoundTrip {
  import opened Decimal
  import opened Wire
  import opened Framing
  import opened Dispatch

  /** The decoder call a request stands for. */
  function Expected(m: Outgoing): Call {
    match m
    case Legacy(id, fields) => Interpret(fields, id)
    case Proto(id, body) => ProcessProtoBuf(body, id)
  }

  /** Conditions a sender can check before sending. */
  predicate WellSent(m: Outgoing, version: int)
    requires PayloadOf(m, version).Some?
  {
    && |PayloadOf(m, version).value| <= 0xFF_FFFF
    && match m
       case Legacy(id, fields) => id <= 200 && AllNulFree(fields)
       case Proto(id, _) => version >= 201 && id > 0
  }

  // Which requests raise instead.

  function FieldBytes(fields: seq<Bytes>): nat {
    if fields == [] then 0 else |fields[0]| + 1 + FieldBytes(fields[1..])
  }

  lemma {:induction false} JoinedLength(fields: seq<Bytes>)
    ensures |JoinFields(fields)| == FieldBytes(fields)
  {
    if fields != [] { JoinedLength(fields[1..]); }
  }

  /** A request raises exactly when its id does not fit the four bytes it is written in, or the
      message does not fit its length prefix. */
  lemma RaisesIff(m: Outgoing, version: int)
    ensures MakeMsg(m, version).None? <==>
            match m
            case Legacy(id, fields) =>
              if version < 201 then |Render(id)| + 1 + FieldBytes(fields) >= 0x1_0000_0000
              else !(0 <= id < 0x1_0000_0000) || 4 + FieldBytes(fields) >= 0x1_0000_0000
            case Proto(id, body) => !(0 <= id + 200 < 0x1_0000_0000) || 4 + |body| >= 0x1_0000_0000
  {
    if m.Legacy? { JoinedLength(m.fields); }
  }

  lemma ClassifyAscii(id: int, body: Bytes, version: int)
    requires version < MIN_SERVER_VER_PROTOBUF
    requires |Render(id) + [NUL] + body| <= MAX_MSG_LEN
    ensures Classify(Render(id) + [NUL] + body, version) == Some(Route(id, body))
  {
    var s := Render(id) + [NUL] + body;
    NulIndexOfField(Render(id), body);
    assert s[..|Render(id)|] == Render(id) && s[|Render(id)| + 1..] == body;
    ParseIntOfRender(id);
  }

  lemma ClassifyRaw(id: nat, body: Bytes, version: int)
    requires version >= MIN_SERVER_VER_PROTOBUF && id < U32_LIMIT
    requires |U32(id) + body| <= MAX_MSG_LEN
    ensures Classify(U32(id) + body, version) == Some(Route(id, body))
  {
    var s := U32(id) + body;
    assert s[..4] == U32(id) && s[4..] == body;
    FromBytesOfU32(id);
  }

  /** A four-byte id read as text never names the request it was sent for. */
  lemma ProtoLostOnOldServers(id: int, body: Bytes, version: int)
    requires version < MIN_SERVER_VER_PROTOBUF && 0 <= id + PROTOBUF_MSG_ID < U32_LIMIT
    ensures Classify(U32(id + PROTOBUF_MSG_ID) + body, version) != Some(ProcessProtoBuf(body, id))
  {
    var n := id + PROTOBUF_MSG_ID;
    var s := U32(n) + body;
    var k := NulIndex(s);
    assert s[0] == n / 0x100_0000;
    if s[0] == NUL {
      assert ParseInt(s[..0]) == None;
    } else if k == 3 {
      if ParseInt(s[..3]).Some? {
        ParseIntBound(s[..3]);
        ThreeDigits();
      }
    } else if k < |s| {
      assert |s[k + 1..]| != |body|;
    }
  }

  lemma ThreeDigits()
    ensures Pow10(3) == 1000
  {
    assert Pow10(1) == 10 && Pow10(2) == 100;
  }

  /** One message reaches the decoder as what was sent exactly when it is well sent. */
  lemma DeliveredIff(m: Outgoing, version: int)
    requires PayloadOf(m, version).Some?
    ensures Classify(PayloadOf(m, version).value, version) == Some(Expected(m)) <==> WellSent(m, version)
  {
    var p := PayloadOf(m, version).value;
    if |p| <= MAX_MSG_LEN {
      match m {
        case Legacy(id, fields) =>
          FieldsRoundTrip(fields);
          if version < MIN_SERVER_VER_PROTOBUF {
            ClassifyAscii(id, JoinFields(fields), version);
          } else {
            ClassifyRaw(id, JoinFields(fields), version);
          }
        case Proto(id, body) =>
          if version < MIN_SERVER_VER_PROTOBUF {
            ProtoLostOnOldServers(id, body, version);
          } else {
            ClassifyRaw(id + PROTOBUF_MSG_ID, body, version);
          }
      }
    }
  }

  // ----- whole conversations

  predicate Sendable(ms: seq<Outgoing>, version: int) {
    forall i | 0 <= i < |ms| :: MakeMsg(ms[i], version).Some?
  }

  ghost function Payloads(ms: seq<Outgoing>, version: int): (ps: seq<Bytes>)
    requires Sendable(ms, version)
    ensures |ps| == |ms| && forall p | p in ps :: 0 < |p| < U32_LIMIT
  {
    if ms == [] then [] else [PayloadOf(ms[0], version).value] + Payloads(ms[1..], version)
  }

  /** The bytes `sendMsg` puts on the wire. */
  function Sent(ms: seq<Outgoing>, version: int): Bytes
    requires Sendable(ms, version)
  {
    if ms == [] then [] else MakeMsg(ms[0], version).value + Sent(ms[1..], version)
  }

  function AllExpected(ms: seq<Outgoing>): (calls: seq<Call>)
    ensures |calls| == |ms|
  {
    if ms == [] then [] else [Expected(ms[0])] + AllExpected(ms[1..])
  }

  predicate AllWellSent(ms: seq<Outgoing>, version: int)
    requires Sendable(ms, version)
  {
    forall i | 0 <= i < |ms| :: WellSent(ms[i], version)
  }

  lemma {:induction false} SentIsStream(ms: seq<Outgoing>, version: int)
    requires Sendable(ms, version)
    ensures Sent(ms, version) == Stream(Payloads(ms, version))
  {
    if ms != [] {
      SentIsStream(ms[1..], version);
      assert Payloads(ms, version)[1..] == Payloads(ms[1..], version);
    }
  }

  lemma {:induction false} CallsCount(msgs: seq<Bytes>, version: int)
    ensures |Calls(msgs, version)| <= |msgs|
  {
    if msgs != [] { CallsCount(msgs[1..], version); }
  }

  lemma {:induction false} CallsOfPayloads(ms: seq<Outgoing>, version: int)
    requires Sendable(ms, version)
    ensures Calls(Payloads(ms, version), version) == AllExpected(ms) <==> AllWellSent(ms, version)
  {
    if ms != [] {
      DeliveredIff(ms[0], version);
      CallsOfPayloads(ms[1..], version);
      CallsHead(PayloadOf(ms[0], version).value, Payloads(ms[1..], version),
                Expected(ms[0]), AllExpected(ms[1..]), version);
      WellSentHead(ms, version);
    }
  }

  lemma WellSentHead(ms: seq<Outgoing>, version: int)
    requires Sendable(ms, version) && ms != []
    ensures AllWellSent(ms, version) <==> WellSent(ms[0], version) && AllWellSent(ms[1..], version)
  {
    assert forall i | 0 < i < |ms| :: ms[i] == ms[1..][i - 1];
  }

  lemma CallsHead(p: Bytes, ps: seq<Bytes>, call: Call, calls: seq<Call>, version: int)
    requires |ps| == |calls|
    ensures Calls([p] + ps, version) == [call] + calls
            <==> Classify(p, version) == Some(call) && Calls(ps, version) == calls
  {
    CallsCount(ps, version);
    assert ([p] + ps)[1..] == ps;
    if Calls([p] + ps, version) == [call] + calls {
      assert Calls([p] + ps, version)[1..] == calls;
    }
  }

  /** However the sent bytes are cut, and whatever timeouts fall between the pieces, the
      decoder is called with exactly the requests that were sent, in order and through the
      right entry points, if and only if every request was well sent; nothing stays behind. */
  lemma WireRoundTrip(ms: seq<Outgoing>, version: int, turns: seq<Turn>)
    requires Sendable(ms, version)
    requires Concat(ChunksOf(turns)) == Sent(ms, version)
    ensures Calls(Reading([], turns).msgs, version) == AllExpected(ms) <==> AllWellSent(ms, version)
    ensures Reading([], turns).buf == []
  {
    var ps, chunks := Payloads(ms, version), ChunksOf(turns);
    SentIsStream(ms, version);
    FramesOfStream(ps, []);
    assert Stream(ps) + [] == Stream(ps) && ps + [] == ps;
    ReadingIsFeed([], turns);
    ChunkingsAgree(chunks, chunks);
    CallsOfPayloads(ms, version);
  }
}
