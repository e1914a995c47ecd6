/** The framing helpers of the `ibapi` library that the client calls, and what they promise
    one another. */
module Wire {
  import opened Decimal

  const U32_LIMIT := 0x1_0000_0000
  const NUL: byte := 0
  const PROTOBUF_MSG_ID := 200
  const MIN_SERVER_VER_PROTOBUF := 201
  const MAX_MSG_LEN := 0xFF_FFFF

  // ----- big-endian integers

  function U32(n: nat): (s: Bytes)
    requires n < U32_LIMIT
    ensures |s| == 4
  {
    [n / 0x100_0000, n / 0x1_0000 % 256, n / 256 % 256, n % 256]
  }

  /** Python's `int.from_bytes(s, "big")`, which accepts any length. */
  function FromBytes(s: Bytes): nat {
    if s == [] then 0 else 256 * FromBytes(s[..|s| - 1]) + s[|s| - 1]
  }

  lemma FromFourBytes(s: Bytes)
    requires |s| == 4
    ensures FromBytes(s) == 0x100_0000 * s[0] as int + 0x1_0000 * s[1] as int + 256 * s[2] as int + s[3]
  {
    assert s[..3][..2] == s[..2] && s[..2][..1] == s[..1];
    assert FromBytes(s[..1]) == s[0];
    assert FromBytes(s[..2]) == 256 * s[0] as int + s[1];
    assert FromBytes(s[..3]) == 256 * FromBytes(s[..2]) + s[2];
  }

  lemma SplitU32(n: nat)
    requires n < U32_LIMIT
    ensures 0x100_0000 * (n / 0x100_0000) + 0x1_0000 * (n / 0x1_0000 % 256) + 256 * (n / 256 % 256) + n % 256 == n
  {
    assert n / 0x1_0000 == n / 256 / 256 && n / 0x100_0000 == n / 0x1_0000 / 256;
  }

  lemma FromBytesOfU32(n: nat)
    requires n < U32_LIMIT
    ensures FromBytes(U32(n)) == n
  {
    FromFourBytes(U32(n));
    SplitU32(n);
  }

  // ----- frames

  /** A length prefix followed by that many bytes. */
  function Frame(payload: Bytes): Bytes
    requires |payload| < U32_LIMIT
  {
    U32(|payload|) + payload
  }

  /** The first four bytes announce a payload that is all there. */
  predicate Complete(buf: Bytes) {
    |buf| >= 4 && |buf| - 4 >= FromBytes(buf[..4])
  }

  function Payload(buf: Bytes): (p: Bytes)
    requires Complete(buf)
  {
    buf[4..4 + FromBytes(buf[..4])]
  }

  function Rest(buf: Bytes): (r: Bytes)
    requires Complete(buf)
    ensures |r| < |buf|
  {
    buf[4 + FromBytes(buf[..4])..]
  }

  /** `comm.read_msg`: the next payload and what follows it, or no payload and `buf` itself. */
  function ReadMsg(buf: Bytes): (r: (Bytes, Bytes)) {
    if Complete(buf) then (Payload(buf), Rest(buf)) else ([], buf)
  }

  lemma ReadMsgOfFrame(p: Bytes, rest: Bytes)
    requires |p| < U32_LIMIT
    ensures Complete(Frame(p) + rest)
    ensures Payload(Frame(p) + rest) == p && Rest(Frame(p) + rest) == rest
  {
    var s := Frame(p) + rest;
    FromBytesOfU32(|p|);
    assert s[..4] == U32(|p|);
  }

  /** More bytes never change the frame that is already complete. */
  lemma CompleteIsStable(buf: Bytes, more: Bytes)
    requires Complete(buf)
    ensures Complete(buf + more)
    ensures Payload(buf + more) == Payload(buf) && Rest(buf + more) == Rest(buf) + more
  {
    assert (buf + more)[..4] == buf[..4];
  }

  // ----- NUL-terminated fields

  predicate NulFree(f: Bytes) {
    0 !in f
  }

  /** The text EClient's request methods build: every field followed by a NUL. */
  function JoinFields(fields: seq<Bytes>): Bytes {
    if fields == [] then [] else fields[0] + [NUL] + JoinFields(fields[1..])
  }

  /** The position of the first NUL, or the length when there is none. */
  function NulIndex(s: Bytes): (k: nat)
    ensures k <= |s| && (forall i | 0 <= i < k :: s[i] != NUL) && (k < |s| ==> s[k] == NUL)
  {
    if s == [] || s[0] == NUL then 0 else 1 + NulIndex(s[1..])
  }

  /** `comm.read_fields`: split at every NUL and drop what follows the last one. */
  function ReadFields(s: Bytes): seq<Bytes>
    decreases |s|
  {
    var k := NulIndex(s);
    if k == |s| then [] else [s[..k]] + ReadFields(s[k + 1..])
  }

  lemma NulIndexOfField(f: Bytes, rest: Bytes)
    requires NulFree(f)
    ensures NulIndex(f + [NUL] + rest) == |f|
  {
    var s := f + [NUL] + rest;
    assert s[|f|] == NUL;
    assert forall i | 0 <= i < |f| :: s[i] == f[i];
  }

  function NulCount(s: Bytes): nat {
    if s == [] then 0 else (if s[0] == NUL then 1 else 0) + NulCount(s[1..])
  }

  lemma {:induction false} NulCountConcat(s: Bytes, t: Bytes)
    ensures NulCount(s + t) == NulCount(s) + NulCount(t)
  {
    if s == [] {
      assert s + t == t;
    } else {
      NulCountConcat(s[1..], t);
      assert (s + t)[1..] == s[1..] + t;
    }
  }

  lemma {:induction false} NulCountFree(s: Bytes)
    ensures NulFree(s) <==> NulCount(s) == 0
  {
    if s != [] {
      NulCountFree(s[1..]);
      assert s == [s[0]] + s[1..];
    }
  }

  lemma {:induction false} ReadFieldsCount(s: Bytes)
    ensures |ReadFields(s)| == NulCount(s)
    decreases |s|
  {
    var k := NulIndex(s);
    NulCountFree(s[..k]);
    if k == |s| {
      assert s[..k] == s;
    } else {
      var tail := s[k..];
      ReadFieldsCount(s[k + 1..]);
      assert tail[1..] == s[k + 1..];
      assert s == s[..k] + tail;
      NulCountConcat(s[..k], tail);
    }
  }

  predicate AllNulFree(fields: seq<Bytes>) {
    forall f | f in fields :: NulFree(f)
  }

  lemma {:induction false} ReadBackNulFree(fields: seq<Bytes>)
    requires AllNulFree(fields)
    ensures ReadFields(JoinFields(fields)) == fields
  {
    if fields != [] {
      var s := JoinFields(fields);
      NulIndexOfField(fields[0], JoinFields(fields[1..]));
      assert s[..|fields[0]|] == fields[0];
      assert s[|fields[0]| + 1..] == JoinFields(fields[1..]);
      ReadBackNulFree(fields[1..]);
    }
  }

  lemma {:induction false} JoinCountsNuls(fields: seq<Bytes>)
    ensures NulCount(JoinFields(fields)) >= |fields|
    ensures NulCount(JoinFields(fields)) == |fields| ==> AllNulFree(fields)
  {
    if fields != [] {
      var tail := [NUL] + JoinFields(fields[1..]);
      assert JoinFields(fields) == fields[0] + tail;
      assert tail[1..] == JoinFields(fields[1..]);
      NulCountConcat(fields[0], tail);
      NulCountFree(fields[0]);
      JoinCountsNuls(fields[1..]);
      assert fields == [fields[0]] + fields[1..];
    }
  }

  /** Fields survive joining and splitting exactly when none of them holds a NUL. */
  lemma FieldsRoundTrip(fields: seq<Bytes>)
    ensures ReadFields(JoinFields(fields)) == fields <==> AllNulFree(fields)
  {
    if AllNulFree(fields) {
      ReadBackNulFree(fields);
    } else {
      JoinCountsNuls(fields);
      ReadFieldsCount(JoinFields(fields));
    }
  }

  /** Text behind the last NUL is no field. */
  lemma {:induction false} TrailingTextIsDropped(fields: seq<Bytes>, tail: Bytes)
    requires AllNulFree(fields) && NulFree(tail)
    ensures ReadFields(JoinFields(fields) + tail) == fields
  {
    var s := JoinFields(fields) + tail;
    if fields == [] {
      assert s == tail;
    } else {
      var rest := JoinFields(fields[1..]) + tail;
      assert s == fields[0] + [NUL] + rest;
      NulIndexOfField(fields[0], rest);
      assert s[..|fields[0]|] == fields[0] && s[|fields[0]| + 1..] == rest;
      TrailingTextIsDropped(fields[1..], tail);
    }
  }

  // ----- outgoing messages

  /** A request as the client's callers make it: `sendMsg(id, fields)` or
      `sendMsgProtoBuf(id, body)`. */
  datatype Outgoing =
    | Legacy(id: int, fields: seq<Bytes>)
    | Proto(id: int, body: Bytes)

  /** The id and body that go behind the length prefix; `None` when the id does not fit the
      four bytes it is written in. */
  function PayloadOf(m: Outgoing, version: int): Option<Bytes> {
    match m
    case Legacy(id, fields) =>
      if version < MIN_SERVER_VER_PROTOBUF then Some(Render(id) + [NUL] + JoinFields(fields))
      else if 0 <= id < U32_LIMIT then Some(U32(id) + JoinFields(fields))
      else None
    case Proto(id, body) =>
      if 0 <= id + PROTOBUF_MSG_ID < U32_LIMIT then Some(U32(id + PROTOBUF_MSG_ID) + body)
      else None
  }

  /** `comm.make_msg` and `comm.make_msg_proto`; `None` stands for the packing error. */
  function MakeMsg(m: Outgoing, version: int): Option<Bytes> {
    match PayloadOf(m, version)
    case None => None
    case Some(p) => if |p| < U32_LIMIT then Some(Frame(p)) else None
  }
}
