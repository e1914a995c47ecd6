/** How the read loop cuts a byte stream into messages, and what that does not depend on. */
module Framing {
  import opened Decimal
  import opened Wire

  // ----- the reference: a whole stream parsed at once

  /** The payloads of all complete frames of `s`, except the empty ones. */
  ghost function Frames(s: Bytes): seq<Bytes>
    decreases |s|
  {
    if !Complete(s) then []
    else (if Payload(s) == [] then [] else [Payload(s)]) + Frames(Rest(s))
  }

  /** What is left of `s` behind its last complete frame. */
  ghost function Residual(s: Bytes): Bytes
    decreases |s|
  {
    if Complete(s) then Residual(Rest(s)) else s
  }

  // ----- the read loop

  /** The inner loop: it stops at an incomplete frame, and also right behind an empty one. */
  ghost function Extract(buf: Bytes): (seq<Bytes>, Bytes)
    decreases |buf|
  {
    if !Complete(buf) then ([], buf)
    else if Payload(buf) == [] then ([], Rest(buf))
    else
      var (msgs, rest) := Extract(Rest(buf));
      ([Payload(buf)] + msgs, rest)
  }

  /** The outer loop: every chunk is appended to the buffer and the inner loop runs. */
  ghost function Feed(buf: Bytes, chunks: seq<Bytes>): (seq<Bytes>, Bytes)
    decreases chunks
  {
    if chunks == [] then ([], buf)
    else
      var (now, rest) := Extract(buf + chunks[0]);
      var (later, end) := Feed(rest, chunks[1..]);
      (now + later, end)
  }

  function Concat(chunks: seq<Bytes>): Bytes {
    if chunks == [] then [] else chunks[0] + Concat(chunks[1..])
  }

  /** `read` never returns an empty chunk before EOF. */
  predicate NonEmptyChunks(chunks: seq<Bytes>) {
    forall i | 0 <= i < |chunks| :: chunks[i] != []
  }

  // ----- conservation

  lemma {:induction false} ExtractConserves(buf: Bytes, more: Bytes)
    ensures Frames(buf + more) == Extract(buf).0 + Frames(Extract(buf).1 + more)
    ensures Residual(buf + more) == Residual(Extract(buf).1 + more)
    decreases |buf|
  {
    if Complete(buf) {
      CompleteIsStable(buf, more);
      if Payload(buf) != [] { ExtractConserves(Rest(buf), more); }
    }
  }

  /** At every outer loop head the messages dispatched so far, followed by the frames still in
      the buffer, are the frames of everything received: empty frames may delay a message but
      never lose, repeat or reorder one. `more` is whatever the server sends later. */
  lemma {:induction false} FeedConserves(buf: Bytes, chunks: seq<Bytes>, more: Bytes)
    ensures Frames(buf + Concat(chunks) + more) == Feed(buf, chunks).0 + Frames(Feed(buf, chunks).1 + more)
    ensures Residual(buf + Concat(chunks) + more) == Residual(Feed(buf, chunks).1 + more)
    decreases chunks
  {
    if chunks == [] {
      assert buf + Concat(chunks) + more == buf + more;
    } else {
      var (now, rest) := Extract(buf + chunks[0]);
      var unread := Concat(chunks[1..]);
      Assoc(buf, chunks[0], unread);
      Assoc(buf + chunks[0], unread, more);
      ExtractConserves(buf + chunks[0], unread + more);
      Assoc(rest, unread, more);
      FeedConserves(rest, chunks[1..], more);
      var (later, end) := Feed(rest, chunks[1..]);
      Assoc(now, later, Frames(end + more));
    }
  }

  // ----- independence of the chunking

  /** No complete frame of `s` comes after an empty one. */
  ghost predicate NothingAfterEmpty(s: Bytes)
    decreases |s|
  {
    Complete(s) ==>
      if Payload(s) == [] then !Complete(Rest(s)) else NothingAfterEmpty(Rest(s))
  }

  lemma {:induction false} ExtractSettles(buf: Bytes, more: Bytes)
    requires NothingAfterEmpty(buf + more)
    ensures !Complete(Extract(buf).1)
    ensures NothingAfterEmpty(Extract(buf).1 + more)
    decreases |buf|
  {
    if Complete(buf) {
      CompleteIsStable(buf, more);
      if Payload(buf) != [] {
        ExtractSettles(Rest(buf), more);
      } else if Complete(Rest(buf)) {
        CompleteIsStable(Rest(buf), more);
        assert false;
      }
    }
  }

  lemma {:induction false} FeedSettles(buf: Bytes, chunks: seq<Bytes>)
    requires !Complete(buf) && NothingAfterEmpty(buf + Concat(chunks))
    ensures !Complete(Feed(buf, chunks).1)
    decreases chunks
  {
    if chunks != [] {
      assert buf + Concat(chunks) == (buf + chunks[0]) + Concat(chunks[1..]);
      ExtractSettles(buf + chunks[0], Concat(chunks[1..]));
      FeedSettles(Extract(buf + chunks[0]).1, chunks[1..]);
    }
  }

  ghost predicate IsChunking(chunks: seq<Bytes>, s: Bytes) {
    Concat(chunks) == s && NonEmptyChunks(chunks)
  }

  lemma {:induction false} ExtractStopsEarly(s: Bytes)
    requires !NothingAfterEmpty(s)
    ensures Extract(s).1 != Residual(s)
    decreases |s|
  {
    if Payload(s) == [] {
      ResidualIncomplete(s);
    } else {
      ExtractStopsEarly(Rest(s));
    }
  }

  lemma {:induction false} ResidualIncomplete(s: Bytes)
    ensures !Complete(Residual(s))
    decreases |s|
  {
    if Complete(s) { ResidualIncomplete(Rest(s)); }
  }

  /** Every way of cutting `s` into chunks dispatches exactly the frames of `s` and leaves
      exactly its residual in the buffer. */
  ghost predicate ChunkingIndependent(s: Bytes) {
    forall chunks | IsChunking(chunks, s) :: Feed([], chunks) == (Frames(s), Residual(s))
  }

  /** The read loop is independent of the chunking on exactly those streams in which no
      complete frame follows an empty one. */
  lemma ChunkingTheorem(s: Bytes)
    ensures ChunkingIndependent(s) <==> NothingAfterEmpty(s)
  {
    if NothingAfterEmpty(s) {
      forall chunks | IsChunking(chunks, s)
        ensures Feed([], chunks) == (Frames(s), Residual(s))
      {
        assert [] + Concat(chunks) == s;
        FeedSettles([], chunks);
        var (msgs, buf) := Feed([], chunks);
        FeedConserves([], chunks, []);
        assert [] + Concat(chunks) + [] == s && buf + [] == buf;
        assert msgs + Frames(buf) == msgs;
      }
    } else {
      ExtractStopsEarly(s);
      assert Concat([s]) == s + Concat([s][1..]) == s;
      assert IsChunking([s], s);
      assert [] + s == s;
      var rest := Extract(s).1;
      assert [s][1..] == [];
      assert Feed(rest, []) == ([], rest);
      assert Feed([], [s]).1 == rest;
    }
  }

  ghost predicate AllFramesNonEmpty(s: Bytes)
    decreases |s|
  {
    Complete(s) ==> Payload(s) != [] && AllFramesNonEmpty(Rest(s))
  }

  lemma {:induction false} NonEmptyFramesSettle(s: Bytes)
    requires AllFramesNonEmpty(s)
    ensures NothingAfterEmpty(s)
    decreases |s|
  {
    if Complete(s) { NonEmptyFramesSettle(Rest(s)); }
  }

  /** In particular any two chunkings of a stream of non-empty frames agree. */
  lemma ChunkingsAgree(a: seq<Bytes>, b: seq<Bytes>)
    requires Concat(a) == Concat(b) && AllFramesNonEmpty(Concat(a))
    requires NonEmptyChunks(a) && NonEmptyChunks(b)
    ensures Feed([], a) == Feed([], b) == (Frames(Concat(a)), Residual(Concat(a)))
  {
    NonEmptyFramesSettle(Concat(a));
    ChunkingTheorem(Concat(a));
    assert IsChunking(a, Concat(a)) && IsChunking(b, Concat(a));
  }

  // ----- streams made of frames

  ghost function Stream(payloads: seq<Bytes>): Bytes
    requires forall p | p in payloads :: |p| < U32_LIMIT
  {
    if payloads == [] then [] else Frame(payloads[0]) + Stream(payloads[1..])
  }

  lemma FramesOfFrame(p: Bytes, rest: Bytes)
    requires 0 < |p| < U32_LIMIT
    ensures Frames(Frame(p) + rest) == [p] + Frames(rest)
    ensures Residual(Frame(p) + rest) == Residual(rest)
    ensures AllFramesNonEmpty(rest) ==> AllFramesNonEmpty(Frame(p) + rest)
  {
    ReadMsgOfFrame(p, rest);
  }

  lemma StreamHead(p: Bytes, others: seq<Bytes>, tail: Bytes)
    requires 0 < |p| < U32_LIMIT && forall q | q in others :: 0 < |q| < U32_LIMIT
    ensures Stream([p] + others) + tail == Frame(p) + (Stream(others) + tail)
  {
    assert ([p] + others)[1..] == others;
    Assoc(Frame(p), Stream(others), tail);
  }

  lemma {:induction false} FramesOfStream(payloads: seq<Bytes>, tail: Bytes)
    requires forall p | p in payloads :: 0 < |p| < U32_LIMIT
    ensures Frames(Stream(payloads) + tail) == payloads + Frames(tail)
    ensures Residual(Stream(payloads) + tail) == Residual(tail)
    ensures AllFramesNonEmpty(tail) ==> AllFramesNonEmpty(Stream(payloads) + tail)
  {
    if payloads == [] {
      assert Stream(payloads) + tail == tail;
      assert payloads + Frames(tail) == Frames(tail);
    } else {
      var p, others := payloads[0], payloads[1..];
      assert payloads == [p] + others;
      FramesOfStream(others, tail);
      StreamHead(p, others, tail);
      FramesOfFrame(p, Stream(others) + tail);
      Assoc([p], others, Frames(tail));
    }
  }
}
