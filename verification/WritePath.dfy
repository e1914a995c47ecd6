/** The connection as the write path sees it: the frames and the two flags of the stream. */
module WritePath {
  import opened Decimal
  import opened Wire

  datatype ConnState = Disconnected | Connecting | Connected

  /** `attached`: the connection object holds its writer; `closing`: the transport is closing,
      which is never undone. `wire` is what the transport took, `discarded` what was taken
      from the queue and lost, `accepted` all that was ever enqueued. */
  datatype Link = Link(state: ConnState, lost: bool, attached: bool, closing: bool,
                       queue: seq<Bytes>, wire: seq<Bytes>, discarded: seq<Bytes>, accepted: seq<Bytes>)

  const UNCONNECTED := Link(Disconnected, false, false, false, [], [], [], [])

  /** `AsyncConnection.isConnected` */
  predicate StreamOpen(l: Link) {
    l.attached && !l.closing
  }

  /** `EClient.isConnected` */
  predicate IsConnected(l: Link) {
    l.state == Connected && StreamOpen(l)
  }

  function Accept(l: Link, frame: Bytes): Link {
    if StreamOpen(l) then l.(queue := l.queue + [frame], accepted := l.accepted + [frame]) else l
  }

  /** Take the next frame and hand it to the writer. A closing transport drops it, and a write
      that raises loses it. */
  function WriteHead(l: Link, raises: bool): Link
    requires l.queue != []
  {
    if l.closing || raises then l.(queue := l.queue[1..], discarded := l.discarded + [l.queue[0]])
    else l.(queue := l.queue[1..], wire := l.wire + [l.queue[0]])
  }

  /** The flush on cancellation: write until the queue is empty or a write raises; `good` is
      the number of writes that would succeed. On a closing transport everything is dropped. */
  function Flush(l: Link, good: nat): Link {
    if l.closing then l.(queue := [], discarded := l.discarded + l.queue)
    else if good >= |l.queue| then l.(queue := [], wire := l.wire + l.queue)
    else l.(queue := l.queue[good + 1..], wire := l.wire + l.queue[..good],
            discarded := l.discarded + [l.queue[good]])
  }

  /** The caller of `disconnect` that gets past the guard. */
  function MarkDown(l: Link): Link {
    l.(state := Disconnected, lost := true)
  }

  /** `AsyncConnection.disconnect` up to its wait, if it has to wait, and the rest of it. */
  function CloseLink(l: Link): Link {
    if StreamOpen(l) then l.(closing := true) else Detach(l)
  }

  function Detach(l: Link): Link {
    l.(attached := false)
  }

  /** Nothing accepted is ever lost from sight, repeated or reordered. */
  predicate Conserved(l: Link) {
    l.accepted == l.wire + l.discarded + l.queue
  }

  lemma AcceptConserves(l: Link, frame: Bytes)
    requires Conserved(l)
    ensures Conserved(Accept(l, frame))
  {
    Assoc(l.wire + l.discarded, l.queue, [frame]);
  }

  /** As long as nothing has been discarded, or nothing is written any more, a write keeps the
      order. */
  lemma WriteConserves(l: Link, raises: bool)
    requires Conserved(l) && l.queue != [] && (l.discarded == [] || l.closing)
    ensures Conserved(WriteHead(l, raises))
  {
    var head, rest := [l.queue[0]], l.queue[1..];
    assert l.queue == head + rest;
    if l.closing || raises {
      Assoc(l.wire + l.discarded, head, rest);
      Assoc(l.wire, l.discarded, head);
    } else {
      assert l.wire + [] == l.wire && l.wire + head + [] == l.wire + head;
      Assoc(l.wire, head, rest);
    }
  }

  lemma SplitAround(w: seq<Bytes>, q: seq<Bytes>, k: nat)
    requires k < |q|
    ensures w + q == (w + q[..k]) + [q[k]] + q[k + 1..]
  {
    assert q == q[..k] + [q[k]] + q[k + 1..];
  }

  lemma FlushConserves(l: Link, good: nat)
    requires Conserved(l) && (l.discarded == [] || l.closing)
    ensures Conserved(Flush(l, good))
  {
    var m := Flush(l, good);
    if l.closing {
      Assoc(l.wire, l.discarded, l.queue);
      assert m.wire + m.discarded + [] == m.wire + m.discarded;
    } else {
      assert l.wire + [] == l.wire;
      if good < |l.queue| {
        SplitAround(l.wire, l.queue, good);
        assert [] + [l.queue[good]] == [l.queue[good]];
      } else {
        assert m.wire + [] + [] == m.wire;
      }
    }
  }

  /** What is on the wire is a prefix of what was accepted. */
  lemma WireIsPrefix(l: Link)
    requires Conserved(l)
    ensures l.wire <= l.accepted
  {
    Assoc(l.wire, l.discarded, l.queue);
  }

  // ----- the client's own fields

  class AsyncEClient {
    var connState: ConnState
    var connectionLost: bool
    var writerAttached: bool
    var writerClosing: bool
    var writeQueue: seq<Bytes>
    var written: seq<Bytes>
    ghost var discarded: seq<Bytes>
    ghost var accepted: seq<Bytes>

    ghost function State(): Link
      reads this
    {
      Link(connState, connectionLost, writerAttached, writerClosing, writeQueue, written, discarded, accepted)
    }

    constructor ()
      ensures State() == UNCONNECTED
    {
      connState, connectionLost, writerAttached, writerClosing := Disconnected, false, false, false;
      writeQueue, written, discarded, accepted := [], [], [], [];
    }

    /** `sendMsg` and `sendMsgProtoBuf`: an id that cannot be packed raises before anything is
        enqueued; without an open stream the frame is dropped. */
    method SendMsg(m: Outgoing, serverVersion: Option<int>) returns (raised: bool)
      modifies this
      ensures var version := if serverVersion.Some? then serverVersion.value else 0;
              && raised == MakeMsg(m, version).None?
              && State() == (if raised then old(State()) else Accept(old(State()), MakeMsg(m, version).value))
              && if !raised && writerAttached && !writerClosing
                 then writeQueue == old(writeQueue) + [MakeMsg(m, version).value]
                 else writeQueue == old(writeQueue)
    {
      var version := if serverVersion.Some? then serverVersion.value else 0;
      var frame := MakeMsg(m, version);
      raised := frame.None?;
      if !raised && writerAttached && !writerClosing {
        writeQueue := writeQueue + [frame.value];
        accepted := accepted + [frame.value];
      }
    }

    /** `AsyncConnection.sendMsg`: how many bytes were enqueued. */
    method Enqueue(frame: Bytes) returns (n: nat)
      modifies this
      ensures n == if StreamOpen(old(State())) then |frame| else 0
      ensures State() == Accept(old(State()), frame)
      ensures writeQueue == old(writeQueue) + if writerAttached && !writerClosing then [frame] else []
    {
      if !writerAttached || writerClosing {
        return 0;
      }
      writeQueue := writeQueue + [frame];
      accepted := accepted + [frame];
      n := |frame|;
    }

    /** One round of the write loop behind its `get`. */
    method WriteNext(raises: bool)
      requires writeQueue != []
      modifies this
      ensures State() == WriteHead(old(State()), raises)
      ensures writeQueue == old(writeQueue)[1..] && accepted == old(accepted)
      ensures !raises && !writerClosing ==>
                written == old(written) + [old(writeQueue)[0]] && discarded == old(discarded)
      ensures raises || writerClosing ==>
                written == old(written) && discarded == old(discarded) + [old(writeQueue)[0]]
    {
      var msg := writeQueue[0];
      writeQueue := writeQueue[1..];
      if !writerClosing && !raises {
        written := written + [msg];
      } else {
        discarded := discarded + [msg];
      }
    }

    /** The flush of the cancelled write loop. */
    method FlushRemaining(good: nat)
      modifies this
      ensures State() == Flush(old(State()), good)
      ensures writerClosing ==>
                && writeQueue == [] && written == old(written)
                && discarded == old(discarded) + old(writeQueue)
      ensures !writerClosing && good >= |old(writeQueue)| ==>
                && writeQueue == [] && written == old(written) + old(writeQueue)
                && discarded == old(discarded)
      ensures !writerClosing && good < |old(writeQueue)| ==>
                && writeQueue == old(writeQueue)[good + 1..]
                && written == old(written) + old(writeQueue)[..good]
                && discarded == old(discarded) + [old(writeQueue)[good]]
    {
      var n := 0;
      ghost var start := State();
      while writeQueue != []
        invariant n <= |start.queue| && writeQueue == start.queue[n..]
        invariant start.closing || n <= good
        invariant connState == start.state && connectionLost == start.lost
        invariant writerAttached == start.attached && writerClosing == start.closing && accepted == start.accepted
        invariant written == if start.closing then start.wire else start.wire + start.queue[..n]
        invariant discarded == if start.closing then start.discarded + start.queue[..n] else start.discarded
        decreases |writeQueue|
      {
        var msg := writeQueue[0];
        writeQueue := writeQueue[1..];
        assert start.queue[..n + 1] == start.queue[..n] + [msg];
        if !writerClosing {
          if n == good {
            discarded := discarded + [msg];
            return;
          }
          written := written + [msg];
          Assoc(start.wire, start.queue[..n], [msg]);
        } else {
          discarded := discarded + [msg];
          Assoc(start.discarded, start.queue[..n], [msg]);
        }
        n := n + 1;
      }
      assert start.queue[..n] == start.queue;
    }

    /** The guard of `disconnect`: only the first caller goes on to the teardown. */
    method EnterTeardown() returns (entered: bool)
      modifies this
      ensures entered == (old(connState) != Disconnected)
      ensures State() == if entered then MarkDown(old(State())) else old(State())
      ensures connState == Disconnected && (entered ==> connectionLost)
    {
      entered := connState != Disconnected;
      if entered {
        connState := Disconnected;
        connectionLost := true;
      }
    }

    /** `AsyncConnection.disconnect` up to its wait, and whether `connectionClosed` will follow. */
    method CloseStream() returns (fires: bool)
      modifies this
      ensures fires == StreamOpen(old(State()))
      ensures State() == CloseLink(old(State()))
      ensures fires ==> writerClosing
    {
      fires := writerAttached && !writerClosing;
      if fires {
        writerClosing := true;
      } else {
        writerAttached := false;
      }
    }

    /** The end of `AsyncConnection.disconnect`, behind its wait. */
    method DetachStream()
      modifies this
      ensures State() == Detach(old(State()))
      ensures !writerAttached
    {
      writerAttached := false;
    }
  }
}
