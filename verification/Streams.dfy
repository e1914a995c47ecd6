/** Streams: their life cycle, and the agreement of `stream_historical_data` with
    `get_historical_data`. */
module Streams {
  import opened Decimal
  import opened ClientState
  import opened Engine
  import opened Request
  import opened Refinement
  import opened Outcomes

  // ----- the life of a stream

  /** Everything the callbacks of a trace put on the queue, in order. */
  function AllDelivered(t: seq<Step>): seq<Item> {
    if t == [] then []
    else AllDelivered(t[..|t| - 1]) + if t[|t| - 1].Call? then Delivered(t[|t| - 1].cb) else []
  }

  /** What closed the stream was taken from the queue right behind the consumed items. */
  predicate EndsOn(ending: Ending, delivered: seq<Item>, n: nat) {
    match ending
    case WithError(err) => n < |delivered| && delivered[n] == Failure(err)
    case WithException => n < |delivered| && delivered[n] == OtherException
    case AtEnd => n < |delivered| && delivered[n] == End
    case _ => true
  }

  /** No error, no exception and, for a historical stream, no end among them. */
  predicate Consumable(kind: StreamKind, items: seq<Item>) {
    forall i | 0 <= i < |items| :: Passes(kind, items[i])
  }

  /** A stream ends only as its kind can: a live one never by timeout, and by the end of the
      data only a historical one. */
  predicate CanEnd(kind: StreamKind, ending: Ending) {
    (ending == AfterTimeout ==> kind != Live) && (ending == AtEnd ==> kind == Historical)
  }

  /** `before` is the number of cancel requests already issued for the id. */
  ghost predicate StreamState(l: Local, t: seq<Step>, kind: StreamKind, before: nat) {
    match l
    case LStreaming(k, queue, got, _, cancels) =>
      k == kind && got + queue == AllDelivered(t) && Consumable(kind, got) && cancels == before
    case LClosed(k, got, ending, cancels) =>
      && k == kind && got <= AllDelivered(t) && Consumable(kind, got) && CanEnd(kind, ending)
      && EndsOn(ending, AllDelivered(t), |got|)
      && cancels == if ending.WithError? then before else before + 1
    case _ => false
  }

  lemma DeliveredAppend(t: seq<Step>, s: Step)
    ensures AllDelivered(t + [s]) == AllDelivered(t) + if s.Call? then Delivered(s.cb) else []
  {
    assert (t + [s])[..|t|] == t;
  }

  lemma TakeKeeps(l: Local, t: seq<Step>, kind: StreamKind, before: nat)
    requires StreamState(l, t, kind, before) && l.LStreaming? && l.queue != []
    ensures StreamState(LTake(l), t, kind, before)
  {
    var item := l.queue[0];
    var all := AllDelivered(t);
    assert all[|l.got|] == item && all[..|l.got|] == l.got;
    assert l.got + [item] + l.queue[1..] == l.got + l.queue;
  }

  lemma CloseKeeps(l: Local, t: seq<Step>, kind: StreamKind, before: nat, ending: Ending)
    requires StreamState(l, t, kind, before) && l.LStreaming?
    requires (ending.AfterTimeout? && kind != Live) || ending.Abandoned?
    ensures StreamState(LClose(l, ending), t, kind, before)
  {
    assert AllDelivered(t)[..|l.got|] == l.got;
  }

  lemma StreamStateStep(l: Local, t: seq<Step>, s: Step, kind: StreamKind, before: nat)
    requires StreamState(l, t, kind, before) && LEnabled(l, s)
    ensures StreamState(LApply(l, s), t + [s], kind, before)
  {
    DeliveredAppend(t, s);
    var all := AllDelivered(t);
    assert all + [] == all;
    match s {
      case Call(cb) =>
        if l.LStreaming? { Assoc(l.got, l.queue, Delivered(cb)); }
      case Take(_) =>
        TakeKeeps(l, t, kind, before);
        SameDelivered(LTake(l), t, s, kind, before);
      case StreamTimeout(_) =>
        CloseKeeps(l, t, kind, before, AfterTimeout);
        SameDelivered(LClose(l, AfterTimeout), t, s, kind, before);
      case Abandon(_) =>
        CloseKeeps(l, t, kind, before, Abandoned);
        SameDelivered(LClose(l, Abandoned), t, s, kind, before);
      case _ =>
    }
  }

  lemma SameDelivered(l: Local, t: seq<Step>, s: Step, kind: StreamKind, before: nat)
    requires StreamState(l, t, kind, before) && !s.Call?
    ensures StreamState(l, t + [s], kind, before)
  {
    DeliveredAppend(t, s);
    assert AllDelivered(t) + [] == AllDelivered(t);
  }

  lemma {:induction false} StreamLocal(t: seq<Step>, kind: StreamKind, before: nat)
    requires LCanRun(Subscribed(kind, before), t)
    ensures StreamState(LRun(Subscribed(kind, before), t), t, kind, before)
    decreases t
  {
    if t != [] {
      var a, s := t[..|t| - 1], t[|t| - 1];
      assert t == a + [s];
      LRunAppend(Subscribed(kind, before), a, s);
      StreamLocal(a, kind, before);
      StreamStateStep(LRun(Subscribed(kind, before), a), a, s, kind, before);
    }
  }

  /** For every kind of stream and every interleaving: the items consumed are an in-order
      prefix of those delivered for its own id since it subscribed; while it runs no cancel is
      issued; once it has ended, by end, error, exception, timeout or early close, its queue
      is unregistered and a cancel was issued exactly once, or never when a TWSError was
      consumed. */
  lemma StreamLifeCycle(w: World, req: int, kind: StreamKind, steps: seq<Step>)
    requires Inv(w) && Enabled(w, BeginStream(req, kind))
    requires CanRun(Apply(w, BeginStream(req, kind)), steps) && BeginsNothing(steps, req)
    ensures var v := Run(Apply(w, BeginStream(req, kind)), steps);
            && StreamState(View(v, req), Project(steps, req), kind, w.c.cancels[req])
            && (req in v.c.queues <==> View(v, req).LStreaming?)
  {
    var begin := BeginStream(req, kind);
    InvStep(w, begin);
    BeginStreamView(w, req, kind);
    InvRun(Apply(w, begin), steps);
    RunRefines(Apply(w, begin), steps, req);
    StreamLocal(Project(steps, req), kind, w.c.cancels[req]);
  }

  /** Taking an item from the queue: an error closes the stream with itself and no cancel, any
      other exception and the end of historical data close it with a cancel, and everything
      else is handed to the consumer. */
  lemma TakeLaw(w: World, req: int)
    requires Inv(w) && Enabled(w, Take(req))
    ensures var v, a, q := Apply(w, Take(req)), w.acts[req], w.c.queues[req];
            match q[0]
            case Failure(err) => v.acts[req] == Closed(a.kind, a.got, WithError(err)) && v.c.cancels == w.c.cancels
            case OtherException =>
              v.acts[req] == Closed(a.kind, a.got, WithException) && v.c.cancels == w.c.cancels + multiset{req}
            case _ =>
              if q[0] == End && a.kind == Historical then
                v.acts[req] == Closed(a.kind, a.got, AtEnd) && v.c.cancels == w.c.cancels + multiset{req}
              else
                && v.acts[req].Streaming? && v.acts[req].kind == a.kind && v.acts[req].got == a.got + [q[0]]
                && req in v.c.queues && v.c.queues[req] == q[1..] && v.c.cancels == w.c.cancels
  {
  }

  /** What a stream can do next, over every run: it can take an item if and only if one was
      delivered that it has not consumed and its consumer has asked; it can always be closed
      early; it can time out if and only if it waits and is not a live one. */
  lemma StreamCanGoOn(w: World, req: int, kind: StreamKind, steps: seq<Step>)
    requires Inv(w) && Enabled(w, BeginStream(req, kind))
    requires CanRun(Apply(w, BeginStream(req, kind)), steps) && BeginsNothing(steps, req)
    ensures var v := Run(Apply(w, BeginStream(req, kind)), steps);
            IsStreaming(v, req) ==>
              && (Enabled(v, Take(req)) <==>
                  !v.acts[req].atYield && |v.acts[req].got| < |AllDelivered(Project(steps, req))|)
              && (Enabled(v, AskNext(req)) <==> v.acts[req].atYield)
              && Enabled(v, Abandon(req))
              && (Enabled(v, StreamTimeout(req)) <==> !v.acts[req].atYield && kind != Live)
  {
    StreamLifeCycle(w, req, kind, steps);
    var v := Run(Apply(w, BeginStream(req, kind)), steps);
    if IsStreaming(v, req) {
      StreamingView(v, req);
      var l, all := View(v, req), AllDelivered(Project(steps, req));
      assert |l.got + l.queue| == |all|;
    }
  }

  lemma StreamingView(v: World, req: int)
    requires IsStreaming(v, req)
    ensures var l := View(v, req); l.LStreaming? && l.got == v.acts[req].got && l.kind == v.acts[req].kind
    ensures req in v.c.queues ==> View(v, req).queue == v.c.queues[req]
  {
  }

  /** The end of a historical stream drops the accumulator of its request, and of no other. */
  lemma ClosingDropsAccumulator(w: World, s: Step)
    requires Inv(w) && Enabled(w, s) && IsStreaming(w, ReqOf(s)) && !s.Call? && !IsStreaming(Apply(w, s), ReqOf(s))
    ensures Apply(w, s).c.accumulators ==
            if w.acts[ReqOf(s)].kind == Historical then w.c.accumulators - {Slot(HistoricalData, ReqOf(s))}
            else w.c.accumulators
  {
    match s {
      case Take(req) => TakeDrops(w, req);
      case StreamTimeout(req) => CloseDrops(w, req, AfterTimeout);
      case Abandon(req) => CloseDrops(w, req, Abandoned);
      case _ =>
    }
  }

  lemma CloseDrops(w: World, req: int, ending: Ending)
    requires IsStreaming(w, req)
    ensures Close(w, req, ending).c.accumulators ==
            if w.acts[req].kind == Historical then w.c.accumulators - {Slot(HistoricalData, req)}
            else w.c.accumulators
  {
  }

  lemma TakeDrops(w: World, req: int)
    requires Enabled(w, Take(req)) && !IsStreaming(Apply(w, Take(req)), req)
    ensures Apply(w, Take(req)).c.accumulators ==
            if w.acts[req].kind == Historical then w.c.accumulators - {Slot(HistoricalData, req)}
            else w.c.accumulators
  {
    var rest := w.(c := w.c.(queues := w.c.queues[req := w.c.queues[req][1..]]));
    match EndingOf(w.acts[req].kind, w.c.queues[req][0]) {
      case Some(ending) => CloseDrops(rest, req, ending);
      case None =>
    }
  }

  // ----- every callback is delivered exactly once

  /** The items one callback is worth. */
  predicate Worth(cb: Callback, items: seq<Item>) {
    match cb
    case Pushed(_, x) => items == [Row(x)]
    case Items(slot, xs) =>
      if slot.name == HistoricalData then |items| == |xs| && forall i | 0 <= i < |xs| :: items[i] == Row(xs[i])
      else items == []
    case Ended(slot) => items == if slot.name == HistoricalData then [End] else []
    case ErrorAt(err) => items == if Informational(err.code) then [] else [Failure(err)]
    case Completed(_, _) => items == []
  }

  /** In what a trace delivers, the `k`th step has its place, behind everything delivered
      before it and in front of everything after it, and there it is what its callback is
      worth; steps that are no callbacks deliver nothing. */
  lemma DeliveredOnce(t: seq<Step>, k: nat)
    requires k < |t|
    ensures var before, upto, all := AllDelivered(t[..k]), AllDelivered(t[..k + 1]), AllDelivered(t);
            && before <= upto <= all
            && if t[k].Call? then Worth(t[k].cb, upto[|before|..]) else upto == before
  {
    assert t[..k + 1] == t[..k] + [t[k]];
    DeliveredAppend(t[..k], t[k]);
    assert AllDelivered(t[..k]) + [] == AllDelivered(t[..k]);
    DeliveredPrefix(t, k + 1);
    if t[k].Call? {
      assert AllDelivered(t[..k + 1])[|AllDelivered(t[..k])|..] == Delivered(t[k].cb);
    }
  }

  lemma {:induction false} DeliveredPrefix(t: seq<Step>, k: nat)
    requires k <= |t|
    ensures AllDelivered(t[..k]) <= AllDelivered(t)
    decreases |t| - k
  {
    if k == |t| {
      assert t[..k] == t;
    } else {
      assert t[..k + 1] == t[..k] + [t[k]];
      DeliveredAppend(t[..k], t[k]);
      DeliveredPrefix(t, k + 1);
    }
  }

  // ----- batch and stream

  predicate Bar(cb: Callback) {
    cb.Items? && cb.slot.name == HistoricalData
  }

  predicate Terminal(cb: Callback) {
    (cb.Ended? && cb.slot.name == HistoricalData) || (cb.ErrorAt? && !Informational(cb.err.code))
  }

  /** Callbacks that neither the batch request nor the stream reacts to. */
  predicate Silent(cb: Callback) {
    match cb
    case Completed(slot, _) => slot.name != HistoricalData
    case Items(slot, _) => slot.name != HistoricalData
    case Ended(slot) => slot.name != HistoricalData
    case ErrorAt(err) => Informational(err.code)
    case Pushed(_, _) => false
  }

  function CallbacksOf(t: seq<Step>): seq<Callback> {
    if t == [] then []
    else CallbacksOf(t[..|t| - 1]) + if t[|t| - 1].Call? then [t[|t| - 1].cb] else []
  }

  /** All bars of a trace, in order. */
  function Bars(cbs: seq<Callback>): seq<int> {
    if cbs == [] then []
    else Bars(cbs[..|cbs| - 1]) + if Bar(cbs[|cbs| - 1]) then cbs[|cbs| - 1].items else []
  }

  predicate HasBar(cbs: seq<Callback>) {
    exists i :: 0 <= i < |cbs| && Bar(cbs[i])
  }

  /** The callback at `k` is the only terminal one; when `k` is behind the trace there is none. */
  predicate SoleTerminal(cbs: seq<Callback>, k: nat) {
    && k <= |cbs| && (k < |cbs| ==> Terminal(cbs[k]))
    && forall i | 0 <= i < |cbs| && i != k :: Bar(cbs[i]) || Silent(cbs[i])
  }

  /** A bar that brings something comes behind an end that itself comes behind a bar. */
  predicate LateBar(cbs: seq<Callback>, k: nat) {
    && k < |cbs| && cbs[k].Ended? && HasBar(cbs[..k])
    && exists j :: k < j < |cbs| && BringsBar(cbs[j])
  }

  predicate BringsBar(cb: Callback) {
    Bar(cb) && cb.items != []
  }

  /** What the batch request answers when it resumes behind the first `m` callbacks: it holds
      the list itself if there was one when the end came, and a new empty list otherwise. */
  function BatchAnswer(cbs: seq<Callback>, k: nat, m: nat): Outcome
    requires k < m <= |cbs|
  {
    match cbs[k]
    case ErrorAt(err) => Raised(err)
    case _ => Response(Many(if HasBar(cbs[..k]) then Bars(cbs[..m]) else []))
  }

  function StreamResult(cbs: seq<Callback>, k: nat): Ending
    requires k < |cbs|
  {
    match cbs[k]
    case ErrorAt(err) => WithError(err)
    case _ => AtEnd
  }

  lemma CallbacksAppend(t: seq<Step>, s: Step)
    ensures CallbacksOf(t + [s]) == CallbacksOf(t) + if s.Call? then [s.cb] else []
  {
    assert (t + [s])[..|t|] == t;
  }

  lemma PrefixTrace(cbs: seq<Callback>, n: nat)
    requires n < |cbs|
    ensures cbs[..n + 1] == cbs[..n] + [cbs[n]]
    ensures Bars(cbs[..n + 1]) == Bars(cbs[..n]) + if Bar(cbs[n]) then cbs[n].items else []
    ensures HasBar(cbs[..n + 1]) <==> HasBar(cbs[..n]) || Bar(cbs[n])
  {
    var c := cbs[..n + 1];
    assert c[..n] == cbs[..n] && c[n] == cbs[n];
    if HasBar(cbs[..n]) {
      var i :| 0 <= i < n && Bar(cbs[..n][i]);
      assert Bar(c[i]);
    }
  }

  // The batch request.

  predicate Answered(outcome: Outcome, cbs: seq<Callback>, k: nat, n: nat) {
    exists m :: k < m <= n && m <= |cbs| && outcome == BatchAnswer(cbs, k, m)
  }

  /** The batch request behind the first `n` callbacks of the trace. */
  ghost predicate BatchState(l: Local, cbs: seq<Callback>, k: nat, n: nat)
    requires n <= |cbs|
  {
    match l
    case LWaiting(name, okSet, errSet, okDone, errDone, timer, val, live, err, acc) =>
      && name == HistoricalData && !timer && (okDone ==> okSet) && (errDone ==> errSet)
      && acc == (if HasBar(cbs[..n]) then Some(Bars(cbs[..n])) else None)
      && (okSet <==> k < n && cbs[k].Ended?) && (errSet <==> k < n && cbs[k].ErrorAt?)
      && (live <==> okSet && HasBar(cbs[..k]))
      && (okSet ==> Response(val) == BatchAnswer(cbs, k, n))
      && (errSet ==> Raised(err) == BatchAnswer(cbs, k, n))
    case LReturned(outcome) => Answered(outcome, cbs, k, n)
    case _ => false
  }

  lemma NoBarsYet(cbs: seq<Callback>, n: nat)
    requires n <= |cbs| && !HasBar(cbs[..n])
    ensures Bars(cbs[..n]) == []
  {
    if n > 0 {
      PrefixTrace(cbs, n - 1);
      NoBarsYet(cbs, n - 1);
    }
  }

  lemma BatchTerminal(l: Local, cbs: seq<Callback>, k: nat)
    requires SoleTerminal(cbs, k) && k < |cbs| && BatchState(l, cbs, k, k) && l.LWaiting?
    ensures BatchState(LApply(l, Call(cbs[k])), cbs, k, k + 1)
  {
    PrefixTrace(cbs, k);
    assert Bars(cbs[..k]) + [] == Bars(cbs[..k]);
    if !HasBar(cbs[..k]) { NoBarsYet(cbs, k); }
  }

  lemma BatchBar(l: Local, cbs: seq<Callback>, k: nat, n: nat)
    requires SoleTerminal(cbs, k) && n < |cbs| && n != k && BatchState(l, cbs, k, n) && l.LWaiting? && Bar(cbs[n])
    ensures BatchState(LApply(l, Call(cbs[n])), cbs, k, n + 1)
  {
    PrefixTrace(cbs, n);
    if !HasBar(cbs[..n]) { NoBarsYet(cbs, n); }
    if k < n { BarSooner(cbs, k, n); }
  }

  lemma BarSooner(cbs: seq<Callback>, k: nat, n: nat)
    requires k <= n <= |cbs|
    ensures HasBar(cbs[..k]) ==> HasBar(cbs[..n])
  {
    if HasBar(cbs[..k]) {
      var i :| 0 <= i < k && Bar(cbs[..k][i]);
      assert Bar(cbs[..n][i]);
    }
  }

  lemma BatchSilent(l: Local, cbs: seq<Callback>, k: nat, n: nat)
    requires SoleTerminal(cbs, k) && n < |cbs| && n != k && BatchState(l, cbs, k, n) && l.LWaiting? && Silent(cbs[n])
    ensures BatchState(LApply(l, Call(cbs[n])), cbs, k, n + 1)
  {
    PrefixTrace(cbs, n);
    assert Bars(cbs[..n]) + [] == Bars(cbs[..n]);
  }

  lemma BatchCallback(l: Local, cbs: seq<Callback>, k: nat, n: nat)
    requires SoleTerminal(cbs, k) && n < |cbs| && BatchState(l, cbs, k, n)
    ensures BatchState(LApply(l, Call(cbs[n])), cbs, k, n + 1)
  {
    if l.LWaiting? {
      if n == k { BatchTerminal(l, cbs, k); }
      else if Bar(cbs[n]) { BatchBar(l, cbs, k, n); }
      else { BatchSilent(l, cbs, k, n); }
    }
  }

  lemma BatchOther(l: Local, cbs: seq<Callback>, k: nat, n: nat, s: Step)
    requires n <= |cbs| && BatchState(l, cbs, k, n) && LEnabled(l, s) && !s.Call? && !s.Timer?
    ensures BatchState(LApply(l, s), cbs, k, n)
  {
    if s.Resume? { assert LAnswer(l) == BatchAnswer(cbs, k, n); }
  }

  predicate NoTimeouts(t: seq<Step>) {
    forall i | 0 <= i < |t| :: !t[i].Timer? && !t[i].StreamTimeout? && !t[i].Abandon?
  }

  lemma {:induction false} BatchRun(t: seq<Step>, req: int, cbs: seq<Callback>, k: nat)
    requires LCanRun(Fresh(HistoricalData, req, None), t) && NoTimeouts(t)
    requires SoleTerminal(cbs, k) && CallbacksOf(t) <= cbs
    ensures BatchState(LRun(Fresh(HistoricalData, req, None), t), cbs, k, |CallbacksOf(t)|)
    decreases t
  {
    if t == [] {
      assert cbs[..0] == [];
    } else {
      var a, s, l := t[..|t| - 1], t[|t| - 1], Fresh(HistoricalData, req, None);
      assert t == a + [s];
      assert forall i | 0 <= i < |a| :: a[i] == t[i];
      LRunAppend(l, a, s);
      CallbacksAppend(a, s);
      BatchRun(a, req, cbs, k);
      if s.Call? {
        BatchCallback(LRun(l, a), cbs, k, |CallbacksOf(a)|);
      } else {
        BatchOther(LRun(l, a), cbs, k, |CallbacksOf(a)|, s);
      }
    }
  }

  // The stream.

  /** Everything a trace puts on the queue. */
  function SentOf(cbs: seq<Callback>): seq<Item> {
    if cbs == [] then [] else SentOf(cbs[..|cbs| - 1]) + Delivered(cbs[|cbs| - 1])
  }

  lemma SentAppend(cbs: seq<Callback>, cb: Callback)
    ensures SentOf(cbs + [cb]) == SentOf(cbs) + Delivered(cb)
  {
    assert (cbs + [cb])[..|cbs|] == cbs;
  }

  lemma {:induction false} DeliveredIsSent(t: seq<Step>)
    ensures AllDelivered(t) == SentOf(CallbacksOf(t))
  {
    if t != [] {
      var a, s := t[..|t| - 1], t[|t| - 1];
      assert t == a + [s];
      CallbacksAppend(a, s);
      DeliveredAppend(a, s);
      DeliveredIsSent(a);
      if s.Call? {
        SentAppend(CallbacksOf(a), s.cb);
      } else {
        assert CallbacksOf(a) + [] == CallbacksOf(a) && AllDelivered(a) + [] == AllDelivered(a);
      }
    }
  }

  lemma {:induction false} SentPrefix(cbs: seq<Callback>, n: nat)
    requires n <= |cbs|
    ensures SentOf(cbs[..n]) <= SentOf(cbs)
    decreases |cbs| - n
  {
    if n == |cbs| {
      assert cbs[..n] == cbs;
    } else {
      PrefixTrace(cbs, n);
      SentAppend(cbs[..n], cbs[n]);
      SentPrefix(cbs, n + 1);
    }
  }

  lemma {:induction false} SentBars(cbs: seq<Callback>, k: nat, n: nat)
    requires SoleTerminal(cbs, k) && n <= k
    ensures SentOf(cbs[..n]) == Rows(Bars(cbs[..n]))
  {
    if n > 0 {
      var m := n - 1;
      SentBars(cbs, k, m);
      PrefixTrace(cbs, m);
      SentAppend(cbs[..m], cbs[m]);
      DeliveredBar(Bars(cbs[..m]), cbs[m]);
    }
  }

  lemma DeliveredBar(bars: seq<int>, cb: Callback)
    requires Bar(cb) || Silent(cb)
    ensures Rows(bars) + Delivered(cb) == Rows(bars + if Bar(cb) then cb.items else [])
  {
    if Bar(cb) {
      assert Rows(bars + cb.items) == Rows(bars) + Rows(cb.items);
    } else {
      assert bars + [] == bars && Rows(bars) + [] == Rows(bars);
    }
  }

  /** What the terminal callback puts on the queue. */
  function TerminalItem(cb: Callback): Item {
    match cb
    case ErrorAt(err) => Failure(err)
    case _ => End
  }

  lemma SentAtTerminal(cbs: seq<Callback>, k: nat)
    requires SoleTerminal(cbs, k) && k < |cbs|
    ensures SentOf(cbs[..k + 1]) == Rows(Bars(cbs[..k])) + [TerminalItem(cbs[k])]
  {
    SentBars(cbs, k, k);
    PrefixTrace(cbs, k);
    SentAppend(cbs[..k], cbs[k]);
  }

  /** The queue starts with the bars up to the terminal callback, and what that one puts there. */
  lemma SentUpToTerminal(cbs: seq<Callback>, k: nat)
    requires SoleTerminal(cbs, k)
    ensures k == |cbs| ==> SentOf(cbs) == Rows(Bars(cbs))
    ensures k < |cbs| ==> Rows(Bars(cbs[..k])) + [TerminalItem(cbs[k])] <= SentOf(cbs)
  {
    if k == |cbs| {
      assert cbs[..k] == cbs;
      SentBars(cbs, k, k);
    } else {
      SentAtTerminal(cbs, k);
      SentPrefix(cbs, k + 1);
    }
  }

  predicate FromQueue(ending: Ending) {
    !ending.AfterTimeout? && !ending.Abandoned?
  }

  lemma {:induction false} ClosedFromQueue(t: seq<Step>, before: nat)
    requires LCanRun(Subscribed(Historical, before), t) && NoTimeouts(t)
    ensures var l := LRun(Subscribed(Historical, before), t);
            l.LStreaming? || (l.LClosed? && FromQueue(l.ending))
    decreases t
  {
    if t != [] {
      var a, s := t[..|t| - 1], t[|t| - 1];
      assert t == a + [s];
      assert forall i | 0 <= i < |a| :: a[i] == t[i];
      LRunAppend(Subscribed(Historical, before), a, s);
      ClosedFromQueue(a, before);
    }
  }

  /** A historical stream that ended by itself yielded every bar in front of the terminal
      callback and stopped there. */
  lemma StreamRun(t: seq<Step>, before: nat, k: nat)
    requires LCanRun(Subscribed(Historical, before), t) && NoTimeouts(t) && SoleTerminal(CallbacksOf(t), k)
    ensures var l, cbs := LRun(Subscribed(Historical, before), t), CallbacksOf(t);
            l.LClosed? ==> k < |cbs| && l.got == Rows(Bars(cbs[..k])) && l.ending == StreamResult(cbs, k)
  {
    var l, cbs := LRun(Subscribed(Historical, before), t), CallbacksOf(t);
    StreamLocal(t, Historical, before);
    ClosedFromQueue(t, before);
    DeliveredIsSent(t);
    if l.LClosed? {
      GotUpToTerminal(cbs, k, l.got, l.ending);
    }
  }

  lemma EndsBehind(got: seq<Item>, all: seq<Item>, n: nat)
    requires got <= all && Consumable(Historical, got) && n < |all| && EndingOf(Historical, all[n]).Some?
    ensures |got| <= n
  {
    assert forall i | 0 <= i < |got| :: all[i] == got[i];
  }

  lemma GotIsRows(got: seq<Item>, all: seq<Item>, bars: seq<int>, last: Item, ending: Ending)
    requires got <= all && Consumable(Historical, got) && EndsOn(ending, all, |got|) && FromQueue(ending)
    requires Rows(bars) + [last] <= all && EndingOf(Historical, last).Some?
    ensures got == Rows(bars) && EndsOn(ending, Rows(bars) + [last], |bars|)
  {
    var front := Rows(bars) + [last];
    assert forall i | 0 <= i < |front| :: all[i] == front[i];
    EndsBehind(got, all, |bars|);
    assert got == all[..|bars|] == front[..|bars|] == Rows(bars);
  }

  lemma GotUpToTerminal(cbs: seq<Callback>, k: nat, got: seq<Item>, ending: Ending)
    requires SoleTerminal(cbs, k) && got <= SentOf(cbs) && Consumable(Historical, got)
    requires EndsOn(ending, SentOf(cbs), |got|) && FromQueue(ending)
    ensures k < |cbs| && got == Rows(Bars(cbs[..k])) && ending == StreamResult(cbs, k)
  {
    SentUpToTerminal(cbs, k);
    if k < |cbs| {
      GotIsRows(got, SentOf(cbs), Bars(cbs[..k]), TerminalItem(cbs[k]), ending);
    }
  }

  // ----- the two requests over the engine

  ghost predicate BatchRuns(w: World, req: int, steps: seq<Step>, cbs: seq<Callback>) {
    var begin := BeginWait(req, HistoricalData, true);
    && Inv(w) && Enabled(w, begin) && CanRun(Apply(w, begin), steps)
    && BeginsNothing(steps, req) && NoTimeouts(Project(steps, req)) && CallbacksOf(Project(steps, req)) == cbs
  }

  ghost predicate StreamRuns(w: World, req: int, steps: seq<Step>, cbs: seq<Callback>) {
    var begin := BeginStream(req, Historical);
    && Inv(w) && Enabled(w, begin) && CanRun(Apply(w, begin), steps)
    && BeginsNothing(steps, req) && NoTimeouts(Project(steps, req)) && CallbacksOf(Project(steps, req)) == cbs
  }

  /** The batch request has returned. */
  ghost predicate BatchReturns(w: World, req: int, steps: seq<Step>, cbs: seq<Callback>, outcome: Outcome) {
    && BatchRuns(w, req, steps, cbs)
    && var v := Run(Apply(w, BeginWait(req, HistoricalData, true)), steps);
       req in v.acts && v.acts[req] == Returned(outcome)
  }

  /** The stream has ended. */
  ghost predicate StreamCloses(
    w: World, req: int, steps: seq<Step>, cbs: seq<Callback>, got: seq<Item>, ending: Ending)
  {
    && StreamRuns(w, req, steps, cbs)
    && var v := Run(Apply(w, BeginStream(req, Historical)), steps);
       req in v.acts && v.acts[req] == Closed(Historical, got, ending)
  }

  lemma BatchOutcome(w: World, req: int, steps: seq<Step>, cbs: seq<Callback>, k: nat, outcome: Outcome)
    requires BatchReturns(w, req, steps, cbs, outcome) && SoleTerminal(cbs, k)
    ensures Answered(outcome, cbs, k, |cbs|)
  {
    var begin := BeginWait(req, HistoricalData, true);
    InvStep(w, begin);
    BeginWaitView(w, req, HistoricalData, true);
    RunRefines(Apply(w, begin), steps, req);
    BatchRun(Project(steps, req), req, cbs, k);
  }

  lemma StreamOutcome(w: World, req: int, steps: seq<Step>, cbs: seq<Callback>, k: nat, got: seq<Item>, ending: Ending)
    requires StreamCloses(w, req, steps, cbs, got, ending) && SoleTerminal(cbs, k)
    ensures k < |cbs| && got == Rows(Bars(cbs[..k])) && ending == StreamResult(cbs, k)
  {
    var begin := BeginStream(req, Historical);
    InvStep(w, begin);
    BeginStreamView(w, req, Historical);
    RunRefines(Apply(w, begin), steps, req);
    StreamRun(Project(steps, req), w.c.cancels[req], k);
  }

  /** Either the batch returned exactly the bars the stream yielded, or both raised the same
      TWSError. */
  predicate Agree(outcome: Outcome, got: seq<Item>, ending: Ending) {
    match outcome
    case Response(content) => content.Many? && got == Rows(content.items) && ending == AtEnd
    case Raised(err) => ending == WithError(err)
    case TimedOut => false
  }

  lemma {:induction false} BarsStay(cbs: seq<Callback>, k: nat, m: nat)
    requires k <= m <= |cbs|
    ensures |Bars(cbs[..k])| <= |Bars(cbs[..m])|
    ensures Bars(cbs[..m]) == Bars(cbs[..k]) <==> forall j | k <= j < m :: !BringsBar(cbs[j])
    decreases m
  {
    if k < m {
      PrefixTrace(cbs, m - 1);
      BarsStay(cbs, k, m - 1);
      assert Bars(cbs[..m - 1]) + [] == Bars(cbs[..m - 1]);
    }
  }

  lemma AnswersAgree(cbs: seq<Callback>, k: nat, m: nat)
    requires SoleTerminal(cbs, k) && k < m <= |cbs|
    ensures !LateBar(cbs, k) ==> Agree(BatchAnswer(cbs, k, m), Rows(Bars(cbs[..k])), StreamResult(cbs, k))
    ensures LateBar(cbs, k) ==> !Agree(BatchAnswer(cbs, k, |cbs|), Rows(Bars(cbs[..k])), StreamResult(cbs, k))
  {
    if !HasBar(cbs[..k]) {
      NoBarsYet(cbs, k);
    } else {
      BarsStay(cbs, k, m);
      BarsStay(cbs, k, |cbs|);
      if LateBar(cbs, k) { RowsInjective(Bars(cbs[..k]), Bars(cbs[..|cbs|])); }
    }
  }

  lemma RowsInjective(a: seq<int>, b: seq<int>)
    ensures Rows(a) == Rows(b) <==> a == b
  {
    if Rows(a) == Rows(b) {
      assert |a| == |b|;
      assert forall i | 0 <= i < |a| :: Rows(a)[i] == Row(a[i]) && Rows(b)[i] == Row(b[i]);
    }
  }

  /** Let the same callbacks, with one terminal among them, reach a batch request in one run
      and a stream in another, each amid any other requests and under any scheduling without
      timeouts. When both are done and no bar came too late, either the batch returned exactly
      the bars the stream yielded, or both raised the same TWSError, and the stream had
      yielded every bar in front of the terminal callback first. */
  lemma BatchEqualsStream(w1: World, steps1: seq<Step>, outcome: Outcome,
                          w2: World, steps2: seq<Step>, got: seq<Item>, ending: Ending,
                          req: int, cbs: seq<Callback>, k: nat)
    requires BatchReturns(w1, req, steps1, cbs, outcome) && StreamCloses(w2, req, steps2, cbs, got, ending)
    requires SoleTerminal(cbs, k) && !LateBar(cbs, k)
    ensures Agree(outcome, got, ending)
    ensures k < |cbs| && got == Rows(Bars(cbs[..k]))
  {
    BatchOutcome(w1, req, steps1, cbs, k, outcome);
    StreamOutcome(w2, req, steps2, cbs, k, got, ending);
    var m :| k < m <= |cbs| && outcome == BatchAnswer(cbs, k, m);
    AnswersAgree(cbs, k, m);
  }

  // ----- runs in which both finish

  function Calls(cbs: seq<Callback>): (t: seq<Step>)
    ensures |t| == |cbs| && forall i | 0 <= i < |t| :: t[i] == Call(cbs[i])
  {
    seq(|cbs|, i requires 0 <= i < |cbs| => Call(cbs[i]))
  }

  /** Callbacks for `req` that the server can make. */
  predicate OwnCalls(cbs: seq<Callback>, req: int) {
    Own(Calls(cbs), req)
  }

  /** Steps that neither call back nor let time pass. */
  predicate Internal(t: seq<Step>) {
    NoTimeouts(t) && forall i | 0 <= i < |t| :: !t[i].Call?
  }

  lemma CallsAppend(cbs: seq<Callback>, cb: Callback)
    ensures Calls(cbs + [cb]) == Calls(cbs) + [Call(cb)]
  {
  }

  lemma {:induction false} CallbacksOfCalls(cbs: seq<Callback>)
    ensures CallbacksOf(Calls(cbs)) == cbs
  {
    if cbs != [] {
      var before, cb := cbs[..|cbs| - 1], cbs[|cbs| - 1];
      assert cbs == before + [cb];
      CallbacksOfCalls(before);
      CallsAppend(before, cb);
      CallbacksAppend(Calls(before), Call(cb));
    }
  }

  lemma {:induction false} CallsThen(cbs: seq<Callback>, finish: seq<Step>)
    requires Internal(finish)
    ensures CallbacksOf(Calls(cbs) + finish) == cbs
    decreases finish
  {
    if finish == [] {
      CallbacksOfCalls(cbs);
      assert Calls(cbs) + finish == Calls(cbs);
    } else {
      var before, s := finish[..|finish| - 1], finish[|finish| - 1];
      CallsThen(cbs, before);
      assert Calls(cbs) + finish == (Calls(cbs) + before) + [s];
      CallbacksAppend(Calls(cbs) + before, s);
      assert cbs + [] == cbs;
    }
  }

  lemma {:induction false} CallsRun(l: Local, cbs: seq<Callback>)
    ensures LCanRun(l, Calls(cbs))
    ensures var k := LRun(l, Calls(cbs));
            && (l.LWaiting? ==> k.LWaiting?)
            && (l.LStreaming? ==> k == l.(queue := l.queue + SentOf(cbs)))
    decreases |cbs|
  {
    if cbs == [] {
      assert l.LStreaming? ==> l.queue + [] == l.queue;
    } else {
      var before, cb := cbs[..|cbs| - 1], cbs[|cbs| - 1];
      assert cbs == before + [cb];
      CallsRun(l, before);
      CallsAppend(before, cb);
      LRunOneMore(l, Calls(before), Call(cb));
      CallStep(l, LRun(l, Calls(before)), before, cb);
    }
  }

  lemma CallStep(l: Local, k: Local, before: seq<Callback>, cb: Callback)
    requires (l.LWaiting? ==> k.LWaiting?) && (l.LStreaming? ==> k == l.(queue := l.queue + SentOf(before)))
    ensures l.LWaiting? ==> LApply(k, Call(cb)).LWaiting?
    ensures l.LStreaming? ==> LApply(k, Call(cb)) == l.(queue := l.queue + SentOf(before + [cb]))
  {
    SentAppend(before, cb);
    if l.LStreaming? { Assoc(l.queue, SentOf(before), Delivered(cb)); }
  }

  lemma {:induction false} LRunOneMore(l: Local, a: seq<Step>, s: Step)
    requires LCanRun(l, a) && LEnabled(LRun(l, a), s)
    ensures LCanRun(l, a + [s]) && LRun(l, a + [s]) == LApply(LRun(l, a), s)
    decreases a
  {
    if a == [] {
      assert [] + [s] == [s] && [s][1..] == [];
    } else {
      LRunOneMore(LApply(l, a[0]), a[1..], s);
      assert (a + [s])[1..] == a[1..] + [s];
    }
  }

  lemma BatchAfterCalls(req: int, cbs: seq<Callback>, k: nat)
    requires SoleTerminal(cbs, k) && k < |cbs|
    ensures var l := Fresh(HistoricalData, req, None);
            LCanRun(l, Calls(cbs)) && LRun(l, Calls(cbs)).LWaiting? && BatchState(LRun(l, Calls(cbs)), cbs, k, |cbs|)
  {
    CallsRun(Fresh(HistoricalData, req, None), cbs);
    CallbacksOfCalls(cbs);
    BatchRun(Calls(cbs), req, cbs, k);
  }

  function TaskFor(req: int, cb: Callback): Step {
    if cb.Ended? then OkTask(req) else ErrTask(req)
  }

  lemma BatchResumes(l: Local, req: int, cbs: seq<Callback>, k: nat)
    requires SoleTerminal(cbs, k) && k < |cbs| && l.LWaiting? && BatchState(l, cbs, k, |cbs|)
    ensures LEnabled(l, TaskFor(req, cbs[k])) && LEnabled(LApply(l, TaskFor(req, cbs[k])), Resume(req))
    ensures LApply(LApply(l, TaskFor(req, cbs[k])), Resume(req)) == LReturned(BatchAnswer(cbs, k, |cbs|))
  {
  }

  /** After the terminal callback a batch request can always finish, with all the bars. */
  lemma BatchCanFinish(req: int, cbs: seq<Callback>, k: nat) returns (steps: seq<Step>)
    requires OwnCalls(cbs, req) && SoleTerminal(cbs, k) && k < |cbs|
    ensures BatchReturns(INITIAL, req, steps, cbs, BatchAnswer(cbs, k, |cbs|))
  {
    var l, calls, task := Fresh(HistoricalData, req, None), Calls(cbs), TaskFor(req, cbs[k]);
    BatchAfterCalls(req, cbs, k);
    BatchResumes(LRun(l, calls), req, cbs, k);
    LRunOneMore(l, calls, task);
    LRunOneMore(l, calls + [task], Resume(req));
    steps := calls + [task] + [Resume(req)];
    FinishedTrace(req, cbs, task);
    BatchRealised(req, steps);
    ReturnedView(Run(Apply(INITIAL, BeginWait(req, HistoricalData, true)), steps), req);
  }

  lemma FinishedTrace(req: int, cbs: seq<Callback>, task: Step)
    requires OwnCalls(cbs, req) && (task == OkTask(req) || task == ErrTask(req))
    ensures var steps := Calls(cbs) + [task] + [Resume(req)];
            CallbacksOf(steps) == cbs && Own(steps, req) && NoTimeouts(steps)
  {
    var finish := [task] + [Resume(req)];
    CallsThen(cbs, finish);
    assert Calls(cbs) + [task] + [Resume(req)] == Calls(cbs) + finish;
  }

  lemma ReturnedView(v: World, req: int)
    requires View(v, req).LReturned?
    ensures req in v.acts && v.acts[req] == Returned(View(v, req).outcome)
  {
  }

  lemma BatchRealised(req: int, t: seq<Step>)
    requires LCanRun(Fresh(HistoricalData, req, None), t) && Own(t, req) && NoTimeouts(t)
    ensures BatchRuns(INITIAL, req, t, CallbacksOf(t))
    ensures View(Run(Apply(INITIAL, BeginWait(req, HistoricalData, true)), t), req) ==
            LRun(Fresh(HistoricalData, req, None), t)
  {
    var begin := BeginWait(req, HistoricalData, true);
    InvInitial();
    InvStep(INITIAL, begin);
    BeginWaitView(INITIAL, req, HistoricalData, true);
    Realised(Apply(INITIAL, begin), t, req);
  }

  lemma StreamRealised(req: int, t: seq<Step>)
    requires LCanRun(Subscribed(Historical, 0), t) && Own(t, req) && NoTimeouts(t)
    ensures StreamRuns(INITIAL, req, t, CallbacksOf(t))
    ensures View(Run(Apply(INITIAL, BeginStream(req, Historical)), t), req) == LRun(Subscribed(Historical, 0), t)
  {
    var begin := BeginStream(req, Historical);
    InvInitial();
    InvStep(INITIAL, begin);
    BeginStreamView(INITIAL, req, Historical);
    Realised(Apply(INITIAL, begin), t, req);
  }

  /** A consumer that keeps asking reaches the first item that ends the stream. */
  lemma {:induction false} Drains(l: Local, a: seq<Step>, req: int, n: nat, start: Local) returns (finish: seq<Step>)
    requires LCanRun(start, a) && LRun(start, a) == l
    requires l.LStreaming? && !l.atYield && l.kind == Historical
    requires n < |l.queue| && EndingOf(Historical, l.queue[n]).Some?
    ensures Internal(finish) && Own(finish, req)
    ensures LCanRun(start, a + finish) && LRun(start, a + finish).LClosed?
    decreases n
  {
    LRunOneMore(start, a, Take(req));
    var b := LTake(l);
    if b.LClosed? {
      finish := [Take(req)];
    } else {
      LRunOneMore(start, a + [Take(req)], AskNext(req));
      var rest := Drains(LApply(b, AskNext(req)), a + [Take(req)] + [AskNext(req)], req, n - 1, start);
      finish := [Take(req)] + [AskNext(req)] + rest;
      assert a + [Take(req)] + [AskNext(req)] + rest == a + finish;
    }
  }

  lemma TerminalPosition(cbs: seq<Callback>, k: nat)
    requires SoleTerminal(cbs, k) && k < |cbs|
    ensures var n := |Bars(cbs[..k])|; n < |SentOf(cbs)| && EndingOf(Historical, SentOf(cbs)[n]).Some?
  {
    SentUpToTerminal(cbs, k);
    var rows := Rows(Bars(cbs[..k]));
    assert (rows + [TerminalItem(cbs[k])])[|rows|] == SentOf(cbs)[|rows|];
  }

  lemma StreamFinish(req: int, cbs: seq<Callback>, k: nat) returns (finish: seq<Step>)
    requires SoleTerminal(cbs, k) && k < |cbs|
    ensures Internal(finish) && Own(finish, req)
    ensures LCanRun(Subscribed(Historical, 0), Calls(cbs) + finish)
    ensures LRun(Subscribed(Historical, 0), Calls(cbs) + finish).LClosed?
  {
    var l := Subscribed(Historical, 0);
    CallsRun(l, cbs);
    TerminalPosition(cbs, k);
    assert [] + SentOf(cbs) == SentOf(cbs);
    finish := Drains(LRun(l, Calls(cbs)), Calls(cbs), req, |Bars(cbs[..k])|, l);
  }

  /** And so can a stream. */
  lemma StreamCanFinish(req: int, cbs: seq<Callback>, k: nat) returns (steps: seq<Step>)
    requires OwnCalls(cbs, req) && SoleTerminal(cbs, k) && k < |cbs|
    ensures StreamCloses(INITIAL, req, steps, cbs, Rows(Bars(cbs[..k])), StreamResult(cbs, k))
  {
    var finish := StreamFinish(req, cbs, k);
    steps := Calls(cbs) + finish;
    CallsThen(cbs, finish);
    StreamRealised(req, steps);
    StreamRun(steps, 0, k);
    StreamLocal(steps, Historical, 0);
    ClosedView(Run(Apply(INITIAL, BeginStream(req, Historical)), steps), req);
  }

  lemma ClosedView(v: World, req: int)
    requires View(v, req).LClosed?
    ensures req in v.acts && v.acts[req] == Closed(View(v, req).kind, View(v, req).got, View(v, req).ending)
  {
  }

  // ----- exactly when they agree

  ghost predicate AlwaysAgree(req: int, cbs: seq<Callback>) {
    forall w1, steps1, outcome, w2, steps2, got, ending ::
      BatchReturns(w1, req, steps1, cbs, outcome) && StreamCloses(w2, req, steps2, cbs, got, ending) ==>
        Agree(outcome, got, ending)
  }

  /** For every trace with at most one terminal callback: batch and stream agree under every
      scheduling without timeouts if and only if no bar comes behind an end that itself came
      behind a bar. A bar behind an error, or behind an end that found no list, does no harm. */
  lemma AgreementIff(req: int, cbs: seq<Callback>, k: nat)
    requires OwnCalls(cbs, req) && SoleTerminal(cbs, k)
    ensures AlwaysAgree(req, cbs) <==> !LateBar(cbs, k)
  {
    if LateBar(cbs, k) {
      var steps1 := BatchCanFinish(req, cbs, k);
      var steps2 := StreamCanFinish(req, cbs, k);
      AnswersAgree(cbs, k, |cbs|);
    } else {
      forall w1, steps1, outcome, w2, steps2, got, ending
        | BatchReturns(w1, req, steps1, cbs, outcome) && StreamCloses(w2, req, steps2, cbs, got, ending)
        ensures Agree(outcome, got, ending)
      {
        BatchEqualsStream(w1, steps1, outcome, w2, steps2, got, ending, req, cbs, k);
      }
    }
  }

  /** One bar, the end, and a bar that comes late. */
  function LateTrace(req: int, first: int, late: int): seq<Callback> {
    var slot := Slot(HistoricalData, req);
    [Items(slot, [first]), Ended(slot), Items(slot, [late])]
  }

  lemma LateTraceIsLate(req: int, first: int, late: int)
    ensures var cbs := LateTrace(req, first, late);
            OwnCalls(cbs, req) && SoleTerminal(cbs, 1) && HasBar(cbs[..1]) && StreamResult(cbs, 1) == AtEnd
  {
    var cbs := LateTrace(req, first, late);
    assert Bar(cbs[..1][0]);
  }

  lemma LateTraceBars(req: int, first: int, late: int)
    ensures var cbs := LateTrace(req, first, late);
            cbs[..3] == cbs && Bars(cbs[..1]) == [first] && Bars(cbs) == [first, late]
  {
    var cbs := LateTrace(req, first, late);
    var one, two := cbs[..1], cbs[..2];
    assert one[..0] == [] && two[..1] == one && cbs[..2] == two && cbs[..3] == cbs;
    assert Bars(one) == [] + [first] == [first];
    assert Bars(two) == [first] + [] == [first];
    assert Bars(cbs) == [first] + [late];
  }

  /** The late bar reaches a batch request that has not resumed yet, because it was handed the
      list itself ... */
  lemma LateBarInBatch(req: int, first: int, late: int) returns (steps: seq<Step>)
    ensures BatchReturns(INITIAL, req, steps, LateTrace(req, first, late), Response(Many([first, late])))
  {
    var cbs := LateTrace(req, first, late);
    LateTraceIsLate(req, first, late);
    LateTraceBars(req, first, late);
    steps := BatchCanFinish(req, cbs, 1);
  }

  /** ... but never the stream. */
  lemma LateBarNotInStream(req: int, first: int, late: int) returns (steps: seq<Step>)
    ensures StreamCloses(INITIAL, req, steps, LateTrace(req, first, late), [Row(first)], AtEnd)
  {
    LateTraceIsLate(req, first, late);
    LateTraceBars(req, first, late);
    var cbs := LateTrace(req, first, late);
    assert Rows([first]) == [Row(first)];
    steps := StreamCanFinish(req, cbs, 1);
  }
}
