/** How a wait ends, as a law of the callbacks its own request received. */
module Outcomes {
  import opened Decimal
  import opened ClientState
  import opened Engine
  import opened Request
  import opened Refinement

  // ----- traces of one request

  /** What a step can mean to a wait for `name`: a completion of it, an error that ends
      requests, items for its list, or one of its own internal steps. */
  datatype Mark = Completion | Failing | Adding | OkSeen | ErrSeen | TimerFired | Resumed | Other

  function MarkOf(s: Step, name: EventName): Mark {
    match s
    case Call(Completed(slot, _)) => if slot.name == name then Completion else Other
    case Call(Ended(slot)) => if slot.name == name then Completion else Other
    case Call(Items(slot, _)) => if slot.name == name then Adding else Other
    case Call(ErrorAt(err)) => if Informational(err.code) then Other else Failing
    case OkTask(_) => OkSeen
    case ErrTask(_) => ErrSeen
    case Timer(_) => TimerFired
    case Resume(_) => Resumed
    case _ => Other
  }

  /** Some step of `t` carries the mark. */
  predicate Seen(t: seq<Step>, name: EventName, m: Mark) {
    t != [] && (MarkOf(t[|t| - 1], name) == m || Seen(t[..|t| - 1], name, m))
  }

  /** The position of the last such step. */
  function Last(t: seq<Step>, name: EventName, m: Mark): (k: nat)
    requires Seen(t, name, m)
    ensures k < |t| && MarkOf(t[k], name) == m && forall i | k < i < |t| :: MarkOf(t[i], name) != m
  {
    if MarkOf(t[|t| - 1], name) == m then |t| - 1 else Last(t[..|t| - 1], name, m)
  }

  lemma {:induction false} SeenMeansExists(t: seq<Step>, name: EventName, m: Mark)
    ensures Seen(t, name, m) <==> exists i | 0 <= i < |t| :: MarkOf(t[i], name) == m
  {
    if t != [] {
      var a := t[..|t| - 1];
      SeenMeansExists(a, name, m);
      assert forall i | 0 <= i < |a| :: t[i] == a[i];
    }
  }

  /** The list of a wait: what was there, and all items appended under its name, in order. */
  function ListOf(t: seq<Step>, name: EventName, acc: Option<seq<int>>): Option<seq<int>> {
    if t == [] then acc
    else
      var s, before := t[|t| - 1], ListOf(t[..|t| - 1], name, acc);
      if MarkOf(s, name) == Adding then Some(GetOr(before) + s.cb.items) else before
  }

  /** The content behind the last completion. A list completion hands over the list object
      itself, so items appended later show up too, unless there was no list yet. */
  function LastValue(t: seq<Step>, name: EventName, acc: Option<seq<int>>): Content
    requires Seen(t, name, Completion)
  {
    var (cb, found) := LastCompletion(t, name, acc);
    Signalled(cb, found, ListOf(t, name, acc))
  }

  /** The last completion and the list it found. */
  function LastCompletion(t: seq<Step>, name: EventName, acc: Option<seq<int>>): (r: (Callback, Option<seq<int>>))
    requires Seen(t, name, Completion)
    ensures r.0.Completed? || r.0.Ended?
  {
    var k := Last(t, name, Completion);
    (t[k].cb, ListOf(t[..k], name, acc))
  }

  /** What a completion signalled, given the list it found and what has become of that. */
  function Signalled(cb: Callback, found: Option<seq<int>>, now: Option<seq<int>>): Content {
    match cb
    case Completed(_, v) => One(v)
    case _ => if found.Some? then Many(GetOr(now)) else Many([])
  }

  /** The details of the last error that ends requests. */
  function LastError(t: seq<Step>, name: EventName): TwsError
    requires Seen(t, name, Failing)
  {
    t[Last(t, name, Failing)].cb.err
  }

  /** The outcome law: the order in which the tasks ran and the timer fired does not matter
      beyond whether they did. */
  function Law(t: seq<Step>, name: EventName, acc: Option<seq<int>>): Outcome
    requires Seen(t, name, OkSeen) ==> Seen(t, name, Completion)
    requires Seen(t, name, ErrSeen) ==> Seen(t, name, Failing)
  {
    if Seen(t, name, OkSeen) then Response(LastValue(t, name, acc))
    else if Seen(t, name, ErrSeen) then Raised(LastError(t, name))
    else TimedOut
  }

  // ----- the automaton obeys the law

  lemma {:induction false} LRunAppend(l: Local, a: seq<Step>, s: Step)
    requires LCanRun(l, a + [s])
    ensures LCanRun(l, a) && LEnabled(LRun(l, a), s) && LRun(l, a + [s]) == LApply(LRun(l, a), s)
    decreases a
  {
    if a == [] {
      assert [] + [s] == [s];
      assert LRun(LApply(l, s), [s][1..]) == LApply(l, s);
    } else {
      assert (a + [s])[0] == a[0] && (a + [s])[1..] == a[1..] + [s];
      LRunAppend(LApply(l, a[0]), a[1..], s);
    }
  }

  /** The content is live exactly when the last completion handed over the list. */
  predicate LastIsList(t: seq<Step>, name: EventName, acc: Option<seq<int>>)
    requires Seen(t, name, Completion)
  {
    var (cb, found) := LastCompletion(t, name, acc);
    cb.Ended? && found.Some?
  }

  ghost predicate Flags(l: Local, t: seq<Step>, name: EventName) {
    && l.LWaiting? && l.name == name
    && (l.okSet <==> Seen(t, name, Completion)) && (l.errSet <==> Seen(t, name, Failing))
    && (l.okDone <==> Seen(t, name, OkSeen)) && (l.errDone <==> Seen(t, name, ErrSeen))
    && (l.timer <==> Seen(t, name, TimerFired))
    && (l.okDone ==> l.okSet) && (l.errDone ==> l.errSet)
  }

  ghost predicate Contents(l: Local, t: seq<Step>, name: EventName, acc: Option<seq<int>>) {
    && l.LWaiting? && l.acc == ListOf(t, name, acc)
    && (Seen(t, name, Completion) ==>
          l.val == LastValue(t, name, acc) && (l.live <==> LastIsList(t, name, acc)))
    && (!Seen(t, name, Completion) ==> !l.live)
    && (Seen(t, name, Failing) ==> l.err == LastError(t, name))
  }

  lemma SeenAppend(t: seq<Step>, s: Step, name: EventName, m: Mark)
    ensures Seen(t + [s], name, m) <==> MarkOf(s, name) == m || Seen(t, name, m)
    ensures MarkOf(s, name) != m && Seen(t, name, m) ==> Last(t + [s], name, m) == Last(t, name, m)
    ensures MarkOf(s, name) == m ==> Last(t + [s], name, m) == |t|
  {
    var u := t + [s];
    assert u[|u| - 1] == s && u[..|u| - 1] == t;
  }

  predicate FlagOf(l: Local, m: Mark)
    requires l.LWaiting?
  {
    match m
    case Completion => l.okSet
    case Failing => l.errSet
    case OkSeen => l.okDone
    case ErrSeen => l.errDone
    case TimerFired => l.timer
    case _ => false
  }

  /** A flag goes up with the first step that carries its mark, and stays up. */
  lemma CallFlag(l: Local, cb: Callback, m: Mark)
    requires l.LWaiting? && m in {Completion, Failing, OkSeen, ErrSeen, TimerFired}
    ensures var k := WaitCallback(l, cb);
            k.LWaiting? && k.name == l.name && (FlagOf(k, m) <==> FlagOf(l, m) || MarkOf(Call(cb), l.name) == m)
  {
  }

  lemma FlagStep(l: Local, s: Step, m: Mark)
    requires l.LWaiting? && LEnabled(l, s) && !s.Resume? && m in {Completion, Failing, OkSeen, ErrSeen, TimerFired}
    ensures LApply(l, s).LWaiting? && LApply(l, s).name == l.name
    ensures FlagOf(LApply(l, s), m) <==> FlagOf(l, m) || MarkOf(s, l.name) == m
  {
    if s.Call? { CallFlag(l, s.cb, m); }
  }

  lemma FlagsStep(l: Local, t: seq<Step>, s: Step, name: EventName)
    requires Flags(l, t, name) && LEnabled(l, s) && !s.Resume?
    ensures Flags(LApply(l, s), t + [s], name)
  {
    SeenAppend(t, s, name, Completion);
    SeenAppend(t, s, name, Failing);
    SeenAppend(t, s, name, OkSeen);
    SeenAppend(t, s, name, ErrSeen);
    SeenAppend(t, s, name, TimerFired);
    FlagStep(l, s, Completion);
    FlagStep(l, s, Failing);
    FlagStep(l, s, OkSeen);
    FlagStep(l, s, ErrSeen);
    FlagStep(l, s, TimerFired);
  }

  lemma ListAppend(t: seq<Step>, s: Step, name: EventName, acc: Option<seq<int>>)
    ensures ListOf(t + [s], name, acc) ==
            if MarkOf(s, name) == Adding then Some(GetOr(ListOf(t, name, acc)) + s.cb.items) else ListOf(t, name, acc)
  {
    assert (t + [s])[..|t|] == t;
  }

  /** Once there is a list, there is a list. */
  lemma {:induction false} ListStays(t: seq<Step>, k: nat, name: EventName, acc: Option<seq<int>>)
    requires k <= |t| && ListOf(t[..k], name, acc).Some?
    ensures ListOf(t, name, acc).Some?
  {
    if k == |t| {
      assert t[..k] == t;
    } else {
      assert t[..|t| - 1][..k] == t[..k];
      ListStays(t[..|t| - 1], k, name, acc);
    }
  }

  /** The last completion, and the list it found, are where they were. */
  lemma LastStays(t: seq<Step>, s: Step, name: EventName, acc: Option<seq<int>>)
    requires Seen(t, name, Completion) && MarkOf(s, name) != Completion
    ensures Seen(t + [s], name, Completion)
    ensures LastCompletion(t + [s], name, acc) == LastCompletion(t, name, acc)
  {
    SeenAppend(t, s, name, Completion);
    var k := Last(t, name, Completion);
    assert (t + [s])[..k] == t[..k];
  }

  /** A list that was found is still there. */
  lemma FoundStays(t: seq<Step>, name: EventName, acc: Option<seq<int>>)
    requires Seen(t, name, Completion)
    ensures LastCompletion(t, name, acc).1.Some? ==> ListOf(t, name, acc).Some?
  {
    if LastCompletion(t, name, acc).1.Some? { ListStays(t, Last(t, name, Completion), name, acc); }
  }

  /** A step that does not complete the wait changes the value only by growing its list. */
  lemma ValueAppend(t: seq<Step>, s: Step, name: EventName, acc: Option<seq<int>>)
    requires Seen(t, name, Completion) && MarkOf(s, name) != Completion
    ensures Seen(t + [s], name, Completion)
    ensures LastIsList(t + [s], name, acc) <==> LastIsList(t, name, acc)
    ensures LastIsList(t, name, acc) ==> ListOf(t, name, acc).Some?
    ensures LastValue(t + [s], name, acc) ==
            if LastIsList(t, name, acc) then Many(GetOr(ListOf(t + [s], name, acc))) else LastValue(t, name, acc)
  {
    LastStays(t, s, name, acc);
    FoundStays(t, name, acc);
  }

  lemma ValueSet(t: seq<Step>, s: Step, name: EventName, acc: Option<seq<int>>)
    requires MarkOf(s, name) == Completion
    ensures Seen(t + [s], name, Completion)
    ensures LastIsList(t + [s], name, acc) <==> s.cb.Ended? && ListOf(t, name, acc).Some?
    ensures LastValue(t + [s], name, acc) ==
            if s.cb.Completed? then One(s.cb.v) else Many(GetOr(ListOf(t, name, acc)))
  {
    SeenAppend(t, s, name, Completion);
    ListAppend(t, s, name, acc);
    var u := t + [s];
    assert u[|t|] == s && u[..|t|] == t;
    assert Last(u, name, Completion) == |t|;
  }

  lemma ContentsStep(l: Local, t: seq<Step>, s: Step, name: EventName, acc: Option<seq<int>>)
    requires Flags(l, t, name) && Contents(l, t, name, acc) && LEnabled(l, s) && !s.Resume?
    ensures Contents(LApply(l, s), t + [s], name, acc)
  {
    ListAppend(t, s, name, acc);
    SeenAppend(t, s, name, Failing);
    SeenAppend(t, s, name, Completion);
    if MarkOf(s, name) == Completion {
      ValueSet(t, s, name, acc);
    } else if Seen(t, name, Completion) {
      ValueAppend(t, s, name, acc);
    }
  }

  lemma WaitStep(l: Local, t: seq<Step>, s: Step, name: EventName, acc: Option<seq<int>>)
    requires Flags(l, t, name) && Contents(l, t, name, acc) && LEnabled(l, s) && !s.Resume?
    ensures Flags(LApply(l, s), t + [s], name) && Contents(LApply(l, s), t + [s], name, acc)
  {
    FlagsStep(l, t, s, name);
    ContentsStep(l, t, s, name, acc);
  }

  lemma WaitStarts(name: EventName, req: int, acc: Option<seq<int>>)
    ensures Flags(Fresh(name, req, acc), [], name) && Contents(Fresh(name, req, acc), [], name, acc)
  {
  }

  lemma {:induction false} WaitState(t: seq<Step>, name: EventName, req: int, acc: Option<seq<int>>)
    requires LCanRun(Fresh(name, req, acc), t) && !Seen(t, name, Resumed)
    ensures Flags(LRun(Fresh(name, req, acc), t), t, name)
    ensures Contents(LRun(Fresh(name, req, acc), t), t, name, acc)
    decreases |t|
  {
    var l := Fresh(name, req, acc);
    if t == [] {
      WaitStarts(name, req, acc);
    } else {
      var a, s := t[..|t| - 1], t[|t| - 1];
      assert t == a + [s];
      SeenAppend(a, s, name, Resumed);
      LRunAppend(l, a, s);
      WaitState(a, name, req, acc);
      WaitStep(LRun(l, a), a, s, name, acc);
    }
  }

  // ----- every wait of every run

  predicate ResumesNothing(steps: seq<Step>, req: int) {
    forall i | 0 <= i < |steps| :: steps[i] != Resume(req)
  }

  lemma {:induction false} ProjectResumesNothing(steps: seq<Step>, req: int, name: EventName)
    requires ResumesNothing(steps, req)
    ensures !Seen(Project(steps, req), name, Resumed)
  {
    SeenMeansExists(Project(steps, req), name, Resumed);
    if steps != [] {
      var rest := steps[1..];
      assert forall i | 0 <= i < |rest| :: rest[i] == steps[i + 1];
      ProjectResumesNothing(rest, req, name);
      SeenMeansExists(Project(rest, req), name, Resumed);
      assert steps[0] != Resume(req);
    }
  }

  /** What the waiter of an interleaving would answer now, and whether it may. */
  ghost predicate Answers(v: World, req: int, name: EventName, outcome: Outcome) {
    && IsWaiting(v, req) && v.acts[req].name == name
    && Answer(v.c, Slot(name, req), v.acts[req].okDone, v.acts[req].errDone) == outcome
  }

  ghost predicate Reasons(t: seq<Step>, name: EventName) {
    && (Seen(t, name, OkSeen) ==> Seen(t, name, Completion))
    && (Seen(t, name, ErrSeen) ==> Seen(t, name, Failing))
  }

  /** The view of a waiter answers as the waiter does. */
  lemma ViewAnswers(v: World, req: int)
    requires Inv(v) && View(v, req).LWaiting?
    ensures IsWaiting(v, req) && v.acts[req].name == View(v, req).name
    ensures View(v, req).okSet <==> v.acts[req].okEvent in v.c.raised
    ensures View(v, req).errSet <==> v.acts[req].errEvent in v.c.raised
    ensures View(v, req).okDone == v.acts[req].okDone && View(v, req).errDone == v.acts[req].errDone
    ensures Enabled(v, Resume(req)) <==> LEnabled(View(v, req), Resume(req))
    ensures Answer(v.c, Slot(v.acts[req].name, req), v.acts[req].okDone, v.acts[req].errDone) == LAnswer(View(v, req))
  {
  }

  lemma LocalLaw(t: seq<Step>, name: EventName, req: int, acc: Option<seq<int>>)
    requires LCanRun(Fresh(name, req, acc), t) && !Seen(t, name, Resumed)
    ensures Reasons(t, name)
    ensures var l := LRun(Fresh(name, req, acc), t);
            && l.LWaiting? && l.name == name && LAnswer(l) == Law(t, name, acc)
            && (l.okSet <==> Seen(t, name, Completion)) && (l.errSet <==> Seen(t, name, Failing))
            && (l.okDone <==> Seen(t, name, OkSeen)) && (l.errDone <==> Seen(t, name, ErrSeen))
            && (LEnabled(l, Resume(req)) <==>
                Seen(t, name, OkSeen) || Seen(t, name, ErrSeen) || Seen(t, name, TimerFired))
  {
    WaitState(t, name, req, acc);
  }

  /** The steps of a wait that has begun and not resumed, and the state they lead to. */
  lemma WaitReaches(w: World, req: int, name: EventName, pop: bool, steps: seq<Step>)
    requires Inv(w) && Enabled(w, BeginWait(req, name, pop))
    requires CanRun(Apply(w, BeginWait(req, name, pop)), steps)
    requires BeginsNothing(steps, req) && ResumesNothing(steps, req)
    ensures var v := Run(Apply(w, BeginWait(req, name, pop)), steps);
            var l := Fresh(name, req, if pop then None else AccumulatorOf(w.c, Slot(name, req)));
            && Inv(v) && LCanRun(l, Project(steps, req)) && View(v, req) == LRun(l, Project(steps, req))
            && !Seen(Project(steps, req), name, Resumed)
  {
    InvStep(w, BeginWait(req, name, pop));
    BeginWaitView(w, req, name, pop);
    InvRun(Apply(w, BeginWait(req, name, pop)), steps);
    RunRefines(Apply(w, BeginWait(req, name, pop)), steps, req);
    ProjectResumesNothing(steps, req, name);
  }

  /** Take any client, any other requests and streams, and any interleaving in which a request
      registers and its waiter has not resumed yet. What the waiter would answer now is given
      by the outcome law of the steps that carry its own id, and by nothing else: a response
      needs a completion of its own event, an error needs an error with its own id, and once
      the success task is done only a response is left, whatever the timer and the error do. */
  lemma WaiterLaw(w: World, req: int, name: EventName, pop: bool, steps: seq<Step>)
    requires Inv(w) && Enabled(w, BeginWait(req, name, pop))
    requires CanRun(Apply(w, BeginWait(req, name, pop)), steps)
    requires BeginsNothing(steps, req) && ResumesNothing(steps, req)
    ensures Reasons(Project(steps, req), name)
    ensures Answers(Run(Apply(w, BeginWait(req, name, pop)), steps), req, name,
                    Law(Project(steps, req), name, if pop then None else AccumulatorOf(w.c, Slot(name, req))))
  {
    var acc := if pop then None else AccumulatorOf(w.c, Slot(name, req));
    WaitReaches(w, req, name, pop, steps);
    LocalLaw(Project(steps, req), name, req, acc);
    ViewAnswers(Run(Apply(w, BeginWait(req, name, pop)), steps), req);
  }

  /** No wakeup is lost: the event of the waiter is set exactly when a completion of it came
      after it registered, and it may resume exactly when one of its tasks or its timer ran. */
  lemma NoLostWakeup(w: World, req: int, name: EventName, pop: bool, steps: seq<Step>)
    requires Inv(w) && Enabled(w, BeginWait(req, name, pop))
    requires CanRun(Apply(w, BeginWait(req, name, pop)), steps)
    requires BeginsNothing(steps, req) && ResumesNothing(steps, req)
    ensures Wakes(Run(Apply(w, BeginWait(req, name, pop)), steps), req, name, Project(steps, req))
  {
    var acc := if pop then None else AccumulatorOf(w.c, Slot(name, req));
    WaitReaches(w, req, name, pop, steps);
    WaitState(Project(steps, req), name, req, acc);
    FlagsWake(Run(Apply(w, BeginWait(req, name, pop)), steps), req, name, Project(steps, req));
  }

  /** What can happen next to the waiter on `req`, whose own steps so far are `t`. */
  ghost predicate Wakes(v: World, req: int, name: EventName, t: seq<Step>) {
    && IsWaiting(v, req)
    && (Enabled(v, OkTask(req)) <==> Seen(t, name, Completion))
    && (Enabled(v, ErrTask(req)) <==> Seen(t, name, Failing))
    && (Enabled(v, Timer(req)) <==>
          && (Seen(t, name, Completion) ==> Seen(t, name, OkSeen))
          && (Seen(t, name, Failing) ==> Seen(t, name, ErrSeen)))
    && (Enabled(v, Resume(req)) <==>
          Seen(t, name, OkSeen) || Seen(t, name, ErrSeen) || Seen(t, name, TimerFired))
  }

  lemma FlagsWake(v: World, req: int, name: EventName, t: seq<Step>)
    requires Inv(v) && Flags(View(v, req), t, name)
    ensures Wakes(v, req, name, t)
  {
    ViewAnswers(v, req);
  }

  /** The wait then ends with exactly that answer. */
  lemma WaitOutcome(w: World, req: int, name: EventName, pop: bool, steps: seq<Step>)
    requires Inv(w) && Enabled(w, BeginWait(req, name, pop))
    requires CanRun(Apply(w, BeginWait(req, name, pop)), steps)
    requires BeginsNothing(steps, req) && ResumesNothing(steps, req)
    requires Enabled(Run(Apply(w, BeginWait(req, name, pop)), steps), Resume(req))
    ensures Reasons(Project(steps, req), name)
    ensures var v := Run(Apply(w, BeginWait(req, name, pop)), steps);
            Apply(v, Resume(req)).acts[req] ==
            Returned(Law(Project(steps, req), name, if pop then None else AccumulatorOf(w.c, Slot(name, req))))
  {
    WaiterLaw(w, req, name, pop, steps);
  }

  // The same in terms of the steps themselves.

  /** The step completes a wait for `name`. */
  predicate Completes(s: Step, name: EventName) {
    s.Call? && ((s.cb.Completed? && s.cb.slot.name == name) || (s.cb.Ended? && s.cb.slot.name == name))
  }

  /** The step brings an error that ends requests. */
  predicate Fails(s: Step) {
    s.Call? && s.cb.ErrorAt? && !Informational(s.cb.err.code)
  }

  ghost predicate LastCompletes(t: seq<Step>, name: EventName, k: nat) {
    k < |t| && Completes(t[k], name) && forall i | k < i < |t| :: !Completes(t[i], name)
  }

  ghost predicate LastFails(t: seq<Step>, k: nat) {
    k < |t| && Fails(t[k]) && forall i | k < i < |t| :: !Fails(t[i])
  }

  /** All items of the list of `name`, in order. */
  function ItemsIn(t: seq<Step>, name: EventName): seq<int> {
    if t == [] then []
    else
      ItemsIn(t[..|t| - 1], name)
      + match t[|t| - 1]
        case Call(Items(slot, items)) => if slot.name == name then items else []
        case _ => []
  }

  /** Some step of the trace adds to that list. */
  ghost predicate Adds(t: seq<Step>, name: EventName) {
    exists i :: 0 <= i < |t| && t[i].Call? && t[i].cb.Items? && t[i].cb.slot.name == name
  }

  /** What the outcome of a wait says about the steps `t` of its request: data means that the
      success task ran, and is what the last completion brought; an error means that only the
      error task ran, and is the last one; a timeout means that neither did. */
  ghost predicate Explains(t: seq<Step>, name: EventName, acc: Option<seq<int>>, outcome: Outcome) {
    match outcome
    case Response(content) =>
      && (exists i :: 0 <= i < |t| && t[i].OkTask?)
      && exists k: nat :: LastCompletes(t, name, k) && Brings(t, name, acc, k, content)
    case Raised(err) =>
      && (forall i | 0 <= i < |t| :: !t[i].OkTask?)
      && exists k: nat :: LastFails(t, k) && t[k].cb.err == err
    case TimedOut =>
      forall i | 0 <= i < |t| :: !t[i].OkTask? && !t[i].ErrTask?
  }

  /** The completion at `k` brings a value, or the list: all of its items, if there was one. */
  ghost predicate Brings(t: seq<Step>, name: EventName, acc: Option<seq<int>>, k: nat, content: Content)
    requires LastCompletes(t, name, k)
  {
    if t[k].cb.Completed? then content == One(t[k].cb.v)
    else if acc.Some? || Adds(t[..k], name) then content == Many(GetOr(acc) + ItemsIn(t, name))
    else content == Many([])
  }

  lemma MarksMean(s: Step, name: EventName)
    ensures MarkOf(s, name) == Completion <==> Completes(s, name)
    ensures MarkOf(s, name) == Failing <==> Fails(s)
    ensures MarkOf(s, name) == OkSeen <==> s.OkTask?
    ensures MarkOf(s, name) == ErrSeen <==> s.ErrTask?
    ensures MarkOf(s, name) == Adding <==> s.Call? && s.cb.Items? && s.cb.slot.name == name
  {
  }

  lemma {:induction false} ListMeans(t: seq<Step>, name: EventName, acc: Option<seq<int>>)
    ensures GetOr(ListOf(t, name, acc)) == GetOr(acc) + ItemsIn(t, name)
    ensures ListOf(t, name, acc).Some? <==> acc.Some? || Adds(t, name)
  {
    if t == [] {
      assert GetOr(acc) + [] == GetOr(acc);
    } else {
      var a, s := t[..|t| - 1], t[|t| - 1];
      ListMeans(a, name, acc);
      MarksMean(s, name);
      AddsAppend(a, s, name);
      assert t == a + [s];
      Assoc(GetOr(acc), ItemsIn(a, name), if MarkOf(s, name) == Adding then s.cb.items else []);
      assert ItemsIn(a, name) + [] == ItemsIn(a, name);
    }
  }

  lemma AddsAppend(a: seq<Step>, s: Step, name: EventName)
    ensures Adds(a + [s], name) <==> Adds(a, name) || (s.Call? && s.cb.Items? && s.cb.slot.name == name)
  {
    var t := a + [s];
    assert t[|a|] == s && forall i | 0 <= i < |a| :: t[i] == a[i];
  }

  lemma LawExplains(t: seq<Step>, name: EventName, acc: Option<seq<int>>)
    requires Reasons(t, name)
    ensures Explains(t, name, acc, Law(t, name, acc))
  {
    forall i | 0 <= i < |t| ensures MarkOf(t[i], name) == OkSeen <==> t[i].OkTask?
      ensures MarkOf(t[i], name) == ErrSeen <==> t[i].ErrTask?
      ensures MarkOf(t[i], name) == Completion <==> Completes(t[i], name)
      ensures MarkOf(t[i], name) == Failing <==> Fails(t[i])
    {
      MarksMean(t[i], name);
    }
    SeenMeansExists(t, name, OkSeen);
    SeenMeansExists(t, name, ErrSeen);
    if Seen(t, name, OkSeen) {
      var k := Last(t, name, Completion);
      assert LastCompletes(t, name, k);
      ListMeans(t, name, acc);
      ListMeans(t[..k], name, acc);
      assert Brings(t, name, acc, k, LastValue(t, name, acc));
    } else if Seen(t, name, ErrSeen) {
      assert LastFails(t, Last(t, name, Failing));
    }
  }

  /** Over every interleaving, what a wait returns or raises is explained by the steps that
      carry its own id. */
  lemma OutcomeIsExplained(w: World, req: int, name: EventName, pop: bool, steps: seq<Step>)
    requires Inv(w) && Enabled(w, BeginWait(req, name, pop))
    requires CanRun(Apply(w, BeginWait(req, name, pop)), steps)
    requires BeginsNothing(steps, req) && ResumesNothing(steps, req)
    requires Enabled(Run(Apply(w, BeginWait(req, name, pop)), steps), Resume(req))
    ensures var a := Apply(Run(Apply(w, BeginWait(req, name, pop)), steps), Resume(req)).acts[req];
            a.Returned? && Explains(Project(steps, req), name,
                                    if pop then None else AccumulatorOf(w.c, Slot(name, req)), a.outcome)
  {
    WaitOutcome(w, req, name, pop, steps);
    LawExplains(Project(steps, req), name, if pop then None else AccumulatorOf(w.c, Slot(name, req)));
  }

  /** Every exit, by data, error or timeout, removes both keys of the waiter from both maps. */
  lemma ExitIsClean(v: World, req: int)
    requires Inv(v) && Enabled(v, Resume(req))
    ensures var u := Apply(v, Resume(req)); var name := v.acts[req].name;
            && Slot(name, req) !in u.c.events && Slot(Error, req) !in u.c.events
            && Slot(name, req) !in u.c.data && Slot(Error, req) !in u.c.data
            && Free(u, req) && Inv(u)
  {
    InvStep(v, Resume(req));
  }

  // ----- executions

  /** What `get_executions` makes of an outcome: a timeout yields whatever has accumulated. */
  function ExecutionsOf(outcome: Outcome, acc: Option<seq<int>>): Option<seq<int>> {
    match outcome
    case Raised(_) => None
    case TimedOut => Some(GetOr(acc))
    case Response(content) => if content.Many? then Some(content.items) else None
  }

  /** The only callbacks that complete an executions request are `execDetailsEnd`s. */
  predicate OnlyEnds(t: seq<Step>) {
    forall i | 0 <= i < |t| && MarkOf(t[i], Executions) == Completion :: t[i].cb.Ended?
  }

  function ExecutionsResult(t: seq<Step>): Option<seq<int>> {
    if Seen(t, Executions, OkSeen) && Seen(t, Executions, Completion) && !LastIsList(t, Executions, None) then Some([])
    else if !Seen(t, Executions, OkSeen) && Seen(t, Executions, ErrSeen) then None
    else Some(GetOr(ListOf(t, Executions, None)))
  }

  lemma ExecutionsLocal(t: seq<Step>, req: int)
    requires LCanRun(Fresh(Executions, req, None), t) && !Seen(t, Executions, Resumed) && OnlyEnds(t)
    ensures var l := LRun(Fresh(Executions, req, None), t);
            l.LWaiting? && l.name == Executions && ExecutionsOf(LAnswer(l), l.acc) == ExecutionsResult(t)
  {
    WaitState(t, Executions, req, None);
  }

  /** The list that `get_executions` reads after a timeout is the one its waiter had. */
  lemma ExecutionsResume(v: World, req: int)
    requires Inv(v) && Enabled(v, Resume(req)) && View(v, req).LWaiting? && View(v, req).name == Executions
    ensures var u := Apply(v, Resume(req));
            && u.acts[req].Returned?
            && ExecutionsOf(u.acts[req].outcome, AccumulatorOf(u.c, Slot(Executions, req)))
               == ExecutionsOf(LAnswer(View(v, req)), View(v, req).acc)
  {
    ViewAnswers(v, req);
  }

  /** `get_executions` never times out, and unless it raises it returns every execution
      delivered since the request, also those behind `execDetailsEnd`. The one exception is an
      end signalled before the first execution: it fixes the empty list. */
  lemma ExecutionsLaw(w: World, req: int, steps: seq<Step>)
    requires Inv(w) && Enabled(w, BeginWait(req, Executions, true))
    requires CanRun(Apply(w, BeginWait(req, Executions, true)), steps)
    requires BeginsNothing(steps, req) && ResumesNothing(steps, req) && OnlyEnds(Project(steps, req))
    requires Enabled(Run(Apply(w, BeginWait(req, Executions, true)), steps), Resume(req))
    ensures var u := Apply(Run(Apply(w, BeginWait(req, Executions, true)), steps), Resume(req));
            && u.acts[req].Returned?
            && ExecutionsOf(u.acts[req].outcome, AccumulatorOf(u.c, Slot(Executions, req)))
               == ExecutionsResult(Project(steps, req))
  {
    WaitReaches(w, req, Executions, true, steps);
    ExecutionsLocal(Project(steps, req), req);
    ExecutionsResume(Run(Apply(w, BeginWait(req, Executions, true)), steps), req);
  }

  // ----- where the guarantees end

  lemma {:induction false} TimerComesFirst(
    t: seq<Step>, name: EventName, req: int, acc: Option<seq<int>>, i: nat, k: nat)
    requires LCanRun(Fresh(name, req, acc), t) && !Seen(t, name, Resumed)
    requires !Seen(t, name, OkSeen) && !Seen(t, name, ErrSeen)
    requires i < k < |t| && MarkOf(t[k], name) == TimerFired
    ensures MarkOf(t[i], name) != Completion && MarkOf(t[i], name) != Failing
    decreases t
  {
    var a, s := t[..|t| - 1], t[|t| - 1];
    assert t == a + [s] && t[i] == a[i];
    LRunAppend(Fresh(name, req, acc), a, s);
    if k < |a| {
      assert t[k] == a[k];
      TimerComesFirst(a, name, req, acc, i, k);
    } else {
      WaitState(a, name, req, acc);
      SeenMeansExists(a, name, Completion);
      SeenMeansExists(a, name, Failing);
    }
  }

  /** A response or an error can be lost to a timeout only if the timer fired before it came:
      a wait that times out saw none of either before any of its timers. */
  lemma LostOnlyBehindTimer(w: World, req: int, name: EventName, pop: bool, steps: seq<Step>)
    requires Inv(w) && Enabled(w, BeginWait(req, name, pop))
    requires CanRun(Apply(w, BeginWait(req, name, pop)), steps)
    requires BeginsNothing(steps, req) && ResumesNothing(steps, req)
    ensures var v, t := Run(Apply(w, BeginWait(req, name, pop)), steps), Project(steps, req);
            IsWaiting(v, req) &&
            (Answer(v.c, Slot(name, req), v.acts[req].okDone, v.acts[req].errDone) == TimedOut ==>
              forall i, k | 0 <= i < k < |t| && MarkOf(t[k], name) == TimerFired ::
                MarkOf(t[i], name) != Completion && MarkOf(t[i], name) != Failing)
  {
    var acc := if pop then None else AccumulatorOf(w.c, Slot(name, req));
    var t := Project(steps, req);
    WaiterLaw(w, req, name, pop, steps);
    WaitReaches(w, req, name, pop, steps);
    if Law(t, name, acc) == TimedOut {
      forall i, k | 0 <= i < k < |t| && MarkOf(t[k], name) == TimerFired
        ensures MarkOf(t[i], name) != Completion && MarkOf(t[i], name) != Failing
      {
        TimerComesFirst(t, name, req, acc, i, k);
      }
    }
  }

  /** And then it is lost: whatever wait has neither been answered nor failed, a timer, the
      completion and the resumption in this order end it with a timeout. */
  lemma LateTimeout(w: World, req: int, v: int)
    requires Inv(w) && IsWaiting(w, req)
    requires w.acts[req].okEvent !in w.c.raised && w.acts[req].errEvent !in w.c.raised
    ensures var steps := [Timer(req)] + ([Call(Completed(Slot(w.acts[req].name, req), v))] + ([Resume(req)] + []));
            CanRun(w, steps) && (req, Returned(TimedOut)) in Run(w, steps).acts.Items
  {
    var done := Call(Completed(Slot(w.acts[req].name, req), v));
    assert HoldsItsEvents(w.c.events, w.acts, req);
    var a := Apply(w, Timer(req));
    var b := Apply(a, done);
    var c := Apply(b, Resume(req));
    RunHead(b, Resume(req), []);
    RunHead(a, done, [Resume(req)] + []);
    RunHead(w, Timer(req), [done] + ([Resume(req)] + []));
  }

  lemma RunHead(w: World, s: Step, rest: seq<Step>)
    requires Enabled(w, s) && CanRun(Apply(w, s), rest)
    ensures CanRun(w, [s] + rest) && Run(w, [s] + rest) == Run(Apply(w, s), rest)
  {
    assert ([s] + rest)[1..] == rest;
  }

  /** Whatever can happen to the shared state, in any order and without any discipline: a
      callback, the beginning or the end of a wait, and everything streams do. */
  datatype Move =
    | Called(cb: Callback)
    | Registered(slot: Slot)
    | Released(slot: Slot)
    | Streamed(queues: map<int, seq<Item>>, accumulators: map<Slot, nat>, cancels: multiset<int>)

  function Moved(c: Shared, m: Move): Shared {
    match m
    case Called(cb) => OnCallback(c, cb)
    case Registered(slot) => Register(c, slot)
    case Released(slot) => Release(c, slot)
    case Streamed(queues, accumulators, cancels) =>
      c.(queues := queues, accumulators := accumulators, cancels := cancels)
  }

  function AllMoved(c: Shared, moves: seq<Move>): Shared
    decreases moves
  {
    if moves == [] then c else AllMoved(Moved(c, moves[0]), moves[1..])
  }

  /** An event that is not set and that no key leads to. */
  ghost predicate Orphaned(c: Shared, event: nat) {
    event < c.next && event !in c.raised && forall s | s in c.events :: c.events[s] != event
  }

  lemma OrphanSet(c: Shared, slot: Slot, value: Value, event: nat)
    requires Orphaned(c, event)
    ensures Orphaned(SetEvent(c, slot, value), event)
  {
  }

  lemma OrphanEnsure(c: Shared, slot: Slot, event: nat)
    requires Orphaned(c, event)
    ensures Orphaned(Ensure(c, slot), event)
  {
  }

  lemma OrphanCleanup(c: Shared, slot: Slot, event: nat)
    requires Orphaned(c, event)
    ensures Orphaned(Cleanup(c, slot), event)
  {
  }

  lemma OrphanSignal(c: Shared, slot: Slot, event: nat)
    requires Orphaned(c, event)
    ensures Orphaned(SignalList(c, slot), event)
  {
  }

  lemma OrphanError(c: Shared, err: TwsError, event: nat)
    requires Orphaned(c, event)
    ensures Orphaned(OnError(c, err), event)
  {
    OrphanSet(Record(c, err), Slot(Error, err.req), ErrorInfo(err), event);
  }

  lemma OrphanItems(c: Shared, slot: Slot, items: seq<int>, event: nat)
    requires Orphaned(c, event)
    ensures Orphaned(OnItems(c, slot, items), event)
  {
  }

  lemma OrphanCallback(c: Shared, cb: Callback, event: nat)
    requires Orphaned(c, event)
    ensures Orphaned(OnCallback(c, cb), event)
  {
    match cb {
      case Completed(slot, v) => OrphanSet(c, slot, Opaque(v), event);
      case Items(slot, items) => OrphanItems(c, slot, items, event);
      case Ended(slot) => OrphanSignal(c, slot, event);
      case ErrorAt(err) => OrphanError(c, err, event);
      case Pushed(_, _) =>
    }
  }

  lemma OrphanMove(c: Shared, m: Move, event: nat)
    requires Orphaned(c, event)
    ensures Orphaned(Moved(c, m), event)
  {
    match m {
      case Called(cb) => OrphanCallback(c, cb, event);
      case Registered(slot) =>
        OrphanEnsure(c, slot, event);
        OrphanEnsure(Ensure(c, slot), Slot(Error, slot.req), event);
      case Released(slot) =>
        OrphanCleanup(c, slot, event);
        OrphanCleanup(Cleanup(c, slot), Slot(Error, slot.req), event);
      case Streamed(_, _, _) =>
    }
  }

  lemma {:induction false} OrphanStays(c: Shared, moves: seq<Move>, event: nat)
    requires Orphaned(c, event)
    ensures Orphaned(AllMoved(c, moves), event)
    decreases moves
  {
    if moves != [] {
      OrphanMove(c, moves[0], event);
      OrphanStays(Moved(c, moves[0]), moves[1..], event);
    }
  }

  /** Two overlapping waiters on one id share their error event, and the first to leave takes
      it away: whatever happens afterwards, errors for the id and new waits on it included,
      the event that the other one is waiting for is never set. */
  lemma OverlapLosesErrors(c: Shared, req: int, first: EventName, second: EventName, moves: seq<Move>)
    requires Sound(c) && Slot(Error, req) !in c.events
    requires first != second && first != Error && second != Error
    ensures var one := Register(c, Slot(first, req));
            var both := Register(one, Slot(second, req));
            var left := Release(both, Slot(first, req));
            var event := both.events[Slot(Error, req)];
            && event == one.events[Slot(Error, req)]
            && Slot(second, req) in left.events
            && event !in AllMoved(left, moves).raised
  {
    var one := Register(c, Slot(first, req));
    var both := Register(one, Slot(second, req));
    FirstRegisters(c, Slot(first, req));
    SecondRegisters(one, Slot(second, req));
    OrphanedByRelease(both, Slot(first, req));
    OrphanStays(Release(both, Slot(first, req)), moves, both.events[Slot(Error, req)]);
  }

  lemma FirstRegisters(c: Shared, slot: Slot)
    requires Sound(c) && slot.name != Error && Slot(Error, slot.req) !in c.events
    ensures var d, err := Register(c, slot), Slot(Error, slot.req);
            Sound(d) && err in d.events && d.events[err] !in d.raised
  {
    EnsureSound(c, slot);
    EnsureSound(Ensure(c, slot), Slot(Error, slot.req));
  }

  lemma SecondRegisters(c: Shared, slot: Slot)
    requires Sound(c) && Slot(Error, slot.req) in c.events
    ensures var d, err := Ensure(c, slot), Slot(Error, slot.req);
            && Register(c, slot) == d && Sound(d) && err in d.events && slot in d.events
            && d.events[err] == c.events[err] && d.raised == c.raised
  {
    EnsureSound(c, slot);
    EnsureAdds(c, slot);
  }

  lemma EnsureAdds(c: Shared, slot: Slot)
    ensures var d := Ensure(c, slot);
            && slot in d.events && d.raised == c.raised
            && forall s | s in c.events :: s in d.events && d.events[s] == c.events[s]
  {
  }

  lemma OrphanedByRelease(c: Shared, slot: Slot)
    requires Sound(c) && Slot(Error, slot.req) in c.events && c.events[Slot(Error, slot.req)] !in c.raised
    ensures Orphaned(Release(c, slot), c.events[Slot(Error, slot.req)])
    ensures forall s | s in c.events && s != slot && s != Slot(Error, slot.req) :: s in Release(c, slot).events
  {
  }
}
