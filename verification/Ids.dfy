/** The id counter that requests and orders share. */
module Ids {
  import opened Decimal

  /** `parked` are the callers waiting for the first `nextValidId`; `issued` is the history. */
  datatype IdState = IdState(counter: Option<int>, received: bool, parked: set<int>, issued: seq<int>)

  const START := IdState(None, false, {}, [])

  /** A caller asks for an id, a parked caller is woken or gives up after its timeout, or the
      server announces an id. */
  datatype IdStep = Ask(caller: int) | Wake(caller: int) | GiveUp(caller: int) | Announce(id: int)

  predicate CanStep(s: IdState, step: IdStep) {
    match step
    case Ask(caller) => caller !in s.parked
    case Wake(caller) => caller in s.parked && s.received
    case GiveUp(caller) => caller in s.parked
    case Announce(_) => true
  }

  /** Hand out the counter and increment it, in one uninterrupted block. */
  function Issue(s: IdState): IdState
    requires s.counter.Some?
  {
    s.(counter := Some(s.counter.value + 1), issued := s.issued + [s.counter.value])
  }

  /** The event is set only after the value is there, so a woken caller always finds one. */
  predicate CounterFollowsEvent(s: IdState) {
    s.received <==> s.counter.Some?
  }

  function Step(s: IdState, step: IdStep): IdState
    requires CounterFollowsEvent(s) && CanStep(s, step)
  {
    match step
    case Ask(caller) => if s.counter.Some? then Issue(s) else s.(parked := s.parked + {caller})
    case Wake(caller) => Issue(s.(parked := s.parked - {caller}))
    case GiveUp(caller) => s.(parked := s.parked - {caller})
    case Announce(id) => s.(counter := Some(id), received := true)
  }

  lemma StepKeepsCounter(s: IdState, step: IdStep)
    requires CounterFollowsEvent(s) && CanStep(s, step)
    ensures CounterFollowsEvent(Step(s, step))
  {
  }

  ghost predicate CanRun(s: IdState, steps: seq<IdStep>)
    requires CounterFollowsEvent(s)
    decreases steps
  {
    steps != [] ==> CanStep(s, steps[0]) && (StepKeepsCounter(s, steps[0]); CanRun(Step(s, steps[0]), steps[1..]))
  }

  ghost function Run(s: IdState, steps: seq<IdStep>): (t: IdState)
    requires CounterFollowsEvent(s) && CanRun(s, steps)
    ensures CounterFollowsEvent(t)
    decreases steps
  {
    if steps == [] then s else (StepKeepsCounter(s, steps[0]); Run(Step(s, steps[0]), steps[1..]))
  }

  predicate Increasing(ids: seq<int>) {
    forall i, j | 0 <= i < j < |ids| :: ids[i] < ids[j]
  }

  /** The announced id lies above every id issued so far. */
  predicate NoRewind(s: IdState, id: int) {
    s.issued == [] || id > s.issued[|s.issued| - 1]
  }

  ghost predicate NeverRewinds(s: IdState, steps: seq<IdStep>)
    requires CounterFollowsEvent(s) && CanRun(s, steps)
    decreases steps
  {
    steps != [] ==>
      && (steps[0].Announce? ==> NoRewind(s, steps[0].id))
      && (StepKeepsCounter(s, steps[0]); NeverRewinds(Step(s, steps[0]), steps[1..]))
  }

  predicate Ahead(s: IdState) {
    Increasing(s.issued) && (s.counter.Some? ==> NoRewind(s, s.counter.value))
  }

  lemma StepStaysAhead(s: IdState, step: IdStep)
    requires CounterFollowsEvent(s) && CanStep(s, step) && Ahead(s)
    requires step.Announce? ==> NoRewind(s, step.id)
    ensures Ahead(Step(s, step))
  {
  }

  /** Over every interleaving of callers, parked or not, with announcements that never rewind,
      the ids handed out are strictly increasing: no two requests or orders share one. */
  lemma {:induction false} IdsIncrease(s: IdState, steps: seq<IdStep>)
    requires CounterFollowsEvent(s) && CanRun(s, steps) && Ahead(s) && NeverRewinds(s, steps)
    ensures Increasing(Run(s, steps).issued)
    decreases steps
  {
    if steps != [] {
      StepKeepsCounter(s, steps[0]);
      StepStaysAhead(s, steps[0]);
      IdsIncrease(Step(s, steps[0]), steps[1..]);
    }
  }

  predicate NoAnnouncements(steps: seq<IdStep>) {
    forall i | 0 <= i < |steps| :: !steps[i].Announce?
  }

  lemma {:induction false} NoAnnouncementNoRewind(s: IdState, steps: seq<IdStep>)
    requires CounterFollowsEvent(s) && CanRun(s, steps)
    requires NoAnnouncements(steps)
    ensures NeverRewinds(s, steps)
    decreases steps
  {
    if steps != [] {
      StepKeepsCounter(s, steps[0]);
      var rest := steps[1..];
      assert forall i | 0 <= i < |rest| :: rest[i] == steps[i + 1];
      NoAnnouncementNoRewind(Step(s, steps[0]), rest);
    }
  }

  /** Every way to go on after an announcement, without another one, keeps the ids strictly
      increasing. */
  ghost predicate SafeAfter(s: IdState)
    requires CounterFollowsEvent(s)
  {
    forall steps | CanRun(s, steps) && NoAnnouncements(steps) ::
      Increasing(Run(s, steps).issued)
  }

  /** The exact condition on the server: an announcement is safe if and only if it lies above
      the last id issued. The callback overwrites the counter without looking. */
  lemma RewindIff(s: IdState, id: int)
    requires CounterFollowsEvent(s) && Ahead(s)
    ensures SafeAfter(Step(s, Announce(id))) <==> NoRewind(s, id)
  {
    var t := Step(s, Announce(id));
    if NoRewind(s, id) {
      forall steps | CanRun(t, steps) && NoAnnouncements(steps)
        ensures Increasing(Run(t, steps).issued)
      {
        NoAnnouncementNoRewind(t, steps);
        IdsIncrease(t, steps);
      }
    } else {
      var caller := FreshCaller(t.parked);
      var ask := [Ask(caller)];
      var u := Step(t, Ask(caller));
      assert ask[1..] == [] && CanRun(u, []) && Run(u, []) == u;
      assert CanRun(t, ask) && Run(t, ask) == u;
      var n := |s.issued|;
      assert u.issued[n - 1] >= u.issued[n];
    }
  }

  /** Announcements that merely do not decrease are not enough: one that repeats an id already
      issued makes the client issue it again. */
  lemma RepeatedAnnouncement(caller: int, id: int)
    ensures var steps := [Announce(id)] + ([Ask(caller)] + ([Announce(id)] + ([Ask(caller)] + [])));
            CanRun(START, steps) && Run(START, steps).issued == [id, id]
  {
    var a := Step(START, Announce(id));
    var b := Step(a, Ask(caller));
    var c := Step(b, Announce(id));
    var d := Step(c, Ask(caller));
    assert CanRun(d, []) && Run(d, []) == d && d.issued == [id, id];
    OneMore(c, Ask(caller), []);
    OneMore(b, Announce(id), [Ask(caller)] + []);
    OneMore(a, Ask(caller), [Announce(id)] + ([Ask(caller)] + []));
    OneMore(START, Announce(id), [Ask(caller)] + ([Announce(id)] + ([Ask(caller)] + [])));
  }

  lemma OneMore(s: IdState, step: IdStep, rest: seq<IdStep>)
    requires CounterFollowsEvent(s) && CanStep(s, step)
    requires CounterFollowsEvent(Step(s, step)) && CanRun(Step(s, step), rest)
    ensures CanRun(s, [step] + rest) && Run(s, [step] + rest) == Run(Step(s, step), rest)
  {
    assert ([step] + rest)[1..] == rest;
  }

  lemma {:induction false} FreshCaller(parked: set<int>) returns (caller: int)
    ensures caller !in parked && forall p | p in parked :: p < caller
    decreases parked
  {
    if p :| p in parked {
      caller := FreshCaller(parked - {p});
      assert forall q | q in parked && q != p :: q in parked - {p};
      if caller <= p { caller := p + 1; }
    } else {
      caller := 0;
    }
  }

  function Requests(steps: seq<IdStep>): nat {
    if steps == [] then 0
    else (if steps[0].Ask? || steps[0].Wake? then 1 else 0) + Requests(steps[1..])
  }

  /** Between two announcements every caller that asks or wakes is served at once, and the ids
      are consecutive: they start from the one announced and leave none out. */
  lemma {:induction false} IdsAreConsecutive(s: IdState, steps: seq<IdStep>, k: nat)
    requires CounterFollowsEvent(s) && CanRun(s, steps) && NoAnnouncements(steps) && s.counter.Some?
    ensures var t := Run(s, steps);
            && |t.issued| == |s.issued| + Requests(steps) && s.issued <= t.issued
            && t.counter == Some(s.counter.value + Requests(steps))
            && (k < Requests(steps) ==> t.issued[|s.issued| + k] == s.counter.value + k)
    decreases steps
  {
    if steps != [] {
      var step, rest := steps[0], steps[1..];
      StepKeepsCounter(s, step);
      assert forall i | 0 <= i < |rest| :: rest[i] == steps[i + 1];
      var served := if step.Ask? || step.Wake? then 1 else 0;
      IdsAreConsecutive(Step(s, step), rest, if k >= served then k - served else 0);
      assert k < served ==> Run(s, steps).issued[|s.issued|] == Step(s, step).issued[|s.issued|];
    }
  }

  /** An announcement sets the next id, and lets every parked caller go on. */
  lemma AnnouncementWakes(s: IdState, id: int)
    requires CounterFollowsEvent(s)
    ensures var t := Step(s, Announce(id));
            && t.counter == Some(id) && t.issued == s.issued && t.parked == s.parked
            && forall caller | caller in s.parked :: CanStep(t, Wake(caller))
  {
  }

  /** Who is parked: those who asked in vain, until they are woken or give up. Giving up takes
      no id. */
  lemma ParkedLaw(s: IdState, step: IdStep)
    requires CounterFollowsEvent(s) && CanStep(s, step)
    ensures var t := Step(s, step);
            match step
            case Ask(caller) => t.parked == if s.counter.None? then s.parked + {caller} else s.parked
            case Wake(caller) => t.parked == s.parked - {caller}
            case GiveUp(caller) => t == s.(parked := s.parked - {caller})
            case Announce(_) => t.parked == s.parked
    ensures forall caller :: CanStep(s, Ask(caller)) <==> caller !in s.parked
    ensures forall caller :: CanStep(s, GiveUp(caller)) <==> caller in s.parked
    ensures forall id :: CanStep(s, Announce(id))
  {
  }

  /** Nobody is served before the first announcement, over every run: until then all who ask
      are parked, and none of them can be woken. */
  lemma {:induction false} NobodyIsServedBefore(s: IdState, steps: seq<IdStep>)
    requires CounterFollowsEvent(s) && CanRun(s, steps) && NoAnnouncements(steps) && s.counter.None?
    ensures Run(s, steps).issued == s.issued && !Run(s, steps).received
    ensures forall caller :: !CanStep(Run(s, steps), Wake(caller))
    decreases steps
  {
    if steps != [] {
      StepKeepsCounter(s, steps[0]);
      var rest := steps[1..];
      assert forall i | 0 <= i < |rest| :: rest[i] == steps[i + 1];
      NobodyIsServedBefore(Step(s, steps[0]), rest);
    }
  }

  // ----- the client's fields

  class IdSource {
    var nextValidIdValue: Option<int>
    var received: bool
    ghost var parked: set<int>
    ghost var issued: seq<int>

    ghost function State(): IdState
      reads this
    {
      IdState(nextValidIdValue, received, parked, issued)
    }

    constructor ()
      ensures State() == START
    {
      nextValidIdValue, received, parked, issued := None, false, {}, [];
    }

    method NextValidId(orderId: int)
      requires CounterFollowsEvent(State())
      modifies this
      ensures State() == Step(old(State()), Announce(orderId))
    {
      nextValidIdValue := Some(orderId);
      received := true;
    }

    /** `get_next_valid_id` up to its wait, if it has to wait. */
    method GetNextValidId(caller: int) returns (orderId: Option<int>)
      requires CounterFollowsEvent(State()) && CanStep(State(), Ask(caller))
      modifies this
      ensures State() == Step(old(State()), Ask(caller))
      ensures orderId == old(nextValidIdValue)
    {
      orderId := nextValidIdValue;
      match nextValidIdValue {
        case None => parked := parked + {caller};
        case Some(id) =>
          nextValidIdValue := Some(id + 1);
          issued := issued + [id];
      }
    }

    /** The rest of it, once the event is set. */
    method Woken(caller: int) returns (orderId: int)
      requires CounterFollowsEvent(State()) && CanStep(State(), Wake(caller))
      modifies this
      ensures State() == Step(old(State()), Wake(caller))
      ensures issued == old(issued) + [orderId]
    {
      parked := parked - {caller};
      orderId := nextValidIdValue.value;
      nextValidIdValue := Some(orderId + 1);
      issued := issued + [orderId];
    }
  }
}
