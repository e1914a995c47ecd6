/** The id counter and the engine together: requests and streams that take their ids from the
    counter never meet on one. */
module Sharing {
  import opened Decimal
  import Ids
  import opened ClientState
  import opened Engine
  import opened Refinement

  /** `unused` are the ids that were handed out and that no request has used yet. Some never
      are: orders take their ids from the same counter. */
  datatype Joint = Joint(ids: Ids.IdState, w: World, unused: set<int>)

  const BEGINNING := Joint(Ids.START, INITIAL, {})

  /** A step of the counter, a request or stream that begins on an id it was handed, a request
      on the fixed id 0, or any step that begins nothing. */
  datatype JointStep =
    | Counter(move: Ids.IdStep)
    | Wait(req: int, name: EventName, pop: bool)
    | Stream(req: int, kind: StreamKind)
    | Singleton(name: EventName, pop: bool)
    | Move(step: Step)

  /** The engine's guard against overlap is asked of the fixed id alone. The server announces
      positive ids, each above all that were handed out. */
  predicate Possible(j: Joint, s: JointStep) {
    match s
    case Counter(step) =>
      Ids.CanStep(j.ids, step) && (step.Announce? ==> step.id > 0 && Ids.NoRewind(j.ids, step.id))
    case Wait(req, name, _) => req in j.unused && name != Error
    case Stream(req, _) => req in j.unused
    case Singleton(name, pop) => Enabled(j.w, BeginWait(0, name, pop))
    case Move(step) => Enabled(j.w, step) && !IsBegin(step)
  }

  function Elements(ids: seq<int>): set<int> {
    set id | id in ids
  }

  /** The counter moves, and an id it hands out is unused. */
  function Counted(j: Joint, step: Ids.IdStep): Joint
    requires Ids.CounterFollowsEvent(j.ids) && Ids.CanStep(j.ids, step)
  {
    var ids := Ids.Step(j.ids, step);
    Joint(ids, j.w, if ids.issued == j.ids.issued then j.unused else j.unused + {ids.issued[|j.ids.issued|]})
  }

  /** Beginning where the guard of the engine does not hold would leave the world as it is. */
  function Begin(j: Joint, step: Step): Joint {
    Joint(j.ids, if Enabled(j.w, step) then Apply(j.w, step) else j.w, j.unused - {ReqOf(step)})
  }

  function Next(j: Joint, s: JointStep): Joint
    requires Ids.CounterFollowsEvent(j.ids) && Possible(j, s)
  {
    match s
    case Counter(step) => Counted(j, step)
    case Wait(req, name, pop) => Begin(j, BeginWait(req, name, pop))
    case Stream(req, kind) => Begin(j, BeginStream(req, kind))
    case Singleton(name, pop) => j.(w := Apply(j.w, BeginWait(0, name, pop)))
    case Move(step) => j.(w := Apply(j.w, step))
  }

  /** All ids handed out are positive, and so is the next one. */
  predicate Positive(ids: Ids.IdState) {
    (forall id | id in ids.issued :: id > 0) && (ids.counter.Some? ==> ids.counter.value > 0)
  }

  /** Whatever the engine has ever used is the fixed id, or was handed out and used. */
  ghost predicate Together(j: Joint) {
    && Ids.CounterFollowsEvent(j.ids) && Ids.Ahead(j.ids) && Positive(j.ids) && Inv(j.w)
    && j.unused <= Elements(j.ids.issued)
    && forall req | req in j.w.acts :: req == 0 || (req in j.ids.issued && req !in j.unused)
  }

  /** An id that is handed out was never handed out before. */
  lemma CountedKeeps(j: Joint, step: Ids.IdStep)
    requires Together(j) && Possible(j, Counter(step))
    ensures Together(Counted(j, step))
  {
    Ids.StepKeepsCounter(j.ids, step);
    Ids.StepStaysAhead(j.ids, step);
    var ids, n := Ids.Step(j.ids, step), |j.ids.issued|;
    if ids.issued != j.ids.issued {
      assert ids.issued[..n] == j.ids.issued && ids.issued == j.ids.issued + [ids.issued[n]];
      assert forall i | 0 <= i < n :: ids.issued[i] < ids.issued[n];
    }
  }

  /** The engine grants every beginning on an unused id: the id is free. */
  lemma FreshIsFree(j: Joint, s: JointStep)
    requires Together(j) && Possible(j, s)
    ensures s.Wait? ==> Enabled(j.w, BeginWait(s.req, s.name, s.pop))
    ensures s.Stream? ==> Enabled(j.w, BeginStream(s.req, s.kind))
  {
  }

  /** Steps that begin nothing use no new id. */
  lemma NoNewId(w: World, step: Step)
    requires Enabled(w, step)
    ensures forall req | req in Apply(w, step).acts :: req in w.acts || (IsBegin(step) && req == ReqOf(step))
  {
  }

  lemma NextKeeps(j: Joint, s: JointStep)
    requires Together(j) && Possible(j, s)
    ensures Together(Next(j, s))
  {
    FreshIsFree(j, s);
    match s {
      case Counter(step) => CountedKeeps(j, step);
      case Wait(req, name, pop) => BeginKeeps(j, BeginWait(req, name, pop));
      case Stream(req, kind) => BeginKeeps(j, BeginStream(req, kind));
      case Singleton(name, pop) =>
        InvStep(j.w, BeginWait(0, name, pop));
        NoNewId(j.w, BeginWait(0, name, pop));
      case Move(step) =>
        InvStep(j.w, step);
        NoNewId(j.w, step);
    }
  }

  lemma BeginKeeps(j: Joint, step: Step)
    requires Together(j) && IsBegin(step) && ReqOf(step) in j.unused && Enabled(j.w, step)
    ensures Together(Begin(j, step))
  {
    InvStep(j.w, step);
    NoNewId(j.w, step);
  }

  // ----- whole runs

  ghost predicate CanGo(j: Joint, steps: seq<JointStep>)
    requires Together(j)
    decreases steps
  {
    steps != [] ==> Possible(j, steps[0]) && (NextKeeps(j, steps[0]); CanGo(Next(j, steps[0]), steps[1..]))
  }

  ghost function Go(j: Joint, steps: seq<JointStep>): (k: Joint)
    requires Together(j) && CanGo(j, steps)
    ensures Together(k)
    decreases steps
  {
    if steps == [] then j else (NextKeeps(j, steps[0]); Go(Next(j, steps[0]), steps[1..]))
  }

  lemma BeginningTogether()
    ensures Together(BEGINNING)
  {
    InvInitial();
  }

  /** From the beginning, or any state reached from it, and over every interleaving of the
      counter with requests, streams and callbacks: every id that was handed out and not used
      yet is free. Whoever got it may begin any wait or any stream on it at any time, and no
      two ever overlap. */
  lemma HandedOutIdsAreFree(j: Joint, steps: seq<JointStep>)
    requires Together(j) && CanGo(j, steps)
    ensures var k := Go(j, steps);
            forall req | req in k.unused ::
              && req !in k.w.acts && Free(k.w, req)
              && (forall name, pop | name != Error :: Enabled(k.w, BeginWait(req, name, pop)))
              && (forall kind :: Enabled(k.w, BeginStream(req, kind)))
  {
  }

  /** An announcement that rewinds to an id in use breaks that: the next caller is handed an id
      that is not free. */
  lemma RewindOverlaps(j: Joint, id: int, caller: int)
    requires Together(j) && id in j.w.acts && Active(j.w.acts[id]) && caller !in j.ids.parked
    ensures var k := Counted(j, Ids.Announce(id));
            && Ids.CounterFollowsEvent(k.ids) && Ids.CanStep(k.ids, Ids.Ask(caller))
            && id in Counted(k, Ids.Ask(caller)).unused && !Free(Counted(k, Ids.Ask(caller)).w, id)
  {
  }
}
