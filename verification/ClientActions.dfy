/**
 What becomes of an action a client dispatches: validated, given to an optional router, its effects run, and then
 committed or rejected. What validators, effects and routers do is the environment's choice, recorded beforehand.
 */
module ClientActionsSpec {
  import opened Protocol
  import Lanes = SerialLanes

  datatype Verdict = Passes | Refuses | Throws

  /** What validation and the effects would find at the moment they run. */
  datatype Check = Check(known: bool, dispatchable: bool, kindFits: bool, validators: seq<Verdict>, effectThrows: seq<bool>)

  datatype Validation = Valid | Ignored | Refused

  datatype Outcome = Committed | Rejected

  predicate AllPass(validators: seq<Verdict>) {
    forall i :: 0 <= i < |validators| ==> validators[i].Passes?
  }

  /** A target the router has resolved need not be in memory; any other unknown target is ignored, not rejected. */
  function Validate(c: Check, resolved: bool): Validation {
    if !resolved && !c.known then Ignored
    else if c.dispatchable && c.kindFits && AllPass(c.validators) then Valid
    else Refused
  }

  predicate EffectsPass(c: Check) {
    forall i :: 0 <= i < |c.effectThrows| ==> !c.effectThrows[i]
  }

  function Effected(c: Check): Outcome {
    if EffectsPass(c) then Committed else Rejected
  }

  function Apply(c: Check): Outcome {
    if Validate(c, true).Valid? then Effected(c) else Rejected
  }

  /** How the synchronous part of a router's call ends, and what its promise does afterwards. */
  datatype Ending = ReturnsFalse | ReturnsVoid | RouterThrows | ReturnsPromise(later: seq<Check>, rejects: bool)

  /** A session metadata router: the calls it makes of apply, and how it ends. */
  datatype Router = Router(applies: seq<Check>, ending: Ending)

  datatype TruncationEnding = Declines | TruncationThrows | TruncationPromise(applies: nat, rejects: bool)

  /** A chat truncation router; its apply refuses to commit a second time. */
  datatype Truncation = Truncation(applies: nat, ending: TruncationEnding)

  /** A dispatched action: the configured router's behaviour, what ordinary validation finds, and, when the action is a
      truncation and such a router is configured, that router's behaviour. */
  datatype Attempt = Attempt(router: Option<Router>, check: Check, truncation: Option<Truncation>)

  /** Envelopes emitted before routing first suspends, and, if it returned a promise, those emitted afterwards. */
  datatype Routed = Routed(now: seq<Outcome>, later: Option<seq<Outcome>>)

  function Applied(checks: seq<Check>): (outcomes: seq<Outcome>)
    ensures |outcomes| == |checks|
  {
    seq(|checks|, i requires 0 <= i < |checks| => Apply(checks[i]))
  }

  function Truncated(t: Truncation): Routed {
    var commits := if t.applies > 0 then [Committed] else [];
    match t.ending
    case Declines => Routed(commits + [Committed], None)
    case TruncationThrows => Routed(if t.applies > 0 then [Committed] else [Rejected], None)
    case TruncationPromise(applies, rejects) =>
      Routed(commits, Some(if t.applies > 0 then [] else if applies > 0 then [Committed] else if rejects then [Rejected] else []))
  }

  function Ordinary(a: Attempt): Routed {
    match Validate(a.check, false)
    case Ignored => Routed([], None)
    case Refused => Routed([Rejected], None)
    case Valid =>
      if a.truncation.Some? && EffectsPass(a.check) then Truncated(a.truncation.value)
      else Routed([Effected(a.check)], None)
  }

  function Route(a: Attempt): Routed {
    if a.router.None? then Ordinary(a)
    else
      var r := a.router.value;
      var now := Applied(r.applies);
      match r.ending
      case ReturnsFalse => var rest := Ordinary(a); Routed(now + rest.now, rest.later)
      case ReturnsVoid => Routed(now, None)
      case RouterThrows => Routed(now + if r.applies == [] then [Rejected] else [], None)
      case ReturnsPromise(later, rejects) =>
        Routed(now, Some(Applied(later) + if rejects && r.applies == [] && later == [] then [Rejected] else []))
  }

  function All(r: Routed): seq<Outcome> {
    r.now + if r.later.Some? then r.later.value else []
  }

  // ── At most one outcome ───────────────────────────────────────────────────

  /** Ordinary routing hands a valid truncation, its effects done, to the truncation router. */
  predicate Truncates(a: Attempt) {
    Validate(a.check, false).Valid? && EffectsPass(a.check) && a.truncation.Some?
  }

  /** A truncation router must not decline after it has committed. */
  predicate TruncationKeepsContract(a: Attempt) {
    Truncates(a) ==> !(a.truncation.value.ending.Declines? && a.truncation.value.applies > 0)
  }

  /** Ordinary routing says nothing at all: the channel is unknown, or the truncation router kept silent. */
  predicate Silent(a: Attempt) {
    || !a.check.known
    || (Truncates(a) && a.truncation.value.applies == 0
        && a.truncation.value.ending == TruncationPromise(0, false))
  }

  /** A router calls apply at most once in all, and having called it does not hand the action back, unless ordinary
      routing then has nothing to say. */
  predicate RouterKeepsContract(a: Attempt) {
    if a.router.None? then TruncationKeepsContract(a)
    else
      var r := a.router.value;
      match r.ending
      case ReturnsFalse => if r.applies == [] then TruncationKeepsContract(a) else |r.applies| == 1 && Silent(a)
      case ReturnsVoid => |r.applies| <= 1
      case RouterThrows => |r.applies| <= 1
      case ReturnsPromise(later, _) => |r.applies| + |later| <= 1
  }

  /** An action has at most one outcome, so never both a commit and a rejection, exactly when its routers keep to
      their contract; the host's own branches never add a second one. */
  lemma AtMostOneOutcomeIff(a: Attempt)
    ensures |All(Route(a))| <= 1 <==> RouterKeepsContract(a)
  {
    OrdinaryOutcomes(a);
    if a.router.Some? && a.router.value.ending.ReturnsFalse? {
      assert All(Route(a)) == Applied(a.router.value.applies) + All(Ordinary(a));
    }
  }

  lemma OrdinaryOutcomes(a: Attempt)
    ensures |All(Ordinary(a))| <= 1 <==> TruncationKeepsContract(a)
    ensures All(Ordinary(a)) == [] <==> Silent(a)
  {
  }

  /** A router that fails after its one apply, at once or later, leaves that apply's outcome uncontradicted; one that
      fails before applying anything has its action rejected. */
  lemma FailureNeverContradicts(a: Attempt)
    requires a.router.Some?
    requires a.router.value.ending.RouterThrows?
          || (a.router.value.ending.ReturnsPromise? && a.router.value.ending.rejects)
    requires RouterKeepsContract(a)
    ensures var r := a.router.value;
            var applies := r.applies + if r.ending.ReturnsPromise? then r.ending.later else [];
            All(Route(a)) == if applies == [] then [Rejected] else [Apply(applies[0])]
  {
    var r := a.router.value;
    if r.applies != [] { assert Applied(r.applies) == [Apply(r.applies[0])]; }
    if r.ending.ReturnsPromise? && r.ending.later != [] { assert Applied(r.ending.later) == [Apply(r.ending.later[0])]; }
  }

  /** An action committed by a handled truncation stays committed whatever the truncation router does afterwards. */
  lemma TruncationCommitsOnce(a: Attempt)
    requires a.router.None? && Truncates(a) && TruncationKeepsContract(a)
    requires var t := a.truncation.value; t.applies > 0 || (t.ending.TruncationPromise? && t.ending.applies > 0)
    ensures All(Route(a)) == [Committed]
  {
  }

  // ── One lane per channel ──────────────────────────────────────────────────

  /** The actions dispatched so far, what each has still to say, and every envelope in the order of its emission. */
  datatype Host = Host(lanes: Lanes.Lanes, attempts: seq<Attempt>, remaining: seq<seq<Outcome>>, emitted: seq<(nat, Outcome)>)

  const Empty := Host(Lanes.Empty, [], [], [])

  function Tagged(i: nat, outcomes: seq<Outcome>): seq<(nat, Outcome)> {
    seq(|outcomes|, k requires 0 <= k < |outcomes| => (i, outcomes[k]))
  }

  function Ended(r: Routed): Lanes.Result {
    if r.later.Some? then Lanes.Promised else Lanes.Plain
  }

  function Rest(r: Routed): seq<Outcome> {
    if r.later.Some? then r.later.value else []
  }

  function Dispatch(h: Host, channel: nat, a: Attempt): Host {
    var r := Route(a);
    var i := |h.attempts|;
    if channel in h.lanes.tails then
      Host(Lanes.Submit(h.lanes, channel, Ended(r)), h.attempts + [a], h.remaining + [All(r)], h.emitted)
    else
      Host(Lanes.Submit(h.lanes, channel, Ended(r)), h.attempts + [a], h.remaining + [Rest(r)], h.emitted + Tagged(i, r.now))
  }

  function Begin(h: Host, i: nat): Host
    requires Lanes.CanStart(h.lanes, i) && i < |h.attempts| && i < |h.remaining|
  {
    var r := Route(h.attempts[i]);
    Host(Lanes.Start(h.lanes, i, Ended(r)), h.attempts, h.remaining[i := Rest(r)], h.emitted + Tagged(i, r.now))
  }

  datatype Step =
    | Dispatches(channel: nat, a: Attempt)
    | Begins(i: nat)
    | Says(i: nat)       // its router, now asynchronous, causes the next envelope
    | Settles(i: nat)
    | Cleans(i: nat)

  predicate Enabled(h: Host, step: Step) {
    match step
    case Dispatches(_, _) => true
    case Begins(i) => Lanes.CanStart(h.lanes, i) && i < |h.attempts| && i < |h.remaining|
    case Says(i) => i < |h.remaining| && i < |h.lanes.tasks| && h.lanes.tasks[i].phase.Running? && h.remaining[i] != []
    case Settles(i) => i < |h.remaining| && i < |h.lanes.tasks| && h.lanes.tasks[i].phase.Running? && h.remaining[i] == []
    case Cleans(i) => i < |h.lanes.tasks| && h.lanes.tasks[i].phase.Settled?
  }

  function Next(h: Host, step: Step): Host
    requires Enabled(h, step)
  {
    match step
    case Dispatches(channel, a) => Dispatch(h, channel, a)
    case Begins(i) => Begin(h, i)
    case Says(i) => h.(remaining := h.remaining[i := h.remaining[i][1..]], emitted := h.emitted + [(i, h.remaining[i][0])])
    case Settles(i) => h.(lanes := Lanes.SetPhase(h.lanes, i, Lanes.Settled))
    case Cleans(i) => h.(lanes := Lanes.Cleanup(h.lanes, i))
  }

  predicate Trace(h: Host, steps: seq<Step>)
    decreases |steps|
  {
    steps == [] || (Enabled(h, steps[0]) && Trace(Next(h, steps[0]), steps[1..]))
  }

  function Run(h: Host, steps: seq<Step>): Host
    requires Trace(h, steps)
    decreases |steps|
  {
    if steps == [] then h else Run(Next(h, steps[0]), steps[1..])
  }

  /** What one action has had emitted for it. */
  function Told(emitted: seq<(nat, Outcome)>, i: nat): seq<Outcome> {
    if emitted == [] then []
    else
      var before := Told(emitted[..|emitted| - 1], i);
      if emitted[|emitted| - 1].0 == i then before + [emitted[|emitted| - 1].1] else before
  }

  ghost predicate Counted(h: Host) {
    |h.attempts| == |h.lanes.tasks| == |h.remaining|
  }

  /** Only actions whose routing has begun have said anything. */
  ghost predicate Began(h: Host)
    requires Counted(h)
  {
    forall k :: 0 <= k < |h.emitted| ==> h.emitted[k].0 < |h.attempts| && !h.lanes.tasks[h.emitted[k].0].phase.Waiting?
  }

  ghost predicate Shape(h: Host) {
    Lanes.Inv(h.lanes) && Counted(h) && Began(h)
  }

  /** Nothing is said twice or forgotten: what was emitted for an action, then what remains, is all it has to say. */
  ghost predicate Conserved(h: Host)
    requires Counted(h)
  {
    forall i :: 0 <= i < |h.attempts| ==> Told(h.emitted, i) + h.remaining[i] == All(Route(h.attempts[i]))
  }

  ghost predicate Finished(h: Host)
    requires Counted(h)
  {
    forall i :: 0 <= i < |h.attempts| && (h.lanes.tasks[i].phase.Settled? || h.lanes.tasks[i].phase.Done?) ==> h.remaining[i] == []
  }

  /** On each channel, outcomes appear in the order the actions arrived in. */
  ghost predicate Ordered(h: Host)
    requires Counted(h) && Began(h)
  {
    forall j, k :: 0 <= j < k < |h.emitted| && h.lanes.tasks[h.emitted[j].0].id == h.lanes.tasks[h.emitted[k].0].id ==>
      h.emitted[j].0 <= h.emitted[k].0
  }

  ghost predicate Inv(h: Host) {
    Shape(h) && Conserved(h) && Finished(h) && Ordered(h)
  }

  lemma {:induction false} ToldConcat(a: seq<(nat, Outcome)>, b: seq<(nat, Outcome)>, i: nat)
    ensures Told(a + b, i) == Told(a, i) + Told(b, i)
    decreases |b|
  {
    if b == [] {
      assert a + b == a;
    } else {
      ToldConcat(a, b[..|b| - 1], i);
      assert (a + b)[..|a + b| - 1] == a + b[..|b| - 1];
    }
  }

  lemma {:induction false} ToldTagged(n: nat, outcomes: seq<Outcome>, i: nat)
    ensures Told(Tagged(n, outcomes), i) == if i == n then outcomes else []
    decreases |outcomes|
  {
    if outcomes != [] {
      var before := outcomes[..|outcomes| - 1];
      ToldTagged(n, before, i);
      assert Tagged(n, outcomes)[..|outcomes| - 1] == Tagged(n, before);
      assert outcomes == before + [outcomes[|outcomes| - 1]];
    }
  }

  lemma {:induction false} ToldNothing(emitted: seq<(nat, Outcome)>, i: nat)
    requires forall k :: 0 <= k < |emitted| ==> emitted[k].0 != i
    ensures Told(emitted, i) == []
    decreases |emitted|
  {
    if emitted != [] { ToldNothing(emitted[..|emitted| - 1], i); }
  }

  lemma ToldAdds(emitted: seq<(nat, Outcome)>, n: nat, outcomes: seq<Outcome>, i: nat)
    ensures Told(emitted + Tagged(n, outcomes), i) == if i == n then Told(emitted, i) + outcomes else Told(emitted, i)
  {
    ToldConcat(emitted, Tagged(n, outcomes), i);
    ToldTagged(n, outcomes, i);
  }

  lemma ToldFirst(emitted: seq<(nat, Outcome)>, i: nat, r: Routed)
    requires forall k :: 0 <= k < |emitted| ==> emitted[k].0 != i
    ensures Told(emitted + Tagged(i, r.now), i) + Rest(r) == All(r)
  {
    ToldAdds(emitted, i, r.now, i);
    ToldNothing(emitted, i);
    assert [] + r.now == r.now;
  }

  lemma DispatchSaysNow(h: Host, channel: nat, a: Attempt, i: nat)
    requires Counted(h) && Began(h) && Conserved(h) && i <= |h.attempts| && channel !in h.lanes.tails
    ensures var e := Dispatch(h, channel, a); Counted(e) && Told(e.emitted, i) + e.remaining[i] == All(Route(e.attempts[i]))
  {
    if i == |h.attempts| {
      ToldFirst(h.emitted, i, Route(a));
    } else {
      ToldAdds(h.emitted, |h.attempts|, Route(a).now, i);
    }
  }

  lemma DispatchWaits(h: Host, channel: nat, a: Attempt, i: nat)
    requires Counted(h) && Began(h) && Conserved(h) && i <= |h.attempts| && channel in h.lanes.tails
    ensures var e := Dispatch(h, channel, a); Counted(e) && Told(e.emitted, i) + e.remaining[i] == All(Route(e.attempts[i]))
  {
    if i == |h.attempts| { ToldNothing(h.emitted, i); }
  }

  lemma DispatchConserves(h: Host, channel: nat, a: Attempt)
    requires Counted(h) && Began(h) && Conserved(h)
    ensures var e := Dispatch(h, channel, a); Counted(e) && Conserved(e)
  {
    var e := Dispatch(h, channel, a);
    forall i | 0 <= i < |e.attempts| ensures Told(e.emitted, i) + e.remaining[i] == All(Route(e.attempts[i])) {
      if channel in h.lanes.tails { DispatchWaits(h, channel, a, i); } else { DispatchSaysNow(h, channel, a, i); }
    }
  }

  lemma DispatchOrders(h: Host, channel: nat, a: Attempt)
    requires Counted(h) && Began(h) && Ordered(h) && Finished(h)
    ensures var e := Dispatch(h, channel, a); Counted(e) && Began(e) && Ordered(e) && Finished(e)
  {
  }

  lemma DispatchKeeps(h: Host, channel: nat, a: Attempt)
    requires Inv(h)
    ensures Inv(Dispatch(h, channel, a))
  {
    Lanes.StepKeeps(h.lanes, Lanes.Submits(channel, Ended(Route(a))));
    DispatchConserves(h, channel, a);
    DispatchOrders(h, channel, a);
  }

  lemma BeginSays(h: Host, i: nat, j: nat)
    requires Counted(h) && Began(h) && Conserved(h) && Enabled(h, Begins(i)) && j < |h.attempts|
    ensures var e := Begin(h, i); Counted(e) && Told(e.emitted, j) + e.remaining[j] == All(Route(e.attempts[j]))
  {
    if j == i {
      ToldFirst(h.emitted, i, Route(h.attempts[i]));
    } else {
      ToldAdds(h.emitted, i, Route(h.attempts[i]).now, j);
    }
  }

  lemma BeginConserves(h: Host, i: nat)
    requires Counted(h) && Began(h) && Conserved(h) && Enabled(h, Begins(i))
    ensures var e := Begin(h, i); Counted(e) && Conserved(e)
  {
    var e := Begin(h, i);
    forall j | 0 <= j < |e.attempts| ensures Told(e.emitted, j) + e.remaining[j] == All(Route(e.attempts[j])) {
      BeginSays(h, i, j);
    }
  }

  /** Nothing submitted later on the same lane has said anything while action i is not done. */
  lemma LaterOnesAreSilent(h: Host, i: nat)
    requires Counted(h) && Began(h) && Lanes.OneAtATime(h.lanes) && i < |h.attempts| && !h.lanes.tasks[i].phase.Done?
    ensures forall k :: 0 <= k < |h.emitted| && h.lanes.tasks[h.emitted[k].0].id == h.lanes.tasks[i].id ==> h.emitted[k].0 <= i
  {
  }

  lemma BeginOrders(h: Host, i: nat)
    requires Counted(h) && Began(h) && Lanes.OneAtATime(h.lanes) && Ordered(h) && Finished(h) && Enabled(h, Begins(i))
    ensures var e := Begin(h, i); Counted(e) && Began(e) && Ordered(e) && Finished(e)
  {
    LaterOnesAreSilent(h, i);
    var e := Begin(h, i);
    assert forall k :: |h.emitted| <= k < |e.emitted| ==> e.emitted[k].0 == i;
  }

  lemma BeginKeeps(h: Host, i: nat)
    requires Inv(h) && Enabled(h, Begins(i))
    ensures Inv(Begin(h, i))
  {
    Lanes.StepKeeps(h.lanes, Lanes.Starts(i, Ended(Route(h.attempts[i]))));
    BeginConserves(h, i);
    BeginOrders(h, i);
  }

  lemma SaysConserves(h: Host, i: nat)
    requires Counted(h) && Conserved(h) && Enabled(h, Says(i))
    ensures Counted(Next(h, Says(i))) && Conserved(Next(h, Says(i)))
  {
    var e := Next(h, Says(i));
    var said := [(i, h.remaining[i][0])];
    var head, rest := [h.remaining[i][0]], h.remaining[i][1..];
    assert said[..0] == [] && Told([], i) == [] && Told(said, i) == head;
    ToldConcat(h.emitted, said, i);
    MoveOver(Told(h.emitted, i), head, rest);
    assert head + rest == h.remaining[i];
    forall j | 0 <= j < |e.attempts| && j != i ensures Told(e.emitted, j) == Told(h.emitted, j) {
      ToldConcat(h.emitted, said, j);
      ToldNothing(said, j);
    }
  }

  lemma MoveOver<T>(told: seq<T>, head: seq<T>, rest: seq<T>)
    ensures (told + head) + rest == told + (head + rest)
  {
  }

  lemma SaysOrders(h: Host, i: nat)
    requires Counted(h) && Began(h) && Lanes.OneAtATime(h.lanes) && Ordered(h) && Finished(h) && Enabled(h, Says(i))
    ensures var e := Next(h, Says(i)); Counted(e) && Began(e) && Ordered(e) && Finished(e)
  {
    LaterOnesAreSilent(h, i);
  }

  lemma SaysKeeps(h: Host, i: nat)
    requires Inv(h) && Enabled(h, Says(i))
    ensures Inv(Next(h, Says(i)))
  {
    SaysConserves(h, i);
    SaysOrders(h, i);
  }

  /** A step that only moves an action on its lane, from where nothing remains to be said, keeps what has been said. */
  lemma SameEmissions(h: Host, e: Host, i: nat)
    requires Counted(h) && Began(h) && Conserved(h) && Ordered(h) && Finished(h) && i < |h.remaining| && h.remaining[i] == []
    requires Counted(e) && e.attempts == h.attempts && e.emitted == h.emitted && e.remaining == h.remaining
    requires e.lanes.tasks[i].id == h.lanes.tasks[i].id && !e.lanes.tasks[i].phase.Waiting?
    requires forall j :: 0 <= j < |h.attempts| && j != i ==> e.lanes.tasks[j] == h.lanes.tasks[j]
    ensures Began(e) && Conserved(e) && Ordered(e) && Finished(e)
  {
  }

  lemma SettlesKeeps(h: Host, i: nat)
    requires Inv(h) && Enabled(h, Settles(i))
    ensures Inv(Next(h, Settles(i)))
  {
    Lanes.StepKeeps(h.lanes, Lanes.Settles(i));
    SameEmissions(h, Next(h, Settles(i)), i);
  }

  lemma CleansKeeps(h: Host, i: nat)
    requires Inv(h) && Enabled(h, Cleans(i))
    ensures Inv(Next(h, Cleans(i)))
  {
    Lanes.StepKeeps(h.lanes, Lanes.Cleans(i));
    SameEmissions(h, Next(h, Cleans(i)), i);
  }

  lemma StepKeeps(h: Host, step: Step)
    requires Inv(h) && Enabled(h, step)
    ensures Inv(Next(h, step))
  {
    match step
    case Dispatches(channel, a) => DispatchKeeps(h, channel, a);
    case Begins(i) => BeginKeeps(h, i);
    case Says(i) => SaysKeeps(h, i);
    case Settles(i) => SettlesKeeps(h, i);
    case Cleans(i) => CleansKeeps(h, i);
  }

  lemma {:induction false} RunKeeps(h: Host, steps: seq<Step>)
    requires Inv(h) && Trace(h, steps)
    ensures Inv(Run(h, steps))
    decreases |steps|
  {
    if steps != [] {
      StepKeeps(h, steps[0]);
      RunKeeps(Next(h, steps[0]), steps[1..]);
    }
  }

  /** On every run: an action whose routers keep their contract has at most one envelope, an action that has been
      dealt with has said all it had to say, and on each channel outcomes appear in the order of arrival however
      long the routers before them took. */
  lemma OutcomesOnEveryRun(steps: seq<Step>)
    requires Trace(Empty, steps)
    ensures var h := Run(Empty, steps);
            && Shape(h) && Ordered(h)
            && (forall i :: 0 <= i < |h.attempts| && RouterKeepsContract(h.attempts[i]) ==> |Told(h.emitted, i)| <= 1)
            && (forall i :: 0 <= i < |h.attempts| && h.lanes.tasks[i].phase.Done? ==>
                  Told(h.emitted, i) == All(Route(h.attempts[i])))
  {
    RunKeeps(Empty, steps);
    var h := Run(Empty, steps);
    forall i | 0 <= i < |h.attempts| && RouterKeepsContract(h.attempts[i]) ensures |Told(h.emitted, i)| <= 1 {
      AtMostOneOutcomeIff(h.attempts[i]);
    }
  }
}

/** The same routing as the host performs it, over its validators and effects in turn. */
module ClientActions {
  import opened Protocol
  import Lanes = SerialLanes
  import Spec = ClientActionsSpec

  method ValidateClientAction(check: Spec.Check, resolved: bool) returns (validation: Spec.Validation)
    ensures validation == Spec.Validate(check, resolved)
  {
    if !resolved && !check.known {
      return Spec.Ignored;
    }
    if !check.dispatchable {
      return Spec.Refused;
    }
    if !check.kindFits {
      return Spec.Refused;
    }
    for i := 0 to |check.validators|
      invariant forall j :: 0 <= j < i ==> check.validators[j].Passes?
    {
      if check.validators[i] != Spec.Passes {
        return Spec.Refused;
      }
    }
    return Spec.Valid;
  }

  /** Runs the effects in turn up to the first that throws. */
  method RunClientActionEffects(check: Spec.Check) returns (passed: bool)
    ensures passed == Spec.EffectsPass(check)
  {
    for i := 0 to |check.effectThrows|
      invariant forall j :: 0 <= j < i ==> !check.effectThrows[j]
    {
      if check.effectThrows[i] {
        return false;
      }
    }
    return true;
  }

  method ApplyClientAction(check: Spec.Check) returns (outcome: Spec.Outcome)
    ensures outcome == Spec.Apply(check)
  {
    var validation := ValidateClientAction(check, true);
    if validation != Spec.Valid {
      return Spec.Rejected;
    }
    var passed := RunClientActionEffects(check);
    outcome := if passed then Spec.Committed else Spec.Rejected;
  }

  /** The calls a router makes of apply, one after another. */
  method RunApplies(checks: seq<Spec.Check>) returns (outcomes: seq<Spec.Outcome>)
    ensures outcomes == Spec.Applied(checks)
  {
    outcomes := [];
    for i := 0 to |checks|
      invariant outcomes == Spec.Applied(checks)[..i]
    {
      var outcome := ApplyClientAction(checks[i]);
      outcomes := outcomes + [outcome];
    }
  }

  /** What a truncation router's calls of apply commit: the first one commits, any other is refused with an error. */
  method RunTruncationApplies(calls: nat, alreadyApplied: bool) returns (outcomes: seq<Spec.Outcome>)
    ensures outcomes == if calls > 0 && !alreadyApplied then [Spec.Committed] else []
  {
    outcomes := [];
    var applyInvoked := alreadyApplied;
    for i := 0 to calls
      invariant applyInvoked == (alreadyApplied || i > 0)
      invariant outcomes == if i > 0 && !alreadyApplied then [Spec.Committed] else []
    {
      if applyInvoked {
        continue;
      }
      applyInvoked := true;
      outcomes := outcomes + [Spec.Committed];
    }
  }

  method RouteTruncation(truncation: Spec.Truncation) returns (routed: Spec.Routed)
    ensures routed == Spec.Truncated(truncation)
  {
    var applyInvoked := truncation.applies > 0;
    var now := RunTruncationApplies(truncation.applies, false);
    match truncation.ending
    case Declines =>
      return Spec.Routed(now + [Spec.Committed], None);
    case TruncationThrows =>
      if !applyInvoked {
        now := [Spec.Rejected];
      }
      return Spec.Routed(now, None);
    case TruncationPromise(applies, rejects) =>
      var later := RunTruncationApplies(applies, applyInvoked);
      applyInvoked := applyInvoked || applies > 0;
      if rejects && !applyInvoked {
        later := [Spec.Rejected];
      }
      return Spec.Routed(now, Some(later));
  }

  method RouteOrdinarily(attempt: Spec.Attempt) returns (routed: Spec.Routed)
    ensures routed == Spec.Ordinary(attempt)
  {
    var validation := ValidateClientAction(attempt.check, false);
    if validation == Spec.Ignored {
      return Spec.Routed([], None);
    }
    if validation == Spec.Refused {
      return Spec.Routed([Spec.Rejected], None);
    }
    var passed := RunClientActionEffects(attempt.check);
    if !passed {
      return Spec.Routed([Spec.Rejected], None);
    }
    if attempt.truncation.Some? {
      routed := RouteTruncation(attempt.truncation.value);
    } else {
      routed := Spec.Routed([Spec.Committed], None);
    }
  }

  /** The optional router first, ordinary routing when there is none or it hands the action back. */
  method RouteClientAction(attempt: Spec.Attempt) returns (routed: Spec.Routed)
    ensures routed == Spec.Route(attempt)
  {
    if attempt.router.None? {
      routed := RouteOrdinarily(attempt);
      return;
    }
    var router := attempt.router.value;
    var applyInvoked := |router.applies| > 0;
    var now := RunApplies(router.applies);
    match router.ending
    case ReturnsFalse =>
      var rest := RouteOrdinarily(attempt);
      return Spec.Routed(now + rest.now, rest.later);
    case ReturnsVoid =>
      return Spec.Routed(now, None);
    case RouterThrows =>
      if !applyInvoked {
        now := now + [Spec.Rejected];
      }
      return Spec.Routed(now, None);
    case ReturnsPromise(later, rejects) =>
      var afterwards := RunApplies(later);
      applyInvoked := applyInvoked || |later| > 0;
      if rejects && !applyInvoked {
        afterwards := afterwards + [Spec.Rejected];
      } else {
        assert afterwards + [] == afterwards;
      }
      return Spec.Routed(now, Some(afterwards));
  }

  class Dispatcher {
    var pendingClientActions: map<nat, nat>
    ghost var tasks: seq<Lanes.Task>
    ghost var starts: seq<nat>
    var attempts: seq<Spec.Attempt>
    var remaining: seq<seq<Spec.Outcome>>
    var emitted: seq<(nat, Spec.Outcome)>

    ghost function View(): Spec.Host
      reads this
    {
      Spec.Host(Lanes.Lanes(tasks, pendingClientActions, starts), attempts, remaining, emitted)
    }

    constructor ()
      ensures View() == Spec.Empty
    {
      pendingClientActions, tasks, starts := map[], [], [];
      attempts, remaining, emitted := [], [], [];
    }

    /** Routes at once when nothing is pending on the channel, and otherwise behind what is. */
    method DispatchClientAction(channel: nat, attempt: Spec.Attempt)
      requires |tasks| == |attempts|
      modifies this
      ensures View() == Spec.Dispatch(old(View()), channel, attempt)
    {
      var i := |attempts|;
      var routed := RouteClientAction(attempt);
      attempts := attempts + [attempt];
      if channel in pendingClientActions {
        tasks := tasks + [Lanes.Task(channel, Lanes.Waiting(pendingClientActions[channel]))];
        remaining := remaining + [Spec.All(routed)];
        pendingClientActions := pendingClientActions[channel := i];
        return;
      }
      starts := starts + [i];
      emitted := emitted + Spec.Tagged(i, routed.now);
      if routed.later.None? {
        tasks := tasks + [Lanes.Task(channel, Lanes.Done)];
        remaining := remaining + [[]];
        return;
      }
      tasks := tasks + [Lanes.Task(channel, Lanes.Running)];
      remaining := remaining + [routed.later.value];
      pendingClientActions := pendingClientActions[channel := i];
    }
  }
}
