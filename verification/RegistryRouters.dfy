/**
 The two routers the session registry gives the host: one holds a truncation until pi has reached the selected branch,
 one persists the read and archived flags of sessions that need not be loaded. What they find when they look, and
 which of the things they wait for fail, is the environment's choice.
 */
module RegistryRoutersSpec {
  import opened Protocol
  import opened ClientActionsSpec

  /** What the metadata router finds for a session that was not loaded when its turn came. */
  datatype Cold = Cold(
    findFails: bool,      // looking for the session's file failed
    loaded: bool,         // the session was created or adopted meanwhile
    file: bool,           // the file was found
    disposing: bool,      // the session is being deleted
    isBoolean: bool,      // the flag's value is a boolean
    readFails: bool,      // reading the stored flag failed
    equal: bool,          // the stored flag has this value already
    otherReadFails: bool) // reading the other flag failed

  /** What the metadata router finds; `check` is what its one call of apply would find. */
  datatype Metadata = Metadata(
    flag: bool,        // the action sets a flag that may be persisted
    session: bool,     // the channel names a pi session
    loaded: bool,
    disposing: bool,
    pending: bool,     // operations of this session are pending
    loadedLater: bool, // loaded once those are done
    cold: Cold,
    check: Check)

  /** What the truncation router finds. */
  datatype Navigation = Navigation(
    isTruncation: bool,
    chat: bool,           // the channel is a loaded session's chat
    available: bool,      // the session is still loaded, not being deleted, and its chat is there
    busy: bool,           // a turn is active
    anchored: bool,       // the turn has an anchor, and the current branch has that entry
    whole: bool,          // everything is to be cleared
    loads: bool,          // the named turn could be loaded
    driver: bool,
    attachFails: bool,
    attached: bool,       // attaching the backend left a driver
    busyLater: bool,      // a turn became active meanwhile
    truncateFails: bool,
    accepted: bool)       // pi moved to the anchor

  // ── What they do ──────────────────────────────────────────────────────────

  /** The cold update calls apply: for a session loaded meanwhile, and for one with a file unless reading its flags fails. */
  predicate ColdApplies(c: Cold) {
    !c.findFails && (c.loaded || (c.file && (c.disposing || !c.isBoolean || (!c.readFails && (c.equal || !c.otherReadFails)))))
  }

  predicate ColdFails(c: Cold) {
    c.findFails || (!c.loaded && c.file && !c.disposing && c.isBoolean && (c.readFails || (!c.equal && c.otherReadFails)))
  }

  predicate LoadedThen(m: Metadata) {
    if m.pending then m.loadedLater else m.loaded
  }

  function MetadataRouter(m: Metadata): Router {
    if !m.flag || !m.session then Router([], ReturnsFalse)
    else if (m.loaded && m.disposing) || (!m.pending && m.loaded) then Router([m.check], ReturnsVoid)
    else if LoadedThen(m) then Router([], ReturnsPromise([m.check], false))
    else Router([], ReturnsPromise(if ColdApplies(m.cold) then [m.check] else [], ColdFails(m.cold)))
  }

  /** Everything truncation needs was there, and pi moved. */
  predicate Navigates(n: Navigation) {
    && n.available && !n.busy && n.anchored && (n.whole || n.loads)
    && (n.driver || (!n.attachFails && n.attached))
    && !n.busyLater && !n.truncateFails && n.accepted
  }

  function TruncationRouter(n: Navigation): Truncation {
    if !n.isTruncation || !n.chat then Truncation(0, Declines)
    else Truncation(0, TruncationPromise(if Navigates(n) then 1 else 0, !Navigates(n)))
  }

  /** An action dispatched to a host that has the registry's routers. */
  function Dispatched(m: Metadata, check: Check, n: Option<Navigation>): Attempt {
    Attempt(Some(MetadataRouter(m)), check, if n.Some? then Some(TruncationRouter(n.value)) else None)
  }

  ghost predicate RoutedByRegistry(a: Attempt) {
    exists m, check, n :: a == Dispatched(m, check, n)
  }

  // ── What comes of it ──────────────────────────────────────────────────────

  lemma RegistryKeepsContract(a: Attempt)
    requires RoutedByRegistry(a)
    ensures RouterKeepsContract(a)
  {
  }

  predicate IsFlag(m: Metadata) {
    m.flag && m.session
  }

  /** Neither loaded nor on disk. */
  predicate Absent(m: Metadata) {
    && !(m.loaded && m.disposing) && !LoadedThen(m)
    && !m.cold.findFails && !m.cold.loaded && !m.cold.file
  }

  /** The session's flags could not be read, or its file not be looked for. */
  predicate Unreadable(m: Metadata) {
    !(m.loaded && m.disposing) && !LoadedThen(m) && ColdFails(m.cold)
  }

  /** A flag of a session is applied once, however often the session is loaded or deleted meanwhile; it is rejected
      when its state cannot be read, and ignored only when there is no such session. */
  lemma FlagOutcome(m: Metadata, check: Check, n: Option<Navigation>)
    requires IsFlag(m)
    ensures All(Route(Dispatched(m, check, n)))
         == if Absent(m) then [] else if Unreadable(m) then [Rejected] else [Apply(m.check)]
  {
    assert Applied([m.check]) == [Apply(m.check)];
  }

  /** A valid truncation of a loaded chat is committed exactly when pi has moved to the anchor, and rejected otherwise. */
  lemma TruncationOutcome(m: Metadata, check: Check, n: Navigation)
    requires !IsFlag(m) && Validate(check, false).Valid? && EffectsPass(check)
    requires n.isTruncation && n.chat
    ensures All(Route(Dispatched(m, check, Some(n)))) == [if Navigates(n) then Committed else Rejected]
  {
    assert Applied([]) == [];
  }

  predicate NobodyThere(m: Metadata, check: Check) {
    if IsFlag(m) then Absent(m) else !check.known
  }

  /** Every action gets exactly one envelope, unless what it is for does not exist; then it gets none. */
  lemma OneEnvelopeEach(m: Metadata, check: Check, n: Option<Navigation>)
    ensures |All(Route(Dispatched(m, check, n)))| == if NobodyThere(m, check) then 0 else 1
  {
    if IsFlag(m) {
      FlagOutcome(m, check, n);
    } else {
      var a := Dispatched(m, check, n);
      assert Applied([]) == [] && All(Route(a)) == All(Ordinary(a));
      OrdinaryOutcomes(a);
    }
  }

  /** On every run: no action that goes through the registry's routers ever has two envelopes, whatever else is
      dispatched and however the steps interleave, and each that has been dealt with has its one envelope unless its
      target does not exist. */
  lemma OneEnvelopeOnEveryRun(steps: seq<Step>, i: nat, m: Metadata, check: Check, n: Option<Navigation>)
    requires Trace(Empty, steps)
    requires var h := Run(Empty, steps); i < |h.attempts| && h.attempts[i] == Dispatched(m, check, n)
    ensures var h := Run(Empty, steps);
            && |Told(h.emitted, i)| <= 1
            && i < |h.lanes.tasks|
            && (h.lanes.tasks[i].phase.Done? ==> |Told(h.emitted, i)| == if NobodyThere(m, check) then 0 else 1)
  {
    var h := Run(Empty, steps);
    RunKeeps(Empty, steps);
    OneEnvelopeEach(m, check, n);
    OutcomesOnEveryRun(steps);
    RegistryKeepsContract(h.attempts[i]);
  }
}

/** The same routers as the registry writes them. */
module RegistryRouters {
  import opened Protocol
  import C = ClientActionsSpec
  import Spec = RegistryRoutersSpec

  /** The calls it makes of apply, and whether its promise rejects. */
  method UpdateColdMetadata(cold: Spec.Cold, check: C.Check) returns (applies: seq<C.Check>, rejects: bool)
    ensures applies == if Spec.ColdApplies(cold) then [check] else []
    ensures rejects == Spec.ColdFails(cold)
  {
    if cold.findFails {
      return [], true;
    }
    if cold.loaded {
      return [check], false;
    }
    if !cold.file {
      return [], false;
    }
    if cold.disposing || !cold.isBoolean {
      return [check], false;
    }
    if cold.readFails {
      return [], true;
    }
    if cold.equal {
      return [check], false;
    }
    if cold.otherReadFails {
      return [], true;
    }
    return [check], false;
  }

  method RouteMetadataAction(m: Spec.Metadata) returns (router: C.Router)
    ensures router == Spec.MetadataRouter(m)
  {
    if !m.flag {
      return C.Router([], C.ReturnsFalse);
    }
    if !m.session {
      return C.Router([], C.ReturnsFalse);
    }
    if m.loaded && m.disposing {
      return C.Router([m.check], C.ReturnsVoid);
    }
    if m.pending {
      if m.loadedLater {
        return C.Router([], C.ReturnsPromise([m.check], false));
      }
    } else if m.loaded {
      return C.Router([m.check], C.ReturnsVoid);
    }
    var applies, rejects := UpdateColdMetadata(m.cold, m.check);
    return C.Router([], C.ReturnsPromise(applies, rejects));
  }

  /** Whether it calls apply; if it does not, its promise rejects. */
  method TruncateBeforeCommit(n: Spec.Navigation) returns (applied: bool)
    ensures applied == Spec.Navigates(n)
  {
    if !n.available {
      return false;
    }
    if n.busy {
      return false;
    }
    if !n.anchored {
      return false;
    }
    if !n.whole && !n.loads {
      return false;
    }
    if !n.driver {
      if n.attachFails || !n.attached {
        return false;
      }
    }
    if n.busyLater {
      return false;
    }
    if n.truncateFails || !n.accepted {
      return false;
    }
    return true;
  }

  method RouteTruncationAction(n: Spec.Navigation) returns (truncation: C.Truncation)
    ensures truncation == Spec.TruncationRouter(n)
  {
    if !n.isTruncation {
      return C.Truncation(0, C.Declines);
    }
    if !n.chat {
      return C.Truncation(0, C.Declines);
    }
    var applied := TruncateBeforeCommit(n);
    return C.Truncation(0, C.TruncationPromise(if applied then 1 else 0, !applied));
  }
}
