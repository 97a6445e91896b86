/**
 Refreshing one session's changesets: requests set a flag, one loop at a time consumes it, and a debounce timer stands
 in for the loop while it is not running. Between two awaits of the loop anything else may happen.
 */
module ChangesetRefreshSpec {
  /** Where the running loop is suspended; Ended is the gap between its last check and its cleanup. */
  datatype Pc = Probing | Inspecting | ClosingWatcher | EnsuringWatcher | Scanning | Ended

  datatype Loop = Stopped | Running(pc: Pc)

  /** `attempts` counts refreshes started; `unseen` says that a refresh was called for since the last of them started,
      and that neither lost interest nor suspension nor disposal has come between. */
  datatype Entry = Entry(
    loop: Loop, requested: bool, timer: bool, suspended: bool, disposed: bool,
    latestCommit: nat, uncommitted: nat,   // subscribers of the two changesets
    attempts: nat, unseen: bool)

  const Initial := Entry(Stopped, false, false, false, false, 0, 0, 0, false)

  predicate HasInterest(s: Entry) {
    s.latestCommit > 0 || s.uncommitted > 0
  }

  predicate Accepts(s: Entry) {
    !s.disposed && !s.suspended && HasInterest(s)
  }

  function StartAttempt(s: Entry): Entry {
    s.(requested := false, loop := Running(Probing), attempts := s.attempts + 1, unseen := false)
  }

  /** The loop's condition, at its start and after every refresh. */
  function LoopCheck(s: Entry): Entry {
    if s.requested && !s.suspended && !s.disposed then StartAttempt(s) else s.(loop := Running(Ended))
  }

  function RequestRefresh(s: Entry): Entry {
    if !Accepts(s) then s
    else
      var s1 := s.(requested := true, timer := false, unseen := true);
      if s1.loop.Running? then s1 else LoopCheck(s1)
  }

  function ScheduleRefresh(s: Entry): Entry {
    if !Accepts(s) then s
    else s.(requested := true, unseen := true, timer := s.timer || s.loop.Stopped?)
  }

  datatype Changeset = LatestCommit | Uncommitted

  function SubscriberChanged(s: Entry, which: Changeset, count: nat): Entry {
    var s1 := if which.LatestCommit? then s.(latestCommit := count) else s.(uncommitted := count);
    if s1.disposed then s1                                   // no longer hooked to the host
    else if count > 0 then RequestRefresh(s1)
    else if !HasInterest(s1) then s1.(requested := false, unseen := false)
    else s1
  }

  function Suspend(s: Entry): Entry {
    s.(suspended := true, requested := false, timer := false, unseen := false)
  }

  function Resume(s: Entry): Entry {
    if s.disposed then s else RequestRefresh(s.(suspended := false))
  }

  function Cleanup(s: Entry): Entry
    requires s.loop == Running(Ended)
  {
    var s1 := s.(loop := Stopped);
    if s1.requested then RequestRefresh(s1) else s1
  }

  datatype Inspection = InspectionFails | NoWorkspace | Workspace

  datatype Step =
    | Subscribers(which: Changeset, count: nat)
    | Changed                       // a watcher reports a change
    | TurnEnds
    | Suspends
    | Resumes
    | Disposes
    | TimerFires
    | ProbeSettles
    | Inspected(inspection: Inspection, publishable: bool)
    | WatcherClosed
    | WatcherEnsured(publishable: bool)
    | Scanned
    | LoopThrows                    // a refresh rejects, and the loop with it
    | CleansUp

  predicate At(s: Entry, pc: Pc) {
    s.loop == Running(pc)
  }

  predicate Enabled(s: Entry, step: Step) {
    match step
    case TimerFires => s.timer
    case ProbeSettles => At(s, Probing)
    case Inspected(_, _) => At(s, Inspecting)
    case WatcherClosed => At(s, ClosingWatcher)
    case WatcherEnsured(_) => At(s, EnsuringWatcher)
    case Scanned => At(s, Scanning)
    case LoopThrows => s.loop.Running? && !At(s, Ended)
    case CleansUp => At(s, Ended)
    case Subscribers(_, _) => true
    case Changed => true
    case TurnEnds => true
    case Suspends => true
    case Resumes => true
    case Disposes => true
  }

  function Next(s: Entry, step: Step): Entry
    requires Enabled(s, step)
  {
    match step
    case Subscribers(which, count) => SubscriberChanged(s, which, count)
    case Changed => ScheduleRefresh(s)
    case TurnEnds => if !s.disposed && HasInterest(s) then RequestRefresh(s) else s
    case Suspends => Suspend(s)
    case Resumes => Resume(s)
    case Disposes => Suspend(s.(disposed := true))
    case TimerFires => RequestRefresh(s.(timer := false))
    case ProbeSettles => if s.suspended || s.disposed then LoopCheck(s) else s.(loop := Running(Inspecting))
    case Inspected(inspection, publishable) =>
      if inspection.InspectionFails? || s.suspended || s.disposed || !publishable then LoopCheck(s)
      else s.(loop := Running(if inspection.NoWorkspace? then ClosingWatcher else EnsuringWatcher))
    case WatcherClosed => LoopCheck(s)
    case WatcherEnsured(publishable) =>
      if s.suspended || s.disposed || !publishable then LoopCheck(s) else s.(loop := Running(Scanning))
    case Scanned => LoopCheck(s)
    case LoopThrows => s.(loop := Running(Ended))
    case CleansUp => Cleanup(s)
  }

  predicate Trace(s: Entry, steps: seq<Step>)
    decreases |steps|
  {
    steps == [] || (Enabled(s, steps[0]) && Trace(Next(s, steps[0]), steps[1..]))
  }

  function Run(s: Entry, steps: seq<Step>): Entry
    requires Trace(s, steps)
    decreases |steps|
  {
    if steps == [] then s else Run(Next(s, steps[0]), steps[1..])
  }

  // ── No lost wake-up ───────────────────────────────────────────────────────

  /** A request is pending only while it may be served, and then a loop is running or a timer armed, never both; and
      whatever was called for since the last refresh started is still requested. */
  predicate Inv(s: Entry) {
    && (s.requested ==> Accepts(s))
    && (s.requested ==> s.loop.Running? || s.timer)
    && (s.timer ==> s.loop.Stopped? && !s.disposed && !s.suspended)
    && (s.unseen ==> s.requested)
  }

  lemma StepKeeps(s: Entry, step: Step)
    requires Inv(s) && Enabled(s, step)
    ensures Inv(Next(s, step))
  {
  }

  lemma {:induction false} RunKeeps(s: Entry, steps: seq<Step>)
    requires Inv(s) && Trace(s, steps)
    ensures Inv(Run(s, steps))
    decreases |steps|
  {
    if steps != [] {
      StepKeeps(s, steps[0]);
      RunKeeps(Next(s, steps[0]), steps[1..]);
    }
  }

  /** In every reachable state a pending request has a running loop or an armed timer behind it. */
  lemma NoLostRefresh(steps: seq<Step>)
    requires Trace(Initial, steps)
    ensures var s := Run(Initial, steps);
            && (s.requested && HasInterest(s) && !s.suspended && !s.disposed ==> s.loop.Running? || s.timer)
            && (s.unseen ==> s.requested && HasInterest(s) && !s.suspended && !s.disposed)
  {
    RunKeeps(Initial, steps);
  }

  /** A step the service takes by itself: its timer, the awaited work of its loop, its cleanup. */
  predicate Internal(step: Step) {
    match step
    case TimerFires => true
    case ProbeSettles => true
    case Inspected(_, _) => true
    case WatcherClosed => true
    case WatcherEnsured(_) => true
    case Scanned => true
    case LoopThrows => true
    case CleansUp => true
    case _ => false
  }

  /** How many of the service's own steps may pass before the next refresh starts. */
  function Distance(s: Entry): nat {
    match s.loop
    case Stopped => 1
    case Running(pc) =>
      match pc
      case Ended => 1
      case Scanning => 2
      case EnsuringWatcher => 3
      case ClosingWatcher => 2
      case Inspecting => 4
      case Probing => 5
  }

  /** While something is unseen, one of the service's own steps is always possible; each of them starts a new refresh
      or brings it nearer, and nothing else puts it off, short of lost interest, suspension or disposal. */
  lemma UnseenComesNearer(s: Entry, step: Step)
    requires Inv(s) && s.unseen && Enabled(s, step)
    ensures var e := Next(s, step);
            || e.attempts > s.attempts
            || (e.unseen && Distance(e) <= Distance(s) && (Internal(step) ==> Distance(e) < Distance(s)))
            || (!e.unseen && !Accepts(e))
  {
  }

  lemma UnseenIsNotStuck(s: Entry)
    requires Inv(s) && s.unseen
    ensures exists step: Step :: Internal(step) && !step.LoopThrows? && Enabled(s, step)
  {
    match s.loop
    case Stopped => assert Internal(TimerFires) && Enabled(s, TimerFires);
    case Running(pc) =>
      var step := match pc
                  case Probing => ProbeSettles
                  case Inspecting => Inspected(Workspace, true)
                  case ClosingWatcher => WatcherClosed
                  case EnsuringWatcher => WatcherEnsured(true)
                  case Scanning => Scanned
                  case Ended => CleansUp;
      assert Internal(step) && Enabled(s, step);
  }

  function InternalSteps(steps: seq<Step>): nat {
    if steps == [] then 0 else (if Internal(steps[0]) then 1 else 0) + InternalSteps(steps[1..])
  }

  /** Interest, once lost, or a suspension or disposal, is what a run has to contain to drop a change. */
  predicate Interrupted(s: Entry, steps: seq<Step>)
    requires Trace(s, steps)
    decreases |steps|
  {
    steps != [] && (!Accepts(Next(s, steps[0])) || Interrupted(Next(s, steps[0]), steps[1..]))
  }

  /** A change observed at any moment, also in the middle of a scan, is followed by a refresh that starts after it
      within five of the service's own steps, unless interest is lost or the session is suspended or disposed first. */
  lemma {:induction false} ChangeIsFollowedByRefresh(s: Entry, steps: seq<Step>)
    requires Inv(s) && s.unseen && Trace(s, steps) && !Interrupted(s, steps)
    requires InternalSteps(steps) >= Distance(s)
    ensures Run(s, steps).attempts > s.attempts
    decreases |steps|
  {
    var e := Next(s, steps[0]);
    StepKeeps(s, steps[0]);
    UnseenComesNearer(s, steps[0]);
    if e.attempts > s.attempts {
      AttemptsGrow(e, steps[1..]);
    } else {
      ChangeIsFollowedByRefresh(e, steps[1..]);
    }
  }

  lemma {:induction false} AttemptsGrow(s: Entry, steps: seq<Step>)
    requires Trace(s, steps)
    ensures Run(s, steps).attempts >= s.attempts
    decreases |steps|
  {
    if steps != [] { AttemptsGrow(Next(s, steps[0]), steps[1..]); }
  }

  /** Observing a change is what makes it unseen. */
  lemma ObservedChangeIsUnseen(s: Entry)
    requires Inv(s) && Accepts(s)
    ensures var e := Next(s, Changed); Inv(e) && e.unseen && e.attempts == s.attempts && Distance(e) <= 5
  {
  }
}

/** The entry in its own form. */
module ChangesetRefresh {
  import Spec = ChangesetRefreshSpec

  class SessionEntry {
    var refresh: Spec.Loop
    var refreshRequested: bool
    var refreshTimer: bool
    var suspended: bool
    var disposed: bool
    var latestCommit: nat
    var uncommitted: nat
    var attempts: nat
    var unseen: bool

    function View(): Spec.Entry
      reads this
    {
      Spec.Entry(refresh, refreshRequested, refreshTimer, suspended, disposed, latestCommit, uncommitted, attempts, unseen)
    }

    constructor ()
      ensures View() == Spec.Initial
    {
      refresh, refreshRequested, refreshTimer, suspended, disposed := Spec.Stopped, false, false, false, false;
      latestCommit, uncommitted, attempts, unseen := 0, 0, 0, false;
    }

    method HasInterest() returns (interest: bool)
      ensures interest == Spec.HasInterest(View())
    {
      interest := latestCommit > 0 || uncommitted > 0;
    }

    /** One turn of the loop's condition, up to the first await of the refresh it starts. */
    method RefreshLoop()
      modifies this
      ensures View() == Spec.LoopCheck(old(View()))
    {
      if refreshRequested && !suspended && !disposed {
        refreshRequested := false;
        unseen := false;
        attempts := attempts + 1;
        refresh := Spec.Running(Spec.Probing);
      } else {
        refresh := Spec.Running(Spec.Ended);
      }
    }

    method RequestRefresh()
      modifies this
      ensures View() == Spec.RequestRefresh(old(View()))
    {
      var interest := HasInterest();
      if disposed || suspended || !interest {
        return;
      }
      refreshRequested := true;
      unseen := true;
      if refreshTimer {
        refreshTimer := false;
      }
      if refresh.Running? {
        return;
      }
      RefreshLoop();
    }

    method ScheduleRefresh()
      modifies this
      ensures View() == Spec.ScheduleRefresh(old(View()))
    {
      var interest := HasInterest();
      if disposed || suspended || !interest {
        return;
      }
      refreshRequested := true;
      unseen := true;
      if refresh.Running? || refreshTimer {
        return;
      }
      refreshTimer := true;
    }

    /** The finally callback of the loop. */
    method Cleanup()
      requires refresh == Spec.Running(Spec.Ended)
      modifies this
      ensures View() == Spec.Cleanup(old(View()))
    {
      refresh := Spec.Stopped;
      if refreshRequested {
        RequestRefresh();
      }
    }

    method SubscriberChanged(which: Spec.Changeset, count: nat)
      modifies this
      ensures View() == Spec.SubscriberChanged(old(View()), which, count)
    {
      if which.LatestCommit? {
        latestCommit := count;
      } else {
        uncommitted := count;
      }
      if disposed {
        return;
      }
      if count > 0 {
        RequestRefresh();
        return;
      }
      var interest := HasInterest();
      if !interest {
        refreshRequested := false;
        unseen := false;
      }
    }

    method Suspend()
      modifies this
      ensures View() == Spec.Suspend(old(View()))
    {
      suspended := true;
      refreshRequested := false;
      unseen := false;
      if refreshTimer {
        refreshTimer := false;
      }
    }

    method Resume()
      modifies this
      ensures View() == Spec.Resume(old(View()))
    {
      if disposed {
        return;
      }
      suspended := false;
      RequestRefresh();
    }
  }
}
