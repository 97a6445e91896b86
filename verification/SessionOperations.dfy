/**
 Work in per-identity lanes: each new operation runs at once when its lane is idle, and otherwise behind the lane's
 tail. A step is one synchronous stretch; promises settle when an adversary says so. The same discipline orders
 metadata work per session and client actions per channel.
 */
module SerialLanes {
  type Id = nat

  datatype Phase =
    | Waiting(prev: nat)   // chained behind an earlier operation's cleanup
    | Running              // its promise is outstanding
    | Settled              // its promise settled; the cleanup has not run yet
    | Done

  datatype Task = Task(id: Id, phase: Phase)

  datatype Lanes = Lanes(tasks: seq<Task>, tails: map<Id, nat>, starts: seq<nat>)

  /** Whether an operation's synchronous prefix ends with a plain value (or throws) or with a promise. */
  datatype Result = Plain | Promised

  const Empty := Lanes([], map[], [])

  function Submit(s: Lanes, id: Id, result: Result): Lanes {
    var n := |s.tasks|;
    if id in s.tails then Lanes(s.tasks + [Task(id, Waiting(s.tails[id]))], s.tails[id := n], s.starts)
    else if result.Plain? then Lanes(s.tasks + [Task(id, Done)], s.tails, s.starts + [n])
    else Lanes(s.tasks + [Task(id, Running)], s.tails[id := n], s.starts + [n])
  }

  predicate CanStart(s: Lanes, i: nat) {
    && i < |s.tasks| && s.tasks[i].phase.Waiting?
    && s.tasks[i].phase.prev < |s.tasks| && s.tasks[s.tasks[i].phase.prev].phase.Done?
  }

  function SetPhase(s: Lanes, i: nat, phase: Phase): Lanes
    requires i < |s.tasks|
  {
    s.(tasks := s.tasks[i := s.tasks[i].(phase := phase)])
  }

  function Start(s: Lanes, i: nat, result: Result): Lanes
    requires CanStart(s, i)
  {
    SetPhase(s, i, if result.Plain? then Settled else Running).(starts := s.starts + [i])
  }

  function Cleanup(s: Lanes, i: nat): Lanes
    requires i < |s.tasks|
  {
    var id := s.tasks[i].id;
    SetPhase(s, i, Done).(tails := if id in s.tails && s.tails[id] == i then s.tails - {id} else s.tails)
  }

  datatype Step =
    | Submits(id: Id, result: Result)
    | Starts(i: nat, result: Result)
    | Settles(i: nat)                 // fulfilled or rejected: nothing depends on which
    | Cleans(i: nat)

  predicate Enabled(s: Lanes, step: Step) {
    match step
    case Submits(_, _) => true
    case Starts(i, _) => CanStart(s, i)
    case Settles(i) => i < |s.tasks| && s.tasks[i].phase.Running?
    case Cleans(i) => i < |s.tasks| && s.tasks[i].phase.Settled?
  }

  function Next(s: Lanes, step: Step): Lanes
    requires Enabled(s, step)
  {
    match step
    case Submits(id, result) => Submit(s, id, result)
    case Starts(i, result) => Start(s, i, result)
    case Settles(i) => SetPhase(s, i, Settled)
    case Cleans(i) => Cleanup(s, i)
  }

  predicate Trace(s: Lanes, steps: seq<Step>)
    decreases |steps|
  {
    steps == [] || (Enabled(s, steps[0]) && Trace(Next(s, steps[0]), steps[1..]))
  }

  function Run(s: Lanes, steps: seq<Step>): Lanes
    requires Trace(s, steps)
    decreases |steps|
  {
    if steps == [] then s else Run(Next(s, steps[0]), steps[1..])
  }

  // ── What every run keeps ──────────────────────────────────────────────────

  /** A waiting operation waits for the one submitted just before it on its own lane, and for no other. */
  ghost predicate Chained(s: Lanes) {
    forall i :: 0 <= i < |s.tasks| && s.tasks[i].phase.Waiting? ==>
      && s.tasks[i].phase.prev < i && s.tasks[s.tasks[i].phase.prev].id == s.tasks[i].id
      && forall j :: s.tasks[i].phase.prev < j < i ==> s.tasks[j].id != s.tasks[i].id
  }

  /** Nothing starts on a lane before everything submitted earlier on it has finished. */
  ghost predicate OneAtATime(s: Lanes) {
    forall i, j :: 0 <= i < j < |s.tasks| && s.tasks[i].id == s.tasks[j].id && !s.tasks[i].phase.Done? ==>
      s.tasks[j].phase.Waiting?
  }

  /** The tail map holds exactly the lanes with unfinished work, each with its latest operation. */
  ghost predicate TailsExact(s: Lanes) {
    && (forall id :: id in s.tails ==>
          && s.tails[id] < |s.tasks| && s.tasks[s.tails[id]].id == id && !s.tasks[s.tails[id]].phase.Done?
          && forall j :: s.tails[id] < j < |s.tasks| ==> s.tasks[j].id != id)
    && (forall i :: 0 <= i < |s.tasks| && !s.tasks[i].phase.Done? ==> s.tasks[i].id in s.tails)
  }

  /** Operations start in the order in which they were submitted. */
  ghost predicate InOrder(s: Lanes) {
    && (forall a :: 0 <= a < |s.starts| ==> s.starts[a] < |s.tasks| && !s.tasks[s.starts[a]].phase.Waiting?)
    && (forall i :: 0 <= i < |s.tasks| && !s.tasks[i].phase.Waiting? ==> i in s.starts)
    && (forall a, b :: 0 <= a < b < |s.starts| && s.tasks[s.starts[a]].id == s.tasks[s.starts[b]].id ==> s.starts[a] < s.starts[b])
  }

  ghost predicate Inv(s: Lanes) {
    Chained(s) && OneAtATime(s) && TailsExact(s) && InOrder(s)
  }

  lemma SubmitChained(s: Lanes, id: Id, result: Result)
    requires Chained(s) && TailsExact(s)
    ensures Chained(Submit(s, id, result))
  {
  }

  /** A lane with no tail has nothing unfinished, so an operation appended to it may run at once. */
  lemma SubmitSerial(s: Lanes, id: Id, result: Result)
    requires OneAtATime(s) && TailsExact(s)
    ensures OneAtATime(Submit(s, id, result))
  {
    var e := Submit(s, id, result);
    forall i | 0 <= i < |s.tasks| && s.tasks[i].id == id && !s.tasks[i].phase.Done?
      ensures e.tasks[|s.tasks|].phase.Waiting?
    {
      assert id in s.tails;
    }
  }

  lemma SubmitTails(s: Lanes, id: Id, result: Result)
    requires TailsExact(s)
    ensures TailsExact(Submit(s, id, result))
  {
  }

  lemma SubmitOrder(s: Lanes, id: Id, result: Result)
    requires InOrder(s)
    ensures InOrder(Submit(s, id, result))
  {
    var e := Submit(s, id, result);
    forall i | 0 <= i < |e.tasks| && !e.tasks[i].phase.Waiting? ensures i in e.starts {
      if i == |s.tasks| { assert e.starts[|s.starts|] == i; } else { assert i in s.starts; }
    }
  }

  /** When the operation before it is done, so is everything before it. */
  lemma StartIsNext(s: Lanes, i: nat)
    requires Chained(s) && OneAtATime(s) && CanStart(s, i)
    ensures forall j :: 0 <= j < i && s.tasks[j].id == s.tasks[i].id ==> s.tasks[j].phase.Done?
  {
    var p := s.tasks[i].phase.prev;
    forall j | 0 <= j < i && s.tasks[j].id == s.tasks[i].id ensures s.tasks[j].phase.Done? {
      assert j <= p;
    }
  }

  lemma StartSerial(s: Lanes, i: nat, result: Result)
    requires OneAtATime(s) && CanStart(s, i)
    requires forall j :: 0 <= j < i && s.tasks[j].id == s.tasks[i].id ==> s.tasks[j].phase.Done?
    ensures OneAtATime(Start(s, i, result))
  {
  }

  lemma StartTails(s: Lanes, i: nat, result: Result)
    requires Chained(s) && TailsExact(s) && CanStart(s, i)
    ensures Chained(Start(s, i, result)) && TailsExact(Start(s, i, result))
  {
  }

  lemma StartOrder(s: Lanes, i: nat, result: Result)
    requires InOrder(s) && OneAtATime(s) && CanStart(s, i)
    ensures InOrder(Start(s, i, result))
  {
    var e := Start(s, i, result);
    assert e.starts[|s.starts|] == i;
    forall j | 0 <= j < |e.tasks| && !e.tasks[j].phase.Waiting? ensures j in e.starts {
      assert j == i || j in s.starts;
    }
    forall a | 0 <= a < |s.starts| && s.tasks[s.starts[a]].id == s.tasks[i].id ensures s.starts[a] < i {
      assert !s.tasks[i].phase.Done? && !s.tasks[s.starts[a]].phase.Waiting?;
    }
  }

  lemma SettleSerial(s: Lanes, i: nat)
    requires Chained(s) && OneAtATime(s) && Enabled(s, Settles(i))
    ensures Chained(Next(s, Settles(i))) && OneAtATime(Next(s, Settles(i)))
  {
  }

  lemma SettleTails(s: Lanes, i: nat)
    requires TailsExact(s) && Enabled(s, Settles(i))
    ensures TailsExact(Next(s, Settles(i)))
  {
  }

  lemma SettleOrder(s: Lanes, i: nat)
    requires InOrder(s) && Enabled(s, Settles(i))
    ensures InOrder(Next(s, Settles(i)))
  {
  }

  lemma CleanupSerial(s: Lanes, i: nat)
    requires Chained(s) && OneAtATime(s) && InOrder(s) && Enabled(s, Cleans(i))
    ensures Chained(Cleanup(s, i)) && OneAtATime(Cleanup(s, i)) && InOrder(Cleanup(s, i))
  {
  }

  lemma CleanupTails(s: Lanes, i: nat)
    requires TailsExact(s) && OneAtATime(s) && Enabled(s, Cleans(i))
    ensures TailsExact(Cleanup(s, i))
  {
    var e := Cleanup(s, i);
    forall j | 0 <= j < |e.tasks| && !e.tasks[j].phase.Done? ensures e.tasks[j].id in e.tails {
      assert s.tasks[j].id in s.tails;
    }
  }

  lemma StepKeeps(s: Lanes, step: Step)
    requires Inv(s) && Enabled(s, step)
    ensures Inv(Next(s, step))
  {
    match step
    case Submits(id, result) => SubmitChained(s, id, result); SubmitSerial(s, id, result); SubmitTails(s, id, result); SubmitOrder(s, id, result);
    case Starts(i, result) => StartIsNext(s, i); StartSerial(s, i, result); StartTails(s, i, result); StartOrder(s, i, result);
    case Settles(i) => SettleSerial(s, i); SettleTails(s, i); SettleOrder(s, i);
    case Cleans(i) => CleanupSerial(s, i); CleanupTails(s, i);
  }

  lemma {:induction false} RunKeeps(s: Lanes, steps: seq<Step>)
    requires Inv(s) && Trace(s, steps)
    ensures Inv(Run(s, steps))
    decreases |steps|
  {
    if steps != [] {
      StepKeeps(s, steps[0]);
      RunKeeps(Next(s, steps[0]), steps[1..]);
    }
  }

  /** On every run, whatever settles and in whichever way: operations of one identity never overlap, start in the
      order they were submitted in, wait only for their own lane, and the tail map holds just the unfinished lanes. */
  lemma SerialExecution(steps: seq<Step>)
    requires Trace(Empty, steps)
    ensures var s := Run(Empty, steps); OneAtATime(s) && InOrder(s) && Chained(s) && TailsExact(s)
  {
    RunKeeps(Empty, steps);
  }

  /** No operation is lost, and no lane waits on another: the first unfinished operation of a lane can always take its next
      step, or is waiting for its own promise alone. */
  lemma LaneProgresses(s: Lanes, i: nat)
    requires Inv(s) && i < |s.tasks| && !s.tasks[i].phase.Done?
    requires forall j :: 0 <= j < i && s.tasks[j].id == s.tasks[i].id ==> s.tasks[j].phase.Done?
    ensures Enabled(s, Settles(i)) || Enabled(s, Cleans(i)) || Enabled(s, Starts(i, Promised))
  {
  }

  /** A step on one lane leaves every other lane's operations and tail as they were. */
  lemma LanesAreIndependent(s: Lanes, step: Step, id: Id)
    requires Enabled(s, step)
    requires match step case Submits(of, _) => of != id case Starts(i, _) => s.tasks[i].id != id
             case Settles(i) => s.tasks[i].id != id case Cleans(i) => s.tasks[i].id != id
    ensures var e := Next(s, step);
            && (id in e.tails <==> id in s.tails) && (id in s.tails ==> e.tails[id] == s.tails[id])
            && |s.tasks| <= |e.tasks|
            && (forall i :: 0 <= i < |s.tasks| && s.tasks[i].id == id ==> e.tasks[i] == s.tasks[i])
            && (forall i :: |s.tasks| <= i < |e.tasks| ==> e.tasks[i].id != id)
  {
  }
}

module SessionOperations {
  import Spec = SerialLanes

  /** Orders metadata work, creation, deletion and materialization for each session identity. */
  class SessionOperations {
    var tails: map<Spec.Id, nat>
    ghost var tasks: seq<Spec.Task>
    ghost var starts: seq<nat>
    var submitted: nat

    ghost function View(): Spec.Lanes
      reads this
    {
      Spec.Lanes(tasks, tails, starts)
    }

    ghost predicate Valid()
      reads this
    {
      submitted == |tasks|
    }

    constructor ()
      ensures Valid() && View() == Spec.Empty
    {
      tails, tasks, starts, submitted := map[], [], [], 0;
    }

    /** Runs an operation whose synchronous prefix would end with `result`; tells whether it ran at once. */
    method Submit(id: Spec.Id, result: Spec.Result) returns (ranAtOnce: bool)
      requires Valid()
      modifies this
      ensures Valid() && View() == Spec.Submit(old(View()), id, result)
      ensures ranAtOnce == (id !in old(tails))
    {
      ranAtOnce := id !in tails;
      if !ranAtOnce {
        tasks := tasks + [Spec.Task(id, Spec.Waiting(tails[id]))];
        Track(id);
      } else {
        starts := starts + [submitted];
        tasks := tasks + [Spec.Task(id, if result.Plain? then Spec.Done else Spec.Running)];
        if result.Promised? {
          Track(id);
        } else {
          submitted := submitted + 1;
        }
      }
    }

    method Track(id: Spec.Id)
      requires submitted + 1 == |tasks|
      modifies this`tails, this`submitted
      ensures Valid() && tails == old(tails)[id := old(submitted)]
    {
      tails := tails[id := submitted];
      submitted := submitted + 1;
    }

    /** The finally callback of operation i, once its operation has settled. */
    method Cleanup(id: Spec.Id, i: nat)
      requires Valid() && i < submitted && tasks[i].id == id
      modifies this
      ensures Valid() && View() == Spec.Cleanup(old(View()), i)
    {
      tasks := tasks[i := tasks[i].(phase := Spec.Done)];
      if id in tails && tails[id] == i {
        tails := tails - {id};
      }
    }
  }
}
