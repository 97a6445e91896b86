/**
 Drives one chat against a pi backend. Every stretch of code between two awaits is one step;
 what an asynchronous operation is waiting for is its program counter, and an adversary decides
 when promises settle. An operation whose awaited promise has settled runs before any unrelated step.
 */
module ChatDriverSpec {
  import opened Protocol

  /** Where a prompt operation stands. */
  datatype Pc =
    | AwaitingCancellation(generation: nat)
    | AwaitingGate(gate: nat, selected: bool)
    | SelectingModel
    | Prompting
    | Settled

  datatype Operation = Operation(run: nat, picksModel: bool, pc: Pc)

  /** A client cancellation: it waits for the previous one, then for the backend's abort and the turn's operation. */
  datatype Cancellation = Cancellation(called: bool, abortSettled: bool, operation: Option<nat>, done: bool)

  datatype Phase = Accepting | Aborting(run: Option<nat>) | Draining | Drained | Quiesced

  datatype Result = PromptOk | PromptFailed

  datatype Driver = Driver(
    run: Option<nat>,
    runs: nat,                          // runs begun so far; run ids are 0, 1, …
    turnOperation: Option<nat>,
    operations: seq<Operation>,
    cancellation: Option<nat>,
    cancellations: seq<Cancellation>,   // its length is the cancellation generation
    quiesced: bool,
    gate: Option<nat>,
    gates: nat,
    aborted: set<nat>,
    results: map<nat, Result>,
    phase: Phase,
    queue: seq<nat>,
    withModel: set<nat>,                // queued messages that name a model
    started: seq<nat>)                  // queued messages started so far

  function Idle(): Driver {
    Driver(None, 0, None, [], None, [], false, None, 0, {}, map[], Accepting, [], {}, [])
  }

  // ── Prompt operations ─────────────────────────────────────────────────────

  predicate Superseded(d: Driver, run: nat) {
    d.run != Some(run) || d.quiesced || run in d.aborted
  }

  function SetPc(d: Driver, o: nat, pc: Pc): Driver
    requires o < |d.operations|
  {
    d.(operations := d.operations[o := d.operations[o].(pc := pc)],
       turnOperation := if pc.Settled? && d.turnOperation == Some(o) then None else d.turnOperation)
  }

  /** After the model is chosen: the last check before the backend is called. */
  function CheckThenPrompt(d: Driver, o: nat): Driver
    requires o < |d.operations|
  {
    SetPc(d, o, if Superseded(d, d.operations[o].run) then Settled else Prompting)
  }

  function AfterModel(d: Driver, o: nat): Driver
    requires o < |d.operations|
  {
    if d.gate.Some? then SetPc(d, o, AwaitingGate(d.gate.value, true)) else CheckThenPrompt(d, o)
  }

  function CheckThenModel(d: Driver, o: nat): Driver
    requires o < |d.operations|
  {
    if Superseded(d, d.operations[o].run) then SetPc(d, o, Settled)
    else if d.operations[o].picksModel then SetPc(d, o, SelectingModel)
    else AfterModel(d, o)
  }

  function AfterCancellation(d: Driver, o: nat): Driver
    requires o < |d.operations|
  {
    if d.gate.Some? then SetPc(d, o, AwaitingGate(d.gate.value, false)) else CheckThenModel(d, o)
  }

  function RunPrompt(d: Driver, run: nat, picksModel: bool): Driver {
    var o := |d.operations|;
    var pc := if d.cancellation.Some? then AwaitingCancellation(d.cancellation.value) else SelectingModel;
    var d1 := d.(operations := d.operations + [Operation(run, picksModel, pc)], turnOperation := Some(o));
    if d.cancellation.Some? then d1 else AfterCancellation(d1, o)
  }

  function BeginRun(d: Driver): Driver {
    d.(run := Some(d.runs), runs := d.runs + 1)
  }

  /** The driver with the head of its queue taken. */
  function Dequeued(d: Driver): Driver
    requires d.queue != []
  {
    d.(queue := d.queue[1..], started := d.started + [d.queue[0]])
  }

  function ConsumeNext(d: Driver): Driver {
    if d.quiesced || d.cancellation.Some? || d.queue == [] || d.run.Some? then d
    else RunPrompt(BeginRun(Dequeued(d)), d.runs, d.queue[0] in d.withModel)
  }

  function FinishTurn(d: Driver): Driver {
    if d.run.None? then d else ConsumeNext(d.(run := None))
  }

  function SettlePrompt(d: Driver, run: nat, result: Result): Driver {
    if d.run != Some(run) then d
    else if d.quiesced then d.(results := d.results[run := result])
    else FinishTurn(d)
  }

  function Resume(d: Driver): Driver {
    if !d.quiesced then d
    else
      var d1 := d.(quiesced := false, gate := None);
      if d.run.Some? && d.run.value in d.results then SettlePrompt(d1, d.run.value, d.results[d.run.value])
      else ConsumeNext(d1)
  }

  // ── Steps ─────────────────────────────────────────────────────────────────

  datatype Step =
    | Start(picksModel: bool)              // client chat/turnStarted, accepted with no run active
    | Enqueue(id: nat, picksModel: bool)   // client queues a message, or replaces a queued one
    | Requeue(queue: seq<nat>)             // client removes or reorders queued messages
    | Cancel(matches: bool)                // client chat/turnCancelled
    | CancelCalls(c: nat)                  // the previous cancellation settled; backend.abort() is called
    | AbortSettles(c: nat)
    | CancelSettles(c: nat)
    | Wake(o: nat)                         // the promise an operation awaited has settled
    | ModelSelected(o: nat)
    | PromptSettles(o: nat, result: Result)
    | Quiesce
    | QuiesceAborted                       // quiesce: backend.abort() resolved
    | QuiesceFailed                        // quiesce: backend.abort() rejected
    | DrainEnds
    | QuiesceEnds
    | ResumeCalled                         // the owner's disposal failed after quiescence

  predicate Runnable(d: Driver, o: nat)
    requires o < |d.operations|
  {
    match d.operations[o].pc
    case AwaitingCancellation(g) => g < |d.cancellations| && d.cancellations[g].done
    case AwaitingGate(g, _) => d.gate != Some(g)
    case _ => false
  }

  predicate SomeoneRunnable(d: Driver) {
    exists o :: 0 <= o < |d.operations| && Runnable(d, o)
  }

  predicate AllSettled(d: Driver) {
    && (forall o :: 0 <= o < |d.operations| ==> d.operations[o].pc.Settled?)
    && (forall c :: 0 <= c < |d.cancellations| ==> d.cancellations[c].done)
  }

  predicate Enabled(d: Driver, step: Step) {
    && (SomeoneRunnable(d) ==> step.Wake?)
    && match step
       case Start(_) => d.run.None?
       case Enqueue(id, _) => id in d.queue || id !in d.started
       case Requeue(queue) => multiset(queue) <= multiset(d.queue)
       case Cancel(_) => true
       case CancelCalls(c) => c < |d.cancellations| && !d.cancellations[c].called && (c == 0 || d.cancellations[c - 1].done)
       case AbortSettles(c) => c < |d.cancellations| && d.cancellations[c].called && !d.cancellations[c].abortSettled
       case CancelSettles(c) =>
         && c < |d.cancellations| && d.cancellations[c].abortSettled && !d.cancellations[c].done
         && OperationSettled(d, d.cancellations[c].operation)
       case Wake(o) => o < |d.operations| && Runnable(d, o)
       case ModelSelected(o) => o < |d.operations| && d.operations[o].pc.SelectingModel?
       case PromptSettles(o, _) => o < |d.operations| && d.operations[o].pc.Prompting?
       case Quiesce => d.phase.Accepting?
       case QuiesceAborted => d.phase.Aborting?
       case QuiesceFailed => d.phase.Aborting?
       case DrainEnds => d.phase.Draining? && AllSettled(d)
       case QuiesceEnds => d.phase.Drained?
       case ResumeCalled => d.phase.Quiesced?
  }

  predicate OperationSettled(d: Driver, o: Option<nat>) {
    o.Some? ==> o.value < |d.operations| && d.operations[o.value].pc.Settled?
  }

  function CancelTurn(d: Driver, matches: bool): Driver {
    if d.run.Some? && !matches then d
    else
      d.(aborted := if d.run.Some? then d.aborted + {d.run.value} else d.aborted,
         run := None,
         cancellations := d.cancellations + [Cancellation(false, false, d.turnOperation, false)],
         cancellation := Some(|d.cancellations|))
  }

  function SettleCancellation(d: Driver, c: nat): Driver
    requires c < |d.cancellations|
  {
    var d1 := d.(cancellations := d.cancellations[c := d.cancellations[c].(done := true)]);
    if c + 1 != |d.cancellations| then d1 else ConsumeNext(d1.(cancellation := None))
  }

  function Woken(d: Driver, o: nat): Driver
    requires o < |d.operations|
  {
    match d.operations[o].pc
    case AwaitingCancellation(_) => AfterCancellation(d, o)
    case AwaitingGate(_, selected) => if selected then CheckThenPrompt(d, o) else CheckThenModel(d, o)
    case _ => d
  }

  function Queue(d: Driver, id: nat, picksModel: bool): Driver {
    d.(queue := if id in d.queue then d.queue else d.queue + [id],
       withModel := if picksModel then d.withModel + {id} else d.withModel - {id})
  }

  function Next(d: Driver, step: Step): Driver
    requires Enabled(d, step)
  {
    match step
    case Start(picksModel) => RunPrompt(BeginRun(d), d.runs, picksModel)
    case Enqueue(id, picksModel) => ConsumeNext(Queue(d, id, picksModel))
    case Requeue(queue) => d.(queue := queue)
    case Cancel(matches) => CancelTurn(d, matches)
    case CancelCalls(c) => d.(cancellations := d.cancellations[c := d.cancellations[c].(called := true)])
    case AbortSettles(c) => d.(cancellations := d.cancellations[c := d.cancellations[c].(abortSettled := true)])
    case CancelSettles(c) => SettleCancellation(d, c)
    case Wake(o) => Woken(d, o)
    case ModelSelected(o) => AfterModel(d, o)
    case PromptSettles(o, result) => SettlePrompt(SetPc(d, o, Settled), d.operations[o].run, result)
    case Quiesce => d.(quiesced := true, gate := Some(d.gates), gates := d.gates + 1, phase := Aborting(d.run))
    case QuiesceAborted =>
      d.(aborted := if d.phase.run.Some? then d.aborted + {d.phase.run.value} else d.aborted, gate := None, phase := Draining)
    case QuiesceFailed => Resume(d).(phase := Accepting)
    case DrainEnds => d.(phase := Drained)
    case QuiesceEnds => FinishTurn(d).(phase := Quiesced)
    case ResumeCalled => Resume(d).(phase := Accepting)
  }

  predicate Trace(d: Driver, steps: seq<Step>)
    decreases |steps|
  {
    steps == [] || (Enabled(d, steps[0]) && Trace(Next(d, steps[0]), steps[1..]))
  }

  function Run(d: Driver, steps: seq<Step>): Driver
    requires Trace(d, steps)
    decreases |steps|
  {
    if steps == [] then d else Run(Next(d, steps[0]), steps[1..])
  }

  // ── One prompt at a time ──────────────────────────────────────────────────

  ghost predicate Owned(d: Driver, o: nat)
    requires o < |d.operations|
  {
    || d.run == Some(d.operations[o].run)
    || exists c :: 0 <= c < |d.cancellations| && !d.cancellations[c].done && d.cancellations[c].operation == Some(o)
  }

  /** Ids are in range and every run has at most one operation. */
  ghost predicate Ids(d: Driver) {
    && (d.run.Some? ==> d.run.value < d.runs)
    && (d.turnOperation.Some? ==> d.turnOperation.value < |d.operations|)
    && (forall o :: 0 <= o < |d.operations| ==> d.operations[o].run < d.runs)
    && (forall o, p :: 0 <= o < p < |d.operations| ==> d.operations[o].run != d.operations[p].run)
    && (forall r :: r in d.aborted ==> r < d.runs)
    && (forall o :: 0 <= o < |d.operations| && d.operations[o].run in d.results ==> d.operations[o].pc.Settled?)
    && (forall r :: r in d.results ==> r < d.runs)
    && (d.gate.Some? ==> d.quiesced && d.gate.value < d.gates)
    && (d.quiesced <==> !d.phase.Accepting?)
    && (d.phase.Aborting? && d.phase.run.Some? ==> d.phase.run.value < d.runs)
  }

  /** A cancellation is done only once its backend abort and its turn's operation have settled; the pending one,
      if any, is the newest. */
  ghost predicate Chained(d: Driver) {
    && (d.cancellation.Some? ==> d.cancellation.value + 1 == |d.cancellations| && !d.cancellations[d.cancellation.value].done)
    && (d.cancellation.None? ==> forall c :: 0 <= c < |d.cancellations| ==> d.cancellations[c].done)
    && (forall c :: 0 <= c < |d.cancellations| && d.cancellations[c].done ==>
          d.cancellations[c].abortSettled && OperationSettled(d, d.cancellations[c].operation))
    && (forall c :: 0 <= c < |d.cancellations| && d.cancellations[c].abortSettled ==> d.cancellations[c].called)
    && (forall c :: 0 < c < |d.cancellations| && d.cancellations[c].called ==> d.cancellations[c - 1].done)
  }

  /** Past the barrier, an operation of the current run has no cancellation pending. */
  ghost predicate Barrier(d: Driver, o: nat)
    requires o < |d.operations|
  {
    match d.operations[o].pc
    case AwaitingCancellation(generation) => generation + 1 == |d.cancellations|
    case Settled => true
    case _ => d.cancellation.None?
  }

  ghost predicate Ownership(d: Driver) {
    && (forall o :: 0 <= o < |d.operations| && d.run == Some(d.operations[o].run) ==>
          Barrier(d, o) && (d.operations[o].pc.Settled? || d.turnOperation == Some(o)))
    && (forall o :: 0 <= o < |d.operations| && d.operations[o].pc.Prompting? ==> Owned(d, o))
    && (d.phase.Drained? || d.phase.Quiesced? ==> forall o :: 0 <= o < |d.operations| ==> !d.operations[o].pc.Prompting?)
  }

  ghost predicate OnePrompt(d: Driver) {
    forall o, p :: 0 <= o < p < |d.operations| ==> !(d.operations[o].pc.Prompting? && d.operations[p].pc.Prompting?)
  }

  ghost predicate Inv(d: Driver) {
    Ids(d) && Chained(d) && Ownership(d) && OnePrompt(d)
  }

  /** What holds at the moment backend.prompt is called for operation o. */
  ghost predicate PromptAllowed(e: Driver, o: nat)
    requires o < |e.operations|
  {
    && e.run == Some(e.operations[o].run)
    && e.operations[o].run !in e.aborted
    && !e.quiesced
    && e.cancellation.None?
    && (forall c :: 0 <= c < |e.cancellations| ==>
          e.cancellations[c].done && e.cancellations[c].abortSettled && OperationSettled(e, e.cancellations[c].operation))
    && (forall p :: 0 <= p < |e.operations| && p != o ==> !e.operations[p].pc.Prompting?)
  }

  ghost predicate CallsAllowed(d: Driver, e: Driver) {
    forall o :: 0 <= o < |e.operations| && e.operations[o].pc.Prompting? && !(o < |d.operations| && d.operations[o].pc.Prompting?) ==>
      PromptAllowed(e, o)
  }

  /** Moving an operation to a program counter that calls nothing. */
  lemma SetPcKeeps(d: Driver, o: nat, pc: Pc)
    requires Inv(d) && o < |d.operations| && !d.operations[o].pc.Settled? && !pc.Prompting?
    requires d.run == Some(d.operations[o].run) && !pc.Settled? ==> !pc.AwaitingCancellation? && d.cancellation.None?
    ensures Inv(SetPc(d, o, pc)) && CallsAllowed(d, SetPc(d, o, pc))
  {
    var e := SetPc(d, o, pc);
    forall p | 0 <= p < |e.operations| && e.operations[p].pc.Prompting?
      ensures Owned(e, p) && p != o
    {
      assert Owned(d, p);
    }
  }

  lemma CheckThenPromptKeeps(d: Driver, o: nat)
    requires Inv(d) && o < |d.operations| && !d.operations[o].pc.Settled? && !d.operations[o].pc.Prompting?
    requires d.run == Some(d.operations[o].run) ==> d.cancellation.None?
    ensures Inv(CheckThenPrompt(d, o)) && CallsAllowed(d, CheckThenPrompt(d, o))
  {
    if Superseded(d, d.operations[o].run) {
      SetPcKeeps(d, o, Settled);
    } else {
      NobodyElsePrompts(d, o);
      PromptKeeps(d, o);
    }
  }

  lemma NobodyElsePrompts(d: Driver, o: nat)
    requires Inv(d) && o < |d.operations| && d.run == Some(d.operations[o].run) && d.cancellation.None?
    ensures forall p :: 0 <= p < |d.operations| && p != o ==> !d.operations[p].pc.Prompting?
  {
    forall p | 0 <= p < |d.operations| && p != o ensures !d.operations[p].pc.Prompting? {
      assert d.operations[p].pc.Prompting? ==> Owned(d, p);
      if p < o { assert d.operations[p].run != d.operations[o].run; }
      else { assert d.operations[o].run != d.operations[p].run; }
    }
  }

  lemma PromptKeeps(d: Driver, o: nat)
    requires Inv(d) && o < |d.operations| && !d.operations[o].pc.Settled?
    requires !Superseded(d, d.operations[o].run) && d.cancellation.None?
    requires forall p :: 0 <= p < |d.operations| && p != o ==> !d.operations[p].pc.Prompting?
    ensures Inv(SetPc(d, o, Prompting)) && CallsAllowed(d, SetPc(d, o, Prompting))
  {
  }

  lemma AfterModelKeeps(d: Driver, o: nat)
    requires Inv(d) && o < |d.operations| && !d.operations[o].pc.Settled? && !d.operations[o].pc.Prompting?
    requires d.run == Some(d.operations[o].run) ==> d.cancellation.None?
    ensures Inv(AfterModel(d, o)) && CallsAllowed(d, AfterModel(d, o))
  {
    if d.gate.Some? { SetPcKeeps(d, o, AwaitingGate(d.gate.value, true)); } else { CheckThenPromptKeeps(d, o); }
  }

  lemma CheckThenModelKeeps(d: Driver, o: nat)
    requires Inv(d) && o < |d.operations| && !d.operations[o].pc.Settled? && !d.operations[o].pc.Prompting?
    requires d.run == Some(d.operations[o].run) ==> d.cancellation.None?
    ensures Inv(CheckThenModel(d, o)) && CallsAllowed(d, CheckThenModel(d, o))
  {
    if Superseded(d, d.operations[o].run) { SetPcKeeps(d, o, Settled); }
    else if d.operations[o].picksModel { SetPcKeeps(d, o, SelectingModel); }
    else { AfterModelKeeps(d, o); }
  }

  lemma AfterCancellationKeeps(d: Driver, o: nat)
    requires Inv(d) && o < |d.operations| && !d.operations[o].pc.Settled? && !d.operations[o].pc.Prompting?
    requires d.run == Some(d.operations[o].run) ==> d.cancellation.None?
    ensures Inv(AfterCancellation(d, o)) && CallsAllowed(d, AfterCancellation(d, o))
  {
    if d.gate.Some? { SetPcKeeps(d, o, AwaitingGate(d.gate.value, false)); } else { CheckThenModelKeeps(d, o); }
  }

  /** The state in which a fresh run's operation has just been created. */
  function Begun(d: Driver, picksModel: bool): Driver {
    var pc := if d.cancellation.Some? then AwaitingCancellation(d.cancellation.value) else SelectingModel;
    BeginRun(d).(operations := d.operations + [Operation(d.runs, picksModel, pc)], turnOperation := Some(|d.operations|))
  }

  lemma BegunIds(d: Driver, picksModel: bool)
    requires Inv(d) && d.run.None?
    ensures Ids(Begun(d, picksModel)) && Chained(Begun(d, picksModel))
  {
  }

  lemma BegunOwnership(d: Driver, picksModel: bool)
    requires Inv(d) && d.run.None?
    ensures Ownership(Begun(d, picksModel)) && OnePrompt(Begun(d, picksModel))
  {
    var e := Begun(d, picksModel);
    forall p | 0 <= p < |e.operations| && e.operations[p].pc.Prompting? ensures Owned(e, p) {
      assert Owned(d, p);
    }
    forall p | 0 <= p < |e.operations| && e.run == Some(e.operations[p].run) ensures p == |d.operations| {
    }
  }

  lemma BeginKeeps(d: Driver, picksModel: bool)
    requires Inv(d) && d.run.None?
    ensures Inv(RunPrompt(BeginRun(d), d.runs, picksModel))
    ensures CallsAllowed(d, RunPrompt(BeginRun(d), d.runs, picksModel))
  {
    BegunIds(d, picksModel);
    BegunOwnership(d, picksModel);
    assert CallsAllowed(d, Begun(d, picksModel));
    if d.cancellation.None? {
      AfterCancellationKeeps(Begun(d, picksModel), |d.operations|);
    }
  }

  lemma ConsumeNextKeeps(d: Driver)
    requires Inv(d)
    ensures Inv(ConsumeNext(d)) && CallsAllowed(d, ConsumeNext(d))
  {
    if !(d.quiesced || d.cancellation.Some? || d.queue == [] || d.run.Some?) {
      SameWorkKeeps(d, Dequeued(d));
      BeginKeeps(Dequeued(d), d.queue[0] in d.withModel);
    }
  }

  /** Clearing the run is safe once no operation of it is prompting. */
  lemma FinishTurnKeeps(d: Driver)
    requires Inv(d)
    requires forall o :: 0 <= o < |d.operations| && d.run == Some(d.operations[o].run) ==> !d.operations[o].pc.Prompting?
    ensures Inv(FinishTurn(d)) && CallsAllowed(d, FinishTurn(d))
  {
    if d.run.Some? {
      var d1 := d.(run := None);
      assert Inv(d1) by {
        forall p | 0 <= p < |d1.operations| && d1.operations[p].pc.Prompting? ensures Owned(d1, p) {
          assert Owned(d, p);
        }
      }
      ConsumeNextKeeps(d1);
    }
  }

  lemma ResumeKeeps(d: Driver)
    requires Inv(d) && d.quiesced
    ensures Inv(Resume(d).(phase := Accepting)) && CallsAllowed(d, Resume(d).(phase := Accepting))
  {
    var d1 := d.(quiesced := false, gate := None, phase := Accepting);
    SameWorkKeeps(d, d1);
    PhaseIrrelevant(d.(quiesced := false, gate := None));
    PhaseIrrelevantAtFinish(d.(quiesced := false, gate := None));
    if d.run.Some? && d.run.value in d.results { FinishTurnKeeps(d1); } else { ConsumeNextKeeps(d1); }
  }

  /** The phase label only records how far quiesce() has got; the client paths never read it. */
  lemma PhaseIrrelevantToPrompt(d: Driver, o: nat)
    requires o < |d.operations|
    ensures CheckThenPrompt(d, o).(phase := Accepting) == CheckThenPrompt(d.(phase := Accepting), o)
  {
    assert forall pc :: SetPc(d, o, pc).(phase := Accepting) == SetPc(d.(phase := Accepting), o, pc);
  }

  lemma PhaseIrrelevantToModel(d: Driver, o: nat)
    requires o < |d.operations|
    ensures CheckThenModel(d, o).(phase := Accepting) == CheckThenModel(d.(phase := Accepting), o)
  {
    PhaseIrrelevantToPrompt(d, o);
    assert forall pc :: SetPc(d, o, pc).(phase := Accepting) == SetPc(d.(phase := Accepting), o, pc);
  }

  lemma PhaseIrrelevantToRun(d: Driver, run: nat, picksModel: bool)
    ensures RunPrompt(d, run, picksModel).(phase := Accepting) == RunPrompt(d.(phase := Accepting), run, picksModel)
  {
    var o := |d.operations|;
    if d.cancellation.None? {
      var d1 := d.(operations := d.operations + [Operation(run, picksModel, SelectingModel)], turnOperation := Some(o));
      PhaseIrrelevantToModel(d1, o);
      assert forall pc :: SetPc(d1, o, pc).(phase := Accepting) == SetPc(d1.(phase := Accepting), o, pc);
    }
  }

  lemma PhaseIrrelevant(d: Driver)
    ensures ConsumeNext(d).(phase := Accepting) == ConsumeNext(d.(phase := Accepting))
  {
    if d.queue != [] { PhaseIrrelevantToRun(BeginRun(Dequeued(d)), d.runs, d.queue[0] in d.withModel); }
  }

  lemma PhaseIrrelevantAtFinish(d: Driver)
    ensures FinishTurn(d).(phase := Accepting) == FinishTurn(d.(phase := Accepting))
  {
    PhaseIrrelevant(d.(run := None));
  }

  lemma CancelKeeps(d: Driver, matches: bool)
    requires Inv(d)
    ensures Inv(CancelTurn(d, matches)) && CallsAllowed(d, CancelTurn(d, matches))
  {
    var e := CancelTurn(d, matches);
    if !(d.run.Some? && !matches) {
      forall p | 0 <= p < |e.operations| && e.operations[p].pc.Prompting? ensures Owned(e, p) {
        assert Owned(d, p);
        if d.run == Some(d.operations[p].run) {
          assert e.cancellations[|d.cancellations|].operation == Some(p);
        } else {
          var c :| 0 <= c < |d.cancellations| && !d.cancellations[c].done && d.cancellations[c].operation == Some(p);
          assert e.cancellations[c] == d.cancellations[c];
        }
      }
    }
  }

  /** e does the same work as d: the same operations, runs and cancellations. */
  predicate SameWork(d: Driver, e: Driver) {
    && e.operations == d.operations && e.turnOperation == d.turnOperation
    && e.run == d.run && e.cancellation == d.cancellation && e.cancellations == d.cancellations
  }

  lemma SameWorkKeeps(d: Driver, e: Driver)
    requires Inv(d) && SameWork(d, e) && Ids(e)
    requires e.phase.Drained? || e.phase.Quiesced? ==> forall o :: 0 <= o < |d.operations| ==> !d.operations[o].pc.Prompting?
    ensures Inv(e) && CallsAllowed(d, e)
  {
    forall p | 0 <= p < |e.operations| && e.operations[p].pc.Prompting? ensures Owned(e, p) {
      assert Owned(d, p);
    }
    forall p | 0 <= p < |e.operations| && e.run == Some(e.operations[p].run) ensures Barrier(e, p) {
      assert Barrier(d, p);
    }
  }

  /** Cancellations may change as long as whoever they own is still owned by someone. */
  lemma CancellationsChange(d: Driver, e: Driver)
    requires Inv(d) && Ids(e) && Chained(e) && |e.cancellations| == |d.cancellations|
    requires e.operations == d.operations && e.turnOperation == d.turnOperation && e.run == d.run && e.phase == d.phase
    requires e.cancellation == d.cancellation || e.cancellation.None?
    requires forall b :: 0 <= b < |d.cancellations| ==> e.cancellations[b].operation == d.cancellations[b].operation
    requires forall b :: 0 <= b < |d.cancellations| && !d.cancellations[b].done && e.cancellations[b].done ==>
               OperationSettled(d, d.cancellations[b].operation)
    ensures Inv(e) && CallsAllowed(d, e)
  {
    forall p | 0 <= p < |e.operations| && e.operations[p].pc.Prompting? ensures Owned(e, p) {
      assert Owned(d, p);
      if d.run != Some(d.operations[p].run) {
        var b :| 0 <= b < |d.cancellations| && !d.cancellations[b].done && d.cancellations[b].operation == Some(p);
        assert !e.cancellations[b].done && e.cancellations[b].operation == Some(p);
      }
    }
    forall p | 0 <= p < |e.operations| && e.run == Some(e.operations[p].run) ensures Barrier(e, p) {
      assert Barrier(d, p);
    }
  }

  lemma ProgressChained(d: Driver, c: nat, k: Cancellation)
    requires Chained(d) && c < |d.cancellations| && k.operation == d.cancellations[c].operation && k.done == d.cancellations[c].done
    requires k.called && (c == 0 || d.cancellations[c - 1].done)
    requires d.cancellations[c].abortSettled ==> k.abortSettled
    ensures Chained(d.(cancellations := d.cancellations[c := k]))
  {
  }

  /** Marking progress of a cancellation changes who owns a prompting operation only when it is done. */
  lemma CancellationStepKeeps(d: Driver, c: nat, k: Cancellation)
    requires Inv(d) && c < |d.cancellations| && k.operation == d.cancellations[c].operation && k.done == d.cancellations[c].done
    requires k.called && (c == 0 || d.cancellations[c - 1].done)
    requires d.cancellations[c].abortSettled ==> k.abortSettled
    ensures Inv(d.(cancellations := d.cancellations[c := k])) && CallsAllowed(d, d.(cancellations := d.cancellations[c := k]))
  {
    ProgressChained(d, c, k);
    CancellationsChange(d, d.(cancellations := d.cancellations[c := k]));
  }

  /** The state a cancellation leaves when it settles, before the driver looks at its queue. */
  function Uncancelled(d: Driver, c: nat): Driver
    requires c < |d.cancellations|
  {
    var d1 := d.(cancellations := d.cancellations[c := d.cancellations[c].(done := true)]);
    if c + 1 != |d.cancellations| then d1 else d1.(cancellation := None)
  }

  lemma UncancelledChained(d: Driver, c: nat)
    requires Chained(d) && c < |d.cancellations| && d.cancellations[c].abortSettled && !d.cancellations[c].done
    requires OperationSettled(d, d.cancellations[c].operation)
    ensures Chained(Uncancelled(d, c))
  {
    AllEarlierDone(d, c);
  }

  lemma SettleCancellationKeeps(d: Driver, c: nat)
    requires Inv(d) && Enabled(d, CancelSettles(c))
    ensures Inv(SettleCancellation(d, c)) && CallsAllowed(d, SettleCancellation(d, c))
  {
    UncancelledChained(d, c);
    CancellationsChange(d, Uncancelled(d, c));
    if c + 1 == |d.cancellations| { ConsumeNextKeeps(Uncancelled(d, c)); }
  }

  /** Cancellations are chained: when one has been called, every earlier one is done. */
  lemma {:induction false} AllEarlierDone(d: Driver, c: nat)
    requires Chained(d) && c < |d.cancellations| && d.cancellations[c].called
    ensures forall b :: 0 <= b < c ==> d.cancellations[b].done
  {
    if c > 0 { AllEarlierDone(d, c - 1); }
  }

  lemma WakeKeeps(d: Driver, o: nat)
    requires Inv(d) && Enabled(d, Wake(o))
    ensures Inv(Woken(d, o)) && CallsAllowed(d, Woken(d, o))
  {
    match d.operations[o].pc
    case AwaitingCancellation(g) => AfterCancellationKeeps(d, o);
    case AwaitingGate(_, selected) => if selected { CheckThenPromptKeeps(d, o); } else { CheckThenModelKeeps(d, o); }
    case SelectingModel =>
    case Prompting =>
    case Settled =>
  }

  lemma ResultKeeps(d: Driver, o: nat, result: Result)
    requires Inv(d) && o < |d.operations| && d.operations[o].pc.Settled?
    ensures var e := d.(results := d.results[d.operations[o].run := result]); Inv(e) && CallsAllowed(d, e)
  {
    SameWorkKeeps(d, d.(results := d.results[d.operations[o].run := result]));
  }

  lemma PromptSettlesKeeps(d: Driver, o: nat, result: Result)
    requires Inv(d) && Enabled(d, PromptSettles(o, result))
    ensures Inv(Next(d, PromptSettles(o, result))) && CallsAllowed(d, Next(d, PromptSettles(o, result)))
  {
    var d1 := SetPc(d, o, Settled);
    SetPcKeeps(d, o, Settled);
    var run := d.operations[o].run;
    assert d1.operations[o].run == run;
    if d.run == Some(run) {
      if d.quiesced { ResultKeeps(d1, o, result); } else { FinishTurnKeeps(d1); }
    }
  }

  lemma RequeueKeeps(d: Driver, queue: seq<nat>)
    requires Inv(d)
    ensures Inv(d.(queue := queue)) && CallsAllowed(d, d.(queue := queue))
  {
    SameWorkKeeps(d, d.(queue := queue));
  }

  lemma QuiesceKeeps(d: Driver, step: Step)
    requires Inv(d) && Enabled(d, step) && (step.Quiesce? || step.QuiesceAborted? || step.DrainEnds?)
    ensures Inv(Next(d, step)) && CallsAllowed(d, Next(d, step))
  {
    SameWorkKeeps(d, Next(d, step));
  }

  lemma QuiesceEndsKeeps(d: Driver)
    requires Inv(d) && Enabled(d, QuiesceEnds)
    ensures Inv(Next(d, QuiesceEnds)) && CallsAllowed(d, Next(d, QuiesceEnds))
  {
    FinishTurnKeeps(d);
    var e := FinishTurn(d);
    assert e == d.(run := None) || e == d;
    SameWorkKeeps(e, e.(phase := Quiesced));
  }

  lemma EnqueueKeeps(d: Driver, id: nat, picksModel: bool)
    requires Inv(d)
    ensures Inv(ConsumeNext(Queue(d, id, picksModel))) && CallsAllowed(d, ConsumeNext(Queue(d, id, picksModel)))
  {
    SameWorkKeeps(d, Queue(d, id, picksModel));
    ConsumeNextKeeps(Queue(d, id, picksModel));
  }

  lemma CancellationKeeps(d: Driver, step: Step)
    requires Inv(d) && Enabled(d, step) && IsCancellation(step)
    ensures Inv(Next(d, step)) && CallsAllowed(d, Next(d, step))
  {
    match step
    case Cancel(matches) => CancelKeeps(d, matches);
    case CancelCalls(c) => CancellationStepKeeps(d, c, d.cancellations[c].(called := true));
    case AbortSettles(c) => CancellationStepKeeps(d, c, d.cancellations[c].(abortSettled := true));
    case CancelSettles(c) => SettleCancellationKeeps(d, c);
    case _ =>
  }

  predicate IsCancellation(step: Step) {
    step.Cancel? || step.CancelCalls? || step.AbortSettles? || step.CancelSettles?
  }

  predicate IsQuiescence(step: Step) {
    step.Quiesce? || step.QuiesceAborted? || step.QuiesceFailed? || step.DrainEnds? || step.QuiesceEnds? || step.ResumeCalled?
  }

  lemma QuiescenceKeeps(d: Driver, step: Step)
    requires Inv(d) && Enabled(d, step) && IsQuiescence(step)
    ensures Inv(Next(d, step)) && CallsAllowed(d, Next(d, step))
  {
    match step
    case QuiesceFailed => ResumeKeeps(d);
    case QuiesceEnds => QuiesceEndsKeeps(d);
    case ResumeCalled => ResumeKeeps(d);
    case Quiesce => QuiesceKeeps(d, step);
    case QuiesceAborted => QuiesceKeeps(d, step);
    case DrainEnds => QuiesceKeeps(d, step);
    case _ =>
  }

  lemma TurnStepKeeps(d: Driver, step: Step)
    requires Inv(d) && Enabled(d, step) && !IsCancellation(step) && !IsQuiescence(step)
    ensures Inv(Next(d, step)) && CallsAllowed(d, Next(d, step))
  {
    match step
    case Start(picksModel) => BeginKeeps(d, picksModel);
    case Enqueue(id, picksModel) => EnqueueKeeps(d, id, picksModel);
    case Requeue(queue) => RequeueKeeps(d, queue);
    case Wake(o) => WakeKeeps(d, o);
    case ModelSelected(o) => AfterModelKeeps(d, o);
    case PromptSettles(o, result) => PromptSettlesKeeps(d, o, result);
    case _ =>
  }

  /** Every step keeps the invariant, and whenever it calls backend.prompt the call is allowed. */
  lemma StepKeeps(d: Driver, step: Step)
    requires Inv(d) && Enabled(d, step)
    ensures Inv(Next(d, step)) && CallsAllowed(d, Next(d, step))
  {
    if IsCancellation(step) { CancellationKeeps(d, step); }
    else if IsQuiescence(step) { QuiescenceKeeps(d, step); }
    else { TurnStepKeeps(d, step); }
  }

  lemma {:induction false} RunKeeps(d: Driver, steps: seq<Step>)
    requires Inv(d) && Trace(d, steps)
    ensures Inv(Run(d, steps))
    decreases |steps|
  {
    if steps != [] {
      StepKeeps(d, steps[0]);
      RunKeeps(Next(d, steps[0]), steps[1..]);
    }
  }

  /** On every interleaving at most one backend.prompt is outstanding. */
  lemma AtMostOnePrompt(steps: seq<Step>)
    requires Trace(Idle(), steps)
    ensures OnePrompt(Run(Idle(), steps))
  {
    RunKeeps(Idle(), steps);
  }

  /** On every interleaving, a step calls backend.prompt only for the current run, never for a cancelled one, and
      only when the abort and the turn operation of every earlier cancellation have settled. */
  lemma PromptsAreAllowed(steps: seq<Step>, step: Step)
    requires Trace(Idle(), steps) && Enabled(Run(Idle(), steps), step)
    ensures CallsAllowed(Run(Idle(), steps), Next(Run(Idle(), steps), step))
  {
    RunKeeps(Idle(), steps);
    StepKeeps(Run(Idle(), steps), step);
  }

  // ── Queue discipline ──────────────────────────────────────────────────────

  /** e differs from d only in where d's operations stand. */
  predicate OnlyOperations(d: Driver, e: Driver) {
    && e == d.(operations := e.operations, turnOperation := e.turnOperation)
    && |e.operations| == |d.operations|
  }

  lemma OperationsMove(d: Driver, o: nat)
    requires o < |d.operations|
    ensures OnlyOperations(d, CheckThenPrompt(d, o)) && OnlyOperations(d, AfterModel(d, o))
    ensures OnlyOperations(d, CheckThenModel(d, o)) && OnlyOperations(d, AfterCancellation(d, o))
    ensures OnlyOperations(d, Woken(d, o))
  {
    assert OnlyOperations(d, CheckThenPrompt(d, o));
    assert OnlyOperations(d, AfterModel(d, o));
    assert OnlyOperations(d, CheckThenModel(d, o));
  }

  lemma RunPromptAppends(d: Driver, run: nat, picksModel: bool)
    ensures var e := RunPrompt(d, run, picksModel);
            && e == d.(operations := e.operations, turnOperation := e.turnOperation)
            && |e.operations| == |d.operations| + 1 && e.operations[..|d.operations|] == d.operations
            && e.operations[|d.operations|].run == run
  {
    var o := |d.operations|;
    var d1 := d.(operations := d.operations + [Operation(run, picksModel, SelectingModel)], turnOperation := Some(o));
    if d.cancellation.None? {
      OperationsMove(d1, o);
      AfterCancellationOthers(d1, o);
    }
  }

  lemma AfterCancellationOthers(d: Driver, o: nat)
    requires o < |d.operations|
    ensures var e := AfterCancellation(d, o);
            && |e.operations| == |d.operations|
            && (forall p :: 0 <= p < |d.operations| && p != o ==> e.operations[p] == d.operations[p])
            && e.operations[o].run == d.operations[o].run
  {
  }

  function Occurrences(d: Driver, id: nat): nat {
    multiset(d.started)[id] + multiset(d.queue)[id]
  }

  /** No message is both queued and started or started twice; and with no run, no cancellation barrier and no
      quiescence in force, nothing waits in the queue. */
  ghost predicate QueueInv(d: Driver) {
    && (forall id :: Occurrences(d, id) <= 1)
    && (d.run.None? && d.cancellation.None? && !d.quiesced ==> d.queue == [])
  }

  /** The queue as the client's step leaves it, before the driver looks at it. */
  function Offered(d: Driver, step: Step): seq<nat> {
    match step
    case Enqueue(id, _) => if id in d.queue then d.queue else d.queue + [id]
    case Requeue(queue) => queue
    case _ => d.queue
  }

  /** The step starts nothing, or the head of the queue, as a fresh run, with no barrier, no quiescence and no
      earlier run left in force. */
  ghost predicate StartsOnlyHead(d: Driver, step: Step, e: Driver) {
    || (e.started == d.started && e.queue == Offered(d, step))
    || (
      && Offered(d, step) != [] && e.started == d.started + [Offered(d, step)[0]] && e.queue == Offered(d, step)[1..]
      && e.run == Some(d.runs) && e.cancellation.None? && !e.quiesced
      && (forall o :: 0 <= o < |d.operations| && d.run == Some(d.operations[o].run) ==>
            o < |e.operations| && e.operations[o].pc.Settled?))
  }

  lemma ConsumeNextQueue(d: Driver)
    requires forall id :: Occurrences(d, id) <= 1
    ensures var e := ConsumeNext(d);
            && QueueInv(e) && |d.operations| <= |e.operations| && e.operations[..|d.operations|] == d.operations
            && (e == d
                || (d.queue != [] && e.started == d.started + [d.queue[0]] && e.queue == d.queue[1..]
                    && e.run == Some(d.runs) && e.cancellation.None? && !e.quiesced && d.run.None?))
  {
    if !(d.quiesced || d.cancellation.Some? || d.queue == [] || d.run.Some?) {
      var d1 := Dequeued(d);
      RunPromptAppends(BeginRun(d1), d.runs, d.queue[0] in d.withModel);
      assert d.queue == [d.queue[0]] + d.queue[1..];
      forall id ensures Occurrences(ConsumeNext(d), id) == Occurrences(d, id) {
        assert multiset(d.queue) == multiset([d.queue[0]]) + multiset(d.queue[1..]);
      }
    }
  }

  lemma FinishTurnQueue(d: Driver)
    requires QueueInv(d)
    ensures var e := FinishTurn(d);
            && QueueInv(e) && |d.operations| <= |e.operations| && e.operations[..|d.operations|] == d.operations
            && ((e.started == d.started && e.queue == d.queue)
                || (d.queue != [] && e.started == d.started + [d.queue[0]] && e.queue == d.queue[1..]
                    && e.run == Some(d.runs) && e.cancellation.None? && !e.quiesced))
  {
    if d.run.Some? {
      var d1 := d.(run := None);
      forall id ensures Occurrences(d1, id) <= 1 { assert Occurrences(d, id) <= 1; }
      ConsumeNextQueue(d1);
    }
  }

  /** A step that touches neither queue nor the conditions under which it drains keeps the discipline. */
  lemma SameQueue(d: Driver, e: Driver)
    requires QueueInv(d) && e.started == d.started && e.queue == d.queue
    requires e.run.None? && e.cancellation.None? && !e.quiesced ==> d.run.None? && d.cancellation.None? && !d.quiesced
    ensures QueueInv(e)
  {
    forall id ensures Occurrences(e, id) <= 1 { assert Occurrences(d, id) <= 1; }
  }

  lemma ResumeQueue(d: Driver)
    requires Inv(d) && QueueInv(d) && d.quiesced
    ensures var e := Resume(d).(phase := Accepting);
            && QueueInv(e) && |d.operations| <= |e.operations| && e.operations[..|d.operations|] == d.operations
            && ((e.started == d.started && e.queue == d.queue)
                || (d.queue != [] && e.started == d.started + [d.queue[0]] && e.queue == d.queue[1..]
                    && e.run == Some(d.runs) && e.cancellation.None? && !e.quiesced
                    && (d.run.Some? ==> d.run.value in d.results)))
  {
    var d1 := d.(quiesced := false, gate := None);
    forall id ensures Occurrences(d1, id) <= 1 { assert Occurrences(d, id) <= 1; }
    if d.run.Some? && d.run.value in d.results { SameQueue(d, d1); FinishTurnQueue(d1); } else { ConsumeNextQueue(d1); }
    SameQueue(Resume(d), Resume(d).(phase := Accepting));
  }

  lemma EnqueueQueue(d: Driver, id: nat, picksModel: bool)
    requires QueueInv(d) && Enabled(d, Enqueue(id, picksModel))
    ensures var step := Enqueue(id, picksModel); QueueInv(Next(d, step)) && StartsOnlyHead(d, step, Next(d, step))
  {
    var d1 := Queue(d, id, picksModel);
    forall x ensures Occurrences(d1, x) <= 1 { assert Occurrences(d, x) <= 1; }
    ConsumeNextQueue(d1);
  }

  lemma RequeueQueue(d: Driver, queue: seq<nat>)
    requires QueueInv(d) && Enabled(d, Requeue(queue))
    ensures QueueInv(Next(d, Requeue(queue)))
  {
    forall x ensures Occurrences(d.(queue := queue), x) <= 1 { assert Occurrences(d, x) <= 1; }
    if d.queue == [] { assert multiset(queue) == multiset{}; assert |multiset(queue)| == |queue|; }
  }

  lemma SettleCancellationQueue(d: Driver, c: nat)
    requires QueueInv(d) && Inv(d) && Enabled(d, CancelSettles(c))
    ensures QueueInv(SettleCancellation(d, c)) && StartsOnlyHead(d, CancelSettles(c), SettleCancellation(d, c))
  {
    var d1 := d.(cancellations := d.cancellations[c := d.cancellations[c].(done := true)]);
    SameQueue(d, d1);
    if c + 1 == |d.cancellations| {
      var d2 := d1.(cancellation := None);
      forall id ensures Occurrences(d2, id) <= 1 { assert Occurrences(d, id) <= 1; }
      ConsumeNextQueue(d2);
    }
  }

  lemma SettlePromptQueue(d: Driver, run: nat, result: Result)
    requires QueueInv(d) && d.run == Some(run)
    ensures var e := SettlePrompt(d, run, result);
            && QueueInv(e) && |d.operations| <= |e.operations| && e.operations[..|d.operations|] == d.operations
            && ((e.started == d.started && e.queue == d.queue)
                || (d.queue != [] && e.started == d.started + [d.queue[0]] && e.queue == d.queue[1..]
                    && e.run == Some(d.runs) && e.cancellation.None? && !e.quiesced))
  {
    if d.quiesced { SameQueue(d, d.(results := d.results[run := result])); } else { FinishTurnQueue(d); }
  }

  lemma PromptSettlesQueue(d: Driver, o: nat, result: Result)
    requires QueueInv(d) && Inv(d) && Enabled(d, PromptSettles(o, result))
    ensures QueueInv(Next(d, PromptSettles(o, result)))
    ensures StartsOnlyHead(d, PromptSettles(o, result), Next(d, PromptSettles(o, result)))
  {
    var d1 := SetPc(d, o, Settled);
    SameQueue(d, d1);
    var run := d.operations[o].run;
    if d.run == Some(run) {
      SettlePromptQueue(d1, run, result);
      forall p | 0 <= p < |d.operations| && d.run == Some(d.operations[p].run) ensures d1.operations[p].pc.Settled? {
        assert p == o;
      }
    }
  }

  lemma MoveQueue(d: Driver, o: nat)
    requires QueueInv(d) && o < |d.operations|
    ensures QueueInv(Woken(d, o)) && QueueInv(AfterModel(d, o))
  {
    OperationsMove(d, o);
    SameQueue(d, Woken(d, o));
    SameQueue(d, AfterModel(d, o));
  }

  lemma QuiesceEndsQueue(d: Driver)
    requires QueueInv(d) && Inv(d) && Enabled(d, QuiesceEnds)
    ensures QueueInv(Next(d, QuiesceEnds)) && Next(d, QuiesceEnds).started == d.started && Next(d, QuiesceEnds).queue == d.queue
  {
    var e := FinishTurn(d);
    assert e.started == d.started && e.queue == d.queue && e.quiesced;
    SameQueue(d, e.(phase := Quiesced));
  }

  lemma CancellationQueue(d: Driver, step: Step)
    requires Inv(d) && QueueInv(d) && Enabled(d, step) && IsCancellation(step)
    ensures QueueInv(Next(d, step)) && StartsOnlyHead(d, step, Next(d, step))
  {
    if step.CancelSettles? { SettleCancellationQueue(d, step.c); } else { SameQueue(d, Next(d, step)); }
  }

  lemma QuiescenceQueue(d: Driver, step: Step)
    requires Inv(d) && QueueInv(d) && Enabled(d, step) && IsQuiescence(step)
    ensures QueueInv(Next(d, step)) && StartsOnlyHead(d, step, Next(d, step))
  {
    match step
    case QuiesceFailed => ResumeQueue(d);
    case QuiesceEnds => QuiesceEndsQueue(d);
    case ResumeCalled => ResumeQueue(d);
    case Quiesce => SameQueue(d, Next(d, step));
    case QuiesceAborted => SameQueue(d, Next(d, step));
    case DrainEnds => SameQueue(d, Next(d, step));
    case _ =>
  }

  lemma TurnStepQueue(d: Driver, step: Step)
    requires Inv(d) && QueueInv(d) && Enabled(d, step) && !IsCancellation(step) && !IsQuiescence(step)
    ensures QueueInv(Next(d, step)) && StartsOnlyHead(d, step, Next(d, step))
  {
    match step
    case Start(picksModel) => RunPromptAppends(BeginRun(d), d.runs, picksModel); SameQueue(d, Next(d, step));
    case Enqueue(id, picksModel) => EnqueueQueue(d, id, picksModel);
    case Requeue(queue) => RequeueQueue(d, queue);
    case Wake(o) => MoveQueue(d, o); OperationsMove(d, o);
    case ModelSelected(o) => MoveQueue(d, o); OperationsMove(d, o);
    case PromptSettles(o, result) => PromptSettlesQueue(d, o, result);
    case _ =>
  }

  /** Every step keeps the queue discipline: nothing is left in the queue once no run, barrier or quiescence is in
      force, and only the current head is started, at a moment when none of them is. */
  lemma StepQueue(d: Driver, step: Step)
    requires Inv(d) && QueueInv(d) && Enabled(d, step)
    ensures QueueInv(Next(d, step)) && StartsOnlyHead(d, step, Next(d, step))
  {
    if IsCancellation(step) { CancellationQueue(d, step); }
    else if IsQuiescence(step) { QuiescenceQueue(d, step); }
    else { TurnStepQueue(d, step); }
  }

  lemma {:induction false} QueueHolds(d: Driver, steps: seq<Step>)
    requires Inv(d) && QueueInv(d) && Trace(d, steps)
    ensures QueueInv(Run(d, steps))
    decreases |steps|
  {
    if steps != [] {
      StepKeeps(d, steps[0]);
      StepQueue(d, steps[0]);
      QueueHolds(Next(d, steps[0]), steps[1..]);
    }
  }

  /** Each queued message is started at most once and is then queued no more, and none waits while the chat is free. */
  ghost predicate Disciplined(d: Driver) {
    && (forall i, j :: 0 <= i < j < |d.started| ==> d.started[i] != d.started[j])
    && (forall i, j :: 0 <= i < |d.started| && 0 <= j < |d.queue| ==> d.started[i] != d.queue[j])
    && (d.run.None? && d.cancellation.None? && !d.quiesced ==> d.queue == [])
  }

  /** The queue discipline holds on every run. */
  lemma QueueDiscipline(steps: seq<Step>)
    requires Trace(Idle(), steps)
    ensures Disciplined(Run(Idle(), steps))
  {
    QueueHolds(Idle(), steps);
    QueueInvDisciplines(Run(Idle(), steps));
  }

  lemma QueueInvDisciplines(d: Driver)
    requires QueueInv(d)
    ensures Disciplined(d)
  {
    var all := d.started + d.queue;
    forall id ensures multiset(all)[id] <= 1 { assert Occurrences(d, id) <= 1; }
    AtMostOnceEach(all);
    forall i, j | 0 <= i < j < |d.started| ensures d.started[i] != d.started[j] {
      assert all[i] != all[j];
    }
    forall i, j | 0 <= i < |d.started| && 0 <= j < |d.queue| ensures d.started[i] != d.queue[j] {
      assert all[i] != all[|d.started| + j];
    }
  }

  lemma AtMostOnceEach(s: seq<nat>)
    ensures (forall id :: multiset(s)[id] <= 1) ==> forall i, j :: 0 <= i < j < |s| ==> s[i] != s[j]
  {
    if forall id :: multiset(s)[id] <= 1 {
      forall i, j | 0 <= i < j < |s| ensures s[i] != s[j] {
        assert s == s[..j] + s[j..];
        assert s[j] == s[j..][0] && s[j] in multiset(s[j..]);
        assert multiset(s)[s[j]] <= 1;
        assert s[j] !in multiset(s[..j]) && s[i] == s[..j][i];
      }
    }
  }

  // ── Nothing is stranded ───────────────────────────────────────────────────

  /** The current run still has an operation that will settle. */
  ghost predicate Live(d: Driver) {
    exists o :: 0 <= o < |d.operations| && d.run == Some(d.operations[o].run) && !d.operations[o].pc.Settled?
  }

  ghost predicate NotStuck(d: Driver) {
    && (d.phase.Accepting? && d.run.Some? ==> Live(d) && d.run.value !in d.aborted)
    && (d.phase.Aborting? && d.run.Some? ==> (Live(d) || d.run.value in d.results) && d.run.value !in d.aborted)
    && (d.phase.Aborting? ==> d.gate.Some?)
    && (d.phase.Aborting? ==>
          forall o :: 0 <= o < |d.operations| && d.operations[o].pc.AwaitingGate? ==> d.gate == Some(d.operations[o].pc.gate))
    && (d.phase.Quiesced? ==> d.run.None?)
  }

  /** The owner accepts no new turn between a completed quiescence and the resume that follows a failed disposal. */
  predicate Admitted(d: Driver, step: Step) {
    Enabled(d, step) && (step.Start? ==> !d.phase.Quiesced?)
  }

  /** The four places an operation can go on from never end the run in force while it may still be resumed. */
  lemma MoveLive(d: Driver, o: nat, e: Driver)
    requires Inv(d) && NotStuck(d) && o < |d.operations| && !d.operations[o].pc.Settled?
    requires || (e == AfterModel(d, o) && (d.phase.Accepting? || d.phase.Aborting?))
             || (e == AfterCancellation(d, o) && (d.phase.Accepting? || d.phase.Aborting?))
             || (e == CheckThenPrompt(d, o) && d.phase.Accepting?)
             || (e == CheckThenModel(d, o) && d.phase.Accepting?)
    ensures NotStuck(e)
  {
    OperationsMove(d, o);
    StillLive(d, e, o);
  }

  lemma StillLive(d: Driver, e: Driver, o: nat)
    requires o < |d.operations| && |e.operations| == |d.operations| && e.run == d.run
    requires forall p :: 0 <= p < |d.operations| && p != o ==> e.operations[p] == d.operations[p]
    requires e.operations[o].run == d.operations[o].run
    requires e.operations[o].pc.Settled? ==> d.run != Some(d.operations[o].run)
    ensures Live(d) ==> Live(e)
  {
    if Live(d) {
      var p :| 0 <= p < |d.operations| && d.run == Some(d.operations[p].run) && !d.operations[p].pc.Settled?;
      assert e.operations[p].run == d.operations[p].run && !e.operations[p].pc.Settled?;
    }
  }

  lemma WakeNotStuck(d: Driver, o: nat)
    requires Inv(d) && NotStuck(d) && Enabled(d, Wake(o))
    ensures NotStuck(Woken(d, o))
  {
    OperationsMove(d, o);
    if d.phase.Accepting? || d.phase.Aborting? {
      match d.operations[o].pc
      case AwaitingCancellation(_) => MoveLive(d, o, AfterCancellation(d, o));
      case AwaitingGate(_, selected) => MoveLive(d, o, if selected then CheckThenPrompt(d, o) else CheckThenModel(d, o));
      case SelectingModel =>
      case Prompting =>
      case Settled =>
    }
  }

  lemma ModelSelectedNotStuck(d: Driver, o: nat)
    requires Inv(d) && NotStuck(d) && Enabled(d, ModelSelected(o))
    ensures NotStuck(AfterModel(d, o))
  {
    OperationsMove(d, o);
    if d.phase.Accepting? || d.phase.Aborting? { MoveLive(d, o, AfterModel(d, o)); }
  }

  /** A new run's operation is under way exactly when the driver is not quiesced, or something still holds it back. */
  lemma NewRunIsLiveIff(d: Driver, picksModel: bool)
    requires Inv(d) && d.run.None?
    ensures var e := RunPrompt(BeginRun(d), d.runs, picksModel);
            Live(e) <==> !d.quiesced || d.cancellation.Some? || d.gate.Some?
  {
    var e := RunPrompt(BeginRun(d), d.runs, picksModel);
    RunPromptAppends(BeginRun(d), d.runs, picksModel);
    assert d.runs !in d.aborted;
    assert Live(e) <==> !e.operations[|d.operations|].pc.Settled? by {
      forall o | 0 <= o < |d.operations| ensures e.operations[o].run != d.runs { assert e.operations[o] == d.operations[o]; }
    }
  }

  lemma ConsumeNextNotStuck(d: Driver)
    requires Inv(d) && d.phase.Accepting? && (d.run.Some? ==> Live(d) && d.run.value !in d.aborted)
    ensures NotStuck(ConsumeNext(d))
  {
    if !(d.quiesced || d.cancellation.Some? || d.queue == [] || d.run.Some?) {
      var d1 := Dequeued(d);
      ConsumeNextKeeps(d);
      assert Inv(d1) by {
        forall p | 0 <= p < |d1.operations| && d1.operations[p].pc.Prompting? ensures Owned(d1, p) { assert Owned(d, p); }
      }
      NewRunIsLiveIff(d1, d.queue[0] in d.withModel);
      RunPromptAppends(BeginRun(d1), d1.runs, d.queue[0] in d.withModel);
    }
  }

  lemma FinishTurnNotStuck(d: Driver)
    requires Inv(d) && d.phase.Accepting?
    requires forall o :: 0 <= o < |d.operations| && d.run == Some(d.operations[o].run) ==> !d.operations[o].pc.Prompting?
    ensures d.run.Some? ==> NotStuck(FinishTurn(d))
  {
    if d.run.Some? {
      var d1 := d.(run := None);
      assert Inv(d1) by {
        forall p | 0 <= p < |d1.operations| && d1.operations[p].pc.Prompting? ensures Owned(d1, p) { assert Owned(d, p); }
      }
      ConsumeNextNotStuck(d1);
    }
  }

  lemma ResumeNotStuck(d: Driver)
    requires Inv(d) && NotStuck(d) && (d.phase.Aborting? || d.phase.Quiesced?)
    ensures NotStuck(Resume(d).(phase := Accepting))
  {
    var d1 := d.(quiesced := false, gate := None, phase := Accepting);
    assert Inv(d1) by {
      forall p | 0 <= p < |d1.operations| && d1.operations[p].pc.Prompting? ensures Owned(d1, p) { assert Owned(d, p); }
    }
    PhaseIrrelevant(d.(quiesced := false, gate := None));
    PhaseIrrelevantAtFinish(d.(quiesced := false, gate := None));
    if d.run.Some? && d.run.value in d.results {
      FinishTurnNotStuck(d1);
    } else {
      assert Live(d) ==> Live(d1);
      ConsumeNextNotStuck(d1);
    }
  }

  lemma PromptSettlesNotStuck(d: Driver, o: nat, result: Result)
    requires Inv(d) && NotStuck(d) && Enabled(d, PromptSettles(o, result))
    ensures NotStuck(Next(d, PromptSettles(o, result)))
  {
    var d1 := SetPc(d, o, Settled);
    SetPcKeeps(d, o, Settled);
    if d.run == Some(d.operations[o].run) {
      if !d.quiesced { FinishTurnNotStuck(d1); }
    } else {
      StillLive(d, d1, o);
    }
  }

  lemma CancelSettlesNotStuck(d: Driver, c: nat)
    requires Inv(d) && NotStuck(d) && Enabled(d, CancelSettles(c))
    ensures NotStuck(SettleCancellation(d, c))
  {
    var d1 := d.(cancellations := d.cancellations[c := d.cancellations[c].(done := true)]);
    var d2 := d1.(cancellation := None);
    assert Live(d) ==> Live(d1) && Live(d2);
    if c + 1 == |d.cancellations| && d.phase.Accepting? {
      SettledBarrier(d, c);
      ConsumeNextNotStuck(d2);
    }
  }

  lemma SettledBarrier(d: Driver, c: nat)
    requires Inv(d) && Enabled(d, CancelSettles(c)) && c + 1 == |d.cancellations|
    ensures Inv(d.(cancellations := d.cancellations[c := d.cancellations[c].(done := true)], cancellation := None))
  {
    var d2 := d.(cancellations := d.cancellations[c := d.cancellations[c].(done := true)], cancellation := None);
    AllEarlierDone(d, c);
    forall p | 0 <= p < |d2.operations| && d2.operations[p].pc.Prompting? ensures Owned(d2, p) {
      assert Owned(d, p);
      assert forall b :: 0 <= b < |d.cancellations| && !d.cancellations[b].done ==> b == c;
    }
    forall p | 0 <= p < |d2.operations| && d2.run == Some(d2.operations[p].run) ensures Barrier(d2, p) {
      assert Barrier(d, p);
    }
  }

  lemma StartNotStuck(d: Driver, picksModel: bool)
    requires Inv(d) && NotStuck(d) && Admitted(d, Start(picksModel))
    ensures NotStuck(Next(d, Start(picksModel)))
  {
    NewRunIsLiveIff(d, picksModel);
    RunPromptAppends(BeginRun(d), d.runs, picksModel);
    if d.phase.Aborting? {
      var e := Next(d, Start(picksModel));
      forall p | 0 <= p < |e.operations| && e.operations[p].pc.AwaitingGate? ensures e.gate == Some(e.operations[p].pc.gate) {
        if p < |d.operations| { assert e.operations[p] == d.operations[p]; }
      }
    }
  }

  lemma EnqueueNotStuck(d: Driver, id: nat, picksModel: bool)
    requires Inv(d) && NotStuck(d) && Enabled(d, Enqueue(id, picksModel))
    ensures NotStuck(Next(d, Enqueue(id, picksModel)))
  {
    var d1 := Queue(d, id, picksModel);
    assert Inv(d1) by {
      forall p | 0 <= p < |d1.operations| && d1.operations[p].pc.Prompting? ensures Owned(d1, p) { assert Owned(d, p); }
    }
    assert Live(d) ==> Live(d1);
    if d.phase.Accepting? { ConsumeNextNotStuck(d1); }
  }

  /** While turns are admitted only outside a completed quiescence, every step keeps a way forward for the run. */
  lemma StepNotStuck(d: Driver, step: Step)
    requires Inv(d) && NotStuck(d) && Admitted(d, step)
    ensures NotStuck(Next(d, step))
  {
    var e := Next(d, step);
    match step
    case Start(picksModel) => StartNotStuck(d, picksModel);
    case Enqueue(id, picksModel) => EnqueueNotStuck(d, id, picksModel);
    case Requeue(queue) => assert Live(d) ==> Live(e);
    case Cancel(matches) => assert Live(d) && e.run.Some? ==> Live(e);
    case CancelCalls(c) => assert Live(d) ==> Live(e);
    case AbortSettles(c) => assert Live(d) ==> Live(e);
    case CancelSettles(c) => CancelSettlesNotStuck(d, c);
    case Wake(o) => WakeNotStuck(d, o);
    case ModelSelected(o) => ModelSelectedNotStuck(d, o);
    case PromptSettles(o, result) => PromptSettlesNotStuck(d, o, result);
    case Quiesce => assert Live(d) ==> Live(e); NobodyAtOldGate(d);
    case QuiesceAborted =>
    case QuiesceFailed => ResumeNotStuck(d);
    case DrainEnds =>
    case QuiesceEnds =>
    case ResumeCalled => ResumeNotStuck(d);
  }

  lemma NobodyAtOldGate(d: Driver)
    requires Inv(d) && Enabled(d, Quiesce)
    ensures forall o :: 0 <= o < |d.operations| ==> !d.operations[o].pc.AwaitingGate?
  {
    forall o | 0 <= o < |d.operations| ensures !d.operations[o].pc.AwaitingGate? { assert !Runnable(d, o); }
  }

  predicate AdmittedTrace(d: Driver, steps: seq<Step>)
    decreases |steps|
  {
    steps == [] || (Admitted(d, steps[0]) && AdmittedTrace(Next(d, steps[0]), steps[1..]))
  }

  lemma {:induction false} AdmittedKeeps(d: Driver, steps: seq<Step>)
    requires Inv(d) && QueueInv(d) && NotStuck(d) && AdmittedTrace(d, steps)
    ensures Trace(d, steps) && NotStuck(Run(d, steps)) && QueueInv(Run(d, steps)) && Inv(Run(d, steps))
    decreases |steps|
  {
    if steps != [] {
      StepKeeps(d, steps[0]);
      StepQueue(d, steps[0]);
      StepNotStuck(d, steps[0]);
      AdmittedKeeps(Next(d, steps[0]), steps[1..]);
    }
  }

  /** Nothing is stranded, also after a failed disposal has resumed the driver: whenever the driver accepts work
      again, its run still has an operation under way, and a queued message waits only behind such a run or behind
      a cancellation that has not settled. */
  lemma NothingStranded(steps: seq<Step>)
    requires AdmittedTrace(Idle(), steps)
    ensures Trace(Idle(), steps)
    ensures var d := Run(Idle(), steps);
            d.phase.Accepting? ==>
              && (d.run.Some? ==> Live(d))
              && (d.queue != [] ==> Live(d) || exists c :: 0 <= c < |d.cancellations| && !d.cancellations[c].done)
  {
    AdmittedKeeps(Idle(), steps);
  }

  /** Why turns must not be admitted once quiescence is complete: such a turn's operation ends without settling the
      turn, so when the disposal fails and the driver resumes, the run is in force for ever and its chat is stuck. */
  lemma StartWhileQuiescedSticks(d: Driver, picksModel: bool)
    requires Inv(d) && d.phase.Quiesced? && d.run.None? && d.cancellation.None? && d.gate.None? && !SomeoneRunnable(d)
    ensures Enabled(d, Start(picksModel))
    ensures var e := Next(d, Start(picksModel));
            Enabled(e, ResumeCalled) && Next(e, ResumeCalled).run == Some(d.runs) && !Live(Next(e, ResumeCalled))
  {
    NewRunIsLiveIff(d, picksModel);
    RunPromptAppends(BeginRun(d), d.runs, picksModel);
    var e := Next(d, Start(picksModel));
    forall o | 0 <= o < |e.operations| ensures !Runnable(e, o) {
      if o < |d.operations| { assert e.operations[o] == d.operations[o] && !Runnable(d, o); }
    }
    assert d.runs !in e.results;
    assert e.run == Some(d.runs);
    assert Next(e, ResumeCalled).operations == e.operations;
  }
}

/** The driver's own form: fields updated in place, each method proved to be the step of the same name. */
module ChatDriver {
  import opened Protocol
  import Spec = ChatDriverSpec

  class ChatDriver {
    var run: Option<nat>
    var runs: nat
    var turnOperation: Option<nat>
    var operations: seq<Spec.Operation>
    var cancellation: Option<nat>
    var cancellations: seq<Spec.Cancellation>
    var quiesced: bool
    var quiescence: Option<nat>
    var gates: nat
    var aborted: set<nat>
    var results: map<nat, Spec.Result>
    var phase: Spec.Phase
    var queuedMessages: seq<nat>
    var withModel: set<nat>
    var started: seq<nat>

    function View(): Spec.Driver
      reads this
    {
      Spec.Driver(run, runs, turnOperation, operations, cancellation, cancellations, quiesced, quiescence, gates,
                  aborted, results, phase, queuedMessages, withModel, started)
    }

    constructor ()
      ensures View() == Spec.Idle()
    {
      run, runs, turnOperation, operations := None, 0, None, [];
      cancellation, cancellations, quiesced, quiescence, gates := None, [], false, None, 0;
      aborted, results, phase, queuedMessages, withModel, started := {}, map[], Spec.Accepting, [], {}, [];
    }

    // ── Turn lifecycle ──────────────────────────────────────────────────────

    method BeginRun() returns (begun: nat)
      modifies this
      ensures begun == old(runs) && View() == Spec.BeginRun(old(View()))
    {
      begun := runs;
      run := Some(begun);
      runs := runs + 1;
    }

    method StartTurn(picksModel: bool)
      modifies this
      ensures View() == Spec.RunPrompt(Spec.BeginRun(old(View())), old(runs), picksModel)
    {
      var begun := BeginRun();
      RunPrompt(begun, picksModel);
    }

    /** Runs the operation up to its first await. */
    method RunPrompt(begun: nat, picksModel: bool)
      modifies this
      ensures View() == Spec.RunPrompt(old(View()), begun, picksModel)
    {
      var o := |operations|;
      turnOperation := Some(o);
      if cancellation.Some? {
        operations := operations + [Spec.Operation(begun, picksModel, Spec.AwaitingCancellation(cancellation.value))];
      } else {
        operations := operations + [Spec.Operation(begun, picksModel, Spec.SelectingModel)];
        AfterCancellation(o);
      }
    }

    method Suspend(o: nat, pc: Spec.Pc)
      requires o < |operations|
      modifies this`operations, this`turnOperation
      ensures View() == Spec.SetPc(old(View()), o, pc)
    {
      operations := operations[o := operations[o].(pc := pc)];
      if pc.Settled? && turnOperation == Some(o) {
        turnOperation := None;
      }
    }

    method AfterCancellation(o: nat)
      requires o < |operations|
      modifies this`operations, this`turnOperation
      ensures View() == Spec.AfterCancellation(old(View()), o)
    {
      if quiescence.Some? {
        Suspend(o, Spec.AwaitingGate(quiescence.value, false));
      } else {
        CheckThenModel(o);
      }
    }

    method CheckThenModel(o: nat)
      requires o < |operations|
      modifies this`operations, this`turnOperation
      ensures View() == Spec.CheckThenModel(old(View()), o)
    {
      var its := operations[o].run;
      if run != Some(its) || quiesced || its in aborted {
        Suspend(o, Spec.Settled);
      } else if operations[o].picksModel {
        Suspend(o, Spec.SelectingModel);
      } else {
        AfterModel(o);
      }
    }

    method AfterModel(o: nat)
      requires o < |operations|
      modifies this`operations, this`turnOperation
      ensures View() == Spec.AfterModel(old(View()), o)
    {
      if quiescence.Some? {
        Suspend(o, Spec.AwaitingGate(quiescence.value, true));
      } else {
        CheckThenPrompt(o);
      }
    }

    method CheckThenPrompt(o: nat)
      requires o < |operations|
      modifies this`operations, this`turnOperation
      ensures View() == Spec.CheckThenPrompt(old(View()), o)
    {
      var its := operations[o].run;
      if run != Some(its) || quiesced || its in aborted {
        Suspend(o, Spec.Settled);
      } else {
        Suspend(o, Spec.Prompting);
      }
    }

    method PromptSettled(o: nat, result: Spec.Result)
      requires Spec.Enabled(View(), Spec.PromptSettles(o, result))
      modifies this
      ensures View() == Spec.Next(old(View()), Spec.PromptSettles(o, result))
    {
      Suspend(o, Spec.Settled);
      SettlePrompt(operations[o].run, result);
    }

    method SettlePrompt(its: nat, result: Spec.Result)
      modifies this
      ensures View() == Spec.SettlePrompt(old(View()), its, result)
    {
      if run != Some(its) {
        return;
      }
      if quiesced {
        results := results[its := result];
        return;
      }
      FinishTurn();
    }

    method FinishTurn()
      modifies this
      ensures View() == Spec.FinishTurn(old(View()))
    {
      if run.None? {
        return;
      }
      run := None;
      ConsumeNextQueuedMessage();
    }

    method ConsumeNextQueuedMessage()
      modifies this
      ensures View() == Spec.ConsumeNext(old(View()))
    {
      if quiesced || cancellation.Some? {
        return;
      }
      if queuedMessages == [] || run.Some? {
        return;
      }
      var next := queuedMessages[0];
      var begun := BeginRun();
      started := started + [next];
      queuedMessages := queuedMessages[1..];
      RunPrompt(begun, next in withModel);
    }

    // ── Cancellation ────────────────────────────────────────────────────────

    method CancelTurn(matches: bool)
      modifies this
      ensures View() == Spec.CancelTurn(old(View()), matches)
    {
      if run.Some? && !matches {
        return;
      }
      if run.Some? {
        aborted := aborted + {run.value};
      }
      run := None;
      cancellation := Some(|cancellations|);
      cancellations := cancellations + [Spec.Cancellation(false, false, turnOperation, false)];
    }

    method SettleCancellation(generation: nat)
      requires generation < |cancellations|
      modifies this
      ensures View() == Spec.SettleCancellation(old(View()), generation)
    {
      cancellations := cancellations[generation := cancellations[generation].(done := true)];
      if generation + 1 != |cancellations| {
        return;
      }
      cancellation := None;
      ConsumeNextQueuedMessage();
    }

    // ── Quiescence ──────────────────────────────────────────────────────────

    method Quiesce()
      requires Spec.Enabled(View(), Spec.Quiesce)
      modifies this
      ensures View() == Spec.Next(old(View()), Spec.Quiesce)
    {
      quiesced := true;
      quiescence := Some(gates);
      gates := gates + 1;
      phase := Spec.Aborting(run);
    }

    method QuiesceAborted()
      requires Spec.Enabled(View(), Spec.QuiesceAborted)
      modifies this
      ensures View() == Spec.Next(old(View()), Spec.QuiesceAborted)
    {
      if phase.run.Some? {
        aborted := aborted + {phase.run.value};
      }
      quiescence := None;
      phase := Spec.Draining;
    }

    method Resume()
      modifies this
      ensures View() == Spec.Resume(old(View()))
    {
      if !quiesced {
        return;
      }
      quiesced := false;
      quiescence := None;
      if run.Some? && run.value in results {
        SettlePrompt(run.value, results[run.value]);
      } else {
        ConsumeNextQueuedMessage();
      }
    }
  }
}
