/**
 One session identity: creation, materialization from disk and deletion, ordered in its lane, with the gate a deletion
 installs before anything else can run. Canonical URIs: one identity has one session and one chat channel. Files,
 backends and the driver's quiescence settle as the environment decides.
 */
module SessionLifecycleSpec {
  import opened Protocol

  datatype Driver = Accepting | Quiesced

  datatype HydrationStage = Unstarted | Locating | Reading

  /** Quiescing and Deleting(true) hold the driver they quiesced; Cleaning runs once the deletion is committed. */
  datatype DisposalStage = InLine | Quiescing | FindingFile | Deleting(captured: bool) | Cleaning

  datatype Job = Creating | Hydrating(load: HydrationStage) | Disposing(stage: DisposalStage) | Other(running: bool)

  /** The entry in the disposals map: absent, waiting for its deferred start, entered into the lane, or settled. */
  datatype Gate = Open | Deferred | Entered | Closed

  datatype Life = Life(
    live: bool, byChat: bool, baseline: bool, sessionChannel: bool, chatChannel: bool,
    driver: Option<Driver>, gate: Gate, lane: seq<Job>, hydration: bool, successes: nat)

  const Initial := Life(false, false, false, false, false, None, Open, [], false, 0)

  function Registered(s: Life): Life {
    s.(live := true, byChat := true, baseline := true, sessionChannel := true, chatChannel := true,
       driver := None, successes := s.successes + 1)
  }

  function Forgotten(s: Life): Life {
    s.(live := false, byChat := false, baseline := false, sessionChannel := false, chatChannel := false, driver := None)
  }

  predicate RefusesCreation(s: Life) {
    s.gate != Open || s.byChat || s.sessionChannel
  }

  /** The hydrator's check, made before reading from disk and again when nothing is awaited any more. */
  predicate RefusesHydration(s: Life) {
    s.live || s.gate != Open
  }

  function Finish(s: Life, rest: seq<Job>): Life { s.(lane := rest) }

  function Continue(s: Life, job: Job, rest: seq<Job>): Life { s.(lane := [job] + rest) }

  /** Deletion failed: the driver it had quiesced resumes, and everything else is as it was. */
  function FailDisposal(s: Life, captured: bool, rest: seq<Job>): Life {
    Finish(s.(gate := Closed, driver := if captured && s.driver.Some? then Some(Accepting) else s.driver), rest)
  }

  /** The synchronous prefix of a job, with the rest of its lane behind it. */
  function Begin(s: Life, job: Job, rest: seq<Job>, hasFile: bool): Life {
    match job
    case Creating => Finish(if RefusesCreation(s) then s else Registered(s), rest)
    case Hydrating(_) =>
      if RefusesHydration(s) then Finish(s.(hydration := false), rest) else Continue(s, Hydrating(Locating), rest)
    case Disposing(_) =>
      if s.live && s.driver.Some? then Continue(s.(driver := Some(Quiesced)), Disposing(Quiescing), rest)
      else if s.live then Continue(s, Disposing(if hasFile then Deleting(false) else Cleaning), rest)
      else Continue(s, Disposing(FindingFile), rest)
    case Other(_) => Continue(s, Other(true), rest)
  }

  function Submit(s: Life, job: Job, hasFile: bool): Life {
    if s.lane == [] then Begin(s, job, [], hasFile) else s.(lane := s.lane + [job])
  }

  datatype Step =
    | CreateRequested(hasFile: bool)
    | HydrateRequested(hasFile: bool)
    | DisposeRequested
    | OtherRequested(hasFile: bool)
    | DisposeEnters(hasFile: bool)     // the deferred deletion reaches the lane
    | LaneStarts(hasFile: bool)        // the job in front has settled; the next one begins
    | Located(found: bool)
    | Read(ok: bool)
    | QuiesceSettles(ok: bool, hasFile: bool)
    | FileFound(found: bool)
    | FileDeleted(ok: bool)
    | ChildrenCleaned
    | OtherSettles
    | GateCleared
    | BackendAttaches

  predicate InFront(s: Life, job: Job) {
    s.lane != [] && s.lane[0] == job
  }

  predicate Waits(job: Job) {
    job == Creating || job == Hydrating(Unstarted) || job == Disposing(InLine) || job == Other(false)
  }

  predicate Enabled(s: Life, step: Step) {
    match step
    case DisposeEnters(_) => s.gate == Deferred
    case LaneStarts(_) => s.lane != [] && Waits(s.lane[0])
    case Located(_) => InFront(s, Hydrating(Locating))
    case Read(_) => InFront(s, Hydrating(Reading))
    case QuiesceSettles(_, _) => InFront(s, Disposing(Quiescing))
    case FileFound(_) => InFront(s, Disposing(FindingFile))
    case FileDeleted(_) => InFront(s, Disposing(Deleting(true))) || InFront(s, Disposing(Deleting(false)))
    case ChildrenCleaned => InFront(s, Disposing(Cleaning))
    case OtherSettles => InFront(s, Other(true))
    case GateCleared => s.gate == Closed
    case BackendAttaches => s.live && s.driver.None?
    case CreateRequested(_) => true
    case HydrateRequested(_) => true
    case DisposeRequested => true
    case OtherRequested(_) => true
  }

  function Next(s: Life, step: Step): Life
    requires Enabled(s, step)
  {
    match step
    case CreateRequested(hasFile) => if RefusesCreation(s) then s else Submit(s, Creating, hasFile)
    case HydrateRequested(hasFile) =>
      if s.live || s.gate != Open || s.hydration then s
      else Submit(s.(hydration := true), Hydrating(Unstarted), hasFile)
    case DisposeRequested => if s.gate != Open then s else s.(gate := Deferred)
    case OtherRequested(hasFile) => Submit(s, Other(false), hasFile)
    case DisposeEnters(hasFile) => Submit(s.(gate := Entered), Disposing(InLine), hasFile)
    case LaneStarts(hasFile) => Begin(s, s.lane[0], s.lane[1..], hasFile)
    case Located(found) =>
      if found then Continue(s, Hydrating(Reading), s.lane[1..]) else Finish(s.(hydration := false), s.lane[1..])
    case Read(ok) =>
      Finish((if ok && !RefusesHydration(s) then Registered(s) else s).(hydration := false), s.lane[1..])
    case QuiesceSettles(ok, hasFile) =>
      if ok then Continue(s, Disposing(if hasFile then Deleting(true) else Cleaning), s.lane[1..])
      else FailDisposal(s, true, s.lane[1..])
    case FileFound(found) =>
      if found then Continue(s, Disposing(Deleting(false)), s.lane[1..])
      else if !s.sessionChannel then FailDisposal(s, false, s.lane[1..])
      else Continue(s, Disposing(Cleaning), s.lane[1..])
    case FileDeleted(ok) =>
      if ok then Continue(s, Disposing(Cleaning), s.lane[1..])
      else FailDisposal(s, s.lane[0].stage.captured, s.lane[1..])
    case ChildrenCleaned => Finish(Forgotten(s).(gate := Closed), s.lane[1..])
    case OtherSettles => Finish(s, s.lane[1..])
    case GateCleared => s.(gate := Open)
    case BackendAttaches => s.(driver := Some(Accepting))
  }

  predicate Trace(s: Life, steps: seq<Step>)
    decreases |steps|
  {
    steps == [] || (Enabled(s, steps[0]) && Trace(Next(s, steps[0]), steps[1..]))
  }

  function Run(s: Life, steps: seq<Step>): Life
    requires Trace(s, steps)
    decreases |steps|
  {
    if steps == [] then s else Run(Next(s, steps[0]), steps[1..])
  }

  // ── What every run keeps ──────────────────────────────────────────────────

  /** Registry, chat index, baselines and both channels agree: the session is wholly present or wholly absent. */
  predicate Whole(s: Life) {
    && s.byChat == s.live && s.baseline == s.live && s.sessionChannel == s.live && s.chatChannel == s.live
    && (s.driver.Some? ==> s.live)
  }

  function Disposals(lane: seq<Job>): nat {
    if lane == [] then 0 else (if lane[0].Disposing? then 1 else 0) + Disposals(lane[1..])
  }

  /** The deletion at work in front of the lane holds the session's driver quiesced. */
  predicate Holding(s: Life) {
    s.lane != [] && (s.lane[0] == Disposing(Quiescing) || s.lane[0] == Disposing(Deleting(true)))
  }

  ghost predicate Inv(s: Life) {
    && Whole(s)
    && Disposals(s.lane) == (if s.gate == Entered then 1 else 0)
    && (forall i :: 1 <= i < |s.lane| ==> Waits(s.lane[i]))
    && (Holding(s) ==> s.live && s.driver == Some(Quiesced))
    && (s.driver == Some(Quiesced) ==> Holding(s) || InFront(s, Disposing(Cleaning)))
  }

  lemma {:induction false} DisposalsOfConcat(a: seq<Job>, b: seq<Job>)
    ensures Disposals(a + b) == Disposals(a) + Disposals(b)
    decreases |a|
  {
    if a == [] {
      assert a + b == b;
    } else {
      DisposalsOfConcat(a[1..], b);
      assert (a + b)[1..] == a[1..] + b;
    }
  }

  lemma FrontOf(job: Job, rest: seq<Job>)
    ensures Disposals([job] + rest) == (if job.Disposing? then 1 else 0) + Disposals(rest)
    ensures ([job] + rest)[1..] == rest && forall i :: 1 <= i < |[job] + rest| ==> ([job] + rest)[i] == rest[i - 1]
  {
    assert ([job] + rest)[1..] == rest;
  }

  lemma FinishKeeps(s: Life, rest: seq<Job>)
    requires Whole(s) && s.driver != Some(Quiesced)
    requires Disposals(rest) == (if s.gate == Entered then 1 else 0)
    requires forall i :: 0 <= i < |rest| ==> Waits(rest[i])
    ensures Inv(Finish(s, rest))
  {
  }

  lemma ContinueKeeps(s: Life, job: Job, rest: seq<Job>)
    requires Whole(s) && (if job.Disposing? then 1 else 0) + Disposals(rest) == (if s.gate == Entered then 1 else 0)
    requires forall i :: 0 <= i < |rest| ==> Waits(rest[i])
    requires job == Disposing(Quiescing) || job == Disposing(Deleting(true)) ==> s.live && s.driver == Some(Quiesced)
    requires s.driver == Some(Quiesced) ==>
      job == Disposing(Quiescing) || job == Disposing(Deleting(true)) || job == Disposing(Cleaning)
    ensures Inv(Continue(s, job, rest))
  {
    FrontOf(job, rest);
  }

  lemma BeginKeeps(s: Life, job: Job, rest: seq<Job>, hasFile: bool)
    requires Whole(s) && s.driver != Some(Quiesced) && Waits(job)
    requires (if job.Disposing? then 1 else 0) + Disposals(rest) == (if s.gate == Entered then 1 else 0)
    requires forall i :: 0 <= i < |rest| ==> Waits(rest[i])
    ensures Inv(Begin(s, job, rest, hasFile))
  {
    match job
    case Creating => FinishKeeps(if RefusesCreation(s) then s else Registered(s), rest);
    case Hydrating(_) =>
      if RefusesHydration(s) { FinishKeeps(s.(hydration := false), rest); } else { ContinueKeeps(s, Hydrating(Locating), rest); }
    case Disposing(_) =>
      if s.live && s.driver.Some? {
        ContinueKeeps(s.(driver := Some(Quiesced)), Disposing(Quiescing), rest);
      } else {
        ContinueKeeps(s, Disposing(if !s.live then FindingFile else if hasFile then Deleting(false) else Cleaning), rest);
      }
    case Other(_) => ContinueKeeps(s, Other(true), rest);
  }

  lemma SubmitKeeps(s: Life, job: Job, hasFile: bool)
    requires Whole(s) && Waits(job) && (s.driver == Some(Quiesced) ==> Holding(s) || InFront(s, Disposing(Cleaning)))
    requires Disposals(s.lane) + (if job.Disposing? then 1 else 0) == (if s.gate == Entered then 1 else 0)
    requires (forall i :: 1 <= i < |s.lane| ==> Waits(s.lane[i])) && (Holding(s) ==> s.live && s.driver == Some(Quiesced))
    ensures Inv(Submit(s, job, hasFile))
  {
    if s.lane == [] {
      BeginKeeps(s, job, [], hasFile);
    } else {
      DisposalsOfConcat(s.lane, [job]);
      assert [job] == [job] + [];
      FrontOf(job, []);
    }
  }

  lemma RestOf(s: Life)
    requires Inv(s) && s.lane != []
    ensures Disposals(s.lane) == (if s.lane[0].Disposing? then 1 else 0) + Disposals(s.lane[1..])
    ensures forall i :: 0 <= i < |s.lane[1..]| ==> Waits(s.lane[1..][i])
  {
    assert forall i :: 0 <= i < |s.lane[1..]| ==> s.lane[1..][i] == s.lane[i + 1];
  }

  lemma HydrationKeeps(s: Life, step: Step)
    requires Inv(s) && Enabled(s, step) && (step.Located? || step.Read? || step.OtherSettles?)
    ensures Inv(Next(s, step))
  {
    RestOf(s);
    var rest := s.lane[1..];
    match step
    case Located(found) =>
      if found { ContinueKeeps(s, Hydrating(Reading), rest); } else { FinishKeeps(s.(hydration := false), rest); }
    case Read(ok) =>
      FinishKeeps((if ok && !RefusesHydration(s) then Registered(s) else s).(hydration := false), rest);
    case _ => FinishKeeps(s, rest);
  }

  lemma SettledKeeps(s: Life, captured: bool)
    requires Inv(s) && s.lane != [] && s.lane[0].Disposing? && s.lane[0] != Disposing(Cleaning)
    requires s.driver == Some(Quiesced) ==> captured
    ensures Inv(FailDisposal(s, captured, s.lane[1..]))
  {
    RestOf(s);
    FinishKeeps(s.(gate := Closed, driver := if captured && s.driver.Some? then Some(Accepting) else s.driver), s.lane[1..]);
  }

  lemma GoesOnKeeps(s: Life, stage: DisposalStage)
    requires Inv(s) && s.lane != [] && s.lane[0].Disposing? && s.lane[0] != Disposing(Cleaning)
    requires stage == Cleaning || stage == Deleting(false) || (stage == Deleting(true) && s.lane[0] == Disposing(Quiescing))
    requires s.driver == Some(Quiesced) ==> stage != Deleting(false)
    ensures Inv(Continue(s, Disposing(stage), s.lane[1..]))
  {
    RestOf(s);
    ContinueKeeps(s, Disposing(stage), s.lane[1..]);
  }

  lemma DisposalKeeps(s: Life, step: Step)
    requires Inv(s) && Enabled(s, step)
    requires step.QuiesceSettles? || step.FileFound? || step.FileDeleted? || step.ChildrenCleaned?
    ensures Inv(Next(s, step))
  {
    match step
    case QuiesceSettles(ok, hasFile) =>
      if ok { GoesOnKeeps(s, if hasFile then Deleting(true) else Cleaning); } else { SettledKeeps(s, true); }
    case FileFound(found) =>
      if found { GoesOnKeeps(s, Deleting(false)); }
      else if !s.sessionChannel { SettledKeeps(s, false); }
      else { GoesOnKeeps(s, Cleaning); }
    case FileDeleted(ok) => if ok { GoesOnKeeps(s, Cleaning); } else { SettledKeeps(s, s.lane[0].stage.captured); }
    case ChildrenCleaned =>
      RestOf(s);
      FinishKeeps(Forgotten(s).(gate := Closed), s.lane[1..]);
    case _ =>
  }

  lemma StepKeeps(s: Life, step: Step)
    requires Inv(s) && Enabled(s, step)
    ensures Inv(Next(s, step))
  {
    match step
    case CreateRequested(hasFile) => if !RefusesCreation(s) { SubmitKeeps(s, Creating, hasFile); }
    case HydrateRequested(hasFile) =>
      if !(s.live || s.gate != Open || s.hydration) { SubmitKeeps(s.(hydration := true), Hydrating(Unstarted), hasFile); }
    case DisposeRequested =>
    case OtherRequested(hasFile) => SubmitKeeps(s, Other(false), hasFile);
    case DisposeEnters(hasFile) => SubmitKeeps(s.(gate := Entered), Disposing(InLine), hasFile);
    case LaneStarts(hasFile) =>
      RestOf(s);
      BeginKeeps(s, s.lane[0], s.lane[1..], hasFile);
    case Located(_) => HydrationKeeps(s, step);
    case Read(_) => HydrationKeeps(s, step);
    case QuiesceSettles(_, _) => DisposalKeeps(s, step);
    case FileFound(_) => DisposalKeeps(s, step);
    case FileDeleted(_) => DisposalKeeps(s, step);
    case ChildrenCleaned => DisposalKeeps(s, step);
    case OtherSettles => HydrationKeeps(s, step);
    case GateCleared =>
    case BackendAttaches =>
  }

  lemma {:induction false} RunKeeps(s: Life, steps: seq<Step>)
    requires Inv(s) && Trace(s, steps)
    ensures Inv(Run(s, steps))
    decreases |steps|
  {
    if steps != [] {
      StepKeeps(s, steps[0]);
      RunKeeps(Next(s, steps[0]), steps[1..]);
    }
  }

  // ── The fence ─────────────────────────────────────────────────────────────

  /** With the gate installed no step registers a session, whatever was queued or begun before; only the deletion's own
      last step takes one away. */
  lemma GateFences(s: Life, step: Step)
    requires Inv(s) && Enabled(s, step) && s.gate != Open
    ensures var e := Next(s, step);
            && e.successes == s.successes && (!s.live ==> !e.live)
            && (!step.ChildrenCleaned? ==> e.live == s.live)
  {
  }

  /** The gate stays installed all through a run. */
  predicate Gated(s: Life, steps: seq<Step>)
    requires Trace(s, steps)
    decreases |steps|
  {
    s.gate != Open && (steps == [] || Gated(Next(s, steps[0]), steps[1..]))
  }

  predicate Deletes(steps: seq<Step>) {
    exists i :: 0 <= i < |steps| && steps[i].ChildrenCleaned?
  }

  /** From the moment a deletion installs its gate until the gate is cleared, no creation or hydration registers a
      session. Unless the deletion itself commits, the session stays exactly as present as it was; once it commits, it
      stays gone. */
  lemma {:induction false} DeletionFence(s: Life, steps: seq<Step>)
    requires Inv(s) && Trace(s, steps) && Gated(s, steps)
    ensures Run(s, steps).successes == s.successes
    ensures Run(s, steps).live == (s.live && !Deletes(steps))
    decreases |steps|
  {
    if steps != [] {
      GateFences(s, steps[0]);
      StepKeeps(s, steps[0]);
      DeletionFence(Next(s, steps[0]), steps[1..]);
      assert Deletes(steps) <==> steps[0].ChildrenCleaned? || Deletes(steps[1..]) by {
        if Deletes(steps[1..]) {
          var i :| 0 <= i < |steps[1..]| && steps[1..][i].ChildrenCleaned?;
          assert steps[i + 1].ChildrenCleaned?;
        }
        if i :| 0 <= i < |steps| && steps[i].ChildrenCleaned? {
          assert i > 0 ==> steps[1..][i - 1].ChildrenCleaned?;
        }
      }
    }
  }

  /** What a request to hydrate the session's channel answers at once; None when it has work to wait for. */
  function HydrateAnswer(s: Life): Option<bool> {
    if s.live then Some(s.sessionChannel) else if s.gate != Open then Some(false) else None
  }

  /** What a request that had to wait for a hydration, its own or another's, answers when it goes on. */
  function WaitedAnswer(s: Life): bool {
    s.sessionChannel
  }

  /** On every run, a request to hydrate says that the channel is there only while the session is registered; and under
      the gate each answers exactly whether the session that was registered when the gate was installed is still not
      deleted, so none says so of a session that was absent or is gone. */
  lemma HydrateAnswers(before: seq<Step>, steps: seq<Step>)
    requires Trace(Initial, before) && Trace(Run(Initial, before), steps)
    ensures var e := Run(Run(Initial, before), steps);
            WaitedAnswer(e) == e.live && (HydrateAnswer(e).Some? ==> HydrateAnswer(e).value == e.live)
    ensures var s := Run(Initial, before); var e := Run(s, steps);
            (Gated(s, steps) ==> HydrateAnswer(e) == Some(s.live && !Deletes(steps)) && WaitedAnswer(e) == (s.live && !Deletes(steps)))
  {
    RunKeeps(Initial, before);
    var s := Run(Initial, before);
    RunKeeps(s, steps);
    if Gated(s, steps) {
      DeletionFence(s, steps);
      StillGated(s, steps);
    }
  }

  lemma {:induction false} StillGated(s: Life, steps: seq<Step>)
    requires Trace(s, steps) && Gated(s, steps)
    ensures Run(s, steps).gate != Open
    decreases |steps|
  {
    if steps != [] { StillGated(Next(s, steps[0]), steps[1..]); }
  }

  /** On every run: success removes the session from the registry, the chat index, the baselines and the store; failure
      leaves it present in all of them, with its driver accepting work; and no driver is left quiesced unless a
      deletion is at work. */
  lemma DisposalOutcome(steps: seq<Step>, step: Step)
    requires Trace(Initial, steps) && Enabled(Run(Initial, steps), step)
    ensures var s := Run(Initial, steps); var e := Next(s, step);
            && Whole(e)
            && (s.gate == Entered && e.gate == Closed ==>
                  if step.ChildrenCleaned? then e.successes == s.successes && !e.live && e.driver.None?
                  else e.live == s.live && e.driver != Some(Quiesced) && (s.driver.Some? ==> e.driver.Some?))
            && (e.driver == Some(Quiesced) ==> e.gate == Entered)
  {
    RunKeeps(Initial, steps);
    var s := Run(Initial, steps);
    StepKeeps(s, step);
    var e := Next(s, step);
    if e.lane != [] && e.lane[0].Disposing? { assert Disposals(e.lane) >= 1; }
  }

  /** A deletion that was asked for gets its turn and an end: while the gate is installed, either the gate can be
      cleared, or the deferred deletion can enter, or the lane's front job can take its next step. */
  lemma GateIsNotStuck(s: Life)
    requires Inv(s) && s.gate != Open
    ensures exists step: Step :: Enabled(s, step) && !step.CreateRequested? && !step.HydrateRequested? && !step.DisposeRequested?
              && !step.OtherRequested? && !step.BackendAttaches?
  {
    if s.gate == Closed {
      assert Enabled(s, GateCleared);
    } else if s.gate == Deferred {
      assert Enabled(s, DisposeEnters(true));
    } else {
      assert s.lane != [];
      var step := match s.lane[0]
                  case Creating => LaneStarts(true)
                  case Hydrating(load) =>
                    (match load case Unstarted => LaneStarts(true) case Locating => Located(true) case Reading => Read(true))
                  case Disposing(stage) =>
                    (match stage
                     case InLine => LaneStarts(true)
                     case Quiescing => QuiesceSettles(true, true)
                     case FindingFile => FileFound(true)
                     case Deleting(_) => FileDeleted(true)
                     case Cleaning => ChildrenCleaned)
                  case Other(running) => if running then OtherSettles else LaneStarts(true);
      assert Enabled(s, step);
    }
  }

  // ── A deletion ends ───────────────────────────────────────────────────────

  /** The most steps a job can still take. */
  function Weight(job: Job): nat {
    match job
    case Creating => 1
    case Hydrating(load) => (match load case Unstarted => 3 case Locating => 2 case Reading => 1)
    case Disposing(stage) =>
      (match stage case InLine => 4 case Quiescing => 3 case FindingFile => 3 case Deleting(_) => 2 case Cleaning => 1)
    case Other(running) => if running then 1 else 2
  }

  /** The most steps the lane can still take up to the end of the deletion. */
  function Ahead(lane: seq<Job>): nat {
    if lane == [] then 0
    else if lane[0].Disposing? then Weight(lane[0])
    else Weight(lane[0]) + Ahead(lane[1..])
  }

  /** The steps of the lane's own jobs, as opposed to requests and backends. */
  predicate IsOwn(step: Step) {
    step.LaneStarts? || step.Located? || step.Read? || step.QuiesceSettles? || step.FileFound? || step.FileDeleted?
    || step.ChildrenCleaned? || step.OtherSettles?
  }

  lemma {:induction false} JobsBehindDoNotCount(lane: seq<Job>, job: Job)
    requires Disposals(lane) > 0
    ensures Ahead(lane + [job]) == Ahead(lane)
  {
    assert (lane + [job])[1..] == lane[1..] + [job];
    if !lane[0].Disposing? { JobsBehindDoNotCount(lane[1..], job); }
  }

  lemma FrontLeaves(job: Job, rest: seq<Job>)
    requires !job.Disposing?
    ensures Ahead(rest) < Ahead([job] + rest)
  {
    assert ([job] + rest)[1..] == rest;
  }

  lemma FrontGoesOn(job: Job, next: Job, rest: seq<Job>)
    requires next.Disposing? == job.Disposing? && Weight(next) < Weight(job)
    ensures Ahead([next] + rest) < Ahead([job] + rest)
  {
    assert ([job] + rest)[1..] == rest && ([next] + rest)[1..] == rest;
  }

  /** The front job leaves, unless it is the deletion, or goes on with less left to do. */
  predicate Moves(job: Job, rest: seq<Job>, lane: seq<Job>) {
    || (lane == rest && !job.Disposing?)
    || (lane != [] && lane == [lane[0]] + rest && lane[0].Disposing? == job.Disposing? && Weight(lane[0]) < Weight(job))
  }

  lemma BeginMoves(s: Life, job: Job, rest: seq<Job>, hasFile: bool)
    requires Waits(job)
    ensures Moves(job, rest, Begin(s, job, rest, hasFile).lane)
  {
    match job
    case Creating =>
    case Hydrating(_) =>
    case Disposing(_) =>
    case Other(_) =>
  }

  lemma HydrationMoves(s: Life, step: Step)
    requires Enabled(s, step) && (step.Located? || step.Read? || step.OtherSettles?)
    ensures Moves(s.lane[0], s.lane[1..], Next(s, step).lane)
  {
  }

  lemma QuiescenceMoves(s: Life, ok: bool, hasFile: bool)
    requires Enabled(s, QuiesceSettles(ok, hasFile)) && ok
    ensures Moves(s.lane[0], s.lane[1..], Next(s, QuiesceSettles(ok, hasFile)).lane)
  {
  }

  lemma FileMoves(s: Life, step: Step)
    requires Enabled(s, step) && ((step.FileFound? && (step.found || s.sessionChannel)) || (step.FileDeleted? && step.ok))
    ensures Moves(s.lane[0], s.lane[1..], Next(s, step).lane)
  {
  }

  /** While the deletion has not settled, each of its steps leads to the next. */
  lemma DisposalMoves(s: Life, step: Step)
    requires Enabled(s, step) && Next(s, step).gate == Entered
    requires step.QuiesceSettles? || step.FileFound? || step.FileDeleted? || step.ChildrenCleaned?
    ensures Moves(s.lane[0], s.lane[1..], Next(s, step).lane)
  {
    if step.QuiesceSettles? { QuiescenceMoves(s, step.ok, step.hasFile); }
    else if step.FileFound? || step.FileDeleted? { FileMoves(s, step); }
  }

  lemma OwnStepIsProgress(s: Life, step: Step)
    requires Enabled(s, step) && Next(s, step).gate == Entered && IsOwn(step)
    ensures Ahead(Next(s, step).lane) < Ahead(s.lane)
  {
    var lane, job, rest := Next(s, step).lane, s.lane[0], s.lane[1..];
    if step.LaneStarts? { BeginMoves(s, job, rest, step.hasFile); }
    else if step.Located? || step.Read? || step.OtherSettles? { HydrationMoves(s, step); }
    else { DisposalMoves(s, step); }
    assert s.lane == [job] + rest;
    if lane == rest && !job.Disposing? { FrontLeaves(job, rest); } else { FrontGoesOn(job, lane[0], rest); }
  }

  lemma OtherStepIsNoSetback(s: Life, step: Step)
    requires Inv(s) && Enabled(s, step) && s.gate == Entered && Next(s, step).gate == Entered && !IsOwn(step)
    ensures Ahead(Next(s, step).lane) == Ahead(s.lane)
  {
    if step.OtherRequested? { JobsBehindDoNotCount(s.lane, Other(false)); }
  }

  /** A deletion that has entered the lane has not settled at any moment of the run. */
  predicate AtWork(s: Life, steps: seq<Step>)
    requires Trace(s, steps)
    decreases |steps|
  {
    s.gate == Entered && (steps == [] || AtWork(Next(s, steps[0]), steps[1..]))
  }

  function OwnSteps(steps: seq<Step>): nat {
    if steps == [] then 0 else (if IsOwn(steps[0]) then 1 else 0) + OwnSteps(steps[1..])
  }

  /** A deletion in the lane settles within as many steps of the lane as the jobs up to it can take, which is known when
      it enters: no request, however many come, puts anything in front of it. */
  lemma {:induction false} DeletionEnds(s: Life, steps: seq<Step>)
    requires Inv(s) && Trace(s, steps) && AtWork(s, steps)
    ensures OwnSteps(steps) + Ahead(Run(s, steps).lane) <= Ahead(s.lane) <= 3 * |s.lane| + 1
    decreases |steps|
  {
    AheadIsBounded(s.lane);
    if steps != [] {
      StepKeeps(s, steps[0]);
      DeletionEnds(Next(s, steps[0]), steps[1..]);
      if IsOwn(steps[0]) { OwnStepIsProgress(s, steps[0]); } else { OtherStepIsNoSetback(s, steps[0]); }
    }
  }

  lemma {:induction false} AheadIsBounded(lane: seq<Job>)
    ensures Ahead(lane) <= 3 * |lane| + 1
  {
    if lane != [] { AheadIsBounded(lane[1..]); }
  }
}

/** The registry's and the hydrator's maps, updated in place; every method is the step of its identity and leaves every
    other identity alone. */
module SessionRegistry {
  import opened Protocol
  import Spec = SessionLifecycleSpec

  class SessionRegistry {
    var sessions: map<nat, Option<Spec.Driver>>
    var byChat: set<nat>
    var summaryBaselines: set<nat>
    var sessionChannels: set<nat>
    var chatChannels: set<nat>
    var disposals: map<nat, Spec.Gate>
    var hydrations: set<nat>
    var lanes: map<nat, seq<Spec.Job>>
    ghost var successes: map<nat, nat>

    ghost function View(id: nat): Spec.Life
      reads this
    {
      Spec.Life(id in sessions, id in byChat, id in summaryBaselines, id in sessionChannels, id in chatChannels,
                if id in sessions then sessions[id] else None,
                if id in disposals then disposals[id] else Spec.Open,
                if id in lanes then lanes[id] else [],
                id in hydrations,
                if id in successes then successes[id] else 0)
    }

    constructor ()
      ensures forall id :: View(id) == Spec.Initial
    {
      sessions, byChat, summaryBaselines, sessionChannels, chatChannels := map[], {}, {}, {}, {};
      disposals, hydrations, lanes, successes := map[], {}, map[], map[];
    }

    method RefusesCreation(id: nat) returns (refused: bool)
      ensures refused == Spec.RefusesCreation(View(id))
    {
      refused := (id in disposals && disposals[id] != Spec.Open) || id in byChat || id in sessionChannels;
    }

    method RefusesHydration(id: nat) returns (refused: bool)
      ensures refused == Spec.RefusesHydration(View(id))
    {
      refused := id in sessions || (id in disposals && disposals[id] != Spec.Open);
    }

    /** Creates the session's two channels in the store. */
    method Publish(id: nat)
      modifies this`chatChannels, this`sessionChannels
      ensures View(id) == old(View(id)).(sessionChannel := true, chatChannel := true)
      ensures forall other :: other != id ==> View(other) == old(View(other))
    {
      chatChannels := chatChannels + {id};
      sessionChannels := sessionChannels + {id};
    }

    /** Enters a session into the store, the registry, the chat index and the baselines. */
    method Track(id: nat)
      modifies this
      ensures View(id) == Spec.Registered(old(View(id)))
      ensures forall other :: other != id ==> View(other) == old(View(other))
    {
      Publish(id);
      sessions := sessions[id := None];
      byChat := byChat + {id};
      summaryBaselines := summaryBaselines + {id};
      successes := successes[id := if id in successes then successes[id] + 1 else 1];
    }

    /** The queued creation, once its turn in the lane comes. */
    method CreateOnce(id: nat, rest: seq<Spec.Job>) returns (created: bool)
      modifies this
      ensures View(id) == Spec.Begin(old(View(id)), Spec.Creating, rest, false)
      ensures created == !Spec.RefusesCreation(old(View(id)))
      ensures forall other :: other != id ==> View(other) == old(View(other))
    {
      var refused := RefusesCreation(id);
      created := !refused;
      if created {
        Track(id);
      }
      label registered:
      lanes := lanes[id := rest];
      assert forall other :: other != id ==> View(other) == old@registered(View(other));
    }

    /** The end of a materialization: file work done, nothing awaited any more, the checks made once again. */
    method FinishHydration(id: nat, ok: bool)
      requires Spec.Enabled(View(id), Spec.Read(ok))
      modifies this
      ensures View(id) == Spec.Next(old(View(id)), Spec.Read(ok))
      ensures forall other :: other != id ==> View(other) == old(View(other))
    {
      var rest := lanes[id][1..];
      var refused := RefusesHydration(id);
      if ok && !refused {
        Track(id);
      }
      label registered:
      hydrations := hydrations - {id};
      lanes := lanes[id := rest];
      assert forall other :: other != id ==> View(other) == old@registered(View(other));
    }

    /** Installs the gate before anything else can observe the deletion; a second request joins the first. */
    method Dispose(id: nat) returns (joined: bool)
      modifies this`disposals
      ensures View(id) == Spec.Next(old(View(id)), Spec.DisposeRequested)
      ensures joined == (old(View(id)).gate != Spec.Open)
      ensures forall other :: other != id ==> View(other) == old(View(other))
    {
      joined := id in disposals && disposals[id] != Spec.Open;
      if !joined {
        disposals := disposals[id := Spec.Deferred];
      }
    }

    /** The deletion fails: what it quiesced resumes, and the session stays. */
    method FailDisposal(id: nat, captured: bool, rest: seq<Spec.Job>)
      modifies this
      ensures View(id) == Spec.FailDisposal(old(View(id)), captured, rest)
      ensures forall other :: other != id ==> View(other) == old(View(other))
    {
      if captured && id in sessions && sessions[id].Some? {
        sessions := sessions[id := Some(Spec.Accepting)];
      }
      disposals := disposals[id := Spec.Closed];
      lanes := lanes[id := rest];
    }

    /** Takes a session out of the registry and the store. */
    method Forget(id: nat)
      requires id in byChat ==> id in sessions
      modifies this
      ensures View(id) == Spec.Forgotten(old(View(id)))
      ensures forall other :: other != id ==> View(other) == old(View(other))
    {
      if id in sessions {
        sessions := sessions - {id};
        byChat := byChat - {id};
      }
      chatChannels := chatChannels - {id};
      sessionChannels := sessionChannels - {id};
      summaryBaselines := summaryBaselines - {id};
    }

    /** The deletion is committed and its children are gone: the session leaves every map and the store. */
    method FinishDisposal(id: nat)
      requires Spec.Enabled(View(id), Spec.ChildrenCleaned) && Spec.Whole(View(id))
      modifies this
      ensures View(id) == Spec.Next(old(View(id)), Spec.ChildrenCleaned)
      ensures forall other :: other != id ==> View(other) == old(View(other))
    {
      var rest := lanes[id][1..];
      Forget(id);
      label forgotten:
      disposals := disposals[id := Spec.Closed];
      lanes := lanes[id := rest];
      assert forall other :: other != id ==> View(other) == old@forgotten(View(other));
    }

    method ClearGate(id: nat)
      requires Spec.Enabled(View(id), Spec.GateCleared)
      modifies this`disposals
      ensures View(id) == Spec.Next(old(View(id)), Spec.GateCleared)
      ensures forall other :: other != id ==> View(other) == old(View(other))
    {
      disposals := disposals - {id};
    }
  }
}
