/**
 What every client may rely on in the action stream of one prompt, whatever events pi emits:
 turns open and close alternately, actions name the open turn, deltas hit parts that exist,
 part ids never collide, and the text of each part is what pi streamed for it.
 */
module MapperTraces {
  import opened Collections
  import opened Protocol
  import opened EventMapperSpec

  datatype Call = Handle(event: Event) | Finish(outcome: Option<TurnResult>)

  function Apply(m: Mapper, call: Call): (Mapper, seq<Action>) {
    match call
    case Handle(event) => EventMapperSpec.Handle(m, event)
    case Finish(outcome) => EventMapperSpec.Finish(m, outcome)
  }

  function Run(m: Mapper, calls: seq<Call>): (Mapper, seq<Action>)
    decreases |calls|
  {
    if calls == [] then (m, [])
    else
      var (m1, first) := Apply(m, calls[0]);
      var (m2, rest) := Run(m1, calls[1..]);
      (m2, first + rest)
  }

  /** The client's own `chat/turnStarted`, then everything the mapper says. */
  function Trace(root: string, prompt: Message, calls: seq<Call>): seq<Action> {
    [TurnStarted(Live(root, 0), prompt, None)] + Run(NewMapper(root), calls).1
  }

  // ── Well-formed action streams ────────────────────────────────────────────

  /** What an observer has seen: the open turn, the keyed parts created in it, and every id used. */
  datatype Observed = Observed(open: Option<TurnId>, created: set<PartId>, used: set<PartId>, started: set<TurnId>)

  predicate Keyed(part: Part) {
    part.Markdown? || part.Reasoning?
  }

  predicate Allowed(o: Observed, a: Action) {
    match a
    case TurnStarted(turn, _, _) => o.open.None? && turn !in o.started
    case ActivityChanged(_) => true
    case TurnsLoaded(_, _) => false
    case Truncated(_) => false
    case ResponsePart(turn, part) => o.open == Some(turn) && (Keyed(part) ==> part.id !in o.used)
    case TextDelta(turn, id, _) => o.open == Some(turn) && id in o.created
    case ReasoningDelta(turn, id, _) => o.open == Some(turn) && id in o.created
    case _ => o.open == ScopeOf(a)
  }

  function Observe(o: Observed, a: Action): Observed {
    match a
    case TurnStarted(turn, _, _) => Observed(Some(turn), {}, o.used, o.started + {turn})
    case ResponsePart(_, part) =>
      if Keyed(part) then o.(created := o.created + {part.id}, used := o.used + {part.id}) else o
    case TurnComplete(_) => o.(open := None)
    case TurnCancelled(_) => o.(open := None)
    case TurnError(_, _) => o.(open := None)
    case _ => o
  }

  function ObserveAll(o: Observed, actions: seq<Action>): Observed
    decreases |actions|
  {
    if actions == [] then o else ObserveAll(Observe(o, actions[0]), actions[1..])
  }

  predicate WellFormed(o: Observed, actions: seq<Action>)
    decreases |actions|
  {
    actions == [] || (Allowed(o, actions[0]) && WellFormed(Observe(o, actions[0]), actions[1..]))
  }

  lemma {:induction false} WellFormedConcat(o: Observed, xs: seq<Action>, ys: seq<Action>)
    requires WellFormed(o, xs) && WellFormed(ObserveAll(o, xs), ys)
    ensures WellFormed(o, xs + ys) && ObserveAll(o, xs + ys) == ObserveAll(ObserveAll(o, xs), ys)
    decreases |xs|
  {
    if xs == [] {
      assert xs + ys == ys;
    } else {
      assert (xs + ys)[1..] == xs[1..] + ys;
      WellFormedConcat(Observe(o, xs[0]), xs[1..], ys);
    }
  }

  /** How the mapper's fields track what an observer has seen. */
  ghost predicate Tracks(m: Mapper, o: Observed) {
    && m.turnId == Live(m.root, m.injected)
    && m.ordinal >= -1
    && o.open == (if m.finished then None else Some(m.turnId))
    && (forall i :: i in m.parts ==>
          m.parts[i].created && m.parts[i].id == LivePart(m.turnId, m.ordinal, i) && m.parts[i].id in o.created)
    && (forall id :: id in o.used ==> id.LivePart? && UsedBefore(m, id))
    && (forall t :: t in o.started ==> t.Live? && t.root == m.root && t.split <= m.injected)
  }

  ghost predicate UsedBefore(m: Mapper, id: PartId)
    requires id.LivePart?
  {
    || (id.turn.Live? && id.turn.root == m.root && id.turn.split < m.injected)
    || (id.turn == m.turnId && (id.ordinal < m.ordinal || (id.ordinal == m.ordinal && id.index in m.parts)))
  }

  lemma SetActivityTracks(m: Mapper, o: Observed, activity: Option<string>)
    requires Tracks(m, o)
    ensures var (m1, actions) := SetActivity(m, activity);
            WellFormed(o, actions) && ObserveAll(o, actions) == o && Tracks(m1, o)
  {
  }

  function ChunkAction(m: Mapper, index: int, text: string, reasoning: bool): Action {
    var id := if index in m.parts then m.parts[index].id else LivePart(m.turnId, m.ordinal, index);
    if index !in m.parts || !m.parts[index].created then
      ResponsePart(m.turnId, if reasoning then Reasoning(id, text) else Markdown(id, text))
    else if reasoning then ReasoningDelta(m.turnId, id, text)
    else TextDelta(m.turnId, id, text)
  }

  lemma ChunkActionTracks(m: Mapper, o: Observed, index: int, text: string, reasoning: bool)
    requires Tracks(m, o) && !m.finished
    ensures var a := ChunkAction(m, index, text, reasoning);
            var part := OpenPart(LivePart(m.turnId, m.ordinal, index), if index in m.parts then m.parts[index].reasoning else reasoning, true);
            Allowed(o, a) && Tracks(m.(parts := m.parts[index := part]), Observe(o, a))
  {
    var id := LivePart(m.turnId, m.ordinal, index);
    if id in o.used { assert UsedBefore(m, id); }
  }

  lemma AppendChunkTracks(m: Mapper, o: Observed, index: Option<int>, delta: Option<string>, reasoning: bool)
    requires Tracks(m, o) && !m.finished
    ensures var (m1, actions) := AppendChunk(m, index, delta, reasoning);
            WellFormed(o, actions) && Tracks(m1, ObserveAll(o, actions))
  {
    if TextOf(delta) != "" {
      var (m1, responding) := SetActivity(m, Some(RESPONDING));
      SetActivityTracks(m, o, Some(RESPONDING));
      var a := ChunkAction(m1, IndexOf(index), TextOf(delta), reasoning);
      assert AppendChunk(m, index, delta, reasoning).1 == responding + [a];
      ChunkActionTracks(m1, o, IndexOf(index), TextOf(delta), reasoning);
      OneAction(o, a);
      WellFormedConcat(o, responding, [a]);
    }
  }

  lemma OneAction(o: Observed, a: Action)
    requires Allowed(o, a)
    ensures WellFormed(o, [a]) && ObserveAll(o, [a]) == Observe(o, a)
  {
    assert [a][1..] == [];
  }

  lemma TwoActions(o: Observed, a: Action, b: Action)
    requires Allowed(o, a) && Allowed(Observe(o, a), b)
    ensures WellFormed(o, [a, b]) && ObserveAll(o, [a, b]) == Observe(Observe(o, a), b)
  {
    OneAction(o, a);
    OneAction(Observe(o, a), b);
    assert [a, b] == [a] + [b];
    WellFormedConcat(o, [a], [b]);
  }

  lemma FragmentTracks(m: Mapper, o: Observed, index: Option<int>, block: Option<ToolBlock>, text: Option<string>)
    requires Tracks(m, o) && !m.finished
    ensures var (m1, actions) := OnToolCallDelta(m, index, block, text);
            WellFormed(o, actions) && Tracks(m1, ObserveAll(o, actions))
  {
    var actions := OnToolCallDelta(m, index, block, text).1;
    if |actions| == 2 {
      TwoActions(o, actions[0], actions[1]);
      assert actions == [actions[0], actions[1]];
    } else if |actions| == 1 {
      OneAction(o, actions[0]);
      assert actions == [actions[0]];
    }
  }

  lemma ToolDeltaTracks(m: Mapper, o: Observed, delta: Delta)
    requires Tracks(m, o) && !m.finished
    requires delta.ToolStart? || delta.ToolEnd? || delta.StreamError? || delta.OtherDelta?
    ensures var (m1, actions) := OnDelta(m, delta);
            WellFormed(o, actions) && Tracks(m1, ObserveAll(o, actions))
  {
    var actions := OnDelta(m, delta).1;
    if actions != [] {
      OneAction(o, actions[0]);
      assert actions == [actions[0]];
    }
  }

  lemma DeltaTracks(m: Mapper, o: Observed, delta: Delta)
    requires Tracks(m, o) && !m.finished
    ensures var (m1, actions) := OnDelta(m, delta);
            WellFormed(o, actions) && Tracks(m1, ObserveAll(o, actions))
  {
    match delta
    case TextChunk(index, text) => AppendChunkTracks(m, o, index, text, false);
    case ThinkingChunk(index, text) => AppendChunkTracks(m, o, index, text, true);
    case TextEnd(index, content) => AppendChunkTracks(m, o, index, content, false);
    case ThinkingEnd(index, content) => AppendChunkTracks(m, o, index, content, true);
    case ToolChunk(index, block, text) => FragmentTracks(m, o, index, block, text);
    case _ => ToolDeltaTracks(m, o, delta);
  }

  lemma InjectedMessageTracks(m: Mapper, o: Observed, message: Message)
    requires Tracks(m, o) && !m.finished
    ensures var (m1, actions) := OnInjectedMessage(m, message);
            WellFormed(o, actions) && Tracks(m1, ObserveAll(o, actions))
  {
    if m.ordinal >= 0 {
      TwoActions(o, TerminalAction(m), TurnStarted(Live(m.root, m.injected + 1), message, None));
    }
  }

  lemma ToolEndTracks(m: Mapper, o: Observed, callId: string, isError: bool)
    requires Tracks(m, o) && !m.finished
    ensures var (m1, actions) := EventMapperSpec.Handle(m, ToolExecutionEnd(callId, isError));
            WellFormed(o, actions) && Tracks(m1, ObserveAll(o, actions))
  {
    var (n, ended) := OnToolEnd(m, callId, isError);
    if ended != [] { OneAction(o, ended[0]); }
    SetActivityTracks(n, o, Some(THINKING));
    WellFormedConcat(o, ended, SetActivity(n, Some(THINKING)).1);
  }

  lemma HandleTracks(m: Mapper, o: Observed, event: Event)
    requires Tracks(m, o) && !m.finished
    ensures var (m1, actions) := EventMapperSpec.Handle(m, event);
            WellFormed(o, actions) && Tracks(m1, ObserveAll(o, actions))
  {
    match event
    case MessageUpdate(delta) => DeltaTracks(m, o, delta);
    case MessageStart(role, message) =>
      if role.UserRole? { InjectedMessageTracks(m, o, message); }
    case ToolExecutionStart(activity) => SetActivityTracks(m, o, Some(activity));
    case ToolExecutionEnd(callId, isError) => ToolEndTracks(m, o, callId, isError);
    case AgentStart => SetActivityTracks(m, o, Some(THINKING));
    case MessageEnd(role, stop, error, usage) =>
      if usage.Some? { OneAction(o, UsageReported(m.turnId, usage.value)); }
    case ToolExecutionUpdate(callId, content) =>
      if content.Some? { OneAction(o, ToolCallContent(m.turnId, callId, content.value)); }
    case CompactionEnd(succeeded) =>
      OneAction(o, ResponsePart(m.turnId, Notification(COMPACTION_NOTICE)));
    case OtherEvent =>
  }

  lemma FinishTracks(m: Mapper, o: Observed, outcome: Option<TurnResult>)
    requires Tracks(m, o) && !m.finished
    ensures var (m1, actions) := EventMapperSpec.Finish(m, outcome);
            WellFormed(o, actions) && Tracks(m1, ObserveAll(o, actions))
  {
    var m0 := m.(finished := true, result := if outcome.Some? then outcome.value else m.result);
    var (m2, idle) := SetActivity(m0, None);
    SetActivityTracks(m, o, None);
    assert idle == SetActivity(m, None).1;
    OneAction(o, TerminalAction(m2));
    WellFormedConcat(o, idle, [TerminalAction(m2)]);
  }

  lemma ApplyTracks(m: Mapper, o: Observed, call: Call)
    requires Tracks(m, o)
    ensures var (m1, actions) := Apply(m, call);
            WellFormed(o, actions) && Tracks(m1, ObserveAll(o, actions))
  {
    if !m.finished {
      match call
      case Handle(event) => HandleTracks(m, o, event);
      case Finish(outcome) => FinishTracks(m, o, outcome);
    }
  }

  lemma {:induction false} RunTracks(m: Mapper, o: Observed, calls: seq<Call>)
    requires Tracks(m, o)
    ensures var (m1, actions) := Run(m, calls);
            WellFormed(o, actions) && Tracks(m1, ObserveAll(o, actions))
    decreases |calls|
  {
    if calls != [] {
      ApplyTracks(m, o, calls[0]);
      var (m1, first) := Apply(m, calls[0]);
      RunTracks(m1, ObserveAll(o, first), calls[1..]);
      WellFormedConcat(o, first, Run(m1, calls[1..]).1);
    }
  }

  predicate Finishes(calls: seq<Call>) {
    exists i :: 0 <= i < |calls| && calls[i].Finish?
  }

  lemma OnlyFinishFinishes(m: Mapper, call: Call)
    ensures Apply(m, call).0.finished <==> m.finished || call.Finish?
  {
    if call.Handle? && call.event.MessageUpdate? { DeltaStays(m, call.event.update); }
  }

  lemma {:induction false} FinishedIff(m: Mapper, calls: seq<Call>)
    ensures Run(m, calls).0.finished <==> m.finished || Finishes(calls)
    decreases |calls|
  {
    if calls != [] {
      OnlyFinishFinishes(m, calls[0]);
      FinishedIff(Apply(m, calls[0]).0, calls[1..]);
      assert forall i :: 1 <= i < |calls| ==> calls[i] == calls[1..][i - 1];
      assert forall i :: 0 <= i < |calls[1..]| ==> calls[1..][i] == calls[i + 1];
    }
  }

  const NOTHING_SEEN := Observed(None, {}, {}, {})

  /** Every event sequence yields a well-formed trace, whose last turn is closed exactly when `finish` was called. */
  lemma TraceIsWellFormed(root: string, prompt: Message, calls: seq<Call>)
    ensures WellFormed(NOTHING_SEEN, Trace(root, prompt, calls))
    ensures ObserveAll(NOTHING_SEEN, Trace(root, prompt, calls)).open.None? <==> Finishes(calls)
  {
    var start := TurnStarted(Live(root, 0), prompt, None);
    OneAction(NOTHING_SEEN, start);
    RunTracks(NewMapper(root), Observe(NOTHING_SEEN, start), calls);
    WellFormedConcat(NOTHING_SEEN, [start], Run(NewMapper(root), calls).1);
    FinishedIff(NewMapper(root), calls);
  }

  /** Nothing follows `finish`. */
  lemma {:induction false} SilentAfterFinish(m: Mapper, calls: seq<Call>)
    requires m.finished
    ensures Run(m, calls) == (m, [])
    decreases |calls|
  {
    if calls != [] {
      SilentAfterFinish(m, calls[1..]);
      assert [] + Run(m, calls[1..]).1 == [];
    }
  }

  // ── The text of a part ────────────────────────────────────────────────────

  datatype Chunk = Streamed(text: string, reasoning: bool) | Ended(text: string, reasoning: bool)

  /** Deltas concatenate; the content carried by a block's end counts only if nothing came before it. */
  function BlockText(said: string, chunks: seq<Chunk>): string
    decreases |chunks|
  {
    if chunks == [] then said
    else BlockText(if chunks[0].Streamed? || said == "" then said + chunks[0].text else said, chunks[1..])
  }

  predicate OneKind(chunks: seq<Chunk>, reasoning: bool) {
    forall i :: 0 <= i < |chunks| ==> chunks[i].reasoning == reasoning
  }

  function ChunkOf(delta: Delta, index: int): seq<Chunk> {
    match delta
    case TextChunk(i, t) => if IndexOf(i) == index then [Streamed(TextOf(t), false)] else []
    case ThinkingChunk(i, t) => if IndexOf(i) == index then [Streamed(TextOf(t), true)] else []
    case TextEnd(i, t) => if IndexOf(i) == index then [Ended(TextOf(t), false)] else []
    case ThinkingEnd(i, t) => if IndexOf(i) == index then [Ended(TextOf(t), true)] else []
    case _ => []
  }

  /** The chunks pi addressed to block `index` of assistant message `ordinal` of the turn number `split`,
      read off the events alone by counting messages and injected messages. */
  function Addressed(calls: seq<Call>, split: nat, ordinal: int, id: PartId): seq<Chunk>
    requires id.LivePart? && id.turn.Live?
    decreases |calls|
  {
    if calls == [] || calls[0].Finish? then []
    else
      match calls[0].event
      case MessageStart(UserRole, _) =>
        if ordinal < 0 then Addressed(calls[1..], split, ordinal, id)
        else Addressed(calls[1..], split + 1, -1, id)
      case MessageStart(AssistantRole, _) => Addressed(calls[1..], split, ordinal + 1, id)
      case MessageUpdate(delta) =>
        (if id.turn.split == split && id.ordinal == ordinal then ChunkOf(delta, id.index) else [])
        + Addressed(calls[1..], split, ordinal, id)
      case _ => Addressed(calls[1..], split, ordinal, id)
  }

  datatype Said = Said(text: string, reasoning: bool)

  /** The keyed parts an action stream builds: the text-bearing half of the reducer. */
  function Saying(p: map<PartId, Said>, a: Action): map<PartId, Said> {
    match a
    case ResponsePart(_, Markdown(id, text)) => p[id := Said(text, false)]
    case ResponsePart(_, Reasoning(id, text)) => p[id := Said(text, true)]
    case TextDelta(_, id, text) =>
      if id in p && !p[id].reasoning then p[id := Said(p[id].text + text, false)] else p
    case ReasoningDelta(_, id, text) =>
      if id in p && p[id].reasoning then p[id := Said(p[id].text + text, true)] else p
    case _ => p
  }

  function SayAll(p: map<PartId, Said>, actions: seq<Action>): map<PartId, Said>
    decreases |actions|
  {
    if actions == [] then p else SayAll(Saying(p, actions[0]), actions[1..])
  }

  lemma {:induction false} SayAllConcat(p: map<PartId, Said>, xs: seq<Action>, ys: seq<Action>)
    ensures SayAll(p, xs + ys) == SayAll(SayAll(p, xs), ys)
    decreases |xs|
  {
    if xs == [] {
      assert xs + ys == ys;
    } else {
      assert (xs + ys)[1..] == xs[1..] + ys;
      SayAllConcat(Saying(p, xs[0]), xs[1..], ys);
    }
  }

  function SaidText(p: map<PartId, Said>, id: PartId): string {
    if id in p then p[id].text else ""
  }

  /** The mapper has created exactly the parts in `p`; the ones of the current message are `m.parts`. */
  ghost predicate Mirrors(m: Mapper, p: map<PartId, Said>) {
    && m.turnId == Live(m.root, m.injected)
    && m.ordinal >= -1
    && (forall i :: i in m.parts ==> m.parts[i].created && m.parts[i].id == LivePart(m.turnId, m.ordinal, i))
    && (forall i :: i in m.parts ==> m.parts[i].id in p)
    && (forall id :: id in p ==> id.LivePart? && UsedBefore(m, id) && p[id].text != "")
  }

  lemma SetActivitySays(m: Mapper, p: map<PartId, Said>, activity: Option<string>)
    ensures SayAll(p, SetActivity(m, activity).1) == p
  {
    var actions := SetActivity(m, activity).1;
    if actions != [] {
      assert actions[1..] == [];
    }
  }

  lemma OneSaying(p: map<PartId, Said>, a: Action)
    ensures SayAll(p, [a]) == Saying(p, a)
  {
    assert [a][1..] == [];
  }

  /** One text event moves the part it addresses, and only that one, as its chunk says. */
  lemma AppendChunkSays(m: Mapper, p: map<PartId, Said>, index: Option<int>, delta: Option<string>, reasoning: bool)
    requires Mirrors(m, p)
    ensures var (m1, actions) := AppendChunk(m, index, delta, reasoning);
            var key := LivePart(m.turnId, m.ordinal, IndexOf(index));
            SayAll(p, actions) == (if TextOf(delta) == "" || (key in p && p[key].reasoning != reasoning) then p
                                   else p[key := Said(SaidText(p, key) + TextOf(delta), reasoning)])
  {
    var (m1, actions) := AppendChunk(m, index, delta, reasoning);
    var key := LivePart(m.turnId, m.ordinal, IndexOf(index));
    if TextOf(delta) != "" {
      var responding := SetActivity(m, Some(RESPONDING)).1;
      SetActivitySays(m, p, Some(RESPONDING));
      var text := TextOf(delta);
      var last := if IndexOf(index) !in m.parts then ResponsePart(m.turnId, if reasoning then Reasoning(key, text) else Markdown(key, text))
                  else if reasoning then ReasoningDelta(m.turnId, key, text) else TextDelta(m.turnId, key, text);
      assert actions == responding + [last];
      SayAllConcat(p, responding, [last]);
      OneSaying(p, last);
      assert key in p <==> IndexOf(index) in m.parts by { assert key in p ==> UsedBefore(m, key); }
      if IndexOf(index) !in m.parts { assert "" + text == text; }
    }
  }

  lemma TextAdded(m: Mapper, p: map<PartId, Said>, index: int, said: Said, part: OpenPart)
    requires Mirrors(m, p) && said.text != "" && part.created && part.id == LivePart(m.turnId, m.ordinal, index)
    ensures Mirrors(m.(parts := m.parts[index := part]), p[part.id := said])
  {
    var m1, p1 := m.(parts := m.parts[index := part]), p[part.id := said];
    forall k | k in p1 ensures k.LivePart? && UsedBefore(m1, k) {
      if k != part.id { assert k in p && UsedBefore(m, k); }
    }
  }

  lemma TextDropped(m: Mapper, p: map<PartId, Said>, index: int, part: OpenPart)
    requires Mirrors(m, p) && part.created && part.id == LivePart(m.turnId, m.ordinal, index) && part.id in p
    ensures Mirrors(m.(parts := m.parts[index := part]), p)
  {
    assert p[part.id := p[part.id]] == p;
    TextAdded(m, p, index, p[part.id], part);
  }

  lemma AppendChunkMirrors(m: Mapper, p: map<PartId, Said>, index: Option<int>, delta: Option<string>, reasoning: bool)
    requires Mirrors(m, p)
    ensures var (m1, actions) := AppendChunk(m, index, delta, reasoning); Mirrors(m1, SayAll(p, actions))
  {
    AppendChunkSays(m, p, index, delta, reasoning);
    if TextOf(delta) != "" {
      var at, m1 := IndexOf(index), AppendChunk(m, index, delta, reasoning).0;
      var key := LivePart(m.turnId, m.ordinal, at);
      var m0 := m.(parts := m.parts[at := m1.parts[at]]);
      assert m1 == m0.(activity := m1.activity);
      if key in p && p[key].reasoning != reasoning {
        TextDropped(m, p, at, m1.parts[at]);
      } else {
        assert |SaidText(p, key) + TextOf(delta)| > 0;
        TextAdded(m, p, at, Said(SaidText(p, key) + TextOf(delta), reasoning), m1.parts[at]);
      }
      MirrorsActivity(m0, SayAll(p, AppendChunk(m, index, delta, reasoning).1), m1.activity);
    }
  }

  lemma MirrorsActivity(m: Mapper, p: map<PartId, Said>, activity: Option<string>)
    requires Mirrors(m, p)
    ensures Mirrors(m.(activity := activity), p)
  {
    assert forall id :: id in p ==> UsedBefore(m, id) ==> UsedBefore(m.(activity := activity), id);
  }

  /** No action puts text into a part. */
  predicate Silent(actions: seq<Action>) {
    forall a :: a in actions ==> !a.TextDelta? && !a.ReasoningDelta? && (a.ResponsePart? ==> !Keyed(a.part))
  }

  lemma ActivitySilent(m: Mapper, activity: Option<string>)
    ensures Silent(SetActivity(m, activity).1)
  {
  }

  lemma OtherEventSilent(m: Mapper, event: Event)
    requires !event.MessageUpdate?
    ensures Silent(EventMapperSpec.Handle(m, event).1)
  {
    if event.ToolExecutionEnd? {
      var (m1, ended) := OnToolEnd(m, event.callId, event.isError);
      ActivitySilent(m1, Some(THINKING));
    }
  }

  predicate IsText(delta: Delta) {
    delta.TextChunk? || delta.ThinkingChunk? || delta.TextEnd? || delta.ThinkingEnd?
  }

  lemma ToolDeltaSilent(m: Mapper, delta: Delta)
    requires !IsText(delta)
    ensures Silent(OnDelta(m, delta).1) && OnDelta(m, delta).0.parts == m.parts
  {
  }

  lemma FinishSilent(m: Mapper, outcome: Option<TurnResult>)
    ensures Silent(EventMapperSpec.Finish(m, outcome).1)
  {
  }

  /** An action stream without text actions says nothing. */
  lemma {:induction false} Wordless(p: map<PartId, Said>, actions: seq<Action>)
    requires Silent(actions)
    ensures SayAll(p, actions) == p
    decreases |actions|
  {
    if actions != [] {
      Wordless(p, actions[1..]);
    }
  }

  /** What one event says about part `id`. */
  function ChunksOf(m: Mapper, event: Event, id: PartId): seq<Chunk>
    requires id.LivePart? && id.turn.Live?
  {
    if event.MessageUpdate? && id.turn.split == m.injected && id.ordinal == m.ordinal
    then ChunkOf(event.update, id.index) else []
  }

  lemma CloseBlockMirrors(m: Mapper, p: map<PartId, Said>, index: Option<int>, content: Option<string>, reasoning: bool)
    requires Mirrors(m, p)
    ensures var (m1, actions) := CloseBlock(m, index, content, reasoning); Mirrors(m1, SayAll(p, actions))
  {
    AppendChunkMirrors(m, p, index, content, reasoning);
  }

  lemma DeltaSays(m: Mapper, p: map<PartId, Said>, delta: Delta)
    requires Mirrors(m, p)
    ensures Mirrors(OnDelta(m, delta).0, SayAll(p, OnDelta(m, delta).1))
  {
    match delta
    case TextChunk(index, text) => AppendChunkMirrors(m, p, index, text, false);
    case ThinkingChunk(index, text) => AppendChunkMirrors(m, p, index, text, true);
    case TextEnd(index, content) => CloseBlockMirrors(m, p, index, content, false);
    case ThinkingEnd(index, content) => CloseBlockMirrors(m, p, index, content, true);
    case _ => ToolDeltaSays(m, p, delta);
  }

  lemma ToolDeltaSays(m: Mapper, p: map<PartId, Said>, delta: Delta)
    requires Mirrors(m, p) && !IsText(delta)
    ensures SayAll(p, OnDelta(m, delta).1) == p && Mirrors(OnDelta(m, delta).0, p)
  {
    ToolDeltaSilent(m, delta);
    Wordless(p, OnDelta(m, delta).1);
    DeltaStays(m, delta);
  }

  /** What a chunk addressed at `key` does to the text of `id`. */
  lemma ChunkText(m: Mapper, p: map<PartId, Said>, index: Option<int>, text: Option<string>, kind: bool, id: PartId, reasoning: bool)
    requires Mirrors(m, p) && id.LivePart?
    requires id in p ==> p[id].reasoning == reasoning
    requires var key := LivePart(m.turnId, m.ordinal, IndexOf(index)); id == key ==> kind == reasoning
    ensures var p1 := SayAll(p, AppendChunk(m, index, text, kind).1);
            && (id in p1 ==> p1[id].reasoning == reasoning)
            && SaidText(p1, id) == (if id == LivePart(m.turnId, m.ordinal, IndexOf(index)) then SaidText(p, id) + TextOf(text)
                                    else SaidText(p, id))
  {
    AppendChunkSays(m, p, index, text, kind);
    assert SaidText(p, id) + "" == SaidText(p, id);
  }

  lemma DeltaText(m: Mapper, p: map<PartId, Said>, delta: Delta, id: PartId, reasoning: bool)
    requires Mirrors(m, p)
    requires id.LivePart?
    requires id in p ==> p[id].reasoning == reasoning
    requires id.turn == m.turnId && id.ordinal == m.ordinal ==> OneKind(ChunkOf(delta, id.index), reasoning)
    ensures var p1 := SayAll(p, OnDelta(m, delta).1);
            && (id in p1 ==> p1[id].reasoning == reasoning)
            && SaidText(p1, id) == BlockText(SaidText(p, id),
                 if id.turn == m.turnId && id.ordinal == m.ordinal then ChunkOf(delta, id.index) else [])
  {
    var chunks := if id.turn == m.turnId && id.ordinal == m.ordinal then ChunkOf(delta, id.index) else [];
    if chunks != [] {
      assert chunks[0].reasoning == reasoning;
      OneChunk(SaidText(p, id), chunks[0]);
      assert chunks == [chunks[0]];
      assert id in p <==> id.index in m.parts by { assert id in p ==> UsedBefore(m, id); }
    }
    match delta
    case TextChunk(index, text) => ChunkText(m, p, index, text, false, id, reasoning);
    case ThinkingChunk(index, text) => ChunkText(m, p, index, text, true, id, reasoning);
    case TextEnd(index, content) => if IndexOf(index) !in m.parts { ChunkText(m, p, index, content, false, id, reasoning); }
    case ThinkingEnd(index, content) => if IndexOf(index) !in m.parts { ChunkText(m, p, index, content, true, id, reasoning); }
    case _ => ToolDeltaSays(m, p, delta);
  }

  lemma OneChunk(said: string, chunk: Chunk)
    ensures BlockText(said, [chunk]) == if chunk.Streamed? || said == "" then said + chunk.text else said
  {
    assert [chunk][1..] == [];
  }

  /** Which message of which turn the mapper is on, after one event. */
  lemma HandleMoves(m: Mapper, event: Event)
    requires !m.finished && m.turnId == Live(m.root, m.injected)
    ensures var m1 := EventMapperSpec.Handle(m, event).0;
            && m1.root == m.root && !m1.finished && m1.turnId == Live(m.root, m1.injected)
            && (if event.MessageStart? && event.role.UserRole? && m.ordinal >= 0
                then m1.injected == m.injected + 1 && m1.ordinal == -1
                else m1.injected == m.injected &&
                     m1.ordinal == m.ordinal + if event.MessageStart? && event.role.AssistantRole? then 1 else 0)
  {
    match event
    case MessageUpdate(delta) => DeltaStays(m, delta);
    case _ =>
  }

  lemma DeltaStays(m: Mapper, delta: Delta)
    ensures var m1 := OnDelta(m, delta).0;
            m1.root == m.root && m1.finished == m.finished && m1.turnId == m.turnId
            && m1.injected == m.injected && m1.ordinal == m.ordinal
  {
    match delta
    case ToolChunk(index, block, text) =>
      var m1 := OnToolCallStart(m, index, block).0;
    case TextChunk(index, text) => var m1 := AppendChunk(m, index, text, false).0;
    case ThinkingChunk(index, text) => var m1 := AppendChunk(m, index, text, true).0;
    case TextEnd(index, text) => var m1 := AppendChunk(m, index, text, false).0;
    case ThinkingEnd(index, text) => var m1 := AppendChunk(m, index, text, true).0;
    case _ =>
  }

  /** A message that starts has no parts yet; other events outside a message's stream leave its parts alone. */
  lemma PartsAfter(m: Mapper, event: Event)
    requires !m.finished && !event.MessageUpdate?
    ensures EventMapperSpec.Handle(m, event).0.parts
         == if event.MessageStart? && (event.role.AssistantRole? || (event.role.UserRole? && m.ordinal >= 0)) then map[] else m.parts
  {
  }

  lemma OtherEventSays(m: Mapper, p: map<PartId, Said>, event: Event)
    requires Mirrors(m, p) && !m.finished && !event.MessageUpdate?
    ensures SayAll(p, EventMapperSpec.Handle(m, event).1) == p
    ensures Mirrors(EventMapperSpec.Handle(m, event).0, p)
  {
    OtherEventSilent(m, event);
    Wordless(p, EventMapperSpec.Handle(m, event).1);
    HandleMoves(m, event);
    PartsAfter(m, event);
    var m1 := EventMapperSpec.Handle(m, event).0;
    forall id | id in p ensures UsedBefore(m1, id) {
      assert UsedBefore(m, id);
    }
  }

  lemma HandleSays(m: Mapper, p: map<PartId, Said>, event: Event, id: PartId, reasoning: bool)
    requires Mirrors(m, p) && !m.finished
    requires id.LivePart? && id.turn.Live? && id.turn.root == m.root
    requires id in p ==> p[id].reasoning == reasoning
    requires OneKind(ChunksOf(m, event, id), reasoning)
    ensures var (m1, actions) := EventMapperSpec.Handle(m, event);
            var p1 := SayAll(p, actions);
            && Mirrors(m1, p1)
            && (id in p1 ==> p1[id].reasoning == reasoning)
            && SaidText(p1, id) == BlockText(SaidText(p, id), ChunksOf(m, event, id))
  {
    if event.MessageUpdate? {
      DeltaSays(m, p, event.update);
      DeltaText(m, p, event.update, id, reasoning);
    } else {
      OtherEventSays(m, p, event);
    }
  }

  lemma {:induction false} BlockTextConcat(said: string, xs: seq<Chunk>, ys: seq<Chunk>)
    ensures BlockText(said, xs + ys) == BlockText(BlockText(said, xs), ys)
    decreases |xs|
  {
    if xs == [] {
      assert xs + ys == ys;
    } else {
      assert (xs + ys)[1..] == xs[1..] + ys;
      BlockTextConcat(if xs[0].Streamed? || said == "" then said + xs[0].text else said, xs[1..], ys);
    }
  }

  lemma AddressedStep(m: Mapper, calls: seq<Call>, id: PartId)
    requires id.LivePart? && id.turn.Live? && m.turnId == Live(m.root, m.injected) && !m.finished
    requires calls != [] && calls[0].Handle?
    ensures var m1 := EventMapperSpec.Handle(m, calls[0].event).0;
            Addressed(calls, m.injected, m.ordinal, id)
            == ChunksOf(m, calls[0].event, id) + Addressed(calls[1..], m1.injected, m1.ordinal, id)
  {
    var m1 := EventMapperSpec.Handle(m, calls[0].event).0;
    HandleMoves(m, calls[0].event);
    var rest := Addressed(calls[1..], m1.injected, m1.ordinal, id);
    assert [] + rest == rest;
  }

  lemma OneKindSplit(xs: seq<Chunk>, ys: seq<Chunk>, reasoning: bool)
    requires OneKind(xs + ys, reasoning)
    ensures OneKind(xs, reasoning) && OneKind(ys, reasoning)
  {
    assert forall i :: 0 <= i < |xs| ==> xs[i] == (xs + ys)[i];
    assert forall i :: 0 <= i < |ys| ==> ys[i] == (xs + ys)[|xs| + i];
  }

  /** One event takes its chunks off those still to come for part `id`, without changing the text the part will have. */
  lemma HandledSays(m: Mapper, p: map<PartId, Said>, calls: seq<Call>, id: PartId, reasoning: bool, chunks: seq<Chunk>)
    requires Mirrors(m, p) && !m.finished && calls != [] && calls[0].Handle?
    requires id.LivePart? && id.turn.Live? && id.turn.root == m.root
    requires id in p ==> p[id].reasoning == reasoning
    requires chunks == Addressed(calls, m.injected, m.ordinal, id) && OneKind(chunks, reasoning)
    ensures var (m1, first) := Apply(m, calls[0]); var p0 := SayAll(p, first);
            var ys := Addressed(calls[1..], m1.injected, m1.ordinal, id);
            && Mirrors(m1, p0) && !m1.finished && m1.root == m.root && (id in p0 ==> p0[id].reasoning == reasoning)
            && OneKind(ys, reasoning) && BlockText(SaidText(p0, id), ys) == BlockText(SaidText(p, id), chunks)
  {
    var m1 := Apply(m, calls[0]).0;
    var xs := ChunksOf(m, calls[0].event, id);
    var ys := Addressed(calls[1..], m1.injected, m1.ordinal, id);
    AddressedStep(m, calls, id);
    HandleMoves(m, calls[0].event);
    OneKindSplit(xs, ys, reasoning);
    HandleSays(m, p, calls[0].event, id, reasoning);
    BlockTextConcat(SaidText(p, id), xs, ys);
  }

  /** Once the turn has been finished no more text comes. */
  lemma FinishSays(m: Mapper, p: map<PartId, Said>, calls: seq<Call>)
    requires Mirrors(m, p) && !m.finished && calls != [] && calls[0].Finish?
    ensures SayAll(p, Run(m, calls).1) == p
  {
    var (m1, first) := Apply(m, calls[0]);
    SilentAfterFinish(m1, calls[1..]);
    FinishSilent(m, calls[0].outcome);
    Wordless(p, first);
    assert first + [] == first;
  }

  /** `chunks` are the ones still to come for part `id`, and `all` the text it will then have. */
  lemma {:induction false} RunSays(m: Mapper, p: map<PartId, Said>, calls: seq<Call>, id: PartId, reasoning: bool, chunks: seq<Chunk>, all: string)
    requires Mirrors(m, p) && !m.finished
    requires id.LivePart? && id.turn.Live? && id.turn.root == m.root
    requires id in p ==> p[id].reasoning == reasoning
    requires chunks == Addressed(calls, m.injected, m.ordinal, id)
    requires OneKind(chunks, reasoning) && all == BlockText(SaidText(p, id), chunks)
    ensures var p1 := SayAll(p, Run(m, calls).1);
            (id in p1 ==> p1[id].reasoning == reasoning && p1[id].text != "") && SaidText(p1, id) == all
    decreases |calls|
  {
    if calls != [] {
      if calls[0].Finish? {
        FinishSays(m, p, calls);
      } else {
        var (m1, first) := Apply(m, calls[0]);
        SayAllConcat(p, first, Run(m1, calls[1..]).1);
        HandledSays(m, p, calls, id, reasoning, chunks);
        RunSays(m1, SayAll(p, first), calls[1..], id, reasoning, Addressed(calls[1..], m1.injected, m1.ordinal, id), all);
      }
    }
  }

  /** Whatever pi streams, a part whose block keeps one kind ends up with exactly the text streamed for that
      block, and it exists exactly when that text is not empty. */
  lemma PartTextIsWhatWasStreamed(root: string, prompt: Message, calls: seq<Call>, id: PartId, reasoning: bool)
    requires id.LivePart? && id.turn.Live? && id.turn.root == root
    requires OneKind(Addressed(calls, 0, -1, id), reasoning)
    ensures var p := SayAll(map[], Trace(root, prompt, calls));
            var text := BlockText("", Addressed(calls, 0, -1, id));
            if text == "" then id !in p else id in p && p[id] == Said(text, reasoning)
  {
    var start := TurnStarted(Live(root, 0), prompt, None);
    SayAllConcat(map[], [start], Run(NewMapper(root), calls).1);
    OneSaying(map[], start);
    var chunks := Addressed(calls, 0, -1, id);
    RunSays(NewMapper(root), map[], calls, id, reasoning, chunks, BlockText("", chunks));
  }

  /** A block streamed as deltas and then ended has the deltas' text; its end content is used only when
      every delta was empty. */
  lemma {:induction false} StreamedThenEnded(said: string, deltas: seq<string>, content: string, reasoning: bool)
    ensures BlockText(said, seq(|deltas|, i requires 0 <= i < |deltas| => Streamed(deltas[i], reasoning)) + [Ended(content, reasoning)])
         == (if said + Join(deltas) == "" then content else said + Join(deltas))
    decreases |deltas|
  {
    var xs := seq(|deltas|, i requires 0 <= i < |deltas| => Streamed(deltas[i], reasoning));
    var end := [Ended(content, reasoning)];
    if deltas == [] {
      assert xs + end == end && end[1..] == [];
      assert said + "" == said && "" + content == content;
    } else {
      var ys := seq(|deltas[1..]|, i requires 0 <= i < |deltas[1..]| => Streamed(deltas[1..][i], reasoning));
      assert (xs + end)[1..] == ys + end;
      StreamedThenEnded(said + deltas[0], deltas[1..], content, reasoning);
      assert said + (deltas[0] + Join(deltas[1..])) == said + deltas[0] + Join(deltas[1..]);
    }
  }

  // ── The kind of a delta ───────────────────────────────────────────────────

  /** One action that puts text into a part: the one that creates the part, or a delta. */
  datatype Utterance = Utterance(creates: bool, text: string, reasoning: bool)

  function Speaks(a: Action, id: PartId): seq<Utterance> {
    match a
    case ResponsePart(_, Markdown(key, text)) => if key == id then [Utterance(true, text, false)] else []
    case ResponsePart(_, Reasoning(key, text)) => if key == id then [Utterance(true, text, true)] else []
    case TextDelta(_, key, text) => if key == id then [Utterance(false, text, false)] else []
    case ReasoningDelta(_, key, text) => if key == id then [Utterance(false, text, true)] else []
    case _ => []
  }

  /** Every action of a stream that puts text into part `id`. */
  function Spoken(actions: seq<Action>, id: PartId): seq<Utterance> {
    if actions == [] then [] else Speaks(actions[0], id) + Spoken(actions[1..], id)
  }

  /** What the chunks of one block make the mapper say of its part; `begun` is whether the part exists already. */
  function Uttered(chunks: seq<Chunk>, begun: bool): seq<Utterance>
    decreases |chunks|
  {
    if chunks == [] then []
    else if chunks[0].text == "" || (chunks[0].Ended? && begun) then Uttered(chunks[1..], begun)
    else [Utterance(!begun, chunks[0].text, chunks[0].reasoning)] + Uttered(chunks[1..], true)
  }

  lemma {:induction false} SpokenConcat(xs: seq<Action>, ys: seq<Action>, id: PartId)
    ensures Spoken(xs + ys, id) == Spoken(xs, id) + Spoken(ys, id)
  {
    if xs == [] {
      assert xs + ys == ys;
    } else {
      assert (xs + ys)[1..] == xs[1..] + ys;
      SpokenConcat(xs[1..], ys, id);
    }
  }

  lemma {:induction false} UtteredConcat(xs: seq<Chunk>, ys: seq<Chunk>, begun: bool)
    ensures Uttered(xs + ys, begun) == Uttered(xs, begun) + Uttered(ys, begun || Uttered(xs, begun) != [])
    decreases |xs|
  {
    if xs == [] {
      assert xs + ys == ys;
    } else {
      var zs := xs + ys;
      assert zs[0] == xs[0] && zs[1..] == xs[1..] + ys;
      if xs[0].text == "" || (xs[0].Ended? && begun) {
        UtteredConcat(xs[1..], ys, begun);
      } else {
        UtteredConcat(xs[1..], ys, true);
        Prepended(Utterance(!begun, xs[0].text, xs[0].reasoning), Uttered(xs[1..], true), Uttered(ys, true));
      }
    }
  }

  lemma Prepended(u: Utterance, us: seq<Utterance>, vs: seq<Utterance>)
    ensures [u] + us + vs == [u] + (us + vs)
  {
  }

  lemma {:induction false} Mute(actions: seq<Action>, id: PartId)
    requires Silent(actions)
    ensures Spoken(actions, id) == []
  {
    if actions != [] {
      Mute(actions[1..], id);
    }
  }

  predicate Current(m: Mapper, id: PartId)
    requires id.LivePart? && id.turn.Live?
  {
    id.turn.split == m.injected && id.ordinal == m.ordinal
  }

  /** `begun` says whether part `id` exists: told by `m.parts` while its message is current, and false before that. */
  ghost predicate Begun(m: Mapper, id: PartId, begun: bool)
    requires id.LivePart? && id.turn.Live?
  {
    && m.turnId == Live(m.root, m.injected)
    && (forall i :: i in m.parts ==> m.parts[i].created && m.parts[i].id == LivePart(m.turnId, m.ordinal, i))
    && (Current(m, id) ==> (begun <==> id.index in m.parts))
    && (id.turn.split > m.injected || (id.turn.split == m.injected && id.ordinal > m.ordinal) ==> !begun)
  }

  lemma AppendChunkSpeaks(m: Mapper, index: Option<int>, text: Option<string>, reasoning: bool, id: PartId)
    requires forall i :: i in m.parts ==> m.parts[i].created && m.parts[i].id == LivePart(m.turnId, m.ordinal, i)
    ensures var (m1, actions) := AppendChunk(m, index, text, reasoning);
            && Spoken(actions, id) == (if TextOf(text) != "" && id == LivePart(m.turnId, m.ordinal, IndexOf(index))
                                       then [Utterance(IndexOf(index) !in m.parts, TextOf(text), reasoning)] else [])
            && m1.parts.Keys == (if TextOf(text) == "" then m.parts.Keys else m.parts.Keys + {IndexOf(index)})
            && forall i :: i in m1.parts ==> m1.parts[i].created && m1.parts[i].id == LivePart(m.turnId, m.ordinal, i)
  {
    if TextOf(text) != "" {
      var (m1, actions) := AppendChunk(m, index, text, reasoning);
      var responding := SetActivity(m, Some(RESPONDING)).1;
      var last := actions[|actions| - 1];
      assert actions == responding + [last];
      SpokenConcat(responding, [last], id);
      ActivitySilent(m, Some(RESPONDING));
      Mute(responding, id);
      assert Spoken([last], id) == Speaks(last, id) + [] by { assert [last][1..] == []; }
    }
  }

  lemma UtteredOne(chunk: Chunk, begun: bool)
    ensures Uttered([chunk], begun) == if chunk.text == "" || (chunk.Ended? && begun) then []
                                       else [Utterance(!begun, chunk.text, chunk.reasoning)]
  {
    assert [chunk][1..] == [];
  }

  lemma AppendChunkBegins(m: Mapper, index: Option<int>, text: Option<string>, reasoning: bool, id: PartId, begun: bool)
    requires id.LivePart? && id.turn.Live? && id.turn.root == m.root && Begun(m, id, begun)
    ensures var m1 := AppendChunk(m, index, text, reasoning).0;
            Begun(m1, id, begun || (TextOf(text) != "" && id == LivePart(m.turnId, m.ordinal, IndexOf(index))))
  {
    AppendChunkSpeaks(m, index, text, reasoning, id);
    var m1 := AppendChunk(m, index, text, reasoning).0;
    assert id.index in m1.parts <==> id.index in m1.parts.Keys;
  }

  predicate Hits(m: Mapper, index: Option<int>, id: PartId)
    requires id.LivePart? && id.turn.Live?
  {
    Current(m, id) && IndexOf(index) == id.index
  }

  /** One text event says of part `id` what its chunk makes it say. */
  lemma ChunkSpeaks(m: Mapper, index: Option<int>, text: Option<string>, reasoning: bool, id: PartId, begun: bool)
    requires id.LivePart? && id.turn.Live? && id.turn.root == m.root && Begun(m, id, begun)
    ensures var (m1, actions) := AppendChunk(m, index, text, reasoning);
            var us := Uttered(if Hits(m, index, id) then [Streamed(TextOf(text), reasoning)] else [], begun);
            Spoken(actions, id) == us && Begun(m1, id, begun || us != [])
  {
    AppendChunkSpeaks(m, index, text, reasoning, id);
    AppendChunkBegins(m, index, text, reasoning, id, begun);
    UtteredOne(Streamed(TextOf(text), reasoning), begun);
    assert id == LivePart(m.turnId, m.ordinal, IndexOf(index)) <==> Hits(m, index, id);
  }

  lemma EndSpeaks(m: Mapper, index: Option<int>, text: Option<string>, reasoning: bool, id: PartId, begun: bool)
    requires id.LivePart? && id.turn.Live? && id.turn.root == m.root && Begun(m, id, begun)
    ensures var (m1, actions) := CloseBlock(m, index, text, reasoning);
            var us := Uttered(if Hits(m, index, id) then [Ended(TextOf(text), reasoning)] else [], begun);
            Spoken(actions, id) == us && Begun(m1, id, begun || us != [])
  {
    UtteredOne(Ended(TextOf(text), reasoning), begun);
    if IndexOf(index) !in m.parts {
      UtteredOne(Streamed(TextOf(text), reasoning), begun);
      ChunkSpeaks(m, index, text, reasoning, id, begun);
    }
  }

  lemma DeltaSpeaks(m: Mapper, delta: Delta, id: PartId, begun: bool)
    requires id.LivePart? && id.turn.Live? && id.turn.root == m.root && Begun(m, id, begun)
    ensures var (m1, actions) := OnDelta(m, delta);
            var us := Uttered(ChunksOf(m, MessageUpdate(delta), id), begun);
            Spoken(actions, id) == us && Begun(m1, id, begun || us != [])
  {
    match delta
    case TextChunk(index, text) => ChunkSpeaks(m, index, text, false, id, begun);
    case ThinkingChunk(index, text) => ChunkSpeaks(m, index, text, true, id, begun);
    case TextEnd(index, text) => EndSpeaks(m, index, text, false, id, begun);
    case ThinkingEnd(index, text) => EndSpeaks(m, index, text, true, id, begun);
    case _ => ToolDeltaSpeaks(m, delta, id, begun);
  }

  lemma ToolDeltaSpeaks(m: Mapper, delta: Delta, id: PartId, begun: bool)
    requires id.LivePart? && id.turn.Live? && Begun(m, id, begun) && !IsText(delta)
    ensures Spoken(OnDelta(m, delta).1, id) == [] && Begun(OnDelta(m, delta).0, id, begun)
  {
    ToolDeltaSilent(m, delta);
    Mute(OnDelta(m, delta).1, id);
    DeltaStays(m, delta);
  }

  lemma OtherEventSpeaks(m: Mapper, event: Event, id: PartId, begun: bool)
    requires id.LivePart? && id.turn.Live? && Begun(m, id, begun) && !m.finished && !event.MessageUpdate?
    ensures var (m1, actions) := EventMapperSpec.Handle(m, event); Spoken(actions, id) == [] && Begun(m1, id, begun)
  {
    OtherEventSilent(m, event);
    Mute(EventMapperSpec.Handle(m, event).1, id);
    HandleMoves(m, event);
    PartsAfter(m, event);
  }

  lemma HandleSpeaks(m: Mapper, event: Event, id: PartId, begun: bool)
    requires id.LivePart? && id.turn.Live? && id.turn.root == m.root && Begun(m, id, begun) && !m.finished
    ensures var (m1, actions) := EventMapperSpec.Handle(m, event);
            var us := Uttered(ChunksOf(m, event, id), begun);
            Spoken(actions, id) == us && Begun(m1, id, begun || us != [])
  {
    if event.MessageUpdate? { DeltaSpeaks(m, event.update, id, begun); } else { OtherEventSpeaks(m, event, id, begun); }
  }

  lemma {:induction false} RunSpeaks(m: Mapper, calls: seq<Call>, id: PartId, begun: bool)
    requires id.LivePart? && id.turn.Live? && id.turn.root == m.root && Begun(m, id, begun) && !m.finished
    ensures Spoken(Run(m, calls).1, id) == Uttered(Addressed(calls, m.injected, m.ordinal, id), begun)
    decreases |calls|
  {
    if calls != [] {
      var (m1, first) := Apply(m, calls[0]);
      SpokenConcat(first, Run(m1, calls[1..]).1, id);
      if calls[0].Finish? {
        SilentAfterFinish(m1, calls[1..]);
        FinishSilent(m, calls[0].outcome);
        Mute(first, id);
      } else {
        var event := calls[0].event;
        HandleSpeaks(m, event, id, begun);
        HandleMoves(m, event);
        var us := Uttered(ChunksOf(m, event, id), begun);
        RunSpeaks(m1, calls[1..], id, begun || us != []);
        AddressedStep(m, calls, id);
        UtteredConcat(ChunksOf(m, event, id), Addressed(calls[1..], m1.injected, m1.ordinal, id), begun);
      }
    }
  }

  /** On every call sequence, a part is said exactly what its block's chunks make the mapper say: each non-empty chunk
      in order, in the chunk's own kind, the first creating the part; a block's end only if nothing came before it. */
  lemma SpokenAsStreamed(root: string, prompt: Message, calls: seq<Call>, id: PartId)
    requires id.LivePart? && id.turn.Live? && id.turn.root == root
    ensures Spoken(Trace(root, prompt, calls), id) == Uttered(Addressed(calls, 0, -1, id), false)
  {
    var start := TurnStarted(Live(root, 0), prompt, None);
    SpokenConcat([start], Run(NewMapper(root), calls).1, id);
    assert Spoken([start], id) == [] by { assert [start][1..] == []; }
    RunSpeaks(NewMapper(root), calls, id, false);
  }

  /** Every delta of the part is of the kind the part was created with. */
  predicate KeepsKind(us: seq<Utterance>) {
    forall i :: 0 <= i < |us| ==> us[i].reasoning == us[0].reasoning
  }

  /** The chunk makes the mapper say something. */
  predicate Counts(chunks: seq<Chunk>, i: nat)
    requires i < |chunks|
  {
    chunks[i].text != "" && (chunks[i].Ended? ==> forall j :: 0 <= j < i ==> chunks[j].text == "")
  }

  predicate CountsOneKind(chunks: seq<Chunk>) {
    forall i, j :: 0 <= i < j < |chunks| && Counts(chunks, i) && Counts(chunks, j) ==> chunks[i].reasoning == chunks[j].reasoning
  }

  /** After the first non-empty chunk, the counting ones are the streamed ones. */
  predicate LaterOfKind(chunks: seq<Chunk>, reasoning: bool) {
    forall i :: 0 <= i < |chunks| && chunks[i].text != "" && chunks[i].Streamed? ==> chunks[i].reasoning == reasoning
  }

  predicate OfKind(us: seq<Utterance>, reasoning: bool) {
    forall i :: 0 <= i < |us| ==> us[i].reasoning == reasoning
  }

  lemma OfKindCons(u: Utterance, us: seq<Utterance>, reasoning: bool)
    ensures OfKind([u] + us, reasoning) <==> u.reasoning == reasoning && OfKind(us, reasoning)
  {
    var all := [u] + us;
    assert all[0] == u;
    assert forall i :: 1 <= i < |all| ==> all[i] == us[i - 1];
    assert forall i :: 0 <= i < |us| ==> us[i] == all[i + 1];
  }

  lemma LaterOfKindCons(chunks: seq<Chunk>, reasoning: bool)
    requires chunks != []
    ensures LaterOfKind(chunks, reasoning) <==>
              (chunks[0].text != "" && chunks[0].Streamed? ==> chunks[0].reasoning == reasoning) && LaterOfKind(chunks[1..], reasoning)
  {
    assert forall i :: 1 <= i < |chunks| ==> chunks[i] == chunks[1..][i - 1];
    assert forall i :: 0 <= i < |chunks[1..]| ==> chunks[1..][i] == chunks[i + 1];
  }

  lemma {:induction false} LaterKinds(chunks: seq<Chunk>, reasoning: bool)
    ensures LaterOfKind(chunks, reasoning) <==> OfKind(Uttered(chunks, true), reasoning)
    decreases |chunks|
  {
    if chunks != [] {
      LaterKinds(chunks[1..], reasoning);
      LaterOfKindCons(chunks, reasoning);
      OfKindCons(Utterance(false, chunks[0].text, chunks[0].reasoning), Uttered(chunks[1..], true), reasoning);
    }
  }

  lemma CountsShift(chunks: seq<Chunk>, i: nat)
    requires 0 < i < |chunks|
    ensures chunks[0].text == "" ==> (Counts(chunks, i) <==> Counts(chunks[1..], i - 1))
    ensures chunks[0].text != "" ==> (Counts(chunks, i) <==> chunks[i].text != "" && chunks[i].Streamed?)
  {
    var rest := chunks[1..];
    assert forall j :: 1 <= j < |chunks| ==> chunks[j] == rest[j - 1];
    assert forall j :: 0 <= j < |rest| ==> rest[j] == chunks[j + 1];
  }

  lemma KeepsKindCons(u: Utterance, later: seq<Utterance>)
    ensures KeepsKind([u] + later) <==> OfKind(later, u.reasoning)
  {
    OfKindCons(u, later, u.reasoning);
  }

  lemma {:induction false} UtteredKinds(chunks: seq<Chunk>)
    ensures KeepsKind(Uttered(chunks, false)) <==> CountsOneKind(chunks)
    decreases |chunks|
  {
    if chunks != [] {
      if chunks[0].text == "" {
        UtteredKinds(chunks[1..]);
        EmptyFirst(chunks);
      } else {
        LaterKinds(chunks[1..], chunks[0].reasoning);
        FullFirst(chunks);
        var u := Utterance(true, chunks[0].text, chunks[0].reasoning);
        KeepsKindCons(u, Uttered(chunks[1..], true));
        assert Uttered(chunks, false) == [u] + Uttered(chunks[1..], true);
      }
    }
  }

  lemma EmptyFirst(chunks: seq<Chunk>)
    requires chunks != [] && chunks[0].text == ""
    ensures CountsOneKind(chunks) <==> CountsOneKind(chunks[1..])
  {
    var rest := chunks[1..];
    forall i | 0 < i < |chunks| ensures Counts(chunks, i) <==> Counts(rest, i - 1) {
      CountsShift(chunks, i);
    }
    if CountsOneKind(chunks) {
      forall i, j | 0 <= i < j < |rest| && Counts(rest, i) && Counts(rest, j) ensures rest[i].reasoning == rest[j].reasoning {
        assert Counts(chunks, i + 1) && Counts(chunks, j + 1);
      }
    }
    if CountsOneKind(rest) {
      forall i, j | 0 <= i < j < |chunks| && Counts(chunks, i) && Counts(chunks, j) ensures chunks[i].reasoning == chunks[j].reasoning {
        assert Counts(rest, i - 1) && Counts(rest, j - 1);
      }
    }
  }

  lemma FullFirst(chunks: seq<Chunk>)
    requires chunks != [] && chunks[0].text != ""
    ensures CountsOneKind(chunks) <==> LaterOfKind(chunks[1..], chunks[0].reasoning)
  {
    var rest := chunks[1..];
    forall i | 0 < i < |chunks| ensures Counts(chunks, i) <==> rest[i - 1].text != "" && rest[i - 1].Streamed? {
      CountsShift(chunks, i);
    }
    assert Counts(chunks, 0);
    if CountsOneKind(chunks) {
      forall i | 0 <= i < |rest| && rest[i].text != "" && rest[i].Streamed? ensures rest[i].reasoning == chunks[0].reasoning {
        assert Counts(chunks, i + 1);
      }
    }
    if LaterOfKind(rest, chunks[0].reasoning) {
      forall i, j | 0 <= i < j < |chunks| && Counts(chunks, i) && Counts(chunks, j) ensures chunks[i].reasoning == chunks[j].reasoning {
        assert chunks[j] == rest[j - 1];
        if i > 0 { assert chunks[i] == rest[i - 1]; }
      }
    }
  }

  /** Deltas are of the kind their part was created with exactly when the counting chunks of the part's block are all
      of one kind: the mapper goes by the kind of the chunk, not by the kind of the part. */
  lemma DeltasKeepKindIff(root: string, prompt: Message, calls: seq<Call>, id: PartId)
    requires id.LivePart? && id.turn.Live? && id.turn.root == root
    ensures KeepsKind(Spoken(Trace(root, prompt, calls), id)) <==> CountsOneKind(Addressed(calls, 0, -1, id))
  {
    SpokenAsStreamed(root, prompt, calls, id);
    UtteredKinds(Addressed(calls, 0, -1, id));
  }

  /** Text and then thinking in one block: a thinking delta is sent to a text part. */
  lemma MixedBlockSendsWrongDelta(root: string, prompt: Message)
    ensures var start := Handle(MessageStart(AssistantRole, prompt));
            var text, thinking := Handle(MessageUpdate(TextChunk(Some(0), Some("a")))), Handle(MessageUpdate(ThinkingChunk(Some(0), Some("b"))));
            Spoken(Trace(root, prompt, [start, text, thinking]), LivePart(Live(root, 0), 0, 0))
            == [Utterance(true, "a", false), Utterance(false, "b", true)]
  {
    var start := Handle(MessageStart(AssistantRole, prompt));
    var text, thinking := Handle(MessageUpdate(TextChunk(Some(0), Some("a")))), Handle(MessageUpdate(ThinkingChunk(Some(0), Some("b"))));
    var calls := [start, text, thinking];
    var id := LivePart(Live(root, 0), 0, 0);
    SpokenAsStreamed(root, prompt, calls, id);
    assert calls[1..] == [text, thinking] && calls[1..][1..] == [thinking] && calls[1..][1..][1..] == [];
    assert Addressed([thinking], 0, 0, id) == [Streamed("b", true)];
    assert Addressed([text, thinking], 0, 0, id) == [Streamed("a", false), Streamed("b", true)];
    assert [Streamed("a", false), Streamed("b", true)][1..] == [Streamed("b", true)];
    UtteredOne(Streamed("b", true), true);
  }
}
