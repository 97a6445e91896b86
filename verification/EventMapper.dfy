/**
 Translates pi's agent event stream into chat actions. pi nests runs, messages and content
 blocks; the protocol has turns and response parts. `TurnMapper` is the mutable mapper; every
 method is specified by the function of the same name on `Mapper` values, and the lemmas about
 whole traces are about those functions.
 */
module EventMapperSpec {
  import opened Protocol

  const THINKING := "Thinking"
  const RESPONDING := "Responding"

  datatype Role = UserRole | AssistantRole | OtherRole

  /** The tool call block carried by a partial assistant message. */
  datatype ToolBlock = ToolBlock(id: Option<string>, name: Option<string>)

  datatype Delta =
    | TextChunk(index: Option<int>, delta: Option<string>)
    | ThinkingChunk(index: Option<int>, delta: Option<string>)
    | TextEnd(index: Option<int>, content: Option<string>)
    | ThinkingEnd(index: Option<int>, content: Option<string>)
    | ToolStart(index: Option<int>, block: Option<ToolBlock>)
    | ToolChunk(index: Option<int>, block: Option<ToolBlock>, delta: Option<string>)
    | ToolEnd(index: Option<int>, id: Option<string>)
    | StreamError(message: Option<string>, aborted: bool)
    | OtherDelta

  /** Tool activity arrives already rendered; wording is not part of this model. */
  datatype Event =
    | MessageStart(role: Role, message: Message)
    | MessageUpdate(update: Delta)
    | MessageEnd(role: Role, stop: Option<StopReason>, error: Option<string>, usage: Option<Usage>)
    | ToolExecutionStart(activity: string)
    | ToolExecutionUpdate(callId: string, content: Option<string>)
    | ToolExecutionEnd(callId: string, isError: bool)
    | AgentStart
    | CompactionEnd(succeeded: bool)
    | OtherEvent

  datatype OpenPart = OpenPart(id: PartId, reasoning: bool, created: bool)

  datatype Mapper = Mapper(
    turnId: TurnId,
    root: string,
    injected: nat,
    ordinal: int,
    parts: map<int, OpenPart>,
    toolsByIndex: map<int, string>,
    liveTools: set<string>,
    result: TurnResult,
    attemptError: Option<string>,
    finished: bool,
    activity: Option<string>)

  function NewMapper(root: string): Mapper {
    Mapper(Live(root, 0), root, 0, -1, map[], map[], {}, ResultComplete, None, false, None)
  }

  function IndexOf(index: Option<int>): int {
    if index.Some? then index.value else 0
  }

  function TextOf(text: Option<string>): string {
    if text.Some? then text.value else ""
  }

  /** JavaScript truthiness of an optional string. */
  predicate Truthy(text: Option<string>) {
    text.Some? && text.value != ""
  }

  function Shown(activity: Option<string>): Option<string> {
    if Truthy(activity) then activity else None
  }

  function SetActivity(m: Mapper, activity: Option<string>): (Mapper, seq<Action>) {
    if m.activity == activity then (m, [])
    else (m.(activity := activity), [ActivityChanged(Shown(activity))])
  }

  function TerminalAction(m: Mapper): Action {
    match m.result
    case ResultCancelled => TurnCancelled(m.turnId)
    case ResultError(message) => TurnError(m.turnId, if message.Some? then message.value else RUN_FAILED)
    case ResultComplete => TurnComplete(m.turnId)
  }

  function OnInjectedMessage(m: Mapper, message: Message): (Mapper, seq<Action>) {
    if m.ordinal < 0 then (m, [])
    else
      var next := Live(m.root, m.injected + 1);
      (Mapper(next, m.root, m.injected + 1, -1, map[], map[], {}, ResultComplete, None, m.finished, m.activity),
       [TerminalAction(m), TurnStarted(next, message, None)])
  }

  function OnMessageStart(m: Mapper, role: Role, message: Message): (Mapper, seq<Action>) {
    match role
    case UserRole => OnInjectedMessage(m, message)
    case AssistantRole => (m.(ordinal := m.ordinal + 1, parts := map[], toolsByIndex := map[], attemptError := None), [])
    case OtherRole => (m, [])
  }

  function ResultAfter(m: Mapper, stop: Option<StopReason>, error: Option<string>): TurnResult {
    match stop
    case Some(StopAborted) => ResultCancelled
    case Some(StopError) => ResultError(if error.Some? then error else m.attemptError)
    case Some(StopOther) => ResultComplete
    case _ => m.result
  }

  function OnMessageEnd(m: Mapper, role: Role, stop: Option<StopReason>, error: Option<string>, usage: Option<Usage>)
    : (Mapper, seq<Action>)
  {
    if !role.AssistantRole? then (m, [])
    else (m.(result := ResultAfter(m, stop, error), attemptError := None),
          if usage.Some? then [UsageReported(m.turnId, usage.value)] else [])
  }

  function AppendChunk(m: Mapper, index: Option<int>, delta: Option<string>, reasoning: bool): (Mapper, seq<Action>) {
    var at := IndexOf(index);
    var text := TextOf(delta);
    if text == "" then (m, [])
    else
      var (m1, responding) := SetActivity(m, Some(RESPONDING));
      var part := if at in m.parts then m.parts[at]
                  else OpenPart(LivePart(m.turnId, m.ordinal, at), reasoning, false);
      var m2 := m1.(parts := m.parts[at := part.(created := true)]);
      (m2, responding + [
         if !part.created then
           ResponsePart(m.turnId, if reasoning then Reasoning(part.id, text) else Markdown(part.id, text))
         else if reasoning then ReasoningDelta(m.turnId, part.id, text)
         else TextDelta(m.turnId, part.id, text)])
  }

  function CloseBlock(m: Mapper, index: Option<int>, content: Option<string>, reasoning: bool): (Mapper, seq<Action>) {
    var at := IndexOf(index);
    if at in m.parts && m.parts[at].created then (m, [])
    else AppendChunk(m, index, content, reasoning)
  }

  function OnToolCallStart(m: Mapper, index: Option<int>, block: Option<ToolBlock>): (Mapper, seq<Action>) {
    if block.None? || !Truthy(block.value.id) then (m, [])
    else
      var id := block.value.id.value;
      (m.(toolsByIndex := m.toolsByIndex[IndexOf(index) := id]),
       [ToolCallStart(m.turnId, id, ToolName(block.value.name))])
  }

  function ToolName(name: Option<string>): string {
    if name.Some? then name.value else "tool"
  }

  function OnToolCallDelta(m: Mapper, index: Option<int>, block: Option<ToolBlock>, delta: Option<string>)
    : (Mapper, seq<Action>)
  {
    var at := IndexOf(index);
    if at in m.toolsByIndex then (m, [ToolCallDelta(m.turnId, m.toolsByIndex[at], TextOf(delta))])
    else
      var (m1, started) := OnToolCallStart(m, index, block);
      if at !in m1.toolsByIndex then (m1, [])
      else (m1, started + [ToolCallDelta(m.turnId, m1.toolsByIndex[at], TextOf(delta))])
  }

  function OnToolCallReady(m: Mapper, index: Option<int>, id: Option<string>): (Mapper, seq<Action>) {
    var at := IndexOf(index);
    var callId := if id.Some? then id else if at in m.toolsByIndex then Some(m.toolsByIndex[at]) else None;
    if !Truthy(callId) then (m, [])
    else (m.(toolsByIndex := m.toolsByIndex[at := callId.value], liveTools := m.liveTools + {callId.value}),
          [ToolCallReady(m.turnId, callId.value)])
  }

  function OnDelta(m: Mapper, delta: Delta): (Mapper, seq<Action>) {
    match delta
    case TextChunk(index, text) => AppendChunk(m, index, text, false)
    case ThinkingChunk(index, text) => AppendChunk(m, index, text, true)
    case TextEnd(index, content) => CloseBlock(m, index, content, false)
    case ThinkingEnd(index, content) => CloseBlock(m, index, content, true)
    case ToolStart(index, block) => OnToolCallStart(m, index, block)
    case ToolChunk(index, block, text) => OnToolCallDelta(m, index, block, text)
    case ToolEnd(index, id) => OnToolCallReady(m, index, id)
    case StreamError(message, aborted) =>
      (m.(attemptError := message, result := if aborted then ResultCancelled else ResultError(message)), [])
    case OtherDelta => (m, [])
  }

  function OnToolUpdate(m: Mapper, callId: string, content: Option<string>): (Mapper, seq<Action>) {
    if callId !in m.liveTools || content.None? then (m, [])
    else (m, [ToolCallContent(m.turnId, callId, content.value)])
  }

  function OnToolEnd(m: Mapper, callId: string, isError: bool): (Mapper, seq<Action>) {
    if callId !in m.liveTools then (m, [])
    else (m.(liveTools := m.liveTools - {callId}), [ToolCallComplete(m.turnId, callId, !isError)])
  }

  function Handle(m: Mapper, event: Event): (Mapper, seq<Action>) {
    if m.finished then (m, [])
    else
      match event
      case MessageStart(role, message) => OnMessageStart(m, role, message)
      case MessageUpdate(delta) => OnDelta(m, delta)
      case MessageEnd(role, stop, error, usage) => OnMessageEnd(m, role, stop, error, usage)
      case ToolExecutionStart(activity) => SetActivity(m, Some(activity))
      case ToolExecutionUpdate(callId, content) => OnToolUpdate(m, callId, content)
      case ToolExecutionEnd(callId, isError) =>
        var (m1, ended) := OnToolEnd(m, callId, isError);
        var (m2, thinking) := SetActivity(m1, Some(THINKING));
        (m2, ended + thinking)
      case AgentStart => SetActivity(m, Some(THINKING))
      case CompactionEnd(succeeded) =>
        (m, if succeeded then [ResponsePart(m.turnId, Notification(COMPACTION_NOTICE))] else [])
      case OtherEvent => (m, [])
  }

  /** The owning prompt settled; `outcome` overrides the provisional result. */
  function Finish(m: Mapper, outcome: Option<TurnResult>): (Mapper, seq<Action>) {
    if m.finished then (m, [])
    else
      var m1 := m.(finished := true, result := if outcome.Some? then outcome.value else m.result);
      var (m2, idle) := SetActivity(m1, None);
      (m2, idle + [TerminalAction(m2)])
  }

}

/** The mapper as the source has it: an object whose fields each event updates. */
module EventMapper {
  import opened Protocol
  import opened EventMapperSpec
  import Spec = EventMapperSpec

  class TurnMapper {
    var turnId: TurnId
    const root: string
    var injected: nat
    var ordinal: int
    var parts: map<int, OpenPart>
    var toolsByIndex: map<int, string>
    var liveTools: set<string>
    var result: TurnResult
    var attemptError: Option<string>
    var finished: bool
    var activity: Option<string>

    ghost function View(): Mapper
      reads this
    {
      Mapper(turnId, root, injected, ordinal, parts, toolsByIndex, liveTools, result, attemptError, finished, activity)
    }

    constructor (root: string)
      ensures View() == NewMapper(root)
    {
      this.turnId, this.root, injected, ordinal := Live(root, 0), root, 0, -1;
      parts, toolsByIndex, liveTools := map[], map[], {};
      result, attemptError, finished, activity := ResultComplete, None, false, None;
    }

    method Handle(event: Event) returns (actions: seq<Action>)
      modifies this
      ensures (View(), actions) == Spec.Handle(old(View()), event)
    {
      if finished {
        return [];
      }
      match event
      case MessageStart(role, message) => actions := OnMessageStart(role, message);
      case MessageUpdate(delta) => actions := OnDelta(delta);
      case MessageEnd(role, stop, error, usage) => actions := OnMessageEnd(role, stop, error, usage);
      case ToolExecutionStart(description) => actions := SetActivity(Some(description));
      case ToolExecutionUpdate(callId, content) =>
        actions := [];
        if callId in liveTools && content.Some? {
          actions := [ToolCallContent(turnId, callId, content.value)];
        }
      case ToolExecutionEnd(callId, isError) =>
        actions := [];
        if callId in liveTools {
          liveTools := liveTools - {callId};
          actions := [ToolCallComplete(turnId, callId, !isError)];
        }
        var thinking := SetActivity(Some(THINKING));
        actions := actions + thinking;
      case AgentStart => actions := SetActivity(Some(THINKING));
      case CompactionEnd(succeeded) =>
        actions := if succeeded then [ResponsePart(turnId, Notification(COMPACTION_NOTICE))] else [];
      case OtherEvent => actions := [];
    }

    method SetActivity(next: Option<string>) returns (actions: seq<Action>)
      modifies this`activity
      ensures (View(), actions) == Spec.SetActivity(old(View()), next)
    {
      if activity == next {
        return [];
      }
      activity := next;
      actions := [ActivityChanged(Shown(next))];
    }

    method OnMessageStart(role: Role, message: Message) returns (actions: seq<Action>)
      modifies this
      ensures (View(), actions) == Spec.OnMessageStart(old(View()), role, message)
    {
      actions := [];
      match role
      case UserRole =>
        if ordinal >= 0 {
          var completed := Spec.TerminalAction(
            Mapper(turnId, root, injected, ordinal, parts, toolsByIndex, liveTools, result, attemptError, finished, activity));
          injected := injected + 1;
          turnId := Live(root, injected);
          ordinal := -1;
          parts, toolsByIndex, liveTools := map[], map[], {};
          result, attemptError := ResultComplete, None;
          actions := [completed, TurnStarted(turnId, message, None)];
        }
      case AssistantRole =>
        ordinal := ordinal + 1;
        parts, toolsByIndex := map[], map[];
        attemptError := None;
      case OtherRole =>
    }

    method OnMessageEnd(role: Role, stop: Option<StopReason>, error: Option<string>, usage: Option<Usage>)
      returns (actions: seq<Action>)
      modifies this
      ensures (View(), actions) == Spec.OnMessageEnd(old(View()), role, stop, error, usage)
    {
      if !role.AssistantRole? {
        return [];
      }
      if stop == Some(StopAborted) {
        result := ResultCancelled;
      } else if stop == Some(StopError) {
        result := ResultError(if error.Some? then error else attemptError);
      } else if stop == Some(StopOther) {
        result := ResultComplete;
      }
      attemptError := None;
      actions := if usage.Some? then [UsageReported(turnId, usage.value)] else [];
    }

    method AppendChunk(index: Option<int>, delta: Option<string>, reasoning: bool) returns (actions: seq<Action>)
      modifies this
      ensures (View(), actions) == Spec.AppendChunk(old(View()), index, delta, reasoning)
    {
      var at, text := IndexOf(index), TextOf(delta);
      if text == "" {
        return [];
      }
      actions := SetActivity(Some(RESPONDING));
      if at !in parts {
        parts := parts[at := OpenPart(LivePart(turnId, ordinal, at), reasoning, false)];
      }
      var part := parts[at];
      if !part.created {
        parts := parts[at := part.(created := true)];
        actions := actions +
          [ResponsePart(turnId, if reasoning then Reasoning(part.id, text) else Markdown(part.id, text))];
      } else if reasoning {
        actions := actions + [ReasoningDelta(turnId, part.id, text)];
      } else {
        actions := actions + [TextDelta(turnId, part.id, text)];
      }
      assert parts == old(parts)[at := part.(created := true)];
    }

    method OnDelta(delta: Delta) returns (actions: seq<Action>)
      modifies this
      ensures (View(), actions) == Spec.OnDelta(old(View()), delta)
    {
      actions := [];
      match delta
      case TextChunk(index, text) => actions := AppendChunk(index, text, false);
      case ThinkingChunk(index, text) => actions := AppendChunk(index, text, true);
      case TextEnd(index, content) =>
        if !(IndexOf(index) in parts && parts[IndexOf(index)].created) {
          actions := AppendChunk(index, content, false);
        }
      case ThinkingEnd(index, content) =>
        if !(IndexOf(index) in parts && parts[IndexOf(index)].created) {
          actions := AppendChunk(index, content, true);
        }
      case ToolStart(index, block) => actions := OnToolCallStart(index, block);
      case ToolChunk(index, block, text) =>
        if IndexOf(index) in toolsByIndex {
          return [ToolCallDelta(turnId, toolsByIndex[IndexOf(index)], TextOf(text))];
        }
        actions := OnToolCallStart(index, block);
        actions := if IndexOf(index) !in toolsByIndex then []
                   else actions + [ToolCallDelta(turnId, toolsByIndex[IndexOf(index)], TextOf(text))];
      case ToolEnd(index, id) => actions := OnToolCallReady(index, id);
      case StreamError(message, aborted) =>
        attemptError := message;
        result := if aborted then ResultCancelled else ResultError(message);
      case OtherDelta =>
    }

    method OnToolCallStart(index: Option<int>, block: Option<ToolBlock>) returns (actions: seq<Action>)
      modifies this`toolsByIndex
      ensures (View(), actions) == Spec.OnToolCallStart(old(View()), index, block)
    {
      if block.None? || !Truthy(block.value.id) {
        return [];
      }
      var id := block.value.id.value;
      toolsByIndex := toolsByIndex[IndexOf(index) := id];
      actions := [ToolCallStart(turnId, id, ToolName(block.value.name))];
    }

    method OnToolCallReady(index: Option<int>, id: Option<string>) returns (actions: seq<Action>)
      modifies this
      ensures (View(), actions) == Spec.OnToolCallReady(old(View()), index, id)
    {
      var at := IndexOf(index);
      var callId := if id.Some? then id else if at in toolsByIndex then Some(toolsByIndex[at]) else None;
      if !Truthy(callId) {
        return [];
      }
      toolsByIndex := toolsByIndex[at := callId.value];
      liveTools := liveTools + {callId.value};
      actions := [ToolCallReady(turnId, callId.value)];
    }

    method Finish(outcome: Option<TurnResult>) returns (actions: seq<Action>)
      modifies this
      ensures (View(), actions) == Spec.Finish(old(View()), outcome)
    {
      if finished {
        return [];
      }
      finished := true;
      if outcome.Some? {
        result := outcome.value;
      }
      actions := SetActivity(None);
      actions := actions + [Spec.TerminalAction(
        Mapper(turnId, root, injected, ordinal, parts, toolsByIndex, liveTools, result, attemptError, finished, activity))];
    }
  }
}
