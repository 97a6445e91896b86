/**
 The part of the Agent Host Protocol that the chat code relies on: identities, chat state,
 chat actions, and the behaviour of the chat reducer. The reducer belongs to a library;
 what is written here is what the host's comments and tests say about it:
 an action naming a turn that is not active is dropped, a delta to an unknown part is a no-op,
 a finished turn force-cancels its unfinished tool calls, the latest usage wins, `chat/error`
 appends its part, a queued start removes its queue entry, `turnsLoaded` prepends, and
 truncation keeps the named turn.
 */
module Protocol {

  datatype Option<+T> = None | Some(value: T)

  /** Entries of pi's append-only session file. */
  type EntryId = nat

  /** Turn ids are strings in the source; the injective encodings it uses become constructors. */
  datatype TurnId =
    | Live(root: string, split: nat)        // `<root>` or `<root>#<split>`
    | Stored(entry: EntryId)                // `<prefix>-<entry>`
    | StoredCompaction(entry: EntryId)      // `<prefix>-compaction-<entry>`

  datatype PartId =
    | LivePart(turn: TurnId, ordinal: int, index: int)
    | StoredPart(turn: TurnId, entry: EntryId, index: int)

  datatype Origin = FromUser | FromSystem
  datatype Message = Message(text: string, origin: Origin)
  datatype Usage = Usage(input: Option<nat>, output: Option<nat>, cacheRead: Option<nat>, model: Option<string>)

  datatype ToolStatus = Streaming | Running | Completed(success: bool) | Cancelled

  datatype Part =
    | Markdown(id: PartId, content: string)
    | Reasoning(id: PartId, content: string)
    | ToolCall(callId: string, name: string, status: ToolStatus)
    | Notification(text: string)
    | ErrorPart(message: string)

  datatype TurnState = CompleteTurn | CancelledTurn | ErrorTurn
  datatype Turn = Turn(id: TurnId, message: Message, parts: seq<Part>, usage: Option<Usage>, state: TurnState)
  datatype ActiveTurn = ActiveTurn(id: TurnId, message: Message, parts: seq<Part>, usage: Option<Usage>)

  /** How pi says an assistant message stopped, and what that makes of the turn so far. */
  datatype StopReason = StopPending | StopAborted | StopError | StopOther
  datatype TurnResult = ResultComplete | ResultCancelled | ResultError(message: Option<string>)

  const COMPACTION_NOTICE := "Conversation compacted. Earlier messages remain available in history."
  const RUN_FAILED := "The agent run failed"

  datatype Queued = Queued(id: nat, message: Message)

  datatype Chat = Chat(
    turns: seq<Turn>,
    active: Option<ActiveTurn>,
    cursor: Option<TurnId>,
    queued: seq<Queued>,
    activity: Option<string>)

  datatype Action =
    | TurnStarted(turn: TurnId, message: Message, queuedId: Option<nat>)
    | TurnComplete(turn: TurnId)
    | TurnCancelled(turn: TurnId)
    | TurnError(turn: TurnId, error: string)
    | ResponsePart(turn: TurnId, part: Part)
    | TextDelta(turn: TurnId, partId: PartId, content: string)      // chat/delta
    | ReasoningDelta(turn: TurnId, partId: PartId, content: string) // chat/reasoning
    | UsageReported(turn: TurnId, usage: Usage)
    | ToolCallStart(turn: TurnId, callId: string, name: string)
    | ToolCallDelta(turn: TurnId, callId: string, content: string)
    | ToolCallReady(turn: TurnId, callId: string)
    | ToolCallContent(turn: TurnId, callId: string, content: string)
    | ToolCallComplete(turn: TurnId, callId: string, success: bool)
    | ActivityChanged(activity: Option<string>)
    | TurnsLoaded(turns: seq<Turn>, cursor: Option<TurnId>)
    | Truncated(through: Option<TurnId>)

  /** The turn an action is scoped to, apart from the one that opens it. */
  function ScopeOf(a: Action): Option<TurnId> {
    match a
    case TurnStarted(_, _, _) => None
    case ActivityChanged(_) => None
    case TurnsLoaded(_, _) => None
    case Truncated(_) => None
    case _ => Some(a.turn)
  }

  predicate IsTerminal(a: Action) {
    a.TurnComplete? || a.TurnCancelled? || a.TurnError?
  }

  /** Appends streamed text to the part it names; an unknown part is left alone. */
  function AppendText(parts: seq<Part>, id: PartId, content: string, reasoning: bool): (r: seq<Part>)
    ensures |r| == |parts|
  {
    seq(|parts|, i requires 0 <= i < |parts| =>
      if parts[i].Markdown? && !reasoning && parts[i].id == id then Markdown(id, parts[i].content + content)
      else if parts[i].Reasoning? && reasoning && parts[i].id == id then Reasoning(id, parts[i].content + content)
      else parts[i])
  }

  /** Moves every call with this id that is in status `from` to status `to`. */
  function SetTool(parts: seq<Part>, callId: string, from: ToolStatus, to: ToolStatus): (r: seq<Part>)
    ensures |r| == |parts|
  {
    seq(|parts|, i requires 0 <= i < |parts| =>
      if parts[i].ToolCall? && parts[i].callId == callId && parts[i].status == from
      then parts[i].(status := to) else parts[i])
  }

  /** A finished turn leaves no call streaming or running. */
  function CancelUnfinished(parts: seq<Part>): (r: seq<Part>)
    ensures |r| == |parts|
  {
    seq(|parts|, i requires 0 <= i < |parts| =>
      if parts[i].ToolCall? && (parts[i].status.Streaming? || parts[i].status.Running?)
      then parts[i].(status := Cancelled) else parts[i])
  }

  function FinishActive(t: ActiveTurn, state: TurnState, extra: seq<Part>): Turn {
    Turn(t.id, t.message, CancelUnfinished(t.parts) + extra, t.usage, state)
  }

  function WithoutQueued(queue: seq<Queued>, id: nat): seq<Queued> {
    if queue == [] then []
    else if queue[0].id == id then WithoutQueued(queue[1..], id)
    else [queue[0]] + WithoutQueued(queue[1..], id)
  }

  /** The turns up to and including the named one; all of them when it is not there. */
  function KeepThrough(turns: seq<Turn>, id: TurnId): (r: seq<Turn>)
    ensures r <= turns
  {
    if turns == [] then []
    else if turns[0].id == id then [turns[0]]
    else [turns[0]] + KeepThrough(turns[1..], id)
  }

  function ReduceActive(t: ActiveTurn, a: Action): ActiveTurn {
    match a
    case ResponsePart(_, part) => t.(parts := t.parts + [part])
    case TextDelta(_, part, content) => t.(parts := AppendText(t.parts, part, content, false))
    case ReasoningDelta(_, part, content) => t.(parts := AppendText(t.parts, part, content, true))
    case UsageReported(_, usage) => t.(usage := Some(usage))
    case ToolCallStart(_, callId, name) => t.(parts := t.parts + [ToolCall(callId, name, Streaming)])
    case ToolCallReady(_, callId) => t.(parts := SetTool(t.parts, callId, Streaming, Running))
    case ToolCallComplete(_, callId, success) => t.(parts := SetTool(t.parts, callId, Running, Completed(success)))
    case _ => t
  }

  function ReduceScoped(c: Chat, t: ActiveTurn, a: Action): Chat {
    match a
    case TurnComplete(_) => c.(turns := c.turns + [FinishActive(t, CompleteTurn, [])], active := None)
    case TurnCancelled(_) => c.(turns := c.turns + [FinishActive(t, CancelledTurn, [])], active := None)
    case TurnError(_, error) => c.(turns := c.turns + [FinishActive(t, ErrorTurn, [ErrorPart(error)])], active := None)
    case _ => c.(active := Some(ReduceActive(t, a)))
  }

  function Reduce(c: Chat, a: Action): Chat {
    match a
    case TurnStarted(turn, message, queuedId) =>
      c.(active := Some(ActiveTurn(turn, message, [], None)),
         queued := if queuedId.Some? then WithoutQueued(c.queued, queuedId.value) else c.queued)
    case ActivityChanged(activity) => c.(activity := activity)
    case TurnsLoaded(turns, cursor) => c.(turns := turns + c.turns, cursor := cursor)
    case Truncated(turn) =>
      if turn.None? then c.(turns := [], cursor := None)
      else if exists i :: 0 <= i < |c.turns| && c.turns[i].id == turn.value
           then c.(turns := KeepThrough(c.turns, turn.value)) else c
    case _ =>
      if c.active.Some? && Some(c.active.value.id) == ScopeOf(a) then ReduceScoped(c, c.active.value, a) else c
  }

  function ReduceAll(c: Chat, actions: seq<Action>): Chat
    decreases |actions|
  {
    if actions == [] then c else ReduceAll(Reduce(c, actions[0]), actions[1..])
  }

  lemma {:induction false} ReduceAllConcat(c: Chat, xs: seq<Action>, ys: seq<Action>)
    ensures ReduceAll(c, xs + ys) == ReduceAll(ReduceAll(c, xs), ys)
    decreases |xs|
  {
    if xs == [] {
      assert xs + ys == ys;
    } else {
      assert (xs + ys)[1..] == xs[1..] + ys;
      ReduceAllConcat(Reduce(c, xs[0]), xs[1..], ys);
    }
  }
}
