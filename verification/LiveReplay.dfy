/**
 The live mapper and the rebuild from disk are two readers of one conversation. Here a run is
 described once, in terms of what pi does; from that description come both the events the live
 mapper handles and the entries pi persists, and the two views are proved to agree.
 */
module LiveReplay {
  import opened Collections
  import opened Protocol
  import M = EventMapperSpec
  import H = HistorySpec

  // ── One description of a run ──────────────────────────────────────────────

  /** One content block of an assistant message, with the way the provider streamed it. */
  datatype Piece =
    | Text(content: string, chunks: seq<string>)
    | Thinking(content: string, chunks: seq<string>)
    | Call(callId: string, name: Option<string>, late: bool, fragments: seq<string>)
    | Unshown

  datatype Item =
    | User(entry: EntryId, message: Message)
    | Assistant(entry: EntryId, pieces: seq<Piece>, usage: Option<Usage>, stop: StopReason, error: Option<string>,
                streamError: Option<M.Delta>)
    | ToolResult(entry: EntryId, callId: string, isError: bool)
    | Compaction(entry: EntryId)
    | ContextEdit(entry: EntryId, target: EntryId)
    | Recorded(entry: EntryId)
    | Quiet(event: M.Event)

  function ChunkEvent(index: int, text: string, reasoning: bool): M.Event {
    M.MessageUpdate(if reasoning then M.ThinkingChunk(Some(index), Some(text)) else M.TextChunk(Some(index), Some(text)))
  }

  function ChunkEvents(index: int, chunks: seq<string>, reasoning: bool): seq<M.Event> {
    if chunks == [] then []
    else [ChunkEvent(index, chunks[0], reasoning)] + ChunkEvents(index, chunks[1..], reasoning)
  }

  function FragmentEvents(index: int, block: M.ToolBlock, fragments: seq<string>): seq<M.Event> {
    if fragments == [] then []
    else [M.MessageUpdate(M.ToolChunk(Some(index), Some(block), Some(fragments[0])))]
         + FragmentEvents(index, block, fragments[1..])
  }

  function PieceEvents(index: int, piece: Piece): seq<M.Event> {
    match piece
    case Text(content, chunks) =>
      ChunkEvents(index, chunks, false) + [M.MessageUpdate(M.TextEnd(Some(index), Some(content)))]
    case Thinking(content, chunks) =>
      ChunkEvents(index, chunks, true) + [M.MessageUpdate(M.ThinkingEnd(Some(index), Some(content)))]
    case Call(callId, name, late, fragments) =>
      var block := M.ToolBlock(Some(callId), name);
      [M.MessageUpdate(M.ToolStart(Some(index), if late then None else Some(block)))]
      + FragmentEvents(index, block, fragments)
      + [M.MessageUpdate(M.ToolEnd(Some(index), Some(callId)))]
    case Unshown => []
  }

  function PiecesEvents(pieces: seq<Piece>, index: nat): seq<M.Event>
    requires index <= |pieces|
    decreases |pieces| - index
  {
    if index == |pieces| then [] else PieceEvents(index, pieces[index]) + PiecesEvents(pieces, index + 1)
  }

  const NO_MESSAGE := Message("", FromUser)

  function ItemEvents(item: Item): seq<M.Event> {
    match item
    case User(_, message) => [M.MessageStart(M.UserRole, message), M.MessageEnd(M.UserRole, None, None, None)]
    case Assistant(_, pieces, usage, stop, error, streamError) =>
      [M.MessageStart(M.AssistantRole, NO_MESSAGE)]
      + (PiecesEvents(pieces, 0)
         + ((if streamError.Some? then [M.MessageUpdate(streamError.value)] else [])
            + [M.MessageEnd(M.AssistantRole, Some(stop), error, usage)]))
    case ToolResult(_, callId, isError) =>
      [M.ToolExecutionEnd(callId, isError), M.MessageStart(M.OtherRole, NO_MESSAGE), M.MessageEnd(M.OtherRole, None, None, None)]
    case Compaction(_) => [M.CompactionEnd(true)]
    case ContextEdit(_, _) => []
    case Recorded(_) => []
    case Quiet(event) => [event]
  }

  function StoredBlock(piece: Piece): H.Block {
    match piece
    case Text(content, _) => H.TextBlock(content)
    case Thinking(content, _) => H.ThinkingBlock(content)
    case Call(callId, name, _, _) => H.ToolBlock(callId, name)
    case Unshown => H.OtherBlock
  }

  function StoredBlocks(pieces: seq<Piece>): (r: seq<H.Block>)
    ensures |r| == |pieces|
  {
    seq(|pieces|, i requires 0 <= i < |pieces| => StoredBlock(pieces[i]))
  }

  function ItemEntries(item: Item): seq<H.Entry> {
    match item
    case User(entry, message) => [H.UserEntry(entry, message)]
    case Assistant(entry, pieces, usage, stop, error, _) =>
      [H.AssistantEntry(entry, StoredBlocks(pieces), usage, Some(stop), error)]
    case ToolResult(entry, callId, isError) => [H.ToolResultEntry(entry, callId, isError)]
    case Compaction(entry) => [H.CompactionEntry(entry)]
    case ContextEdit(entry, target) => [H.ContextEditEntry(entry, target)]
    case Recorded(entry) => [H.OtherEntry(entry)]
    case Quiet(_) => []
  }

  function Events(items: seq<Item>): seq<M.Event> {
    if items == [] then [] else ItemEvents(items[0]) + Events(items[1..])
  }

  function Entries(items: seq<Item>): seq<H.Entry> {
    if items == [] then [] else ItemEntries(items[0]) + Entries(items[1..])
  }

  // ── Well-formed runs ──────────────────────────────────────────────────────

  /** What matters of the run so far: has an assistant spoken in this turn, which calls did it make, which returned,
      what does only the stream tell of its failure, and what did only the stream tell of each turn before it. */
  datatype Seen = Seen(answered: bool, calls: set<string>, returned: set<string>, report: Option<string>,
                       reports: seq<Option<string>>)

  /** A block is streamed in full or not at all; a call's id is known by its first fragment at the latest. */
  predicate PieceOk(piece: Piece) {
    match piece
    case Text(content, chunks) => Join(chunks) == content || Join(chunks) == ""
    case Thinking(content, chunks) => Join(chunks) == content || Join(chunks) == ""
    case Call(_, _, late, fragments) => late ==> fragments != []
    case Unshown => true
  }

  function CallIds(pieces: seq<Piece>): set<string> {
    set i | 0 <= i < |pieces| && pieces[i].Call? && pieces[i].callId != "" :: pieces[i].callId
  }

  predicate PiecesOk(pieces: seq<Piece>, calls: set<string>) {
    && (forall i :: 0 <= i < |pieces| ==> PieceOk(pieces[i]))
    && (forall i :: 0 <= i < |pieces| && pieces[i].Call? ==> pieces[i].callId !in calls)
    && (forall i, j :: 0 <= i < j < |pieces| && pieces[i].Call? && pieces[j].Call? && pieces[i].callId != "" ==>
          pieces[i].callId != pieces[j].callId)
  }

  predicate IsQuiet(event: M.Event) {
    event.AgentStart? || event.ToolExecutionStart? || event.ToolExecutionUpdate? || event.OtherEvent? || event == M.CompactionEnd(false)
  }

  predicate ItemOk(seen: Seen, item: Item) {
    match item
    case User(_, _) => seen.answered
    case Assistant(_, pieces, _, stop, error, streamError) =>
      && PiecesOk(pieces, seen.calls)
      && !stop.StopPending?
      && (streamError.Some? ==> streamError.value.StreamError?)
    case ToolResult(_, callId, _) => callId !in seen.returned
    case Quiet(event) => IsQuiet(event)
    case _ => true
  }

  /** The error text of a failed message that the stream told and the stored message does not carry. */
  function OnlyStreamed(stop: StopReason, error: Option<string>, streamError: Option<M.Delta>): Option<string> {
    if stop.StopError? && error.None? && streamError.Some? && streamError.value.StreamError? then streamError.value.message
    else None
  }

  function SeenAfter(seen: Seen, item: Item): Seen {
    match item
    case User(_, _) => Seen(false, {}, {}, None, seen.reports + [seen.report])
    case Assistant(_, pieces, _, stop, error, streamError) =>
      Seen(true, seen.calls + CallIds(pieces), seen.returned, OnlyStreamed(stop, error, streamError), seen.reports)
    case ToolResult(_, callId, _) => if callId in seen.calls then seen.(returned := seen.returned + {callId}) else seen
    case _ => seen
  }

  predicate ItemsOk(seen: Seen, items: seq<Item>)
    decreases |items|
  {
    items == [] || (ItemOk(seen, items[0]) && ItemsOk(SeenAfter(seen, items[0]), items[1..]))
  }

  function SeenAll(seen: Seen, items: seq<Item>): Seen
    decreases |items|
  {
    if items == [] then seen else SeenAll(SeenAfter(seen, items[0]), items[1..])
  }

  /** A prompt was just sent, in a chat with these reports for its earlier turns. */
  function Begun(reports: seq<Option<string>>): Seen {
    Seen(false, {}, {}, None, reports)
  }

  /** A run: the prompt, then whatever pi does until the prompt settles. */
  predicate RunOk(items: seq<Item>) {
    items != [] && items[0].User? && ItemsOk(Begun([]), items[1..])
  }

  // ── What a reader sees of a turn ──────────────────────────────────────────

  /** A part without its id. */
  datatype Plain =
    | PlainText(text: string)
    | PlainReasoning(text: string)
    | PlainCall(callId: string, name: string, status: ToolStatus)
    | PlainNote(text: string)
    | PlainError(text: string)

  function PlainPart(part: Part): Plain {
    match part
    case Markdown(_, content) => PlainText(content)
    case Reasoning(_, content) => PlainReasoning(content)
    case ToolCall(callId, name, status) => PlainCall(callId, name, status)
    case Notification(text) => PlainNote(text)
    case ErrorPart(message) => PlainError(message)
  }

  function PlainParts(parts: seq<Part>): (r: seq<Plain>)
    ensures |r| == |parts|
  {
    seq(|parts|, i requires 0 <= i < |parts| => PlainPart(parts[i]))
  }

  datatype PlainTurn = PlainTurn(message: Message, parts: seq<Plain>, usage: Option<Usage>, state: TurnState)

  /** Everything but the ids, which the client chose for live turns and the file chose for rebuilt ones. */
  function Visible(turn: Turn): PlainTurn {
    PlainTurn(turn.message, PlainParts(turn.parts), turn.usage, turn.state)
  }

  function VisibleTurns(turns: seq<Turn>): (r: seq<PlainTurn>)
    ensures |r| == |turns|
  {
    seq(|turns|, i requires 0 <= i < |turns| => Visible(turns[i]))
  }

  /** The two views of one turn: the same, except that a failure only the stream reported shows the report where the
      rebuilt view shows the text for an unknown error. */
  predicate SameBut(live: PlainTurn, rebuilt: PlainTurn, report: Option<string>) {
    if report.None? then live == rebuilt
    else
      && rebuilt.state.ErrorTurn?
      && rebuilt.parts != []
      && rebuilt.parts[|rebuilt.parts| - 1] == PlainError(RUN_FAILED)
      && live == rebuilt.(parts := rebuilt.parts[..|rebuilt.parts| - 1] + [PlainError(report.value)])
  }

  /** The two views of a chat agree turn by turn, up to the texts in `reports`. */
  ghost predicate Matching(live: seq<Turn>, rebuilt: seq<Turn>, reports: seq<Option<string>>) {
    && |live| == |rebuilt| == |reports|
    && forall i :: 0 <= i < |live| ==> SameBut(Visible(live[i]), Visible(rebuilt[i]), reports[i])
  }

  // ── Running the live side ─────────────────────────────────────────────────

  function Feed(m: M.Mapper, c: Chat, events: seq<M.Event>): (M.Mapper, Chat)
    decreases |events|
  {
    if events == [] then (m, c)
    else
      var (m1, actions) := M.Handle(m, events[0]);
      Feed(m1, ReduceAll(c, actions), events[1..])
  }

  lemma {:induction false} FeedConcat(m: M.Mapper, c: Chat, xs: seq<M.Event>, ys: seq<M.Event>)
    ensures Feed(m, c, xs + ys) == Feed(Feed(m, c, xs).0, Feed(m, c, xs).1, ys)
    decreases |xs|
  {
    if xs == [] {
      assert xs + ys == ys;
    } else {
      assert (xs + ys)[1..] == xs[1..] + ys;
      var (m1, actions) := M.Handle(m, xs[0]);
      FeedConcat(m1, ReduceAll(c, actions), xs[1..], ys);
    }
  }

  lemma FeedOne(m: M.Mapper, c: Chat, event: M.Event)
    ensures var (m1, actions) := M.Handle(m, event); Feed(m, c, [event]) == (m1, ReduceAll(c, actions))
  {
    assert [event][1..] == [];
  }

  lemma ReduceOne(c: Chat, a: Action)
    ensures ReduceAll(c, [a]) == Reduce(c, a)
  {
    assert [a][1..] == [];
  }

  lemma ReduceTwo(c: Chat, a: Action, b: Action)
    ensures ReduceAll(c, [a, b]) == Reduce(Reduce(c, a), b)
  {
    assert [a, b][1..] == [b];
    ReduceOne(Reduce(c, a), b);
  }

  // ── The relation between the two views ────────────────────────────────────

  /** Parts of the live turn carry ids the current message has not reached yet. */
  ghost predicate IdsBelow(parts: seq<Part>, turn: TurnId, ordinal: int, index: int) {
    forall i :: 0 <= i < |parts| && (parts[i].Markdown? || parts[i].Reasoning?) ==>
      var id := parts[i].id;
      id.LivePart? && id.turn == turn && (id.ordinal < ordinal || (id.ordinal == ordinal && id.index < index))
  }

  /** `toolParts` locates every call, and the mapper's live calls are the running ones. */
  ghost predicate CallsMatch(parts: seq<Part>, toolParts: map<string, nat>, live: set<string>) {
    && (forall id :: id in toolParts ==> toolParts[id] < |parts| && parts[toolParts[id]].ToolCall? && parts[toolParts[id]].callId == id)
    && (forall i :: 0 <= i < |parts| && parts[i].ToolCall? ==>
          parts[i].callId in toolParts && toolParts[parts[i].callId] == i && parts[i].callId != ""
          && (parts[i].status.Running? || parts[i].status.Completed?))
    && (forall id :: id in live <==> id in toolParts && parts[toolParts[id]].status.Running?)
  }

  /** Both sides agree on the open turn's parts, with message `m.ordinal` read up to block `index`. */
  ghost predicate PartsAgree(m: M.Mapper, c: Chat, parts: seq<Part>, toolParts: map<string, nat>, index: int) {
    && !m.finished
    && m.turnId == Live(m.root, m.injected)
    && c.active.Some? && c.active.value.id == m.turnId
    && PlainParts(c.active.value.parts) == PlainParts(parts)
    && IdsBelow(c.active.value.parts, m.turnId, m.ordinal, index)
    && CallsMatch(parts, toolParts, m.liveTools)
    && (forall i :: i in m.parts ==> i < index)
    && (forall i :: i in m.toolsByIndex ==> i < index)
  }

  /** What a stretch of the same turn leaves alone. */
  ghost predicate SameTurn(m: M.Mapper, c: Chat, m1: M.Mapper, c1: Chat) {
    && m1.root == m.root && m1.injected == m.injected && m1.turnId == m.turnId && m1.ordinal == m.ordinal
    && m1.result == m.result && m1.attemptError == m.attemptError && m1.finished == m.finished
    && c1.turns == c.turns
    && c.active.Some? && c1.active.Some?
    && c1.active.value.id == c.active.value.id
    && c1.active.value.message == c.active.value.message
    && c1.active.value.usage == c.active.value.usage
  }

  lemma SetActivityKeeps(m: M.Mapper, c: Chat, activity: Option<string>)
    ensures var (m1, actions) := M.SetActivity(m, activity);
            m1 == m.(activity := m1.activity) && ReduceAll(c, actions) == c.(activity := ReduceAll(c, actions).activity)
  {
    var actions := M.SetActivity(m, activity).1;
    if actions != [] {
      ReduceOne(c, actions[0]);
      assert actions == [actions[0]];
    }
  }

  // ── Text blocks ───────────────────────────────────────────────────────────

  function TextPart(id: PartId, text: string, reasoning: bool): Part {
    if reasoning then Reasoning(id, text) else Markdown(id, text)
  }

  /** Part way through streaming block `index`: `said` is what has been shown of it. */
  ghost predicate Saying(m: M.Mapper, c: Chat, parts: seq<Part>, toolParts: map<string, nat>, index: int, said: string, reasoning: bool) {
    if said == "" then PartsAgree(m, c, parts, toolParts, index)
    else
      var id := LivePart(m.turnId, m.ordinal, index);
      && PartsAgree(m, c, parts + [TextPart(id, said, reasoning)], toolParts, index + 1)
      && index in m.parts && m.parts[index].created && m.parts[index].id == id
      && var live := c.active.value.parts;
         live[|live| - 1] == TextPart(id, said, reasoning) && IdsBelow(live[..|live| - 1], m.turnId, m.ordinal, index)
  }

  lemma CallsMatchText(parts: seq<Part>, toolParts: map<string, nat>, live: set<string>, part: Part)
    requires CallsMatch(parts, toolParts, live) && !part.ToolCall?
    ensures CallsMatch(parts + [part], toolParts, live)
  {
    var more := parts + [part];
    forall id | id in toolParts ensures toolParts[id] < |more| && more[toolParts[id]] == parts[toolParts[id]] {}
  }

  lemma CallsMatchWithoutText(parts: seq<Part>, toolParts: map<string, nat>, live: set<string>, part: Part)
    requires CallsMatch(parts + [part], toolParts, live) && !part.ToolCall?
    ensures CallsMatch(parts, toolParts, live)
  {
    var more := parts + [part];
    forall id | id in toolParts ensures toolParts[id] < |parts| && more[toolParts[id]] == parts[toolParts[id]] {
      assert more[toolParts[id]].ToolCall?;
    }
    assert forall i :: 0 <= i < |parts| ==> more[i] == parts[i];
  }

  lemma PlainSnoc(parts: seq<Part>, part: Part)
    ensures PlainParts(parts + [part]) == PlainParts(parts) + [PlainPart(part)]
  {
  }

  lemma AppendToLast(parts: seq<Part>, id: PartId, said: string, text: string, reasoning: bool)
    requires parts != [] && parts[|parts| - 1] == TextPart(id, said, reasoning)
    requires forall i :: 0 <= i < |parts| - 1 && (parts[i].Markdown? || parts[i].Reasoning?) ==> parts[i].id != id
    ensures AppendText(parts, id, text, reasoning) == parts[..|parts| - 1] + [TextPart(id, said + text, reasoning)]
  {
  }

  lemma FirstChunk(m: M.Mapper, c: Chat, parts: seq<Part>, toolParts: map<string, nat>, index: int, text: string, reasoning: bool)
    requires PartsAgree(m, c, parts, toolParts, index) && text != ""
    ensures var (m1, actions) := M.AppendChunk(m, Some(index), Some(text), reasoning);
            var c1 := ReduceAll(c, actions);
            Saying(m1, c1, parts, toolParts, index, text, reasoning) && SameTurn(m, c, m1, c1)
  {
    var (m1, actions) := M.AppendChunk(m, Some(index), Some(text), reasoning);
    var id := LivePart(m.turnId, m.ordinal, index);
    var (m0, responding) := M.SetActivity(m, Some(M.RESPONDING));
    SetActivityKeeps(m, c, Some(M.RESPONDING));
    var c0 := ReduceAll(c, responding);
    var a := ResponsePart(m.turnId, TextPart(id, text, reasoning));
    assert actions == responding + [a];
    ReduceAllConcat(c, responding, [a]);
    ReduceOne(c0, a);
    var live := c.active.value.parts;
    var c1 := Reduce(c0, a);
    assert c1.active.value.parts == live + [TextPart(id, text, reasoning)];
    PlainSnoc(live, TextPart(id, text, reasoning));
    PlainSnoc(parts, TextPart(id, text, reasoning));
    CallsMatchText(parts, toolParts, m.liveTools, TextPart(id, text, reasoning));
    assert c1.active.value.parts[..|live|] == live;
  }

  function ChunkDelta(turn: TurnId, id: PartId, text: string, reasoning: bool): Action {
    if reasoning then ReasoningDelta(turn, id, text) else TextDelta(turn, id, text)
  }

  lemma LaterChunkActions(m: M.Mapper, index: int, text: string, reasoning: bool)
    requires text != "" && index in m.parts && m.parts[index].created
    ensures M.AppendChunk(m, Some(index), Some(text), reasoning)
         == (M.SetActivity(m, Some(M.RESPONDING)).0,
             M.SetActivity(m, Some(M.RESPONDING)).1 + [ChunkDelta(m.turnId, m.parts[index].id, text, reasoning)])
  {
    assert m.parts[index := m.parts[index]] == m.parts;
  }

  lemma LaterChunkReduced(c: Chat, turn: TurnId, id: PartId, said: string, text: string, reasoning: bool)
    requires c.active.Some? && c.active.value.id == turn && c.active.value.parts != []
    requires var live := c.active.value.parts;
             && live[|live| - 1] == TextPart(id, said, reasoning)
             && forall i :: 0 <= i < |live| - 1 && (live[i].Markdown? || live[i].Reasoning?) ==> live[i].id != id
    ensures var live := c.active.value.parts;
            Reduce(c, ChunkDelta(turn, id, text, reasoning))
            == c.(active := Some(c.active.value.(parts := live[..|live| - 1] + [TextPart(id, said + text, reasoning)])))
  {
    AppendToLast(c.active.value.parts, id, said, text, reasoning);
  }

  /** A later chunk of a part that is shown last extends its text. */
  lemma LaterChunkFed(m: M.Mapper, c: Chat, index: int, said: string, text: string, reasoning: bool)
    requires text != "" && c.active.Some? && c.active.value.id == m.turnId && c.active.value.parts != []
    requires index in m.parts && m.parts[index].created && m.parts[index].id == LivePart(m.turnId, m.ordinal, index)
    requires var live := c.active.value.parts;
             && live[|live| - 1] == TextPart(m.parts[index].id, said, reasoning)
             && IdsBelow(live[..|live| - 1], m.turnId, m.ordinal, index)
    ensures var (m1, actions) := M.AppendChunk(m, Some(index), Some(text), reasoning);
            var c1 := ReduceAll(c, actions);
            var live := c.active.value.parts;
            && m1 == m.(activity := m1.activity)
            && c1 == c.(activity := c1.activity, active := Some(c.active.value.(parts :=
                          live[..|live| - 1] + [TextPart(m.parts[index].id, said + text, reasoning)])))
  {
    var id, live := m.parts[index].id, c.active.value.parts;
    LaterChunkActions(m, index, text, reasoning);
    var responding := M.SetActivity(m, Some(M.RESPONDING)).1;
    SetActivityKeeps(m, c, Some(M.RESPONDING));
    var c0, a := ReduceAll(c, responding), ChunkDelta(m.turnId, id, text, reasoning);
    ReduceAllConcat(c, responding, [a]);
    ReduceOne(c0, a);
    forall i | 0 <= i < |live| - 1 && (live[i].Markdown? || live[i].Reasoning?) ensures live[i].id != id {
      assert live[..|live| - 1][i] == live[i];
    }
    LaterChunkReduced(c0, m.turnId, id, said, text, reasoning);
  }

  /** Two lists of parts that end with the same text part look alike whatever that part's text is. */
  lemma SameButLast(front: seq<Part>, parts: seq<Part>, id: PartId, said: string, more: string, reasoning: bool)
    requires PlainParts(front + [TextPart(id, said, reasoning)]) == PlainParts(parts + [TextPart(id, said, reasoning)])
    ensures PlainParts(front + [TextPart(id, more, reasoning)]) == PlainParts(parts + [TextPart(id, more, reasoning)])
  {
    var last := TextPart(id, said, reasoning);
    PlainSnoc(front, last);
    PlainSnoc(parts, last);
    assert PlainParts(front) == (PlainParts(front) + [PlainPart(last)])[..|front|];
    assert PlainParts(parts) == (PlainParts(parts) + [PlainPart(last)])[..|parts|];
    PlainSnoc(front, TextPart(id, more, reasoning));
    PlainSnoc(parts, TextPart(id, more, reasoning));
  }

  lemma LaterChunk(m: M.Mapper, c: Chat, parts: seq<Part>, toolParts: map<string, nat>, index: int, said: string, text: string, reasoning: bool)
    requires said != "" && Saying(m, c, parts, toolParts, index, said, reasoning) && text != ""
    ensures var (m1, actions) := M.AppendChunk(m, Some(index), Some(text), reasoning);
            var c1 := ReduceAll(c, actions);
            Saying(m1, c1, parts, toolParts, index, said + text, reasoning) && SameTurn(m, c, m1, c1)
  {
    var id := LivePart(m.turnId, m.ordinal, index);
    LaterChunkFed(m, c, index, said, text, reasoning);
    var live := c.active.value.parts;
    var front := live[..|live| - 1];
    assert live == front + [TextPart(id, said, reasoning)];
    SameButLast(front, parts, id, said, said + text, reasoning);
    CallsMatchWithoutText(parts, toolParts, m.liveTools, TextPart(id, said, reasoning));
    CallsMatchText(parts, toolParts, m.liveTools, TextPart(id, said + text, reasoning));
    assert (front + [TextPart(id, said + text, reasoning)])[..|live| - 1] == front;
    assert said + text != "";
  }

  lemma ChunkAgrees(m: M.Mapper, c: Chat, parts: seq<Part>, toolParts: map<string, nat>, index: int, said: string, text: string, reasoning: bool)
    requires Saying(m, c, parts, toolParts, index, said, reasoning)
    ensures var (m1, actions) := M.AppendChunk(m, Some(index), Some(text), reasoning);
            var c1 := ReduceAll(c, actions);
            Saying(m1, c1, parts, toolParts, index, said + text, reasoning) && SameTurn(m, c, m1, c1)
  {
    if text == "" {
      assert said + text == said;
    } else if said == "" {
      assert said + text == text;
      FirstChunk(m, c, parts, toolParts, index, text, reasoning);
    } else {
      LaterChunk(m, c, parts, toolParts, index, said, text, reasoning);
    }
  }

  lemma HandleChunk(m: M.Mapper, index: int, text: string, reasoning: bool)
    requires !m.finished
    ensures M.Handle(m, ChunkEvent(index, text, reasoning)) == M.AppendChunk(m, Some(index), Some(text), reasoning)
  {
  }

  lemma FeedCons(m: M.Mapper, c: Chat, event: M.Event, events: seq<M.Event>)
    ensures var (m1, actions) := M.Handle(m, event);
            Feed(m, c, [event] + events) == Feed(m1, ReduceAll(c, actions), events)
  {
    assert ([event] + events)[1..] == events;
  }

  lemma SameTurnTrans(m: M.Mapper, c: Chat, m1: M.Mapper, c1: Chat, m2: M.Mapper, c2: Chat)
    requires SameTurn(m, c, m1, c1) && SameTurn(m1, c1, m2, c2)
    ensures SameTurn(m, c, m2, c2)
  {
  }

  lemma ChunksFed(m: M.Mapper, c: Chat, index: int, chunks: seq<string>, reasoning: bool)
    requires !m.finished && chunks != []
    ensures var (m1, actions) := M.AppendChunk(m, Some(index), Some(chunks[0]), reasoning);
            Feed(m, c, ChunkEvents(index, chunks, reasoning)) == Feed(m1, ReduceAll(c, actions), ChunkEvents(index, chunks[1..], reasoning))
  {
    HandleChunk(m, index, chunks[0], reasoning);
    FeedCons(m, c, ChunkEvent(index, chunks[0], reasoning), ChunkEvents(index, chunks[1..], reasoning));
  }

  lemma JoinStep(said: string, chunks: seq<string>)
    requires chunks != []
    ensures said + Join(chunks) == said + chunks[0] + Join(chunks[1..])
  {
    assert said + (chunks[0] + Join(chunks[1..])) == said + chunks[0] + Join(chunks[1..]);
  }

  /** `said` is what has been shown so far and `all` what will have been shown after `chunks`. */
  lemma {:induction false} ChunksAgree(m: M.Mapper, c: Chat, parts: seq<Part>, toolParts: map<string, nat>, index: int, said: string, chunks: seq<string>, all: string, reasoning: bool)
    requires Saying(m, c, parts, toolParts, index, said, reasoning) && c.active.Some?
    requires all == said + Join(chunks)
    ensures var (m1, c1) := Feed(m, c, ChunkEvents(index, chunks, reasoning));
            Saying(m1, c1, parts, toolParts, index, all, reasoning) && SameTurn(m, c, m1, c1)
    decreases |chunks|
  {
    if chunks == [] {
      assert all == said;
    } else {
      var (m1, actions) := M.AppendChunk(m, Some(index), Some(chunks[0]), reasoning);
      var c1 := ReduceAll(c, actions);
      ChunksFed(m, c, index, chunks, reasoning);
      ChunkAgrees(m, c, parts, toolParts, index, said, chunks[0], reasoning);
      JoinStep(said, chunks);
      var (m2, c2) := Feed(m1, c1, ChunkEvents(index, chunks[1..], reasoning));
      ChunksAgree(m1, c1, parts, toolParts, index, said + chunks[0], chunks[1..], all, reasoning);
      SameTurnTrans(m, c, m1, c1, m2, c2);
    }
  }

  function EndEvent(index: int, content: string, reasoning: bool): M.Event {
    M.MessageUpdate(if reasoning then M.ThinkingEnd(Some(index), Some(content)) else M.TextEnd(Some(index), Some(content)))
  }

  /** The end of a block adds nothing to a streamed block and everything to an unstreamed one. */
  lemma EndAgrees(m: M.Mapper, c: Chat, parts: seq<Part>, toolParts: map<string, nat>, index: int, said: string, content: string, reasoning: bool)
    requires Saying(m, c, parts, toolParts, index, said, reasoning) && (said == content || said == "") && c.active.Some?
    ensures var (m1, c1) := Feed(m, c, [EndEvent(index, content, reasoning)]);
            Saying(m1, c1, parts, toolParts, index, content, reasoning) && SameTurn(m, c, m1, c1)
  {
    FeedOne(m, c, EndEvent(index, content, reasoning));
    if said != "" {
      assert M.Handle(m, EndEvent(index, content, reasoning)) == (m, []);
    } else {
      assert index !in m.parts;
      assert "" + content == content;
      ChunkAgrees(m, c, parts, toolParts, index, "", content, reasoning);
    }
  }

  lemma SaidIsStored(m: M.Mapper, c: Chat, parts: seq<Part>, toolParts: map<string, nat>, index: int, content: string, reasoning: bool, stored: PartId)
    requires Saying(m, c, parts, toolParts, index, content, reasoning)
    ensures PartsAgree(m, c, if content == "" then parts else parts + [TextPart(stored, content, reasoning)], toolParts, index + 1)
  {
    if content != "" {
      var id := LivePart(m.turnId, m.ordinal, index);
      PlainSnoc(parts, TextPart(id, content, reasoning));
      PlainSnoc(parts, TextPart(stored, content, reasoning));
      CallsMatchWithoutText(parts, toolParts, m.liveTools, TextPart(id, content, reasoning));
      CallsMatchText(parts, toolParts, m.liveTools, TextPart(stored, content, reasoning));
    }
  }

  /** A text or reasoning block, however it was streamed, shows what was stored for it. */
  lemma TextPieceAgrees(m: M.Mapper, c: Chat, parts: seq<Part>, toolParts: map<string, nat>, index: int,
                        content: string, chunks: seq<string>, reasoning: bool, stored: PartId)
    requires PartsAgree(m, c, parts, toolParts, index)
    requires Join(chunks) == content || Join(chunks) == ""
    ensures var (m1, c1) := Feed(m, c, ChunkEvents(index, chunks, reasoning) + [EndEvent(index, content, reasoning)]);
            && PartsAgree(m1, c1, if content == "" then parts else parts + [TextPart(stored, content, reasoning)], toolParts, index + 1)
            && SameTurn(m, c, m1, c1)
  {
    var end, streamed := EndEvent(index, content, reasoning), ChunkEvents(index, chunks, reasoning);
    assert "" + Join(chunks) == Join(chunks);
    ChunksAgree(m, c, parts, toolParts, index, "", chunks, Join(chunks), reasoning);
    var (m1, c1) := Feed(m, c, streamed);
    FeedConcat(m, c, streamed, [end]);
    EndAgrees(m1, c1, parts, toolParts, index, Join(chunks), content, reasoning);
    var (m2, c2) := Feed(m1, c1, [end]);
    SameTurnTrans(m, c, m1, c1, m2, c2);
    SaidIsStored(m2, c2, parts, toolParts, index, content, reasoning, stored);
  }

  // ── Tool calls ────────────────────────────────────────────────────────────

  /** The call in block `index` has been announced and its arguments are still streaming. */
  ghost predicate Announced(m: M.Mapper, c: Chat, parts: seq<Part>, toolParts: map<string, nat>, index: int, callId: string, name: string) {
    && !m.finished
    && m.turnId == Live(m.root, m.injected)
    && c.active.Some? && c.active.value.id == m.turnId
    && (var live := c.active.value.parts;
       |live| == |parts| + 1
        && live[|parts|] == ToolCall(callId, name, Streaming)
        && PlainParts(live[..|parts|]) == PlainParts(parts)
        && IdsBelow(live, m.turnId, m.ordinal, index))
    && CallsMatch(parts, toolParts, m.liveTools)
    && (forall i :: i in m.parts ==> i < index)
    && index in m.toolsByIndex && m.toolsByIndex[index] == callId
    && (forall i :: i in m.toolsByIndex ==> i <= index)
  }

  lemma StartAnnounces(m: M.Mapper, c: Chat, parts: seq<Part>, toolParts: map<string, nat>, index: int, block: M.ToolBlock)
    requires PartsAgree(m, c, parts, toolParts, index) && block.id.Some? && block.id.value != ""
    ensures var (m1, actions) := M.OnToolCallStart(m, Some(index), Some(block));
            var c1 := ReduceAll(c, actions);
            && actions == [ToolCallStart(m.turnId, block.id.value, H.NameOf(block.name))]
            && Announced(m1, c1, parts, toolParts, index, block.id.value, H.NameOf(block.name)) && SameTurn(m, c, m1, c1)
  {
    var a := ToolCallStart(m.turnId, block.id.value, H.NameOf(block.name));
    ReduceOne(c, a);
    var live := c.active.value.parts;
    var part := ToolCall(block.id.value, H.NameOf(block.name), Streaming);
    assert Reduce(c, a).active.value.parts == live + [part];
    assert (live + [part])[..|parts|] == live;
  }

  lemma FragmentKeeps(m: M.Mapper, c: Chat, index: int, block: M.ToolBlock, fragment: string)
    requires !m.finished && index in m.toolsByIndex && c.active.Some? && c.active.value.id == m.turnId
    ensures var (m1, actions) := M.Handle(m, M.MessageUpdate(M.ToolChunk(Some(index), Some(block), Some(fragment))));
            m1 == m && ReduceAll(c, actions) == c
  {
    ReduceOne(c, ToolCallDelta(m.turnId, m.toolsByIndex[index], fragment));
  }

  lemma {:induction false} FragmentsKeep(m: M.Mapper, c: Chat, index: int, block: M.ToolBlock, fragments: seq<string>)
    requires !m.finished && index in m.toolsByIndex && c.active.Some? && c.active.value.id == m.turnId
    ensures Feed(m, c, FragmentEvents(index, block, fragments)) == (m, c)
    decreases |fragments|
  {
    if fragments != [] {
      FragmentKeeps(m, c, index, block, fragments[0]);
      FeedCons(m, c, M.MessageUpdate(M.ToolChunk(Some(index), Some(block), Some(fragments[0]))), FragmentEvents(index, block, fragments[1..]));
      FragmentsKeep(m, c, index, block, fragments[1..]);
    }
  }

  /** The first fragment of a call announced late announces it. */
  lemma LateFragment(m: M.Mapper, c: Chat, parts: seq<Part>, toolParts: map<string, nat>, index: int, block: M.ToolBlock, fragment: string)
    requires PartsAgree(m, c, parts, toolParts, index) && block.id.Some? && block.id.value != ""
    ensures var (m1, actions) := M.Handle(m, M.MessageUpdate(M.ToolChunk(Some(index), Some(block), Some(fragment))));
            var c1 := ReduceAll(c, actions);
            Announced(m1, c1, parts, toolParts, index, block.id.value, H.NameOf(block.name)) && SameTurn(m, c, m1, c1)
  {
    StartAnnounces(m, c, parts, toolParts, index, block);
    var (m1, started) := M.OnToolCallStart(m, Some(index), Some(block));
    var c1 := ReduceAll(c, started);
    var more := ToolCallDelta(m.turnId, block.id.value, fragment);
    assert M.Handle(m, M.MessageUpdate(M.ToolChunk(Some(index), Some(block), Some(fragment)))) == (m1, started + [more]);
    ReduceAllConcat(c, started, [more]);
    ReduceOne(c1, more);
  }

  lemma NoSuchCall(parts: seq<Part>, live: seq<Part>, toolParts: map<string, nat>, tools: set<string>, callId: string)
    requires CallsMatch(parts, toolParts, tools) && PlainParts(live) == PlainParts(parts) && callId !in toolParts
    ensures forall i :: 0 <= i < |live| && live[i].ToolCall? ==> live[i].callId != callId
  {
    forall i | 0 <= i < |live| && live[i].ToolCall? ensures live[i].callId != callId {
      assert PlainParts(live)[i] == PlainParts(parts)[i];
    }
  }

  lemma CallsMatchCall(parts: seq<Part>, toolParts: map<string, nat>, live: set<string>, callId: string, name: string)
    requires CallsMatch(parts, toolParts, live) && callId !in toolParts && callId != ""
    ensures CallsMatch(parts + [ToolCall(callId, name, Running)], toolParts[callId := |parts|], live + {callId})
  {
    var more := parts + [ToolCall(callId, name, Running)];
    forall id | id in toolParts ensures toolParts[id] < |more| && more[toolParts[id]] == parts[toolParts[id]] {}
  }

  lemma ReadyAgrees(m: M.Mapper, c: Chat, parts: seq<Part>, toolParts: map<string, nat>, index: int, callId: string, name: string)
    requires Announced(m, c, parts, toolParts, index, callId, name) && callId !in toolParts && callId != ""
    ensures var (m1, actions) := M.OnToolCallReady(m, Some(index), Some(callId));
            var c1 := ReduceAll(c, actions);
            && PartsAgree(m1, c1, parts + [ToolCall(callId, name, Running)], toolParts[callId := |parts|], index + 1)
            && SameTurn(m, c, m1, c1)
  {
    var a := ToolCallReady(m.turnId, callId);
    ReduceOne(c, a);
    var live := c.active.value.parts;
    var front := live[..|parts|];
    NoSuchCall(parts, front, toolParts, m.liveTools, callId);
    var part := ToolCall(callId, name, Running);
    assert SetTool(live, callId, Streaming, Running) == front + [part] by {
      forall i | 0 <= i < |live| ensures SetTool(live, callId, Streaming, Running)[i] == (front + [part])[i] {
        if i < |parts| { assert front[i] == live[i]; }
      }
    }
    PlainSnoc(front, part);
    PlainSnoc(parts, part);
    CallsMatchCall(parts, toolParts, m.liveTools, callId, name);
  }

  lemma {:induction false} NamelessFragments(m: M.Mapper, c: Chat, index: int, name: Option<string>, fragments: seq<string>)
    requires !m.finished && index !in m.toolsByIndex
    ensures Feed(m, c, FragmentEvents(index, M.ToolBlock(Some(""), name), fragments)) == (m, c)
    decreases |fragments|
  {
    if fragments != [] {
      var event := M.MessageUpdate(M.ToolChunk(Some(index), Some(M.ToolBlock(Some(""), name)), Some(fragments[0])));
      assert M.Handle(m, event) == (m, []);
      FeedCons(m, c, event, FragmentEvents(index, M.ToolBlock(Some(""), name), fragments[1..]));
      NamelessFragments(m, c, index, name, fragments[1..]);
    }
  }

  /** A call without an id is shown by neither view. */
  lemma NamelessCall(m: M.Mapper, c: Chat, index: int, piece: Piece)
    requires !m.finished && index !in m.toolsByIndex && piece.Call? && piece.callId == ""
    ensures Feed(m, c, PieceEvents(index, piece)) == (m, c)
  {
    var block := M.ToolBlock(Some(""), piece.name);
    var start := M.MessageUpdate(M.ToolStart(Some(index), if piece.late then None else Some(block)));
    var end := M.MessageUpdate(M.ToolEnd(Some(index), Some("")));
    var fragments := FragmentEvents(index, block, piece.fragments);
    assert PieceEvents(index, piece) == [start] + (fragments + [end]);
    assert M.Handle(m, start) == (m, []);
    FeedCons(m, c, start, fragments + [end]);
    FeedConcat(m, c, fragments, [end]);
    NamelessFragments(m, c, index, piece.name, piece.fragments);
    FeedOne(m, c, end);
  }

  lemma CallAnnounced(m: M.Mapper, c: Chat, parts: seq<Part>, toolParts: map<string, nat>, index: int, piece: Piece)
    requires PartsAgree(m, c, parts, toolParts, index)
    requires piece.Call? && PieceOk(piece) && piece.callId != ""
    ensures var block := M.ToolBlock(Some(piece.callId), piece.name);
            var start := M.MessageUpdate(M.ToolStart(Some(index), if piece.late then None else Some(block)));
            var (m1, c1) := Feed(m, c, [start] + FragmentEvents(index, block, piece.fragments));
            Announced(m1, c1, parts, toolParts, index, piece.callId, H.NameOf(piece.name)) && SameTurn(m, c, m1, c1)
  {
    var block := M.ToolBlock(Some(piece.callId), piece.name);
    var start := M.MessageUpdate(M.ToolStart(Some(index), if piece.late then None else Some(block)));
    FeedCons(m, c, start, FragmentEvents(index, block, piece.fragments));
    if piece.late {
      assert M.Handle(m, start) == (m, []);
      var first := M.MessageUpdate(M.ToolChunk(Some(index), Some(block), Some(piece.fragments[0])));
      LateFragment(m, c, parts, toolParts, index, block, piece.fragments[0]);
      FeedCons(m, c, first, FragmentEvents(index, block, piece.fragments[1..]));
      var (m1, actions) := M.Handle(m, first);
      FragmentsKeep(m1, ReduceAll(c, actions), index, block, piece.fragments[1..]);
    } else {
      StartAnnounces(m, c, parts, toolParts, index, block);
      var (m1, actions) := M.Handle(m, start);
      FragmentsKeep(m1, ReduceAll(c, actions), index, block, piece.fragments);
    }
  }

  lemma CallPieceAgrees(m: M.Mapper, c: Chat, parts: seq<Part>, toolParts: map<string, nat>, index: int, piece: Piece)
    requires PartsAgree(m, c, parts, toolParts, index)
    requires piece.Call? && PieceOk(piece) && piece.callId !in toolParts && piece.callId != ""
    ensures var (m1, c1) := Feed(m, c, PieceEvents(index, piece));
            && PartsAgree(m1, c1, parts + [ToolCall(piece.callId, H.NameOf(piece.name), Running)], toolParts[piece.callId := |parts|], index + 1)
            && SameTurn(m, c, m1, c1)
  {
    var block := M.ToolBlock(Some(piece.callId), piece.name);
    var start := M.MessageUpdate(M.ToolStart(Some(index), if piece.late then None else Some(block)));
    var end := M.MessageUpdate(M.ToolEnd(Some(index), Some(piece.callId)));
    var opening := [start] + FragmentEvents(index, block, piece.fragments);
    assert PieceEvents(index, piece) == opening + [end];
    CallAnnounced(m, c, parts, toolParts, index, piece);
    var (m1, c1) := Feed(m, c, opening);
    FeedConcat(m, c, opening, [end]);
    FeedOne(m1, c1, end);
    ReadyAgrees(m1, c1, parts, toolParts, index, piece.callId, H.NameOf(piece.name));
    var (m2, actions) := M.OnToolCallReady(m1, Some(index), Some(piece.callId));
    SameTurnTrans(m, c, m1, c1, m2, ReduceAll(c1, actions));
  }

  // ── A whole assistant message ─────────────────────────────────────────────

  lemma NextIndex(m: M.Mapper, c: Chat, parts: seq<Part>, toolParts: map<string, nat>, index: int)
    requires PartsAgree(m, c, parts, toolParts, index)
    ensures PartsAgree(m, c, parts, toolParts, index + 1)
  {
  }

  function StoredParts(turn: TurnId, entry: EntryId, parts: seq<Part>, index: nat, piece: Piece): seq<Part> {
    match piece
    case Text(content, _) => if content == "" then parts else parts + [Markdown(StoredPart(turn, entry, index), content)]
    case Thinking(content, _) => if content == "" then parts else parts + [Reasoning(StoredPart(turn, entry, index), content)]
    case Call(callId, name, _, _) => if callId == "" then parts else parts + [ToolCall(callId, H.NameOf(name), Running)]
    case Unshown => parts
  }

  function StoredCalls(parts: seq<Part>, toolParts: map<string, nat>, piece: Piece): map<string, nat> {
    if piece.Call? && piece.callId != "" then toolParts[piece.callId := |parts|] else toolParts
  }

  lemma PieceAgrees(m: M.Mapper, c: Chat, turn: TurnId, entry: EntryId, parts: seq<Part>, toolParts: map<string, nat>, index: nat, piece: Piece)
    requires PartsAgree(m, c, parts, toolParts, index)
    requires PieceOk(piece) && (piece.Call? ==> piece.callId !in toolParts)
    ensures var (m1, c1) := Feed(m, c, PieceEvents(index, piece));
            && PartsAgree(m1, c1, StoredParts(turn, entry, parts, index, piece), StoredCalls(parts, toolParts, piece), index + 1)
            && SameTurn(m, c, m1, c1)
  {
    match piece
    case Text(content, chunks) =>
      TextPieceAgrees(m, c, parts, toolParts, index, content, chunks, false, StoredPart(turn, entry, index));
    case Thinking(content, chunks) =>
      TextPieceAgrees(m, c, parts, toolParts, index, content, chunks, true, StoredPart(turn, entry, index));
    case Call(callId, name, late, fragments) =>
      if callId == "" {
        NamelessCall(m, c, index, piece);
        NextIndex(m, c, parts, toolParts, index);
      } else {
        CallPieceAgrees(m, c, parts, toolParts, index, piece);
      }
    case Unshown => NextIndex(m, c, parts, toolParts, index);
  }

  lemma AddBlocksStep(turn: TurnId, entry: EntryId, parts: seq<Part>, toolParts: map<string, nat>, pieces: seq<Piece>, index: nat)
    requires index < |pieces|
    ensures H.AddBlocks(turn, entry, parts, toolParts, StoredBlocks(pieces), index)
         == H.AddBlocks(turn, entry, StoredParts(turn, entry, parts, index, pieces[index]),
                        StoredCalls(parts, toolParts, pieces[index]), StoredBlocks(pieces), index + 1)
  {
    assert StoredBlocks(pieces)[index] == StoredBlock(pieces[index]);
  }

  /** `stored` is what the rebuild makes of the pieces from `index` on. */
  lemma {:induction false} PiecesAgree(m: M.Mapper, c: Chat, turn: TurnId, entry: EntryId, parts: seq<Part>, toolParts: map<string, nat>, pieces: seq<Piece>, index: nat, stored: (seq<Part>, map<string, nat>))
    requires index <= |pieces| && c.active.Some?
    requires PartsAgree(m, c, parts, toolParts, index)
    requires forall i :: index <= i < |pieces| ==> PieceOk(pieces[i])
    requires forall i :: index <= i < |pieces| && pieces[i].Call? ==> pieces[i].callId !in toolParts
    requires forall i, j :: index <= i < j < |pieces| && pieces[i].Call? && pieces[j].Call? && pieces[i].callId != "" ==>
               pieces[i].callId != pieces[j].callId
    requires stored == H.AddBlocks(turn, entry, parts, toolParts, StoredBlocks(pieces), index)
    ensures var (m1, c1) := Feed(m, c, PiecesEvents(pieces, index));
            PartsAgree(m1, c1, stored.0, stored.1, |pieces|) && SameTurn(m, c, m1, c1)
    decreases |pieces| - index
  {
    if index < |pieces| {
      var piece := pieces[index];
      var events, later := PieceEvents(index, piece), PiecesEvents(pieces, index + 1);
      var parts1, toolParts1 := StoredParts(turn, entry, parts, index, piece), StoredCalls(parts, toolParts, piece);
      PieceAgrees(m, c, turn, entry, parts, toolParts, index, piece);
      var (m1, c1) := Feed(m, c, events);
      AddBlocksStep(turn, entry, parts, toolParts, pieces, index);
      PiecesAgree(m1, c1, turn, entry, parts1, toolParts1, pieces, index + 1, stored);
      var (m2, c2) := Feed(m1, c1, later);
      SameTurnTrans(m, c, m1, c1, m2, c2);
      FeedConcat(m, c, events, later);
    }
  }

  // ── Items ─────────────────────────────────────────────────────────────────

  /** The live outcome of a turn whose stored outcome and stream-only report are these. */
  function Told(stored: TurnResult, report: Option<string>): TurnResult {
    if report.Some? then ResultError(report) else stored
  }

  /** Between items: the two views show the same closed turns and the same open turn, up to the reports. */
  ghost predicate Agree(m: M.Mapper, c: Chat, r: H.Rebuild, seen: Seen) {
    && !m.finished
    && m.turnId == Live(m.root, m.injected)
    && m.ordinal >= -1
    && c.active.Some? && c.active.value.id == m.turnId
    && r.current.Some?
    && Matching(c.turns, r.turns, seen.reports)
    && c.active.value.message == r.current.value.message
    && c.active.value.usage == r.current.value.usage
    && m.result == Told(r.current.value.result, seen.report)
    && (seen.report.Some? ==> r.current.value.result == ResultError(None))
    && PlainParts(c.active.value.parts) == PlainParts(r.current.value.parts)
    && IdsBelow(c.active.value.parts, m.turnId, m.ordinal + 1, 0)
    && CallsMatch(r.current.value.parts, r.toolParts, m.liveTools)
    && Remembers(m, r, seen)
  }

  ghost predicate Remembers(m: M.Mapper, r: H.Rebuild, seen: Seen)
    requires r.current.Some? && CallsMatch(r.current.value.parts, r.toolParts, m.liveTools)
  {
    && (seen.answered <==> m.ordinal >= 0)
    && seen.calls == r.toolParts.Keys
    && (forall id :: id in seen.returned <==> id in r.toolParts && r.current.value.parts[r.toolParts[id]].status.Completed?)
  }

  function FoldFrom(r: H.Rebuild, entries: seq<H.Entry>): H.Rebuild
    decreases |entries|
  {
    if entries == [] then r else FoldFrom(H.Step(r, entries[0]), entries[1..])
  }

  lemma Assoc<T>(xs: seq<T>, ys: seq<T>, zs: seq<T>)
    ensures xs + ys + zs == xs + (ys + zs)
  {
  }

  lemma {:induction false} FoldFromPrefix(before: seq<H.Entry>, r: H.Rebuild, entries: seq<H.Entry>)
    requires r == H.Fold(before)
    ensures FoldFrom(r, entries) == H.Fold(before + entries)
    decreases |entries|
  {
    if entries == [] {
      assert before + entries == before;
    } else {
      H.FoldSnoc(before, entries[0]);
      Assoc(before, [entries[0]], entries[1..]);
      assert [entries[0]] + entries[1..] == entries;
      FoldFromPrefix(before + [entries[0]], H.Step(r, entries[0]), entries[1..]);
    }
  }

  lemma {:induction false} FoldFromConcat(r: H.Rebuild, xs: seq<H.Entry>, ys: seq<H.Entry>)
    ensures FoldFrom(r, xs + ys) == FoldFrom(FoldFrom(r, xs), ys)
    decreases |xs|
  {
    if xs == [] {
      assert xs + ys == ys;
    } else {
      assert (xs + ys)[1..] == xs[1..] + ys;
      FoldFromConcat(H.Step(r, xs[0]), xs[1..], ys);
    }
  }

  lemma FoldFromOne(r: H.Rebuild, entry: H.Entry)
    ensures FoldFrom(r, [entry]) == H.Step(r, entry)
  {
    assert [entry][1..] == [];
  }

  /** Reading a message's blocks appends parts, adds its calls, and leaves earlier calls where they were. */
  lemma {:induction false} AddBlocksGrows(turn: TurnId, entry: EntryId, parts: seq<Part>, toolParts: map<string, nat>, pieces: seq<Piece>, index: nat)
    requires index <= |pieces|
    requires forall i :: index <= i < |pieces| && pieces[i].Call? ==> pieces[i].callId !in toolParts
    requires forall i, j :: index <= i < j < |pieces| && pieces[i].Call? && pieces[j].Call? && pieces[i].callId != "" ==>
               pieces[i].callId != pieces[j].callId
    ensures var (parts1, toolParts1) := H.AddBlocks(turn, entry, parts, toolParts, StoredBlocks(pieces), index);
            && parts <= parts1
            && (forall id :: id in toolParts ==> id in toolParts1 && toolParts1[id] == toolParts[id])
            && (forall id :: id in toolParts1 && id !in toolParts ==>
                  id in CallIds(pieces) && |parts| <= toolParts1[id] < |parts1| && parts1[toolParts1[id]].ToolCall? && parts1[toolParts1[id]].status.Running?)
            && (forall i :: index <= i < |pieces| && pieces[i].Call? && pieces[i].callId != "" ==> pieces[i].callId in toolParts1)
    decreases |pieces| - index
  {
    if index < |pieces| {
      var piece := pieces[index];
      var parts1, toolParts1 := StoredParts(turn, entry, parts, index, piece), StoredCalls(parts, toolParts, piece);
      assert StoredBlocks(pieces)[index] == StoredBlock(piece);
      AddBlocksGrows(turn, entry, parts1, toolParts1, pieces, index + 1);
      var (parts2, toolParts2) := H.AddBlocks(turn, entry, parts1, toolParts1, StoredBlocks(pieces), index + 1);
      if piece.Call? && piece.callId != "" {
        assert parts2[|parts|] == parts1[|parts|];
      }
    }
  }

  /** Activity is shown beside the turns, not in them. */
  lemma ActivityAgrees(m: M.Mapper, c: Chat, r: H.Rebuild, seen: Seen, activity: Option<string>)
    requires Agree(m, c, r, seen)
    ensures var (m1, actions) := M.SetActivity(m, activity); Agree(m1, ReduceAll(c, actions), r, seen)
  {
    SetActivityKeeps(m, c, activity);
  }

  lemma QuietAgrees(m: M.Mapper, c: Chat, r: H.Rebuild, seen: Seen, event: M.Event)
    requires Agree(m, c, r, seen) && IsQuiet(event)
    ensures var (m1, c1) := Feed(m, c, [event]); Agree(m1, c1, r, seen)
  {
    FeedOne(m, c, event);
    match event
    case AgentStart => ActivityAgrees(m, c, r, seen, Some(M.THINKING));
    case ToolExecutionStart(activity) => ActivityAgrees(m, c, r, seen, Some(activity));
    case ToolExecutionUpdate(callId, content) =>
      if content.Some? { ReduceOne(c, ToolCallContent(m.turnId, callId, content.value)); }
    case _ =>
  }

  lemma CompactionAgrees(m: M.Mapper, c: Chat, r: H.Rebuild, seen: Seen, entry: EntryId)
    requires Agree(m, c, r, seen)
    ensures var (m1, c1) := Feed(m, c, [M.CompactionEnd(true)]);
            Agree(m1, c1, FoldFrom(r, [H.CompactionEntry(entry)]), seen)
  {
    var note := Notification(COMPACTION_NOTICE);
    FeedOne(m, c, M.CompactionEnd(true));
    ReduceOne(c, ResponsePart(m.turnId, note));
    FoldFromOne(r, H.CompactionEntry(entry));
    PlainSnoc(c.active.value.parts, note);
    PlainSnoc(r.current.value.parts, note);
    CallsMatchText(r.current.value.parts, r.toolParts, m.liveTools, note);
    var s := H.Step(r, H.CompactionEntry(entry));
    forall id | id in r.toolParts ensures s.current.value.parts[r.toolParts[id]] == r.current.value.parts[r.toolParts[id]] {}
  }

  lemma Idle(m: M.Mapper, c: Chat)
    requires !m.finished
    ensures Feed(m, c, [M.MessageStart(M.OtherRole, NO_MESSAGE), M.MessageEnd(M.OtherRole, None, None, None)]) == (m, c)
  {
    var start, end := M.MessageStart(M.OtherRole, NO_MESSAGE), M.MessageEnd(M.OtherRole, None, None, None);
    assert [start, end] == [start] + [end];
    FeedCons(m, c, start, [end]);
    FeedOne(m, c, end);
  }

  /** Completing the one running call with an id is the same as updating the part `toolParts` points at. */
  lemma CompleteAlike(live: seq<Part>, parts: seq<Part>, toolParts: map<string, nat>, tools: set<string>, callId: string, success: bool)
    requires PlainParts(live) == PlainParts(parts) && CallsMatch(parts, toolParts, tools) && callId in tools
    ensures var at := toolParts[callId];
            var parts1 := parts[at := H.CompleteCall(parts[at], success)];
            && PlainParts(SetTool(live, callId, Running, Completed(success))) == PlainParts(parts1)
            && CallsMatch(parts1, toolParts, tools - {callId})
  {
    var at := toolParts[callId];
    var live1 := SetTool(live, callId, Running, Completed(success));
    var parts1 := parts[at := H.CompleteCall(parts[at], success)];
    forall i | 0 <= i < |live| ensures PlainParts(live1)[i] == PlainParts(parts1)[i] {
      assert PlainParts(live)[i] == PlainParts(parts)[i];
      assert PlainPart(live[i]) == PlainPart(parts[i]);
    }
  }

  lemma RemembersReturn(m: M.Mapper, r: H.Rebuild, seen: Seen, entry: EntryId, callId: string, isError: bool)
    requires r.current.Some? && CallsMatch(r.current.value.parts, r.toolParts, m.liveTools) && Remembers(m, r, seen)
    requires callId in m.liveTools
    ensures var r1 := H.Step(r, H.ToolResultEntry(entry, callId, isError));
            var parts := r.current.value.parts;
            && r1.turns == r.turns && r1.toolParts == r.toolParts && r1.current.Some?
            && r1.current.value == r.current.value.(parts := parts[r.toolParts[callId] := H.CompleteCall(parts[r.toolParts[callId]], !isError)],
                                                   entryIds := r1.current.value.entryIds, anchor := r1.current.value.anchor)
            && forall id :: id in seen.returned + {callId} <==>
                 id in r1.toolParts && r1.current.value.parts[r1.toolParts[id]].status.Completed?
  {
    var parts, at := r.current.value.parts, r.toolParts[callId];
    var parts1 := parts[at := H.CompleteCall(parts[at], !isError)];
    forall id | id in r.toolParts && id != callId ensures parts1[r.toolParts[id]] == parts[r.toolParts[id]] {}
  }

  /** The live side of a call that returns. */
  lemma CallReturns(m: M.Mapper, c: Chat, callId: string, isError: bool)
    requires !m.finished && c.active.Some? && c.active.value.id == m.turnId && callId in m.liveTools
    ensures var (m1, actions) := M.OnToolEnd(m, callId, isError);
            var t := c.active.value;
            && m1 == m.(liveTools := m.liveTools - {callId})
            && ReduceAll(c, actions) == c.(active := Some(t.(parts := SetTool(t.parts, callId, Running, Completed(!isError)))))
  {
    ReduceOne(c, ToolCallComplete(m.turnId, callId, !isError));
  }

  lemma CompletedIdsBelow(live: seq<Part>, callId: string, success: bool, turn: TurnId, ordinal: int, index: int)
    requires IdsBelow(live, turn, ordinal, index)
    ensures IdsBelow(SetTool(live, callId, Running, Completed(success)), turn, ordinal, index)
  {
  }

  lemma ReturnAgrees(m: M.Mapper, c: Chat, r: H.Rebuild, seen: Seen, entry: EntryId, callId: string, isError: bool)
    requires Agree(m, c, r, seen) && callId in seen.calls && callId !in seen.returned
    ensures var (m1, actions) := M.OnToolEnd(m, callId, isError);
            Agree(m1, ReduceAll(c, actions), H.Step(r, H.ToolResultEntry(entry, callId, isError)), seen.(returned := seen.returned + {callId}))
  {
    assert callId in m.liveTools;
    CallReturns(m, c, callId, isError);
    CompleteAlike(c.active.value.parts, r.current.value.parts, r.toolParts, m.liveTools, callId, !isError);
    CompletedIdsBelow(c.active.value.parts, callId, !isError, m.turnId, m.ordinal + 1, 0);
    RemembersReturn(m, r, seen, entry, callId, isError);
  }

  lemma ToolEndFed(m: M.Mapper, c: Chat, callId: string, isError: bool)
    requires !m.finished
    ensures var (m1, ended) := M.OnToolEnd(m, callId, isError);
            var (m2, thinking) := M.SetActivity(m1, Some(M.THINKING));
            Feed(m, c, [M.ToolExecutionEnd(callId, isError)]) == (m2, ReduceAll(ReduceAll(c, ended), thinking))
  {
    FeedOne(m, c, M.ToolExecutionEnd(callId, isError));
    var (m1, ended) := M.OnToolEnd(m, callId, isError);
    ReduceAllConcat(c, ended, M.SetActivity(m1, Some(M.THINKING)).1);
  }

  lemma ReturnedCall(m: M.Mapper, c: Chat, r: H.Rebuild, seen: Seen, entry: EntryId, callId: string, isError: bool)
    requires Agree(m, c, r, seen) && callId in seen.calls && callId !in seen.returned
    ensures var (m1, c1) := Feed(m, c, [M.ToolExecutionEnd(callId, isError)]);
            var r1 := FoldFrom(r, [H.ToolResultEntry(entry, callId, isError)]);
            Agree(m1, c1, r1, seen.(returned := seen.returned + {callId}))
  {
    FoldFromOne(r, H.ToolResultEntry(entry, callId, isError));
    ToolEndFed(m, c, callId, isError);
    ReturnAgrees(m, c, r, seen, entry, callId, isError);
    var (m1, ended) := M.OnToolEnd(m, callId, isError);
    var r1 := H.Step(r, H.ToolResultEntry(entry, callId, isError));
    ActivityAgrees(m1, ReduceAll(c, ended), r1, seen.(returned := seen.returned + {callId}), Some(M.THINKING));
  }

  /** A result for a call nobody made completes nothing on either side. */
  lemma UnknownReturn(m: M.Mapper, c: Chat, r: H.Rebuild, seen: Seen, entry: EntryId, callId: string, isError: bool)
    requires Agree(m, c, r, seen) && callId !in seen.calls
    ensures M.OnToolEnd(m, callId, isError) == (m, [])
    ensures Agree(m, c, H.Step(r, H.ToolResultEntry(entry, callId, isError)), seen)
  {
    var r1 := H.Step(r, H.ToolResultEntry(entry, callId, isError));
    assert r1.turns == r.turns && r1.toolParts == r.toolParts && r1.current.value.parts == r.current.value.parts;
  }

  lemma UnknownResult(m: M.Mapper, c: Chat, r: H.Rebuild, seen: Seen, entry: EntryId, callId: string, isError: bool)
    requires Agree(m, c, r, seen) && callId !in seen.calls
    ensures var (m1, c1) := Feed(m, c, [M.ToolExecutionEnd(callId, isError)]);
            Agree(m1, c1, FoldFrom(r, [H.ToolResultEntry(entry, callId, isError)]), seen)
  {
    FoldFromOne(r, H.ToolResultEntry(entry, callId, isError));
    ToolEndFed(m, c, callId, isError);
    UnknownReturn(m, c, r, seen, entry, callId, isError);
    ActivityAgrees(m, c, H.Step(r, H.ToolResultEntry(entry, callId, isError)), seen, Some(M.THINKING));
  }

  lemma ToolResultAgrees(m: M.Mapper, c: Chat, r: H.Rebuild, seen: Seen, item: Item)
    requires Agree(m, c, r, seen) && ItemOk(seen, item) && item.ToolResult?
    ensures var (m1, c1) := Feed(m, c, ItemEvents(item));
            Agree(m1, c1, FoldFrom(r, ItemEntries(item)), SeenAfter(seen, item))
  {
    var end := M.ToolExecutionEnd(item.callId, item.isError);
    var idle := [M.MessageStart(M.OtherRole, NO_MESSAGE), M.MessageEnd(M.OtherRole, None, None, None)];
    assert ItemEvents(item) == [end] + idle;
    FeedConcat(m, c, [end], idle);
    if item.callId in seen.calls {
      ReturnedCall(m, c, r, seen, item.entry, item.callId, item.isError);
    } else {
      UnknownResult(m, c, r, seen, item.entry, item.callId, item.isError);
    }
    var (m1, c1) := Feed(m, c, [end]);
    Idle(m1, c1);
  }

  lemma MessageBegins(m: M.Mapper, c: Chat, r: H.Rebuild, seen: Seen)
    requires Agree(m, c, r, seen)
    ensures var (m1, c1) := Feed(m, c, [M.MessageStart(M.AssistantRole, NO_MESSAGE)]);
            && PartsAgree(m1, c1, r.current.value.parts, r.toolParts, 0)
            && c1 == c && m1 == m.(ordinal := m.ordinal + 1, parts := map[], toolsByIndex := map[], attemptError := None)
  {
    FeedOne(m, c, M.MessageStart(M.AssistantRole, NO_MESSAGE));
  }

  lemma StreamErrorFed(m: M.Mapper, c: Chat, streamError: Option<M.Delta>)
    requires !m.finished && m.attemptError.None? && (streamError.Some? ==> streamError.value.StreamError?)
    ensures var (m1, c1) := Feed(m, c, if streamError.Some? then [M.MessageUpdate(streamError.value)] else []);
            && c1 == c && m1 == m.(result := m1.result, attemptError := m1.attemptError)
            && m1.attemptError == if streamError.Some? then streamError.value.message else None
  {
    if streamError.Some? { FeedOne(m, c, M.MessageUpdate(streamError.value)); }
  }

  lemma EndFed(m: M.Mapper, c: Chat, stop: StopReason, error: Option<string>, usage: Option<Usage>)
    requires !m.finished && c.active.Some? && c.active.value.id == m.turnId
    ensures Feed(m, c, [M.MessageEnd(M.AssistantRole, Some(stop), error, usage)])
         == (m.(result := M.ResultAfter(m, Some(stop), error), attemptError := None),
             c.(active := Some(c.active.value.(usage := if usage.Some? then usage else c.active.value.usage))))
  {
    FeedOne(m, c, M.MessageEnd(M.AssistantRole, Some(stop), error, usage));
    if usage.Some? { ReduceOne(c, UsageReported(m.turnId, usage.value)); }
  }

  function EndEvents(streamError: Option<M.Delta>, stop: StopReason, error: Option<string>, usage: Option<Usage>): seq<M.Event> {
    (if streamError.Some? then [M.MessageUpdate(streamError.value)] else []) + [M.MessageEnd(M.AssistantRole, Some(stop), error, usage)]
  }

  /** The end of an assistant message sets its result and usage on both sides. */
  lemma MessageEnds(m: M.Mapper, c: Chat, stored: TurnResult, streamError: Option<M.Delta>, stop: StopReason, error: Option<string>, usage: Option<Usage>)
    requires !m.finished && c.active.Some? && c.active.value.id == m.turnId && m.attemptError.None?
    requires !stop.StopPending? && (streamError.Some? ==> streamError.value.StreamError?)
    ensures Feed(m, c, EndEvents(streamError, stop, error, usage))
            == (m.(result := Told(H.ResultAfter(stored, Some(stop), error), OnlyStreamed(stop, error, streamError)), attemptError := None),
                c.(active := Some(c.active.value.(usage := if usage.Some? then usage else c.active.value.usage))))
  {
    var failing := if streamError.Some? then [M.MessageUpdate(streamError.value)] else [];
    FeedConcat(m, c, failing, [M.MessageEnd(M.AssistantRole, Some(stop), error, usage)]);
    StreamErrorFed(m, c, streamError);
    var (m1, c1) := Feed(m, c, failing);
    EndFed(m1, c, stop, error, usage);
    assert M.ResultAfter(m1, Some(stop), error) == Told(H.ResultAfter(stored, Some(stop), error), OnlyStreamed(stop, error, streamError));
  }

  lemma AssistantParts(m: M.Mapper, c: Chat, r: H.Rebuild, seen: Seen, item: Item)
    requires Agree(m, c, r, seen) && ItemOk(seen, item) && item.Assistant?
    ensures var (m0, c0) := Feed(m, c, [M.MessageStart(M.AssistantRole, NO_MESSAGE)]);
            var (m1, c1) := Feed(m0, c0, PiecesEvents(item.pieces, 0));
            var cur := r.current.value;
            var (parts, toolParts) := H.AddBlocks(cur.id, item.entry, cur.parts, r.toolParts, StoredBlocks(item.pieces), 0);
            && PartsAgree(m1, c1, parts, toolParts, |item.pieces|)
            && SameTurn(m.(ordinal := m.ordinal + 1, attemptError := None), c, m1, c1)
  {
    MessageBegins(m, c, r, seen);
    var (m0, c0) := Feed(m, c, [M.MessageStart(M.AssistantRole, NO_MESSAGE)]);
    var cur := r.current.value;
    PiecesAgree(m0, c0, cur.id, item.entry, cur.parts, r.toolParts, item.pieces, 0,
                H.AddBlocks(cur.id, item.entry, cur.parts, r.toolParts, StoredBlocks(item.pieces), 0));
  }

  lemma AssistantRemembers(r: H.Rebuild, seen: Seen, item: Item, m: M.Mapper, m1: M.Mapper)
    requires ItemOk(seen, item) && item.Assistant? && r.current.Some?
    requires CallsMatch(r.current.value.parts, r.toolParts, m.liveTools) && Remembers(m, r, seen)
    requires var s := H.Step(r, ItemEntries(item)[0]); CallsMatch(s.current.value.parts, s.toolParts, m1.liveTools)
    requires m1.ordinal >= 0
    ensures Remembers(m1, H.Step(r, ItemEntries(item)[0]), SeenAfter(seen, item))
  {
    var cur := r.current.value;
    AddBlocksGrows(cur.id, item.entry, cur.parts, r.toolParts, item.pieces, 0);
    var s := H.Step(r, ItemEntries(item)[0]);
    var parts := s.current.value.parts;
    assert s.toolParts.Keys == r.toolParts.Keys + CallIds(item.pieces);
    forall id | id in r.toolParts ensures parts[s.toolParts[id]] == cur.parts[r.toolParts[id]] {}
  }

  /** The stored side of an assistant message. */
  lemma AssistantStored(r: H.Rebuild, item: Item)
    requires item.Assistant? && r.current.Some?
    ensures var s := H.Step(r, ItemEntries(item)[0]);
            var cur := r.current.value;
            var (parts, toolParts) := H.AddBlocks(cur.id, item.entry, cur.parts, r.toolParts, StoredBlocks(item.pieces), 0);
            && s.turns == r.turns && s.toolParts == toolParts && s.current.Some?
            && s.current.value.message == cur.message && s.current.value.parts == parts
            && s.current.value.usage == (if item.usage.Some? then item.usage else cur.usage)
            && s.current.value.result == H.ResultAfter(cur.result, Some(item.stop), item.error)
  {
  }

  /** After its pieces, an assistant message ends alike on both sides. */
  lemma AssistantEnds(m: M.Mapper, c: Chat, r: H.Rebuild, seen: Seen, item: Item, m1: M.Mapper, c1: Chat)
    requires Agree(m, c, r, seen) && ItemOk(seen, item) && item.Assistant?
    requires var s := H.Step(r, ItemEntries(item)[0]); PartsAgree(m1, c1, s.current.value.parts, s.toolParts, |item.pieces|)
    requires SameTurn(m.(ordinal := m.ordinal + 1, attemptError := None), c, m1, c1)
    ensures var (m2, c2) := Feed(m1, c1, EndEvents(item.streamError, item.stop, item.error, item.usage));
            Agree(m2, c2, H.Step(r, ItemEntries(item)[0]), SeenAfter(seen, item))
  {
    MessageEnds(m1, c1, r.current.value.result, item.streamError, item.stop, item.error, item.usage);
    var (m2, c2) := Feed(m1, c1, EndEvents(item.streamError, item.stop, item.error, item.usage));
    AssistantStored(r, item);
    AssistantRemembers(r, seen, item, m, m2);
  }

  lemma AssistantFed(m: M.Mapper, c: Chat, item: Item)
    requires item.Assistant?
    ensures var (m0, c0) := Feed(m, c, [M.MessageStart(M.AssistantRole, NO_MESSAGE)]);
            var (m1, c1) := Feed(m0, c0, PiecesEvents(item.pieces, 0));
            Feed(m, c, ItemEvents(item)) == Feed(m1, c1, EndEvents(item.streamError, item.stop, item.error, item.usage))
  {
    var start, body := [M.MessageStart(M.AssistantRole, NO_MESSAGE)], PiecesEvents(item.pieces, 0);
    var ending := EndEvents(item.streamError, item.stop, item.error, item.usage);
    FeedConcat(m, c, start, body + ending);
    var (m0, c0) := Feed(m, c, start);
    FeedConcat(m0, c0, body, ending);
  }

  lemma AssistantAgrees(m: M.Mapper, c: Chat, r: H.Rebuild, seen: Seen, item: Item)
    requires Agree(m, c, r, seen) && ItemOk(seen, item) && item.Assistant?
    ensures var (m1, c1) := Feed(m, c, ItemEvents(item));
            Agree(m1, c1, FoldFrom(r, ItemEntries(item)), SeenAfter(seen, item))
  {
    AssistantParts(m, c, r, seen, item);
    var (m0, c0) := Feed(m, c, [M.MessageStart(M.AssistantRole, NO_MESSAGE)]);
    var (m1, c1) := Feed(m0, c0, PiecesEvents(item.pieces, 0));
    AssistantFed(m, c, item);
    AssistantStored(r, item);
    AssistantEnds(m, c, r, seen, item, m1, c1);
    FoldFromOne(r, ItemEntries(item)[0]);
  }

  /** Force-cancelling and settling do the same to agreeing parts. */
  lemma SettledAlike(live: seq<Part>, parts: seq<Part>, toolParts: map<string, nat>, tools: set<string>)
    requires PlainParts(live) == PlainParts(parts) && CallsMatch(parts, toolParts, tools)
    ensures PlainParts(CancelUnfinished(live)) == PlainParts(H.SettleToolCalls(parts))
  {
    forall i | 0 <= i < |live| ensures PlainParts(CancelUnfinished(live))[i] == PlainParts(H.SettleToolCalls(parts))[i] {
      assert PlainParts(live)[i] == PlainParts(parts)[i];
    }
  }

  lemma MatchingSnoc(live: seq<Turn>, rebuilt: seq<Turn>, reports: seq<Option<string>>, l: Turn, r: Turn, report: Option<string>)
    requires Matching(live, rebuilt, reports) && SameBut(Visible(l), Visible(r), report)
    ensures Matching(live + [l], rebuilt + [r], reports + [report])
  {
  }

  /** An open turn closes alike on both sides, up to what only the stream told. */
  lemma ClosedTurnAlike(m: M.Mapper, c: Chat, r: H.Rebuild, seen: Seen)
    requires Agree(m, c, r, seen)
    ensures var c1 := Reduce(c, M.TerminalAction(m));
            && c1.active.None? && |c1.turns| == |c.turns| + 1 && c1.turns[..|c.turns|] == c.turns
            && SameBut(Visible(c1.turns[|c.turns|]), Visible(H.Closed(r.current.value)), seen.report)
  {
    var t, cur := c.active.value, r.current.value;
    SettledAlike(t.parts, cur.parts, r.toolParts, m.liveTools);
    var lively, settled := CancelUnfinished(t.parts), H.SettleToolCalls(cur.parts);
    if cur.result.ResultError? {
      PlainSnoc(settled, ErrorPart(H.ErrorText(cur.result.message)));
      PlainSnoc(lively, ErrorPart(H.ErrorText(m.result.message)));
    } else {
      assert lively + [] == lively;
    }
  }

  /** Closing the open turn shows the same turns on both sides, up to the reports. */
  lemma ClosedAlike(m: M.Mapper, c: Chat, r: H.Rebuild, seen: Seen)
    requires Agree(m, c, r, seen)
    ensures var c1 := Reduce(c, M.TerminalAction(m));
            c1.active.None? && Matching(c1.turns, H.CloseTurn(r).turns, seen.reports + [seen.report])
  {
    ClosedTurnAlike(m, c, r, seen);
    var c1 := Reduce(c, M.TerminalAction(m));
    var turn := c1.turns[|c.turns|];
    assert c1.turns == c.turns + [turn];
    MatchingSnoc(c.turns, r.turns, seen.reports, turn, H.Closed(r.current.value), seen.report);
  }

  /** An injected message closes the open turn and opens one for itself. */
  lemma InjectedFed(m: M.Mapper, c: Chat, message: Message)
    requires !m.finished && m.ordinal >= 0
    ensures var (m1, c1) := Feed(m, c, [M.MessageStart(M.UserRole, message), M.MessageEnd(M.UserRole, None, None, None)]);
            && m1 == M.OnInjectedMessage(m, message).0
            && c1 == Reduce(Reduce(c, M.TerminalAction(m)), TurnStarted(Live(m.root, m.injected + 1), message, None))
  {
    var start, end := M.MessageStart(M.UserRole, message), M.MessageEnd(M.UserRole, None, None, None);
    assert [start, end] == [start] + [end];
    FeedCons(m, c, start, [end]);
    ReduceTwo(c, M.TerminalAction(m), TurnStarted(Live(m.root, m.injected + 1), message, None));
    var (m1, actions) := M.Handle(m, start);
    FeedOne(m1, ReduceAll(c, actions), end);
  }

  lemma UserAgrees(m: M.Mapper, c: Chat, r: H.Rebuild, seen: Seen, item: Item)
    requires Agree(m, c, r, seen) && ItemOk(seen, item) && item.User?
    ensures var (m1, c1) := Feed(m, c, ItemEvents(item));
            Agree(m1, c1, FoldFrom(r, ItemEntries(item)), SeenAfter(seen, item))
  {
    InjectedFed(m, c, item.message);
    FoldFromOne(r, H.UserEntry(item.entry, item.message));
    ClosedAlike(m, c, r, seen);
    assert H.Step(r, H.UserEntry(item.entry, item.message)).turns == H.CloseTurn(r).turns;
  }

  lemma ItemAgrees(m: M.Mapper, c: Chat, r: H.Rebuild, seen: Seen, item: Item)
    requires Agree(m, c, r, seen) && ItemOk(seen, item)
    ensures var (m1, c1) := Feed(m, c, ItemEvents(item));
            Agree(m1, c1, FoldFrom(r, ItemEntries(item)), SeenAfter(seen, item))
  {
    match item
    case User(_, _) => UserAgrees(m, c, r, seen, item);
    case Assistant(_, _, _, _, _, _) => AssistantAgrees(m, c, r, seen, item);
    case ToolResult(_, _, _) => ToolResultAgrees(m, c, r, seen, item);
    case Compaction(entry) => CompactionAgrees(m, c, r, seen, entry);
    case ContextEdit(entry, target) => FoldFromOne(r, H.ContextEditEntry(entry, target));
    case Recorded(entry) => FoldFromOne(r, H.OtherEntry(entry));
    case Quiet(event) => QuietAgrees(m, c, r, seen, event);
  }

  lemma {:induction false} ItemsAgree(m: M.Mapper, c: Chat, r: H.Rebuild, seen: Seen, items: seq<Item>)
    requires Agree(m, c, r, seen) && ItemsOk(seen, items)
    ensures var (m1, c1) := Feed(m, c, Events(items));
            Agree(m1, c1, FoldFrom(r, Entries(items)), SeenAll(seen, items))
    decreases |items|
  {
    if items != [] {
      var item := items[0];
      ItemAgrees(m, c, r, seen, item);
      var (m1, c1) := Feed(m, c, ItemEvents(item));
      var r1 := FoldFrom(r, ItemEntries(item));
      ItemsAgree(m1, c1, r1, SeenAfter(seen, item), items[1..]);
      FeedConcat(m, c, ItemEvents(item), Events(items[1..]));
      FoldFromConcat(r, ItemEntries(item), Entries(items[1..]));
    }
  }

  // ── Runs and conversations ────────────────────────────────────────────────

  /** One prompt as the host lives it: it opens the turn, maps pi's events, and finishes when the prompt settles. */
  function LiveRun(c: Chat, root: string, items: seq<Item>): Chat
    requires RunOk(items)
  {
    var begun := Reduce(c, TurnStarted(Live(root, 0), items[0].message, None));
    var (m, c1) := Feed(M.NewMapper(root), begun, Events(items));
    ReduceAll(c1, M.Finish(m, None).1)
  }

  lemma PromptHandled(m: M.Mapper, c: Chat, prompt: Item)
    requires prompt.User? && m.ordinal < 0 && !m.finished
    ensures Feed(m, c, ItemEvents(prompt)) == (m, c)
  {
    var start, end := M.MessageStart(M.UserRole, prompt.message), M.MessageEnd(M.UserRole, None, None, None);
    assert ItemEvents(prompt) == [start] + [end];
    FeedCons(m, c, start, [end]);
    FeedOne(m, c, end);
  }

  lemma PromptAgrees(c: Chat, r: H.Rebuild, reports: seq<Option<string>>, root: string, prompt: Item)
    requires prompt.User?
    requires r.current.None? ==> r.toolParts == map[]
    requires Matching(c.turns, H.CloseTurn(r).turns, reports)
    ensures var begun := Reduce(c, TurnStarted(Live(root, 0), prompt.message, None));
            var (m, c1) := Feed(M.NewMapper(root), begun, ItemEvents(prompt));
            Agree(m, c1, FoldFrom(r, ItemEntries(prompt)), Begun(reports))
  {
    var begun := Reduce(c, TurnStarted(Live(root, 0), prompt.message, None));
    PromptHandled(M.NewMapper(root), begun, prompt);
    FoldFromOne(r, H.UserEntry(prompt.entry, prompt.message));
    assert H.CloseTurn(H.NoteFirstUser(r, prompt.entry)).turns == H.CloseTurn(r).turns;
  }

  lemma FinishAgrees(m: M.Mapper, c: Chat, r: H.Rebuild, seen: Seen)
    requires Agree(m, c, r, seen)
    ensures var c1 := ReduceAll(c, M.Finish(m, None).1);
            c1.active.None? && Matching(c1.turns, H.CloseTurn(r).turns, seen.reports + [seen.report])
  {
    var m1 := m.(finished := true);
    var (m2, idle) := M.SetActivity(m1, None);
    var closing := M.TerminalAction(m);
    SetActivityKeeps(m1, c, None);
    ReduceAllConcat(c, idle, [closing]);
    ReduceOne(ReduceAll(c, idle), closing);
    ClosedAlike(m, c, r, seen);
    assert M.TerminalAction(m2) == closing;
    assert M.Finish(m, None).1 == idle + [closing];
    assert Reduce(ReduceAll(c, idle), closing).turns == Reduce(c, closing).turns;
  }

  /** The reports of the turns that `items` goes through, where `report` is that of the open one so far. */
  function Reports(report: Option<string>, items: seq<Item>): (r: seq<Option<string>>)
    ensures r != []
    decreases |items|
  {
    if items == [] then [report]
    else match items[0]
      case User(_, _) => [report] + Reports(None, items[1..])
      case Assistant(_, _, _, stop, error, streamError) => Reports(OnlyStreamed(stop, error, streamError), items[1..])
      case _ => Reports(report, items[1..])
  }

  /** The reports of a run's turns; the prompt opens the first. */
  function RunReports(items: seq<Item>): seq<Option<string>>
    requires RunOk(items)
  {
    Reports(None, items[1..])
  }

  /** The reports carried along are those of the items, and nothing else about a run depends on them. */
  lemma {:induction false} ReportsCarried(seen: Seen, items: seq<Item>)
    ensures var s := SeenAll(seen, items); s.reports + [s.report] == seen.reports + Reports(seen.report, items)
    decreases |items|
  {
    if items != [] {
      ReportsCarried(SeenAfter(seen, items[0]), items[1..]);
      if items[0].User? { Assoc(seen.reports, [seen.report], Reports(None, items[1..])); }
    }
  }

  lemma {:induction false} EarlierReportsDoNotMatter(seen: Seen, reports: seq<Option<string>>, items: seq<Item>)
    requires ItemsOk(seen, items)
    ensures ItemsOk(seen.(reports := reports), items)
    decreases |items|
  {
    if items != [] {
      EarlierReportsDoNotMatter(SeenAfter(seen, items[0]), SeenAfter(seen.(reports := reports), items[0]).reports, items[1..]);
    }
  }

  /** Everything of a run up to the moment its prompt settles. */
  lemma RunBodyAgrees(c: Chat, r: H.Rebuild, reports: seq<Option<string>>, root: string, items: seq<Item>)
    requires RunOk(items)
    requires r.current.None? ==> r.toolParts == map[]
    requires Matching(c.turns, H.CloseTurn(r).turns, reports)
    ensures var begun := Reduce(c, TurnStarted(Live(root, 0), items[0].message, None));
            var (m, c1) := Feed(M.NewMapper(root), begun, Events(items));
            Agree(m, c1, FoldFrom(r, Entries(items)), SeenAll(Begun(reports), items[1..]))
  {
    var begun := Reduce(c, TurnStarted(Live(root, 0), items[0].message, None));
    PromptAgrees(c, r, reports, root, items[0]);
    var (m0, c0) := Feed(M.NewMapper(root), begun, ItemEvents(items[0]));
    FeedConcat(M.NewMapper(root), begun, ItemEvents(items[0]), Events(items[1..]));
    FoldFromConcat(r, ItemEntries(items[0]), Entries(items[1..]));
    EarlierReportsDoNotMatter(Begun([]), reports, items[1..]);
    ItemsAgree(m0, c0, FoldFrom(r, ItemEntries(items[0])), Begun(reports), items[1..]);
  }

  lemma RunAgrees(c: Chat, r: H.Rebuild, reports: seq<Option<string>>, root: string, items: seq<Item>)
    requires RunOk(items)
    requires r.current.None? ==> r.toolParts == map[]
    requires Matching(c.turns, H.CloseTurn(r).turns, reports)
    ensures Matching(LiveRun(c, root, items).turns, H.CloseTurn(FoldFrom(r, Entries(items))).turns, reports + RunReports(items))
    ensures LiveRun(c, root, items).active.None?
  {
    RunBodyAgrees(c, r, reports, root, items);
    var begun := Reduce(c, TurnStarted(Live(root, 0), items[0].message, None));
    var (m, c1) := Feed(M.NewMapper(root), begun, Events(items));
    FinishAgrees(m, c1, FoldFrom(r, Entries(items)), SeenAll(Begun(reports), items[1..]));
    ReportsCarried(Begun(reports), items[1..]);
  }

  lemma {:induction false} IdleHasNoCalls(entries: seq<H.Entry>)
    ensures H.Fold(entries).current.None? ==> H.Fold(entries).toolParts == map[]
  {
    if entries != [] {
      IdleHasNoCalls(entries[..|entries| - 1]);
    }
  }

  /** A conversation: one run after another, each with its own client-chosen turn id. */
  datatype Prompted = Prompted(root: string, items: seq<Item>)

  function LiveConversation(c: Chat, runs: seq<Prompted>): Chat
    requires forall i :: 0 <= i < |runs| ==> RunOk(runs[i].items)
    decreases |runs|
  {
    if runs == [] then c else LiveConversation(LiveRun(c, runs[0].root, runs[0].items), runs[1..])
  }

  function StoredConversation(runs: seq<Prompted>): seq<H.Entry> {
    if runs == [] then [] else Entries(runs[0].items) + StoredConversation(runs[1..])
  }

  /** The reports of every turn of a conversation. */
  function ConversationReports(runs: seq<Prompted>): seq<Option<string>>
    requires forall i :: 0 <= i < |runs| ==> RunOk(runs[i].items)
  {
    if runs == [] then [] else RunReports(runs[0].items) + ConversationReports(runs[1..])
  }

  lemma RunExtends(c: Chat, before: seq<H.Entry>, reports: seq<Option<string>>, run: Prompted)
    requires RunOk(run.items)
    requires Matching(c.turns, H.History(before).turns, reports)
    ensures Matching(LiveRun(c, run.root, run.items).turns, H.History(before + Entries(run.items)).turns,
                     reports + RunReports(run.items))
  {
    IdleHasNoCalls(before);
    RunAgrees(c, H.Fold(before), reports, run.root, run.items);
    FoldFromPrefix(before, H.Fold(before), Entries(run.items));
  }

  lemma {:induction false} ConversationAgrees(c: Chat, before: seq<H.Entry>, reports: seq<Option<string>>, runs: seq<Prompted>, all: seq<H.Entry>)
    requires forall i :: 0 <= i < |runs| ==> RunOk(runs[i].items)
    requires Matching(c.turns, H.History(before).turns, reports)
    requires all == before + StoredConversation(runs)
    ensures Matching(LiveConversation(c, runs).turns, H.History(all).turns, reports + ConversationReports(runs))
    decreases |runs|
  {
    if runs == [] {
      assert all == before && reports + [] == reports;
    } else {
      var run := runs[0];
      RunExtends(c, before, reports, run);
      Assoc(before, Entries(run.items), StoredConversation(runs[1..]));
      Assoc(reports, RunReports(run.items), ConversationReports(runs[1..]));
      ConversationAgrees(LiveRun(c, run.root, run.items), before + Entries(run.items), reports + RunReports(run.items), runs[1..], all);
    }
  }

  const EMPTY_CHAT := Chat([], None, None, [], None)

  lemma NothingShown()
    ensures EMPTY_CHAT.turns == H.History([]).turns == []
  {
  }

  /** Live and rebuilt views agree: a chat that lived through these runs shows, turn by turn, the same messages,
      parts, usage and outcomes as the history rebuilt from the entries those runs persisted. Only the words of an
      error can differ, and only in a turn that ends with a failure the stored message says nothing about. */
  lemma {:induction false} LiveAgreesWithRebuilt(runs: seq<Prompted>)
    requires forall i :: 0 <= i < |runs| ==> RunOk(runs[i].items)
    ensures Matching(LiveConversation(EMPTY_CHAT, runs).turns, H.History(StoredConversation(runs)).turns, ConversationReports(runs))
  {
    NothingShown();
    var all := StoredConversation(runs);
    assert [] + all == all && [] + ConversationReports(runs) == ConversationReports(runs);
    ConversationAgrees(EMPTY_CHAT, [], [], runs, all);
  }
}
