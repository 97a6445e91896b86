/**
 Rebuilds chat history from a pi session file: a fold from entries to turns, and for each
 turn the entry that truncation may navigate to.
 */
module HistorySpec {
  import opened Protocol

  datatype Block = TextBlock(text: string) | ThinkingBlock(text: string) | ToolBlock(callId: string, name: Option<string>) | OtherBlock

  datatype Entry =
    | UserEntry(id: EntryId, message: Message)
    | AssistantEntry(id: EntryId, blocks: seq<Block>, usage: Option<Usage>, stop: Option<StopReason>, error: Option<string>)
    | ToolResultEntry(id: EntryId, callId: string, isError: bool)
    | BashEntry(id: EntryId, command: string, output: string)
    | CompactionEntry(id: EntryId)
    | ContextEditEntry(id: EntryId, target: EntryId)
    | OtherEntry(id: EntryId) // model and label changes, unknown message roles

  /** A turn under construction. */
  datatype Pending = Pending(
    id: TurnId,
    message: Message,
    parts: seq<Part>,
    entryIds: set<EntryId>,
    usage: Option<Usage>,
    result: TurnResult,
    anchor: Option<EntryId>)

  /** `None` is the key of the whole-conversation anchor. */
  type Anchors = map<Option<TurnId>, EntryId>

  datatype Rebuild = Rebuild(turns: seq<Turn>, anchors: Anchors, current: Option<Pending>, toolParts: map<string, nat>)

  const EMPTY := Rebuild([], map[], None, map[])

  /** A completed turn cannot leave a tool call running. */
  function SettleToolCalls(parts: seq<Part>): (r: seq<Part>)
    ensures |r| == |parts|
  {
    seq(|parts|, i requires 0 <= i < |parts| =>
      if parts[i].ToolCall? && parts[i].status.Running? then parts[i].(status := Cancelled) else parts[i])
  }

  /** The text shown for a failure. */
  function ErrorText(message: Option<string>): string {
    if message.Some? then message.value else RUN_FAILED
  }

  function Closed(c: Pending): Turn {
    match c.result
    case ResultError(message) => Turn(c.id, c.message, SettleToolCalls(c.parts) + [ErrorPart(ErrorText(message))], c.usage, ErrorTurn)
    case ResultCancelled => Turn(c.id, c.message, SettleToolCalls(c.parts), c.usage, CancelledTurn)
    case ResultComplete => Turn(c.id, c.message, SettleToolCalls(c.parts), c.usage, CompleteTurn)
  }

  function CloseTurn(r: Rebuild): Rebuild {
    if r.current.None? then r
    else
      var c := r.current.value;
      Rebuild(r.turns + [Closed(c)],
              if c.anchor.Some? then r.anchors[Some(c.id) := c.anchor.value] else r.anchors,
              None, map[])
  }

  function Opened(id: EntryId, message: Message): Pending {
    Pending(Stored(id), message, [], {id}, None, ResultComplete, None)
  }

  function OpenTurn(r: Rebuild, id: EntryId, message: Message): Rebuild {
    CloseTurn(r).(current := Some(Opened(id, message)))
  }

  function EnsureTurn(r: Rebuild, id: EntryId, text: string): (s: Rebuild)
    ensures s.current.Some?
  {
    if r.current.Some? then r else OpenTurn(r, id, Message(text, FromUser))
  }

  function NameOf(name: Option<string>): string {
    if name.Some? then name.value else "tool"
  }

  /** Appends the blocks of one assistant message from block `index` on, noting where each call's part is. */
  function AddBlocks(turn: TurnId, entry: EntryId, parts: seq<Part>, toolParts: map<string, nat>, blocks: seq<Block>, index: nat)
    : (seq<Part>, map<string, nat>)
    requires index <= |blocks|
    decreases |blocks| - index
  {
    if index == |blocks| then (parts, toolParts)
    else
      var id := StoredPart(turn, entry, index);
      match blocks[index]
      case TextBlock(text) =>
        AddBlocks(turn, entry, if text != "" then parts + [Markdown(id, text)] else parts, toolParts, blocks, index + 1)
      case ThinkingBlock(text) =>
        AddBlocks(turn, entry, if text != "" then parts + [Reasoning(id, text)] else parts, toolParts, blocks, index + 1)
      case ToolBlock(callId, name) =>
        if callId != "" then
          AddBlocks(turn, entry, parts + [ToolCall(callId, NameOf(name), Running)], toolParts[callId := |parts|], blocks, index + 1)
        else AddBlocks(turn, entry, parts, toolParts, blocks, index + 1)
      case OtherBlock => AddBlocks(turn, entry, parts, toolParts, blocks, index + 1)
  }

  function ResultAfter(previous: TurnResult, stop: Option<StopReason>, error: Option<string>): TurnResult {
    match stop
    case Some(StopAborted) => ResultCancelled
    case Some(StopError) => ResultError(error)
    case Some(StopOther) => ResultComplete
    case _ => previous
  }

  function AddAssistant(r: Rebuild, e: Entry): Rebuild
    requires e.AssistantEntry? && r.current.Some?
  {
    var c := r.current.value;
    var (parts, toolParts) := AddBlocks(c.id, e.id, c.parts, r.toolParts, e.blocks, 0);
    r.(toolParts := toolParts,
       current := Some(Pending(c.id, c.message, parts, c.entryIds + {e.id},
                               if e.usage.Some? then e.usage else c.usage,
                               ResultAfter(c.result, e.stop, e.error), Some(e.id))))
  }

  function CompleteCall(part: Part, success: bool): Part {
    if part.ToolCall? then part.(status := Completed(success)) else part
  }

  function AddToolResult(r: Rebuild, e: Entry): Rebuild
    requires e.ToolResultEntry? && r.current.Some?
  {
    var c := r.current.value;
    var parts :=
      if e.callId != "" && e.callId in r.toolParts && r.toolParts[e.callId] < |c.parts| then
        var at := r.toolParts[e.callId];
        c.parts[at := CompleteCall(c.parts[at], !e.isError)]
      else c.parts;
    r.(current := Some(c.(parts := parts, entryIds := c.entryIds + {e.id}, anchor := Some(e.id))))
  }

  function BashText(command: string, output: string): string {
    "`" + command + "`\n\n" + output
  }

  function AddBash(r: Rebuild, e: Entry): Rebuild
    requires e.BashEntry? && r.current.Some?
  {
    var c := r.current.value;
    r.(current := Some(c.(parts := c.parts + [Notification(BashText(e.command, e.output))],
                          entryIds := c.entryIds + {e.id}, anchor := Some(e.id))))
  }

  function CompactionTurn(id: EntryId): Turn {
    Turn(StoredCompaction(id), Message(COMPACTION_NOTICE, FromSystem), [], None, CompleteTurn)
  }

  function AddCompaction(r: Rebuild, id: EntryId): Rebuild {
    if r.current.Some? then
      var c := r.current.value;
      r.(current := Some(c.(parts := c.parts + [Notification(COMPACTION_NOTICE)], anchor := Some(id))))
    else
      r.(turns := r.turns + [CompactionTurn(id)], anchors := r.anchors[Some(StoredCompaction(id)) := id])
  }

  function NoteFirstUser(r: Rebuild, id: EntryId): Rebuild {
    if None in r.anchors then r else r.(anchors := r.anchors[None := id])
  }

  function Step(r: Rebuild, e: Entry): Rebuild {
    match e
    case UserEntry(id, message) => OpenTurn(NoteFirstUser(r, id), id, message)
    case AssistantEntry(id, _, _, _, _) => AddAssistant(EnsureTurn(r, id, ""), e)
    case ToolResultEntry(_, _, _) => if r.current.None? then r else AddToolResult(r, e)
    case BashEntry(id, command, _) => AddBash(EnsureTurn(r, id, "!" + command), e)
    case CompactionEntry(id) => AddCompaction(r, id)
    case ContextEditEntry(id, target) =>
      if r.current.Some? && target in r.current.value.entryIds
      then r.(current := Some(r.current.value.(anchor := Some(id)))) else r
    case OtherEntry(_) => r
  }

  function Fold(entries: seq<Entry>): Rebuild {
    if entries == [] then EMPTY else Step(Fold(entries[..|entries| - 1]), entries[|entries| - 1])
  }

  function History(entries: seq<Entry>): Rebuild {
    CloseTurn(Fold(entries))
  }

  lemma FoldSnoc(entries: seq<Entry>, e: Entry)
    ensures Fold(entries + [e]) == Step(Fold(entries), e)
  {
    assert (entries + [e])[..|entries|] == entries;
  }

  // ── Truncation anchors ────────────────────────────────────────────────────

  predicate DistinctIds(entries: seq<Entry>) {
    forall i, j :: 0 <= i < j < |entries| ==> entries[i].id != entries[j].id
  }

  /** `a` is the id of a non-user entry such that rebuilding up to and including it gives exactly `turns`. */
  ghost predicate AnchorsTo(entries: seq<Entry>, a: EntryId, turns: seq<Turn>) {
    exists p :: 0 <= p < |entries| && entries[p].id == a && !entries[p].UserEntry? && History(entries[..p + 1]).turns == turns
  }

  predicate NamesEntry(entries: seq<Entry>, id: TurnId) {
    !id.Live? && exists q :: 0 <= q < |entries| && entries[q].id == id.entry
  }

  ghost predicate IdsInv(entries: seq<Entry>, r: Rebuild) {
    && (forall i :: 0 <= i < |r.turns| ==> NamesEntry(entries, r.turns[i].id))
    && (forall i, j :: 0 <= i < j < |r.turns| ==> r.turns[i].id != r.turns[j].id)
    && (r.current.Some? ==>
          NamesEntry(entries, r.current.value.id) && forall i :: 0 <= i < |r.turns| ==> r.turns[i].id != r.current.value.id)
  }

  predicate HasTurn(turns: seq<Turn>, id: TurnId) {
    exists i :: 0 <= i < |turns| && turns[i].id == id
  }

  /** Anchors belong to turns, and each anchored turn ends where its anchor says. */
  ghost predicate TurnsAnchored(entries: seq<Entry>, turns: seq<Turn>, anchors: Anchors) {
    && (forall k :: k in anchors && k.Some? ==> HasTurn(turns, k.value))
    && (forall i :: 0 <= i < |turns| && Some(turns[i].id) in anchors ==>
          AnchorsTo(entries, anchors[Some(turns[i].id)], turns[..i + 1]))
  }

  ghost predicate AnchorInv(entries: seq<Entry>, r: Rebuild) {
    && TurnsAnchored(entries, r.turns, r.anchors)
    && (r.current.Some? && r.current.value.anchor.Some? ==>
          AnchorsTo(entries, r.current.value.anchor.value, CloseTurn(r).turns))
  }

  lemma NamesEntrySnoc(entries: seq<Entry>, e: Entry, id: TurnId)
    requires NamesEntry(entries, id)
    ensures NamesEntry(entries + [e], id)
  {
    var q :| 0 <= q < |entries| && entries[q].id == id.entry;
    assert (entries + [e])[q].id == id.entry;
  }

  lemma AnchorsToSnoc(entries: seq<Entry>, e: Entry, a: EntryId, turns: seq<Turn>)
    requires AnchorsTo(entries, a, turns)
    ensures AnchorsTo(entries + [e], a, turns)
  {
    var p :| 0 <= p < |entries| && entries[p].id == a && !entries[p].UserEntry? && History(entries[..p + 1]).turns == turns;
    assert (entries + [e])[..p + 1] == entries[..p + 1];
    assert (entries + [e])[p] == entries[p];
  }

  lemma AnchorsHere(entries: seq<Entry>, e: Entry)
    requires !e.UserEntry?
    ensures AnchorsTo(entries + [e], e.id, History(entries + [e]).turns)
  {
    var all := entries + [e];
    assert all[..|entries| + 1] == all;
    assert all[|entries|] == e;
  }

  lemma FreshId(entries: seq<Entry>, e: Entry, id: TurnId)
    requires DistinctIds(entries + [e]) && NamesEntry(entries, id)
    ensures id != Stored(e.id) && id != StoredCompaction(e.id)
  {
    var all := entries + [e];
    var q :| 0 <= q < |entries| && entries[q].id == id.entry;
    assert all[q].id == id.entry && all[|entries|] == e;
  }

  predicate Unused(r: Rebuild, id: TurnId) {
    !HasTurn(r.turns, id) && (r.current.Some? ==> r.current.value.id != id)
  }

  /** A new entry names no turn there is. */
  lemma IdsFresh(before: seq<Entry>, e: Entry, r: Rebuild)
    requires DistinctIds(before + [e]) && IdsInv(before, r)
    ensures IdsInv(before + [e], r) && Unused(r, Stored(e.id)) && Unused(r, StoredCompaction(e.id))
  {
    forall i | 0 <= i < |r.turns|
      ensures NamesEntry(before + [e], r.turns[i].id) && r.turns[i].id != Stored(e.id) && r.turns[i].id != StoredCompaction(e.id)
    {
      NamesEntrySnoc(before, e, r.turns[i].id);
      FreshId(before, e, r.turns[i].id);
    }
    if r.current.Some? {
      NamesEntrySnoc(before, e, r.current.value.id);
      FreshId(before, e, r.current.value.id);
    }
  }

  lemma CloseIds(entries: seq<Entry>, r: Rebuild)
    requires IdsInv(entries, r)
    ensures IdsInv(entries, CloseTurn(r))
    ensures forall id :: Unused(r, id) ==> Unused(CloseTurn(r), id)
  {
    var s := CloseTurn(r);
    forall i | 0 <= i < |s.turns| ensures s.turns[i].id == if i < |r.turns| then r.turns[i].id else r.current.value.id {}
  }

  lemma OpenIds(entries: seq<Entry>, r: Rebuild, id: EntryId, message: Message)
    requires IdsInv(entries, r) && Unused(r, Stored(id)) && NamesEntry(entries, Stored(id))
    ensures IdsInv(entries, OpenTurn(r, id, message))
  {
    CloseIds(entries, r);
    var s := CloseTurn(r);
    forall i | 0 <= i < |s.turns| ensures s.turns[i].id != Stored(id) {}
  }

  /** Steps that keep the open turn open, and every turn's id. */
  lemma SameIds(entries: seq<Entry>, r: Rebuild, s: Rebuild)
    requires IdsInv(entries, r) && s.turns == r.turns && r.current.Some? && s.current.Some?
    requires s.current.value.id == r.current.value.id
    ensures IdsInv(entries, s)
  {
  }

  lemma CompactionIds(entries: seq<Entry>, r: Rebuild, id: EntryId)
    requires IdsInv(entries, r) && r.current.None? && Unused(r, StoredCompaction(id)) && NamesEntry(entries, StoredCompaction(id))
    ensures IdsInv(entries, AddCompaction(r, id))
  {
    var s := AddCompaction(r, id);
    forall i | 0 <= i < |s.turns| ensures s.turns[i].id == if i < |r.turns| then r.turns[i].id else StoredCompaction(id) {}
    forall i | 0 <= i < |r.turns| ensures r.turns[i].id != StoredCompaction(id) {}
  }

  lemma StepIds(entries: seq<Entry>, e: Entry, r: Rebuild)
    requires IdsInv(entries, r) && Unused(r, Stored(e.id)) && Unused(r, StoredCompaction(e.id))
    requires NamesEntry(entries, Stored(e.id)) && NamesEntry(entries, StoredCompaction(e.id))
    ensures IdsInv(entries, Step(r, e))
  {
    match e
    case UserEntry(id, message) => OpenIds(entries, NoteFirstUser(r, id), id, message);
    case AssistantEntry(id, _, _, _, _) =>
      OpenIds(entries, r, id, Message("", FromUser));
      SameIds(entries, EnsureTurn(r, id, ""), Step(r, e));
    case BashEntry(id, command, _) =>
      OpenIds(entries, r, id, Message("!" + command, FromUser));
      SameIds(entries, EnsureTurn(r, id, "!" + command), Step(r, e));
    case CompactionEntry(id) => if r.current.None? { CompactionIds(entries, r, id); } else { SameIds(entries, r, Step(r, e)); }
    case _ => if r.current.Some? { SameIds(entries, r, Step(r, e)); }
  }

  lemma {:induction false} IdsHold(entries: seq<Entry>)
    requires DistinctIds(entries)
    ensures IdsInv(entries, Fold(entries))
  {
    if entries != [] {
      var before, e := entries[..|entries| - 1], entries[|entries| - 1];
      assert entries == before + [e];
      IdsHold(before);
      IdsFresh(before, e, Fold(before));
      assert NamesEntry(entries, Stored(e.id)) && NamesEntry(entries, StoredCompaction(e.id)) by {
        assert entries[|before|].id == e.id;
      }
      StepIds(entries, e, Fold(before));
    }
  }

  function Anchored(anchors: Anchors, id: TurnId, anchor: Option<EntryId>): Anchors {
    if anchor.Some? then anchors[Some(id) := anchor.value] else anchors
  }

  /** One more turn, with an anchor that ends on it or with none. */
  lemma TurnAnchored(entries: seq<Entry>, turns: seq<Turn>, anchors: Anchors, turn: Turn, anchor: Option<EntryId>)
    requires TurnsAnchored(entries, turns, anchors) && !HasTurn(turns, turn.id)
    requires anchor.Some? ==> AnchorsTo(entries, anchor.value, turns + [turn])
    ensures TurnsAnchored(entries, turns + [turn], Anchored(anchors, turn.id, anchor))
  {
    var more, anchors1 := turns + [turn], Anchored(anchors, turn.id, anchor);
    forall i | 0 <= i < |more| && Some(more[i].id) in anchors1
      ensures AnchorsTo(entries, anchors1[Some(more[i].id)], more[..i + 1])
    {
      if i < |turns| {
        assert more[i].id != turn.id && more[..i + 1] == turns[..i + 1];
      } else {
        assert more[..i + 1] == more;
      }
    }
    forall k | k in anchors1 && k.Some? ensures HasTurn(more, k.value) {
      if k in anchors {
        var i :| 0 <= i < |turns| && turns[i].id == k.value;
        assert more[i].id == k.value;
      } else {
        assert more[|turns|].id == k.value;
      }
    }
  }

  /** Closing the current turn keeps what is known of every closed turn. */
  lemma CloseAnchors(entries: seq<Entry>, r: Rebuild)
    requires IdsInv(entries, r) && AnchorInv(entries, r)
    ensures AnchorInv(entries, CloseTurn(r))
  {
    if r.current.Some? {
      var c := r.current.value;
      TurnAnchored(entries, r.turns, r.anchors, Closed(c), c.anchor);
    }
  }

  lemma AnchorInvSnoc(entries: seq<Entry>, e: Entry, r: Rebuild)
    requires AnchorInv(entries, r)
    ensures AnchorInv(entries + [e], r)
  {
    forall i | 0 <= i < |r.turns| && Some(r.turns[i].id) in r.anchors
      ensures AnchorsTo(entries + [e], r.anchors[Some(r.turns[i].id)], r.turns[..i + 1])
    {
      AnchorsToSnoc(entries, e, r.anchors[Some(r.turns[i].id)], r.turns[..i + 1]);
    }
    if r.current.Some? && r.current.value.anchor.Some? {
      AnchorsToSnoc(entries, e, r.current.value.anchor.value, CloseTurn(r).turns);
    }
  }

  /** After a step that leaves the closed turns alone, only the current turn's anchor is in question. */
  lemma SameClosedTurns(entries: seq<Entry>, r: Rebuild, s: Rebuild)
    requires TurnsAnchored(entries, r.turns, r.anchors)
    requires s.turns == r.turns && s.anchors == r.anchors
    requires s.current.Some? && s.current.value.anchor.Some? ==>
               AnchorsTo(entries, s.current.value.anchor.value, CloseTurn(s).turns)
    ensures AnchorInv(entries, s)
  {
  }

  /** A step that keeps a turn open, or opens one, and ends it on the new entry. */
  lemma OpenAnchors(before: seq<Entry>, e: Entry, r: Rebuild)
    requires r == Fold(before) && IdsInv(before, r) && AnchorInv(before, r)
    requires e.AssistantEntry? || e.BashEntry? || (r.current.Some? && (e.ToolResultEntry? || e.CompactionEntry? || e.ContextEditEntry?))
    ensures AnchorInv(before + [e], Step(r, e))
  {
    FoldSnoc(before, e);
    CloseAnchors(before, r);
    AnchorInvSnoc(before, e, r);
    AnchorInvSnoc(before, e, CloseTurn(r));
    AnchorsHere(before, e);
    if Step(r, e) != r {
      SameClosedTurns(before + [e], if r.current.Some? then r else CloseTurn(r), Step(r, e));
    }
  }

  lemma {:induction false} AnchorsHold(entries: seq<Entry>)
    requires DistinctIds(entries)
    ensures AnchorInv(entries, Fold(entries))
  {
    if entries != [] {
      var before, e := entries[..|entries| - 1], entries[|entries| - 1];
      assert entries == before + [e];
      AnchorsHold(before);
      IdsHold(before);
      var r := Fold(before);
      AnchorInvSnoc(before, e, r);
      match e
      case UserEntry(_, _) => UserAnchors(before, e, r);
      case OtherEntry(_) =>
      case AssistantEntry(_, _, _, _, _) => OpenAnchors(before, e, r);
      case BashEntry(_, _, _) => OpenAnchors(before, e, r);
      case CompactionEntry(_) => if r.current.Some? { OpenAnchors(before, e, r); } else { CompactionAnchors(before, e, r); }
      case _ => if r.current.Some? { OpenAnchors(before, e, r); }
    }
  }

  lemma UserAnchors(before: seq<Entry>, e: Entry, r: Rebuild)
    requires e.UserEntry? && r == Fold(before) && IdsInv(before, r) && AnchorInv(before, r)
    ensures AnchorInv(before + [e], Step(r, e))
  {
    var r0 := NoteFirstUser(r, e.id);
    assert AnchorInv(before, r0) by {
      assert CloseTurn(r0).turns == CloseTurn(r).turns;
    }
    CloseAnchors(before, r0);
    AnchorInvSnoc(before, e, CloseTurn(r0));
    SameClosedTurns(before + [e], CloseTurn(r0), Step(r, e));
  }

  lemma CompactionAnchors(before: seq<Entry>, e: Entry, r: Rebuild)
    requires e.CompactionEntry? && r == Fold(before) && r.current.None? && DistinctIds(before + [e])
    requires IdsInv(before, r) && AnchorInv(before + [e], r)
    ensures AnchorInv(before + [e], Step(r, e))
  {
    FoldSnoc(before, e);
    AnchorsHere(before, e);
    IdsFresh(before, e, r);
    TurnAnchored(before + [e], r.turns, r.anchors, CompactionTurn(e.id), Some(e.id));
  }

  /** Turn ids are pairwise distinct and derived from entries. */
  lemma TurnIdsDistinct(entries: seq<Entry>)
    requires DistinctIds(entries)
    ensures var turns := History(entries).turns;
            && (forall i, j :: 0 <= i < j < |turns| ==> turns[i].id != turns[j].id)
            && (forall i :: 0 <= i < |turns| ==> NamesEntry(entries, turns[i].id))
  {
    IdsHold(entries);
  }

  /** Truncation commutes with rebuilding: the entries up to and including turn i's anchor rebuild to exactly turns 0..i. */
  lemma TruncationCommutes(entries: seq<Entry>, i: nat)
    requires DistinctIds(entries)
    requires i < |History(entries).turns| && Some(History(entries).turns[i].id) in History(entries).anchors
    ensures AnchorsTo(entries, History(entries).anchors[Some(History(entries).turns[i].id)], History(entries).turns[..i + 1])
  {
    IdsHold(entries);
    AnchorsHold(entries);
    CloseAnchors(entries, Fold(entries));
  }

  /** After truncating a fully loaded chat at an anchored turn, the chat shows what the remaining branch rebuilds to. */
  lemma TruncatedChatMatchesBranch(entries: seq<Entry>, chat: Chat, i: nat)
    requires DistinctIds(entries) && chat.turns == History(entries).turns
    requires i < |chat.turns| && Some(chat.turns[i].id) in History(entries).anchors
    ensures AnchorsTo(entries, History(entries).anchors[Some(chat.turns[i].id)],
                      Reduce(chat, Truncated(Some(chat.turns[i].id))).turns)
  {
    TruncationCommutes(entries, i);
    TurnIdsDistinct(entries);
    KeepThroughAt(chat.turns, i);
  }

  lemma {:induction false} KeepThroughAt(turns: seq<Turn>, i: nat)
    requires i < |turns| && forall k :: 0 <= k < i ==> turns[k].id != turns[i].id
    ensures KeepThrough(turns, turns[i].id) == turns[..i + 1]
    decreases i
  {
    if i > 0 {
      KeepThroughAt(turns[1..], i - 1);
      assert turns[..i + 1] == [turns[0]] + turns[1..][..i];
      assert turns[0].id != turns[i].id;
    }
  }

  /** The open turn has an anchor, or nothing after its user message that a client can see. */
  predicate AnchoredOrAsked(r: Rebuild) {
    r.current.Some? && r.current.value.anchor.None? ==>
      r.current.value.parts == [] && r.current.value.usage.None? && r.current.value.result.ResultComplete?
  }

  lemma StepAnchors(r: Rebuild, e: Entry)
    requires AnchoredOrAsked(r)
    ensures AnchoredOrAsked(Step(r, e))
  {
  }

  lemma {:induction false} PendingWithoutAnchor(entries: seq<Entry>)
    ensures AnchoredOrAsked(Fold(entries))
  {
    if entries != [] {
      PendingWithoutAnchor(entries[..|entries| - 1]);
      StepAnchors(Fold(entries[..|entries| - 1]), entries[|entries| - 1]);
    }
  }

  ghost predicate OnlyAsked(turn: Turn) {
    turn.parts == [] && turn.usage.None? && turn.state.CompleteTurn?
  }

  lemma {:induction false} UnanchoredTurnsAreUnanswered(entries: seq<Entry>)
    requires DistinctIds(entries)
    ensures var h := History(entries);
            forall i :: 0 <= i < |h.turns| && Some(h.turns[i].id) !in h.anchors ==> OnlyAsked(h.turns[i])
  {
    ClosedUnanchored(entries);
    PendingWithoutAnchor(entries);
    CloseUnanchored(Fold(entries));
  }

  ghost predicate UnanchoredAsked(turns: seq<Turn>, anchors: Anchors) {
    forall i :: 0 <= i < |turns| && Some(turns[i].id) !in anchors ==> OnlyAsked(turns[i])
  }

  lemma CloseUnanchored(r: Rebuild)
    requires UnanchoredAsked(r.turns, r.anchors) && AnchoredOrAsked(r)
    ensures UnanchoredAsked(CloseTurn(r).turns, CloseTurn(r).anchors)
  {
    assert r.current.Some? && r.current.value.anchor.None? ==> OnlyAsked(Closed(r.current.value));
  }

  lemma StepUnanchored(r: Rebuild, e: Entry)
    requires UnanchoredAsked(r.turns, r.anchors) && AnchoredOrAsked(r)
    ensures UnanchoredAsked(Step(r, e).turns, Step(r, e).anchors)
  {
    CloseUnanchored(if e.UserEntry? then NoteFirstUser(r, e.id) else r);
  }

  lemma {:induction false} ClosedUnanchored(entries: seq<Entry>)
    ensures UnanchoredAsked(Fold(entries).turns, Fold(entries).anchors)
  {
    if entries != [] {
      var before := entries[..|entries| - 1];
      ClosedUnanchored(before);
      PendingWithoutAnchor(before);
      StepUnanchored(Fold(before), entries[|entries| - 1]);
    }
  }

  // ── Clearing the whole conversation ───────────────────────────────────────

  predicate OpensTurn(e: Entry) {
    e.AssistantEntry? || e.BashEntry? || e.CompactionEntry?
  }

  predicate FirstUserAt(entries: seq<Entry>, p: nat) {
    p < |entries| && entries[p].UserEntry? && forall q :: 0 <= q < p ==> !entries[q].UserEntry?
  }

  /** A step other than a user message shows a turn exactly when one was shown or it opens one, and names no first user. */
  lemma StepShowsIff(r: Rebuild, e: Entry)
    requires !e.UserEntry?
    ensures CloseTurn(Step(r, e)).turns == [] <==> CloseTurn(r).turns == [] && !OpensTurn(e)
    ensures None in Step(r, e).anchors <==> None in r.anchors
  {
    assert CloseTurn(r).turns == [] <==> r.turns == [] && r.current.None?;
    var s := Step(r, e);
    assert CloseTurn(s).turns == [] <==> s.turns == [] && s.current.None?;
  }

  /** Entries before any user message make a turn exactly when one of them opens one by itself. */
  lemma {:induction false} NoTurnsIff(entries: seq<Entry>)
    requires forall q :: 0 <= q < |entries| ==> !entries[q].UserEntry?
    ensures History(entries).turns == [] <==> forall q :: 0 <= q < |entries| ==> !OpensTurn(entries[q])
    ensures None !in Fold(entries).anchors
  {
    if entries != [] {
      var before, e := entries[..|entries| - 1], entries[|entries| - 1];
      NoTurnsIff(before);
      StepShowsIff(Fold(before), e);
      assert forall q :: 0 <= q < |before| ==> before[q] == entries[q];
    }
  }

  lemma FirstUserStays(r: Rebuild, e: Entry)
    requires None in r.anchors
    ensures None in Step(r, e).anchors && Step(r, e).anchors[None] == r.anchors[None]
  {
  }

  lemma {:induction false} FirstUserKept(entries: seq<Entry>, p: nat)
    requires FirstUserAt(entries, p)
    ensures None in Fold(entries).anchors && Fold(entries).anchors[None] == entries[p].id
    decreases |entries|
  {
    var before, e := entries[..|entries| - 1], entries[|entries| - 1];
    if p < |before| {
      assert FirstUserAt(before, p);
      FirstUserKept(before, p);
      FirstUserStays(Fold(before), e);
    } else {
      NoTurnsIff(before);
      assert CloseTurn(NoteFirstUser(Fold(before), e.id)).anchors[None] == e.id;
    }
  }

  /** The clear-all anchor is the first user entry, and navigating to its parent leaves no turn exactly when
      no assistant, shell or compaction entry comes before it. */
  lemma ClearAll(entries: seq<Entry>, p: nat)
    requires FirstUserAt(entries, p)
    ensures None in History(entries).anchors && History(entries).anchors[None] == entries[p].id
    ensures History(entries[..p]).turns == [] <==> forall q :: 0 <= q < p ==> !OpensTurn(entries[q])
  {
    FirstUserKept(entries, p);
    NoTurnsIff(entries[..p]);
  }

  lemma ClearAllAbsent(entries: seq<Entry>)
    requires forall q :: 0 <= q < |entries| ==> !entries[q].UserEntry?
    ensures None !in History(entries).anchors
  {
    NoTurnsIff(entries);
  }

  // ── Growth ────────────────────────────────────────────────────────────────

  /** Appending entries never disturbs a turn that was already closed, and the last turn keeps its id. */
  lemma HistoryGrowsByOne(entries: seq<Entry>, e: Entry)
    ensures Grown(History(entries).turns, History(entries + [e]).turns)
  {
    FoldSnoc(entries, e);
    StepGrows(Fold(entries), e);
  }

  /** `g` extends `h`, except that the last turn of `h` may still have grown. */
  predicate Grown(h: seq<Turn>, g: seq<Turn>) {
    && |h| <= |g|
    && (forall i :: 0 <= i < |h| ==> g[i].id == h[i].id)
    && (forall i :: 0 <= i < |h| - 1 ==> g[i] == h[i])
  }

  /** Where a turn is open, a step closes it, or keeps it open under the same id. */
  lemma StepGoesOn(r: Rebuild, e: Entry)
    ensures var s := Step(r, e);
            if e.UserEntry? then s.turns == CloseTurn(r).turns
            else r.turns <= s.turns && (r.current.Some? ==> s.turns == r.turns && s.current.Some? && s.current.value.id == r.current.value.id)
  {
    if e.UserEntry? { assert CloseTurn(NoteFirstUser(r, e.id)).turns == CloseTurn(r).turns; }
  }

  lemma StepGrows(r: Rebuild, e: Entry)
    ensures Grown(CloseTurn(r).turns, CloseTurn(Step(r, e)).turns)
  {
    StepGoesOn(r, e);
    var s := Step(r, e);
    assert s.turns <= CloseTurn(s).turns;
  }

  lemma {:induction false} HistoryGrows(entries: seq<Entry>, more: seq<Entry>)
    ensures Grown(History(entries).turns, History(entries + more).turns)
    decreases |more|
  {
    if more == [] {
      assert entries + more == entries;
    } else {
      HistoryGrowsByOne(entries, more[0]);
      HistoryGrows(entries + [more[0]], more[1..]);
      assert entries + [more[0]] + more[1..] == entries + more;
    }
  }
}

/** The rebuild as the source has it: one pass that updates the turn under construction. */
module History {
  import opened Protocol
  import opened HistorySpec
  import Spec = HistorySpec

  /** `closeTurn` of the source, on the loop's own variables. */
  method CloseTurn(r: Rebuild) returns (s: Rebuild)
    ensures s == Spec.CloseTurn(r)
  {
    if r.current.None? {
      return r;
    }
    var c := r.current.value;
    var anchors := r.anchors;
    if c.anchor.Some? {
      anchors := anchors[Some(c.id) := c.anchor.value];
    }
    s := Rebuild(r.turns + [Closed(c)], anchors, None, map[]);
  }

  /** `openTurn` of the source. */
  method OpenTurn(r: Rebuild, id: EntryId, message: Message) returns (s: Rebuild)
    ensures s == Spec.OpenTurn(r, id, message)
  {
    s := CloseTurn(r);
    s := s.(current := Some(Opened(id, message)));
  }

  method AddBlocks(turn: TurnId, entry: EntryId, before: seq<Part>, calls: map<string, nat>, blocks: seq<Block>)
    returns (parts: seq<Part>, toolParts: map<string, nat>)
    ensures (parts, toolParts) == Spec.AddBlocks(turn, entry, before, calls, blocks, 0)
  {
    parts, toolParts := before, calls;
    for index := 0 to |blocks|
      invariant Spec.AddBlocks(turn, entry, parts, toolParts, blocks, index)
             == Spec.AddBlocks(turn, entry, before, calls, blocks, 0)
    {
      match blocks[index]
      case TextBlock(text) =>
        if text != "" { parts := parts + [Markdown(StoredPart(turn, entry, index), text)]; }
      case ThinkingBlock(text) =>
        if text != "" { parts := parts + [Reasoning(StoredPart(turn, entry, index), text)]; }
      case ToolBlock(callId, name) =>
        if callId != "" {
          toolParts := toolParts[callId := |parts|];
          parts := parts + [ToolCall(callId, NameOf(name), Running)];
        }
      case OtherBlock =>
    }
  }

  method AddAssistant(r: Rebuild, e: Entry) returns (s: Rebuild)
    requires e.AssistantEntry?
    ensures s == Step(r, e)
  {
    s := r;
    if s.current.None? {
      s := OpenTurn(s, e.id, Message("", FromUser));
    }
    var c := s.current.value;
    var parts, toolParts := AddBlocks(c.id, e.id, c.parts, s.toolParts, e.blocks);
    var result := c.result;
    if e.stop == Some(StopAborted) { result := ResultCancelled; }
    else if e.stop == Some(StopError) { result := ResultError(e.error); }
    else if e.stop == Some(StopOther) { result := ResultComplete; }
    c := Pending(c.id, c.message, parts, c.entryIds + {e.id}, if e.usage.Some? then e.usage else c.usage, result, Some(e.id));
    s := s.(toolParts := toolParts, current := Some(c));
  }

  method AddToolResult(r: Rebuild, e: Entry) returns (s: Rebuild)
    requires e.ToolResultEntry?
    ensures s == Step(r, e)
  {
    s := r;
    if r.current.None? {
      return;
    }
    var c := r.current.value;
    c := c.(entryIds := c.entryIds + {e.id}, anchor := Some(e.id));
    if e.callId != "" && e.callId in r.toolParts && r.toolParts[e.callId] < |c.parts| {
      var at := r.toolParts[e.callId];
      c := c.(parts := c.parts[at := CompleteCall(c.parts[at], !e.isError)]);
    }
    s := s.(current := Some(c));
  }

  method AddBash(r: Rebuild, e: Entry) returns (s: Rebuild)
    requires e.BashEntry?
    ensures s == Step(r, e)
  {
    s := r;
    if s.current.None? {
      s := OpenTurn(s, e.id, Message("!" + e.command, FromUser));
    }
    var c := s.current.value;
    s := s.(current := Some(c.(parts := c.parts + [Notification(BashText(e.command, e.output))],
                               entryIds := c.entryIds + {e.id}, anchor := Some(e.id))));
  }

  method AddCompaction(r: Rebuild, e: Entry) returns (s: Rebuild)
    requires e.CompactionEntry?
    ensures s == Step(r, e)
  {
    if r.current.Some? {
      var c := r.current.value;
      s := r.(current := Some(c.(parts := c.parts + [Notification(COMPACTION_NOTICE)], anchor := Some(e.id))));
    } else {
      s := r.(turns := r.turns + [CompactionTurn(e.id)], anchors := r.anchors[Some(StoredCompaction(e.id)) := e.id]);
    }
  }

  method AddUser(r: Rebuild, e: Entry) returns (s: Rebuild)
    requires e.UserEntry?
    ensures s == Step(r, e)
  {
    s := r;
    if None !in s.anchors {
      s := s.(anchors := s.anchors[None := e.id]);
    }
    s := OpenTurn(s, e.id, e.message);
  }

  method AddContextEdit(r: Rebuild, e: Entry) returns (s: Rebuild)
    requires e.ContextEditEntry?
    ensures s == Step(r, e)
  {
    s := r;
    if r.current.Some? && e.target in r.current.value.entryIds {
      s := r.(current := Some(r.current.value.(anchor := Some(e.id))));
    }
  }

  method AddEntry(r: Rebuild, e: Entry) returns (s: Rebuild)
    ensures s == Step(r, e)
  {
    match e
    case UserEntry(_, _) => s := AddUser(r, e);
    case AssistantEntry(_, _, _, _, _) => s := AddAssistant(r, e);
    case ToolResultEntry(_, _, _) => s := AddToolResult(r, e);
    case BashEntry(_, _, _) => s := AddBash(r, e);
    case CompactionEntry(_) => s := AddCompaction(r, e);
    case ContextEditEntry(_, _) => s := AddContextEdit(r, e);
    case OtherEntry(_) => s := r;
  }

  method RebuildHistory(entries: seq<Entry>) returns (turns: seq<Turn>, anchors: Anchors)
    ensures turns == Spec.History(entries).turns && anchors == Spec.History(entries).anchors
  {
    var r := EMPTY;
    for n := 0 to |entries|
      invariant r == Fold(entries[..n])
    {
      FoldSnoc(entries[..n], entries[n]);
      assert entries[..n + 1] == entries[..n] + [entries[n]];
      r := AddEntry(r, entries[n]);
    }
    assert entries[..|entries|] == entries;
    r := CloseTurn(r);
    turns, anchors := r.turns, r.anchors;
  }
}
