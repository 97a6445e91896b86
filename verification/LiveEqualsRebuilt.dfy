/**
 When the live view of a conversation and the one rebuilt from disk are the same: the exact conditions, over all runs.
 */
module LiveEqualsRebuilt {
  import opened Protocol
  import opened LiveReplay
  import M = EventMapperSpec
  import H = HistorySpec

  // ── Errors only the stream reported ───────────────────────────────────────

  /** A report that makes no difference to what is shown. */
  predicate Fine(report: Option<string>) {
    report.Some? ==> report.value == RUN_FAILED
  }

  /** Item `i` is the last assistant message of its turn. */
  predicate LastAnswer(items: seq<Item>, i: nat)
    requires i < |items|
  {
    && items[i].Assistant?
    && forall j :: i < j < |items| && items[j].Assistant? ==> exists u :: i < u < j && items[u].User?
  }

  /** The stored message says what the live view showed, or says nothing where the live view showed the text for an unknown error. */
  predicate Reported(item: Item)
    requires item.Assistant?
  {
    Fine(OnlyStreamed(item.stop, item.error, item.streamError))
  }

  /** Some assistant message comes before any user message. */
  predicate AnswersFirst(items: seq<Item>) {
    exists j :: 0 <= j < |items| && items[j].Assistant? && forall u :: 0 <= u < j ==> !items[u].User?
  }

  ghost predicate EndsReported(items: seq<Item>) {
    forall i :: 0 <= i < |items| && LastAnswer(items, i) ==> Reported(items[i])
  }

  lemma LastAnswerShifts(items: seq<Item>, i: nat)
    requires 0 < i < |items|
    ensures LastAnswer(items, i) <==> LastAnswer(items[1..], i - 1)
  {
    var rest := items[1..];
    assert forall k :: 1 <= k < |items| ==> items[k] == rest[k - 1];
    if LastAnswer(items, i) {
      forall j | i - 1 < j < |rest| && rest[j].Assistant? ensures exists u :: i - 1 < u < j && rest[u].User? {
        var u :| i < u < j + 1 && items[u].User?;
        assert rest[u - 1].User?;
      }
    }
    if LastAnswer(rest, i - 1) {
      forall j | i < j < |items| && items[j].Assistant? ensures exists u :: i < u < j && items[u].User? {
        var u :| i - 1 < u < j - 1 && rest[u].User?;
        assert items[u + 1].User?;
      }
    }
  }

  lemma AnswersFirstShifts(items: seq<Item>)
    requires items != []
    ensures AnswersFirst(items) <==> items[0].Assistant? || (!items[0].User? && AnswersFirst(items[1..]))
  {
    var rest := items[1..];
    assert forall k :: 1 <= k < |items| ==> items[k] == rest[k - 1];
    if AnswersFirst(items) && !items[0].Assistant? {
      var j :| 0 <= j < |items| && items[j].Assistant? && forall u :: 0 <= u < j ==> !items[u].User?;
      assert rest[j - 1].Assistant? && forall u :: 0 <= u < j - 1 ==> rest[u] == items[u + 1];
    }
    if !items[0].User? && AnswersFirst(rest) {
      var j :| 0 <= j < |rest| && rest[j].Assistant? && forall u :: 0 <= u < j ==> !rest[u].User?;
      assert items[j + 1].Assistant? && forall u :: 1 <= u < j + 1 ==> items[u] == rest[u - 1];
    }
  }

  /** The first item is the last answer of its turn unless another answer follows in it. */
  lemma FirstIsLastAnswer(items: seq<Item>)
    requires items != [] && items[0].Assistant?
    ensures LastAnswer(items, 0) <==> !AnswersFirst(items[1..])
  {
    var rest := items[1..];
    assert forall k :: 1 <= k < |items| ==> items[k] == rest[k - 1];
    if AnswersFirst(rest) {
      var j :| 0 <= j < |rest| && rest[j].Assistant? && forall u :: 0 <= u < j ==> !rest[u].User?;
      assert items[j + 1].Assistant? && forall u :: 1 <= u < j + 1 ==> items[u] == rest[u - 1];
    } else {
      forall j | 0 < j < |items| && items[j].Assistant? ensures exists u :: 0 < u < j && items[u].User? {
        assert rest[j - 1].Assistant?;
        var u :| 0 <= u < j - 1 && rest[u].User?;
        assert items[u + 1].User?;
      }
    }
  }

  lemma EndsReportedShifts(items: seq<Item>)
    requires items != []
    ensures EndsReported(items) <==> (LastAnswer(items, 0) ==> Reported(items[0])) && EndsReported(items[1..])
  {
    var rest := items[1..];
    forall i | 0 < i < |items| ensures LastAnswer(items, i) <==> LastAnswer(rest, i - 1) {
      LastAnswerShifts(items, i);
    }
    if EndsReported(items) {
      forall i | 0 <= i < |rest| && LastAnswer(rest, i) ensures Reported(rest[i]) {
        assert LastAnswer(items, i + 1) && items[i + 1] == rest[i];
      }
    }
    if (LastAnswer(items, 0) ==> Reported(items[0])) && EndsReported(rest) {
      forall i | 0 <= i < |items| && LastAnswer(items, i) ensures Reported(items[i]) {
        if i > 0 { assert LastAnswer(rest, i - 1) && items[i] == rest[i - 1]; }
      }
    }
  }

  ghost predicate AllFine(reports: seq<Option<string>>) {
    forall i :: 0 <= i < |reports| ==> Fine(reports[i])
  }

  lemma AllFineConcat(xs: seq<Option<string>>, ys: seq<Option<string>>)
    ensures AllFine(xs + ys) <==> AllFine(xs) && AllFine(ys)
  {
    assert forall i :: 0 <= i < |xs| ==> (xs + ys)[i] == xs[i];
    assert forall i :: 0 <= i < |ys| ==> (xs + ys)[|xs| + i] == ys[i];
  }

  /** Reports make no difference exactly when every turn's last answer is one the stored message covers. */
  lemma {:induction false} ReportsAreFineIff(report: Option<string>, items: seq<Item>)
    ensures AllFine(Reports(report, items)) <==> (AnswersFirst(items) || Fine(report)) && EndsReported(items)
    decreases |items|
  {
    if items == [] {
      assert Reports(report, items)[0] == report;
    } else {
      AnswersFirstShifts(items);
      EndsReportedShifts(items);
      if items[0].User? {
        AllFineConcat([report], Reports(None, items[1..]));
        assert AllFine([report]) <==> Fine([report][0]);
        ReportsAreFineIff(None, items[1..]);
      } else if items[0].Assistant? {
        FirstIsLastAnswer(items);
        ReportsAreFineIff(OnlyStreamed(items[0].stop, items[0].error, items[0].streamError), items[1..]);
      } else {
        ReportsAreFineIff(report, items[1..]);
      }
    }
  }

  lemma RunIsFineIff(items: seq<Item>)
    requires RunOk(items)
    ensures AllFine(RunReports(items)) <==> EndsReported(items)
  {
    ReportsAreFineIff(None, items[1..]);
    EndsReportedShifts(items);
  }

  lemma {:induction false} ConversationIsFineIff(runs: seq<Prompted>)
    requires forall i :: 0 <= i < |runs| ==> RunOk(runs[i].items)
    ensures AllFine(ConversationReports(runs)) <==> forall i :: 0 <= i < |runs| ==> EndsReported(runs[i].items)
    decreases |runs|
  {
    if runs != [] {
      RunIsFineIff(runs[0].items);
      ConversationIsFineIff(runs[1..]);
      AllFineConcat(RunReports(runs[0].items), ConversationReports(runs[1..]));
      assert forall i :: 1 <= i < |runs| ==> runs[i] == runs[1..][i - 1];
      assert forall i :: 0 <= i < |runs[1..]| ==> runs[1..][i] == runs[i + 1];
    }
  }

  lemma ShownAlikeIff(live: PlainTurn, rebuilt: PlainTurn, report: Option<string>)
    requires SameBut(live, rebuilt, report)
    ensures live == rebuilt <==> Fine(report)
  {
    if report.Some? {
      var last := |rebuilt.parts| - 1;
      assert live.parts[last] == PlainError(report.value);
      assert rebuilt.parts == rebuilt.parts[..last] + [rebuilt.parts[last]];
    }
  }

  lemma MatchingIsEqualIff(live: seq<Turn>, rebuilt: seq<Turn>, reports: seq<Option<string>>)
    requires Matching(live, rebuilt, reports)
    ensures VisibleTurns(live) == VisibleTurns(rebuilt) <==> AllFine(reports)
  {
    forall i | 0 <= i < |live| ensures VisibleTurns(live)[i] == VisibleTurns(rebuilt)[i] <==> Fine(reports[i]) {
      ShownAlikeIff(Visible(live[i]), Visible(rebuilt[i]), reports[i]);
    }
  }

  /** The two views are equal exactly when no turn's last assistant message failed with a text that only the stream
      reported and that is not the text shown for an unknown error. */
  lemma {:induction false} LiveEqualsRebuiltIff(runs: seq<Prompted>)
    requires forall i :: 0 <= i < |runs| ==> RunOk(runs[i].items)
    ensures VisibleTurns(LiveConversation(EMPTY_CHAT, runs).turns) == VisibleTurns(H.History(StoredConversation(runs)).turns)
       <==> forall i :: 0 <= i < |runs| ==> EndsReported(runs[i].items)
  {
    LiveAgreesWithRebuilt(runs);
    ConversationIsFineIff(runs);
    MatchingIsEqualIff(LiveConversation(EMPTY_CHAT, runs).turns, H.History(StoredConversation(runs)).turns, ConversationReports(runs));
  }
  // ── When the two views must differ ────────────────────────────────────────

  /** Events that cannot open a turn; every item but a user message has only these. */
  predicate InTurn(event: M.Event) {
    !(event.MessageStart? && event.role.UserRole?)
  }

  predicate Ongoing(a: Action) {
    (ScopeOf(a).Some? && !IsTerminal(a)) || a.ActivityChanged?
  }

  lemma OngoingKeeps(c: Chat, a: Action)
    requires c.active.Some? && Ongoing(a)
    ensures var c1 := Reduce(c, a); c1.turns == c.turns && c1.active.Some? && c1.active.value.id == c.active.value.id
  {
    var t := ReduceActive(c.active.value, a);
    assert t.id == c.active.value.id;
  }

  lemma {:induction false} OngoingKeepsTurns(c: Chat, actions: seq<Action>, turn: TurnId)
    requires c.active.Some? && c.active.value.id == turn
    requires forall a :: a in actions ==> Ongoing(a)
    ensures var c1 := ReduceAll(c, actions); c1.turns == c.turns && c1.active.Some? && c1.active.value.id == turn
    decreases |actions|
  {
    if actions != [] {
      assert actions[0] in actions;
      OngoingKeeps(c, actions[0]);
      OngoingKeepsTurns(Reduce(c, actions[0]), actions[1..], turn);
    }
  }

  lemma ChunkIsOngoing(m: M.Mapper, index: Option<int>, text: Option<string>, reasoning: bool)
    ensures var (m1, actions) := M.AppendChunk(m, index, text, reasoning);
            && (forall a :: a in actions ==> Ongoing(a))
            && m1.turnId == m.turnId && m1.ordinal == m.ordinal && m1.finished == m.finished
  {
    var responding := M.SetActivity(m, Some(M.RESPONDING)).1;
    assert forall a :: a in responding ==> Ongoing(a);
  }

  lemma DeltaIsOngoing(m: M.Mapper, delta: M.Delta)
    ensures var (m1, actions) := M.OnDelta(m, delta);
            && (forall a :: a in actions ==> Ongoing(a))
            && m1.turnId == m.turnId && m1.ordinal == m.ordinal && m1.finished == m.finished
  {
    match delta
    case TextChunk(index, text) => ChunkIsOngoing(m, index, text, false);
    case ThinkingChunk(index, text) => ChunkIsOngoing(m, index, text, true);
    case TextEnd(index, text) => ChunkIsOngoing(m, index, text, false);
    case ThinkingEnd(index, text) => ChunkIsOngoing(m, index, text, true);
    case ToolChunk(index, block, text) => FragmentIsOngoing(m, index, block, text);
    case _ =>
  }

  lemma FragmentIsOngoing(m: M.Mapper, index: Option<int>, block: Option<M.ToolBlock>, text: Option<string>)
    ensures var (m1, actions) := M.OnToolCallDelta(m, index, block, text);
            && (forall a :: a in actions ==> Ongoing(a))
            && m1.turnId == m.turnId && m1.ordinal == m.ordinal && m1.finished == m.finished
  {
    var (m1, started) := M.OnToolCallStart(m, index, block);
    assert forall a :: a in started ==> Ongoing(a);
  }

  lemma InTurnKeeps(m: M.Mapper, c: Chat, event: M.Event)
    requires !m.finished && c.active.Some? && c.active.value.id == m.turnId && InTurn(event)
    ensures var (m1, actions) := M.Handle(m, event);
            var c1 := ReduceAll(c, actions);
            && !m1.finished && m1.turnId == m.turnId
            && c1.turns == c.turns && c1.active.Some? && c1.active.value.id == m.turnId
            && m1.ordinal == m.ordinal + (if event.MessageStart? && event.role.AssistantRole? then 1 else 0)
  {
    var (m1, actions) := M.Handle(m, event);
    if event.MessageUpdate? { DeltaIsOngoing(m, event.update); }
    OngoingKeepsTurns(c, actions, m.turnId);
  }

  predicate StartsMessage(event: M.Event) {
    event.MessageStart? && event.role.AssistantRole?
  }

  predicate StartsSome(events: seq<M.Event>) {
    exists i :: 0 <= i < |events| && StartsMessage(events[i])
  }

  lemma StartsShift(events: seq<M.Event>)
    requires events != []
    ensures StartsSome(events) <==> StartsMessage(events[0]) || StartsSome(events[1..])
  {
    assert forall i :: 1 <= i < |events| ==> events[i] == events[1..][i - 1];
    assert forall i :: 0 <= i < |events[1..]| ==> events[1..][i] == events[i + 1];
  }

  lemma {:induction false} FeedInTurn(m: M.Mapper, c: Chat, events: seq<M.Event>)
    requires !m.finished && c.active.Some? && c.active.value.id == m.turnId
    requires forall i :: 0 <= i < |events| ==> InTurn(events[i])
    ensures var (m1, c1) := Feed(m, c, events);
            && !m1.finished && m1.turnId == m.turnId && m1.ordinal >= m.ordinal
            && (m1.ordinal > m.ordinal <==> StartsSome(events))
            && c1.turns == c.turns && c1.active.Some? && c1.active.value.id == m.turnId
    decreases |events|
  {
    if events != [] {
      InTurnKeeps(m, c, events[0]);
      var (m1, actions) := M.Handle(m, events[0]);
      FeedInTurn(m1, ReduceAll(c, actions), events[1..]);
      StartsShift(events);
    }
  }

  lemma {:induction false} ChunkEventsInTurn(index: int, chunks: seq<string>, reasoning: bool)
    ensures forall e :: e in ChunkEvents(index, chunks, reasoning) ==> e.MessageUpdate?
  {
    if chunks != [] { ChunkEventsInTurn(index, chunks[1..], reasoning); }
  }

  lemma {:induction false} FragmentEventsInTurn(index: int, block: M.ToolBlock, fragments: seq<string>)
    ensures forall e :: e in FragmentEvents(index, block, fragments) ==> e.MessageUpdate?
  {
    if fragments != [] { FragmentEventsInTurn(index, block, fragments[1..]); }
  }

  lemma {:induction false} PiecesEventsInTurn(pieces: seq<Piece>, index: nat)
    requires index <= |pieces|
    ensures forall e :: e in PiecesEvents(pieces, index) ==> e.MessageUpdate?
    decreases |pieces| - index
  {
    if index < |pieces| {
      match pieces[index] {
        case Text(_, chunks) => ChunkEventsInTurn(index, chunks, false);
        case Thinking(_, chunks) => ChunkEventsInTurn(index, chunks, true);
        case Call(callId, name, _, fragments) => FragmentEventsInTurn(index, M.ToolBlock(Some(callId), name), fragments);
        case Unshown =>
      }
      PiecesEventsInTurn(pieces, index + 1);
    }
  }

  /** Items without the demand that an assistant message separates user messages. */
  predicate Plausible(item: Item) {
    (item.Quiet? ==> IsQuiet(item.event)) && (item.Assistant? && item.streamError.Some? ==> item.streamError.value.StreamError?)
  }

  /** Every user message after the first finds an assistant message since the previous one. */
  predicate Separated(answered: bool, items: seq<Item>)
    decreases |items|
  {
    items == [] ||
    ((items[0].User? ==> answered) && Separated(if items[0].User? then false else answered || items[0].Assistant?, items[1..]))
  }

  lemma OtherItemInTurn(item: Item)
    requires Plausible(item) && !item.User?
    ensures forall i :: 0 <= i < |ItemEvents(item)| ==> InTurn(ItemEvents(item)[i])
  {
    if item.Assistant? {
      var events, body := ItemEvents(item), PiecesEvents(item.pieces, 0);
      PiecesEventsInTurn(item.pieces, 0);
      forall i | 0 <= i < |events| ensures InTurn(events[i]) {
        if 1 <= i <= |body| { assert events[i] == body[i - 1] && body[i - 1] in body; }
      }
    }
  }

  lemma OtherItemTurns(m: M.Mapper, c: Chat, item: Item)
    requires !m.finished && c.active.Some? && c.active.value.id == m.turnId && m.ordinal >= -1
    requires Plausible(item) && !item.User?
    ensures var (m1, c1) := Feed(m, c, ItemEvents(item));
            && !m1.finished && c1.active.Some? && c1.active.value.id == m1.turnId && m1.ordinal >= -1
            && c1.turns == c.turns && m1.turnId == m.turnId
            && (m1.ordinal >= 0 <==> m.ordinal >= 0 || item.Assistant?)
  {
    var events := ItemEvents(item);
    if item.Assistant? {
      assert events[0] == M.MessageStart(M.AssistantRole, NO_MESSAGE);
      assert StartsMessage(events[0]);
    }
    OtherItemInTurn(item);
    FeedInTurn(m, c, events);
  }

  lemma StoredItemTurns(r: H.Rebuild, item: Item)
    requires r.current.Some?
    ensures var r1 := FoldFrom(r, ItemEntries(item));
            r1.current.Some? && |r1.turns| == |r.turns| + (if item.User? then 1 else 0)
  {
    if ItemEntries(item) != [] {
      FoldFromOne(r, ItemEntries(item)[0]);
      assert ItemEntries(item) == [ItemEntries(item)[0]];
    }
  }

  lemma ItemTurns(m: M.Mapper, c: Chat, r: H.Rebuild, item: Item)
    requires !m.finished && c.active.Some? && c.active.value.id == m.turnId && m.ordinal >= -1
    requires r.current.Some? && Plausible(item)
    ensures var (m1, c1) := Feed(m, c, ItemEvents(item));
            var r1 := FoldFrom(r, ItemEntries(item));
            && !m1.finished && c1.active.Some? && c1.active.value.id == m1.turnId && m1.ordinal >= -1 && r1.current.Some?
            && |r1.turns| == |r.turns| + (if item.User? then 1 else 0)
            && |c1.turns| == |c.turns| + (if item.User? && m.ordinal >= 0 then 1 else 0)
            && (m1.ordinal >= 0 <==> if item.User? then false else m.ordinal >= 0 || item.Assistant?)
  {
    StoredItemTurns(r, item);
    if item.User? {
      UserTurns(m, c, item);
    } else {
      OtherItemTurns(m, c, item);
    }
  }

  lemma UserTurns(m: M.Mapper, c: Chat, item: Item)
    requires !m.finished && c.active.Some? && c.active.value.id == m.turnId && m.ordinal >= -1 && item.User?
    ensures var (m1, c1) := Feed(m, c, ItemEvents(item));
            && !m1.finished && c1.active.Some? && c1.active.value.id == m1.turnId && m1.ordinal == -1
            && |c1.turns| == |c.turns| + (if m.ordinal >= 0 then 1 else 0)
  {
    var start, end := M.MessageStart(M.UserRole, item.message), M.MessageEnd(M.UserRole, None, None, None);
    assert ItemEvents(item) == [start] + [end];
    FeedCons(m, c, start, [end]);
    var (m1, actions) := M.Handle(m, start);
    if m.ordinal >= 0 {
      ReduceTwo(c, M.TerminalAction(m), TurnStarted(Live(m.root, m.injected + 1), item.message, None));
    }
    FeedOne(m1, ReduceAll(c, actions), end);
  }

  lemma {:induction false} TurnsDiffer(m: M.Mapper, c: Chat, r: H.Rebuild, items: seq<Item>)
    requires !m.finished && c.active.Some? && c.active.value.id == m.turnId && m.ordinal >= -1
    requires r.current.Some? && |c.turns| <= |r.turns|
    requires forall i :: 0 <= i < |items| ==> Plausible(items[i])
    ensures var (m1, c1) := Feed(m, c, Events(items));
            var r1 := FoldFrom(r, Entries(items));
            && !m1.finished && c1.active.Some? && c1.active.value.id == m1.turnId && r1.current.Some?
            && |c1.turns| <= |r1.turns|
            && (|c1.turns| == |r1.turns| <==> |c.turns| == |r.turns| && Separated(m.ordinal >= 0, items))
    decreases |items|
  {
    if items != [] {
      var item := items[0];
      ItemTurns(m, c, r, item);
      FeedConcat(m, c, ItemEvents(item), Events(items[1..]));
      FoldFromConcat(r, ItemEntries(item), Entries(items[1..]));
      var (m1, c1) := Feed(m, c, ItemEvents(item));
      TurnsDiffer(m1, c1, FoldFrom(r, ItemEntries(item)), items[1..]);
    }
  }

  function LiveTurns(root: string, prompt: Message, items: seq<Item>): seq<Turn> {
    var begun := Reduce(EMPTY_CHAT, TurnStarted(Live(root, 0), prompt, None));
    var (m, c) := Feed(M.NewMapper(root), begun, Events(items));
    ReduceAll(c, M.Finish(m, None).1).turns
  }

  /** The separation condition is exact: on any run, the live view has as many turns as the rebuilt one if and
      only if an assistant message separates every two user messages; otherwise the live view has fewer. */
  lemma SameTurnCountIffSeparated(root: string, entry: EntryId, prompt: Message, items: seq<Item>)
    requires forall i :: 0 <= i < |items| ==> Plausible(items[i])
    ensures var live := LiveTurns(root, prompt, [User(entry, prompt)] + items);
            var rebuilt := H.History(Entries([User(entry, prompt)] + items)).turns;
            && |live| <= |rebuilt|
            && (|live| == |rebuilt| <==> Separated(false, items))
  {
    var user := User(entry, prompt);
    var all := [user] + items;
    assert all[1..] == items;
    var begun := Reduce(EMPTY_CHAT, TurnStarted(Live(root, 0), prompt, None));
    var m := M.NewMapper(root);
    UserTurns(m, begun, user);
    var (m0, c0) := Feed(m, begun, ItemEvents(user));
    FeedConcat(m, begun, ItemEvents(user), Events(items));
    FoldFromOne(H.EMPTY, H.UserEntry(entry, prompt));
    FoldFromConcat(H.EMPTY, ItemEntries(user), Entries(items));
    FoldFromPrefix([], H.EMPTY, Entries(all));
    assert [] + Entries(all) == Entries(all);
    TurnsDiffer(m0, c0, FoldFrom(H.EMPTY, ItemEntries(user)), items);
    var (m1, c1) := Feed(m, begun, Events(all));
    CloseCounts(m1, c1);
  }

  lemma CloseCounts(m: M.Mapper, c: Chat)
    requires !m.finished && c.active.Some? && c.active.value.id == m.turnId
    ensures |ReduceAll(c, M.Finish(m, None).1).turns| == |c.turns| + 1
  {
    var (m2, idle) := M.SetActivity(m.(finished := true), None);
    SetActivityKeeps(m.(finished := true), c, None);
    ReduceAllConcat(c, idle, [M.TerminalAction(m2)]);
    ReduceOne(ReduceAll(c, idle), M.TerminalAction(m2));
  }

  // ── The whole condition ───────────────────────────────────────────────────

  /** Well-formed items, without the demand that an assistant message separates user messages. */
  predicate ItemsSound(seen: Seen, items: seq<Item>)
    decreases |items|
  {
    items == [] || ((items[0].User? || ItemOk(seen, items[0])) && ItemsSound(SeenAfter(seen, items[0]), items[1..]))
  }

  lemma {:induction false} SoundAndSeparated(seen: Seen, items: seq<Item>)
    ensures ItemsOk(seen, items) <==> ItemsSound(seen, items) && Separated(seen.answered, items)
    decreases |items|
  {
    if items != [] { SoundAndSeparated(SeenAfter(seen, items[0]), items[1..]); }
  }

  lemma {:induction false} SoundIsPlausible(seen: Seen, items: seq<Item>)
    requires ItemsSound(seen, items)
    ensures forall i :: 0 <= i < |items| ==> Plausible(items[i])
    decreases |items|
  {
    if items != [] {
      SoundIsPlausible(SeenAfter(seen, items[0]), items[1..]);
      assert forall i :: 1 <= i < |items| ==> items[i] == items[1..][i - 1];
    }
  }

  lemma OneRun(root: string, items: seq<Item>)
    requires RunOk(items)
    ensures VisibleTurns(LiveTurns(root, items[0].message, items)) == VisibleTurns(H.History(Entries(items)).turns) <==> EndsReported(items)
  {
    var runs := [Prompted(root, items)];
    LiveEqualsRebuiltIff(runs);
    assert runs[1..] == [] && StoredConversation(runs) == Entries(items) + [] == Entries(items);
    assert EndsReported(runs[0].items) <==> EndsReported(items);
  }

  /** On every run the live and the rebuilt view are the same exactly when an assistant message separates every two user
      messages and no turn's last assistant message is a failure whose text only the stream reported. */
  lemma RunEqualsRebuiltIff(root: string, entry: EntryId, prompt: Message, items: seq<Item>)
    requires ItemsSound(Begun([]), items)
    ensures var run := [User(entry, prompt)] + items;
            (VisibleTurns(LiveTurns(root, prompt, run)) == VisibleTurns(H.History(Entries(run)).turns)
             <==> Separated(false, items) && EndsReported(run))
  {
    var run := [User(entry, prompt)] + items;
    assert run[1..] == items;
    SoundAndSeparated(Begun([]), items);
    if Separated(false, items) {
      OneRun(root, run);
    } else {
      SoundIsPlausible(Begun([]), items);
      SameTurnCountIffSeparated(root, entry, prompt, items);
      assert |VisibleTurns(LiveTurns(root, prompt, run))| != |VisibleTurns(H.History(Entries(run)).turns)|;
    }
  }

  /** An answer that fails with an error only the stream reported: pi's stored message carries no error text. */
  function UnreportedFailure(entry: EntryId, answer: EntryId, prompt: Message, text: string, aborted: bool): seq<Item> {
    [User(entry, prompt), Assistant(answer, [], None, StopError, None, Some(M.StreamError(Some(text), aborted)))]
  }

  /** The stored message must carry the error for the two views to show the same text: after a failure that only the
      stream reported they agree exactly when what it reported is the text shown for an unknown error. */
  lemma UnreportedFailureAgreesIff(root: string, entry: EntryId, answer: EntryId, prompt: Message, text: string, aborted: bool)
    ensures var items := UnreportedFailure(entry, answer, prompt, text, aborted);
            VisibleTurns(LiveTurns(root, prompt, items)) == VisibleTurns(H.History(Entries(items)).turns) <==> text == RUN_FAILED
  {
    var items := UnreportedFailure(entry, answer, prompt, text, aborted);
    assert items[1..] == [items[1]] && items[1..][1..] == [];
    assert ItemsOk(Begun([]), items[1..]) && RunOk(items);
    OneRun(root, items);
    assert LastAnswer(items, 1);
    assert EndsReported(items) <==> text == RUN_FAILED;
  }
}
