/**
 Truncating a turn that happened live. Its id is the client's and cannot be found in the session file, so the driver
 records, whenever a turn closes, the entry the branch ends on then; truncation navigates to what was recorded.
 */
module LiveTruncation {
  import opened Protocol
  import opened LiveReplay
  import opened LiveEqualsRebuilt
  import opened TurnPaging
  import M = EventMapperSpec
  import H = HistorySpec

  /** The anchor of each turn that closed live. */
  type TurnAnchors = map<TurnId, EntryId>

  /** Records the leaf for a turn that closes; a user entry is not recorded, as navigating to it would branch before it. */
  function Noted(anchors: TurnAnchors, turn: TurnId, entries: seq<H.Entry>): TurnAnchors {
    if entries == [] || entries[|entries| - 1].UserEntry? then anchors else anchors[turn := entries[|entries| - 1].id]
  }

  /** What is recorded during the rest of a run, with `entries` persisted so far: when an injected message closes the
      open turn, before its own entry is persisted, and when the prompt settles. */
  function RecordFrom(m: M.Mapper, c: Chat, entries: seq<H.Entry>, items: seq<Item>): TurnAnchors
    decreases |items|
  {
    if items == [] then Noted(map[], m.turnId, entries)
    else
      var (m1, c1) := Feed(m, c, ItemEvents(items[0]));
      var later := RecordFrom(m1, c1, entries + ItemEntries(items[0]), items[1..]);
      if items[0].User? && m.ordinal >= 0 then Noted(later, m.turnId, entries) else later
  }

  /** The chat once the prompt has settled. */
  function Finished(m: M.Mapper, c: Chat, items: seq<Item>): Chat {
    var (m1, c1) := Feed(m, c, Events(items));
    ReduceAll(c1, M.Finish(m1, None).1)
  }

  function RecordRun(c: Chat, before: seq<H.Entry>, root: string, items: seq<Item>): TurnAnchors
    requires RunOk(items)
  {
    var begun := Reduce(c, TurnStarted(Live(root, 0), items[0].message, None));
    RecordFrom(M.NewMapper(root), begun, before + ItemEntries(items[0]), items[1..])
  }

  function RecordConversation(c: Chat, before: seq<H.Entry>, runs: seq<Prompted>): TurnAnchors
    requires forall i :: 0 <= i < |runs| ==> RunOk(runs[i].items)
    decreases |runs|
  {
    if runs == [] then map[]
    else
      RecordRun(c, before, runs[0].root, runs[0].items)
      + RecordConversation(LiveRun(c, runs[0].root, runs[0].items), before + Entries(runs[0].items), runs[1..])
  }

  /** Navigating to the anchor keeps entries that rebuild to what `kept` shows, up to error texts only the stream told. */
  ghost predicate KeptBy(kept: seq<Turn>, all: seq<H.Entry>, anchor: EntryId, reports: seq<Option<string>>) {
    exists p :: 0 <= p < |all| && all[p].id == anchor && !all[p].UserEntry? && Matching(kept, H.History(all[..p + 1]).turns, reports)
  }

  /** From turn `from` on: a recorded anchor keeps exactly the turns up to its own, and a turn without one was only asked. */
  ghost predicate Anchored(turns: seq<Turn>, from: nat, all: seq<H.Entry>, anchors: TurnAnchors, reports: seq<Option<string>>) {
    && from <= |turns| == |reports|
    && forall i :: from <= i < |turns| ==>
         if turns[i].id in anchors then KeptBy(turns[..i + 1], all, anchors[turns[i].id], reports[..i + 1])
         else H.OnlyAsked(turns[i])
  }

  // ── One run ───────────────────────────────────────────────────────────────

  lemma FinishedStep(m: M.Mapper, c: Chat, items: seq<Item>)
    requires items != []
    ensures var (m1, c1) := Feed(m, c, ItemEvents(items[0])); Finished(m, c, items) == Finished(m1, c1, items[1..])
  {
    FeedConcat(m, c, ItemEvents(items[0]), Events(items[1..]));
  }

  /** An item moves the mapper's turn number and the closed turns together. */
  lemma ItemCloses(m: M.Mapper, c: Chat, r: H.Rebuild, seen: Seen, item: Item)
    requires Agree(m, c, r, seen) && ItemOk(seen, item)
    ensures var (m1, c1) := Feed(m, c, ItemEvents(item));
            && m1.root == m.root
            && if item.User? then m.ordinal >= 0 && m1.injected == m.injected + 1 && c1.turns == Reduce(c, M.TerminalAction(m)).turns
               else m1.injected == m.injected && c1.turns == c.turns
  {
    ItemAgrees(m, c, r, seen, item);
    if item.User? { InjectedFed(m, c, item.message); } else { OtherItemTurns(m, c, item); }
  }

  /** The turn that closes is the mapper's own, and comes last. */
  lemma TerminalCloses(m: M.Mapper, c: Chat)
    requires c.active.Some? && c.active.value.id == m.turnId
    ensures var turns := Reduce(c, M.TerminalAction(m)).turns;
            |turns| == |c.turns| + 1 && turns[..|c.turns|] == c.turns && turns[|c.turns|].id == m.turnId
  {
  }

  lemma FinishCloses(m: M.Mapper, c: Chat)
    requires !m.finished
    ensures ReduceAll(c, M.Finish(m, None).1).turns == Reduce(c, M.TerminalAction(m)).turns
  {
    var m1 := m.(finished := true);
    var (m2, idle) := M.SetActivity(m1, None);
    SetActivityKeeps(m1, c, None);
    ReduceAllConcat(c, idle, [M.TerminalAction(m2)]);
    ReduceOne(ReduceAll(c, idle), M.TerminalAction(m2));
  }

  ghost predicate NumberedFrom(turns: seq<Turn>, from: nat, root: string, first: nat) {
    forall i :: from <= i < |turns| ==> turns[i].id == Live(root, first + (i - from))
  }

  lemma NumberedEarlier(turns: seq<Turn>, from: nat, root: string, first: nat)
    requires NumberedFrom(turns, from + 1, root, first + 1) && from < |turns| && turns[from].id == Live(root, first)
    ensures NumberedFrom(turns, from, root, first)
  {
  }

  /** What is left of a run after its first item: the same turns, or one more with the id of the turn that was open. */
  lemma ItemGoesOn(m: M.Mapper, c: Chat, r: H.Rebuild, seen: Seen, items: seq<Item>)
    requires Agree(m, c, r, seen) && ItemsOk(seen, items) && items != []
    ensures var (m1, c1) := Feed(m, c, ItemEvents(items[0]));
            && m1.root == m.root
            && Agree(m1, c1, FoldFrom(r, ItemEntries(items[0])), SeenAfter(seen, items[0]))
            && Finished(m, c, items) == Finished(m1, c1, items[1..])
            && if items[0].User? then
                 && m1.injected == m.injected + 1
                 && |c1.turns| == |c.turns| + 1 && c1.turns[..|c.turns|] == c.turns && c1.turns[|c.turns|].id == Live(m.root, m.injected)
               else m1.injected == m.injected && c1.turns == c.turns
  {
    ItemCloses(m, c, r, seen, items[0]);
    ItemAgrees(m, c, r, seen, items[0]);
    FinishedStep(m, c, items);
    TerminalCloses(m, c);
  }

  lemma LastId(m: M.Mapper, c: Chat, r: H.Rebuild, seen: Seen)
    requires Agree(m, c, r, seen)
    ensures var turns := Finished(m, c, []).turns;
            c.turns <= turns && |c.turns| < |turns| && NumberedFrom(turns, |c.turns|, m.root, m.injected)
  {
    TerminalCloses(m, c);
    FinishCloses(m, c);
  }

  /** The turns of a run are numbered from the open one, in order. */
  lemma {:induction false} RunIds(m: M.Mapper, c: Chat, r: H.Rebuild, seen: Seen, items: seq<Item>)
    requires Agree(m, c, r, seen) && ItemsOk(seen, items)
    ensures var turns := Finished(m, c, items).turns;
            c.turns <= turns && |c.turns| < |turns| && NumberedFrom(turns, |c.turns|, m.root, m.injected)
    decreases |items|
  {
    if items == [] {
      LastId(m, c, r, seen);
    } else {
      var item := items[0];
      ItemGoesOn(m, c, r, seen, items);
      var (m1, c1) := Feed(m, c, ItemEvents(item));
      RunIds(m1, c1, FoldFrom(r, ItemEntries(item)), SeenAfter(seen, item), items[1..]);
      if item.User? { EarlierTurn(c.turns, c1.turns, Finished(m, c, items).turns, m.root, m.injected); }
    }
  }

  lemma EarlierTurn(before: seq<Turn>, turns: seq<Turn>, all: seq<Turn>, root: string, first: nat)
    requires |turns| == |before| + 1 && turns[..|before|] == before && turns[|before|].id == Live(root, first)
    requires turns <= all && NumberedFrom(all, |turns|, root, first + 1)
    ensures before <= all && NumberedFrom(all, |before|, root, first)
  {
    assert all[|before|] == turns[|before|];
    NumberedEarlier(all, |before|, root, first);
  }

  /** Anchors are recorded only for turns of the run from the open one on. */
  lemma {:induction false} RecordedIds(m: M.Mapper, c: Chat, r: H.Rebuild, seen: Seen, entries: seq<H.Entry>, items: seq<Item>)
    requires Agree(m, c, r, seen) && ItemsOk(seen, items)
    ensures forall t :: t in RecordFrom(m, c, entries, items) ==> t.Live? && t.root == m.root && t.split >= m.injected
    decreases |items|
  {
    if items != [] {
      var item := items[0];
      ItemCloses(m, c, r, seen, item);
      ItemAgrees(m, c, r, seen, item);
      var (m1, c1) := Feed(m, c, ItemEvents(item));
      RecordedIds(m1, c1, FoldFrom(r, ItemEntries(item)), SeenAfter(seen, item), entries + ItemEntries(item), items[1..]);
    }
  }

  lemma UserOpens(r: H.Rebuild, e: H.Entry)
    requires e.UserEntry?
    ensures H.Step(r, e).current == Some(H.Opened(e.id, e.message))
  {
  }

  lemma AskedCloses(m: M.Mapper, c: Chat)
    requires c.active.Some? && c.active.value.id == m.turnId && m.result.ResultComplete?
    requires c.active.value.parts == [] && c.active.value.usage.None?
    ensures |Reduce(c, M.TerminalAction(m)).turns| == |c.turns| + 1 && H.OnlyAsked(Reduce(c, M.TerminalAction(m)).turns[|c.turns|])
  {
    assert CancelUnfinished([]) + [] == [];
  }

  lemma AskedHere(entries: seq<H.Entry>)
    requires entries != [] && entries[|entries| - 1].UserEntry?
    ensures var e := entries[|entries| - 1]; H.Fold(entries).current == Some(H.Opened(e.id, e.message))
  {
    UserOpens(H.Fold(entries[..|entries| - 1]), entries[|entries| - 1]);
  }

  /** A turn that closes right after its user entry has had nothing after it. */
  lemma ClosesUnanswered(m: M.Mapper, c: Chat, r: H.Rebuild, seen: Seen, e: H.Entry)
    requires Agree(m, c, r, seen) && e.UserEntry? && r.current == Some(H.Opened(e.id, e.message))
    ensures |Reduce(c, M.TerminalAction(m)).turns| == |c.turns| + 1 && H.OnlyAsked(Reduce(c, M.TerminalAction(m)).turns[|c.turns|])
  {
    assert |PlainParts(c.active.value.parts)| == 0;
    AskedCloses(m, c);
  }

  /** What is recorded for a turn that closes now. */
  lemma NotedKeeps(m: M.Mapper, c: Chat, entries: seq<H.Entry>, seen: Seen, anchors: TurnAnchors, all: seq<H.Entry>)
    requires Agree(m, c, H.Fold(entries), seen) && entries <= all && m.turnId !in anchors
    ensures var turns, noted := Reduce(c, M.TerminalAction(m)).turns, Noted(anchors, m.turnId, entries);
            if m.turnId in noted then KeptBy(turns, all, noted[m.turnId], seen.reports + [seen.report])
            else H.OnlyAsked(turns[|c.turns|])
  {
    assert entries != [];
    if entries[|entries| - 1].UserEntry? {
      AskedHere(entries);
      ClosesUnanswered(m, c, H.Fold(entries), seen, entries[|entries| - 1]);
    } else {
      ClosedAlike(m, c, H.Fold(entries), seen);
      var p := |entries| - 1;
      assert all[..p + 1] == entries && all[p] == entries[p];
    }
  }

  /** Turns closed later, under anchors recorded later, keep what is known of them when one more is recorded before. */
  lemma AnchoredAfter(turns: seq<Turn>, from: nat, all: seq<H.Entry>, later: TurnAnchors, anchors: TurnAnchors, reports: seq<Option<string>>)
    requires Anchored(turns, from + 1, all, later, reports)
    requires forall i :: from + 1 <= i < |turns| ==>
      (turns[i].id in anchors <==> turns[i].id in later) && (turns[i].id in later ==> anchors[turns[i].id] == later[turns[i].id])
    requires from < |turns|
    requires if turns[from].id in anchors then KeptBy(turns[..from + 1], all, anchors[turns[from].id], reports[..from + 1])
             else H.OnlyAsked(turns[from])
    ensures Anchored(turns, from, all, anchors, reports)
  {
  }

  lemma ReportsSplit(before: seq<Option<string>>, report: Option<string>, later: seq<Option<string>>)
    ensures before + ([report] + later) == (before + [report]) + later
    ensures (before + ([report] + later))[..|before| + 1] == before + [report]
  {
  }

  lemma OneClosed(turns: seq<Turn>, from: nat, all: seq<H.Entry>, anchors: TurnAnchors, reports: seq<Option<string>>)
    requires |turns| == |reports| == from + 1
    requires if turns[from].id in anchors then KeptBy(turns, all, anchors[turns[from].id], reports) else H.OnlyAsked(turns[from])
    ensures Anchored(turns, from, all, anchors, reports)
  {
    assert turns[..from + 1] == turns && reports[..from + 1] == reports;
  }

  /** A run's anchors: each turn that closes during it is kept by the anchor recorded for it, or was only asked. */
  lemma {:induction false} RunAnchored(m: M.Mapper, c: Chat, entries: seq<H.Entry>, seen: Seen, items: seq<Item>, all: seq<H.Entry>)
    requires Agree(m, c, H.Fold(entries), seen) && ItemsOk(seen, items) && all == entries + Entries(items)
    ensures Anchored(Finished(m, c, items).turns, |c.turns|, all, RecordFrom(m, c, entries, items), seen.reports + Reports(seen.report, items))
    decreases |items|, 1
  {
    if items == [] {
      LastAnchored(m, c, entries, seen, all);
    } else if items[0].User? {
      SplitAnchored(m, c, entries, seen, items, all);
    } else {
      OtherAnchored(m, c, entries, seen, items, all);
    }
  }

  lemma LastAnchored(m: M.Mapper, c: Chat, entries: seq<H.Entry>, seen: Seen, all: seq<H.Entry>)
    requires Agree(m, c, H.Fold(entries), seen) && all == entries + []
    ensures Anchored(Finished(m, c, []).turns, |c.turns|, all, RecordFrom(m, c, entries, []), seen.reports + Reports(seen.report, []))
  {
    TerminalCloses(m, c);
    FinishCloses(m, c);
    NotedKeeps(m, c, entries, seen, map[], all);
    var turns := Reduce(c, M.TerminalAction(m)).turns;
    OneClosed(turns, |c.turns|, all, Noted(map[], m.turnId, entries), seen.reports + [seen.report]);
  }

  /** What an item leaves for the rest of the run. */
  lemma ItemLeaves(m: M.Mapper, c: Chat, entries: seq<H.Entry>, seen: Seen, items: seq<Item>, all: seq<H.Entry>)
    requires Agree(m, c, H.Fold(entries), seen) && ItemsOk(seen, items) && items != [] && all == entries + Entries(items)
    ensures var (m1, c1) := Feed(m, c, ItemEvents(items[0]));
            var entries1 := entries + ItemEntries(items[0]);
            && Agree(m1, c1, H.Fold(entries1), SeenAfter(seen, items[0]))
            && all == entries1 + Entries(items[1..])
            && Finished(m, c, items) == Finished(m1, c1, items[1..])
  {
    ItemAgrees(m, c, H.Fold(entries), seen, items[0]);
    FoldFromPrefix(entries, H.Fold(entries), ItemEntries(items[0]));
    Assoc(entries, ItemEntries(items[0]), Entries(items[1..]));
    FinishedStep(m, c, items);
  }

  lemma OtherAnchored(m: M.Mapper, c: Chat, entries: seq<H.Entry>, seen: Seen, items: seq<Item>, all: seq<H.Entry>)
    requires Agree(m, c, H.Fold(entries), seen) && ItemsOk(seen, items) && all == entries + Entries(items)
    requires items != [] && !items[0].User?
    ensures Anchored(Finished(m, c, items).turns, |c.turns|, all, RecordFrom(m, c, entries, items), seen.reports + Reports(seen.report, items))
    decreases |items|, 0
  {
    ItemLeaves(m, c, entries, seen, items, all);
    ItemGoesOn(m, c, H.Fold(entries), seen, items);
    var (m1, c1) := Feed(m, c, ItemEvents(items[0]));
    RunAnchored(m1, c1, entries + ItemEntries(items[0]), SeenAfter(seen, items[0]), items[1..], all);
    OtherReports(seen, items);
  }

  lemma OtherReports(seen: Seen, items: seq<Item>)
    requires items != [] && !items[0].User?
    ensures var seen1 := SeenAfter(seen, items[0]);
            seen1.reports + Reports(seen1.report, items[1..]) == seen.reports + Reports(seen.report, items)
  {
  }

  /** An earlier turn of the run is not named again, nor recorded again. */
  lemma LaterApart(m: M.Mapper, c: Chat, entries: seq<H.Entry>, seen: Seen, items: seq<Item>, turn: TurnId)
    requires Agree(m, c, H.Fold(entries), seen) && ItemsOk(seen, items) && turn.Live? && turn.split < m.injected
    ensures turn !in RecordFrom(m, c, entries, items)
    ensures var turns := Finished(m, c, items).turns;
            c.turns <= turns && forall i :: |c.turns| <= i < |turns| ==> turns[i].id != turn
  {
    RecordedIds(m, c, H.Fold(entries), seen, entries, items);
    RunIds(m, c, H.Fold(entries), seen, items);
  }

  /** An injected message: what is recorded for the turn it closes does not meet what is recorded later. */
  lemma SplitAnchored(m: M.Mapper, c: Chat, entries: seq<H.Entry>, seen: Seen, items: seq<Item>, all: seq<H.Entry>)
    requires Agree(m, c, H.Fold(entries), seen) && ItemsOk(seen, items) && all == entries + Entries(items)
    requires items != [] && items[0].User?
    ensures Anchored(Finished(m, c, items).turns, |c.turns|, all, RecordFrom(m, c, entries, items), seen.reports + Reports(seen.report, items))
    decreases |items|, 0
  {
    var item, seen1 := items[0], SeenAfter(seen, items[0]);
    ItemLeaves(m, c, entries, seen, items, all);
    ItemCloses(m, c, H.Fold(entries), seen, item);
    var (m1, c1) := Feed(m, c, ItemEvents(item));
    var entries1 := entries + ItemEntries(item);
    RunAnchored(m1, c1, entries1, seen1, items[1..], all);
    LaterApart(m1, c1, entries1, seen1, items[1..], m.turnId);
    var later := RecordFrom(m1, c1, entries1, items[1..]);
    NotedKeeps(m, c, entries, seen, later, all);
    TerminalCloses(m, c);
    ReportsSplit(seen.reports, seen.report, Reports(None, items[1..]));
    SplitJoins(m, c, c1, Finished(m, c, items).turns, all, later, entries, seen.reports, seen.report, Reports(None, items[1..]));
  }

  lemma SplitJoins(m: M.Mapper, c: Chat, c1: Chat, turns: seq<Turn>, all: seq<H.Entry>, later: TurnAnchors, entries: seq<H.Entry>,
                   before: seq<Option<string>>, report: Option<string>, after: seq<Option<string>>)
    requires |c1.turns| == |c.turns| + 1 && c1.turns <= turns && c1.turns[|c.turns|].id == m.turnId && |before| == |c.turns|
    requires Anchored(turns, |c.turns| + 1, all, later, before + [report] + after) && m.turnId !in later
    requires forall i :: |c.turns| + 1 <= i < |turns| ==> turns[i].id != m.turnId
    requires var noted := Noted(later, m.turnId, entries);
             if m.turnId in noted then KeptBy(c1.turns, all, noted[m.turnId], before + [report]) else H.OnlyAsked(c1.turns[|c.turns|])
    ensures Anchored(turns, |c.turns|, all, Noted(later, m.turnId, entries), before + ([report] + after))
  {
    var from := |c.turns|;
    ReportsSplit(before, report, after);
    assert turns[..from + 1] == c1.turns && turns[from] == c1.turns[from];
    AnchoredAfter(turns, from, all, later, Noted(later, m.turnId, entries), before + ([report] + after));
  }

  // ── A conversation ────────────────────────────────────────────────────────

  /** Once the prompt's own events are past, a run is what its remaining items leave. */
  lemma RunBegins(c: Chat, before: seq<H.Entry>, reports: seq<Option<string>>, run: Prompted)
    requires RunOk(run.items) && Matching(c.turns, H.History(before).turns, reports)
    ensures var begun := Reduce(c, TurnStarted(Live(run.root, 0), run.items[0].message, None));
            var m := M.NewMapper(run.root);
            && begun.turns == c.turns
            && Agree(m, begun, H.Fold(before + ItemEntries(run.items[0])), Begun(reports))
            && ItemsOk(Begun(reports), run.items[1..])
            && LiveRun(c, run.root, run.items) == Finished(m, begun, run.items[1..])
  {
    var begun := Reduce(c, TurnStarted(Live(run.root, 0), run.items[0].message, None));
    var m := M.NewMapper(run.root);
    IdleHasNoCalls(before);
    PromptAgrees(c, H.Fold(before), reports, run.root, run.items[0]);
    PromptHandled(m, begun, run.items[0]);
    FoldFromPrefix(before, H.Fold(before), ItemEntries(run.items[0]));
    EarlierReportsDoNotMatter(Begun([]), reports, run.items[1..]);
    FeedConcat(m, begun, ItemEvents(run.items[0]), Events(run.items[1..]));
  }

  /** A run adds turns numbered from 0 under its own root, and records anchors only under it. */
  lemma RunNames(c: Chat, before: seq<H.Entry>, reports: seq<Option<string>>, run: Prompted)
    requires RunOk(run.items) && Matching(c.turns, H.History(before).turns, reports)
    ensures var turns := LiveRun(c, run.root, run.items).turns;
            c.turns <= turns && NumberedFrom(turns, |c.turns|, run.root, 0)
    ensures forall t :: t in RecordRun(c, before, run.root, run.items) ==> t.Live? && t.root == run.root
  {
    RunBegins(c, before, reports, run);
    var begun := Reduce(c, TurnStarted(Live(run.root, 0), run.items[0].message, None));
    var m, entries := M.NewMapper(run.root), before + ItemEntries(run.items[0]);
    RunIds(m, begun, H.Fold(entries), Begun(reports), run.items[1..]);
    RecordedIds(m, begun, H.Fold(entries), Begun(reports), entries, run.items[1..]);
  }

  lemma RunRecords(c: Chat, before: seq<H.Entry>, reports: seq<Option<string>>, run: Prompted)
    requires RunOk(run.items) && Matching(c.turns, H.History(before).turns, reports)
    ensures Anchored(LiveRun(c, run.root, run.items).turns, |c.turns|, before + Entries(run.items),
                     RecordRun(c, before, run.root, run.items), reports + RunReports(run.items))
  {
    RunBegins(c, before, reports, run);
    var begun := Reduce(c, TurnStarted(Live(run.root, 0), run.items[0].message, None));
    Assoc(before, ItemEntries(run.items[0]), Entries(run.items[1..]));
    RunAnchored(M.NewMapper(run.root), begun, before + ItemEntries(run.items[0]), Begun(reports), run.items[1..], before + Entries(run.items));
  }

  function Roots(runs: seq<Prompted>): set<string> {
    if runs == [] then {} else {runs[0].root} + Roots(runs[1..])
  }

  /** Every run has a turn id of its own, as the client chooses a new one for each. */
  predicate Fresh(runs: seq<Prompted>) {
    runs == [] || (runs[0].root !in Roots(runs[1..]) && Fresh(runs[1..]))
  }

  predicate AllOk(runs: seq<Prompted>) {
    forall i :: 0 <= i < |runs| ==> RunOk(runs[i].items)
  }

  ghost predicate NamedIn(turns: seq<Turn>, from: nat, roots: set<string>) {
    forall i :: from <= i < |turns| ==> turns[i].id.Live? && turns[i].id.root in roots
  }

  /** No turn of the chat has an id the coming runs will use. */
  predicate Unused(turns: seq<Turn>, roots: set<string>) {
    forall i :: 0 <= i < |turns| && turns[i].id.Live? ==> turns[i].id.root !in roots
  }

  /** Whatever runs follow, the turns already there stay in front, and the new ones are named after those runs. */
  lemma {:induction false} ConversationNames(c: Chat, before: seq<H.Entry>, reports: seq<Option<string>>, runs: seq<Prompted>)
    requires AllOk(runs) && Matching(c.turns, H.History(before).turns, reports)
    ensures var turns := LiveConversation(c, runs).turns;
            && c.turns <= turns
            && NamedIn(turns, |c.turns|, Roots(runs))
    ensures forall t :: t in RecordConversation(c, before, runs) ==> t.Live? && t.root in Roots(runs)
    decreases |runs|
  {
    if runs != [] {
      var run := runs[0];
      RunNames(c, before, reports, run);
      RunExtends(c, before, reports, run);
      var c1 := LiveRun(c, run.root, run.items);
      ConversationNames(c1, before + Entries(run.items), reports + RunReports(run.items), runs[1..]);
      NamedEarlier(c1.turns, |c.turns|, LiveConversation(c, runs).turns, run.root, Roots(runs[1..]));
    }
  }

  lemma NamedEarlier(turns: seq<Turn>, from: nat, all: seq<Turn>, root: string, roots: set<string>)
    requires NumberedFrom(turns, from, root, 0) && turns <= all && NamedIn(all, |turns|, roots)
    ensures NamedIn(all, from, {root} + roots)
  {
    assert forall i :: from <= i < |turns| ==> all[i] == turns[i];
  }

  lemma RunStaysDistinct(turns: seq<Turn>, all: seq<Turn>, root: string, roots: set<string>)
    requires DistinctTurns(turns) && Unused(turns, {root} + roots) && root !in roots
    requires turns <= all && NumberedFrom(all, |turns|, root, 0)
    ensures DistinctTurns(all) && Unused(all, roots)
  {
    assert forall i :: 0 <= i < |turns| ==> all[i] == turns[i];
  }

  /** No two turns of a conversation have the same id. */
  lemma {:induction false} ConversationDistinct(c: Chat, before: seq<H.Entry>, reports: seq<Option<string>>, runs: seq<Prompted>)
    requires AllOk(runs) && Fresh(runs) && Matching(c.turns, H.History(before).turns, reports)
    requires DistinctTurns(c.turns) && Unused(c.turns, Roots(runs))
    ensures DistinctTurns(LiveConversation(c, runs).turns)
    decreases |runs|
  {
    if runs != [] {
      var run := runs[0];
      RunNames(c, before, reports, run);
      RunExtends(c, before, reports, run);
      var c1 := LiveRun(c, run.root, run.items);
      RunStaysDistinct(c.turns, c1.turns, run.root, Roots(runs[1..]));
      ConversationDistinct(c1, before + Entries(run.items), reports + RunReports(run.items), runs[1..]);
    }
  }

  lemma KeptLonger(kept: seq<Turn>, some: seq<H.Entry>, all: seq<H.Entry>, anchor: EntryId, reports: seq<Option<string>>)
    requires KeptBy(kept, some, anchor, reports) && some <= all
    ensures KeptBy(kept, all, anchor, reports)
  {
    var p :| 0 <= p < |some| && some[p].id == anchor && !some[p].UserEntry? && Matching(kept, H.History(some[..p + 1]).turns, reports);
    assert all[..p + 1] == some[..p + 1] && all[p] == some[p];
  }

  /** What was recorded for a run stays good while the conversation goes on. */
  lemma AnchoredLonger(turns: seq<Turn>, from: nat, all: seq<H.Entry>, anchors: TurnAnchors, reports: seq<Option<string>>,
                       grown: seq<Turn>, longer: seq<H.Entry>, later: TurnAnchors, more: seq<Option<string>>)
    requires Anchored(turns, from, all, anchors, reports) && Anchored(grown, |turns|, longer, later, reports + more)
    requires turns <= grown && all <= longer
    requires forall i :: from <= i < |turns| ==> turns[i].id !in later
    requires forall i :: |turns| <= i < |grown| ==> grown[i].id !in anchors
    ensures Anchored(grown, from, longer, anchors + later, reports + more)
  {
    forall i | from <= i < |grown|
      ensures if grown[i].id in anchors + later then KeptBy(grown[..i + 1], longer, (anchors + later)[grown[i].id], (reports + more)[..i + 1])
              else H.OnlyAsked(grown[i])
    {
      if i < |turns| {
        assert grown[i] == turns[i] && grown[..i + 1] == turns[..i + 1] && (reports + more)[..i + 1] == reports[..i + 1];
        if turns[i].id in anchors { KeptLonger(turns[..i + 1], all, longer, anchors[turns[i].id], reports[..i + 1]); }
      }
    }
  }

  lemma {:induction false} ConversationRecords(c: Chat, before: seq<H.Entry>, reports: seq<Option<string>>, runs: seq<Prompted>, all: seq<H.Entry>)
    requires AllOk(runs) && Fresh(runs) && Matching(c.turns, H.History(before).turns, reports)
    requires all == before + StoredConversation(runs)
    ensures Anchored(LiveConversation(c, runs).turns, |c.turns|, all, RecordConversation(c, before, runs), reports + ConversationReports(runs))
    decreases |runs|
  {
    if runs == [] {
      assert reports + [] == reports;
    } else {
      var run := runs[0];
      var c1, before1, reports1 := LiveRun(c, run.root, run.items), before + Entries(run.items), reports + RunReports(run.items);
      RunExtends(c, before, reports, run);
      Assoc(before, Entries(run.items), StoredConversation(runs[1..]));
      Assoc(reports, RunReports(run.items), ConversationReports(runs[1..]));
      ConversationRecords(c1, before1, reports1, runs[1..], all);
      RunRecords(c, before, reports, run);
      RunNames(c, before, reports, run);
      ConversationNames(c1, before1, reports1, runs[1..]);
      AnchoredLonger(c1.turns, |c.turns|, before1, RecordRun(c, before, run.root, run.items), reports1,
                     LiveConversation(c, runs).turns, all, RecordConversation(c1, before1, runs[1..]), ConversationReports(runs[1..]));
    }
  }

  // ── Truncating at a live turn ─────────────────────────────────────────────

  /** The entry a truncation navigates to: what was recorded, else what the session file rebuilds to. */
  function TruncationAnchor(recorded: TurnAnchors, rebuilt: H.Anchors, turn: TurnId): Option<EntryId> {
    if turn in recorded then Some(recorded[turn])
    else if Some(turn) in rebuilt then Some(rebuilt[Some(turn)])
    else None
  }

  /** The rebuild names turns after entries only. */
  ghost predicate NoneLive(r: H.Rebuild) {
    && (forall key :: key in r.anchors ==> key.None? || !key.value.Live?)
    && (r.current.Some? ==> !r.current.value.id.Live?)
  }

  lemma {:induction false} RebuiltNames(entries: seq<H.Entry>)
    ensures NoneLive(H.Fold(entries))
    decreases |entries|
  {
    if entries != [] {
      RebuiltNames(entries[..|entries| - 1]);
    }
  }

  /** Either an entry is known for a live turn, and keeps exactly the turns up to it, or the turn was only asked. */
  lemma KnownOrAsked(c: Chat, before: seq<H.Entry>, reports: seq<Option<string>>, runs: seq<Prompted>, all: seq<H.Entry>, i: nat)
    requires AllOk(runs) && Fresh(runs) && Matching(c.turns, H.History(before).turns, reports)
    requires all == before + StoredConversation(runs)
    requires |c.turns| <= i < |LiveConversation(c, runs).turns|
    ensures var turns, told := LiveConversation(c, runs).turns, reports + ConversationReports(runs);
            var anchor := TruncationAnchor(RecordConversation(c, before, runs), H.History(all).anchors, turns[i].id);
            |told| == |turns|
            && if anchor.Some? then KeptBy(turns[..i + 1], all, anchor.value, told[..i + 1]) else H.OnlyAsked(turns[i])
  {
    ConversationNames(c, before, reports, runs);
    ConversationRecords(c, before, reports, runs, all);
    RebuiltNames(all);
  }

  /**
   Truncating at any turn that happened live, in a chat that may have been hydrated before and may have older turns paged
   away. Either an entry is known for the turn: then the chat shows its own turns up to it, still paged, and the entries
   kept by navigating there rebuild to the same turns, up to error texts only the stream told. Or none is known: then
   the turn was asked and never answered, and the truncation is refused.
   */
  lemma LiveTruncationCommutes(c: Chat, before: seq<H.Entry>, reports: seq<Option<string>>, runs: seq<Prompted>, all: seq<H.Entry>,
                               chat: Chat, older: seq<Turn>, k: nat, shown: seq<Turn>, whole: seq<Turn>, i: nat)
    requires AllOk(runs) && Fresh(runs) && Matching(c.turns, H.History(before).turns, reports)
    requires DistinctTurns(c.turns) && Unused(c.turns, Roots(runs))
    requires all == before + StoredConversation(runs)
    requires whole == LiveConversation(c, runs).turns == older + shown && Paged(chat, older, k, shown)
    requires |c.turns| <= i < |whole| && k <= i
    ensures var anchor := TruncationAnchor(RecordConversation(c, before, runs), H.History(all).anchors, whole[i].id);
            var after, left := Reduce(chat, Truncated(Some(whole[i].id))), Left(older, i);
            if anchor.Some? then
              && after.turns == whole[k..i + 1]
              && Paged(after, whole[..left], k, whole[left..i + 1])
              && |reports + ConversationReports(runs)| == |whole|
              && KeptBy(whole[..i + 1], all, anchor.value, (reports + ConversationReports(runs))[..i + 1])
            else
              H.OnlyAsked(whole[i])
  {
    KnownOrAsked(c, before, reports, runs, all, i);
    ConversationDistinct(c, before, reports, runs);
    TruncateKeepsWindow(chat, older, k, shown, whole, i);
  }
}
