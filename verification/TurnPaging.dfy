/**
 Paging older turns into a chat, and loading a paged-away turn before a truncation names it.
 `full` is always what the session's branch rebuilds to.
 */
module TurnPaging {
  import opened Protocol
  import H = HistorySpec

  const DEFAULT_PAGE_SIZE := 20

  datatype Page = Page(turns: seq<Turn>, nextCursor: Option<TurnId>)
  datatype Outcome<+T> = Accepted(value: T) | Refused

  function Max(a: int, b: int): int {
    if a > b then a else b
  }

  /** The cursor of a page that starts at `start`: present when older turns remain. */
  function CursorAt(full: seq<Turn>, start: nat): Option<TurnId> {
    if 0 < start < |full| then Some(full[start].id) else None
  }

  function InitialTurnsWindow(full: seq<Turn>, limit: int): Page {
    var start := Max(0, |full| - Max(1, limit));
    Page(full[start..], CursorAt(full, start))
  }

  function FindTurn(turns: seq<Turn>, id: TurnId): (at: int)
    ensures -1 <= at < |turns|
    ensures at >= 0 ==> turns[at].id == id && forall i :: 0 <= i < at ==> turns[i].id != id
    ensures at < 0 ==> forall i :: 0 <= i < |turns| ==> turns[i].id != id
  {
    if turns == [] then -1
    else if turns[0].id == id then 0
    else
      var rest := FindTurn(turns[1..], id);
      assert forall i :: 1 <= i < |turns| ==> turns[i] == turns[1..][i - 1];
      if rest < 0 then -1 else rest + 1
  }

  function LoadOlderTurns(full: seq<Turn>, cursor: Option<TurnId>, limit: int): Page {
    if cursor.None? then Page([], None)
    else
      var boundary := FindTurn(full, cursor.value);
      if boundary <= 0 then Page([], None)
      else
        var start := Max(0, boundary - Max(1, limit));
        Page(full[start..boundary], CursorAt(full, start))
  }

  /** Serves `fetchTurns`. */
  function DispatchOlderTurns(chat: Chat, full: seq<Turn>, cursor: Option<TurnId>): Outcome<Chat> {
    if cursor.Some? && cursor != chat.cursor then Refused
    else
      var page := LoadOlderTurns(full, cursor, DEFAULT_PAGE_SIZE);
      Accepted(Reduce(chat, TurnsLoaded(page.turns, page.nextCursor)))
  }

  predicate DistinctTurns(turns: seq<Turn>) {
    forall i, j :: 0 <= i < j < |turns| ==> turns[i].id != turns[j].id
  }

  lemma FoundAt(full: seq<Turn>, at: nat)
    requires at < |full| && DistinctTurns(full)
    ensures FindTurn(full, full[at].id) == at
  {
  }

  // ── Paging is exact ───────────────────────────────────────────────────────

  /**
   The chat has loaded the turns of `older` from number `k` on, in front of `shown`: what hydration showed
   first and whatever has happened live since. The cursor is there exactly when older turns remain.
   */
  ghost predicate Paged(chat: Chat, older: seq<Turn>, k: nat, shown: seq<Turn>) {
    && k <= |older| && (older != [] ==> shown != [])
    && chat.turns == older[k..] + shown
    && chat.cursor == (if k == 0 then None else Some(chat.turns[0].id))
  }

  /** A branch that still begins with `older`, followed by the turn first shown; it may have grown since. */
  ghost predicate Continues(full: seq<Turn>, older: seq<Turn>, first: TurnId) {
    |older| < |full| && full[..|older|] == older && full[|older|].id == first && DistinctTurns(full)
  }

  /** The branch knows what came before the turns first shown. A chat begun here had nothing before them, and its own
      turns are not known to the branch by their ids. */
  ghost predicate Knows(full: seq<Turn>, older: seq<Turn>, shown: seq<Turn>) {
    older == [] || (shown != [] && Continues(full, older, shown[0].id))
  }

  lemma {:induction false} InitialWindowIsPaged(chat: Chat, full: seq<Turn>, limit: int)
    requires full != [] && DistinctTurns(full)
    requires var page := InitialTurnsWindow(full, limit); chat.turns == page.turns && chat.cursor == page.nextCursor
    ensures var start := Max(0, |full| - Max(1, limit));
            Paged(chat, full[..start], start, full[start..]) && Continues(full, full[..start], full[start].id)
  {
    var start := Max(0, |full| - Max(1, limit));
    assert full[..start][start..] + full[start..] == full[start..];
  }

  /** Appending entries to the session cannot shift paging. */
  lemma {:induction false} GrowthContinues(entries: seq<H.Entry>, more: seq<H.Entry>, start: nat)
    requires H.DistinctIds(entries + more) && start < |H.History(entries).turns|
    ensures var full := H.History(entries).turns;
            Continues(H.History(entries + more).turns, full[..start], full[start].id)
  {
    H.HistoryGrows(entries, more);
    H.TurnIdsDistinct(entries + more);
    var full, grown := H.History(entries).turns, H.History(entries + more).turns;
    assert grown[..start] == full[..start];
  }

  /** The oldest turn shown is where the branch has it. */
  lemma BoundaryIs(chat: Chat, full: seq<Turn>, older: seq<Turn>, k: nat, shown: seq<Turn>)
    requires Paged(chat, older, k, shown) && shown != [] && Continues(full, older, shown[0].id)
    ensures chat.turns != [] && k < |full| && full[k].id == chat.turns[0].id && FindTurn(full, chat.turns[0].id) == k
  {
    if k < |older| { assert full[k] == full[..|older|][k] == older[k]; }
    FoundAt(full, k);
  }

  lemma SliceOfPrefix(full: seq<Turn>, older: seq<Turn>, from: nat, end: nat)
    requires older <= full && from <= end <= |older|
    ensures full[from..end] == older[from..end]
  {
  }

  lemma SliceJoins(older: seq<Turn>, from: nat, k: nat, shown: seq<Turn>)
    requires from <= k <= |older|
    ensures older[from..k] + (older[k..] + shown) == older[from..] + shown
  {
  }

  /** What a fetch at turn `k` loads. */
  lemma OlderPage(full: seq<Turn>, older: seq<Turn>, k: nat)
    requires 0 < k <= |older| && |older| < |full| && full[..|older|] == older && DistinctTurns(full)
    ensures var next := Max(0, k - DEFAULT_PAGE_SIZE);
            LoadOlderTurns(full, Some(full[k].id), DEFAULT_PAGE_SIZE) == Page(older[next..k], if next == 0 then None else Some(older[next].id))
  {
    FoundAt(full, k);
    var next := Max(0, k - DEFAULT_PAGE_SIZE);
    assert older <= full;
    SliceOfPrefix(full, older, next, k);
    assert full[next] == older[next];
  }

  lemma {:induction false} FetchLoadsOnePage(chat: Chat, full: seq<Turn>, older: seq<Turn>, k: nat, shown: seq<Turn>)
    requires Paged(chat, older, k, shown) && Knows(full, older, shown)
    ensures var next := Max(0, k - DEFAULT_PAGE_SIZE);
            var r := DispatchOlderTurns(chat, full, chat.cursor);
            && r.Accepted? && Paged(r.value, older, next, shown) && (k > 0 ==> next < k)
            && r.value.turns == older[next..k] + chat.turns
  {
    if k > 0 {
      BoundaryIs(chat, full, older, k, shown);
      OlderPage(full, older, k);
      SliceJoins(older, Max(0, k - DEFAULT_PAGE_SIZE), k, shown);
    } else {
      assert [] + chat.turns == chat.turns;
    }
  }

  /** A fetch keeps paging exact if and only if it names the chat's current cursor. One without a cursor is
      accepted as well, and clears the cursor while older turns remain unreached. */
  lemma FetchExactIff(chat: Chat, full: seq<Turn>, older: seq<Turn>, k: nat, shown: seq<Turn>, cursor: Option<TurnId>)
    requires Paged(chat, older, k, shown) && Knows(full, older, shown)
    ensures var r := DispatchOlderTurns(chat, full, cursor);
            r.Accepted? ==> ((exists next: nat :: Paged(r.value, older, next, shown)) <==> cursor == chat.cursor)
  {
    var r := DispatchOlderTurns(chat, full, cursor);
    if cursor == chat.cursor {
      FetchLoadsOnePage(chat, full, older, k, shown);
    } else if r.Accepted? {
      assert r.value.turns == chat.turns && r.value.cursor.None? && k > 0;
      forall next: nat ensures !Paged(r.value, older, next, shown) {
      }
    }
  }

  function FetchAll(chat: Chat, full: seq<Turn>, fetches: nat): Chat
    decreases fetches
  {
    if fetches == 0 then chat
    else
      var r := DispatchOlderTurns(chat, full, chat.cursor);
      FetchAll(if r.Accepted? then r.value else chat, full, fetches - 1)
  }

  /** How many fetches it takes to reach the beginning from turn `k`. */
  function PagesFor(k: nat): nat {
    (k + DEFAULT_PAGE_SIZE - 1) / DEFAULT_PAGE_SIZE
  }

  /** Following the cursor reassembles the whole history, no turn missing or twice, and then the cursor is gone. */
  lemma {:induction false} PagesReassemble(chat: Chat, full: seq<Turn>, older: seq<Turn>, k: nat, shown: seq<Turn>, whole: seq<Turn>)
    requires Paged(chat, older, k, shown) && Knows(full, older, shown) && whole == older + shown
    ensures var end := FetchAll(chat, full, PagesFor(k)); end.turns == whole && end.cursor.None?
    ensures forall n :: 0 <= n < PagesFor(k) ==> FetchAll(chat, full, n).cursor.Some?
    decreases k
  {
    var fetches := PagesFor(k);
    if k > 0 {
      FetchLoadsOnePage(chat, full, older, k, shown);
      var next := Max(0, k - DEFAULT_PAGE_SIZE);
      var chat1 := DispatchOlderTurns(chat, full, chat.cursor).value;
      PagesReassemble(chat1, full, older, next, shown, whole);
      assert PagesFor(next) == fetches - 1;
      forall n | 0 <= n < fetches ensures FetchAll(chat, full, n).cursor.Some? {
        if n > 0 {
          assert FetchAll(chat, full, n) == FetchAll(chat1, full, n - 1);
        }
      }
    } else {
      assert older[0..] == older;
    }
  }

  lemma WindowReassembles(chat: Chat, full: seq<Turn>, start: nat)
    requires start < |full|
    requires Paged(chat, full[..start], start, full[start..]) && Continues(full, full[..start], full[start..][0].id)
    ensures var end := FetchAll(chat, full, PagesFor(start)); end.turns == full && end.cursor.None?
  {
    assert full[..start] + full[start..] == full;
    PagesReassemble(chat, full, full[..start], start, full[start..], full);
  }

  lemma HydratedIsPaged(entries: seq<H.Entry>, full: seq<Turn>, chat: Chat, start: nat)
    requires H.DistinctIds(entries) && full == H.History(entries).turns && full != []
    requires start == Max(0, |full| - DEFAULT_PAGE_SIZE)
    requires var page := InitialTurnsWindow(full, DEFAULT_PAGE_SIZE); chat.turns == page.turns && chat.cursor == page.nextCursor
    ensures start < |full| && Paged(chat, full[..start], start, full[start..]) && Continues(full, full[..start], full[start..][0].id)
  {
    H.TurnIdsDistinct(entries);
    InitialWindowIsPaged(chat, full, DEFAULT_PAGE_SIZE);
  }

  /** Hydration followed by paging shows exactly the rebuilt history, and then no cursor is left. */
  lemma {:induction false} HydrationThenPaging(entries: seq<H.Entry>, full: seq<Turn>, chat: Chat, start: nat)
    requires H.DistinctIds(entries) && full == H.History(entries).turns && full != []
    requires start == Max(0, |full| - DEFAULT_PAGE_SIZE)
    requires var page := InitialTurnsWindow(full, DEFAULT_PAGE_SIZE); chat.turns == page.turns && chat.cursor == page.nextCursor
    ensures var end := FetchAll(chat, full, PagesFor(start)); end.turns == full && end.cursor.None?
  {
    HydratedIsPaged(entries, full, chat, start);
    WindowReassembles(chat, full, start);
  }

  // ── Loading the target of a truncation ────────────────────────────────────

  predicate Holds(turns: seq<Turn>, id: TurnId) {
    exists i :: 0 <= i < |turns| && turns[i].id == id
  }

  /** What loading the target amounts to: nothing when the turn is there, a refusal when it is not an older turn
      of the branch, and otherwise everything from the target up to the oldest turn shown. */
  function Loaded(chat: Chat, full: seq<Turn>, id: TurnId): Outcome<Chat> {
    if Holds(chat.turns, id) then Accepted(chat)
    else if chat.turns == [] || chat.cursor.None? then Refused
    else
      var target, boundary := FindTurn(full, id), FindTurn(full, chat.turns[0].id);
      if target < 0 || boundary <= target then Refused
      else Accepted(chat.(turns := full[target..boundary] + chat.turns, cursor := CursorAt(full, target)))
  }

  lemma PageConcat(full: seq<Turn>, start: nat, end: nat, boundary: nat, shown: seq<Turn>)
    requires start <= end <= boundary <= |full|
    ensures full[start..end] + (full[end..boundary] + shown) == full[start..boundary] + shown
  {
  }

  /** Prepends bounded pages, newest first, until the named turn is the oldest one loaded. */
  method LoadTruncationTarget(chat: Chat, full: seq<Turn>, id: TurnId) returns (r: Outcome<Chat>)
    ensures r == Loaded(chat, full, id)
  {
    if Holds(chat.turns, id) {
      return Accepted(chat);
    }
    if chat.turns == [] || chat.cursor.None? {
      return Refused;
    }
    var target, boundary := FindTurn(full, id), FindTurn(full, chat.turns[0].id);
    if target < 0 || boundary <= target {
      return Refused;
    }
    var state, end := chat, boundary;
    assert full[boundary..boundary] + chat.turns == chat.turns;
    while end > target
      invariant target <= end <= boundary
      invariant state == chat.(turns := full[end..boundary] + chat.turns,
                               cursor := if end == boundary then chat.cursor else CursorAt(full, end))
    {
      var start := Max(target, end - DEFAULT_PAGE_SIZE);
      var turns := full[start..end];
      state := Reduce(state, TurnsLoaded(turns, if start > 0 then Some(turns[0].id) else None));
      PageConcat(full, start, end, boundary, chat.turns);
      end := start;
    }
    r := Accepted(state);
  }

  lemma FindInWhole(turns: seq<Turn>, id: TurnId)
    ensures Holds(turns, id) <==> FindTurn(turns, id) >= 0
  {
  }

  /** A turn not shown yet is at the same place in the chat's whole history and in the branch, or in neither before `k`. */
  lemma UnshownIs(full: seq<Turn>, older: seq<Turn>, k: nat, shown: seq<Turn>, whole: seq<Turn>, id: TurnId)
    requires k <= |older| && shown != [] && whole == older + shown && Continues(full, older, shown[0].id)
    requires !Holds(older[k..] + shown, id)
    ensures Holds(whole, id) <==> 0 <= FindTurn(full, id) < k
    ensures Holds(whole, id) ==> FindTurn(full, id) == FindTurn(whole, id)
  {
    var chat := older[k..] + shown;
    assert whole == older[..k] + chat;
    assert full[..k] == full[..|older|][..k] == older[..k] == whole[..k];
    assert forall i :: 0 <= i < k ==> full[i] == full[..k][i] && whole[i] == whole[..k][i];
    assert forall i :: k <= i < |whole| ==> whole[i] == chat[i - k];
    FindInWhole(whole, id);
  }

  /** A turn that was paged away is loaded with everything after it. */
  lemma PagedAwayIsLoaded(chat: Chat, full: seq<Turn>, older: seq<Turn>, k: nat, shown: seq<Turn>, id: TurnId, target: nat)
    requires Paged(chat, older, k, shown) && shown != [] && Continues(full, older, shown[0].id)
    requires !Holds(chat.turns, id) && FindTurn(full, id) == target < k
    ensures var r := Loaded(chat, full, id); r.Accepted? && Paged(r.value, older, target, shown)
  {
    BoundaryIs(chat, full, older, k, shown);
    assert older <= full by { assert full[..|older|] == older; }
    SliceOfPrefix(full, older, target, k);
    SliceJoins(older, target, k, shown);
  }

  lemma ShownIsFound(older: seq<Turn>, k: nat, shown: seq<Turn>, whole: seq<Turn>, id: TurnId)
    requires k <= |older| && whole == older + shown && DistinctTurns(whole) && Holds(older[k..] + shown, id)
    ensures Holds(whole, id) && FindTurn(whole, id) >= k
  {
    var turns := older[k..] + shown;
    var i :| 0 <= i < |turns| && turns[i].id == id;
    assert whole[k + i] == turns[i];
    FoundAt(whole, k + i);
  }

  /** Exactly the turns of the chat's whole history can be loaded, those paged away as well as those shown, among them
      what has happened live since hydration; the chat then shows everything from the named turn on, or what it showed
      before when that was more. */
  lemma LoadReachesEveryTurn(chat: Chat, full: seq<Turn>, older: seq<Turn>, k: nat, shown: seq<Turn>, whole: seq<Turn>, id: TurnId)
    requires Paged(chat, older, k, shown) && Knows(full, older, shown)
    requires whole == older + shown && DistinctTurns(whole)
    ensures var r, target := Loaded(chat, full, id), FindTurn(whole, id);
            && (r.Accepted? <==> Holds(whole, id))
            && (r.Accepted? ==> 0 <= target && Paged(r.value, older, if target < k then target else k, shown))
  {
    if Holds(chat.turns, id) {
      ShownIsFound(older, k, shown, whole, id);
    } else {
      if k == 0 {
        assert older[0..] == older;
      } else {
        UnshownIs(full, older, k, shown, whole, id);
        if Holds(whole, id) {
          PagedAwayIsLoaded(chat, full, older, k, shown, id, FindTurn(full, id));
        } else {
          BoundaryIs(chat, full, older, k, shown);
        }
      }
    }
  }

  /** How much of the older turns is left when the history ends with turn `target`. */
  function Left(older: seq<Turn>, target: nat): nat {
    if target < |older| then target else |older|
  }

  lemma TruncateKeeps(chat: Chat, whole: seq<Turn>, k: nat, target: nat)
    requires DistinctTurns(whole) && k <= target < |whole| && chat.turns == whole[k..]
    ensures Reduce(chat, Truncated(Some(whole[target].id))) == chat.(turns := whole[k..target + 1])
  {
    var at := target - k;
    assert chat.turns[at] == whole[target];
    forall i | 0 <= i < at ensures chat.turns[i].id != chat.turns[at].id {
      assert chat.turns[i] == whole[k + i];
    }
    H.KeepThroughAt(chat.turns, at);
    assert whole[k..][..at + 1] == whole[k..target + 1];
  }

  lemma SliceSplits(whole: seq<Turn>, k: nat, left: nat, end: nat)
    requires k <= left < end <= |whole|
    ensures whole[k..end] == whole[..left][k..] + whole[left..end] && whole[k..end][0] == whole[k]
  {
  }

  lemma ShownIsSlice(older: seq<Turn>, k: nat, shown: seq<Turn>, whole: seq<Turn>)
    requires whole == older + shown && k <= |older| && shown != []
    ensures older[k..] + shown == whole[k..] && (older[k..] + shown)[0] == whole[k]
  {
  }

  /** Turns `k` to `target`, split at what is left of the older ones, are paged as before. */
  lemma SlicePaged(chat: Chat, whole: seq<Turn>, k: nat, left: nat, target: nat)
    requires k <= left <= target < |whole| && chat.turns == whole[k..target + 1]
    requires chat.cursor == if k == 0 then None else Some(whole[k].id)
    ensures Paged(chat, whole[..left], k, whole[left..target + 1])
  {
    SliceSplits(whole, k, left, target + 1);
  }

  /** Truncating at a turn that is shown leaves the chat showing the same turns up to it, still paged. */
  lemma TruncateKeepsWindow(chat: Chat, older: seq<Turn>, k: nat, shown: seq<Turn>, whole: seq<Turn>, target: nat)
    requires Paged(chat, older, k, shown) && whole == older + shown && DistinctTurns(whole) && k <= target < |whole|
    ensures var left, after := Left(older, target), Reduce(chat, Truncated(Some(whole[target].id)));
            && after.turns == whole[k..target + 1]
            && Paged(after, whole[..left], k, whole[left..target + 1])
  {
    ShownIsSlice(older, k, shown, whole);
    TruncateKeeps(chat, whole, k, target);
    SlicePaged(chat.(turns := whole[k..target + 1]), whole, k, Left(older, target), target);
  }

  /** The branch that ends with turn `target` goes on from what is left of the older turns. */
  lemma TruncatedContinues(full: seq<Turn>, older: seq<Turn>, shown: seq<Turn>, whole: seq<Turn>, target: nat)
    requires whole == older + shown && Knows(full, older, shown) && target < |full| && target < |whole|
    ensures var left := Left(older, target);
            Knows(full[..target + 1], whole[..left], whole[left..target + 1]) && (target < |older| ==> whole[..target + 1] == full[..target + 1])
  {
    var left := Left(older, target);
    if older != [] {
      assert full[..target + 1][..left] == full[..|older|][..left] == whole[..left];
      if target < |older| {
        assert full[target] == full[..|older|][target] == whole[target];
      } else {
        assert whole[|older|] == shown[0];
      }
      assert whole[left..target + 1][0] == whole[left];
    }
  }

  /**
   The whole truncation of an anchored turn that the chat knows by its rebuilt id: load it, let pi navigate to the
   anchor, reduce the action. The chat ends up showing its own turns up to the named one, paged over what the remaining
   entries rebuild to, so paging goes on from there; turns from before the hydrated window are the rebuilt ones.
   */
  lemma TruncationEndToEnd(entries: seq<H.Entry>, chat: Chat, older: seq<Turn>, k: nat, shown: seq<Turn>, whole: seq<Turn>, target: nat)
    requires H.DistinctIds(entries) && whole == older + shown && DistinctTurns(whole)
    requires Paged(chat, older, k, shown) && Knows(H.History(entries).turns, older, shown)
    requires var full := H.History(entries).turns;
             target < |full| && target < |whole| && whole[target].id == full[target].id && Some(full[target].id) in H.History(entries).anchors
    ensures var full := H.History(entries).turns;
            var anchor, id := H.History(entries).anchors[Some(full[target].id)], full[target].id;
            var loaded, from := Loaded(chat, full, id), if target < k then target else k;
            && loaded.Accepted?
            && exists p :: 0 <= p < |entries| && entries[p].id == anchor &&
                 TruncatedTo(Reduce(loaded.value, Truncated(Some(id))), H.History(entries[..p + 1]).turns, older, from, whole, target)
  {
    var full := H.History(entries).turns;
    var from := if target < k then target else k;
    FoundAt(whole, target);
    FindInWhole(whole, whole[target].id);
    LoadReachesEveryTurn(chat, full, older, k, shown, whole, full[target].id);
    var loaded := Loaded(chat, full, full[target].id).value;
    TruncateKeepsWindow(loaded, older, from, shown, whole, target);
    TruncatedContinues(full, older, shown, whole, target);
    H.TruncationCommutes(entries, target);
    var anchor := H.History(entries).anchors[Some(full[target].id)];
    var p :| 0 <= p < |entries| && entries[p].id == anchor && !entries[p].UserEntry?
             && H.History(entries[..p + 1]).turns == full[..target + 1];
    assert TruncatedTo(Reduce(loaded, Truncated(Some(full[target].id))), H.History(entries[..p + 1]).turns, older, from, whole, target);
  }

  /** The chat shows its turns `from` to `target`, paged over the branch that rebuilds to `rest`. */
  ghost predicate TruncatedTo(chat: Chat, rest: seq<Turn>, older: seq<Turn>, from: nat, whole: seq<Turn>, target: nat)
    requires from <= Left(older, target) <= target < |whole|
  {
    var left := Left(older, target);
    && chat.turns == whole[from..target + 1]
    && Paged(chat, whole[..left], from, whole[left..target + 1])
    && Knows(rest, whole[..left], whole[left..target + 1])
    && |rest| == target + 1
    && (target < |older| ==> chat.turns == rest[from..])
  }
}
