/**
 One native recursive subscription per root, shared by reference count. Opening, failing and closing a native source
 are the environment's; a rejected `ready` wakes everyone who awaits it before anything else happens.
 */
module WatchPoolSpec {
  import opened Collections
  import opened Protocol

  type Root = nat
  type Change = nat

  datatype Phase =
    | Waiting(previous: Option<nat>)   // for the close of an earlier entry, if one was pending
    | Opening                          // the native open has been called
    | Ready                            // the native source is open
    | Rejected                         // it never opened
    | Closing                          // close has been called on the source
    | Closed(ok: bool)                 // that close has settled

  datatype Entry = Entry(root: Root, phase: Phase, refs: nat, subscribers: set<nat>, failed: bool,
                         opens: nat, closes: nat, changes: seq<Change>)

  datatype Standing = Pending | Active | Gone

  /** A subscriber, the changes it was given, and how many of its entry's changes came before it was active. */
  datatype Subscriber = Subscriber(entry: nat, standing: Standing, joined: nat, received: seq<Change>)

  datatype Pool = Pool(entries: seq<Entry>, current: map<Root, nat>, closing: map<Root, nat>, subscribers: seq<Subscriber>)

  const Empty := Pool([], map[], map[], [])

  function Lookup(m: map<Root, nat>, root: Root): Option<nat> {
    if root in m then Some(m[root]) else None
  }

  function CreateEntry(p: Pool, root: Root): Pool {
    p.(entries := p.entries + [Entry(root, Waiting(Lookup(p.closing, root)), 0, {}, false, 0, 0, [])],
       current := p.current[root := |p.entries|])
  }

  function Join(p: Pool, e: nat): Pool
    requires e < |p.entries|
  {
    var s := |p.subscribers|;
    p.(entries := p.entries[e := p.entries[e].(refs := p.entries[e].refs + 1, subscribers := p.entries[e].subscribers + {s})],
       subscribers := p.subscribers + [Subscriber(e, Pending, 0, [])])
  }

  /** Joining an entry whose source has failed is refused before anything is counted. */
  function Acquire(p: Pool, root: Root): Pool {
    var p1 := if root in p.current then p else CreateEntry(p, root);
    var e := p1.current[root];
    if e < |p1.entries| && !p1.entries[e].failed then Join(p1, e) else p1
  }

  /** The last reference closes the source and makes room for a new entry, which will wait for that close. */
  function Release(p: Pool, e: nat): Pool
    requires e < |p.entries| && p.entries[e].refs > 0
  {
    var entry := p.entries[e].(refs := p.entries[e].refs - 1);
    if entry.refs > 0 then p.(entries := p.entries[e := entry])
    else
      p.(entries := p.entries[e := entry.(phase := Closing, closes := entry.closes + 1)],
         closing := p.closing[entry.root := e],
         current := if Lookup(p.current, entry.root) == Some(e) then p.current - {entry.root} else p.current)
  }

  /** A subscriber leaves its entry. */
  function Leave(p: Pool, s: nat): Pool
    requires s < |p.subscribers| && p.subscribers[s].entry < |p.entries| && p.entries[p.subscribers[s].entry].refs > 0
  {
    var e := p.subscribers[s].entry;
    Release(p.(subscribers := p.subscribers[s := p.subscribers[s].(standing := Gone)],
               entries := p.entries[e := p.entries[e].(subscribers := p.entries[e].subscribers - {s})]), e)
  }

  /** The entry never opens: it is forgotten, and everyone awaiting it leaves, with nothing to close. */
  function Reject(p: Pool, e: nat): Pool
    requires e < |p.entries|
  {
    var entry := p.entries[e];
    p.(entries := p.entries[e := entry.(phase := Rejected, refs := 0, subscribers := {})],
       current := if Lookup(p.current, entry.root) == Some(e) then p.current - {entry.root} else p.current,
       closing := p.closing - {entry.root},
       subscribers := seq(|p.subscribers|, s requires 0 <= s < |p.subscribers| =>
         if s in entry.subscribers then p.subscribers[s].(standing := Gone) else p.subscribers[s]))
  }

  function Deliver(p: Pool, e: nat, change: Change): Pool
    requires e < |p.entries|
  {
    p.(entries := p.entries[e := p.entries[e].(changes := p.entries[e].changes + [change])],
       subscribers := seq(|p.subscribers|, s requires 0 <= s < |p.subscribers| =>
         if s in p.entries[e].subscribers && p.subscribers[s].standing.Active?
         then p.subscribers[s].(received := p.subscribers[s].received + [change]) else p.subscribers[s]))
  }

  datatype Step =
    | Acquires(root: Root)
    | Opens(e: nat)                        // nothing left to wait for: the native open is called
    | PreviousCloseFailed(e: nat)
    | OpenSucceeds(e: nat)
    | OpenFails(e: nat)
    | Wakes(s: nat)                        // its acquire continues once the source is open
    | SourceFails(e: nat)
    | SourceReports(e: nat, change: Change)
    | Closes(s: nat)
    | CloseSettles(e: nat, ok: bool)

  predicate Awaits(p: Pool, e: nat) {
    e < |p.entries| && p.entries[e].phase.Waiting?
  }

  predicate CloseEnded(p: Pool, e: nat, ok: bool) {
    e < |p.entries| && p.entries[e].phase == Closed(ok)
  }

  predicate Enabled(p: Pool, step: Step) {
    match step
    case Acquires(_) => true
    case Opens(e) =>
      Awaits(p, e) && (p.entries[e].phase.previous.Some? ==> CloseEnded(p, p.entries[e].phase.previous.value, true))
    case PreviousCloseFailed(e) =>
      Awaits(p, e) && p.entries[e].phase.previous.Some? && CloseEnded(p, p.entries[e].phase.previous.value, false)
    case OpenSucceeds(e) => e < |p.entries| && p.entries[e].phase.Opening?
    case OpenFails(e) => e < |p.entries| && p.entries[e].phase.Opening?
    case Wakes(s) => s < |p.subscribers| && p.subscribers[s].standing.Pending? && p.subscribers[s].entry < |p.entries|
                     && p.entries[p.subscribers[s].entry].phase.Ready? && p.entries[p.subscribers[s].entry].refs > 0
    case SourceFails(e) => e < |p.entries| && (p.entries[e].phase.Ready? || p.entries[e].phase.Closing?)
    case SourceReports(e, _) => e < |p.entries| && (p.entries[e].phase.Ready? || p.entries[e].phase.Closing?)
    case Closes(s) => s < |p.subscribers| && p.subscribers[s].standing.Active? && p.subscribers[s].entry < |p.entries|
                      && p.entries[p.subscribers[s].entry].refs > 0
    case CloseSettles(e, _) => e < |p.entries| && p.entries[e].phase.Closing?
  }

  function SetEntry(p: Pool, e: nat, entry: Entry): Pool
    requires e < |p.entries|
  {
    p.(entries := p.entries[e := entry])
  }

  function Wake(p: Pool, s: nat): Pool
    requires Enabled(p, Wakes(s))
  {
    var e := p.subscribers[s].entry;
    if p.entries[e].failed then Leave(p, s)
    else p.(subscribers := p.subscribers[s := p.subscribers[s].(standing := Active, joined := |p.entries[e].changes|)])
  }

  function Next(p: Pool, step: Step): Pool
    requires Enabled(p, step)
  {
    match step
    case Acquires(root) => Acquire(p, root)
    case Opens(e) => SetEntry(p, e, p.entries[e].(phase := Opening, opens := p.entries[e].opens + 1))
    case PreviousCloseFailed(e) => Reject(p, e)
    case OpenSucceeds(e) => SetEntry(p, e, p.entries[e].(phase := Ready))
    case OpenFails(e) => Reject(p, e)
    case Wakes(s) => Wake(p, s)
    case SourceFails(e) => SetEntry(p, e, p.entries[e].(failed := true))
    case SourceReports(e, change) => Deliver(p, e, change)
    case Closes(s) => Leave(p, s)
    case CloseSettles(e, ok) =>
      var root := p.entries[e].root;
      SetEntry(p, e, p.entries[e].(phase := Closed(ok))).(closing :=
        if Lookup(p.closing, root) == Some(e) then p.closing - {root} else p.closing)
  }

  predicate Trace(p: Pool, steps: seq<Step>)
    decreases |steps|
  {
    steps == [] || (Enabled(p, steps[0]) && Trace(Next(p, steps[0]), steps[1..]))
  }

  function Run(p: Pool, steps: seq<Step>): Pool
    requires Trace(p, steps)
    decreases |steps|
  {
    if steps == [] then p else Run(Next(p, steps[0]), steps[1..])
  }

  // ── What every run keeps ──────────────────────────────────────────────────

  /** The native source may exist: from the moment open is called until its close has settled. */
  predicate Native(e: Entry) {
    e.phase.Opening? || e.phase.Ready? || e.phase.Closing?
  }

  predicate Over(e: Entry) {
    e.phase.Rejected? || e.phase.Closed?
  }

  /** The entry is over, closing, or its root's current one. */
  predicate Placed(p: Pool, e: nat)
    requires e < |p.entries|
  {
    || Over(p.entries[e])
    || (p.entries[e].phase.Closing? && Lookup(p.closing, p.entries[e].root) == Some(e))
    || (!p.entries[e].phase.Closing? && Lookup(p.current, p.entries[e].root) == Some(e))
  }

  ghost predicate CurrentOk(p: Pool) {
    forall root :: root in p.current ==>
      p.current[root] < |p.entries| && p.entries[p.current[root]].root == root
      && !Over(p.entries[p.current[root]]) && !p.entries[p.current[root]].phase.Closing?
  }

  ghost predicate ClosingOk(p: Pool) {
    forall root :: root in p.closing ==>
      p.closing[root] < |p.entries| && p.entries[p.closing[root]].root == root && p.entries[p.closing[root]].phase.Closing?
  }

  /** Which entries a root may have: the current one, and at most one other that is still closing, for which the
      current one then waits. */
  ghost predicate Lifecycle(p: Pool) {
    && CurrentOk(p) && ClosingOk(p)
    && (forall e :: 0 <= e < |p.entries| ==> Placed(p, e))
    && (forall root :: root in p.current && root in p.closing ==>
          p.entries[p.current[root]].phase == Waiting(Some(p.closing[root])))
  }

  /** An entry counts its subscribers; it opens its source at most once, and has closed it exactly once just when its
      last subscriber has left, unless it never opened. */
  ghost predicate EntryOk(e: Entry) {
    && e.refs == |e.subscribers|
    && (e.refs == 0 <==> Over(e) || e.phase.Closing?)
    && e.opens <= 1 && (e.phase.Waiting? ==> e.opens == 0) && (Native(e) || e.phase.Closed? ==> e.opens == 1)
    && e.closes == (if e.phase.Closing? || e.phase.Closed? then 1 else 0)
    && (e.failed ==> e.opens == 1)
  }

  ghost predicate Members(p: Pool) {
    && (forall e, s :: 0 <= e < |p.entries| && s in p.entries[e].subscribers ==> s < |p.subscribers|)
    && (forall s :: 0 <= s < |p.subscribers| ==> p.subscribers[s].entry < |p.entries|)
    && (forall e, s :: 0 <= e < |p.entries| && 0 <= s < |p.subscribers| ==>
          (s in p.entries[e].subscribers <==> p.subscribers[s].entry == e && !p.subscribers[s].standing.Gone?))
  }

  /** What a subscriber was given is a stretch of its source's changes, up to the latest one while it is active. */
  ghost predicate SubscriberOk(p: Pool, s: Subscriber) {
    s.entry < |p.entries|
    && var changes := p.entries[s.entry].changes;
       && s.joined + |s.received| <= |changes|
       && s.received == changes[s.joined..s.joined + |s.received|]
       && (s.standing.Active? ==> s.joined + |s.received| == |changes|)
       && (s.standing.Active? ==> p.entries[s.entry].phase.Ready?)
       && (s.standing.Pending? ==> s.received == [])
  }

  ghost predicate Entries(p: Pool) {
    forall e :: 0 <= e < |p.entries| ==> EntryOk(p.entries[e])
  }

  ghost predicate Subscribers(p: Pool) {
    forall s :: 0 <= s < |p.subscribers| ==> SubscriberOk(p, p.subscribers[s])
  }

  ghost predicate Inv(p: Pool) {
    Lifecycle(p) && Members(p) && Entries(p) && Subscribers(p)
  }

  /** Entries that only count or record differently have the same lifecycle. */
  lemma SameLifecycle(p: Pool, q: Pool)
    requires Lifecycle(p) && q.current == p.current && q.closing == p.closing && |q.entries| == |p.entries|
    requires forall e :: 0 <= e < |p.entries| ==> q.entries[e].root == p.entries[e].root && q.entries[e].phase == p.entries[e].phase
    ensures Lifecycle(q)
  {
    forall e | 0 <= e < |q.entries| ensures Placed(q, e) { assert Placed(p, e); }
  }

  // ── Acquiring ─────────────────────────────────────────────────────────────

  lemma CreatePlaces(p: Pool, root: Root)
    requires Lifecycle(p) && root !in p.current
    ensures var q := CreateEntry(p, root); forall f :: 0 <= f < |q.entries| ==> Placed(q, f)
  {
    var q := CreateEntry(p, root);
    forall f | 0 <= f < |q.entries| ensures Placed(q, f) {
      if f < |p.entries| { assert q.entries[f] == p.entries[f] && Placed(p, f); }
    }
  }

  lemma CreateMaps(p: Pool, root: Root)
    requires CurrentOk(p) && ClosingOk(p)
    ensures CurrentOk(CreateEntry(p, root)) && ClosingOk(CreateEntry(p, root))
  {
    var q := CreateEntry(p, root);
    assert forall e :: 0 <= e < |p.entries| ==> q.entries[e] == p.entries[e];
  }

  lemma CreateLifecycle(p: Pool, root: Root)
    requires Lifecycle(p) && root !in p.current
    ensures Lifecycle(CreateEntry(p, root))
  {
    CreatePlaces(p, root);
    CreateMaps(p, root);
    var q := CreateEntry(p, root);
    forall r | r in q.current && r in q.closing ensures q.entries[q.current[r]].phase == Waiting(Some(q.closing[r])) {
      if r != root { assert q.entries[p.current[r]] == p.entries[p.current[r]]; }
    }
  }

  lemma CreateOthers(p: Pool, root: Root)
    requires Members(p) && Subscribers(p)
    ensures Members(CreateEntry(p, root)) && Subscribers(CreateEntry(p, root))
  {
    var q := CreateEntry(p, root);
    forall s | 0 <= s < |q.subscribers| ensures SubscriberOk(q, q.subscribers[s]) {
      assert SubscriberOk(p, p.subscribers[s]);
    }
  }

  lemma JoinKeeps(p: Pool, e: nat)
    requires Lifecycle(p) && Members(p) && Subscribers(p) && e < |p.entries|
    ensures Lifecycle(Join(p, e)) && Members(Join(p, e)) && Subscribers(Join(p, e))
  {
    var q := Join(p, e);
    SameLifecycle(p, q);
    forall s | 0 <= s < |q.subscribers| ensures SubscriberOk(q, q.subscribers[s]) {
      if s < |p.subscribers| { assert SubscriberOk(p, p.subscribers[s]); }
    }
  }

  lemma JoinEntry(p: Pool, e: nat)
    requires Members(p) && e < |p.entries|
    ensures var entry := p.entries[e];
            |Join(p, e).entries[e].subscribers| == |entry.subscribers| + 1
  {
    assert |p.subscribers| !in p.entries[e].subscribers;
  }

  lemma JoinEntries(p: Pool, e: nat)
    requires Members(p) && e < |p.entries| && Joinable(p.entries[e])
    requires forall f :: 0 <= f < |p.entries| && f != e ==> EntryOk(p.entries[f])
    ensures Entries(Join(p, e))
  {
    JoinEntry(p, e);
  }

  /** An entry that may count one more subscriber, whether it has any yet or has just been created. */
  ghost predicate Joinable(e: Entry) {
    && e.refs == |e.subscribers| && !Over(e) && !e.phase.Closing?
    && e.opens <= 1 && (e.phase.Waiting? ==> e.opens == 0) && (Native(e) ==> e.opens == 1)
    && e.closes == 0 && (e.failed ==> e.opens == 1)
  }

  lemma AcquireKeeps(p: Pool, root: Root)
    requires Inv(p)
    ensures Inv(Acquire(p, root))
  {
    if root in p.current {
      assert EntryOk(p.entries[p.current[root]]);
      JoinKeeps(p, p.current[root]);
      JoinEntries(p, p.current[root]);
    } else {
      CreateLifecycle(p, root);
      CreateOthers(p, root);
      JoinKeeps(CreateEntry(p, root), |p.entries|);
      JoinEntries(CreateEntry(p, root), |p.entries|);
    }
  }

  // ── Leaving ───────────────────────────────────────────────────────────────

  /** The current entry starts closing and stops being current; nothing else of its root was closing. */
  lemma ClosingLifecycle(p: Pool, e: nat, q: Pool)
    requires Lifecycle(p) && e < |p.entries| && p.entries[e].phase.Ready?
    requires |q.entries| == |p.entries| && q.entries[e].root == p.entries[e].root && q.entries[e].phase.Closing?
    requires forall f :: 0 <= f < |p.entries| && f != e ==>
      q.entries[f].root == p.entries[f].root && q.entries[f].phase == p.entries[f].phase
    requires q.current == p.current - {p.entries[e].root} && q.closing == p.closing[p.entries[e].root := e]
    ensures Lifecycle(q)
  {
    var root := p.entries[e].root;
    assert Placed(p, e);
    assert Lookup(p.current, root) == Some(e) && root !in p.closing;
    forall f | 0 <= f < |q.entries| ensures Placed(q, f) {
      assert Placed(p, f);
      assert f != e && q.entries[f].root == root ==> Over(p.entries[f]);
    }
  }

  lemma LeaveLifecycle(p: Pool, s: nat)
    requires Lifecycle(p) && s < |p.subscribers| && p.subscribers[s].entry < |p.entries|
    requires p.entries[p.subscribers[s].entry].phase.Ready? && p.entries[p.subscribers[s].entry].refs > 0
    ensures Lifecycle(Leave(p, s))
  {
    var e := p.subscribers[s].entry;
    if p.entries[e].refs == 1 {
      assert Placed(p, e);
      ClosingLifecycle(p, e, Leave(p, s));
    } else {
      SameLifecycle(p, Leave(p, s));
    }
  }

  lemma LeaveMembers(p: Pool, s: nat)
    requires Members(p) && s < |p.subscribers| && !p.subscribers[s].standing.Gone?
    requires p.entries[p.subscribers[s].entry].refs > 0
    ensures Members(Leave(p, s))
  {
  }

  lemma LeaveEntries(p: Pool, s: nat)
    requires Members(p) && Entries(p) && s < |p.subscribers| && !p.subscribers[s].standing.Gone?
    requires p.entries[p.subscribers[s].entry].phase.Ready? && p.entries[p.subscribers[s].entry].refs > 0
    ensures Entries(Leave(p, s))
  {
    var e := p.subscribers[s].entry;
    assert EntryOk(p.entries[e]) && s in p.entries[e].subscribers;
    assert |p.entries[e].subscribers - {s}| == |p.entries[e].subscribers| - 1;
  }

  lemma TwoAreCounted(p: Pool, s: nat, t: nat)
    requires Members(p) && Entries(p) && s < |p.subscribers| && t < |p.subscribers| && s != t
    requires !p.subscribers[s].standing.Gone? && !p.subscribers[t].standing.Gone? && p.subscribers[t].entry == p.subscribers[s].entry
    ensures p.entries[p.subscribers[s].entry].refs >= 2
  {
    var members := p.entries[p.subscribers[s].entry].subscribers;
    assert {s, t} <= members && |{s, t}| == 2;
    SubsetSize({s, t}, members);
    assert EntryOk(p.entries[p.subscribers[s].entry]);
  }

  lemma LeaveSubscribers(p: Pool, s: nat)
    requires Members(p) && Entries(p) && Subscribers(p) && s < |p.subscribers| && !p.subscribers[s].standing.Gone?
    requires p.entries[p.subscribers[s].entry].phase.Ready? && p.entries[p.subscribers[s].entry].refs > 0
    ensures Subscribers(Leave(p, s))
  {
    var q := Leave(p, s);
    forall t | 0 <= t < |q.subscribers| ensures SubscriberOk(q, q.subscribers[t]) {
      assert SubscriberOk(p, p.subscribers[t]);
      if t != s && p.subscribers[t].entry == p.subscribers[s].entry && !p.subscribers[t].standing.Gone? { TwoAreCounted(p, s, t); }
    }
  }

  lemma LeaveKeeps(p: Pool, s: nat)
    requires Inv(p) && s < |p.subscribers| && !p.subscribers[s].standing.Gone?
    requires p.entries[p.subscribers[s].entry].phase.Ready? && p.entries[p.subscribers[s].entry].refs > 0
    ensures Inv(Leave(p, s))
  {
    LeaveLifecycle(p, s);
    LeaveMembers(p, s);
    LeaveEntries(p, s);
    LeaveSubscribers(p, s);
  }

  // ── The other steps ───────────────────────────────────────────────────────

  lemma RejectLifecycle(p: Pool, e: nat)
    requires Lifecycle(p) && (Enabled(p, OpenFails(e)) || Enabled(p, PreviousCloseFailed(e)))
    ensures Lifecycle(Reject(p, e))
  {
    var q, root := Reject(p, e), p.entries[e].root;
    assert Placed(p, e);
    assert Lookup(p.current, root) == Some(e) && root !in p.closing;
    forall f | 0 <= f < |q.entries| ensures Placed(q, f) {
      assert Placed(p, f);
    }
  }

  lemma RejectKeeps(p: Pool, e: nat)
    requires Inv(p) && (Enabled(p, OpenFails(e)) || Enabled(p, PreviousCloseFailed(e)))
    ensures Inv(Reject(p, e))
  {
    RejectLifecycle(p, e);
    RejectSubscribers(p, e);
  }

  lemma RejectSubscribers(p: Pool, e: nat)
    requires Members(p) && Subscribers(p) && e < |p.entries| && !p.entries[e].phase.Ready?
    ensures Members(Reject(p, e)) && Subscribers(Reject(p, e))
  {
    var q := Reject(p, e);
    forall s | 0 <= s < |q.subscribers| ensures SubscriberOk(q, q.subscribers[s]) {
      assert SubscriberOk(p, p.subscribers[s]);
    }
  }

  lemma SetEntrySubscribers(p: Pool, e: nat, entry: Entry)
    requires Members(p) && Subscribers(p) && e < |p.entries|
    requires entry.subscribers == p.entries[e].subscribers && entry.changes == p.entries[e].changes
    requires p.entries[e].phase.Ready? ==> entry.phase.Ready?
    ensures Members(SetEntry(p, e, entry)) && Subscribers(SetEntry(p, e, entry))
  {
    var q := SetEntry(p, e, entry);
    forall s | 0 <= s < |q.subscribers| ensures SubscriberOk(q, q.subscribers[s]) {
      assert SubscriberOk(p, p.subscribers[s]);
    }
  }

  lemma SetEntryEntries(p: Pool, e: nat, entry: Entry)
    requires Entries(p) && e < |p.entries| && EntryOk(entry)
    ensures Entries(SetEntry(p, e, entry))
  {
  }

  lemma OpensLifecycle(p: Pool, e: nat)
    requires Lifecycle(p) && Enabled(p, Opens(e))
    ensures Lifecycle(Next(p, Opens(e)))
  {
    OnlyNative(p, e);
    StillPlaced(p, Next(p, Opens(e)), e);
  }

  /** Where only entry e has moved, without closing, and the maps are the same, every entry has its place. */
  lemma StillPlaced(p: Pool, q: Pool, e: nat)
    requires Lifecycle(p) && e < |p.entries| && |q.entries| == |p.entries| && q.current == p.current && q.closing == p.closing
    requires q.entries[e].root == p.entries[e].root && !p.entries[e].phase.Closing? && !q.entries[e].phase.Closing? && !Over(p.entries[e])
    requires forall f :: 0 <= f < |p.entries| && f != e ==> q.entries[f] == p.entries[f]
    ensures forall f :: 0 <= f < |q.entries| ==> Placed(q, f)
  {
    forall f | 0 <= f < |q.entries| ensures Placed(q, f) { assert Placed(p, f); }
  }

  lemma OpensKeeps(p: Pool, e: nat)
    requires Inv(p) && Enabled(p, Opens(e))
    ensures Inv(Next(p, Opens(e)))
  {
    var entry := p.entries[e].(phase := Opening, opens := p.entries[e].opens + 1);
    OpensLifecycle(p, e);
    assert EntryOk(p.entries[e]);
    SetEntryEntries(p, e, entry);
    SetEntrySubscribers(p, e, entry);
  }

  /** When an entry may open, no other native source of its root exists: the previous close has settled. */
  lemma OnlyNative(p: Pool, e: nat)
    requires Lifecycle(p) && Enabled(p, Opens(e))
    ensures p.entries[e].root !in p.closing
    ensures forall f :: 0 <= f < |p.entries| && p.entries[f].root == p.entries[e].root ==> !Native(p.entries[f])
  {
    assert Placed(p, e);
    assert p.entries[e].root !in p.closing;
    forall f | 0 <= f < |p.entries| && p.entries[f].root == p.entries[e].root ensures !Native(p.entries[f]) {
      assert Placed(p, f);
    }
  }

  lemma CloseSettlesLifecycle(p: Pool, e: nat, ok: bool)
    requires Lifecycle(p) && Enabled(p, CloseSettles(e, ok))
    ensures Lifecycle(Next(p, CloseSettles(e, ok)))
  {
    assert Placed(p, e);
    var q := Next(p, CloseSettles(e, ok));
    forall f | 0 <= f < |q.entries| ensures Placed(q, f) { assert Placed(p, f); }
  }

  lemma CloseSettlesKeeps(p: Pool, e: nat, ok: bool)
    requires Inv(p) && Enabled(p, CloseSettles(e, ok))
    ensures Inv(Next(p, CloseSettles(e, ok)))
  {
    CloseSettlesLifecycle(p, e, ok);
    SetEntrySubscribers(p, e, p.entries[e].(phase := Closed(ok)));
    SubscribersIgnoreMaps(SetEntry(p, e, p.entries[e].(phase := Closed(ok))), Next(p, CloseSettles(e, ok)));
  }

  lemma SubscribersIgnoreMaps(p: Pool, q: Pool)
    requires Members(p) && Subscribers(p) && q.entries == p.entries && q.subscribers == p.subscribers
    ensures Members(q) && Subscribers(q)
  {
    forall s | 0 <= s < |q.subscribers| ensures SubscriberOk(q, q.subscribers[s]) {
      assert SubscriberOk(p, p.subscribers[s]);
    }
  }

  lemma OpenSucceedsKeeps(p: Pool, e: nat)
    requires Inv(p) && Enabled(p, OpenSucceeds(e))
    ensures Inv(Next(p, OpenSucceeds(e)))
  {
    SetEntrySubscribers(p, e, p.entries[e].(phase := Ready));
    OpenSucceedsLifecycle(p, e);
  }

  lemma OpenSucceedsLifecycle(p: Pool, e: nat)
    requires Lifecycle(p) && Enabled(p, OpenSucceeds(e))
    ensures Lifecycle(Next(p, OpenSucceeds(e)))
  {
    StillPlaced(p, Next(p, OpenSucceeds(e)), e);
  }

  lemma SourceFailsKeeps(p: Pool, e: nat)
    requires Inv(p) && Enabled(p, SourceFails(e))
    ensures Inv(Next(p, SourceFails(e)))
  {
    SetEntrySubscribers(p, e, p.entries[e].(failed := true));
    SameLifecycle(p, Next(p, SourceFails(e)));
  }

  /** Steps that change no entry's subscribers and no subscriber's entry, and let no one leave. */
  lemma SameMembers(p: Pool, q: Pool)
    requires Members(p) && |q.entries| == |p.entries| && |q.subscribers| == |p.subscribers|
    requires forall e :: 0 <= e < |p.entries| ==> q.entries[e].subscribers == p.entries[e].subscribers
    requires forall s :: 0 <= s < |p.subscribers| ==>
      q.subscribers[s].entry == p.subscribers[s].entry && q.subscribers[s].standing.Gone? == p.subscribers[s].standing.Gone?
    ensures Members(q)
  {
  }

  lemma WakeSubscribers(p: Pool, s: nat)
    requires Subscribers(p) && Enabled(p, Wakes(s)) && !p.entries[p.subscribers[s].entry].failed
    ensures Subscribers(Wake(p, s))
  {
    var q := Wake(p, s);
    forall t | 0 <= t < |q.subscribers| ensures SubscriberOk(q, q.subscribers[t]) {
      assert SubscriberOk(p, p.subscribers[t]);
    }
  }

  lemma WakeKeeps(p: Pool, s: nat)
    requires Inv(p) && Enabled(p, Wakes(s))
    ensures Inv(Wake(p, s))
  {
    if p.entries[p.subscribers[s].entry].failed {
      LeaveKeeps(p, s);
    } else {
      var q := Wake(p, s);
      assert q.entries == p.entries;
      SameLifecycle(p, q);
      SameMembers(p, q);
      WakeSubscribers(p, s);
    }
  }

  lemma DeliverSubscribers(p: Pool, e: nat, change: Change)
    requires Members(p) && Subscribers(p) && e < |p.entries|
    ensures Subscribers(Deliver(p, e, change))
  {
    var q := Deliver(p, e, change);
    forall t | 0 <= t < |q.subscribers| ensures SubscriberOk(q, q.subscribers[t]) {
      assert SubscriberOk(p, p.subscribers[t]);
    }
  }

  lemma DeliverKeeps(p: Pool, e: nat, change: Change)
    requires Inv(p) && e < |p.entries|
    ensures Inv(Deliver(p, e, change))
  {
    var q := Deliver(p, e, change);
    SameLifecycle(p, q);
    SameMembers(p, q);
    DeliverSubscribers(p, e, change);
    forall f | 0 <= f < |q.entries| ensures EntryOk(q.entries[f]) {
      assert EntryOk(p.entries[f]);
    }
  }

  lemma StepKeeps(p: Pool, step: Step)
    requires Inv(p) && Enabled(p, step)
    ensures Inv(Next(p, step))
  {
    match step
    case Acquires(root) => AcquireKeeps(p, root);
    case Opens(e) => OpensKeeps(p, e);
    case PreviousCloseFailed(e) => RejectKeeps(p, e);
    case OpenSucceeds(e) => OpenSucceedsKeeps(p, e);
    case OpenFails(e) => RejectKeeps(p, e);
    case Wakes(s) => WakeKeeps(p, s);
    case SourceFails(e) => SourceFailsKeeps(p, e);
    case SourceReports(e, change) => DeliverKeeps(p, e, change);
    case Closes(s) => assert SubscriberOk(p, p.subscribers[s]); LeaveKeeps(p, s);
    case CloseSettles(e, ok) => CloseSettlesKeeps(p, e, ok);
  }

  lemma {:induction false} RunKeeps(p: Pool, steps: seq<Step>)
    requires Inv(p) && Trace(p, steps)
    ensures Inv(Run(p, steps))
    decreases |steps|
  {
    if steps != [] {
      StepKeeps(p, steps[0]);
      RunKeeps(Next(p, steps[0]), steps[1..]);
    }
  }

  lemma NativesDiffer(p: Pool)
    requires Lifecycle(p)
    ensures forall e, f :: 0 <= e < f < |p.entries| && p.entries[e].root == p.entries[f].root ==>
              !(Native(p.entries[e]) && Native(p.entries[f]))
  {
    forall e, f | 0 <= e < f < |p.entries| && p.entries[e].root == p.entries[f].root
      ensures !(Native(p.entries[e]) && Native(p.entries[f]))
    {
      assert Placed(p, e) && Placed(p, f);
    }
  }

  /** On every run a root has at most one native source, every source that was opened is closed exactly once, when the
      last of its subscribers has left, and a source with subscribers left is never closed. */
  lemma OneSourcePerRoot(steps: seq<Step>)
    requires Trace(Empty, steps)
    ensures var p := Run(Empty, steps);
            && (forall e, f :: 0 <= e < f < |p.entries| && p.entries[e].root == p.entries[f].root ==>
                  !(Native(p.entries[e]) && Native(p.entries[f])))
            && (forall e :: 0 <= e < |p.entries| && (p.entries[e].phase.Ready? || p.entries[e].phase.Closing? || p.entries[e].phase.Closed?) ==>
                  && p.entries[e].opens == 1
                  && p.entries[e].refs == |p.entries[e].subscribers|
                  && p.entries[e].closes == (if p.entries[e].refs == 0 then 1 else 0))
  {
    RunKeeps(Empty, steps);
    var p := Run(Empty, steps);
    NativesDiffer(p);
    forall e | 0 <= e < |p.entries| ensures EntryOk(p.entries[e]) {}
  }

  /** On every run, a native open is called only when no native source of that root is open or still closing. */
  lemma OpensAfterClose(steps: seq<Step>, e: nat)
    requires Trace(Empty, steps) && Enabled(Run(Empty, steps), Opens(e))
    ensures var p := Run(Empty, steps);
            forall f :: 0 <= f < |p.entries| && p.entries[f].root == p.entries[e].root ==> !Native(p.entries[f])
  {
    RunKeeps(Empty, steps);
    OnlyNative(Run(Empty, steps), e);
  }

  /** On every run, a reported change reaches each active subscriber of its source and nobody else, and what a
      subscriber has been given is every change from the moment it joined. */
  lemma ChangesReachExactly(steps: seq<Step>, e: nat, change: Change)
    requires Trace(Empty, steps) && Enabled(Run(Empty, steps), SourceReports(e, change))
    ensures var p := Run(Empty, steps); var q := Next(p, SourceReports(e, change));
            && |q.subscribers| == |p.subscribers|
            && forall s :: 0 <= s < |p.subscribers| ==>
                 && SubscriberOk(q, q.subscribers[s])
                 && q.subscribers[s].received
                    == p.subscribers[s].received
                       + if p.subscribers[s].entry == e && p.subscribers[s].standing.Active? then [change] else []
  {
    RunKeeps(Empty, steps);
    DeliverKeeps(Run(Empty, steps), e, change);
  }
}

/** The pool in its own form. */
module WatchPool {
  import opened Protocol
  import Spec = WatchPoolSpec

  class ParcelWatchPool {
    var entries: seq<Spec.Entry>
    var current: map<Spec.Root, nat>
    var closing: map<Spec.Root, nat>
    var subscribers: seq<Spec.Subscriber>

    function View(): Spec.Pool
      reads this
    {
      Spec.Pool(entries, current, closing, subscribers)
    }

    constructor ()
      ensures View() == Spec.Empty
    {
      entries, current, closing, subscribers := [], map[], map[], [];
    }

    method CreateEntry(root: Spec.Root) returns (e: nat)
      modifies this`entries, this`current
      ensures View() == Spec.CreateEntry(old(View()), root) && e == |old(entries)|
    {
      e := |entries|;
      var previousClose := if root in closing then Some(closing[root]) else None;
      entries := entries + [Spec.Entry(root, Spec.Waiting(previousClose), 0, {}, false, 0, 0, [])];
      current := current[root := e];
    }

    /** Joins the root's entry, creating it when there is none; a failed source refuses. */
    method Acquire(root: Spec.Root) returns (joined: bool)
      requires root in current ==> current[root] < |entries|
      modifies this
      ensures View() == Spec.Acquire(old(View()), root)
      ensures !joined <==> root in old(current) && old(entries)[old(current)[root]].failed
    {
      var e: nat;
      if root in current {
        e := current[root];
      } else {
        e := CreateEntry(root);
      }
      if entries[e].failed {
        return false;
      }
      var s := |subscribers|;
      subscribers := subscribers + [Spec.Subscriber(e, Spec.Pending, 0, [])];
      entries := entries[e := entries[e].(refs := entries[e].refs + 1, subscribers := entries[e].subscribers + {s})];
      return true;
    }

    method Release(e: nat)
      requires e < |entries| && entries[e].refs > 0
      modifies this`entries, this`current, this`closing
      ensures View() == Spec.Release(old(View()), e)
    {
      var root := entries[e].root;
      entries := entries[e := entries[e].(refs := entries[e].refs - 1)];
      if entries[e].refs > 0 {
        return;
      }
      entries := entries[e := entries[e].(phase := Spec.Closing, closes := entries[e].closes + 1)];
      closing := closing[root := e];
      if root in current && current[root] == e {
        current := current - {root};
      }
    }

    /** A subscriber closes its handle; closing it again changes nothing. */
    method Close(s: nat)
      requires s < |subscribers| && subscribers[s].entry < |entries|
      requires !subscribers[s].standing.Gone? ==> entries[subscribers[s].entry].refs > 0
      modifies this
      ensures View() == if old(subscribers)[s].standing.Gone? then old(View()) else Spec.Leave(old(View()), s)
    {
      if subscribers[s].standing.Gone? {
        return;
      }
      var e := subscribers[s].entry;
      subscribers := subscribers[s := subscribers[s].(standing := Spec.Gone)];
      entries := entries[e := entries[e].(subscribers := entries[e].subscribers - {s})];
      Release(e);
    }

    /** The native source of entry e reports a change. */
    method OnChange(e: nat, change: Spec.Change)
      requires e < |entries| && forall s :: s in entries[e].subscribers ==> s < |subscribers|
      modifies this
      ensures View() == Spec.Deliver(old(View()), e, change)
    {
      entries := entries[e := entries[e].(changes := entries[e].changes + [change])];
      var todo := entries[e].subscribers;
      while todo != {}
        modifies this`subscribers
        invariant todo <= old(entries)[e].subscribers && |subscribers| == |old(subscribers)|
        invariant forall s :: 0 <= s < |subscribers| ==>
          subscribers[s] == if s in old(entries)[e].subscribers && s !in todo && old(subscribers)[s].standing.Active?
                            then old(subscribers)[s].(received := old(subscribers)[s].received + [change])
                            else old(subscribers)[s]
        decreases todo
      {
        var s :| s in todo;
        todo := todo - {s};
        if !subscribers[s].standing.Active? {
          continue;
        }
        subscribers := subscribers[s := subscribers[s].(received := subscribers[s].received + [change])];
      }
      assert subscribers == Spec.Deliver(old(View()), e, change).subscribers;
    }
  }
}
