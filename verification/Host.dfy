/**
 The host's write path: actions are reduced, numbered, retained and broadcast in one step; clients subscribe,
 take snapshots and reconnect. The reducers belong to the protocol library and stay a parameter.
 */
module HostSpec {
  import opened Protocol
  import opened SequencerSpec
  import opened StateStore

  type Reducer<!S, !A> = (Kind, S, A) -> S

  const ROOT_CHANNEL: Uri := 0

  /** One transport connection: its subscriptions, how long the log was when each was added, what was sent on
      it so far, and whether a send on it has thrown. */
  datatype Connection<A> = Connection(
    client: Option<nat>, wasKnown: bool, subscriptions: set<Uri>, since: map<Uri, nat>, sent: seq<Envelope<A>>, broken: bool)

  /** When a channel's entry was created (as a log length), with what state, and its place among all creations. */
  datatype Birth<S> = Birth(at: nat, base: S, number: nat)

  datatype Host<S, A> = Host(
    q: Sequencer<A>, channels: map<Uri, Entry<S>>, births: map<Uri, Birth<S>>, creations: nat,
    connections: map<nat, Connection<A>>, known: set<nat>)

  function Init<S, A>(capacity: int): Host<S, A> {
    Host(SequencerSpec.Init(capacity), map[], map[], 0, map[], {})
  }

  // ── Operations ────────────────────────────────────────────────────────────

  function Receive<A>(k: Connection<A>, e: Envelope<A>, fails: bool): Connection<A> {
    if e.channel !in k.subscriptions then k
    else if fails then k.(broken := true)
    else k.(sent := k.sent + [e])
  }

  /** One broken subscriber does not keep the others from receiving. */
  function Broadcast<A>(connections: map<nat, Connection<A>>, e: Envelope<A>, failing: set<nat>): map<nat, Connection<A>> {
    map k | k in connections :: Receive(connections[k], e, k in failing)
  }

  function Emitted<S, A>(h: Host<S, A>, c: Uri, a: A, origin: Option<ActionOrigin>, accepted: bool, failing: set<nat>): Host<S, A> {
    h.(q := Emit(h.q, c, a, origin, accepted),
       connections := Broadcast(h.connections, Envelope(c, a, h.q.serverSeq + 1, origin, accepted), failing))
  }

  function Commit<S, A>(reduce: Reducer, h: Host<S, A>, c: Uri, a: A, origin: Option<ActionOrigin>, failing: set<nat>): Host<S, A> {
    Emitted(h.(channels := Applied(reduce, h.channels, c, a)), c, a, origin, true, failing)
  }

  function Reject<S, A>(h: Host<S, A>, c: Uri, a: A, origin: Option<ActionOrigin>, failing: set<nat>): Host<S, A> {
    Emitted(h, c, a, origin, false, failing)
  }

  function ServerAction<S, A>(reduce: Reducer, h: Host<S, A>, c: Uri, a: A, failing: set<nat>): Host<S, A> {
    if c in h.channels then Commit(reduce, h, c, a, None, failing) else h
  }

  function CreateChannel<S, A>(h: Host<S, A>, c: Uri, kind: Kind, state: S): Host<S, A> {
    h.(channels := h.channels[c := Entry(kind, state)],
       births := h.births[c := Birth(|h.q.log|, state, h.creations)],
       creations := h.creations + 1)
  }

  function Unsubscribed<A>(k: Connection<A>, c: Uri): Connection<A> {
    k.(subscriptions := k.subscriptions - {c})
  }

  function DeleteChannel<S, A>(h: Host<S, A>, c: Uri): Host<S, A> {
    h.(channels := h.channels - {c}, births := h.births - {c},
       connections := map k | k in h.connections :: Unsubscribed(h.connections[k], c))
  }

  function Subscribed<A>(k: Connection<A>, c: Uri, length: nat): Connection<A> {
    if c in k.subscriptions then k else k.(subscriptions := k.subscriptions + {c}, since := k.since[c := length])
  }

  function AddSubscription<S, A>(h: Host<S, A>, k: nat, c: Uri): Host<S, A>
    requires k in h.connections
  {
    h.(connections := h.connections[k := Subscribed(h.connections[k], c, |h.q.log|)])
  }

  function TrySubscribe<S, A>(h: Host<S, A>, k: nat, c: Uri): (Host<S, A>, Option<Snapshot<S>>)
    requires k in h.connections
  {
    if c !in h.channels then (h, None)
    else (AddSubscription(h, k, c), SnapshotOf(h.channels, c, h.q.serverSeq))
  }

  function WithoutOthers<A>(connections: map<nat, Connection<A>>, k: nat, client: nat): map<nat, Connection<A>> {
    map j | j in connections && (j == k || connections[j].client != Some(client)) :: connections[j]
  }

  /** Closes any other connection of the same client; a reconnect starts with no subscriptions. */
  function Bind<S, A>(h: Host<S, A>, k: nat, client: nat, reconnecting: bool): Host<S, A>
    requires k in h.connections
  {
    var bound := h.connections[k].(client := Some(client), wasKnown := client in h.known);
    h.(known := h.known + {client},
       connections := WithoutOthers(h.connections, k, client)[k := if reconnecting then bound.(subscriptions := {}) else bound])
  }

  /** While a reconnect works through the requested subscriptions, the root channel needs no store entry. */
  function ReconnectSubscribe<S, A>(h: Host<S, A>, k: nat, c: Uri): Host<S, A>
    requires k in h.connections
  {
    if c == ROOT_CHANNEL || c in h.channels then AddSubscription(h, k, c) else h
  }

  datatype Reply<S, A> = Replay(actions: seq<Envelope<A>>) | Snapshots(snapshots: map<Uri, Snapshot<S>>)

  function ReconnectReply<S, A>(h: Host<S, A>, k: nat, lastSeen: nat): Reply<S, A>
    requires k in h.connections
  {
    var connection := h.connections[k];
    if connection.wasKnown && CanReplayFrom(h.q, lastSeen) then Replay(ReplayFrom(h.q, lastSeen, connection.subscriptions))
    else
      Snapshots(map c | c in connection.subscriptions && c in h.channels :: Snapshot(c, h.channels[c].state, h.q.serverSeq))
  }

  // ── Runs ──────────────────────────────────────────────────────────────────

  datatype Step<S, A> =
    | Create(c: Uri, kind: Kind, state: S)
    | Delete(c: Uri)
    | Server(c: Uri, a: A, failing: set<nat>)
    | Client(c: Uri, a: A, origin: ActionOrigin, failing: set<nat>)
    | Rejection(c: Uri, a: A, origin: ActionOrigin, failing: set<nat>)
    | Accept(k: nat)
    | Close(k: nat)
    | Handshake(k: nat, client: nat, reconnecting: bool)
    | Subscribe(k: nat, c: Uri)
    | Resubscribe(k: nat, c: Uri)
    | Unsubscribe(k: nat, c: Uri)

  predicate Enabled<S, A>(h: Host<S, A>, step: Step<S, A>) {
    match step
    case Accept(k) => k !in h.connections
    case Close(k) => k in h.connections
    case Handshake(k, _, _) => k in h.connections && h.connections[k].client.None?
    case Subscribe(k, _) => k in h.connections
    case Resubscribe(k, _) => k in h.connections
    case Unsubscribe(k, _) => k in h.connections
    case Create(_, _, _) => true
    case Delete(_) => true
    case Server(_, _, _) => true
    case Client(_, _, _, _) => true
    case Rejection(_, _, _, _) => true
  }

  function Next<S, A>(reduce: Reducer, h: Host<S, A>, step: Step<S, A>): Host<S, A>
    requires Enabled(h, step)
  {
    match step
    case Create(c, kind, state) => CreateChannel(h, c, kind, state)
    case Delete(c) => DeleteChannel(h, c)
    case Server(c, a, failing) => ServerAction(reduce, h, c, a, failing)
    case Client(c, a, origin, failing) => Commit(reduce, h, c, a, Some(origin), failing)
    case Rejection(c, a, origin, failing) => Reject(h, c, a, Some(origin), failing)
    case Accept(k) => h.(connections := h.connections[k := Connection(None, false, {}, map[], [], false)])
    case Close(k) => h.(connections := h.connections - {k})
    case Handshake(k, client, reconnecting) => Bind(h, k, client, reconnecting)
    case Subscribe(k, c) => TrySubscribe(h, k, c).0
    case Resubscribe(k, c) => ReconnectSubscribe(h, k, c)
    case Unsubscribe(k, c) => h.(connections := h.connections[k := Unsubscribed(h.connections[k], c)])
  }

  predicate Trace<S, A>(reduce: Reducer, h: Host<S, A>, steps: seq<Step<S, A>>)
    decreases |steps|
  {
    steps == [] || (Enabled(h, steps[0]) && Trace(reduce, Next(reduce, h, steps[0]), steps[1..]))
  }

  function Run<S, A>(reduce: Reducer, h: Host<S, A>, steps: seq<Step<S, A>>): Host<S, A>
    requires Trace(reduce, h, steps)
    decreases |steps|
  {
    if steps == [] then h else Run(reduce, Next(reduce, h, steps[0]), steps[1..])
  }

  // ── Clients ───────────────────────────────────────────────────────────────

  /** Reduces the accepted ones of some envelopes, all of one channel. */
  function Reduced<S, A>(reduce: Reducer, kind: Kind, state: S, envelopes: seq<Envelope<A>>): S {
    if envelopes == [] then state
    else
      var last := envelopes[|envelopes| - 1];
      var before := Reduced(reduce, kind, state, envelopes[..|envelopes| - 1]);
      if last.accepted then reduce(kind, before, last.action) else before
  }

  /** A client's copy of one channel, good up to a sequence number. */
  datatype Mirror<S> = Mirror(state: S, seen: nat)

  /** A client skips what it has already seen, and reduces what was accepted on the channel it mirrors. */
  function Absorb<S, A>(reduce: Reducer, c: Uri, kind: Kind, m: Mirror<S>, envelopes: seq<Envelope<A>>): Mirror<S> {
    if envelopes == [] then m
    else
      var e := envelopes[|envelopes| - 1];
      var before := Absorb(reduce, c, kind, m, envelopes[..|envelopes| - 1]);
      if e.serverSeq <= before.seen then before
      else Mirror(if e.channel == c && e.accepted then reduce(kind, before.state, e.action) else before.state, e.serverSeq)
  }

  predicate Increasing<A>(envelopes: seq<Envelope<A>>) {
    forall i, j :: 0 <= i < j < |envelopes| ==> envelopes[i].serverSeq < envelopes[j].serverSeq
  }

  function LastSeen<A>(envelopes: seq<Envelope<A>>, seen: nat): nat {
    if envelopes == [] || envelopes[|envelopes| - 1].serverSeq <= seen then seen else envelopes[|envelopes| - 1].serverSeq
  }

  /** The channel's state once the first t envelopes of the log had been reduced into its present entry. */
  function StateAt<S, A>(reduce: Reducer, h: Host<S, A>, c: Uri, t: nat): S
    requires c in h.channels && c in h.births && t <= |h.q.log|
  {
    Reduced(reduce, h.channels[c].kind, h.births[c].base, Filter(h.q.log[..t], h.births[c].at, {c}))
  }

  // ── The invariant ─────────────────────────────────────────────────────────

  /** Everything on a channel since it was subscribed to has been sent, in order, unless a send has thrown. */
  ghost predicate Delivered<A>(log: seq<Envelope<A>>, k: Connection<A>, c: Uri) {
    c in k.since && k.since[c] <= |log| && (!k.broken ==> Filter(k.sent, k.since[c], {c}) == Filter(log, k.since[c], {c}))
  }

  ghost predicate ConnectionOk<A>(log: seq<Envelope<A>>, k: Connection<A>) {
    && Increasing(k.sent)
    && (forall i :: 0 <= i < |k.sent| ==> k.sent[i] in log)
    && (forall c :: c in k.subscriptions ==> Delivered(log, k, c))
  }

  ghost predicate EntryOk<S, A>(reduce: Reducer, log: seq<Envelope<A>>, entry: Entry<S>, birth: Birth<S>, c: Uri) {
    birth.at <= |log| && entry.state == Reduced(reduce, entry.kind, birth.base, Filter(log, birth.at, {c}))
  }

  ghost predicate Inv<S, A>(reduce: Reducer, h: Host<S, A>) {
    && Valid(h.q)
    && h.channels.Keys == h.births.Keys
    && (forall c :: c in h.channels ==> EntryOk(reduce, h.q.log, h.channels[c], h.births[c], c) && h.births[c].number < h.creations)
    && (forall k :: k in h.connections ==> ConnectionOk(h.q.log, h.connections[k]))
  }

  // ── Every step keeps the invariant ────────────────────────────────────────

  lemma FilterSnoc<A>(log: seq<Envelope<A>>, e: Envelope<A>, lo: int, cs: set<Uri>)
    ensures Filter(log + [e], lo, cs)
         == if e.serverSeq > lo && e.channel in cs then Filter(log, lo, cs) + [e] else Filter(log, lo, cs)
  {
    assert (log + [e])[..|log + [e]| - 1] == log;
  }

  lemma ReducedSnoc<S, A>(reduce: Reducer, kind: Kind, state: S, es: seq<Envelope<A>>, e: Envelope<A>)
    ensures Reduced(reduce, kind, state, es + [e])
         == if e.accepted then reduce(kind, Reduced(reduce, kind, state, es), e.action) else Reduced(reduce, kind, state, es)
  {
    assert (es + [e])[..|es + [e]| - 1] == es;
  }

  lemma DeliveredKeeps<A>(log: seq<Envelope<A>>, k: Connection<A>, e: Envelope<A>, fails: bool, c: Uri)
    requires Delivered(log, k, c) && c in k.subscriptions
    ensures Delivered(log + [e], Receive(k, e, fails), c)
  {
    FilterSnoc(log, e, k.since[c], {c});
    FilterSnoc(k.sent, e, k.since[c], {c});
  }

  lemma ReceiveKeeps<A>(log: seq<Envelope<A>>, k: Connection<A>, e: Envelope<A>, fails: bool)
    requires Numbered(log) && e.serverSeq == |log| + 1 && ConnectionOk(log, k)
    ensures ConnectionOk(log + [e], Receive(k, e, fails))
  {
    var sent := Receive(k, e, fails).sent;
    forall i | 0 <= i < |k.sent| ensures k.sent[i].serverSeq <= |log| {
      assert k.sent[i] in log;
    }
    forall i | 0 <= i < |sent| ensures sent[i] in log + [e] {
      if i < |k.sent| { assert k.sent[i] in log; } else { assert (log + [e])[|log|] == e; }
    }
    forall c | c in k.subscriptions ensures Delivered(log + [e], Receive(k, e, fails), c) {
      DeliveredKeeps(log, k, e, fails, c);
    }
  }

  lemma EntryKeeps<S, A>(reduce: Reducer, log: seq<Envelope<A>>, entry: Entry<S>, birth: Birth<S>, c: Uri, e: Envelope<A>)
    requires Numbered(log) && e.serverSeq == |log| + 1 && EntryOk(reduce, log, entry, birth, c)
    ensures var entry1 := if e.channel == c && e.accepted then entry.(state := reduce(entry.kind, entry.state, e.action)) else entry;
            EntryOk(reduce, log + [e], entry1, birth, c)
  {
    FilterSnoc(log, e, birth.at, {c});
    ReducedSnoc(reduce, entry.kind, birth.base, Filter(log, birth.at, {c}), e);
  }

  lemma BroadcastKeeps<A>(log: seq<Envelope<A>>, connections: map<nat, Connection<A>>, e: Envelope<A>, failing: set<nat>)
    requires Numbered(log) && e.serverSeq == |log| + 1 && forall k :: k in connections ==> ConnectionOk(log, connections[k])
    ensures var after := Broadcast(connections, e, failing); forall k :: k in after ==> ConnectionOk(log + [e], after[k])
  {
    forall k | k in connections ensures ConnectionOk(log + [e], Receive(connections[k], e, k in failing)) {
      ReceiveKeeps(log, connections[k], e, k in failing);
    }
  }

  lemma EntriesKeep<S, A>(reduce: Reducer, h: Host<S, A>, e: Envelope<A>)
    requires Inv(reduce, h) && e.serverSeq == |h.q.log| + 1
    ensures var after := if e.accepted then Applied(reduce, h.channels, e.channel, e.action) else h.channels;
            after.Keys == h.channels.Keys && forall d :: d in after ==> EntryOk(reduce, h.q.log + [e], after[d], h.births[d], d)
  {
    forall d | d in h.channels
      ensures EntryOk(reduce, h.q.log + [e], h.channels[d], h.births[d], d) || (e.channel == d && e.accepted)
      ensures e.channel == d && e.accepted ==>
        EntryOk(reduce, h.q.log + [e], Applied(reduce, h.channels, d, e.action)[d], h.births[d], d)
    {
      EntryKeeps(reduce, h.q.log, h.channels[d], h.births[d], d, e);
    }
  }

  /** Whatever emits the next envelope, reduces it where it was accepted, and sends it to everyone keeps the invariant. */
  lemma EmittedKeeps<S, A>(reduce: Reducer, h: Host<S, A>, e: Envelope<A>, h1: Host<S, A>, failing: set<nat>)
    requires Inv(reduce, h) && e.serverSeq == |h.q.log| + 1
    requires Valid(h1.q) && h1.q.log == h.q.log + [e]
    requires h1.channels == (if e.accepted then Applied(reduce, h.channels, e.channel, e.action) else h.channels)
    requires h1.births == h.births && h1.creations == h.creations && h1.connections == Broadcast(h.connections, e, failing)
    ensures Inv(reduce, h1)
  {
    BroadcastKeeps(h.q.log, h.connections, e, failing);
    EntriesKeep(reduce, h, e);
  }

  lemma CommitKeeps<S, A>(reduce: Reducer, h: Host<S, A>, c: Uri, a: A, origin: Option<ActionOrigin>, failing: set<nat>)
    requires Inv(reduce, h)
    ensures Inv(reduce, Commit(reduce, h, c, a, origin, failing))
  {
    EmitKeeps(h.q, c, a, origin, true);
    EmittedKeeps(reduce, h, Envelope(c, a, h.q.serverSeq + 1, origin, true), Commit(reduce, h, c, a, origin, failing), failing);
  }

  lemma RejectKeeps<S, A>(reduce: Reducer, h: Host<S, A>, c: Uri, a: A, origin: Option<ActionOrigin>, failing: set<nat>)
    requires Inv(reduce, h)
    ensures Inv(reduce, Reject(h, c, a, origin, failing))
  {
    EmitKeeps(h.q, c, a, origin, false);
    EmittedKeeps(reduce, h, Envelope(c, a, h.q.serverSeq + 1, origin, false), Reject(h, c, a, origin, failing), failing);
  }

  lemma SubscribedKeeps<A>(log: seq<Envelope<A>>, k: Connection<A>, c: Uri)
    requires Numbered(log) && ConnectionOk(log, k)
    ensures ConnectionOk(log, Subscribed(k, c, |log|))
  {
    if c !in k.subscriptions {
      var k1 := Subscribed(k, c, |log|);
      FilterNothing(log, |log|, {c});
      forall i | 0 <= i < |k.sent| ensures k.sent[i].serverSeq <= |log| { assert k.sent[i] in log; }
      FilterNothing(k.sent, |log|, {c});
      forall d | d in k1.subscriptions ensures Delivered(log, k1, d) {
        assert d != c ==> Delivered(log, k, d);
      }
    }
  }

  lemma FewerSubscriptions<A>(log: seq<Envelope<A>>, k: Connection<A>, k1: Connection<A>)
    requires ConnectionOk(log, k) && k1.subscriptions <= k.subscriptions
    requires k1.since == k.since && k1.sent == k.sent && k1.broken == k.broken
    ensures ConnectionOk(log, k1)
  {
    forall c | c in k1.subscriptions ensures Delivered(log, k1, c) { assert Delivered(log, k, c); }
  }

  lemma CreateKeeps<S, A>(reduce: Reducer, h: Host<S, A>, c: Uri, kind: Kind, state: S)
    requires Inv(reduce, h)
    ensures Inv(reduce, CreateChannel(h, c, kind, state))
  {
    FilterNothing(h.q.log, |h.q.log|, {c});
    var h1 := CreateChannel(h, c, kind, state);
    forall d | d in h1.channels ensures EntryOk(reduce, h1.q.log, h1.channels[d], h1.births[d], d) && h1.births[d].number < h1.creations {
      assert d != c ==> EntryOk(reduce, h.q.log, h.channels[d], h.births[d], d);
    }
  }

  lemma DeleteKeeps<S, A>(reduce: Reducer, h: Host<S, A>, c: Uri)
    requires Inv(reduce, h)
    ensures Inv(reduce, DeleteChannel(h, c))
  {
    var h1 := DeleteChannel(h, c);
    forall k | k in h1.connections ensures ConnectionOk(h1.q.log, h1.connections[k]) {
      FewerSubscriptions(h.q.log, h.connections[k], h1.connections[k]);
    }
  }

  lemma AddSubscriptionKeeps<S, A>(reduce: Reducer, h: Host<S, A>, k: nat, c: Uri)
    requires Inv(reduce, h) && k in h.connections
    ensures Inv(reduce, AddSubscription(h, k, c))
  {
    SubscribedKeeps(h.q.log, h.connections[k], c);
  }

  lemma BindKeeps<S, A>(reduce: Reducer, h: Host<S, A>, k: nat, client: nat, reconnecting: bool)
    requires Inv(reduce, h) && k in h.connections
    ensures Inv(reduce, Bind(h, k, client, reconnecting))
  {
    var h1 := Bind(h, k, client, reconnecting);
    forall j | j in h1.connections ensures ConnectionOk(h1.q.log, h1.connections[j]) {
      FewerSubscriptions(h.q.log, h.connections[j], h1.connections[j]);
    }
  }

  lemma StepKeeps<S, A>(reduce: Reducer, h: Host<S, A>, step: Step<S, A>)
    requires Inv(reduce, h) && Enabled(h, step)
    ensures Inv(reduce, Next(reduce, h, step))
  {
    match step
    case Create(c, kind, state) => CreateKeeps(reduce, h, c, kind, state);
    case Delete(c) => DeleteKeeps(reduce, h, c);
    case Server(c, a, failing) => CommitKeeps(reduce, h, c, a, None, failing);
    case Client(c, a, origin, failing) => CommitKeeps(reduce, h, c, a, Some(origin), failing);
    case Rejection(c, a, origin, failing) => RejectKeeps(reduce, h, c, a, Some(origin), failing);
    case Accept(k) =>
    case Close(k) =>
    case Handshake(k, client, reconnecting) => BindKeeps(reduce, h, k, client, reconnecting);
    case Subscribe(k, c) => AddSubscriptionKeeps(reduce, h, k, c);
    case Resubscribe(k, c) => AddSubscriptionKeeps(reduce, h, k, c);
    case Unsubscribe(k, c) => FewerSubscriptions(h.q.log, h.connections[k], Unsubscribed(h.connections[k], c));
  }

  lemma {:induction false} RunKeeps<S, A>(reduce: Reducer, h: Host<S, A>, steps: seq<Step<S, A>>)
    requires Inv(reduce, h) && Trace(reduce, h, steps)
    ensures Inv(reduce, Run(reduce, h, steps))
    decreases |steps|
  {
    if steps != [] {
      StepKeeps(reduce, h, steps[0]);
      RunKeeps(reduce, Next(reduce, h, steps[0]), steps[1..]);
    }
  }

  /** Some run from an empty host leads here. */
  ghost predicate Reachable<S(!new), A(!new)>(reduce: Reducer, h: Host<S, A>) {
    exists capacity: int, steps: seq<Step<S, A>> :: Trace(reduce, Init(capacity), steps) && h == Run(reduce, Init(capacity), steps)
  }

  lemma ReachableInv<S(!new), A(!new)>(reduce: Reducer, h: Host<S, A>)
    requires Reachable(reduce, h)
    ensures Inv(reduce, h)
  {
    var capacity: int, steps: seq<Step<S, A>> :| Trace(reduce, Init(capacity), steps) && h == Run(reduce, Init(capacity), steps);
    InitIsValid<A>(capacity);
    RunKeeps(reduce, Init(capacity), steps);
  }

  /** What every run leaves behind: numbers without gaps, a buffer that is the log's newest part, every channel's state
      the reduction of its accepted actions, and on every connection strictly increasing numbers. */
  lemma RunsAreOrdered<S(!new), A(!new)>(reduce: Reducer, h: Host<S, A>)
    requires Reachable(reduce, h)
    ensures Valid(h.q)
    ensures forall c :: c in h.channels ==> c in h.births && EntryOk(reduce, h.q.log, h.channels[c], h.births[c], c)
    ensures forall k :: k in h.connections ==> Increasing(h.connections[k].sent)
  {
    ReachableInv(reduce, h);
  }

  // ── Convergence ───────────────────────────────────────────────────────────

  lemma {:induction false} FilterTwice<A>(a: seq<Envelope<A>>, lo: int, cs: set<Uri>, lo1: int, cs1: set<Uri>)
    requires lo <= lo1 && cs1 <= cs
    ensures Filter(Filter(a, lo, cs), lo1, cs1) == Filter(a, lo1, cs1)
    decreases |a|
  {
    if a != [] {
      var e := a[|a| - 1];
      var before := a[..|a| - 1];
      FilterTwice(before, lo, cs, lo1, cs1);
      if e.serverSeq > lo && e.channel in cs { FilterSnoc(Filter(before, lo, cs), e, lo1, cs1); }
    }
  }

  lemma {:induction false} ReducedConcat<S(!new), A(!new)>(reduce: Reducer, kind: Kind, state: S, a: seq<Envelope<A>>, b: seq<Envelope<A>>)
    ensures Reduced(reduce, kind, state, a + b) == Reduced(reduce, kind, Reduced(reduce, kind, state, a), b)
    decreases |b|
  {
    if b == [] {
      assert a + b == a;
    } else {
      ReducedConcat(reduce, kind, state, a, b[..|b| - 1]);
      assert (a + b)[..|a + b| - 1] == a + b[..|b| - 1];
    }
  }

  lemma {:induction false} FilterPrefixSplits<A>(q: Sequencer<A>, lo: nat, t: nat, u: nat, cs: set<Uri>)
    requires Valid(q) && lo <= t <= u <= |q.log|
    ensures Filter(q.log[..u], lo, cs) == Filter(q.log[..t], lo, cs) + Filter(q.log[..u], t, cs)
    decreases u
  {
    if t == u {
      FilterNothing(q.log[..u], t, cs);
    } else {
      FilterPrefixSplits(q, lo, t, u - 1, cs);
      assert q.log[..u] == q.log[..u - 1] + [q.log[u - 1]];
      FilterSnoc(q.log[..u - 1], q.log[u - 1], lo, cs);
      FilterSnoc(q.log[..u - 1], q.log[u - 1], t, cs);
    }
  }

  /** From a state at t, reducing the channel's envelopes between t and u gives the state at u. */
  lemma StateAdvances<S(!new), A(!new)>(reduce: Reducer, h: Host<S, A>, c: Uri, t: nat, u: nat)
    requires Inv(reduce, h) && c in h.channels && h.births[c].at <= t <= u <= |h.q.log|
    ensures Reduced(reduce, h.channels[c].kind, StateAt(reduce, h, c, t), Filter(h.q.log[..u], t, {c})) == StateAt(reduce, h, c, u)
  {
    FilterPrefixSplits(h.q, h.births[c].at, t, u, {c});
    ReducedConcat(reduce, h.channels[c].kind, h.births[c].base, Filter(h.q.log[..t], h.births[c].at, {c}), Filter(h.q.log[..u], t, {c}));
  }

  lemma StateIsLatest<S(!new), A(!new)>(reduce: Reducer, h: Host<S, A>, c: Uri)
    requires Inv(reduce, h) && c in h.channels
    ensures StateAt(reduce, h, c, |h.q.log|) == h.channels[c].state
  {
    assert h.q.log[..|h.q.log|] == h.q.log;
    assert EntryOk(reduce, h.q.log, h.channels[c], h.births[c], c);
  }

  /** A client that skips by number and a client that reduces exactly the newer envelopes of its channel agree. */
  lemma {:induction false} AbsorbIsReduced<S(!new), A(!new)>(reduce: Reducer, c: Uri, kind: Kind, m: Mirror<S>, es: seq<Envelope<A>>)
    requires Increasing(es)
    ensures Absorb(reduce, c, kind, m, es) == Mirror(Reduced(reduce, kind, m.state, Filter(es, m.seen, {c})), LastSeen(es, m.seen))
    decreases |es|
  {
    if es != [] {
      var before := es[..|es| - 1];
      AbsorbIsReduced(reduce, c, kind, m, before);
      var e := es[|es| - 1];
      assert before != [] ==> before[|before| - 1].serverSeq < e.serverSeq;
      assert e.serverSeq <= LastSeen(before, m.seen) <==> e.serverSeq <= m.seen;
      var kept := Filter(before, m.seen, {c});
      ReducedSnoc(reduce, kind, m.state, kept, e);
    }
  }

  function Cut<A>(envelopes: seq<Envelope<A>>, hi: nat): seq<Envelope<A>> {
    if envelopes == [] then []
    else
      var before := Cut(envelopes[..|envelopes| - 1], hi);
      if envelopes[|envelopes| - 1].serverSeq <= hi then before + [envelopes[|envelopes| - 1]] else before
  }

  lemma {:induction false} CutFilter<A>(a: seq<Envelope<A>>, lo: int, cs: set<Uri>, hi: nat)
    ensures Cut(Filter(a, lo, cs), hi) == Filter(Cut(a, hi), lo, cs)
    decreases |a|
  {
    if a != [] {
      var e := a[|a| - 1];
      var before := a[..|a| - 1];
      CutFilter(before, lo, cs, hi);
      var kept := Filter(before, lo, cs);
      assert (kept + [e])[..|kept + [e]| - 1] == kept;
      FilterSnoc(Cut(before, hi), e, lo, cs);
    }
  }

  lemma {:induction false} CutIncreasing<A>(a: seq<Envelope<A>>, n: nat, hi: nat)
    requires Increasing(a) && n <= |a|
    requires forall i :: 0 <= i < n ==> a[i].serverSeq <= hi
    requires n < |a| ==> hi < a[n].serverSeq
    ensures Cut(a, hi) == a[..n]
    decreases |a|
  {
    if n < |a| {
      CutIncreasing(a[..|a| - 1], n, hi);
      assert a[..|a| - 1][..n] == a[..n];
      assert a[n].serverSeq <= a[|a| - 1].serverSeq;
    } else if a != [] {
      CutIncreasing(a[..|a| - 1], n - 1, hi);
      assert a[..|a| - 1][..n - 1] + [a[|a| - 1]] == a[..n];
    }
  }

  lemma LogIncreasing<A>(q: Sequencer<A>)
    requires Valid(q)
    ensures Increasing(q.log)
  {
  }

  lemma ArrivedReaches<A>(log: seq<Envelope<A>>, sent: seq<Envelope<A>>, t: nat, n: nat)
    requires Numbered(log) && (forall i :: 0 <= i < |sent| ==> sent[i] in log) && t <= |log| && n <= |sent|
    ensures t <= LastSeen(sent[..n], t) <= |log|
  {
    if n > 0 { assert sent[n - 1] in log; }
  }

  /** Cutting what was sent, and what was logged, at the newest number that has arrived leaves the same of channel c. */
  lemma CutAlike<A>(log: seq<Envelope<A>>, sent: seq<Envelope<A>>, c: Uri, t: nat, n: nat, u: nat)
    requires Numbered(log) && Increasing(sent) && 0 < n <= |sent| && u == sent[n - 1].serverSeq <= |log|
    requires Filter(sent, t, {c}) == Filter(log, t, {c})
    ensures Filter(sent[..n], t, {c}) == Filter(log[..u], t, {c})
  {
    CutIncreasing(log, u, u);
    CutFilter(log, t, {c}, u);
    CutFilter(sent, t, {c}, u);
    CutIncreasing(sent, n, u);
  }

  lemma LateAlike<A>(log: seq<Envelope<A>>, sent: seq<Envelope<A>>, c: Uri, lo: nat, t: nat)
    requires Filter(sent, lo, {c}) == Filter(log, lo, {c}) && lo <= t
    ensures Filter(sent, t, {c}) == Filter(log, t, {c})
  {
    FilterTwice(sent, lo, {c}, t, {c});
    FilterTwice(log, lo, {c}, t, {c});
  }

  lemma NothingLater<A>(envelopes: seq<Envelope<A>>, c: Uri, t: nat, n: nat)
    requires Increasing(envelopes) && n <= |envelopes| && LastSeen(envelopes[..n], t) <= t
    ensures Filter(envelopes[..n], t, {c}) == []
  {
    FilterNothing(envelopes[..n], t, {c});
  }

  /** Envelopes sent in order, whose part of channel c agrees with the log from lo on: what arrives first agrees with
      the log cut at the newest envelope that arrived. */
  lemma ArrivedIsLogged<A>(log: seq<Envelope<A>>, sent: seq<Envelope<A>>, c: Uri, lo: nat, t: nat, n: nat)
    requires Numbered(log) && Increasing(sent) && (forall i :: 0 <= i < |sent| ==> sent[i] in log)
    requires Filter(sent, lo, {c}) == Filter(log, lo, {c}) && lo <= t <= |log| && n <= |sent|
    ensures t <= LastSeen(sent[..n], t) <= |log|
    ensures Filter(sent[..n], t, {c}) == Filter(log[..LastSeen(sent[..n], t)], t, {c})
  {
    var u := LastSeen(sent[..n], t);
    ArrivedReaches(log, sent, t, n);
    if u > t {
      LateAlike(log, sent, c, lo, t);
      CutAlike(log, sent, c, t, n, u);
    } else {
      NothingLater(sent, c, t, n);
      FilterNothing(log[..u], t, {c});
    }
  }

  /** A mirror that was right at t follows the host: after any number of the envelopes sent since, it is right up to
      the last one it has seen; after all of them it holds the host's present state. */
  lemma MirrorFollows<S(!new), A(!new)>(reduce: Reducer, h: Host<S, A>, k: nat, c: Uri, t: nat, n: nat)
    requires Inv(reduce, h) && c in h.channels && h.births[c].at <= t <= |h.q.log|
    requires k in h.connections && c in h.connections[k].subscriptions && !h.connections[k].broken
    requires c in h.connections[k].since && h.connections[k].since[c] <= t
    requires n <= |h.connections[k].sent|
    ensures var sent := h.connections[k].sent;
            var m := Absorb(reduce, c, h.channels[c].kind, Mirror(StateAt(reduce, h, c, t), t), sent[..n]);
            && m.seen == LastSeen(sent[..n], t) <= |h.q.log|
            && m.state == StateAt(reduce, h, c, m.seen)
            && (n == |sent| ==> m.state == h.channels[c].state)
  {
    var sent := h.connections[k].sent;
    var arrived := sent[..n];
    assert ConnectionOk(h.q.log, h.connections[k]) && Delivered(h.q.log, h.connections[k], c);
    AbsorbIsReduced(reduce, c, h.channels[c].kind, Mirror(StateAt(reduce, h, c, t), t), arrived);
    ArrivedIsLogged(h.q.log, sent, c, h.connections[k].since[c], t, n);
    StateAdvances(reduce, h, c, t, LastSeen(arrived, t));
    if n == |sent| {
      assert sent[..n] == sent;
      assert Delivered(h.q.log, h.connections[k], c);
      FilterTwice(sent, h.connections[k].since[c], {c}, t, {c});
      FilterTwice(h.q.log, h.connections[k].since[c], {c}, t, {c});
      assert h.q.log[..|h.q.log|] == h.q.log;
      StateAdvances(reduce, h, c, t, |h.q.log|);
      StateIsLatest(reduce, h, c);
    }
  }

  lemma {:induction false} FilterIncreasing<A>(a: seq<Envelope<A>>, lo: int, cs: set<Uri>)
    requires Increasing(a)
    ensures var kept := Filter(a, lo, cs);
            Increasing(kept) && (kept != [] ==> a != [] && kept[|kept| - 1].serverSeq <= a[|a| - 1].serverSeq)
    decreases |a|
  {
    if a != [] {
      FilterIncreasing(a[..|a| - 1], lo, cs);
    }
  }

  /** A client whose mirror was right at lastSeen and whose gap can be replayed holds the host's state after the replay,
      on every channel of the reconnect whose entry is still the one it had mirrored. */
  lemma ReplayConverges<S(!new), A(!new)>(reduce: Reducer, h: Host<S, A>, k: nat, c: Uri, lastSeen: nat)
    requires Inv(reduce, h) && k in h.connections && c in h.connections[k].subscriptions
    requires c in h.channels && h.births[c].at <= lastSeen <= |h.q.log|
    requires ReconnectReply(h, k, lastSeen).Replay?
    ensures var actions := ReconnectReply(h, k, lastSeen).actions;
            && Increasing(actions)
            && Absorb(reduce, c, h.channels[c].kind, Mirror(StateAt(reduce, h, c, lastSeen), lastSeen), actions).state
               == h.channels[c].state
  {
    var subscriptions := h.connections[k].subscriptions;
    var actions := ReconnectReply(h, k, lastSeen).actions;
    ReplayIsComplete(h.q, lastSeen, subscriptions);
    LogIncreasing(h.q);
    FilterIncreasing(h.q.log, lastSeen, subscriptions);
    AbsorbIsReduced(reduce, c, h.channels[c].kind, Mirror(StateAt(reduce, h, c, lastSeen), lastSeen), actions);
    FilterTwice(h.q.log, lastSeen, subscriptions, lastSeen, {c});
    assert h.q.log[..|h.q.log|] == h.q.log;
    StateAdvances(reduce, h, c, lastSeen, |h.q.log|);
    StateIsLatest(reduce, h, c);
  }

  /** Whatever a reconnecting client was sent on its new connection before the reply is in the replay, so the client
      may handle the reply first: skipping by number then loses nothing and applies nothing twice. */
  lemma ReplayCoversHandshake<S(!new), A(!new)>(reduce: Reducer, h: Host<S, A>, k: nat, lastSeen: nat)
    requires Inv(reduce, h) && k in h.connections && ReconnectReply(h, k, lastSeen).Replay?
    ensures forall e :: e in h.connections[k].sent && e.serverSeq > lastSeen && e.channel in h.connections[k].subscriptions ==>
              e in ReconnectReply(h, k, lastSeen).actions
  {
    ReplayIsComplete(h.q, lastSeen, h.connections[k].subscriptions);
    FilterFromBuffer(h.q.log, lastSeen, h.connections[k].subscriptions);
    assert ConnectionOk(h.q.log, h.connections[k]);
  }

  // ── Convergence across a run ──────────────────────────────────────────────

  /** A working connection subscribed to c at least since the log had t entries. */
  ghost predicate FollowsSince<S, A>(h: Host<S, A>, k: nat, c: Uri, t: nat) {
    && k in h.connections && c in h.connections[k].subscriptions && !h.connections[k].broken
    && c in h.connections[k].since && h.connections[k].since[c] <= t
  }

  /** The entry c has in h1 was there already in the earlier host h. */
  ghost predicate SameEntry<S, A>(h: Host<S, A>, h1: Host<S, A>, c: Uri) {
    c in h1.channels && c in h1.births && h1.births[c].number < h.creations
  }

  /** h1 comes after h: its log extends h's, and an entry it shares with h by number is the same entry. */
  ghost predicate Later<S(!new), A(!new)>(reduce: Reducer, h: Host<S, A>, h1: Host<S, A>) {
    && h.q.log <= h1.q.log && h.creations <= h1.creations
    && (forall c :: c in h1.channels && c in h1.births && h1.births[c].number < h.creations ==>
          c in h.channels && c in h.births && h1.births[c] == h.births[c] && h1.channels[c].kind == h.channels[c].kind)
  }

  lemma StepIsLater<S(!new), A(!new)>(reduce: Reducer, h: Host<S, A>, step: Step<S, A>)
    requires h.channels.Keys == h.births.Keys && (forall c :: c in h.births ==> h.births[c].number < h.creations)
    requires Enabled(h, step)
    ensures Later(reduce, h, Next(reduce, h, step))
  {
    var h1 := Next(reduce, h, step);
    forall c | c in h1.channels && c in h1.births && h1.births[c].number < h.creations
      ensures c in h.channels && c in h.births && h1.births[c] == h.births[c] && h1.channels[c].kind == h.channels[c].kind
    {
    }
  }

  lemma {:induction false} RunIsLater<S(!new), A(!new)>(reduce: Reducer, h: Host<S, A>, steps: seq<Step<S, A>>)
    requires Inv(reduce, h) && Trace(reduce, h, steps)
    ensures Inv(reduce, Run(reduce, h, steps)) && Later(reduce, h, Run(reduce, h, steps))
    decreases |steps|
  {
    if steps != [] {
      StepKeeps(reduce, h, steps[0]);
      StepIsLater(reduce, h, steps[0]);
      RunIsLater(reduce, Next(reduce, h, steps[0]), steps[1..]);
    }
  }

  /** While an entry is not replaced, what its state was at t never changes. */
  lemma PastIsStable<S(!new), A(!new)>(reduce: Reducer, h: Host<S, A>, h1: Host<S, A>, c: Uri, t: nat)
    requires Later(reduce, h, h1) && SameEntry(h, h1, c) && t <= |h.q.log|
    ensures StateAt(reduce, h1, c, t) == StateAt(reduce, h, c, t)
  {
    assert h1.q.log[..t] == h.q.log[..t];
  }

  lemma SnapshotIsRight<S(!new), A(!new)>(reduce: Reducer, h: Host<S, A>, k: nat, c: Uri)
    requires Inv(reduce, h) && k in h.connections && c in h.channels
    ensures var (h0, snapshot) := TrySubscribe(h, k, c);
            && Inv(reduce, h0) && h0.q == h.q && h0.creations == h.creations && h0.channels == h.channels && h0.births == h.births
            && snapshot == Some(Snapshot(c, StateAt(reduce, h0, c, |h.q.log|), |h.q.log|))
  {
    AddSubscriptionKeeps(reduce, h, k, c);
    StateIsLatest(reduce, TrySubscribe(h, k, c).0, c);
  }

  lemma FollowedToEnd<S(!new), A(!new)>(reduce: Reducer, h: Host<S, A>, k: nat, c: Uri, t: nat)
    requires Inv(reduce, h) && c in h.channels && h.births[c].at <= t <= |h.q.log| && FollowsSince(h, k, c, t)
    ensures Absorb(reduce, c, h.channels[c].kind, Mirror(StateAt(reduce, h, c, t), t), h.connections[k].sent).state == h.channels[c].state
  {
    var sent := h.connections[k].sent;
    MirrorFollows(reduce, h, k, c, t, |sent|);
    assert sent[..|sent|] == sent;
  }

  /** Snapshot, then the accepted envelopes after its number: the subscriber holds the host's state after any run
      that keeps the channel's entry, the subscription and the connection. */
  lemma SnapshotThenFollow<S(!new), A(!new)>(reduce: Reducer, h: Host<S, A>, k: nat, c: Uri, future: seq<Step<S, A>>, h1: Host<S, A>)
    requires Reachable(reduce, h) && k in h.connections && c in h.channels
    requires Trace(reduce, TrySubscribe(h, k, c).0, future) && h1 == Run(reduce, TrySubscribe(h, k, c).0, future)
    requires FollowsSince(h1, k, c, |h.q.log|) && SameEntry(h, h1, c)
    ensures var snapshot := TrySubscribe(h, k, c).1;
            && snapshot.Some?
            && Absorb(reduce, c, h1.channels[c].kind, Mirror(snapshot.value.state, snapshot.value.fromSeq), h1.connections[k].sent).state
               == h1.channels[c].state
  {
    ReachableInv(reduce, h);
    SnapshotIsRight(reduce, h, k, c);
    var h0 := TrySubscribe(h, k, c).0;
    RunIsLater(reduce, h0, future);
    PastIsStable(reduce, h0, h1, c, |h.q.log|);
    FollowedToEnd(reduce, h1, k, c, |h.q.log|);
  }

  /** What the reply leaves the client with is the host's state: a replay by reducing what the client holds, snapshots
      by replacing it. */
  predicate Recovers<S(==), A>(reduce: Reducer, h: Host<S, A>, c: Uri, m: Mirror<S>, reply: Reply<S, A>)
    requires c in h.channels
  {
    match reply
    case Replay(actions) => Absorb(reduce, c, h.channels[c].kind, m, actions).state == h.channels[c].state
    case Snapshots(all) => c in all && all[c] == Snapshot(c, h.channels[c].state, h.q.serverSeq)
  }

  /** A connection that breaks off, and a reconnect after any run: whatever part of the stream had arrived, the
      client's mirror is right up to the last number it saw, and the reply brings it to the host's present state. */
  lemma ReconnectConverges<S(!new), A(!new)>(reduce: Reducer, h: Host<S, A>, k: nat, c: Uri, t: nat, n: nat,
                                 future: seq<Step<S, A>>, h1: Host<S, A>, k1: nat)
    requires Reachable(reduce, h) && FollowsSince(h, k, c, t) && n <= |h.connections[k].sent|
    requires c in h.channels && c in h.births && h.births[c].at <= t <= |h.q.log|
    requires Trace(reduce, h, future) && h1 == Run(reduce, h, future)
    requires k1 in h1.connections && c in h1.connections[k1].subscriptions && SameEntry(h, h1, c)
    ensures var m := Absorb(reduce, c, h.channels[c].kind, Mirror(StateAt(reduce, h, c, t), t), h.connections[k].sent[..n]);
            Recovers(reduce, h1, c, m, ReconnectReply(h1, k1, m.seen))
  {
    ReachableInv(reduce, h);
    MirrorFollows(reduce, h, k, c, t, n);
    RunIsLater(reduce, h, future);
    var m := Absorb(reduce, c, h.channels[c].kind, Mirror(StateAt(reduce, h, c, t), t), h.connections[k].sent[..n]);
    PastIsStable(reduce, h, h1, c, m.seen);
    if ReconnectReply(h1, k1, m.seen).Replay? {
      ReplayConverges(reduce, h1, k1, c, m.seen);
    }
  }

  /** A client's channel is deleted and created anew while it is away, and the client reconnects. */
  function Replaced<S, A>(c: Uri, kind: Kind, before: S, after: S): seq<Step<S, A>> {
    [Create(c, kind, before), Accept(1), Handshake(1, 7, false), Delete(c), Create(c, kind, after),
     Accept(2), Handshake(2, 7, true), Resubscribe(2, c)]
  }

  /** The host once the client's first connection has been made and its channel deleted. */
  function Emptied<S, A>(capacity: int, c: Uri, kind: Kind, before: S): Host<S, A> {
    var h := CreateChannel(Init(capacity), c, kind, before).(connections := map[1 := Connection(None, false, {}, map[], [], false)]);
    DeleteChannel(Bind(h, 1, 7, false), c)
  }

  /** The host once the channel is there again and the client's second connection has subscribed to it. */
  function Refilled<S, A>(h: Host<S, A>, c: Uri, kind: Kind, after: S): Host<S, A> {
    var h1 := CreateChannel(h, c, kind, after);
    var h2 := h1.(connections := h1.connections[2 := Connection(None, false, {}, map[], [], false)]);
    AddSubscription(Bind(h2, 2, 7, true), 2, c)
  }

  lemma EmptiedRun<S(!new), A(!new)>(reduce: Reducer, capacity: int, c: Uri, kind: Kind, before: S, after: S)
    requires Trace(reduce, Emptied<S, A>(capacity, c, kind, before), Replaced<S, A>(c, kind, before, after)[4..])
    ensures var steps := Replaced<S, A>(c, kind, before, after);
            && Trace(reduce, Init(capacity), steps)
            && Run(reduce, Init(capacity), steps) == Run(reduce, Emptied<S, A>(capacity, c, kind, before), steps[4..])
  {
    var h0: Host<S, A> := Init(capacity);
    var steps: seq<Step<S, A>> := Replaced(c, kind, before, after);
    var h1 := CreateChannel(h0, c, kind, before);
    var h2 := h1.(connections := map[1 := Connection(None, false, {}, map[], [], false)]);
    var h3 := Bind(h2, 1, 7, false);
    Follows(reduce, h3, steps, 3, DeleteChannel(h3, c));
    Follows(reduce, h2, steps, 2, h3);
    Follows(reduce, h1, steps, 1, h2);
    Follows(reduce, h0, steps, 0, h1);
    assert steps[0..] == steps;
  }

  lemma ReturnedRun<S(!new), A(!new)>(reduce: Reducer, h: Host<S, A>, c: Uri, kind: Kind, before: S, after: S)
    requires 2 in h.connections && h.connections[2] == Connection(None, false, {}, map[], [], false) && c in h.channels
    ensures var steps := Replaced<S, A>(c, kind, before, after);
            Trace(reduce, h, steps[6..]) && Run(reduce, h, steps[6..]) == AddSubscription(Bind(h, 2, 7, true), 2, c)
  {
    var steps: seq<Step<S, A>> := Replaced(c, kind, before, after);
    var h1 := Bind(h, 2, 7, true);
    Follows(reduce, h1, steps, 7, AddSubscription(h1, 2, c));
    Follows(reduce, h, steps, 6, h1);
  }

  lemma RefilledRun<S(!new), A(!new)>(reduce: Reducer, h: Host<S, A>, c: Uri, kind: Kind, before: S, after: S)
    requires 2 !in h.connections
    ensures var steps := Replaced<S, A>(c, kind, before, after);
            Trace(reduce, h, steps[4..]) && Run(reduce, h, steps[4..]) == Refilled(h, c, kind, after)
  {
    var steps: seq<Step<S, A>> := Replaced(c, kind, before, after);
    var h1 := CreateChannel(h, c, kind, after);
    var h2 := h1.(connections := h1.connections[2 := Connection(None, false, {}, map[], [], false)]);
    ReturnedRun(reduce, h2, c, kind, before, after);
    Follows(reduce, h1, steps, 5, h2);
    Follows(reduce, h, steps, 4, h1);
  }

  /** Why the entry must not be replaced: the replay then leaves the client with the old entry's state, whatever the
      reducers and the two states are. */
  lemma ReplayOfReplacedChannelIsStale<S(!new), A(!new)>(reduce: Reducer, capacity: int, c: Uri, kind: Kind, before: S, after: S)
    ensures Trace(reduce, Init(capacity), Replaced<S, A>(c, kind, before, after))
    ensures var h := Run(reduce, Init(capacity), Replaced<S, A>(c, kind, before, after));
            && c in h.channels && h.channels[c].state == after
            && 2 in h.connections && c in h.connections[2].subscriptions
            && ReconnectReply(h, 2, 0).Replay?
            && Absorb(reduce, c, kind, Mirror(before, 0), ReconnectReply(h, 2, 0).actions).state == before
  {
    RefilledRun(reduce, Emptied<S, A>(capacity, c, kind, before), c, kind, before, after);
    EmptiedRun<S, A>(reduce, capacity, c, kind, before, after);
  }

  lemma Follows<S(!new), A(!new)>(reduce: Reducer, h: Host<S, A>, steps: seq<Step<S, A>>, i: nat, h1: Host<S, A>)
    requires i < |steps| && Enabled(h, steps[i]) && h1 == Next(reduce, h, steps[i]) && Trace(reduce, h1, steps[i + 1..])
    ensures Trace(reduce, h, steps[i..])
    ensures Run(reduce, h, steps[i..]) == Run(reduce, h1, steps[i + 1..])
  {
    assert steps[i..][1..] == steps[i + 1..];
  }
}

/** The host as an object over its store and its sequencer; every method is proved to be the step of the same name. */
module Host {
  import opened Protocol
  import opened SequencerSpec
  import opened StateStore
  import Seq = Sequencer
  import Spec = HostSpec

  class AhpHost<S, A> {
    const store: StateStore<S, A>
    const sequencer: Seq.Sequencer<A>
    var connections: map<nat, Spec.Connection<A>>
    var clientInfoById: set<nat>
    ghost var births: map<Uri, Spec.Birth<S>>
    ghost var creations: nat

    ghost function View(): Spec.Host<S, A>
      reads this, store, sequencer
    {
      Spec.Host(sequencer.View(), store.channels, births, creations, connections, clientInfoById)
    }

    constructor (reduce: (Kind, S, A) -> S, replayBufferCapacity: int)
      ensures fresh(store) && fresh(sequencer) && store.reduce == reduce
      ensures View() == Spec.Init(replayBufferCapacity)
    {
      store := new StateStore(reduce);
      sequencer := new Seq.Sequencer(replayBufferCapacity);
      connections, clientInfoById, births, creations := map[], {}, map[], 0;
    }

    // ── Channels ────────────────────────────────────────────────────────────

    method CreateChannel(channel: Uri, kind: Kind, state: S)
      modifies this, store
      ensures View() == Spec.CreateChannel(old(View()), channel, kind, state)
    {
      var created := store.Create(channel, state, Some(kind));
      births := births[channel := Spec.Birth(|sequencer.log|, state, creations)];
      creations := creations + 1;
    }

    /** Removes a channel and releases every connection subscribed to it. */
    method DeleteChannel(channel: Uri) returns (deleted: bool)
      modifies this, store
      ensures View() == Spec.DeleteChannel(old(View()), channel) && deleted == (channel in old(store.channels))
    {
      deleted := store.Delete(channel);
      births := births - {channel};
      var todo := connections.Keys;
      while todo != {}
        invariant todo <= connections.Keys == old(connections).Keys
        invariant forall k :: k in connections ==>
          connections[k] == if k in todo then old(connections)[k] else Spec.Unsubscribed(old(connections)[k], channel)
        invariant sequencer.View() == old(sequencer.View()) && store.channels == old(store.channels) - {channel}
        invariant births == old(births) - {channel} && creations == old(creations) && clientInfoById == old(clientInfoById)
        decreases todo
      {
        var k :| k in todo;
        var connection := connections[k];
        if channel in connection.subscriptions {
          connections := connections[k := connection.(subscriptions := connection.subscriptions - {channel})];
        } else {
          assert connection.subscriptions - {channel} == connection.subscriptions;
        }
        todo := todo - {k};
      }
    }

    // ── Actions ─────────────────────────────────────────────────────────────

    /** Sends an envelope to every subscriber; sends on the connections in `failing` throw. */
    method Broadcast(envelope: Envelope<A>, failing: set<nat>)
      modifies this`connections
      ensures connections == Spec.Broadcast(old(connections), envelope, failing)
    {
      var todo := connections.Keys;
      while todo != {}
        invariant todo <= connections.Keys == old(connections).Keys
        invariant forall k :: k in connections ==>
          connections[k] == if k in todo then old(connections)[k] else Spec.Receive(old(connections)[k], envelope, k in failing)
        decreases todo
      {
        var k :| k in todo;
        todo := todo - {k};
        var connection := connections[k];
        if envelope.channel !in connection.subscriptions {
          continue;
        }
        if k in failing {
          connections := connections[k := connection.(broken := true)];
        } else {
          connections := connections[k := connection.(sent := connection.sent + [envelope])];
        }
      }
    }

    method Commit(channel: Uri, action: A, origin: Option<ActionOrigin>, failing: set<nat>)
      modifies this`connections, store, sequencer
      ensures View() == Spec.Commit(store.reduce, old(View()), channel, action, origin, failing)
    {
      var applied := store.Apply(channel, action);
      var number := sequencer.Next();
      var envelope := Envelope(channel, action, number, origin, true);
      sequencer.Retain(envelope);
      Broadcast(envelope, failing);
    }

    method RejectAction(channel: Uri, action: A, origin: Option<ActionOrigin>, failing: set<nat>)
      modifies this`connections, sequencer
      ensures View() == Spec.Reject(old(View()), channel, action, origin, failing)
    {
      var number := sequencer.Next();
      var envelope := Envelope(channel, action, number, origin, false);
      sequencer.Retain(envelope);
      Broadcast(envelope, failing);
    }

    method DispatchServerAction(channel: Uri, action: A, failing: set<nat>)
      modifies this`connections, store, sequencer
      ensures View() == Spec.ServerAction(store.reduce, old(View()), channel, action, failing)
    {
      if channel !in store.channels {
        return;
      }
      Commit(channel, action, None, failing);
    }

    // ── Subscriptions ───────────────────────────────────────────────────────

    method AddSubscription(k: nat, channel: Uri)
      requires k in connections && Valid(sequencer.View())
      modifies this`connections
      ensures View() == Spec.AddSubscription(old(View()), k, channel)
    {
      var connection := connections[k];
      if channel in connection.subscriptions {
        assert connections == connections[k := connection];
        return;
      }
      connections := connections[k := connection.(subscriptions := connection.subscriptions + {channel},
                                                  since := connection.since[channel := sequencer.serverSeq])];
    }

    method TrySubscribe(k: nat, channel: Uri) returns (snapshot: Option<Snapshot<S>>)
      requires k in connections && Valid(sequencer.View())
      modifies this`connections
      ensures (View(), snapshot) == Spec.TrySubscribe(old(View()), k, channel)
    {
      if channel !in store.channels {
        return None;
      }
      AddSubscription(k, channel);
      snapshot := store.TakeSnapshot(channel, sequencer.serverSeq);
    }

    // ── Handshakes ──────────────────────────────────────────────────────────

    method CloseOthers(k: nat, client: nat)
      modifies this`connections
      ensures connections == Spec.WithoutOthers(old(connections), k, client)
    {
      var todo := connections.Keys - {k};
      while todo != {}
        invariant k !in todo && todo <= connections.Keys <= old(connections).Keys
        invariant forall j :: j in old(connections) ==>
          (j in connections <==> j in todo || j == k || old(connections)[j].client != Some(client))
        invariant forall j :: j in connections ==> connections[j] == old(connections)[j]
        decreases todo
      {
        var j :| j in todo;
        todo := todo - {j};
        if connections[j].client == Some(client) {
          connections := connections - {j};
        }
      }
    }

    /** Replaces any other connection of the same client. */
    method BindClient(k: nat, client: nat, reconnecting: bool)
      requires k in connections
      modifies this
      ensures View() == Spec.Bind(old(View()), k, client, reconnecting)
    {
      var knownClient := client in clientInfoById;
      clientInfoById := clientInfoById + {client};
      var bound := connections[k].(client := Some(client), wasKnown := knownClient);
      CloseOthers(k, client);
      connections := connections[k := if reconnecting then bound.(subscriptions := {}) else bound];
    }

    method ReconnectSubscribe(k: nat, channel: Uri)
      requires k in connections && Valid(sequencer.View())
      modifies this`connections
      ensures View() == Spec.ReconnectSubscribe(old(View()), k, channel)
    {
      if channel == Spec.ROOT_CHANNEL || channel in store.channels {
        AddSubscription(k, channel);
      }
    }

    /** The reply to a reconnect: the replay when the client is known and its gap is still buffered, snapshots otherwise. */
    method ReconnectReply(k: nat, lastSeen: nat) returns (reply: Spec.Reply<S, A>)
      requires k in connections
      ensures reply == Spec.ReconnectReply(View(), k, lastSeen)
    {
      var connection := connections[k];
      if connection.wasKnown {
        var can := sequencer.CanReplayFrom(lastSeen);
        if can {
          var actions := sequencer.ReplayFrom(lastSeen, connection.subscriptions);
          return Spec.Replay(actions);
        }
      }
      var snapshots: map<Uri, Snapshot<S>> := map[];
      var todo := connection.subscriptions;
      while todo != {}
        invariant todo <= connection.subscriptions
        invariant forall c :: c in snapshots <==> c in connection.subscriptions && c !in todo && c in store.channels
        invariant forall c :: c in snapshots ==> snapshots[c] == Snapshot(c, store.channels[c].state, sequencer.serverSeq)
        decreases todo
      {
        var c :| c in todo;
        todo := todo - {c};
        var snapshot := store.TakeSnapshot(c, sequencer.serverSeq);
        if snapshot.Some? {
          snapshots := snapshots[c := snapshot.value];
        }
      }
      reply := Spec.Snapshots(snapshots);
    }
  }
}
