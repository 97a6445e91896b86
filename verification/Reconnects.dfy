/**
 A client that loses its connection and reconnects, again and again: it carries its mirror of a channel from one
 connection to the next, and each reply brings it up to date.
 */
module ReconnectsSpec {
  import opened Protocol
  import opened SequencerSpec
  import opened StateStore
  import opened HostSpec

  /** A client at a host: its connection, and its mirror of one channel. */
  datatype Client<S, A> = At(h: Host<S, A>, k: nat, m: Mirror<S>)

  /** From one reply to the next: the host goes on while the client stays, the client receives so much of its stream
      before the connection is lost, the host goes on without it, and the client is back on another connection. */
  datatype Episode<S, A> = Episode(stay: seq<Step<S, A>>, arrived: nat, away: seq<Step<S, A>>, back: nat)

  /** The mirror is what the channel's present entry was when the host had sent the last number the client saw. */
  ghost predicate Right<S(!new), A(!new)>(reduce: Reducer, h: Host<S, A>, c: Uri, m: Mirror<S>) {
    c in h.channels && c in h.births && h.births[c].at <= m.seen <= |h.q.log| && m.state == StateAt(reduce, h, c, m.seen)
  }

  /** Whatever the channel has been told after `lo` was told after `hi`. */
  ghost predicate Quiet<A>(log: seq<Envelope<A>>, c: Uri, lo: nat, hi: nat) {
    forall i :: 0 <= i < |log| && log[i].channel == c && log[i].serverSeq > lo ==> log[i].serverSeq > hi
  }

  /** The connection has sent, or will send, everything the channel has been told since the mirror was right. */
  ghost predicate InStep<S, A>(h: Host<S, A>, k: nat, c: Uri, m: Mirror<S>) {
    && k in h.connections && c in h.connections[k].subscriptions && c in h.connections[k].since
    && h.connections[k].since[c] <= |h.q.log|
    && Quiet(h.q.log, c, m.seen, h.connections[k].since[c])
  }

  ghost predicate UpToDate<S(!new), A(!new)>(reduce: Reducer, at: Client<S, A>, c: Uri) {
    Inv(reduce, at.h) && Right(reduce, at.h, c, at.m) && InStep(at.h, at.k, c, at.m)
  }

  /** Connection k works, and has been subscribed to c without interruption. */
  ghost predicate StillFollows<S, A>(h: Host<S, A>, h1: Host<S, A>, k: nat, c: Uri) {
    && k in h.connections && c in h.connections[k].since
    && k in h1.connections && c in h1.connections[k].subscriptions && !h1.connections[k].broken
    && c in h1.connections[k].since && h1.connections[k].since[c] == h.connections[k].since[c]
  }

  /** What the client makes of the reply to its reconnect. */
  function Handled<S, A>(reduce: Reducer, c: Uri, kind: Kind, m: Mirror<S>, reply: Reply<S, A>): Mirror<S> {
    match reply
    case Replay(actions) => Absorb(reduce, c, kind, m, actions)
    case Snapshots(all) => if c in all then Mirror(all[c].state, all[c].fromSeq) else m
  }

  ghost predicate Possible<S(!new), A(!new)>(reduce: Reducer, c: Uri, at: Client<S, A>, ep: Episode<S, A>) {
    && c in at.h.channels && Trace(reduce, at.h, ep.stay)
    && var h1 := Run(reduce, at.h, ep.stay);
       && SameEntry(at.h, h1, c) && StillFollows(at.h, h1, at.k, c) && ep.arrived <= |h1.connections[at.k].sent|
       && Trace(reduce, h1, ep.away)
       && var h2 := Run(reduce, h1, ep.away);
          SameEntry(h1, h2, c) && ep.back in h2.connections && c in h2.connections[ep.back].subscriptions
  }

  /** The client's mirror when the connection is lost. */
  function LostWith<S(!new), A(!new)>(reduce: Reducer, c: Uri, at: Client<S, A>, ep: Episode<S, A>): Mirror<S>
    requires Possible(reduce, c, at, ep)
  {
    Absorb(reduce, c, at.h.channels[c].kind, at.m, Run(reduce, at.h, ep.stay).connections[at.k].sent[..ep.arrived])
  }

  function After<S(!new), A(!new)>(reduce: Reducer, c: Uri, at: Client<S, A>, ep: Episode<S, A>): Client<S, A>
    requires Possible(reduce, c, at, ep)
  {
    var h2 := Run(reduce, Run(reduce, at.h, ep.stay), ep.away);
    var m := LostWith(reduce, c, at, ep);
    At(h2, ep.back, Handled(reduce, c, at.h.channels[c].kind, m, ReconnectReply(h2, ep.back, m.seen)))
  }

  ghost predicate Lives<S(!new), A(!new)>(reduce: Reducer, c: Uri, at: Client<S, A>, eps: seq<Episode<S, A>>)
    decreases |eps|
  {
    eps == [] || (Possible(reduce, c, at, eps[0]) && Lives(reduce, c, After(reduce, c, at, eps[0]), eps[1..]))
  }

  function AfterAll<S(!new), A(!new)>(reduce: Reducer, c: Uri, at: Client<S, A>, eps: seq<Episode<S, A>>): Client<S, A>
    requires Lives(reduce, c, at, eps)
    decreases |eps|
  {
    if eps == [] then at else AfterAll(reduce, c, After(reduce, c, at, eps[0]), eps[1..])
  }

  // ── Staying right ─────────────────────────────────────────────────────────

  lemma {:induction false} FilterGap<A>(a: seq<Envelope<A>>, c: Uri, lo: nat, hi: nat)
    requires lo <= hi && Quiet(a, c, lo, hi)
    ensures Filter(a, lo, {c}) == Filter(a, hi, {c})
    decreases |a|
  {
    if a != [] {
      var before := a[..|a| - 1];
      forall i | 0 <= i < |before| && before[i].channel == c && before[i].serverSeq > lo ensures before[i].serverSeq > hi {
        assert before[i] == a[i];
      }
      FilterGap(before, c, lo, hi);
    }
  }

  lemma SentIsQuiet<A>(log: seq<Envelope<A>>, sent: seq<Envelope<A>>, c: Uri, lo: nat, hi: nat)
    requires Quiet(log, c, lo, hi) && forall i :: 0 <= i < |sent| ==> sent[i] in log
    ensures Quiet(sent, c, lo, hi)
  {
    forall i | 0 <= i < |sent| && sent[i].channel == c && sent[i].serverSeq > lo ensures sent[i].serverSeq > hi {
      var j :| 0 <= j < |log| && log[j] == sent[i];
      assert log[j].serverSeq > hi;
    }
  }

  /** What the connection has sent of the channel since the mirror was right is what the host has logged of it. */
  lemma SentSinceMirror<S(!new), A(!new)>(reduce: Reducer, h: Host<S, A>, k: nat, c: Uri, m: Mirror<S>)
    requires Inv(reduce, h) && InStep(h, k, c, m) && !h.connections[k].broken
    ensures Filter(h.connections[k].sent, m.seen, {c}) == Filter(h.q.log, m.seen, {c})
  {
    var sent, since := h.connections[k].sent, h.connections[k].since[c];
    assert ConnectionOk(h.q.log, h.connections[k]) && Delivered(h.q.log, h.connections[k], c);
    if since <= m.seen {
      FilterTwice(sent, since, {c}, m.seen, {c});
      FilterTwice(h.q.log, since, {c}, m.seen, {c});
    } else {
      SentIsQuiet(h.q.log, sent, c, m.seen, since);
      FilterGap(sent, c, m.seen, since);
      FilterGap(h.q.log, c, m.seen, since);
    }
  }

  /** A mirror in step with a working connection stays right as envelopes arrive, and is the host's state once all have. */
  lemma FollowsInStep<S(!new), A(!new)>(reduce: Reducer, h: Host<S, A>, k: nat, c: Uri, m: Mirror<S>, n: nat)
    requires Inv(reduce, h) && Right(reduce, h, c, m) && InStep(h, k, c, m) && !h.connections[k].broken
    requires n <= |h.connections[k].sent|
    ensures var m1 := Absorb(reduce, c, h.channels[c].kind, m, h.connections[k].sent[..n]);
            && Right(reduce, h, c, m1) && m1.seen >= m.seen
            && (n == |h.connections[k].sent| ==> m1.state == h.channels[c].state)
  {
    var sent, kind := h.connections[k].sent, h.channels[c].kind;
    SentSinceMirror(reduce, h, k, c, m);
    assert ConnectionOk(h.q.log, h.connections[k]);
    AbsorbIsReduced(reduce, c, kind, m, sent[..n]);
    ArrivedIsLogged(h.q.log, sent, c, m.seen, m.seen, n);
    StateAdvances(reduce, h, c, m.seen, LastSeen(sent[..n], m.seen));
    if n == |sent| {
      assert sent[..n] == sent && h.q.log[..|h.q.log|] == h.q.log;
      StateAdvances(reduce, h, c, m.seen, |h.q.log|);
      StateIsLatest(reduce, h, c);
    }
  }

  lemma RightLater<S(!new), A(!new)>(reduce: Reducer, h: Host<S, A>, h1: Host<S, A>, c: Uri, m: Mirror<S>)
    requires Right(reduce, h, c, m) && Later(reduce, h, h1) && SameEntry(h, h1, c)
    ensures Right(reduce, h1, c, m) && h1.channels[c].kind == h.channels[c].kind
  {
    PastIsStable(reduce, h, h1, c, m.seen);
  }

  lemma InStepLater<S(!new), A(!new)>(reduce: Reducer, h: Host<S, A>, h1: Host<S, A>, k: nat, c: Uri, m: Mirror<S>)
    requires InStep(h, k, c, m) && Later(reduce, h, h1) && Inv(reduce, h1) && StillFollows(h, h1, k, c)
    ensures InStep(h1, k, c, m)
  {
    var log, log1, since := h.q.log, h1.q.log, h.connections[k].since[c];
    forall i | 0 <= i < |log1| && log1[i].channel == c && log1[i].serverSeq > m.seen ensures log1[i].serverSeq > since {
      if i < |log| { assert log1[i] == log[i]; }
    }
  }

  // ── Coming back ───────────────────────────────────────────────────────────

  lemma LastIsNewest<A>(es: seq<Envelope<A>>, seen: nat)
    requires Increasing(es)
    ensures forall i :: 0 <= i < |es| ==> es[i].serverSeq <= LastSeen(es, seen)
    ensures LastSeen(es, seen) >= seen
  {
  }

  /** After the last number of the replay the log has nothing on a replayed channel. */
  lemma NothingAfterReplay<A>(q: Sequencer<A>, seen: nat, cs: set<Uri>, c: Uri, actions: seq<Envelope<A>>)
    requires Valid(q) && c in cs && actions == Filter(q.log, seen, cs) && Increasing(actions) && seen <= |q.log|
    ensures forall i :: 0 <= i < |q.log| && q.log[i].channel == c ==> q.log[i].serverSeq <= LastSeen(actions, seen)
    ensures LastSeen(actions, seen) <= |q.log|
  {
    FilterFromBuffer(q.log, seen, cs);
    LastIsNewest(actions, seen);
    forall i | 0 <= i < |q.log| && q.log[i].channel == c ensures q.log[i].serverSeq <= LastSeen(actions, seen) {
      if q.log[i].serverSeq > seen {
        assert q.log[i] in actions;
      }
    }
    if actions != [] { assert actions[|actions| - 1] in q.log; }
  }

  /** What is told of no further is what it is now. */
  lemma RightAtEnd<S(!new), A(!new)>(reduce: Reducer, h: Host<S, A>, c: Uri, u: nat)
    requires Inv(reduce, h) && c in h.channels && h.births[c].at <= u <= |h.q.log|
    requires forall i :: 0 <= i < |h.q.log| && h.q.log[i].channel == c ==> h.q.log[i].serverSeq <= u
    ensures StateAt(reduce, h, c, u) == h.channels[c].state
  {
    assert h.q.log[..|h.q.log|] == h.q.log;
    assert Quiet(h.q.log, c, u, |h.q.log|);
    FilterGap(h.q.log, c, u, |h.q.log|);
    FilterNothing(h.q.log, |h.q.log|, {c});
    StateAdvances(reduce, h, c, u, |h.q.log|);
    StateIsLatest(reduce, h, c);
  }

  /** Whichever reply a right mirror gets, it is right afterwards, up to date, and in step with the new connection. */
  lemma ReplyIsRight<S(!new), A(!new)>(reduce: Reducer, h: Host<S, A>, k: nat, c: Uri, m: Mirror<S>)
    requires Inv(reduce, h) && Right(reduce, h, c, m) && k in h.connections && c in h.connections[k].subscriptions
    ensures var m1 := Handled(reduce, c, h.channels[c].kind, m, ReconnectReply(h, k, m.seen));
            Right(reduce, h, c, m1) && InStep(h, k, c, m1) && m1.state == h.channels[c].state
  {
    var reply := ReconnectReply(h, k, m.seen);
    assert ConnectionOk(h.q.log, h.connections[k]) && Delivered(h.q.log, h.connections[k], c);
    match reply
    case Snapshots(all) => StateIsLatest(reduce, h, c);
    case Replay(actions) =>
      ReplayConverges(reduce, h, k, c, m.seen);
      ReplayIsComplete(h.q, m.seen, h.connections[k].subscriptions);
      AbsorbIsReduced(reduce, c, h.channels[c].kind, m, actions);
      NothingAfterReplay(h.q, m.seen, h.connections[k].subscriptions, c, actions);
      RightAtEnd(reduce, h, c, LastSeen(actions, m.seen));
  }

  // ── Any number of losses ──────────────────────────────────────────────────

  /** One episode: whatever part of the stream had arrived, the client that comes back is up to date. */
  lemma EpisodeConverges<S(!new), A(!new)>(reduce: Reducer, c: Uri, at: Client<S, A>, ep: Episode<S, A>)
    requires UpToDate(reduce, at, c) && Possible(reduce, c, at, ep)
    ensures var end := After(reduce, c, at, ep); UpToDate(reduce, end, c) && end.m.state == end.h.channels[c].state
  {
    var h1 := Run(reduce, at.h, ep.stay);
    RunIsLater(reduce, at.h, ep.stay);
    RightLater(reduce, at.h, h1, c, at.m);
    InStepLater(reduce, at.h, h1, at.k, c, at.m);
    FollowsInStep(reduce, h1, at.k, c, at.m, ep.arrived);
    var h2, m := Run(reduce, h1, ep.away), LostWith(reduce, c, at, ep);
    RunIsLater(reduce, h1, ep.away);
    RightLater(reduce, h1, h2, c, m);
    ReplyIsRight(reduce, h2, ep.back, c, m);
  }

  lemma {:induction false} EpisodesConverge<S(!new), A(!new)>(reduce: Reducer, c: Uri, at: Client<S, A>, eps: seq<Episode<S, A>>)
    requires UpToDate(reduce, at, c) && Lives(reduce, c, at, eps)
    ensures var end := AfterAll(reduce, c, at, eps);
            UpToDate(reduce, end, c) && (eps != [] ==> end.m.state == end.h.channels[c].state)
    decreases |eps|
  {
    if eps != [] {
      EpisodeConverges(reduce, c, at, eps[0]);
      EpisodesConverge(reduce, c, After(reduce, c, at, eps[0]), eps[1..]);
    }
  }

  /** A client that has just subscribed and holds the snapshot. */
  function Subscriber<S, A>(h: Host<S, A>, k: nat, c: Uri): Client<S, A>
    requires k in h.connections && c in h.channels
  {
    At(TrySubscribe(h, k, c).0, k, Mirror(h.channels[c].state, h.q.serverSeq))
  }

  lemma SubscriberUpToDate<S(!new), A(!new)>(reduce: Reducer, h: Host<S, A>, k: nat, c: Uri)
    requires Inv(reduce, h) && k in h.connections && c in h.channels
    ensures UpToDate(reduce, Subscriber(h, k, c), c)
    ensures TrySubscribe(h, k, c).1 == Some(Snapshot(c, Subscriber(h, k, c).m.state, Subscriber(h, k, c).m.seen))
  {
    AddSubscriptionKeeps(reduce, h, k, c);
    var h0 := TrySubscribe(h, k, c).0;
    StateIsLatest(reduce, h0, c);
    assert ConnectionOk(h0.q.log, h0.connections[k]) && Delivered(h0.q.log, h0.connections[k], c);
  }

  /** However often a subscriber loses its connection, wherever in its stream each loss falls, and whichever reply each
      reconnect gets: as long as the channel's entry is not replaced, its mirror is the host's state after every
      reconnect, is right ever after up to the last number it has seen, and is the host's state again whenever
      everything sent to it has arrived. */
  lemma ReconnectsConverge<S(!new), A(!new)>(reduce: Reducer, h: Host<S, A>, k: nat, c: Uri, eps: seq<Episode<S, A>>,
                                             end: Client<S, A>, future: seq<Step<S, A>>, n: nat)
    requires Reachable(reduce, h) && k in h.connections && c in h.channels
    requires Lives(reduce, c, Subscriber(h, k, c), eps) && end == AfterAll(reduce, c, Subscriber(h, k, c), eps)
    requires Trace(reduce, end.h, future)
    requires var h1 := Run(reduce, end.h, future);
             StillFollows(end.h, h1, end.k, c) && SameEntry(end.h, h1, c) && n <= |h1.connections[end.k].sent|
    ensures c in end.h.channels && (eps != [] ==> end.m.state == end.h.channels[c].state)
    ensures var h1 := Run(reduce, end.h, future);
            var m := Absorb(reduce, c, h1.channels[c].kind, end.m, h1.connections[end.k].sent[..n]);
            Right(reduce, h1, c, m) && (n == |h1.connections[end.k].sent| ==> m.state == h1.channels[c].state)
  {
    ReachableInv(reduce, h);
    SubscriberUpToDate(reduce, h, k, c);
    EpisodesConverge(reduce, c, Subscriber(h, k, c), eps);
    var h1 := Run(reduce, end.h, future);
    RunIsLater(reduce, end.h, future);
    RightLater(reduce, end.h, h1, c, end.m);
    InStepLater(reduce, end.h, h1, end.k, c, end.m);
    FollowsInStep(reduce, h1, end.k, c, end.m, n);
  }
}
