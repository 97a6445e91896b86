/**
 Server sequence allocation and the bounded replay buffer. The specification keeps the whole log beside
 the buffer, so that what the buffer forgets can be stated.
 */
module SequencerSpec {
  import opened Protocol

  type Uri = nat

  datatype ActionOrigin = ActionOrigin(clientId: nat, clientSeq: int)

  /** An action as it leaves the host; a rejected one is echoed but never reduced. */
  datatype Envelope<A> = Envelope(channel: Uri, action: A, serverSeq: nat, origin: Option<ActionOrigin>, accepted: bool)

  datatype Sequencer<A> = Sequencer(log: seq<Envelope<A>>, buffer: seq<Envelope<A>>, serverSeq: nat, capacity: nat)

  function Init<A>(capacity: int): Sequencer<A> {
    Sequencer([], [], 0, if capacity < 1 then 1 else capacity)
  }

  function Next<A>(q: Sequencer<A>): Sequencer<A> {
    q.(serverSeq := q.serverSeq + 1)
  }

  function Retain<A>(q: Sequencer<A>, e: Envelope<A>): Sequencer<A> {
    var pushed := q.buffer + [e];
    q.(log := q.log + [e], buffer := if |pushed| > q.capacity then pushed[1..] else pushed)
  }

  /** Allocates the next number and retains the envelope built with it. */
  function Emit<A>(q: Sequencer<A>, channel: Uri, action: A, origin: Option<ActionOrigin>, accepted: bool): Sequencer<A> {
    Retain(Next(q), Envelope(channel, action, q.serverSeq + 1, origin, accepted))
  }

  predicate CanReplayFrom<A>(q: Sequencer<A>, lastSeen: int) {
    lastSeen >= q.serverSeq || (q.buffer != [] && q.buffer[0].serverSeq <= lastSeen + 1)
  }

  function Filter<A>(envelopes: seq<Envelope<A>>, lastSeen: int, channels: set<Uri>): seq<Envelope<A>> {
    if envelopes == [] then []
    else
      var last := envelopes[|envelopes| - 1];
      var before := Filter(envelopes[..|envelopes| - 1], lastSeen, channels);
      if last.serverSeq > lastSeen && last.channel in channels then before + [last] else before
  }

  function ReplayFrom<A>(q: Sequencer<A>, lastSeen: int, channels: set<Uri>): seq<Envelope<A>> {
    Filter(q.buffer, lastSeen, channels)
  }

  ghost predicate Numbered<A>(log: seq<Envelope<A>>) {
    forall i :: 0 <= i < |log| ==> log[i].serverSeq == i + 1
  }

  /** The i-th envelope of the log carries number i + 1, and the buffer is the log's newest part, as long as fits. */
  ghost predicate Valid<A>(q: Sequencer<A>) {
    && q.serverSeq == |q.log|
    && 1 <= q.capacity
    && Numbered(q.log)
    && |q.buffer| == (if |q.log| <= q.capacity then |q.log| else q.capacity)
    && q.buffer == q.log[|q.log| - |q.buffer|..]
  }

  lemma InitIsValid<A>(capacity: int)
    ensures Valid(Init<A>(capacity))
  {
  }

  lemma EmitKeeps<A>(q: Sequencer<A>, channel: Uri, action: A, origin: Option<ActionOrigin>, accepted: bool)
    requires Valid(q)
    ensures Valid(Emit(q, channel, action, origin, accepted))
  {
    var e := Envelope(channel, action, q.serverSeq + 1, origin, accepted);
    assert q.log[|q.log| - |q.buffer|..] + [e] == (q.log + [e])[|q.log| - |q.buffer|..];
  }

  /** A gap can be replayed exactly when it is no longer than the buffer's capacity. */
  lemma CanReplayIff<A>(q: Sequencer<A>, lastSeen: int)
    requires Valid(q) && lastSeen >= 0
    ensures CanReplayFrom(q, lastSeen) <==> q.serverSeq - lastSeen <= q.capacity
  {
    if q.buffer != [] {
      assert q.buffer[0] == q.log[|q.log| - |q.buffer|];
    }
  }

  lemma {:induction false} FilterConcat<A>(a: seq<Envelope<A>>, b: seq<Envelope<A>>, lastSeen: int, channels: set<Uri>)
    ensures Filter(a + b, lastSeen, channels) == Filter(a, lastSeen, channels) + Filter(b, lastSeen, channels)
    decreases |b|
  {
    if b == [] {
      assert a + b == a;
    } else {
      FilterConcat(a, b[..|b| - 1], lastSeen, channels);
      assert (a + b)[..|a + b| - 1] == a + b[..|b| - 1];
    }
  }

  lemma {:induction false} FilterNothing<A>(a: seq<Envelope<A>>, lastSeen: int, channels: set<Uri>)
    requires forall i :: 0 <= i < |a| ==> a[i].serverSeq <= lastSeen
    ensures Filter(a, lastSeen, channels) == []
    decreases |a|
  {
    if a != [] { FilterNothing(a[..|a| - 1], lastSeen, channels); }
  }

  /** When the gap can be replayed, the replay omits nothing: it is what filtering the complete log would give. */
  lemma ReplayIsComplete<A>(q: Sequencer<A>, lastSeen: int, channels: set<Uri>)
    requires Valid(q) && CanReplayFrom(q, lastSeen) && lastSeen >= 0
    ensures ReplayFrom(q, lastSeen, channels) == Filter(q.log, lastSeen, channels)
  {
    CanReplayIff(q, lastSeen);
    var forgotten := q.log[..|q.log| - |q.buffer|];
    assert q.log == forgotten + q.buffer;
    FilterConcat(forgotten, q.buffer, lastSeen, channels);
    FilterNothing(forgotten, lastSeen, channels);
  }

  /** When it cannot, the replay of every channel silently omits the evicted envelopes after lastSeen. */
  lemma ReplayOmitsEvicted<A>(q: Sequencer<A>, lastSeen: int, channels: set<Uri>)
    requires Valid(q) && !CanReplayFrom(q, lastSeen) && lastSeen >= 0
    ensures q.log[lastSeen].serverSeq > lastSeen && q.log[lastSeen] !in ReplayFrom(q, lastSeen, channels)
  {
    CanReplayIff(q, lastSeen);
    FilterFromBuffer(q.buffer, lastSeen, channels);
    assert forall i :: 0 <= i < |q.buffer| ==> q.buffer[i] == q.log[|q.log| - |q.buffer| + i];
  }

  lemma {:induction false} FilterFromBuffer<A>(a: seq<Envelope<A>>, lastSeen: int, channels: set<Uri>)
    ensures forall e :: e in Filter(a, lastSeen, channels) <==> e in a && e.serverSeq > lastSeen && e.channel in channels
    decreases |a|
  {
    if a != [] {
      FilterFromBuffer(a[..|a| - 1], lastSeen, channels);
      assert a == a[..|a| - 1] + [a[|a| - 1]];
    }
  }
}

module Sequencer {
  import opened Protocol
  import opened Spec = SequencerSpec

  const DEFAULT_REPLAY_BUFFER_CAPACITY := 1000

  class Sequencer<A> {
    var serverSeq: nat
    var buffer: seq<Envelope<A>>
    const capacity: nat
    ghost var log: seq<Envelope<A>>

    ghost function View(): Spec.Sequencer<A>
      reads this
    {
      Spec.Sequencer(log, buffer, serverSeq, capacity)
    }

    constructor (capacity: int := DEFAULT_REPLAY_BUFFER_CAPACITY)
      ensures View() == Spec.Init(capacity)
    {
      this.capacity := if capacity < 1 then 1 else capacity;
      serverSeq, buffer, log := 0, [], [];
    }

    method Next() returns (number: nat)
      modifies this
      ensures View() == Spec.Next(old(View())) && number == serverSeq
    {
      serverSeq := serverSeq + 1;
      number := serverSeq;
    }

    method Retain(envelope: Envelope<A>)
      modifies this
      ensures View() == Spec.Retain(old(View()), envelope)
    {
      buffer := buffer + [envelope];
      log := log + [envelope];
      if |buffer| > capacity {
        buffer := buffer[1..];
      }
    }

    method OldestRetainedSeq() returns (oldest: Option<nat>)
      ensures oldest == if buffer == [] then None else Some(buffer[0].serverSeq)
    {
      oldest := if buffer == [] then None else Some(buffer[0].serverSeq);
    }

    method CanReplayFrom(lastSeen: int) returns (can: bool)
      ensures can == Spec.CanReplayFrom(View(), lastSeen)
    {
      if lastSeen >= serverSeq {
        return true;
      }
      var oldest := OldestRetainedSeq();
      can := oldest.Some? && oldest.value <= lastSeen + 1;
    }

    method ReplayFrom(lastSeen: int, channels: set<Uri>) returns (replay: seq<Envelope<A>>)
      ensures replay == Spec.ReplayFrom(View(), lastSeen, channels)
    {
      replay := [];
      for i := 0 to |buffer|
        invariant replay == Spec.Filter(buffer[..i], lastSeen, channels)
      {
        assert buffer[..i + 1][..i] == buffer[..i];
        if buffer[i].serverSeq > lastSeen && buffer[i].channel in channels {
          replay := replay + [buffer[i]];
        }
      }
      assert buffer[..|buffer|] == buffer;
    }
  }
}
