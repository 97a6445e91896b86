/** The authoritative state store: a state tree per channel, changed only by reducing actions into it. */
module StateStore {
  import opened Protocol
  import opened SequencerSpec

  datatype Kind = Root | Session | ChatKind | Terminal | Changeset | ResourceWatch

  datatype Entry<S> = Entry(kind: Kind, state: S)

  /** A subscribe or initialize snapshot, taken when the sequencer stood at fromSeq. */
  datatype Snapshot<S> = Snapshot(resource: Uri, state: S, fromSeq: nat)

  function Applied<S, A>(reduce: (Kind, S, A) -> S, channels: map<Uri, Entry<S>>, channel: Uri, action: A): map<Uri, Entry<S>> {
    if channel in channels then
      channels[channel := channels[channel].(state := reduce(channels[channel].kind, channels[channel].state, action))]
    else channels
  }

  function SnapshotOf<S>(channels: map<Uri, Entry<S>>, channel: Uri, fromSeq: nat): Option<Snapshot<S>> {
    if channel in channels then Some(Snapshot(channel, channels[channel].state, fromSeq)) else None
  }

  class StateStore<S, A> {
    var channels: map<Uri, Entry<S>>
    const reduce: (Kind, S, A) -> S

    constructor (reduce: (Kind, S, A) -> S)
      ensures channels == map[] && this.reduce == reduce
    {
      this.reduce := reduce;
      channels := map[];
    }

    /** Registers a channel, replacing any existing entry; a channel of unknown kind is refused. */
    method Create(channel: Uri, state: S, kind: Option<Kind>) returns (created: bool)
      modifies this
      ensures created == kind.Some?
      ensures channels == if created then old(channels)[channel := Entry(kind.value, state)] else old(channels)
    {
      created := kind.Some?;
      if created {
        channels := channels[channel := Entry(kind.value, state)];
      }
    }

    method Delete(channel: Uri) returns (deleted: bool)
      modifies this
      ensures deleted == (channel in old(channels)) && channels == old(channels) - {channel}
    {
      deleted := channel in channels;
      channels := channels - {channel};
    }

    /** Returns false, changing nothing, when the channel does not exist. */
    method Apply(channel: Uri, action: A) returns (applied: bool)
      modifies this
      ensures applied == (channel in old(channels))
      ensures channels == Applied(reduce, old(channels), channel, action)
    {
      applied := channel in channels;
      if applied {
        var entry := channels[channel];
        channels := channels[channel := entry.(state := reduce(entry.kind, entry.state, action))];
      }
    }

    method TakeSnapshot(channel: Uri, fromSeq: nat) returns (snapshot: Option<Snapshot<S>>)
      ensures snapshot == SnapshotOf(channels, channel, fromSeq)
    {
      if channel in channels {
        snapshot := Some(Snapshot(channel, channels[channel].state, fromSeq));
      } else {
        snapshot := None;
      }
    }
  }
}
