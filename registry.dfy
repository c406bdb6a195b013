/**
 * The stream registry: the shared map from file name to the upload session waiting for its
 * download client. Each method is one critical section under the registry's write lock.
 */
module Registry {
  import opened Wrappers
  import opened Mpsc
  import opened Oneshot
  import opened Relay

  /**
   * A pending upload: the receiving half of its channel, to be handed to the download
   * response, and the sender of its ready signal, taken out by whoever fires it.
   */
  datatype Session = Session(receiver: Channel<Item>, readyTx: Option<ReadySignal>)

  datatype RegistryError = Conflict

  class StreamRegistry {
    var streams: map<string, Session>

    /** The ready senders held by registered sessions. */
    ghost function ReadyTxs(): set<ReadySignal>
      reads this
    {
      set name | name in streams && streams[name].readyTx.Some? :: streams[name].readyTx.value
    }

    /**
     * Every registered session still holds its ready sender, that sender has not fired, and no
     * two registered sessions share one.
     */
    ghost predicate Valid()
      reads this, ReadyTxs()
    {
      && (forall name :: name in streams ==> streams[name].readyTx.Some?)
      && (forall name :: name in streams ==> streams[name].readyTx.value.state == Pending)
      && (forall a, b :: a in streams && b in streams && a != b ==> streams[a].readyTx != streams[b].readyTx)
    }

    constructor ()
      ensures Valid() && streams == map[]
    {
      streams := map[];
    }

    /**
     * The upload handler's first critical section: a name already present is a conflict and
     * leaves the map as it was; otherwise exactly that name is added.
     */
    method Register(name: string, session: Session) returns (r: Result<(), RegistryError>)
      requires Valid()
      requires session.readyTx.Some? && session.readyTx.value.state == Pending
      requires session.readyTx.value !in ReadyTxs()
      modifies this
      ensures Valid()
      ensures name in old(streams) ==> r == Err(Conflict) && streams == old(streams)
      ensures name !in old(streams) ==> r == Ok(()) && streams == old(streams)[name := session]
    {
      if name in streams {
        return Err(Conflict);
      }
      streams := streams[name := session];
      r := Ok(());
    }

    /**
     * `HashMap::remove` under the write lock, as both the download handler (claiming a session)
     * and the upload handler (cleaning up after the task) use it: the entry for `name`, if any,
     * is removed and returned, and every other entry stays.
     */
    method Remove(name: string) returns (removed: Option<Session>)
      requires Valid()
      modifies this
      ensures Valid()
      ensures streams == old(streams) - {name}
      ensures name in old(streams) <==> removed.Some?
      ensures removed.Some? ==> removed.value == old(streams)[name]
    {
      if name in streams {
        removed := Some(streams[name]);
        streams := streams - {name};
      } else {
        removed := None;
      }
    }

    /** The dashboard's snapshot of the active names: every registered name, once each. */
    method ListActive() returns (names: seq<string>)
      ensures forall name :: name in names <==> name in streams
      ensures forall i, j :: 0 <= i < j < |names| ==> names[i] != names[j]
      ensures |names| == |streams|
    {
      names := [];
      var rest := streams.Keys;
      while rest != {}
        invariant rest <= streams.Keys
        invariant forall name :: name in names <==> name in streams && name !in rest
        invariant forall i, j :: 0 <= i < j < |names| ==> names[i] != names[j]
        invariant |names| + |rest| == |streams|
        decreases rest
      {
        var name :| name in rest;
        names := names + [name];
        rest := rest - {name};
      }
    }
  }
}
