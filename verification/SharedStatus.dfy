/** The shared runtime state as the receiver keeps it: maps and counters that
    each call updates in place under the status lock. Every method is tied to the
    operation of the same name on the whole state. */
module SharedStatus {
  import opened Prelude
  import opened SessionTable
  import opened SessionProof
  import opened SessionProperties
  import opened SessionMessages

  /** What the status lock protects. */
  datatype StatusState = StatusState(
    phase: Phase, lastError: Option<string>,
    sessions: map<Protocol, Session>, remotes: map<Protocol, Remote>, upstream: map<Protocol, nat>,
    volumes: map<Protocol, nat>, artwork: map<Protocol, Artwork>, receiver: Option<ReceiverControl>)

  class Shared {
    var status: StatusState
    var nextSession: nat
    var nextArtwork: nat
    var remoteRevision: nat
    var receiverRevision: nat
    var owner: Option<nat>
    ghost var minted: set<nat>
    ghost var installed: set<nat>

    ghost function View(): Status
      reads this
    {
      Status(status.phase, status.lastError, status.sessions, status.remotes, status.upstream, status.volumes,
             status.artwork, status.receiver, nextSession, nextArtwork, remoteRevision, receiverRevision, owner,
             minted, installed)
    }

    ghost predicate Valid()
      reads this
    {
      TableOk(View())
    }

    constructor ()
      ensures Valid() && View() == Initial()
    {
      status := StatusState(Starting, None, map[], map[], map[], map[], map[], None);
      nextSession, nextArtwork, remoteRevision, receiverRevision := 1, 1, 1, 1;
      owner, minted, installed := None, {}, {};
    }

    /** Drops the remote capability of p; leases of it expire. */
    method RevokeRemote(p: Protocol)
      modifies `status, `remoteRevision
      ensures status == old(status).(remotes := old(status).remotes - {p})
      ensures remoteRevision == Bumped(old(remoteRevision), p in old(status).remotes)
    {
      if p in status.remotes {
        remoteRevision := remoteRevision + 1;
      }
      status := status.(remotes := status.remotes - {p});
    }

    /** Takes the receiver channel away, unless it must be kept. */
    method RevokeReceiver(due: bool)
      modifies `status, `receiverRevision
      ensures status == old(status).(receiver := if due then None else old(status).receiver)
      ensures receiverRevision == Bumped(old(receiverRevision), due && old(status).receiver.Some?)
    {
      if due && status.receiver.Some? {
        status := status.(receiver := None);
        receiverRevision := receiverRevision + 1;
      }
    }

    /** Removes everything protocol p left behind; the receiver control goes too. */
    method DropProvisional(p: Protocol)
      modifies this
      ensures View() == DropStream(old(View()), p)
    {
      status := status.(
        sessions := status.sessions - {p}, volumes := status.volumes - {p}, artwork := status.artwork - {p});
      RevokeRemote(p);
      RevokeReceiver(true);
    }

    method ChangePhase(next: Phase, error: Option<string>)
      requires Valid()
      modifies this
      ensures Valid() && View() == SetPhase(old(View()), next, error)
    {
      hide TableOk;
      PhaseKeepsTable(View(), next, error);
      status := status.(phase := next, lastError := error);
      if next.Stopped? || next.Failed? {
        if status.remotes != map[] {
          remoteRevision := remoteRevision + 1;
        }
        status := status.(sessions := map[], remotes := map[], upstream := map[], volumes := map[], artwork := map[]);
        RevokeReceiver(true);
      }
    }

    /** Whether a stream id of another protocol is at least as new. */
    method OtherIsNewer(p: Protocol, id: nat) returns (newer: bool)
      ensures newer <==> exists q :: q in status.upstream && q != p && status.upstream[q] >= id
    {
      var q := if p == AirPlay1 then AirPlay2 else AirPlay1;
      newer := q in status.upstream && status.upstream[q] >= id;
    }

    /** Accepts or refuses the stream id; an accepted newer id replaces what was there. */
    method AdoptStream(p: Protocol, id: nat, active: Option<nat>) returns (refused: bool)
      requires active == owner
      modifies this
      ensures refused <==> Refuses(old(View()), p, id)
      ensures View() == if refused then old(View()) else Adopt(old(View()), p, id)
    {
      refused := OtherIsNewer(p, id);
      if refused {
        return;
      }
      if p in status.upstream {
        if id < status.upstream[p] {
          return true;
        }
        if id > status.upstream[p] {
          if p in status.sessions && active == Some(status.sessions[p].id) {
            return true;
          }
          DropProvisional(p);
        }
      }
      status := status.(upstream := status.upstream[p := id]);
    }

    /** Enters or refreshes the session of p. */
    method EnterSession(p: Protocol, stream: Stream, active: Option<nat>) returns (session: Session)
      requires active == owner
      modifies this
      ensures View() == PutSession(old(View()), p, stream)
      ensures p in status.sessions && session == status.sessions[p]
    {
      hide Refreshed, NewSession;
      if p in status.sessions {
        session := Refreshed(status.sessions[p], stream, active);
      } else {
        session := Refreshed(NewSession(nextSession, stream), stream, active);
        nextSession := nextSession + 1;
      }
      status := status.(sessions := status.sessions[p := session]);
    }

    method UpdateRemote(p: Protocol, session: Session, update: RemoteUpdate)
      requires p in status.sessions && status.sessions[p] == session
      modifies this
      ensures View() == PutRemote(old(View()), p, update)
    {
      match update
      case Keep =>
      case Clear =>
        if p in status.remotes {
          remoteRevision := remoteRevision + 1;
        }
        status := status.(remotes := status.remotes - {p});
      case Replace(remote) =>
        var bound := remote.(sessionId := session.id);
        if p !in status.remotes || status.remotes[p] != bound {
          remoteRevision := remoteRevision + 1;
          status := status.(remotes := status.remotes[p := bound]);
        }
        assert status.remotes == old(status).remotes[p := bound];
    }

    /** A session milestone from the watch channel. */
    method EnsureSession(p: Protocol, stream: Stream, update: RemoteUpdate) returns (session: Option<Session>)
      requires Valid()
      modifies this
      ensures Valid() && (View(), session) == Ensure(old(View()), p, stream, update)
    {
      hide TableOk;
      EnsureKeepsTable(View(), p, stream, update);
      var active := owner;
      if stream.upstream.Some? {
        var refused := AdoptStream(p, stream.upstream.value, active);
        if refused {
          return None;
        }
      }
      var entered := EnterSession(p, stream, active);
      UpdateRemote(p, entered, update);
      session := Some(entered);
    }

    method MintId() returns (id: nat)
      requires Valid()
      modifies this
      ensures Valid() && View() == Mint(old(View())) && id == old(nextSession) && id in minted
    {
      hide TableOk;
      MintKeepsTable(View());
      id := nextSession;
      nextSession := nextSession + 1;
      minted := minted + {id};
    }

    method RebindStream(p: Protocol, id: Option<nat>)
      modifies this
      ensures View() == Rebind(old(View()), p, id)
    {
      if id.Some? && !(p in status.upstream && status.upstream[p] == id.value) {
        DropProvisional(p);
        status := status.(upstream := status.upstream[p := id.value]);
      }
    }

    method MoveCapabilities(p: Protocol, id: nat)
      modifies `status, `remoteRevision, `receiverRevision
      ensures
        var was := old(status);
        status == was.(
          remotes := if p in was.remotes then was.remotes[p := was.remotes[p].(sessionId := id)] else was.remotes,
          receiver := if was.receiver.Some? then Some(was.receiver.value.(sessionId := id)) else None)
      ensures remoteRevision == Bumped(old(remoteRevision), p in old(status).remotes)
      ensures receiverRevision == Bumped(old(receiverRevision), old(status).receiver.Some?)
    {
      if p in status.remotes {
        status := status.(remotes := status.remotes[p := status.remotes[p].(sessionId := id)]);
        remoteRevision := remoteRevision + 1;
      }
      if status.receiver.Some? {
        status := status.(receiver := Some(status.receiver.value.(sessionId := id)));
        receiverRevision := receiverRevision + 1;
      }
    }

    /** Seats the new session and moves every capability over to it. */
    method SeatSession(p: Protocol, id: nat, stream: Stream)
      modifies this
      ensures View() == Seat(old(View()), p, id, stream)
    {
      var previous := if p in status.sessions then Some(status.sessions[p]) else None;
      status := status.(sessions := status.sessions[p := Inherited(id, stream, previous)]);
      if p in status.artwork {
        status := status.(artwork := status.artwork[p := status.artwork[p].(sessionId := id)]);
      }
      MoveCapabilities(p, id);
      status := status.(sessions := SelectOnly(status.sessions, id));
      minted, installed := minted - {id}, installed + {id};
    }

    method InstallSink(p: Protocol, id: nat, stream: Stream)
      requires Valid() && id in minted
      modifies this
      ensures Valid() && View() == Install(old(View()), p, id, stream)
    {
      hide TableOk;
      InstallKeepsTable(View(), p, id, stream);
      RebindStream(p, stream.upstream);
      SeatSession(p, id, stream);
    }

    method ActivateBus(id: nat)
      requires Valid() && id in installed
      modifies this
      ensures Valid() && View() == TakeBus(old(View()), id)
    {
      hide TableOk;
      BusKeepsTable(View(), id);
      owner := Some(id);
      installed := installed - {id};
    }

    /** Binds a concrete sink: mint an id, install it, take the bus. */
    method ActivateSink(p: Protocol, stream: Stream) returns (id: nat)
      requires Valid()
      modifies this
      ensures Valid() && View() == Run(old(View()), Activation(old(View()), p, stream))
      ensures id == old(nextSession) && owner == Some(id) && p in status.sessions && status.sessions[p].id == id
    {
      hide TableOk;
      ghost var before := View();
      ActivationRevokesExactly(before, p, stream);
      id := MintId();
      InstallSink(p, id, stream);
      ActivateBus(id);
      ActivationIsThreeSteps(before, p, stream);
    }

    method AcceptVolume(p: Protocol, bound: Option<nat>, revision: Option<nat>, db: Decibels) returns (id: Option<nat>)
      requires Valid()
      modifies this
      ensures Valid() && (View(), id) == UpdateVolume(old(View()), p, bound, revision, db)
    {
      hide TableOk;
      VolumeKeepsTable(View(), p, bound, revision, db);
      if db.NotFinite? || (bound.Some? && !(p in status.upstream && status.upstream[p] == bound.value)) {
        return None;
      }
      if p !in status.sessions || owner != Some(status.sessions[p].id) {
        return None;
      }
      var previous := if p in status.volumes then status.volumes[p] else 0;
      var next := if previous == U64_MAX then U64_MAX else previous + 1;
      if revision.Some? {
        if revision.value == 0 || revision.value <= previous {
          return None;
        }
        next := revision.value;
      }
      id := Some(status.sessions[p].id);
      status := status.(sessions := status.sessions[p := status.sessions[p].(volume := Some(db.value))]);
      status := status.(volumes := status.volumes[p := next]);
    }

    method AcceptEdit(p: Protocol, bound: Option<nat>, edit: Edit) returns (id: Option<nat>)
      requires Valid()
      modifies this
      ensures Valid() && (View(), id) == UpdateSession(old(View()), p, bound, edit)
    {
      hide TableOk;
      EditKeepsTable(View(), p, bound, edit);
      if (bound.Some? && !(p in status.upstream && status.upstream[p] == bound.value)) || p !in status.sessions {
        return None;
      }
      var session := status.sessions[p];
      match edit {
        case EditMetadata(title, artist, album) =>
          session := session.(title := title, artist := artist, album := album);
        case EditProgress(elapsed, duration) =>
          session := session.(elapsed := elapsed, duration := duration);
        case EditPaused(paused) =>
          session := session.(paused := paused);
      }
      status := status.(sessions := status.sessions[p := session]);
      id := Some(session.id);
    }

    method AcceptArtwork(p: Protocol, bound: Option<nat>, contentType: string, data: seq<bv8>)
      returns (stored: Option<(nat, nat)>)
      requires Valid()
      modifies this
      ensures Valid() && (View(), stored) == UpdateArtwork(old(View()), p, bound, contentType, data)
    {
      hide TableOk;
      ArtworkKeepsTable(View(), p, bound, contentType, data);
      if (bound.Some? && !(p in status.upstream && status.upstream[p] == bound.value)) || p !in status.sessions {
        return None;
      }
      var id, revision, kept := status.sessions[p].id, nextArtwork, ImageType(contentType, data);
      nextArtwork := nextArtwork + 1;
      var session := status.sessions[p].(artworkRevision := Some(revision), artworkType := kept);
      status := status.(sessions := status.sessions[p := session]);
      if kept.Some? {
        status := status.(artwork := status.artwork[p := Artwork(id, revision, kept.value, data)]);
      } else {
        status := status.(artwork := status.artwork - {p});
      }
      stored := Some((id, revision));
    }

    /** The locked part of ending a sink. */
    method RemoveSink(p: Protocol, id: nat) returns (removed: bool)
      requires Valid()
      modifies this
      ensures Valid() && (View(), removed) == EndSink(old(View()), p, id)
    {
      hide TableOk;
      EndSinkKeepsTable(View(), p, id);
      if p !in status.sessions || status.sessions[p].id != id {
        return false;
      }
      status := status.(
        sessions := status.sessions - {p}, volumes := status.volumes - {p}, artwork := status.artwork - {p});
      RevokeRemote(p);
      RevokeReceiver(status.receiver.Some? && status.receiver.value.sessionId == id);
      status := status.(upstream := status.upstream - {p});
      removed := true;
    }

    method EndBus(id: nat)
      requires Valid()
      modifies this
      ensures Valid() && View() == ReleaseBus(old(View()), id)
    {
      hide TableOk;
      BusKeepsTable(View(), id);
      if owner == Some(id) {
        owner := None;
      }
    }

    /** Ends a sink that has finished activating: credentials first, then the bus. */
    method FinishSink(p: Protocol, id: nat) returns (removed: bool)
      requires Valid()
      modifies this
      ensures Valid() && removed == EndSink(old(View()), p, id).1
      ensures View() == ReleaseBus(EndSink(old(View()), p, id).0, id)
      ensures removed && id !in old(installed) ==> Gone(View(), id)
    {
      hide TableOk;
      ghost var before := View();
      removed := RemoveSink(p, id);
      EndBus(id);
      if removed && id !in before.installed {
        EndSinkRetires(before, p, id);
        ReleaseFinishes(EndSink(before, p, id).0, id);
      }
    }

    method FinishUpstream(p: Protocol, ended: nat)
      requires Valid()
      modifies this
      ensures Valid() && View() == EndUpstream(old(View()), p, ended)
    {
      hide TableOk;
      EndUpstreamKeepsTable(View(), p, ended);
      if !(p in status.upstream && status.upstream[p] == ended) {
        return;
      }
      status := status.(
        upstream := status.upstream - {p}, volumes := status.volumes - {p}, artwork := status.artwork - {p});
      RevokeRemote(p);
      var ending := if p in status.sessions then Some(status.sessions[p].id) else None;
      RevokeReceiver(status.receiver.Some? && Some(status.receiver.value.sessionId) == ending);
    }

    method OfferReceiver(p: Protocol, bound: nat, channel: Option<nat>)
      requires Valid()
      modifies this
      ensures Valid() && View() == SetReceiver(old(View()), p, bound, channel)
    {
      hide TableOk;
      ReceiverKeepsTable(View(), p, bound, channel);
      if !(p in status.upstream && status.upstream[p] == bound) || p !in status.sessions {
        return;
      }
      if owner != Some(status.sessions[p].id) {
        return;
      }
      var replacement := if channel.Some? then Some(ReceiverControl(status.sessions[p].id, channel.value)) else None;
      if status.receiver != replacement {
        status := status.(receiver := replacement);
        receiverRevision := receiverRevision + 1;
      }
    }

    /** A DACP lease for whoever had the bus when `active` was read. */
    method RemoteLease(active: Option<nat>) returns (lease: Option<Lease>)
      requires Valid()
      ensures lease == TakeLease(View(), active)
      ensures lease.Some? ==> IsCurrent(View(), lease.value) && active == Some(lease.value.info.sessionId)
      ensures lease.None? && active.Some? ==>
        forall p :: p in status.remotes ==> status.remotes[p].sessionId != active.value
    {
      if active.None? {
        return None;
      }
      var found := RemoteOfTable(active.value);
      lease := if found.Some? then Some(Lease(found.value, Word(remoteRevision))) else None;
      RemoteOfFinds(View(), active.value);
    }

    method RemoteOfTable(id: nat) returns (found: Option<Remote>)
      ensures found == RemoteOf(View(), id)
    {
      if AirPlay1 in status.remotes && status.remotes[AirPlay1].sessionId == id {
        return Some(status.remotes[AirPlay1]);
      }
      if AirPlay2 in status.remotes && status.remotes[AirPlay2].sessionId == id {
        return Some(status.remotes[AirPlay2]);
      }
      found := None;
    }

    /** A receiver-volume lease for whoever had the bus when `active` was read. */
    method ReceiverVolumeLease(active: Option<nat>, live: bool) returns (lease: Option<ReceiverLease>)
      requires Valid()
      ensures lease == TakeReceiverLease(View(), active, live)
      ensures lease.Some? ==> live && active.Some? && Names(View(), active.value)
      ensures lease.None? && live && active.Some? ==>
        status.receiver.None? || status.receiver.value.sessionId != active.value
    {
      if active.None? || status.receiver.None? || status.receiver.value.sessionId != active.value || !live {
        return None;
      }
      lease := Some(ReceiverLease(status.receiver.value, Word(receiverRevision)));
    }

    method StatusSnapshot(active: Option<nat>) returns (shown: map<Protocol, Session>)
      requires Valid()
      ensures shown == Snapshot(View(), active)
      ensures forall p, q :: p in shown && q in shown && shown[p].selected && shown[q].selected ==> p == q
    {
      shown := map p | p in status.sessions :: status.sessions[p].(selected := active == Some(status.sessions[p].id));
      SnapshotSelectsAtMostOne(View(), [], active);
    }
  }
}
