/** What every run of the session state keeps: table consistency, leases, ids
    that never return, stale messages that change nothing. */
module SessionProof {
  import opened Prelude
  import opened SessionTable

  // ----- the table invariant -----

  predicate Names(s: Status, id: nat)
  {
    exists p :: p in s.sessions && s.sessions[p].id == id
  }

  /** Stored artwork is the session's latest, and a non-empty JPEG or PNG. */
  predicate ArtworkOk(session: Session, artwork: Artwork)
  {
    && artwork.sessionId == session.id
    && session.artworkRevision == Some(artwork.revision) && session.artworkType == Some(artwork.contentType)
    && artwork.contentType in {"image/jpeg", "image/png"} && artwork.data != []
  }

  /** Everything kept for protocol p belongs to the session it has in the table,
      whose id is not that of a sink still to be installed. */
  ghost predicate EntryOk(s: Status, p: Protocol)
  {
    && (p in s.sessions ==>
          && s.sessions[p].id < s.nextSession && s.sessions[p].id !in s.minted
          && (s.sessions[p].artworkRevision.Some? ==> s.sessions[p].artworkRevision.value < s.nextArtwork))
    && (p in s.volumes || p in s.upstream ==> p in s.sessions)
    && (p in s.remotes ==> p in s.sessions && s.remotes[p].sessionId == s.sessions[p].id)
    && (p in s.artwork ==> p in s.sessions && ArtworkOk(s.sessions[p], s.artwork[p]))
  }

  /** Ids in flight and on the bus were all handed out, each to one purpose. */
  ghost predicate FlightOk(s: Status)
  {
    && s.nextSession > 0 && s.nextArtwork > 0
    && (forall id :: id in s.minted ==> id < s.nextSession && id !in s.installed)
    && (forall id :: id in s.installed ==> id < s.nextSession)
    && (s.owner.Some? ==> s.owner.value < s.nextSession && s.owner.value !in s.minted)
  }

  ghost predicate DistinctIds(s: Status)
  {
    forall p, q :: p in s.sessions && q in s.sessions && s.sessions[p].id == s.sessions[q].id ==> p == q
  }

  ghost predicate ReceiverOk(s: Status) { s.receiver.Some? ==> Names(s, s.receiver.value.sessionId) }

  ghost predicate TableOk(s: Status)
  {
    FlightOk(s) && DistinctIds(s) && ReceiverOk(s) && forall p :: EntryOk(s, p)
  }

  lemma EnsureKeepsTable(s: Status, p: Protocol, stream: Stream, update: RemoteUpdate)
    requires TableOk(s)
    ensures TableOk(Ensure(s, p, stream, update).0)
  {
    if stream.upstream.Some? && Refuses(s, p, stream.upstream.value) {
    } else {
      var t := if stream.upstream.Some? then Adopt(s, p, stream.upstream.value) else s;
      AdoptKeepsTable(s, p, stream.upstream);
      PutKeepsTable(t, p, stream);
      PutRemoteKeepsTable(PutSession(t, p, stream), p, update);
    }
  }

  /** Like TableOk, but p may have an adopted stream id and no session yet. */
  ghost predicate TableOkBut(s: Status, p: Protocol) { TableOk(s.(upstream := s.upstream - {p})) }

  lemma DropKeepsTable(s: Status, p: Protocol)
    requires TableOk(s)
    ensures TableOk(DropStream(s, p).(upstream := s.upstream - {p}))
  {
    var r := DropStream(s, p).(upstream := s.upstream - {p});
    forall q ensures EntryOk(r, q) { assert EntryOk(s, q); }
  }

  lemma SameKeepsTable(s: Status, p: Protocol)
    requires TableOk(s)
    ensures TableOkBut(s, p)
  {
    var r := s.(upstream := s.upstream - {p});
    forall q ensures EntryOk(r, q) { assert EntryOk(s, q); }
    SameSessionsSameNames(s, r);
  }

  lemma AdoptKeepsTable(s: Status, p: Protocol, upstream: Option<nat>)
    requires TableOk(s)
    ensures TableOkBut(if upstream.Some? then Adopt(s, p, upstream.value) else s, p)
    ensures TableOkBut(Rebind(s, p, upstream), p)
  {
    hide TableOk;
    DropKeepsTable(s, p);
    SameKeepsTable(s, p);
    if upstream.Some? {
      assert s.upstream[p := upstream.value] - {p} == s.upstream - {p};
    }
  }

  lemma PutKeepsTable(s: Status, p: Protocol, stream: Stream)
    requires TableOkBut(s, p)
    ensures TableOk(PutSession(s, p, stream))
  {
    var r, o := PutSession(s, p, stream), s.(upstream := s.upstream - {p});
    forall q ensures EntryOk(r, q) { assert EntryOk(o, q); }
    assert EntryOk(o, AirPlay1) && EntryOk(o, AirPlay2);
    if p in s.sessions {
      SameSessionsSameNames(o, r);
    } else {
      forall id | Names(o, id) ensures Names(r, id) {
        var q :| q in o.sessions && o.sessions[q].id == id;
        assert q in r.sessions && r.sessions[q].id == id;
      }
    }
  }

  lemma PutRemoteKeepsTable(s: Status, p: Protocol, update: RemoteUpdate)
    requires TableOk(s) && p in s.sessions
    ensures TableOk(PutRemote(s, p, update))
  {
    var r := PutRemote(s, p, update);
    forall q ensures EntryOk(r, q) { assert EntryOk(s, q); }
    assert r.sessions == s.sessions && r.receiver == s.receiver;
    SameSessionsSameNames(s, r);
  }

  lemma SameSessionsSameNames(s: Status, r: Status)
    requires s.sessions.Keys == r.sessions.Keys && forall p :: p in s.sessions ==> s.sessions[p].id == r.sessions[p].id
    ensures forall id :: Names(s, id) <==> Names(r, id)
    ensures DistinctIds(s) <==> DistinctIds(r)
  {
  }

  lemma SeatKeepsEntry(s: Status, p: Protocol, id: nat, stream: Stream, q: Protocol)
    requires TableOkBut(s, p) && id in s.minted
    ensures EntryOk(Seat(s, p, id, stream), q)
  {
    assert EntryOk(s.(upstream := s.upstream - {p}), q);
  }

  lemma SeatKeepsTable(s: Status, p: Protocol, id: nat, stream: Stream)
    requires TableOkBut(s, p) && id in s.minted
    ensures TableOk(Seat(s, p, id, stream))
  {
    var r := Seat(s, p, id, stream);
    assert p in r.sessions && r.sessions[p].id == id;
    assert Names(r, id);
    forall q ensures EntryOk(r, q) { SeatKeepsEntry(s, p, id, stream, q); }
    forall q | q in r.sessions && q != p ensures r.sessions[q].id != id {
      assert EntryOk(s.(upstream := s.upstream - {p}), q);
    }
  }

  lemma InstallKeepsTable(s: Status, p: Protocol, id: nat, stream: Stream)
    requires TableOk(s) && id in s.minted
    ensures TableOk(Install(s, p, id, stream))
  {
    hide TableOkBut, TableOk;
    AdoptKeepsTable(s, p, stream.upstream);
    SeatKeepsTable(Rebind(s, p, stream.upstream), p, id, stream);
  }

  lemma VolumeKeepsTable(s: Status, p: Protocol, upstream: Option<nat>, revision: Option<nat>, db: Decibels)
    requires TableOk(s)
    ensures TableOk(UpdateVolume(s, p, upstream, revision, db).0)
  {
    var r := UpdateVolume(s, p, upstream, revision, db).0;
    hide NextVolumeRevision;
    forall q ensures EntryOk(r, q) { assert EntryOk(s, q); }
    SameSessionsSameNames(s, r);
  }

  lemma EditKeepsTable(s: Status, p: Protocol, upstream: Option<nat>, edit: Edit)
    requires TableOk(s)
    ensures TableOk(UpdateSession(s, p, upstream, edit).0)
  {
    var r := UpdateSession(s, p, upstream, edit).0;
    forall q ensures EntryOk(r, q) { assert EntryOk(s, q); }
    SameSessionsSameNames(s, r);
  }

  lemma ImageTypeIsImage(contentType: string, data: seq<bv8>)
    ensures ImageType(contentType, data).Some? ==>
      data != [] && ImageType(contentType, data).value in {"image/jpeg", "image/png"}
  {
  }

  lemma ArtworkKeepsTable(s: Status, p: Protocol, upstream: Option<nat>, contentType: string, data: seq<bv8>)
    requires TableOk(s)
    ensures TableOk(UpdateArtwork(s, p, upstream, contentType, data).0)
  {
    hide ImageType, FlightOk, DistinctIds, ReceiverOk, Names;
    var r := UpdateArtwork(s, p, upstream, contentType, data).0;
    ImageTypeIsImage(contentType, data);
    forall q ensures EntryOk(r, q) { assert EntryOk(s, q); }
    SameSessionsSameNames(s, r);
    ArtworkKeepsFlight(s, p, upstream, contentType, data);
  }

  lemma ArtworkKeepsFlight(s: Status, p: Protocol, upstream: Option<nat>, contentType: string, data: seq<bv8>)
    requires FlightOk(s) && ReceiverOk(s)
    ensures FlightOk(UpdateArtwork(s, p, upstream, contentType, data).0)
    ensures ReceiverOk(UpdateArtwork(s, p, upstream, contentType, data).0)
  {
    hide ImageType, Names;
    SameSessionsSameNames(s, UpdateArtwork(s, p, upstream, contentType, data).0);
  }

  lemma EndSinkKeepsTable(s: Status, p: Protocol, id: nat)
    requires TableOk(s)
    ensures TableOk(EndSink(s, p, id).0)
  {
    var r := EndSink(s, p, id).0;
    forall q ensures EntryOk(r, q) { assert EntryOk(s, q); }
    if r.receiver.Some? {
      var q :| q in s.sessions && s.sessions[q].id == s.receiver.value.sessionId;
      assert q in r.sessions;
    }
  }

  lemma EndUpstreamKeepsTable(s: Status, p: Protocol, upstream: nat)
    requires TableOk(s)
    ensures TableOk(EndUpstream(s, p, upstream))
  {
    var r := EndUpstream(s, p, upstream);
    forall q ensures EntryOk(r, q) { assert EntryOk(s, q); }
    SameSessionsSameNames(s, r);
  }

  lemma PhaseKeepsTable(s: Status, phase: Phase, error: Option<string>)
    requires TableOk(s)
    ensures TableOk(SetPhase(s, phase, error))
  {
    var r := SetPhase(s, phase, error);
    if phase.Stopped? || phase.Failed? {
      assert r.sessions == map[] && r.receiver.None?;
    } else {
      forall q ensures EntryOk(r, q) { assert EntryOk(s, q); }
      SameSessionsSameNames(s, r);
    }
  }

  lemma ReceiverKeepsTable(s: Status, p: Protocol, bound: nat, channel: Option<nat>)
    requires TableOk(s)
    ensures TableOk(SetReceiver(s, p, bound, channel))
  {
    var r := SetReceiver(s, p, bound, channel);
    forall q ensures EntryOk(r, q) { assert EntryOk(s, q); }
    SameSessionsSameNames(s, r);
    if p in s.sessions { assert Names(s, s.sessions[p].id); }
  }

  lemma MintKeepsTable(s: Status)
    requires TableOk(s)
    ensures TableOk(Mint(s))
  {
    forall q ensures EntryOk(Mint(s), q) { assert EntryOk(s, q); }
    SameSessionsSameNames(s, Mint(s));
  }

  lemma BusKeepsTable(s: Status, id: nat)
    requires TableOk(s)
    ensures id in s.installed ==> TableOk(TakeBus(s, id))
    ensures TableOk(ReleaseBus(s, id))
  {
    forall q ensures EntryOk(TakeBus(s, id), q) && EntryOk(ReleaseBus(s, id), q) { assert EntryOk(s, q); }
    SameSessionsSameNames(s, TakeBus(s, id));
    SameSessionsSameNames(s, ReleaseBus(s, id));
  }

  lemma StepKeepsTable(s: Status, a: Action)
    requires TableOk(s)
    ensures TableOk(Step(s, a))
  {
    hide TableOk, Ensure, Install, UpdateVolume, UpdateSession, UpdateArtwork, EndSink, EndUpstream;
    match a
    case DoEnsure(p, stream, update) => EnsureKeepsTable(s, p, stream, update);
    case DoInstall(p, id, stream) => if id in s.minted { InstallKeepsTable(s, p, id, stream); }
    case DoVolume(p, upstream, revision, db) => VolumeKeepsTable(s, p, upstream, revision, db);
    case DoEdit(p, upstream, edit) => EditKeepsTable(s, p, upstream, edit);
    case DoArtwork(p, upstream, contentType, data) => ArtworkKeepsTable(s, p, upstream, contentType, data);
    case DoEndSink(p, id) => EndSinkKeepsTable(s, p, id);
    case DoEndUpstream(p, ended) => EndUpstreamKeepsTable(s, p, ended);
    case DoReceiver(p, bound, channel) => ReceiverKeepsTable(s, p, bound, channel);
    case DoSetPhase(phase, error) => PhaseKeepsTable(s, phase, error);
    case DoMint => MintKeepsTable(s);
    case DoTakeBus(id) => BusKeepsTable(s, id);
    case DoReleaseBus(id) => BusKeepsTable(s, id);
  }

  /** Table consistency holds after every sequence of calls. */
  lemma {:induction false} RunKeepsTable(s: Status, actions: seq<Action>)
    requires TableOk(s)
    ensures TableOk(Run(s, actions))
    decreases |actions|
  {
    hide TableOk, Step;
    if actions != [] {
      StepKeepsTable(s, actions[0]);
      RunKeepsTable(Step(s, actions[0]), actions[1..]);
    }
  }
}
