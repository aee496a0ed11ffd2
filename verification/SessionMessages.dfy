/** Delayed and stale messages, stream ids and the status snapshot. */
module SessionMessages {
  import opened Prelude
  import opened SessionTable
  import opened SessionProof

  // ----- stale messages -----

  /** A message about a stream, sink or bus owner that has been replaced. */
  predicate Stale(s: Status, a: Action)
  {
    match a
    case DoEnsure(p, stream, _) => stream.upstream.Some? && Refuses(s, p, stream.upstream.value)
    case DoVolume(p, upstream, _, _) => !Binds(s, p, upstream)
    case DoEdit(p, upstream, _) => !Binds(s, p, upstream)
    case DoArtwork(p, upstream, _, _) => !Binds(s, p, upstream)
    case DoEndSink(p, id) => p !in s.sessions || s.sessions[p].id != id
    case DoReleaseBus(id) => s.owner != Some(id)
    case DoEndUpstream(p, ended) => !Binds(s, p, Some(ended))
    case DoReceiver(p, bound, _) => !Binds(s, p, Some(bound))
    case _ => false
  }

  lemma StaleStepChangesNothing(s: Status, a: Action)
    requires Stale(s, a)
    ensures Step(s, a) == s
  {
  }

  /** However many stale messages arrive, in any order, status and bus owner stay. */
  lemma {:induction false} StaleMessagesAreInert(s: Status, actions: seq<Action>)
    requires forall i :: 0 <= i < |actions| ==> Stale(s, actions[i])
    ensures Run(s, actions) == s
    decreases |actions|
  {
    if actions != [] {
      StaleStepChangesNothing(s, actions[0]);
      StaleMessagesAreInert(s, actions[1..]);
    }
  }

  // ----- stream ids -----

  function Other(p: Protocol): Protocol { if p == AirPlay1 then AirPlay2 else AirPlay1 }

  predicate Welcome(s: Status, p: Protocol, upstream: nat)
  {
    && (Other(p) in s.upstream ==> s.upstream[Other(p)] < upstream)
    && (p in s.upstream ==>
          || upstream == s.upstream[p]
          || (upstream > s.upstream[p] && !(p in s.sessions && s.owner == Some(s.sessions[p].id))))
  }

  lemma WelcomeIsNotRefused(s: Status, p: Protocol, upstream: nat)
    ensures Welcome(s, p, upstream) <==> !Refuses(s, p, upstream)
  {
    forall q | q in s.upstream && q != p ensures q == Other(p) {}
  }

  ghost predicate AdoptedOver(s: Status, t: Status, p: Protocol, upstream: Option<nat>)
  {
    && Binds(t, p, upstream) && t.owner == s.owner && t.remotes.Keys <= s.remotes.Keys
    && (upstream.Some? ==> forall q :: q in t.upstream && q != p ==> t.upstream[q] < upstream.value)
    && (p in s.sessions && (upstream.None? || Binds(s, p, upstream) || s.owner == Some(s.sessions[p].id)) ==>
          p in t.sessions && t.sessions[p] == s.sessions[p])
  }

  lemma AdoptInstalls(s: Status, p: Protocol, upstream: Option<nat>)
    requires upstream.Some? ==> !Refuses(s, p, upstream.value)
    ensures AdoptedOver(s, if upstream.Some? then Adopt(s, p, upstream.value) else s, p, upstream)
  {
  }

  lemma PutInstalls(s: Status, p: Protocol, stream: Stream)
    ensures
      var r := PutSession(s, p, stream);
      && p in r.sessions && r.upstream == s.upstream && r.owner == s.owner && r.remotes == s.remotes
      && r.sessions[p].rate == stream.rate && r.sessions[p].channels == stream.channels
      && (stream.peer.Some? ==> r.sessions[p].peer == stream.peer)
      && (p in s.sessions ==> r.sessions[p].id == s.sessions[p].id)
  {
  }

  lemma PutRemoteInstalls(s: Status, p: Protocol, update: RemoteUpdate)
    requires p in s.sessions
    ensures
      var r := PutRemote(s, p, update);
      && r.sessions == s.sessions && r.upstream == s.upstream && r.owner == s.owner
      && (update.Clear? ==> p !in r.remotes)
      && (update.Replace? ==> p in r.remotes && r.remotes[p] == update.remote.(sessionId := s.sessions[p].id))
  {
  }

  /** A milestone is accepted exactly when it names no stream id, or an id newer than
      the other protocol's that is its own protocol's, or that is newer than its own
      protocol's while that one's session does not have the bus. Then that id is the
      newest one installed and has a session with the reported format, the reported
      peer if there is one, and the remote asked for. The session on the bus is never
      replaced. */
  lemma AcceptedEnsureInstalls(s: Status, p: Protocol, stream: Stream, update: RemoteUpdate)
    ensures
      var (r, session) := Ensure(s, p, stream, update);
      && (session.Some? <==> stream.upstream.None? || Welcome(s, p, stream.upstream.value))
      && (session.Some? ==>
            && p in r.sessions && r.sessions[p] == session.value
            && session.value.rate == stream.rate && session.value.channels == stream.channels
            && (stream.peer.Some? ==> session.value.peer == stream.peer)
            && Binds(r, p, stream.upstream)
            && (stream.upstream.Some? ==>
                  forall q :: q in r.upstream && q != p ==> r.upstream[q] < stream.upstream.value)
            && (update.Clear? ==> p !in r.remotes)
            && (update.Replace? ==> p in r.remotes && r.remotes[p] == update.remote.(sessionId := session.value.id))
            && r.owner == s.owner
            && (p in s.sessions && (Binds(s, p, stream.upstream) || s.owner == Some(s.sessions[p].id)) ==>
                  session.value.id == s.sessions[p].id))
  {
    hide Adopt, PutSession, PutRemote, Refuses, Welcome;
    if stream.upstream.Some? { WelcomeIsNotRefused(s, p, stream.upstream.value); }
    if !(stream.upstream.Some? && Refuses(s, p, stream.upstream.value)) {
      AdoptInstalls(s, p, stream.upstream);
      var t := if stream.upstream.Some? then Adopt(s, p, stream.upstream.value) else s;
      PutInstalls(t, p, stream);
      PutRemoteInstalls(PutSession(t, p, stream), p, update);
    }
  }

  /** A milestone of a stream that is not replaced touches its session, its id and its
      capability alone, and the capability only if asked to. */
  lemma MilestoneKeepsTheRest(s: Status, p: Protocol, stream: Stream, update: RemoteUpdate)
    requires !(stream.upstream.Some? && p in s.upstream && s.upstream[p] < stream.upstream.value)
    ensures
      var r := Ensure(s, p, stream, update).0;
      && r == s.(sessions := r.sessions, upstream := r.upstream, remotes := r.remotes,
                 remoteRevision := r.remoteRevision, nextSession := r.nextSession)
      && (update.Keep? ==> r.remotes == s.remotes && r.remoteRevision == s.remoteRevision)
  {
    hide Refreshed, NewSession, Refuses;
  }

  /** What a session shows beyond its id, format, peer, selection and pause. */
  predicate SameContent(a: Session, b: Session)
  {
    && a.volume == b.volume && a.title == b.title && a.artist == b.artist && a.album == b.album
    && a.artworkRevision == b.artworkRevision && a.artworkType == b.artworkType
    && a.elapsed == b.elapsed && a.duration == b.duration
  }

  predicate NoContent(a: Session)
  {
    && a.volume.None? && a.title.None? && a.artist.None? && a.album.None?
    && a.artworkRevision.None? && a.artworkType.None? && a.elapsed.None? && a.duration.None?
  }

  lemma PutKeepsOrStarts(s: Status, p: Protocol, stream: Stream)
    ensures
      var session := PutSession(s, p, stream).sessions[p];
      if p in s.sessions
      then
        && SameContent(session, s.sessions[p])
        && session.paused == s.sessions[p].paused && session.started == s.sessions[p].started
        && (stream.peer.None? ==> session.peer == s.sessions[p].peer)
      else NoContent(session) && !session.paused && session.started == stream.now && session.id == s.nextSession
  {
  }

  /** An accepted milestone leaves the running session's content alone; when it
      replaces the stream, or there was none, the session starts empty under a
      new id. */
  lemma MilestoneKeepsOrStarts(s: Status, p: Protocol, stream: Stream, update: RemoteUpdate)
    requires Ensure(s, p, stream, update).1.Some?
    ensures
      var session := Ensure(s, p, stream, update).1.value;
      if p in s.sessions && (p !in s.upstream || Binds(s, p, stream.upstream))
      then
        && SameContent(session, s.sessions[p])
        && session.paused == s.sessions[p].paused && session.started == s.sessions[p].started
        && (stream.peer.None? ==> session.peer == s.sessions[p].peer)
      else NoContent(session) && !session.paused && session.started == stream.now && session.id == s.nextSession
  {
    hide PutSession, SameContent, NoContent, PutRemote;
    var t := if stream.upstream.Some? then Adopt(s, p, stream.upstream.value) else s;
    PutInstalls(t, p, stream);
    PutRemoteInstalls(PutSession(t, p, stream), p, update);
    PutKeepsOrStarts(t, p, stream);
  }

  /** Binding a sink to the stream it already has carries content, artwork, volume
      numbering and capabilities over to the new id; binding it to another stream
      keeps none of them. Format, start and selection are always the new sink's. */
  lemma SinkInheritsItsStream(s: Status, p: Protocol, id: nat, stream: Stream)
    requires p in s.sessions
    ensures
      var r := Install(s, p, id, stream);
      && p in r.sessions && r.sessions[p].id == id && !r.sessions[p].paused && r.sessions[p].started == stream.now
      && r.sessions[p].rate == stream.rate && r.sessions[p].channels == stream.channels
      && (stream.peer.Some? ==> r.sessions[p].peer == stream.peer)
      && Binds(r, p, stream.upstream)
      && if Binds(s, p, stream.upstream)
         then
           && SameContent(r.sessions[p], s.sessions[p])
           && (stream.peer.None? ==> r.sessions[p].peer == s.sessions[p].peer)
           && r.volumes == s.volumes && r.artwork.Keys == s.artwork.Keys && r.remotes.Keys == s.remotes.Keys
           && (p in s.artwork ==> r.artwork[p] == s.artwork[p].(sessionId := id))
           && (p in s.remotes ==> r.remotes[p] == s.remotes[p].(sessionId := id))
           && r.receiver == (if s.receiver.None? then None else Some(s.receiver.value.(sessionId := id)))
         else NoContent(r.sessions[p]) && p !in r.volumes && p !in r.artwork && p !in r.remotes && r.receiver.None?
  {
    hide SelectOnly;
    SelectOnlySelects(Rebind(s, p, stream.upstream).sessions, p, id, stream);
  }

  lemma SelectOnlySelects(sessions: map<Protocol, Session>, p: Protocol, id: nat, stream: Stream)
    ensures
      var session := Inherited(id, stream, if p in sessions then Some(sessions[p]) else None);
      p in SelectOnly(sessions[p := session], id) && SelectOnly(sessions[p := session], id)[p] == session
  {
  }

  predicate SameIgnoringCase(a: string, b: string)
  {
    |a| == |b| && forall i :: 0 <= i < |a| ==> a[i] == b[i] || ('A' <= a[i] <= 'Z' && a[i] as int + 32 == b[i] as int)
  }

  lemma LowerIgnoresCase(text: string, lower: string)
    requires forall i :: 0 <= i < |lower| ==> !('A' <= lower[i] <= 'Z')
    ensures Lower(text) == lower <==> SameIgnoringCase(text, lower)
  {
    if Lower(text) == lower {
      forall i | 0 <= i < |text|
        ensures text[i] == lower[i] || ('A' <= text[i] <= 'Z' && text[i] as int + 32 == lower[i] as int) {
        assert lower[i] == Lower(text)[i];
      }
    }
    if SameIgnoringCase(text, lower) {
      assert Lower(text) == lower;
    }
  }

  /** Artwork is taken from the bound stream of a session alone, and then stored exactly
      when it is a non-empty JPEG or PNG, in any case of its type; either way the session gets
      a revision never used before, and artwork that is not stored is forgotten. */
  lemma ArtworkIsStoredExactly(s: Status, p: Protocol, upstream: Option<nat>, contentType: string, data: seq<bv8>)
    requires TableOk(s)
    ensures
      var (r, answer) := UpdateArtwork(s, p, upstream, contentType, data);
      (answer.Some? <==> Binds(s, p, upstream) && p in s.sessions) && (answer.None? ==> r == s)
    ensures
      var (r, answer) := UpdateArtwork(s, p, upstream, contentType, data);
      answer.Some? ==>
        && p in r.sessions && r.sessions[p].artworkRevision == Some(answer.value.1)
        && r.sessions[p].id == answer.value.0
        && (forall q :: q in s.sessions && s.sessions[q].artworkRevision.Some? ==>
              s.sessions[q].artworkRevision.value < answer.value.1)
        && (p in r.artwork <==>
              data != [] && (SameIgnoringCase(contentType, "image/jpeg") || SameIgnoringCase(contentType, "image/png")))
        && (p in r.artwork ==> r.artwork[p].data == data && r.artwork[p].revision == answer.value.1)
  {
    LowerIgnoresCase(contentType, "image/jpeg");
    LowerIgnoresCase(contentType, "image/png");
    forall q | q in s.sessions && s.sessions[q].artworkRevision.Some?
      ensures s.sessions[q].artworkRevision.value < s.nextArtwork
    {
      assert EntryOk(s, q);
    }
    hide Lower, SameIgnoringCase, TableOk;
  }

  predicate Removes(a: Action) { a.DoSetPhase? || a.DoInstall? || a.DoEndSink? || a.DoEndUpstream? }

  lemma StepGrowsUpstream(s: Status, a: Action, p: Protocol)
    requires !Removes(a) && p in s.upstream
    ensures p in Step(s, a).upstream && s.upstream[p] <= Step(s, a).upstream[p]
  {
    hide PutSession, PutRemote, ImageType, NextVolumeRevision, Edited;
    if a.DoEnsure? { EnsureGrowsUpstream(s, a.p, a.stream, a.remote, p); }
  }

  lemma PutsKeepUpstream(s: Status, p: Protocol, stream: Stream, update: RemoteUpdate)
    ensures p in PutSession(s, p, stream).sessions && PutSession(s, p, stream).upstream == s.upstream
    ensures PutRemote(PutSession(s, p, stream), p, update).upstream == s.upstream
    ensures PutRemote(PutSession(s, p, stream), p, update).volumes == s.volumes
  {
  }

  lemma EnsureGrowsUpstream(s: Status, q: Protocol, stream: Stream, update: RemoteUpdate, p: Protocol)
    requires p in s.upstream
    ensures p in Ensure(s, q, stream, update).0.upstream && s.upstream[p] <= Ensure(s, q, stream, update).0.upstream[p]
  {
    hide PutSession, PutRemote;
    if !(stream.upstream.Some? && Refuses(s, q, stream.upstream.value)) {
      PutsKeepUpstream(if stream.upstream.Some? then Adopt(s, q, stream.upstream.value) else s, q, stream, update);
    }
  }

  /** While no sink callback or teardown intervenes, the stream id installed for a
      protocol only grows, so every older id stays refused. */
  lemma {:induction false} InstalledIdsOnlyGrow(s: Status, actions: seq<Action>, p: Protocol)
    requires p in s.upstream && forall i :: 0 <= i < |actions| ==> !Removes(actions[i])
    ensures p in Run(s, actions).upstream && s.upstream[p] <= Run(s, actions).upstream[p]
    ensures forall id :: 0 <= id < s.upstream[p] ==> Refuses(Run(s, actions), p, id)
    decreases |actions|
  {
    hide Step;
    if actions != [] {
      StepGrowsUpstream(s, actions[0], p);
      InstalledIdsOnlyGrow(Step(s, actions[0]), actions[1..], p);
    }
  }

  /** Once the installed id is removed, older ids come back: after the end of
      stream `current`, any id beyond the other protocol's is accepted again. */
  lemma EndedStreamAdmitsOldIds(s: Status, p: Protocol, current: nat, revived: nat)
    requires Binds(s, p, Some(current)) && revived < current
    ensures Refuses(s, p, revived)
    ensures Refuses(EndUpstream(s, p, current), p, revived)
        <==> exists q :: q in s.upstream && q != p && s.upstream[q] >= revived
  {
    var r := EndUpstream(s, p, current);
    assert forall q :: q != p ==> (q in r.upstream <==> q in s.upstream);
  }

  // ----- the status snapshot -----

  /** The sessions shown to clients; `owner` was read before the lock was taken. */
  function Snapshot(s: Status, owner: Option<nat>): map<Protocol, Session>
  {
    map p | p in s.sessions :: s.sessions[p].(selected := owner == Some(s.sessions[p].id))
  }

  /** A snapshot marks at most one session, and that one had the bus when it was
      asked; apart from the mark it shows the table as it is. */
  lemma SnapshotSelectsAtMostOne(s: Status, actions: seq<Action>, owner: Option<nat>)
    requires TableOk(s)
    ensures
      var e := Run(s, actions);
      var shown := Snapshot(e, owner);
      && (forall p, q :: p in shown && q in shown && shown[p].selected && shown[q].selected ==> p == q)
      && (forall p :: p in shown && shown[p].selected ==> owner == Some(shown[p].id))
      && (owner.Some? && Names(e, owner.value) ==> exists p :: p in shown && shown[p].selected)
      && shown.Keys == e.sessions.Keys
  {
    RunKeepsTable(s, actions);
    var e := Run(s, actions);
    var shown := Snapshot(e, owner);
    assert DistinctIds(e);
    if owner.Some? && Names(e, owner.value) {
      var p :| p in e.sessions && e.sessions[p].id == owner.value;
      assert p in shown && shown[p].selected;
    }
  }

  predicate Flagged(s: Status, p: Protocol) { p in s.sessions && s.sessions[p].selected }

  lemma PutFlags(s: Status, p: Protocol, stream: Stream)
    ensures
      var r := PutSession(s, p, stream);
      && (Flagged(r, p) <==> s.owner.None? || s.owner == Some(r.sessions[p].id))
      && (Flagged(r, Other(p)) <==> Flagged(s, Other(p)))
      && r.sessions[p].id == if p in s.sessions then s.sessions[p].id else s.nextSession
  {
  }

  lemma AdoptFlags(s: Status, p: Protocol, upstream: Option<nat>)
    requires upstream.Some? ==> !Refuses(s, p, upstream.value)
    ensures
      var t := if upstream.Some? then Adopt(s, p, upstream.value) else s;
      && t.owner == s.owner && t.nextSession == s.nextSession && (Flagged(t, Other(p)) <==> Flagged(s, Other(p)))
      && (p in t.sessions ==> p in s.sessions && t.sessions[p].id == s.sessions[p].id)
      && (p in s.sessions && s.owner == Some(s.sessions[p].id) ==> p in t.sessions)
  {
  }

  /** The flag stored in the table may mark two sessions. After an accepted milestone
      of p it does so exactly when the bus is idle or carries p's own session, and
      the other protocol's session was flagged before. */
  lemma StoredFlagsClashExactly(s: Status, p: Protocol, stream: Stream, update: RemoteUpdate)
    requires TableOk(s) && Ensure(s, p, stream, update).1.Some?
    ensures
      var r := Ensure(s, p, stream, update).0;
      Flagged(r, p) && Flagged(r, Other(p)) <==>
        && (s.owner.None? || (p in s.sessions && s.owner == Some(s.sessions[p].id)))
        && Flagged(s, Other(p))
  {
    hide Adopt, PutSession, PutRemote, Refuses, EntryOk;
    AdoptFlags(s, p, stream.upstream);
    var t := if stream.upstream.Some? then Adopt(s, p, stream.upstream.value) else s;
    PutFlags(t, p, stream);
    PutInstalls(t, p, stream);
    PutRemoteInstalls(PutSession(t, p, stream), p, update);
  }

  lemma RunTwo(s: Status, a: Action, b: Action)
    ensures Run(s, [a, b]) == Step(Step(s, a), b)
  {
    hide Step;
    assert [a, b][1..] == [b] && [b][1..] == [];
    assert Run(Step(s, a), [b]) == Run(Step(Step(s, a), b), []);
  }

  /** Such a run, with the stream ids the control listener would allocate and
      whatever the milestones say about remote capabilities. */
  lemma StoredFlagsDoClash(a: Stream, u: RemoteUpdate, b: Stream, v: RemoteUpdate)
    requires a.upstream == Some(1) && b.upstream == Some(2)
    ensures
      var s := Run(Initial(), [DoEnsure(AirPlay1, a, u), DoEnsure(AirPlay2, b, v)]);
      Flagged(s, AirPlay1) && Flagged(s, AirPlay2)
  {
    hide Run, Flagged, Ensure, TableOk;
    RunTwo(Initial(), DoEnsure(AirPlay1, a, u), DoEnsure(AirPlay2, b, v));
    var s := Ensure(Initial(), AirPlay1, a, u).0;
    AcceptedEnsureInstalls(Initial(), AirPlay1, a, u);
    FirstMilestone(a, u);
    AcceptedEnsureInstalls(s, AirPlay2, b, v);
    StoredFlagsClashExactly(s, AirPlay2, b, v);
  }

  lemma FirstMilestone(a: Stream, u: RemoteUpdate)
    requires a.upstream == Some(1)
    ensures
      var s := Ensure(Initial(), AirPlay1, a, u).0;
      && TableOk(s) && s.owner.None? && Flagged(s, AirPlay1) && s.upstream == map[AirPlay1 := 1]
  {
    EnsureKeepsTable(Initial(), AirPlay1, a, u);
  }

  // ----- what one protocol's calls leave alone -----

  function At<V>(m: map<Protocol, V>, q: Protocol): Option<V> { if q in m then Some(m[q]) else None }

  function Unmarked(session: Option<Session>): Option<Session>
  {
    if session.Some? then Some(session.value.(selected := false)) else None
  }

  predicate SameEntry(s: Status, r: Status, q: Protocol)
  {
    && Unmarked(At(r.sessions, q)) == Unmarked(At(s.sessions, q)) && At(r.remotes, q) == At(s.remotes, q)
    && At(r.upstream, q) == At(s.upstream, q) && At(r.volumes, q) == At(s.volumes, q)
    && At(r.artwork, q) == At(s.artwork, q)
  }

  lemma AtOthers<V>(m: map<Protocol, V>, p: Protocol, q: Protocol)
    requires q != p
    ensures At(m - {p}, q) == At(m, q)
    ensures forall v: V {:trigger m[p := v]} :: At(m[p := v], q) == At(m, q)
  {
  }

  predicate Concerns(a: Action, p: Protocol)
  {
    match a
    case DoEnsure(q, _, _) => p == q
    case DoInstall(q, _, _) => p == q
    case DoVolume(q, _, _, _) => p == q
    case DoEdit(q, _, _) => p == q
    case DoArtwork(q, _, _, _) => p == q
    case DoEndSink(q, _) => p == q
    case DoEndUpstream(q, _) => p == q
    case DoReceiver(_, _, _) => false
    case DoSetPhase(phase, _) => phase.Stopped? || phase.Failed?
    case _ => false
  }

  lemma SameEntryTransitive(a: Status, b: Status, c: Status, q: Protocol)
    requires SameEntry(a, b, q) && SameEntry(b, c, q)
    ensures SameEntry(a, c, q)
  {
  }

  lemma DropLeavesOthers(s: Status, p: Protocol, upstream: Option<nat>, q: Protocol)
    requires q != p
    ensures SameEntry(s, Rebind(s, p, upstream), q)
    ensures upstream.Some? ==> SameEntry(s, Adopt(s, p, upstream.value), q)
  {
    hide Bumped, At, Unmarked;
    AtOthers(s.sessions, p, q);
    AtOthers(s.remotes, p, q);
    AtOthers(s.upstream, p, q);
    AtOthers(s.volumes, p, q);
    AtOthers(s.artwork, p, q);
  }

  lemma PutLeavesOthers(s: Status, p: Protocol, stream: Stream, q: Protocol)
    requires q != p
    ensures SameEntry(s, PutSession(s, p, stream), q)
  {
    hide NewSession, Refreshed;
  }

  lemma PutRemoteLeavesOthers(s: Status, p: Protocol, update: RemoteUpdate, q: Protocol)
    requires q != p && p in s.sessions
    ensures SameEntry(s, PutRemote(s, p, update), q)
  {
    hide Bumped;
  }

  lemma EnsureLeavesOthers(s: Status, p: Protocol, stream: Stream, update: RemoteUpdate, q: Protocol)
    requires q != p
    ensures SameEntry(s, Ensure(s, p, stream, update).0, q)
  {
    if stream.upstream.Some? && Refuses(s, p, stream.upstream.value) {
      SameIsSame(s, s, q);
    } else {
      hide SameEntry, Adopt, PutSession, PutRemote, Refuses;
      var t := if stream.upstream.Some? then Adopt(s, p, stream.upstream.value) else s;
      var u := PutSession(t, p, stream);
      SameIsSame(s, s, q);
      DropLeavesOthers(s, p, stream.upstream, q);
      PutLeavesOthers(t, p, stream, q);
      PutInstalls(t, p, stream);
      PutRemoteLeavesOthers(u, p, update, q);
      SameEntryTransitive(s, t, u, q);
      SameEntryTransitive(s, u, PutRemote(u, p, update), q);
    }
  }

  lemma SeatLeavesOthers(s: Status, p: Protocol, id: nat, stream: Stream, q: Protocol)
    requires q != p
    ensures SameEntry(s, Seat(s, p, id, stream), q)
  {
    hide Inherited, Bumped;
  }

  lemma InstallLeavesOthers(s: Status, p: Protocol, id: nat, stream: Stream, q: Protocol)
    requires q != p
    ensures SameEntry(s, Install(s, p, id, stream), q)
  {
    hide SameEntry, Rebind, Seat;
    var t := Rebind(s, p, stream.upstream);
    DropLeavesOthers(s, p, stream.upstream, q);
    SeatLeavesOthers(t, p, id, stream, q);
    SameEntryTransitive(s, t, Seat(t, p, id, stream), q);
  }

  lemma EndsLeaveOthers(s: Status, p: Protocol, id: nat, q: Protocol)
    requires q != p
    ensures SameEntry(s, EndSink(s, p, id).0, q) && SameEntry(s, EndUpstream(s, p, id), q)
  {
    hide Bumped, Binds, At, Unmarked;
    AtOthers(s.sessions, p, q);
    AtOthers(s.remotes, p, q);
    AtOthers(s.upstream, p, q);
    AtOthers(s.volumes, p, q);
    AtOthers(s.artwork, p, q);
  }

  lemma UpdatesLeaveOthers(s: Status, a: Action, q: Protocol)
    requires !Concerns(a, q) && (a.DoVolume? || a.DoEdit? || a.DoArtwork?)
    ensures SameEntry(s, Step(s, a), q)
  {
    hide ImageType, NextVolumeRevision, Edited, Binds, At, Unmarked;
    AtOthers(s.sessions, a.p, q);
    AtOthers(s.volumes, a.p, q);
    AtOthers(s.artwork, a.p, q);
  }

  lemma FlightLeavesEntries(s: Status, a: Action, q: Protocol)
    requires !Concerns(a, q)
    requires a.DoSetPhase? || a.DoMint? || a.DoTakeBus? || a.DoReleaseBus? || a.DoReceiver?
    ensures SameEntry(s, Step(s, a), q)
  {
    hide Bumped, Binds, At, Unmarked;
  }

  lemma SameIsSame(s: Status, r: Status, q: Protocol)
    requires s == r
    ensures SameEntry(s, r, q)
  {
  }

  /** A call about one protocol leaves everything kept for the other as it is, apart
      from the selection flag; stopping and failing concern both. */
  lemma OtherStreamIsUntouched(s: Status, a: Action, q: Protocol)
    requires !Concerns(a, q)
    ensures SameEntry(s, Step(s, a), q)
  {
    hide Ensure, Install, EndSink, EndUpstream, SameEntry, UpdateVolume, UpdateSession, UpdateArtwork;
    match a
    case DoEnsure(p, stream, update) => EnsureLeavesOthers(s, p, stream, update, q);
    case DoInstall(p, id, stream) => InstallLeavesOthers(s, p, id, stream, q); SameIsSame(s, s, q);
    case DoEndSink(p, id) => EndsLeaveOthers(s, p, id, q);
    case DoEndUpstream(p, ended) => EndsLeaveOthers(s, p, ended, q);
    case DoVolume(_, _, _, _) => UpdatesLeaveOthers(s, a, q);
    case DoEdit(_, _, _) => UpdatesLeaveOthers(s, a, q);
    case DoArtwork(_, _, _, _) => UpdatesLeaveOthers(s, a, q);
    case _ => FlightLeavesEntries(s, a, q);
  }

  /** An edit that finds its stream changes the fields it names and nothing else in
      the whole state; any other edit changes nothing. */
  lemma EditsNameTheirFields(s: Status, p: Protocol, upstream: Option<nat>, edit: Edit)
    ensures
      var (r, id) := UpdateSession(s, p, upstream, edit);
      && (id.Some? <==> Binds(s, p, upstream) && p in s.sessions)
      && (id.None? ==> r == s)
      && (id.Some? ==>
            && r == s.(sessions := r.sessions) && SameEntry(s.(sessions := s.sessions[p := r.sessions[p]]), r, Other(p))
            && p in r.sessions && id == Some(r.sessions[p].id) && r.sessions[p].selected == s.sessions[p].selected
            && (edit.EditMetadata? ==>
                  && r.sessions[p].title == edit.title && r.sessions[p].artist == edit.artist
                  && r.sessions[p].album == edit.album
                  && r.sessions[p] == s.sessions[p].(title := edit.title, artist := edit.artist, album := edit.album))
            && (edit.EditProgress? ==>
                  && r.sessions[p].paused == s.sessions[p].paused && r.sessions[p].title == s.sessions[p].title
                  && r.sessions[p].elapsed == edit.elapsed && r.sessions[p].duration == edit.duration)
            && (edit.EditPaused? ==>
                  && r.sessions[p].paused == edit.paused && SameContent(r.sessions[p], s.sessions[p])))
  {
  }

  /** Stopping or failing forgets every stream and revokes every lease there was;
      any other phase keeps both. The bus owner and the ids in flight stay. */
  lemma StoppingForgetsEverything(s: Status, phase: Phase, error: Option<string>)
    ensures
      var r, stops := SetPhase(s, phase, error), phase.Stopped? || phase.Failed?;
      && r.phase == phase && r.lastError == error && r.owner == s.owner && r.minted == s.minted
      && r.installed == s.installed && r.nextSession == s.nextSession && r.nextArtwork == s.nextArtwork
      && SameEntry(if stops then Initial() else s, r, AirPlay1)
      && SameEntry(if stops then Initial() else s, r, AirPlay2)
      && r.receiver == (if stops then None else s.receiver)
      && (r.remoteRevision != s.remoteRevision <==> stops && s.remotes != map[])
      && (r.receiverRevision != s.receiverRevision <==> stops && s.receiver.Some?)
  {
  }

  /** The receiver channel is the one offered by the stream on the bus; an offer that
      changes nothing keeps the leases, any other ends them. */
  lemma OfferedReceiverIsTheOwners(s: Status, p: Protocol, upstream: nat, channel: Option<nat>)
    ensures
      var r := SetReceiver(s, p, upstream, channel);
      var heard := Binds(s, p, Some(upstream)) && p in s.sessions && s.owner == Some(s.sessions[p].id);
      && (!heard ==> r == s)
      && (heard && channel.None? ==> r.receiver.None?)
      && (heard && channel.Some? ==> r.receiver == Some(ReceiverControl(s.owner.value, channel.value)))
      && (r.receiverRevision == s.receiverRevision <==> r.receiver == s.receiver)
      && r == s.(receiver := r.receiver, receiverRevision := r.receiverRevision)
  {
  }
}
