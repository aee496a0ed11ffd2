/** When capabilities and receiver channels go, and with them the leases on them:
    exactly at the calls that change them, and always at the end of their stream. */
module SessionCredentials {
  import opened Prelude
  import opened SessionTable
  import opened SessionProof
  import opened SessionProperties
  import opened SessionMessages
  import opened SessionVolumes

  // ----- revisions move exactly with what they guard -----

  ghost predicate MovesWithRemotes(s: Status, r: Status)
  {
    r.remoteRevision != s.remoteRevision <==> r.remotes != s.remotes
  }

  ghost predicate MovesWithReceiver(s: Status, r: Status)
  {
    r.receiverRevision != s.receiverRevision <==> r.receiver != s.receiver
  }

  lemma DropMovesExactly(s: Status, p: Protocol)
    ensures MovesWithRemotes(s, DropStream(s, p)) && MovesWithReceiver(s, DropStream(s, p))
    ensures DropStream(s, p).remotes == s.remotes - {p} && DropStream(s, p).receiver.None?
    ensures p in s.remotes ==> DropStream(s, p).remoteRevision > s.remoteRevision
  {
    if p !in s.remotes { assert s.remotes - {p} == s.remotes; }
  }

  lemma PutRemoteMovesExactly(s: Status, p: Protocol, update: RemoteUpdate)
    requires p in s.sessions
    ensures
      var r := PutRemote(s, p, update);
      && MovesWithRemotes(s, r) && r.remoteRevision >= s.remoteRevision
      && r.receiver == s.receiver && r.receiverRevision == s.receiverRevision
      && (p in r.remotes ==>
            if update.Replace? then r.remotes[p].sessionId == s.sessions[p].id else update.Keep? && p in s.remotes)
  {
    if p !in s.remotes { assert s.remotes - {p} == s.remotes; }
  }

  /** What a milestone does before it looks at the capability it brings. */
  function Prepared(s: Status, p: Protocol, stream: Stream): Status
  {
    PutSession(if stream.upstream.Some? then Adopt(s, p, stream.upstream.value) else s, p, stream)
  }

  predicate Replaced(s: Status, p: Protocol, stream: Stream)
  {
    stream.upstream.Some? && p in s.upstream && s.upstream[p] < stream.upstream.value
  }

  lemma PreparedMoves(s: Status, p: Protocol, stream: Stream)
    ensures
      var t := Prepared(s, p, stream);
      && p in t.sessions && MovesWithRemotes(s, t) && MovesWithReceiver(s, t) && t.remoteRevision >= s.remoteRevision
      && t.remotes == (if Replaced(s, p, stream) then s.remotes - {p} else s.remotes)
      && t.receiver == (if Replaced(s, p, stream) then None else s.receiver)
      && (Replaced(s, p, stream) && p in s.remotes ==> t.remoteRevision > s.remoteRevision)
  {
    hide DropStream;
    DropMovesExactly(s, p);
  }

  /** A stream that is replaced loses its session, and the next one gets a new id. */
  lemma ReplacedHasNewId(s: Status, p: Protocol, stream: Stream)
    requires TableOk(s) && Replaced(s, p, stream) && p in s.remotes
    ensures
      var t := Prepared(s, p, stream);
      p in t.sessions && s.remotes[p].sessionId != t.sessions[p].id
  {
    assert EntryOk(s, p);
  }

  lemma EnsureMovesExactly(s: Status, p: Protocol, stream: Stream, update: RemoteUpdate)
    requires TableOk(s)
    ensures MovesWithRemotes(s, Ensure(s, p, stream, update).0) && MovesWithReceiver(s, Ensure(s, p, stream, update).0)
  {
    hide Refuses, PutRemote, Prepared, Replaced, TableOk;
    EnsureIsPrepared(s, p, stream, update);
    if !(stream.upstream.Some? && Refuses(s, p, stream.upstream.value)) {
      PreparedMoves(s, p, stream);
      PutRemoteMovesExactly(Prepared(s, p, stream), p, update);
      if Replaced(s, p, stream) && p in s.remotes { ReplacedHasNewId(s, p, stream); }
    }
  }

  lemma EnsureIsPrepared(s: Status, p: Protocol, stream: Stream, update: RemoteUpdate)
    ensures p in Prepared(s, p, stream).sessions
    ensures Ensure(s, p, stream, update).0 ==
      if stream.upstream.Some? && Refuses(s, p, stream.upstream.value) then s
      else PutRemote(Prepared(s, p, stream), p, update)
  {
  }

  lemma InstallMovesExactly(s: Status, p: Protocol, id: nat, stream: Stream)
    requires TableOk(s) && id in s.minted
    ensures MovesWithRemotes(s, Install(s, p, id, stream)) && MovesWithReceiver(s, Install(s, p, id, stream))
  {
    hide Inherited, SelectOnly, FlightOk, DistinctIds;
    assert EntryOk(s, p);
    InstallIsTracked(s, p, id, stream);
    if p in s.remotes { InstallRenames(s, p, id, stream); }
    InstallMovesReceiver(s, p, id, stream);
  }

  lemma InstallMovesReceiver(s: Status, p: Protocol, id: nat, stream: Stream)
    requires TableOk(s) && id in s.minted
    ensures Install(s, p, id, stream).receiver == s.receiver <==> s.receiver.None?
  {
    hide Inherited, SelectOnly, FlightOk, DistinctIds;
    if s.receiver.Some? {
      var q :| q in s.sessions && s.sessions[q].id == s.receiver.value.sessionId;
      assert EntryOk(s, q);
    }
  }

  lemma InstallRenames(s: Status, p: Protocol, id: nat, stream: Stream)
    requires TableOk(s) && id in s.minted && p in s.remotes
    ensures Install(s, p, id, stream).remotes != s.remotes
  {
    hide Inherited, SelectOnly, FlightOk, DistinctIds, ReceiverOk;
    assert EntryOk(s, p);
    var r := Install(s, p, id, stream);
    assert p in r.remotes ==> r.remotes[p].sessionId == id;
  }

  lemma EndsMoveExactly(s: Status, p: Protocol, id: nat)
    ensures MovesWithRemotes(s, EndSink(s, p, id).0) && MovesWithReceiver(s, EndSink(s, p, id).0)
    ensures MovesWithRemotes(s, EndUpstream(s, p, id)) && MovesWithReceiver(s, EndUpstream(s, p, id))
  {
    if p !in s.remotes { assert s.remotes - {p} == s.remotes; }
  }

  /** Each revision moves exactly when what it guards changes, in every call. */
  lemma RevisionsMoveExactly(s: Status, a: Action)
    requires TableOk(s)
    ensures MovesWithRemotes(s, Step(s, a)) && MovesWithReceiver(s, Step(s, a))
  {
    hide Ensure, Install, EndSink, EndUpstream, Edited, ImageType, NextVolumeRevision, TableOk;
    match a
    case DoEnsure(p, stream, update) => EnsureMovesExactly(s, p, stream, update);
    case DoInstall(p, id, stream) => if id in s.minted { InstallMovesExactly(s, p, id, stream); }
    case DoEndSink(p, id) => EndsMoveExactly(s, p, id);
    case DoEndUpstream(p, ended) => EndsMoveExactly(s, p, ended);
    case _ =>
  }

  /** No call of the run changes a capability. */
  ghost predicate KeepsRemotes(s: Status, actions: seq<Action>)
    decreases |actions|
  {
    actions != [] ==> Step(s, actions[0]).remotes == s.remotes && KeepsRemotes(Step(s, actions[0]), actions[1..])
  }

  lemma {:induction false} RevisionStaysExactly(s: Status, actions: seq<Action>)
    requires TableOk(s)
    ensures Run(s, actions).remoteRevision == s.remoteRevision <==> KeepsRemotes(s, actions)
    decreases |actions|
  {
    hide Step, TableOk;
    if actions != [] {
      StepKeepsTable(s, actions[0]);
      RevisionsMoveExactly(s, actions[0]);
      StepIsTracked(s, actions[0]);
      RevisionStaysExactly(Step(s, actions[0]), actions[1..]);
      RunIsTracked(Step(s, actions[0]), actions[1..]);
    }
  }

  /** A lease stays current over fewer than 2^63 calls exactly if none of them changes
      a capability: it is never revoked in vain and never outlives a change. */
  lemma LeaseStaysExactly(s: Status, actions: seq<Action>, owner: Option<nat>)
    requires TableOk(s) && TakeLease(s, owner).Some? && 2 * |actions| <= U64_MAX
    ensures IsCurrent(Run(s, actions), TakeLease(s, owner).value) <==> KeepsRemotes(s, actions)
  {
    hide Run, KeepsRemotes, TableOk, Word, RemoteOf;
    RevisionStaysExactly(s, actions);
    RunIsTracked(s, actions);
    WordsTellApart(s.remoteRevision, Run(s, actions).remoteRevision);
  }

  // ----- the end of a stream -----

  /** The end of the bound stream takes its capability, artwork and numbering, and its
      receiver channel exactly if that names its session. Its session and the bus
      owner stay, and everything of the other protocol. A DACP lease taken before
      stays current exactly if p had no capability. */
  lemma EndedStreamLosesItsCredentials(s: Status, p: Protocol, ended: nat, owner: Option<nat>)
    requires TableOk(s) && Binds(s, p, Some(ended))
    ensures
      var r := EndUpstream(s, p, ended);
      && p !in r.remotes && p !in r.artwork && p !in r.volumes && p !in r.upstream
      && r.sessions == s.sessions && r.owner == s.owner && SameEntry(s, r, Other(p))
      && p in s.sessions && RemoteOf(r, s.sessions[p].id).None? && TakeLease(r, Some(s.sessions[p].id)).None?
      && (TakeLease(s, owner).Some? ==> (IsCurrent(r, TakeLease(s, owner).value) <==> p !in s.remotes))
      && r.receiver == (if s.receiver.Some? && s.receiver.value.sessionId == s.sessions[p].id then None else s.receiver)
      && MovesWithReceiver(s, r)
  {
    hide FlightOk, ReceiverOk, Word, At, Unmarked, MovesWithReceiver;
    assert EntryOk(s, p) && EntryOk(s, AirPlay1) && EntryOk(s, AirPlay2);
    EndsMoveExactly(s, p, ended);
    EndsLeaveOthers(s, p, ended, Other(p));
    WordsTellApart(s.remoteRevision, EndUpstream(s, p, ended).remoteRevision);
  }

  /** A sink is ended exactly when p's session has its id, and then nothing kept for p
      is left; the bus owner and the other protocol stay. */
  lemma EndedSinkLosesEverything(s: Status, p: Protocol, id: nat, owner: Option<nat>)
    requires TableOk(s)
    ensures
      var (r, removed) := EndSink(s, p, id);
      && (removed <==> HasSession(s, p, id)) && r.owner == s.owner && SameEntry(s, r, Other(p))
      && (!removed ==> r == s)
      && (removed ==>
            && p !in r.sessions && p !in r.remotes && p !in r.artwork && p !in r.volumes && p !in r.upstream
            && !Names(r, id) && (r.receiver.Some? ==> r.receiver == s.receiver && r.receiver.value.sessionId != id)
            && (r.receiver.None? ==> s.receiver.None? || s.receiver.value.sessionId == id)
            && (TakeLease(s, owner).Some? ==> (IsCurrent(r, TakeLease(s, owner).value) <==> p !in s.remotes)))
  {
    hide FlightOk, ReceiverOk, Word, At, Unmarked, RemoteOf;
    assert EntryOk(s, p);
    EndsLeaveOthers(s, p, id, Other(p));
    WordsTellApart(s.remoteRevision, EndSink(s, p, id).0.remoteRevision);
  }

  /** The call brings p a new capability. */
  predicate Grants(a: Action, p: Protocol) { a.DoEnsure? && a.p == p && a.remote.Replace? }

  lemma EnsureGrantsOnly(s: Status, a: Action, p: Protocol)
    requires a.DoEnsure? && p !in s.remotes && !Grants(a, p)
    ensures p !in Step(s, a).remotes
  {
    hide Refuses, PutRemote, Prepared;
    EnsureIsPrepared(s, a.p, a.stream, a.remote);
    PreparedMoves(s, a.p, a.stream);
    PutRemoteMovesExactly(Prepared(s, a.p, a.stream), a.p, a.remote);
    if p != a.p { EnsureLeavesOthers(s, a.p, a.stream, a.remote, p); }
  }

  lemma StepGrantsNothing(s: Status, a: Action, p: Protocol)
    requires p !in s.remotes && !Grants(a, p)
    ensures p !in Step(s, a).remotes
  {
    hide Ensure, Edited, ImageType, NextVolumeRevision, Inherited, SelectOnly;
    if a.DoEnsure? { EnsureGrantsOnly(s, a, p); }
  }

  lemma {:induction false} RunGrantsNothing(s: Status, actions: seq<Action>, p: Protocol)
    requires p !in s.remotes && forall i :: 0 <= i < |actions| ==> !Grants(actions[i], p)
    ensures p !in Run(s, actions).remotes
    decreases |actions|
  {
    hide Step;
    if actions != [] {
      StepGrantsNothing(s, actions[0], p);
      RunGrantsNothing(Step(s, actions[0]), actions[1..], p);
    }
  }

  lemma {:induction false} RunKeepsPlace(s: Status, actions: seq<Action>, q: Protocol, id: nat)
    requires HandedOut(s, id)
    ensures HandedOut(Run(s, actions), id) && (HasSession(Run(s, actions), q, id) ==> HasSession(s, q, id))
    decreases |actions|
  {
    hide Step, HandedOut, HasSession;
    if actions != [] {
      StepKeepsPlace(s, actions[0], q, id);
      RunKeepsPlace(Step(s, actions[0]), actions[1..], q, id);
    }
  }

  /** After the end of its stream no lease is granted for the session, and none taken
      before is current, over any calls until a milestone brings a new capability. */
  lemma EndedStreamGrantsNoLease(s: Status, p: Protocol, ended: nat, actions: seq<Action>)
    requires TableOk(s) && Binds(s, p, Some(ended)) && forall i :: 0 <= i < |actions| ==> !Grants(actions[i], p)
    ensures p in s.sessions && TakeLease(Run(EndUpstream(s, p, ended), actions), Some(s.sessions[p].id)).None?
    ensures p in s.remotes && 2 * |actions| + 2 <= U64_MAX && TakeLease(s, Some(s.sessions[p].id)).Some? ==>
      !IsCurrent(Run(EndUpstream(s, p, ended), actions), TakeLease(s, Some(s.sessions[p].id)).value)
  {
    hide Run, FlightOk, DistinctIds, ReceiverOk, Word, EndUpstream;
    var r := EndUpstream(s, p, ended);
    EndedStreamLosesItsCredentials(s, p, ended, None);
    EndUpstreamKeepsTable(s, p, ended);
    var id, e := s.sessions[p].id, Run(r, actions);
    RunKeepsTable(r, actions);
    RunGrantsNothing(r, actions, p);
    assert EntryOk(s, p) && EntryOk(r, p);
    assert HandedOut(r, id) && HasSession(r, p, id);
    forall q | q in e.remotes ensures e.remotes[q].sessionId != id {
      assert EntryOk(e, q);
      RunKeepsPlace(r, actions, q, id);
      if HasSession(r, q, id) { OnePlace(r, p, q, id); }
    }
    if 2 * |actions| + 2 <= U64_MAX {
      EndsMoveExactly(s, p, ended);
      EndIsTracked(s, p, 0, ended);
      RunIsTracked(r, actions);
      WordsTellApart(s.remoteRevision, e.remoteRevision);
    }
  }

  lemma OnePlace(s: Status, p: Protocol, q: Protocol, id: nat)
    requires TableOk(s) && HasSession(s, p, id) && HasSession(s, q, id)
    ensures p == q
  {
  }
}
