/** What callers of the session state rely on, over every sequence of calls. */
module SessionProperties {
  import opened Prelude
  import opened SessionTable
  import opened SessionProof

  // ----- leases -----

  /** Revisions are 64-bit words that wrap. */
  function Word(revision: nat): nat { revision % (U64_MAX + 1) }

  datatype Lease = Lease(info: Remote, revision: nat)

  function RemoteOf(s: Status, id: nat): Option<Remote>
  {
    if AirPlay1 in s.remotes && s.remotes[AirPlay1].sessionId == id then Some(s.remotes[AirPlay1])
    else if AirPlay2 in s.remotes && s.remotes[AirPlay2].sessionId == id then Some(s.remotes[AirPlay2])
    else None
  }

  lemma RemoteOfFinds(s: Status, id: nat)
    ensures RemoteOf(s, id).Some? ==> RemoteOf(s, id).value.sessionId == id
    ensures RemoteOf(s, id).None? ==> forall p :: p in s.remotes ==> s.remotes[p].sessionId != id
  {
    forall p | p in s.remotes ensures RemoteOf(s, id).None? ==> s.remotes[p].sessionId != id {
      assert p == AirPlay1 || p == AirPlay2;
    }
  }

  /** `owner` was read from the bus before the lock was taken, so it may be old. */
  function TakeLease(s: Status, owner: Option<nat>): Option<Lease>
  {
    if owner.Some? && RemoteOf(s, owner.value).Some?
    then Some(Lease(RemoteOf(s, owner.value).value, Word(s.remoteRevision)))
    else None
  }

  predicate IsCurrent(s: Status, lease: Lease) { Word(s.remoteRevision) == lease.revision }

  ghost predicate TrackedWithin(s: Status, r: Status, changes: nat)
  {
    && s.remoteRevision <= r.remoteRevision <= s.remoteRevision + changes
    && s.receiverRevision <= r.receiverRevision <= s.receiverRevision + changes
    && (s.remoteRevision == r.remoteRevision ==> s.remotes == r.remotes)
    && (s.receiverRevision == r.receiverRevision ==> s.receiver == r.receiver)
  }

  ghost predicate Tracked(s: Status, r: Status) { TrackedWithin(s, r, 2) }

  lemma AdoptIsTracked(s: Status, p: Protocol, upstream: nat)
    ensures TrackedWithin(s, Adopt(s, p, upstream), 1)
  {
  }

  lemma PutRemoteIsTracked(s: Status, p: Protocol, update: RemoteUpdate)
    requires p in s.sessions
    ensures TrackedWithin(s, PutRemote(s, p, update), 1)
  {
  }

  lemma EnsureIsTracked(s: Status, p: Protocol, stream: Stream, update: RemoteUpdate)
    ensures Tracked(s, Ensure(s, p, stream, update).0)
  {
    hide Adopt, PutRemote, NewSession;
    if !(stream.upstream.Some? && Refuses(s, p, stream.upstream.value)) {
      if stream.upstream.Some? { AdoptIsTracked(s, p, stream.upstream.value); }
      var t := PutSession(if stream.upstream.Some? then Adopt(s, p, stream.upstream.value) else s, p, stream);
      PutRemoteIsTracked(t, p, update);
    }
  }

  lemma RebindIsTracked(s: Status, p: Protocol, upstream: Option<nat>)
    ensures
      var t := Rebind(s, p, upstream);
      && TrackedWithin(s, t, 1)
      && (p in t.remotes ==> p in s.remotes) && (t.remoteRevision == s.remoteRevision ==> t.remotes == s.remotes)
      && (t.remoteRevision != s.remoteRevision ==> p in s.remotes && p !in t.remotes)
      && (t.receiverRevision != s.receiverRevision ==> s.receiver.Some? && t.receiver.None?)
  {
    if p !in s.remotes { assert s.remotes - {p} == s.remotes; }
  }

  lemma SeatIsTracked(s: Status, p: Protocol, id: nat, stream: Stream)
    ensures
      var r := Seat(s, p, id, stream);
      && TrackedWithin(s, r, 1)
      && (r.remoteRevision == s.remoteRevision <==> p !in s.remotes)
      && (r.receiverRevision == s.receiverRevision <==> s.receiver.None?)
  {
  }

  lemma InstallIsTracked(s: Status, p: Protocol, id: nat, stream: Stream)
    ensures Tracked(s, Install(s, p, id, stream))
    ensures Install(s, p, id, stream).remoteRevision == s.remoteRevision <==> p !in s.remotes
    ensures Install(s, p, id, stream).receiverRevision == s.receiverRevision <==> s.receiver.None?
  {
    hide Rebind, Seat;
    RebindIsTracked(s, p, stream.upstream);
    SeatIsTracked(Rebind(s, p, stream.upstream), p, id, stream);
  }

  lemma EndIsTracked(s: Status, p: Protocol, id: nat, upstream: nat)
    ensures Tracked(s, EndSink(s, p, id).0) && Tracked(s, EndUpstream(s, p, upstream))
  {
    if p !in s.remotes { assert s.remotes - {p} == s.remotes; }
  }

  /** Every change of the guarded map or option moves its revision. */
  lemma StepIsTracked(s: Status, a: Action)
    ensures Tracked(s, Step(s, a))
  {
    hide Ensure, Install, EndSink, EndUpstream, Edited, ImageType, NextVolumeRevision;
    match a
    case DoEnsure(p, stream, update) => EnsureIsTracked(s, p, stream, update);
    case DoInstall(p, id, stream) => InstallIsTracked(s, p, id, stream);
    case DoEndSink(p, id) => EndIsTracked(s, p, id, 0);
    case DoEndUpstream(p, ended) => EndIsTracked(s, p, 0, ended);
    case _ =>
  }

  lemma {:induction false} RunIsTracked(s: Status, actions: seq<Action>)
    ensures
      var e := Run(s, actions);
      && s.remoteRevision <= e.remoteRevision <= s.remoteRevision + 2 * |actions|
      && s.receiverRevision <= e.receiverRevision <= s.receiverRevision + 2 * |actions|
      && (s.remoteRevision == e.remoteRevision ==> s.remotes == e.remotes)
      && (s.receiverRevision == e.receiverRevision ==> s.receiver == e.receiver)
    decreases |actions|
  {
    hide Step;
    if actions != [] {
      StepIsTracked(s, actions[0]);
      RunIsTracked(Step(s, actions[0]), actions[1..]);
    }
  }

  lemma WordsTellApart(a: nat, b: nat)
    requires a <= b <= a + U64_MAX
    ensures Word(a) == Word(b) <==> a == b
  {
    if a < b { RingPositionsDiffer(a, b, U64_MAX + 1); }
  }

  /** A lease that still reports itself current, after fewer than 2^63 calls of
      any kind, names a capability nobody touched: the whole map is as it was, and
      the session it is bound to is in the table under the same id. */
  lemma CurrentLeaseMeansUnchanged(s: Status, actions: seq<Action>, owner: Option<nat>)
    requires TableOk(s) && TakeLease(s, owner).Some? && 2 * |actions| <= U64_MAX
    requires IsCurrent(Run(s, actions), TakeLease(s, owner).value)
    ensures
      var e, lease := Run(s, actions), TakeLease(s, owner).value;
      && e.remotes == s.remotes
      && RemoteOf(e, owner.value) == Some(lease.info)
      && lease.info.sessionId == owner.value && Names(e, owner.value)
      && TakeLease(e, owner) == Some(lease)
  {
    RunIsTracked(s, actions);
    RunKeepsTable(s, actions);
    var e := Run(s, actions);
    WordsTellApart(s.remoteRevision, e.remoteRevision);
    assert EntryOk(e, AirPlay1) && EntryOk(e, AirPlay2);
  }

  datatype ReceiverLease = ReceiverLease(info: ReceiverControl, revision: nat)

  /** `live` is what the channel's own sender says about itself at that moment. */
  function TakeReceiverLease(s: Status, owner: Option<nat>, live: bool): Option<ReceiverLease>
  {
    if live && s.receiver.Some? && owner == Some(s.receiver.value.sessionId)
    then Some(ReceiverLease(s.receiver.value, Word(s.receiverRevision)))
    else None
  }

  /** The same for the receiver-volume channel. */
  lemma CurrentReceiverMeansUnchanged(s: Status, actions: seq<Action>, owner: Option<nat>)
    requires TableOk(s) && TakeReceiverLease(s, owner, true).Some? && 2 * |actions| <= U64_MAX
    requires Word(Run(s, actions).receiverRevision) == TakeReceiverLease(s, owner, true).value.revision
    ensures
      var e := Run(s, actions);
      && e.receiver == s.receiver && Names(e, owner.value)
      && TakeReceiverLease(e, owner, true) == TakeReceiverLease(s, owner, true)
  {
    RunIsTracked(s, actions);
    RunKeepsTable(s, actions);
    WordsTellApart(s.receiverRevision, Run(s, actions).receiverRevision);
  }

  lemma InstallSeats(s: Status, q: Protocol, id: nat, stream: Stream)
    ensures q in Install(s, q, id, stream).sessions && Install(s, q, id, stream).sessions[q].id == id
    ensures forall p :: p in Install(s, q, id, stream).sessions ==>
      (Install(s, q, id, stream).sessions[p].selected <==> Install(s, q, id, stream).sessions[p].id == id)
  {
  }

  function Activation(s: Status, q: Protocol, stream: Stream): seq<Action>
  {
    [DoMint, DoInstall(q, s.nextSession, stream), DoTakeBus(s.nextSession)]
  }

  lemma RunThree(s: Status, a: Action, b: Action, c: Action)
    ensures Run(s, [a, b, c]) == Step(Step(Step(s, a), b), c)
  {
    hide Step;
    assert [a, b, c][1..] == [b, c] && [b, c][1..] == [c] && [c][1..] == [];
    assert Run(Step(s, a), [b, c]) == Run(Step(Step(s, a), b), [c]);
    assert Run(Step(Step(s, a), b), [c]) == Run(Step(Step(Step(s, a), b), c), []);
  }

  lemma FlightSteps(s: Status, p: Protocol, id: nat, stream: Stream)
    ensures Step(s, DoMint) == Mint(s)
    ensures id in s.minted ==> Step(s, DoInstall(p, id, stream)) == Install(s, p, id, stream)
    ensures id in s.installed ==> Step(s, DoTakeBus(id)) == TakeBus(s, id)
  {
  }

  lemma ActivationIsThreeSteps(s: Status, p: Protocol, stream: Stream)
    ensures Run(s, Activation(s, p, stream)) == TakeBus(Install(Mint(s), p, s.nextSession, stream), s.nextSession)
  {
    hide Install, Run, Step, TakeBus;
    var id := s.nextSession;
    RunThree(s, DoMint, DoInstall(p, id, stream), DoTakeBus(id));
    FlightSteps(s, p, id, stream);
    FlightSteps(Mint(s), p, id, stream);
    InstallKeepsCount(Mint(s), p, id, stream);
    FlightSteps(Install(Mint(s), p, id, stream), p, id, stream);
  }

  /** Activating a sink revokes the DACP lease exactly when its own protocol has a
      remote capability, so a lease of the other protocol survives the loss of the
      bus; it revokes the receiver channel whenever there is one. */
  lemma ActivationRevokesExactly(s: Status, q: Protocol, stream: Stream)
    requires TableOk(s)
    ensures
      var e := Run(s, Activation(s, q, stream));
      && e.owner == Some(s.nextSession) && q in e.sessions && e.sessions[q].id == s.nextSession
      && (e.remoteRevision == s.remoteRevision <==> q !in s.remotes)
      && (e.receiverRevision == s.receiverRevision <==> s.receiver.None?)
  {
    hide Inherited, TableOk, Install;
    var m := Mint(s);
    ActivationIsThreeSteps(s, q, stream);
    InstallIsTracked(m, q, s.nextSession, stream);
    InstallSeats(m, q, s.nextSession, stream);
  }

  /** Such a run from the start of the runtime: a lease of the AirPlay 2 stream taken
      before an AirPlay 1 sink is activated still reports itself current when the
      bus belongs to that other sink. */
  lemma LeaseSurvivesTheOtherSink(first: Stream, remote: Remote, second: Stream)
    requires first.upstream == Some(1) && second.upstream == Some(2)
    ensures
      var s := Ensure(Run(Initial(), Activation(Initial(), AirPlay2, first)), AirPlay2, first, Replace(remote)).0;
      var e := Run(s, Activation(s, AirPlay1, second));
      && TakeLease(s, s.owner).Some? && IsCurrent(e, TakeLease(s, s.owner).value)
      && s.owner == Some(1) && e.owner == Some(2)
  {
    var a := TakeBus(Install(Mint(Initial()), AirPlay2, 1, first), 1);
    ActivationIsThreeSteps(Initial(), AirPlay2, first);
    assert Inherited(1, first, None).id == 1;
    var s := Ensure(a, AirPlay2, first, Replace(remote)).0;
    LeaseAfterMilestone(a, first, remote);
    ActivationIsThreeSteps(s, AirPlay1, second);
    InstallIsTracked(Mint(s), AirPlay1, s.nextSession, second);
  }

  lemma LeaseAfterMilestone(a: Status, stream: Stream, remote: Remote)
    requires a.upstream == map[AirPlay2 := 1] && stream.upstream == Some(1) && a.owner == Some(1) && a.remotes == map[]
    requires a.sessions.Keys == {AirPlay2} && a.sessions[AirPlay2].id == 1 && a.nextSession == 2
    ensures
      var s := Ensure(a, AirPlay2, stream, Replace(remote)).0;
      && s.owner == Some(1) && s.remotes.Keys == {AirPlay2} && s.remotes[AirPlay2].sessionId == 1
      && s.nextSession == 2
  {
    hide NewSession, Bumped;
  }

  // ----- session ids -----

  /** Handed out, and in use neither by the table nor by a sink about to enter it. */
  ghost predicate Retired(s: Status, id: nat)
  {
    id < s.nextSession && !Names(s, id) && id !in s.minted
  }

  ghost predicate NoNewNames(s: Status, r: Status, id: nat)
  {
    Names(r, id) ==> Names(s, id)
  }

  lemma NamesFrom(s: Status, r: Status, p: Protocol, id: nat)
    requires forall q :: q in r.sessions && q != p ==> q in s.sessions && r.sessions[q].id == s.sessions[q].id
    requires p in r.sessions && r.sessions[p].id == id ==> p in s.sessions && s.sessions[p].id == id
    ensures NoNewNames(s, r, id)
  {
  }

  lemma AdoptNamesNobody(s: Status, p: Protocol, upstream: nat, id: nat)
    ensures NoNewNames(s, Adopt(s, p, upstream), id)
    ensures Adopt(s, p, upstream).nextSession == s.nextSession && Adopt(s, p, upstream).minted == s.minted
  {
  }

  lemma PutNamesOnlyNew(s: Status, p: Protocol, stream: Stream, id: nat)
    requires id < s.nextSession
    ensures NoNewNames(s, PutSession(s, p, stream), id)
  {
  }

  lemma EnsureNamesNobody(s: Status, p: Protocol, stream: Stream, update: RemoteUpdate, id: nat)
    requires id < s.nextSession
    ensures NoNewNames(s, Ensure(s, p, stream, update).0, id)
    ensures s.nextSession <= Ensure(s, p, stream, update).0.nextSession
    ensures Ensure(s, p, stream, update).0.minted == s.minted
  {
    hide Adopt, NewSession, Names;
    if !(stream.upstream.Some? && Refuses(s, p, stream.upstream.value)) {
      if stream.upstream.Some? { AdoptNamesNobody(s, p, stream.upstream.value, id); }
      var t := if stream.upstream.Some? then Adopt(s, p, stream.upstream.value) else s;
      PutNamesOnlyNew(t, p, stream, id);
      PutRemoteKeepsNames(PutSession(t, p, stream), p, update, id);
    }
  }

  lemma PutRemoteKeepsNames(s: Status, p: Protocol, update: RemoteUpdate, id: nat)
    requires p in s.sessions
    ensures NoNewNames(s, PutRemote(s, p, update), id)
  {
  }

  lemma InstallNamesOnly(s: Status, p: Protocol, seated: nat, stream: Stream, id: nat)
    requires id != seated
    ensures NoNewNames(s, Install(s, p, seated, stream), id)
  {
  }

  lemma UpdatesNameNobody(s: Status, a: Action, id: nat)
    requires a.DoVolume? || a.DoEdit? || a.DoArtwork? || a.DoEndSink?
    ensures NoNewNames(s, Step(s, a), id)
  {
    hide ImageType, NextVolumeRevision, Binds, VolumeRevision, Bumped, Names, NoNewNames;
    match a
    case DoVolume(p, upstream, revision, db) => NamesFrom(s, UpdateVolume(s, p, upstream, revision, db).0, p, id);
    case DoEdit(p, upstream, edit) => NamesFrom(s, UpdateSession(s, p, upstream, edit).0, p, id);
    case DoArtwork(p, upstream, contentType, data) =>
      NamesFrom(s, UpdateArtwork(s, p, upstream, contentType, data).0, p, id);
    case DoEndSink(p, ended) => NamesFrom(s, EndSink(s, p, ended).0, p, id);
  }

  lemma StepKeepsRetired(s: Status, a: Action, id: nat)
    requires Retired(s, id)
    ensures Retired(Step(s, a), id)
  {
    hide Ensure, Install, UpdateVolume, UpdateSession, UpdateArtwork, EndSink, Names;
    match a
    case DoEnsure(p, stream, update) => EnsureNamesNobody(s, p, stream, update, id);
    case DoInstall(p, seated, stream) =>
      if seated in s.minted { InstallNamesOnly(s, p, seated, stream, id); }
      InstallKeepsCount(s, p, seated, stream);
    case DoVolume(_, _, _, _) => UpdatesNameNobody(s, a, id); UpdatesKeepCount(s, a);
    case DoEdit(_, _, _) => UpdatesNameNobody(s, a, id); UpdatesKeepCount(s, a);
    case DoArtwork(_, _, _, _) => UpdatesNameNobody(s, a, id); UpdatesKeepCount(s, a);
    case DoEndSink(_, _) => UpdatesNameNobody(s, a, id); UpdatesKeepCount(s, a);
    case _ => SameNames(s, a, id);
  }

  lemma SameNames(s: Status, a: Action, id: nat)
    requires a.DoSetPhase? || a.DoMint? || a.DoTakeBus? || a.DoReleaseBus? || a.DoEndUpstream? || a.DoReceiver?
    ensures NoNewNames(s, Step(s, a), id)
  {
  }

  lemma UpdatesKeepCount(s: Status, a: Action)
    requires a.DoVolume? || a.DoEdit? || a.DoArtwork? || a.DoEndSink?
    ensures Step(s, a).nextSession == s.nextSession && Step(s, a).minted == s.minted
    ensures Step(s, a).installed == s.installed && Step(s, a).owner == s.owner
  {
  }

  lemma InstallKeepsCount(s: Status, p: Protocol, id: nat, stream: Stream)
    ensures Install(s, p, id, stream).nextSession == s.nextSession
    ensures Install(s, p, id, stream).minted == s.minted - {id}
    ensures Install(s, p, id, stream).owner == s.owner && Install(s, p, id, stream).installed == s.installed + {id}
  {
  }

  /** An id that left the table never comes back to it, whatever is called. */
  lemma {:induction false} RetiredIdsStayRetired(s: Status, actions: seq<Action>, id: nat)
    requires Retired(s, id)
    ensures Retired(Run(s, actions), id)
    decreases |actions|
  {
    hide Retired, Step;
    if actions != [] {
      StepKeepsRetired(s, actions[0], id);
      RetiredIdsStayRetired(Step(s, actions[0]), actions[1..], id);
    }
  }

  /** Off the table, off the bus, and with no sink on its way to the bus. */
  ghost predicate Gone(s: Status, id: nat)
  {
    Retired(s, id) && id !in s.installed && s.owner != Some(id)
  }

  lemma StepKeepsGone(s: Status, a: Action, id: nat)
    requires Gone(s, id)
    ensures Gone(Step(s, a), id)
  {
    hide Names, Ensure, Install, UpdateVolume, UpdateSession, UpdateArtwork, EndSink;
    StepKeepsRetired(s, a, id);
    match a
    case DoEnsure(p, stream, update) => EnsureKeepsFlight(s, p, stream, update);
    case DoInstall(p, seated, stream) => InstallKeepsCount(s, p, seated, stream);
    case DoVolume(_, _, _, _) => UpdatesKeepCount(s, a);
    case DoEdit(_, _, _) => UpdatesKeepCount(s, a);
    case DoArtwork(_, _, _, _) => UpdatesKeepCount(s, a);
    case DoEndSink(_, _) => UpdatesKeepCount(s, a);
    case _ =>
  }

  lemma EnsureKeepsFlight(s: Status, p: Protocol, stream: Stream, update: RemoteUpdate)
    ensures Ensure(s, p, stream, update).0.installed == s.installed && Ensure(s, p, stream, update).0.owner == s.owner
  {
  }

  lemma {:induction false} RunKeepsGone(s: Status, actions: seq<Action>, id: nat)
    requires Gone(s, id)
    ensures Gone(Run(s, actions), id)
    decreases |actions|
  {
    hide Gone, Step;
    if actions != [] {
      StepKeepsGone(s, actions[0], id);
      RunKeepsGone(Step(s, actions[0]), actions[1..], id);
    }
  }

  lemma RetiredNamesNothing(s: Status, id: nat)
    requires TableOk(s) && !Names(s, id)
    ensures RemoteOf(s, id).None?
    ensures !(s.receiver.Some? && s.receiver.value.sessionId == id)
    ensures forall p :: p in s.artwork ==> s.artwork[p].sessionId != id
  {
    assert EntryOk(s, AirPlay1) && EntryOk(s, AirPlay2);
    forall p | p in s.artwork ensures s.artwork[p].sessionId != id { assert EntryOk(s, p); }
  }

  /** Once the locked part of ending a sink is done, no lease, artwork or receiver
      channel is granted for it again, even while the bus still carries its id;
      and after the bus is released it never owns the bus again. */
  lemma EndedSinkNeverReturns(s: Status, p: Protocol, id: nat, between: seq<Action>, later: seq<Action>)
    requires TableOk(s) && EndSink(s, p, id).1 && id !in s.installed
    ensures
      var m := Run(EndSink(s, p, id).0, between);
      var e := Run(ReleaseBus(m, id), later);
      && TakeLease(m, Some(id)).None? && (m.receiver.Some? ==> m.receiver.value.sessionId != id)
      && Gone(e, id) && e.owner != Some(id) && TakeLease(e, Some(id)).None?
  {
    var r := EndSink(s, p, id).0;
    EndSinkRetires(s, p, id);
    EndSinkKeepsTable(s, p, id);
    RunKeepsTable(r, between);
    RunKeepsUninstalled(r, between, id);
    var m := Run(r, between);
    RetiredNamesNothing(m, id);
    BusKeepsTable(m, id);
    ReleaseFinishes(m, id);
    RunKeepsGone(ReleaseBus(m, id), later, id);
    RunKeepsTable(ReleaseBus(m, id), later);
    RetiredNamesNothing(Run(ReleaseBus(m, id), later), id);
  }

  lemma EndSinkRetires(s: Status, p: Protocol, id: nat)
    requires TableOk(s) && EndSink(s, p, id).1
    ensures Retired(EndSink(s, p, id).0, id)
  {
    assert EntryOk(s, p);
  }

  lemma ReleaseFinishes(s: Status, id: nat)
    requires Retired(s, id) && id !in s.installed
    ensures Gone(ReleaseBus(s, id), id)
  {
  }

  lemma StepKeepsUninstalled(s: Status, a: Action, id: nat)
    requires Retired(s, id) && id !in s.installed
    ensures id !in Step(s, a).installed
  {
    hide Names, Ensure, Install, UpdateVolume, UpdateSession, UpdateArtwork, EndSink;
    match a
    case DoEnsure(p, stream, update) => EnsureKeepsFlight(s, p, stream, update);
    case DoInstall(p, seated, stream) => InstallKeepsCount(s, p, seated, stream);
    case DoVolume(_, _, _, _) => UpdatesKeepCount(s, a);
    case DoEdit(_, _, _) => UpdatesKeepCount(s, a);
    case DoArtwork(_, _, _, _) => UpdatesKeepCount(s, a);
    case DoEndSink(_, _) => UpdatesKeepCount(s, a);
    case _ =>
  }

  lemma {:induction false} RunKeepsUninstalled(s: Status, actions: seq<Action>, id: nat)
    requires Retired(s, id) && id !in s.installed
    ensures Retired(Run(s, actions), id) && id !in Run(s, actions).installed
    decreases |actions|
  {
    hide Retired, Step;
    if actions != [] {
      StepKeepsRetired(s, actions[0], id);
      StepKeepsUninstalled(s, actions[0], id);
      RunKeepsUninstalled(Step(s, actions[0]), actions[1..], id);
    }
  }
}
