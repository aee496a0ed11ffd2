/** The numbering of sender volume commands: a command is identified by the id of
    its session and its revision, and revisions start again whenever the stream's
    volume entry is dropped. */
module SessionVolumes {
  import opened Prelude
  import opened SessionTable
  import opened SessionProof
  import opened SessionProperties
  import opened SessionMessages

  /** An accepted volume command comes from the stream that owns the bus, and its
      revision is above the previous one except when an unnumbered command meets
      the largest revision. */
  lemma AcceptedVolumeAdvances(s: Status, p: Protocol, upstream: Option<nat>, revision: Option<nat>, db: Decibels)
    requires VolumeRevision(s, p) <= U64_MAX && UpdateVolume(s, p, upstream, revision, db).1.Some?
    ensures
      var (r, id) := UpdateVolume(s, p, upstream, revision, db);
      && s.owner == id && Binds(s, p, upstream) && p in r.sessions && r.sessions[p].id == id.value
      && db.Finite? && r.sessions[p].volume == Some(db.value)
      && VolumeRevision(s, p) <= VolumeRevision(r, p) && VolumeRevision(r, p) > 0
      && (VolumeRevision(s, p) < VolumeRevision(r, p) <==> !(revision.None? && VolumeRevision(s, p) == U64_MAX))
      && (revision.Some? ==> VolumeRevision(r, p) == revision.value)
  {
  }

  /** A volume command is accepted exactly when it is a finite level from the bound
      stream of the session on the bus, and unnumbered or numbered above what came
      before; one that is not accepted changes nothing, one that is sets the level. */
  lemma VolumeIsAcceptedExactly(s: Status, p: Protocol, upstream: Option<nat>, revision: Option<nat>, db: Decibels)
    ensures
      var (r, id) := UpdateVolume(s, p, upstream, revision, db);
      && (id.Some? <==>
            && db.Finite? && (upstream.Some? ==> p in s.upstream && s.upstream[p] == upstream.value)
            && p in s.sessions && s.owner == Some(s.sessions[p].id)
            && (revision.Some? ==> revision.value > (if p in s.volumes then s.volumes[p] else 0)))
      && (id.None? ==> r == s)
      && (id.Some? ==>
            && p in r.volumes && r == s.(sessions := r.sessions, volumes := s.volumes[p := r.volumes[p]])
            && r.sessions == s.sessions[p := s.sessions[p].(volume := Some(db.value))]
            && r.volumes[p] == if revision.Some? then revision.value
                               else if VolumeRevision(s, p) == U64_MAX then U64_MAX else VolumeRevision(s, p) + 1)
  {
  }

  // ----- which calls drop the numbering -----

  /** The calls that drop the volume entry of p, by the guards they check: stopping
      or failing, a newer stream that is not refused, the sink of another stream,
      the end of p's sink and the end of its stream. */
  predicate DropsVolume(s: Status, a: Action, p: Protocol)
  {
    match a
    case DoSetPhase(phase, _) => phase.Stopped? || phase.Failed?
    case DoEnsure(q, stream, _) =>
      && q == p && stream.upstream.Some? && !Refuses(s, p, stream.upstream.value)
      && p in s.upstream && s.upstream[p] < stream.upstream.value
    case DoInstall(q, id, stream) => q == p && id in s.minted && !Binds(s, p, stream.upstream)
    case DoEndSink(q, id) => q == p && p in s.sessions && s.sessions[p].id == id
    case DoEndUpstream(q, _) => q == p && EndsStream(s, a, p)
    case _ => false
  }

  /** The one way to lose the numbering and keep the session. */
  predicate EndsStream(s: Status, a: Action, p: Protocol)
  {
    a.DoEndUpstream? && a.p == p && Binds(s, p, Some(a.ended))
  }

  ghost predicate MovesExactly(s: Status, r: Status, p: Protocol, drops: bool)
  {
    if drops then VolumeRevision(r, p) == 0 else VolumeRevision(s, p) <= VolumeRevision(r, p)
  }

  lemma EnsureMovesVolume(s: Status, a: Action, p: Protocol)
    requires a.DoEnsure?
    ensures MovesExactly(s, Step(s, a), p, DropsVolume(s, a, p))
  {
    hide PutSession, PutRemote, Refuses;
    if !(a.stream.upstream.Some? && Refuses(s, a.p, a.stream.upstream.value)) {
      var t := if a.stream.upstream.Some? then Adopt(s, a.p, a.stream.upstream.value) else s;
      PutsKeepUpstream(t, a.p, a.stream, a.remote);
    }
  }

  lemma InstallMovesVolume(s: Status, a: Action, p: Protocol)
    requires a.DoInstall?
    ensures MovesExactly(s, Step(s, a), p, DropsVolume(s, a, p))
  {
    hide Inherited, SelectOnly;
  }

  lemma OthersMoveVolume(s: Status, a: Action, p: Protocol)
    requires !a.DoEnsure? && !a.DoInstall?
    ensures MovesExactly(s, Step(s, a), p, DropsVolume(s, a, p))
  {
    hide Edited, ImageType;
  }

  /** A revision falls exactly when there is one and the call drops it, and then the
      numbering starts again from nothing. */
  lemma VolumeFallsExactly(s: Status, a: Action, p: Protocol)
    ensures VolumeRevision(Step(s, a), p) < VolumeRevision(s, p) <==> VolumeRevision(s, p) > 0 && DropsVolume(s, a, p)
    ensures DropsVolume(s, a, p) ==> VolumeRevision(Step(s, a), p) == 0
  {
    hide Step, DropsVolume, VolumeRevision;
    if a.DoEnsure? {
      EnsureMovesVolume(s, a, p);
    } else if a.DoInstall? {
      InstallMovesVolume(s, a, p);
    } else {
      OthersMoveVolume(s, a, p);
    }
  }

  // ----- numbering over a run -----

  /** No call of the run drops the volume entry of p. */
  ghost predicate KeepsNumbering(s: Status, actions: seq<Action>, p: Protocol)
    decreases |actions|
  {
    actions != [] ==> !DropsVolume(s, actions[0], p) && KeepsNumbering(Step(s, actions[0]), actions[1..], p)
  }

  /** Revisions are 64-bit words. */
  ghost predicate Numbers64(actions: seq<Action>)
  {
    forall i :: 0 <= i < |actions| && actions[i].DoVolume? && actions[i].revision.Some? ==>
      actions[i].revision.value <= U64_MAX
  }

  lemma StepKeepsWidth(s: Status, a: Action, p: Protocol)
    requires VolumeRevision(s, p) <= U64_MAX && (a.DoVolume? && a.revision.Some? ==> a.revision.value <= U64_MAX)
    ensures VolumeRevision(Step(s, a), p) <= U64_MAX
  {
    hide PutSession, PutRemote, Refuses, ImageType, Edited, Inherited, SelectOnly;
    if a.DoEnsure? && !(a.stream.upstream.Some? && Refuses(s, a.p, a.stream.upstream.value)) {
      var t := if a.stream.upstream.Some? then Adopt(s, a.p, a.stream.upstream.value) else s;
      PutsKeepUpstream(t, a.p, a.stream, a.remote);
    }
  }

  /** Along a run without such a call the revision of p never falls. */
  lemma {:induction false} VolumeRevisionsNeverFall(s: Status, actions: seq<Action>, p: Protocol)
    requires KeepsNumbering(s, actions, p) && Numbers64(actions) && VolumeRevision(s, p) <= U64_MAX
    ensures VolumeRevision(s, p) <= VolumeRevision(Run(s, actions), p) <= U64_MAX
    decreases |actions|
  {
    hide Step, DropsVolume, VolumeRevision;
    if actions != [] {
      VolumeFallsExactly(s, actions[0], p);
      StepKeepsWidth(s, actions[0], p);
      VolumeRevisionsNeverFall(Step(s, actions[0]), actions[1..], p);
    }
  }

  datatype Command = Command(upstream: Option<nat>, revision: Option<nat>, db: Decibels)

  /** The state and the answer after a volume command of p. */
  function Commanded(s: Status, p: Protocol, c: Command): (Status, Option<nat>)
  {
    UpdateVolume(s, p, c.upstream, c.revision, c.db)
  }

  predicate Fits(c: Command) { c.revision.Some? ==> c.revision.value <= U64_MAX }

  /** Two accepted commands of p without such a call in between: the later one has
      the higher revision, except exactly when it is unnumbered and the largest
      revision was already given out. */
  lemma CommandsAreNumberedUpwards(s: Status, p: Protocol, first: Command, between: seq<Action>, second: Command)
    requires VolumeRevision(s, p) <= U64_MAX && Fits(first) && Fits(second) && Numbers64(between)
    requires Commanded(s, p, first).1.Some? && KeepsNumbering(Commanded(s, p, first).0, between, p)
    requires Commanded(Run(Commanded(s, p, first).0, between), p, second).1.Some?
    ensures
      var t := Commanded(s, p, first).0;
      var r := Commanded(Run(t, between), p, second).0;
      VolumeRevision(t, p) < VolumeRevision(r, p) <==> !(second.revision.None? && VolumeRevision(t, p) == U64_MAX)
  {
    hide UpdateVolume, Run, KeepsNumbering, Numbers64, VolumeRevision;
    var t := Commanded(s, p, first).0;
    AcceptedVolumeFits(s, p, first);
    AcceptedVolumeAdvances(s, p, first.upstream, first.revision, first.db);
    VolumeRevisionsNeverFall(t, between, p);
    AcceptedVolumeAdvances(Run(t, between), p, second.upstream, second.revision, second.db);
    AcceptedVolumeFits(Run(t, between), p, second);
  }

  lemma AcceptedVolumeFits(s: Status, p: Protocol, c: Command)
    requires VolumeRevision(s, p) <= U64_MAX && Fits(c)
    ensures VolumeRevision(Commanded(s, p, c).0, p) <= U64_MAX
  {
  }

  // ----- command identities -----

  predicate HasSession(s: Status, p: Protocol, id: nat) { p in s.sessions && s.sessions[p].id == id }

  /** No call of the run ends the stream that p is bound to at that point. */
  ghost predicate KeepsStream(s: Status, actions: seq<Action>, p: Protocol)
    decreases |actions|
  {
    actions != [] ==> !EndsStream(s, actions[0], p) && KeepsStream(Step(s, actions[0]), actions[1..], p)
  }

  /** Every other call that drops the numbering replaces or removes the session. */
  lemma OnlyEndsKeepSession(s: Status, a: Action, p: Protocol, id: nat)
    requires TableOk(s) && HasSession(s, p, id) && DropsVolume(s, a, p) && !EndsStream(s, a, p)
    ensures !HasSession(Step(s, a), p, id)
  {
    assert EntryOk(s, p);
  }

  predicate HandedOut(s: Status, id: nat) { id < s.nextSession && id !in s.minted }

  lemma EnsureKeepsPlace(s: Status, a: Action, q: Protocol, id: nat)
    requires a.DoEnsure? && HandedOut(s, id)
    ensures HandedOut(Step(s, a), id) && (HasSession(Step(s, a), q, id) ==> HasSession(s, q, id))
  {
    hide Refuses, Adopt, PutSession, PutRemote;
    if !(a.stream.upstream.Some? && Refuses(s, a.p, a.stream.upstream.value)) {
      AdoptFlags(s, a.p, a.stream.upstream);
      var t := if a.stream.upstream.Some? then Adopt(s, a.p, a.stream.upstream.value) else s;
      PutFlags(t, a.p, a.stream);
      EnsureNamesNobody(s, a.p, a.stream, a.remote, id);
      PutInstalls(t, a.p, a.stream);
      PutRemoteInstalls(PutSession(t, a.p, a.stream), a.p, a.remote);
      if q != a.p { EnsureLeavesOthers(s, a.p, a.stream, a.remote, q); }
    }
  }

  lemma OthersKeepPlace(s: Status, a: Action, q: Protocol, id: nat)
    requires !a.DoEnsure? && HandedOut(s, id)
    ensures HandedOut(Step(s, a), id) && (HasSession(Step(s, a), q, id) ==> HasSession(s, q, id))
  {
    hide ImageType, NextVolumeRevision, Bumped;
  }

  /** Ids are never moved to another protocol or handed out again. */
  lemma StepKeepsPlace(s: Status, a: Action, q: Protocol, id: nat)
    requires HandedOut(s, id)
    ensures HandedOut(Step(s, a), id) && (HasSession(Step(s, a), q, id) ==> HasSession(s, q, id))
  {
    if a.DoEnsure? { EnsureKeepsPlace(s, a, q, id); } else { OthersKeepPlace(s, a, q, id); }
  }

  lemma LostIsRetired(s: Status, a: Action, p: Protocol, id: nat)
    requires TableOk(s) && HasSession(s, p, id) && !HasSession(Step(s, a), p, id)
    ensures Retired(Step(s, a), id)
  {
    hide Step;
    assert EntryOk(s, p);
    StepKeepsPlace(s, a, p, id);
    forall q | q in Step(s, a).sessions
      ensures Step(s, a).sessions[q].id != id
    {
      StepKeepsPlace(s, a, q, id);
    }
  }

  lemma {:induction false} SameSessionKeepsNumbering(s: Status, actions: seq<Action>, p: Protocol, id: nat)
    requires TableOk(s) && HasSession(s, p, id) && HasSession(Run(s, actions), p, id) && KeepsStream(s, actions, p)
    ensures KeepsNumbering(s, actions, p)
    decreases |actions|
  {
    hide TableOk, Retired, Step, DropsVolume, EndsStream, HasSession;
    if actions != [] {
      var t := Step(s, actions[0]);
      if !HasSession(t, p, id) {
        LostIsRetired(s, actions[0], p, id);
        RetiredIdsStayRetired(t, actions[1..], id);
        RetiredHasNoSession(Run(t, actions[1..]), p, id);
        assert false;
      }
      if DropsVolume(s, actions[0], p) {
        OnlyEndsKeepSession(s, actions[0], p, id);
        assert false;
      }
      StepKeepsTable(s, actions[0]);
      SameSessionKeepsNumbering(t, actions[1..], p, id);
    }
  }

  lemma RetiredHasNoSession(s: Status, p: Protocol, id: nat)
    requires Retired(s, id)
    ensures !HasSession(s, p, id)
  {
  }

  /** A command is identified by its session and its revision. Two commands accepted
      for one session, whatever happened in between as long as no call ended the
      stream bound at that point: the later one has the higher revision, except
      exactly when it is unnumbered and the largest revision was given out. */
  lemma IdentitiesAdvance(s: Status, p: Protocol, first: Command, between: seq<Action>, second: Command)
    requires TableOk(s) && VolumeRevision(s, p) <= U64_MAX && Fits(first) && Fits(second) && Numbers64(between)
    requires Commanded(s, p, first).1.Some? && KeepsStream(Commanded(s, p, first).0, between, p)
    requires Commanded(Run(Commanded(s, p, first).0, between), p, second).1 == Commanded(s, p, first).1
    ensures
      var t := Commanded(s, p, first).0;
      var r := Commanded(Run(t, between), p, second).0;
      VolumeRevision(t, p) < VolumeRevision(r, p) <==> !(second.revision.None? && VolumeRevision(t, p) == U64_MAX)
  {
    hide Run, KeepsNumbering, KeepsStream, Numbers64, VolumeRevision, TableOk, Commanded, Fits;
    var (t, id) := Commanded(s, p, first);
    AcceptedSpeaksForSession(s, p, first);
    AcceptedSpeaksForSession(Run(t, between), p, second);
    SameSessionKeepsNumbering(t, between, p, id.value);
    CommandsAreNumberedUpwards(s, p, first, between, second);
  }

  lemma AcceptedSpeaksForSession(s: Status, p: Protocol, c: Command)
    requires Commanded(s, p, c).1.Some?
    ensures HasSession(s, p, Commanded(s, p, c).1.value)
    ensures HasSession(Commanded(s, p, c).0, p, Commanded(s, p, c).1.value)
    ensures TableOk(s) ==> TableOk(Commanded(s, p, c).0)
  {
    hide TableOk;
    if TableOk(s) { VolumeKeepsTable(s, p, c.upstream, c.revision, c.db); }
  }

  // ----- when an identity is used twice -----

  /** After the end of the stream on the bus, a new stream of the same protocol is
      given the same session, and its commands are accepted with any revision but
      zero: every revision of the ended stream comes again under the same id. */
  lemma EndedStreamRestartsNumbering(
    s: Status, p: Protocol, current: nat, stream: Stream, update: RemoteUpdate, c: Command)
    requires Binds(s, p, Some(current)) && p in s.sessions && s.owner == Some(s.sessions[p].id)
    requires stream.upstream.Some? && c.upstream == stream.upstream && c.db.Finite?
    requires forall q :: q in s.upstream && q != p ==> s.upstream[q] < stream.upstream.value
    ensures
      var m := Run(s, [DoEndUpstream(p, current), DoEnsure(p, stream, update)]);
      var (r, id) := Commanded(m, p, c);
      && (id.Some? <==> c.revision != Some(0))
      && (id.Some? ==>
            && id == Some(s.sessions[p].id)
            && VolumeRevision(r, p) == if c.revision.Some? then c.revision.value else 1)
  {
    hide Run, Ensure, Refuses;
    var ended := EndUpstream(s, p, current);
    RunTwo(s, DoEndUpstream(p, current), DoEnsure(p, stream, update));
    EndedStreamRefusesNobody(s, p, current, stream.upstream.value);
    AcceptedEnsureInstalls(ended, p, stream, update);
    EnsureStartsNoVolume(ended, p, stream, update);
  }

  lemma EndedStreamRefusesNobody(s: Status, p: Protocol, current: nat, next: nat)
    requires Binds(s, p, Some(current)) && forall q :: q in s.upstream && q != p ==> s.upstream[q] < next
    ensures !Refuses(EndUpstream(s, p, current), p, next)
  {
  }

  lemma EnsureStartsNoVolume(s: Status, p: Protocol, stream: Stream, update: RemoteUpdate)
    requires p !in s.volumes
    ensures VolumeRevision(Ensure(s, p, stream, update).0, p) == 0
  {
    hide PutSession, PutRemote, Refuses;
    if !(stream.upstream.Some? && Refuses(s, p, stream.upstream.value)) {
      PutsKeepUpstream(if stream.upstream.Some? then Adopt(s, p, stream.upstream.value) else s, p, stream, update);
    }
  }

  /** From the start of the runtime: a sink on the bus, command 7 of its stream, the
      end of that stream, the milestone of the next one, and its command 7. Both
      are accepted for session 1 with revision 7. */
  lemma CommandIdentityRepeats(first: Stream, second: Stream, update: RemoteUpdate, x: real, y: real)
    requires first.upstream == Some(1) && second.upstream == Some(2)
    ensures
      var s := TakeBus(Install(Mint(Initial()), AirPlay2, 1, first), 1);
      var (t, one) := Commanded(s, AirPlay2, Command(Some(1), Some(7), Finite(x)));
      var m := Run(t, [DoEndUpstream(AirPlay2, 1), DoEnsure(AirPlay2, second, update)]);
      var (r, two) := Commanded(m, AirPlay2, Command(Some(2), Some(7), Finite(y)));
      && s == Step(Step(Step(Initial(), DoMint), DoInstall(AirPlay2, 1, first)), DoTakeBus(1))
      && one == two == Some(1) && VolumeRevision(t, AirPlay2) == VolumeRevision(r, AirPlay2) == 7
  {
    hide Run, Inherited;
    assert Inherited(1, first, None).id == 1;
    var s := TakeBus(Install(Mint(Initial()), AirPlay2, 1, first), 1);
    var t := Commanded(s, AirPlay2, Command(Some(1), Some(7), Finite(x))).0;
    EndedStreamRestartsNumbering(t, AirPlay2, 1, second, update, Command(Some(2), Some(7), Finite(y)));
  }

  /** From the start of the runtime: a sink on the bus, a command numbered with the
      largest revision, then an unnumbered one. Both are accepted; the revision is
      the same. */
  lemma LargestRevisionRepeats(stream: Stream, first: real, second: real)
    requires stream.upstream == Some(1)
    ensures
      var s := TakeBus(Install(Mint(Initial()), AirPlay2, 1, stream), 1);
      var (t, one) := UpdateVolume(s, AirPlay2, Some(1), Some(U64_MAX), Finite(first));
      var (u, two) := UpdateVolume(t, AirPlay2, Some(1), None, Finite(second));
      && s == Step(Step(Step(Initial(), DoMint), DoInstall(AirPlay2, 1, stream)), DoTakeBus(1))
      && one == two == Some(1) && VolumeRevision(t, AirPlay2) == VolumeRevision(u, AirPlay2) == U64_MAX
  {
    hide Inherited;
    assert Inherited(1, stream, None).id == 1;
  }
}
