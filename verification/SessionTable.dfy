/** The receiver's session state: what the status lock protects, the two lease
    revisions and the bus owner, and one pure operation per critical section.
    A sink is activated in three separate steps (mint an id, install it under
    the lock, take the bus after the lock), so other calls can fall in between. */
module SessionTable {
  import opened Prelude

  datatype Protocol = AirPlay1 | AirPlay2

  datatype Phase = Starting | Listening | Stopped | Failed

  datatype Session = Session(
    id: nat, peer: Option<string>, rate: nat, channels: nat, paused: bool, volume: Option<real>,
    title: Option<string>, artist: Option<string>, album: Option<string>,
    artworkRevision: Option<nat>, artworkType: Option<string>,
    elapsed: Option<nat>, duration: Option<nat>, started: nat, selected: bool)

  /** DACP bearer capability of a sender. */
  datatype Remote = Remote(sessionId: nat, peer: string, dacpId: string, token: string)

  datatype Artwork = Artwork(sessionId: nat, revision: nat, contentType: string, data: seq<bv8>)

  /** Event channel a sender offers for receiver-originated volume. */
  datatype ReceiverControl = ReceiverControl(sessionId: nat, channel: nat)

  /** A watch message about the remote capability: keep, clear or replace it. */
  datatype RemoteUpdate = Keep | Clear | Replace(remote: Remote)

  datatype Decibels = Finite(value: real) | NotFinite

  datatype Edit =
    | EditMetadata(title: Option<string>, artist: Option<string>, album: Option<string>)
    | EditProgress(elapsed: Option<nat>, duration: Option<nat>)
    | EditPaused(paused: bool)

  /** What a sink callback or a session milestone reports about a stream. */
  datatype Stream = Stream(upstream: Option<nat>, rate: nat, channels: nat, peer: Option<string>, now: nat)

  /** `minted` are ids reserved but not yet installed, `installed` are ids whose
      sink has not taken the bus yet. Revisions count changes since the start. */
  datatype Status = Status(
    phase: Phase, lastError: Option<string>,
    sessions: map<Protocol, Session>, remotes: map<Protocol, Remote>, upstream: map<Protocol, nat>,
    volumes: map<Protocol, nat>, artwork: map<Protocol, Artwork>, receiver: Option<ReceiverControl>,
    nextSession: nat, nextArtwork: nat, remoteRevision: nat, receiverRevision: nat,
    owner: Option<nat>, minted: set<nat>, installed: set<nat>)

  function Initial(): Status
  {
    Status(Starting, None, map[], map[], map[], map[], map[], None, 1, 1, 1, 1, None, {}, {})
  }

  // ----- operations -----

  function Bumped(revision: nat, changed: bool): nat { if changed then revision + 1 else revision }

  predicate Binds(s: Status, p: Protocol, upstream: Option<nat>)
  {
    upstream.Some? ==> p in s.upstream && s.upstream[p] == upstream.value
  }

  /** Forget everything a stream of protocol p left behind, and the receiver control. */
  function DropStream(s: Status, p: Protocol): Status
  {
    s.(sessions := s.sessions - {p}, volumes := s.volumes - {p}, artwork := s.artwork - {p},
       remotes := s.remotes - {p}, remoteRevision := Bumped(s.remoteRevision, p in s.remotes),
       receiver := None, receiverRevision := Bumped(s.receiverRevision, s.receiver.Some?))
  }

  function SetPhase(s: Status, phase: Phase, error: Option<string>): Status
  {
    var t := s.(phase := phase, lastError := error);
    if phase.Stopped? || phase.Failed? then
      t.(sessions := map[], upstream := map[], volumes := map[], artwork := map[],
         remotes := map[], remoteRevision := Bumped(s.remoteRevision, s.remotes != map[]),
         receiver := None, receiverRevision := Bumped(s.receiverRevision, s.receiver.Some?))
    else t
  }

  /** A stream id is stale, or would replace the session that feeds the bus. */
  predicate Refuses(s: Status, p: Protocol, upstream: nat)
  {
    || (exists q :: q in s.upstream && q != p && s.upstream[q] >= upstream)
    || (p in s.upstream && upstream < s.upstream[p])
    || (p in s.upstream && upstream > s.upstream[p] && p in s.sessions && s.owner == Some(s.sessions[p].id))
  }

  function Adopt(s: Status, p: Protocol, upstream: nat): Status
  {
    var t := if p in s.upstream && upstream > s.upstream[p] then DropStream(s, p) else s;
    t.(upstream := t.upstream[p := upstream])
  }

  function NewSession(id: nat, stream: Stream): Session
  {
    Session(id, stream.peer, stream.rate, stream.channels, false, None, None, None, None, None, None, None, None,
            stream.now, false)
  }

  /** A session as a milestone leaves it: new format, a peer if one was reported,
      and flagged when it has the bus or nobody has. */
  function Refreshed(found: Session, stream: Stream, owner: Option<nat>): (r: Session)
    ensures r.id == found.id
  {
    found.(rate := stream.rate, channels := stream.channels,
           peer := if stream.peer.Some? then stream.peer else found.peer,
           selected := owner.None? || owner == Some(found.id))
  }

  function PutSession(s: Status, p: Protocol, stream: Stream): Status
  {
    var found := if p in s.sessions then s.sessions[p] else NewSession(s.nextSession, stream);
    s.(sessions := s.sessions[p := Refreshed(found, stream, s.owner)],
       nextSession := if p in s.sessions then s.nextSession else s.nextSession + 1)
  }

  function PutRemote(s: Status, p: Protocol, update: RemoteUpdate): Status
    requires p in s.sessions
  {
    match update
    case Keep => s
    case Clear => s.(remotes := s.remotes - {p}, remoteRevision := Bumped(s.remoteRevision, p in s.remotes))
    case Replace(remote) =>
      var bound := remote.(sessionId := s.sessions[p].id);
      s.(remotes := s.remotes[p := bound],
         remoteRevision := Bumped(s.remoteRevision, !(p in s.remotes && s.remotes[p] == bound)))
  }

  function Ensure(s: Status, p: Protocol, stream: Stream, update: RemoteUpdate): (Status, Option<Session>)
  {
    if stream.upstream.Some? && Refuses(s, p, stream.upstream.value) then (s, None)
    else
      var t := PutSession(if stream.upstream.Some? then Adopt(s, p, stream.upstream.value) else s, p, stream);
      (PutRemote(t, p, update), Some(t.sessions[p]))
  }

  function Mint(s: Status): Status
  {
    s.(nextSession := s.nextSession + 1, minted := s.minted + {s.nextSession})
  }

  function Inherited(id: nat, stream: Stream, previous: Option<Session>): (r: Session)
    ensures r.id == id && r.selected && !r.paused
  {
    var blank := NewSession(id, stream).(selected := true);
    match previous
    case None => blank
    case Some(last) =>
      last.(id := id, peer := if stream.peer.Some? then stream.peer else last.peer, rate := stream.rate,
            channels := stream.channels, paused := false, started := stream.now, selected := true)
  }

  function SelectOnly(sessions: map<Protocol, Session>, id: nat): map<Protocol, Session>
  {
    map p | p in sessions :: sessions[p].(selected := sessions[p].id == id)
  }

  /** The sink callback decides which stream id protocol p has, older or newer. */
  function Rebind(s: Status, p: Protocol, upstream: Option<nat>): Status
  {
    if Binds(s, p, upstream) then s else DropStream(s, p).(upstream := s.upstream[p := upstream.value])
  }

  function Seat(s: Status, p: Protocol, id: nat, stream: Stream): Status
  {
    var session := Inherited(id, stream, if p in s.sessions then Some(s.sessions[p]) else None);
    s.(sessions := SelectOnly(s.sessions[p := session], id),
       artwork := if p in s.artwork then s.artwork[p := s.artwork[p].(sessionId := id)] else s.artwork,
       remotes := if p in s.remotes then s.remotes[p := s.remotes[p].(sessionId := id)] else s.remotes,
       remoteRevision := Bumped(s.remoteRevision, p in s.remotes),
       receiver := if s.receiver.Some? then Some(s.receiver.value.(sessionId := id)) else None,
       receiverRevision := Bumped(s.receiverRevision, s.receiver.Some?),
       minted := s.minted - {id}, installed := s.installed + {id})
  }

  /** The locked part of activating a sink under the minted id. */
  function Install(s: Status, p: Protocol, id: nat, stream: Stream): Status
  {
    Seat(Rebind(s, p, stream.upstream), p, id, stream)
  }

  function TakeBus(s: Status, id: nat): Status { s.(owner := Some(id), installed := s.installed - {id}) }

  function ReleaseBus(s: Status, id: nat): Status { if s.owner == Some(id) then s.(owner := None) else s }

  function NextVolumeRevision(previous: nat, revision: Option<nat>): Option<nat>
  {
    match revision
    case Some(r) => if r == 0 || r <= previous then None else Some(r)
    case None => Some(if previous == U64_MAX then U64_MAX else previous + 1)
  }

  function VolumeRevision(s: Status, p: Protocol): nat { if p in s.volumes then s.volumes[p] else 0 }

  function UpdateVolume(s: Status, p: Protocol, upstream: Option<nat>, revision: Option<nat>, db: Decibels)
    : (Status, Option<nat>)
  {
    if db.NotFinite? || !Binds(s, p, upstream) || p !in s.sessions || s.owner != Some(s.sessions[p].id) then (s, None)
    else
      match NextVolumeRevision(VolumeRevision(s, p), revision)
      case None => (s, None)
      case Some(r) =>
        (s.(sessions := s.sessions[p := s.sessions[p].(volume := Some(db.value))], volumes := s.volumes[p := r]),
         Some(s.sessions[p].id))
  }

  function Edited(session: Session, edit: Edit): Session
  {
    match edit
    case EditMetadata(title, artist, album) => session.(title := title, artist := artist, album := album)
    case EditProgress(elapsed, duration) => session.(elapsed := elapsed, duration := duration)
    case EditPaused(paused) => session.(paused := paused)
  }

  function UpdateSession(s: Status, p: Protocol, upstream: Option<nat>, edit: Edit): (Status, Option<nat>)
  {
    if !Binds(s, p, upstream) || p !in s.sessions then (s, None)
    else (s.(sessions := s.sessions[p := Edited(s.sessions[p], edit)]), Some(s.sessions[p].id))
  }

  function Lower(text: string): (r: string)
    ensures |r| == |text|
  {
    seq(|text|, i requires 0 <= i < |text| =>
      if 'A' <= text[i] <= 'Z' then ((text[i] as int) + 32) as char else text[i])
  }

  function ImageType(contentType: string, data: seq<bv8>): Option<string>
  {
    if data != [] && Lower(contentType) in {"image/jpeg", "image/png"} then Some(Lower(contentType)) else None
  }

  function UpdateArtwork(s: Status, p: Protocol, upstream: Option<nat>, contentType: string, data: seq<bv8>)
    : (Status, Option<(nat, nat)>)
  {
    if !Binds(s, p, upstream) || p !in s.sessions then (s, None)
    else
      var id, revision, kept := s.sessions[p].id, s.nextArtwork, ImageType(contentType, data);
      var session := s.sessions[p].(artworkRevision := Some(revision), artworkType := kept);
      (s.(nextArtwork := revision + 1, sessions := s.sessions[p := session],
          artwork := if kept.Some? then s.artwork[p := Artwork(id, revision, kept.value, data)] else s.artwork - {p}),
       Some((id, revision)))
  }

  /** The locked part of ending a sink; the bus is released afterwards. */
  function EndSink(s: Status, p: Protocol, id: nat): (Status, bool)
  {
    if p !in s.sessions || s.sessions[p].id != id then (s, false)
    else
      var named := s.receiver.Some? && s.receiver.value.sessionId == id;
      (s.(sessions := s.sessions - {p}, volumes := s.volumes - {p}, artwork := s.artwork - {p},
          upstream := s.upstream - {p},
          remotes := s.remotes - {p}, remoteRevision := Bumped(s.remoteRevision, p in s.remotes),
          receiver := if named then None else s.receiver, receiverRevision := Bumped(s.receiverRevision, named)),
       true)
  }

  function EndUpstream(s: Status, p: Protocol, upstream: nat): Status
  {
    if !Binds(s, p, Some(upstream)) then s
    else
      var named := s.receiver.Some? && p in s.sessions && s.receiver.value.sessionId == s.sessions[p].id;
      s.(volumes := s.volumes - {p}, artwork := s.artwork - {p}, upstream := s.upstream - {p},
         remotes := s.remotes - {p}, remoteRevision := Bumped(s.remoteRevision, p in s.remotes),
         receiver := if named then None else s.receiver, receiverRevision := Bumped(s.receiverRevision, named))
  }

  function SetReceiver(s: Status, p: Protocol, upstream: nat, channel: Option<nat>): Status
  {
    if !Binds(s, p, Some(upstream)) || p !in s.sessions || s.owner != Some(s.sessions[p].id) then s
    else
      var next := if channel.Some? then Some(ReceiverControl(s.sessions[p].id, channel.value)) else None;
      s.(receiver := next, receiverRevision := Bumped(s.receiverRevision, s.receiver != next))
  }

  // ----- the machine -----

  datatype Action =
    | DoSetPhase(phase: Phase, error: Option<string>)
    | DoEnsure(p: Protocol, stream: Stream, remote: RemoteUpdate)
    | DoMint
    | DoInstall(p: Protocol, id: nat, stream: Stream)
    | DoTakeBus(id: nat)
    | DoReleaseBus(id: nat)
    | DoVolume(p: Protocol, upstream: Option<nat>, revision: Option<nat>, db: Decibels)
    | DoEdit(p: Protocol, upstream: Option<nat>, edit: Edit)
    | DoArtwork(p: Protocol, upstream: Option<nat>, contentType: string, data: seq<bv8>)
    | DoEndSink(p: Protocol, id: nat)
    | DoEndUpstream(p: Protocol, ended: nat)
    | DoReceiver(p: Protocol, bound: nat, channel: Option<nat>)

  function Step(s: Status, a: Action): Status
  {
    match a
    case DoSetPhase(phase, error) => SetPhase(s, phase, error)
    case DoEnsure(p, stream, remote) => Ensure(s, p, stream, remote).0
    case DoMint => Mint(s)
    case DoInstall(p, id, stream) => if id in s.minted then Install(s, p, id, stream) else s
    case DoTakeBus(id) => if id in s.installed then TakeBus(s, id) else s
    case DoReleaseBus(id) => ReleaseBus(s, id)
    case DoVolume(p, upstream, revision, db) => UpdateVolume(s, p, upstream, revision, db).0
    case DoEdit(p, upstream, edit) => UpdateSession(s, p, upstream, edit).0
    case DoArtwork(p, upstream, contentType, data) => UpdateArtwork(s, p, upstream, contentType, data).0
    case DoEndSink(p, id) => EndSink(s, p, id).0
    case DoEndUpstream(p, ended) => EndUpstream(s, p, ended)
    case DoReceiver(p, bound, channel) => SetReceiver(s, p, bound, channel)
  }

  function Run(s: Status, actions: seq<Action>): Status
    decreases |actions|
  {
    if actions == [] then s else Run(Step(s, actions[0]), actions[1..])
  }
}
