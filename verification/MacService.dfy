/** Stopping and replacing the macOS service. Other processes start and end between
    any two observations and process ids are reused; a service is only ever
    addressed by the process id, image and start time it was captured with. */
module MacService {
  import opened Prelude

  const SIGTERM: nat := 15
  const SIGKILL: nat := 9
  const MAX_PID: nat := 0x7FFF_FFFF
  const MAX_WAIT_POLLS: nat := 30
  const LIST_ROUNDS: nat := 4
  const LIST_MARGIN: nat := 64

  /** `image` is absent when the system does not tell it. */
  datatype Process = Process(image: Option<string>, started: nat, mine: bool)

  datatype Event = Exit(pid: nat) | Launch(pid: nat, image: Option<string>, mine: bool)

  /** A delivered signal, and when the target's image was last verified. */
  datatype Signal = Signal(pid: nat, target: Process, number: nat, verifiedAt: nat)

  /** `clock` is the start time of the next process. */
  datatype World = World(table: map<nat, Process>, clock: nat, signals: seq<Signal>, spawns: nat)

  datatype Endpoint = Endpoint(pid: nat, currentVersion: bool)

  datatype Owner = Owner(endpoint: Option<Endpoint>, pid: nat, image: string, started: nat)

  datatype EndpointState = Gone | CurrentReady | CurrentUnreachable | ManagedOldReady | ManagedOldUnreachable | Foreign

  datatype Inspection = Inspection(state: EndpointState, image: Option<string>, started: Option<nat>)

  datatype Failure = Conflict | StopFailed | ListFailed | NoBinary | WrongVersion | SpawnFailed | NotReady

  datatype Outcome<T> = Ok(value: T) | Err(why: Failure)

  datatype Plan = Spawn | Keep | ReplaceVerified | Refuse

  /** Everything the service cannot decide, by the number of the observation. */
  datatype Outside = Outside(
    events: nat -> seq<Event>, verifies: (nat, string) -> bool, expected: nat -> Option<string>,
    reachable: nat -> bool, endpoint: nat -> Option<Endpoint>, tool: nat -> bool,
    polls: nat -> nat, denied: nat -> bool, listFails: nat -> bool, portAlive: nat -> bool,
    spawnFails: nat -> bool, childPid: nat -> nat, waitFails: nat -> bool)

  // ----- the world between observations -----

  function Happens(w: World, e: Event): World
  {
    match e
    case Exit(pid) => w.(table := w.table - {pid})
    case Launch(pid, image, mine) =>
      if pid in w.table then w
      else w.(table := w.table[pid := Process(image, w.clock, mine)], clock := w.clock + 1)
  }

  function Passes(w: World, events: seq<Event>): World
    decreases |events|
  {
    if events == [] then w else Passes(Happens(w, events[0]), events[1..])
  }

  ghost predicate WorldOk(w: World) { forall pid :: pid in w.table ==> w.table[pid].started < w.clock }

  /** Time went on: who runs now and started before, ran then under the same id. */
  ghost predicate Later(w: World, v: World)
  {
    && w.clock <= v.clock && w.signals <= v.signals && w.spawns <= v.spawns
    && forall pid :: pid in v.table && v.table[pid].started < w.clock ==> pid in w.table && w.table[pid] == v.table[pid]
  }

  lemma LaterTransitive(u: World, v: World, w: World)
    requires Later(u, v) && Later(v, w)
    ensures Later(u, w)
  {
  }

  lemma {:induction false} PassingIsLater(w: World, events: seq<Event>)
    requires WorldOk(w)
    ensures WorldOk(Passes(w, events)) && Later(w, Passes(w, events))
    ensures Passes(w, events).signals == w.signals && Passes(w, events).spawns == w.spawns
    decreases |events|
  {
    if events != [] {
      var v := Happens(w, events[0]);
      assert WorldOk(v) && Later(w, v);
      PassingIsLater(v, events[1..]);
      LaterTransitive(w, v, Passes(v, events[1..]));
    }
  }

  predicate Runs(w: World, o: Owner)
  {
    o.pid in w.table && w.table[o.pid].image == Some(o.image) && w.table[o.pid].started == o.started
  }

  /** The captured start lies in the past, so nothing new can carry it. */
  predicate Captured(w: World, o: Owner) { o.started < w.clock }

  predicate GoneForGood(w: World, o: Owner) { Captured(w, o) && !Runs(w, o) }

  /** An instance that ended never runs again, even when its id is reused. */
  lemma GoneStaysGone(w: World, v: World, o: Owner)
    requires Later(w, v) && GoneForGood(w, o)
    ensures GoneForGood(v, o)
  {
  }

  /** Whatever processes start and end afterwards, an instance that is gone for good
      is never found again, not even under its old process id. */
  lemma NeverSeenAgain(w: World, events: seq<Event>, o: Owner)
    requires WorldOk(w) && GoneForGood(w, o)
    ensures !Runs(Passes(w, events), o)
  {
    PassingIsLater(w, events);
    GoneStaysGone(w, Passes(w, events), o);
  }

  ghost predicate Quiet(w: World, v: World) { w.signals == v.signals && w.spawns == v.spawns }

  predicate Aimed(s: Signal, o: Owner)
  {
    s.pid == o.pid && s.target.image == Some(o.image) && s.target.started == o.started
  }

  predicate Lawful(outside: Outside, s: Signal)
  {
    s.target.mine && s.target.image.Some? && outside.verifies(s.verifiedAt, s.target.image.value)
  }

  ghost predicate OnlyAimed(w: World, v: World, outside: Outside, o: Owner)
  {
    forall i :: |w.signals| <= i < |v.signals| ==> Aimed(v.signals[i], o) && Lawful(outside, v.signals[i])
  }

  ghost predicate OnlyLawful(w: World, v: World, outside: Outside, exclude: Option<nat>)
  {
    forall i :: |w.signals| <= i < |v.signals| ==> Lawful(outside, v.signals[i]) && Some(v.signals[i].pid) != exclude
  }

  predicate Verified(state: EndpointState)
  {
    state.CurrentReady? || state.CurrentUnreachable? || state.ManagedOldReady? || state.ManagedOldUnreachable?
  }

  function ActivationPlan(state: Option<EndpointState>, restartCurrent: bool): (plan: Plan)
    ensures plan.Refuse? <==> state == Some(Foreign)
    ensures plan.Spawn? <==> state.None? || state == Some(Gone)
    ensures plan.ReplaceVerified? ==> state.Some? && Verified(state.value)
    ensures plan.Keep? <==> state == Some(CurrentReady) && !restartCurrent
  {
    match state
    case None => Spawn
    case Some(Gone) => Spawn
    case Some(Foreign) => Refuse
    case Some(CurrentReady) => if restartCurrent then ReplaceVerified else Keep
    case Some(_) => ReplaceVerified
  }

  function Classified(expected: Option<string>, image: Option<string>, managedOld: bool, reachable: bool): EndpointState
  {
    if image.Some? && image == expected then (if reachable then CurrentReady else CurrentUnreachable)
    else if image.Some? && managedOld then (if reachable then ManagedOldReady else ManagedOldUnreachable)
    else Foreign
  }

  // ----- looking at the endpoint's process -----

  function ImageIn(w: World, pid: nat): Option<string> { if pid in w.table then w.table[pid].image else None }

  function StartIn(w: World, pid: nat): Option<nat> { if pid in w.table then Some(w.table[pid].started) else None }

  /** The world at the k-th observation after now. */
  function Ahead(outside: Outside, w: World, now: nat, k: nat): World
    decreases k
  {
    if k == 0 then w else Ahead(outside, Passes(w, outside.events(now)), now + 1, k - 1)
  }

  /** An inspection beginning at observation `now`: image, start time, reachability
      and, if needed, verification, one after the other. */
  function Inspected(outside: Outside, w: World, now: nat, e: Endpoint): Inspection
  {
    var image, started := ImageIn(Ahead(outside, w, now, 1), e.pid), StartIn(Ahead(outside, w, now, 2), e.pid);
    var reachable := outside.reachable(now + 2);
    if image.None? && e.pid !in Ahead(outside, w, now, 3).table && !reachable then Inspection(Gone, None, None)
    else
      var managedOld := image.Some? && outside.verifies(now + 3, image.value);
      Inspection(Classified(outside.expected(now), image, managedOld, reachable), image, started)
  }

  /** The endpoint's process is there or its port answers, and its image is neither
      the installed service nor any verified one. */
  predicate IsStranger(outside: Outside, w: World, now: nat, e: Endpoint)
  {
    var image := ImageIn(Ahead(outside, w, now, 1), e.pid);
    && (image.Some? || e.pid in Ahead(outside, w, now, 3).table || outside.reachable(now + 2))
    && (image.Some? ==> image != outside.expected(now) && !outside.verifies(now + 3, image.value))
  }

  /** An endpoint is foreign exactly when its process is a stranger, gone exactly when
      nothing is left of it, and ready only when its port answers for the image. */
  lemma InspectionIsExact(outside: Outside, w: World, now: nat, e: Endpoint)
    ensures
      var r, image := Inspected(outside, w, now, e), ImageIn(Ahead(outside, w, now, 1), e.pid);
      && (r.state.Foreign? <==> IsStranger(outside, w, now, e))
      && (r.state.Gone? <==>
            image.None? && e.pid !in Ahead(outside, w, now, 3).table && !outside.reachable(now + 2))
      && (r.state.CurrentReady? || r.state.CurrentUnreachable? <==> image.Some? && image == outside.expected(now))
      && (Verified(r.state) ==>
            && r.image == image && r.started == StartIn(Ahead(outside, w, now, 2), e.pid)
            && (r.state.CurrentReady? || r.state.ManagedOldReady? <==> outside.reachable(now + 2)))
      && (Verified(r.state) ==>
            image.Some? && (image == outside.expected(now) || outside.verifies(now + 3, image.value)))
  {
    hide Ahead;
  }

  /** The state an endpoint read at this moment would be found in. */
  function StateAt(outside: Outside, w: World, now: nat): Option<EndpointState>
  {
    match outside.endpoint(now) case None => None case Some(e) => Some(Inspected(outside, w, now, e).state)
  }

  /** What activation decides: nothing without an installed service, else by the
      endpoint as it is one observation later. */
  function PlanAt(outside: Outside, w: World, now: nat, restartCurrent: bool): Option<Plan>
  {
    if outside.expected(now).None? then None
    else Some(ActivationPlan(StateAt(outside, Ahead(outside, w, now, 1), now + 1), restartCurrent))
  }

  /** An endpoint that speaks this program's protocol version. */
  function Compatible(e: Option<Endpoint>): Option<Endpoint>
  {
    if e.Some? && e.value.currentVersion then e else None
  }

  /** Nothing compatible is there when the service is about to be started. */
  predicate NothingThere(outside: Outside, w: World, now: nat)
  {
    var e := outside.endpoint(now);
    e.Some? && e.value.currentVersion ==> Inspected(outside, w, now, e.value).state.Gone?
  }

  predicate ReadyThere(outside: Outside, w: World, now: nat)
  {
    var e := outside.endpoint(now);
    e.Some? && e.value.currentVersion && Inspected(outside, w, now, e.value).state.CurrentReady?
  }

  /** A start is possible: no live service of another version has the endpoint, there
      is an installed service, and the system starts it under an id not in use. */
  predicate CanStart(outside: Outside, w: World, at: nat)
  {
    var e := outside.endpoint(at);
    && !(e.Some? && !e.value.currentVersion && outside.portAlive(at))
    && outside.expected(at).Some? && !outside.spawnFails(at) && outside.childPid(at) !in w.table
  }

  /** A start is possible one observation after the second look at the endpoint. */
  predicate MayStart(outside: Outside, w: World, now: nat)
  {
    var e := outside.endpoint(now);
    var k := if e.Some? && e.value.currentVersion then 4 else 1;
    CanStart(outside, Ahead(outside, w, now, k), now + k)
  }

  // ----- why stopping may fail -----

  /** The last two signals were SIGTERM and then SIGKILL, both to this instance. */
  predicate BothSent(v: World, o: Owner)
  {
    var n := |v.signals|;
    && n >= 2 && v.signals[n - 2].number == 15 && v.signals[n - 1].number == 9
    && Aimed(v.signals[n - 2], o) && Aimed(v.signals[n - 1], o)
  }

  /** Why an instance was not stopped: it ended while its identity was being checked,
      it is not this user's, its image did not verify or a signal was denied at some
      moment, or it outlived both signals. */
  ghost predicate Unstoppable(outside: Outside, from: nat, until: nat, v: World, o: Owner)
  {
    || GoneForGood(v, o)
    || !(0 < o.pid <= 0x7FFF_FFFF && o.pid in v.table && v.table[o.pid].mine)
    || (exists k :: from <= k <= until && !outside.verifies(k, o.image))
    || (exists k :: from <= k <= until && outside.denied(k))
    || (Runs(v, o) && BothSent(v, o))
  }

  /** Why a listing failed: the system refused one, listed nothing, or more than the
      first buffer and three doublings hold. */
  ghost predicate Unlistable(outside: Outside, from: nat, until: nat, seen: World)
  {
    || (exists k :: from <= k <= until && outside.listFails(k))
    || |seen.table.Keys| == 0 || |seen.table.Keys| >= 512
  }

  /** Why the endpoint's process was not captured. */
  ghost predicate Uncapturable(outside: Outside, from: nat, until: nat, v: World, e: Endpoint, inspection: Inspection)
  {
    || !Verified(inspection.state) || inspection.image.None? || inspection.started.None?
    || (exists k :: from <= k <= until && !outside.verifies(k, inspection.image.value))
    || !(0 < e.pid <= 0x7FFF_FFFF && e.pid in v.table && v.table[e.pid].mine)
  }

  /** A service answers at the endpoint as this very instance. */
  predicate AnswersAs(inspection: Inspection, o: Owner)
  {
    && (inspection.state.CurrentReady? || inspection.state.ManagedOldReady?)
    && inspection.image == Some(o.image) && inspection.started == Some(o.started)
  }

  datatype Trouble =
    | Listing(seen: World)
    | Stopping(o: Owner)
    | Capturing(e: Endpoint, inspection: Inspection)

  ghost predicate Justified(outside: Outside, from: nat, until: nat, v: World, trouble: Trouble)
  {
    match trouble
    case Listing(seen) => Unlistable(outside, from, until, seen)
    case Stopping(o) => Unstoppable(outside, from, until, v, o)
    case Capturing(e, inspection) => Uncapturable(outside, from, until, v, e, inspection)
  }

  lemma JustifiedEarlier(outside: Outside, from: nat, earlier: nat, until: nat, v: World, trouble: Trouble)
    requires Justified(outside, from, until, v, trouble) && earlier <= from
    ensures Justified(outside, earlier, until, v, trouble)
  {
  }

  lemma UnstoppableEarlier(outside: Outside, earlier: nat, from: nat, until: nat, v: World, o: Owner)
    requires Unstoppable(outside, from, until, v, o) && earlier <= from
    ensures Unstoppable(outside, earlier, until, v, o)
  {
  }

  lemma Outlived(outside: Outside, from: nat, until: nat, v: World, o: Owner)
    requires Runs(v, o) && BothSent(v, o)
    ensures Unstoppable(outside, from, until, v, o)
  {
  }

  /** At most SIGTERM and then SIGKILL were sent. */
  ghost predicate InOrder(w: World, v: World)
  {
    && |w.signals| <= |v.signals| <= |w.signals| + 2
    && (|v.signals| > |w.signals| ==> v.signals[|w.signals|].number == 15)
    && (|v.signals| > |w.signals| + 1 ==> v.signals[|w.signals| + 1].number == 9)
  }

  /** At some moment of a wait: the started child ran, and the endpoint read then named
      its process and was found ready. */
  predicate ChildAnswers(outside: Outside, child: Owner, seen: World, at: nat)
  {
    var e := outside.endpoint(at);
    && Runs(seen, child) && e.Some? && e.value.currentVersion && e.value.pid == child.pid
    && Inspected(outside, seen, at, e.value).state.CurrentReady?
  }

  /** At some moment of a wait a ready service under another id had the endpoint. */
  predicate AnotherAnswers(outside: Outside, child: Owner, seen: World, at: nat)
  {
    var e := outside.endpoint(at);
    && e.Some? && e.value.currentVersion && e.value.pid != child.pid
    && Inspected(outside, seen, at, e.value).state.CurrentReady?
  }

  /** The child a start brought up, and the moment that decided how the wait for it ended. */
  datatype Wait = Wait(child: Owner, seen: World, at: nat)

  /** The only way a started service counts as started. */
  ghost predicate StartedWell(outside: Outside, w: World, v: World, wait: Wait)
  {
    && Later(w, wait.seen) && Later(wait.seen, v) && wait.child.started >= w.clock
    && ChildAnswers(outside, wait.child, wait.seen, wait.at)
  }

  class Service {
    const outside: Outside
    var world: World
    var now: nat

    ghost predicate Valid()
      reads this
    {
      WorldOk(world)
    }

    constructor (outside: Outside, world: World)
      requires WorldOk(world)
      ensures Valid() && this.world == world && this.outside == outside
    {
      this.outside, this.world, now := outside, world, 0;
    }

    /** Whatever else the machine does before the next observation. */
    method Yield()
      requires Valid()
      modifies this
      ensures Valid() && Later(old(world), world) && Quiet(old(world), world) && now == old(now) + 1
      ensures world == Passes(old(world), outside.events(old(now)))
    {
      PassingIsLater(world, outside.events(now));
      world := Passes(world, outside.events(now));
      now := now + 1;
    }

    // ----- identity -----

    method ImageOf(pid: nat) returns (image: Option<string>)
      requires Valid()
      modifies this
      ensures Valid() && Later(old(world), world) && Quiet(old(world), world) && now == old(now) + 1
      ensures image == ImageIn(world, pid) && world == Passes(old(world), outside.events(old(now)))
    {
      Yield();
      image := if pid in world.table then world.table[pid].image else None;
    }

    method StartOf(pid: nat) returns (started: Option<nat>)
      requires Valid()
      modifies this
      ensures Valid() && Later(old(world), world) && Quiet(old(world), world) && now == old(now) + 1
      ensures started == StartIn(world, pid) && world == Passes(old(world), outside.events(old(now)))
      ensures started.Some? ==> started.value < world.clock
    {
      Yield();
      started := if pid in world.table then Some(world.table[pid].started) else None;
    }

    method OwnedByMe(pid: nat) returns (mine: bool)
      requires Valid()
      modifies this
      ensures Valid() && Later(old(world), world) && Quiet(old(world), world) && now == old(now) + 1
      ensures mine <==> 0 < pid <= MAX_PID && pid in world.table && world.table[pid].mine
    {
      Yield();
      mine := 0 < pid <= MAX_PID && pid in world.table && world.table[pid].mine;
    }

    /** Two observations, image then start time, that agree exactly when the captured
        instance runs; when they disagree it is gone for good. */
    method StillRunning(o: Owner) returns (running: bool)
      requires Valid() && Captured(world, o)
      modifies this
      ensures Valid() && Later(old(world), world) && Quiet(old(world), world) && now > old(now)
      ensures if running then Runs(world, o) && now == old(now) + 2 else GoneForGood(world, o)
    {
      ghost var before := world;
      var image := ImageOf(o.pid);
      ghost var middle := world;
      if image != Some(o.image) {
        return false;
      }
      var started := StartOf(o.pid);
      LaterTransitive(before, middle, world);
      running := started == Some(o.started);
    }

    /** Polls until the instance is gone or the time is up, then looks once more. */
    method WaitForExit(o: Owner) returns (exited: bool)
      requires Valid() && Captured(world, o)
      modifies this
      ensures Valid() && Later(old(world), world) && Quiet(old(world), world) && now > old(now)
      ensures if exited then GoneForGood(world, o) else Runs(world, o)
    {
      var left := outside.polls(now) % (MAX_WAIT_POLLS + 1);
      var running := StillRunning(o);
      while running && left > 0
        invariant Valid() && Later(old(world), world) && Quiet(old(world), world) && now > old(now)
        invariant Captured(world, o)
        decreases left
      {
        ghost var before := world;
        running := StillRunning(o);
        LaterTransitive(old(world), before, world);
        left := left - 1;
      }
      ghost var last := world;
      running := StillRunning(o);
      LaterTransitive(old(world), last, world);
      exited := !running;
    }

    /** The last identity check and the signal, as one step. */
    method CheckAndKill(o: Owner, number: nat, verifiedAt: nat) returns (running: bool, sent: bool)
      requires Valid() && Captured(world, o)
      modifies this
      ensures Valid() && Later(old(world), world) && world.spawns == old(world).spawns && now > old(now)
      ensures running <==> Runs(world, o)
      ensures running && !sent ==> outside.denied(now)
      ensures sent ==> running && world.signals == old(world).signals
                                    + [Signal(o.pid, world.table[o.pid], number, verifiedAt)]
      ensures !sent ==> world.signals == old(world).signals
    {
      Yield();
      running := Runs(world, o);
      sent := running && !outside.denied(now);
      if sent {
        world := world.(signals := world.signals + [Signal(o.pid, world.table[o.pid], number, verifiedAt)]);
      }
    }

    /** Sends one signal to the captured instance, after verifying it all over. */
    method SignalOwner(o: Owner, number: nat) returns (r: Outcome<()>)
      requires Valid() && Captured(world, o)
      modifies this
      ensures Valid() && Later(old(world), world) && world.spawns == old(world).spawns && now > old(now)
      ensures OnlyAimed(old(world), world, outside, o)
      ensures if r.Ok? && !Quiet(old(world), world)
              then |world.signals| == |old(world).signals| + 1 && world.signals[|old(world).signals|].number == number
              else Quiet(old(world), world)
      ensures r.Ok? && Quiet(old(world), world) ==> GoneForGood(world, o)
      ensures r.Err? ==> Unstoppable(outside, old(now), now, world, o)
    {
      var running := StillRunning(o);
      if !running {
        return Ok(());
      }
      ghost var first := world;
      var verifiedAt := now;
      var verified := outside.verifies(now, o.image);
      var mine := OwnedByMe(o.pid);
      LaterTransitive(old(world), first, world);
      if !verified || !mine {
        return Err(Conflict);
      }
      ghost var second := world;
      var same, sent := CheckAndKill(o, number, verifiedAt);
      LaterTransitive(old(world), second, world);
      if !same {
        return Err(Conflict);
      }
      if sent {
        return Ok(());
      }
      r := Err(StopFailed);
    }

    // ----- stopping one instance -----

    /** What the endpoint file's process turns out to be. */
    method Inspect(e: Endpoint) returns (r: Inspection)
      requires Valid()
      modifies this
      ensures Valid() && Later(old(world), world) && Quiet(old(world), world) && now == old(now) + 3
      ensures r == Inspected(outside, old(world), old(now), e) && world == Ahead(outside, old(world), old(now), 3)
      ensures r.started.Some? ==> r.started.value < world.clock
    {
      hide Ahead, Passes, Later, WorldOk, Classified;
      AheadUnrolls(outside, world, now);
      var expected := outside.expected(now);
      var image := ImageOf(e.pid);
      ghost var first := world;
      var started := StartOf(e.pid);
      LaterTransitive(old(world), first, world);
      ghost var second := world;
      var reachable := outside.reachable(now);
      Yield();
      LaterTransitive(old(world), second, world);
      if image.None? && e.pid !in world.table && !reachable {
        return Inspection(Gone, None, None);
      }
      var managedOld := image.Some? && outside.verifies(now, image.value);
      r := Inspection(Classified(expected, image, managedOld, reachable), image, started);
    }

    /** Asks the captured service to end itself, if its endpoint is still the one
        captured and answers for the same instance. */
    method AskToEnd(o: Owner) returns (requested: bool)
      requires Valid() && Captured(world, o)
      modifies this
      ensures Valid() && Later(old(world), world) && Quiet(old(world), world) && now >= old(now)
      ensures requested <==>
        && o.endpoint.Some? && o.endpoint.value.currentVersion && outside.endpoint(old(now)) == o.endpoint
        && AnswersAs(Inspected(outside, old(world), old(now), o.endpoint.value), o) && outside.tool(old(now) + 3)
    {
      hide Inspected;
      if o.endpoint.None? || !o.endpoint.value.currentVersion || outside.endpoint(now) != o.endpoint {
        return false;
      }
      var inspection := Inspect(o.endpoint.value);
      var ready := (inspection.state.CurrentReady? || inspection.state.ManagedOldReady?)
        && inspection.image == Some(o.image) && inspection.started == Some(o.started);
      requested := ready && outside.tool(now);
      if requested {
        ghost var before := world;
        Yield();
        LaterTransitive(old(world), before, world);
      }
    }

    /** Signals once and waits. */
    method SignalAndWait(o: Owner, number: nat) returns (r: Outcome<bool>)
      requires Valid() && Captured(world, o)
      modifies this
      ensures Valid() && Later(old(world), world) && world.spawns == old(world).spawns && now > old(now)
      ensures OnlyAimed(old(world), world, outside, o)
      ensures r == Ok(true) ==> GoneForGood(world, o)
      ensures r == Ok(false) ==> Runs(world, o)
      ensures if r.Ok? && !Quiet(old(world), world)
              then |world.signals| == |old(world).signals| + 1 && world.signals[|old(world).signals|].number == number
              else Quiet(old(world), world)
      ensures r == Ok(false) ==> !Quiet(old(world), world)
      ensures r.Err? ==> Unstoppable(outside, old(now), now, world, o)
    {
      var signalled := SignalOwner(o, number);
      if signalled.Err? {
        return Err(signalled.why);
      }
      ghost var before := world;
      var exited := WaitForExit(o);
      LaterTransitive(old(world), before, world);
      r := Ok(exited);
    }

    /** SIGTERM, then SIGKILL if that was not enough. */
    method SignalUntilGone(o: Owner) returns (r: Outcome<()>)
      requires Valid() && Captured(world, o)
      modifies this
      ensures Valid() && Later(old(world), world) && world.spawns == old(world).spawns && now > old(now)
      ensures OnlyAimed(old(world), world, outside, o) && InOrder(old(world), world)
      ensures if r.Ok? then GoneForGood(world, o) else Unstoppable(outside, old(now), now, world, o)
    {
      hide Unstoppable, WorldOk, Lawful;
      var polite := SignalAndWait(o, SIGTERM);
      if polite.Err? {
        return Err(polite.why);
      }
      if polite.value {
        return Ok(());
      }
      ghost var first, since := world, now;
      var forced := SignalAndWait(o, SIGKILL);
      LaterTransitive(old(world), first, world);
      if forced.Err? {
        UnstoppableEarlier(outside, old(now), since, now, world, o);
        return Err(forced.why);
      }
      if forced.value {
        return Ok(());
      }
      Outlived(outside, old(now), now, world, o);
      r := Err(StopFailed);
    }

    /** Ends the captured instance: by request, then SIGTERM, then SIGKILL. */
    method StopOwner(o: Owner) returns (r: Outcome<()>)
      requires Valid() && Captured(world, o)
      modifies this
      ensures Valid() && Later(old(world), world) && world.spawns == old(world).spawns && now > old(now)
      ensures OnlyAimed(old(world), world, outside, o) && InOrder(old(world), world)
      ensures if r.Ok? then GoneForGood(world, o) else Unstoppable(outside, old(now), now, world, o)
    {
      hide Unstoppable, WorldOk;
      var running := StillRunning(o);
      if !running {
        return Ok(());
      }
      ghost var first := world;
      var requested := AskToEnd(o);
      LaterTransitive(old(world), first, world);
      if requested {
        ghost var second := world;
        var exited := WaitForExit(o);
        LaterTransitive(old(world), second, world);
        if exited {
          return Ok(());
        }
      }
      ghost var third, since := world, now;
      r := SignalUntilGone(o);
      LaterTransitive(old(world), third, world);
      if r.Err? { UnstoppableEarlier(outside, old(now), since, now, world, o); }
    }

    // ----- listing processes -----

    /** Fills a buffer with process ids in some order, as many as fit. */
    method ListAll(capacity: nat) returns (failed: bool, pids: seq<nat>)
      requires Valid()
      modifies this
      ensures Valid() && Later(old(world), world) && Quiet(old(world), world) && now > old(now)
      ensures failed ==> outside.listFails(now)
      ensures !failed ==> |pids| == Min(|world.table.Keys|, capacity) && forall p :: p in pids ==> p in world.table
      ensures !failed && |pids| < capacity ==> forall p :: p in world.table ==> p in pids
    {
      Yield();
      failed, pids := outside.listFails(now), [];
      var rest := world.table.Keys;
      while rest != {} && |pids| < capacity
        invariant rest <= world.table.Keys && |pids| <= capacity
        invariant |pids| + |rest| == |world.table.Keys|
        invariant forall p :: p in pids <==> p in world.table.Keys - rest
        decreases rest
      {
        var p :| p in rest;
        pids := pids + [p];
        rest := rest - {p};
      }
    }

    /** The process count, which is stale as soon as it is known. */
    method CountAll() returns (count: int)
      requires Valid()
      modifies this
      ensures Valid() && Later(old(world), world) && Quiet(old(world), world) && now > old(now)
      ensures count == if outside.listFails(now) then -1 else |world.table.Keys|
    {
      Yield();
      count := if outside.listFails(now) then -1 else |world.table.Keys|;
    }

    /** Every process id, from one listing that left room in the buffer. */
    method AllPids() returns (r: Outcome<seq<nat>>, ghost seen: World)
      requires Valid()
      modifies this
      ensures Valid() && Later(old(world), world) && Quiet(old(world), world) && now > old(now)
      ensures Later(old(world), seen) && Later(seen, world) && WorldOk(seen)
      ensures if r.Ok? then forall p :: p in r.value <==> p in seen.table && p > 0
              else Unlistable(outside, old(now), now, seen)
    {
      var estimate := CountAll();
      seen := world;
      if estimate <= 0 {
        return Err(ListFailed), seen;
      }
      var capacity: nat := estimate + LIST_MARGIN;
      var round := 0;
      while round < LIST_ROUNDS
        invariant 0 <= round <= LIST_ROUNDS && capacity >= LIST_MARGIN
        invariant round == 1 ==> capacity >= 2 * LIST_MARGIN
        invariant round == 2 ==> capacity >= 4 * LIST_MARGIN
        invariant round == 3 ==> capacity >= 8 * LIST_MARGIN
        invariant round == 4 ==> |seen.table.Keys| >= 8 * LIST_MARGIN
        invariant if round == 0 then capacity == |seen.table.Keys| + LIST_MARGIN else capacity <= 2 * |seen.table.Keys|
        invariant Valid() && Later(old(world), world) && Quiet(old(world), world) && now > old(now)
        invariant seen == world
      {
        if capacity * 4 > 0x7FFF_FFFF {
          return Err(ListFailed), seen;
        }
        ghost var before := world;
        var error, pids := ListAll(capacity);
        LaterTransitive(old(world), before, world);
        seen := world;
        if error {
          return Err(ListFailed), seen;
        }
        if |pids| < capacity {
          return Ok(Positive(pids)), seen;
        }
        capacity := capacity * 2;
        round := round + 1;
      }
      r := Err(ListFailed);
    }

    // ----- stopping everything that is verified -----

    /** Captures process pid if it is this user's verified service. */
    method CaptureProcess(pid: nat, exclude: Option<nat>) returns (o: Option<Owner>)
      requires Valid()
      modifies this
      ensures Valid() && Later(old(world), world) && Quiet(old(world), world) && now >= old(now)
      ensures o.Some? ==>
        Captured(world, o.value) && o.value.endpoint.None? && o.value.pid == pid && exclude != Some(pid)
      ensures exclude != Some(pid) ==> forall image, started :: Trusted(outside, old(world), pid, image, started) ==>
        o == Some(Owner(None, pid, image, started)) || GoneForGood(world, Owner(None, pid, image, started))
    {
      if exclude == Some(pid) {
        return None;
      }
      var mine := OwnedByMe(pid);
      if !mine {
        return None;
      }
      ghost var first := world;
      var image := ImageOf(pid);
      LaterTransitive(old(world), first, world);
      if image.None? || !outside.verifies(now, image.value) {
        return None;
      }
      ghost var second := world;
      var started := StartOf(pid);
      LaterTransitive(old(world), second, world);
      if started.None? {
        return None;
      }
      o := Some(Owner(None, pid, image.value, started.value));
    }

    /** Captures every verified service of this user but the excluded one. Each one
        that ran when the processes were listed is captured or gone for good. */
    method ScanOwners(exclude: Option<nat>) returns (r: Outcome<seq<Owner>>, ghost seen: World)
      requires Valid()
      modifies this
      ensures Valid() && Later(old(world), world) && Quiet(old(world), world) && now > old(now)
      ensures Later(old(world), seen) && Later(seen, world) && WorldOk(seen)
      ensures r.Ok? ==> forall o :: o in r.value ==> Captured(world, o) && exclude != Some(o.pid)
      ensures if r.Ok? then Settled(outside, seen, world, exclude, r.value, seen.table.Keys)
              else Unlistable(outside, old(now), now, seen)
    {
      hide Unlistable;
      var pids;
      pids, seen := AllPids();
      if pids.Err? {
        return Err(pids.why), seen;
      }
      var owners: seq<Owner> := [];
      var i := 0;
      while i < |pids.value|
        invariant 0 <= i <= |pids.value|
        invariant Valid() && Later(old(world), world) && Quiet(old(world), world) && now > old(now)
        invariant Later(seen, world)
        invariant forall o :: o in owners ==> Captured(world, o) && exclude != Some(o.pid)
        invariant Settled(outside, seen, world, exclude, owners, Members(pids.value[..i]))
      {
        ghost var before, had := world, owners;
        var o := CaptureProcess(pids.value[i], exclude);
        if o.Some? {
          owners := owners + [o.value];
        }
        LaterTransitive(old(world), before, world);
        LaterTransitive(seen, before, world);
        SettledGrows(outside, seen, before, world, exclude, had, owners, Members(pids.value[..i]), pids.value[i], o);
        assert Members(pids.value[..i + 1]) == Members(pids.value[..i]) + {pids.value[i]};
        i := i + 1;
      }
      assert pids.value[..i] == pids.value;
      SettledAll(outside, seen, world, exclude, owners, Members(pids.value));
      r := Ok(owners);
    }

    /** Stops the captured services one after the other. */
    method StopAll(owners: seq<Owner>, exclude: Option<nat>) returns (r: Outcome<()>, ghost left: Owner)
      requires Valid() && forall o :: o in owners ==> Captured(world, o) && exclude != Some(o.pid)
      modifies this
      ensures Valid() && Later(old(world), world) && world.spawns == old(world).spawns && now >= old(now)
      ensures OnlyLawful(old(world), world, outside, exclude)
      ensures if r.Ok? then forall k :: 0 <= k < |owners| ==> GoneForGood(world, owners[k])
              else Unstoppable(outside, old(now), now, world, left)
      ensures owners == [] ==> Quiet(old(world), world)
    {
      hide Unstoppable;
      LaterItself(world);
      left := Owner(None, 0, "", 0);
      var i := 0;
      while i < |owners|
        invariant 0 <= i <= |owners|
        invariant Valid() && Later(old(world), world) && world.spawns == old(world).spawns && now >= old(now)
        invariant OnlyLawful(old(world), world, outside, exclude) && (i == 0 ==> Quiet(old(world), world))
        invariant forall k :: 0 <= k < i ==> GoneForGood(world, owners[k])
      {
        ghost var before, since := world, now;
        var o := owners[i];
        assert o in owners;
        var stopped := StopOwner(o);
        LaterTransitive(old(world), before, world);
        LawfulGrows(old(world), before, world, outside, exclude, o);
        if stopped.Err? {
          UnstoppableEarlier(outside, old(now), since, now, world, o);
          return Err(stopped.why), o;
        }
        forall k | 0 <= k < i ensures GoneForGood(world, owners[k]) {
          GoneStaysGone(before, world, owners[k]);
        }
        i := i + 1;
      }
      r := Ok(());
    }

    /** Stops every verified service of this user but the excluded one. */
    method StopScanned(exclude: Option<nat>) returns (r: Outcome<nat>, ghost seen: World, ghost trouble: Trouble)
      requires Valid()
      modifies this
      ensures Valid() && Later(old(world), world) && world.spawns == old(world).spawns && now > old(now)
      ensures OnlyLawful(old(world), world, outside, exclude)
      ensures Later(old(world), seen) && Later(seen, world)
      ensures if r.Ok? then Settled(outside, seen, world, exclude, [], seen.table.Keys)
              else Justified(outside, old(now), now, world, trouble)
      ensures r == Ok(0) ==> Quiet(old(world), world)
    {
      hide Unlistable, Unstoppable;
      var owners;
      owners, seen := ScanOwners(exclude);
      trouble := Listing(seen);
      if owners.Err? {
        return Err(owners.why), seen, trouble;
      }
      ghost var scanned, since := world, now;
      var stopped;
      ghost var left;
      stopped, left := StopAll(owners.value, exclude);
      LaterTransitive(old(world), scanned, world);
      LaterTransitive(seen, scanned, world);
      if stopped.Err? {
        UnstoppableEarlier(outside, old(now), since, now, world, left);
        return Err(stopped.why), seen, Stopping(left);
      }
      AllSettled(outside, seen, scanned, world, exclude, owners.value);
      r := Ok(|owners.value|);
    }

    // ----- the transactions -----

    /** Captures the endpoint's process, refusing anything but a verified service. */
    method CaptureEndpoint(e: Endpoint, inspection: Inspection) returns (r: Outcome<Owner>)
      requires Valid() && (inspection.started.Some? ==> inspection.started.value < world.clock)
      modifies this
      ensures Valid() && Later(old(world), world) && Quiet(old(world), world) && now >= old(now)
      ensures r.Ok? ==> Verified(inspection.state) && Captured(world, r.value) && r.value.pid == e.pid
      ensures r.Ok? ==> inspection.image == Some(r.value.image) && inspection.started == Some(r.value.started)
      ensures r.Err? ==> Uncapturable(outside, old(now), now, world, e, inspection)
    {
      if !Verified(inspection.state) || inspection.image.None? || inspection.started.None? {
        return Err(Conflict);
      }
      var verified := outside.verifies(now, inspection.image.value);
      var mine := OwnedByMe(e.pid);
      if !verified || !mine {
        return Err(Conflict);
      }
      r := Ok(Owner(Some(e), e.pid, inspection.image.value, inspection.started.value));
    }

    /** Ends the endpoint's verified service, then every other verified one. */
    method ReplaceVerifiedOwner(e: Endpoint, inspection: Inspection)
      returns (r: Outcome<()>, ghost seen: World, ghost trouble: Trouble)
      requires Valid() && (inspection.started.Some? ==> inspection.started.value < world.clock)
      modifies this
      ensures Valid() && Later(old(world), world) && world.spawns == old(world).spawns && now >= old(now)
      ensures OnlyLawful(old(world), world, outside, None)
      ensures r.Ok? ==>
        && Verified(inspection.state) && inspection.image.Some? && inspection.started.Some?
        && GoneForGood(world, Owner(None, e.pid, inspection.image.value, inspection.started.value))
      ensures Later(old(world), seen) && Later(seen, world)
      ensures if r.Ok? then Settled(outside, seen, world, None, [], seen.table.Keys)
              else Justified(outside, old(now), now, world, trouble)
    {
      hide Unlistable, Unstoppable, Uncapturable, Settled;
      seen, trouble := world, Capturing(e, inspection);
      var captured := CaptureEndpoint(e, inspection);
      if captured.Err? {
        return Err(captured.why), seen, trouble;
      }
      ghost var first, since := world, now;
      var stopped := StopOwner(captured.value);
      LaterTransitive(old(world), first, world);
      LawfulGrows(old(world), first, world, outside, None, captured.value);
      if stopped.Err? {
        UnstoppableEarlier(outside, old(now), since, now, world, captured.value);
        return Err(stopped.why), seen, Stopping(captured.value);
      }
      ghost var second, later := world, now;
      var rest;
      ghost var listed;
      rest, listed, trouble := StopScanned(None);
      LaterTransitive(old(world), second, listed);
      LaterTransitive(old(world), second, world);
      LawfulJoins(old(world), second, world, outside, None);
      GoneStaysGone(second, world, captured.value);
      seen := listed;
      if rest.Err? { JustifiedEarlier(outside, later, old(now), now, world, trouble); }
      r := if rest.Err? then Err(rest.why) else Ok(());
    }

    /** The user's Stop. A foreign endpoint process is left alone; success means the
        endpoint's instance and every verified service there was are gone for good. */
    method StopDaemon() returns (r: Outcome<bool>, ghost seen: World, ghost trouble: Trouble)
      requires Valid()
      modifies this
      ensures Valid() && Later(old(world), world) && world.spawns == old(world).spawns
      ensures OnlyLawful(old(world), world, outside, None)
      ensures StateAt(outside, old(world), old(now)) == Some(Foreign) ==> r == Err(Conflict) && Quiet(old(world), world)
      ensures r.Ok? && outside.endpoint(old(now)).Some? ==>
        var e := outside.endpoint(old(now)).value;
        EndpointIsGone(world, e, Inspected(outside, old(world), old(now), e))
      ensures Later(old(world), seen) && Later(seen, world)
      ensures r.Ok? ==> Settled(outside, seen, world, None, [], seen.table.Keys)
      ensures r.Ok? ==> AllGone(outside, old(world), world, None)
      ensures r.Err? ==>
        StateAt(outside, old(world), old(now)) == Some(Foreign) || Justified(outside, old(now), now, world, trouble)
      ensures r == Ok(false) ==> Quiet(old(world), world)
      ensures r == Ok(false) ==> StateAt(outside, old(world), old(now)) in {None, Some(EndpointState.Gone)}
    {
      hide Justified;
      seen := world;
      var endpoint := outside.endpoint(now);
      if endpoint.None? {
        var stopped;
        stopped, seen, trouble := StopScanned(None);
        if stopped.Ok? { SettledMeansGone(outside, old(world), seen, world, None); }
        return if stopped.Err? then Err(stopped.why) else Ok(stopped.value > 0), seen, trouble;
      }
      var inspection := Inspect(endpoint.value);
      ghost var first, since := world, now;
      trouble := Capturing(endpoint.value, inspection);
      if inspection.state.Foreign? {
        return Err(Conflict), seen, trouble;
      }
      if inspection.state.Gone? {
        var stopped;
        stopped, seen, trouble := StopScanned(None);
        LaterTransitive(old(world), first, seen);
        LaterTransitive(old(world), first, world);
        if stopped.Ok? { SettledMeansGone(outside, old(world), seen, world, None); }
        if stopped.Err? { JustifiedEarlier(outside, since, old(now), now, world, trouble); }
        return if stopped.Err? then Err(stopped.why) else Ok(stopped.value > 0), seen, trouble;
      }
      var replaced;
      replaced, seen, trouble := ReplaceVerifiedOwner(endpoint.value, inspection);
      LaterTransitive(old(world), first, seen);
      LaterTransitive(old(world), first, world);
      if replaced.Ok? { SettledMeansGone(outside, old(world), seen, world, None); }
      if replaced.Err? { JustifiedEarlier(outside, since, old(now), now, world, trouble); }
      r := if replaced.Err? then Err(replaced.why) else Ok(true);
    }

    /** Wait until the started child has the endpoint and answers there. A child that
        exits, a ready service under another id and the deadline end the wait. */
    method AwaitChild(child: Owner) returns (r: Outcome<()>, ghost seen: World, ghost at: nat)
      requires Valid() && Captured(world, child)
      modifies this
      ensures Valid() && Later(old(world), seen) && Later(seen, world) && Quiet(old(world), world)
      ensures r.Ok? ==> ChildAnswers(outside, child, seen, at)
      ensures r == Err(Conflict) ==> AnotherAnswers(outside, child, seen, at)
      ensures r == Err(SpawnFailed) ==> outside.waitFails(at) || GoneForGood(world, child)
      ensures r.Ok? || r == Err(Conflict) || r == Err(SpawnFailed) || r == Err(NotReady)
      ensures r == Err(NotReady) ==>
        && now > old(now) + outside.polls(old(now)) && !outside.waitFails(at) && Runs(seen, child)
        && !ChildAnswers(outside, child, seen, at) && !AnotherAnswers(outside, child, seen, at)
    {
      hide Ahead, Inspected, WorldOk;
      LaterItself(world);
      seen, at := world, now;
      var polls := outside.polls(now);
      for i := 0 to polls + 1
        invariant Valid() && Later(old(world), world) && Quiet(old(world), world) && now >= old(now) + i
        invariant Later(old(world), seen) && Later(seen, world)
        invariant i > 0 ==>
          && !outside.waitFails(at) && Runs(seen, child)
          && !ChildAnswers(outside, child, seen, at) && !AnotherAnswers(outside, child, seen, at)
      {
        ghost var before := world;
        Yield();
        LaterTransitive(old(world), before, world);
        LaterItself(world);
        seen, at := world, now;
        if outside.waitFails(now) {
          return Err(SpawnFailed), seen, at;
        }
        if !Runs(world, child) {
          return Err(SpawnFailed), seen, at;
        }
        var endpoint := Compatible(outside.endpoint(now));
        if endpoint.Some? {
          var inspection := Inspect(endpoint.value);
          if inspection.state.CurrentReady? {
            return if endpoint.value.pid == child.pid then Ok(()) else Err(Conflict), seen, at;
          }
          LaterTransitive(old(world), seen, world);
        }
      }
      r := Err(NotReady);
    }

    /** Start the installed service as a child under an id not in use. */
    method SpawnChild(bin: string, pid: nat) returns (child: Owner)
      requires Valid() && pid !in world.table
      modifies this
      ensures Valid() && Later(old(world), world) && Runs(world, child) && Captured(world, child) && now == old(now)
      ensures world.signals == old(world).signals && world.spawns == old(world).spawns + 1
      ensures child == Owner(None, pid, bin, old(world).clock)
    {
      child := Owner(None, pid, bin, world.clock);
      world := world.(table := world.table[pid := Process(Some(bin), world.clock, true)], clock := world.clock + 1,
                      spawns := world.spawns + 1);
    }

    /** One observation later, start the installed service if that is possible. */
    method TryStart() returns (r: Outcome<Owner>)
      requires Valid()
      modifies this
      ensures Valid() && Later(old(world), world) && world.signals == old(world).signals && now == old(now) + 1
      ensures r.Ok? <==> CanStart(outside, Passes(old(world), outside.events(old(now))), now)
      ensures world.spawns == old(world).spawns + if r.Ok? then 1 else 0
      ensures r.Ok? ==> Captured(world, r.value) && r.value.started >= old(world).clock
    {
      ghost var start := world;
      Yield();
      ghost var first := world;
      var raw := outside.endpoint(now);
      if raw.Some? && !raw.value.currentVersion && outside.portAlive(now) {
        return Err(WrongVersion);
      }
      var bin := outside.expected(now);
      if bin.None? {
        return Err(NoBinary);
      }
      if outside.spawnFails(now) || outside.childPid(now) in world.table {
        return Err(SpawnFailed);
      }
      var child := SpawnChild(bin.value, outside.childPid(now));
      LaterTransitive(start, first, world);
      r := Ok(child);
    }

    /** The last step of activation: look at the endpoint once more, keep a ready
        service, refuse any other live one, and only then start the installed one
        and wait for it. Success after a start means that this very child answers. */
    method EnsureDaemon() returns (r: Outcome<()>, ghost wait: Wait)
      requires Valid()
      modifies this
      ensures Valid() && Later(old(world), world) && world.signals == old(world).signals
      ensures old(world).spawns <= world.spawns <= old(world).spawns + 1
      ensures world.spawns > old(world).spawns <==>
        NothingThere(outside, old(world), old(now)) && MayStart(outside, old(world), old(now))
      ensures world.spawns == old(world).spawns ==> (r.Ok? <==> ReadyThere(outside, old(world), old(now)))
      ensures world.spawns > old(world).spawns && r.Ok? ==> StartedWell(outside, old(world), world, wait)
      ensures world.spawns > old(world).spawns && r == Err(Conflict) ==>
        AnotherAnswers(outside, wait.child, wait.seen, wait.at)
    {
      hide Ahead, Inspected, WorldOk, CanStart;
      wait := Wait(Owner(None, 0, "", 0), world, now);
      ghost var start, begun := world, now;
      var endpoint := Compatible(outside.endpoint(now));
      AheadNone(outside, world, now);
      if endpoint.Some? {
        var inspection := Inspect(endpoint.value);
        if inspection.state.CurrentReady? {
          return Ok(()), wait;
        }
        if !inspection.state.Gone? {
          return Err(Conflict), wait;
        }
      } else {
        LaterItself(world);
      }
      ghost var first := world;
      AheadMore(outside, start, begun, now - begun);
      var child := TryStart();
      ghost var second := world;
      LaterTransitive(start, first, second);
      if child.Err? {
        return Err(child.why), wait;
      }
      ghost var seen, at := world, now;
      r, seen, at := AwaitChild(child.value);
      wait := Wait(child.value, seen, at);
      LaterTransitive(start, second, seen);
      LaterTransitive(start, seen, world);
    }

    /** Makes room as planned: ends what has to be replaced and every other verified
        service, the kept one apart. */
    method ClearWay(plan: Plan, endpoint: Option<Endpoint>, inspection: Option<Inspection>)
      returns (r: Outcome<()>, ghost seen: World, ghost trouble: Trouble)
      requires Valid() && !plan.Refuse? && (plan.Keep? || plan.ReplaceVerified? ==> endpoint.Some? && inspection.Some?)
      requires inspection.Some? && inspection.value.started.Some? ==> inspection.value.started.value < world.clock
      modifies this
      ensures Valid() && Later(old(world), world) && world.spawns == old(world).spawns
      ensures OnlyLawful(old(world), world, outside, Kept(plan, endpoint))
      ensures Later(old(world), seen) && Later(seen, world)
      ensures if r.Ok? then Settled(outside, seen, world, Kept(plan, endpoint), [], seen.table.Keys)
              else Justified(outside, old(now), now, world, trouble)
      ensures r.Ok? && plan.ReplaceVerified? ==> EndpointIsGone(world, endpoint.value, inspection.value)
    {
      hide Justified;
      if plan.ReplaceVerified? {
        r, seen, trouble := ReplaceVerifiedOwner(endpoint.value, inspection.value);
      } else {
        var stopped;
        stopped, seen, trouble := StopScanned(Kept(plan, endpoint));
        r := if stopped.Err? then Err(stopped.why) else Ok(());
      }
    }

    /** Activation, decided by the endpoint as inspected. */
    method Activate(restartCurrent: bool) returns (r: Outcome<()>, ghost course: Course)
      requires Valid()
      modifies this
      ensures Valid() && Later(old(world), world) && OnlyLawful(old(world), world, outside, None)
      ensures ActivatedAs(PlanAt(outside, old(world), old(now), restartCurrent), outside, old(world), old(now),
                          r, world, course)
    {
      hide Ahead, Inspected, Trusted, AllGone, Settled, OnlyLawful, ReadyThere, NothingThere, Later, WorldOk;
      hide StartedWell, Justified, MayStart;
      course := Course(world, now, Wait(Owner(None, 0, "", 0), world, now), None, now);
      AheadUnrolls(outside, world, now);
      LaterItself(world);
      NothingIsLawful(world, outside);
      if outside.expected(now).None? {
        return Err(NoBinary), course;
      }
      Yield();
      ghost var begun := world;
      var endpoint := outside.endpoint(now);
      var inspection: Option<Inspection> := None;
      if endpoint.Some? {
        var found := Inspect(endpoint.value);
        inspection := Some(found);
      } else {
        LaterItself(world);
      }
      ghost var first, since := world, now;
      LaterTransitive(old(world), begun, first);
      var plan := ActivationPlan(if inspection.Some? then Some(inspection.value.state) else None, restartCurrent);
      if plan.Refuse? {
        LawfulBetween(old(world), old(world), old(world), world, outside, None);
        return Err(Conflict), course;
      }
      ghost var seen, trouble;
      r, seen, trouble := ClearWay(plan, endpoint, inspection);
      LaterTransitive(old(world), first, seen);
      LaterTransitive(old(world), first, world);
      LawfulBetween(old(world), first, world, world, outside, Kept(plan, endpoint));
      course := course.(cleared := world, at := now, until := now);
      LaterItself(world);
      if r.Err? {
        JustifiedEarlier(outside, since, old(now), now, world, trouble);
        course := course.(trouble := Some(trouble));
        return;
      }
      SettledMeansGone(outside, old(world), seen, world, Kept(plan, endpoint));
      if plan.Keep? {
        return;
      }
      ghost var wait;
      r, wait := EnsureDaemon();
      course := course.(wait := wait);
      LaterTransitive(old(world), course.cleared, world);
      LawfulBetween(old(world), first, course.cleared, world, outside, None);
    }
  }

  /** The course of an activation: the world when the way was clear and the endpoint
      was looked at again, or when clearing it had failed, and for what reason; and
      how the wait for a started service ended. */
  datatype Course = Course(cleared: World, at: nat, wait: Wait, trouble: Option<Trouble>, until: nat)

  /** What an activation has done, by its plan. Without an installed service, or with a
      stranger at the endpoint, nothing is signalled and nothing started. A ready
      service that is kept is never signalled and nothing is started beside it. In the
      other cases every verified service there was is gone for good when, at
      `cleared`, the endpoint is looked at again; a service is started exactly if
      nothing is there then and a start is possible. Success means that this very
      child, or without a start the service found then, is ready. Clearing the way
      fails for one of the reasons stopping or listing may fail. */
  ghost predicate ActivatedAs(plan: Option<Plan>, outside: Outside, w: World, now: nat, r: Outcome<()>, v: World,
                              course: Course)
  {
    var endpoint, cleared, at := outside.endpoint(now + 1), course.cleared, course.at;
    match plan
    case None => r.Err? && Quiet(w, v)
    case Some(Refuse) => r.Err? && Quiet(w, v)
    case Some(Keep) =>
      && v.spawns == w.spawns && endpoint.Some? && OnlyLawful(w, v, outside, Some(endpoint.value.pid))
      && (if r.Ok? then AllGone(outside, w, v, Some(endpoint.value.pid))
          else course.trouble.Some? && Justified(outside, now, course.until, v, course.trouble.value))
    case Some(_) =>
      && Later(w, cleared) && Later(cleared, v) && cleared.spawns == w.spawns && cleared.signals == v.signals
      && if course.trouble.Some?
         then r.Err? && v.spawns == w.spawns && Justified(outside, now, course.until, v, course.trouble.value)
         else
           && AllGone(outside, w, cleared, None) && w.spawns <= v.spawns <= w.spawns + 1
           && (v.spawns > w.spawns <==> NothingThere(outside, cleared, at) && MayStart(outside, cleared, at))
           && (v.spawns == w.spawns ==> (r.Ok? <==> ReadyThere(outside, cleared, at)))
           && (v.spawns > w.spawns && r.Ok? ==> StartedWell(outside, cleared, v, course.wait))
  }

  /** A stranger at the endpoint gets neither a signal nor a service beside it, whatever
      else the machine does; nor does one that is still there at the second look. */
  lemma StrangersAreLeftAlone(outside: Outside, w: World, now: nat, restartCurrent: bool, r: Outcome<()>, v: World,
                              course: Course)
    requires ActivatedAs(PlanAt(outside, w, now, restartCurrent), outside, w, now, r, v, course)
    ensures
      var e := outside.endpoint(now + 1);
      e.Some? && IsStranger(outside, Ahead(outside, w, now, 1), now + 1, e.value) ==> r.Err? && Quiet(w, v)
    ensures
      var e := outside.endpoint(course.at);
      e.Some? && e.value.currentVersion && IsStranger(outside, course.cleared, course.at, e.value) ==>
        v.spawns == w.spawns
  {
    hide Ahead, Inspected, IsStranger, AllGone, OnlyLawful, Later, Justified, MayStart;
    var e, f := outside.endpoint(now + 1), outside.endpoint(course.at);
    if e.Some? { InspectionIsExact(outside, Ahead(outside, w, now, 1), now + 1, e.value); }
    if f.Some? { InspectionIsExact(outside, course.cleared, course.at, f.value); }
  }

  lemma NothingIsLawful(w: World, outside: Outside)
    ensures OnlyLawful(w, w, outside, None)
  {
  }

  lemma LawfulBetween(u: World, w: World, x: World, v: World, outside: Outside, exclude: Option<nat>)
    requires OnlyLawful(w, x, outside, exclude) && u.signals == w.signals && x.signals == v.signals
    ensures OnlyLawful(u, v, outside, exclude) && OnlyLawful(u, v, outside, None)
  {
  }

  /** The process a plan leaves alone. */
  function Kept(plan: Plan, endpoint: Option<Endpoint>): Option<nat>
  {
    if plan.Keep? && endpoint.Some? then Some(endpoint.value.pid) else None
  }

  /** Whatever verified service the inspection found at the endpoint has ended. */
  predicate EndpointIsGone(w: World, e: Endpoint, inspection: Inspection)
  {
    Verified(inspection.state) ==>
      && inspection.image.Some? && inspection.started.Some?
      && GoneForGood(w, Owner(None, e.pid, inspection.image.value, inspection.started.value))
  }

  lemma AheadNone(outside: Outside, w: World, now: nat)
    ensures Ahead(outside, w, now, 0) == w
  {
  }

  lemma {:induction false} AheadMore(outside: Outside, w: World, now: nat, k: nat)
    ensures Ahead(outside, w, now, k + 1) == Passes(Ahead(outside, w, now, k), outside.events(now + k))
    decreases k
  {
    hide Passes;
    var v := Passes(w, outside.events(now));
    if k == 0 {
      assert Ahead(outside, w, now, 1) == Ahead(outside, v, now + 1, 0);
    } else {
      AheadMore(outside, v, now + 1, k - 1);
    }
  }

  lemma AheadUnrolls(outside: Outside, w: World, now: nat)
    ensures
      var a := Passes(w, outside.events(now));
      var b := Passes(a, outside.events(now + 1));
      && Ahead(outside, w, now, 1) == a && Ahead(outside, w, now, 2) == b
      && Ahead(outside, w, now, 3) == Passes(b, outside.events(now + 2))
  {
    var a := Passes(w, outside.events(now));
    var b := Passes(a, outside.events(now + 1));
    assert Ahead(outside, a, now + 1, 0) == a && Ahead(outside, a, now + 1, 1) == Ahead(outside, b, now + 2, 0) == b;
    assert Ahead(outside, b, now + 2, 1) == Ahead(outside, Passes(b, outside.events(now + 2)), now + 3, 0);
    assert Ahead(outside, a, now + 1, 2) == Ahead(outside, b, now + 2, 1);
  }

  lemma LaterItself(w: World)
    ensures Later(w, w)
  {
  }

  /** Every verified service running in w, the excluded process apart, has ended. */
  ghost predicate AllGone(outside: Outside, w: World, v: World, exclude: Option<nat>)
  {
    forall pid: nat, image: string, started: nat ::
      exclude != Some(pid) && Trusted(outside, w, pid, image, started) ==>
        GoneForGood(v, Owner(None, pid, image, started))
  }

  /** What a listing settles covers everything that ran before the listing. */
  lemma SettledMeansGone(outside: Outside, w: World, seen: World, v: World, exclude: Option<nat>)
    requires Later(w, seen) && Later(seen, v) && Settled(outside, seen, v, exclude, [], seen.table.Keys)
    ensures AllGone(outside, w, v, exclude)
  {
    forall pid: nat, image: string, started: nat | exclude != Some(pid) && Trusted(outside, w, pid, image, started)
      ensures GoneForGood(v, Owner(None, pid, image, started))
    {
      if Runs(v, Owner(None, pid, image, started)) {
        assert Trusted(outside, seen, pid, image, started);
      }
    }
  }

  // ----- what a scan achieves -----

  /** A verified service of this user at one moment: the image passes every check. */
  ghost predicate Trusted(outside: Outside, w: World, pid: nat, image: string, started: nat)
  {
    && 0 < pid <= MAX_PID && pid in w.table && w.table[pid] == Process(Some(image), started, true)
    && started < w.clock && forall t :: outside.verifies(t, image)
  }

  /** Of the services running in `seen` under one of `pids`, each is captured or gone. */
  ghost predicate Settled(outside: Outside, seen: World, w: World, exclude: Option<nat>, owners: seq<Owner>,
                          pids: set<nat>)
  {
    forall pid, image, started ::
      pid in pids && exclude != Some(pid) && Trusted(outside, seen, pid, image, started) ==>
        Owner(None, pid, image, started) in owners || GoneForGood(w, Owner(None, pid, image, started))
  }

  lemma SettledGrows(outside: Outside, seen: World, w: World, v: World, exclude: Option<nat>, had: seq<Owner>,
                     owners: seq<Owner>, pids: set<nat>, pid: nat, o: Option<Owner>)
    requires Settled(outside, seen, w, exclude, had, pids) && Later(seen, w) && Later(w, v)
    requires owners == if o.Some? then had + [o.value] else had
    requires exclude != Some(pid) ==> forall image, started :: Trusted(outside, w, pid, image, started) ==>
      o == Some(Owner(None, pid, image, started)) || GoneForGood(v, Owner(None, pid, image, started))
    ensures Settled(outside, seen, v, exclude, owners, pids + {pid})
  {
  }

  lemma SettledAll(outside: Outside, seen: World, w: World, exclude: Option<nat>, owners: seq<Owner>, pids: set<nat>)
    requires Settled(outside, seen, w, exclude, owners, pids)
    requires forall p :: p in pids <==> p in seen.table && p > 0
    ensures Settled(outside, seen, w, exclude, owners, seen.table.Keys)
  {
  }

  lemma AllSettled(outside: Outside, seen: World, w: World, v: World, exclude: Option<nat>, owners: seq<Owner>)
    requires Settled(outside, seen, w, exclude, owners, seen.table.Keys) && Later(w, v)
    requires forall k :: 0 <= k < |owners| ==> GoneForGood(v, owners[k])
    ensures Settled(outside, seen, v, exclude, [], seen.table.Keys)
  {
  }

  lemma LawfulGrows(u: World, w: World, v: World, outside: Outside, exclude: Option<nat>, o: Owner)
    requires OnlyLawful(u, w, outside, exclude) && u.signals <= w.signals <= v.signals
    requires OnlyAimed(w, v, outside, o) && exclude != Some(o.pid)
    ensures OnlyLawful(u, v, outside, exclude)
  {
  }

  lemma LawfulJoins(u: World, w: World, v: World, outside: Outside, exclude: Option<nat>)
    requires OnlyLawful(u, w, outside, exclude) && OnlyLawful(w, v, outside, exclude)
    requires u.signals <= w.signals <= v.signals
    ensures OnlyLawful(u, v, outside, exclude)
  {
  }

  function Members(pids: seq<nat>): set<nat> { set p | p in pids }

  function Positive(pids: seq<nat>): (r: seq<nat>)
    ensures forall p :: p in r <==> p in pids && p > 0
  {
    if pids == [] then [] else (if pids[0] > 0 then [pids[0]] else []) + Positive(pids[1..])
  }
}
