/** Two-slot telemetry generations: recorders pin the slot of their generation
    by its parity, a reset clears the other slot and then publishes it, and
    snapshots retry until their generation held throughout. One load, store or
    fetch-and-add is one step, and any threads interleave in any order.

    `holders`, `ids` and `marks` are auxiliary: which threads hold a slot, which
    threads bumped each counter of each generation, and each generation's boundary. */
module Telemetry {
  import opened Prelude

  // counters in the order a snapshot reads them: commit side first
  const ACCEPTED: nat := 0
  const SOCKET_FAILED: nat := 1
  const COMMIT_FAILED: nat := 2
  const PREPARED: nat := 3
  const PARSED: nat := 4
  const REJECTED: nat := 5
  const REQUESTS: nat := 6
  const COUNTERS: nat := 7

  datatype Boundary = Boundary(marker: nat, resetNs: nat)

  datatype Slot = Slot(users: nat, counters: seq<nat>, boundary: Boundary)

  datatype Pc = Outside | Loaded | Counted | Pinned | Spent | Leaving | Done

  /** What a thread does while it is pinned. `lows` notes the counters at the
      moment a snapshot was validated. */
  datatype Work =
    | Prepare
    | Finish(outcome: nat)
    | PeerList(parsed: bool)
    | Snapshot(boundary: Option<Boundary>, seen: seq<nat>, lows: seq<nat>)

  /** `gen` is the generation of the operation token, or the one a snapshot loaded. */
  datatype Thread = Thread(gen: nat, pc: Pc, work: Work)

  datatype Resetter =
    | NoReset
    | Waiting(next: nat)
    | Clearing(next: nat, cleared: nat)
    | Marked(next: nat, boundary: Boundary)

  datatype State = State(
    active: nat, slots: seq<Slot>, resetter: Resetter, threads: map<nat, Thread>,
    holders: seq<set<nat>>, ids: seq<seq<set<nat>>>, marks: seq<Boundary>)

  datatype Action =
    | Record(t: nat, work: Work)
    | TakeSnapshot(t: nat)
    | Advance(t: nat)
    | End(t: nat, outcome: nat)
    | Reset(boundary: Boundary)

  function Zeros(): seq<nat> { seq(COUNTERS, _ => 0) }

  function NoIds(): seq<set<nat>> { seq(COUNTERS, _ => {}) }

  function Initial(first: Boundary, other: Boundary): (s: State)
    ensures Inv(s)
  {
    State(0, [Slot(0, Zeros(), first), Slot(0, Zeros(), other)], NoReset, map[], [{}, {}], [NoIds()], [first])
  }

  function Parity(gen: nat): nat { gen % 2 }

  predicate Holding(pc: Pc) { pc == Counted || pc == Pinned || pc == Spent || pc == Leaving }

  /** The counters one recording bumps in a single indivisible step. */
  function Bumped(work: Work): seq<nat>
  {
    match work
    case Prepare => [PREPARED]
    case Finish(outcome) => [outcome]
    case PeerList(parsed) => [if parsed then PARSED else REJECTED, REQUESTS]
    case Snapshot(_, _, _) => []
  }

  /** The counters an event belongs to. */
  predicate CountsIn(work: Work, c: nat)
  {
    match work
    case Prepare => c == PREPARED
    case Finish(outcome) => c == outcome
    case PeerList(parsed) => c == REQUESTS || c == (if parsed then PARSED else REJECTED)
    case Snapshot(_, _, _) => false
  }

  function Bump(counters: seq<nat>, which: seq<nat>): (r: seq<nat>)
    ensures |r| == |counters|
  {
    seq(|counters|, c requires 0 <= c < |counters| => counters[c] + (if c in which then 1 else 0))
  }

  function Mark(ids: seq<set<nat>>, which: seq<nat>, t: nat): (r: seq<set<nat>>)
    ensures |r| == |ids|
  {
    seq(|ids|, c requires 0 <= c < |ids| => ids[c] + (if c in which then {t} else {}))
  }

  // ----- steps -----

  function WithPc(s: State, t: nat, pc: Pc): State
    requires t in s.threads
  {
    s.(threads := s.threads[t := s.threads[t].(pc := pc)])
  }

  function Acquire(s: State, t: nat): State
    requires t in s.threads && |s.slots| == |s.holders| == 2
  {
    var p := Parity(s.threads[t].gen);
    WithPc(s, t, Counted).(slots := s.slots[p := s.slots[p].(users := s.slots[p].users + 1)],
                           holders := s.holders[p := s.holders[p] + {t}])
  }

  function Release(s: State, t: nat, pc: Pc): State
    requires t in s.threads && |s.slots| == |s.holders| == 2
    requires s.slots[Parity(s.threads[t].gen)].users > 0
  {
    var p := Parity(s.threads[t].gen);
    WithPc(s, t, pc).(slots := s.slots[p := s.slots[p].(users := s.slots[p].users - 1)],
                      holders := s.holders[p := s.holders[p] - {t}])
  }

  function RecordStep(s: State, t: nat): State
    requires t in s.threads && |s.slots| == 2 && s.threads[t].gen < |s.ids|
  {
    var th := s.threads[t];
    var p, which := Parity(th.gen), Bumped(th.work);
    WithPc(s, t, Spent).(slots := s.slots[p := s.slots[p].(counters := Bump(s.slots[p].counters, which))],
                         ids := s.ids[th.gen := Mark(s.ids[th.gen], which, t)])
  }

  /** A pinned snapshot: boundary, four single counters, the peer-list counters
      under their lock, and the final look at the active generation. */
  function SnapshotStep(s: State, t: nat): State
    requires t in s.threads && s.threads[t].work.Snapshot? && |s.slots| == 2
    requires forall p :: 0 <= p < 2 ==> |s.slots[p].counters| == COUNTERS
  {
    var th := s.threads[t];
    var slot, w := s.slots[Parity(th.gen)], th.work;
    if w.boundary.None? then
      s.(threads := s.threads[t := th.(work := w.(boundary := Some(slot.boundary)))])
    else if |w.seen| < PARSED then
      s.(threads := s.threads[t := th.(work := w.(seen := w.seen + [slot.counters[|w.seen|]]))])
    else if |w.seen| < COUNTERS then
      s.(threads := s.threads[t := th.(work := w.(seen := w.seen + slot.counters[PARSED..]))])
    else WithPc(s, t, if s.active == th.gen then Spent else Leaving)
  }

  function AdvanceStep(s: State, t: nat): State
    requires Inv(s)
  {
    if t !in s.threads then s
    else
      var th := s.threads[t];
      match th.pc
      case Outside =>
        if th.work.Snapshot? then s.(threads := s.threads[t := Thread(s.active, Loaded, Snapshot(None, [], []))])
        else WithPc(s, t, if s.active == th.gen then Loaded else Done)
      case Loaded => Acquire(s, t)
      case Counted =>
        if s.active != th.gen then WithPc(s, t, Leaving)
        else if th.work.Snapshot? then
          s.(threads := s.threads[t := Thread(th.gen, Pinned, Snapshot(None, [], s.slots[Parity(th.gen)].counters))])
        else WithPc(s, t, Pinned)
      case Pinned => if th.work.Snapshot? then SnapshotStep(s, t) else RecordStep(s, t)
      case Spent => (HolderIsCounted(s, t); Release(s, t, Done))
      case Leaving => (HolderIsCounted(s, t); Release(s, t, if th.work.Snapshot? then Outside else Done))
      case Done => s
  }

  function ResetStep(s: State, boundary: Boundary): State
    requires Inv(s)
  {
    match s.resetter
    case NoReset => if s.active < U64_MAX then s.(resetter := Waiting(s.active + 1)) else s
    case Waiting(next) => if s.slots[Parity(next)].users == 0 then s.(resetter := Clearing(next, 0)) else s
    case Clearing(next, k) =>
      var slot := s.slots[Parity(next)];
      if k < COUNTERS then
        s.(slots := s.slots[Parity(next) := slot.(counters := slot.counters[k := 0])],
           resetter := Clearing(next, k + 1))
      else s.(slots := s.slots[Parity(next) := slot.(boundary := boundary)], resetter := Marked(next, boundary))
    case Marked(next, _) =>
      s.(active := next, resetter := NoReset, ids := s.ids + [NoIds()],
         marks := s.marks + [s.slots[Parity(next)].boundary])
  }

  function Step(s: State, a: Action): State
    requires Inv(s)
  {
    match a
    case Record(t, work) =>
      if t in s.threads || work.Snapshot? || work.Finish? then s
      else s.(threads := s.threads[t := Thread(s.active, Outside, work)])
    case TakeSnapshot(t) =>
      if t in s.threads then s else s.(threads := s.threads[t := Thread(s.active, Outside, Snapshot(None, [], []))])
    case Advance(t) => AdvanceStep(s, t)
    case End(t, outcome) =>
      // a prepared request meets exactly one terminal event, under its own token
      if t in s.threads && s.threads[t].work == Prepare && s.threads[t].pc == Done && outcome < PREPARED
      then s.(threads := s.threads[t := Thread(s.threads[t].gen, Outside, Finish(outcome))])
      else s
    case Reset(boundary) => ResetStep(s, boundary)
  }

  // ----- invariant -----

  predicate Validated(pc: Pc) { pc == Pinned || pc == Spent }

  predicate Rewriting(r: Resetter) { r.Clearing? || r.Marked? }

  ghost predicate ShapeOk(s: State)
  {
    && |s.slots| == |s.holders| == 2
    && (forall p :: 0 <= p < 2 ==> |s.slots[p].counters| == COUNTERS && s.slots[p].users == |s.holders[p]|)
    && |s.ids| == |s.marks| == s.active + 1
    && (forall g :: 0 <= g < |s.ids| ==> |s.ids[g]| == COUNTERS)
    && (!s.resetter.NoReset? ==> s.resetter.next == s.active + 1)
    && (s.resetter.Clearing? ==> s.resetter.cleared <= COUNTERS)
  }

  ghost predicate HoldersOk(s: State)
    requires |s.holders| == 2
  {
    forall t, p :: 0 <= p < 2 ==>
      (t in s.holders[p] <==> t in s.threads && Holding(s.threads[t].pc) && Parity(s.threads[t].gen) == p)
  }

  /** A slot shows exactly the recordings of generation g. */
  ghost predicate Shows(s: State, g: nat)
    requires ShapeOk(s) && g <= s.active
  {
    && s.slots[Parity(g)].boundary == s.marks[g]
    && forall c :: 0 <= c < COUNTERS ==> s.slots[Parity(g)].counters[c] == |s.ids[g][c]|
  }

  ghost predicate ClearedBelow(slot: Slot, n: nat)
  {
    forall c :: 0 <= c < n && c < |slot.counters| ==> slot.counters[c] == 0
  }

  ghost predicate SlotsOk(s: State)
    requires ShapeOk(s)
  {
    && Shows(s, s.active)
    && (s.active > 0 && !Rewriting(s.resetter) ==> Shows(s, s.active - 1))
    && (Rewriting(s.resetter) ==>
          ClearedBelow(s.slots[Parity(s.active + 1)], if s.resetter.Clearing? then s.resetter.cleared else COUNTERS))
    && (s.resetter.Marked? ==> s.slots[Parity(s.active + 1)].boundary == s.resetter.boundary)
  }

  /** No guard outlives the generation after its own, and while a slot is being
      rewritten no validated guard is left on it. */
  ghost predicate GuardOk(s: State, th: Thread)
  {
    && th.gen <= s.active
    && (th.pc == Leaving ==> th.gen < s.active)
    && (Validated(th.pc) ==> th.gen + 1 >= s.active && (Rewriting(s.resetter) ==> th.gen == s.active))
  }

  ghost predicate Bumps(ids: seq<set<nat>>, t: nat, c: nat)
    requires c < |ids|
  {
    t in ids[c]
  }

  ghost predicate WorkOk(s: State, t: nat)
    requires ShapeOk(s) && t in s.threads && s.threads[t].gen <= s.active
  {
    var th := s.threads[t];
    var g, unspent := th.gen, th.pc != Spent && th.pc != Done;
    match th.work
    case Prepare =>
      && (forall c :: 0 <= c < COUNTERS && (c != PREPARED || unspent) ==> !Bumps(s.ids[g], t, c))
      && (th.pc == Spent ==> Bumps(s.ids[g], t, PREPARED))
      && (th.pc == Done ==> Bumps(s.ids[g], t, PREPARED) || g < s.active)
    case Finish(outcome) =>
      && outcome < PREPARED
      && (forall c :: 0 <= c < COUNTERS && c != PREPARED && (c != outcome || unspent) ==> !Bumps(s.ids[g], t, c))
      && (Bumps(s.ids[g], t, PREPARED) || g < s.active)
      && (Validated(th.pc) ==> Bumps(s.ids[g], t, PREPARED))
      && (th.pc == Spent || (th.pc == Done && g == s.active) ==> Bumps(s.ids[g], t, outcome))
    case PeerList(parsed) =>
      && (forall c :: 0 <= c < COUNTERS && (!CountsIn(th.work, c) || unspent) ==> !Bumps(s.ids[g], t, c))
      && (th.pc == Spent || (th.pc == Done && g == s.active) ==>
            Bumps(s.ids[g], t, REQUESTS) && Bumps(s.ids[g], t, if parsed then PARSED else REJECTED))
    case Snapshot(boundary, seen, lows) =>
      && (forall c :: 0 <= c < COUNTERS ==> !Bumps(s.ids[g], t, c))
      && (Validated(th.pc) || th.pc == Done ==> SeenOk(s, g, th.work))
      && (th.pc == Spent || th.pc == Done ==> |seen| == COUNTERS)
  }

  /** What a pinned snapshot has read so far came from its generation: between
      the counts at its validation and the counts now, with nothing oversold. */
  ghost predicate SeenOk(s: State, g: nat, w: Work)
    requires ShapeOk(s) && g <= s.active && w.Snapshot?
  {
    && |w.lows| == COUNTERS
    && (|w.seen| <= PREPARED + 1 || |w.seen| == COUNTERS)
    && (w.boundary.Some? ==> w.boundary.value == s.marks[g])
    && (w.seen != [] ==> w.boundary.Some?)
    && (forall c :: 0 <= c < COUNTERS ==> w.lows[c] <= |s.ids[g][c]|)
    && (forall c :: 0 <= c < |w.seen| ==> w.lows[c] <= w.seen[c] <= |s.ids[g][c]|)
    && (|w.seen| > PREPARED ==> w.seen[ACCEPTED] + w.seen[SOCKET_FAILED] + w.seen[COMMIT_FAILED] <= w.seen[PREPARED])
    && (|w.seen| == COUNTERS ==> w.seen[PARSED] + w.seen[REJECTED] == w.seen[REQUESTS])
  }

  /** Every bump of generation g was made by a thread of that generation; each
      prepared request ended at most once; each peer-list request was classified. */
  ghost predicate IdsOk(s: State, g: nat)
    requires ShapeOk(s) && g <= s.active
  {
    Owned(s, g) && Balanced(s.ids[g])
  }

  ghost predicate Owned(s: State, g: nat)
    requires ShapeOk(s) && g <= s.active
  {
    forall c, t :: 0 <= c < COUNTERS && t in s.ids[g][c] ==> t in s.threads && s.threads[t].gen == g
  }

  ghost predicate Balanced(ids: seq<set<nat>>)
    requires |ids| == COUNTERS
  {
    && ids[ACCEPTED] !! ids[SOCKET_FAILED] && ids[ACCEPTED] !! ids[COMMIT_FAILED]
    && ids[SOCKET_FAILED] !! ids[COMMIT_FAILED]
    && ids[ACCEPTED] + ids[SOCKET_FAILED] + ids[COMMIT_FAILED] <= ids[PREPARED]
    && ids[PARSED] !! ids[REJECTED] && ids[PARSED] + ids[REJECTED] == ids[REQUESTS]
  }

  ghost predicate Inv(s: State)
  {
    && ShapeOk(s) && HoldersOk(s) && SlotsOk(s)
    && (forall t :: t in s.threads ==> Sound(s, t))
    && (forall g :: 0 <= g <= s.active ==> IdsOk(s, g))
  }

  lemma HolderIsCounted(s: State, t: nat)
    requires Inv(s) && t in s.threads && Holding(s.threads[t].pc)
    ensures s.slots[Parity(s.threads[t].gen)].users > 0
  {
  }

  // ----- every step keeps the invariant -----

  /** Thread t keeps its part of the invariant. */
  ghost predicate Sound(s: State, t: nat)
    requires ShapeOk(s) && t in s.threads
  {
    GuardOk(s, s.threads[t]) && WorkOk(s, t)
  }

  /** Nothing but threads and holders differs. */
  ghost predicate SameBooks(s: State, r: State)
  {
    && s.active == r.active && s.resetter == r.resetter && s.ids == r.ids && s.marks == r.marks
    && |s.slots| == |r.slots| == 2
    && forall p :: 0 <= p < 2 ==>
         s.slots[p].counters == r.slots[p].counters && s.slots[p].boundary == r.slots[p].boundary
  }

  /** Recordings of t stay under the generation it ends up with. */
  ghost predicate Owns(s: State, t: nat, gen: nat)
    requires ShapeOk(s)
  {
    forall g, c :: 0 <= g <= s.active && 0 <= c < COUNTERS && t in s.ids[g][c] ==> g == gen
  }

  lemma OwnGeneration(s: State, t: nat)
    requires Inv(s)
    ensures t in s.threads ==> Owns(s, t, s.threads[t].gen)
    ensures t !in s.threads ==> forall g :: Owns(s, t, g)
  {
    forall g, c | 0 <= g <= s.active && 0 <= c < COUNTERS && t in s.ids[g][c]
      ensures t in s.threads && s.threads[t].gen == g
    {
      assert IdsOk(s, g);
    }
  }

  lemma BooksKept(s: State, r: State)
    requires Inv(s) && SameBooks(s, r) && ShapeOk(r)
    ensures SlotsOk(r)
  {
  }

  lemma OthersKept(s: State, r: State, t: nat, u: nat)
    requires Inv(s) && SameBooks(s, r) && ShapeOk(r)
    requires u != t && u in s.threads && t in r.threads && r.threads == s.threads[t := r.threads[t]]
    ensures Sound(r, u)
  {
  }

  lemma IdsKept(s: State, r: State, t: nat, g: nat)
    requires Inv(s) && SameBooks(s, r) && ShapeOk(r) && g <= s.active
    requires t in r.threads && r.threads == s.threads[t := r.threads[t]]
    requires Owns(s, t, r.threads[t].gen)
    ensures IdsOk(r, g)
  {
    assert IdsOk(s, g);
  }

  /** A step that moves only thread t keeps the invariant if t itself is left sound. */
  lemma ThreadStep(s: State, r: State, t: nat)
    requires Inv(s) && SameBooks(s, r) && ShapeOk(r) && HoldersOk(r)
    requires t in r.threads && r.threads == s.threads[t := r.threads[t]]
    requires Owns(s, t, r.threads[t].gen)
    requires Sound(r, t)
    ensures Inv(r)
  {
    hide GuardOk, WorkOk, IdsOk, SlotsOk, HoldersOk;
    BooksKept(s, r);
    forall u | u in r.threads ensures Sound(r, u) {
      if u != t { OthersKept(s, r, t, u); }
    }
    forall g | 0 <= g <= r.active ensures IdsOk(r, g) {
      IdsKept(s, r, t, g);
    }
  }

  /** A step of t that neither takes nor leaves a slot. */
  lemma QuietStep(s: State, r: State, t: nat)
    requires Inv(s) && t in r.threads && r == s.(threads := s.threads[t := r.threads[t]])
    requires if t in s.threads
      then r.threads[t].gen == s.threads[t].gen && Holding(r.threads[t].pc) == Holding(s.threads[t].pc)
      else !Holding(r.threads[t].pc)
    requires Sound(r, t)
    ensures Inv(r)
  {
    hide GuardOk, WorkOk, IdsOk, SlotsOk;
    OwnGeneration(s, t);
    ThreadStep(s, r, t);
  }

  lemma SpawnKeepsInv(s: State, t: nat, work: Work)
    requires Inv(s) && t !in s.threads
    requires work.Prepare? || work.PeerList? || work == Snapshot(None, [], [])
    ensures Inv(s.(threads := s.threads[t := Thread(s.active, Outside, work)]))
  {
    var r := s.(threads := s.threads[t := Thread(s.active, Outside, work)]);
    OwnGeneration(s, t);
    assert forall c :: 0 <= c < COUNTERS ==> !Bumps(r.ids[s.active], t, c) by {
      assert Owns(s, t, s.active + 1);
    }
    QuietStep(s, r, t);
  }

  lemma EndKeepsInv(s: State, t: nat, outcome: nat)
    requires Inv(s) && t in s.threads && s.threads[t].work == Prepare && s.threads[t].pc == Done
    requires outcome < PREPARED
    ensures Inv(s.(threads := s.threads[t := Thread(s.threads[t].gen, Outside, Finish(outcome))]))
  {
    assert Sound(s, t);
    QuietStep(s, s.(threads := s.threads[t := Thread(s.threads[t].gen, Outside, Finish(outcome))]), t);
  }

  lemma LoadKeepsInv(s: State, t: nat)
    requires Inv(s) && t in s.threads && s.threads[t].pc == Outside
    ensures Inv(AdvanceStep(s, t))
  {
    hide SlotsOk, IdsOk;
    assert Sound(s, t);
    var r := AdvanceStep(s, t);
    OwnGeneration(s, t);
    if s.threads[t].work.Snapshot? {
      SnapshotLoads(s, t);
    } else {
      QuietStep(s, r, t);
    }
  }

  lemma SnapshotRecordsNothing(s: State, t: nat)
    requires Inv(s) && t in s.threads && s.threads[t].work.Snapshot?
    ensures forall g, c :: 0 <= g <= s.active && 0 <= c < COUNTERS ==> !Bumps(s.ids[g], t, c)
  {
    hide SlotsOk, HoldersOk, SeenOk;
    forall g, c | 0 <= g <= s.active && 0 <= c < COUNTERS ensures !Bumps(s.ids[g], t, c) {
      assert Sound(s, t) && IdsOk(s, g);
      assert !Bumps(s.ids[s.threads[t].gen], t, c);
    }
  }

  lemma SnapshotLoads(s: State, t: nat)
    requires Inv(s) && t in s.threads && s.threads[t].pc == Outside && s.threads[t].work.Snapshot?
    ensures Inv(s.(threads := s.threads[t := Thread(s.active, Loaded, Snapshot(None, [], []))]))
  {
    hide SlotsOk, IdsOk;
    var r := s.(threads := s.threads[t := Thread(s.active, Loaded, Snapshot(None, [], []))]);
    assert Sound(s, t);
    SnapshotRecordsNothing(s, t);
    assert forall g, c :: 0 <= g <= s.active && 0 <= c < COUNTERS ==> (t in s.ids[g][c] <==> Bumps(s.ids[g], t, c));
    ThreadStep(s, r, t);
  }

  lemma AcquireKeepsInv(s: State, t: nat)
    requires Inv(s) && t in s.threads && s.threads[t].pc == Loaded
    ensures Inv(Acquire(s, t))
  {
    hide SlotsOk, IdsOk;
    assert Sound(s, t);
    OwnGeneration(s, t);
    ThreadStep(s, Acquire(s, t), t);
  }

  lemma ReleaseKeepsShape(s: State, t: nat)
    requires Inv(s) && t in s.threads && (s.threads[t].pc == Spent || s.threads[t].pc == Leaving)
    ensures ShapeOk(AdvanceStep(s, t)) && HoldersOk(AdvanceStep(s, t))
  {
    hide SlotsOk, IdsOk, WorkOk, GuardOk;
    HolderIsCounted(s, t);
  }

  lemma ReleaseKeepsInv(s: State, t: nat)
    requires Inv(s) && t in s.threads && (s.threads[t].pc == Spent || s.threads[t].pc == Leaving)
    ensures Inv(AdvanceStep(s, t))
  {
    hide SlotsOk, IdsOk, SeenOk, HoldersOk;
    HolderIsCounted(s, t);
    assert Sound(s, t);
    OwnGeneration(s, t);
    ReleaseKeepsShape(s, t);
    if s.threads[t].work.Snapshot? && s.threads[t].pc == Spent {
      SeenStays(s, AdvanceStep(s, t), s.threads[t].gen, s.threads[t].work);
    }
    ThreadStep(s, AdvanceStep(s, t), t);
  }

  lemma CheckKeepsInv(s: State, t: nat)
    requires Inv(s) && t in s.threads && s.threads[t].pc == Counted
    ensures Inv(AdvanceStep(s, t))
  {
    hide IdsOk;
    assert Sound(s, t) && Shows(s, s.active);
    QuietStep(s, AdvanceStep(s, t), t);
  }

  /** The slot of a validated guard still shows the guard's own generation. */
  lemma GuardedSlotShows(s: State, t: nat)
    requires Inv(s) && t in s.threads && Validated(s.threads[t].pc)
    ensures s.threads[t].gen <= s.active && Shows(s, s.threads[t].gen)
  {
  }

  lemma DisjointSum<T>(a: set<T>, b: set<T>, c: set<T>, all: set<T>)
    requires a !! b && a !! c && b !! c && a + b + c <= all
    ensures |a| + |b| + |c| <= |all|
  {
    assert |a + b| == |a| + |b| && |(a + b) + c| == |a + b| + |c|;
    assert all == (a + b + c) + (all - (a + b + c));
    assert |all| == |a + b + c| + |all - (a + b + c)|;
  }

  /** In every generation at every moment: outcomes never exceed preparations and
      each peer-list request was parsed or rejected. */
  lemma GenerationBalances(s: State, g: nat)
    requires Inv(s) && g <= s.active
    ensures |s.ids[g][ACCEPTED]| + |s.ids[g][SOCKET_FAILED]| + |s.ids[g][COMMIT_FAILED]| <= |s.ids[g][PREPARED]|
    ensures |s.ids[g][PARSED]| + |s.ids[g][REJECTED]| == |s.ids[g][REQUESTS]|
  {
    var ids: seq<set<nat>> := s.ids[g];
    assert IdsOk(s, g);
    DisjointSum(ids[ACCEPTED], ids[SOCKET_FAILED], ids[COMMIT_FAILED], ids[PREPARED]);
    assert |ids[PARSED] + ids[REJECTED]| == |ids[PARSED]| + |ids[REJECTED]|;
  }

  lemma SnapshotStepKeepsSeen(s: State, t: nat)
    requires Inv(s) && t in s.threads && s.threads[t].pc == Pinned && s.threads[t].work.Snapshot?
    ensures SeenOk(s, s.threads[t].gen, SnapshotStep(s, t).threads[t].work)
    ensures SnapshotStep(s, t).threads[t].pc == Spent ==> |SnapshotStep(s, t).threads[t].work.seen| == COUNTERS
  {
    hide HoldersOk, SlotsOk, GuardOk, IdsOk;
    GuardedSlotShows(s, t);
    GenerationBalances(s, s.threads[t].gen);
    assert WorkOk(s, t);
  }

  lemma SnapshotReadKeepsInv(s: State, t: nat)
    requires Inv(s) && t in s.threads && s.threads[t].pc == Pinned && s.threads[t].work.Snapshot?
    ensures Inv(SnapshotStep(s, t))
  {
    hide IdsOk, SlotsOk, HoldersOk, SeenOk;
    SnapshotStepKeepsSeen(s, t);
    var r := SnapshotStep(s, t);
    assert Sound(s, t);
    assert SeenOk(r, r.threads[t].gen, r.threads[t].work) by { SeenStays(s, r, r.threads[t].gen, r.threads[t].work); }
    QuietStep(s, r, t);
  }

  /** What was read stays right as long as the generation only gains recordings. */
  lemma SeenStays(s: State, r: State, g: nat, w: Work)
    requires ShapeOk(s) && ShapeOk(r) && g <= s.active <= r.active && w.Snapshot?
    requires SeenOk(s, g, w) && s.marks[g] == r.marks[g]
    requires forall c :: 0 <= c < COUNTERS ==> |s.ids[g][c]| <= |r.ids[g][c]|
    ensures SeenOk(r, g, w)
  {
  }

  lemma MarkedOnce(ids: seq<set<nat>>, which: seq<nat>, t: nat, c: nat)
    requires c < |ids| && (c in which ==> t !in ids[c])
    ensures |Mark(ids, which, t)[c]| == |ids[c]| + (if c in which then 1 else 0)
    ensures forall u :: u != t ==> (u in Mark(ids, which, t)[c] <==> u in ids[c])
  {
  }

  /** A recorder bumps only counters that do not count it yet. */
  lemma RecordsOnce(s: State, t: nat, c: nat)
    requires Inv(s) && t in s.threads && s.threads[t].pc == Pinned && !s.threads[t].work.Snapshot?
    requires c in Bumped(s.threads[t].work)
    ensures c < COUNTERS && t !in s.ids[s.threads[t].gen][c]
  {
    hide SlotsOk, HoldersOk, IdsOk, SeenOk;
    assert Sound(s, t);
    assert c < COUNTERS && !Bumps(s.ids[s.threads[t].gen], t, c);
  }

  lemma RecordKeepsShape(s: State, t: nat)
    requires Inv(s) && t in s.threads && s.threads[t].pc == Pinned && !s.threads[t].work.Snapshot?
    ensures ShapeOk(RecordStep(s, t))
  {
  }

  /** After a recording its slot still shows exactly its own generation. */
  lemma RecordShows(s: State, t: nat)
    requires Inv(s) && t in s.threads && s.threads[t].pc == Pinned && !s.threads[t].work.Snapshot?
    ensures ShapeOk(RecordStep(s, t)) && Shows(RecordStep(s, t), s.threads[t].gen)
  {
    hide WorkOk, IdsOk, HoldersOk, SlotsOk, Bumped, Mark;
    RecordKeepsShape(s, t);
    GuardedSlotShows(s, t);
    forall c | 0 <= c < COUNTERS
      ensures RecordStep(s, t).slots[Parity(s.threads[t].gen)].counters[c]
           == |RecordStep(s, t).ids[s.threads[t].gen][c]|
    {
      RecordCounts(s, t, c);
    }
  }

  lemma RecordCounts(s: State, t: nat, c: nat)
    requires Inv(s) && t in s.threads && s.threads[t].pc == Pinned && !s.threads[t].work.Snapshot?
    requires c < COUNTERS && ShapeOk(RecordStep(s, t)) && s.threads[t].gen <= s.active
    requires s.slots[Parity(s.threads[t].gen)].counters[c] == |s.ids[s.threads[t].gen][c]|
    ensures RecordStep(s, t).slots[Parity(s.threads[t].gen)].counters[c] == |RecordStep(s, t).ids[s.threads[t].gen][c]|
  {
    hide WorkOk, IdsOk, HoldersOk, SlotsOk, Bumped, Mark;
    if c in Bumped(s.threads[t].work) { RecordsOnce(s, t, c); }
    MarkedOnce(s.ids[s.threads[t].gen], Bumped(s.threads[t].work), t, c);
  }

  lemma RecordKeepsNeighbour(s: State, t: nat, g: nat)
    requires Inv(s) && t in s.threads && s.threads[t].pc == Pinned && !s.threads[t].work.Snapshot?
    requires ShapeOk(RecordStep(s, t)) && s.threads[t].gen <= s.active
    requires g <= s.active && Parity(g) != Parity(s.threads[t].gen) && Shows(s, g)
    ensures Shows(RecordStep(s, t), g)
  {
  }

  lemma RecordKeepsSlots(s: State, t: nat)
    requires Inv(s) && t in s.threads && s.threads[t].pc == Pinned && !s.threads[t].work.Snapshot?
    ensures ShapeOk(RecordStep(s, t)) && SlotsOk(RecordStep(s, t))
  {
    hide WorkOk, IdsOk, HoldersOk, Bumped, Shows, Mark, Bump;
    assert Sound(s, t) && Shows(s, s.active);
    RecordShows(s, t);
    if s.threads[t].gen != s.active { RecordKeepsNeighbour(s, t, s.active); }
    if s.active > 0 && s.threads[t].gen == s.active && !Rewriting(s.resetter) {
      RecordKeepsNeighbour(s, t, s.active - 1);
    }
  }

  lemma RecordKeepsOther(s: State, t: nat, u: nat)
    requires Inv(s) && t in s.threads && s.threads[t].pc == Pinned && !s.threads[t].work.Snapshot?
    requires u in s.threads && u != t && ShapeOk(RecordStep(s, t))
    ensures Sound(RecordStep(s, t), u)
  {
    hide IdsOk, SlotsOk, HoldersOk, SeenOk, Bumped, CountsIn, Bump, Mark;
    var r, g, which := RecordStep(s, t), s.threads[t].gen, Bumped(s.threads[t].work);
    assert Sound(s, u) && Sound(s, t);
    RecordGrowsIds(s, t);
    if s.threads[u].work.Snapshot? && (Validated(s.threads[u].pc) || s.threads[u].pc == Done) {
      SeenStays(s, r, s.threads[u].gen, s.threads[u].work);
    }
  }

  lemma RecordGrowsIds(s: State, t: nat)
    requires Inv(s) && t in s.threads && s.threads[t].pc == Pinned && !s.threads[t].work.Snapshot?
    ensures s.threads[t].gen <= s.active
    ensures forall g, c :: 0 <= g <= s.active && 0 <= c < COUNTERS ==>
      && |s.ids[g][c]| <= |RecordStep(s, t).ids[g][c]|
      && forall u :: u != t ==> (Bumps(RecordStep(s, t).ids[g], u, c) <==> Bumps(s.ids[g], u, c))
  {
    hide WorkOk, IdsOk, HoldersOk, SlotsOk, Bumped;
    var g, which := s.threads[t].gen, Bumped(s.threads[t].work);
    assert Sound(s, t);
    forall c | 0 <= c < COUNTERS
      ensures |s.ids[g][c]| <= |Mark(s.ids[g], which, t)[c]|
      ensures forall u :: u != t ==> (Bumps(Mark(s.ids[g], which, t), u, c) <==> Bumps(s.ids[g], u, c))
    {
      if c in which { RecordsOnce(s, t, c); }
      MarkedOnce(s.ids[g], which, t, c);
    }
  }

  lemma RecordKeepsSelf(s: State, t: nat)
    requires Inv(s) && t in s.threads && s.threads[t].pc == Pinned && !s.threads[t].work.Snapshot?
    requires ShapeOk(RecordStep(s, t))
    ensures Sound(RecordStep(s, t), t)
  {
    hide IdsOk, SlotsOk, HoldersOk, SeenOk;
    assert Sound(s, t);
    var r, g, which := RecordStep(s, t), s.threads[t].gen, Bumped(s.threads[t].work);
    assert forall c :: 0 <= c < COUNTERS ==> (Bumps(r.ids[g], t, c) <==> Bumps(s.ids[g], t, c) || c in which);
  }

  lemma MarkKeepsBalance(ids: seq<set<nat>>, work: Work, t: nat)
    requires |ids| == COUNTERS && Balanced(ids) && !work.Snapshot?
    requires work.Finish? ==>
      work.outcome < PREPARED && t in ids[PREPARED] && forall c :: 0 <= c < PREPARED ==> t !in ids[c]
    requires work.PeerList? ==> t !in ids[PARSED] && t !in ids[REJECTED]
    ensures Balanced(Mark(ids, Bumped(work), t))
  {
  }

  lemma RecorderIsNew(s: State, t: nat)
    requires Inv(s) && t in s.threads && s.threads[t].pc == Pinned && !s.threads[t].work.Snapshot?
    ensures s.threads[t].gen <= s.active
    ensures
      var ids, work := s.ids[s.threads[t].gen], s.threads[t].work;
      && (work.Finish? ==>
            work.outcome < PREPARED && t in ids[PREPARED] && forall c :: 0 <= c < PREPARED ==> t !in ids[c])
      && (work.PeerList? ==> t !in ids[PARSED] && t !in ids[REJECTED])
  {
    hide SlotsOk, HoldersOk, IdsOk, SeenOk;
    assert Sound(s, t);
    assert forall c :: 0 <= c < COUNTERS ==> Bumps(s.ids[s.threads[t].gen], t, c) == (t in s.ids[s.threads[t].gen][c]);
  }

  lemma RecordKeepsOwners(s: State, t: nat, g: nat)
    requires Inv(s) && t in s.threads && s.threads[t].pc == Pinned && !s.threads[t].work.Snapshot?
    requires ShapeOk(RecordStep(s, t)) && g <= s.active && Owned(s, g)
    ensures Owned(RecordStep(s, t), g)
  {
    hide SlotsOk, HoldersOk, WorkOk, IdsOk, Bumped, Bump;
  }

  lemma RecordKeepsIds(s: State, t: nat, g: nat)
    requires Inv(s) && t in s.threads && s.threads[t].pc == Pinned && !s.threads[t].work.Snapshot?
    requires ShapeOk(RecordStep(s, t)) && g <= s.active
    ensures IdsOk(RecordStep(s, t), g)
  {
    hide SlotsOk, HoldersOk, WorkOk, Balanced, Owned, Bumped, Bump, Mark;
    assert IdsOk(s, g);
    RecordKeepsOwners(s, t, g);
    if g == s.threads[t].gen {
      RecorderIsNew(s, t);
      MarkKeepsBalance(s.ids[g], s.threads[t].work, t);
    }
  }

  lemma RecordKeepsInv(s: State, t: nat)
    requires Inv(s) && t in s.threads && s.threads[t].pc == Pinned && !s.threads[t].work.Snapshot?
    ensures Inv(RecordStep(s, t))
  {
    hide WorkOk, IdsOk, SlotsOk;
    assert Sound(s, t);
    var r := RecordStep(s, t);
    RecordKeepsSlots(s, t);
    forall u | u in r.threads ensures Sound(r, u) {
      if u == t { RecordKeepsSelf(s, t); } else { RecordKeepsOther(s, t, u); }
    }
    forall g | 0 <= g <= r.active ensures IdsOk(r, g) {
      RecordKeepsIds(s, t, g);
    }
  }

  lemma AdvanceKeepsInv(s: State, t: nat)
    requires Inv(s)
    ensures Inv(AdvanceStep(s, t))
  {
    hide WorkOk, IdsOk, SlotsOk, GuardOk, HoldersOk, ShapeOk;
    if t in s.threads {
      match s.threads[t].pc
      case Outside => LoadKeepsInv(s, t);
      case Loaded => AcquireKeepsInv(s, t);
      case Counted => CheckKeepsInv(s, t);
      case Pinned => if s.threads[t].work.Snapshot? { SnapshotReadKeepsInv(s, t); } else { RecordKeepsInv(s, t); }
      case Spent => ReleaseKeepsInv(s, t);
      case Leaving => ReleaseKeepsInv(s, t);
      case Done =>
    }
  }

  // ----- the resetter -----

  /** When the wait ends no validated guard is left on the slot to be rewritten. */
  lemma WaitEndsAlone(s: State, t: nat)
    requires Inv(s) && s.resetter.Waiting? && s.slots[Parity(s.resetter.next)].users == 0
    requires t in s.threads && Validated(s.threads[t].pc)
    ensures s.threads[t].gen == s.active
  {
  }

  lemma ResetKeepsThread(s: State, boundary: Boundary, t: nat)
    requires Inv(s) && t in s.threads && ShapeOk(ResetStep(s, boundary))
    ensures Sound(ResetStep(s, boundary), t)
  {
    hide IdsOk, SlotsOk, HoldersOk, SeenOk;
    var r := ResetStep(s, boundary);
    assert Sound(s, t);
    if s.resetter.Waiting? && r.resetter.Clearing? && Validated(s.threads[t].pc) {
      WaitEndsAlone(s, t);
    }
    if s.threads[t].work.Snapshot? && (Validated(s.threads[t].pc) || s.threads[t].pc == Done) {
      SeenStays(s, r, s.threads[t].gen, s.threads[t].work);
    }
  }

  lemma ResetKeepsSlots(s: State, boundary: Boundary)
    requires Inv(s)
    ensures ShapeOk(ResetStep(s, boundary)) && SlotsOk(ResetStep(s, boundary))
  {
    hide IdsOk, WorkOk, HoldersOk, SeenOk, GuardOk;
    var r := ResetStep(s, boundary);
    assert Shows(s, s.active);
    assert Shows(r, s.active);
    if s.resetter.Marked? {
      assert Shows(r, r.active);
    }
  }

  lemma ResetKeepsIds(s: State, boundary: Boundary, g: nat)
    requires Inv(s) && ShapeOk(ResetStep(s, boundary)) && g <= ResetStep(s, boundary).active
    ensures IdsOk(ResetStep(s, boundary), g)
  {
    hide SlotsOk, WorkOk, HoldersOk, SeenOk, GuardOk;
    if g <= s.active { assert IdsOk(s, g); }
  }

  lemma ResetKeepsInv(s: State, boundary: Boundary)
    requires Inv(s)
    ensures Inv(ResetStep(s, boundary))
  {
    hide SlotsOk, WorkOk, SeenOk, GuardOk, IdsOk;
    var r := ResetStep(s, boundary);
    ResetKeepsSlots(s, boundary);
    forall t | t in r.threads ensures Sound(r, t) { ResetKeepsThread(s, boundary, t); }
    forall g | 0 <= g <= r.active ensures IdsOk(r, g) { ResetKeepsIds(s, boundary, g); }
  }

  lemma StepKeepsInv(s: State, a: Action)
    requires Inv(s)
    ensures Inv(Step(s, a))
  {
    hide ShapeOk, SlotsOk, WorkOk, SeenOk, GuardOk, IdsOk, HoldersOk;
    match a
    case Record(t, work) => if t !in s.threads && (work.Prepare? || work.PeerList?) { SpawnKeepsInv(s, t, work); }
    case TakeSnapshot(t) => if t !in s.threads { SpawnKeepsInv(s, t, Snapshot(None, [], [])); }
    case Advance(t) => AdvanceKeepsInv(s, t);
    case End(t, outcome) =>
      if t in s.threads && s.threads[t].work == Prepare && s.threads[t].pc == Done && outcome < PREPARED {
        EndKeepsInv(s, t, outcome);
      }
    case Reset(boundary) => ResetKeepsInv(s, boundary);
  }

  // ----- runs -----

  function Next(s: State, a: Action): (r: State)
    requires Inv(s)
    ensures Inv(r)
  {
    StepKeepsInv(s, a);
    Step(s, a)
  }

  /** Any number of steps by any threads, in any order. */
  function Run(s: State, actions: seq<Action>): (r: State)
    requires Inv(s)
    ensures Inv(r)
    decreases |actions|
  {
    if actions == [] then s
    else Run(Next(s, actions[0]), actions[1..])
  }

  lemma StepGrows(s: State, a: Action)
    requires Inv(s)
    ensures s.active <= Next(s, a).active && s.marks <= Next(s, a).marks
  {
    hide SlotsOk, WorkOk, SeenOk, GuardOk, IdsOk, HoldersOk;
  }

  lemma GuardIsSafe(s: State, t: nat)
    requires Inv(s) && t in s.threads && Validated(s.threads[t].pc)
    ensures GuardedSafely(s, t)
  {
  }

  /** The generation t is pinned to is active or was replaced by the next one
      only, no reset touches its slot, and the slot shows exactly that generation. */
  ghost predicate GuardedSafely(s: State, t: nat)
    requires Inv(s) && t in s.threads
  {
    var g, p := s.threads[t].gen, Parity(s.threads[t].gen);
    && (s.active == g || s.active == g + 1)
    && (Rewriting(s.resetter) ==> Parity(s.resetter.next) != p)
    && s.slots[p].boundary == s.marks[g]
    && forall c :: 0 <= c < COUNTERS ==> s.slots[p].counters[c] == |s.ids[g][c]|
  }

  /** Recorders and resets never collide, in any interleaving. */
  lemma GuardsAreSafe(first: Boundary, other: Boundary, actions: seq<Action>, t: nat)
    ensures
      var s := Run(Initial(first, other), actions);
      t in s.threads && Validated(s.threads[t].pc) ==> GuardedSafely(s, t)
  {
    hide Inv, GuardedSafely, Run, Initial;
    var s := Run(Initial(first, other), actions);
    if t in s.threads && Validated(s.threads[t].pc) { GuardIsSafe(s, t); }
  }

  lemma StepGrowsIds(s: State, a: Action, g: nat, c: nat)
    requires Inv(s) && g <= s.active && c < COUNTERS && g < |Next(s, a).ids| && c < |Next(s, a).ids[g]|
    ensures |s.ids[g][c]| <= |Next(s, a).ids[g][c]|
  {
    hide SlotsOk, WorkOk, SeenOk, GuardOk, IdsOk, HoldersOk;
    if a.Advance? && a.t in s.threads && s.threads[a.t].pc == Pinned && !s.threads[a.t].work.Snapshot? {
      RecordGrowsIds(s, a.t);
    }
  }

  /** No step, whoever makes it, clears a guarded slot or changes its boundary. */
  lemma GuardedSlotIsKept(s: State, a: Action, t: nat)
    requires Inv(s) && t in s.threads && Validated(s.threads[t].pc)
    requires var r := Next(s, a); t in r.threads && Validated(r.threads[t].pc)
    ensures
      var r, p := Next(s, a), Parity(s.threads[t].gen);
      && r.threads[t].gen == s.threads[t].gen
      && r.slots[p].boundary == s.slots[p].boundary
      && forall c :: 0 <= c < COUNTERS ==> s.slots[p].counters[c] <= r.slots[p].counters[c]
  {
    hide WorkOk, IdsOk, HoldersOk, SlotsOk, SeenOk, Bump, Mark;
    var r, g := Next(s, a), s.threads[t].gen;
    StepKeepsToken(s, a, t);
    StepGrows(s, a);
    GuardedSlotShows(s, t);
    GuardedSlotShows(r, t);
    forall c | 0 <= c < COUNTERS ensures |s.ids[g][c]| <= |r.ids[g][c]| { StepGrowsIds(s, a, g, c); }
  }

  lemma AdvanceKeepsToken(s: State, t: nat, u: nat)
    requires Inv(s) && u in s.threads && (!s.threads[u].work.Snapshot? || Holding(s.threads[u].pc))
    ensures u in AdvanceStep(s, t).threads && AdvanceStep(s, t).threads[u].gen == s.threads[u].gen
    ensures AdvanceStep(s, t).threads[u].work.Snapshot? == s.threads[u].work.Snapshot?
  {
    hide ShapeOk, SlotsOk, WorkOk, SeenOk, GuardOk, IdsOk, HoldersOk, Bump, Mark, Bumped, Parity;
    if t in s.threads && t != u {
      assert AdvanceStep(s, t).threads == s.threads[t := AdvanceStep(s, t).threads[t]];
    }
  }

  /** A thread keeps its generation, except a snapshot that starts over. */
  lemma StepKeepsToken(s: State, a: Action, t: nat)
    requires Inv(s) && t in s.threads && (!s.threads[t].work.Snapshot? || Holding(s.threads[t].pc))
    ensures t in Next(s, a).threads && Next(s, a).threads[t].gen == s.threads[t].gen
    ensures Next(s, a).threads[t].work.Snapshot? == s.threads[t].work.Snapshot?
  {
    hide ShapeOk, SlotsOk, WorkOk, SeenOk, GuardOk, IdsOk, HoldersOk, AdvanceStep;
    if a.Advance? { AdvanceKeepsToken(s, a.t, t); }
  }

  /** A recorder never counts in any generation but that of its token, whatever
      happens between its steps. */
  lemma {:induction false} RecordingsStayInTheirGeneration(s: State, actions: seq<Action>, t: nat)
    requires Inv(s) && t in s.threads && !s.threads[t].work.Snapshot?
    ensures
      var r := Run(s, actions);
      && t in r.threads && r.threads[t].gen == s.threads[t].gen
      && forall g, c :: 0 <= g <= r.active && 0 <= c < COUNTERS && g != s.threads[t].gen ==> t !in r.ids[g][c]
    decreases |actions|
  {
    if actions == [] {
      OwnGeneration(s, t);
    } else {
      StepKeepsToken(s, actions[0], t);
      RecordingsStayInTheirGeneration(Next(s, actions[0]), actions[1..], t);
    }
  }

  /** A step under a token of an older generation leaves the active slot's
      counters and every later generation alone. */
  lemma StaleTokensAreInert(s: State, t: nat)
    requires Inv(s) && t in s.threads && s.threads[t].gen != s.active
    ensures
      var r, p := Next(s, Advance(t)), Parity(s.active);
      && r.active == s.active
      && r.slots[p].counters == s.slots[p].counters && r.slots[p].boundary == s.slots[p].boundary
      && (forall g :: s.threads[t].gen < g <= s.active ==> r.ids[g] == s.ids[g])
      && (s.threads[t].pc != Pinned ==> forall q :: 0 <= q < 2 ==> r.slots[q].counters == s.slots[q].counters)
  {
    hide SlotsOk, WorkOk, SeenOk, IdsOk, HoldersOk, Bump, Mark;
    assert Sound(s, t);
  }

  /** A validated recording is never lost: it adds one to exactly its counters, in
      the slot of its own generation, and the other slot is untouched. */
  lemma ValidatedRecordingCounts(s: State, t: nat)
    requires Inv(s) && t in s.threads && s.threads[t].pc == Pinned && !s.threads[t].work.Snapshot?
    ensures
      var r, p := Next(s, Advance(t)), Parity(s.threads[t].gen);
      && r.slots[1 - p] == s.slots[1 - p] && r.slots[p].users == s.slots[p].users
      && forall c :: 0 <= c < COUNTERS ==>
           r.slots[p].counters[c] == s.slots[p].counters[c] + (if CountsIn(s.threads[t].work, c) then 1 else 0)
  {
    hide SlotsOk, HoldersOk, IdsOk, SeenOk, WorkOk, Mark;
    assert Sound(s, t);
    BumpedIsCountsIn(s.threads[t].work);
  }

  lemma BumpedIsCountsIn(work: Work)
    ensures forall c :: c in Bumped(work) <==> CountsIn(work, c)
  {
  }

  /** The counters a thread of the active generation that has finished is in. */
  predicate HasCounted(work: Work, c: nat) { CountsIn(work, c) || (work.Finish? && c == PREPARED) }

  /** In every reachable state: a recorder that is done while its generation is active
      has counted, in exactly the counters of its event. */
  lemma FinishedRecorderHasCounted(s: State, t: nat, c: nat)
    requires Inv(s) && t in s.threads && s.threads[t].pc == Done && s.threads[t].gen == s.active && c < COUNTERS
    ensures t in s.ids[s.active][c] <==> HasCounted(s.threads[t].work, c)
  {
    hide SlotsOk, HoldersOk, IdsOk, SeenOk;
    assert Sound(s, t);
    assert Bumps(s.ids[s.active], t, c) <==> t in s.ids[s.active][c];
  }

  /** The recorders of the active generation whose event belongs to counter c, all of
      them or those that are done. */
  ghost function Recorders(s: State, c: nat, finished: bool): set<nat>
  {
    set t | t in s.threads && s.threads[t].gen == s.active && HasCounted(s.threads[t].work, c)
            && (finished ==> s.threads[t].pc == Done)
  }

  lemma Smaller<T>(a: set<T>, b: set<T>)
    requires a <= b
    ensures |a| <= |b|
  {
    assert b == a + (b - a);
  }

  /** A counter of the active slot lies between the recorders of its events that are
      done and all there are; with none under way it is their number. */
  lemma CountersAreTheRecorders(s: State, c: nat)
    requires Inv(s) && c < COUNTERS
    ensures |Recorders(s, c, true)| <= s.slots[Parity(s.active)].counters[c] <= |Recorders(s, c, false)|
  {
    hide HoldersOk, GuardOk, SeenOk, SlotsOk, WorkOk, Balanced;
    SlotShowsActive(s);
    forall t | t in Recorders(s, c, true) ensures t in s.ids[s.active][c] { FinishedRecorderHasCounted(s, t, c); }
    forall t | t in s.ids[s.active][c] ensures t in Recorders(s, c, false) {
      assert IdsOk(s, s.active) && Owned(s, s.active);
      CountedBelongs(s, t, c);
    }
    Smaller(Recorders(s, c, true), s.ids[s.active][c]);
    Smaller(s.ids[s.active][c], Recorders(s, c, false));
  }

  lemma CountedBelongs(s: State, t: nat, c: nat)
    requires Inv(s) && t in s.threads && s.threads[t].gen == s.active && c < COUNTERS && t in s.ids[s.active][c]
    ensures HasCounted(s.threads[t].work, c)
  {
    hide SlotsOk, HoldersOk, IdsOk, SeenOk;
    assert Sound(s, t);
    assert Bumps(s.ids[s.active], t, c);
  }

  lemma StepKeepsIds(s: State, a: Action, g: nat, c: nat)
    requires Inv(s) && g <= s.active && c < COUNTERS
    ensures g < |Next(s, a).ids| && c < |Next(s, a).ids[g]| && s.ids[g][c] <= Next(s, a).ids[g][c]
  {
    hide SlotsOk, WorkOk, SeenOk, GuardOk, IdsOk, HoldersOk;
  }

  lemma {:induction false} RunKeepsIds(s: State, actions: seq<Action>, g: nat, c: nat)
    requires Inv(s) && g <= s.active && c < COUNTERS
    ensures
      var e := Run(s, actions);
      s.active <= e.active && g < |e.ids| && c < |e.ids[g]| && s.ids[g][c] <= e.ids[g][c]
    decreases |actions|
  {
    hide Inv, Next;
    InvShape(s);
    if actions != [] {
      StepGrows(s, actions[0]);
      StepKeepsIds(s, actions[0], g, c);
      RunKeepsIds(Next(s, actions[0]), actions[1..], g, c);
    }
  }

  lemma InvShape(s: State)
    requires Inv(s)
    ensures ShapeOk(s)
  {
  }

  lemma OneLarger<T>(a: set<T>, b: set<T>, x: T)
    requires a <= b && x in b && x !in a
    ensures |a| + 1 <= |b|
  {
    Smaller(a + {x}, b);
  }

  /** The counters of the active slot after a run that published no reset, for one
      thread that had not counted in c before and has done so now, or not. */
  lemma AddedOne(s: State, actions: seq<Action>, t: nat, c: nat)
    requires Inv(s) && c < COUNTERS && t !in s.ids[s.active][c] && Run(s, actions).active == s.active
    requires t in Run(s, actions).threads && Run(s, actions).threads[t].pc == Done
    requires Run(s, actions).threads[t].gen == s.active
    ensures
      var e, p := Run(s, actions), Parity(s.active);
      e.slots[p].counters[c] >= s.slots[p].counters[c] + (if HasCounted(e.threads[t].work, c) then 1 else 0)
  {
    hide HoldersOk, GuardOk, SeenOk, SlotsOk, WorkOk, IdsOk, Run, HasCounted;
    var e := Run(s, actions);
    SlotShowsActive(s);
    SlotShowsActive(e);
    RunKeepsIds(s, actions, s.active, c);
    FinishedRecorderHasCounted(e, t, c);
    Smaller(s.ids[s.active][c], e.ids[s.active][c]);
    if t in e.ids[s.active][c] { OneLarger(s.ids[s.active][c], e.ids[s.active][c], t); }
  }

  /** A recorder begun under the active generation that is done before a reset is
      published has added one to the counters of its event. Between the two any
      threads may run; t itself may have gone on to the outcome it prepared. */
  lemma RecordersAddOne(s: State, t: nat, work: Work, actions: seq<Action>, c: nat)
    requires Inv(s) && t !in s.threads && (work.Prepare? || work.PeerList?) && c < COUNTERS
    requires
      var e := Run(Next(s, Record(t, work)), actions);
      e.active == s.active && t in e.threads && e.threads[t].pc == Done
    ensures
      var e, p := Run(Next(s, Record(t, work)), actions), Parity(s.active);
      && (e.threads[t].work == work || (work.Prepare? && e.threads[t].work.Finish?))
      && (CountsIn(work, c) ==> e.slots[p].counters[c] >= s.slots[p].counters[c] + 1)
      && (c < PREPARED && e.threads[t].work == Finish(c) ==> e.slots[p].counters[c] >= s.slots[p].counters[c] + 1)
  {
    hide HoldersOk, GuardOk, SeenOk, SlotsOk, WorkOk, IdsOk, Run;
    var r := Next(s, Record(t, work));
    OwnGeneration(s, t);
    assert Owns(s, t, s.active + 1);
    RecordingsStayInTheirGeneration(r, actions, t);
    RunKeepsEvent(r, actions, t);
    AddedOne(r, actions, t, c);
  }

  lemma AdvanceKeepsEvent(s: State, t: nat, u: nat)
    requires Inv(s) && t in s.threads && !s.threads[t].work.Snapshot?
    ensures t in AdvanceStep(s, u).threads && AdvanceStep(s, u).threads[t].work == s.threads[t].work
  {
    hide ShapeOk, SlotsOk, WorkOk, SeenOk, GuardOk, IdsOk, HoldersOk, Bump, Mark, Bumped, Parity;
    if u in s.threads && u != t {
      assert AdvanceStep(s, u).threads == s.threads[u := AdvanceStep(s, u).threads[u]];
    }
  }

  lemma StepKeepsEvent(s: State, a: Action, t: nat)
    requires Inv(s) && t in s.threads && !s.threads[t].work.Snapshot?
    ensures t in Next(s, a).threads
    ensures Next(s, a).threads[t].work == s.threads[t].work
         || (s.threads[t].work.Prepare? && Next(s, a).threads[t].work.Finish?)
  {
    hide ShapeOk, SlotsOk, WorkOk, SeenOk, GuardOk, IdsOk, HoldersOk, AdvanceStep;
    if a.Advance? { AdvanceKeepsEvent(s, t, a.t); }
  }

  lemma {:induction false} RunKeepsEvent(s: State, actions: seq<Action>, t: nat)
    requires Inv(s) && t in s.threads && !s.threads[t].work.Snapshot?
    ensures t in Run(s, actions).threads
    ensures Run(s, actions).threads[t].work == s.threads[t].work
         || (s.threads[t].work.Prepare? && Run(s, actions).threads[t].work.Finish?)
    decreases |actions|
  {
    hide Inv, Next;
    if actions != [] {
      StepKeepsEvent(s, actions[0], t);
      RunKeepsEvent(Next(s, actions[0]), actions[1..], t);
    }
  }

  /** Thread t makes n steps and nobody else any. */
  function Alone(s: State, t: nat, n: nat): (r: State)
    requires Inv(s)
    ensures Inv(r)
  {
    if n == 0 then s else Next(Alone(s, t, n - 1), Advance(t))
  }

  lemma AloneOnce(s: State, t: nat, n: nat)
    requires Inv(s)
    ensures Alone(s, t, 0) == s && Alone(s, t, n + 1) == Next(Alone(s, t, n), Advance(t))
  {
  }

  function Onward(pc: Pc): Pc
  {
    match pc
    case Outside => Loaded
    case Loaded => Counted
    case Counted => Pinned
    case Pinned => Spent
    case _ => Done
  }

  lemma RecorderMovesOn(s: State, t: nat)
    requires Inv(s) && t in s.threads && s.threads[t].pc != Leaving && !s.threads[t].work.Snapshot?
    requires s.threads[t].gen == s.active
    ensures
      var r := Next(s, Advance(t));
      r.active == s.active && t in r.threads && r.threads[t] == s.threads[t].(pc := Onward(s.threads[t].pc))
  {
    hide ShapeOk, SlotsOk, WorkOk, SeenOk, GuardOk, IdsOk, HoldersOk, Bump, Mark, Bumped;
  }

  /** Left alone, a recorder of the active generation is done after five steps. */
  lemma RecorderFinishes(s: State, t: nat)
    requires Inv(s) && t in s.threads && s.threads[t].pc == Outside && !s.threads[t].work.Snapshot?
    requires s.threads[t].gen == s.active
    ensures
      var r := Alone(s, t, 5);
      r.active == s.active && t in r.threads && r.threads[t] == s.threads[t].(pc := Done)
  {
    hide Inv, Next;
    AloneOnce(s, t, 0);
    RecorderMovesOn(s, t);
    AloneOnce(s, t, 1);
    RecorderMovesOn(Alone(s, t, 1), t);
    AloneOnce(s, t, 2);
    RecorderMovesOn(Alone(s, t, 2), t);
    AloneOnce(s, t, 3);
    RecorderMovesOn(Alone(s, t, 3), t);
    AloneOnce(s, t, 4);
    RecorderMovesOn(Alone(s, t, 4), t);
  }

  /** A prepared request can meet any of the three outcomes, and then it counts there. */
  lemma PreparedMeetsItsOutcome(s: State, t: nat, outcome: nat)
    requires Inv(s) && t in s.threads && s.threads[t] == Thread(s.active, Done, Prepare) && outcome <= 2
    ensures
      var r := Alone(Next(s, End(t, outcome)), t, 5);
      && r.active == s.active && t in r.threads && r.threads[t].pc == Done
      && t in r.ids[r.active][outcome] && t in r.ids[r.active][PREPARED]
  {
    hide Inv, Next;
    OutcomeBegins(s, t, outcome);
    var ended := Next(s, End(t, outcome));
    RecorderFinishes(ended, t);
    var r := Alone(ended, t, 5);
    InvShape(r);
    FinishedRecorderHasCounted(r, t, outcome);
    FinishedRecorderHasCounted(r, t, PREPARED);
  }

  lemma OutcomeBegins(s: State, t: nat, outcome: nat)
    requires Inv(s) && t in s.threads && s.threads[t] == Thread(s.active, Done, Prepare) && outcome <= 2
    ensures
      var r := Next(s, End(t, outcome));
      r.active == s.active && t in r.threads && r.threads[t] == Thread(s.active, Outside, Finish(outcome))
  {
  }

  // ----- snapshots -----

  /** Thread t keeps its slot pinned through every state of the run. */
  ghost predicate PinnedThroughout(s: State, actions: seq<Action>, t: nat)
    requires Inv(s)
    decreases |actions|
  {
    && t in s.threads && s.threads[t].pc == Pinned
    && (actions != [] ==> PinnedThroughout(Next(s, actions[0]), actions[1..], t))
  }

  lemma StepKeepsLows(s: State, a: Action, t: nat)
    requires Inv(s) && t in s.threads && s.threads[t].pc == Pinned && s.threads[t].work.Snapshot?
    requires var r := Next(s, a); t in r.threads && Validated(r.threads[t].pc)
    ensures Next(s, a).threads[t].gen == s.threads[t].gen
    ensures Next(s, a).threads[t].work.Snapshot? && Next(s, a).threads[t].work.lows == s.threads[t].work.lows
  {
    hide ShapeOk, SlotsOk, WorkOk, SeenOk, GuardOk, IdsOk, HoldersOk, Bump, Mark;
  }

  lemma {:induction false} RunKeepsLows(s: State, actions: seq<Action>, t: nat)
    requires Inv(s) && PinnedThroughout(s, actions, t) && s.threads[t].work.Snapshot?
    ensures
      var e := Run(s, actions);
      && t in e.threads && e.threads[t].pc == Pinned && e.threads[t].gen == s.threads[t].gen
      && e.threads[t].work.Snapshot? && e.threads[t].work.lows == s.threads[t].work.lows
      && s.marks <= e.marks && s.active <= e.active
    decreases |actions|
  {
    hide Inv, Next;
    if actions != [] {
      assert PinnedThroughout(Next(s, actions[0]), actions[1..], t);
      StepGrows(s, actions[0]);
      StepKeepsLows(s, actions[0], t);
      RunKeepsLows(Next(s, actions[0]), actions[1..], t);
    }
  }

  /** The in-flight gauge as the snapshot computes it. */
  function InflightGauge(seen: seq<nat>): nat
    requires |seen| == COUNTERS
  {
    SatSub(SatSub(SatSub(seen[PREPARED], seen[ACCEPTED]), seen[SOCKET_FAILED]), seen[COMMIT_FAILED])
  }

  /** The next step of t is the final check of a snapshot, and it succeeds. */
  ghost predicate Returns(e: State, t: nat)
    requires Inv(e)
  {
    && t in e.threads && e.threads[t].pc == Pinned
    && t in Next(e, Advance(t)).threads && Next(e, Advance(t)).threads[t].pc == Spent
  }

  /** A snapshot that is returned belongs to one generation, active from its
      validation to its final check: boundary and marker are that generation's,
      each counter is a value the counter had in between, and the sums balance. */
  lemma SnapshotIsLinearizable(s: State, actions: seq<Action>, t: nat)
    requires Inv(s) && t in s.threads && s.threads[t].pc == Counted && s.threads[t].work.Snapshot?
    requires s.active == s.threads[t].gen
    requires PinnedThroughout(Next(s, Advance(t)), actions, t)
    requires Returns(Run(Next(s, Advance(t)), actions), t)
    ensures
      var r, g, p := Next(Run(Next(s, Advance(t)), actions), Advance(t)), s.active, Parity(s.active);
      var answer := r.threads[t].work;
      && r.active == g
      && answer.Snapshot? && answer.boundary == Some(s.slots[p].boundary) == Some(r.slots[p].boundary)
      && |answer.seen| == COUNTERS
      && (forall c :: 0 <= c < COUNTERS ==> s.slots[p].counters[c] <= answer.seen[c] <= r.slots[p].counters[c])
      && InflightGauge(answer.seen) + answer.seen[ACCEPTED] + answer.seen[SOCKET_FAILED] + answer.seen[COMMIT_FAILED]
         == answer.seen[PREPARED]
      && answer.seen[PARSED] + answer.seen[REJECTED] == answer.seen[REQUESTS]
  {
    hide IdsOk, HoldersOk, GuardOk, SlotsOk, Bump, Mark;
    var pinned := Next(s, Advance(t));
    RunKeepsLows(pinned, actions, t);
    assert Shows(s, s.active) by { SlotShowsActive(s); }
    ReturnedSnapshot(Run(pinned, actions), t);
  }

  lemma SlotShowsActive(s: State)
    requires Inv(s)
    ensures Shows(s, s.active)
  {
  }

  lemma ReturnedSnapshot(e: State, t: nat)
    requires Inv(e) && t in e.threads && e.threads[t].pc == Pinned && e.threads[t].work.Snapshot?
    requires Returns(e, t)
    ensures
      var r, g, p := Next(e, Advance(t)), e.active, Parity(e.active);
      var w := e.threads[t].work;
      && r.active == e.active == e.threads[t].gen && r.threads[t].work == w && r.slots == e.slots && r.marks == e.marks
      && w.boundary == Some(e.slots[p].boundary) && e.slots[p].boundary == e.marks[g]
      && |w.seen| == |w.lows| == COUNTERS
      && (forall c :: 0 <= c < COUNTERS ==> w.lows[c] <= w.seen[c] <= e.slots[p].counters[c])
      && w.seen[ACCEPTED] + w.seen[SOCKET_FAILED] + w.seen[COMMIT_FAILED] <= w.seen[PREPARED]
      && w.seen[PARSED] + w.seen[REJECTED] == w.seen[REQUESTS]
  {
    hide IdsOk, HoldersOk, GuardOk, SlotsOk, Bump, Mark;
    SlotShowsActive(e);
    assert Sound(e, t);
  }

  lemma SnapshotMovesOn(s: State, t: nat)
    requires Inv(s) && t in s.threads && s.threads[t].work.Snapshot? && s.threads[t].gen == s.active
    ensures
      var r, th, slot := Next(s, Advance(t)), s.threads[t], s.slots[Parity(s.active)];
      && r.active == s.active && t in r.threads && r.slots[Parity(s.active)].counters == slot.counters
      && r.slots[Parity(s.active)].boundary == slot.boundary && r.threads[t].gen == s.active
      && (th.pc == Outside ==> r.threads[t] == Thread(s.active, Loaded, Snapshot(None, [], [])))
      && (th.pc == Loaded ==> r.threads[t] == th.(pc := Counted))
      && (th.pc == Counted ==> r.threads[t] == Thread(s.active, Pinned, Snapshot(None, [], slot.counters)))
      && (th.pc == Pinned && th.work.boundary.None? ==>
            r.threads[t] == th.(work := th.work.(boundary := Some(slot.boundary))))
      && (th.pc == Pinned && th.work.boundary.Some? && |th.work.seen| < PARSED ==>
            r.threads[t] == th.(work := th.work.(seen := th.work.seen + [slot.counters[|th.work.seen|]])))
      && (th.pc == Pinned && th.work.boundary.Some? && |th.work.seen| == PARSED ==>
            r.threads[t] == th.(work := th.work.(seen := th.work.seen + slot.counters[PARSED..])))
      && (th.pc == Pinned && th.work.boundary.Some? && |th.work.seen| == COUNTERS ==> r.threads[t] == th.(pc := Spent))
      && (th.pc == Spent ==> r.threads[t] == th.(pc := Done))
  {
    hide SlotsOk, WorkOk, SeenOk, GuardOk, IdsOk, HoldersOk, Bump, Mark, Bumped;
  }

  lemma {:induction false} SnapshotReads(s: State, t: nat, n: nat)
    requires Inv(s) && n <= PARSED && t in s.threads && s.threads[t].gen == s.active && s.threads[t].pc == Pinned
    requires s.threads[t].work.Snapshot? && s.threads[t].work.boundary.Some? && s.threads[t].work.seen == []
    ensures
      var r, slot := Alone(s, t, n), s.slots[Parity(s.active)];
      && r.active == s.active && r.slots[Parity(s.active)].counters == slot.counters && |slot.counters| == COUNTERS
      && t in r.threads && r.threads[t] == s.threads[t].(work := s.threads[t].work.(seen := slot.counters[..n]))
  {
    hide Inv, Next;
    InvShape(s);
    if n > 0 {
      SnapshotReads(s, t, n - 1);
      SnapshotMovesOn(Alone(s, t, n - 1), t);
      var counters := s.slots[Parity(s.active)].counters;
      assert counters[..n] == counters[..n - 1] + [counters[n - 1]];
    }
  }

  lemma {:induction false} AloneJoins(s: State, t: nat, m: nat, n: nat)
    requires Inv(s)
    ensures Alone(Alone(s, t, m), t, n) == Alone(s, t, m + n)
  {
    hide Inv, Next;
    if n > 0 { AloneJoins(s, t, m, n - 1); }
  }

  /** In every reachable state: a snapshot that is done has its answer, of one
      generation: that generation's boundary and all seven counters, none larger than
      what the generation has counted by now, balanced among themselves. */
  lemma FinishedSnapshotIsWhole(s: State, t: nat)
    requires Inv(s) && t in s.threads && s.threads[t].work.Snapshot? && s.threads[t].pc == Done
    ensures
      var g, seen := s.threads[t].gen, s.threads[t].work.seen;
      && g <= s.active && s.threads[t].work.boundary == Some(s.marks[g]) && |seen| == COUNTERS
      && (forall c :: 0 <= c < COUNTERS ==> seen[c] <= |s.ids[g][c]|)
      && seen[ACCEPTED] + seen[SOCKET_FAILED] + seen[COMMIT_FAILED] <= seen[PREPARED]
      && seen[PARSED] + seen[REJECTED] == seen[REQUESTS]
  {
    hide SlotsOk, HoldersOk, IdsOk;
  }

  /** A snapshot whose generation was replaced meanwhile starts over. */
  lemma ReplacedSnapshotStartsOver(s: State, t: nat)
    requires Inv(s) && t in s.threads && s.threads[t].work.Snapshot? && s.threads[t].gen != s.active
    ensures
      var r, th := Next(s, Advance(t)), s.threads[t];
      && r.active == s.active && t in r.threads
      && (th.pc == Leaving ==> r.threads[t].pc == Outside && r.threads[t].work.Snapshot?)
      && (th.pc == Counted ==> r.threads[t].pc == Leaving)
      && (th.pc == Pinned && |th.work.seen| == COUNTERS ==> r.threads[t].pc == Leaving)
  {
    hide SlotsOk, WorkOk, GuardOk, IdsOk, HoldersOk;
    if s.threads[t].pc == Pinned && |s.threads[t].work.seen| == COUNTERS { SnapshotHasBoundary(s, t); }
  }

  lemma SnapshotHasBoundary(s: State, t: nat)
    requires Inv(s) && t in s.threads && s.threads[t].work.Snapshot? && s.threads[t].pc == Pinned
    requires s.threads[t].work.seen != []
    ensures s.threads[t].work.boundary.Some?
  {
    hide SlotsOk, IdsOk, HoldersOk;
  }

  /** Left alone, a snapshot returns after eleven steps, with the counters there are. */
  lemma SnapshotFinishes(s: State, t: nat)
    requires Inv(s) && t in s.threads && s.threads[t].pc == Outside && s.threads[t].work.Snapshot?
    ensures
      var r, slot := Alone(s, t, 11), s.slots[Parity(s.active)];
      && r.active == s.active && t in r.threads
      && r.threads[t] == Thread(s.active, Done, Snapshot(Some(slot.boundary), slot.counters, slot.counters))
  {
    hide Inv, Next;
    InvShape(s);
    var a := Next(s, Advance(t));
    SnapshotLooks(s, t);
    var counters := s.slots[Parity(s.active)].counters;
    SnapshotMovesOn(a, t);
    AloneOnce(s, t, 0);
    AloneOnce(s, t, 1);
    SnapshotMovesOn(Alone(s, t, 2), t);
    AloneOnce(s, t, 2);
    SnapshotMovesOn(Alone(s, t, 3), t);
    AloneOnce(s, t, 3);
    SnapshotReads(Alone(s, t, 4), t, 4);
    AloneJoins(s, t, 4, 4);
    SnapshotMovesOn(Alone(s, t, 8), t);
    AloneOnce(s, t, 8);
    assert counters[..4] + counters[4..] == counters;
    SnapshotMovesOn(Alone(s, t, 9), t);
    AloneOnce(s, t, 9);
    SnapshotMovesOn(Alone(s, t, 10), t);
    AloneOnce(s, t, 10);
  }

  lemma SnapshotLooks(s: State, t: nat)
    requires Inv(s) && t in s.threads && s.threads[t].pc == Outside && s.threads[t].work.Snapshot?
    ensures Next(s, Advance(t)) == s.(threads := s.threads[t := Thread(s.active, Loaded, Snapshot(None, [], []))])
  {
  }

  /** Whoever asks for a snapshot and is left alone has it eleven steps later. */
  lemma SnapshotAnswers(s: State, t: nat)
    requires Inv(s) && t !in s.threads
    ensures
      var r, slot := Alone(Next(s, TakeSnapshot(t)), t, 11), s.slots[Parity(s.active)];
      && r.active == s.active && t in r.threads
      && r.threads[t] == Thread(s.active, Done, Snapshot(Some(slot.boundary), slot.counters, slot.counters))
  {
    hide SlotsOk, WorkOk, SeenOk, GuardOk, IdsOk, HoldersOk, Alone;
    SnapshotFinishes(Next(s, TakeSnapshot(t)), t);
  }

  // ----- resets -----

  /** What a reset hands back, known before it publishes. */
  datatype Answer = Answer(generation: nat, boundary: Boundary, counters: seq<nat>)

  function ResetAnswer(r: Resetter): Answer
    requires r.Marked?
  {
    Answer(r.next, r.boundary, Zeros())
  }

  /** The answer of a reset is exactly the state it publishes, and the generation
      it replaces stays readable in the other slot. */
  lemma ResetPublishesItsAnswer(s: State, boundary: Boundary)
    requires Inv(s) && s.resetter.Marked?
    ensures
      var r := Next(s, Reset(boundary));
      var slot := r.slots[Parity(r.active)];
      && ResetAnswer(s.resetter) == Answer(r.active, slot.boundary, slot.counters)
      && r.active == s.active + 1 && r.marks == s.marks + [slot.boundary]
      && r.slots[Parity(s.active)] == s.slots[Parity(s.active)]
  {
  }

  /** In every reachable state the active slot's own counters balance. */
  lemma ActiveSlotBalances(first: Boundary, other: Boundary, actions: seq<Action>)
    ensures
      var s := Run(Initial(first, other), actions);
      var counters := s.slots[Parity(s.active)].counters;
      && counters[ACCEPTED] + counters[SOCKET_FAILED] + counters[COMMIT_FAILED] <= counters[PREPARED]
      && counters[PARSED] + counters[REJECTED] == counters[REQUESTS]
  {
    hide IdsOk, HoldersOk, GuardOk, WorkOk, SlotsOk;
    var s := Run(Initial(first, other), actions);
    SlotShowsActive(s);
    GenerationBalances(s, s.active);
  }

  /** The resetter makes n steps and nobody else any. */
  function ResetAlone(s: State, boundary: Boundary, n: nat): (r: State)
    requires Inv(s)
    ensures Inv(r)
  {
    if n == 0 then s else Next(ResetAlone(s, boundary, n - 1), Reset(boundary))
  }

  lemma {:induction false} ResetClears(s: State, boundary: Boundary, n: nat)
    requires Inv(s) && s.resetter.Waiting? && s.slots[Parity(s.resetter.next)].users == 0 && n <= COUNTERS
    ensures
      var r := ResetAlone(s, boundary, n + 1);
      r.active == s.active && r.resetter == Clearing(s.resetter.next, n)
  {
    hide Inv, Next;
    InvShape(s);
    if n == 0 {
      ResetBegins(s, boundary);
      assert ResetAlone(s, boundary, 0) == s;
    } else {
      ResetClears(s, boundary, n - 1);
      ResetClearsOne(ResetAlone(s, boundary, n), boundary);
    }
  }

  lemma ResetBegins(s: State, boundary: Boundary)
    requires Inv(s) && s.resetter.Waiting? && s.slots[Parity(s.resetter.next)].users == 0
    ensures
      var r := Next(s, Reset(boundary));
      r.active == s.active && r.resetter == Clearing(s.resetter.next, 0)
  {
    hide SlotsOk, WorkOk, SeenOk, GuardOk, IdsOk, HoldersOk;
  }

  lemma ResetClearsOne(s: State, boundary: Boundary)
    requires Inv(s) && s.resetter.Clearing? && s.resetter.cleared < COUNTERS
    ensures
      var r := Next(s, Reset(boundary));
      r.active == s.active && r.resetter == Clearing(s.resetter.next, s.resetter.cleared + 1)
  {
    hide SlotsOk, WorkOk, SeenOk, GuardOk, IdsOk, HoldersOk;
  }

  /** Once the slot to be rewritten has no users, ten more steps publish the next
      generation, whose counters are zero and whose boundary is the one taken last. */
  lemma ResetFinishes(s: State, boundary: Boundary)
    requires Inv(s) && s.resetter.Waiting? && s.slots[Parity(s.resetter.next)].users == 0
    ensures
      var r := ResetAlone(s, boundary, 10);
      && r.active == s.active + 1 && r.resetter.NoReset?
      && r.slots[Parity(r.active)].boundary == boundary && r.slots[Parity(r.active)].counters == Zeros()
  {
    hide WorkOk, SeenOk, GuardOk, IdsOk, HoldersOk;
    ResetClears(s, boundary, COUNTERS);
    var r := ResetAlone(s, boundary, 9);
    assert r == Next(ResetAlone(s, boundary, 8), Reset(boundary));
    assert ResetAlone(s, boundary, 10) == Next(r, Reset(boundary));
    ResetPublishesItsAnswer(r, boundary);
  }

  /** A reset can begin as long as there is a generation left below 2^64, and if the
      other slot has no users by then it publishes the next one ten steps later. */
  lemma ResetPublishesTheNext(s: State, boundary: Boundary)
    requires Inv(s) && s.resetter.NoReset? && s.active < 0xFFFF_FFFF_FFFF_FFFF
    requires s.slots[Parity(s.active + 1)].users == 0
    ensures
      var r := ResetAlone(Next(s, Reset(boundary)), boundary, 10);
      && r.active == s.active + 1 && r.resetter.NoReset?
      && r.slots[Parity(r.active)].boundary == boundary && r.slots[Parity(r.active)].counters == Zeros()
  {
    hide SlotsOk, WorkOk, SeenOk, GuardOk, IdsOk, HoldersOk, ResetAlone;
    ResetFinishes(Next(s, Reset(boundary)), boundary);
  }
}
