/** One reader of the PCM bus: a whole read, and its books over all reads. */
module BusReader {
  import opened Prelude
  import opened BusModel
  import opened BusProof
  import opened BusAlign
  import opened BusAccess
  import VersionLock

  datatype PcmRead = PcmRead(copied: nat, silence: nat, dropped: nat, late: nat,
                             sessionId: Option<nat>, epoch: nat)

  /** A timed read names the output's gate and, when known, the block's time. */
  datatype Request = Request(gate: nat, atNs: Option<real>)

  /** The reader's books since it last started an epoch: the fate of every
      sequence number from `base` on, and the totals its reads reported. */
  datatype Account = Account(base: nat, history: seq<Fate>, copied: nat, dropped: nat, late: nat)
  {
    function End(): nat { base + |history| }
  }

  predicate FateOk(m: Bus, epoch: nat, q: nat, fate: Fate)
  {
    match fate
    case Delivered => q < |m.log| && m.log[q].epoch == epoch
    case Dropped => q < m.floor
    case Late => q < |m.log| && m.log[q].data.gate != 0
    case Stray => q < |m.log| && m.log[q].data.gate == 0
    case Voided => true
  }

  predicate AccountOk(m: Bus, epoch: nat, acc: Account)
  {
    && epoch <= m.control
    && acc.End() <= m.nextSeq
    && CountsOk(acc.history, acc.copied, acc.dropped, acc.late)
    && (forall i :: 0 <= i < |acc.history| ==> FateOk(m, epoch, acc.base + i, acc.history[i]))
    && (Even(epoch) && epoch == m.control ==>
          && m.resetSeq <= acc.base && acc.End() <= m.head
          && (!m.timed ==> OnlyCopiedOrDropped(acc.history)))
  }

  predicate OnlyCopiedOrDropped(fates: seq<Fate>)
  {
    forall i :: 0 <= i < |fates| ==> fates[i] == Delivered || fates[i] == Dropped
  }

  /** Other threads cannot spoil the books. */
  lemma AccountIsStable(b: Ring, c: Ring, epoch: nat, acc: Account)
    requires Later(b, c) && AccountOk(b, epoch, acc)
    ensures AccountOk(c, epoch, acc)
  {
    forall i | 0 <= i < |acc.history| ensures FateOk(c, epoch, acc.base + i, acc.history[i]) {
      assert FateOk(b, epoch, acc.base + i, acc.history[i]);
    }
  }

  lemma {:induction false} FatesAddUp(fates: seq<Fate>)
    ensures var n := multiset(fates);
            |fates| == n[Delivered] + n[Dropped] + n[Late] + n[Stray] + n[Voided]
  {
    if fates != [] {
      var front := fates[..|fates| - 1];
      var last := fates[|fates| - 1];
      assert fates == front + [last];
      assert forall f :: multiset(fates)[f] == multiset(front)[f] + (if f == last then 1 else 0);
      FatesAddUp(front);
    }
  }

  lemma NoOtherFates(fates: seq<Fate>)
    requires OnlyCopiedOrDropped(fates)
    ensures multiset(fates)[Late] == 0 && multiset(fates)[Stray] == 0 && multiset(fates)[Voided] == 0
  {
  }

  /** Conservation on an untimed stream: every frame of the epoch so far has
      been delivered, or counted once as dropped, or is still unread. */
  lemma FramesAreConserved(m: Ring, epoch: nat, acc: Account)
    requires AccountOk(m, epoch, acc) && Even(epoch) && epoch == m.control && !m.timed
    ensures acc.copied + acc.dropped + (m.head - acc.End()) == m.head - acc.base
    ensures acc.late == 0
  {
    FatesAddUp(acc.history);
    NoOtherFates(acc.history);
  }

  /** On any stream the only frames missing from the counters are untimed frames
      on a timed stream, and those a voided read had already passed. */
  lemma UncountedFrames(m: Ring, epoch: nat, acc: Account)
    requires AccountOk(m, epoch, acc)
    ensures var n := multiset(acc.history);
            acc.End() - acc.base == acc.copied + acc.dropped + acc.late + n[Stray] + n[Voided]
    ensures forall i :: 0 <= i < |acc.history| && acc.history[i] == Stray ==>
              acc.base + i < |m.log| && m.log[acc.base + i].data.gate == 0
  {
    FatesAddUp(acc.history);
    forall i | 0 <= i < |acc.history| && acc.history[i] == Stray
      ensures acc.base + i < |m.log| && m.log[acc.base + i].data.gate == 0
    {
      assert FateOk(m, epoch, acc.base + i, acc.history[i]);
    }
  }

  function Repeat(fate: Fate, n: nat): (s: seq<Fate>)
    ensures |s| == n && (forall i :: 0 <= i < n ==> s[i] == fate)
  {
    seq(n, _ => fate)
  }

  lemma {:induction false} RepeatCounts(fate: Fate, n: nat, other: Fate)
    ensures multiset(Repeat(fate, n))[other] == if other == fate then n else 0
  {
    if n > 0 {
      assert Repeat(fate, n) == Repeat(fate, n - 1) + [fate];
      RepeatCounts(fate, n - 1, other);
    }
  }

  /** What one read did to the frames it passed, in terms of the header it loaded. */
  predicate GatherFate(m: Bus, h: Header, q: nat, fate: Fate)
  {
    match fate
    case Dropped => q < m.floor
    case Voided => false
    case _ =>
      && q < |m.log| && h.session != 0
      && (h.timed ==> h.installedGate == h.gate)
      && (fate == Delivered && h.timed ==> m.log[q].data.gate == h.gate)
      && (fate == Late ==> h.timed && m.log[q].data.gate == h.gate)
      && (fate == Stray ==> h.timed && m.log[q].data.gate != h.gate)
  }

  predicate GatherOk(m: Bus, h: Header, start: nat, fates: seq<Fate>)
  {
    forall i :: 0 <= i < |fates| ==> GatherFate(m, h, start + i, fates[i])
  }

  lemma GatherIsStable(b: Bus, c: Bus, h: Header, start: nat, fates: seq<Fate>)
    requires Later(b, c) && GatherOk(b, h, start, fates)
    ensures GatherOk(c, h, start, fates)
  {
  }

  lemma GatherJoins(m: Bus, h: Header, start: nat, a: seq<Fate>, b: seq<Fate>)
    requires GatherOk(m, h, start, a) && GatherOk(m, h, start + |a|, b)
    ensures GatherOk(m, h, start, a + b)
  {
  }

  lemma CopiedIsGathered(m: Bus, h: Header, start: nat, fates: seq<Fate>)
    requires CopyOk(m, start, fates, h.timed, h.gate)
    requires h.session != 0 && (h.timed ==> h.installedGate == h.gate)
    ensures GatherOk(m, h, start, fates)
  {
  }

  /** When no reset came in between, a gathered fate holds for the epoch. */
  lemma GatheredFatesHold(m: Ring, h: Header, start: nat, fates: seq<Fate>)
    requires Even(h.epoch) && m.control == h.epoch && h.session == m.activeSession
    requires h.timed == m.timed && h.installedGate == m.installedGate && m.resetSeq <= start
    requires GatherOk(m, h, start, fates)
    ensures forall i :: 0 <= i < |fates| ==> FateOk(m, h.epoch, start + i, fates[i])
    ensures forall i :: 0 <= i < |fates| && fates[i] == Delivered ==>
              start + i < |m.log| && m.log[start + i].epoch == h.epoch && m.log[start + i].session == h.session
    ensures !m.timed ==> OnlyCopiedOrDropped(fates)
  {
  }

  // ----- one read -----

  /** The reader's own fields. */
  datatype ReaderState = ReaderState(cursor: nat, epoch: nat, gate: nat, primed: bool, needsRealign: bool)

  /** A read's course: the header it loaded, whether that header and the final
      check held, where it started, the frames it passed as evicted and as late,
      the silent frames the block starts with, and the frames it tried to copy.
      `lost` says that the timed search met an evicted frame. */
  datatype Trace = Trace(header: Header, loaded: bool, passed: bool, from: nat, evicted: nat, late: nat,
                         leading: nat, waiting: bool, lost: bool, copies: seq<Fate>)
  {
    function Fates(): seq<Fate> { Skipped(evicted, late) + copies }

    /** First frame a timed search looks at, and first frame copied. */
    function Start(): nat { from + evicted }

    function First(): nat { from + evicted + late }
  }

  /** The gate in force once a read has announced its own, if it has one. */
  function Asked(request: Option<Request>, gate: nat): nat { if request.Some? then request.value.gate else gate }

  predicate TimedRead(request: Option<Request>, h: Header) { request.Some? && h.timed }

  /** There is no session, or its stream is not the one the output asks for. */
  predicate Closed(h: Header) { h.session == 0 || (h.timed && h.installedGate != h.gate) }

  /** The reader once it has taken over a header: a new epoch starts at its reset
      point, and a new epoch or gate ends established playback. */
  function Entered(was: ReaderState, h: Header): ReaderState
  {
    var same := was.epoch == h.epoch;
    ReaderState(if same then was.cursor else h.reset, h.epoch, h.gate,
                was.primed && same && (h.timed ==> was.gate == h.gate), was.needsRealign)
  }

  /** The read continues established playback instead of starting anew. */
  predicate StaysPrimed(s: ReaderState, h: Header, request: Option<Request>)
  {
    s.primed && (TimedRead(request, h) ==> !s.needsRealign && h.floor <= s.cursor)
  }

  /** Established playback lasts through waiting and through complete blocks only. */
  function Moved(s: ReaderState, t: Trace, request: Option<Request>, copied: nat, n: nat): ReaderState
  {
    s.(cursor := t.from + |t.Fates()|,
       primed := if t.waiting then StaysPrimed(s, t.header, request) else copied == n - t.leading && copied != 0,
       needsRealign := s.needsRealign && !TimedRead(request, t.header))
  }

  lemma MovedIsTheSame(s: ReaderState, g: Trace, request: Option<Request>, copied: nat, n: nat)
    requires g.leading <= n
    ensures Moved(s, g.(passed := true), request, copied, n) == Moved(s, g, request, copied, n)
    ensures Moved(s, g.(passed := false), request, 0, n).(primed := false)
         == Moved(s, g, request, copied, n).(primed := false)
    ensures Moved(s, g, request, copied, n).cursor == g.from + |g.Fates()|
    ensures Moved(s, g, request, copied, n).epoch == s.epoch
  {
  }

  /** Where a read begins and whether it plays: a closed bus and an untimed start
      below the prebuffer wait; a timed start without a time waits; a timed start
      with a time begins where the alignment ends. */
  predicate StartOk(log: seq<Entry>, floor: nat, primed: bool, request: Option<Request>, prebuffer: nat,
                    n: nat, t: Trace)
  {
    var h := t.header;
    if Closed(h) then t.late == 0 && t.leading == 0 && t.waiting && !t.lost
    else if primed || !TimedRead(request, h) then
      && t.late == 0 && t.leading == 0 && !t.lost
      && (t.waiting <==> !primed && !TimedRead(request, h) && h.head - t.Start() < prebuffer)
    else if request.value.atNs.None? then t.late == 0 && t.leading == 0 && t.waiting && !t.lost
    else
      && LogOk(log) && h.head <= |log|
      && PassedLate(log, t.Start(), t.First(), h.gate, request.value.atNs.value)
      && if t.lost then t.waiting && t.leading == 0 && t.First() < h.head && t.First() < floor
         else Alignment(t.First(), t.leading, t.waiting)
              == Align(log, t.Start(), h.head, h.gate, request.value.atNs.value, n)
  }

  lemma StartIsStable(b: Ring, c: Ring, primed: bool, request: Option<Request>, prebuffer: nat, n: nat, t: Trace)
    requires Later(b, c) && StartOk(b.log, b.floor, primed, request, prebuffer, n, t)
    ensures StartOk(c.log, c.floor, primed, request, prebuffer, n, t)
  {
    hide Inv, SlotLater, Align, PlaysLate;
    RingLog(c);
    var h := t.header;
    if !Closed(h) && !primed && TimedRead(request, h) && request.value.atNs.Some? {
      var at := request.value.atNs.value;
      AlignIsStable(b.log, c.log, t.Start(), h.head, h.gate, at, n);
      PassedIsStable(b.log, c.log, t.Start(), t.First(), h.gate, at);
    }
  }

  lemma PassedIsStable(log: seq<Entry>, longer: seq<Entry>, c: nat, d: nat, gate: nat, targetNs: real)
    requires log <= longer && PassedLate(log, c, d, gate, targetNs)
    ensures PassedLate(longer, c, d, gate, targetNs)
  {
    forall q | c <= q < d ensures longer[q].data.gate == gate && PlaysLate(longer, q, targetNs) {
      assert longer[q] == log[q];
    }
  }

  /** The block is filled as far as the loaded head reaches, unless the read waits. */
  predicate FillOk(t: Trace, n: nat)
  {
    && t.evicted == SatSub(t.header.floor, t.from)
    && t.leading <= n && t.First() + |t.copies| <= t.header.head
    && |t.copies| == if t.waiting then 0 else Min(t.header.head - t.First(), n - t.leading)
  }

  /** No reset between two moments and, on a timed stream, no gate change to come. */
  predicate NothingIntervenes(b: Bus, m: Bus, schedule: seq<seq<Action>>)
  {
    Even(m.control) && m.control == b.control && (!m.timed || GateQuiet(schedule))
  }

  /** The header's epoch is over, or on a timed stream its gate is no longer asked for. */
  predicate Interrupted(h: Header, m: Bus)
  {
    !Even(h.epoch) || m.control != h.epoch || (h.timed && m.requiredGate != h.gate)
  }

  /** The words a reader publishes for the writer. */
  function Words(s: ReaderState): seq<int> { [s.cursor, s.epoch, s.gate, if s.primed then 1 else 0] }

  /** Every publication speaks of frames and epochs there have been. */
  ghost predicate Told(l: VersionLock.Lock, m: Bus)
  {
    && |l.words| == 4
    && forall words :: words in l.published ==>
         && |words| == 4 && 0 <= words[0] <= m.nextSeq && 0 <= words[1] <= m.control
         && words[2] >= 0 && 0 <= words[3] <= 1
  }

  /** Neither other threads nor time spoil what has been told. */
  lemma ToldIsStable(l: VersionLock.Lock, b: Ring, c: Ring)
    requires Told(l, b) && Later(b, c)
    ensures Told(l, c)
  {
    hide Inv, SlotLater;
  }

  /** What the lock holds after its reader has published, or has had no version left. */
  ghost predicate Announced(was: VersionLock.Lock, l: VersionLock.Lock, s: ReaderState)
  {
    if was.version + 2 <= U64_MAX then l.published == was.published + [Words(s)] && l.words == Words(s)
    else l == was.(closed := true)
  }

  lemma AnnouncedIsTold(was: VersionLock.Lock, l: VersionLock.Lock, m: Bus, epoch: nat, account: Account,
                        s: ReaderState)
    requires Told(was, m) && Announced(was, l, s)
    requires AccountOk(m, epoch, account) && account.End() == s.cursor && s.epoch == epoch
    ensures Told(l, m)
  {
  }

  class PcmReader {
    const feedback: VersionLock.SharedLock
    var cursor: nat
    var epoch: nat
    var gate: nat
    var primed: bool
    var needsRealign: bool
    ghost var account: Account

    ghost function State(): ReaderState
      reads this
    {
      ReaderState(cursor, epoch, gate, primed, needsRealign)
    }

    ghost predicate Valid(m: Bus)
      reads this
    {
      AccountOk(m, epoch, account) && account.End() == cursor
    }

    /** Only the reader publishes, and never two words at once. */
    ghost predicate Telling(m: Bus)
      reads feedback
    {
      feedback.l.publisher.Quiet? && |feedback.l.words| == 4 && Told(feedback.l, m)
    }

    /** Subscribing takes the mutex, so no writer is in the middle of a store. The
        writer is told the cursor, and no epoch. */
    constructor Subscribe(bus: SharedBus, schedule: seq<seq<VersionLock.Action>>)
      requires bus.m.writer.Idle?
      ensures fresh(feedback) && Telling(bus.m)
      ensures Valid(bus.m) && account == Account(cursor, [], 0, 0, 0)
      ensures State() == ReaderState(bus.m.nextSeq, bus.m.epoch, bus.m.requiredGate, false, false)
    {
      cursor := bus.m.nextSeq;
      epoch := bus.m.epoch;
      gate := bus.m.requiredGate;
      primed := false;
      needsRealign := false;
      account := Account(bus.m.nextSeq, [], 0, 0, 0);
      feedback := new VersionLock.SharedLock([bus.m.nextSeq, 0, 0, 0], schedule);
    }

    /** Decide whether to wait and, for a timed start, where to begin. */
    method Locate(bus: SharedBus, h: Header, from: nat, evicted: nat, request: Option<Request>, n: nat)
      returns (next: nat, lead: nat, waiting: bool, ghost lost: bool)
      requires HeaderOk(h, bus.m) && from + evicted <= h.head
      modifies bus
      ensures Steady(old(bus.m), old(bus.schedule), bus.m, bus.schedule)
      ensures Later(old(bus.m), bus.m)
      ensures from + evicted <= next <= h.head && lead <= n
      ensures StartOk(bus.m.log, bus.m.floor, primed, request, bus.prebuffer, n,
                      Trace(h, true, false, from, evicted, next - from - evicted, lead, waiting, lost, []))
    {
      hide GateQuiet, Inv, Later, Align;
      LaterReflexive(bus.m);
      RingLog(bus.m);
      next, lead, lost := from + evicted, 0, false;
      waiting := h.session == 0 || (h.timed && h.installedGate != h.gate);
      if !waiting && !primed && request.Some? && h.timed {
        if request.value.atNs.Some? {
          var a;
          a, lost := bus.AlignCursor(next, h.head, h.gate, request.value.atNs.value, n);
          next, lead, waiting := a.cursor, a.leading, a.waiting;
        } else {
          waiting := true;
        }
      }
      waiting := waiting || (!primed && !TimedRead(request, h) && h.head - next < bus.prebuffer);
    }

    /** Fill the block from `next` on, unless the reader has to wait. */
    method Fill(bus: SharedBus, out: array<Stereo>, h: Header, next: nat, lead: nat, waiting: bool)
      returns (copied: nat, gone: nat, ghost copies: seq<Fate>)
      requires next <= h.head <= bus.m.head && lead <= out.Length && Silent(out[..])
      requires !waiting ==> !Closed(h)
      modifies this`cursor, this`primed, bus, out
      ensures Steady(old(bus.m), old(bus.schedule), bus.m, bus.schedule)
      ensures Later(old(bus.m), bus.m)
      ensures cursor == next + |copies| <= h.head && copied <= |copies|
      ensures |copies| == if waiting then 0 else Min(h.head - next, out.Length - lead)
      ensures CountsOk(copies, copied, gone, 0) && GatherOk(bus.m, h, next, copies)
      ensures Played(out[..], bus.m.log, next, copies, lead)
      ensures primed == if waiting then old(primed) else copied == out.Length - lead && copied != 0
    {
      hide GateQuiet, Inv, Later, Played;
      cursor := next;
      if waiting {
        LaterReflexive(bus.m);
        EmptyCopy(bus.m, next, out[..], lead, h.timed, h.gate);
        return 0, 0, [];
      }
      var wanted := out.Length - lead;
      var available, lost := Min(h.head - next, wanted), false;
      cursor := next + available;
      copied, gone, lost, copies := bus.CopyFrames(out, next, available, lead, h.timed, h.gate);
      CopiedIsGathered(bus.m, h, next, copies);
      primed := copied == wanted && wanted != 0;
      if available < wanted || lost { primed := false; }
    }

    /** Evicted frames, then the frames a timed start passes as late. */
    method Approach(bus: SharedBus, h: Header, request: Option<Request>, n: nat)
      returns (evicted: nat, late: nat, lead: nat, waiting: bool, ghost lost: bool)
      requires HeaderOk(h, bus.m) && cursor <= h.head
      modifies this`primed, this`needsRealign, bus
      ensures Steady(old(bus.m), old(bus.schedule), bus.m, bus.schedule)
      ensures Later(old(bus.m), bus.m)
      ensures evicted == SatSub(h.floor, cursor) && cursor + evicted + late <= h.head && lead <= n
      ensures primed == StaysPrimed(old(State()), h, request)
      ensures needsRealign == (old(needsRealign) && !TimedRead(request, h))
      ensures StartOk(bus.m.log, bus.m.floor, primed, request, bus.prebuffer, n,
                      Trace(h, true, false, cursor, evicted, late, lead, waiting, lost, []))
    {
      hide GateQuiet, Inv, Later, StartOk;
      var timed := request.Some? && h.timed;
      evicted := SatSub(h.floor, cursor);
      if timed && (needsRealign || evicted > 0) { primed := false; }
      if timed { needsRealign := false; }
      var next;
      next, lead, waiting, lost := Locate(bus, h, cursor, evicted, request, n);
      late := next - (cursor + evicted);
    }

    /** Announce the gate, load the published words, clear the block. */
    method Begin(bus: SharedBus, out: array<Stereo>, request: Option<Request>) returns (ok: bool, h: Header)
      requires Valid(bus.m)
      modifies bus, out
      ensures Valid(bus.m) && Later(old(bus.m), bus.m) && Silent(out[..])
      ensures ok ==> HeaderOk(h, bus.m) && old(bus.m).head <= h.head
      ensures GateQuiet(old(bus.schedule)) ==>
        GateQuiet(bus.schedule) && bus.m.requiredGate == h.gate == Asked(request, old(bus.m).requiredGate)
      ensures old(bus.m).control <= h.epoch <= bus.m.control
      ensures !ok ==> !Even(h.epoch) || bus.m.control != h.epoch
    {
      ghost var start := bus.m;
      LaterReflexive(start);
      if request.Some? { bus.SetRequiredGate(request.value.gate); }
      ghost var gated := bus.m;
      ok, h := bus.LoadHeader();
      LaterTransitive(start, gated, bus.m);
      AccountIsStable(start, bus.m, epoch, account);
      Silence(out);
    }

    /** Take over the header's epoch and gate. */
    method Enter(h: Header)
      modifies this`cursor, this`epoch, this`gate, this`primed
      ensures State() == Entered(old(State()), h)
    {
      if epoch != h.epoch {
        cursor, epoch, primed := h.reset, h.epoch, false;
      }
      if h.timed && gate != h.gate { primed := false; }
      gate := h.gate;
    }

    /** From the loaded header up to the final check. */
    method Gather(bus: SharedBus, out: array<Stereo>, h: Header, request: Option<Request>)
      returns (copied: nat, dropped: nat, late: nat, ghost t: Trace)
      requires HeaderOk(h, bus.m) && cursor <= h.head && Silent(out[..])
      modifies this`cursor, this`primed, this`needsRealign, bus, out
      ensures Steady(old(bus.m), old(bus.schedule), bus.m, bus.schedule)
      ensures Later(old(bus.m), bus.m)
      ensures t.header == h && t.loaded && !t.passed && t.from == old(cursor) && copied <= out.Length
      ensures FillOk(t, out.Length) && Collected(bus.m, h, out[..], t, copied, dropped, late)
      ensures StartOk(bus.m.log, bus.m.floor, StaysPrimed(old(State()), h, request), request, bus.prebuffer,
                      out.Length, t)
      ensures State() == Moved(old(State()), t, request, copied, out.Length)
    {
      hide GateQuiet, Inv, Later, StartOk, Played, Collected, GatherOk, CountsOk, HeaderOk, Silent, StaysPrimed;
      ghost var loaded, stays := bus.m, StaysPrimed(State(), h, request);
      ghost var from := cursor;
      var evicted, lead, waiting;
      ghost var lost;
      evicted, late, lead, waiting, lost := Approach(bus, h, request, out.Length);
      ghost var approached := bus.m;
      ghost var begun := Trace(h, true, false, from, evicted, late, lead, waiting, lost, []);
      StartIsGathered(loaded, approached, stays, request, bus.prebuffer, out.Length, begun);
      var gone;
      ghost var copies;
      copied, gone, copies := Fill(bus, out, h, cursor + evicted + late, lead, waiting);
      dropped := evicted + gone;
      t := begun.(copies := copies);
      CollectSummary(loaded, approached, bus.m, h, out[..], t, copied, gone);
      CollectStart(approached, bus.m, stays, request, bus.prebuffer, out.Length, begun, t);
    }

    /** The final check, and what is kept or voided by it: everything gathered since the
        header was loaded in state `s` with these books. */
    method Conclude(bus: SharedBus, out: array<Stereo>, h: Header, request: Option<Request>, copied: nat,
                    dropped: nat, late: nat, ghost loaded: Ring, ghost gathered: Ring, ghost s: ReaderState,
                    ghost books: Account, ghost g: Trace)
      returns (read: PcmRead, ghost lin: Ring, ghost t: Trace)
      requires HeaderOk(h, loaded) && Later(loaded, gathered) && Later(gathered, bus.m)
      requires AccountOk(loaded, h.epoch, books) && h.reset <= books.base && books.End() == g.from == s.cursor
      requires g.header == h && g.loaded && !g.passed && FillOk(g, out.Length) && copied <= out.Length
      requires Collected(gathered, h, out[..], g, copied, dropped, late) && s.epoch == h.epoch
      requires StartOk(gathered.log, gathered.floor, StaysPrimed(s, h, request), request, bus.prebuffer, out.Length, g)
      requires State() == Moved(s, g, request, copied, out.Length)
      modifies this, bus, out
      ensures Steady(old(bus.m), old(bus.schedule), bus.m, bus.schedule)
      ensures Valid(bus.m) && Later(old(bus.m), lin) && Later(lin, bus.m) && t == g.(passed := t.passed)
      ensures read.copied + read.silence == out.Length
      ensures read.epoch == (if t.passed then h.epoch else 0) && (!t.passed ==> Interrupted(h, bus.m))
      ensures read.epoch == 0 ==> read.copied == read.dropped == read.late == 0 && Silent(out[..])
      ensures t.passed ==> ReadOk(lin, bus.m, read, out[..], t, s, request, bus.prebuffer)
      ensures t.passed && h.timed ==> bus.m.requiredGate == h.gate
      ensures account == Extended(books, read, t)
      ensures State() == var moved := Moved(s, t, request, read.copied, out.Length);
                         if t.passed then moved else moved.(primed := false)
    {
      hide GateQuiet, Inv, Later, AccountOk, Collected, Interrupted, HeaderOk, StartOk, FillOk, Silent;
      hide ReadOk, StaysPrimed, CountsOk, Moved;
      ghost var start, block := bus.m, out[..];
      FillIsShort(g, out.Length);
      MovedIsTheSame(s, g, request, copied, out.Length);
      var ok;
      ok, lin := bus.FinalCheck(h);
      t := g.(passed := ok);
      LaterTransitive(gathered, start, lin);
      LaterTransitive(loaded, gathered, lin);
      LaterTransitive(loaded, lin, bus.m);
      if ok {
        read := PcmRead(copied, out.Length - copied, dropped, late, FromWire(h.session), h.epoch);
        ReadPasses(loaded, gathered, lin, bus.m, h, books, read, block, g, t, s, request, bus.prebuffer);
      } else {
        Silence(out);
        primed := false;
        read := PcmRead(0, out.Length, 0, 0, FromWire(h.session), 0);
        CheckFailed(h, bus.m);
        ReadVoids(loaded, bus.m, h, books, |t.Fates()|);
      }
      account := Extended(books, read, t);
    }

    /** The read under a header that held: gather, check, and keep or void. */
    method ReadUnder(bus: SharedBus, out: array<Stereo>, h: Header, request: Option<Request>, ghost books: Account)
      returns (read: PcmRead, ghost lin: Ring, ghost t: Trace)
      requires HeaderOk(h, bus.m) && Silent(out[..]) && epoch == h.epoch
      requires AccountOk(bus.m, h.epoch, books) && h.reset <= books.base && cursor == books.End() <= h.head
      modifies this, bus, out
      ensures Steady(old(bus.m), old(bus.schedule), bus.m, bus.schedule)
      ensures Valid(bus.m) && Later(old(bus.m), lin) && Later(lin, bus.m)
      ensures read.copied + read.silence == out.Length && t.header == h && t.loaded
      ensures read.epoch == (if t.passed then h.epoch else 0) && (!t.passed ==> Interrupted(h, bus.m))
      ensures read.epoch == 0 ==> read.copied == read.dropped == read.late == 0 && Silent(out[..])
      ensures t.passed ==> ReadOk(lin, bus.m, read, out[..], t, old(State()), request, bus.prebuffer)
      ensures account == Extended(books, read, t)
      ensures State() == var s := Moved(old(State()), t, request, read.copied, out.Length);
                         if t.passed then s else s.(primed := false)
    {
      hide GateQuiet, Inv, Later, AccountOk, Collected, Interrupted, HeaderOk, StartOk, FillOk, Silent;
      hide ReadOk, StaysPrimed, CountsOk, Extended;
      ghost var loaded, s := bus.m, State();
      var copied, dropped, late;
      ghost var g;
      copied, dropped, late, g := Gather(bus, out, h, request);
      ghost var gathered := bus.m;
      LaterReflexive(gathered);
      read, lin, t := Conclude(bus, out, h, request, copied, dropped, late, loaded, gathered, s, books, g);
      LaterTransitive(loaded, gathered, lin);
    }

    /** Fill `out` without blocking; frames that cannot be had are silent. The
        contract tells the whole course of the read: the header it worked from,
        where it started and why, what became of each frame it passed, what the
        block holds, how the reader and its books are left, and exactly what
        makes a read report no epoch. */
    method ReadFrames(bus: SharedBus, out: array<Stereo>, request: Option<Request>)
      returns (read: PcmRead, ghost lin: Ring, ghost t: Trace)
      requires Valid(bus.m) && Telling(bus.m)
      modifies this, bus, out, feedback`l
      ensures Valid(bus.m) && Telling(bus.m) && Later(old(bus.m), lin) && Later(lin, bus.m)
      ensures if t.loaded then Announced(old(feedback.l), feedback.l, State()) else feedback.l == old(feedback.l)
      ensures read.copied + read.silence == out.Length
      ensures read.epoch == if t.loaded && t.passed then t.header.epoch else 0
      ensures old(bus.m).control <= t.header.epoch <= bus.m.control
      ensures !t.loaded ==> !Even(t.header.epoch) || bus.m.control != t.header.epoch
      ensures !t.passed ==> Interrupted(t.header, bus.m)
      ensures NothingIntervenes(old(bus.m), bus.m, old(bus.schedule)) ==> t.loaded && t.passed
      ensures GateQuiet(old(bus.schedule)) ==>
        bus.m.requiredGate == t.header.gate == Asked(request, old(bus.m).requiredGate)
      ensures read.epoch == 0 ==> read.copied == read.dropped == read.late == 0 && Silent(out[..])
      ensures t.loaded ==> HeaderSince(t.header, old(bus.m), bus.m)
      ensures t.loaded && t.passed ==>
        ReadOk(lin, bus.m, read, out[..], t, Entered(old(State()), t.header), request, bus.prebuffer)
      ensures account == Booked(old(epoch), old(account), read, t)
      ensures State() == StateAfter(old(State()), read.copied, t, request, out.Length)
    {
      hide GateQuiet, Inv, Later, AccountOk, ReadOk, Interrupted, HeaderOk, HeaderSince, Told, Announced;
      ghost var start, was, account0 := bus.m, State(), account;
      var ok, h := Begin(bus, out, request);
      ghost var loaded := bus.m;
      lin := bus.m;
      t := Trace(h, ok, false, 0, 0, 0, 0, true, false, []);
      LaterReflexive(lin);
      if !ok {
        primed := false;
        FailedHeader(start, h, loaded);
        ToldIsStable(feedback.l, start, loaded);
        read := PcmRead(0, out.Length, 0, 0, FromWire(h.session), 0);
        return;
      }
      AccountOpens(start, loaded, h, was.epoch, account0);
      Enter(h);
      read, lin, t := ReadUnder(bus, out, h, request, Opened(h, was.epoch, account0));
      LaterTransitive(start, loaded, lin);
      HeaderIsSince(start, loaded, lin, bus.m, h);
      EpochIsOfTheRead(start, bus.m, h);
      UndisturbedReadsPass(start, bus.m, t);
      LaterTransitive(start, lin, bus.m);
      Tell(bus, start);
    }

    /** Publish the reader's words for the writer. */
    method Tell(bus: SharedBus, ghost start: Ring)
      requires Valid(bus.m) && Telling(start) && Later(start, bus.m)
      modifies feedback`l
      ensures Telling(bus.m) && Announced(old(feedback.l), feedback.l, State())
    {
      hide Inv, Later, AccountOk, Told;
      ToldIsStable(feedback.l, start, bus.m);
      feedback.Publish([cursor, epoch, gate, if primed then 1 else 0]);
      AnnouncedIsTold(old(feedback.l), feedback.l, bus.m, epoch, account, State());
    }

    method Silence(out: array<Stereo>)
      modifies out
      ensures Silent(out[..])
    {
      for i := 0 to out.Length
        invariant forall j :: 0 <= j < i ==> out[j] == SILENCE
      {
        out[i] := SILENCE;
      }
    }
  }

  predicate Silent(out: seq<Stereo>) { forall j :: 0 <= j < |out| ==> out[j] == SILENCE }

  /** What a read that passes has done, judged at its final check: where it began,
      how far it went, what the block holds, what became of each frame passed, and
      on a timed stream that the gate it worked under was still the one asked for. */
  predicate ReadOk(lin: Bus, end: Bus, read: PcmRead, out: seq<Stereo>, t: Trace, s: ReaderState,
                   request: Option<Request>, prebuffer: nat)
  {
    && HeaderOk(t.header, lin) && read.sessionId == FromWire(lin.activeSession) && t.from == s.cursor
    && StartOk(lin.log, lin.floor, StaysPrimed(s, t.header, request), request, prebuffer, |out|, t)
    && FillOk(t, |out|)
    && CountsOk(t.Fates(), read.copied, read.dropped, read.late)
    && Played(out, lin.log, t.First(), t.copies, t.leading)
    && (forall i :: 0 <= i < |t.Fates()| ==> ReadFate(lin, read, t.from + i, t.Fates()[i]))
    && (t.header.timed ==> end.requiredGate == t.header.gate)
  }

  /** A read of a timed stream plays frames of the gate in its header and no others. */
  lemma TimedReadPlaysOneGate(lin: Bus, end: Bus, read: PcmRead, out: seq<Stereo>, t: Trace, s: ReaderState,
                              request: Option<Request>, prebuffer: nat, i: nat)
    requires ReadOk(lin, end, read, out, t, s, request, prebuffer) && t.header.timed
    requires i < |t.Fates()| && t.Fates()[i] == Delivered
    ensures t.from + i < |lin.log| && lin.log[t.from + i].data.gate == t.header.gate == end.requiredGate
  {
    hide Align, PassedLate, Played, CountsOk, LogOk;
    assert ReadFate(lin, read, t.from + i, t.Fates()[i]);
    assert t.copies != [];
  }

  /** Delivered frames were pushed during the reported epoch by the reported
      session, on a timed stream under the gate in force; dropped frames were
      really evicted; late and stray frames are told apart by the gate. */
  predicate ReadFate(lin: Bus, read: PcmRead, q: nat, fate: Fate)
  {
    match fate
    case Delivered =>
      && q < |lin.log| && lin.log[q].epoch == read.epoch && Some(lin.log[q].session) == read.sessionId
      && (lin.timed ==> lin.log[q].data.gate == lin.installedGate)
    case Dropped => q < lin.floor
    case Late => lin.timed && q < |lin.log| && lin.log[q].data.gate == lin.installedGate
    case Stray => lin.timed && q < |lin.log| && lin.log[q].data.gate == 0
    case Voided => false
  }

  /** A header loaded during a read: no older than the read, and as long as its
      epoch lasts its reset point is the bus's. */
  predicate HeaderSince(h: Header, start: Bus, m: Bus)
  {
    && Even(h.epoch) && start.control <= h.epoch <= m.control && start.head <= h.head
    && (m.control == h.epoch ==> h.reset == m.resetSeq && h.timed == m.timed)
  }

  function StateAfter(was: ReaderState, copied: nat, t: Trace, request: Option<Request>, n: nat): ReaderState
  {
    if !t.loaded then was.(primed := false)
    else
      var s := Moved(Entered(was, t.header), t, request, copied, n);
      if t.passed then s else s.(primed := false)
  }

  // ----- when a reader plays -----

  /** The read takes up where complete blocks left off: in the same epoch and, on a
      timed stream, under the same gate; a timed read also needs its place in the ring. */
  predicate Continues(was: ReaderState, h: Header, request: Option<Request>)
  {
    && was.primed && was.epoch == h.epoch && (h.timed ==> was.gate == h.gate)
    && (request.Some? && h.timed ==> !was.needsRealign && h.floor <= was.cursor)
  }

  lemma ContinuingIsStayingPrimed(was: ReaderState, h: Header, request: Option<Request>)
    ensures StaysPrimed(Entered(was, h), h, request) <==> Continues(was, h, request)
  {
  }

  /** The frame a reader is at: its own place or, in a new epoch, the reset point, or
      the oldest frame left if that place was overwritten. */
  function PlaceOf(was: ReaderState, h: Header): nat
  {
    Max(if was.epoch == h.epoch then was.cursor else h.reset, h.floor)
  }

  lemma WaitingIsSilent(lin: Bus, end: Bus, read: PcmRead, out: seq<Stereo>, t: Trace, s: ReaderState,
                        request: Option<Request>, prebuffer: nat)
    requires ReadOk(lin, end, read, out, t, s, request, prebuffer) && t.waiting
    ensures read.copied == 0 && Silent(out)
  {
    hide StartOk, HeaderOk, ReadFate, SilentUntil;
    assert t.Fates() == Skipped(t.evicted, t.late);
    RepeatCounts(Dropped, t.evicted, Delivered);
    RepeatCounts(Late, t.late, Delivered);
    assert multiset(t.Fates())[Delivered] == 0;
    assert forall j :: 0 <= j < |out| ==> !DeliveredAt(t.copies, t.leading, j);
  }

  /** Where a read that passes begins. It waits, and the block is silent, while there is
      no session or another gate; without a time it plays exactly when it continues or
      the prebuffer is there, from its place on and as far as the head reaches; on a
      timed stream an output without a time waits, unless it continues. */
  lemma ReadBeginsAsPromised(lin: Bus, end: Bus, read: PcmRead, out: seq<Stereo>, t: Trace, was: ReaderState,
                             request: Option<Request>, prebuffer: nat)
    requires ReadOk(lin, end, read, out, t, Entered(was, t.header), request, prebuffer)
    ensures
      var h, place, goesOn := t.header, PlaceOf(was, t.header), Continues(was, t.header, request);
      var open := h.session != 0 && (h.timed ==> h.installedGate == h.gate);
      && (t.waiting ==> read.copied == 0 && Silent(out))
      && (!open ==> t.waiting)
      && (open && !(request.Some? && h.timed) ==> (t.waiting <==> !goesOn && h.head - place < prebuffer))
      && (open && request.Some? && h.timed && request.value.atNs.None? ==> (t.waiting <==> !goesOn))
      && (open && goesOn ==> !t.waiting)
      && (open && (goesOn || !(request.Some? && h.timed)) && !t.waiting ==>
            t.leading == 0 && t.First() == place && |t.copies| == Min(h.head - place, |out|))
  {
    hide Align, PassedLate, Played, CountsOk, HeaderOk, Silent, LogOk;
    ContinuingIsStayingPrimed(was, t.header, request);
    if t.waiting { WaitingIsSilent(lin, end, read, out, t, Entered(was, t.header), request, prebuffer); }
  }

  /** How a read leaves the reader: playing on exactly when it filled the block after
      the leading silence, or waited while playing; stopped when it did not pass. */
  lemma PlaybackIsEstablished(lin: Bus, end: Bus, read: PcmRead, out: seq<Stereo>, t: Trace, was: ReaderState,
                              request: Option<Request>, prebuffer: nat)
    requires read.copied + read.silence == |out|
    requires t.passed ==> t.loaded && ReadOk(lin, end, read, out, t, Entered(was, t.header), request, prebuffer)
    ensures
      var s, h := StateAfter(was, read.copied, t, request, |out|), t.header;
      && (!t.passed ==> !s.primed)
      && (t.loaded ==> s.needsRealign == (was.needsRealign && !(request.Some? && h.timed)))
      && (t.passed ==>
            && s.epoch == h.epoch && s.gate == h.gate && s.cursor == t.First() + |t.copies|
            && (s.primed <==> if t.waiting then Continues(was, h, request)
                              else read.copied > 0 && read.silence == t.leading))
  {
    hide Align, StartOk, Played, CountsOk, HeaderOk, Silent, LogOk;
    ContinuingIsStayingPrimed(was, t.header, request);
  }

  /** After a read that was voided or fell short, an untimed stream stays silent until
      the prebuffer is there again. */
  lemma ShortReadRebuffers(
    lin: Bus, end: Bus, read: PcmRead, out: seq<Stereo>, t: Trace, was: ReaderState, request: Option<Request>,
    lin': Bus, end': Bus, read': PcmRead, out': seq<Stereo>, t': Trace, request': Option<Request>, prebuffer: nat)
    requires read.copied + read.silence == |out|
    requires t.passed ==> t.loaded && ReadOk(lin, end, read, out, t, Entered(was, t.header), request, prebuffer)
    requires t.passed ==> !t.waiting && read.copied < |out| - t.leading
    requires
      var s := StateAfter(was, read.copied, t, request, |out|);
      && ReadOk(lin', end', read', out', t', Entered(s, t'.header), request', prebuffer)
      && !t'.header.timed && t'.header.head - PlaceOf(s, t'.header) < prebuffer
    ensures read'.copied == 0 && Silent(out')
  {
    hide ReadOk, StateAfter, Entered, Silent;
    var s := StateAfter(was, read.copied, t, request, |out|);
    PlaybackIsEstablished(lin, end, read, out, t, was, request, prebuffer);
    ReadBeginsAsPromised(lin', end', read', out', t', s, request', prebuffer);
  }

  /** A read that starts by time and passes. It ends at the head, or waits at a frame
      of another gate; or its first frame is due at the start of the block, to half a
      step and a nanosecond; or that frame lies ahead, and the block is silent for as
      long, to half an output frame, or waits because the frame lies beyond it. */
  predicate StartedOnTime(log: seq<Entry>, t: Trace, atNs: real, n: nat)
  {
    var q := t.First();
    || (q >= t.header.head && t.leading == 0 && !t.waiting)
    || (q < t.header.head && q < |log|
        && if log[q].data.gate != t.header.gate then t.waiting && t.leading == 0
           else
             || (!t.waiting && t.leading == 0
                 && AbsReal(atNs - log[q].data.timeNs as real) <= 0.5 * (log[q].data.step * 1000000000.0) + 1.0)
             || (atNs < log[q].data.timeNs as real
                 && SilentUntil(t.leading, t.waiting, log[q].data.timeNs as real - atNs, n)))
  }

  lemma TimedReadStartsOnTime(lin: Ring, end: Bus, read: PcmRead, out: seq<Stereo>, t: Trace, was: ReaderState,
                              request: Option<Request>, prebuffer: nat)
    requires ReadOk(lin, end, read, out, t, Entered(was, t.header), request, prebuffer)
    requires request.Some? && t.header.timed && request.value.atNs.Some? && !Closed(t.header) && !t.lost
    requires !Continues(was, t.header, request)
    ensures StartedOnTime(lin.log, t, request.value.atNs.value, |out|)
    ensures forall j :: 0 <= j < t.leading && j < |out| ==> out[j] == SILENCE
    ensures t.copies != [] && t.copies[0] == Delivered ==>
      t.leading < |out| && t.First() < |lin.log| && out[t.leading] == lin.log[t.First()].data.lr
  {
    hide Inv, Align, PassedLate, PlaysLate, CountsOk, SilentUntil, StaysPrimed;
    ContinuingIsStayingPrimed(was, t.header, request);
    var at := request.value.atNs.value;
    AlignEnds(lin.log, t.Start(), t.header.head, t.header.gate, at, |out|);
    forall j | 0 <= j < t.leading && j < |out| ensures out[j] == SILENCE {
      assert !DeliveredAt(t.copies, t.leading, j);
    }
  }

  /** The books a read continues, or the new ones when the epoch changed. */
  function Opened(h: Header, epoch: nat, account: Account): Account
  {
    if epoch == h.epoch then account else Account(h.reset, [], 0, 0, 0)
  }

  /** A read that passes adds its fates and counters to the books, one that is
      voided only the frames it had passed. */
  function Extended(books: Account, read: PcmRead, t: Trace): Account
  {
    Account(books.base, books.history + (if t.passed then t.Fates() else Repeat(Voided, |t.Fates()|)),
            books.copied + read.copied, books.dropped + read.dropped, books.late + read.late)
  }

  function Booked(epoch: nat, account: Account, read: PcmRead, t: Trace): Account
  {
    if t.loaded then Extended(Opened(t.header, epoch, account), read, t) else account
  }

  lemma AccountOpens(start: Ring, m: Ring, h: Header, epoch: nat, account: Account)
    requires Later(start, m) && HeaderOk(h, m) && start.head <= h.head && start.control <= h.epoch
    requires AccountOk(start, epoch, account)
    ensures AccountOk(m, h.epoch, Opened(h, epoch, account))
    ensures h.reset <= Opened(h, epoch, account).base
    ensures Opened(h, epoch, account).End() <= h.head
  {
    if epoch == h.epoch {
      AccountIsStable(start, m, epoch, account);
    }
  }

  /** The books stay right when a read's fates hold at its final check. */
  lemma AccountExtends(m: Ring, epoch: nat, books: Account, fates: seq<Fate>, copied: nat, dropped: nat, late: nat)
    requires AccountOk(m, epoch, books) && CountsOk(fates, copied, dropped, late)
    requires books.End() + |fates| <= m.head
    requires forall i :: 0 <= i < |fates| ==> FateOk(m, epoch, books.End() + i, fates[i])
    requires Even(epoch) && epoch == m.control && !m.timed ==> OnlyCopiedOrDropped(fates)
    ensures AccountOk(m, epoch, Account(books.base, books.history + fates, books.copied + copied,
                                        books.dropped + dropped, books.late + late))
  {
    hide Inv;
    RingLog(m);
    var history := books.history + fates;
    forall i | 0 <= i < |history| ensures FateOk(m, epoch, books.base + i, history[i]) {
      if i < |books.history| {
        assert FateOk(m, epoch, books.base + i, books.history[i]);
      } else {
        assert FateOk(m, epoch, books.End() + (i - |books.history|), fates[i - |books.history|]);
      }
    }
  }

  /** With the control word unchanged, the loaded header still describes the bus. */
  lemma HeaderStillHolds(loaded: Ring, lin: Ring, h: Header)
    requires HeaderOk(h, loaded) && Later(loaded, lin) && lin.control == h.epoch
    ensures HeaderOk(h, lin)
  {
  }

  lemma NothingRead(loaded: Bus, lin: Bus, h: Header, out: seq<Stereo>, t: Trace, copied: nat, dropped: nat, late: nat)
    requires HeaderOk(h, loaded) && h.epoch == 0 && t.header == h && FillOk(t, |out|)
    requires Collected(lin, h, out, t, copied, dropped, late)
    ensures copied == dropped == late == 0 && Silent(out)
  {
    assert t.Fates() == [];
    forall j | 0 <= j < |out| ensures out[j] == SILENCE {
      assert !DeliveredAt(t.copies, t.leading, j);
    }
  }

  lemma FailedHeader(start: Bus, h: Header, m: Bus)
    requires !Even(h.epoch) || m.control != h.epoch
    requires start.control <= h.epoch <= m.control
    ensures Interrupted(h, m) && !(Even(m.control) && m.control == start.control)
  {
  }

  lemma EpochIsOfTheRead(start: Bus, m: Bus, h: Header)
    requires HeaderSince(h, start, m)
    ensures start.control <= h.epoch <= m.control
  {
  }

  /** Without a reset, and without a gate change on a timed stream, a read passes. */
  lemma UndisturbedReadsPass(start: Bus, m: Bus, t: Trace)
    requires HeaderSince(t.header, start, m) && (!t.passed ==> Interrupted(t.header, m))
    ensures
      Even(m.control) && m.control == start.control && (!m.timed || m.requiredGate == t.header.gate) ==> t.passed
  {
  }

  lemma FillIsShort(t: Trace, n: nat)
    requires FillOk(t, n)
    ensures t.leading <= n && t.from + |t.Fates()| <= t.header.head && t.leading + |t.copies| <= n
  {
  }

  lemma HeaderIsSince(start: Bus, loaded: Ring, lin: Ring, m: Ring, h: Header)
    requires HeaderOk(h, loaded) && start.head <= h.head && start.control <= h.epoch
    requires Later(loaded, lin) && Later(lin, m)
    ensures HeaderSince(h, start, m)
  {
    LaterTransitive(loaded, lin, m);
  }

  lemma CheckFailed(h: Header, m: Bus)
    requires m.control != h.epoch || (h.timed && m.requiredGate != h.gate)
    ensures Interrupted(h, m)
  {
  }

  lemma GatheredAtCheck(gathered: Ring, lin: Ring, h: Header, out: seq<Stereo>, g: Trace, t: Trace, copied: nat,
                        dropped: nat, late: nat, s: ReaderState, request: Option<Request>, prebuffer: nat)
    requires t == g.(passed := true) && FillOk(g, |out|)
    requires Later(gathered, lin) && Collected(gathered, h, out, g, copied, dropped, late)
    requires StartOk(gathered.log, gathered.floor, StaysPrimed(s, h, request), request, prebuffer, |out|, g)
    ensures Collected(lin, h, out, t, copied, dropped, late) && FillOk(t, |out|)
    ensures StartOk(lin.log, lin.floor, StaysPrimed(s, h, request), request, prebuffer, |out|, t)
  {
    hide Inv, Later, Align, PassedLate, StaysPrimed, Played, GatherOk, CountsOk, Interrupted;
    LogGrows(gathered, lin);
    PlayedIsStable(gathered.log, lin.log, out, t.First(), t.copies, t.leading);
    GatherIsStable(gathered, lin, h, t.from, t.Fates());
    StartIsStable(gathered, lin, StaysPrimed(s, h, request), request, prebuffer, |out|, g);
  }

  lemma ReadIsOk(loaded: Ring, lin: Ring, end: Bus, h: Header, read: PcmRead, out: seq<Stereo>, t: Trace,
                 s: ReaderState, request: Option<Request>, prebuffer: nat)
    requires HeaderOk(h, loaded) && Later(loaded, lin) && lin.control == h.epoch && h.reset <= t.from == s.cursor
    requires t.header == h && (h.timed ==> end.requiredGate == h.gate) && FillOk(t, |out|)
    requires read.epoch == h.epoch && read.sessionId == FromWire(h.session)
    requires Collected(lin, h, out, t, read.copied, read.dropped, read.late)
    requires StartOk(lin.log, lin.floor, StaysPrimed(s, h, request), request, prebuffer, |out|, t)
    ensures ReadOk(lin, end, read, out, t, s, request, prebuffer)
  {
    hide Inv, Later, Played, CountsOk, StartOk, FillOk, StaysPrimed;
    var fates := t.Fates();
    HeaderStillHolds(loaded, lin, h);
    GatheredFatesHold(lin, h, t.from, fates);
    forall i | 0 <= i < |fates| ensures ReadFate(lin, read, t.from + i, fates[i]) {
      assert GatherFate(lin, h, t.from + i, fates[i]) && FateOk(lin, h.epoch, t.from + i, fates[i]);
    }
  }

  lemma ReadIsBooked(loaded: Ring, lin: Ring, m: Ring, h: Header, books: Account, read: PcmRead, out: seq<Stereo>,
                     t: Trace)
    requires HeaderOk(h, loaded) && Later(loaded, lin) && Later(lin, m) && lin.control == h.epoch
    requires AccountOk(loaded, h.epoch, books) && h.reset <= books.base && t.header == h && t.passed
    requires t.from == books.End() && t.from + |t.Fates()| <= h.head
    requires Collected(lin, h, out, t, read.copied, read.dropped, read.late)
    ensures AccountOk(m, h.epoch, Extended(books, read, t))
    ensures Extended(books, read, t).End() == t.from + |t.Fates()|
  {
    hide Inv, Later, AccountOk, GatherOk, Played;
    HeaderStillHolds(loaded, lin, h);
    GatheredFatesHold(lin, h, t.from, t.Fates());
    AccountIsStable(loaded, lin, h.epoch, books);
    AccountExtends(lin, h.epoch, books, t.Fates(), read.copied, read.dropped, read.late);
    AccountIsStable(lin, m, h.epoch, Extended(books, read, t));
  }

  lemma ReadPasses(loaded: Ring, gathered: Ring, lin: Ring, end: Ring, h: Header, books: Account, read: PcmRead,
                   out: seq<Stereo>, g: Trace, t: Trace, s: ReaderState, request: Option<Request>, prebuffer: nat)
    requires HeaderOk(h, loaded) && Later(loaded, gathered) && Later(gathered, lin) && Later(lin, end)
    requires lin.control == h.epoch && (h.timed ==> end.requiredGate == h.gate)
    requires AccountOk(loaded, h.epoch, books) && h.reset <= books.base && books.End() == t.from == s.cursor
    requires t == g.(passed := true) && t.header == h && FillOk(g, |out|)
    requires read.epoch == h.epoch && read.sessionId == FromWire(h.session)
    requires Collected(gathered, h, out, g, read.copied, read.dropped, read.late)
    requires StartOk(gathered.log, gathered.floor, StaysPrimed(s, h, request), request, prebuffer, |out|, g)
    ensures ReadOk(lin, end, read, out, t, s, request, prebuffer)
    ensures AccountOk(end, h.epoch, Extended(books, read, t))
    ensures h.epoch == 0 ==> read.copied == read.dropped == read.late == 0 && Silent(out)
  {
    hide Inv, Later, AccountOk, Collected, HeaderOk, StartOk, FillOk, Silent, ReadOk, StaysPrimed, Extended;
    FillIsShort(g, |out|);
    LaterTransitive(loaded, gathered, lin);
    GatheredAtCheck(gathered, lin, h, out, g, t, read.copied, read.dropped, read.late, s, request, prebuffer);
    ReadIsOk(loaded, lin, end, h, read, out, t, s, request, prebuffer);
    ReadIsBooked(loaded, lin, end, h, books, read, out, t);
    if h.epoch == 0 { NothingRead(loaded, lin, h, out, t, read.copied, read.dropped, read.late); }
  }

  lemma ReadVoids(loaded: Ring, m: Ring, h: Header, books: Account, passed: nat)
    requires HeaderOk(h, loaded) && Later(loaded, m) && Interrupted(h, m)
    requires AccountOk(loaded, h.epoch, books) && books.End() + passed <= h.head
    ensures AccountOk(m, h.epoch, Account(books.base, books.history + Repeat(Voided, passed),
                                          books.copied, books.dropped, books.late))
  {
    AccountIsStable(loaded, m, h.epoch, books);
    forall f: Fate ensures multiset(Repeat(Voided, passed))[f] == (if f == Voided then passed else 0) {
      RepeatCounts(Voided, passed, f);
    }
    AccountExtends(m, h.epoch, books, Repeat(Voided, passed), 0, 0, 0);
  }

  function Skipped(evicted: nat, late: nat): (fates: seq<Fate>)
    ensures |fates| == evicted + late && Delivered !in fates
  {
    Repeat(Dropped, evicted) + Repeat(Late, late)
  }

  /** What the start of a read passed really was evicted or, for a timed start, late. */
  lemma StartIsGathered(b: Ring, m: Ring, primed: bool, request: Option<Request>, prebuffer: nat, n: nat, t: Trace)
    requires HeaderOk(t.header, b) && Later(b, m) && t.evicted == SatSub(t.header.floor, t.from)
    requires StartOk(m.log, m.floor, primed, request, prebuffer, n, t)
    ensures GatherOk(m, t.header, t.from, Skipped(t.evicted, t.late))
    ensures t.header.head <= m.head && (!t.waiting ==> !Closed(t.header))
  {
    hide Inv, Align, PlaysLate, LogOk;
    var fates := Skipped(t.evicted, t.late);
    forall i | 0 <= i < |fates| ensures GatherFate(m, t.header, t.from + i, fates[i]) {
      if i >= t.evicted {
        assert fates[i] == Late;
        assert m.log[t.from + i].data.gate == t.header.gate;
      }
    }
  }

  lemma SummaryCounts(evicted: nat, late: nat, copies: seq<Fate>, copied: nat, gone: nat)
    requires CountsOk(copies, copied, gone, 0)
    ensures CountsOk(Skipped(evicted, late) + copies, copied, evicted + gone, late)
  {
    forall f: Fate ensures multiset(Repeat(Dropped, evicted))[f] == (if f == Dropped then evicted else 0)
                        && multiset(Repeat(Late, late))[f] == (if f == Late then late else 0) {
      RepeatCounts(Dropped, evicted, f);
      RepeatCounts(Late, late, f);
    }
  }

  /** What a read has gathered when it reaches its final check. */
  predicate Collected(lin: Bus, h: Header, out: seq<Stereo>, t: Trace, copied: nat, dropped: nat, late: nat)
  {
    && CountsOk(t.Fates(), copied, dropped, late)
    && GatherOk(lin, h, t.from, t.Fates())
    && Played(out, lin.log, t.First(), t.copies, t.leading)
  }

  lemma CollectSummary(loaded: Ring, approached: Ring, filled: Ring, h: Header, out: seq<Stereo>,
                       t: Trace, copied: nat, gone: nat)
    requires Later(loaded, approached) && Later(approached, filled)
    requires CountsOk(t.copies, copied, gone, 0)
    requires GatherOk(approached, h, t.from, Skipped(t.evicted, t.late))
    requires GatherOk(filled, h, t.First(), t.copies)
    requires Played(out, filled.log, t.First(), t.copies, t.leading)
    ensures Later(loaded, filled)
    ensures Collected(filled, h, out, t, copied, t.evicted + gone, t.late)
  {
    hide Inv, Later, GatherOk, Played;
    var skipped := Skipped(t.evicted, t.late);
    LaterTransitive(loaded, approached, filled);
    SummaryCounts(t.evicted, t.late, t.copies, copied, gone);
    GatherIsStable(approached, filled, h, t.from, skipped);
    GatherJoins(filled, h, t.from, skipped, t.copies);
  }

  lemma LogGrows(b: Bus, c: Bus)
    requires Later(b, c)
    ensures b.log <= c.log
  {
  }

  /** The start found before the copy loop is the start after it. */
  lemma CollectStart(approached: Ring, filled: Ring, primed: bool, request: Option<Request>, prebuffer: nat,
                     n: nat, begun: Trace, t: Trace)
    requires Later(approached, filled) && t == begun.(copies := t.copies)
    requires StartOk(approached.log, approached.floor, primed, request, prebuffer, n, begun)
    ensures StartOk(filled.log, filled.floor, primed, request, prebuffer, n, t)
  {
    hide Inv, Later, Align, PassedLate;
    StartIsStable(approached, filled, primed, request, prebuffer, n, begun);
  }
}
