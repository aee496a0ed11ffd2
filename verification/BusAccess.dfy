/** The reader's accesses to the ring while other threads run.

    Before every single load the next batch of a schedule runs. The schedule is
    arbitrary, so what these methods ensure holds in every interleaving with
    resets, pushes and gate changes. */
module BusAccess {
  import opened Prelude
  import opened BusModel
  import opened BusProof
  import opened BusAlign

  /** The published words a read works from. */
  datatype Header = Header(epoch: nat, gate: nat, session: nat, reset: nat, floor: nat, head: nat,
                           timed: bool, installedGate: nat)

  predicate HeaderOk(h: Header, m: Bus)
  {
    && Even(h.epoch) && m.control == h.epoch
    && h.session == m.activeSession && h.reset == m.resetSeq
    && h.timed == m.timed && h.installedGate == m.installedGate
    && h.reset <= h.floor <= h.head <= m.head && h.floor <= m.floor
    && (h.epoch == 0 ==> h.session == 0 && h.head == 0)
    && (h.timed ==> h.installedGate != 0)
  }

  /** What became of a frame the reader's cursor moved past. */
  datatype Fate = Delivered | Dropped | Late | Stray | Voided

  /** A delivered frame was present with the right gate, a dropped one was
      really evicted, a stray carries another gate. */
  predicate CopyFate(m: Bus, q: nat, fate: Fate, streamTimed: bool, gate: nat)
  {
    match fate
    case Delivered => q < |m.log| && (streamTimed ==> m.log[q].data.gate == gate)
    case Dropped => q < m.floor
    case Stray => streamTimed && q < |m.log| && m.log[q].data.gate != gate
    case _ => false
  }

  predicate CopyOk(m: Bus, start: nat, fates: seq<Fate>, streamTimed: bool, gate: nat)
  {
    forall i :: 0 <= i < |fates| ==> CopyFate(m, start + i, fates[i], streamTimed, gate)
  }

  predicate DeliveredAt(fates: seq<Fate>, leading: nat, j: nat)
  {
    leading <= j < leading + |fates| && fates[j - leading] == Delivered
  }

  /** The output block: delivered frames at their places, silence everywhere else. */
  predicate Played(out: seq<Stereo>, log: seq<Entry>, start: nat, fates: seq<Fate>, leading: nat)
  {
    && leading + |fates| <= |out|
    && (forall i :: 0 <= i < |fates| && fates[i] == Delivered ==>
          start + i < |log| && out[leading + i] == log[start + i].data.lr)
    && (forall j :: 0 <= j < |out| && !DeliveredAt(fates, leading, j) ==> out[j] == SILENCE)
  }

  lemma PlayedIsStable(log: seq<Entry>, longer: seq<Entry>, out: seq<Stereo>, start: nat, fates: seq<Fate>,
                         leading: nat)
    requires log <= longer && Played(out, log, start, fates, leading)
    ensures Played(out, longer, start, fates, leading)
  {
    forall i | 0 <= i < |fates| && fates[i] == Delivered
      ensures start + i < |longer| && out[leading + i] == longer[start + i].data.lr
    {
      assert longer[start + i] == log[start + i];
    }
  }

  /** One more frame: its place is filled when it was delivered, silent otherwise. */
  lemma PlayedGrows(log: seq<Entry>, out: seq<Stereo>, next: seq<Stereo>, start: nat, fates: seq<Fate>, fate: Fate,
                    leading: nat)
    requires Played(out, log, start, fates, leading)
    requires |next| == |out| && leading + |fates| < |out|
    requires forall j :: 0 <= j < |out| && j != leading + |fates| ==> next[j] == out[j]
    requires fate == Delivered ==> start + |fates| < |log|
    requires var at := leading + |fates|;
             if fate == Delivered then next[at] == log[start + |fates|].data.lr else next[at] == out[at]
    ensures Played(next, log, start, fates + [fate], leading)
  {
    var all := fates + [fate];
    forall i | 0 <= i < |all| && all[i] == Delivered
      ensures start + i < |log| && next[leading + i] == log[start + i].data.lr
    {
      if i < |fates| { assert fates[i] == Delivered; }
    }
    forall j | 0 <= j < |next| && !DeliveredAt(all, leading, j) ensures next[j] == SILENCE {
      assert !DeliveredAt(fates, leading, j);
    }
  }

  lemma EmptyCopy(m: Bus, start: nat, out: seq<Stereo>, leading: nat, streamTimed: bool, gate: nat)
    requires leading <= |out| && forall j :: 0 <= j < |out| ==> out[j] == SILENCE
    ensures CopyOk(m, start, [], streamTimed, gate) && Played(out, m.log, start, [], leading)
  {
  }

  predicate CountsOk(fates: seq<Fate>, copied: nat, dropped: nat, late: nat)
  {
    copied == multiset(fates)[Delivered] && dropped == multiset(fates)[Dropped] && late == multiset(fates)[Late]
  }

  lemma CopyContinues(entry: Bus, b: Bus, c: Bus, start: nat, fates: seq<Fate>, fate: Fate,
                      streamTimed: bool, gate: nat, out: seq<Stereo>, next: seq<Stereo>, leading: nat)
    requires Later(entry, b) && Later(b, c)
    requires CopyOk(b, start, fates, streamTimed, gate) && Played(out, b.log, start, fates, leading)
    requires CopyFate(c, start + |fates|, fate, streamTimed, gate)
    requires |next| == |out| && leading + |fates| < |out|
    requires forall j :: 0 <= j < |out| && j != leading + |fates| ==> next[j] == out[j]
    requires var at := leading + |fates|;
             if fate == Delivered then next[at] == c.log[start + |fates|].data.lr else next[at] == out[at]
    ensures Later(entry, c) && b.head <= c.head
    ensures CopyOk(c, start, fates + [fate], streamTimed, gate)
    ensures Played(next, c.log, start, fates + [fate], leading)
  {
    hide Inv, SlotLater, Played;
    LaterTransitive(entry, b, c);
    PlayedIsStable(b.log, c.log, out, start, fates, leading);
    PlayedGrows(c.log, out, next, start, fates, fate, leading);
    CopiesAreStable(b, c, start, fates, streamTimed, gate);
  }

  lemma CopiesAreStable(b: Bus, c: Bus, start: nat, fates: seq<Fate>, streamTimed: bool, gate: nat)
    requires Later(b, c) && CopyOk(b, start, fates, streamTimed, gate)
    ensures CopyOk(c, start, fates, streamTimed, gate)
  {
    forall i | 0 <= i < |fates| ensures CopyFate(c, start + i, fates[i], streamTimed, gate) {
      assert CopyFate(b, start + i, fates[i], streamTimed, gate);
    }
  }

  datatype Move = Stop | Jump | Evicted

  predicate SameAlignment(log: seq<Entry>, c: nat, d: nat, head: nat, gate: nat, targetNs: real, frameCount: nat)
    requires LogOk(log) && head <= |log|
  {
    Align(log, c, head, gate, targetNs, frameCount) == Align(log, d, head, gate, targetNs, frameCount)
  }

  /** Other threads never write the gate in what is still to run. */
  predicate GateQuiet(schedule: seq<seq<Action>>)
  {
    forall i, j :: 0 <= i < |schedule| && 0 <= j < |schedule[i]| ==> !schedule[i][j].SetGate?
  }

  /** As long as no other thread writes the gate, it stays. */
  predicate Steady(b: Bus, s: seq<seq<Action>>, c: Bus, t: seq<seq<Action>>)
  {
    GateQuiet(s) ==> GateQuiet(t) && c.requiredGate == b.requiredGate
  }

  lemma StepKeepsGate(b: Ring, a: Action)
    requires !a.SetGate?
    ensures Step(b, a).requiredGate == b.requiredGate
  {
    hide PushAdmitted, NewJob;
  }

  lemma {:induction false} RunKeepsGate(b: Ring, steps: seq<Action>)
    requires forall j :: 0 <= j < |steps| ==> !steps[j].SetGate?
    ensures Run(b, steps).requiredGate == b.requiredGate
    decreases |steps|
  {
    hide Inv, Later, Step;
    if steps != [] {
      StepKeepsInv(b, steps[0]);
      StepKeepsGate(b, steps[0]);
      RunKeepsGate(Step(b, steps[0]), steps[1..]);
    }
  }

  lemma BatchKeepsGate(b: Ring, schedule: seq<seq<Action>>)
    requires schedule != []
    ensures Steady(b, schedule, Run(b, schedule[0]), schedule[1..])
  {
    hide Inv, Run;
    if GateQuiet(schedule) { RunKeepsGate(b, schedule[0]); }
  }

  class SharedBus {
    var m: Ring
    var schedule: seq<seq<Action>>
    const prebuffer: nat

    constructor (capacity: nat, prebuffer: nat, schedule: seq<seq<Action>>)
      requires capacity > 0
      ensures m == NewBus(capacity)
      ensures this.prebuffer == prebuffer && this.schedule == schedule
    {
      NewBusInv(capacity);
      m := NewBus(capacity);
      this.prebuffer := prebuffer;
      this.schedule := schedule;
    }

    /** Other threads run until the reader's next access. */
    method Yield()
      modifies this
      ensures Steady(old(m), old(schedule), m, schedule)
      ensures Later(old(m), m)
    {
      if schedule != [] {
        BatchKeepsGate(m, schedule);
        m, schedule := Run(m, schedule[0]), schedule[1..];
      } else {
        m := Run(m, []);
      }
    }

    method SetRequiredGate(gate: nat)
      modifies this
      ensures Later(old(m), m)
      ensures GateQuiet(old(schedule)) ==> GateQuiet(schedule) && m.requiredGate == gate
    {
      ghost var start := m;
      Yield();
      StepKeepsInv(m, SetGate(gate));
      LaterTransitive(start, m, Step(m, SetGate(gate)));
      m := Step(m, SetGate(gate));
    }

    /** Load one word of slot j; the caller keeps only that word. */
    method Peek(j: nat, ghost first: Bus) returns (slot: Slot)
      requires j < |m.slots|
      modifies this
      ensures Steady(old(m), old(schedule), m, schedule)
      ensures |m.slots| == |old(m).slots|
      ensures slot == m.slots[j] && old(m).slots[j].sequence <= slot.sequence
      ensures Later(first, old(m)) ==> Later(first, m) && SlotLater(first.slots[j], slot)
    {
      ghost var start := m;
      Yield();
      slot := m.slots[j];
      assert SlotLater(start.slots[j], slot);
      if Later(first, start) {
        LaterTransitive(first, start, m);
        assert SlotLater(first.slots[j], slot);
      }
    }

    /** Copy one frame under its slot's sequence lock. */
    method Frame(q: nat) returns (frame: Option<Payload>)
      modifies this
      ensures Steady(old(m), old(schedule), m, schedule)
      ensures Later(old(m), m)
      ensures frame.Some? ==> q < |m.log| && frame.value == m.log[q].data && old(m).head <= q + |m.slots|
      ensures frame.None? && q < old(m).head ==> q < m.floor
    {
      hide GateQuiet;
      if q * 2 + 2 > U64_MAX {
        Yield();
        return None;
      }
      var expected, j := q * 2 + 2, q % |m.slots|;
      Yield();
      ghost var first := m;
      if m.slots[j].sequence != expected {
        if q < first.head { MissMeansEvicted(first, q); }
        return None;
      }
      frame := FrameWords(q, expected, j, first);
    }

    method FrameWords(q: nat, expected: nat, j: nat, ghost first: Ring) returns (frame: Option<Payload>)
      requires m == first && j == SlotOf(m, q) && expected == q * 2 + 2 && m.slots[j].sequence == expected
      modifies this
      ensures Steady(old(m), old(schedule), m, schedule)
      ensures Later(first, m)
      ensures first.head <= q + |m.slots|
      ensures frame.Some? ==> q < |m.log| && frame.value == m.log[q].data
      ensures frame.None? && q < first.head ==> q < m.floor
    {
      hide Inv, Later, SlotLater, GateQuiet;
      LaterReflexive(first);
      PositionFits(first, q);
      // one load each: samples, time, step, end, gate
      var loads: seq<Slot> := [];
      for k := 0 to 5
        invariant Steady(old(m), old(schedule), m, schedule)
        invariant |loads| == k && Later(first, m) && |m.slots| == |first.slots|
        invariant forall i :: 0 <= i < k ==> SlotLater(first.slots[j], loads[i])
        invariant forall i :: 0 <= i < k ==> loads[i].sequence <= m.slots[j].sequence
      {
        var word := Peek(j, first);
        loads := loads + [word];
      }
      var again := Peek(j, first);
      Verdict(first, m, q);
      if again.sequence != expected { return None; }
      WordsAreOne(first.slots[j], loads, again.sequence);
      frame := Some(Payload(loads[0].data.lr, loads[1].data.timeNs, loads[2].data.step,
                            loads[3].data.end, loads[4].data.gate));
    }

    /** Load the published words; `ok` when no reset ran in between. */
    method LoadHeader() returns (ok: bool, h: Header)
      modifies this
      ensures Steady(old(m), old(schedule), m, schedule)
      ensures Later(old(m), m)
      ensures ok ==> HeaderOk(h, m) && old(m).head <= h.head
      ensures GateQuiet(old(schedule)) ==> h.gate == m.requiredGate
      ensures old(m).control <= h.epoch <= m.control && (!ok ==> !Even(h.epoch) || m.control != h.epoch)
    {
      hide Inv, Later, GateQuiet, HeaderOk;
      ghost var start := m;
      LaterReflexive(m);
      Tick(start);
      var epoch := m.control;
      ghost var first := m;
      LaterReflexive(m);
      Tick(first);
      var gate := m.requiredGate;
      Tick(first);
      var session := m.activeSession;
      ghost var atSession := m;
      Tick(first);
      var reset := m.resetSeq;
      ghost var atReset := m;
      Tick(first);
      var floor := m.floor;
      ghost var atFloor := m;
      Tick(first);
      var head := m.head;
      ghost var atHead := m;
      Tick(first);
      var timed := m.timed;
      ghost var atTimed := m;
      Tick(first);
      var installedGate := m.installedGate;
      ghost var atGate := m;
      h := Header(epoch, gate, session, reset, floor, head, timed, installedGate);
      Tick(first);
      ok := Even(epoch) && epoch == m.control;
      if ok {
        HeaderHolds(first, atSession, atReset, atFloor, atHead, atTimed, atGate, m, gate);
      }
      LaterTransitive(start, first, m);
    }

    /** One round of the timed search: look at one frame, stop or jump its span. */
    method AlignStep(cursor: nat, head: nat, gate: nat, targetNs: real, frameCount: nat)
      returns (move: Move, a: Alignment)
      requires cursor < head <= m.head && gate != 0
      modifies this
      ensures Steady(old(m), old(schedule), m, schedule)
      ensures Later(old(m), m)
      ensures PassedLate(m.log, cursor, a.cursor, gate, targetNs)
      ensures LogOk(m.log) && head <= m.head <= |m.log|
      ensures cursor <= a.cursor <= head
      ensures move == Stop ==> a == Align(m.log, cursor, head, gate, targetNs, frameCount)
      ensures move == Evicted ==> a == Alignment(cursor, 0, true) && cursor < m.floor
      ensures move == Jump ==> cursor < a.cursor <= head <= cursor + |m.slots| && a == Alignment(a.cursor, 0, false)
      ensures move == Jump ==> SameAlignment(m.log, cursor, a.cursor, head, gate, targetNs, frameCount)
    {
      hide Inv, GateQuiet, SlotLater, SameSession;
      var frame := Frame(cursor);
      RingLog(m);
      if frame.None? { return Evicted, Alignment(cursor, 0, true); }
      var e := frame.value;
      assert EntryOk(m.log, cursor);
      if e.gate != gate { return Stop, Alignment(cursor, 0, true); }
      var delta := StepsBehind(e, targetNs);
      if delta < 0 {
        var leading := LeadingSilence(e, targetNs, frameCount);
        return Stop, Alignment(cursor, leading, leading == frameCount);
      }
      var skip := Min(delta, SatSub(Min(e.end, head), cursor));
      assert skip == Skip(m.log, cursor, head, targetNs);
      SkipPassesLate(m.log, cursor, head, targetNs);
      move := if cursor + skip < e.end || skip == 0 then Stop else Jump;
      a := Alignment(cursor + skip, 0, false);
    }

    /** Timed start: move from `start` to the frame due at the target time. At
        most capacity frames are looked at, and that bound never decides. */
    method AlignCursor(start: nat, head: nat, gate: nat, targetNs: real, frameCount: nat)
      returns (a: Alignment, ghost evicted: bool)
      requires start <= head <= m.head && gate != 0
      modifies this
      ensures Steady(old(m), old(schedule), m, schedule)
      ensures Later(old(m), m)
      ensures PassedLate(m.log, start, a.cursor, gate, targetNs)
      ensures start <= a.cursor <= head <= |m.log| && LogOk(m.log)
      ensures !evicted ==> a == Align(m.log, start, head, gate, targetNs, frameCount)
      ensures evicted ==> a == Alignment(a.cursor, 0, true) && a.cursor < head && a.cursor < m.floor
      ensures evicted ==> SameAlignment(m.log, start, a.cursor, head, gate, targetNs, frameCount)
    {
      LaterReflexive(m);
      RingLog(m);
      ghost var entry := m;
      a, evicted := Alignment(start, 0, false), false;
      for k := 0 to |m.slots|
        invariant Steady(old(m), old(schedule), m, schedule)
        invariant Later(entry, m) && LogOk(m.log) && head <= m.head <= |m.log|
        invariant start + k <= a.cursor <= head
        invariant if k == 0 then a.cursor == start else head <= start + |entry.slots|
        invariant a == Alignment(a.cursor, 0, false) && !evicted
        invariant SameAlignment(m.log, start, a.cursor, head, gate, targetNs, frameCount)
        invariant PassedLate(m.log, start, a.cursor, gate, targetNs)
      {
        if a.cursor >= head { break; }
        ghost var before := m;
        var cursor := a.cursor;
        var move;
        move, a := AlignStep(cursor, head, gate, targetNs, frameCount);
        ReaderCatchesUp(entry, before, m, start, cursor, head, gate, targetNs, frameCount);
        evicted := move == Evicted;
        if move != Jump { return; }
      }
    }

    /** Copy one frame to the output, or say why it was not. */
    method CopyFrame(out: array<Stereo>, at: nat, q: nat, streamTimed: bool, gate: nat) returns (fate: Fate)
      requires at < out.Length && q < m.head
      modifies this, out
      ensures Steady(old(m), old(schedule), m, schedule)
      ensures Later(old(m), m) && CopyFate(m, q, fate, streamTimed, gate)
      ensures forall j :: 0 <= j < out.Length && j != at ==> out[j] == old(out[j])
      ensures if fate == Delivered then out[at] == m.log[q].data.lr else out[at] == old(out[at])
    {
      var frame := Frame(q);
      match frame
      case Some(data) =>
        if !streamTimed || data.gate == gate {
          out[at] := data.lr;
          fate := Delivered;
        } else {
          fate := Stray;
        }
      case None =>
        fate := Dropped;
    }

    /** Copy loop: each frame is delivered, found evicted, or passed as a stray. */
    method CopyFrames(out: array<Stereo>, start: nat, available: nat, leading: nat, streamTimed: bool, gate: nat)
      returns (copied: nat, dropped: nat, lost: bool, ghost fates: seq<Fate>)
      requires leading + available <= out.Length && start + available <= m.head
      requires forall j :: 0 <= j < out.Length ==> out[j] == SILENCE
      modifies this, out
      ensures Steady(old(m), old(schedule), m, schedule)
      ensures Later(old(m), m)
      ensures |fates| == available
      ensures CountsOk(fates, copied, dropped, 0)
      ensures lost <==> copied < available
      ensures CopyOk(m, start, fates, streamTimed, gate)
      ensures Played(out[..], m.log, start, fates, leading)
    {
      hide Inv, Later, Played, CopyOk, GateQuiet;
      LaterReflexive(m);
      EmptyCopy(m, start, out[..], leading, streamTimed, gate);
      ghost var entry := m;
      copied, dropped, lost, fates := 0, 0, false, [];
      for i := 0 to available
        invariant Steady(old(m), old(schedule), m, schedule)
        invariant Later(entry, m) && start + available <= m.head
        invariant |fates| == i && copied <= i && (lost <==> copied < i)
        invariant CountsOk(fates, copied, dropped, 0)
        invariant CopyOk(m, start, fates, streamTimed, gate)
        invariant Played(out[..], m.log, start, fates, leading)
      {
        ghost var before, block := m, out[..];
        var fate := CopyFrame(out, leading + i, start + i, streamTimed, gate);
        CopyContinues(entry, before, m, start, fates, fate, streamTimed, gate, block, out[..], leading);
        fates := fates + [fate];
        match fate
        case Delivered => copied := copied + 1;
        case Dropped => dropped, lost := dropped + 1, true;
        case _ => lost := true;
      }
    }

    /** The read's linearization point: has a reset or gate change intervened? */
    method FinalCheck(h: Header) returns (ok: bool, ghost lin: Ring)
      modifies this
      ensures Steady(old(m), old(schedule), m, schedule)
      ensures Later(old(m), lin) && Later(lin, m)
      ensures ok ==> lin.control == h.epoch && (h.timed ==> m.requiredGate == h.gate)
      ensures !ok ==> m.control != h.epoch || (h.timed && m.requiredGate != h.gate)
    {
      Yield();
      lin := m;
      LaterReflexive(m);
      ok := m.control == h.epoch;
      if ok && h.timed {
        Yield();
        ok := m.requiredGate == h.gate;
      }
    }

    method Tick(ghost first: Bus)
      modifies this
      ensures Steady(old(m), old(schedule), m, schedule)
      ensures Later(first, old(m)) ==> Later(first, m)
      ensures old(m).control <= m.control && old(m).floor <= m.floor && old(m).head <= m.head
    {
      ghost var start := m;
      Yield();
      if Later(first, start) {
        LaterTransitive(first, start, m);
      }
    }
  }

  lemma PositionFits(b: Ring, q: nat)
    ensures |b.slots| > 0 && SlotOf(b, q) < |b.slots|
  {
  }

  /** Loads between two looks that found the same even sequence saw one slot. */
  lemma WordsAreOne(first: Slot, loads: seq<Slot>, again: nat)
    requires Even(first.sequence) && again == first.sequence
    requires forall i :: 0 <= i < |loads| ==> SlotLater(first, loads[i]) && loads[i].sequence <= again
    ensures forall i :: 0 <= i < |loads| ==> loads[i] == first
  {
    forall i | 0 <= i < |loads| ensures loads[i] == first {
      assert SlotLater(first, loads[i]);
    }
  }

  /** Words loaded one after the other while the control word stayed the same. */
  lemma HeaderHolds(first: Ring, atSession: Ring, atReset: Ring, atFloor: Ring, atHead: Ring, atTimed: Ring,
                    atGate: Ring, last: Ring, gate: nat)
    requires Later(first, atSession) && Later(first, atReset) && Later(first, atFloor) && Later(first, atHead)
    requires Later(first, atTimed) && Later(first, atGate) && Later(first, last)
    requires atSession.control <= last.control && atReset.control <= last.control && atTimed.control <= last.control
    requires atFloor.control <= last.control && atHead.control <= last.control && atGate.control <= last.control
    requires atFloor.floor <= last.floor && atFloor.head <= atHead.head <= last.head
    requires Even(first.control) && first.control == last.control
    ensures HeaderOk(Header(first.control, gate, atSession.activeSession, atReset.resetSeq, atFloor.floor, atHead.head,
                            atTimed.timed, atGate.installedGate), last)
  {
    hide SlotLater, SlotOk, LogInv, EpochFramesOk, WriterInv;
    assert SameSession(first, atSession) && SameSession(first, atReset) && SameSession(first, atTimed);
    assert SameSession(first, atGate) && SameSession(first, last) && SameSession(first, atFloor);
  }

  lemma HitIsLogged(b: Ring, q: nat)
    requires b.slots[SlotOf(b, q)].sequence == q * 2 + 2
    ensures q < |b.log| && b.slots[SlotOf(b, q)].data == b.log[q].data
  {
    hide LogInv, EpochFramesOk, WriterInv, EpochInv;
    assert SlotOk(b, SlotOf(b, q));
  }

  lemma LaterLog(b: Bus, c: Bus, q: nat)
    requires Later(b, c) && q < |b.log|
    ensures q < |c.log| && c.log[q] == b.log[q] && b.head <= c.head && |c.slots| == |b.slots|
  {
    hide SlotLater, SameSession;
  }

  /** What the second look at the slot's sequence decides. */
  lemma Verdict(first: Ring, last: Ring, q: nat)
    requires Later(first, last)
    requires first.slots[SlotOf(first, q)].sequence == q * 2 + 2
    ensures q < |first.log| && q < |last.log| && first.log[q] == last.log[q]
    ensures first.slots[SlotOf(first, q)].data == last.log[q].data
    ensures first.head <= q + |first.slots| && |last.slots| == |first.slots| && SlotOf(first, q) < |last.slots|
    ensures last.slots[SlotOf(first, q)].sequence != q * 2 + 2 && q < first.head ==> q < last.floor
  {
    hide RingInv, LogInv, EpochFramesOk, WriterInv, EpochInv, Later;
    PositionFits(first, q);
    HitMeansRecent(first, q);
    HitIsLogged(first, q);
    LaterLog(first, last, q);
    if last.slots[SlotOf(first, q)].sequence != q * 2 + 2 && q < first.head {
      MissMeansEvicted(last, q);
    }
  }

  lemma RingLog(b: Ring)
    ensures LogOk(b.log) && b.head <= |b.log| == b.nextSeq
  {
  }

  lemma ReaderCatchesUp(entry: Ring, before: Ring, now: Ring, start: nat, cursor: nat, head: nat,
                        gate: nat, targetNs: real, frameCount: nat)
    requires Later(entry, before) && Later(before, now)
    requires LogOk(before.log) && start <= cursor <= head <= before.head <= |before.log|
    requires SameAlignment(before.log, start, cursor, head, gate, targetNs, frameCount)
    requires PassedLate(before.log, start, cursor, gate, targetNs)
    ensures Later(entry, now) && LogOk(now.log) && head <= now.head <= |now.log|
    ensures SameAlignment(now.log, start, cursor, head, gate, targetNs, frameCount)
    ensures PassedLate(now.log, start, cursor, gate, targetNs)
  {
    LaterTransitive(entry, before, now);
    RingLog(now);
    AlignIsStable(before.log, now.log, start, head, gate, targetNs, frameCount);
    AlignIsStable(before.log, now.log, cursor, head, gate, targetNs, frameCount);
  }
}
