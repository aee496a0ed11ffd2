/** Every atomic step of the ring keeps its invariant and only moves forward. */
module BusProof {
  import opened Prelude
  import opened BusModel

  /** What an observer may rely on between two moments of a run. */
  predicate Later(b: Bus, c: Bus)
  {
    && |c.slots| == |b.slots|
    && b.log <= c.log
    && b.head <= c.head && b.floor <= c.floor && b.resetSeq <= c.resetSeq
    && b.control <= c.control && b.nextSeq <= c.nextSeq
    && (forall j :: 0 <= j < |b.slots| ==> SlotLater(b.slots[j], c.slots[j]))
    && (b.control == c.control && Even(b.control) ==> SameSession(b, c))
  }

  predicate SlotLater(s: Slot, t: Slot)
  {
    s.sequence <= t.sequence && (s.sequence == t.sequence && Even(s.sequence) ==> s == t)
  }

  predicate SameSession(b: Bus, c: Bus)
  {
    && c.resetSeq == b.resetSeq && c.activeSession == b.activeSession
    && c.timed == b.timed && c.installedGate == b.installedGate
  }

  lemma LaterReflexive(b: Bus)
    ensures Later(b, b)
  {
  }

  lemma LaterTransitive(a: Bus, b: Bus, c: Bus)
    requires Later(a, b) && Later(b, c)
    ensures Later(a, c)
  {
  }

  lemma NewBusInv(capacity: nat)
    requires capacity > 0
    ensures Inv(NewBus(capacity))
  {
  }

  // ----- one store of the frame loop -----

  /** The only slot a writer store may change is the one it is filling. */
  lemma WriteTouchesOneSlot(b: Bus)
    requires Inv(b) && b.writer.Writing?
    ensures var c, t := WriteStore(b), SlotOf(b, b.nextSeq);
            && c.slots == b.slots[t := c.slots[t]]
            && SlotLater(b.slots[t], c.slots[t])
            && (b.writer.stage == 1 || 7 == b.writer.stage ==> b.slots[t].sequence < c.slots[t].sequence)
            && (b.writer.stage !in {1, 7} ==> b.slots[t].sequence == c.slots[t].sequence)
  {
    assert SlotOk(b, SlotOf(b, b.nextSeq));
  }

  lemma WriteKeepsSlots(b: Bus)
    requires Inv(b) && b.writer.Writing?
    ensures var c := WriteStore(b);
            forall j :: 0 <= j < |c.slots| ==> SlotOk(c, j)
  {
    var c := WriteStore(b);
    var t := SlotOf(b, b.nextSeq);
    WriteTouchesOneSlot(b);
    forall j | 0 <= j < |c.slots| ensures SlotOk(c, j) {
      assert SlotOk(b, j);
      if j == t {
        WriteKeepsTarget(b);
      } else {
        WriteKeepsOtherSlot(b, j);
      }
    }
  }

  lemma WriteKeepsTarget(b: Bus)
    requires Inv(b) && b.writer.Writing?
    ensures SlotOk(WriteStore(b), SlotOf(b, b.nextSeq))
  {
    assert SlotOk(b, SlotOf(b, b.nextSeq));
    if b.writer.stage == 7 {
      CompletedSlotIsOk(b);
    }
  }

  lemma CompletedSlotIsOk(b: Bus)
    requires Inv(b) && b.writer.Writing? && b.writer.stage == 7
    ensures SlotOk(WriteStore(b), SlotOf(b, b.nextSeq))
  {
  }

  lemma WriteKeepsOtherSlot(b: Bus, j: nat)
    requires Inv(b) && b.writer.Writing?
    requires j < |b.slots| && j != SlotOf(b, b.nextSeq)
    ensures SlotOk(WriteStore(b), j)
  {
    var c := WriteStore(b);
    WriteTouchesOneSlot(b);
    assert SlotOk(b, j) && c.slots[j] == b.slots[j];
    var s := b.slots[j].sequence;
    if s > 0 && b.writer.stage == 7 {
      RingPositionsRepeat(FrameOf(s), |b.slots|);
    }
  }

  lemma WriteKeepsWindow(b: Bus)
    requires Inv(b) && b.writer.Writing?
    ensures var c := WriteStore(b);
            forall q :: c.floor <= q < c.nextSeq ==> c.slots[SlotOf(c, q)].sequence == q * 2 + 2
  {
    var c := WriteStore(b);
    WriteTouchesOneSlot(b);
    forall q | c.floor <= q < c.nextSeq
      ensures c.slots[SlotOf(c, q)].sequence == q * 2 + 2
    {
      if q < b.nextSeq {
        assert b.slots[SlotOf(b, q)].sequence == q * 2 + 2;
        if 1 <= b.writer.stage <= 7 {
          RingPositionsDiffer(q, b.nextSeq, |b.slots|);
        }
      }
    }
  }

  lemma AppendKeepsEntries(b: Bus)
    requires Inv(b) && b.writer.Writing? && b.writer.stage == 7
    ensures var c := WriteStore(b);
            forall q :: 0 <= q < |c.log| ==> EntryOk(c.log, q)
  {
    var c := WriteStore(b);
    forall q | 0 <= q < |c.log| ensures EntryOk(c.log, q) {
      if q < b.nextSeq {
        assert EntryOk(b.log, q) && c.log[q] == b.log[q];
      }
    }
  }

  lemma AppendKeepsFrames(b: Bus)
    requires Inv(b) && b.writer.Writing? && b.writer.stage == 7
    ensures EpochFramesOk(WriteStore(b))
  {
  }

  lemma WriteKeepsLog(b: Bus)
    requires Inv(b) && b.writer.Writing? && b.writer.stage != 7
    ensures LogInv(WriteStore(b)) && EpochFramesOk(WriteStore(b))
  {
    var c := WriteStore(b);
    assert c.log == b.log;
    forall q | 0 <= q < |c.log| ensures EntryOk(c.log, q) {
      assert EntryOk(b.log, q);
    }
    QuietFrames(b, c);
  }

  lemma FillKeepsWriter(b: Bus)
    requires Inv(b) && b.writer.Writing? && b.writer.stage < 7
    ensures WriterInv(WriteStore(b))
  {
    var c, t := WriteStore(b), SlotOf(b, b.nextSeq);
    assert c.nextSeq == b.nextSeq && SlotOf(c, c.nextSeq) == t;
    var p := b.writer.job.PayloadOf(b.writer.done);
    assert PartlyStored(b.slots[t], b.nextSeq, p, b.writer.stage);
    assert PartlyStored(c.slots[t], b.nextSeq, p, b.writer.stage + 1);
  }

  lemma CompleteKeepsWriter(b: Bus)
    requires Inv(b) && b.writer.Writing? && b.writer.stage >= 7
    ensures WriterInv(WriteStore(b))
  {
  }

  lemma WriteKeepsControl(b: Bus)
    requires Inv(b) && b.writer.Writing?
    ensures
      var c := WriteStore(b);
      && c.control == b.control && c.epoch == b.epoch && c.owner == b.owner && c.resetSeq == b.resetSeq
      && c.activeSession == b.activeSession && c.timed == b.timed && c.installedGate == b.installedGate
      && c.stateTimed == b.stateTimed && c.stateGate == b.stateGate && b.nextSeq <= c.nextSeq
      && |c.slots| == |b.slots| && !c.writer.Resetting?
      && c.floor == if b.writer.stage == 0 then Max(b.resetSeq, SatSub(b.nextSeq + 1, |b.slots|)) else b.floor
  {
    hide LogInv, EpochFramesOk, SlotOk, JobOk, PartlyStored, Scheduled, EpochInv;
  }

  lemma WriteReserves(b: Bus)
    requires Inv(b) && b.writer.Writing?
    ensures Reserved(WriteStore(b)) == if b.writer.stage == 0 then b.nextSeq + 1 else Reserved(b)
  {
    hide LogInv, EpochFramesOk, SlotOk, JobOk, PartlyStored, Scheduled, EpochInv;
  }

  lemma WriteKeepsEpoch(b: Bus)
    requires Inv(b) && b.writer.Writing?
    ensures EpochInv(WriteStore(b))
  {
    hide RingInv, LogInv, EpochFramesOk, WriteStore, Reserved, JobOk, PartlyStored;
    WriteKeepsControl(b);
    WriteReserves(b);
  }

  lemma WriteKeepsRing(b: Bus)
    requires Inv(b) && b.writer.Writing?
    ensures RingInv(WriteStore(b))
  {
    WriteKeepsSlots(b);
    WriteKeepsWindow(b);
  }

  lemma WriteKeepsInv(b: Bus)
    requires Inv(b) && b.writer.Writing?
    ensures Inv(WriteStore(b))
  {
    WriteKeepsRing(b);
    if b.writer.stage == 7 {
      AppendKeepsEntries(b);
      AppendKeepsFrames(b);
    } else {
      WriteKeepsLog(b);
    }
    if b.writer.stage < 7 {
      FillKeepsWriter(b);
    } else {
      CompleteKeepsWriter(b);
    }
    WriteKeepsEpoch(b);
  }

  lemma WriteIsLater(b: Bus)
    requires Inv(b) && b.writer.Writing?
    ensures Later(b, WriteStore(b))
  {
    WriteTouchesOneSlot(b);
  }

  // ----- steps that leave the slots alone -----

  predicate SlotsUntouched(b: Bus, c: Bus)
  {
    && c.slots == b.slots && c.nextSeq == b.nextSeq && c.log == b.log && c.head == b.head
    && (c.floor == b.floor || c.floor == b.nextSeq)
    && (if b.writer.Writing? then c.writer == b.writer && c.floor == b.floor
        else c.writer.Writing? ==> c.writer.done == 0 && c.writer.stage == 0)
  }

  lemma QuietSlots(b: Bus, c: Bus)
    requires Inv(b) && SlotsUntouched(b, c)
    ensures forall j :: 0 <= j < |c.slots| ==> SlotOk(c, j) && SlotLater(b.slots[j], c.slots[j])
  {
    forall j | 0 <= j < |c.slots| ensures SlotOk(c, j) && SlotLater(b.slots[j], c.slots[j]) {
      assert SlotOk(b, j);
    }
  }

  lemma QuietWindow(b: Bus, c: Bus)
    requires Inv(b) && SlotsUntouched(b, c)
    ensures forall q :: c.floor <= q < c.nextSeq ==> c.slots[SlotOf(c, q)].sequence == q * 2 + 2
  {
    forall q | c.floor <= q < c.nextSeq ensures c.slots[SlotOf(c, q)].sequence == q * 2 + 2 {
      assert b.slots[SlotOf(b, q)].sequence == q * 2 + 2;
    }
  }

  lemma QuietRing(b: Bus, c: Bus)
    requires Inv(b) && SlotsUntouched(b, c)
    ensures RingInv(c)
  {
    QuietSlots(b, c);
    QuietWindow(b, c);
  }

  lemma QuietLog(b: Bus, c: Bus)
    requires Inv(b) && SlotsUntouched(b, c)
    ensures LogInv(c)
  {
  }

  lemma QuietFrames(b: Bus, c: Bus)
    requires Inv(b) && c.log == b.log
    requires Even(c.control) ==> c.resetSeq >= |c.log| || (c.control == b.control && SameSession(b, c))
    ensures EpochFramesOk(c)
  {
  }

  lemma ResetKeepsWriter(b: Bus)
    requires Inv(b) && b.writer.Resetting?
    ensures var c := ResetStore(b); |c.log| == c.nextSeq && |c.slots| > 0 && WriterInv(c)
  {
    if b.writer.phase < 6 {
      EarlyResetKeepsWriter(b);
    } else if b.writer.phase == 6 && !b.writer.clear && b.writer.next.Some? {
      ResetStartsWriting(b);
    }
  }

  lemma EarlyResetKeepsWriter(b: Bus)
    requires Inv(b) && b.writer.Resetting? && b.writer.phase < 6
    ensures var c := ResetStore(b); |c.log| == c.nextSeq && |c.slots| > 0 && WriterInv(c)
  {
    hide LogInv, EpochFramesOk, SlotOk, PartlyStored, Scheduled;
    var c, next := ResetStore(b), b.writer.next;
    assert next.Some? ==> JobOk(c, next.value);
  }

  lemma ResetStartsWriting(b: Bus)
    requires Inv(b) && b.writer.Resetting? && b.writer.phase == 6 && !b.writer.clear && b.writer.next.Some?
    ensures var c := ResetStore(b); |c.log| == c.nextSeq && |c.slots| > 0 && WriterInv(c)
  {
  }

  lemma ResetKeepsEpoch(b: Bus)
    requires Inv(b) && b.writer.Resetting?
    ensures EpochInv(ResetStore(b))
  {
    hide LogInv, EpochFramesOk, SlotOk, JobOk;
  }

  lemma ResetLeavesSlots(b: Bus)
    requires Inv(b) && b.writer.Resetting?
    ensures SlotsUntouched(b, ResetStore(b))
  {
    hide LogInv, EpochFramesOk, SlotOk, EpochInv;
  }

  lemma ResetEntersEmpty(b: Bus)
    requires Inv(b) && b.writer.Resetting?
    ensures
      var c := ResetStore(b);
      Even(c.control) ==> c.resetSeq >= |c.log| || (c.control == b.control && SameSession(b, c))
  {
    hide LogInv, EpochFramesOk, SlotOk;
  }

  lemma ResetKeepsFrames(b: Bus)
    requires Inv(b) && b.writer.Resetting?
    ensures RingInv(ResetStore(b)) && LogInv(ResetStore(b)) && EpochFramesOk(ResetStore(b))
  {
    hide RingInv, LogInv, EpochFramesOk, WriterInv, EpochInv, SameSession;
    var c := ResetStore(b);
    ResetLeavesSlots(b);
    ResetEntersEmpty(b);
    QuietRing(b, c);
    QuietLog(b, c);
    QuietFrames(b, c);
  }

  lemma ResetKeepsInv(b: Bus)
    requires Inv(b) && b.writer.Resetting?
    ensures Inv(ResetStore(b))
  {
    ResetKeepsFrames(b);
    ResetKeepsWriter(b);
    ResetKeepsEpoch(b);
  }

  lemma ResetMovesForward(b: Bus)
    requires Inv(b) && b.writer.Resetting?
    ensures
      var c := ResetStore(b);
      && b.floor <= c.floor && b.resetSeq <= c.resetSeq && b.control <= c.control
      && (b.control == c.control && Even(b.control) ==> SameSession(b, c))
  {
    hide LogInv, EpochFramesOk, SlotOk;
  }

  lemma ResetIsLater(b: Bus)
    requires Inv(b) && b.writer.Resetting?
    ensures Later(b, ResetStore(b))
  {
    hide Inv, SameSession, SlotLater, SlotOk;
    ResetLeavesSlots(b);
    ResetMovesForward(b);
    QuietSlots(b, ResetStore(b));
  }

  lemma ControlKeepsState(b: Bus, op: Op)
    requires Inv(b) && b.writer.Idle? && !op.Push?
    ensures var c := BeginOp(b, op); |c.log| == c.nextSeq && |c.slots| > 0 && WriterInv(c) && EpochInv(c)
  {
    hide LogInv, EpochFramesOk, SlotOk, PushAdmitted;
  }

  lemma AdmittedJobIsOk(b: Bus, op: Op, c: Bus)
    requires op.Push? && PushAdmitted(b, op)
    requires op.timing.Some? ==> c.stateTimed && c.stateGate == b.requiredGate
    ensures JobOk(c, NewJob(b, op)) && NewJob(b, op).start == b.nextSeq
  {
  }

  lemma PushKeepsWriter(b: Bus, op: Op)
    requires Inv(b) && b.writer.Idle? && op.Push?
    ensures var c := BeginOp(b, op); |c.log| == c.nextSeq && |c.slots| > 0 && WriterInv(c)
  {
    hide LogInv, EpochFramesOk, SlotOk, PushAdmitted, JobOk, PartlyStored, NewJob;
    if PushAdmitted(b, op) {
      PushIsOwned(b, op);
      AdmittedJobIsOk(b, op, BeginOp(b, op));
    }
  }

  lemma PushIsOwned(b: Bus, op: Op)
    requires op.Push? && PushAdmitted(b, op)
    ensures b.owner == Some(op.session) && NewJob(b, op).frames != []
    ensures op.timing.Some? ==> b.requiredGate != 0
  {
  }

  lemma PushKeepsEpoch(b: Bus, op: Op)
    requires Inv(b) && b.writer.Idle? && op.Push?
    ensures EpochInv(BeginOp(b, op))
  {
    hide LogInv, EpochFramesOk, SlotOk, PushAdmitted, WriterInv, NewJob;
    if PushAdmitted(b, op) { PushIsOwned(b, op); }
  }

  lemma BeginKeepsState(b: Bus, op: Op)
    requires Inv(b) && b.writer.Idle?
    ensures var c := BeginOp(b, op); |c.log| == c.nextSeq && |c.slots| > 0 && WriterInv(c) && EpochInv(c)
  {
    hide Inv, WriterInv, EpochInv, BeginOp;
    if op.Push? {
      PushKeepsWriter(b, op);
      PushKeepsEpoch(b, op);
    } else {
      ControlKeepsState(b, op);
    }
  }

  lemma BeginKeepsInv(b: Bus, op: Op)
    requires Inv(b) && b.writer.Idle?
    ensures Inv(BeginOp(b, op))
  {
    BeginKeepsFrames(b, op);
    BeginKeepsState(b, op);
    hide RingInv, LogInv, EpochFramesOk, WriterInv, EpochInv, BeginOp;
  }

  lemma BeginLeavesSlots(b: Bus, op: Op)
    requires Inv(b) && b.writer.Idle?
    ensures
      var c := BeginOp(b, op);
      && SlotsUntouched(b, c) && c.floor == b.floor && c.resetSeq == b.resetSeq && c.control == b.control
      && SameSession(b, c)
  {
    hide Inv, PushAdmitted, NewJob;
  }

  lemma BeginKeepsFrames(b: Bus, op: Op)
    requires Inv(b) && b.writer.Idle?
    ensures var c := BeginOp(b, op); RingInv(c) && LogInv(c) && EpochFramesOk(c)
  {
    hide Inv, RingInv, LogInv, EpochFramesOk, BeginOp, SameSession;
    var c := BeginOp(b, op);
    BeginLeavesSlots(b, op);
    QuietRing(b, c);
    QuietLog(b, c);
    QuietFrames(b, c);
  }

  lemma BeginIsLater(b: Bus, op: Op)
    requires Inv(b) && b.writer.Idle?
    ensures Later(b, BeginOp(b, op))
  {
    hide Inv, SameSession, SlotLater, SlotOk, BeginOp;
    BeginLeavesSlots(b, op);
    QuietSlots(b, BeginOp(b, op));
  }

  lemma ClosingKeepsInv(b: Bus)
    requires Inv(b) && b.writer.Closing?
    ensures Inv(Step(b, Store)) && Later(b, Step(b, Store))
  {
    var c := Step(b, Store);
    QuietSlots(b, c);
    QuietRing(b, c);
    QuietLog(b, c);
    QuietFrames(b, c);
  }

  lemma GateKeepsInv(b: Bus, gate: nat)
    requires Inv(b)
    ensures Inv(b.(requiredGate := gate)) && Later(b, b.(requiredGate := gate))
  {
    var c := b.(requiredGate := gate);
    QuietSlots(b, c);
    QuietRing(b, c);
    QuietLog(b, c);
    QuietFrames(b, c);
    GateKeepsWriter(b, gate);
  }

  lemma GateKeepsWriter(b: Bus, gate: nat)
    requires Inv(b)
    ensures WriterInv(b.(requiredGate := gate)) && EpochInv(b.(requiredGate := gate))
  {
    var c := b.(requiredGate := gate);
    assert b.writer.Writing? ==> SlotOf(c, c.nextSeq) == SlotOf(b, b.nextSeq);
  }

  lemma StepKeepsInv(b: Bus, a: Action)
    requires Inv(b)
    ensures Inv(Step(b, a)) && Later(b, Step(b, a))
  {
    match a
    case SetGate(gate) =>
      GateKeepsInv(b, gate);
    case Begin(op) =>
      if b.writer.Idle? {
        BeginKeepsInv(b, op);
        BeginIsLater(b, op);
      }
    case Store =>
      match b.writer
      case Idle =>
      case Writing(_, _, _) =>
        WriteKeepsInv(b);
        WriteIsLater(b);
      case Resetting(_, _, _, _) =>
        ResetKeepsInv(b);
        ResetIsLater(b);
      case Closing =>
        ClosingKeepsInv(b);
  }

  /** A bus in a state some run can be in. */
  type Ring = b: Bus | Inv(b) witness NewBus(1)

  /** A run: any interleaving of writer stores, new operations and gate changes. */
  function Run(b: Ring, steps: seq<Action>): (c: Ring)
    ensures Later(b, c)
    decreases |steps|
  {
    if steps == [] then b
    else
      StepKeepsInv(b, steps[0]);
      var mid := Step(b, steps[0]);
      var c := Run(mid, steps[1..]);
      LaterTransitive(b, mid, c);
      c
  }

  // ----- what every reachable state guarantees -----

  /** In every reachable state, mid-write included, the window of at most
      `capacity` frames the floor and head enclose sits complete in its slots. */
  lemma WindowIsIntact(capacity: nat, steps: seq<Action>)
    requires capacity > 0
    ensures Inv(NewBus(capacity))
    ensures var b := Run(NewBus(capacity), steps);
            && |b.slots| == capacity
            && b.head - b.floor <= capacity
            && forall q :: b.floor <= q < b.head ==>
                 q < |b.log| && b.slots[q % capacity] == Slot(2 * q + 2, b.log[q].data)
  {
    NewBusInv(capacity);
    var b := Run(NewBus(capacity), steps);
    forall q | b.floor <= q < b.head
      ensures q < |b.log| && b.slots[q % capacity] == Slot(2 * q + 2, b.log[q].data)
    {
      assert b.slots[SlotOf(b, q)].sequence == q * 2 + 2;
      assert SlotOk(b, SlotOf(b, q));
    }
  }

  /** The sequence lock: when the slot's sequence is 2q+2 before and after a
      series of loads, every load in between saw the frame pushed as number q. */
  lemma SequenceLockIsUntorn(first: Bus, load: Bus, last: Bus, q: nat)
    requires Inv(first) && Later(first, load) && Later(load, last)
    requires first.slots[SlotOf(first, q)].sequence == 2 * q + 2
    requires last.slots[SlotOf(first, q)].sequence == 2 * q + 2
    ensures q < |first.log| && load.slots[SlotOf(first, q)].data == last.log[q].data
  {
    var j := SlotOf(first, q);
    assert SlotOk(first, j);
    assert SlotLater(first.slots[j], load.slots[j]) && SlotLater(load.slots[j], last.slots[j]);
    LaterTransitive(first, load, last);
  }

  /** A miss on a frame below the published head means it was evicted. */
  lemma MissMeansEvicted(b: Bus, q: nat)
    requires Inv(b) && q < b.head
    requires b.slots[SlotOf(b, q)].sequence != 2 * q + 2
    ensures q < b.floor
  {
  }

  /** A hit means fewer than a ring's worth of frames were pushed after it. */
  lemma HitMeansRecent(b: Bus, q: nat)
    requires Inv(b) && b.slots[SlotOf(b, q)].sequence == 2 * q + 2
    ensures b.head <= q + |b.slots|
  {
    assert SlotOk(b, SlotOf(b, q));
  }

  /** Slot words never overflow: the push bound leaves room for 2q+2. */
  lemma SequencesFit(b: Bus, j: nat)
    requires Inv(b) && j < |b.slots|
    ensures b.slots[j].sequence <= U64_MAX
  {
    assert SlotOk(b, j);
  }
}
