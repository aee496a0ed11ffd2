/** The writer's operations, store by store, under the mutex.

    Every store is checked against the machine's next step, so a run of the
    machine is what these methods do. Readers may move the gate at any moment. */
module BusWriter {
  import opened Prelude
  import opened BusModel
  import opened BusProof

  /** The history a push adds when all its frames are stored. */
  function Entries(job: Job, n: nat, epoch: nat, session: nat): (es: seq<Entry>)
    requires n <= |job.frames|
    ensures |es| == n
  {
    seq(n, i requires 0 <= i < n => job.EntryOf(i, epoch, session))
  }

  /** Equal but for the gate, the one word readers write. */
  predicate SameButGate(b: Bus, c: Bus) { c == b.(requiredGate := c.requiredGate) }

  /** A session reset has taken effect, or has closed an exhausted bus. */
  predicate ResetDone(b: Bus, c: Bus, newOwner: Option<nat>)
  {
    && c.log == b.log && c.slots == b.slots && c.head == b.head && c.nextSeq == b.nextSeq
    && c.stateTimed == b.stateTimed && c.stateGate == b.stateGate
    && if b.epoch + 2 > U64_MAX
       then c.epoch == c.control == U64_MAX && c.owner == None && c.activeSession == 0
       else && c.epoch == c.control == b.epoch + 2
            && c.owner == newOwner && c.activeSession == OnWire(newOwner)
            && c.resetSeq == c.floor == c.nextSeq
            && c.timed == c.stateTimed && c.installedGate == c.stateGate
  }

  class PcmBus {
    var m: Ring
    var gates: seq<Option<nat>>

    constructor (capacity: nat, gates: seq<Option<nat>>)
      requires capacity > 0
      ensures m == NewBus(capacity) && this.gates == gates
    {
      NewBusInv(capacity);
      m := NewBus(capacity);
      this.gates := gates;
    }

    /** A reader may publish its gate before the writer's next access. */
    method Interfere()
      modifies this
      ensures SameButGate(old(m), m)
    {
      if gates != [] {
        if gates[0].Some? {
          StepKeepsInv(m, SetGate(gates[0].value));
          m := m.(requiredGate := gates[0].value);
        }
        gates := gates[1..];
      }
    }

    /** One store: it must be the machine's next step. */
    method Put(next: Bus)
      requires next == Step(m, Store)
      modifies this
      ensures SameButGate(next, m)
    {
      StepKeepsInv(m, Store);
      m := next;
      Interfere();
    }

    method Begin(op: Op)
      requires m.writer.Idle?
      modifies this
      ensures m == BeginOp(old(m), op)
    {
      StepKeepsInv(m, Action.Begin(op));
      m := BeginOp(m, op);
    }

    method ResetLocked(newOwner: Option<nat>, next: Option<Job>, clear: bool)
      requires m.writer == Resetting(newOwner, next, clear, 0)
      requires clear ==> newOwner.None? && next.None?
      modifies this
      ensures ResetDone(old(m), m, newOwner)
      ensures m.writer == if old(m).epoch + 2 > U64_MAX || next.None? then Idle else Writing(next.value, 0, 0)
    {
      hide Inv;
      if m.epoch + 2 > U64_MAX {
        Put(m.(control := U64_MAX, epoch := U64_MAX, owner := None, writer := Closing));
        Put(m.(activeSession := 0, writer := Idle));
        return;
      }
      var epoch := m.epoch + 2;
      Put(m.(control := epoch - 1, epoch := epoch, owner := newOwner, writer := Resetting(newOwner, next, clear, 1)));
      Put(m.(resetSeq := m.nextSeq, writer := Resetting(newOwner, next, clear, 2)));
      Put(m.(floor := m.nextSeq, writer := Resetting(newOwner, next, clear, 3)));
      Put(m.(activeSession := OnWire(newOwner), writer := Resetting(newOwner, next, clear, 4)));
      Put(m.(timed := m.stateTimed, writer := Resetting(newOwner, next, clear, 5)));
      Put(m.(installedGate := m.stateGate, writer := Resetting(newOwner, next, clear, 6)));
      Put(m.(control := epoch, writer := if clear then Resetting(newOwner, next, clear, 7)
                                         else if next.Some? then Writing(next.value, 0, 0) else Idle));
      if clear {
        Put(m.(activeSession := 0, writer := Idle));
      }
    }

    method Activate(session: nat)
      requires m.writer.Idle? && session != 0
      modifies this
      ensures m.writer.Idle? && !m.stateTimed
      ensures ResetDone(old(m).(stateTimed := false), m, Some(session))
    {
      Begin(Op.Activate(session));
      ResetLocked(Some(session), None, false);
    }

    method End(session: nat)
      requires m.writer.Idle?
      modifies this
      ensures m.writer.Idle?
      ensures if old(m).owner == Some(session) then ResetDone(old(m), m, None) else m == old(m)
    {
      Begin(Op.End(session));
      if m.owner == Some(session) {
        ResetLocked(None, None, true);
      }
    }

    method Flush(session: nat)
      requires m.writer.Idle?
      modifies this
      ensures m.writer.Idle?
      ensures if old(m).owner == Some(session) then ResetDone(old(m), m, Some(session)) else m == old(m)
    {
      Begin(Op.Flush(session));
      if m.owner == Some(session) {
        ResetLocked(Some(session), None, false);
      }
    }

    /** The nine stores of one frame. */
    method StoreFrame(job: Job, i: nat)
      requires m.writer == Writing(job, i, 0) && i < |job.frames|
      modifies this
      ensures |old(m).slots| > 0 && FrameStored(old(m), m, job, i)
    {
      hide Inv;
      RingHasSlots(m);
      var q := m.nextSeq;
      var j, p := SlotOf(m, q), job.PayloadOf(i);
      Put(m.(floor := Max(m.resetSeq, SatSub(q + 1, |m.slots|)), writer := Writing(job, i, 1)));
      StoreWords(job, i, q, j, p);
      Put(m.(head := m.nextSeq, writer := if i + 1 == |job.frames| then Idle else Writing(job, i + 1, 0)));
    }

    /** A store into the slot being filled. */
    method PutSlot(job: Job, i: nat, stage: nat, j: nat, slot: Slot)
      requires j < |m.slots|
      requires m.(slots := m.slots[j := slot], writer := Writing(job, i, stage)) == Step(m, Store)
      modifies this
      ensures SameButGate(old(m).(slots := old(m).slots[j := slot], writer := Writing(job, i, stage)), m)
    {
      Put(m.(slots := m.slots[j := slot], writer := Writing(job, i, stage)));
    }

    method StoreWords(job: Job, i: nat, q: nat, j: nat, p: Payload)
      requires m.writer == Writing(job, i, 1) && i < |job.frames|
      requires |m.slots| > 0 && q == m.nextSeq && j == SlotOf(m, q) && p == job.PayloadOf(i)
      modifies this
      ensures m.slots == old(m).slots[j := Slot(q * 2 + 2, p)] && m.nextSeq == q + 1
      ensures m.log == old(m).log + [job.EntryOf(i, old(m).epoch, OnWire(old(m).owner))]
      ensures m.writer == Writing(job, i + 1, 8) && SameState(old(m), m) && m.floor == old(m).floor
    {
      hide Inv;
      ghost var start := m;
      FillWords(job, i, q, j, p);
      PutSlot(job, i, 7, j, Slot(q * 2 + 1, p));
      Put(m.(slots := m.slots[j := Slot(q * 2 + 2, p)], nextSeq := q + 1,
             log := m.log + [job.EntryOf(i, m.epoch, OnWire(m.owner))], writer := Writing(job, i + 1, 8)));
      assert m.slots == start.slots[j := Slot(q * 2 + 2, p)];
    }

    method FillWords(job: Job, i: nat, q: nat, j: nat, p: Payload)
      requires m.writer == Writing(job, i, 1) && i < |job.frames|
      requires |m.slots| > 0 && q == m.nextSeq && j == SlotOf(m, q) && p == job.PayloadOf(i)
      modifies this
      ensures exists gate :: m.slots == old(m).slots[j := Slot(q * 2 + 1, p.(gate := gate))]
      ensures m == old(m).(slots := m.slots, writer := Writing(job, i, 6), requiredGate := m.requiredGate)
    {
      hide Inv;
      ghost var start := m;
      var slot := m.slots[j];
      PutSlot(job, i, 2, j, slot.(sequence := q * 2 + 1));
      slot := m.slots[j];
      PutSlot(job, i, 3, j, slot.(data := slot.data.(lr := p.lr)));
      slot := m.slots[j];
      PutSlot(job, i, 4, j, slot.(data := slot.data.(timeNs := p.timeNs)));
      slot := m.slots[j];
      PutSlot(job, i, 5, j, slot.(data := slot.data.(step := p.step)));
      slot := m.slots[j];
      PutSlot(job, i, 6, j, slot.(data := slot.data.(end := p.end)));
      assert m.slots == start.slots[j := Slot(q * 2 + 1, p.(gate := slot.data.gate))];
    }

    method StoreFrames(job: Job)
      requires m.writer == Writing(job, 0, 0) && job.frames != []
      modifies this
      ensures JobStored(old(m), m, job, |job.frames|) && m.writer == Idle
    {
      hide Inv;
      ghost var start := m;
      for i := 0 to |job.frames|
        invariant JobStored(start, m, job, i)
        invariant m.writer == if i == |job.frames| then Idle else Writing(job, i, 0)
      {
        ghost var before := m;
        RingHasSlots(m);
        StoreFrame(job, i);
        JobContinues(start, before, m, job, i);
      }
    }

    /** Push frames for `session`. `seen` is the bus as it was when the gate was
        loaded: that load decides whether the push is admitted. */
    method Push(session: nat, frames: seq<Stereo>, timing: Option<Timing>, frameSeconds: real)
      returns (accepted: bool, ghost seen: Ring)
      requires m.writer.Idle?
      modifies this
      ensures m.writer.Idle? && SameButGate(old(m), seen)
      ensures var op := Op.Push(session, frames, timing, frameSeconds);
              PushOutcome(seen, m, op) && (accepted <==> frames == [] || PushAccepted(seen, m, op))
    {
      hide Inv, Acceptable, EpochLeft;
      var op := Op.Push(session, frames, timing, frameSeconds);
      Interfere();
      seen := m;
      AdmittedAsPromised(m, op);
      if frames == [] { return true, seen; }
      if !PushAdmitted(m, op) { return false, seen; }
      var job := NewJob(m, op);
      IdleControl(m);
      Begin(op);
      if m.writer.Resetting? {
        ResetLocked(Some(session), Some(job), false);
      }
      if !m.writer.Writing? { return false, seen; }
      ghost var ready := m;
      StoreFrames(job);
      accepted := timing.None? || m.requiredGate == timing.value.epoch;
    }
  }

  predicate FrameStored(b: Bus, c: Bus, job: Job, i: nat)
    requires i < |job.frames| && |b.slots| > 0
  {
    && c.log == b.log + [job.EntryOf(i, b.epoch, OnWire(b.owner))]
    && c.head == c.nextSeq == b.nextSeq + 1
    && c.floor == Max(b.resetSeq, SatSub(c.nextSeq, |b.slots|))
    && c.slots == b.slots[SlotOf(b, b.nextSeq) := Slot(b.nextSeq * 2 + 2, job.PayloadOf(i))]
    && SameState(b, c)
    && c.writer == if i + 1 == |job.frames| then Idle else Writing(job, i + 1, 0)
  }

  predicate SameState(b: Bus, c: Bus)
  {
    && c.resetSeq == b.resetSeq && c.control == b.control && c.epoch == b.epoch && c.owner == b.owner
    && c.activeSession == b.activeSession && c.timed == b.timed && c.installedGate == b.installedGate
    && c.stateTimed == b.stateTimed && c.stateGate == b.stateGate && |c.slots| == |b.slots|
  }

  /** n frames of a job have joined the history and, in order, the ring. */
  predicate JobStored(b: Bus, c: Bus, job: Job, n: nat)
    requires n <= |job.frames|
  {
    && c.log == b.log + Entries(job, n, b.epoch, OnWire(b.owner))
    && c.nextSeq == b.nextSeq + n
    && SameState(b, c)
    && (n > 0 ==> c.head == c.nextSeq && c.floor == Max(b.resetSeq, SatSub(c.nextSeq, |b.slots|)))
    && (n == 0 ==> c == b)
  }

  lemma JobContinues(start: Bus, before: Bus, now: Bus, job: Job, i: nat)
    requires i < |job.frames| && |before.slots| > 0
    requires JobStored(start, before, job, i) && FrameStored(before, now, job, i)
    ensures JobStored(start, now, job, i + 1)
  {
  }

  predicate NeedsReset(b: Bus, op: Op)
    requires op.Push?
  {
    op.timing.Some? && (!b.stateTimed || b.stateGate != b.requiredGate)
  }

  /** No epoch is left to push in. */
  predicate Exhausted(b: Bus, op: Op)
    requires op.Push?
  {
    if NeedsReset(b, op) then b.epoch + 2 > U64_MAX else b.epoch == U64_MAX
  }

  /** An admitted push appends exactly its frames, in order, in one epoch of its
      session; any other leaves history, ring and head alone. */
  predicate PushOutcome(b: Bus, c: Bus, op: Op)
    requires op.Push?
  {
    var epoch := if NeedsReset(b, op) then b.epoch + 2 else b.epoch;
    if !PushAdmitted(b, op) then c == b
    else if Exhausted(b, op) then c.log == b.log && c.slots == b.slots && c.head == b.head
    else
      && c.log == b.log + Entries(NewJob(b, op), |op.frames|, epoch, op.session)
      && c.head == c.nextSeq == b.nextSeq + |op.frames|
      && c.epoch == c.control == epoch && c.owner == Some(op.session)
      && c.stateTimed == (b.stateTimed || op.timing.Some?)
      && c.stateGate == (if op.timing.Some? then op.timing.value.epoch else b.stateGate)
      && c.resetSeq == (if NeedsReset(b, op) then b.nextSeq else b.resetSeq)
      && c.floor == Max(c.resetSeq, SatSub(c.nextSeq, |b.slots|))
  }

  /** The answer a caller may expect of a push that has frames. */
  ghost predicate PushAccepted(b: Bus, c: Bus, op: Op)
    requires op.Push?
  {
    && Acceptable(b, op) && EpochLeft(b, op)
    && (op.timing.Some? ==> c.requiredGate == op.timing.value.epoch)
  }

  /** When frame i of a push is to be heard, in exact nanoseconds. */
  function Due(firstNs: real, i: nat, step: real): real { firstNs + i as real * step * 1000000000.0 }

  /** What the source promises to take: frames of the owner, with a positive step, no
      gate or the nonzero one asked for, frame numbers within 2^63 - 1, and every
      single frame's time strictly inside a signed 64-bit number of nanoseconds. */
  ghost predicate Acceptable(b: Bus, op: Op)
    requires op.Push?
  {
    && op.frames != [] && op.frameSeconds > 0.0 && b.owner == Some(op.session)
    && b.nextSeq + |op.frames| <= 9223372036854775807
    && (op.timing.Some? ==>
          && op.timing.value.epoch != 0 && op.timing.value.epoch == b.requiredGate
          && forall i :: 0 <= i < |op.frames| ==>
               -9223372036854775808.0 < Due(op.timing.value.presentationNs, i, op.frameSeconds) < 9223372036854775807.0)
  }

  /** An epoch is left for the push: the running one, or the next if the push starts
      timed playback or changes its gate. */
  predicate EpochLeft(b: Bus, op: Op)
    requires op.Push?
  {
    if op.timing.Some? && (!b.stateTimed || b.stateGate != op.timing.value.epoch)
    then b.epoch + 2 <= 18446744073709551615
    else b.epoch != 18446744073709551615
  }

  lemma StepsOrder(i: nat, n: nat, step: real)
    requires i <= n && step > 0.0
    ensures 0.0 <= i as real * step <= n as real * step
  {
    assert (n - i) as real * step >= 0.0 && i as real * step >= 0.0;
    assert (n - i) as real * step == n as real * step - i as real * step;
  }

  /** Checking the first and the last frame's time checks them all. */
  lemma EndsDecideTimes(firstNs: real, n: nat, step: real)
    requires n > 0 && step > 0.0
    ensures TimesInRange(Some(firstNs), n, step) <==>
      forall i :: 0 <= i < n ==> -9223372036854775808.0 < Due(firstNs, i, step) < 9223372036854775807.0
  {
    forall i | 0 <= i < n
      ensures Due(firstNs, 0, step) <= Due(firstNs, i, step) <= Due(firstNs, n - 1, step)
    {
      StepsOrder(0, i, step);
      StepsOrder(i, n - 1, step);
    }
    assert Due(firstNs, 0, step) == firstNs;
  }

  lemma NoTimes(n: nat, step: real)
    ensures TimesInRange(None, n, step)
  {
  }

  lemma AdmittedAsPromised(b: Bus, op: Op)
    requires op.Push?
    ensures PushAdmitted(b, op) <==> Acceptable(b, op)
    ensures PushAdmitted(b, op) ==> (Exhausted(b, op) <==> !EpochLeft(b, op))
  {
    hide Due, TimesInRange;
    NoTimes(|op.frames|, op.frameSeconds);
    if op.frames != [] && op.frameSeconds > 0.0 && op.timing.Some? {
      EndsDecideTimes(op.timing.value.presentationNs, |op.frames|, op.frameSeconds);
    }
  }

  lemma RoundedFits(x: real)
    requires -9223372036854775808.0 < x < 9223372036854775807.0
    ensures -9223372036854775808 <= Round(x) <= 9223372036854775807
  {
  }

  /** Which pushes are taken, and what it means to be taken or not: an acceptable push
      is appended in full while an epoch is left, its stored times fit their words, and
      any other changes no frame; one that is not acceptable changes nothing at all. */
  lemma AcceptablePushesAreTaken(b: Ring, c: Ring, op: Op)
    requires op.Push? && PushOutcome(b, c, op)
    ensures !Acceptable(b, op) ==> c == b
    ensures Acceptable(b, op) && !EpochLeft(b, op) ==> c.log == b.log && c.slots == b.slots && c.head == b.head
    ensures Acceptable(b, op) && EpochLeft(b, op) ==>
      && |c.log| == |b.log| + |op.frames| && b.log <= c.log && c.head == c.nextSeq == |c.log|
      && forall i :: 0 <= i < |op.frames| ==>
           && c.log[|b.log| + i].data.lr == Sanitized(op.frames[i])
           && -9223372036854775808 <= c.log[|b.log| + i].data.timeNs <= 9223372036854775807
  {
    hide PushAdmitted, Exhausted, Acceptable, EpochLeft, Scheduled;
    AdmittedAsPromised(b, op);
    if PushAdmitted(b, op) && !Exhausted(b, op) {
      forall i | 0 <= i < |op.frames|
        ensures c.log[|b.log| + i].data.lr == Sanitized(op.frames[i])
        ensures -9223372036854775808 <= c.log[|b.log| + i].data.timeNs <= 9223372036854775807
      {
        TakenFrameFits(b, c, op, i);
      }
    }
  }

  lemma TakenFrameFits(b: Ring, c: Ring, op: Op, i: nat)
    requires op.Push? && PushOutcome(b, c, op) && Acceptable(b, op) && PushAdmitted(b, op) && !Exhausted(b, op)
    requires i < |op.frames|
    ensures |b.log| + i < |c.log| && c.log[|b.log| + i].data.lr == Sanitized(op.frames[i])
    ensures -9223372036854775808 <= c.log[|b.log| + i].data.timeNs <= 9223372036854775807
  {
    hide PushAdmitted, Exhausted, Inv;
    RingCounts(b);
    var epoch := if NeedsReset(b, op) then b.epoch + 2 else b.epoch;
    var job := NewJob(b, op);
    assert c.log[|b.log| + i] == Entries(job, |op.frames|, epoch, op.session)[i];
    if op.timing.Some? {
      RoundedFits(Due(op.timing.value.presentationNs, i, op.frameSeconds));
    }
  }

  lemma RingCounts(b: Ring)
    ensures |b.log| == b.nextSeq
  {
  }

  /** A push without timing is admitted to a timed stream as it is to any other: its
      frames join the running epoch, carry no gate, and the stream stays timed. */
  lemma UntimedPushJoinsTimedStream(b: Ring, c: Ring, op: Op, i: nat)
    requires op.Push? && op.timing.None? && PushAdmitted(b, op) && !Exhausted(b, op) && PushOutcome(b, c, op)
    requires b.writer.Idle? && b.timed && c.writer.Idle? && i < |op.frames|
    ensures c.timed && c.control == b.control && c.installedGate == b.installedGate
    ensures b.head + i < |c.log| && c.log[b.head + i].data.gate == 0 && c.log[b.head + i].epoch == c.control
  {
    hide PushAdmitted, Scheduled, LogInv, EpochFramesOk;
    var job := NewJob(b, op);
    assert c.log[b.nextSeq + i] == Entries(job, |op.frames|, b.epoch, op.session)[i];
    assert c.log[b.nextSeq + i] == job.EntryOf(i, b.epoch, op.session);
  }

  function Audible(sample: Sample): Sample { if sample.Finite? then sample else Finite(0.0) }

  lemma ScheduledIsDue(firstNs: real, i: nat, step: real)
    ensures AbsReal(Scheduled(Some(firstNs), i, step) as real - Due(firstNs, i, step)) <= 0.5
  {
    RoundIsNear(Due(firstNs, i, step));
  }

  /** What readers will find of an admitted push: frame i, with only non-finite
      samples silenced, at its own presentation time to within half a nanosecond,
      marked with the push's last frame, gate, epoch and session. */
  lemma PushedFramesAreTold(b: Bus, c: Bus, op: Op, i: nat)
    requires op.Push? && PushAdmitted(b, op) && !Exhausted(b, op) && PushOutcome(b, c, op)
    requires |b.log| == b.nextSeq && i < |op.frames|
    ensures
      var q := b.nextSeq + i;
      && q < |c.log| && c.log[q].session == op.session && c.log[q].epoch == c.control
      && c.log[q].data.lr.left == Audible(op.frames[i].left) && c.log[q].data.lr.right == Audible(op.frames[i].right)
      && c.log[q].data.end == c.head && c.log[q].data.step == op.frameSeconds
      && (if op.timing.None? then c.log[q].data.gate == 0 && c.log[q].data.timeNs == 0
          else
            && c.log[q].data.gate == op.timing.value.epoch
            && AbsReal(c.log[q].data.timeNs as real - Due(op.timing.value.presentationNs, i, op.frameSeconds)) <= 0.5)
  {
    hide PushAdmitted, Exhausted, Scheduled, Due, AbsReal;
    var epoch := if NeedsReset(b, op) then b.epoch + 2 else b.epoch;
    var job := NewJob(b, op);
    assert c.log[b.nextSeq + i] == Entries(job, |op.frames|, epoch, op.session)[i] == job.EntryOf(i, epoch, op.session);
    if op.timing.Some? {
      ScheduledIsDue(op.timing.value.presentationNs, i, op.frameSeconds);
    } else {
      UntimedIsZero(i, op.frameSeconds);
    }
  }

  lemma UntimedIsZero(i: nat, step: real)
    ensures Scheduled(None, i, step) == 0
  {
  }

  lemma RingHasSlots(b: Ring)
    ensures |b.slots| > 0
  {
  }

  lemma IdleControl(b: Ring)
    requires b.writer.Idle?
    ensures b.control == b.epoch
  {
  }
}
