/** The PCM ring as a machine of single atomic stores.

    One thread at a time holds the writer mutex and advances one store per
    step; any thread may interleave at any step. `log` is an auxiliary history:
    entry q describes the frame that was pushed with sequence number q. */
module BusModel {
  import opened Prelude

  datatype Sample = Finite(v: real) | NonFinite

  datatype Stereo = Stereo(left: Sample, right: Sample)

  const SILENCE := Stereo(Finite(0.0), Finite(0.0))

  function Sanitized(f: Stereo): Stereo
  {
    Stereo(if f.left.Finite? then f.left else Finite(0.0),
           if f.right.Finite? then f.right else Finite(0.0))
  }

  /** The five payload words of a slot. */
  datatype Payload = Payload(lr: Stereo, timeNs: int, step: real, end: nat, gate: nat)

  datatype Slot = Slot(sequence: nat, data: Payload)

  /** The presentation time stored with the frame `index` places into a push. */
  function Scheduled(firstNs: Option<real>, index: nat, step: real): int
  {
    if firstNs.None? then 0 else Round(firstNs.value + index as real * step * 1000000000.0)
  }

  /** One accepted push: everything its per-frame stores are computed from. */
  datatype Job = Job(frames: seq<Stereo>, firstNs: Option<real>, step: real,
                     start: nat, end: nat, gate: nat)
  {
    function PayloadOf(i: nat): Payload
      requires i < |frames|
    {
      Payload(Sanitized(frames[i]), Scheduled(firstNs, i, step), step, end, gate)
    }

    function EntryOf(i: nat, epoch: nat, session: nat): Entry
      requires i < |frames|
    {
      Entry(PayloadOf(i), epoch, session, firstNs, i)
    }
  }

  datatype Entry = Entry(data: Payload, epoch: nat, session: nat, firstNs: Option<real>, index: nat)

  datatype Timing = Timing(epoch: nat, presentationNs: real)

  /** Where the thread holding the mutex is; `stage` and `phase` count the
      stores of the current frame or of the reset that are already done. */
  datatype Writer =
    | Idle
    | Writing(job: Job, done: nat, stage: nat)
    | Resetting(newOwner: Option<nat>, next: Option<Job>, clear: bool, phase: nat)
    | Closing

  datatype Bus = Bus(
    slots: seq<Slot>, head: nat, floor: nat, resetSeq: nat, control: nat,
    timed: bool, installedGate: nat, requiredGate: nat, activeSession: nat,
    nextSeq: nat, epoch: nat, owner: Option<nat>, stateTimed: bool, stateGate: nat,
    writer: Writer, log: seq<Entry>)

  datatype Op =
    | Activate(session: nat)
    | End(session: nat)
    | Flush(session: nat)
    | Push(session: nat, frames: seq<Stereo>, timing: Option<Timing>, frameSeconds: real)

  /** What a thread other than the observed one may do between two accesses. */
  datatype Action = Begin(op: Op) | Store | SetGate(gate: nat)

  const I64_MIN_NS: real := -9223372036854775808.0
  const I64_MAX_NS: real := 9223372036854775807.0

  function OnWire(owner: Option<nat>): nat { if owner.None? then 0 else owner.value }

  function FromWire(word: nat): Option<nat> { if word == 0 then None else Some(word) }

  function NewBus(capacity: nat): Bus
  {
    Bus(seq(capacity, _ => Slot(0, Payload(SILENCE, 0, 0.0, 0, 0))), 0, 0, 0, 0,
        false, 0, 0, 0, 0, 0, None, false, 0, Idle, [])
  }

  // ----- the writer's program -----

  predicate TimesInRange(firstNs: Option<real>, count: nat, frameSeconds: real)
  {
    firstNs.Some? ==>
      var lastNs := firstNs.value + (count - 1) as real * frameSeconds * 1000000000.0;
      && I64_MIN_NS < firstNs.value < I64_MAX_NS
      && I64_MIN_NS < lastNs < I64_MAX_NS
  }

  function NewJob(b: Bus, op: Op): Job
    requires op.Push?
  {
    Job(op.frames, if op.timing.None? then None else Some(op.timing.value.presentationNs),
        op.frameSeconds, b.nextSeq, b.nextSeq + |op.frames|,
        if op.timing.None? then 0 else op.timing.value.epoch)
  }

  /** The checks a push passes before it changes the ring. */
  predicate PushAdmitted(b: Bus, op: Op)
    requires op.Push?
  {
    && op.frames != []
    && op.frameSeconds > 0.0
    && b.owner == Some(op.session)
    && (op.timing.Some? ==> op.timing.value.epoch != 0 && op.timing.value.epoch == b.requiredGate)
    && b.nextSeq + |op.frames| <= U64_MAX / 2
    && TimesInRange(NewJob(b, op).firstNs, |op.frames|, op.frameSeconds)
  }

  function BeginOp(b: Bus, op: Op): Bus
  {
    match op
    case Activate(session) =>
      // zero is the inactive-session sentinel, never a caller's id
      if session == 0 then b
      else b.(stateTimed := false, writer := Resetting(Some(session), None, false, 0))
    case End(session) =>
      if b.owner == Some(session) then b.(writer := Resetting(None, None, true, 0)) else b
    case Flush(session) =>
      if b.owner == Some(session) then b.(writer := Resetting(Some(session), None, false, 0)) else b
    case Push(session, frames, timing, frameSeconds) =>
      if !PushAdmitted(b, op) then b
      else if timing.Some? && (!b.stateTimed || b.stateGate != b.requiredGate) then
        b.(stateTimed := true, stateGate := b.requiredGate,
           writer := Resetting(Some(session), Some(NewJob(b, op)), false, 0))
      else if b.epoch == U64_MAX then b
      else b.(writer := Writing(NewJob(b, op), 0, 0))
  }

  function SlotOf(b: Bus, q: nat): nat
    requires |b.slots| > 0
  {
    q % |b.slots|
  }

  /** One store of the per-frame loop. */
  function WriteStore(b: Bus): Bus
    requires b.writer.Writing? && |b.slots| > 0 && b.writer.stage <= 8
    requires b.writer.stage < 8 ==> b.writer.done < |b.writer.job.frames|
  {
    var w, q := b.writer, b.nextSeq;
    var j := SlotOf(b, q);
    var slot := b.slots[j];
    match w.stage
    case 0 => b.(floor := Max(b.resetSeq, SatSub(q + 1, |b.slots|)), writer := w.(stage := 1))
    case 1 => b.(slots := b.slots[j := slot.(sequence := q * 2 + 1)], writer := w.(stage := 2))
    case 2 => b.(slots := b.slots[j := slot.(data := slot.data.(lr := w.job.PayloadOf(w.done).lr))],
                 writer := w.(stage := 3))
    case 3 => b.(slots := b.slots[j := slot.(data := slot.data.(timeNs := w.job.PayloadOf(w.done).timeNs))],
                 writer := w.(stage := 4))
    case 4 => b.(slots := b.slots[j := slot.(data := slot.data.(step := w.job.step))],
                 writer := w.(stage := 5))
    case 5 => b.(slots := b.slots[j := slot.(data := slot.data.(end := w.job.end))],
                 writer := w.(stage := 6))
    case 6 => b.(slots := b.slots[j := slot.(data := slot.data.(gate := w.job.gate))],
                 writer := w.(stage := 7))
    case 7 => b.(slots := b.slots[j := slot.(sequence := q * 2 + 2)], nextSeq := q + 1,
                 log := b.log + [w.job.EntryOf(w.done, b.epoch, OnWire(b.owner))],
                 writer := w.(done := w.done + 1, stage := 8))
    case _ => b.(head := b.nextSeq,
                 writer := if w.done == |w.job.frames| then Idle else w.(stage := 0))
  }

  /** One store of the session reset; running out of epochs closes the bus. */
  function ResetStore(b: Bus): Bus
    requires b.writer.Resetting?
  {
    var w := b.writer;
    match w.phase
    case 0 =>
      if b.epoch + 2 > U64_MAX then b.(control := U64_MAX, epoch := U64_MAX, owner := None, writer := Closing)
      else b.(control := b.epoch + 1, epoch := b.epoch + 2, owner := w.newOwner, writer := w.(phase := 1))
    case 1 => b.(resetSeq := b.nextSeq, writer := w.(phase := 2))
    case 2 => b.(floor := b.nextSeq, writer := w.(phase := 3))
    case 3 => b.(activeSession := OnWire(w.newOwner), writer := w.(phase := 4))
    case 4 => b.(timed := b.stateTimed, writer := w.(phase := 5))
    case 5 => b.(installedGate := b.stateGate, writer := w.(phase := 6))
    case 6 => b.(control := b.epoch,
                 writer := if w.clear then w.(phase := 7)
                           else if w.next.Some? then Writing(w.next.value, 0, 0)
                           else Idle)
    case _ => b.(activeSession := 0, writer := Idle)
  }

  function Step(b: Bus, a: Action): Bus
    requires Inv(b)
  {
    match a
    case SetGate(gate) => b.(requiredGate := gate)
    case Begin(op) => if b.writer.Idle? then BeginOp(b, op) else b
    case Store =>
      match b.writer
      case Idle => b
      case Writing(_, _, _) => WriteStore(b)
      case Resetting(_, _, _, _) => ResetStore(b)
      case Closing => b.(activeSession := 0, writer := Idle)
  }

  // ----- invariant -----

  predicate Even(n: nat) { n % 2 == 0 }

  /** The frame a nonzero slot sequence 2q+1 or 2q+2 belongs to. */
  function FrameOf(sequence: nat): nat
    requires sequence > 0
  {
    (sequence - 1) / 2
  }

  predicate SlotOk(b: Bus, j: nat)
    requires j < |b.slots|
  {
    var s := b.slots[j].sequence;
    s > 0 ==>
      var q := FrameOf(s);
      && q % |b.slots| == j
      && b.nextSeq <= q + |b.slots|
      && if Even(s) then q < |b.log| && b.slots[j].data == b.log[q].data
         else b.writer.Writing? && 2 <= b.writer.stage <= 7 && q == b.nextSeq
  }

  /** Frame number up to which room has been made: one further while a frame is written. */
  function Reserved(b: Bus): nat
  {
    if b.writer.Writing? && 1 <= b.writer.stage <= 7 then b.nextSeq + 1 else b.nextSeq
  }

  predicate RingInv(b: Bus)
  {
    && |b.slots| > 0
    && |b.log| == b.nextSeq
    && b.nextSeq <= U64_MAX / 2
    && b.head == (if b.writer.Writing? && b.writer.stage == 8 then b.nextSeq - 1 else b.nextSeq)
    && b.floor <= b.head
    && Reserved(b) - b.floor <= |b.slots|
    && (forall j :: 0 <= j < |b.slots| ==> SlotOk(b, j))
    && (forall q :: b.floor <= q < b.nextSeq ==> b.slots[SlotOf(b, q)].sequence == q * 2 + 2)
  }

  predicate JobOk(b: Bus, job: Job)
  {
    && job.frames != []
    && job.step > 0.0
    && job.end == job.start + |job.frames| <= U64_MAX / 2
    && (job.firstNs.None? <==> job.gate == 0)
    && (job.gate != 0 ==> b.stateTimed && job.gate == b.stateGate)
  }

  /** The words of the current frame that have been stored so far. */
  predicate PartlyStored(slot: Slot, q: nat, p: Payload, stage: nat)
  {
    && (2 <= stage <= 7 ==> slot.sequence == q * 2 + 1)
    && (3 <= stage <= 7 ==> slot.data.lr == p.lr)
    && (4 <= stage <= 7 ==> slot.data.timeNs == p.timeNs)
    && (5 <= stage <= 7 ==> slot.data.step == p.step)
    && (6 <= stage <= 7 ==> slot.data.end == p.end)
    && (stage == 7 ==> slot.data.gate == p.gate)
  }

  predicate WriterInv(b: Bus)
    requires |b.log| == b.nextSeq && |b.slots| > 0
  {
    match b.writer
    case Idle => true
    case Writing(job, done, stage) =>
      && JobOk(b, job) && stage <= 8 && done <= |job.frames|
      && (if stage == 8 then done > 0 else done < |job.frames|)
      && b.nextSeq == job.start + done
      && (2 <= stage < 8 ==> PartlyStored(b.slots[SlotOf(b, b.nextSeq)], b.nextSeq, job.PayloadOf(done), stage))
      && (done > 0 ==> b.log[b.nextSeq - 1] == job.EntryOf(done - 1, b.epoch, OnWire(b.owner)))
      && b.owner.Some? && b.owner.value != 0
      && Even(b.epoch)
    case Resetting(newOwner, next, clear, phase) =>
      && phase <= (if clear then 7 else 6)
      && newOwner != Some(0)
      && (next.Some? ==> JobOk(b, next.value) && next.value.start == b.nextSeq && newOwner.Some? && !clear)
      && (clear ==> newOwner == None)
      && (phase >= 1 ==> b.owner == newOwner && Even(b.epoch) && b.epoch >= 2)
      && (phase >= 2 ==> b.resetSeq == b.nextSeq)
      && (phase >= 3 ==> b.floor == b.nextSeq)
      && (phase >= 4 ==> b.activeSession == OnWire(newOwner))
      && (phase >= 5 ==> b.timed == b.stateTimed)
      && (phase >= 6 ==> b.installedGate == b.stateGate)
    case Closing => b.epoch == U64_MAX
  }

  /** Between resets the published words agree with the mutex-protected state. */
  predicate Settled(b: Bus)
  {
    && b.activeSession == OnWire(b.owner)
    && b.timed == b.stateTimed
    && b.installedGate == b.stateGate
  }

  predicate EpochInv(b: Bus)
  {
    && b.owner != Some(0)
    && b.epoch <= U64_MAX
    && (Even(b.epoch) || (b.epoch == U64_MAX && b.owner == None))
    && b.control == (if b.writer.Resetting? && 1 <= b.writer.phase <= 6 then b.epoch - 1 else b.epoch)
    && (b.epoch == 0 ==> b.owner == None && b.activeSession == 0 && b.nextSeq == 0)
    && b.resetSeq <= b.nextSeq
    && (b.stateTimed ==> b.stateGate != 0)
    && (Even(b.control) ==>
          && (b.timed ==> b.installedGate != 0)
          && b.floor == Max(b.resetSeq, SatSub(Reserved(b), |b.slots|))
          && (b.writer.Resetting? && b.writer.phase == 0 ==> b.activeSession == OnWire(b.owner))
          && (!b.writer.Resetting? || b.writer.phase == 7 ==> Settled(b)))
  }

  /** Frames of the running epoch all belong to it and to the published session. */
  predicate EpochFramesOk(b: Bus)
  {
    Even(b.control) ==>
      forall q :: b.resetSeq <= q < |b.log| ==> InEpoch(b, b.log[q])
  }

  predicate InEpoch(b: Bus, e: Entry)
  {
    && e.epoch == b.control
    && e.session == b.activeSession
    && e.session != 0
    && (e.data.gate == 0 || (b.timed && e.data.gate == b.installedGate))
  }

  /** Consecutive frames of one push carry one schedule. */
  predicate EntryOk(log: seq<Entry>, q: nat)
    requires q < |log|
  {
    var e := log[q];
    && e.data.step > 0.0
    && q < e.data.end
    && (e.firstNs.Some? <==> e.data.gate != 0)
    && e.data.lr.left.Finite? && e.data.lr.right.Finite?
    && e.data.timeNs == Scheduled(e.firstNs, e.index, e.data.step)
    && (q + 1 < |log| && q + 1 < e.data.end ==> Follows(e, log[q + 1]))
  }

  predicate Follows(e: Entry, f: Entry)
  {
    && f.data.step == e.data.step && f.data.end == e.data.end && f.data.gate == e.data.gate
    && f.firstNs == e.firstNs && f.index == e.index + 1
  }

  predicate LogInv(b: Bus)
  {
    && (forall q :: 0 <= q < |b.log| ==> EntryOk(b.log, q))
    && (|b.log| > 0 && !b.writer.Writing? ==> b.log[|b.log| - 1].data.end == |b.log|)
    && (|b.log| > 0 && b.writer.Writing? && b.writer.done == 0 ==> b.log[|b.log| - 1].data.end == |b.log|)
  }

  predicate Inv(b: Bus)
  {
    RingInv(b) && WriterInv(b) && EpochInv(b) && EpochFramesOk(b) && LogInv(b)
  }
}
