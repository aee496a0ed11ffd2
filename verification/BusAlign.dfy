/** Where a timed reader starts inside the ring: span jumping over the log,
    and the frame-by-frame search it stands for. */
module BusAlign {
  import opened Prelude
  import opened BusModel

  datatype Alignment = Alignment(cursor: nat, leading: nat, waiting: bool)

  /** How many steps of its own length frame `e` lies before the target time. */
  function StepsBehind(e: Payload, targetNs: real): int
    requires e.step > 0.0
  {
    Round((targetNs - e.timeNs as real) / 1000000000.0 / e.step)
  }

  /** Silence to play before a frame that lies in the future. */
  function LeadingSilence(e: Payload, targetNs: real, frameCount: nat): (leading: nat)
    ensures leading <= frameCount
  {
    Min(Max(Round(-((targetNs - e.timeNs as real) / 1000000000.0) * 48000.0), 0), frameCount)
  }

  /** Frames passed over at once from frame c: never beyond its push or the head. */
  function Skip(log: seq<Entry>, c: nat, head: nat, targetNs: real): int
    requires c < head <= |log| && EntryOk(log, c)
  {
    Min(StepsBehind(log[c].data, targetNs), SatSub(Min(log[c].data.end, head), c))
  }

  predicate LogOk(log: seq<Entry>) { forall q :: 0 <= q < |log| ==> EntryOk(log, q) }

  function Align(log: seq<Entry>, c: nat, head: nat, gate: nat, targetNs: real, frameCount: nat): (a: Alignment)
    requires LogOk(log) && head <= |log|
    ensures a.leading <= frameCount
    decreases head - c
  {
    if c >= head then Alignment(c, 0, false)
    else
      assert EntryOk(log, c);
      var e := log[c];
      if e.data.gate != gate then Alignment(c, 0, true)
      else if StepsBehind(e.data, targetNs) < 0 then
        var leading := LeadingSilence(e.data, targetNs, frameCount);
        Alignment(c, leading, leading == frameCount)
      else
        var next := c + Skip(log, c, head, targetNs);
        if next < e.data.end || next == c then Alignment(next, 0, false)
        else Align(log, next, head, gate, targetNs, frameCount)
  }

  /** The search one frame at a time: pass every frame at least one step behind. */
  function FirstDue(log: seq<Entry>, c: nat, head: nat, gate: nat, targetNs: real): nat
    requires LogOk(log) && head <= |log|
    decreases head - c
  {
    if c >= head then c
    else
      assert EntryOk(log, c);
      if log[c].data.gate != gate || StepsBehind(log[c].data, targetNs) <= 0 then c
      else FirstDue(log, c + 1, head, gate, targetNs)
  }

  // ----- one push is one schedule -----

  lemma {:induction false} SpanIsUniform(log: seq<Entry>, q: nat, r: nat)
    requires LogOk(log) && q <= r < |log| && r < log[q].data.end
    ensures log[r].data.step == log[q].data.step && log[r].data.end == log[q].data.end
    ensures log[r].data.gate == log[q].data.gate && log[r].firstNs == log[q].firstNs
    ensures log[r].index == log[q].index + (r - q)
    decreases r - q
  {
    if q < r {
      SpanIsUniform(log, q, r - 1);
      assert EntryOk(log, r - 1);
    }
  }

  function StepNs(e: Entry): real { e.data.step * 1000000000.0 }

  /** The time a frame was scheduled for, before rounding to whole nanoseconds. */
  function ExactNs(e: Entry): real
    requires e.firstNs.Some?
  {
    e.firstNs.value + e.index as real * e.data.step * 1000000000.0
  }

  lemma StepsAddUp(a: int, b: int, step: real)
    ensures (a + b) as real * step * 1000000000.0 == a as real * step * 1000000000.0 + b as real * (step * 1000000000.0)
  {
  }

  lemma StoredTimeIsNear(log: seq<Entry>, q: nat)
    requires LogOk(log) && q < |log| && log[q].firstNs.Some?
    ensures AbsReal(log[q].data.timeNs as real - ExactNs(log[q])) <= 0.5
  {
    assert EntryOk(log, q);
    RoundIsNear(ExactNs(log[q]));
  }

  lemma SpanTimes(log: seq<Entry>, q: nat, r: nat)
    requires LogOk(log) && q <= r < |log| && r < log[q].data.end && log[q].firstNs.Some?
    ensures log[r].firstNs.Some? && log[r].data.step == log[q].data.step
    ensures ExactNs(log[r]) == ExactNs(log[q]) + (r - q) as real * StepNs(log[q])
  {
    SpanIsUniform(log, q, r);
    StepsAddUp(log[q].index, r - q, log[q].data.step);
  }

  lemma Quotient(x: real, step: real, s: real)
    requires step > 0.0 && s == step * 1000000000.0
    ensures s > 0.0 && (x / 1000000000.0 / step) * s == x
  {
    var y := x / 1000000000.0 / step;
    assert y * step == x / 1000000000.0;
    assert (y * step) * 1000000000.0 == x;
    assert y * (step * 1000000000.0) == (y * step) * 1000000000.0;
  }

  lemma Scale(a: real, b: real, s: real)
    requires s > 0.0 && a <= b
    ensures a * s <= b * s
  {
    assert (b - a) * s >= 0.0;
  }

  lemma NearMultiple(k: int, x: real, s: real, g: real)
    requires s > 0.0 && AbsReal(k as real - x) <= 0.5 && x * s == g
    ensures k as real * s - 0.5 * s <= g <= k as real * s + 0.5 * s
  {
    Scale(k as real - 0.5, x, s);
    Scale(x, k as real + 0.5, s);
    assert (k as real - 0.5) * s == k as real * s - 0.5 * s;
    assert (k as real + 0.5) * s == k as real * s + 0.5 * s;
  }

  lemma RoundedQuotient(gap: real, step: real, s: real)
    requires step > 0.0 && s == step * 1000000000.0
    ensures var k := Round(gap / 1000000000.0 / step) as real; k * s - 0.5 * s <= gap <= k * s + 0.5 * s
  {
    var x := gap / 1000000000.0 / step;
    RoundIsNear(x);
    Quotient(gap, step, s);
    NearMultiple(Round(x), x, s, gap);
  }

  /** Rounding to whole steps misses the target by at most half a step. */
  lemma StepsBehindIsNear(e: Entry, targetNs: real)
    requires e.data.step > 0.0
    ensures var k, gap := StepsBehind(e.data, targetNs) as real, targetNs - e.data.timeNs as real;
            k * StepNs(e) - 0.5 * StepNs(e) <= gap <= k * StepNs(e) + 0.5 * StepNs(e)
  {
    RoundedQuotient(targetNs - e.data.timeNs as real, e.data.step, StepNs(e));
  }

  // ----- where alignment ends -----

  predicate AtDueFrame(log: seq<Entry>, q: nat, targetNs: real)
    requires q < |log|
  {
    AbsReal(targetNs - log[q].data.timeNs as real) <= 0.5 * StepNs(log[q]) + 1.0
  }

  predicate PlaysLate(log: seq<Entry>, q: nat, targetNs: real)
    requires q < |log|
  {
    log[q].data.timeNs as real <= targetNs - 0.5 * StepNs(log[q]) + 1.0
  }

  /** Frames passed over carry the gate and lie before the target. */
  predicate PassedLate(log: seq<Entry>, c: nat, d: nat, gate: nat, targetNs: real)
  {
    d <= |log| && forall q :: c <= q < d ==> log[q].data.gate == gate && PlaysLate(log, q, targetNs)
  }

  /** Silence before a frame that lies `gapNs` ahead, in a block of `frameCount` frames
      at 48 kHz: the block waits exactly when the frame comes no earlier than half an
      output frame before its end; otherwise the silence is right to half an output frame. */
  predicate SilentUntil(leading: nat, waiting: bool, gapNs: real, frameCount: nat)
  {
    var frameNs := 1000000000.0 / 48000.0;
    && (waiting <==> gapNs >= (frameCount as real - 0.5) * frameNs)
    && if waiting then leading == frameCount
       else leading < frameCount && AbsReal(leading as real * frameNs - gapNs) <= 0.5 * frameNs
  }

  lemma RoundReaches(x: real, n: nat)
    requires x >= 0.0
    ensures Round(x) >= n <==> x >= n as real - 0.5
  {
  }

  /** The computed silence is the right one, in nanoseconds. */
  lemma SilenceIsRight(e: Payload, targetNs: real, frameCount: nat)
    requires targetNs < e.timeNs as real
    ensures
      var leading := LeadingSilence(e, targetNs, frameCount);
      SilentUntil(leading, leading == frameCount, e.timeNs as real - targetNs, frameCount)
  {
    var gap := e.timeNs as real - targetNs;
    var x := -((targetNs - e.timeNs as real) / 1000000000.0) * 48000.0;
    assert x * (1000000000.0 / 48000.0) == gap;
    RoundIsNear(x);
    RoundReaches(x, frameCount);
  }

  /** Every way an alignment can end, for every log, target and starting point. */
  predicate AlignmentOk(log: seq<Entry>, c: nat, head: nat, gate: nat, targetNs: real, frameCount: nat, a: Alignment)
    requires head <= |log|
  {
    && c <= a.cursor <= Max(c, head)
    && (a.cursor >= head ==> a.leading == 0 && !a.waiting)
    && (a.cursor < head ==>
          || (log[a.cursor].data.gate != gate && a.waiting && a.leading == 0)
          || (log[a.cursor].data.gate == gate && AtDueFrame(log, a.cursor, targetNs) && a.leading == 0 && !a.waiting)
          || (log[a.cursor].data.gate == gate
              && targetNs < log[a.cursor].data.timeNs as real
              && SilentUntil(a.leading, a.waiting, log[a.cursor].data.timeNs as real - targetNs, frameCount)))
    && (a.cursor <= head ==> PassedLate(log, c, a.cursor, gate, targetNs))
  }

  /** Plain arithmetic behind the next two lemmas: frame `n` steps after one
      that lies `k` rounded steps behind, with both stored times off by half. */
  lemma TimesAhead(k: int, n: int, s: real, gap: real, error: real)
    requires s > 0.0 && -1.0 <= error <= 1.0
    requires k as real * s - 0.5 * s <= gap <= k as real * s + 0.5 * s
    ensures n == k ==> AbsReal(gap - n as real * s - error) <= 0.5 * s + 1.0
    ensures n < k ==> gap - n as real * s - error >= 0.5 * s - 1.0
  {
    var ns, ks := n as real * s, k as real * s;
    if n < k {
      Scale(n as real + 1.0, k as real, s);
      assert (n as real + 1.0) * s == ns + s;
      assert ns + s <= ks;
    }
  }

  lemma StoredTimesInSpan(log: seq<Entry>, c: nat, q: nat)
    requires LogOk(log) && c <= q < |log| && log[c].firstNs.Some? && q < log[c].data.end
    ensures var error := log[q].data.timeNs as real - log[c].data.timeNs as real - (q - c) as real * StepNs(log[c]);
            -1.0 <= error <= 1.0
  {
    SpanTimes(log, c, q);
    StoredTimeIsNear(log, c);
    StoredTimeIsNear(log, q);
  }

  /** Everything the timing argument needs, as plain numbers: step length,
      distance of the target from frame c, and the rounding error of frame q. */
  lemma SpanNumbers(log: seq<Entry>, c: nat, q: nat, targetNs: real) returns (s: real, gap: real, error: real)
    requires LogOk(log) && c <= q < |log| && EntryOk(log, c) && log[c].firstNs.Some?
    requires q < log[c].data.end
    ensures s > 0.0 && s == StepNs(log[q]) && -1.0 <= error <= 1.0
    ensures var k := StepsBehind(log[c].data, targetNs) as real; k * s - 0.5 * s <= gap <= k * s + 0.5 * s
    ensures targetNs - log[q].data.timeNs as real == gap - (q - c) as real * s - error
    ensures log[q].data.gate == log[c].data.gate
  {
    s := StepNs(log[c]);
    gap := targetNs - log[c].data.timeNs as real;
    error := log[q].data.timeNs as real - log[c].data.timeNs as real - (q - c) as real * s;
    StoredTimesInSpan(log, c, q);
    StepsBehindIsNear(log[c], targetNs);
    SpanIsUniform(log, c, q);
  }

  lemma SpanFrameTimes(log: seq<Entry>, c: nat, q: nat, targetNs: real)
    requires LogOk(log) && c <= q < |log| && EntryOk(log, c) && log[c].firstNs.Some?
    requires q < log[c].data.end
    ensures log[q].data.gate == log[c].data.gate
    ensures q - c == StepsBehind(log[c].data, targetNs) ==> AtDueFrame(log, q, targetNs)
    ensures q - c < StepsBehind(log[c].data, targetNs) ==> PlaysLate(log, q, targetNs)
  {
    var s, gap, error := SpanNumbers(log, c, q, targetNs);
    TimesAhead(StepsBehind(log[c].data, targetNs), q - c, s, gap, error);
  }

  lemma SkipPassesLate(log: seq<Entry>, c: nat, head: nat, targetNs: real)
    requires LogOk(log) && c < head <= |log| && EntryOk(log, c) && log[c].firstNs.Some?
    requires StepsBehind(log[c].data, targetNs) >= 0
    ensures PassedLate(log, c, c + Skip(log, c, head, targetNs), log[c].data.gate, targetNs)
  {
    forall q | c <= q < c + Skip(log, c, head, targetNs)
      ensures log[q].data.gate == log[c].data.gate && PlaysLate(log, q, targetNs)
    {
      SpanFrameTimes(log, c, q, targetNs);
    }
  }

  lemma FutureFrame(e: Entry, targetNs: real)
    requires e.data.step > 0.0 && StepsBehind(e.data, targetNs) < 0
    ensures targetNs < e.data.timeNs as real
  {
    StepsBehindIsNear(e, targetNs);
    Scale(StepsBehind(e.data, targetNs) as real, -1.0, StepNs(e));
    assert e.data.step * 1000000000.0 > 0.0;
  }

  lemma {:induction false} AlignEnds(log: seq<Entry>, c: nat, head: nat, gate: nat, targetNs: real, frameCount: nat)
    requires LogOk(log) && head <= |log| && gate != 0
    ensures AlignmentOk(log, c, head, gate, targetNs, frameCount, Align(log, c, head, gate, targetNs, frameCount))
    decreases head - c
  {
    if c >= head || log[c].data.gate != gate {
      return;
    }
    assert EntryOk(log, c);
    var e := log[c];
    var k := StepsBehind(e.data, targetNs);
    if k < 0 {
      FutureFrame(e, targetNs);
      SilenceIsRight(e.data, targetNs, frameCount);
      return;
    }
    var next := c + Skip(log, c, head, targetNs);
    SkipPassesLate(log, c, head, targetNs);
    if next < e.data.end || next == c {
      if next < head {
        SpanFrameTimes(log, c, next, targetNs);
      }
    } else {
      AlignEnds(log, next, head, gate, targetNs, frameCount);
    }
  }

  // ----- jumping spans is the frame-by-frame search -----

  /** Arithmetic without rounding of stored times to whole nanoseconds. */
  predicate ExactTimes(log: seq<Entry>)
  {
    forall q :: 0 <= q < |log| && log[q].firstNs.Some? ==> log[q].data.timeNs as real == ExactNs(log[q])
  }

  lemma StepsBehindDropsByOne(log: seq<Entry>, c: nat, r: nat, targetNs: real)
    requires LogOk(log) && ExactTimes(log) && c <= r < |log| && r < log[c].data.end && log[c].firstNs.Some?
    requires log[r].data.step > 0.0 && log[c].data.step > 0.0
    ensures (targetNs - log[r].data.timeNs as real) / 1000000000.0 / log[r].data.step
         == (targetNs - log[c].data.timeNs as real) / 1000000000.0 / log[c].data.step - (r - c) as real
  {
    SpanIsUniform(log, c, r);
    SpanTimes(log, c, r);
    var step, s := log[c].data.step, StepNs(log[c]);
    var gap := targetNs - log[c].data.timeNs as real;
    var later := targetNs - log[r].data.timeNs as real;
    var n := (r - c) as real;
    assert later == gap - n * s;
    Quotient(gap, step, s);
    Quotient(later, step, s);
    var x, y := gap / 1000000000.0 / step, later / 1000000000.0 / step;
    assert (x - y) * s == n * s;
    CancelFactor(x - y, n, s);
  }

  lemma CancelFactor(a: real, b: real, s: real)
    requires s > 0.0 && a * s == b * s
    ensures a == b
  {
    assert (a - b) * s == 0.0;
  }

  lemma {:induction false} PassingFrames(log: seq<Entry>, c: nat, stop: nat, head: nat, gate: nat, targetNs: real)
    requires LogOk(log) && c <= stop <= head <= |log|
    requires forall q :: c <= q < stop ==>
      log[q].data.gate == gate && EntryOk(log, q) && StepsBehind(log[q].data, targetNs) > 0
    ensures FirstDue(log, c, head, gate, targetNs) == FirstDue(log, stop, head, gate, targetNs)
    decreases stop - c
  {
    if c < stop {
      PassingFrames(log, c + 1, stop, head, gate, targetNs);
    }
  }

  lemma JumpPassesBehindFrames(log: seq<Entry>, c: nat, q: nat, head: nat, targetNs: real)
    requires LogOk(log) && ExactTimes(log) && c < head <= |log| && EntryOk(log, c) && log[c].firstNs.Some?
    requires var k := StepsBehind(log[c].data, targetNs);
             k >= 0 && c <= q <= c + k && q < Min(log[c].data.end, head)
    ensures log[q].data.gate == log[c].data.gate && EntryOk(log, q)
    ensures StepsBehind(log[q].data, targetNs) > 0 <==> q < c + StepsBehind(log[c].data, targetNs)
  {
    SpanIsUniform(log, c, q);
    assert EntryOk(log, q);
    StepsBehindDropsByOne(log, c, q, targetNs);
  }

  /** With exact times, jumping whole spans reaches the very frame that the
      frame-by-frame search reaches, for every log, start and target. */
  lemma {:induction false} AlignIsFrameSearch(log: seq<Entry>, c: nat, head: nat, gate: nat, targetNs: real,
                                              frameCount: nat)
    requires LogOk(log) && ExactTimes(log) && head <= |log| && gate != 0
    ensures Align(log, c, head, gate, targetNs, frameCount).cursor == FirstDue(log, c, head, gate, targetNs)
    decreases head - c
  {
    if c >= head || log[c].data.gate != gate {
      return;
    }
    assert EntryOk(log, c);
    var e := log[c];
    var k := StepsBehind(e.data, targetNs);
    if k < 0 {
      return;
    }
    var next := c + Skip(log, c, head, targetNs);
    forall q | c <= q < next
      ensures log[q].data.gate == gate && EntryOk(log, q) && StepsBehind(log[q].data, targetNs) > 0
    {
      JumpPassesBehindFrames(log, c, q, head, targetNs);
    }
    PassingFrames(log, c, next, head, gate, targetNs);
    if next < e.data.end || next == c {
      if next < head {
        JumpPassesBehindFrames(log, c, next, head, targetNs);
      }
    } else {
      AlignIsFrameSearch(log, next, head, gate, targetNs, frameCount);
    }
  }

  // ----- the log only grows -----

  lemma {:induction false} AlignIsStable(log: seq<Entry>, longer: seq<Entry>, c: nat, head: nat, gate: nat,
                                         targetNs: real, frameCount: nat)
    requires LogOk(log) && LogOk(longer) && log <= longer && head <= |log|
    ensures Align(log, c, head, gate, targetNs, frameCount) == Align(longer, c, head, gate, targetNs, frameCount)
    decreases head - c
  {
    if c < head {
      assert log[c] == longer[c] && EntryOk(log, c);
      if log[c].data.gate == gate && StepsBehind(log[c].data, targetNs) > 0 {
        var next := c + Skip(log, c, head, targetNs);
        if next >= log[c].data.end && next != c {
          AlignIsStable(log, longer, next, head, gate, targetNs, frameCount);
        }
      }
    }
  }
}
