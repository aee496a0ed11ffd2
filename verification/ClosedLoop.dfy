/** The clock servo closed over the real resampler: whole source frames arrive every
    10 ms, the correction is taken from the bus's whole frames, the resampler turns
    the block into however many frames it makes of it, and a reader takes 480. */
module ClosedLoop {
  import opened Prelude
  import R = Resampler
  import V = Converter
  import S = ClockServo

  /** Frames in the ring, the resampler, and the part of a source frame that the
      source's clock is ahead of the frames it has delivered. */
  datatype Loop = Loop(fill: int, resampler: R.State, owed: real)

  /** Source frames in 10 ms of a clock that is off by `sourcePpm`. */
  function Due(rate: nat, sourcePpm: real): real { rate as real * 0.01 * (1.0 + sourcePpm * 0.000001) }

  /** One quantum: correct, convert, push, read. */
  function Quantum(k: R.Kernel, c: S.Config, rate: nat, l: Loop, sourcePpm: real, frames: seq<R.Frame>): Loop
    requires R.Ready(k, l.resampler)
  {
    var ppm := V.Clamped(V.Finite(S.PpmFor(c, l.fill as real)));
    var (resampler, out) := R.Processed(k, R.Corrected(k, l.resampler, V.Ratio(ppm)), frames);
    Loop(l.fill + |out| - 480, resampler, l.owed + Due(rate, sourcePpm) - |frames| as real)
  }

  /** How far the next output frame lies beyond the first window. */
  function Ahead(k: R.Kernel, s: R.State): real { s.index as real + s.fraction - (k.half as real - 1.0) }

  predicate RateOk(k: R.Kernel, rate: nat)
  {
    8000 <= rate <= 384000 && k.nominal == rate as real / 48000.0
  }

  ghost predicate LoopOk(k: R.Kernel, rate: nat, l: Loop)
  {
    && RateOk(k, rate) && R.Ready(k, l.resampler)
    && 0.0 <= Ahead(k, l.resampler) <= 1.003 * k.nominal && 0.0 <= l.owed < 1.0
  }

  function Mul(x: real, y: real): real { x * y }

  /** Everything there is to play, in output frames: the ring, what the source is owed,
      less what the resampler is ahead. */
  function Level(k: R.Kernel, rate: nat, l: Loop): real
    requires rate > 0
  {
    l.fill as real + Mul(l.owed - Ahead(k, l.resampler), 48000.0 / rate as real)
  }

  // ----- one quantum -----

  /** Pure arithmetic: the level moves by the ideal converter's frames less 480, up to
      the correction of what is in flight and the rounded residues. */
  lemma LevelArithmetic(
    u: real, nominal: real, g: real, step: real, out: real, frames: real, due: real, owed: real, owing: real,
    ahead: real, going: real, residue: real)
    requires step * u == nominal && g * nominal == 1.0
    requires Mul(out, step) == frames + (going - ahead) + residue && frames == due + owed - owing
    ensures
      var inFlight := owed - owing + going - ahead;
      out + Mul(owing - going, g) - Mul(owed - ahead, g)
        == Mul(Mul(due, u), g) + Mul(Mul(inFlight, u - 1.0), g) + Mul(Mul(residue, u), g)
  {
    var inFlight := owed - owing + going - ahead;
    assert out * step == due + inFlight + residue;
    assert out == out * (step * u) * g by {
      assert step * u * g == 1.0;
    }
    assert out * (step * u) * g == (out * step) * u * g;
    assert (due + inFlight + residue) * u * g == due * u * g + inFlight * u * g + residue * u * g;
    assert inFlight * (u - 1.0) * g == inFlight * u * g - inFlight * g;
    assert (owing - going) * g - (owed - ahead) * g == -(inFlight * g);
  }

  lemma Scale(low: real, x: real, high: real, y: real)
    requires low <= x <= high && y >= 0.0
    ensures low * y <= x * y <= high * y
  {
    assert (x - low) * y >= 0.0 && (high - x) * y >= 0.0;
  }

  lemma RatioUndoes(ppm: real)
    requires -500.0 <= ppm <= 500.0
    ensures V.Ratio(ppm) * (1.0 + ppm * 0.000001) == 1.0 && 0.9994 <= V.Ratio(ppm) <= 1.0006
  {
    var u := 1.0 + ppm * 0.000001;
    assert u == 1.0 + ppm / 1000000.0;
    V.Reciprocal(u, 0.9995, 1.0005);
  }

  lemma StepNumbers(nominal: real, q: real, u: real)
    requires q * u == 1.0 && 0.9994 <= q <= 1.0006 && nominal > 0.0
    ensures nominal * q * u == nominal && 0.9994 * nominal <= nominal * q <= 1.0006 * nominal
  {
    assert nominal * q * u == nominal * (q * u);
    Scale(0.9994, q, 1.0006, nominal);
  }

  lemma CorrectedTakes(k: R.Kernel, s: R.State, q: real)
    requires R.Ready(k, s) && 0.9994 <= q <= 1.0006
    ensures R.Corrected(k, s, q) == s.(step := k.nominal * q)
  {
  }

  lemma ClampedIsItself(ppm: real)
    requires -500.0 <= ppm <= 500.0
    ensures V.Clamped(V.Finite(ppm)) == ppm
  {
  }

  /** The step the resampler takes under a correction of at most 500 ppm. */
  lemma StepOf(k: R.Kernel, s: R.State, ppm: real)
    requires R.Ready(k, s) && -500.0 <= ppm <= 500.0
    ensures
      var r := R.Corrected(k, s, V.Ratio(V.Clamped(V.Finite(ppm))));
      && r.step * (1.0 + ppm * 0.000001) == k.nominal && 0.9994 * k.nominal <= r.step <= 1.0006 * k.nominal
      && r.index == s.index && r.fraction == s.fraction && r.history == s.history
  {
    hide V.Ratio, V.Clamped, R.Corrected;
    ClampedIsItself(ppm);
    RatioUndoes(ppm);
    var q := V.Ratio(ppm);
    StepNumbers(k.nominal, q, 1.0 + ppm * 0.000001);
    CorrectedTakes(k, s, q);
    assert R.Corrected(k, s, q).step == k.nominal * q;
  }

  /** After a block the next frame is no further ahead than before, or than one step. */
  lemma StaysAhead(k: R.Kernel, s: R.State, frames: seq<R.Frame>)
    requires R.Ready(k, s)
    ensures
      var r := R.Processed(k, s, frames).0;
      0.0 <= Ahead(k, r) && (Ahead(k, r) <= Ahead(k, s) || Ahead(k, r) < s.step + R.SNAP)
  {
    hide R.FrameAt, R.Window, R.Advance, R.Emit;
    R.EmitStopsShort(k, s.history + frames, s.index, s.fraction, s.step, |frames| + k.half - 1);
  }

  lemma FewFrames(m: real, nominal: real, step: real, most: real)
    requires 1.0 / 6.0 <= nominal && 0.9994 * nominal <= step && 0.0 <= m
    requires m * step <= most && most <= 499.1 * nominal + m * R.SNAP
    ensures m <= 500.0
  {
    var d := step - R.SNAP;
    assert m * d == m * step - m * R.SNAP;
    assert d >= 0.9993 * nominal;
    R.NotLess(500.0, m, d);
  }

  lemma Small(x: real, b: real, y: real, t: real)
    requires -b <= x <= b && 0.0 <= y <= t
    ensures -(b * t) <= x * y <= b * t
  {
    Scale(-b, x, b, y);
    Scale(0.0, y, t, b);
    assert (-b) * y == -(b * y) && t * b == b * t && y * b == b * y;
  }

  /** The residues of one quantum's frames are far below a thousandth of a frame. */
  lemma ResiduesAreSmall(nominal: real, g: real, step: real, u: real, out: nat, due: real, slack: real, residue: real)
    requires 1.0 / 6.0 <= nominal <= 8.0 && g * nominal == 1.0 && 0.9994 * nominal <= step
    requires 0.0 <= due <= 485.0 * nominal && slack <= 2.0 + 2.006 * nominal
    requires Mul(out as real, step) <= due + slack + residue
    requires -Mul(out as real, R.SNAP) <= residue <= Mul(out as real, R.SNAP) && 0.0 < u <= 1.0005
    ensures -0.000001 <= Mul(Mul(residue, u), g) <= 0.000001
  {
    var m := out as real;
    FewFrames(m, nominal, step, due + slack + residue);
    R.NotLess(6.0, g, nominal);
    R.NotLess(g, 0.0, nominal);
    Small(residue, 0.0000000005, u, 1.0005);
    Small(residue * u, 0.0000000006, g, 6.0);
  }

  /** What is in flight between two quanta is worth less than two frames and a half
      of the correction. */
  lemma InFlightIsSmall(nominal: real, g: real, inFlight: real, u: real)
    requires 1.0 / 6.0 <= nominal <= 8.0 && g * nominal == 1.0 && 0.9995 <= u <= 1.0005
    requires -(1.0 + 1.003 * nominal) <= inFlight <= 1.0 + 1.003 * nominal
    ensures -0.003502 <= Mul(Mul(inFlight, u - 1.0), g) <= 0.003502
  {
    InFlightInFrames(nominal, g, inFlight);
    var x := inFlight * g;
    assert inFlight * (u - 1.0) * g == x * (u - 1.0);
    if u >= 1.0 {
      Small(x, 7.003, u - 1.0, 0.0005);
    } else {
      Small(x, 7.003, 1.0 - u, 0.0005);
      assert x * (u - 1.0) == -(x * (1.0 - u));
    }
  }

  lemma InFlightInFrames(nominal: real, g: real, inFlight: real)
    requires 1.0 / 6.0 <= nominal <= 8.0 && g * nominal == 1.0
    requires -(1.0 + 1.003 * nominal) <= inFlight <= 1.0 + 1.003 * nominal
    ensures -7.003 <= inFlight * g <= 7.003
  {
    R.NotLess(6.0, g, nominal);
    R.NotLess(g, 0.0, nominal);
    var b := 1.0 + 1.003 * nominal;
    assert b * g == g + 1.003 * (g * nominal);
    assert b * g <= 7.003;
    Within(inFlight, b, g, 7.003);
  }

  lemma Within(x: real, b: real, y: real, most: real)
    requires -b <= x <= b && 0.0 <= y && b * y <= most
    ensures -most <= x * y <= most
  {
    Small(x, b, y, y);
  }

  lemma DueIsIdeal(rate: nat, nominal: real, g: real, sourcePpm: real, u: real)
    requires rate > 0 && nominal == rate as real / 48000.0 && g == 48000.0 / rate as real
    ensures g * nominal == 1.0
    ensures Mul(Mul(Due(rate, sourcePpm), u), g) == Mul(480.0 * (1.0 + sourcePpm * 0.000001), u)
    ensures Due(rate, sourcePpm) == 480.0 * nominal * (1.0 + sourcePpm * 0.000001)
  {
    var r, x := rate as real, 1.0 + sourcePpm * 0.000001;
    assert g * r == 48000.0;
    assert nominal * 48000.0 == r;
    assert g * nominal * 48000.0 == g * (nominal * 48000.0);
    assert r * 0.01 * x * u * g == (g * r) * 0.01 * x * u;
  }

  /** The same in numbers: `u` is the correction, `g` output frames per input frame. */
  lemma LevelMoves(rate: nat, nominal: real, step: real, u: real, sourcePpm: real, out: nat, frames: nat,
                   ahead: real, going: real, owed: real, owing: real)
    requires 8000 <= rate <= 384000 && nominal == rate as real / 48000.0
    requires step * u == nominal && 0.9994 * nominal <= step && 0.9995 <= u <= 1.0005
    requires -1000.0 <= sourcePpm <= 1000.0 && frames as real == Due(rate, sourcePpm) + owed - owing
    requires 0.0 <= ahead <= 1.003 * nominal && 0.0 <= going <= 1.003 * nominal
    requires 0.0 <= owed < 1.0 && 0.0 <= owing < 1.0
    requires
      var residue := Mul(out as real, step) - frames as real - (going - ahead);
      -Mul(out as real, R.SNAP) <= residue <= Mul(out as real, R.SNAP)
    ensures
      var g := 48000.0 / rate as real;
      var moved := out as real + Mul(owing - going, g) - Mul(owed - ahead, g);
      -0.003503 <= moved - Mul(480.0 * (1.0 + sourcePpm * 0.000001), u) <= 0.003503
  {
    hide Due, Mul;
    var g := 48000.0 / rate as real;
    DueIsIdeal(rate, nominal, g, sourcePpm, u);
    var residue := Mul(out as real, step) - frames as real - (going - ahead);
    var inFlight := owed - owing + going - ahead;
    LevelArithmetic(u, nominal, g, step, out as real, frames as real, Due(rate, sourcePpm), owed, owing, ahead, going,
                    residue);
    InFlightIsSmall(nominal, g, inFlight, u);
    SourceIsBounded(nominal, sourcePpm);
    ResiduesAreSmall(nominal, g, step, u, out, Due(rate, sourcePpm), inFlight, residue);
  }

  lemma QuantumStaysSound(k: R.Kernel, c: S.Config, rate: nat, l: Loop, sourcePpm: real, frames: seq<R.Frame>)
    requires LoopOk(k, rate, l) && c.maxPpm <= 500
    requires 0.0 <= Quantum(k, c, rate, l, sourcePpm, frames).owed < 1.0
    ensures LoopOk(k, rate, Quantum(k, c, rate, l, sourcePpm, frames))
  {
    hide R.Processed, R.Corrected, V.Ratio, V.Clamped;
    var ppm := S.PpmFor(c, l.fill as real);
    StepOf(k, l.resampler, ppm);
    StaysAhead(k, R.Corrected(k, l.resampler, V.Ratio(V.Clamped(V.Finite(ppm)))), frames);
  }

  /** One quantum moves the level by what the ideal converter would give, less the 480
      frames read, to within four thousandths of a frame, and leaves the loop sound. */
  lemma QuantumMovesLevel(k: R.Kernel, c: S.Config, rate: nat, l: Loop, sourcePpm: real, frames: seq<R.Frame>)
    requires LoopOk(k, rate, l) && c.maxPpm <= 500 && -1000.0 <= sourcePpm <= 1000.0
    requires 0.0 <= Quantum(k, c, rate, l, sourcePpm, frames).owed < 1.0
    ensures
      var r := Quantum(k, c, rate, l, sourcePpm, frames);
      var ideal := S.Emitted(sourcePpm, S.PpmFor(c, l.fill as real)) - 480.0;
      LoopOk(k, rate, r) && -0.003503 <= Level(k, rate, r) - Level(k, rate, l) - ideal <= 0.003503
  {
    hide R.Processed, R.Times, R.Corrected, V.Ratio, V.Clamped, R.Ready, Due, Mul, S.PpmFor, S.Emitted;
    PpmForFits(c, l.fill as real);
    EmittedIs(sourcePpm, S.PpmFor(c, l.fill as real));
    QuantumStaysSound(k, c, rate, l, sourcePpm, frames);
    var ppm := S.PpmFor(c, l.fill as real);
    StepOf(k, l.resampler, ppm);
    var start := R.Corrected(k, l.resampler, V.Ratio(V.Clamped(V.Finite(ppm))));
    var (resampler, out) := R.Processed(k, start, frames);
    R.RateIsKept(k, start, frames);
    OutIsProduct(|out|, start.step);
    var r := Quantum(k, c, rate, l, sourcePpm, frames);
    LevelMoves(rate, k.nominal, start.step, 1.0 + ppm * 0.000001, sourcePpm, |out|, |frames|,
               Ahead(k, l.resampler), Ahead(k, resampler), l.owed, r.owed);
  }

  lemma EmittedIs(sourcePpm: real, ppm: real)
    ensures S.Emitted(sourcePpm, ppm) == Mul(480.0 * (1.0 + sourcePpm * 0.000001), 1.0 + ppm * 0.000001)
  {
  }

  lemma PpmForFits(c: S.Config, fill: real)
    requires c.maxPpm <= 500
    ensures -500.0 <= S.PpmFor(c, fill) <= 500.0
  {
  }

  lemma OutIsProduct(n: nat, x: real)
    ensures R.Times(n, x) == Mul(n as real, x) && R.Times(n, R.SNAP) == Mul(n as real, R.SNAP)
  {
  }

  lemma SourceIsBounded(nominal: real, sourcePpm: real)
    requires nominal > 0.0 && -1000.0 <= sourcePpm <= 1000.0
    ensures 0.0 <= 480.0 * nominal * (1.0 + sourcePpm * 0.000001) <= 485.0 * nominal
  {
    Scale(0.999, 1.0 + sourcePpm * 0.000001, 1.001, 480.0 * nominal);
  }

  // ----- any number of quanta -----

  /** A perturbed quantum stays below an ideal one of a slightly faster source, and
      above one of a slightly slower source. */
  lemma FasterSourceCovers(sourcePpm: real, ppm: real, moved: real)
    requires -500.0 <= ppm <= 500.0 && -0.003503 <= moved - S.Emitted(sourcePpm, ppm) <= 0.003503
    ensures S.Emitted(sourcePpm - 8.0, ppm) <= moved <= S.Emitted(sourcePpm + 8.0, ppm)
  {
    var u := 1.0 + ppm * 0.000001;
    assert S.Emitted(sourcePpm + 8.0, ppm) - S.Emitted(sourcePpm, ppm) == 0.00384 * u;
    assert S.Emitted(sourcePpm, ppm) - S.Emitted(sourcePpm - 8.0, ppm) == 0.00384 * u;
  }

  lemma HeldInFrames(nominal: real, g: real, held: real)
    requires 1.0 / 6.0 <= nominal && g * nominal == 1.0 && -(1.003 * nominal) <= held <= 1.0
    ensures -1.003 <= Mul(held, g) <= 6.0
  {
    R.NotLess(6.0, g, nominal);
    R.NotLess(g, 0.0, nominal);
    var b := -(1.003 * nominal);
    Scale(b, held, 1.0, g);
    assert b * g == -(1.003 * (g * nominal));
  }

  lemma FillIsNearLevel(k: R.Kernel, rate: nat, l: Loop)
    requires LoopOk(k, rate, l)
    ensures Level(k, rate, l) - 6.0 <= l.fill as real <= Level(k, rate, l) + 1.003
  {
    hide Mul;
    DueIsIdeal(rate, k.nominal, 48000.0 / rate as real, 0.0, 1.0);
    HeldInFrames(k.nominal, 48000.0 / rate as real, l.owed - Ahead(k, l.resampler));
  }

  /** A band of levels around the fixed points for sources 8 ppm beyond the bound, with
      room for what is in flight. */
  predicate IsBand(c: S.Config, bound: real, lo: real, hi: real, low: real, high: real)
  {
    && c.maxPpm <= 500 && 0.0 <= bound <= 400.0
    && S.IsFixedPoint(c, -bound - 8.0, lo) && S.IsFixedPoint(c, bound + 8.0, hi)
    && low <= lo - 1.003 && hi + 6.0 <= high
  }

  lemma QuantumKeepsBand(k: R.Kernel, c: S.Config, rate: nat, l: Loop, sourcePpm: real, frames: seq<R.Frame>,
                         bound: real, lo: real, hi: real, low: real, high: real)
    requires LoopOk(k, rate, l) && IsBand(c, bound, lo, hi, low, high) && -bound <= sourcePpm <= bound
    requires low <= Level(k, rate, l) <= high
    requires 0.0 <= Quantum(k, c, rate, l, sourcePpm, frames).owed < 1.0
    ensures
      var r := Quantum(k, c, rate, l, sourcePpm, frames);
      LoopOk(k, rate, r) && low <= Level(k, rate, r) <= high
  {
    hide R.Ready, Level, Quantum, S.Emitted, S.PpmFor;
    QuantumMovesLevel(k, c, rate, l, sourcePpm, frames);
    FillIsNearLevel(k, rate, l);
    var fill := l.fill as real;
    PpmForFits(c, fill);
    var moved := Level(k, rate, Quantum(k, c, rate, l, sourcePpm, frames)) - Level(k, rate, l) + 480.0;
    FasterSourceCovers(sourcePpm, S.PpmFor(c, fill), moved);
    S.FasterSourceEmitsMore(c, sourcePpm + 8.0, bound + 8.0, fill);
    S.FasterSourceEmitsMore(c, -bound - 8.0, sourcePpm - 8.0, fill);
    S.DistanceNeverGrows(c, bound + 8.0, fill, hi);
    S.DistanceNeverGrows(c, -bound - 8.0, fill, lo);
  }

  /** Block after block, each with as many source frames as have become due. */
  function Quanta(k: R.Kernel, c: S.Config, rate: nat, l: Loop, source: seq<real>, blocks: seq<seq<R.Frame>>): Loop
    requires R.Ready(k, l.resampler) && |source| == |blocks|
    decreases |blocks|
  {
    if blocks == [] then l
    else Quanta(k, c, rate, Quantum(k, c, rate, l, source[0], blocks[0]), source[1..], blocks[1..])
  }

  ghost predicate Paced(k: R.Kernel, c: S.Config, rate: nat, l: Loop, source: seq<real>, blocks: seq<seq<R.Frame>>)
    requires R.Ready(k, l.resampler) && |source| == |blocks|
    decreases |blocks|
  {
    blocks != [] ==>
      var r := Quantum(k, c, rate, l, source[0], blocks[0]);
      0.0 <= r.owed < 1.0 && Paced(k, c, rate, r, source[1..], blocks[1..])
  }

  lemma {:induction false} BandIsKeptForever(
    k: R.Kernel, c: S.Config, rate: nat, l: Loop, source: seq<real>, blocks: seq<seq<R.Frame>>, bound: real,
    lo: real, hi: real, low: real, high: real)
    requires LoopOk(k, rate, l) && IsBand(c, bound, lo, hi, low, high) && |source| == |blocks|
    requires forall i :: 0 <= i < |source| ==> -bound <= source[i] <= bound
    requires low <= Level(k, rate, l) <= high && Paced(k, c, rate, l, source, blocks)
    ensures
      var r := Quanta(k, c, rate, l, source, blocks);
      LoopOk(k, rate, r) && low <= Level(k, rate, r) <= high && low - 6.0 <= r.fill as real <= high + 1.003
    decreases |blocks|
  {
    hide Level, Quantum, IsBand;
    if blocks == [] {
      FillIsNearLevel(k, rate, l);
    } else {
      QuantumKeepsBand(k, c, rate, l, source[0], blocks[0], bound, lo, hi, low, high);
      var r := Quantum(k, c, rate, l, source[0], blocks[0]);
      BandIsKeptForever(k, c, rate, r, source[1..], blocks[1..], bound, lo, hi, low, high);
    }
  }

  /** The default bus with the real resampler, at any rate from 8 to 384 kHz and for any
      source within 200 ppm, for any length of time: once prebuffered the ring neither
      runs dry nor outgrows its capacity. */
  lemma DefaultBusNeverRunsDry(k: R.Kernel, rate: nat, l: Loop, source: seq<real>, blocks: seq<seq<R.Frame>>)
    requires LoopOk(k, rate, l) && |source| == |blocks| && 1920 <= l.fill <= 2400
    requires forall i :: 0 <= i < |source| ==> -200.0 <= source[i] <= 200.0
    requires Paced(k, S.Config(96000, 2400, 500), rate, l, source, blocks)
    ensures 1080 <= Quanta(k, S.Config(96000, 2400, 500), rate, l, source, blocks).fill <= 2760
  {
    hide R.Ready, Level, Quantum, LoopOk, Quanta, Paced, S.Emitted, S.PpmFor;
    var c := S.Config(96000, 2400, 500);
    FillIsNearLevel(k, rate, l);
    S.FixedPointExists(c, 208.0);
    S.FixedPointExists(c, -208.0);
    var lo, hi := 1920.0 - 4.0 * S.Cancelling(-208.0), 1920.0 - 4.0 * S.Cancelling(208.0);
    assert S.IsFixedPoint(c, -200.0 - 8.0, lo) && S.IsFixedPoint(c, 200.0 + 8.0, hi);
    assert lo >= 1087.8 && hi <= 2751.9;
    assert IsBand(c, 200.0, lo, hi, 1086.7, 2758.0);
    BandIsKeptForever(k, c, rate, l, source, blocks, 200.0, lo, hi, 1086.7, 2758.0);
  }
}
