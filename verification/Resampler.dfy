/** The clock resampler: a bank of interpolation filters read at a position that
    moves by `step` input frames per output frame. Input arrives in blocks; the
    last frames of a block are kept as history for the next one. */
module Resampler {
  import opened Prelude

  const PHASES: nat := 1024

  /** Fractions this close to a whole position are taken for it. */
  const SNAP: real := 0.000000000001

  type Frame = (real, real)

  datatype Lane = Left | Right

  function On(frame: Frame, lane: Lane): real { if lane == Left then frame.0 else frame.1 }

  /** What a resampler never changes: half the number of taps, the nominal ratio of
      input to output frames, whether the bank passes whole positions through, and
      one row of coefficients for each of the 1024 phases and one more. */
  datatype Kernel = Kernel(half: nat, nominal: real, unity: bool, rows: seq<seq<real>>)
  {
    function Taps(): nat { 2 * half }
  }

  predicate KernelOk(k: Kernel)
  {
    && k.half > 0 && k.nominal > 2.0 * SNAP
    && |k.rows| == PHASES + 1 && forall p :: 0 <= p < |k.rows| ==> |k.rows[p]| == k.Taps()
  }

  /** Position of the next output frame in the history followed by the next block,
      and what the last frames were. */
  datatype State = State(index: nat, fraction: real, step: real, history: seq<Frame>)

  predicate PhaseOk(fraction: real, step: real) { 0.0 <= fraction < 1.0 && step > SNAP }

  predicate Ready(k: Kernel, s: State)
  {
    && KernelOk(k) && |s.history| == k.Taps() - 1 && s.index >= k.half - 1 && PhaseOk(s.fraction, s.step)
  }

  // ----- one output frame -----

  predicate Constant(support: seq<Frame>, lane: Lane)
  {
    forall i :: 0 <= i < |support| ==> On(support[i], lane) == On(support[0], lane)
  }

  /** The coefficient of one tap, between two rows. */
  function Mixed(a: real, b: real, mix: real): real { a + (b - a) * mix }

  function Weighted(a: seq<real>, b: seq<real>, mix: real, support: seq<Frame>, lane: Lane, taps: nat): real
    requires taps <= |a| && taps <= |b| && taps <= |support|
  {
    if taps == 0 then 0.0
    else
      Weighted(a, b, mix, support, lane, taps - 1) + On(support[taps - 1], lane) * Mixed(a[taps - 1], b[taps - 1], mix)
  }

  function Row(fraction: real): nat
    requires 0.0 <= fraction
  {
    Min((fraction * PHASES as real).Floor, PHASES - 1)
  }

  /** The filter proper: the support weighted by interpolated coefficients. */
  function Fir(k: Kernel, support: seq<Frame>, lane: Lane, fraction: real): real
    requires KernelOk(k) && |support| == k.Taps() && 0.0 <= fraction
  {
    var row := Row(fraction);
    Weighted(k.rows[row], k.rows[row + 1], fraction * PHASES as real - row as real, support, lane, k.Taps())
  }

  /** One sample of an output frame, with the two exact shortcuts. */
  function Sample(k: Kernel, support: seq<Frame>, lane: Lane, fraction: real): real
    requires KernelOk(k) && |support| == k.Taps() && 0.0 <= fraction
  {
    if k.unity && fraction == 0.0 then On(support[k.half - 1], lane)
    else if Constant(support, lane) then On(support[0], lane)
    else Fir(k, support, lane, fraction)
  }

  function FrameAt(k: Kernel, support: seq<Frame>, fraction: real): Frame
    requires KernelOk(k) && |support| == k.Taps() && 0.0 <= fraction
  {
    (Sample(k, support, Left, fraction), Sample(k, support, Right, fraction))
  }

  // ----- the position -----

  /** One output frame further; residues next to a whole position are rounded away. */
  function Advance(index: nat, fraction: real, step: real): (r: (nat, real))
    requires PhaseOk(fraction, step)
    ensures PhaseOk(r.1, step) && r.0 >= index
    ensures index as real + fraction + step - SNAP <= r.0 as real + r.1 <= index as real + fraction + step + SNAP
  {
    var next := fraction + step;
    var whole := next.Floor;
    var rest := next - whole as real;
    if rest < SNAP then (index + whole, 0.0)
    else if 1.0 - rest < SNAP then (index + whole + 1, 0.0)
    else (index + whole, rest)
  }

  /** How many more frames there can be up to a limit. */
  function Room(limit: nat, index: nat, fraction: real, step: real): real
    requires PhaseOk(fraction, step)
  {
    (limit as real - index as real - fraction) / (step - SNAP)
  }

  lemma NotNegative(x: real, d: real)
    requires d > 0.0 && x * d >= 0.0
    ensures x >= 0.0
  {
  }

  lemma QuotientsDiffer(x: real, y: real, d: real)
    requires d > 0.0 && y <= x - d
    ensures y / d <= x / d - 1.0
  {
    var p, q := x / d, y / d;
    assert p * d == x && q * d == y;
    var gap := p - 1.0 - q;
    assert gap * d == p * d - d - q * d;
    NotNegative(gap, d);
  }

  lemma RoomShrinks(limit: nat, index: nat, fraction: real, step: real)
    requires PhaseOk(fraction, step) && index < limit
    ensures
      var (i, f) := Advance(index, fraction, step);
      Room(limit, i, f, step) <= Room(limit, index, fraction, step) - 1.0 && Room(limit, index, fraction, step) >= 0.0
  {
    hide Advance;
    var (i, f) := Advance(index, fraction, step);
    var x, d := limit as real - index as real - fraction, step - SNAP;
    QuotientsDiffer(x, limit as real - i as real - f, d);
    assert (x / d) * d == x;
  }

  // ----- one block -----

  function Window(k: Kernel, all: seq<Frame>, index: nat): (support: seq<Frame>)
    requires k.half > 0 && k.half - 1 <= index && index + k.half < |all|
    ensures |support| == k.Taps()
  {
    all[index - (k.half - 1)..index + k.half + 1]
  }

  datatype Emission = Emission(frames: seq<Frame>, index: nat, fraction: real)

  /** The frames between a position and a limit. */
  function Emit(k: Kernel, all: seq<Frame>, index: nat, fraction: real, step: real, limit: nat): (r: Emission)
    requires KernelOk(k) && PhaseOk(fraction, step) && k.half - 1 <= index && limit + k.half <= |all|
    ensures r.index >= limit && r.index >= index && PhaseOk(r.fraction, step)
    decreases Room(limit, index, fraction, step)
  {
    if index >= limit then Emission([], index, fraction)
    else
      var (i, f) := Advance(index, fraction, step);
      RoomShrinks(limit, index, fraction, step);
      var rest := Emit(k, all, i, f, step, limit);
      rest.(frames := [FrameAt(k, Window(k, all, index), fraction)] + rest.frames)
  }

  function Processed(k: Kernel, s: State, input: seq<Frame>): (r: (State, seq<Frame>))
    requires Ready(k, s)
    ensures Ready(k, r.0)
  {
    var all, n := s.history + input, |input|;
    var e := Emit(k, all, s.index, s.fraction, s.step, n + k.half - 1);
    (State(e.index - n, e.fraction, s.step, all[n..]), e.frames)
  }

  /** One frame, then the rest. */
  lemma EmitUnfolds(k: Kernel, all: seq<Frame>, index: nat, fraction: real, step: real, limit: nat)
    requires KernelOk(k) && PhaseOk(fraction, step) && k.half - 1 <= index < limit && limit + k.half <= |all|
    ensures
      var (i, f) := Advance(index, fraction, step);
      var rest := Emit(k, all, i, f, step, limit);
      Emit(k, all, index, fraction, step, limit)
        == rest.(frames := [FrameAt(k, Window(k, all, index), fraction)] + rest.frames)
  {
  }

  lemma NothingLeft(k: Kernel, all: seq<Frame>, index: nat, fraction: real, step: real, limit: nat)
    requires KernelOk(k) && PhaseOk(fraction, step) && k.half - 1 <= index && limit + k.half <= |all| && limit <= index
    ensures Emit(k, all, index, fraction, step, limit) == Emission([], index, fraction)
  {
  }

  // ----- blocks do not matter -----

  lemma {:induction false} EmitSplits(
    k: Kernel, all: seq<Frame>, index: nat, fraction: real, step: real, first: nat, limit: nat)
    requires KernelOk(k) && PhaseOk(fraction, step) && k.half - 1 <= index
    requires first <= limit && limit + k.half <= |all|
    ensures
      var a := Emit(k, all, index, fraction, step, first);
      var b := Emit(k, all, a.index, a.fraction, step, limit);
      Emit(k, all, index, fraction, step, limit) == Emission(a.frames + b.frames, b.index, b.fraction)
    decreases Room(limit, index, fraction, step)
  {
    hide Advance, FrameAt, Room, Window, Emit;
    if index < first {
      var (i, f) := Advance(index, fraction, step);
      RoomShrinks(limit, index, fraction, step);
      EmitSplits(k, all, i, f, step, first, limit);
      EmitUnfolds(k, all, index, fraction, step, first);
      EmitUnfolds(k, all, index, fraction, step, limit);
      var a := Emit(k, all, i, f, step, first);
      var b := Emit(k, all, a.index, a.fraction, step, limit);
      var frame := FrameAt(k, Window(k, all, index), fraction);
      assert ([frame] + a.frames) + b.frames == [frame] + (a.frames + b.frames);
    } else {
      NothingLeft(k, all, index, fraction, step, first);
      var b := Emit(k, all, index, fraction, step, limit);
      assert [] + b.frames == b.frames;
    }
  }

  /** Frames before the window play no part. */
  lemma {:induction false} EmitShifts(
    k: Kernel, all: seq<Frame>, cut: nat, index: nat, fraction: real, step: real, limit: nat)
    requires KernelOk(k) && PhaseOk(fraction, step) && cut + k.half - 1 <= index
    requires cut <= limit && limit + k.half <= |all|
    ensures
      var r := Emit(k, all[cut..], index - cut, fraction, step, limit - cut);
      Emit(k, all, index, fraction, step, limit) == r.(index := r.index + cut)
    decreases Room(limit, index, fraction, step)
  {
    hide FrameAt, Room;
    if index < limit {
      var (i, f) := Advance(index, fraction, step);
      assert Advance(index - cut, fraction, step) == (i - cut, f);
      RoomShrinks(limit, index, fraction, step);
      EmitShifts(k, all, cut, i, f, step, limit);
      assert Window(k, all[cut..], index - cut) == Window(k, all, index);
    }
  }

  /** Frames beyond the last window play no part. */
  lemma {:induction false} EmitReadsPrefix(
    k: Kernel, all: seq<Frame>, more: seq<Frame>, index: nat, fraction: real, step: real, limit: nat)
    requires KernelOk(k) && PhaseOk(fraction, step) && k.half - 1 <= index && limit + k.half <= |all|
    ensures Emit(k, all + more, index, fraction, step, limit) == Emit(k, all, index, fraction, step, limit)
    decreases Room(limit, index, fraction, step)
  {
    hide Advance, FrameAt, Room;
    if index < limit {
      var (i, f) := Advance(index, fraction, step);
      RoomShrinks(limit, index, fraction, step);
      EmitReadsPrefix(k, all, more, i, f, step, limit);
      assert Window(k, all + more, index) == Window(k, all, index);
    }
  }

  /** Two blocks one after the other give the frames and the state of both at once. */
  lemma BlocksJoin(k: Kernel, s: State, a: seq<Frame>, b: seq<Frame>)
    requires Ready(k, s)
    ensures
      var (q, first) := Processed(k, s, a);
      var (r, second) := Processed(k, q, b);
      Processed(k, s, a + b) == (r, first + second)
  {
    hide Emit, Window;
    var whole, n := s.history + a, |a|;
    var all := s.history + (a + b);
    var first, limit := n + k.half - 1, n + |b| + k.half - 1;
    assert all == whole + b && all[n..] == whole[n..] + b;
    EmitSplits(k, all, s.index, s.fraction, s.step, first, limit);
    EmitReadsPrefix(k, whole, b, s.index, s.fraction, s.step, first);
    var e := Emit(k, whole, s.index, s.fraction, s.step, first);
    EmitShifts(k, all, n, e.index, e.fraction, s.step, limit);
    assert all[n..][|b|..] == all[n + |b|..];
  }

  /** A stream in blocks. */
  function ProcessedAll(k: Kernel, s: State, blocks: seq<seq<Frame>>): (r: (State, seq<Frame>))
    requires Ready(k, s)
    ensures Ready(k, r.0)
    decreases |blocks|
  {
    if blocks == [] then (s, [])
    else
      var (q, out) := Processed(k, s, blocks[0]);
      var (end, more) := ProcessedAll(k, q, blocks[1..]);
      (end, out + more)
  }

  function Flattened(blocks: seq<seq<Frame>>): seq<Frame>
  {
    if blocks == [] then [] else blocks[0] + Flattened(blocks[1..])
  }

  lemma NoBlock(k: Kernel, s: State)
    requires Ready(k, s)
    ensures Processed(k, s, []) == (s, [])
  {
    assert s.history + [] == s.history && s.history[0..] == s.history;
  }

  /** However a stream is cut into blocks, frame by frame included, the frames and
      the state are those of the stream in one block. */
  lemma {:induction false} BlocksDoNotMatter(k: Kernel, s: State, blocks: seq<seq<Frame>>)
    requires Ready(k, s)
    ensures ProcessedAll(k, s, blocks) == Processed(k, s, Flattened(blocks))
    decreases |blocks|
  {
    hide Processed;
    if blocks == [] {
      NoBlock(k, s);
    } else {
      BlocksDoNotMatter(k, Processed(k, s, blocks[0]).0, blocks[1..]);
      BlocksJoin(k, s, blocks[0], Flattened(blocks[1..]));
    }
  }

  // ----- where each frame comes from -----

  /** The position `n` output frames further. */
  function After(index: nat, fraction: real, step: real, n: nat): (r: (nat, real))
    requires PhaseOk(fraction, step)
    ensures PhaseOk(r.1, step) && r.0 >= index
    decreases n
  {
    if n == 0 then (index, fraction)
    else
      var (i, f) := Advance(index, fraction, step);
      After(i, f, step, n - 1)
  }

  /** The n-th frame is the filter at the n-th position, and there are frames as long
      as the position lies below the limit. */
  lemma {:induction false} EmittedAt(
    k: Kernel, all: seq<Frame>, index: nat, fraction: real, step: real, limit: nat, n: nat)
    requires KernelOk(k) && PhaseOk(fraction, step) && k.half - 1 <= index && limit + k.half <= |all|
    ensures
      var e := Emit(k, all, index, fraction, step, limit);
      && (n < |e.frames| <==> After(index, fraction, step, n).0 < limit)
      && (n < |e.frames| ==>
            var (i, f) := After(index, fraction, step, n);
            e.frames[n] == FrameAt(k, Window(k, all, i), f))
      && (n == |e.frames| ==> After(index, fraction, step, n) == (e.index, e.fraction))
    decreases n
  {
    hide Advance, FrameAt, Window;
    if index < limit && n > 0 {
      var (i, f) := Advance(index, fraction, step);
      EmittedAt(k, all, i, f, step, limit, n - 1);
    }
  }

  function Times(n: nat, x: real): real { n as real * x }

  lemma OneMore(n: nat, x: real)
    ensures Times(n + 1, x) == Times(n, x) + x && Times(0, x) == 0.0
  {
  }

  lemma {:induction false} PositionsAdvance(index: nat, fraction: real, step: real, n: nat)
    requires PhaseOk(fraction, step)
    ensures
      var (i, f) := After(index, fraction, step, n);
      var ideal := index as real + fraction + Times(n, step);
      ideal - Times(n, SNAP) <= i as real + f <= ideal + Times(n, SNAP)
    decreases n
  {
    hide Advance, Times;
    if n == 0 {
      OneMore(0, step);
      OneMore(0, SNAP);
    } else {
      var (i, f) := Advance(index, fraction, step);
      PositionsAdvance(i, f, step, n - 1);
      OneMore(n - 1, step);
      OneMore(n - 1, SNAP);
    }
  }


  /** Position of the next output frame relative to the next block of input. */
  function NextSource(k: Kernel, s: State): real { s.index as real + s.fraction - (k.Taps() - 1) as real }

  /** Output frame n of a block is the filter read `n` steps after the announced
      position, up to the rounding of residues, and reads only frames of the history
      and the block. */
  lemma FramesAreOnTime(k: Kernel, s: State, input: seq<Frame>, n: nat)
    requires Ready(k, s) && n < |Processed(k, s, input).1|
    ensures
      var (i, f) := After(s.index, s.fraction, s.step, n);
      var at := i as real + f - (k.Taps() - 1) as real;
      && k.half - 1 <= i && i + k.half < |s.history + input|
      && Processed(k, s, input).1[n] == FrameAt(k, Window(k, s.history + input, i), f)
      && -Times(n, SNAP) <= at - (NextSource(k, s) + Times(n, s.step)) <= Times(n, SNAP)
  {
    hide Advance, FrameAt, Window, After, Emit, Times;
    EmittedAt(k, s.history + input, s.index, s.fraction, s.step, |input| + k.half - 1, n);
    PositionsAdvance(s.index, s.fraction, s.step, n);
  }

  /** Frames out times step is frames in plus what the position moved: nothing is
      lost or played twice, over a stream of any length. */
  lemma RateIsKept(k: Kernel, s: State, input: seq<Frame>)
    requires Ready(k, s)
    ensures
      var (r, out) := Processed(k, s, input);
      var moved := NextSource(k, r) - NextSource(k, s);
      -Times(|out|, SNAP) <= |input| as real + moved - Times(|out|, s.step) <= Times(|out|, SNAP)
  {
    hide Advance, FrameAt, Window, After, Emit, Times;
    var e := Emit(k, s.history + input, s.index, s.fraction, s.step, |input| + k.half - 1);
    EmittedAt(k, s.history + input, s.index, s.fraction, s.step, |input| + k.half - 1, |e.frames|);
    PositionsAdvance(s.index, s.fraction, s.step, |e.frames|);
  }

  /** The next frame is never more than one step beyond the first window. */
  predicate Near(k: Kernel, s: State) { s.index as real + s.fraction < (k.half - 1) as real + s.step + SNAP }

  lemma {:induction false} EmitStopsShort(
    k: Kernel, all: seq<Frame>, index: nat, fraction: real, step: real, limit: nat)
    requires KernelOk(k) && PhaseOk(fraction, step) && k.half - 1 <= index && limit + k.half <= |all|
    ensures
      var e := Emit(k, all, index, fraction, step, limit);
      if index < limit then e.index as real + e.fraction < limit as real + step + SNAP
      else e == Emission([], index, fraction)
    decreases Room(limit, index, fraction, step)
  {
    hide FrameAt, Window, Room, Advance;
    if index < limit {
      var (i, f) := Advance(index, fraction, step);
      RoomShrinks(limit, index, fraction, step);
      EmitStopsShort(k, all, i, f, step, limit);
    }
  }

  /** Over a stream of any length the number of output frames is the number of input
      frames divided by the step, up to one step and the rounded residues. */
  lemma StreamsDoNotDrift(k: Kernel, s: State, input: seq<Frame>)
    requires Ready(k, s) && Near(k, s)
    ensures
      var (r, out) := Processed(k, s, input);
      var slack := s.step + Times(|out| + 1, SNAP);
      Near(k, r) && -slack < Times(|out|, s.step) - |input| as real < slack
  {
    hide FrameAt, Window, Emit, Times;
    RateIsKept(k, s, input);
    EmitStopsShort(k, s.history + input, s.index, s.fraction, s.step, |input| + k.half - 1);
    OneMore(|Processed(k, s, input).1|, SNAP);
  }

  // ----- steps that are fractions -----

  /** A position that is `p` b-ths. */
  predicate IsFraction(index: nat, fraction: real, p: nat, b: nat)
    requires b > 0
  {
    index == p / b && fraction == (p % b) as real / b as real
  }

  lemma QuotientBounds(r: nat, b: nat)
    requires r < b <= 1_000_000_000_000
    ensures var x := r as real / b as real;
            0.0 <= x < 1.0 && (x < SNAP ==> x == 0.0) && 1.0 - x >= SNAP
  {
    var d := b as real;
    var x, one := r as real / d, 1.0 / d;
    assert x * d == r as real && one * d == 1.0 && SNAP * d <= 1.0;
    NotLess(one, SNAP, d);
    assert (1.0 - x) * d == d - r as real;
    NotLess(1.0 - x, one, d);
    if r > 0 {
      assert r as real >= 1.0;
      NotLess(x, one, d);
    }
  }

  lemma NotLess(x: real, y: real, d: real)
    requires d > 0.0 && x * d >= y * d
    ensures x >= y
  {
  }

  lemma DivModAdds(p: nat, a: nat, b: nat)
    requires b > 0
    ensures
      var t := p % b + a;
      (p + a) / b == p / b + t / b && (p + a) % b == t % b
  {
    var t := p % b + a;
    var q, r := p / b + t / b, t % b;
    assert p + a == b * (p / b) + b * (t / b) + r;
    assert b * q == b * (p / b) + b * (t / b);
    DivModUnique(p + a, b, q, r);
  }

  lemma DivModUnique(n: nat, b: nat, q: nat, r: nat)
    requires b > 0 && n == b * q + r && r < b
    ensures n / b == q && n % b == r
  {
    assert n == b * (n / b) + n % b;
    var d := n / b - q;
    assert b * d == r - n % b;
    MultipleOfTurn(b, d);
  }

  lemma Quotient(w: nat, r: nat, b: nat)
    requires b > 0
    ensures (w * b + r) as real / b as real == w as real + r as real / b as real
  {
    var d := b as real;
    var x, y, v := (w * b + r) as real / d, r as real / d, w as real;
    assert x * d == (w * b + r) as real == v * d + y * d;
    assert (v + y) * d == v * d + y * d;
    NotLess(x, v + y, d);
    NotLess(v + y, x, d);
  }

  lemma WholeAndRest(t: nat, b: nat)
    requires b > 0
    ensures t as real / b as real == (t / b) as real + (t % b) as real / b as real
  {
    Quotient(t / b, t % b, b);
    assert t == (t / b) * b + t % b;
  }

  lemma SumOfQuotients(u: nat, v: nat, b: nat)
    requires b > 0
    ensures u as real / b as real + v as real / b as real == (u + v) as real / b as real
  {
  }

  lemma AdvanceTo(index: nat, fraction: real, step: real, whole: nat, x: real)
    requires PhaseOk(fraction, step) && fraction + step == whole as real + x
    requires 0.0 <= x < 1.0 && (x < SNAP ==> x == 0.0) && 1.0 - x >= SNAP
    ensures Advance(index, fraction, step) == (index + whole, x)
  {
    assert (fraction + step).Floor == whole;
  }

  /** At a step of a/b nothing is ever rounded away: positions stay exact fractions. */
  lemma FractionsAdvance(index: nat, fraction: real, step: real, p: nat, a: nat, b: nat)
    requires 0 < b <= 1_000_000_000_000 && IsFraction(index, fraction, p, b)
    requires PhaseOk(fraction, step) && step == a as real / b as real
    ensures
      var (i, f) := Advance(index, fraction, step);
      IsFraction(i, f, p + a, b)
  {
    hide Advance;
    var t := p % b + a;
    DivModAdds(p, a, b);
    WholeAndRest(t, b);
    QuotientBounds(t % b, b);
    SumOfQuotients(p % b, a, b);
    AdvanceTo(index, fraction, step, t / b, (t % b) as real / b as real);
  }

  lemma QuotientBelow(p: nat, b: nat, limit: nat)
    requires b > 0
    ensures p / b < limit <==> p < limit * b
  {
    assert p == b * (p / b) + p % b;
    var gap := limit - p / b;
    assert b * gap == limit * b - b * (p / b);
    MultipleOfTurn(b, gap);
  }

  lemma OneLess(m: nat, a: nat)
    requires m > 0
    ensures m * a == (m - 1) * a + a
  {
  }

  /** At a step of a/b the number of frames is the number of positions below the limit. */
  lemma {:induction false} FractionsCount(
    k: Kernel, all: seq<Frame>, index: nat, fraction: real, step: real, limit: nat, p: nat, a: nat, b: nat, m: nat)
    requires KernelOk(k) && PhaseOk(fraction, step) && k.half - 1 <= index && limit + k.half <= |all|
    requires 0 < b <= 1_000_000_000_000 && step == a as real / b as real && IsFraction(index, fraction, p, b)
    requires limit * b <= p + m * a && (m > 0 ==> p + (m - 1) * a < limit * b)
    ensures
      var e := Emit(k, all, index, fraction, step, limit);
      |e.frames| == m && IsFraction(e.index, e.fraction, p + m * a, b)
    decreases m
  {
    hide Advance, FrameAt, Window, Room;
    QuotientBelow(p, b, limit);
    if m > 0 {
      OneLess(m, a);
      if m > 1 { OneLess(m - 1, a); }
      assert index < limit by { assert 0 <= (m - 1) * a; }
      var (i, f) := Advance(index, fraction, step);
      FractionsAdvance(index, fraction, step, p, a, b);
      FractionsCount(k, all, i, f, step, limit, p + a, a, b, m - 1);
    }
  }

  lemma WholeShift(p: nat, n: nat, b: nat)
    requires b > 0
    ensures (p + n * b) / b == p / b + n && (p + n * b) % b == p % b
  {
    assert p == b * (p / b) + p % b;
    assert b * (p / b + n) == b * (p / b) + n * b;
    DivModUnique(p + n * b, b, p / b + n, p % b);
  }

  /** A block that makes up a whole number of steps gives exactly so many frames and
      leaves the phase as it found it, block after block. */
  lemma WholeBlocksKeepPhase(k: Kernel, s: State, input: seq<Frame>, p: nat, a: nat, b: nat, m: nat)
    requires Ready(k, s) && 0 < b <= 1_000_000_000_000 && s.step == a as real / b as real
    requires IsFraction(s.index, s.fraction, p, b) && p < (k.half - 1) * b + a
    requires |input| * b == m * a
    ensures
      var (r, out) := Processed(k, s, input);
      |out| == m && r.index == s.index && r.fraction == s.fraction && r.step == s.step
  {
    hide Emit, Window;
    var n := |input|;
    QuotientBelow(p, b, k.half - 1);
    assert (n + k.half - 1) * b == n * b + (k.half - 1) * b;
    if m > 0 { OneLess(m, a); }
    FractionsCount(k, s.history + input, s.index, s.fraction, s.step, n + k.half - 1, p, a, b, m);
    WholeShift(p, n, b);
  }

  /** At 44.1 kHz without correction, 10 ms of input are 10 ms of output, sample by
      sample and forever. */
  lemma TenMillisecondsAt44100(k: Kernel, s: State, input: seq<Frame>)
    requires Ready(k, s) && s.step == 44100.0 / 48000.0 && s.index == k.half - 1 && s.fraction == 0.0
    requires |input| == 441
    ensures
      var (r, out) := Processed(k, s, input);
      |out| == 480 && r.index == s.index && r.fraction == s.fraction && r.step == s.step
  {
    WholeBlocksKeepPhase(k, s, input, (k.half - 1) * 160, 147, 160, 480);
  }

  // ----- between two rows -----

  /** A window weighted by the coefficients of one row. */
  function Dot(row: seq<real>, support: seq<Frame>, lane: Lane, taps: nat): real
    requires taps <= |row| && taps <= |support|
  {
    if taps == 0 then 0.0 else Dot(row, support, lane, taps - 1) + row[taps - 1] * On(support[taps - 1], lane)
  }

  lemma Blend(x: real, a: real, b: real, u: real, low: real, high: real)
    ensures (1.0 - u) * low + u * high + x * (a + (b - a) * u) == (1.0 - u) * (low + a * x) + u * (high + b * x)
  {
    assert x * (a + (b - a) * u) == (1.0 - u) * (a * x) + u * (b * x);
  }

  lemma {:induction false} WeightedBlends(
    a: seq<real>, b: seq<real>, u: real, support: seq<Frame>, lane: Lane, taps: nat)
    requires taps <= |a| && taps <= |b| && taps <= |support|
    ensures Weighted(a, b, u, support, lane, taps)
         == (1.0 - u) * Dot(a, support, lane, taps) + u * Dot(b, support, lane, taps)
  {
    if taps > 0 {
      WeightedBlends(a, b, u, support, lane, taps - 1);
      Blend(On(support[taps - 1], lane), a[taps - 1], b[taps - 1], u, Dot(a, support, lane, taps - 1),
            Dot(b, support, lane, taps - 1));
    }
  }

  /** At u 1024-ths of a frame beyond phase p the filter gives the mean of the rows p
      and p + 1 weighted by 1 - u and u, for any input; at the phase itself it gives
      that row's weighted sum. */
  lemma FilterInterpolates(k: Kernel, support: seq<Frame>, lane: Lane, p: nat, u: real)
    requires KernelOk(k) && |support| == k.Taps() && p < 1024 && 0.0 <= u < 1.0
    ensures Fir(k, support, lane, (p as real + u) / 1024.0)
         == (1.0 - u) * Dot(k.rows[p], support, lane, k.Taps()) + u * Dot(k.rows[p + 1], support, lane, k.Taps())
  {
    hide Weighted, Dot;
    assert (p as real + u) / 1024.0 * PHASES as real == p as real + u;
    assert (p as real + u).Floor == p;
    WeightedBlends(k.rows[p], k.rows[p + 1], u, support, lane, k.Taps());
  }

  // ----- the shortcuts -----

  function Total(row: seq<real>, taps: nat): real
    requires taps <= |row|
  {
    if taps == 0 then 0.0 else Total(row, taps - 1) + row[taps - 1]
  }

  /** The coefficients as designed: each row adds up to one and, in a bank that passes
      whole positions through, the first row selects the middle frame. */
  predicate BankOk(k: Kernel)
  {
    && KernelOk(k)
    && (forall p :: 0 <= p < |k.rows| ==> Total(k.rows[p], k.Taps()) == 1.0)
    && (k.unity ==> forall t :: 0 <= t < k.Taps() ==> k.rows[0][t] == if t == k.half - 1 then 1.0 else 0.0)
  }

  lemma Distribute(v: real, a: real, b: real, x: real, y: real, mix: real)
    ensures v * Mixed(a, b, mix) + v * Mixed(x, y, mix) == v * Mixed(a + x, b + y, mix)
  {
    assert (b - a) * mix + (y - x) * mix == ((b + y) - (a + x)) * mix;
  }

  lemma {:induction false} ConstantWeighs(
    a: seq<real>, b: seq<real>, mix: real, support: seq<Frame>, lane: Lane, taps: nat, v: real)
    requires taps <= |a| && taps <= |b| && taps <= |support|
    requires forall i :: 0 <= i < taps ==> On(support[i], lane) == v
    ensures Weighted(a, b, mix, support, lane, taps) == v * Mixed(Total(a, taps), Total(b, taps), mix)
  {
    hide Mixed, On;
    if taps == 0 {
      NothingWeighs(v, mix);
    } else {
      ConstantWeighs(a, b, mix, support, lane, taps - 1, v);
      Distribute(v, Total(a, taps - 1), Total(b, taps - 1), a[taps - 1], b[taps - 1], mix);
    }
  }

  lemma NothingWeighs(v: real, mix: real)
    ensures v * Mixed(0.0, 0.0, mix) == 0.0
  {
  }

  lemma {:induction false} SelectionWeighs(
    a: seq<real>, b: seq<real>, support: seq<Frame>, lane: Lane, taps: nat, chosen: nat)
    requires taps <= |a| && taps <= |b| && taps <= |support|
    requires forall t :: 0 <= t < taps ==> a[t] == if t == chosen then 1.0 else 0.0
    ensures Weighted(a, b, 0.0, support, lane, taps) == if chosen < taps then On(support[chosen], lane) else 0.0
  {
    if taps > 0 {
      SelectionWeighs(a, b, support, lane, taps - 1, chosen);
      assert Mixed(a[taps - 1], b[taps - 1], 0.0) == a[taps - 1];
    }
  }

  /** With the coefficients as designed the shortcuts change no sample: each output
      sample is the filter's. */
  lemma ShortcutsAreExact(k: Kernel, support: seq<Frame>, lane: Lane, fraction: real)
    requires BankOk(k) && |support| == k.Taps() && 0.0 <= fraction < 1.0
    ensures Sample(k, support, lane, fraction) == Fir(k, support, lane, fraction)
  {
    hide Weighted, Total;
    var row := Row(fraction);
    var mix := fraction * PHASES as real - row as real;
    if k.unity && fraction == 0.0 {
      SelectionWeighs(k.rows[0], k.rows[1], support, lane, k.Taps(), k.half - 1);
    } else if Constant(support, lane) {
      var v := On(support[0], lane);
      ConstantWeighs(k.rows[row], k.rows[row + 1], mix, support, lane, k.Taps(), v);
      assert Mixed(1.0, 1.0, mix) == 1.0;
    }
  }

  /** A window of one repeated frame gives that frame, whatever the bank holds. */
  lemma ConstantGivesItself(k: Kernel, support: seq<Frame>, fraction: real, frame: Frame)
    requires KernelOk(k) && |support| == k.Taps() && 0.0 <= fraction
    requires forall i :: 0 <= i < |support| ==> support[i] == frame
    ensures FrameAt(k, support, fraction) == frame
  {
    assert Constant(support, Left) && Constant(support, Right);
  }

  /** Silence stays silence and a constant stays that constant, at any correction. */
  lemma ConstantsStay(k: Kernel, s: State, input: seq<Frame>, frame: Frame, n: nat)
    requires Ready(k, s) && forall i :: 0 <= i < |s.history| ==> s.history[i] == frame
    requires forall i :: 0 <= i < |input| ==> input[i] == frame
    requires n < |Processed(k, s, input).1|
    ensures Processed(k, s, input).1[n] == frame
  {
    hide Emit, After, FrameAt;
    FramesAreOnTime(k, s, input, n);
    var (i, f) := After(s.index, s.fraction, s.step, n);
    ConstantGivesItself(k, Window(k, s.history + input, i), f, frame);
  }

  /** At equal rates and no correction every position is a whole one. */
  lemma {:induction false} UnityEmits(k: Kernel, all: seq<Frame>, index: nat, limit: nat)
    requires KernelOk(k) && k.unity && k.half - 1 <= index <= limit && limit + k.half <= |all|
    ensures Emit(k, all, index, 0.0, 1.0, limit) == Emission(all[index..limit], limit, 0.0)
    decreases limit - index
  {
    if index < limit {
      AdvanceTo(index, 0.0, 1.0, 1, 0.0);
      UnityEmits(k, all, index + 1, limit);
      assert Window(k, all, index)[k.half - 1] == all[index];
      assert all[index..limit] == [all[index]] + all[index + 1..limit];
    }
  }

  /** Then the resampler only delays, by half its taps and sample by sample, and gives
      as many frames as it takes. */
  lemma UnityOnlyDelays(k: Kernel, s: State, input: seq<Frame>)
    requires Ready(k, s) && k.unity && s.step == 1.0 && s.fraction == 0.0 && s.index == k.half - 1
    ensures
      var (r, out) := Processed(k, s, input);
      && |out| == |input| && r.index == s.index && r.fraction == 0.0 && r.step == 1.0
      && forall i :: 0 <= i < |out| ==>
           out[i] == if i < k.half then s.history[k.half - 1 + i] else input[i - k.half]
  {
    hide Emit;
    UnityEmits(k, s.history + input, s.index, |input| + k.half - 1);
  }

  // ----- lanes -----

  /** Lane x of one stream is lane y of another. */
  predicate SameLane(a: seq<Frame>, x: Lane, b: seq<Frame>, y: Lane)
  {
    |a| == |b| && forall i :: 0 <= i < |a| ==> On(a[i], x) == On(b[i], y)
  }

  lemma {:induction false} LanesWeighAlike(
    u: seq<real>, v: seq<real>, mix: real, a: seq<Frame>, x: Lane, b: seq<Frame>, y: Lane, taps: nat)
    requires taps <= |u| && taps <= |v| && taps <= |a| && SameLane(a, x, b, y)
    ensures Weighted(u, v, mix, a, x, taps) == Weighted(u, v, mix, b, y, taps)
  {
    hide Mixed;
    if taps > 0 { LanesWeighAlike(u, v, mix, a, x, b, y, taps - 1); }
  }

  lemma SamplesAlike(k: Kernel, a: seq<Frame>, x: Lane, b: seq<Frame>, y: Lane, fraction: real)
    requires KernelOk(k) && |a| == k.Taps() && 0.0 <= fraction && SameLane(a, x, b, y)
    ensures Sample(k, a, x, fraction) == Sample(k, b, y, fraction)
  {
    hide Weighted, Mixed;
    var row := Row(fraction);
    LanesWeighAlike(k.rows[row], k.rows[row + 1], fraction * PHASES as real - row as real, a, x, b, y, k.Taps());
    assert On(a[0], x) == On(b[0], y);
    if Constant(a, x) {
      forall i | 0 <= i < |b| ensures On(b[i], y) == On(b[0], y) { assert On(a[i], x) == On(a[0], x); }
    }
    if Constant(b, y) {
      forall i | 0 <= i < |a| ensures On(a[i], x) == On(a[0], x) { assert On(b[i], y) == On(b[0], y); }
    }
  }

  /** What comes out on a lane depends on that lane's input alone: independent lanes
      do not mix, equal lanes stay equal, and both share one phase. */
  lemma LanesAreApart(
    k: Kernel, s: State, t: State, a: seq<Frame>, x: Lane, b: seq<Frame>, y: Lane)
    requires Ready(k, s) && Ready(k, t) && s.index == t.index && s.fraction == t.fraction && s.step == t.step
    requires SameLane(s.history, x, t.history, y) && SameLane(a, x, b, y)
    ensures SameLane(Processed(k, s, a).1, x, Processed(k, t, b).1, y)
    ensures SameLane(Processed(k, s, a).0.history, x, Processed(k, t, b).0.history, y)
    ensures Processed(k, s, a).0.index == Processed(k, t, b).0.index
    ensures Processed(k, s, a).0.fraction == Processed(k, t, b).0.fraction
  {
    hide Emit;
    EmitLanes(k, s.history + a, x, t.history + b, y, s.index, s.fraction, s.step, |a| + k.half - 1);
  }

  lemma {:induction false} EmitLanes(
    k: Kernel, a: seq<Frame>, x: Lane, b: seq<Frame>, y: Lane, index: nat, fraction: real, step: real, limit: nat)
    requires KernelOk(k) && PhaseOk(fraction, step) && k.half - 1 <= index && limit + k.half <= |a|
    requires SameLane(a, x, b, y)
    ensures
      var e, f := Emit(k, a, index, fraction, step, limit), Emit(k, b, index, fraction, step, limit);
      SameLane(e.frames, x, f.frames, y) && e.index == f.index && e.fraction == f.fraction
    decreases Room(limit, index, fraction, step)
  {
    hide Advance, Sample, Room;
    if index < limit {
      var (i, f) := Advance(index, fraction, step);
      RoomShrinks(limit, index, fraction, step);
      EmitLanes(k, a, x, b, y, i, f, step, limit);
      SamplesAlike(k, Window(k, a, index), x, Window(k, b, index), y, fraction);
    }
  }

  // ----- starting and steering -----

  /** A stream starts as if its first frame had always been there. */
  function Seeded(k: Kernel, frame: Frame): (s: State)
    requires KernelOk(k)
    ensures Ready(k, s) && Near(k, s)
  {
    State(k.half - 1, 0.0, k.nominal, seq(k.Taps() - 1, _ => frame))
  }

  /** Corrections beyond one percent are ignored. */
  function Corrected(k: Kernel, s: State, correction: real): (r: State)
    requires Ready(k, s)
    ensures Ready(k, r)
  {
    if 0.99 <= correction <= 1.01 then s.(step := k.nominal * correction) else s
  }

  /** A constant stream comes out as that constant from its very first frame. */
  lemma SeededConstantsStay(k: Kernel, frame: Frame, correction: real, input: seq<Frame>, n: nat)
    requires KernelOk(k) && forall i :: 0 <= i < |input| ==> input[i] == frame
    requires n < |Processed(k, Corrected(k, Seeded(k, frame), correction), input).1|
    ensures Processed(k, Corrected(k, Seeded(k, frame), correction), input).1[n] == frame
  {
    ConstantsStay(k, Corrected(k, Seeded(k, frame), correction), input, frame, n);
  }
}
