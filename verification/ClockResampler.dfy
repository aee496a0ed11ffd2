/** The resampler as it runs: one position, one step and one history buffer that
    each block updates in place. */
module ClockResampler {
  import opened Prelude
  import opened Resampler

  const BASE_TAPS: nat := 128
  const MAX_TAPS: nat := 1024

  /** The filter grows with downsampling, up to 8:1. */
  function TapsFor(src: nat, dst: nat): (taps: nat)
    requires dst > 0
    ensures taps == 2 * (taps / 2) && BASE_TAPS <= taps <= MAX_TAPS
  {
    Min(BASE_TAPS * Max((src + dst - 1) / dst, 1), MAX_TAPS)
  }

  lemma CeilingBounds(src: nat, dst: nat)
    requires dst > 0
    ensures var c := (src + dst - 1) / dst; src <= c * dst < src + dst && c >= 0
  {
    assert src + dst - 1 == dst * ((src + dst - 1) / dst) + (src + dst - 1) % dst;
  }

  lemma CeilingWithin(src: nat, dst: nat, c: int, most: nat)
    requires dst > 0 && c * dst < src + dst && src <= most * dst
    ensures c <= most
  {
    MultipleOfTurn(dst, c - most - 1);
    assert dst * (c - most - 1) == c * dst - most * dst - dst;
  }

  /** Up to 8:1 the filter reaches over 128 output frames, no matter how the rates
      relate, and is no longer than that takes; without downsampling its delay of half
      the taps is 64 frames. */
  lemma FilterSpansOutput(src: nat, dst: nat)
    requires dst > 0
    ensures 0 < src <= 8 * dst ==> TapsFor(src, dst) * dst >= 128 * src
    ensures src > dst ==> (TapsFor(src, dst) - 128) * dst < 128 * src
    ensures src <= dst ==> TapsFor(src, dst) / 2 == 64
    ensures TapsFor(src, dst) <= 1024
  {
    var c := (src + dst - 1) / dst;
    CeilingBounds(src, dst);
    if src <= dst { CeilingWithin(src, dst, c, 1); }
    if src <= 8 * dst { CeilingWithin(src, dst, c, 8); }
    SpanOf(c, dst);
  }

  lemma SpanOf(c: nat, dst: nat)
    ensures 128 * c * dst == 128 * (c * dst) && (128 * c - 128) * dst == 128 * (c * dst) - 128 * dst
    ensures (Min(128 * c, 1024) - 128) * dst <= (128 * c - 128) * dst
  {
    if 128 * c > 1024 { MultipleOfTurn(dst, 128 * c - 1024); }
    assert (128 * c - 128) * dst - (1024 - 128) * dst == (128 * c - 1024) * dst;
  }

  predicate RatesOk(src: nat, dst: nat) { 0 < src < 0x1_0000_0000 && 0 < dst < 0x1_0000_0000 }

  /** A row of windowed sinc values, scaled to add up to one. */
  function Normalised(raw: seq<real>): (row: seq<real>)
    requires Total(raw, |raw|) != 0.0
    ensures |row| == |raw|
  {
    seq(|raw|, t requires 0 <= t < |raw| => raw[t] / Total(raw, |raw|))
  }

  /** The sinc table for a pair of rates: one row per phase and one more. */
  ghost predicate TableOk(src: nat, dst: nat, table: seq<seq<real>>)
    requires RatesOk(src, dst)
  {
    && |table| == PHASES + 1
    && forall p :: 0 <= p < |table| ==> |table[p]| == TapsFor(src, dst) && Total(table[p], |table[p]|) != 0.0
  }

  /** The bank for a pair of rates. */
  function KernelFor(src: nat, dst: nat, table: seq<seq<real>>): Kernel
    requires RatesOk(src, dst) && forall p :: 0 <= p < |table| ==> Total(table[p], |table[p]|) != 0.0
  {
    Kernel(TapsFor(src, dst) / 2, src as real / dst as real, src <= dst,
           seq(|table|, p requires 0 <= p < |table| => Normalised(table[p])))
  }

  lemma KernelForIsOk(src: nat, dst: nat, table: seq<seq<real>>)
    requires RatesOk(src, dst) && TableOk(src, dst, table)
    ensures KernelOk(KernelFor(src, dst, table))
  {
    var d := dst as real;
    var x := src as real / d;
    assert x * d == src as real >= 1.0 > 2.0 * SNAP * d;
    if x <= 2.0 * SNAP { NotLess(2.0 * SNAP, x, d); }
  }

  lemma {:induction false} NormalisedTotals(raw: seq<real>, taps: nat)
    requires Total(raw, |raw|) != 0.0 && taps <= |raw|
    ensures Total(Normalised(raw), taps) == Total(raw, taps) / Total(raw, |raw|)
  {
    if taps > 0 {
      NormalisedTotals(raw, taps - 1);
      QuotientsAdd(Total(raw, taps - 1), raw[taps - 1], Total(raw, |raw|));
    }
  }

  lemma QuotientsAdd(x: real, y: real, d: real)
    requires d != 0.0
    ensures x / d + y / d == (x + y) / d
  {
  }

  lemma {:induction false} SelectionTotals(raw: seq<real>, taps: nat, chosen: nat)
    requires taps <= |raw| && forall t :: 0 <= t < |raw| && t != chosen ==> raw[t] == 0.0
    ensures Total(raw, taps) == if chosen < taps then raw[chosen] else 0.0
  {
    if taps > 0 { SelectionTotals(raw, taps - 1, chosen); }
  }

  /** At whole distances the sinc is zero but in the middle. */
  predicate SincAtPhaseZero(src: nat, dst: nat, table: seq<seq<real>>)
    requires RatesOk(src, dst)
  {
    src <= dst ==>
      |table| > 0 && forall t :: 0 <= t < |table[0]| && t != TapsFor(src, dst) / 2 - 1 ==> table[0][t] == 0.0
  }

  lemma NormalisedIsWhole(raw: seq<real>)
    requires Total(raw, |raw|) != 0.0
    ensures Total(Normalised(raw), |raw|) == 1.0
  {
    hide Normalised, Total;
    NormalisedTotals(raw, |raw|);
  }

  lemma NormalisedSelects(raw: seq<real>, chosen: nat, t: nat)
    requires Total(raw, |raw|) != 0.0 && chosen < |raw| && t < |raw|
    requires forall t :: 0 <= t < |raw| && t != chosen ==> raw[t] == 0.0
    ensures Normalised(raw)[t] == if t == chosen then 1.0 else 0.0
  {
    hide Total;
    SelectionTotals(raw, |raw|, chosen);
    assert Normalised(raw)[t] == raw[t] / raw[chosen];
    Ratios(raw[chosen]);
  }

  lemma Ratios(d: real)
    requires d != 0.0
    ensures d / d == 1.0 && 0.0 / d == 0.0
  {
  }

  /** Scaling gives the bank its design, so that no shortcut changes a sample. */
  lemma BankIsAsDesigned(src: nat, dst: nat, table: seq<seq<real>>)
    requires RatesOk(src, dst) && TableOk(src, dst, table) && SincAtPhaseZero(src, dst, table)
    ensures BankOk(KernelFor(src, dst, table))
  {
    hide Normalised, Total, KernelOk;
    var k := KernelFor(src, dst, table);
    KernelForIsOk(src, dst, table);
    KernelHasRows(k);
    forall p | 0 <= p < |k.rows| ensures Total(k.rows[p], k.Taps()) == 1.0 {
      NormalisedIsWhole(table[p]);
    }
    if k.unity {
      forall t | 0 <= t < k.Taps() ensures k.rows[0][t] == if t == k.half - 1 then 1.0 else 0.0 {
        NormalisedSelects(table[0], k.half - 1, t);
      }
    }
  }

  lemma KernelHasRows(k: Kernel)
    requires KernelOk(k)
    ensures |k.rows| == PHASES + 1 && k.half > 0 && forall p :: 0 <= p < |k.rows| ==> |k.rows[p]| == k.Taps()
  {
  }

  class ClockResampler {
    const k: Kernel
    const history: array<Frame>
    var phaseIndex: nat
    var phaseFraction: real
    var step: real

    ghost predicate Valid()
      reads this, history
    {
      Ready(k, View())
    }

    ghost function View(): State
      reads this, history
    {
      State(phaseIndex, phaseFraction, step, history[..])
    }

    constructor (src: nat, dst: nat, table: seq<seq<real>>)
      requires RatesOk(src, dst) && TableOk(src, dst, table)
      ensures Valid() && fresh(history) && k == KernelFor(src, dst, table) && View() == Seeded(k, (0.0, 0.0))
    {
      KernelForIsOk(src, dst, table);
      var taps := TapsFor(src, dst);
      k := KernelFor(src, dst, table);
      history := new Frame[taps - 1](_ => (0.0, 0.0));
      phaseIndex, phaseFraction, step := taps / 2 - 1, 0.0, src as real / dst as real;
    }

    /** Forget the stream; the unavailable past repeats the given frame. */
    method ResetSeeded(last: Frame)
      requires Valid()
      modifies this`phaseIndex, this`phaseFraction, this`step, history
      ensures Valid() && View() == Seeded(k, last)
    {
      var i := 0;
      while i < history.Length
        invariant 0 <= i <= history.Length && forall j :: 0 <= j < i ==> history[j] == last
      {
        history[i] := last;
        i := i + 1;
      }
      phaseIndex, phaseFraction, step := k.half - 1, 0.0, k.nominal;
    }

    method SetCorrection(correction: real)
      requires Valid()
      modifies this`step
      ensures Valid() && View() == Corrected(k, old(View()), correction)
      ensures step == if 0.99 <= correction <= 1.01 then k.nominal * correction else old(step)
    {
      if 0.99 <= correction <= 1.01 {
        step := k.nominal * correction;
      }
    }

    /** Position of the next output frame relative to the next block. */
    function NextSourcePosition(): (at: real)
      requires Valid()
      reads this, history
      ensures at == NextSource(k, View())
    {
      phaseIndex as real + phaseFraction - (2 * k.half - 1) as real
    }

    /** Frame number i of the history followed by the block. */
    function At(input: seq<Frame>, i: nat): (frame: Frame)
      requires i < history.Length + |input|
      reads history
      ensures frame == (history[..] + input)[i]
    {
      if i < history.Length then history[i] else input[i - history.Length]
    }

    /** Is the whole of history and block one frame repeated? */
    method IsConstant(input: seq<Frame>) returns (constant: bool)
      requires input != []
      ensures constant ==> forall i :: 0 <= i < history.Length + |input| ==> (history[..] + input)[i] == input[0]
    {
      var i := 0;
      while i < history.Length + |input|
        invariant 0 <= i <= history.Length + |input|
        invariant forall j :: 0 <= j < i ==> (history[..] + input)[j] == input[0]
      {
        if At(input, i) != input[0] { return false; }
        i := i + 1;
      }
      constant := true;
    }

    /** Is one lane of a window constant? */
    method IsConstantSupport(input: seq<Frame>, index: nat, lane: Lane) returns (constant: bool)
      requires Valid() && k.half - 1 <= index && index + k.half < history.Length + |input|
      ensures constant <==> Constant(Window(k, history[..] + input, index), lane)
    {
      var start, taps := index - (k.half - 1), 2 * k.half;
      ghost var support := Window(k, history[..] + input, index);
      var first := On(At(input, start), lane);
      assert On(support[0], lane) == first;
      var tap := 1;
      while tap < taps
        invariant 1 <= tap <= taps && forall t :: 0 <= t < tap ==> On(support[t], lane) == first
      {
        assert support[tap] == (history[..] + input)[start + tap];
        if On(At(input, start + tap), lane) != first { return false; }
        tap := tap + 1;
      }
      constant := true;
    }

    /** The weighted sum over a window. */
    method Convolve(input: seq<Frame>, index: nat, lane: Lane, a: seq<real>, b: seq<real>, mix: real)
      returns (value: real)
      requires Valid() && k.half - 1 <= index && index + k.half < history.Length + |input|
      requires |a| == |b| == k.Taps()
      ensures value == Weighted(a, b, mix, Window(k, history[..] + input, index), lane, k.Taps())
    {
      hide Mixed;
      ghost var support := Window(k, history[..] + input, index);
      value := 0.0;
      var tap := 0;
      while tap < 2 * k.half
        invariant 0 <= tap <= 2 * k.half && value == Weighted(a, b, mix, support, lane, tap)
      {
        assert support[tap] == (history[..] + input)[index + tap - (k.half - 1)];
        value := value + On(At(input, index + tap - (k.half - 1)), lane) * Mixed(a[tap], b[tap], mix);
        tap := tap + 1;
      }
    }

    /** One sample: the first of a constant support, otherwise the weighted sum. */
    method Filter(input: seq<Frame>, index: nat, lane: Lane, fraction: real) returns (value: real)
      requires Valid() && k.half - 1 <= index && index + k.half < history.Length + |input| && 0.0 <= fraction
      requires !(k.unity && fraction == 0.0)
      ensures value == Sample(k, Window(k, history[..] + input, index), lane, fraction)
    {
      hide Weighted, Constant;
      var constant := IsConstantSupport(input, index, lane);
      if constant { return On(At(input, index - (k.half - 1)), lane); }
      var phase := fraction * PHASES as real;
      var row := Min(phase.Floor, PHASES - 1);
      value := Convolve(input, index, lane, k.rows[row], k.rows[row + 1], phase - row as real);
    }

    /** One output frame at a position. */
    method FrameFrom(input: seq<Frame>, index: nat, fraction: real, constant: bool) returns (frame: Frame)
      requires Valid() && k.half - 1 <= index && index + k.half < history.Length + |input| && 0.0 <= fraction
      requires constant ==>
        input != [] && forall i :: 0 <= i < history.Length + |input| ==> (history[..] + input)[i] == input[0]
      ensures frame == FrameAt(k, Window(k, history[..] + input, index), fraction)
    {
      hide Weighted;
      if constant {
        ConstantGivesItself(k, Window(k, history[..] + input, index), fraction, input[0]);
        frame := input[0];
      } else if k.unity && fraction == 0.0 {
        frame := At(input, index);
      } else {
        var left := Filter(input, index, Left, fraction);
        var right := Filter(input, index, Right, fraction);
        frame := (left, right);
      }
    }

    /** Keep the newest frames for the next block: first move down what remains of the
        history, then append the end of the block. */
    method Shift(input: seq<Frame>)
      requires input != []
      modifies history
      ensures history[..] == (old(history[..]) + input)[|input|..]
    {
      var kept := SatSub(history.Length, |input|);
      forall i | 0 <= i < kept { history[i] := history[i + |input|]; }
      forall i | kept <= i < history.Length { history[i] := input[|input| - history.Length + i]; }
    }

    /** The position of the next output frame. */
    method Move(index: nat, fraction: real) returns (i: nat, f: real)
      requires PhaseOk(fraction, step)
      ensures (i, f) == Advance(index, fraction, step)
    {
      var next := fraction + step;
      var advance := next.Floor;
      i, f := index + advance, next - advance as real;
      if f < SNAP {
        f := 0.0;
      } else if 1.0 - f < SNAP {
        i, f := i + 1, 0.0;
      }
    }

    /** The frames up to a limit, and the position they leave. */
    method Render(input: seq<Frame>, limit: nat) returns (out: seq<Frame>, index: nat, fraction: real)
      requires Valid() && input != [] && limit == |input| + k.half - 1
      ensures Emission(out, index, fraction)
           == Emit(k, history[..] + input, phaseIndex, phaseFraction, step, limit)
    {
      hide FrameAt, Room, Window, Advance, Emit;
      var constant := IsConstant(input);
      out, index, fraction := [], phaseIndex, phaseFraction;
      ghost var all := history[..] + input;
      ghost var whole := Emit(k, all, index, fraction, step, limit);
      ghost var rest := whole;
      assert out + rest.frames == rest.frames;
      while index < limit
        invariant k.half - 1 <= index && PhaseOk(fraction, step)
        invariant rest == Emit(k, all, index, fraction, step, limit)
        invariant whole == rest.(frames := out + rest.frames)
        decreases Room(limit, index, fraction, step)
      {
        var frame := FrameFrom(input, index, fraction, constant);
        EmitUnfolds(k, all, index, fraction, step, limit);
        RoomShrinks(limit, index, fraction, step);
        index, fraction := Move(index, fraction);
        rest := Emit(k, all, index, fraction, step, limit);
        assert out + ([frame] + rest.frames) == (out + [frame]) + rest.frames;
        out := out + [frame];
      }
      NothingLeft(k, all, index, fraction, step, limit);
      assert out + [] == out;
    }

    /** Convert a block; `out` is what it appends to the caller's buffer. */
    method Process(input: seq<Frame>) returns (out: seq<Frame>)
      requires Valid()
      modifies this`phaseIndex, this`phaseFraction, history
      ensures Valid() && (View(), out) == Processed(k, old(View()), input)
    {
      hide Emit;
      if input == [] {
        NoBlock(k, View());
        return [];
      }
      var index, fraction;
      out, index, fraction := Render(input, |input| + k.half - 1);
      phaseIndex, phaseFraction := index - |input|, fraction;
      Shift(input);
    }
  }
}
