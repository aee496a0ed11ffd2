/** The streaming converter: samples arrive in arbitrary chunks, are assembled
    into stereo frames, and each chunk's frames are one block for the resampler. */
module Converter {
  import opened Prelude
  import R = Resampler
  import C = ClockResampler

  const AUDIOHUB_RATE: nat := 48_000
  const MAX_CORRECTION: real := 2000.0

  type Frame = R.Frame

  /** Samples of the frame being assembled. */
  datatype Partial = Partial(frame: seq<real>, sum: real, count: nat)

  datatype Core = Core(partial: Partial, resampler: R.State, seedPending: bool)

  datatype Ppm = Finite(value: real) | NotFinite

  datatype Refusal = ZeroRate | TooFast | ZeroChannels

  // ----- one sample -----

  function Empty(): Partial { Partial([0.0, 0.0], 0.0, 0) }

  predicate Fits(channels: nat, p: Partial)
  {
    channels > 0 && |p.frame| == 2 && p.count < channels
  }

  function Scaled(sample: int): real { sample as real / 32768.0 }

  /** The frame, if any, that one sample completes. */
  function Feed(channels: nat, p: Partial, sample: int): (r: (Partial, seq<Frame>))
    requires Fits(channels, p)
    ensures Fits(channels, r.0)
    ensures |r.1| * channels + r.0.count == p.count + 1
  {
    var x := Scaled(sample);
    if channels == 1 then (p, [(x, x)])
    else if channels == 2 then
      var frame := p.frame[p.count := x];
      if p.count == 1 then (p.(frame := frame, count := 0), [(frame[0], frame[1])])
      else (p.(frame := frame, count := p.count + 1), [])
    else
      var sum := p.sum + x;
      if p.count + 1 == channels then
        var mono := sum / channels as real;
        (p.(sum := 0.0, count := 0), [(mono, mono)])
      else (p.(sum := sum, count := p.count + 1), [])
  }

  // ----- a chunk -----

  /** The frames a chunk completes, in order, and what is left over. */
  function Assemble(channels: nat, p: Partial, input: seq<int>): (r: (Partial, seq<Frame>))
    requires Fits(channels, p)
    ensures Fits(channels, r.0)
  {
    if input == [] then (p, [])
    else
      var (q, frames) := Assemble(channels, p, input[..|input| - 1]);
      var (next, more) := Feed(channels, q, input[|input| - 1]);
      (next, frames + more)
  }

  predicate CoreOk(k: R.Kernel, channels: nat, s: Core) { Fits(channels, s.partial) && R.Ready(k, s.resampler) }

  /** The resampler as a chunk's frames find it: seeded if need be, at the corrected step. */
  function Steered(k: R.Kernel, s: Core, ratio: real, frames: seq<Frame>): (r: R.State)
    requires R.Ready(k, s.resampler) && frames != []
    ensures R.Ready(k, r)
  {
    R.Corrected(k, if s.seedPending then R.Seeded(k, frames[0]) else s.resampler, ratio)
  }

  function Process(k: R.Kernel, channels: nat, s: Core, ratio: real, input: seq<int>): (r: (Core, seq<Frame>))
    requires CoreOk(k, channels, s)
    ensures CoreOk(k, channels, r.0)
  {
    var (partial, frames) := Assemble(channels, s.partial, input);
    if frames == [] then (s.(partial := partial), [])
    else
      var (resampler, out) := R.Processed(k, Steered(k, s, ratio, frames), frames);
      (Core(partial, resampler, false), out)
  }

  /** A stream delivered piece by piece. */
  function ProcessAll(k: R.Kernel, channels: nat, s: Core, ratio: real, pieces: seq<seq<int>>)
    : (r: (Core, seq<Frame>))
    requires CoreOk(k, channels, s)
    ensures CoreOk(k, channels, r.0)
    decreases |pieces|
  {
    if pieces == [] then (s, [])
    else
      var (q, out) := Process(k, channels, s, ratio, pieces[0]);
      var (end, more) := ProcessAll(k, channels, q, ratio, pieces[1..]);
      (end, out + more)
  }

  function Flattened<T>(pieces: seq<seq<T>>): seq<T>
  {
    if pieces == [] then [] else pieces[0] + Flattened(pieces[1..])
  }

  // ----- chunk splits do not matter -----

  lemma {:induction false} AssembleSplits(channels: nat, p: Partial, a: seq<int>, b: seq<int>)
    requires Fits(channels, p)
    ensures
      var (q, first) := Assemble(channels, p, a);
      var (r, second) := Assemble(channels, q, b);
      Assemble(channels, p, a + b) == (r, first + second)
    decreases |b|
  {
    hide Feed;
    if b == [] {
      assert a + b == a && Assemble(channels, p, a).1 + [] == Assemble(channels, p, a).1;
    } else {
      var c := b[..|b| - 1];
      AssembleSplits(channels, p, a, c);
      assert (a + b)[..|a + b| - 1] == a + c && (a + b)[|a + b| - 1] == b[|b| - 1];
      var (q, first) := Assemble(channels, p, a);
      var (e, second) := Assemble(channels, q, c);
      var more := Feed(channels, e, b[|b| - 1]).1;
      assert (first + second) + more == first + (second + more);
    }
  }

  /** Asking again for the same correction changes nothing. */
  lemma CorrectedStays(k: R.Kernel, s: R.State, ratio: real, frames: seq<Frame>)
    requires R.Ready(k, s)
    ensures
      var r := R.Processed(k, R.Corrected(k, s, ratio), frames).0;
      R.Corrected(k, r, ratio) == r
  {
  }

  /** Cutting a chunk anywhere, even inside a frame, changes nothing. */
  lemma ChunkSplits(k: R.Kernel, channels: nat, s: Core, ratio: real, a: seq<int>, b: seq<int>)
    requires CoreOk(k, channels, s)
    ensures
      var (q, first) := Process(k, channels, s, ratio, a);
      var (r, second) := Process(k, channels, q, ratio, b);
      Process(k, channels, s, ratio, a + b) == (r, first + second)
  {
    hide Assemble, R.Processed, R.Corrected, Fits;
    AssembleSplits(channels, s.partial, a, b);
    var (q, first) := Assemble(channels, s.partial, a);
    var (e, second) := Assemble(channels, q, b);
    if first == [] {
      assert first + second == second;
      var out := Process(k, channels, s.(partial := q), ratio, b).1;
      assert [] + out == out;
    } else {
      var start := Steered(k, s, ratio, first);
      assert (first + second)[0] == first[0];
      CorrectedStays(k, if s.seedPending then R.Seeded(k, first[0]) else s.resampler, ratio, first);
      R.BlocksJoin(k, start, first, second);
      if second == [] {
        assert first + second == first;
        var out := R.Processed(k, start, first).1;
        assert out + [] == out;
      }
    }
  }

  /** Every split of a stream gives the output and the final state of the whole. */
  lemma {:induction false} SplitsDoNotMatter(
      k: R.Kernel, channels: nat, s: Core, ratio: real, pieces: seq<seq<int>>)
    requires CoreOk(k, channels, s)
    ensures ProcessAll(k, channels, s, ratio, pieces) == Process(k, channels, s, ratio, Flattened(pieces))
    decreases |pieces|
  {
    hide Process, CoreOk;
    if pieces == [] {
      NoChunk(k, channels, s, ratio);
    } else {
      var q := Process(k, channels, s, ratio, pieces[0]).0;
      SplitsDoNotMatter(k, channels, q, ratio, pieces[1..]);
      ChunkSplits(k, channels, s, ratio, pieces[0], Flattened(pieces[1..]));
    }
  }

  lemma NoChunk(k: R.Kernel, channels: nat, s: Core, ratio: real)
    requires CoreOk(k, channels, s)
    ensures Process(k, channels, s, ratio, []) == (s, [])
  {
  }

  // ----- what the frames are -----

  function SumOf(samples: seq<int>): real
  {
    if samples == [] then 0.0 else SumOf(samples[..|samples| - 1]) + Scaled(samples[|samples| - 1])
  }

  /** Frame k of a stream, from the samples alone. */
  function FrameOf(channels: nat, samples: seq<int>, k: nat): Frame
    requires channels > 0 && channels * k + channels <= |samples|
  {
    var own := samples[channels * k..channels * k + channels];
    if channels == 1 then (Scaled(own[0]), Scaled(own[0]))
    else if channels == 2 then (Scaled(own[0]), Scaled(own[1]))
    else (SumOf(own) / channels as real, SumOf(own) / channels as real)
  }

  /** The samples a partial frame stands for. */
  ghost predicate Holds(channels: nat, p: Partial, samples: seq<int>)
  {
    && Fits(channels, p) && |samples| == p.count
    && (channels == 2 && p.count == 1 ==> p.frame[0] == Scaled(samples[0]))
    && (channels > 2 ==> p.sum == SumOf(samples))
  }

  /** The frames assembled so far are exactly those of the stream, and the rest is
      held back. */
  ghost predicate Assembled(channels: nat, p: Partial, frames: seq<Frame>, samples: seq<int>)
    requires channels > 0
  {
    var used := channels * |frames|;
    && used <= |samples| && Holds(channels, p, samples[used..])
    && forall k :: 0 <= k < |frames| ==> channels * k + channels <= used && frames[k] == FrameOf(channels, samples, k)
  }

  lemma Multiples(channels: nat, k: nat, n: nat)
    requires k < n
    ensures channels * k + channels <= channels * n
  {
    assert channels * n == channels * (n - k - 1) + channels * k + channels;
    assert channels * (n - k - 1) >= 0;
  }

  lemma FrameOfPrefix(channels: nat, samples: seq<int>, x: int, k: nat)
    requires channels > 0 && channels * k + channels <= |samples|
    ensures FrameOf(channels, samples + [x], k) == FrameOf(channels, samples, k)
  {
    assert (samples + [x])[channels * k..channels * k + channels] == samples[channels * k..channels * k + channels];
  }

  lemma SumOfMore(samples: seq<int>, x: int)
    ensures SumOf(samples + [x]) == SumOf(samples) + Scaled(x)
  {
  }

  /** One more sample either completes exactly the frame of the samples held, or is held too. */
  lemma FeedHolds(channels: nat, p: Partial, held: seq<int>, x: int)
    requires channels > 0 && Holds(channels, p, held)
    ensures
      var (q, more) := Feed(channels, p, x);
      if p.count + 1 < channels then more == [] && Holds(channels, q, held + [x])
      else |held + [x]| == channels && more == [FrameOf(channels, held + [x], 0)] && Holds(channels, q, [])
  {
    SumOfMore(held, x);
    if p.count + 1 == channels {
      assert (held + [x])[0..channels] == held + [x];
    }
  }

  lemma FrameOfShift(channels: nat, samples: seq<int>, n: nat)
    requires channels > 0 && channels * n + channels == |samples|
    ensures FrameOf(channels, samples, n) == FrameOf(channels, samples[channels * n..], 0)
  {
    assert samples[channels * n..][0..channels] == samples[channels * n..channels * n + channels];
  }

  lemma EarlierFramesStay(channels: nat, p: Partial, frames: seq<Frame>, samples: seq<int>, x: int, k: nat)
    requires channels > 0 && Assembled(channels, p, frames, samples) && k < |frames|
    ensures channels * k + channels <= channels * |frames| && frames[k] == FrameOf(channels, samples + [x], k)
  {
    hide Holds, FrameOf;
    Multiples(channels, k, |frames|);
    FrameOfPrefix(channels, samples, x, k);
  }

  lemma FrameHeld(channels: nat, p: Partial, q: Partial, frames: seq<Frame>, samples: seq<int>, x: int)
    requires channels > 0 && Assembled(channels, p, frames, samples)
    requires Holds(channels, q, samples[channels * |frames|..] + [x])
    ensures Assembled(channels, q, frames, samples + [x])
  {
    hide Holds, FrameOf;
    assert (samples + [x])[channels * |frames|..] == samples[channels * |frames|..] + [x];
    forall k | 0 <= k < |frames|
      ensures channels * k + channels <= channels * |frames| && frames[k] == FrameOf(channels, samples + [x], k)
    {
      EarlierFramesStay(channels, p, frames, samples, x, k);
    }
  }

  lemma FrameDone(channels: nat, p: Partial, q: Partial, frames: seq<Frame>, samples: seq<int>, x: int)
    requires channels > 0 && Assembled(channels, p, frames, samples)
    requires |samples[channels * |frames|..] + [x]| == channels && Holds(channels, q, [])
    ensures
      var more := [FrameOf(channels, samples[channels * |frames|..] + [x], 0)];
      Assembled(channels, q, frames + more, samples + [x])
  {
    hide Holds, FrameOf;
    var n, all := |frames|, samples + [x];
    var more := [FrameOf(channels, samples[channels * n..] + [x], 0)];
    assert channels * (n + 1) == channels * n + channels == |all|;
    assert all[channels * n..] == samples[channels * n..] + [x];
    assert all[channels * (n + 1)..] == [] && |frames + more| == n + 1;
    FrameOfShift(channels, all, n);
    forall k | 0 <= k < n + 1
      ensures channels * k + channels <= channels * (n + 1) && (frames + more)[k] == FrameOf(channels, all, k)
    {
      if k < n { EarlierFramesStay(channels, p, frames, samples, x, k); }
    }
  }

  lemma FeedAssembles(channels: nat, p: Partial, frames: seq<Frame>, samples: seq<int>, x: int)
    requires channels > 0 && Assembled(channels, p, frames, samples)
    ensures
      var (q, more) := Feed(channels, p, x);
      Assembled(channels, q, frames + more, samples + [x])
  {
    hide Feed, FrameOf, Holds;
    var held := samples[channels * |frames|..];
    HoldsCount(channels, p, held);
    var (q, more) := Feed(channels, p, x);
    FeedHolds(channels, p, held, x);
    if p.count + 1 < channels {
      FrameHeld(channels, p, q, frames, samples, x);
      assert frames + more == frames;
    } else {
      FrameDone(channels, p, q, frames, samples, x);
    }
  }

  lemma HoldsCount(channels: nat, p: Partial, samples: seq<int>)
    requires Holds(channels, p, samples)
    ensures |samples| == p.count && Fits(channels, p)
  {
  }

  /** After a flush, however the stream is cut, the frames given to the resampler
      are the stream's frames: exactly one per `channels` samples, each from its own
      samples, with fewer than one frame's samples held back. */
  lemma {:induction false} FramesAreTheStreams(channels: nat, samples: seq<int>)
    requires channels > 0
    ensures
      var (p, frames) := Assemble(channels, Empty(), samples);
      && Assembled(channels, p, frames, samples)
      && channels * |frames| + p.count == |samples|
  {
    if samples != [] {
      var most := samples[..|samples| - 1];
      FramesAreTheStreams(channels, most);
      var (p, frames) := Assemble(channels, Empty(), most);
      FeedAssembles(channels, p, frames, most, samples[|samples| - 1]);
      assert most + [samples[|samples| - 1]] == samples;
    }
  }

  function Total(samples: seq<int>): int
  {
    if samples == [] then 0 else Total(samples[..|samples| - 1]) + samples[|samples| - 1]
  }

  lemma {:induction false} SumsAreFullScale(samples: seq<int>)
    ensures SumOf(samples) * 32768.0 == Total(samples) as real
  {
    if samples != [] { SumsAreFullScale(samples[..|samples| - 1]); }
  }

  /** Frame k in terms of 16-bit full scale: mono on both lanes, stereo sample by
      sample, and the mean of more channels on both; so it never leaves full scale. */
  lemma FramesAreFullScale(channels: nat, samples: seq<int>, k: nat)
    requires channels > 0 && channels * k + channels <= |samples|
    ensures
      var frame := FrameOf(channels, samples, k);
      var own := samples[channels * k..channels * k + channels];
      if channels == 2 then frame.0 * 32768.0 == own[0] as real && frame.1 * 32768.0 == own[1] as real
      else frame.0 == frame.1 && frame.0 * 32768.0 * channels as real == Total(own) as real
  {
    var own := samples[channels * k..channels * k + channels];
    if channels == 1 {
      assert own == [own[0]] && own[..0] == [];
      assert Total(own) == Total(own[..0]) + own[0] == own[0];
    } else if channels > 2 {
      hide SumOf, Total;
      SumsAreFullScale(own);
      MeanTimes(SumOf(own), channels as real);
    }
  }

  lemma MeanTimes(sum: real, c: real)
    requires c > 0.0
    ensures sum / c * 32768.0 * c == sum * 32768.0
  {
    var mean := sum / c;
    assert mean * c == sum;
    assert mean * 32768.0 * c == (mean * c) * 32768.0;
  }

  // ----- flush -----

  function Flushed(s: Core): Core { Core(Empty(), s.resampler, true) }

  /** Equal but for a resampler that is about to be reseeded. */
  predicate Alike(a: Core, b: Core)
  {
    a.partial == b.partial && a.seedPending == b.seedPending && (!a.seedPending ==> a.resampler == b.resampler)
  }

  lemma AlikeProcess(k: R.Kernel, channels: nat, a: Core, b: Core, ratio: real, input: seq<int>)
    requires CoreOk(k, channels, a) && CoreOk(k, channels, b) && Alike(a, b)
    ensures Alike(Process(k, channels, a, ratio, input).0, Process(k, channels, b, ratio, input).0)
    ensures Process(k, channels, a, ratio, input).1 == Process(k, channels, b, ratio, input).1
  {
    hide R.Processed, R.Corrected, Assemble;
  }

  /** Calls made after a flush: chunks, each under its own correction ratio. */
  function Converted(k: R.Kernel, channels: nat, s: Core, calls: seq<(real, seq<int>)>): (r: (Core, seq<Frame>))
    requires CoreOk(k, channels, s)
    ensures CoreOk(k, channels, r.0)
    decreases |calls|
  {
    if calls == [] then (s, [])
    else
      var (q, out) := Process(k, channels, s, calls[0].0, calls[0].1);
      var (end, more) := Converted(k, channels, q, calls[1..]);
      (end, out + more)
  }

  lemma {:induction false} AlikeConverted(
      k: R.Kernel, channels: nat, a: Core, b: Core, calls: seq<(real, seq<int>)>)
    requires CoreOk(k, channels, a) && CoreOk(k, channels, b) && Alike(a, b)
    ensures Alike(Converted(k, channels, a, calls).0, Converted(k, channels, b, calls).0)
    ensures Converted(k, channels, a, calls).1 == Converted(k, channels, b, calls).1
    decreases |calls|
  {
    hide Process, CoreOk, Alike;
    if calls != [] {
      AlikeProcess(k, channels, a, b, calls[0].0, calls[0].1);
      AlikeConverted(k, channels, Process(k, channels, a, calls[0].0, calls[0].1).0,
                     Process(k, channels, b, calls[0].0, calls[0].1).0, calls[1..]);
    }
  }

  /** A flushed converter cannot be told from a fresh one: whatever it went through
      before, every later call gives the same output. */
  lemma FlushIsFresh(
      k: R.Kernel, channels: nat, s: Core, before: seq<(real, seq<int>)>, newborn: R.State,
      after: seq<(real, seq<int>)>)
    requires CoreOk(k, channels, s) && channels > 0 && R.Ready(k, newborn)
    ensures
      var used := Flushed(Converted(k, channels, s, before).0);
      var unused := Core(Empty(), newborn, true);
      && Converted(k, channels, used, after).1 == Converted(k, channels, unused, after).1
      && Alike(Converted(k, channels, used, after).0, Converted(k, channels, unused, after).0)
  {
    hide R.Ready;
    AlikeConverted(k, channels, Flushed(Converted(k, channels, s, before).0), Core(Empty(), newborn, true), after);
  }

  // ----- correction -----

  function Clamped(ppm: Ppm): (r: real)
    ensures -MAX_CORRECTION <= r <= MAX_CORRECTION
  {
    if ppm.NotFinite? then 0.0
    else if ppm.value < -MAX_CORRECTION then -MAX_CORRECTION
    else if ppm.value > MAX_CORRECTION then MAX_CORRECTION
    else ppm.value
  }

  /** Input frames per output frame asked of the resampler. */
  function Ratio(ppm: real): real
    requires ppm > -1_000_000.0
  {
    1.0 / (1.0 + ppm / 1_000_000.0)
  }

  lemma Reciprocal(x: real, low: real, high: real)
    requires 0.0 < low <= x <= high
    ensures 1.0 / high <= 1.0 / x <= 1.0 / low
  {
    assert (1.0 / x) * x == 1.0 && (1.0 / low) * low == 1.0 && (1.0 / high) * high == 1.0;
  }

  lemma ReciprocalOrder(x: real, y: real)
    requires 0.0 < x < y
    ensures 1.0 / y < 1.0 / x
  {
    assert (1.0 / x) * x == 1.0 && (1.0 / y) * y == 1.0;
  }

  /** Whatever correction is asked for, the ratio stays within 2000 ppm of one, and
      a larger correction consumes fewer input frames per output frame. */
  lemma RatioIsSafe(a: Ppm, b: Ppm)
    ensures 1.0 / 1.002 <= Ratio(Clamped(a)) <= 1.0 / 0.998
    ensures Clamped(a) < Clamped(b) ==> Ratio(Clamped(b)) < Ratio(Clamped(a))
  {
    Reciprocal(1.0 + Clamped(a) / 1_000_000.0, 0.998, 1.002);
    if Clamped(a) < Clamped(b) {
      ReciprocalOrder(1.0 + Clamped(a) / 1_000_000.0, 1.0 + Clamped(b) / 1_000_000.0);
    }
  }

  // ----- where the output lies -----

  /** Seconds from the start of a chunk to its first output frame, and between frames. */
  datatype Timing = Timing(offset: real, frame: real)

  function TimingOf(k: R.Kernel, inputRate: nat, channels: nat, s: Core, ratio: real, input: seq<int>)
    : Option<Timing>
    requires CoreOk(k, channels, s) && inputRate > 0
  {
    var frames := Assemble(channels, s.partial, input).1;
    if frames == [] || Process(k, channels, s, ratio, input).1 == [] then None
    else
      var start := Steered(k, s, ratio, frames);
      Some(Timing((R.NextSource(k, start) - InFrames(s.partial.count, channels)) / inputRate as real,
                  start.step / inputRate as real))
  }

  lemma ProductAdds(c: nat, a: nat, b: nat)
    ensures c * (a + b) == c * a + c * b
  {
  }

  /** Frames out and samples held make up the samples held before and the chunk. */
  lemma {:induction false} SamplesAreKept(channels: nat, p: Partial, input: seq<int>)
    requires Fits(channels, p)
    ensures
      var (q, frames) := Assemble(channels, p, input);
      channels * |frames| + q.count == p.count + |input|
  {
    hide Feed;
    if input != [] {
      SamplesAreKept(channels, p, input[..|input| - 1]);
      var (q, frames) := Assemble(channels, p, input[..|input| - 1]);
      var more := Feed(channels, q, input[|input| - 1]).1;
      ProductAdds(channels, |frames|, |more|);
    }
  }

  /** A number of samples in frames. */
  function InFrames(samples: nat, channels: nat): real
    requires channels > 0
  {
    samples as real / channels as real
  }

  /** Start of the frame being assembled and source position of the next output frame,
      both in frames from the start of the next chunk. */
  function HeldBack(channels: nat, s: Core): real
    requires channels > 0
  {
    -InFrames(s.partial.count, channels)
  }

  function NextAt(k: R.Kernel, channels: nat, s: Core): real
    requires channels > 0
  {
    HeldBack(channels, s) + R.NextSource(k, s.resampler)
  }

  lemma FramesOfSamples(channels: nat, frames: nat, held: nat, before: nat, samples: nat)
    requires channels > 0 && channels * frames + held == before + samples
    ensures frames as real + InFrames(held, channels) == InFrames(before, channels) + InFrames(samples, channels)
  {
    R.Quotient(frames, held, channels);
    R.SumOfQuotients(before, samples, channels);
  }

  /** The announced timing is that of the frames: the n-th frame of a chunk is the
      filter read at the announced offset plus n steps, up to rounded residues. */
  lemma TimingIsOfTheFrames(k: R.Kernel, inputRate: nat, channels: nat, s: Core, ratio: real, input: seq<int>, n: nat)
    requires CoreOk(k, channels, s) && inputRate > 0 && n < |Process(k, channels, s, ratio, input).1|
    ensures
      var timing := TimingOf(k, inputRate, channels, s, ratio, input);
      var frames := Assemble(channels, s.partial, input).1;
      && timing.Some? && frames != []
      && var start := Steered(k, s, ratio, frames);
         var (i, f) := R.After(start.index, start.fraction, start.step, n);
         var at := HeldBack(channels, s) + (i as real + f - (k.Taps() - 1) as real);
         && k.half - 1 <= i && i + k.half < |start.history + frames|
         && Process(k, channels, s, ratio, input).1[n]
            == R.FrameAt(k, R.Window(k, start.history + frames, i), f)
         && timing.value.offset * inputRate as real == HeldBack(channels, s) + R.NextSource(k, start)
         && timing.value.frame * inputRate as real == start.step
         && -R.Times(n, R.SNAP)
            <= at - (HeldBack(channels, s) + R.NextSource(k, start) + R.Times(n, start.step))
            <= R.Times(n, R.SNAP)
  {
    hide R.Processed, R.After, R.FrameAt, R.Window, R.Times, R.NextSource, R.Seeded, R.Corrected, Assemble;
    var frames := Assemble(channels, s.partial, input).1;
    var start := Steered(k, s, ratio, frames);
    R.FramesAreOnTime(k, start, frames, n);
  }

  /** The timeline runs on across chunks: where the next chunk will place its first
      frame is where this one's frames leave off. */
  lemma TimingContinues(k: R.Kernel, channels: nat, s: Core, ratio: real, input: seq<int>)
    requires CoreOk(k, channels, s) && Assemble(channels, s.partial, input).1 != []
    ensures
      var (q, out) := Process(k, channels, s, ratio, input);
      var start := Steered(k, s, ratio, Assemble(channels, s.partial, input).1);
      var expected := HeldBack(channels, s) + R.NextSource(k, start) + R.Times(|out|, start.step);
      -R.Times(|out|, R.SNAP)
        <= InFrames(|input|, channels) + NextAt(k, channels, q) - expected
        <= R.Times(|out|, R.SNAP)
  {
    hide R.Processed, R.Times, R.NextSource, R.Seeded, R.Corrected, Assemble, InFrames;
    var (partial, frames) := Assemble(channels, s.partial, input);
    var start := Steered(k, s, ratio, frames);
    SamplesAreKept(channels, s.partial, input);
    FramesOfSamples(channels, |frames|, partial.count, s.partial.count, |input|);
    R.RateIsKept(k, start, frames);
  }

  // ----- how much comes out -----

  /** The correction in force once one has been asked for, in parts per million. */
  function AskedPpm(ppm: Ppm): real
  {
    if ppm.NotFinite? then 0.0
    else if ppm.value < -2000.0 then -2000.0
    else if ppm.value > 2000.0 then 2000.0
    else ppm.value
  }

  /** `out` frames at 48 kHz for `frames` frames at `rate`, under a correction: the
      ideal number to within one step of the resampler and the rounded residues. */
  predicate RateIs(rate: nat, ppm: real, frames: nat, out: nat)
  {
    var ideal := 48000.0 * (1.0 + ppm / 1000000.0);
    var slack := rate as real + (out + 1) as real * 0.000000000001 * ideal;
    -slack < out as real * rate as real - frames as real * ideal < slack
  }

  lemma StepsPerSecond(rate: nat, nominal: real, ppm: real)
    requires nominal == rate as real / 48000.0 && -2000.0 <= ppm <= 2000.0
    ensures nominal * Ratio(ppm) * (48000.0 * (1.0 + ppm / 1000000.0)) == rate as real
  {
    var x := 1.0 + ppm / 1000000.0;
    var q := Ratio(ppm);
    assert q * x == 1.0;
    assert nominal * q * (48000.0 * x) == 48000.0 * nominal * (q * x);
  }

  lemma ScaleStrictly(low: real, x: real, high: real, scale: real)
    requires low < x < high && scale > 0.0
    ensures low * scale < x * scale < high * scale
  {
  }

  lemma StepsToRate(rate: nat, ppm: real, frames: nat, out: nat, step: real)
    requires step * (48000.0 * (1.0 + ppm / 1000000.0)) == rate as real && -2000.0 <= ppm <= 2000.0
    requires
      var slack := step + R.Times(out + 1, R.SNAP);
      -slack < R.Times(out, step) - frames as real < slack
    ensures RateIs(rate, ppm, frames, out)
  {
    var ideal := 48000.0 * (1.0 + ppm / 1000000.0);
    var slack := step + R.Times(out + 1, R.SNAP);
    var m, residues := out as real, (out + 1) as real * R.SNAP;
    ScaleStrictly(-slack, m * step - frames as real, slack, ideal);
    assert (m * step - frames as real) * ideal == m * (step * ideal) - frames as real * ideal;
    assert slack * ideal == step * ideal + residues * ideal;
    assert (-slack) * ideal == -(slack * ideal);
  }

  /** A stream that starts after a flush or at the beginning, cut into chunks in any
      way, under one correction: for N frames assembled at the input rate it gives
      N x 48000 x (1 + ppm/10^6) / rate frames, to within one step and the residues. */
  lemma StreamsKeepTheCorrectedRate(
    k: R.Kernel, rate: nat, channels: nat, s: Core, ppm: Ppm, pieces: seq<seq<int>>)
    requires CoreOk(k, channels, s) && s.seedPending && k.nominal == rate as real / 48000.0
    ensures
      var out := ProcessAll(k, channels, s, Ratio(Clamped(ppm)), pieces).1;
      RateIs(rate, AskedPpm(ppm), |Assemble(channels, s.partial, Flattened(pieces)).1|, |out|)
  {
    hide Assemble, ProcessAll, R.Processed, R.Times, RateIs, R.Ready, Ratio;
    var ratio := Ratio(Clamped(ppm));
    SplitsDoNotMatter(k, channels, s, ratio, pieces);
    var frames := Assemble(channels, s.partial, Flattened(pieces)).1;
    if frames == [] {
      NothingKeepsTheRate(rate, AskedPpm(ppm));
    } else {
      var start := Steered(k, s, ratio, frames);
      RatioIsSafe(ppm, ppm);
      StepsPerSecond(rate, k.nominal, Clamped(ppm));
      R.StreamsDoNotDrift(k, start, frames);
      StepsToRate(rate, AskedPpm(ppm), |frames|, |R.Processed(k, start, frames).1|, start.step);
    }
  }

  lemma NothingKeepsTheRate(rate: nat, ppm: real)
    requires -2000.0 <= ppm <= 2000.0
    ensures RateIs(rate, ppm, 0, 0)
  {
  }

  // ----- the converter -----

  function Refuses(inputRate: nat, channels: nat): Option<Refusal>
  {
    if inputRate == 0 then Some(ZeroRate)
    else if inputRate > AUDIOHUB_RATE * 8 then Some(TooFast)
    else if channels == 0 then Some(ZeroChannels)
    else None
  }

  /** Rates up to 384 kHz and any number of channels but none are taken; the first
      reason against a converter is the one given. */
  lemma RefusalsAreExact(inputRate: nat, channels: nat)
    ensures Refuses(inputRate, channels).None? <==> 1 <= inputRate <= 384000 && channels >= 1
    ensures Refuses(inputRate, channels) == Some(ZeroRate) <==> inputRate == 0
    ensures Refuses(inputRate, channels) == Some(TooFast) <==> inputRate > 384000
  {
  }

  class StreamingFrameConverter {
    const inputRate: nat
    const channels: nat
    const resampler: C.ClockResampler
    var partialFrame: seq<real>
    var partialSum: real
    var partialChannels: nat
    var seedPending: bool
    var inputFrames: seq<Frame>
    var outputFrames: seq<Frame>
    var correction: real

    ghost predicate Valid()
      reads this, resampler, resampler.history
    {
      && Refuses(inputRate, channels).None? && CoreOk(resampler.k, channels, View())
      && resampler.k.nominal == inputRate as real / 48000.0
      && -MAX_CORRECTION <= correction <= MAX_CORRECTION
    }

    ghost function Held(): Partial
      reads this
    {
      Partial(partialFrame, partialSum, partialChannels)
    }

    ghost function View(): Core
      reads this, resampler, resampler.history
    {
      Core(Held(), resampler.View(), seedPending)
    }

    constructor (inputRate: nat, channels: nat, table: seq<seq<real>>)
      requires Refuses(inputRate, channels).None? && C.TableOk(inputRate, AUDIOHUB_RATE, table)
      ensures Valid() && fresh(resampler) && fresh(resampler.history)
      ensures this.channels == channels && this.inputRate == inputRate && correction == 0.0
      ensures resampler.k == C.KernelFor(inputRate, AUDIOHUB_RATE, table)
      ensures View() == Core(Empty(), R.Seeded(resampler.k, (0.0, 0.0)), true)
    {
      this.inputRate, this.channels := inputRate, channels;
      resampler := new C.ClockResampler(inputRate, AUDIOHUB_RATE, table);
      partialFrame, partialSum, partialChannels := [0.0, 0.0], 0.0, 0;
      seedPending, inputFrames, outputFrames, correction := true, [], [], 0.0;
    }

    method SetCorrection(ppm: Ppm)
      requires Valid()
      modifies `correction
      ensures Valid() && correction == Clamped(ppm) && View() == old(View())
    {
      if ppm.Finite? {
        correction := ppm.value;
        if correction < -MAX_CORRECTION {
          correction := -MAX_CORRECTION;
        }
        if correction > MAX_CORRECTION {
          correction := MAX_CORRECTION;
        }
      } else {
        correction := 0.0;
      }
    }

    /** Takes one sample into the frame being assembled. */
    method TakeSample(sample: int)
      requires Valid()
      modifies `partialFrame, `partialSum, `partialChannels, `inputFrames
      ensures Valid() && (Held(), inputFrames) == (Feed(channels, old(Held()), sample).0,
                                                   old(inputFrames) + Feed(channels, old(Held()), sample).1)
    {
      var x := Scaled(sample);
      assert inputFrames + [] == inputFrames;
      if channels == 1 {
        inputFrames := inputFrames + [(x, x)];
      } else if channels == 2 {
        partialFrame := partialFrame[partialChannels := x];
        partialChannels := partialChannels + 1;
        if partialChannels == 2 {
          partialChannels := 0;
          inputFrames := inputFrames + [(partialFrame[0], partialFrame[1])];
        }
      } else {
        partialSum := partialSum + x;
        partialChannels := partialChannels + 1;
        if partialChannels == channels {
          var mono := partialSum / channels as real;
          partialSum, partialChannels := 0.0, 0;
          inputFrames := inputFrames + [(mono, mono)];
        }
      }
    }

    /** Stages the frames a chunk completes. */
    method AssembleChunk(input: seq<int>)
      requires Valid()
      modifies `partialFrame, `partialSum, `partialChannels, `inputFrames
      ensures Valid() && (Held(), inputFrames) == Assemble(channels, old(Held()), input)
    {
      hide Feed;
      inputFrames := [];
      var i := 0;
      while i < |input|
        invariant 0 <= i <= |input| && Valid()
        invariant (Held(), inputFrames) == Assemble(channels, old(Held()), input[..i])
      {
        assert input[..i + 1][..i] == input[..i];
        TakeSample(input[i]);
        i := i + 1;
      }
      assert input[..i] == input;
    }

    /** Converts a chunk; `out` is what it appends to the caller's buffer, `timing`
        where its frames lie. */
    method ProcessI16(input: seq<int>) returns (out: seq<Frame>, timing: Option<Timing>)
      requires Valid()
      modifies this, resampler, resampler.history
      ensures Valid() && correction == old(correction)
      ensures (View(), out) == Process(resampler.k, channels, old(View()), Ratio(correction), input)
      ensures timing == TimingOf(resampler.k, inputRate, channels, old(View()), Ratio(correction), input)
    {
      hide Assemble, Feed, R.Processed, R.Ready, R.Corrected, R.Seeded;
      var partialOffset := partialChannels as real / channels as real;
      AssembleChunk(input);
      if inputFrames == [] {
        return [], None;
      }
      if seedPending {
        resampler.ResetSeeded(inputFrames[0]);
        seedPending := false;
      }
      resampler.SetCorrection(Ratio(correction));
      var next := resampler.NextSourcePosition();
      timing := Some(Timing((next - partialOffset) / inputRate as real, resampler.step / inputRate as real));
      outputFrames := resampler.Process(inputFrames);
      out := outputFrames;
      if out == [] { timing := None; }
    }

    /** Forgets the partial frame and makes the next frame seed the resampler. */
    method Flush()
      requires Valid()
      modifies this
      ensures Valid() && View() == Flushed(old(View())) && correction == old(correction)
    {
      partialFrame, partialSum, partialChannels := [0.0, 0.0], 0.0, 0;
      inputFrames, outputFrames := [], [];
      seedPending := true;
    }
  }

  /** A whole stream under one correction, as a caller sees it. `frames` counts the
      frames its samples make. */
  method ConvertStream(converter: StreamingFrameConverter, ppm: Ppm, pieces: seq<seq<int>>)
    returns (out: seq<Frame>, ghost frames: nat)
    requires converter.Valid() && converter.seedPending && converter.partialChannels == 0
    modifies converter, converter.resampler, converter.resampler.history
    ensures converter.Valid() && converter.channels * frames + converter.partialChannels == |Flattened(pieces)|
    ensures RateIs(converter.inputRate, AskedPpm(ppm), frames, |out|)
  {
    hide Assemble, Process, ProcessAll, RateIs, Ratio, R.Ready;
    converter.SetCorrection(ppm);
    ghost var k, channels, s, ratio := converter.resampler.k, converter.channels, converter.View(), Ratio(Clamped(ppm));
    out := [];
    var i := 0;
    AllOfNothing(k, channels, s, ratio);
    while i < |pieces|
      invariant 0 <= i <= |pieces| && converter.Valid() && converter.correction == Clamped(ppm)
      invariant (converter.View(), out) == ProcessAll(k, channels, s, ratio, pieces[..i])
    {
      var more, timing := converter.ProcessI16(pieces[i]);
      OnePieceMore(k, channels, s, ratio, pieces[..i], pieces[i]);
      assert pieces[..i + 1] == pieces[..i] + [pieces[i]];
      out := out + more;
      i := i + 1;
    }
    assert pieces[..i] == pieces;
    frames := |Assemble(channels, s.partial, Flattened(pieces)).1|;
    StreamsKeepTheCorrectedRate(k, converter.inputRate, channels, s, ppm, pieces);
    SamplesAreKept(channels, s.partial, Flattened(pieces));
    SplitsDoNotMatter(k, channels, s, ratio, pieces);
    ProcessHolds(k, channels, s, ratio, Flattened(pieces));
  }

  lemma AllOfNothing(k: R.Kernel, channels: nat, s: Core, ratio: real)
    requires CoreOk(k, channels, s)
    ensures ProcessAll(k, channels, s, ratio, []) == (s, [])
  {
  }

  lemma ProcessHolds(k: R.Kernel, channels: nat, s: Core, ratio: real, input: seq<int>)
    requires CoreOk(k, channels, s)
    ensures Process(k, channels, s, ratio, input).0.partial == Assemble(channels, s.partial, input).0
  {
    hide Assemble, R.Processed;
  }

  lemma {:induction false} OnePieceMore(
      k: R.Kernel, channels: nat, s: Core, ratio: real, pieces: seq<seq<int>>, piece: seq<int>)
    requires CoreOk(k, channels, s)
    ensures
      var (q, out) := ProcessAll(k, channels, s, ratio, pieces);
      var (r, more) := Process(k, channels, q, ratio, piece);
      ProcessAll(k, channels, s, ratio, pieces + [piece]) == (r, out + more)
    decreases |pieces|
  {
    hide Process, CoreOk;
    if pieces == [] {
      var (r, more) := Process(k, channels, s, ratio, piece);
      assert [piece][1..] == [] && [] + [piece] == [piece];
      AllOfNothing(k, channels, r, ratio);
      assert more + [] == more && [] + more == more;
    } else {
      var (q, first) := Process(k, channels, s, ratio, pieces[0]);
      OnePieceMore(k, channels, q, ratio, pieces[1..], piece);
      assert (pieces + [piece])[1..] == pieces[1..] + [piece];
      var (e, out) := ProcessAll(k, channels, q, ratio, pieces[1..]);
      var more := Process(k, channels, e, ratio, piece).1;
      assert (first + out) + more == first + (out + more);
    }
  }

  datatype Created = Refused(why: Refusal) | Created(converter: StreamingFrameConverter)

  /** A converter, or the first reason there cannot be one. */
  method Create(inputRate: nat, channels: nat, table: seq<seq<real>>) returns (r: Created)
    requires 0 < inputRate <= AUDIOHUB_RATE * 8 ==> C.TableOk(inputRate, AUDIOHUB_RATE, table)
    ensures r.Refused? <==> Refuses(inputRate, channels).Some?
    ensures r.Refused? ==> Refuses(inputRate, channels) == Some(r.why)
    ensures r.Created? ==> fresh(r.converter) && r.converter.Valid() && r.converter.channels == channels
    ensures r.Created? ==> r.converter.View().partial == Empty() && r.converter.View().seedPending
  {
    if inputRate == 0 {
      return Refused(ZeroRate);
    }
    if inputRate > AUDIOHUB_RATE * 8 {
      return Refused(TooFast);
    }
    if channels == 0 {
      return Refused(ZeroChannels);
    }
    var converter := new StreamingFrameConverter(inputRate, channels, table);
    r := Created(converter);
  }
}
