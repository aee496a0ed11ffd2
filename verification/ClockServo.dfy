/** The resampling correction taken from reader fill levels, and the loop it closes. */
module ClockServo {
  import opened Prelude
  import VersionLock

  const FRAME_SAMPLES: nat := 480

  datatype Config = Config(capacity: nat, prebuffer: nat, maxPpm: nat)

  /** What the writer saw of one reader: an untorn publication, or not, and the
      gate outputs asked for when it looked at that reader. */
  datatype Reader = Reader(untorn: bool, retired: bool, primed: bool, epoch: nat, gate: nat, cursor: nat, asked: nat)

  /** What only the thread with the mutex changes, the floor included. */
  datatype Writer = Writer(nextSeq: nat, floor: nat, epoch: nat, timed: bool)

  predicate Qualifies(r: Reader, w: Writer)
  {
    r.untorn && !r.retired && r.primed && r.epoch == w.epoch && (w.timed ==> r.gate == r.asked)
  }

  function Unread(r: Reader, w: Writer): nat { SatSub(w.nextSeq, Max(r.cursor, w.floor)) }

  function Clamp(x: real, bound: real): real
  {
    if x < -bound then -bound else if x > bound then bound else x
  }

  function Target(c: Config): nat { SatSub(c.prebuffer, FRAME_SAMPLES) }

  /** Correction in parts per million for a fill level. */
  function PpmFor(c: Config, fill: real): real
  {
    Clamp((Target(c) as real - fill) * 0.25, c.maxPpm as real)
  }

  /** What the correction must be, whatever order the readers are visited in:
      decided by a least-filled reader that qualifies, zero when none does. */
  predicate IsCorrection(c: Config, w: Writer, readers: set<Reader>, ppm: real)
  {
    if forall r :: r in readers ==> !Qualifies(r, w) then ppm == 0.0
    else exists r :: r in readers && Qualifies(r, w) && ppm == PpmFor(c, Unread(r, w) as real)
           && forall s :: s in readers && Qualifies(s, w) ==> Unread(r, w) <= Unread(s, w)
  }

  method CorrectionPpm(c: Config, w: Writer, readers: seq<Reader>) returns (ppm: real)
    ensures IsCorrection(c, w, (set r | r in readers), ppm)
  {
    var fill: Option<nat> := None;
    ghost var least := -1;
    for i := 0 to |readers|
      invariant fill.None? ==> forall r :: r in readers[..i] ==> !Qualifies(r, w)
      invariant fill.Some? ==> 0 <= least < i && Qualifies(readers[least], w) && fill.value == Unread(readers[least], w)
      invariant fill.Some? ==> forall r :: r in readers[..i] && Qualifies(r, w) ==> fill.value <= Unread(r, w)
    {
      assert readers[..i + 1] == readers[..i] + [readers[i]];
      if Qualifies(readers[i], w) {
        var unread := Unread(readers[i], w);
        if fill.None? || unread < fill.value {
          fill, least := Some(unread), i;
        }
      }
    }
    assert readers[..|readers|] == readers;
    if fill.None? { return 0.0; }
    ppm := PpmFor(c, fill.value as real);
    assert readers[least] in readers;
  }

  /** The correction is a function of the readers' set: their order is irrelevant. */
  lemma CorrectionIsUnique(c: Config, w: Writer, readers: set<Reader>, a: real, b: real)
    requires IsCorrection(c, w, readers, a) && IsCorrection(c, w, readers, b)
    ensures a == b
  {
  }

  lemma PpmForFalls(c: Config, low: real, high: real)
    requires low <= high
    ensures -(c.maxPpm as real) <= PpmFor(c, high) <= PpmFor(c, low) <= c.maxPpm as real
  {
  }

  lemma OneMoreReader(c: Config, w: Writer, readers: set<Reader>, extra: Reader, ppm: real, more: real)
    requires IsCorrection(c, w, readers, ppm) && IsCorrection(c, w, readers + {extra}, more)
    requires Qualifies(extra, w) && exists r :: r in readers && Qualifies(r, w)
    ensures more >= ppm
  {
    hide PpmFor, Unread, Qualifies;
    var r :| r in readers && Qualifies(r, w) && ppm == PpmFor(c, Unread(r, w) as real)
      && forall s :: s in readers && Qualifies(s, w) ==> Unread(r, w) <= Unread(s, w);
    assert r in readers + {extra};
    var s :| s in readers + {extra} && Qualifies(s, w) && more == PpmFor(c, Unread(s, w) as real)
      && forall t :: t in readers + {extra} && Qualifies(t, w) ==> Unread(s, w) <= Unread(t, w);
    PpmForFalls(c, Unread(s, w) as real, Unread(r, w) as real);
  }

  /** Torn, retired, unprimed and out-of-epoch readers cannot bend the rate, and
      adding a qualified reader only ever lowers the deciding fill level. */
  lemma CorrectionIsBounded(c: Config, w: Writer, readers: set<Reader>, extra: Reader, ppm: real, more: real)
    requires IsCorrection(c, w, readers, ppm) && IsCorrection(c, w, readers + {extra}, more)
    ensures -(c.maxPpm as real) <= ppm <= c.maxPpm as real
    ensures !Qualifies(extra, w) ==> more == ppm
    ensures Qualifies(extra, w) && (exists r :: r in readers && Qualifies(r, w)) ==> more >= ppm
  {
    hide PpmFor, Unread, Qualifies;
    if r :| r in readers && Qualifies(r, w) && ppm == PpmFor(c, Unread(r, w) as real) {
      PpmForFalls(c, Unread(r, w) as real, Unread(r, w) as real);
    }
    if !Qualifies(extra, w) {
      assert IsCorrection(c, w, readers, more) by {
        assert forall r :: Qualifies(r, w) ==> (r in readers + {extra} <==> r in readers);
      }
      CorrectionIsUnique(c, w, readers, ppm, more);
    } else if exists r :: r in readers && Qualifies(r, w) {
      OneMoreReader(c, w, readers, extra, ppm, more);
    }
  }

  /** Feedback words in the order they are published. */
  function Decode(seen: Option<seq<int>>, asked: nat): Reader
  {
    if seen.None? || |seen.value| != 4 || seen.value[0] < 0 || seen.value[1] < 0 || seen.value[2] < 0
    then Reader(false, true, false, 0, 0, 0, asked)
    else Reader(true, false, seen.value[3] != 0, seen.value[1], seen.value[2], seen.value[0], asked)
  }

  function Decoded(seen: seq<Option<seq<int>>>, asked: seq<nat>): set<Reader>
    requires |seen| == |asked|
  {
    set i | 0 <= i < |seen| :: Decode(seen[i], asked[i])
  }

  /** What one observation is worth: a whole publication of that reader, and its
      latest one if the reader published nothing meanwhile and is not retired. */
  predicate SeenOk(before: VersionLock.Lock, now: VersionLock.Lock, seen: Option<seq<int>>)
  {
    && VersionLock.Later(before, now) && now.published != []
    && (seen.Some? ==> seen.value in now.published)
    && (VersionLock.Undisturbed(before, now) ==> seen == Some(now.published[|now.published| - 1]))
  }

  lemma SeenIsStable(before: VersionLock.Lock, mid: VersionLock.Lock, now: VersionLock.Lock, seen: Option<seq<int>>)
    requires SeenOk(before, mid, seen) && VersionLock.Later(mid, now)
    ensures SeenOk(before, now, seen)
  {
  }

  lemma ObservedIsSeen(before: VersionLock.Lock, start: VersionLock.Lock, lin: VersionLock.Published,
                       now: VersionLock.Published, seen: Option<seq<int>>)
    requires VersionLock.Later(before, start) && VersionLock.Later(start, lin) && VersionLock.Later(lin, now)
    requires seen.Some? ==> seen.value == lin.published[|lin.published| - 1] && !now.closed
    requires VersionLock.Undisturbed(start, now) ==> seen.Some?
    ensures SeenOk(before, now, seen)
  {
  }

  lemma LaterJoins(a: VersionLock.Lock, b: VersionLock.Lock, c: VersionLock.Lock)
    requires VersionLock.Later(a, b) && VersionLock.Later(b, c)
    ensures VersionLock.Later(a, c)
  {
  }

  lemma LaterItself(a: VersionLock.Lock)
    ensures VersionLock.Later(a, a)
  {
  }

  /** Observe every reader's feedback while the readers run, then decide. The gate
      is loaded again for each reader: `asked[k]` is what was found for reader k. */
  method CorrectionFromFeedback(c: Config, w: Writer, feedback: seq<VersionLock.SharedLock>, asked: seq<nat>)
    returns (ppm: real, ghost seen: seq<Option<seq<int>>>)
    requires |asked| == |feedback|
    modifies feedback
    ensures |seen| == |feedback|
    ensures forall i :: 0 <= i < |seen| ==> SeenOk(old(feedback[i].l), feedback[i].l, seen[i])
    ensures IsCorrection(c, w, Decoded(seen, asked), ppm)
  {
    hide VersionLock.Later, VersionLock.Undisturbed, SeenOk, Decode, Decoded, IsCorrection, VersionLock.Inv;
    var readers: seq<Reader> := [];
    seen := [];
    forall i | 0 <= i < |feedback| ensures VersionLock.Later(feedback[i].l, feedback[i].l) {
      LaterItself(feedback[i].l);
    }
    for k := 0 to |feedback|
      invariant |seen| == |readers| == k
      invariant forall i :: 0 <= i < k ==> readers[i] == Decode(seen[i], asked[i])
      invariant forall i :: 0 <= i < |feedback| ==> VersionLock.Later(old(feedback[i].l), feedback[i].l)
      invariant forall i :: 0 <= i < k ==> SeenOk(old(feedback[i].l), feedback[i].l, seen[i])
    {
      label Before:
      ghost var start := feedback[k].l;
      var words, lin := feedback[k].Observe();
      ObservedIsSeen(old(feedback[k].l), start, lin, feedback[k].l, words);
      LaterJoins(start, lin, feedback[k].l);
      forall i | 0 <= i < |feedback|
        ensures VersionLock.Later(old(feedback[i].l), feedback[i].l)
        ensures i < k ==> SeenOk(old(feedback[i].l), feedback[i].l, seen[i])
      {
        if feedback[i] == feedback[k] {
          LaterJoins(old(feedback[i].l), old@Before(feedback[i].l), feedback[i].l);
          if i < k { SeenIsStable(old(feedback[i].l), old@Before(feedback[i].l), feedback[i].l, seen[i]); }
        }
      }
      seen, readers := seen + [words], readers + [Decode(words, asked[k])];
    }
    ppm := CorrectionPpm(c, w, readers);
    DecodedReaders(readers, seen, asked);
  }

  lemma DecodedReaders(readers: seq<Reader>, seen: seq<Option<seq<int>>>, asked: seq<nat>)
    requires |readers| == |seen| == |asked|
    requires forall i :: 0 <= i < |seen| ==> readers[i] == Decode(seen[i], asked[i])
    ensures (set r | r in readers) == Decoded(seen, asked)
  {
    forall r | r in readers ensures r in Decoded(seen, asked) {
      var i :| 0 <= i < |readers| && readers[i] == r;
      assert seen[i] in seen;
    }
    forall r | r in Decoded(seen, asked) ensures r in readers {
      var i :| 0 <= i < |seen| && Decode(seen[i], asked[i]) == r;
      assert readers[i] in readers;
    }
  }

  // ----- the loop the correction closes -----

  /** Frames an ideal converter emits for one 10 ms quantum of a source whose
      clock is off by `sourcePpm`, at a correction of `ppm`. */
  function Emitted(sourcePpm: real, ppm: real): real
  {
    480.0 * (1.0 + sourcePpm * 0.000001) * (1.0 + ppm * 0.000001)
  }

  /** Fill after the next quantum is written and one block is read. `level` is
      the fill with the converter's fraction of a frame; the servo sees whole frames. */
  function NextLevel(c: Config, sourcePpm: real, level: real): real
  {
    level + Emitted(sourcePpm, PpmFor(c, level.Floor as real)) - 480.0
  }

  function Levels(c: Config, level: real, source: seq<real>): real
    decreases |source|
  {
    if source == [] then level else Levels(c, NextLevel(c, source[0], level), source[1..])
  }

  /** `x` is where the loop settles for a constant source error. */
  predicate IsFixedPoint(c: Config, sourcePpm: real, x: real)
  {
    Emitted(sourcePpm, PpmFor(c, x)) == 480.0
  }

  predicate Sane(c: Config, sourcePpm: real)
  {
    c.maxPpm <= 2000 && -100000.0 <= sourcePpm <= 100000.0
  }

  /** More fill means less output, but by less than the difference in fill. */
  lemma ServoIsGentle(c: Config, sourcePpm: real, x: real, y: real)
    requires Sane(c, sourcePpm) && x <= y
    ensures 0.0 <= Emitted(sourcePpm, PpmFor(c, x)) - Emitted(sourcePpm, PpmFor(c, y)) <= y - x
  {
    var a, d := 1.0 + sourcePpm * 0.000001, PpmFor(c, x) - PpmFor(c, y);
    assert 0.0 <= d <= 0.25 * (y - x);
    NonNegative(a, d);
    NonNegative(2.0 - a, d);
    assert (2.0 - a) * d == 2.0 * d - a * d;
    assert Emitted(sourcePpm, PpmFor(c, x)) - Emitted(sourcePpm, PpmFor(c, y)) == 480.0 * 0.000001 * (a * d);
  }

  lemma NonNegative(a: real, b: real)
    requires a >= 0.0 && b >= 0.0
    ensures a * b >= 0.0
  {
  }

  /** A faster source yields more output at the same correction. */
  lemma FasterSourceEmitsMore(c: Config, slow: real, fast: real, fill: real)
    requires Sane(c, slow) && Sane(c, fast) && slow <= fast
    ensures Emitted(slow, PpmFor(c, fill)) <= Emitted(fast, PpmFor(c, fill))
  {
    var b, d := 1.0 + PpmFor(c, fill) * 0.000001, (fast - slow) * 0.000001;
    NonNegative(b, d);
    assert Emitted(fast, PpmFor(c, fill)) - Emitted(slow, PpmFor(c, fill)) == 480.0 * (b * d);
  }

  /** Constant source error, exact levels: each quantum moves towards the fixed
      point and never past it, so the distance to it never grows. */
  lemma DistanceNeverGrows(c: Config, sourcePpm: real, x: real, settle: real)
    requires Sane(c, sourcePpm) && IsFixedPoint(c, sourcePpm, settle)
    ensures var next := x + Emitted(sourcePpm, PpmFor(c, x)) - 480.0;
            if x <= settle then x <= next <= settle else settle <= next <= x
  {
    if x <= settle {
      ServoIsGentle(c, sourcePpm, x, settle);
    } else {
      ServoIsGentle(c, sourcePpm, settle, x);
    }
  }

  /** Any source error within the band, whole frames: one quantum cannot leave
      the band between the two extreme fixed points, nor move further from it. */
  lemma BandIsKept(c: Config, bound: real, sourcePpm: real, lo: real, hi: real, level: real, low: real, high: real)
    requires Sane(c, bound) && Sane(c, -bound) && -bound <= sourcePpm <= bound
    requires IsFixedPoint(c, -bound, lo) && IsFixedPoint(c, bound, hi)
    requires low <= level <= high && low <= lo && hi + 1.0 <= high
    ensures low <= NextLevel(c, sourcePpm, level) <= high
  {
    var fill := level.Floor as real;
    FasterSourceEmitsMore(c, -bound, sourcePpm, fill);
    FasterSourceEmitsMore(c, sourcePpm, bound, fill);
    DistanceNeverGrows(c, bound, fill, hi);
    DistanceNeverGrows(c, -bound, fill, lo);
  }

  lemma {:induction false} BandIsKeptForever(c: Config, bound: real, source: seq<real>, lo: real, hi: real,
                                             level: real, low: real, high: real)
    requires Sane(c, bound) && Sane(c, -bound)
    requires forall i :: 0 <= i < |source| ==> -bound <= source[i] <= bound
    requires IsFixedPoint(c, -bound, lo) && IsFixedPoint(c, bound, hi)
    requires low <= level <= high && low <= lo && hi + 1.0 <= high
    ensures low <= Levels(c, level, source) <= high
    decreases |source|
  {
    if source != [] {
      BandIsKept(c, bound, source[0], lo, hi, level, low, high);
      BandIsKeptForever(c, bound, source[1..], lo, hi, NextLevel(c, source[0], level), low, high);
    }
  }

  /** The correction that would cancel a source error exactly. */
  function Cancelling(sourcePpm: real): real
    requires sourcePpm > -1000000.0
  {
    -sourcePpm / (1.0 + sourcePpm * 0.000001)
  }

  /** A constant source error has a fixed point exactly when the clamp lets the
      cancelling correction through. */
  lemma FixedPointExists(c: Config, sourcePpm: real)
    requires Sane(c, sourcePpm)
    ensures (exists x :: IsFixedPoint(c, sourcePpm, x))
       <==> -(c.maxPpm as real) <= Cancelling(sourcePpm) <= c.maxPpm as real
    ensures -(c.maxPpm as real) <= Cancelling(sourcePpm) <= c.maxPpm as real ==>
              IsFixedPoint(c, sourcePpm, Target(c) as real - 4.0 * Cancelling(sourcePpm))
  {
    var a, q := 1.0 + sourcePpm * 0.000001, Cancelling(sourcePpm);
    assert q * a == -sourcePpm;
    assert Emitted(sourcePpm, q) == 480.0 * (a + (q * a) * 0.000001);
    var settle := Target(c) as real - 4.0 * q;
    if -(c.maxPpm as real) <= q <= c.maxPpm as real {
      assert PpmFor(c, settle) == q;
      assert IsFixedPoint(c, sourcePpm, settle);
    }
    forall x | IsFixedPoint(c, sourcePpm, x)
      ensures PpmFor(c, x) == q
    {
      var k := PpmFor(c, x);
      assert Emitted(sourcePpm, k) - Emitted(sourcePpm, q) == 480.0 * 0.000001 * (a * (k - q));
      assert a * (k - q) == 0.0;
    }
  }

  function Constant(sourcePpm: real, n: nat): seq<real> { seq(n, _ => sourcePpm) }

  /** Otherwise the level drifts by at least a fixed amount each quantum. */
  lemma LevelDrifts(c: Config, sourcePpm: real, n: nat, level: real)
    requires Sane(c, sourcePpm)
    ensures Cancelling(sourcePpm) < -(c.maxPpm as real) ==>
              var drift := Emitted(sourcePpm, -(c.maxPpm as real)) - 480.0;
              drift > 0.0 && Levels(c, level, Constant(sourcePpm, n)) >= level + n as real * drift
    ensures Cancelling(sourcePpm) > c.maxPpm as real ==>
              var drift := 480.0 - Emitted(sourcePpm, c.maxPpm as real);
              drift > 0.0 && Levels(c, level, Constant(sourcePpm, n)) <= level - n as real * drift
  {
    hide Emitted, Levels;
    CancellingCancels(c, sourcePpm);
    StepBounds(c, sourcePpm);
    var least, most := Emitted(sourcePpm, -(c.maxPpm as real)) - 480.0, Emitted(sourcePpm, c.maxPpm as real) - 480.0;
    LevelMoves(c, sourcePpm, n, level, least, most);
    assert n as real * most == -(n as real * -most);
  }

  lemma StepBounds(c: Config, sourcePpm: real)
    requires Sane(c, sourcePpm)
    ensures forall x: real :: x + (Emitted(sourcePpm, -(c.maxPpm as real)) - 480.0) <= NextLevel(c, sourcePpm, x)
                           <= x + (Emitted(sourcePpm, c.maxPpm as real) - 480.0)
  {
    hide Emitted;
    forall x: real
      ensures x + (Emitted(sourcePpm, -(c.maxPpm as real)) - 480.0) <= NextLevel(c, sourcePpm, x)
           <= x + (Emitted(sourcePpm, c.maxPpm as real) - 480.0)
    {
      CorrectionOrders(c, sourcePpm, x.Floor as real);
    }
  }

  lemma {:induction false} LevelMoves(c: Config, sourcePpm: real, n: nat, level: real, least: real, most: real)
    requires forall x: real :: x + least <= NextLevel(c, sourcePpm, x) <= x + most
    ensures level + n as real * least <= Levels(c, level, Constant(sourcePpm, n)) <= level + n as real * most
    decreases n
  {
    hide NextLevel;
    if n > 0 {
      assert Constant(sourcePpm, n)[1..] == Constant(sourcePpm, n - 1);
      LevelMoves(c, sourcePpm, n - 1, NextLevel(c, sourcePpm, level), least, most);
      OneMore(n, least);
      OneMore(n, most);
    }
  }

  lemma OneMore(n: nat, x: real)
    requires n > 0
    ensures n as real * x == (n - 1) as real * x + x
  {
  }

  lemma CancellingCancels(c: Config, sourcePpm: real)
    requires Sane(c, sourcePpm)
    ensures Cancelling(sourcePpm) < -(c.maxPpm as real) ==> Emitted(sourcePpm, -(c.maxPpm as real)) > 480.0
    ensures Cancelling(sourcePpm) > c.maxPpm as real ==> Emitted(sourcePpm, c.maxPpm as real) < 480.0
  {
    var a, q, m := 1.0 + sourcePpm * 0.000001, Cancelling(sourcePpm), c.maxPpm as real;
    assert q * a == -sourcePpm;
    if q < -m {
      assert (-m - q) * a > 0.0;
      assert Emitted(sourcePpm, -m) == 480.0 + 480.0 * 0.000001 * ((-m - q) * a);
    }
    if q > m {
      assert (q - m) * a > 0.0;
      assert Emitted(sourcePpm, m) == 480.0 - 480.0 * 0.000001 * ((q - m) * a);
    }
  }

  lemma CorrectionOrders(c: Config, sourcePpm: real, fill: real)
    requires Sane(c, sourcePpm)
    ensures Emitted(sourcePpm, -(c.maxPpm as real)) <= Emitted(sourcePpm, PpmFor(c, fill))
         <= Emitted(sourcePpm, c.maxPpm as real)
  {
    var a, k, m := 1.0 + sourcePpm * 0.000001, PpmFor(c, fill), c.maxPpm as real;
    NonNegative(k + m, a);
    NonNegative(m - k, a);
    assert Emitted(sourcePpm, k) - Emitted(sourcePpm, -m) == 480.0 * 0.000001 * ((k + m) * a);
    assert Emitted(sourcePpm, m) - Emitted(sourcePpm, k) == 480.0 * 0.000001 * ((m - k) * a);
  }

  /** The default bus, any source that stays within 200 ppm, for any length of
      time: after the prebuffer the level neither runs out nor outgrows the ring. */
  lemma DefaultBusNeverRunsDry(source: seq<real>, level: real)
    requires forall i :: 0 <= i < |source| ==> -200.0 <= source[i] <= 200.0
    requires 1920.0 <= level <= 2402.0
    ensures 1119.0 <= Levels(Config(96000, 2400, 500), level, source) <= 2721.0
  {
    var c := Config(96000, 2400, 500);
    FixedPointExists(c, 200.0);
    FixedPointExists(c, -200.0);
    var lo, hi := 1920.0 - 4.0 * Cancelling(-200.0), 1920.0 - 4.0 * Cancelling(200.0);
    BandIsKeptForever(c, 200.0, source, lo, hi, level, 1119.0, 2721.0);
  }
}
