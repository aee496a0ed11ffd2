/** From a reader's fields to the clock correction: what a read publishes is what
    the writer decodes, and the fill level it yields is one of the ring. */
module BusFeedback {
  import opened Prelude
  import opened BusModel
  import opened BusProof
  import opened BusReader
  import VersionLock
  import ClockServo

  /** The writer's own state, as the thread with the mutex has it. */
  function OwnState(m: Bus): ClockServo.Writer { ClockServo.Writer(m.nextSeq, m.floor, m.epoch, m.stateTimed) }

  /** Once a read has published, the writer decodes the reader's very fields, as
      long as the reader publishes nothing else meanwhile. */
  lemma WriterSeesTheReader(was: VersionLock.Lock, before: VersionLock.Published, now: VersionLock.Lock,
                            s: ReaderState, seen: Option<seq<int>>, asked: nat)
    requires Announced(was, before, s) && was.version + 2 <= U64_MAX
    requires ClockServo.SeenOk(before, now, seen) && VersionLock.Undisturbed(before, now)
    ensures ClockServo.Decode(seen, asked) == ClockServo.Reader(true, false, s.primed, s.epoch, s.gate, s.cursor, asked)
  {
    assert now.published == before.published;
    assert seen.value == Words(s);
  }

  /** The frames of the ring still to be played by a reader that published `words`. */
  function LeftFor(words: seq<int>, m: Bus): int
    requires |words| == 4
  {
    m.head - Max(words[0], m.floor)
  }

  /** The publication of a reader that plays the running epoch under the gate asked for. */
  predicate PlaysOn(words: seq<int>, m: Bus, asked: nat)
  {
    |words| == 4 && words[1] == m.epoch && words[3] == 1 && (m.stateTimed ==> words[2] == asked)
  }

  lemma PlaysOnQualifies(l: VersionLock.Lock, m: Ring, seen: Option<seq<int>>, asked: nat)
    requires Told(l, m) && m.writer.Idle? && (seen.Some? ==> seen.value in l.published)
    ensures ClockServo.Qualifies(ClockServo.Decode(seen, asked), OwnState(m))
       <==> seen.Some? && PlaysOn(seen.value, m, asked)
    ensures seen.Some? && PlaysOn(seen.value, m, asked) ==>
              0 <= ClockServo.Unread(ClockServo.Decode(seen, asked), OwnState(m)) == LeftFor(seen.value, m) <= |m.slots|
  {
    hide LogInv, EpochInv, EpochFramesOk, WriterInv;
  }

  /** The correction is that of the reader, among those whose publication shows them
      playing the running epoch, with the fewest frames of the ring left to play; it
      is zero when there is none. */
  lemma CorrectionIsOfTheRing(c: ClockServo.Config, m: Ring, locks: seq<VersionLock.Lock>,
                              seen: seq<Option<seq<int>>>, asked: seq<nat>, ppm: real)
    requires |locks| == |seen| == |asked| && m.writer.Idle?
    requires forall i :: 0 <= i < |locks| ==> Told(locks[i], m)
    requires forall i :: 0 <= i < |locks| && seen[i].Some? ==> seen[i].value in locks[i].published
    requires ClockServo.IsCorrection(c, OwnState(m), ClockServo.Decoded(seen, asked), ppm)
    ensures
      if forall i :: 0 <= i < |seen| && seen[i].Some? ==> !PlaysOn(seen[i].value, m, asked[i]) then ppm == 0.0
      else exists i ::
        && 0 <= i < |seen| && seen[i].Some? && PlaysOn(seen[i].value, m, asked[i])
        && 0 <= LeftFor(seen[i].value, m) <= |m.slots|
        && ppm == ClockServo.PpmFor(c, LeftFor(seen[i].value, m) as real)
        && forall j :: 0 <= j < |seen| && seen[j].Some? && PlaysOn(seen[j].value, m, asked[j]) ==>
             LeftFor(seen[i].value, m) <= LeftFor(seen[j].value, m)
  {
    hide Inv, Told, LeftFor, ClockServo.Decode, ClockServo.Qualifies, ClockServo.PpmFor, ClockServo.Unread;
    var readers := ClockServo.Decoded(seen, asked);
    forall i | 0 <= i < |seen|
      ensures ClockServo.Qualifies(ClockServo.Decode(seen[i], asked[i]), OwnState(m))
         <==> seen[i].Some? && PlaysOn(seen[i].value, m, asked[i])
      ensures seen[i].Some? && PlaysOn(seen[i].value, m, asked[i]) ==>
                0 <= ClockServo.Unread(ClockServo.Decode(seen[i], asked[i]), OwnState(m)) == LeftFor(seen[i].value, m)
                  <= |m.slots|
      ensures ClockServo.Decode(seen[i], asked[i]) in readers
    {
      PlaysOnQualifies(locks[i], m, seen[i], asked[i]);
    }
    if exists r :: r in readers && ClockServo.Qualifies(r, OwnState(m)) {
      var r :| r in readers && ClockServo.Qualifies(r, OwnState(m))
        && ppm == ClockServo.PpmFor(c, ClockServo.Unread(r, OwnState(m)) as real)
        && forall s :: s in readers && ClockServo.Qualifies(s, OwnState(m)) ==>
             ClockServo.Unread(r, OwnState(m)) <= ClockServo.Unread(s, OwnState(m));
      var i :| 0 <= i < |seen| && r == ClockServo.Decode(seen[i], asked[i]);
      assert seen[i].Some? && PlaysOn(seen[i].value, m, asked[i]);
    }
  }
}
