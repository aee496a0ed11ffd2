/** The two ways a frame is passed without entering a counter. */
module BusUncounted {
  import opened Prelude
  import opened BusModel
  import opened BusProof
  import opened BusAccess
  import opened BusReader

  /** A frame that is still in the ring at the final check of a read that passes was
      passed as a stray exactly when the stream is timed and the frame carries no
      gate, as the frames of an untimed push do. */
  lemma StraysAreTheUntimedFrames(lin: Ring, end: Bus, read: PcmRead, out: seq<Stereo>, t: Trace, s: ReaderState,
                                  request: Option<Request>, prebuffer: nat, i: nat)
    requires ReadOk(lin, end, read, out, t, s, request, prebuffer)
    requires i < |t.Fates()| && lin.floor <= t.from + i
    ensures t.from + i < |lin.log|
    ensures t.Fates()[i] == Stray <==> lin.timed && lin.log[t.from + i].data.gate == 0
  {
    hide Inv, StartOk, FillOk, Played, CountsOk;
    assert ReadFate(lin, read, t.from + i, t.Fates()[i]);
  }

  /** Another output announces its gate after a read has gathered its frames. On a
      timed stream the read is voided: it reports nothing, and every frame it had
      passed, delivered ones included, is in no counter and is never read again. */
  method GateChangeVoids(reader: PcmReader, bus: SharedBus, out: array<Stereo>, h: Header, request: Option<Request>,
                         other: nat, ghost books: Account)
    returns (read: PcmRead, ghost t: Trace)
    requires HeaderOk(h, bus.m) && Silent(out[..]) && reader.epoch == h.epoch && GateQuiet(bus.schedule)
    requires AccountOk(bus.m, h.epoch, books) && h.reset <= books.base && reader.cursor == books.End() <= h.head
    requires h.timed && other != h.gate
    modifies reader, bus, out
    ensures reader.Valid(bus.m) && FillOk(t, out.Length) && t.header == h && t.from == old(reader.cursor)
    ensures !t.passed && read == PcmRead(0, out.Length, 0, 0, read.sessionId, 0) && Silent(out[..])
    ensures reader.account == Account(books.base, books.history + Repeat(Voided, |t.Fates()|),
                                      books.copied, books.dropped, books.late)
    ensures reader.cursor == t.from + |t.Fates()|
  {
    hide Inv, Later, AccountOk, Collected, HeaderOk, StartOk, Silent, ReadOk, StaysPrimed, Played, GateQuiet;
    ghost var loaded, s := bus.m, reader.State();
    var copied, dropped, late;
    ghost var g, lin;
    copied, dropped, late, g := reader.Gather(bus, out, h, request);
    ghost var gathered := bus.m;
    bus.SetRequiredGate(other);
    read, lin, t := reader.Conclude(bus, out, h, request, copied, dropped, late, loaded, gathered, s, books, g);
  }
}
