/** Any number of reads by one reader, with any interference before, between and
    during them. */
module BusRun {
  import opened Prelude
  import opened BusModel
  import opened BusProof
  import opened BusAccess
  import opened BusReader

  /** Frames that reads of one epoch reported as copied, and as dropped. */
  function TotalCopied(results: seq<PcmRead>, epoch: nat): nat
  {
    if results == [] then 0
    else
      var last := results[|results| - 1];
      TotalCopied(results[..|results| - 1], epoch) + if last.epoch == epoch then last.copied else 0
  }

  function TotalDropped(results: seq<PcmRead>, epoch: nat): nat
  {
    if results == [] then 0
    else
      var last := results[|results| - 1];
      TotalDropped(results[..|results| - 1], epoch) + if last.epoch == epoch then last.dropped else 0
  }

  lemma {:induction false} NoReadsOfLaterEpochs(results: seq<PcmRead>, epoch: nat)
    requires forall i :: 0 <= i < |results| ==> results[i].epoch < epoch
    ensures TotalCopied(results, epoch) == TotalDropped(results, epoch) == 0
  {
    if results != [] { NoReadsOfLaterEpochs(results[..|results| - 1], epoch); }
  }

  lemma OneReadMore(results: seq<PcmRead>, read: PcmRead, epoch: nat)
    ensures TotalCopied(results + [read], epoch)
         == TotalCopied(results, epoch) + if read.epoch == epoch then read.copied else 0
    ensures TotalDropped(results + [read], epoch)
         == TotalDropped(results, epoch) + if read.epoch == epoch then read.dropped else 0
  {
    assert (results + [read])[..|results|] == results;
  }

  /** The books now against the books when the reads began: as long as the epoch is
      the same they continue, a new epoch has new books from its reset point, and
      either way the totals are those the reads reported. */
  ghost predicate Tallied(m: Bus, epoch0: nat, books0: Account, results: seq<PcmRead>, epoch: nat, books: Account)
  {
    && epoch0 <= epoch
    && (forall i :: 0 <= i < |results| ==> results[i].epoch <= epoch)
    && books.copied == (if epoch == epoch0 then books0.copied else 0) + TotalCopied(results, epoch)
    && books.dropped == (if epoch == epoch0 then books0.dropped else 0) + TotalDropped(results, epoch)
    && (epoch == epoch0 ==> books.base == books0.base && books0.history <= books.history)
    && (epoch != epoch0 && m.control == epoch ==> Even(epoch) && books.base == m.resetSeq)
  }

  lemma OneReadTallies(b: Ring, m: Ring, epoch0: nat, books0: Account, results: seq<PcmRead>, epoch: nat,
                       books: Account, read: PcmRead, t: Trace)
    requires Tallied(b, epoch0, books0, results, epoch, books) && epoch <= b.control && Later(b, m)
    requires read.epoch == if t.loaded && t.passed then t.header.epoch else 0
    requires read.epoch == 0 ==> read.copied == read.dropped == 0
    requires t.loaded ==> HeaderSince(t.header, b, m)
    ensures Tallied(m, epoch0, books0, results + [read], if t.loaded then t.header.epoch else epoch,
                    Booked(epoch, books, read, t))
  {
    hide Inv, SlotLater;
    var next := if t.loaded then t.header.epoch else epoch;
    OneReadMore(results, read, next);
    if next != epoch { NoReadsOfLaterEpochs(results, next); }
  }

  /** One reader, as many reads as there are requests. While the stream is untimed
      and in its epoch, what the reads of the epoch reported as copied and as
      dropped, and what is still unread, is everything pushed since the reader's
      place in the epoch: where it stood before these results, or the epoch's start. */
  method ReadMany(reader: PcmReader, bus: SharedBus, out: array<Stereo>, requests: seq<Option<Request>>)
    returns (results: seq<PcmRead>)
    requires reader.Valid(bus.m) && reader.Telling(bus.m)
    modifies reader, bus, out, reader.feedback`l
    ensures reader.Valid(bus.m) && reader.Telling(bus.m)
    ensures Later(old(bus.m), bus.m) && |results| == |requests|
    ensures Tallied(bus.m, old(reader.epoch), old(reader.account), results, reader.epoch, reader.account)
    ensures reader.epoch == bus.m.control && Even(reader.epoch) && !bus.m.timed ==>
      var start := if old(reader.epoch) == reader.epoch then old(reader.cursor) else bus.m.resetSeq;
      && start <= reader.cursor <= bus.m.head
      && TotalCopied(results, reader.epoch) + TotalDropped(results, reader.epoch) + (bus.m.head - reader.cursor)
         == bus.m.head - start
  {
    hide Inv, Later, AccountOk, Tallied, ReadOk, Booked, StateAfter, HeaderSince, Interrupted, Told, Announced;
    LaterReflexive(bus.m);
    results := [];
    NothingTallied(bus.m, reader.epoch, reader.account);
    BooksAreOfThePast(bus.m, reader.epoch, reader.account);
    for k := 0 to |requests|
      invariant reader.Valid(bus.m) && reader.Telling(bus.m) && Later(old(bus.m), bus.m) && |results| == k
      invariant Tallied(bus.m, old(reader.epoch), old(reader.account), results, reader.epoch, reader.account)
    {
      ghost var before, epoch, books, was := bus.m, reader.epoch, reader.account, reader.State();
      var read;
      ghost var lin, t;
      read, lin, t := reader.ReadFrames(bus, out, requests[k]);
      EpochAfter(was, read.copied, t, requests[k], out.Length);
      LaterTransitive(before, lin, bus.m);
      LaterTransitive(old(bus.m), before, bus.m);
      BooksAreOfThePast(before, epoch, books);
      OneReadTallies(before, bus.m, old(reader.epoch), old(reader.account), results, epoch, books, read, t);
      results := results + [read];
    }
    if reader.epoch == bus.m.control && Even(reader.epoch) && !bus.m.timed {
      RunIsConserved(bus.m, old(reader.epoch), old(reader.account), results, reader.epoch, reader.account);
    }
  }

  lemma EpochAfter(was: ReaderState, copied: nat, t: Trace, request: Option<Request>, n: nat)
    ensures StateAfter(was, copied, t, request, n).epoch == if t.loaded then t.header.epoch else was.epoch
  {
  }

  lemma BooksAreOfThePast(m: Bus, epoch: nat, books: Account)
    requires AccountOk(m, epoch, books)
    ensures epoch <= m.control && CountsOk(books.history, books.copied, books.dropped, books.late)
  {
  }

  lemma NothingTallied(m: Bus, epoch: nat, books: Account)
    ensures Tallied(m, epoch, books, [], epoch, books)
  {
  }

  lemma PrefixHasNoOtherFates(some: seq<Fate>, all: seq<Fate>)
    requires some <= all && OnlyCopiedOrDropped(all)
    ensures OnlyCopiedOrDropped(some)
  {
    forall i | 0 <= i < |some| ensures some[i] == Delivered || some[i] == Dropped {
      assert some[i] == all[i];
    }
  }

  /** Conservation over the reads of a run. */
  lemma RunIsConserved(m: Ring, epoch0: nat, books0: Account, results: seq<PcmRead>, epoch: nat, books: Account)
    requires Tallied(m, epoch0, books0, results, epoch, books)
    requires AccountOk(m, epoch, books) && CountsOk(books0.history, books0.copied, books0.dropped, books0.late)
    requires epoch == m.control && Even(epoch) && !m.timed
    ensures
      var start := if epoch0 == epoch then books0.End() else m.resetSeq;
      && start <= books.End() <= m.head
      && TotalCopied(results, epoch) + TotalDropped(results, epoch) + (m.head - books.End()) == m.head - start
  {
    hide Inv;
    FramesAreConserved(m, epoch, books);
    if epoch0 == epoch {
      PrefixHasNoOtherFates(books0.history, books.history);
      FatesAddUp(books0.history);
      NoOtherFates(books0.history);
    }
  }
}
