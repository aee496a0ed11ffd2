/** The versioned words by which one thread publishes several values at once:
    reader feedback (cursor, epoch, gate, primed) and output timing (epoch,
    delay, time of update, estimated). Every access is one step. */
module VersionLock {
  import opened Prelude

  datatype Publisher =
    | Quiet
    | Publishing(next: seq<int>, stage: nat)

  /** `closed` is the reader's retired flag, or the odd version by which output
      timing gives up. `published` is an auxiliary history, oldest first,
      starting with the initial words. */
  datatype Lock = Lock(version: nat, words: seq<int>, closed: bool, publisher: Publisher,
                       published: seq<seq<int>>)

  datatype Action = Start(words: seq<int>) | Store | Close

  function NewLock(words: seq<int>): Lock { Lock(0, words, false, Quiet, [words]) }

  /** Publishing that would run out of versions closes the lock instead. */
  function Step(l: Lock, a: Action): Lock
    requires Inv(l)
  {
    match a
    case Start(words) =>
      if !l.publisher.Quiet? || |words| != |l.words| then l
      else if l.version + 2 > U64_MAX then l.(closed := true)
      else l.(publisher := Publishing(words, 0))
    case Close => l.(closed := true)
    case Store =>
      if l.publisher.Quiet? then l
      else
        var next, stage := l.publisher.next, l.publisher.stage;
        if stage == 0 then l.(version := l.version + 1, publisher := Publishing(next, 1))
        else if stage <= |l.words| then
          l.(words := l.words[stage - 1 := next[stage - 1]], publisher := Publishing(next, stage + 1))
        else l.(version := l.version + 1, publisher := Quiet, published := l.published + [next])
  }

  predicate Inv(l: Lock)
  {
    && |l.published| > 0
    && l.version <= U64_MAX
    && (l.publisher.Publishing? ==>
          && |l.publisher.next| == |l.words|
          && l.publisher.stage <= |l.words| + 1
          && l.version + 2 <= U64_MAX + (if l.publisher.stage == 0 then 0 else 1)
          && forall k :: 0 <= k < l.publisher.stage - 1 ==> l.words[k] == l.publisher.next[k])
    && if l.publisher.Publishing? && l.publisher.stage > 0
       then l.version == 2 * |l.published| - 1
       else l.version == 2 * |l.published| - 2 && l.words == l.published[|l.published| - 1]
  }

  predicate Later(l: Lock, k: Lock)
  {
    && |k.words| == |l.words|
    && l.version <= k.version && l.published <= k.published && (l.closed ==> k.closed)
    && (l.version == k.version && l.version % 2 == 0 ==> k.words == l.words && k.published == l.published)
  }

  /** Nothing was being published from one moment to the other, and the lock is open. */
  predicate Undisturbed(l: Lock, k: Lock) { l.version % 2 == 0 && k.version == l.version && !k.closed }

  lemma StepKeepsInv(l: Lock, a: Action)
    requires Inv(l)
    ensures Inv(Step(l, a)) && Later(l, Step(l, a))
  {
  }

  type Published = l: Lock | Inv(l) witness NewLock([])

  function Run(l: Published, steps: seq<Action>): (k: Published)
    ensures Later(l, k)
    decreases |steps|
  {
    if steps == [] then l
    else
      StepKeepsInv(l, steps[0]);
      Run(Step(l, steps[0]), steps[1..])
  }

  /** The lock as an observer meets it: the publisher runs between any two accesses. */
  class SharedLock {
    var l: Published
    var schedule: seq<seq<Action>>

    constructor (words: seq<int>, schedule: seq<seq<Action>>)
      ensures l == NewLock(words) && this.schedule == schedule
    {
      l := NewLock(words);
      this.schedule := schedule;
    }

    method Yield()
      modifies this
      ensures Later(old(l), l)
    {
      if schedule != [] {
        l, schedule := Run(l, schedule[0]), schedule[1..];
      } else {
        l := Run(l, []);
      }
    }

    /** Load version, words, version, closed. A result is the whole of the
        publication that was the latest when the version was checked, however
        the publisher's stores fell between the loads; and there is one whenever
        no publication was under way and the lock stayed open. */
    method Observe() returns (seen: Option<seq<int>>, ghost lin: Published)
      modifies this
      ensures Later(old(l), lin) && Later(lin, l)
      ensures seen.Some? ==> seen.value == lin.published[|lin.published| - 1] && !l.closed
      ensures Undisturbed(old(l), l) ==> seen.Some?
    {
      ghost var start := l;
      Yield();
      ghost var first := l;
      var version := l.version;
      lin := l;
      if version % 2 != 0 { return None, lin; }
      var words: seq<int> := [];
      for k := 0 to |l.words|
        invariant |words| == k && Later(start, first) && Later(first, l) && |l.words| == |first.words|
        invariant forall i :: 0 <= i < k ==> l.version == version ==> words[i] == first.words[i]
      {
        Yield();
        words := words + [l.words[k]];
      }
      Yield();
      lin := l;
      if l.version != version { return None, lin; }
      assert words == first.words;
      Yield();
      seen := if l.closed then None else Some(words);
    }

    /** Publish all words, one store each; with no version left, close. */
    method Publish(words: seq<int>)
      requires l.publisher.Quiet? && |words| == |l.words|
      modifies this`l
      ensures l.publisher.Quiet? && Later(old(l), l)
      ensures if old(l).version + 2 <= U64_MAX then l.published == old(l).published + [words] && l.words == words
              else l == old(l).(closed := true)
      ensures l == Run(old(l), [Start(words)] + Stores(|words| + 2))
    {
      ghost var first := l;
      PublicationIsItsStores(l, words);
      if l.version + 2 > U64_MAX {
        l := l.(closed := true);
        return;
      }
      l := l.(version := l.version + 1, publisher := Publishing(words, 1));
      for k := 0 to |words|
        invariant l == Lock(first.version + 1, l.words, first.closed, Publishing(words, k + 1), first.published)
        invariant |l.words| == |words| && l.words[..k] == words[..k]
      {
        l := l.(words := l.words[k := words[k]], publisher := Publishing(words, k + 2));
      }
      l := l.(version := l.version + 1, publisher := Quiet, published := l.published + [words]);
    }
  }

  /** That many stores of the publisher, with nothing else in between. */
  function Stores(n: nat): (s: seq<Action>)
    ensures |s| == n
  {
    if n == 0 then [] else [Store] + Stores(n - 1)
  }

  /** From the k-th word on, the remaining stores complete the publication. */
  lemma {:induction false} StoresComplete(l: Published, words: seq<int>, k: nat)
    requires l.publisher == Publishing(words, k + 1) && k <= |words|
    ensures
      Run(l, Stores(|words| - k + 1))
      == Lock(l.version + 1, words, l.closed, Quiet, l.published + [words])
    decreases |words| - k
  {
    var r := Step(l, Store);
    assert Stores(|words| - k + 1) == [Store] + Stores(|words| - k);
    if k == |words| {
      assert l.words == words;
      assert Run(r, []) == r;
    } else {
      StepKeepsInv(l, Store);
      StoresComplete(r, words, k + 1);
    }
  }

  /** What a publication comes to, as the machine steps it: with two versions left
      below 2^64 the words are there after one store each and two of the version, under
      the next even version; otherwise the lock closes and nothing else happens. */
  lemma PublicationIsItsStores(l: Published, words: seq<int>)
    requires l.publisher.Quiet? && |words| == |l.words|
    ensures
      var r := Run(l, [Start(words)] + Stores(|words| + 2));
      if l.version <= 0xFFFF_FFFF_FFFF_FFFD
      then r == Lock(l.version + 2, words, l.closed, Quiet, l.published + [words])
      else r == l.(closed := true)
  {
    StepKeepsInv(l, Start(words));
    var started := Step(l, Start(words));
    if l.version <= 0xFFFF_FFFF_FFFF_FFFD {
      var odd := Step(started, Store);
      StepKeepsInv(started, Store);
      StoresComplete(odd, words, 0);
      assert Stores(|words| + 2) == [Store] + Stores(|words| + 1);
    } else {
      QuietStays(started, |words| + 2);
    }
  }

  lemma {:induction false} QuietStays(l: Published, n: nat)
    requires l.publisher.Quiet?
    ensures Run(l, Stores(n)) == l
  {
    if n > 0 {
      assert Step(l, Store) == l;
      QuietStays(l, n - 1);
    }
  }

  /** No step ever reuses a version, so no observer can confuse two publications. */
  lemma VersionNamesPublication(words: seq<int>, steps: seq<Action>, more: seq<Action>)
    ensures Inv(NewLock(words))
    ensures var l := Run(NewLock(words), steps);
            var k := Run(l, more);
            && (l.version == k.version && l.version % 2 == 0 ==> k.words == l.words && k.published == l.published)
            && (l.version % 2 == 0 ==> l.words == l.published[l.version / 2])
            && k.version <= U64_MAX
  {
  }
}
