/** The bounded history of control connections kept with each telemetry
    generation. Identities are ordered; `noted` is auxiliary: every connection
    that produced activity in this generation. */
module SessionHistory {
  import opened Prelude

  const HISTORY_LIMIT: nat := 128

  datatype History = History(active: set<nat>, observed: set<nat>, truncated: bool, noted: set<nat>)

  datatype Action = Note(id: nat) | Register(id: nat) | Unregister(id: nat)

  /** An inactive identity that may be forgotten, the least one first. */
  ghost predicate IsVictim(h: History, victim: nat)
  {
    victim in h.observed && victim !in h.active && forall v :: v in h.observed && v !in h.active ==> victim <= v
  }

  /** What one action may do; eviction picks the least inactive identity. */
  ghost predicate Becomes(h: History, a: Action, r: History)
  {
    match a
    case Register(id) => r == h.(active := h.active + {id})
    case Unregister(id) => r == h.(active := h.active - {id})
    case Note(id) =>
      var g := h.(active := h.active + {id}, noted := h.noted + {id});
      if id in h.observed then r == g
      else if |h.observed| < HISTORY_LIMIT then r == g.(observed := h.observed + {id})
      else if g.observed <= g.active then r == g.(truncated := true)
      else exists victim :: IsVictim(g, victim) && r == g.(truncated := true, observed := h.observed - {victim} + {id})
  }

  ghost predicate HistoryOk(h: History)
  {
    && |h.observed| <= HISTORY_LIMIT && h.observed <= h.noted
    && (!h.truncated ==> h.observed == h.noted)
  }

  const EMPTY: History := History({}, {}, false, {})

  ghost predicate IsRun(states: seq<History>, actions: seq<Action>)
  {
    && |states| == |actions| + 1
    && forall i :: 0 <= i < |actions| ==> Becomes(states[i], actions[i], states[i + 1])
  }

  lemma StepKeepsHistory(h: History, a: Action, r: History)
    requires HistoryOk(h) && Becomes(h, a, r)
    ensures HistoryOk(r) && (h.truncated ==> r.truncated) && h.noted <= r.noted
  {
  }

  lemma {:induction false} RunKeepsHistory(states: seq<History>, actions: seq<Action>, n: nat)
    requires IsRun(states, actions) && HistoryOk(states[0]) && n <= |actions|
    ensures HistoryOk(states[n]) && (states[0].truncated ==> states[n].truncated)
  {
    if n > 0 {
      RunKeepsHistory(states, actions, n - 1);
      assert Becomes(states[n - 1], actions[n - 1], states[n]);
      StepKeepsHistory(states[n - 1], actions[n - 1], states[n]);
    }
  }

  /** A snapshot reads the history first and the flag later: an unset flag means the
      history it read was complete, and it is never longer than the limit. */
  lemma UnsetFlagMeansComplete(states: seq<History>, actions: seq<Action>, read: nat)
    requires IsRun(states, actions) && states[0] == EMPTY && read < |states|
    ensures |states[read].observed| <= 128
    ensures !states[|actions|].truncated ==> states[read].observed == states[read].noted
  {
    RunKeepsHistory(states, actions, read);
    var tail, rest := states[read..], actions[read..];
    assert IsRun(tail, rest) by {
      forall i | 0 <= i < |rest| ensures Becomes(tail[i], rest[i], tail[i + 1]) {
        assert Becomes(states[read + i], actions[read + i], states[read + i + 1]);
      }
    }
    RunKeepsHistory(tail, rest, |rest|);
  }

  /** Active detail is never given up for history: once in the history, a connection
      stays there as long as it is not unregistered. */
  lemma {:induction false} ActiveStaysObserved(states: seq<History>, actions: seq<Action>, id: nat, n: nat)
    requires IsRun(states, actions) && n <= |actions|
    requires id in states[0].active && id in states[0].observed
    requires forall i :: 0 <= i < |actions| ==> actions[i] != Unregister(id)
    ensures id in states[n].active && id in states[n].observed
  {
    if n > 0 {
      ActiveStaysObserved(states, actions, id, n - 1);
      assert Becomes(states[n - 1], actions[n - 1], states[n]);
    }
  }

  /** Noting enters a connection unless the history is full of active ones. */
  lemma NotingObserves(h: History, id: nat, r: History)
    requires Becomes(h, Note(id), r) && HistoryOk(h)
    ensures id in r.active
    ensures id in r.observed <==> id in h.observed || |h.observed| < 128 || !(h.observed <= h.active)
    ensures r.truncated <==> h.truncated || (id !in h.observed && |h.observed| == 128)
  {
  }

  /** Noting forgets at most one connection, the least of the inactive ones, and only
      to make room in a full history. */
  lemma NotingForgetsTheLeast(h: History, id: nat, r: History, gone: nat)
    requires Becomes(h, Note(id), r) && HistoryOk(h)
    ensures r.active == h.active + {id} && r.observed <= h.observed + {id}
    ensures gone in h.observed && gone !in r.observed <==>
      && |h.observed| == 128 && id !in h.observed && gone in h.observed && gone !in h.active
      && forall v :: v in h.observed && v !in h.active ==> gone <= v
  {
    var g := h.(active := h.active + {id}, noted := h.noted + {id});
    if gone in h.observed && gone !in r.observed {
      assert IsVictim(g, gone);
    }
  }

  class TelemetrySlot {
    var active: set<nat>
    var observed: set<nat>
    var truncated: bool
    ghost var noted: set<nat>

    ghost function View(): History
      reads this
    {
      History(active, observed, truncated, noted)
    }

    constructor ()
      ensures View() == EMPTY
    {
      active, observed, truncated, noted := {}, {}, false, {};
    }

    /** Walks the history in order for the first inactive identity. */
    method FirstInactive() returns (victim: Option<nat>)
      ensures victim.None? <==> observed <= active
      ensures victim.Some? ==> IsVictim(View(), victim.value)
    {
      victim := None;
      var rest := observed - active;
      while rest != {}
        invariant rest <= observed - active
        invariant victim.None? ==> rest == observed - active
        invariant victim.Some? ==> victim.value in observed && victim.value !in active
        invariant victim.Some? ==> forall v :: v in observed && v !in active && v !in rest ==> victim.value <= v
        decreases rest
      {
        var next :| next in rest;
        if victim.None? || next < victim.value {
          victim := Some(next);
        }
        rest := rest - {next};
      }
      assert victim.None? ==> observed <= active by {
        if victim.None? {
          forall v | v in observed ensures v in active { assert v !in observed - active; }
        }
      }
    }

    method NoteSession(id: nat)
      requires HistoryOk(View())
      modifies this
      ensures Becomes(old(View()), Note(id), View()) && HistoryOk(View())
    {
      ghost var before := View();
      active := active + {id};
      noted := noted + {id};
      if id !in observed {
        if |observed| >= HISTORY_LIMIT {
          truncated := true;
          var victim := FirstInactive();
          if victim.None? {
            StepKeepsHistory(before, Note(id), View());
            return;
          }
          ghost var g := before.(active := active, noted := noted);
          assert IsVictim(g, victim.value);
          observed := observed - {victim.value};
        }
        observed := observed + {id};
      }
      StepKeepsHistory(before, Note(id), View());
    }

    method RegisterSession(id: nat)
      requires HistoryOk(View())
      modifies this
      ensures Becomes(old(View()), Register(id), View()) && HistoryOk(View())
      ensures active == old(active) + {id} && observed == old(observed) && truncated == old(truncated)
    {
      active := active + {id};
    }

    method UnregisterSession(id: nat)
      requires HistoryOk(View())
      modifies this
      ensures Becomes(old(View()), Unregister(id), View()) && HistoryOk(View())
      ensures active == old(active) - {id} && observed == old(observed) && truncated == old(truncated)
    {
      active := active - {id};
    }
  }
}
