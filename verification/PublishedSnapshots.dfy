/** Over whole runs of the server: what belongs to a published commit is stored whole, and stays as it is. */
module PublishedSnapshots {
  import opened Wrappers
  import opened ObjectGraph
  import opened HeadValidation
  import opened Publication
  import opened Snapshots

  lemma PublishedIsReached(scope: Scope, store: Store, library: Library, id: Id, key: Key)
    requires id in library.published && InHistory(store, Key(scope, Commits, id), key)
    ensures Reachable(store, PublishedRoots(scope, library), key)
  {
    HistoryReaches(store, PublishedRoots(scope, library), Key(scope, Commits, id), key);
  }

  /**
    In every state of every run a published commit can be read, and so can all that belongs to its
    history: commits along parents, their roots, what names lead to from there, and blocks, which fit.
   */
  lemma PublishedIsWhole(scope: Scope, states: seq<System>, i: nat, id: Id, key: Key)
    requires IsRun(scope, states) && i < |states| && id in states[i].library.published
    requires InHistory(states[i].store, Key(scope, Commits, id), key)
    ensures Whole(states[i].store, key)
  {
    PublishedIsReached(scope, states[i].store, states[i].library, id, key);
    var chain := InvariantAt(scope, states, i);
    SoundIsWhole(states[i].store, key);
  }

  /** One step leaves the history of a published commit as it was. */
  lemma StepKeepsHistory(scope: Scope, states: seq<System>, i: nat, id: Id, key: Key)
    requires IsRun(scope, states) && i + 1 < |states| && id in states[i].library.published
    requires InHistory(states[i].store, Key(scope, Commits, id), key)
    ensures id in states[i + 1].library.published && InHistory(states[i + 1].store, Key(scope, Commits, id), key)
    ensures key in states[i].store && key in states[i + 1].store && states[i + 1].store[key] == states[i].store[key]
  {
    var s, t, from := states[i], states[i + 1], Key(scope, Commits, id);
    var chain := InvariantAt(scope, states, i);
    assert Steps(scope, s, t);
    var step :| Next(scope, s, step, t);
    RootsGrow(scope, s, step, t);
    assert from in PublishedRoots(scope, t.library);
    forall k | InHistory(s.store, from, k)
      ensures k in s.store && StillThere(s.store, t.store, k)
    {
      PublishedIsReached(scope, s.store, s.library, id, k);
      StepKeepsReachable(scope, s, step, t, chain, k);
    }
    HistoryStays(s.store, t.store, from, key);
  }

  /** What belongs to a published commit at any moment belongs to it, whole and unchanged, at every later moment. */
  lemma {:induction false} HistoryStaysWhole(scope: Scope, states: seq<System>, i: nat, j: nat, id: Id, key: Key)
    requires IsRun(scope, states) && i <= j < |states| && id in states[i].library.published
    requires InHistory(states[i].store, Key(scope, Commits, id), key)
    ensures id in states[j].library.published && InHistory(states[j].store, Key(scope, Commits, id), key)
    ensures Whole(states[j].store, key) && key in states[i].store && states[j].store[key] == states[i].store[key]
    decreases j - i
  {
    if i < j {
      StepKeepsHistory(scope, states, i, id, key);
      HistoryStaysWhole(scope, states, i + 1, j, id, key);
    } else {
      PublishedIsWhole(scope, states, i, id, key);
    }
  }
}
