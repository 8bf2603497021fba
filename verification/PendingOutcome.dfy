/** What the tree of a pending candidate holds of both sides, whatever Heads it met on the way. */
module PendingOutcome {
  import opened Wrappers
  import opened Bytes
  import opened Trees
  import opened MergeFates
  import opened MergeOutcome
  import opened PendingMerge
  import opened PendingReplay
  import H = CandidateHistory

  /** The new candidate has what the old one and the new Head each made of the Head that was expected. */
  ghost predicate Carries(w: World, b: Binding, v: Pending, head: Id, next: Pending) {
    && Fetched(w, b, v.expectedHead).Some? && Fetched(w, b, head).Some? && next.baseRoot == Fetched(w, b, v.expectedHead).value.root
    && BothKept(Fetched(w, b, v.expectedHead).value.root, v.candidateRoot, Fetched(w, b, head).value.root, next.candidateRoot)
  }

  /**
    After a Head conflict: the new Head's changes since the expected Head are in place, the
    candidate's are in place or, in a conflict with them, set apart.
   */
  lemma ReplacementKeepsBoth(w: World, b: Binding, v: Pending, history: seq<Bytes>, head: Id, created: Bytes, next: Pending)
    requires Replaced(w, v, b, history, head, created) == Some(next)
    ensures Carries(w, b, v, head, next)
  {
    var base, remote := Fetched(w, b, v.expectedHead).value, Fetched(w, b, head).value;
    var p := PositionOf(v, base, w.parse(v.candidateData).value);
    MergeKeepsBoth(ConfigAt(w, p), base.root, v.candidateRoot, remote.root);
  }

  /** So for every file of the new Head that is not as the expected Head had it or above. */
  lemma ReplacementKeepsHead(w: World, b: Binding, v: Pending, history: seq<Bytes>, head: Id, created: Bytes, next: Pending, p: Path, content: nat)
    requires Replaced(w, v, b, history, head, created) == Some(next)
    ensures Fetched(w, b, v.expectedHead).Some? && Fetched(w, b, head).Some?
    ensures FileAt(Fetched(w, b, head).value.root, p, content) && !Untouched(Fetched(w, b, v.expectedHead).value.root, Fetched(w, b, head).value.root, p) ==>
              FileAt(next.candidateRoot, p, content)
  {
    ReplacementKeepsBoth(w, b, v, history, head, created, next);
  }

  /** And for every file of the old candidate. */
  lemma ReplacementKeepsCandidate(w: World, b: Binding, v: Pending, history: seq<Bytes>, head: Id, created: Bytes, next: Pending, p: Path, content: nat)
    returns (t: Path)
    requires Replaced(w, v, b, history, head, created) == Some(next)
    requires FileAt(v.candidateRoot, p, content) && Fetched(w, b, v.expectedHead).Some?
    requires !Untouched(Fetched(w, b, v.expectedHead).value.root, v.candidateRoot, p)
    ensures Fetched(w, b, head).Some?
    ensures KeptAt(Fetched(w, b, v.expectedHead).value.root, v.candidateRoot, Fetched(w, b, head).value.root, next.candidateRoot, p, content, t)
  {
    ReplacementKeepsBoth(w, b, v, history, head, created, next);
    t :| KeptAt(Fetched(w, b, v.expectedHead).value.root, v.candidateRoot, Fetched(w, b, head).value.root, next.candidateRoot, p, content, t);
  }

  /** The first merge of a captured tree with a moved Head does the same, on the binding's base. */
  lemma StartKeepsBoth(w: World, b: Binding, root: Node, created: Bytes, head: Id, mergedAt: Bytes, v: Pending)
    requires StartRecord(w, b, root, created, head, mergedAt) == Some(v)
    ensures Fetched(w, b, head).Some? && v.capturedRoot == root && v.baseRoot == b.syncBaseRoot
    ensures BothKept(b.syncBaseRoot, root, Fetched(w, b, head).value.root, v.candidateRoot)
  {
    var data := w.print_(Commit(b.user, b.device, root, [b.syncBase], created));
    var p := Position(b.syncBase, b.syncBaseRoot, root, w.hash(data), Commit(b.user, b.device, root, [b.syncBase], created));
    MergeKeepsBoth(ConfigAt(w, p), b.syncBaseRoot, root, Fetched(w, b, head).value.root);
  }

  /** Along any run of Head conflicts, each replacement does. */
  ghost predicate RunCarries(w: World, b: Binding, v: Pending, history: seq<Bytes>, conflicts: seq<Conflict>)
    decreases |conflicts|
  {
    conflicts == [] ||
    var next := Replaced(w, v, b, history, conflicts[0].head, conflicts[0].created);
    next.Some? && Carries(w, b, v, conflicts[0].head, next.value) && RunCarries(w, b, next.value, NextHistory(v, history), conflicts[1..])
  }

  lemma {:induction false} RunKeepsBoth(w: World, b: Binding, v: Pending, history: seq<Bytes>, conflicts: seq<Conflict>,
                                        last: Pending, lastHistory: seq<Bytes>)
    requires Run(w, b, v, history, conflicts, last, lastHistory)
    ensures RunCarries(w, b, v, history, conflicts)
    decreases |conflicts|
  {
    if conflicts != [] {
      var next := Replaced(w, v, b, history, conflicts[0].head, conflicts[0].created).value;
      ReplacementKeepsBoth(w, b, v, history, conflicts[0].head, conflicts[0].created, next);
      RunKeepsBoth(w, b, next, NextHistory(v, history), conflicts[1..], last, lastHistory);
    }
  }
}
