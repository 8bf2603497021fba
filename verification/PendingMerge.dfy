/** The pending publication record: how its commits must be linked, and what a replacement adds. */
module PendingMerge {
  import opened Wrappers
  import opened Bytes
  import opened ConflictNames
  import opened Trees
  import opened TreeMerge
  import H = CandidateHistory

  type Id = Bytes

  datatype Commit = Commit(author: Bytes, device: Bytes, root: Node, parents: seq<Id>, created: Bytes)

  /**
    What surrounds the record: commits in canonical form, their hash, the commits that can be
    fetched, the naming seed of a commit, and the deletions between two trees.
   */
  datatype World = World(rules: Rules, busy: Bytes -> bool, parse: Bytes -> Option<Commit>, print_: Commit -> Bytes, hash: Bytes -> Id,
                         remote: Id -> Option<Commit>, seed: Commit -> Seed, stats: (Node, Node) -> Stats)

  datatype Stats = Stats(deleted: int, tracked: int)

  datatype Binding = Binding(user: Bytes, device: Bytes, syncBase: Id, syncBaseRoot: Node)

  datatype Pending = Pending(baseCommit: Id, baseRoot: Node, expectedHead: Id, candidateCommit: Id, candidateRoot: Node, candidateData: Bytes,
                             capturedCommit: Id, capturedRoot: Node, capturedData: Bytes, history: Bytes,
                             deleted: int, tracked: int, requiresConfirmation: bool, confirmed: bool, legacy: bool)

  datatype Link = Link(id: Id, data: Bytes, commit: Commit)

  datatype PendingError = CommitSize | BadCaptured | BadHistory | BadCandidate | LocalHistory | TooLong | NotLinked | WrongHead | WrongBase | BadStatistics

  /** What is known of canonical forms and hashes. */
  ghost predicate Sound(w: World) {
    && (forall c :: w.parse(w.print_(c)) == Some(c))
    && (forall d, c :: w.parse(d) == Some(c) ==> d == w.print_(c))
    && (forall d, e :: w.hash(d) == w.hash(e) ==> d == e)
    && (forall i, c :: w.remote(i) == Some(c) ==> w.hash(w.print_(c)) == i)
    && (forall n, m :: 0 <= w.stats(n, m).deleted <= w.stats(n, m).tracked)
  }

  /** No commit is its own ancestor: a rank grows from every parent to its child. */
  ghost predicate Ranked(w: World, rank: Id -> nat) {
    forall c: Commit, p :: p in c.parents ==> rank(p) < rank(w.hash(w.print_(c)))
  }

  predicate CommitSized(data: Bytes) {
    1 <= |data| <= H.MaxCommitBytes
  }

  /** The bytes are a commit with that identity. */
  predicate Verified(w: World, data: Bytes, id: Id) {
    w.parse(data).Some? && w.hash(data) == id
  }

  predicate Own(b: Binding, c: Commit) {
    c.author == b.user && c.device == b.device
  }

  predicate CapturedLocal(b: Binding, c: Commit) {
    c.parents == [b.syncBase]
  }

  /** A captured commit taken over from an older record may itself be a merge. */
  predicate CapturedMerge(v: Pending, c: Commit) {
    |c.parents| == 2 && c.parents[0] != c.parents[1] && c.parents[0] != v.capturedCommit && c.parents[1] != v.capturedCommit
  }

  predicate CapturedOk(w: World, v: Pending, b: Binding) {
    Verified(w, v.capturedData, v.capturedCommit) &&
    var c := w.parse(v.capturedData).value;
    Own(b, c) && c.root == v.capturedRoot && (CapturedLocal(b, c) || CapturedMerge(v, c))
  }

  predicate CandidateOk(w: World, v: Pending, b: Binding) {
    Verified(w, v.candidateData, v.candidateCommit) &&
    var c := w.parse(v.candidateData).value;
    Own(b, c) && c.root == v.candidateRoot
  }

  /** A merge commit that continues the chain: on top of the commit before, with a Head not met yet. */
  predicate LinkOk(w: World, b: Binding, data: Bytes, previous: Id, seen: set<Id>) {
    w.parse(data).Some? &&
    var c := w.parse(data).value;
    Own(b, c) && |c.parents| == 2 && c.parents[1] == previous && w.hash(data) !in seen && c.parents[0] !in seen
  }

  function SeenWith(w: World, data: Bytes, seen: set<Id>): set<Id> {
    if w.parse(data).Some? && |w.parse(data).value.parents| == 2 then seen + {w.hash(data), w.parse(data).value.parents[0]} else seen
  }

  predicate Chain(w: World, b: Binding, items: seq<Bytes>, previous: Id, seen: set<Id>) {
    items == [] || (LinkOk(w, b, items[0], previous, seen) && Chain(w, b, items[1..], w.hash(items[0]), SeenWith(w, items[0], seen)))
  }

  function SeenAfter(w: World, items: seq<Bytes>, seen: set<Id>): set<Id> {
    if items == [] then seen else SeenAfter(w, items[1..], SeenWith(w, items[0], seen))
  }

  /** What the chain may not meet again, before its first merge. */
  function FirstSeen(v: Pending, captured: Commit): set<Id> {
    if |captured.parents| == 2 then {v.capturedCommit, captured.parents[0]} else {v.capturedCommit}
  }

  function LinkOf(w: World, data: Bytes): Link
    requires w.parse(data).Some?
  {
    Link(w.hash(data), data, w.parse(data).value)
  }

  function Links(w: World, items: seq<Bytes>): seq<Link> {
    if items == [] then []
    else (if w.parse(items[0]).Some? then [LinkOf(w, items[0])] else []) + Links(w, items[1..])
  }

  /** The captured merge, if there is one. */
  function FirstLinks(w: World, v: Pending, captured: Commit): seq<Link> {
    if |captured.parents| == 2 then [Link(v.capturedCommit, v.capturedData, captured)] else []
  }

  /** The record of an unmerged local commit. */
  predicate LocalOnly(v: Pending, b: Binding, captured: Commit, history: seq<Bytes>) {
    && history == [] && v.candidateData == v.capturedData
    && (|captured.parents| == 1 ==> v.baseCommit == b.syncBase && v.baseRoot == b.syncBaseRoot && v.expectedHead == b.syncBase)
    && (|captured.parents| == 2 ==> captured.parents[0] == v.expectedHead)
  }

  predicate EndsAt(v: Pending, b: Binding, sequence: seq<Link>, captured: Commit) {
    && sequence != [] && sequence[|sequence| - 1].commit.parents != []
    && sequence[|sequence| - 1].commit.parents[0] == v.expectedHead
    && (|sequence| > 1 ==> sequence[|sequence| - 2].commit.parents != [] && v.baseCommit == sequence[|sequence| - 2].commit.parents[0])
    && (|sequence| == 1 && |captured.parents| != 2 ==> v.baseCommit == b.syncBase)
  }

  /** The whole condition on a record, for a given history. */
  predicate LinkedWith(w: World, v: Pending, b: Binding, history: seq<Bytes>) {
    CommitSized(v.capturedData) && CommitSized(v.candidateData) && CapturedOk(w, v, b) && CandidateOk(w, v, b) &&
    var captured := w.parse(v.capturedData).value;
    if v.candidateCommit == v.capturedCommit then LocalOnly(v, b, captured, history)
    else
      var items := history + [v.candidateData];
      && |items| + |FirstLinks(w, v, captured)| <= H.MaxCommits
      && Chain(w, b, items, v.capturedCommit, FirstSeen(v, captured))
      && EndsAt(v, b, FirstLinks(w, v, captured) + Links(w, items), captured)
  }

  /** The commits of the record in order, oldest first. */
  function SequenceOf(w: World, v: Pending, history: seq<Bytes>): seq<Link>
    requires w.parse(v.capturedData).Some?
  {
    var captured := w.parse(v.capturedData).value;
    FirstLinks(w, v, captured) +
    if v.candidateCommit == v.capturedCommit then [] else Links(w, history + [v.candidateData])
  }

  ghost predicate Linked(w: World, v: Pending, b: Binding) {
    exists history :: H.EncodesTo(history, v.history) && LinkedWith(w, v, b, history)
  }

  lemma OneHistory(data: Bytes, history: seq<Bytes>)
    requires H.EncodesTo(history, data)
    ensures forall other :: H.EncodesTo(other, data) ==> other == history
  {
    forall other | H.EncodesTo(other, data)
      ensures other == history
    {
      H.EncodingInjective(other, history, data);
    }
  }

  /**
    Reads the record's chain of commits: accepts exactly the linked records, and returns their
    commits in order.
   */
  method PendingMergeSequence(w: World, v: Pending, b: Binding) returns (r: Result<seq<Link>, PendingError>, ghost history: seq<Bytes>)
    ensures r.Ok? <==> Linked(w, v, b)
    ensures r.Ok? ==> H.EncodesTo(history, v.history) && LinkedWith(w, v, b, history) && r.value == SequenceOf(w, v, history)
  {
    history := [];
    if !CommitSized(v.capturedData) || !CommitSized(v.candidateData) {
      return Err(CommitSize), history;
    }
    if !CapturedOk(w, v, b) {
      return Err(BadCaptured), history;
    }
    var captured := w.parse(v.capturedData).value;
    var decoded := H.DecodeCandidateHistory(v.history);
    if decoded.Err? {
      return Err(BadHistory), history;
    }
    history := decoded.value;
    OneHistory(v.history, history);
    if !CandidateOk(w, v, b) {
      return Err(BadCandidate), history;
    }
    if v.candidateCommit == v.capturedCommit {
      if !LocalOnly(v, b, captured, decoded.value) {
        return Err(LocalHistory), history;
      }
      return Ok(FirstLinks(w, v, captured)), history;
    }
    var items := decoded.value + [v.candidateData];
    if |items| + |FirstLinks(w, v, captured)| > H.MaxCommits {
      return Err(TooLong), history;
    }
    var links := ReadChain(w, v, b, items, FirstSeen(v, captured));
    if links.None? {
      return Err(NotLinked), history;
    }
    var sequence := FirstLinks(w, v, captured) + links.value;
    ChainLinks(w, b, items, v.capturedCommit, FirstSeen(v, captured));
    if sequence[|sequence| - 1].commit.parents[0] != v.expectedHead {
      return Err(WrongHead), history;
    }
    if !EndsAt(v, b, sequence, captured) {
      return Err(WrongBase), history;
    }
    return Ok(sequence), history;
  }

  /** Every link of a chain is a merge. */
  lemma {:induction false} ChainLinks(w: World, b: Binding, items: seq<Bytes>, previous: Id, seen: set<Id>)
    requires Chain(w, b, items, previous, seen)
    ensures |Links(w, items)| == |items|
    ensures forall i :: 0 <= i < |items| ==> w.parse(items[i]).Some? && Links(w, items)[i] == LinkOf(w, items[i]) && |Links(w, items)[i].commit.parents| == 2
  {
    if items != [] {
      ChainLinks(w, b, items[1..], w.hash(items[0]), SeenWith(w, items[0], seen));
      assert items == [items[0]] + items[1..];
    }
  }

  method ReadChain(w: World, v: Pending, b: Binding, items: seq<Bytes>, first: set<Id>) returns (r: Option<seq<Link>>)
    ensures r.Some? <==> Chain(w, b, items, v.capturedCommit, first)
    ensures r.Some? ==> r.value == Links(w, items)
  {
    var seen, previous, links: seq<Link> := first, v.capturedCommit, [];
    var i := 0;
    assert items[0..] == items;
    while i < |items|
      invariant 0 <= i <= |items|
      invariant Chain(w, b, items, v.capturedCommit, first) == Chain(w, b, items[i..], previous, seen)
      invariant Links(w, items) == links + Links(w, items[i..])
    {
      assert items[i..][0] == items[i] && items[i..][1..] == items[i + 1..];
      if !LinkOk(w, b, items[i], previous, seen) {
        return None;
      }
      links := links + [LinkOf(w, items[i])];
      seen, previous := SeenWith(w, items[i], seen), w.hash(items[i]);
      i := i + 1;
    }
    assert items[i..] == [];
    return Some(links);
  }

  // ---- verification of the record as a whole ----

  predicate Protected(deleted: int, tracked: int) {
    deleted > 100 || (tracked != 0 && deleted >= tracked / 10 + (if tracked % 10 != 0 then 1 else 0))
  }

  predicate StatsOk(v: Pending) {
    && 0 <= v.deleted <= v.tracked && (v.confirmed ==> v.requiresConfirmation)
    && (if v.legacy then v.deleted == 0 && v.tracked == 0 && !v.requiresConfirmation && !v.confirmed
        else v.requiresConfirmation == Protected(v.deleted, v.tracked))
  }

  method VerifyPending(w: World, v: Pending, b: Binding) returns (ok: bool)
    ensures ok <==> Linked(w, v, b) && StatsOk(v)
    ensures ok ==> 0 <= v.deleted <= v.tracked && (v.confirmed ==> v.requiresConfirmation)
    ensures ok && !v.legacy ==> (v.requiresConfirmation <==> v.deleted > 100 || (v.tracked > 0 && 10 * v.deleted >= v.tracked))
    ensures ok && v.legacy ==> v.deleted == 0 && v.tracked == 0 && !v.requiresConfirmation
    ensures Linked(w, v, b) && !ok ==>
              || v.deleted < 0 || v.tracked < v.deleted || (v.confirmed && !v.requiresConfirmation)
              || (v.legacy && (v.deleted != 0 || v.tracked != 0 || v.requiresConfirmation || v.confirmed))
              || (!v.legacy && (v.requiresConfirmation <==> !(v.deleted > 100 || (v.tracked > 0 && 10 * v.deleted >= v.tracked))))
  {
    ghost var history;
    var sequence;
    sequence, history := PendingMergeSequence(w, v, b);
    return sequence.Ok? && StatsOk(v);
  }

  // ---- what the conditions say, commit by commit ----

  /** The record asks for confirmation from a hundred and one deletions on, or a tenth of what is tracked. */
  lemma ProtectedMeans(deleted: int, tracked: int)
    requires 0 <= deleted <= tracked
    ensures Protected(deleted, tracked) <==> deleted > 100 || (tracked > 0 && 10 * deleted >= tracked)
  {
  }

  /** The Head that a merge commit was made on. */
  function HeadOf(w: World, data: Bytes): Option<Id> {
    if w.parse(data).Some? && w.parse(data).value.parents != [] then Some(w.parse(data).value.parents[0]) else None
  }

  /** The commit met the id before: as itself, or as the Head it was made on. */
  predicate Met(w: World, data: Bytes, id: Id) {
    w.hash(data) == id || HeadOf(w, data) == Some(id)
  }

  /**
    A commit of the chain is the user's own merge of a Head with the commit before it; neither it nor
    its Head was met before, in the chain or among `seen`.
   */
  ghost predicate Continues(w: World, b: Binding, items: seq<Bytes>, i: nat, first: Id, seen: set<Id>) {
    i < |items| && w.parse(items[i]).Some? &&
    var c := w.parse(items[i]).value;
    && c.author == b.user && c.device == b.device && |c.parents| == 2 && c.parents[1] == (if i == 0 then first else w.hash(items[i - 1]))
    && w.hash(items[i]) !in seen && c.parents[0] !in seen
    && forall j :: 0 <= j < i ==> !Met(w, items[j], w.hash(items[i])) && !Met(w, items[j], c.parents[0])
  }

  ghost predicate AllContinue(w: World, b: Binding, items: seq<Bytes>, first: Id, seen: set<Id>) {
    forall i {:trigger Continues(w, b, items, i, first, seen)} :: 0 <= i < |items| ==> Continues(w, b, items, i, first, seen)
  }

  /** What is said of a commit behind the first one, seen from the first or from the second. */
  lemma ContinuesRest(w: World, b: Binding, items: seq<Bytes>, i: nat, first: Id, seen: set<Id>)
    requires i + 1 < |items| && Continues(w, b, items, 0, first, seen)
    ensures Continues(w, b, items, i + 1, first, seen) <==> Continues(w, b, items[1..], i, w.hash(items[0]), SeenWith(w, items[0], seen))
  {
    var rest := items[1..];
    assert rest[i] == items[i + 1] && (i > 0 ==> rest[i - 1] == items[i]);
    assert forall id :: id in SeenWith(w, items[0], seen) <==> id in seen || Met(w, items[0], id);
    assert forall j :: 1 <= j < i + 1 ==> items[j] == rest[j - 1];
    assert forall j :: 0 <= j < i ==> rest[j] == items[j + 1];
  }

  /** The chain is accepted exactly when every commit continues it. */
  lemma {:induction false} ChainMeans(w: World, b: Binding, items: seq<Bytes>, first: Id, seen: set<Id>)
    ensures Chain(w, b, items, first, seen) <==> AllContinue(w, b, items, first, seen)
    decreases |items|
  {
    if items != [] {
      var rest, id, more := items[1..], w.hash(items[0]), SeenWith(w, items[0], seen);
      ChainMeans(w, b, rest, id, more);
      assert LinkOk(w, b, items[0], first, seen) <==> Continues(w, b, items, 0, first, seen);
      if Continues(w, b, items, 0, first, seen) {
        forall i | 0 <= i < |rest|
          ensures Continues(w, b, items, i + 1, first, seen) <==> Continues(w, b, rest, i, id, more)
        {
          ContinuesRest(w, b, items, i, first, seen);
        }
        RestContinues(w, b, items, first, seen);
      }
    }
  }

  lemma RestContinues(w: World, b: Binding, items: seq<Bytes>, first: Id, seen: set<Id>)
    requires items != [] && Continues(w, b, items, 0, first, seen)
    requires forall i :: 0 <= i < |items[1..]| ==> (Continues(w, b, items, i + 1, first, seen) <==> Continues(w, b, items[1..], i, w.hash(items[0]), SeenWith(w, items[0], seen)))
    ensures AllContinue(w, b, items, first, seen) <==> AllContinue(w, b, items[1..], w.hash(items[0]), SeenWith(w, items[0], seen))
  {
    var rest, id, more := items[1..], w.hash(items[0]), SeenWith(w, items[0], seen);
    if AllContinue(w, b, rest, id, more) {
      forall i | 0 <= i < |items|
        ensures Continues(w, b, items, i, first, seen)
      {
        if i > 0 {
          assert Continues(w, b, rest, i - 1, id, more);
          assert Continues(w, b, items, i - 1 + 1, first, seen);
        }
      }
    }
    if AllContinue(w, b, items, first, seen) {
      forall i | 0 <= i < |rest|
        ensures Continues(w, b, rest, i, id, more)
      {
        assert Continues(w, b, items, i + 1, first, seen);
      }
    }
  }

  /**
    A record with merges is linked exactly when: both its commits are the user's own, of the stored
    identity and tree and not too large; the captured one is on the binding's base or itself a merge;
    its merges continue the captured commit, at most 1024 with it; the last was made on the expected
    Head; and the base is the Head of the merge before, or the binding's.
   */
  lemma LinkedMeans(w: World, v: Pending, b: Binding, history: seq<Bytes>)
    requires v.candidateCommit != v.capturedCommit
    ensures LinkedWith(w, v, b, history) <==>
              && 1 <= |v.capturedData| <= 65536 && 1 <= |v.candidateData| <= 65536
              && w.parse(v.capturedData).Some? && w.hash(v.capturedData) == v.capturedCommit
              && w.parse(v.candidateData).Some? && w.hash(v.candidateData) == v.candidateCommit
              && (var c := w.parse(v.capturedData).value;
                  && c.author == b.user && c.device == b.device && c.root == v.capturedRoot
                  && (c.parents == [b.syncBase] || (|c.parents| == 2 && c.parents[0] != c.parents[1] && v.capturedCommit !in c.parents))
                  && (var m := w.parse(v.candidateData).value; m.author == b.user && m.device == b.device && m.root == v.candidateRoot)
                  && |history| + 1 + (if |c.parents| == 2 then 1 else 0) <= 1024
                  && AllContinue(w, b, history + [v.candidateData], v.capturedCommit,
                                 if |c.parents| == 2 then {v.capturedCommit, c.parents[0]} else {v.capturedCommit})
                  && HeadOf(w, v.candidateData) == Some(v.expectedHead)
                  && Some(v.baseCommit) == if history != [] then HeadOf(w, history[|history| - 1]) else if |c.parents| == 2 then Some(c.parents[0]) else Some(b.syncBase))
  {
    if CapturedOk(w, v, b) && CandidateOk(w, v, b) {
      var c, items := w.parse(v.capturedData).value, history + [v.candidateData];
      ChainMeans(w, b, items, v.capturedCommit, FirstSeen(v, c));
      if Chain(w, b, items, v.capturedCommit, FirstSeen(v, c)) {
        ChainLinks(w, b, items, v.capturedCommit, FirstSeen(v, c));
        EndsMeans(w, v, b, history, c);
      }
    }
  }

  lemma EndsMeans(w: World, v: Pending, b: Binding, history: seq<Bytes>, captured: Commit)
    requires var items, s := history + [v.candidateData], Links(w, history + [v.candidateData]);
             |s| == |items| && forall i :: 0 <= i < |items| ==> w.parse(items[i]).Some? && s[i] == LinkOf(w, items[i]) && |s[i].commit.parents| == 2
    ensures EndsAt(v, b, FirstLinks(w, v, captured) + Links(w, history + [v.candidateData]), captured) <==>
              && HeadOf(w, v.candidateData) == Some(v.expectedHead)
              && Some(v.baseCommit) == if history != [] then HeadOf(w, history[|history| - 1]) else if |captured.parents| == 2 then Some(captured.parents[0]) else Some(b.syncBase)
  {
    var items := history + [v.candidateData];
    var s := Links(w, items);
    var all := FirstLinks(w, v, captured) + s;
    assert s[|s| - 1] == LinkOf(w, items[|items| - 1]) == LinkOf(w, v.candidateData);
    assert all[|all| - 1] == s[|s| - 1];
    if history != [] {
      assert items[|items| - 2] == history[|history| - 1];
      assert all[|all| - 2] == s[|s| - 2] == LinkOf(w, history[|history| - 1]);
    } else {
      assert |s| == 1;
    }
  }
}
