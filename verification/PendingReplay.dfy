/** Replacing a pending candidate after a Head conflict, and replaying its history from the record. */
module PendingReplay {
  import opened Wrappers
  import opened Bytes
  import opened ConflictNames
  import opened Trees
  import opened TreeMerge
  import opened MergeFallbacks
  import opened Lineage
  import opened PendingMerge
  import H = CandidateHistory

  // ---- replay ----

  /** Where a replay stands: what the next merge takes as base and Local, and the commit that names come from. */
  datatype Position = Position(base: Id, baseRoot: Node, localRoot: Node, seedId: Id, seed: Commit)

  function ConfigAt(w: World, p: Position): Config {
    Config(w.rules, w.seed(p.seed), p.seedId, w.busy)
  }

  ghost function MergedAt(w: World, p: Position, remoteRoot: Node): Option<Final> {
    if p.baseRoot.Dir? && p.localRoot.Dir? && remoteRoot.Dir? then MergeTrees(ConfigAt(w, p), p.baseRoot, p.localRoot, remoteRoot)
    else None
  }

  /** A commit that can be fetched and belongs to the user. */
  function Fetched(w: World, b: Binding, id: Id): Option<Commit> {
    if w.remote(id).Some? && w.remote(id).value.author == b.user then w.remote(id) else None
  }

  /** Merging again what a link merged gives the link's commit, byte for byte. */
  ghost function Advance(w: World, b: Binding, p: Position, link: Link): Option<Position> {
    if link.commit.parents == [] || Fetched(w, b, link.commit.parents[0]).None? then None
    else
      var remote := Fetched(w, b, link.commit.parents[0]).value;
      var merged := MergedAt(w, p, remote.root);
      if merged.None? || w.print_(Commit(b.user, b.device, merged.value.node, link.commit.parents, link.commit.created)) != link.data then None
      else Some(Position(link.commit.parents[0], remote.root, merged.value.node, link.id, link.commit))
  }

  ghost function ReplayFrom(w: World, b: Binding, p: Position, links: seq<Link>): Option<Position>
    decreases |links|
  {
    if links == [] then Some(p)
    else
      var next := Advance(w, b, p, links[0]);
      if next.None? then None else ReplayFrom(w, b, next.value, links[1..])
  }

  lemma {:induction false} ReplayLast(w: World, b: Binding, p: Position, links: seq<Link>, last: Link)
    ensures ReplayFrom(w, b, p, links + [last]) ==
              var before := ReplayFrom(w, b, p, links);
              if before.None? then None else Advance(w, b, before.value, last)
    decreases |links|
  {
    if links != [] {
      assert (links + [last])[1..] == links[1..] + [last];
      var next := Advance(w, b, p, links[0]);
      if next.Some? {
        ReplayLast(w, b, next.value, links[1..], last);
      }
    } else {
      assert ([last])[1..] == [];
    }
  }

  /** Where a replay starts: at the binding's base, or behind a captured merge. */
  function Opening(w: World, v: Pending, b: Binding, captured: Commit): Option<Position> {
    if |captured.parents| != 2 then Some(Position(b.syncBase, b.syncBaseRoot, v.capturedRoot, v.capturedCommit, captured))
    else
      var remote := Fetched(w, b, captured.parents[0]);
      if remote.None? then None
      else Some(Position(captured.parents[0], remote.value.root, captured.root, v.capturedCommit, captured))
  }

  /** Every commit of the record can be rebuilt, and the record's base and statistics agree. */
  ghost predicate ReplaysWith(w: World, v: Pending, b: Binding, history: seq<Bytes>)
    requires w.parse(v.capturedData).Some?
  {
    var start := Opening(w, v, b, w.parse(v.capturedData).value);
    start.Some? && v.candidateCommit != v.capturedCommit &&
    var before := ReplayFrom(w, b, start.value, Links(w, history));
    before.Some? && before.value.base == v.baseCommit && before.value.baseRoot == v.baseRoot && w.parse(v.candidateData).Some? &&
    var after := Advance(w, b, before.value, LinkOf(w, v.candidateData));
    after.Some? && after.value.localRoot == v.candidateRoot && w.stats(v.baseRoot, v.candidateRoot) == Stats(v.deleted, v.tracked)
  }

  // ---- replacing the candidate ----

  /** The merge of the candidate with a new Head, on top of the Head it expected. */
  function PositionOf(v: Pending, base: Commit, candidate: Commit): Position {
    Position(v.expectedHead, base.root, v.candidateRoot, v.candidateCommit, candidate)
  }

  function NextHistory(v: Pending, history: seq<Bytes>): seq<Bytes> {
    if v.candidateCommit == v.capturedCommit then history else history + [v.candidateData]
  }

  /** The record after a Head conflict: the candidate moves to the history, and its merge takes its place. */
  ghost function Replaced(w: World, v: Pending, b: Binding, history: seq<Bytes>, head: Id, created: Bytes): Option<Pending> {
    var base, remote := Fetched(w, b, v.expectedHead), Fetched(w, b, head);
    if base.None? || remote.None? || w.parse(v.candidateData).None? || !H.Storable(NextHistory(v, history)) then None
    else
      var p := PositionOf(v, base.value, w.parse(v.candidateData).value);
      var merged := MergedAt(w, p, remote.value.root);
      if merged.None? then None
      else Some(NextRecord(w, v, b, history, head, created, base.value.root, merged.value.node))
  }

  ghost function NextRecord(w: World, v: Pending, b: Binding, history: seq<Bytes>, head: Id, created: Bytes, baseRoot: Node, root: Node): Pending
    requires H.Storable(NextHistory(v, history))
  {
    var data := w.print_(Commit(b.user, b.device, root, [head, v.candidateCommit], created));
    var stats := w.stats(baseRoot, root);
    Pending(v.expectedHead, baseRoot, head, w.hash(data), root, data, v.capturedCommit, v.capturedRoot, v.capturedData,
            H.Encoding(NextHistory(v, history)), stats.deleted, stats.tracked, Protected(stats.deleted, stats.tracked), false, false)
  }

  /** Every commit that the next link may not meet again. */
  function SeenOf(w: World, v: Pending, history: seq<Bytes>): set<Id>
    requires w.parse(v.capturedData).Some?
  {
    var first := FirstSeen(v, w.parse(v.capturedData).value);
    if v.candidateCommit == v.capturedCommit then first else SeenAfter(w, history + [v.candidateData], first)
  }

  /** How many merges the record holds. */
  function Length(w: World, v: Pending, history: seq<Bytes>): nat
    requires w.parse(v.capturedData).Some?
  {
    |SequenceOf(w, v, history)|
  }

  lemma {:induction false} ChainAppend(w: World, b: Binding, items: seq<Bytes>, last: Bytes, previous: Id, seen: set<Id>)
    ensures Chain(w, b, items + [last], previous, seen) <==>
              Chain(w, b, items, previous, seen) && LinkOk(w, b, last, LastId(w, items, previous), SeenAfter(w, items, seen))
  {
    if items != [] {
      assert (items + [last])[1..] == items[1..] + [last];
      ChainAppend(w, b, items[1..], last, w.hash(items[0]), SeenWith(w, items[0], seen));
      LastIdTail(w, items, previous);
    } else {
      assert ([last])[1..] == [];
    }
  }

  function LastId(w: World, items: seq<Bytes>, previous: Id): Id {
    if items == [] then previous else w.hash(items[|items| - 1])
  }

  lemma LastIdTail(w: World, items: seq<Bytes>, previous: Id)
    requires items != []
    ensures LastId(w, items, previous) == LastId(w, items[1..], w.hash(items[0]))
  {
  }

  lemma {:induction false} LinksAppend(w: World, items: seq<Bytes>, last: Bytes)
    requires w.parse(last).Some?
    ensures Links(w, items + [last]) == Links(w, items) + [LinkOf(w, last)]
  {
    if items != [] {
      assert (items + [last])[1..] == items[1..] + [last];
      LinksAppend(w, items[1..], last);
    } else {
      assert ([last])[1..] == [];
    }
  }

  /** Nothing the chain has met lies above its last commit. */
  lemma {:induction false} SeenBelow(w: World, b: Binding, rank: Id -> nat, items: seq<Bytes>, previous: Id, seen: set<Id>)
    requires Sound(w) && Ranked(w, rank) && Chain(w, b, items, previous, seen)
    requires forall i :: i in seen ==> rank(i) <= rank(previous)
    ensures forall i :: i in SeenAfter(w, items, seen) ==> rank(i) <= rank(LastId(w, items, previous))
  {
    if items != [] {
      var c := w.parse(items[0]).value;
      assert c.parents[0] in c.parents && c.parents[1] in c.parents && w.print_(c) == items[0];
      SeenBelow(w, b, rank, items[1..], w.hash(items[0]), SeenWith(w, items[0], seen));
      LastIdTail(w, items, previous);
    }
  }

  lemma RecordBelow(w: World, b: Binding, rank: Id -> nat, v: Pending, history: seq<Bytes>)
    requires Sound(w) && Ranked(w, rank) && LinkedWith(w, v, b, history)
    ensures forall i :: i in SeenOf(w, v, history) ==> rank(i) <= rank(v.candidateCommit)
    ensures rank(v.capturedCommit) <= rank(v.candidateCommit)
  {
    var captured := w.parse(v.capturedData).value;
    var first, items := FirstSeen(v, captured), history + [v.candidateData];
    assert w.print_(captured) == v.capturedData;
    if |captured.parents| == 2 {
      assert captured.parents[0] in captured.parents;
    }
    if v.candidateCommit != v.capturedCommit {
      SeenBelow(w, b, rank, items, v.capturedCommit, first);
      SeenGrows(w, items, first);
    }
  }

  lemma {:induction false} SeenGrows(w: World, items: seq<Bytes>, seen: set<Id>)
    ensures seen <= SeenAfter(w, items, seen)
  {
    if items != [] {
      SeenGrows(w, items[1..], SeenWith(w, items[0], seen));
    }
  }

  /** What a replacement is known to be. */
  ghost predicate Replaces(w: World, v: Pending, b: Binding, history: seq<Bytes>, head: Id, created: Bytes, next: Pending) {
    Replaced(w, v, b, history, head, created) == Some(next)
  }

  /** The fields of a replaced record that the chain depends on. */
  lemma NextFields(w: World, b: Binding, v: Pending, history: seq<Bytes>, head: Id, created: Bytes, next: Pending)
    requires Sound(w) && Replaces(w, v, b, history, head, created, next)
    ensures var c := Commit(b.user, b.device, next.candidateRoot, [head, v.candidateCommit], created);
            next.candidateData == w.print_(c) && w.parse(next.candidateData) == Some(c) && next.candidateCommit == w.hash(next.candidateData)
    ensures next.capturedCommit == v.capturedCommit && next.capturedRoot == v.capturedRoot && next.capturedData == v.capturedData
    ensures next.expectedHead == head && next.baseCommit == v.expectedHead && StatsOk(next)
    ensures H.EncodesTo(NextHistory(v, history), next.history)
  {
  }

  /** The commits of a record form a chain that ends with its candidate. */
  lemma RecordChain(w: World, b: Binding, v: Pending, history: seq<Bytes>)
    requires LinkedWith(w, v, b, history)
    ensures var items, first := NextHistory(v, history), FirstSeen(v, w.parse(v.capturedData).value);
            && Chain(w, b, items, v.capturedCommit, first) && LastId(w, items, v.capturedCommit) == v.candidateCommit
            && SeenAfter(w, items, first) == SeenOf(w, v, history) && |Links(w, items)| == |items|
  {
    ChainLinks(w, b, NextHistory(v, history), v.capturedCommit, FirstSeen(v, w.parse(v.capturedData).value));
  }

  lemma NextIsNew(w: World, b: Binding, rank: Id -> nat, v: Pending, history: seq<Bytes>, head: Id, created: Bytes, next: Pending)
    requires Sound(w) && Ranked(w, rank) && LinkedWith(w, v, b, history) && Replaces(w, v, b, history, head, created, next)
    ensures next.candidateCommit != v.capturedCommit && next.candidateCommit !in SeenOf(w, v, history)
    ensures rank(v.candidateCommit) < rank(next.candidateCommit)
  {
    RecordBelow(w, b, rank, v, history);
    NextFields(w, b, v, history, head, created, next);
    assert v.candidateCommit in [head, v.candidateCommit];
  }

  /** The chain of a replaced record goes on exactly when its new Head was not met before. */
  lemma NextChain(w: World, b: Binding, rank: Id -> nat, v: Pending, history: seq<Bytes>, head: Id, created: Bytes, next: Pending)
    requires Sound(w) && Ranked(w, rank) && LinkedWith(w, v, b, history) && Replaces(w, v, b, history, head, created, next)
    ensures Chain(w, b, NextHistory(v, history) + [next.candidateData], v.capturedCommit, FirstSeen(v, w.parse(v.capturedData).value)) <==>
              head !in SeenOf(w, v, history)
  {
    var items, first := NextHistory(v, history), FirstSeen(v, w.parse(v.capturedData).value);
    NextIsNew(w, b, rank, v, history, head, created, next);
    NextFields(w, b, v, history, head, created, next);
    RecordChain(w, b, v, history);
    ChainAppend(w, b, items, next.candidateData, v.capturedCommit, first);
  }

  /** The commits of a linked record end with its expected Head. */
  lemma RecordEnds(w: World, b: Binding, v: Pending, history: seq<Bytes>)
    requires LinkedWith(w, v, b, history)
    ensures var s := SequenceOf(w, v, history);
            if s == [] then v.expectedHead == b.syncBase && v.candidateCommit == v.capturedCommit
            else s[|s| - 1].commit.parents != [] && s[|s| - 1].commit.parents[0] == v.expectedHead
    ensures SequenceOf(w, v, history) == FirstLinks(w, v, w.parse(v.capturedData).value) + Links(w, NextHistory(v, history))
  {
  }

  lemma EndsMore(v: Pending, b: Binding, s: seq<Link>, last: Link, captured: Commit)
    requires last.commit.parents != [] && last.commit.parents[0] == v.expectedHead
    requires if s == [] then v.baseCommit == b.syncBase else s[|s| - 1].commit.parents != [] && s[|s| - 1].commit.parents[0] == v.baseCommit
    ensures EndsAt(v, b, s + [last], captured)
  {
  }

  lemma NextEnds(w: World, b: Binding, items: seq<Bytes>, next: Pending, captured: Commit, s: seq<Link>)
    requires s == FirstLinks(w, next, captured) + Links(w, items) && w.parse(next.candidateData).Some?
    requires var parents := w.parse(next.candidateData).value.parents; parents != [] && parents[0] == next.expectedHead
    requires if s == [] then next.baseCommit == b.syncBase else s[|s| - 1].commit.parents != [] && s[|s| - 1].commit.parents[0] == next.baseCommit
    ensures EndsAt(next, b, FirstLinks(w, next, captured) + Links(w, items + [next.candidateData]), captured)
  {
    LinksAppend(w, items, next.candidateData);
    EndsMore(next, b, s, LinkOf(w, next.candidateData), captured);
    Regroup(FirstLinks(w, next, captured), Links(w, items), LinkOf(w, next.candidateData));
  }

  lemma Regroup<T>(a: seq<T>, b: seq<T>, last: T)
    ensures a + (b + [last]) == (a + b) + [last]
  {
  }

  /** The captured commit fits a replaced record as it fitted the record before. */
  lemma NextCaptured(w: World, b: Binding, v: Pending, history: seq<Bytes>, head: Id, created: Bytes, next: Pending)
    requires Sound(w) && LinkedWith(w, v, b, history) && Replaces(w, v, b, history, head, created, next)
    ensures CommitSized(next.capturedData) && CapturedOk(w, next, b) && CandidateOk(w, next, b)
  {
    NextFields(w, b, v, history, head, created, next);
  }

  /**
    A replaced record is linked exactly when the new Head is new to it, there is room for one more
    merge, and the new commit is not too large. No other check of the record can fail.
   */
  lemma ReplacementLinked(w: World, b: Binding, rank: Id -> nat, v: Pending, history: seq<Bytes>, head: Id, created: Bytes, next: Pending)
    requires Sound(w) && Ranked(w, rank) && LinkedWith(w, v, b, history) && Replaces(w, v, b, history, head, created, next)
    ensures Linked(w, next, b) <==> head !in SeenOf(w, v, history) && Length(w, v, history) < H.MaxCommits && CommitSized(next.candidateData)
    ensures Linked(w, next, b) ==> LinkedWith(w, next, b, NextHistory(v, history))
    ensures H.EncodesTo(NextHistory(v, history), next.history) && StatsOk(next)
  {
    NextChain(w, b, rank, v, history, head, created, next);
    NextIsNew(w, b, rank, v, history, head, created, next);
    NextCaptured(w, b, v, history, head, created, next);
    NextFields(w, b, v, history, head, created, next);
    OneHistory(next.history, NextHistory(v, history));
    RecordChain(w, b, v, history);
    RecordEnds(w, b, v, history);
    NextEnds(w, b, NextHistory(v, history), next, w.parse(v.capturedData).value, SequenceOf(w, v, history));
    Linkage(w, b, v, history, next);
  }

  /** What remains of the condition on a record whose candidate is not its captured commit. */
  lemma Linkage(w: World, b: Binding, v: Pending, history: seq<Bytes>, next: Pending)
    requires LinkedWith(w, v, b, history) && CommitSized(next.capturedData)
    requires CapturedOk(w, next, b) && CandidateOk(w, next, b) && next.capturedData == v.capturedData
    requires next.capturedCommit == v.capturedCommit && next.candidateCommit != next.capturedCommit
    requires var captured := w.parse(v.capturedData).value;
             EndsAt(next, b, FirstLinks(w, next, captured) + Links(w, NextHistory(v, history) + [next.candidateData]), captured)
    requires |Links(w, NextHistory(v, history))| == |NextHistory(v, history)|
    ensures LinkedWith(w, next, b, NextHistory(v, history)) <==>
              Chain(w, b, NextHistory(v, history) + [next.candidateData], v.capturedCommit, FirstSeen(v, w.parse(v.capturedData).value)) &&
              Length(w, v, history) < H.MaxCommits && CommitSized(next.candidateData)
  {
    RecordEnds(w, b, v, history);
  }

  // ---- a replaced record can be replayed ----

  /** The binding's base is the tree of its commit. */
  predicate BaseKnown(w: World, b: Binding) {
    w.remote(b.syncBase).Some? ==> w.remote(b.syncBase).value.root == b.syncBaseRoot
  }

  /** A record in order: linked, and, unless it is a local commit only, replayable. */
  ghost predicate InOrder(w: World, v: Pending, b: Binding, history: seq<Bytes>) {
    && H.EncodesTo(history, v.history) && LinkedWith(w, v, b, history) && StatsOk(v)
    && (v.candidateCommit != v.capturedCommit ==> ReplaysWith(w, v, b, history))
  }

  /** After the record's own commits the replay stands where the new merge starts. */
  lemma ReplayReaches(w: World, v: Pending, b: Binding, history: seq<Bytes>, base: Commit)
    requires BaseKnown(w, b) && InOrder(w, v, b, history) && Fetched(w, b, v.expectedHead) == Some(base)
    ensures var captured := w.parse(v.capturedData).value;
            Opening(w, v, b, captured).Some? &&
            ReplayFrom(w, b, Opening(w, v, b, captured).value, Links(w, NextHistory(v, history)))
              == Some(PositionOf(v, base, w.parse(v.candidateData).value))
  {
    var captured := w.parse(v.capturedData).value;
    if v.candidateCommit != v.capturedCommit {
      LinksAppend(w, history, v.candidateData);
      ReplayLast(w, b, Opening(w, v, b, captured).value, Links(w, history), LinkOf(w, v.candidateData));
      CandidateOnHead(w, v, b, history);
    }
  }

  lemma CandidateOnHead(w: World, v: Pending, b: Binding, history: seq<Bytes>)
    requires LinkedWith(w, v, b, history) && v.candidateCommit != v.capturedCommit
    ensures var parents := w.parse(v.candidateData).value.parents; parents != [] && parents[0] == v.expectedHead
  {
    LinksAppend(w, history, v.candidateData);
    RecordEnds(w, b, v, history);
  }

  /** The merge of a replaced record comes out again, byte for byte. */
  lemma NextAdvances(w: World, b: Binding, v: Pending, history: seq<Bytes>, head: Id, created: Bytes, next: Pending, base: Commit)
    requires Sound(w) && Replaces(w, v, b, history, head, created, next) && Fetched(w, b, v.expectedHead) == Some(base)
    ensures var p := PositionOf(v, base, w.parse(v.candidateData).value);
            && p.base == next.baseCommit && p.baseRoot == next.baseRoot && w.parse(next.candidateData).Some?
            && Advance(w, b, p, LinkOf(w, next.candidateData)).Some?
            && Advance(w, b, p, LinkOf(w, next.candidateData)).value.localRoot == next.candidateRoot
            && w.stats(next.baseRoot, next.candidateRoot) == Stats(next.deleted, next.tracked)
  {
  }

  /** What a replay needs, piece by piece. */
  lemma ReplaysFrom(w: World, b: Binding, v: Pending, history: seq<Bytes>, start: Position, before: Position)
    requires w.parse(v.capturedData).Some? && Opening(w, v, b, w.parse(v.capturedData).value) == Some(start) && v.candidateCommit != v.capturedCommit
    requires ReplayFrom(w, b, start, Links(w, history)) == Some(before) && before.base == v.baseCommit && before.baseRoot == v.baseRoot
    requires w.parse(v.candidateData).Some? && Advance(w, b, before, LinkOf(w, v.candidateData)).Some?
    requires Advance(w, b, before, LinkOf(w, v.candidateData)).value.localRoot == v.candidateRoot
    requires w.stats(v.baseRoot, v.candidateRoot) == Stats(v.deleted, v.tracked)
    ensures ReplaysWith(w, v, b, history)
  {
  }

  lemma SameOpening(w: World, v: Pending, next: Pending, b: Binding, captured: Commit)
    requires next.capturedCommit == v.capturedCommit && next.capturedRoot == v.capturedRoot
    ensures Opening(w, next, b, captured) == Opening(w, v, b, captured)
  {
  }

  lemma ReplacementReplays(w: World, b: Binding, rank: Id -> nat, v: Pending, history: seq<Bytes>, head: Id, created: Bytes, next: Pending)
    requires Sound(w) && Ranked(w, rank) && BaseKnown(w, b) && InOrder(w, v, b, history) && Replaces(w, v, b, history, head, created, next)
    ensures ReplaysWith(w, next, b, NextHistory(v, history))
  {
    var base, captured := Fetched(w, b, v.expectedHead).value, w.parse(v.capturedData).value;
    ReplayReaches(w, v, b, history, base);
    NextFields(w, b, v, history, head, created, next);
    NextAdvances(w, b, v, history, head, created, next, base);
    NextIsNew(w, b, rank, v, history, head, created, next);
    SameOpening(w, v, next, b, captured);
    ReplaysFrom(w, b, next, NextHistory(v, history), Opening(w, v, b, captured).value, PositionOf(v, base, w.parse(v.candidateData).value));
  }

  /** One Head conflict: a new Head, room for it and a commit that is not too large give a record in order again. */
  lemma ReplacementInOrder(w: World, b: Binding, rank: Id -> nat, v: Pending, history: seq<Bytes>, head: Id, created: Bytes, next: Pending)
    requires Sound(w) && Ranked(w, rank) && BaseKnown(w, b) && InOrder(w, v, b, history) && Replaces(w, v, b, history, head, created, next)
    requires head !in SeenOf(w, v, history) && Length(w, v, history) < H.MaxCommits && CommitSized(next.candidateData)
    ensures InOrder(w, next, b, NextHistory(v, history)) && next.candidateCommit != next.capturedCommit
  {
    ReplacementLinked(w, b, rank, v, history, head, created, next);
    ReplacementReplays(w, b, rank, v, history, head, created, next);
    NextFields(w, b, v, history, head, created, next);
    NextIsNew(w, b, rank, v, history, head, created, next);
  }

  // ---- repeated conflicts ----

  datatype Conflict = Conflict(head: Id, created: Bytes)

  /** A run of Head conflicts, each with a Head that is new to the record, while there is room. */
  ghost predicate Run(w: World, b: Binding, v: Pending, history: seq<Bytes>, conflicts: seq<Conflict>, last: Pending, lastHistory: seq<Bytes>)
    decreases |conflicts|
  {
    if conflicts == [] then last == v && lastHistory == history
    else
      && w.parse(v.capturedData).Some? && conflicts[0].head !in SeenOf(w, v, history) && Length(w, v, history) < H.MaxCommits
      && var next := Replaced(w, v, b, history, conflicts[0].head, conflicts[0].created);
         next.Some? && CommitSized(next.value.candidateData) && Run(w, b, next.value, NextHistory(v, history), conflicts[1..], last, lastHistory)
  }

  /** However often the Head moves on, the record stays linked, verified and replayable. */
  lemma {:induction false} RunInOrder(w: World, b: Binding, rank: Id -> nat, v: Pending, history: seq<Bytes>, conflicts: seq<Conflict>,
                                      last: Pending, lastHistory: seq<Bytes>)
    requires Sound(w) && Ranked(w, rank) && BaseKnown(w, b) && InOrder(w, v, b, history)
    requires Run(w, b, v, history, conflicts, last, lastHistory)
    ensures InOrder(w, last, b, lastHistory) && Linked(w, last, b) && last.capturedCommit == v.capturedCommit
    decreases |conflicts|
  {
    if conflicts != [] {
      var next := Replaced(w, v, b, history, conflicts[0].head, conflicts[0].created).value;
      ReplacementInOrder(w, b, rank, v, history, conflicts[0].head, conflicts[0].created, next);
      NextFields(w, b, v, history, conflicts[0].head, conflicts[0].created, next);
      RunInOrder(w, b, rank, next, NextHistory(v, history), conflicts[1..], last, lastHistory);
    }
  }

  /** Every commit that a later record holds of an earlier one is the same, in the same place. */
  lemma {:induction false} RunKeepsHistory(w: World, b: Binding, v: Pending, history: seq<Bytes>, conflicts: seq<Conflict>,
                                           last: Pending, lastHistory: seq<Bytes>)
    requires Run(w, b, v, history, conflicts, last, lastHistory)
    ensures history <= lastHistory
    decreases |conflicts|
  {
    if conflicts != [] {
      var next := Replaced(w, v, b, history, conflicts[0].head, conflicts[0].created).value;
      RunKeepsHistory(w, b, next, NextHistory(v, history), conflicts[1..], last, lastHistory);
    }
  }

  // ---- the first record ----

  /** The record of a local commit that has not been merged. */
  ghost function LocalRecord(w: World, b: Binding, root: Node, created: Bytes, stats: Stats): Pending {
    var data := w.print_(Commit(b.user, b.device, root, [b.syncBase], created));
    Pending(b.syncBase, b.syncBaseRoot, b.syncBase, w.hash(data), root, data, w.hash(data), root, data, H.Encoding([]),
            stats.deleted, stats.tracked, Protected(stats.deleted, stats.tracked), false, false)
  }

  lemma LocalInOrder(w: World, b: Binding, root: Node, created: Bytes, stats: Stats)
    requires Sound(w) && 0 <= stats.deleted <= stats.tracked
    ensures InOrder(w, LocalRecord(w, b, root, created, stats), b, []) <==> CommitSized(LocalRecord(w, b, root, created, stats).capturedData)
  {
    assert H.EncodesTo([], H.Encoding([]));
  }

  /**
    Merging a captured commit with a moved Head right away gives the record that replacing the
    local record would give.
   */
  ghost function StartRecord(w: World, b: Binding, root: Node, created: Bytes, head: Id, mergedAt: Bytes): Option<Pending> {
    var data := w.print_(Commit(b.user, b.device, root, [b.syncBase], created));
    var captured := Commit(b.user, b.device, root, [b.syncBase], created);
    var remote := Fetched(w, b, head);
    if remote.None? then None
    else
      var merged := MergedAt(w, Position(b.syncBase, b.syncBaseRoot, root, w.hash(data), captured), remote.value.root);
      if merged.None? then None
      else
        var candidate := w.print_(Commit(b.user, b.device, merged.value.node, [head, w.hash(data)], mergedAt));
        var stats := w.stats(b.syncBaseRoot, merged.value.node);
        Some(Pending(b.syncBase, b.syncBaseRoot, head, w.hash(candidate), merged.value.node, candidate, w.hash(data), root, data,
                     H.Encoding([]), stats.deleted, stats.tracked, Protected(stats.deleted, stats.tracked), false, false))
  }

  /** The commits of a first merge: the captured one, and the merge on top of it. */
  lemma StartCommits(w: World, b: Binding, root: Node, created: Bytes, head: Id, mergedAt: Bytes, v: Pending) returns (captured: Commit, merge: Commit)
    requires Sound(w) && StartRecord(w, b, root, created, head, mergedAt) == Some(v)
    ensures captured == Commit(b.user, b.device, root, [b.syncBase], created) && w.parse(v.capturedData) == Some(captured) && w.hash(v.capturedData) == v.capturedCommit
    ensures merge == Commit(b.user, b.device, v.candidateRoot, [head, v.capturedCommit], mergedAt) && v.candidateData == w.print_(merge)
    ensures w.parse(v.candidateData) == Some(merge) && w.hash(v.candidateData) == v.candidateCommit && v.candidateCommit != v.capturedCommit
    ensures v.capturedRoot == root && v.expectedHead == head && v.baseCommit == b.syncBase && v.baseRoot == b.syncBaseRoot && v.history == H.Encoding([])
    ensures w.stats(v.baseRoot, v.candidateRoot) == Stats(v.deleted, v.tracked) && StatsOk(v)
  {
    captured := Commit(b.user, b.device, root, [b.syncBase], created);
    merge := Commit(b.user, b.device, v.candidateRoot, [head, v.capturedCommit], mergedAt);
    assert w.parse(w.print_(captured)) == Some(captured) && w.parse(w.print_(merge)) == Some(merge);
    assert |captured.parents| != |merge.parents|;
  }

  lemma StartChain(w: World, b: Binding, v: Pending, items: seq<Bytes>, merge: Commit)
    requires merge == Commit(b.user, b.device, v.candidateRoot, [v.expectedHead, v.capturedCommit], merge.created) && items == [v.candidateData]
    requires w.parse(v.candidateData) == Some(merge) && w.hash(v.candidateData) == v.candidateCommit && v.candidateCommit != v.capturedCommit
    ensures Chain(w, b, items, v.capturedCommit, {v.capturedCommit}) <==> v.expectedHead != v.capturedCommit
  {
    assert items[1..] == [];
  }

  lemma FirstMergeLinked(w: World, b: Binding, v: Pending, captured: Commit, merge: Commit)
    requires captured == Commit(b.user, b.device, v.capturedRoot, [v.baseCommit], captured.created) && v.baseCommit == b.syncBase && v.baseRoot == b.syncBaseRoot
    requires w.parse(v.capturedData) == Some(captured) && w.hash(v.capturedData) == v.capturedCommit
    requires merge == Commit(b.user, b.device, v.candidateRoot, [v.expectedHead, v.capturedCommit], merge.created)
    requires w.parse(v.candidateData) == Some(merge) && w.hash(v.candidateData) == v.candidateCommit && v.candidateCommit != v.capturedCommit
    ensures LinkedWith(w, v, b, []) <==> CommitSized(v.capturedData) && CommitSized(v.candidateData) && v.expectedHead != v.capturedCommit
  {
    var items := [] + [v.candidateData];
    assert items == [v.candidateData] && items[1..] == [];
    StartChain(w, b, v, items, merge);
    assert Links(w, items) == [LinkOf(w, v.candidateData)];
    assert [] + Links(w, items) == [LinkOf(w, v.candidateData)];
  }

  lemma StartLinked(w: World, b: Binding, root: Node, created: Bytes, head: Id, mergedAt: Bytes, v: Pending)
    requires Sound(w) && StartRecord(w, b, root, created, head, mergedAt) == Some(v)
    ensures LinkedWith(w, v, b, []) <==> CommitSized(v.capturedData) && CommitSized(v.candidateData) && head != v.capturedCommit
  {
    var captured, merge := StartCommits(w, b, root, created, head, mergedAt, v);
    FirstMergeLinked(w, b, v, captured, merge);
  }

  lemma StartReplays(w: World, b: Binding, root: Node, created: Bytes, head: Id, mergedAt: Bytes, v: Pending)
    requires Sound(w) && StartRecord(w, b, root, created, head, mergedAt) == Some(v)
    ensures ReplaysWith(w, v, b, [])
  {
    var captured, merge := StartCommits(w, b, root, created, head, mergedAt, v);
    var start := Position(b.syncBase, b.syncBaseRoot, root, v.capturedCommit, captured);
    assert Opening(w, v, b, captured) == Some(start);
    assert Advance(w, b, start, LinkOf(w, v.candidateData)).Some?;
    ReplaysFrom(w, b, v, [], start, start);
  }

  lemma StartInOrder(w: World, b: Binding, root: Node, created: Bytes, head: Id, mergedAt: Bytes, v: Pending)
    requires Sound(w) && StartRecord(w, b, root, created, head, mergedAt) == Some(v)
    ensures InOrder(w, v, b, []) <==> CommitSized(v.capturedData) && CommitSized(v.candidateData) && head != v.capturedCommit
  {
    var captured, merge := StartCommits(w, b, root, created, head, mergedAt, v);
    StartLinked(w, b, root, created, head, mergedAt, v);
    StartReplays(w, b, root, created, head, mergedAt, v);
    assert H.EncodesTo([], H.Encoding([]));
  }
}
