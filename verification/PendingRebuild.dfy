/** The program's replay of a pending record, and its replacement after a Head conflict. */
module PendingRebuild {
  import opened Wrappers
  import opened Bytes
  import opened Trees
  import opened TreeMerge
  import opened MergeFallbacks
  import opened Lineage
  import opened PendingMerge
  import opened PendingReplay
  import opened PendingOutcome
  import M = TreeMerger
  import H = CandidateHistory

  const MaxObjects: nat := 2000000

  datatype RebuildError = Invalid | NoRemote | BaseDiffers | NotReproduced | OutOfBudget | Statistics

  datatype ReplaceError = WorktreeChanged | NotRebuilt | NoCommit | MergeFailed | NoBudget | NoRoom | NotVerified

  datatype Rebuilt = Rebuilt(position: Position, lineage: Traces, spent: nat)

  /** Replaying the links in turn; before the last one the record's own base must be reached. */
  ghost function ReplayTo(w: World, b: Binding, v: Pending, p: Position, links: seq<Link>): Option<Position>
    decreases |links|
  {
    if links == [] then Some(p)
    else if |links| == 1 && (p.base != v.baseCommit || p.baseRoot != v.baseRoot) then None
    else
      var next := Advance(w, b, p, links[0]);
      if next.None? then None else ReplayTo(w, b, v, next.value, links[1..])
  }

  /** The captured files, followed through the replayed merges. */
  ghost function TracesTo(w: World, b: Binding, p: Position, links: seq<Link>, traces: Traces): Traces
    decreases |links|
  {
    if links == [] || Advance(w, b, p, links[0]).None? then traces
    else
      var remote := Fetched(w, b, links[0].commit.parents[0]).value;
      var merged := MergedAt(w, p, remote.root).value;
      TracesTo(w, b, Advance(w, b, p, links[0]).value, links[1..], ApplyAll(traces, merged.effects, p.seedId))
  }

  lemma {:induction false} ReplayToLast(w: World, b: Binding, v: Pending, p: Position, links: seq<Link>, last: Link)
    ensures ReplayTo(w, b, v, p, links + [last]) ==
              var before := ReplayFrom(w, b, p, links);
              if before.None? || before.value.base != v.baseCommit || before.value.baseRoot != v.baseRoot then None
              else Advance(w, b, before.value, last)
    decreases |links|
  {
    if links != [] {
      assert (links + [last])[1..] == links[1..] + [last];
      var next := Advance(w, b, p, links[0]);
      if next.Some? {
        ReplayToLast(w, b, v, next.value, links[1..], last);
      }
    } else {
      assert ([last])[1..] == [];
    }
  }

  /** The three-way merge of a position with a remote tree, under the remaining budget. */
  method MergeAgain(w: World, p: Position, remoteRoot: Node, lineage: Traces, spent: nat)
    returns (r: Result<Node, ReplaceError>, traces: Traces, work: nat)
    requires spent <= MaxObjects
    ensures r.Ok? ==> MergedAt(w, p, remoteRoot).Some? && MergedAt(w, p, remoteRoot).value.node == r.value && work <= MaxObjects
    ensures r.Ok? ==> traces == ApplyAll(lineage, MergedAt(w, p, remoteRoot).value.effects, p.seedId)
    ensures r.Err? && r.error != NoBudget ==> MergedAt(w, p, remoteRoot).None? && r.error == MergeFailed
  {
    if !p.baseRoot.Dir? || !p.localRoot.Dir? || !remoteRoot.Dir? {
      return Err(MergeFailed), lineage, spent;
    }
    var merger := new M.Merger(ConfigAt(w, p), MaxObjects, lineage, spent);
    var merged := merger.MergeRoots(p.baseRoot, p.localRoot, remoteRoot);
    return if merged.Ok? then Ok(merged.value) else Err(if merged.error.OverBudget? then NoBudget else MergeFailed), merger.lineage, merger.work;
  }

  /** One merge of the replay, compared with the commit it must reproduce. */
  method ReplayOne(w: World, b: Binding, p: Position, link: Link, lineage: Traces, spent: nat) returns (r: Result<Rebuilt, RebuildError>)
    requires spent <= MaxObjects
    ensures r.Ok? ==> Advance(w, b, p, link) == Some(r.value.position) && r.value.spent <= MaxObjects
    ensures r.Ok? ==> r.value.lineage == TracesTo(w, b, p, [link], lineage)
    ensures r.Err? && r.error != OutOfBudget ==> Advance(w, b, p, link).None?
  {
    if link.commit.parents == [] || Fetched(w, b, link.commit.parents[0]).None? {
      return Err(NoRemote);
    }
    var remote := Fetched(w, b, link.commit.parents[0]).value;
    var merged, traces, work := MergeAgain(w, p, remote.root, lineage, spent);
    if merged.Err? {
      return Err(if merged.error == NoBudget then OutOfBudget else NotReproduced);
    }
    if w.print_(Commit(b.user, b.device, merged.value, link.commit.parents, link.commit.created)) != link.data {
      return Err(NotReproduced);
    }
    var next := Position(link.commit.parents[0], remote.root, merged.value, link.id, link.commit);
    assert [link][1..] == [];
    return Ok(Rebuilt(next, traces, work));
  }

  method ReplayLinks(w: World, b: Binding, v: Pending, start: Position, links: seq<Link>, lineage: Traces, spent: nat)
    returns (r: Result<Rebuilt, RebuildError>)
    requires spent <= MaxObjects
    ensures r.Ok? ==> ReplayTo(w, b, v, start, links) == Some(r.value.position) && r.value.lineage == TracesTo(w, b, start, links, lineage)
    ensures r.Ok? ==> r.value.spent <= MaxObjects
    ensures r.Err? && r.error != OutOfBudget ==> ReplayTo(w, b, v, start, links).None?
  {
    var now := Rebuilt(start, lineage, spent);
    var i := 0;
    assert links[0..] == links;
    while i < |links|
      invariant 0 <= i <= |links| && now.spent <= MaxObjects
      invariant ReplayTo(w, b, v, start, links) == ReplayTo(w, b, v, now.position, links[i..])
      invariant TracesTo(w, b, start, links, lineage) == TracesTo(w, b, now.position, links[i..], now.lineage)
    {
      assert links[i..][0] == links[i] && links[i..][1..] == links[i + 1..];
      if i == |links| - 1 && (now.position.base != v.baseCommit || now.position.baseRoot != v.baseRoot) {
        return Err(BaseDiffers);
      }
      var next := ReplayOne(w, b, now.position, links[i], now.lineage, now.spent);
      if next.Err? {
        return next;
      }
      assert [links[i]][1..] == [];
      now := next.value;
      i := i + 1;
    }
    assert links[i..] == [];
    return Ok(now);
  }

  /** The record's merges come out again, its base is the one reached before the last, and its statistics are right. */
  ghost predicate Reproduced(w: World, v: Pending, b: Binding, history: seq<Bytes>)
    requires w.parse(v.capturedData).Some?
  {
    if v.candidateCommit != v.capturedCommit then ReplaysWith(w, v, b, history)
    else
      var start := Opening(w, v, b, w.parse(v.capturedData).value);
      start.Some? && start.value.localRoot == v.candidateRoot && w.stats(v.baseRoot, v.candidateRoot) == Stats(v.deleted, v.tracked)
  }

  ghost predicate Rebuilds(w: World, v: Pending, b: Binding) {
    exists history :: H.EncodesTo(history, v.history) && LinkedWith(w, v, b, history) && SequenceOf(w, v, history) != [] && Reproduced(w, v, b, history)
  }

  /** Replays a pending record; unless a budget runs out it succeeds exactly when every commit is reproduced. */
  method RebuildPendingMerge(w: World, v: Pending, b: Binding, lineage: Traces, spent: nat)
    returns (r: Result<Rebuilt, RebuildError>, ghost history: seq<Bytes>)
    requires spent <= MaxObjects
    ensures r.Ok? ==> Rebuilds(w, v, b) && r.value.position.localRoot == v.candidateRoot && r.value.spent <= MaxObjects
    ensures r.Err? && r.error != OutOfBudget ==> !Rebuilds(w, v, b)
  {
    var sequence;
    sequence, history := PendingMergeSequence(w, v, b);
    if sequence.Err? || sequence.value == [] {
      if sequence.Ok? {
        OneHistory(v.history, history);
      }
      return Err(Invalid), history;
    }
    OneHistory(v.history, history);
    var captured := w.parse(v.capturedData).value;
    var start := Opening(w, v, b, captured);
    if start.None? {
      return Err(NoRemote), history;
    }
    var links := if |captured.parents| == 2 then sequence.value[1..] else sequence.value;
    RestLinks(w, v, b, history, links);
    var now := ReplayLinks(w, b, v, start.value, links, lineage, spent);
    if now.Err? {
      return now, history;
    }
    if now.value.position.localRoot != v.candidateRoot || w.stats(v.baseRoot, now.value.position.localRoot) != Stats(v.deleted, v.tracked) {
      return Err(Statistics), history;
    }
    return now, history;
  }

  /** Behind a captured merge, the links are those of the history and the candidate. */
  lemma RestLinks(w: World, v: Pending, b: Binding, history: seq<Bytes>, links: seq<Link>)
    requires LinkedWith(w, v, b, history) && SequenceOf(w, v, history) != []
    requires var captured := w.parse(v.capturedData).value;
             links == if |captured.parents| == 2 then SequenceOf(w, v, history)[1..] else SequenceOf(w, v, history)
    ensures v.candidateCommit == v.capturedCommit ==> links == []
    ensures v.candidateCommit != v.capturedCommit ==>
              w.parse(v.candidateData).Some? && links == Links(w, history) + [LinkOf(w, v.candidateData)] &&
              var start := Opening(w, v, b, w.parse(v.capturedData).value);
              start.Some? ==>
                (ReplaysWith(w, v, b, history) <==>
                  var last := ReplayTo(w, b, v, start.value, links);
                  last.Some? && last.value.localRoot == v.candidateRoot && w.stats(v.baseRoot, v.candidateRoot) == Stats(v.deleted, v.tracked))
  {
    if v.candidateCommit != v.capturedCommit {
      LinksAppend(w, history, v.candidateData);
      var start := Opening(w, v, b, w.parse(v.capturedData).value);
      if start.Some? {
        ReplayToLast(w, b, v, start.value, Links(w, history), LinkOf(w, v.candidateData));
      }
    }
  }

  // ---- replacing the candidate after a Head conflict ----

  /** The next record, before it is verified. */
  method PrepareNext(w: World, b: Binding, v: Pending, history: seq<Bytes>, head: Id, created: Bytes, lineage: Traces, spent: nat)
    returns (r: Result<Pending, ReplaceError>)
    requires spent <= MaxObjects && H.EncodesTo(history, v.history)
    ensures r.Ok? ==> Replaced(w, v, b, history, head, created) == Some(r.value)
    ensures r.Err? && r.error != NoBudget ==> Replaced(w, v, b, history, head, created).None?
    ensures r != Err(WorktreeChanged)
  {
    var base, remote, candidate := Fetched(w, b, v.expectedHead), Fetched(w, b, head), w.parse(v.candidateData);
    if base.None? || remote.None? || candidate.None? {
      return Err(NoCommit);
    }
    var p := PositionOf(v, base.value, candidate.value);
    var root, _, _ := MergeAgain(w, p, remote.value.root, lineage, spent);
    if root.Err? {
      return Err(root.error);
    }
    var encoded := H.EncodeCandidateHistory(NextHistory(v, history));
    if encoded.Err? {
      return Err(NoRoom);
    }
    var data := w.print_(Commit(b.user, b.device, root.value, [head, v.candidateCommit], created));
    var stats := w.stats(base.value.root, root.value);
    return Ok(Pending(v.expectedHead, base.value.root, head, w.hash(data), root.value, data, v.capturedCommit, v.capturedRoot, v.capturedData,
                      encoded.value, stats.deleted, stats.tracked, Protected(stats.deleted, stats.tracked), false, false));
  }

  /**
    Replaces a verified record after a Head conflict. The new record is in order; and unless the
    worktree changed or a budget ran out, the replacement fails only when the old record cannot be
    reproduced, a commit or merge is missing, the new Head is in the record already, it is full, or
    the new commit is too large.
   */
  method ReplacePending(w: World, b: Binding, v: Pending, snapshotRoot: Node, head: Id, created: Bytes, lineage: Traces, spent: nat,
                        ghost rank: Id -> nat) returns (r: Result<Pending, ReplaceError>, ghost history: seq<Bytes>)
    requires Sound(w) && Ranked(w, rank) && BaseKnown(w, b) && Linked(w, v, b) && StatsOk(v) && spent <= MaxObjects
    ensures H.EncodesTo(history, v.history) && LinkedWith(w, v, b, history)
    ensures r.Ok? ==> Replaced(w, v, b, history, head, created) == Some(r.value) && InOrder(w, r.value, b, NextHistory(v, history))
    ensures r.Ok? ==> Carries(w, b, v, head, r.value)
    ensures r.Ok? ==> head !in SeenOf(w, v, history) && Length(w, v, history) < H.MaxCommits && CommitSized(r.value.candidateData)
    ensures r == Err(WorktreeChanged) <==> snapshotRoot != v.capturedRoot
    ensures r.Err? && r.error != WorktreeChanged && r.error != NoBudget ==>
              (v.candidateCommit != v.capturedCommit && !Rebuilds(w, v, b)) || Replaced(w, v, b, history, head, created).None?
              || head in SeenOf(w, v, history) || Length(w, v, history) >= H.MaxCommits
              || !CommitSized(Replaced(w, v, b, history, head, created).value.candidateData)
  {
    var decoded := H.DecodeCandidateHistory(v.history);
    history := decoded.value;
    OneHistory(v.history, history);
    if snapshotRoot != v.capturedRoot {
      return Err(WorktreeChanged), history;
    }
    var done := spent;
    if v.candidateCommit != v.capturedCommit {
      ghost var again;
      var rebuilt;
      rebuilt, again := RebuildPendingMerge(w, v, b, lineage, spent);
      if rebuilt.Err? {
        return Err(if rebuilt.error.OutOfBudget? then NoBudget else NotRebuilt), history;
      }
      done := rebuilt.value.spent;
    }
    var next := PrepareNext(w, b, v, decoded.value, head, created, lineage, done);
    if next.Err? {
      return next, history;
    }
    ReplacementLinked(w, b, rank, v, history, head, created, next.value);
    var verified := VerifyPending(w, next.value, b);
    if !verified {
      return Err(NotVerified), history;
    }
    assert InOrder(w, v, b, history);
    ReplacementInOrder(w, b, rank, v, history, head, created, next.value);
    ReplacementKeepsBoth(w, b, v, history, head, created, next.value);
    return next, history;
  }
}
