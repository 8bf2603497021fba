/**
  Reading history back: the server pages through the mainline from an anchored commit, and the
  client lists the merge sources under each mainline commit it was given.
 */
module History {
  import opened Wrappers
  import opened ObjectGraph
  import opened HeadValidation
  import opened Publication

  datatype HistoryError = HistoryCorrupt | InvalidLineage | SourceLimit

  /** The commit a listing started from, and the next commit to list. */
  datatype Token = Token(anchor: Id, next: Id)

  datatype Page = Page(anchor: Option<Id>, commits: seq<Id>, token: Option<Token>)

  /** Commits listed by a walk, and the commit it would list next. */
  datatype Walk = Walk(listed: seq<Id>, next: Option<Id>)

  function FirstParent(parents: seq<Id>): Option<Id> {
    if parents == [] then None else Some(parents[0])
  }

  /** Up to `size` commits along first parents. */
  function FirstParents(store: Store, scope: Scope, next: Option<Id>, size: nat): Walk
    decreases size
  {
    if size == 0 || next.None? || !Readable(store, Key(scope, Commits, next.value)) then Walk([], next)
    else
      var rest := FirstParents(store, scope, FirstParent(CommitAt(store, scope, next.value).parents), size - 1);
      Walk([next.value] + rest.listed, rest.next)
  }

  /** A commit history may list: mainline by its role row, stored, and written by the owner. */
  predicate Listable(store: Store, scope: Scope, library: Library, id: Id) {
    && IsMainline(library, id)
    && Readable(store, Key(scope, Commits, id))
    && CommitAt(store, scope, id).author == scope.owner
  }

  /** The walk reaches, after `i` commits, one that history cannot list. */
  ghost predicate Unlistable(store: Store, scope: Scope, library: Library, start: Option<Id>, i: nat) {
    var at := FirstParents(store, scope, start, i).next;
    at.Some? && !Listable(store, scope, library, at.value)
  }

  function AnchorOf(library: Library, token: Option<Token>): Option<Id> {
    if token.Some? then Some(token.value.anchor) else library.head
  }

  function StartOf(library: Library, token: Option<Token>): Option<Id> {
    if token.Some? then Some(token.value.next) else library.head
  }

  /** The page is the answer to the token. */
  ghost predicate Answers(store: Store, scope: Scope, library: Library, token: Option<Token>, pageSize: nat, page: Page) {
    var walk := FirstParents(store, scope, StartOf(library, token), pageSize);
    && page.anchor == AnchorOf(library, token) && page.commits == walk.listed && (walk.next.Some? ==> AnchorOf(library, token).Some?)
    && page.token == if walk.next.Some? then Some(Token(AnchorOf(library, token).value, walk.next.value)) else None
  }

  /**
    The history page of a request, without or with the token of an earlier page: the next
    `pageSize` commits along first parents. It fails exactly when the walk meets a commit that is
    not mainline, not stored or not the owner's.
   */
  method ListHistory(store: Store, scope: Scope, library: Library, token: Option<Token>, pageSize: nat)
    returns (r: Result<Page, HistoryError>)
    ensures r.Ok? ==> Answers(store, scope, library, token, pageSize, r.value)
    ensures r.Err? <==> exists i :: 0 <= i < pageSize && Unlistable(store, scope, library, StartOf(library, token), i)
  {
    var anchor := AnchorOf(library, token);
    var nextId := StartOf(library, token);
    ghost var start := nextId;
    var commits: seq<Id> := [];
    while |commits| < pageSize && nextId.Some?
      invariant |commits| <= pageSize
      invariant FirstParents(store, scope, start, |commits|) == Walk(commits, nextId)
      invariant forall i :: 0 <= i < |commits| ==> !Unlistable(store, scope, library, start, i)
      invariant nextId.Some? ==> anchor.Some?
      decreases pageSize - |commits|
    {
      var id := nextId.value;
      if !Listable(store, scope, library, id) {
        assert Unlistable(store, scope, library, start, |commits|);
        return Err(HistoryCorrupt);
      }
      FirstParentsExtends(store, scope, start, |commits|);
      commits := commits + [id];
      nextId := FirstParent(CommitAt(store, scope, id).parents);
    }
    FirstParentsStops(store, scope, start, |commits|, pageSize);
    return Ok(Page(anchor, commits, if nextId.Some? then Some(Token(anchor.value, nextId.value)) else None));
  }

  lemma {:induction false} FirstParentsExtends(store: Store, scope: Scope, start: Option<Id>, size: nat)
    requires var walk := FirstParents(store, scope, start, size);
             |walk.listed| == size && walk.next.Some? && Readable(store, Key(scope, Commits, walk.next.value))
    ensures var walk := FirstParents(store, scope, start, size);
            FirstParents(store, scope, start, size + 1) ==
            Walk(walk.listed + [walk.next.value], FirstParent(CommitAt(store, scope, walk.next.value).parents))
    decreases size
  {
    if size > 0 {
      var next := FirstParent(CommitAt(store, scope, start.value).parents);
      FirstParentsExtends(store, scope, next, size - 1);
      var shorter := FirstParents(store, scope, next, size - 1);
      assert [start.value] + (shorter.listed + [shorter.next.value]) == [start.value] + shorter.listed + [shorter.next.value];
    }
  }

  lemma {:induction false} FirstParentsStops(store: Store, scope: Scope, start: Option<Id>, size: nat, more: nat)
    requires var walk := FirstParents(store, scope, start, size);
             |walk.listed| == size && (size == more || walk.next.None?) && size <= more
    ensures FirstParents(store, scope, start, more) == FirstParents(store, scope, start, size)
    ensures forall i :: size <= i < more ==> FirstParents(store, scope, start, i).next.None?
    decreases size
  {
    if size > 0 && size < more {
      var next := FirstParent(CommitAt(store, scope, start.value).parents);
      FirstParentsStops(store, scope, next, size - 1, more - 1);
      forall i | size <= i < more
        ensures FirstParents(store, scope, start, i).next.None?
      {
        assert FirstParents(store, scope, next, i - 1).next.None?;
      }
    }
  }

  // ---- paging under the role invariant ----

  function Min(a: nat, b: nat): nat {
    if a < b then a else b
  }

  /** The id at a position of the mainline, or none past its end. */
  function At(chain: seq<Id>, i: nat): Option<Id> {
    if i < |chain| then Some(chain[i]) else None
  }

  /** The mainline commits are readable along first parents, and history may list them. */
  ghost predicate Walkable(scope: Scope, store: Store, library: Library, chain: seq<Id>) {
    forall i: nat :: i < |chain| ==> WalkableAt(scope, store, library, chain, i)
  }

  ghost predicate WalkableAt(scope: Scope, store: Store, library: Library, chain: seq<Id>, i: nat)
    requires i < |chain|
  {
    && Listable(store, scope, library, chain[i])
    && FirstParent(CommitAt(store, scope, chain[i]).parents) == At(chain, i + 1)
  }

  lemma ConsistentIsWalkable(scope: Scope, store: Store, library: Library, chain: seq<Id>)
    requires Consistent(scope, store, library, chain)
    ensures Walkable(scope, store, library, chain)
  {
    forall i: nat | i < |chain|
      ensures WalkableAt(scope, store, library, chain, i)
    {
      assert MainlineLink(store, scope, library, chain, i);
    }
  }

  /** The walk along a known chain. */
  function ChainWalk(chain: seq<Id>, from: nat, size: nat): Walk
    decreases size
  {
    if size == 0 || from >= |chain| then Walk([], At(chain, from))
    else
      var rest := ChainWalk(chain, from + 1, size - 1);
      Walk([chain[from]] + rest.listed, rest.next)
  }

  lemma {:induction false} ChainWalkIsSlice(chain: seq<Id>, from: nat, size: nat)
    requires from <= |chain|
    ensures ChainWalk(chain, from, size) == Walk(chain[from..Min(from + size, |chain|)], At(chain, Min(from + size, |chain|)))
    decreases size
  {
    if size > 0 && from < |chain| {
      ChainWalkIsSlice(chain, from + 1, size - 1);
      FirstOfSlice(chain, from, Min(from + size, |chain|));
    }
  }

  lemma FirstOfSlice(chain: seq<Id>, from: nat, to: nat)
    requires from < to <= |chain|
    ensures chain[from..to] == [chain[from]] + chain[from + 1..to]
  {
  }

  lemma {:induction false} WalksChain(scope: Scope, store: Store, library: Library, chain: seq<Id>, from: nat, size: nat)
    requires Walkable(scope, store, library, chain) && from <= |chain|
    ensures FirstParents(store, scope, At(chain, from), size) == ChainWalk(chain, from, size)
    decreases size
  {
    if size > 0 && from < |chain| {
      assert WalkableAt(scope, store, library, chain, from);
      WalksChain(scope, store, library, chain, from + 1, size - 1);
    }
  }

  /** Under the invariant no commit of the mainline is ever reported as corrupt. */
  lemma MainlineListable(scope: Scope, store: Store, library: Library, chain: seq<Id>, i: nat)
    requires Consistent(scope, store, library, chain) && i < |chain|
    ensures Listable(store, scope, library, chain[i])
  {
    ConsistentIsWalkable(scope, store, library, chain);
    assert WalkableAt(scope, store, library, chain, i);
  }

  /** Consecutive pages, each read from the store of its own moment. */
  function ReadPages(stores: seq<Store>, scope: Scope, sizes: seq<nat>, next: Option<Id>): Walk
    requires |stores| == |sizes|
  {
    if sizes == [] then Walk([], next)
    else
      var page := FirstParents(stores[0], scope, next, sizes[0]);
      var rest := ReadPages(stores[1..], scope, sizes[1..], page.next);
      Walk(page.listed + rest.listed, rest.next)
  }

  function Sum(sizes: seq<nat>): nat {
    if sizes == [] then 0 else sizes[0] + Sum(sizes[1..])
  }

  /** The stores of a run at the given moments. */
  function StoresAt(states: seq<System>, moments: seq<nat>): (stores: seq<Store>)
    requires forall i :: 0 <= i < |moments| ==> moments[i] < |states|
    ensures |stores| == |moments|
  {
    seq(|moments|, i requires 0 <= i < |moments| => states[moments[i]].store)
  }

  /** The store serves every slice of the chain. */
  ghost predicate Serves(scope: Scope, store: Store, chain: seq<Id>) {
    forall from: nat, size: nat :: from <= |chain| ==>
      FirstParents(store, scope, At(chain, from), size) == ChainWalk(chain, from, size)
  }

  lemma {:induction false} ChainWalkOlder(newer: seq<Id>, chain: seq<Id>, from: nat, size: nat)
    requires from <= |chain|
    ensures ChainWalk(newer + chain, |newer| + from, size) == ChainWalk(chain, from, size)
    decreases size
  {
    if size > 0 && from < |chain| {
      ChainWalkOlder(newer, chain, from + 1, size - 1);
    }
  }

  /** A store that serves a longer mainline serves every older one. */
  lemma ServesOlder(scope: Scope, store: Store, library: Library, newer: seq<Id>, chain: seq<Id>)
    requires Walkable(scope, store, library, newer + chain)
    ensures Serves(scope, store, chain)
  {
    forall from: nat, size: nat | from <= |chain|
      ensures FirstParents(store, scope, At(chain, from), size) == ChainWalk(chain, from, size)
    {
      WalksChain(scope, store, library, newer + chain, |newer| + from, size);
      ChainWalkOlder(newer, chain, from, size);
    }
  }

  /** Every store of a run from the anchor's moment on serves the mainline the anchor saw. */
  lemma PageAtMoment(scope: Scope, states: seq<System>, first: nat, moment: nat, chain: seq<Id>)
    requires IsRun(scope, states) && first <= moment < |states| && Invariant(scope, states[first], chain)
    ensures Serves(scope, states[moment].store, chain)
  {
    var newer := HistoryOnlyGrows(scope, states, first, moment, chain);
    ConsistentIsWalkable(scope, states[moment].store, states[moment].library, newer + chain);
    ServesOlder(scope, states[moment].store, states[moment].library, newer, chain);
  }

  /**
    No page of an anchored listing is ever refused: at any later moment of a run, from any commit of
    the mainline the anchor saw, the walk meets only commits that history may list.
   */
  lemma AnchoredPagesSucceed(scope: Scope, states: seq<System>, first: nat, moment: nat, chain: seq<Id>, from: nat, pageSize: nat)
    requires IsRun(scope, states) && first <= moment < |states| && Invariant(scope, states[first], chain) && from <= |chain|
    ensures var now := states[moment];
            forall i :: 0 <= i < pageSize ==> !Unlistable(now.store, scope, now.library, At(chain, from), i)
  {
    var now := states[moment];
    var newer := HistoryOnlyGrows(scope, states, first, moment, chain);
    ConsistentIsWalkable(scope, now.store, now.library, newer + chain);
    ServesOlder(scope, now.store, now.library, newer, chain);
    forall i | 0 <= i < pageSize
      ensures !Unlistable(now.store, scope, now.library, At(chain, from), i)
    {
      assert Serves(scope, now.store, chain);
      ChainWalkIsSlice(chain, from, i);
      var to := Min(from + i, |chain|);
      if to < |chain| {
        assert (newer + chain)[|newer| + to] == chain[to];
        MainlineListable(scope, now.store, now.library, newer + chain, |newer| + to);
      }
    }
  }

  /** Two walks one after the other are one walk. */
  lemma {:induction false} ChainWalksJoin(chain: seq<Id>, from: nat, size: nat, more: nat)
    requires from <= |chain|
    ensures var first, rest := ChainWalk(chain, from, size), ChainWalk(chain, Min(from + size, |chain|), more);
            && first.next == At(chain, Min(from + size, |chain|))
            && ChainWalk(chain, from, size + more) == Walk(first.listed + rest.listed, rest.next)
    decreases size
  {
    if size > 0 && from < |chain| {
      ChainWalksJoin(chain, from + 1, size - 1, more);
    }
  }

  lemma {:induction false} ServedPages(stores: seq<Store>, scope: Scope, sizes: seq<nat>, chain: seq<Id>, from: nat)
    requires |stores| == |sizes| && from <= |chain|
    requires forall i :: 0 <= i < |stores| ==> Serves(scope, stores[i], chain)
    ensures ReadPages(stores, scope, sizes, At(chain, from)) == ChainWalk(chain, from, Sum(sizes))
    decreases |sizes|
  {
    if sizes != [] {
      ChainWalksJoin(chain, from, sizes[0], Sum(sizes[1..]));
      assert Serves(scope, stores[0], chain);
      ServedPages(stores[1..], scope, sizes[1..], chain, Min(from + sizes[0], |chain|));
    }
  }

  /**
    Paging is stable. Pages of any sizes, read at any later moments of a run while Head may advance
    and garbage may be collected between them, concatenate to the first-parent chain of the anchor:
    a prefix as long as the sizes allow, all of it once they add up to its length.
   */
  lemma PagesConcatenate(scope: Scope, states: seq<System>, moments: seq<nat>, sizes: seq<nat>, first: nat, chain: seq<Id>, from: nat)
    requires IsRun(scope, states) && |moments| == |sizes|
    requires first < |states| && forall i :: 0 <= i < |moments| ==> first <= moments[i] < |states|
    requires Invariant(scope, states[first], chain) && from <= |chain|
    ensures var to := Min(from + Sum(sizes), |chain|);
            ReadPages(StoresAt(states, moments), scope, sizes, At(chain, from)) == Walk(chain[from..to], At(chain, to))
  {
    var stores := StoresAt(states, moments);
    forall i | 0 <= i < |stores|
      ensures Serves(scope, stores[i], chain)
    {
      PageAtMoment(scope, states, first, moments[i], chain);
    }
    ServedPages(stores, scope, sizes, chain, from);
    ChainWalkIsSlice(chain, from, Sum(sizes));
  }

  // ---- from token to token ----

  /** Each page but the first is the answer to the token of the one before; no page is asked for without one. */
  ghost predicate ReadOn(states: seq<System>, scope: Scope, moments: seq<nat>, sizes: seq<nat>, token: Option<Token>, pages: seq<Page>)
    requires |moments| == |sizes| == |pages| && forall i :: 0 <= i < |moments| ==> moments[i] < |states|
    decreases |pages|
  {
    pages == [] ||
    (&& Answers(states[moments[0]].store, scope, states[moments[0]].library, token, sizes[0], pages[0])
     && (|pages| > 1 ==> pages[0].token.Some?) && ReadOn(states, scope, moments[1..], sizes[1..], pages[0].token, pages[1..]))
  }

  function CommitsOfPages(pages: seq<Page>): seq<Id> {
    if pages == [] then [] else pages[0].commits + CommitsOfPages(pages[1..])
  }

  /** What is left to ask for after the pages. */
  function Rest(anchor: Option<Id>, next: Option<Id>): Option<Token> {
    if anchor.Some? && next.Some? then Some(Token(anchor.value, next.value)) else None
  }

  /** One page from a position of the anchored mainline. */
  lemma PageTells(scope: Scope, states: seq<System>, first: nat, moment: nat, chain: seq<Id>, from: nat, token: Option<Token>, size: nat, page: Page)
    requires IsRun(scope, states) && first <= moment < |states| && Invariant(scope, states[first], chain) && from <= |chain|
    requires Answers(states[moment].store, scope, states[moment].library, token, size, page)
    requires if token.Some? then from < |chain| && token == Some(Token(chain[0], chain[from])) else moment == first && from == 0
    ensures var to := Min(from + size, |chain|);
            page.commits == chain[from..to] && page.anchor == At(chain, 0) && page.token == Rest(At(chain, 0), At(chain, to))
  {
    PageAtMoment(scope, states, first, moment, chain);
    assert StartOf(states[moment].library, token) == At(chain, from);
    assert AnchorOf(states[moment].library, token) == At(chain, 0);
    assert FirstParents(states[moment].store, scope, At(chain, from), size) == ChainWalk(chain, from, size);
    ChainWalkIsSlice(chain, from, size);
  }

  /** What the pages are together: a slice of the mainline, all with the same anchor, and the token of what is left. */
  ghost predicate Together(pages: seq<Page>, chain: seq<Id>, from: nat, to: nat) {
    && from <= to <= |chain| && CommitsOfPages(pages) == chain[from..to]
    && (forall page :: page in pages ==> page.anchor == At(chain, 0))
    && (pages != [] ==> pages[|pages| - 1].token == Rest(At(chain, 0), At(chain, to)))
  }

  lemma TogetherMore(page: Page, pages: seq<Page>, chain: seq<Id>, from: nat, mid: nat, to: nat)
    requires from <= mid <= |chain| && page.commits == chain[from..mid] && page.anchor == At(chain, 0) && page.token == Rest(At(chain, 0), At(chain, mid))
    requires Together(pages, chain, mid, to) && (pages == [] ==> to == mid)
    ensures Together([page] + pages, chain, from, to)
  {
    assert ([page] + pages)[1..] == pages;
    assert chain[from..mid] + chain[mid..to] == chain[from..to];
  }

  lemma {:induction false} PagesTell(scope: Scope, states: seq<System>, moments: seq<nat>, sizes: seq<nat>, first: nat, chain: seq<Id>, from: nat,
                                     token: Option<Token>, pages: seq<Page>) returns (to: nat)
    requires IsRun(scope, states) && |moments| == |sizes| == |pages| && first < |states|
    requires forall i :: 0 <= i < |moments| ==> first <= moments[i] < |states|
    requires Invariant(scope, states[first], chain) && from <= |chain| && ReadOn(states, scope, moments, sizes, token, pages)
    requires pages == [] || if token.Some? then from < |chain| && token == Some(Token(chain[0], chain[from])) else moments[0] == first && from == 0
    ensures to == Min(from + Sum(sizes), |chain|) && Together(pages, chain, from, to)
    decreases |pages|
  {
    if pages == [] {
      to := from;
    } else {
      PageTells(scope, states, first, moments[0], chain, from, token, sizes[0], pages[0]);
      var mid := Min(from + sizes[0], |chain|);
      to := PagesTell(scope, states, moments[1..], sizes[1..], first, chain, mid, pages[0].token, pages[1..]);
      TogetherMore(pages[0], pages[1..], chain, from, mid, to);
      assert pages == [pages[0]] + pages[1..];
    }
  }

  lemma HeadIsFirst(scope: Scope, s: System, chain: seq<Id>)
    requires Invariant(scope, s, chain)
    ensures s.library.head == At(chain, 0)
  {
  }

  lemma LeftOver(pages: seq<Page>, chain: seq<Id>, to: nat)
    requires pages != [] && Together(pages, chain, 0, to)
    ensures CommitsOfPages(pages) == chain[..to] && (pages[|pages| - 1].token.None? <==> to == |chain|)
  {
  }

  /**
    A listing from its first page on: pages of any sizes, each asked for with the token of the one
    before, at any later moments of a run, are together the mainline that Head had at the first
    page, each commit once and in order, as far as the sizes go; a token is left exactly when commits are.
   */
  lemma TokensConcatenate(scope: Scope, states: seq<System>, moments: seq<nat>, sizes: seq<nat>, pages: seq<Page>, chain: seq<Id>) returns (to: nat)
    requires IsRun(scope, states) && |moments| == |sizes| == |pages| && pages != []
    requires forall i :: 0 <= i < |moments| ==> moments[0] <= moments[i] < |states|
    requires Invariant(scope, states[moments[0]], chain) && ReadOn(states, scope, moments, sizes, None, pages)
    ensures to == Min(Sum(sizes), |chain|) && CommitsOfPages(pages) == chain[..to]
    ensures forall page :: page in pages ==> page.anchor == states[moments[0]].library.head
    ensures pages[|pages| - 1].token.None? <==> to == |chain|
  {
    to := PagesTell(scope, states, moments, sizes, moments[0], chain, 0, None, pages);
    HeadIsFirst(scope, states[moments[0]], chain);
    LeftOver(pages, chain, to);
  }

  // ---- the client's listing of merge sources ----

  const MaxMergedCommits: nat := 1024

  /** A printed line: a mainline commit, or a merge source attributed to one. */
  datatype ListEntry = HeadEntry(id: Id) | SourceEntry(id: Id, mainlineId: Id)

  /** The merge sources of a mainline commit, in chain order; none for a commit with fewer parents. */
  ghost function MergeSources(store: Store, scope: Scope, library: Library, id: Id): (sources: seq<Id>)
    requires MergeKnown(store, scope, library, id)
    ensures if |CommitAt(store, scope, id).parents| == 2 then IsMergeOf(store, scope, library, id, sources) else sources == []
  {
    if |CommitAt(store, scope, id).parents| == 2 then
      var sources :| IsMergeOf(store, scope, library, id, sources); sources
    else []
  }

  ghost predicate MergeKnown(store: Store, scope: Scope, library: Library, id: Id) {
    && Readable(store, Key(scope, Commits, id))
    && (|CommitAt(store, scope, id).parents| == 2 ==> exists sources :: IsMergeOf(store, scope, library, id, sources))
  }

  ghost predicate MergesKnown(store: Store, scope: Scope, library: Library, mainline: seq<Id>) {
    && (forall m :: m in mainline ==> MergeKnown(store, scope, library, m))
    && (forall i, j :: 0 <= i < j < |mainline| ==> mainline[i] != mainline[j])
  }

  function SourceEntries(sources: seq<Id>, mainlineId: Id): seq<ListEntry> {
    seq(|sources|, i requires 0 <= i < |sources| => SourceEntry(sources[i], mainlineId))
  }

  /** Each mainline commit followed by all of its own merge sources. */
  ghost function Expanded(store: Store, scope: Scope, library: Library, mainline: seq<Id>): seq<ListEntry>
    requires MergesKnown(store, scope, library, mainline)
  {
    if mainline == [] then []
    else
      var last := mainline[|mainline| - 1];
      Expanded(store, scope, library, mainline[..|mainline| - 1]) + [HeadEntry(last)]
      + SourceEntries(MergeSources(store, scope, library, last), last)
  }

  ghost function AllSources(store: Store, scope: Scope, library: Library, mainline: seq<Id>): set<Id>
    requires MergesKnown(store, scope, library, mainline)
  {
    set m, c | m in mainline && c in MergeSources(store, scope, library, m) :: c
  }

  /** Every source row names its mainline commit, so sources of different commits differ. */
  lemma SourceRow(store: Store, scope: Scope, library: Library, id: Id, source: Id)
    requires MergeKnown(store, scope, library, id) && source in MergeSources(store, scope, library, id)
    ensures source in library.roles && library.roles[source] == Role(source, MergeSource, id)
  {
    var sources := MergeSources(store, scope, library, id);
    var i :| 0 <= i < |sources| && sources[i] == source;
    assert MergeLink(store, scope, library, id, sources, i);
  }

  lemma SourcesDiffer(store: Store, scope: Scope, library: Library, m: Id, other: Id, source: Id)
    requires MergeKnown(store, scope, library, m) && MergeKnown(store, scope, library, other) && m != other
    requires source in MergeSources(store, scope, library, m)
    ensures source !in MergeSources(store, scope, library, other)
  {
    SourceRow(store, scope, library, m, source);
    if source in MergeSources(store, scope, library, other) {
      SourceRow(store, scope, library, other, source);
    }
  }

  lemma SourcesOfNext(store: Store, scope: Scope, library: Library, mainline: seq<Id>, i: nat)
    requires i < |mainline| && MergesKnown(store, scope, library, mainline)
    ensures MergesKnown(store, scope, library, mainline[..i]) && MergesKnown(store, scope, library, mainline[..i + 1])
    ensures MergeKnown(store, scope, library, mainline[i])
    ensures Expanded(store, scope, library, mainline[..i + 1]) ==
            Expanded(store, scope, library, mainline[..i]) + [HeadEntry(mainline[i])]
            + SourceEntries(MergeSources(store, scope, library, mainline[i]), mainline[i])
    ensures AllSources(store, scope, library, mainline[..i + 1]) ==
            AllSources(store, scope, library, mainline[..i]) + IdsOf(MergeSources(store, scope, library, mainline[i]))
    ensures AllSources(store, scope, library, mainline[..i + 1]) <= AllSources(store, scope, library, mainline)
    ensures forall c :: c in MergeSources(store, scope, library, mainline[i]) ==>
              c !in AllSources(store, scope, library, mainline[..i])
  {
    assert mainline[..i + 1][..i] == mainline[..i];
    assert mainline[..i + 1] == mainline[..i] + [mainline[i]];
    forall m, c | m in mainline[..i] && c in MergeSources(store, scope, library, m)
      ensures c !in MergeSources(store, scope, library, mainline[i])
    {
      SourcesDiffer(store, scope, library, m, mainline[i], c);
    }
  }

  /** The lines of a page without its merge sources. */
  function HeadEntries(mainline: seq<Id>): seq<ListEntry> {
    seq(|mainline|, i requires 0 <= i < |mainline| => HeadEntry(mainline[i]))
  }

  /** The page gives each commit's parents as stored. */
  ghost predicate ParentsKnown(store: Store, scope: Scope, mainline: seq<Id>, parents: seq<seq<Id>>) {
    && |parents| == |mainline|
    && forall i :: 0 <= i < |mainline| ==>
         Readable(store, Key(scope, Commits, mainline[i])) && parents[i] == CommitAt(store, scope, mainline[i]).parents
  }

  /** The listing of a page when the history is as the roles say: all lines, or the limit error. */
  ghost predicate Listed(store: Store, scope: Scope, library: Library, mainline: seq<Id>,
                         r: Result<seq<ListEntry>, HistoryError>)
    requires MergesKnown(store, scope, library, mainline)
  {
    if |AllSources(store, scope, library, mainline)| <= MaxMergedCommits
    then r == Ok(Expanded(store, scope, library, mainline))
    else r == Err(SourceLimit)
  }

  /** The first `i` commits of the page are listed with their sources. */
  ghost predicate PageRead(store: Store, scope: Scope, library: Library, mainline: seq<Id>, i: nat,
                           entries: seq<ListEntry>, seen: set<Id>)
    requires MergesKnown(store, scope, library, mainline) && i <= |mainline|
  {
    && MergesKnown(store, scope, library, mainline[..i])
    && entries == Expanded(store, scope, library, mainline[..i])
    && seen == AllSources(store, scope, library, mainline[..i])
  }

  lemma PageReadNext(store: Store, scope: Scope, library: Library, mainline: seq<Id>, i: nat,
                     entries: seq<ListEntry>, seen: set<Id>)
    requires MergesKnown(store, scope, library, mainline) && i < |mainline|
    requires PageRead(store, scope, library, mainline, i, entries, seen)
    ensures MergeKnown(store, scope, library, mainline[i])
    ensures var id := mainline[i];
            var sources := MergeSources(store, scope, library, id);
            && PageRead(store, scope, library, mainline, i + 1,
                        entries + [HeadEntry(id)] + SourceEntries(sources, id), seen + IdsOf(sources))
            && (sources != [] ==> UnseenMerge(store, scope, library, id, CommitAt(store, scope, id).parents[1], seen, sources))
            && |seen + IdsOf(sources)| <= |AllSources(store, scope, library, mainline)|
            && (|CommitAt(store, scope, id).parents| == 2 <==> sources != [])
  {
    SourcesOfNext(store, scope, library, mainline, i);
    SubsetSize(AllSources(store, scope, library, mainline[..i + 1]), AllSources(store, scope, library, mainline));
  }

  /**
    The listing of one page. Each source is fetched with its role row; the limit counts the
    distinct sources of the whole page. When the roles are consistent the lineage checks never
    fail: the listing is each mainline commit followed by its own sources, once each, or the limit
    error when there are more sources than the limit.
   */
  method BuildHistoryListEntries(store: Store, scope: Scope, library: Library, mainline: seq<Id>,
                                 parents: seq<seq<Id>>, includeMerged: bool)
    returns (r: Result<seq<ListEntry>, HistoryError>)
    requires |parents| == |mainline|
    ensures !includeMerged ==> r == Ok(HeadEntries(mainline))
    ensures includeMerged && MergesKnown(store, scope, library, mainline) && ParentsKnown(store, scope, mainline, parents) ==>
              Listed(store, scope, library, mainline, r)
  {
    if !includeMerged {
      r := ListHeads(mainline);
      return;
    }
    ghost var good := MergesKnown(store, scope, library, mainline) && ParentsKnown(store, scope, mainline, parents);
    var entries: seq<ListEntry> := [];
    var seenSources: set<Id> := {};
    var i := 0;
    while i < |mainline|
      invariant 0 <= i <= |mainline|
      invariant good ==> PageRead(store, scope, library, mainline, i, entries, seenSources)
      invariant |seenSources| <= MaxMergedCommits
    {
      var row, seen := ListCommit(store, scope, library, mainline, parents, i, entries, seenSources, good);
      if row.Err? {
        return Err(row.error);
      }
      entries, seenSources := row.value, seen;
      i := i + 1;
    }
    assert mainline[..|mainline|] == mainline;
    return Ok(entries);
  }

  method ListHeads(mainline: seq<Id>) returns (r: Result<seq<ListEntry>, HistoryError>)
    ensures r == Ok(HeadEntries(mainline))
  {
    var entries: seq<ListEntry> := [];
    var i := 0;
    while i < |mainline|
      invariant 0 <= i <= |mainline| && entries == HeadEntries(mainline[..i])
    {
      entries := entries + [HeadEntry(mainline[i])];
      i := i + 1;
    }
    assert mainline[..|mainline|] == mainline;
    return Ok(entries);
  }

  /** Lists one mainline commit and, when it is a merge, its sources. */
  method ListCommit(store: Store, scope: Scope, library: Library, mainline: seq<Id>, parents: seq<seq<Id>>, i: nat,
                    entries: seq<ListEntry>, seenBefore: set<Id>, ghost good: bool)
    returns (r: Result<seq<ListEntry>, HistoryError>, seen: set<Id>)
    requires |parents| == |mainline| && i < |mainline| && |seenBefore| <= MaxMergedCommits
    requires good ==> MergesKnown(store, scope, library, mainline) && ParentsKnown(store, scope, mainline, parents)
    requires good ==> PageRead(store, scope, library, mainline, i, entries, seenBefore)
    ensures r.Ok? ==> |seen| <= MaxMergedCommits
    ensures good && r.Ok? ==> PageRead(store, scope, library, mainline, i + 1, r.value, seen)
    ensures good && r.Err? ==> r == Err(SourceLimit) && |AllSources(store, scope, library, mainline)| > MaxMergedCommits
  {
    var id := mainline[i];
    if good {
      PageReadNext(store, scope, library, mainline, i, entries, seenBefore);
    }
    var before := entries + [HeadEntry(id)];
    if |parents[i]| == 2 {
      ghost var sources := if good then MergeSources(store, scope, library, id) else [];
      var listed: Result<seq<ListEntry>, HistoryError>;
      listed, seen := ListSources(store, scope, library, id, parents[i][1], seenBefore, sources);
      if listed.Err? {
        return Err(listed.error), seen;
      }
      return Ok(before + listed.value), seen;
    }
    assert good ==> before + SourceEntries([], id) == before && seenBefore + IdsOf([]) == seenBefore;
    return Ok(before), seenBefore;
  }

  lemma SubsetSize(fewer: set<Id>, more: set<Id>)
    requires fewer <= more
    ensures |fewer| <= |more|
  {
    assert |more| == |fewer| + |more - fewer| by {
      assert more == fewer + (more - fewer);
    }
  }

  /** `sources` is the whole merge under the commit and none of it was listed before. */
  ghost predicate UnseenMerge(store: Store, scope: Scope, library: Library, mainlineId: Id, start: Id, seen: set<Id>,
                              sources: seq<Id>) {
    IsMergeOf(store, scope, library, mainlineId, sources) && start == sources[0] && forall c :: c in sources ==> c !in seen
  }

  ghost function IdsOf(ids: seq<Id>): set<Id> {
    set c | c in ids
  }

  /** The first `k` sources are listed and `current` is the next. */
  ghost predicate SourcesRead(sources: seq<Id>, k: nat, mainlineId: Id, current: Id, entries: seq<ListEntry>, lineage: set<Id>) {
    && k < |sources| && current == sources[k]
    && entries == SourceEntries(sources[..k], mainlineId)
    && lineage == IdsOf(sources[..k])
  }

  lemma SourceIsNext(store: Store, scope: Scope, library: Library, sources: seq<Id>, k: nat, mainlineId: Id, current: Id,
                     entries: seq<ListEntry>, lineage: set<Id>)
    requires IsMergeOf(store, scope, library, mainlineId, sources)
    requires SourcesRead(sources, k, mainlineId, current, entries, lineage)
    ensures current !in lineage && MergeLink(store, scope, library, mainlineId, sources, k)
    ensures entries + [SourceEntry(current, mainlineId)] == SourceEntries(sources[..k + 1], mainlineId)
    ensures lineage + {current} == IdsOf(sources[..k + 1]) && lineage + {current} <= IdsOf(sources)
    ensures k + 1 == |sources| ==> sources[..k + 1] == sources
  {
    assert sources[..k + 1] == sources[..k] + [current];
  }

  /** The sources under one mainline commit, following second parents until a single-parent commit. */
  method ListSources(store: Store, scope: Scope, library: Library, mainlineId: Id, start: Id, seenBefore: set<Id>,
                     ghost sources: seq<Id>)
    returns (r: Result<seq<ListEntry>, HistoryError>, seen: set<Id>)
    requires |seenBefore| <= MaxMergedCommits
    ensures r.Ok? ==> |seen| <= MaxMergedCommits
    ensures UnseenMerge(store, scope, library, mainlineId, start, seenBefore, sources) ==>
              var all := seenBefore + IdsOf(sources);
              if |all| <= MaxMergedCommits then r == Ok(SourceEntries(sources, mainlineId)) && seen == all
              else r == Err(SourceLimit)
  {
    ghost var good := UnseenMerge(store, scope, library, mainlineId, start, seenBefore, sources);
    ghost var all := seenBefore + IdsOf(sources);
    ghost var k := 0;
    var entries: seq<ListEntry> := [];
    var lineageSeen: set<Id> := {};
    seen := seenBefore;
    var current := start;
    while true
      invariant |seen| <= MaxMergedCommits
      invariant good ==> SourcesRead(sources, k, mainlineId, current, entries, lineageSeen) && seen == seenBefore + lineageSeen
      decreases library.roles.Keys - lineageSeen
    {
      if good {
        SourceIsNext(store, scope, library, sources, k, mainlineId, current, entries, lineageSeen);
      }
      if current in lineageSeen {
        return Err(InvalidLineage), seen;
      }
      if current !in library.roles || !Readable(store, Key(scope, Commits, current)) {
        return Err(InvalidLineage), seen;
      }
      lineageSeen := lineageSeen + {current};
      var source := CommitAt(store, scope, current);
      if library.roles[current].kind != MergeSource || library.roles[current].mainlineId != mainlineId || source.parents == [] {
        return Err(InvalidLineage), seen;
      }
      if current in seen {
        return Ok(entries), seen;
      }
      if |seen| == MaxMergedCommits {
        if good {
          SubsetSize(seen + {current}, all);
        }
        return Err(SourceLimit), seen;
      }
      seen := seen + {current};
      entries := entries + [SourceEntry(current, mainlineId)];
      if |source.parents| == 1 {
        if good {
          SubsetSize(seen, all);
        }
        return Ok(entries), seen;
      }
      current := source.parents[1];
      k := k + 1;
    }
  }

  /** Any page of a consistent library qualifies: its merges are known and its commits distinct. */
  lemma PageMergesKnown(scope: Scope, store: Store, library: Library, chain: seq<Id>, from: nat, to: nat)
    requires Consistent(scope, store, library, chain) && from <= to <= |chain|
    ensures MergesKnown(store, scope, library, chain[from..to])
  {
    forall m | m in chain[from..to]
      ensures MergeKnown(store, scope, library, m)
    {
      var i :| from <= i < to && chain[i] == m;
      assert MainlineLink(store, scope, library, chain, i);
    }
  }
}
