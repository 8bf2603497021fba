/**
  Removing a moved-aside entry is one step of an application. Here it is what the program does: one
  unlink for a file, and for a directory a plan of many removals, which a crash may cut anywhere.
 */
module SyncErasure {
  import opened Wrappers
  import opened Bytes
  import opened FileSystem
  import opened FsJournal
  import opened SyncApply
  import opened SyncInvariant
  import opened SyncFinish
  import R = RemovalPlan

  /** The captured directories form a tree. */
  ghost predicate Tree(fs: FS, rank: Ino -> nat) {
    forall i :: i in fs.place && fs.place[i].dir in fs.place ==> rank(fs.place[i].dir) < rank(i)
  }

  /** What lies in a captured directory lay there when it was captured, and was not promoted. */
  lemma InsideStays(u: Setup, s: State, j: Ino)
    requires Sound(u) && Inv(u, s) && s.newBase && j in s.fs.place && s.fs.place[j].dir in u.cap.place
    ensures j in u.cap.place && j !in u.promo && s.fs.place[j] == u.cap.place[j] && !Top(u, j)
  {
    assert Legit(u, s, j);
    assert WellFormed(u.cap);
    if j in u.cap.place {
      PromotedDir(u, s, j);
    } else {
      assert OfOk(u, s, j);
      DirOfPath(u, s, s.of[j]);
    }
  }

  lemma {:induction false} ListedIsBelow(u: Setup, s: State, i: Ino, items: seq<R.Item>, k: nat)
    requires Sound(u) && Inv(u, s) && CanErase(u, s, i) && R.SnapshotOf(s.fs, i, items) && k < |items|
    ensures items[k].ino in AreaOf(u, s, i)
    decreases items[k].depth
  {
    var x := items[k];
    assert R.Scanned(s.fs, x) && RecOk(u, s, i);
    if x.dir != i {
      var m :| 0 <= m < |items| && items[m].ino == x.dir;
      ListedIsBelow(u, s, i, items, m);
    }
    InsideStays(u, s, x.ino);
    assert AreaOk(u, x.ino) && AreaOk(u, i);
  }

  lemma {:induction false} BelowIsListed(u: Setup, s: State, i: Ino, items: seq<R.Item>, rank: Ino -> nat, j: Ino)
    requires Sound(u) && Inv(u, s) && CanErase(u, s, i) && R.SnapshotOf(s.fs, i, items) && Tree(u.cap, rank) && j in AreaOf(u, s, i) && j != i
    ensures j in R.Inodes(items)
    decreases rank(j)
  {
    assert AreaOk(u, j) && RecOk(u, s, i) && Legit(u, s, j);
    var d := u.cap.place[j].dir;
    assert IsDir(u.cap, d) && d in u.cap.place && s.fs.place[j].dir == d;
    assert IsDir(s.fs, d);
    assert d in u.promo ==> PromoOk(u, d);
    if d != i {
      BelowIsListed(u, s, i, items, rank, d);
    }
  }

  lemma ListingIsArea(u: Setup, s: State, i: Ino, items: seq<R.Item>, rank: Ino -> nat)
    requires Sound(u) && Inv(u, s) && CanErase(u, s, i) && R.SnapshotOf(s.fs, i, items) && Tree(u.cap, rank)
    ensures R.Inodes(items) + {i} == AreaOf(u, s, i)
  {
    assert RecOk(u, s, i) && AreaOk(u, i);
    forall j | j in R.Inodes(items)
      ensures j in AreaOf(u, s, i)
    {
      var k :| 0 <= k < |items| && items[k].ino == j;
      ListedIsBelow(u, s, i, items, k);
    }
    forall j | j in AreaOf(u, s, i) && j != i
      ensures j in R.Inodes(items)
    {
      BelowIsListed(u, s, i, items, rank, j);
    }
  }

  /** Only the root, of what stays, had something removed from it. */
  lemma OnlyRootTouched(fs: FS, items: seq<R.Item>, top: R.Item, d: Ino)
    requires R.SnapshotOf(fs, top.ino, items) && d in R.DirsTo(items + [top], |items| + 1)
    ensures d == top.dir || d in R.Inodes(items) + {top.ino}
  {
    var all := items + [top];
    var k :| 0 <= k < |items| + 1 && all[k].dir == d;
  }

  /** The plan's entries, the directory itself among them. */
  function Gone(items: seq<R.Item>, top: R.Item): set<Ino> {
    R.Inodes(items) + {top.ino}
  }

  function Dirs(items: seq<R.Item>, top: R.Item): set<Ino> {
    R.DirsTo(items + [top], |items| + 1)
  }

  lemma GoneAttr(fs: FS, now: FS, items: seq<R.Item>, top: R.Item, j: Ino)
    requires WellFormed(fs) && R.SnapshotOf(fs, top.ino, items) && top.dir == fs.root && j in fs.attr && j !in Gone(items, top)
    requires R.StaysAs(fs, now, Dirs(items, top), j) && IsDir(fs, fs.root)
    ensures j in now.attr && now.attr[j] == Touched(fs.attr, fs.root)[j]
  {
    var all := items + [top];
    assert all[|items|].dir == fs.root;
    if j in Dirs(items, top) {
      OnlyRootTouched(fs, items, top, j);
    }
  }

  lemma GoneIsErased(fs: FS, now: FS, items: seq<R.Item>, top: R.Item)
    requires WellFormed(fs) && R.SnapshotOf(fs, top.ino, items) && top.dir == fs.root && top.ino != fs.root && IsDir(fs, fs.root)
    requires R.GoneFrom(fs, now, Gone(items, top), Dirs(items, top))
    ensures now == RemoveAll(fs, Gone(items, top))
  {
    var attr := Touched(fs.attr, fs.root) - Gone(items, top);
    forall j | j in fs.attr && j !in Gone(items, top)
      ensures j in now.attr && now.attr[j] == attr[j]
    {
      assert R.StaysAs(fs, now, Dirs(items, top), j);
      GoneAttr(fs, now, items, top, j);
    }
    RootStays(fs, items, top);
    forall j
      ensures j in now.attr <==> j in attr
    {
      assert j in now.attr <==> j == fs.root || j in now.place;
      assert j in fs.attr <==> j == fs.root || j in fs.place;
    }
    assert now.attr == attr;
  }

  lemma RootStays(fs: FS, items: seq<R.Item>, top: R.Item)
    requires WellFormed(fs) && R.SnapshotOf(fs, top.ino, items) && top.ino != fs.root
    ensures fs.root !in Gone(items, top)
  {
    assert forall k :: 0 <= k < |items| ==> R.Scanned(fs, items[k]);
  }

  /** The plan of a moved-aside directory's removal, behind a journal of completed actions, ends in the files that the step Erase leaves. */
  lemma PlanErases(u: Setup, s: State, i: Ino, done: seq<Action>, ordered: seq<R.Item>, top: R.Item, rank: Ino -> nat, d: Disk)
    requires Sound(u) && Inv(u, s) && CanErase(u, s, i) && Tree(u.cap, rank)
    requires R.Scanned(s.fs, top) && top.ino == i && top.isDir && R.SnapshotOf(s.fs, i, ordered) && R.DeepestFirst(ordered)
    requires forall j :: 0 <= j < |done| ==> done[j].state.Completed?
    requires d == Disk(s.fs, done + R.Removals(ordered + [top]))
    ensures AllReady(d, 0) && FinishAll(d, 0).fs == Erased(u, s, i).fs
  {
    AtTrash(u, s, i);
    R.PlanRemovesDirectory(s.fs, done, ordered, top);
    ListingIsArea(u, s, i, ordered, rank);
    GoneIsErased(s.fs, FinishAll(d, 0).fs, ordered, top);
  }

  lemma AtTrash(u: Setup, s: State, i: Ino)
    requires Sound(u) && Inv(u, s) && CanErase(u, s, i)
    ensures i in s.fs.place && s.fs.place[i].dir == s.fs.root && i != s.fs.root && IsDir(s.fs, s.fs.root)
  {
    assert RecOk(u, s, i) && Legit(u, s, i);
  }

  /** However that plan is cut and recovered, it ends the same. */
  lemma CutPlanErases(u: Setup, s: State, i: Ino, d: Disk, now: Disk)
    requires WellFormed(d.fs) && AllReady(d, 0) && FinishAll(d, 0).fs == Erased(u, s, i).fs && MayBeCut(d, 0, now)
    ensures AllReady(now, 0) && FinishAll(now, 0).fs == Erased(u, s, i).fs
  {
    RecoveryEndsTheSame(d, 0, now);
  }

  /** A moved-aside file is removed by one unlink. */
  lemma UnlinkErases(u: Setup, s: State, i: Ino)
    requires Sound(u) && Inv(u, s) && CanErase(u, s, i) && i in s.fs.attr && s.fs.attr[i].FileAttr?
    ensures Remove(s.fs, i) == Erased(u, s, i).fs
  {
    assert RecOk(u, s, i) && AreaOk(u, i) && Legit(u, s, i) && AttrOk(u, s, i);
    forall j | j in AreaOf(u, s, i)
      ensures j == i
    {
      assert AreaOk(u, j);
    }
    assert AreaOf(u, s, i) == {i};
  }
}
