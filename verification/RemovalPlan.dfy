/** Removing a captured directory: a plan written down as a whole, the deepest entries first. */
module RemovalPlan {
  import opened Wrappers
  import opened Bytes
  import opened FileSystem
  import opened FsJournal

  /** An entry below the directory, as it was scanned. */
  datatype Item = Item(ino: Ino, dir: Ino, name: Name, isDir: bool, content: nat, mtime: Option<nat>, depth: nat)

  function Inodes(items: seq<Item>): set<Ino> {
    set k | 0 <= k < |items| :: items[k].ino
  }

  /** The entry is where and what the scan says. */
  predicate Scanned(fs: FS, x: Item) {
    && Holds(fs, Place(x.dir, x.name), x.ino) && x.ino in fs.attr && fs.attr[x.ino].DirAttr? == x.isDir
    && (!x.isDir ==> fs.attr[x.ino] == FileAttr(x.content, x.mtime))
  }

  /** The entries below the directory, all of them, each once; a child is one deeper than its directory. */
  ghost predicate SnapshotOf(fs: FS, top: Ino, items: seq<Item>) {
    && (forall k :: 0 <= k < |items| ==> Scanned(fs, items[k]) && items[k].ino != top)
    && (forall k :: 0 <= k < |items| ==> items[k].dir == top || items[k].dir in Inodes(items))
    && (forall i :: i in fs.place && (fs.place[i].dir == top || fs.place[i].dir in Inodes(items)) ==> i in Inodes(items))
    && (forall j, k :: 0 <= j < |items| && 0 <= k < |items| && items[j].dir == items[k].ino ==> items[j].depth > items[k].depth)
    && (forall j, k :: 0 <= j < k < |items| ==> items[j].ino != items[k].ino)
  }

  ghost predicate DeepestFirst(items: seq<Item>) {
    forall j, k :: 0 <= j < k < |items| ==> items[j].depth >= items[k].depth
  }

  function InsertItem(x: Item, items: seq<Item>): seq<Item> {
    if items == [] || x.depth >= items[0].depth then [x] + items else [items[0]] + InsertItem(x, items[1..])
  }

  lemma {:induction false} InsertKeeps(x: Item, items: seq<Item>)
    ensures multiset(InsertItem(x, items)) == multiset(items) + multiset{x}
  {
    if items != [] && x.depth < items[0].depth {
      InsertKeeps(x, items[1..]);
      assert items == [items[0]] + items[1..];
    }
  }

  lemma InsertHas(x: Item, items: seq<Item>, y: Item)
    requires y in InsertItem(x, items)
    ensures y == x || y in items
  {
    InsertKeeps(x, items);
    assert y in multiset(InsertItem(x, items));
    assert y in multiset(items) + multiset{x};
  }

  lemma {:induction false} InsertSorts(x: Item, items: seq<Item>)
    requires DeepestFirst(items)
    ensures DeepestFirst(InsertItem(x, items))
  {
    if items != [] && x.depth < items[0].depth {
      InsertSorts(x, items[1..]);
      var rest := InsertItem(x, items[1..]);
      forall k | 0 <= k < |rest|
        ensures items[0].depth >= rest[k].depth
      {
        InsertHas(x, items[1..], rest[k]);
      }
    }
  }

  function Removal(x: Item): Action {
    Action(if x.isDir then Rmdir else Unlink, x.dir, x.name, Place(x.dir, []), x.isDir, Some(x.ino), x.content, x.mtime, Intent)
  }

  function Removals(items: seq<Item>): seq<Action> {
    seq(|items|, k requires 0 <= k < |items| => Removal(items[k]))
  }

  /** The plan: the entries deepest first, and last the directory itself. */
  method PlanRemoval(items: seq<Item>, top: Item) returns (plan: seq<Action>, ghost ordered: seq<Item>)
    ensures DeepestFirst(ordered) && multiset(ordered) == multiset(items)
    ensures plan == Removals(ordered + [top])
    ensures |plan| == |items| + 1 && plan[|items|] == Removal(top)
  {
    var sorted: seq<Item> := [];
    var i := 0;
    while i < |items|
      invariant 0 <= i <= |items| && DeepestFirst(sorted) && multiset(sorted) == multiset(items[..i])
    {
      InsertSorts(items[i], sorted);
      InsertKeeps(items[i], sorted);
      assert items[..i + 1] == items[..i] + [items[i]];
      sorted := InsertItem(items[i], sorted);
      i := i + 1;
    }
    assert items[..|items|] == items;
    ordered := sorted;
    assert |multiset(sorted)| == |multiset(items)|;
    plan := Removals(sorted + [top]);
  }

  // ---- why it removes exactly the directory ----

  /** An entry that stays is as it was, but for the time of a directory that something was removed from. */
  predicate StaysAs(fs: FS, now: FS, dirs: set<Ino>, i: Ino)
    requires i in fs.attr
  {
    i in now.attr && now.attr[i] == if i in dirs then Dated(fs.attr[i], None) else fs.attr[i]
  }

  /** Some entries are gone, out of some directories; every other entry is where and what it was. */
  ghost predicate GoneFrom(fs: FS, now: FS, gone: set<Ino>, dirs: set<Ino>) {
    && now.place == fs.place - gone && WellFormed(now) && now.root == fs.root && now.next == fs.next
    && (forall d :: d in dirs ==> IsDir(fs, d))
    && (forall i {:trigger StaysAs(fs, now, dirs, i)} :: i in fs.attr && i !in gone ==> StaysAs(fs, now, dirs, i))
  }

  /** The directories that the entries before position k are in. */
  function DirsTo(all: seq<Item>, k: nat): set<Ino>
    requires k <= |all|
  {
    set j | 0 <= j < k :: all[j].dir
  }

  /** The entries before position k of the ordered list. */
  function GoneTo(all: seq<Item>, k: nat): set<Ino>
    requires k <= |all|
  {
    Inodes(all[..k])
  }

  lemma GoneMore(all: seq<Item>, k: nat)
    requires k < |all|
    ensures GoneTo(all, k + 1) == GoneTo(all, k) + {all[k].ino}
  {
    assert all[..k + 1] == all[..k] + [all[k]];
    assert all[..k + 1][k] == all[k];
    forall i | i in GoneTo(all, k + 1)
      ensures i in GoneTo(all, k) + {all[k].ino}
    {
      var j :| 0 <= j < k + 1 && all[..k + 1][j].ino == i;
      assert j < k ==> all[..k][j].ino == i;
    }
    forall i | i in GoneTo(all, k)
      ensures i in GoneTo(all, k + 1)
    {
      var j :| 0 <= j < k && all[..k][j].ino == i;
      assert all[..k + 1][j].ino == i;
    }
  }

  /** All entries in order, the directory itself last: each is empty when its turn comes. */
  ghost predicate InOrder(fs: FS, all: seq<Item>) {
    && (forall k :: 0 <= k < |all| ==> Scanned(fs, all[k]))
    && (forall j, k :: 0 <= j < k < |all| ==> all[j].ino != all[k].ino)
    && (forall i, k :: 0 <= k < |all| && i in fs.place && fs.place[i].dir == all[k].ino ==> i in GoneTo(all, k))
  }

  lemma NotGone(all: seq<Item>, k: nat)
    requires k < |all| && forall i, j :: 0 <= i < j < |all| ==> all[i].ino != all[j].ino
    ensures all[k].ino !in GoneTo(all, k)
  {
  }

  lemma StepReady(fs: FS, now: FS, all: seq<Item>, k: nat)
    requires WellFormed(fs) && k < |all| && InOrder(fs, all) && GoneFrom(fs, now, GoneTo(all, k), DirsTo(all, k))
    ensures var a := Removal(all[k]); Ready(now, a) && !Carried(now, a)
  {
    var a, x := Removal(all[k]), all[k];
    NotGone(all, k);
    assert Scanned(fs, x);
    assert x.ino in now.place && now.place[x.ino] == From(a) && StaysAs(fs, now, DirsTo(all, k), x.ino);
    assert x.ino in DirsTo(all, k) ==> IsDir(fs, x.ino);
    assert IsDir(now, now.place[x.ino].dir);
    if x.isDir {
      assert Empty(now, x.ino);
    }
  }

  lemma RemoveOne(fs: FS, now: FS, gone: set<Ino>, dirs: set<Ino>, i: Ino)
    requires WellFormed(fs) && GoneFrom(fs, now, gone, dirs) && i in now.place && Empty(now, i)
    ensures GoneFrom(fs, Remove(now, i), gone + {i}, dirs + {fs.place[i].dir})
  {
    var after, more := Remove(now, i), dirs + {fs.place[i].dir};
    RemoveKeepsOrder(now, i);
    assert after.place == fs.place - (gone + {i});
    assert IsDir(now, now.place[i].dir) && IsDir(fs, fs.place[i].dir);
    forall j | j in fs.attr && j !in gone + {i}
      ensures StaysAs(fs, after, more, j)
    {
      assert StaysAs(fs, now, dirs, j);
    }
  }

  lemma StepGone(fs: FS, now: FS, all: seq<Item>, k: nat)
    requires WellFormed(fs) && k < |all| && InOrder(fs, all) && GoneFrom(fs, now, GoneTo(all, k), DirsTo(all, k))
    requires var a := Removal(all[k]); Ready(now, a) && !Carried(now, a)
    ensures var a := Removal(all[k]);
            Settle(Perform(now, a), a) == Perform(now, a) && GoneFrom(fs, Perform(now, a), GoneTo(all, k + 1), DirsTo(all, k + 1))
  {
    var x := all[k];
    assert Scanned(fs, x);
    if !x.isDir {
      FilesAreEmpty(now, x.ino);
    }
    RemoveOne(fs, now, GoneTo(all, k), DirsTo(all, k), x.ino);
    GoneMore(all, k);
    assert DirsTo(all, k + 1) == DirsTo(all, k) + {x.dir};
  }

  lemma FinishOne(d: Disk, k: nat, x: Item)
    requires k < |d.journal| && d.journal[k] == Removal(x) && Ready(d.fs, Removal(x))
    requires Settle(Perform(d.fs, Removal(x)), Removal(x)) == Perform(d.fs, Removal(x))
    ensures Live(d, k) && Finished(d, k) == Disk(Perform(d.fs, Removal(x)), d.journal[k := Removal(x).(state := Completed)])
  {
  }

  /** The plan's actions from position k on, in their places in the journal. */
  ghost predicate Planned(d: Disk, first: nat, all: seq<Item>, k: nat) {
    |d.journal| == first + |all| && forall j :: k <= j < |all| ==> d.journal[first + j] == Removal(all[j])
  }

  /** The plan is carried out up to position k. */
  ghost predicate PlanAt(fs: FS, d: Disk, first: nat, all: seq<Item>, k: nat) {
    k <= |all| && Planned(d, first, all, k) && GoneFrom(fs, d.fs, GoneTo(all, k), DirsTo(all, k))
  }

  lemma PlanStep(fs: FS, d: Disk, first: nat, all: seq<Item>, k: nat)
    requires WellFormed(fs) && InOrder(fs, all) && k < |all| && PlanAt(fs, d, first, all, k)
    ensures Live(d, first + k) && PlanAt(fs, Finished(d, first + k), first, all, k + 1)
  {
    StepReady(fs, d.fs, all, k);
    StepGone(fs, d.fs, all, k);
    FinishOne(d, first + k, all[k]);
  }

  lemma {:induction false} PlanRuns(fs: FS, d: Disk, first: nat, all: seq<Item>, k: nat, p: nat)
    requires WellFormed(fs) && InOrder(fs, all) && PlanAt(fs, d, first, all, k) && p == first + k
    ensures p <= |d.journal| && AllReady(d, p) && PlanAt(fs, FinishAll(d, p), first, all, |all|)
    decreases |all| - k
  {
    if k < |all| {
      PlanStep(fs, d, first, all, k);
      var next := Finished(d, p);
      PlanRuns(fs, next, first, all, k + 1, p + 1);
      OneMore(d, p);
    }
  }

  lemma OneMore(d: Disk, k: nat)
    requires Live(d, k) && AllReady(Finished(d, k), k + 1)
    ensures AllReady(d, k) && FinishAll(d, k) == FinishAll(Finished(d, k), k + 1)
  {
  }

  lemma SnapshotInOrder(fs: FS, items: seq<Item>, ordered: seq<Item>, top: Item)
    requires WellFormed(fs) && SnapshotOf(fs, top.ino, ordered) && Scanned(fs, top) && top.isDir && DeepestFirst(ordered)
    ensures InOrder(fs, ordered + [top])
  {
    var all := ordered + [top];
    forall i, k | 0 <= k < |all| && i in fs.place && fs.place[i].dir == all[k].ino
      ensures i in GoneTo(all, k)
    {
      if k < |ordered| {
        assert all[k] == ordered[k] && ordered[k].ino in Inodes(ordered);
      }
      var j :| 0 <= j < |ordered| && ordered[j].ino == i;
      assert Scanned(fs, ordered[j]);
      if k < |ordered| {
        assert ordered[j].dir == ordered[k].ino;
        assert ordered[j].depth > ordered[k].depth && j < k;
      }
      assert all[..k][j].ino == i;
    }
  }

  /**
    The plan of a directory's removal, behind a journal of completed actions, can be carried out
    to its end, and leaves everything but the directory and what was below it where it was.
   */
  lemma PlanRemovesDirectory(fs: FS, done: seq<Action>, ordered: seq<Item>, top: Item)
    requires WellFormed(fs) && SnapshotOf(fs, top.ino, ordered) && Scanned(fs, top) && top.isDir && DeepestFirst(ordered)
    requires forall j :: 0 <= j < |done| ==> done[j].state.Completed?
    ensures var d := Disk(fs, done + Removals(ordered + [top]));
            AllReady(d, 0) && GoneFrom(fs, FinishAll(d, 0).fs, Inodes(ordered) + {top.ino}, DirsTo(ordered + [top], |ordered| + 1))
  {
    var all := ordered + [top];
    var d := Disk(fs, done + Removals(all));
    SnapshotInOrder(fs, ordered, ordered, top);
    PlanPlaced(d, done, all);
    assert GoneTo(all, 0) == {} && DirsTo(all, 0) == {};
    NothingGone(fs);
    PlanRuns(fs, d, |done|, all, 0, |done|);
    SkipDone(d, 0, |done|);
    AllInodes(ordered, top);
  }

  lemma PlanPlaced(d: Disk, done: seq<Action>, all: seq<Item>)
    requires d.journal == done + Removals(all)
    ensures Planned(d, |done|, all, 0)
  {
  }

  lemma NothingGone(fs: FS)
    requires WellFormed(fs)
    ensures GoneFrom(fs, fs, {}, {})
  {
    assert fs.place - {} == fs.place;
  }

  lemma AllInodes(ordered: seq<Item>, top: Item)
    ensures GoneTo(ordered + [top], |ordered| + 1) == Inodes(ordered) + {top.ino}
  {
    var all := ordered + [top];
    assert all[..|ordered|] == ordered;
    GoneMore(all, |ordered|);
  }
}
