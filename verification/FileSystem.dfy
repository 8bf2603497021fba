/**
  A file system as its system calls change it: every inode but the root has one place, a name in a
  directory. Moving a directory moves what is below it, since places refer to directories by inode.
 */
module FileSystem {
  import opened Wrappers
  import opened Bytes

  type Ino = nat

  type Name = Bytes

  datatype Place = Place(dir: Ino, name: Name)

  /** A directory's time is unknown once the system has touched it. */
  datatype Attr = FileAttr(content: nat, mtime: Option<nat>) | DirAttr(mtime: Option<nat>)

  /** `next` is an inode number that was never used. */
  datatype FS = FS(root: Ino, next: Ino, place: map<Ino, Place>, attr: map<Ino, Attr>)

  ghost predicate WellFormed(fs: FS) {
    && fs.root in fs.attr && fs.root !in fs.place && (forall i :: i in fs.attr <==> i == fs.root || i in fs.place)
    && (forall i :: i in fs.attr ==> i < fs.next)
    && (forall i :: i in fs.place ==> IsDir(fs, fs.place[i].dir))
    && NoClash(fs)
  }

  /** No two inodes share a place. */
  ghost predicate NoClash(fs: FS) {
    forall i {:trigger Sole(fs, i)} :: i in fs.place ==> Sole(fs, i)
  }

  ghost predicate Sole(fs: FS, i: Ino)
    requires i in fs.place
  {
    forall j :: j in fs.place && fs.place[j] == fs.place[i] ==> j == i
  }

  predicate IsDir(fs: FS, d: Ino) {
    d in fs.attr && fs.attr[d].DirAttr?
  }

  predicate Occupied(fs: FS, at: Place) {
    exists i :: i in fs.place && fs.place[i] == at
  }

  predicate Holds(fs: FS, at: Place, i: Ino) {
    i in fs.place && fs.place[i] == at
  }

  predicate Empty(fs: FS, d: Ino) {
    forall i :: i in fs.place ==> fs.place[i].dir != d
  }

  // ---- paths ----

  function Leaf(p: seq<Name>): Name
    requires p != []
  {
    p[|p| - 1]
  }

  function Parent(p: seq<Name>): seq<Name>
    requires p != []
  {
    p[..|p| - 1]
  }

  /** The path leads to the inode, name by name from the root. */
  predicate Leads(fs: FS, p: seq<Name>, i: Ino)
    decreases |p|
  {
    if p == [] then i == fs.root
    else exists d {:trigger Leads(fs, Parent(p), d)} :: d in fs.attr && Leads(fs, Parent(p), d) && Holds(fs, Place(d, Leaf(p)), i)
  }

  /** The path leads somewhere. */
  predicate Seen(fs: FS, p: seq<Name>) {
    exists i {:trigger Leads(fs, p, i)} :: i in fs.attr && Leads(fs, p, i)
  }

  /** A path leads to one inode. */
  lemma {:induction false} LeadsToOne(fs: FS, p: seq<Name>, i: Ino, j: Ino)
    requires NoClash(fs) && Leads(fs, p, i) && Leads(fs, p, j)
    ensures i == j
    decreases |p|
  {
    if p != [] {
      var d :| d in fs.attr && Leads(fs, Parent(p), d) && Holds(fs, Place(d, Leaf(p)), i);
      var e :| e in fs.attr && Leads(fs, Parent(p), e) && Holds(fs, Place(e, Leaf(p)), j);
      LeadsToOne(fs, Parent(p), d, e);
      assert Sole(fs, i);
    }
  }

  // ---- system calls ----

  function Dated(a: Attr, mtime: Option<nat>): Attr {
    match a
    case FileAttr(content, _) => FileAttr(content, mtime)
    case DirAttr(_) => DirAttr(mtime)
  }

  function Touched(attr: map<Ino, Attr>, d: Ino): map<Ino, Attr> {
    if d in attr then attr[d := Dated(attr[d], None)] else attr
  }

  /** A rename that replaces nothing; both directories are touched. */
  function Move(fs: FS, i: Ino, to: Place): FS
    requires i in fs.place
  {
    fs.(place := fs.place[i := to], attr := Touched(Touched(fs.attr, fs.place[i].dir), to.dir))
  }

  /** A new file or directory with the next inode number. */
  function Make(fs: FS, at: Place, a: Attr): FS {
    fs.(next := fs.next + 1, place := fs.place[fs.next := at], attr := Touched(fs.attr, at.dir)[fs.next := a])
  }

  function Remove(fs: FS, i: Ino): FS
    requires i in fs.place
  {
    fs.(place := fs.place - {i}, attr := Touched(fs.attr, fs.place[i].dir) - {i})
  }

  function SetAttr(fs: FS, i: Ino, a: Attr): FS {
    fs.(attr := fs.attr[i := a])
  }

  /** Places that were distinct stay so when at most one inode goes to a place that was free. */
  lemma StillApart(fs: FS, after: FS, moved: Ino)
    requires NoClash(fs) && forall j :: j in after.place && j != moved ==> j in fs.place && after.place[j] == fs.place[j]
    requires moved in after.place ==> (moved in fs.place && after.place[moved] == fs.place[moved]) || !Occupied(fs, after.place[moved])
    ensures NoClash(after)
  {
    forall i | i in after.place
      ensures Sole(after, i)
    {
      if i in fs.place {
        assert Sole(fs, i);
      }
      if moved in fs.place {
        assert Sole(fs, moved);
      }
    }
  }

  lemma MoveKeepsOrder(fs: FS, i: Ino, to: Place)
    requires WellFormed(fs) && i in fs.place && !Occupied(fs, to) && IsDir(fs, to.dir)
    ensures WellFormed(Move(fs, i, to))
  {
    var after := Move(fs, i, to);
    DirsStay(fs, after, {});
    StillApart(fs, after, i);
  }

  lemma MakeKeepsOrder(fs: FS, at: Place, a: Attr)
    requires WellFormed(fs) && !Occupied(fs, at) && IsDir(fs, at.dir)
    ensures WellFormed(Make(fs, at, a)) && Holds(Make(fs, at, a), at, fs.next)
  {
    DirsStay(fs, Make(fs, at, a), {});
    StillApart(fs, Make(fs, at, a), fs.next);
  }

  lemma RemoveKeepsOrder(fs: FS, i: Ino)
    requires WellFormed(fs) && i in fs.place && Empty(fs, i)
    ensures WellFormed(Remove(fs, i))
  {
    var after := Remove(fs, i);
    DirsStay(fs, after, {i});
    StillApart(fs, after, i);
    forall j | j in after.place
      ensures IsDir(after, after.place[j].dir)
    {
      assert fs.place[j].dir != i && IsDir(fs, fs.place[j].dir);
    }
  }

  lemma SetAttrKeepsOrder(fs: FS, i: Ino, a: Attr)
    requires WellFormed(fs) && i in fs.attr && a.DirAttr? == fs.attr[i].DirAttr?
    ensures WellFormed(SetAttr(fs, i, a))
  {
    var after := SetAttr(fs, i, a);
    DirsStay(fs, after, {});
    StillApart(fs, after, fs.root);
    forall j | j in after.place
      ensures IsDir(after, after.place[j].dir)
    {
      assert IsDir(fs, fs.place[j].dir);
    }
  }

  /** Directories other than the removed ones stay directories. */
  lemma DirsStay(fs: FS, after: FS, gone: set<Ino>)
    requires forall d :: d in fs.attr && d !in gone ==> d in after.attr && after.attr[d].DirAttr? == fs.attr[d].DirAttr?
    ensures forall d :: IsDir(fs, d) && d !in gone ==> IsDir(after, d)
  {
  }

  /** An inode that left its place left it free. */
  lemma LeftFree(fs: FS, after: FS, i: Ino)
    requires WellFormed(fs) && i in fs.place && (i in after.place ==> after.place[i] != fs.place[i])
    requires forall j :: j in after.place && j != i ==> j in fs.place && after.place[j] == fs.place[j]
    ensures !Occupied(after, fs.place[i])
  {
    assert Sole(fs, i);
  }
}
