/** What the paths of the target lead to while a rollback looks them up, through whatever is visible. */
module SyncPaths {
  import opened Wrappers
  import opened Bytes
  import opened FileSystem
  import opened SyncApply
  import opened SyncInvariant

  /** With every entry hidden, an entry that is not promoted bears a reserved name. */
  lemma BackCleared(u: Setup, s: State)
    requires Sound(u) && Tables(u, s) && BackOrder(u, s) && AllHidden(s) && s.rows != map[]
    ensures Cleared(u, s)
  {
    forall j | j in u.cap.place
      ensures OffSight(u, s, j)
    {
      if j in s.fs.place && Top(u, j) && !Promoted(u, s, j) {
        assert BackRec(u, s, j) && RecOk(u, s, j) && SetAside(s, j);
        assert u.reserved(s.recs[j].hidden);
      }
    }
  }

  /** A path of the target leads to its own inode, or to the promoted file that belongs there. */
  lemma {:induction false} LeadsHome(u: Setup, s: State, p: Path, i: Ino)
    requires Sound(u) && WellFormed(s.fs) && s.fs.root == u.cap.root && Tables(u, s) && Places(u, s) && Cleared(u, s)
    requires p in u.target && Leads(s.fs, p, i)
    ensures p != [] && DirReady(u, s, Parent(p)) && i in s.fs.place && s.fs.place[i] == PlaceOf(u, s, p)
    ensures if i in u.cap.place then Promoted(u, s, i) && p in u.source && u.source[p] == i
            else p !in u.source && i in s.of && s.of[i] == p && p in s.rows && s.rows[p].made == Some(i)
    decreases |p|
  {
    ParentNotSource(u, p);
    var d := LastStep(s.fs, p, i);
    if Parent(p) != [] {
      LeadsHome(u, s, Parent(p), d);
    }
    LeafOwner(u, s, p, i);
  }

  lemma LastStep(fs: FS, p: Path, i: Ino) returns (d: Ino)
    requires p != [] && Leads(fs, p, i)
    ensures Leads(fs, Parent(p), d) && Holds(fs, Place(d, Leaf(p)), i) && (Parent(p) == [] ==> d == fs.root)
  {
    d :| d in fs.attr && Leads(fs, Parent(p), d) && Holds(fs, Place(d, Leaf(p)), i);
  }

  /** A directory of the target that is in place is found there. */
  lemma {:induction false} ReadyIsFound(u: Setup, s: State, p: Path)
    requires Sound(u) && WellFormed(s.fs) && s.fs.root == u.cap.root && Tables(u, s) && Places(u, s) && p !in u.source && DirReady(u, s, p)
    ensures DirIno(u, s, p).Some? && Leads(s.fs, p, DirIno(u, s, p).value) && DirIno(u, s, p).value in s.fs.attr
    decreases |p|
  {
    if p != [] {
      ParentReady(u, s, p);
      assert OfOk(u, s, s.rows[p].made.value);
      ParentNotSource(u, p);
      ReadyIsFound(u, s, Parent(p));
    }
  }

  /** What a target path's directory holds is found there. */
  lemma InsideIsFound(u: Setup, s: State, p: Path, n: Name, i: Ino)
    requires Sound(u) && WellFormed(s.fs) && s.fs.root == u.cap.root && Tables(u, s) && Places(u, s)
    requires p in u.target && p != [] && DirReady(u, s, Parent(p)) && Holds(s.fs, Place(PlaceOf(u, s, p).dir, n), i)
    ensures Leads(s.fs, Sibling(p, n), i) && Seen(s.fs, Sibling(p, n))
  {
    ParentNotSource(u, p);
    ReadyIsFound(u, s, Parent(p));
    var at := Sibling(p, n);
    assert Parent(at) == Parent(p) && Leaf(at) == n;
    assert Leads(s.fs, Parent(at), PlaceOf(u, s, p).dir);
  }

  /** The other way round, for the name that a path is undone under. */
  lemma SiblingHome(u: Setup, s: State, p: Path, n: Name, i: Ino)
    requires Sound(u) && WellFormed(s.fs) && s.fs.root == u.cap.root && Tables(u, s) && Places(u, s) && Cleared(u, s)
    requires p in u.target && p != [] && Leads(s.fs, Sibling(p, n), i)
    ensures DirReady(u, s, Parent(p)) && Holds(s.fs, Place(PlaceOf(u, s, p).dir, n), i)
  {
    var at := Sibling(p, n);
    assert Parent(at) == Parent(p) && Leaf(at) == n;
    var d := LastStep(s.fs, at, i);
    ParentNotSource(u, p);
    if Parent(p) != [] {
      LeadsHome(u, s, Parent(p), d);
    }
  }
}
