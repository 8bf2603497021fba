/** Rolling an application back keeps the invariant. */
module SyncRollback {
  import opened Wrappers
  import opened Bytes
  import opened FileSystem
  import opened SyncApply
  import opened SyncInvariant
  import opened SyncSteps
  import opened SyncInstall
  import opened SyncFinish
  import opened SyncPaths

  lemma HiddenSame(s: State, t: State)
    requires t.recs == s.recs
    ensures AllHidden(t) == AllHidden(s)
  {
    assert forall i :: i in s.recs ==> SetAside(t, i) == SetAside(s, i);
  }

  lemma RollbackKeeps(u: Setup, s: State)
    requires Sound(u) && Inv(u, s) && CanRollback(s)
    ensures Inv(u, s.(phase := RollingBack))
  {
    var t := s.(phase := RollingBack);
    HiddenSame(s, t);
    TablesSame(u, s, t);
    OverSame(u, s, t);
    forall i | i in u.cap.place && Top(u, i)
      ensures BackRec(u, t, i)
    {
      assert ApplyRec(u, s, i);
    }
    forall p | p in u.target
      ensures BackRow(t, p)
    {
      assert ApplyRow(u, s, p);
    }
    forall p | p in t.rows
      ensures BackPath(t, p)
    {
      assert RowOk(u, s, p) && ApplyRow(u, s, p) && TargetOk(u, p);
      assert Parent(p) != [] ==> ApplyRow(u, s, Parent(p));
      assert !AtTemp(s, p);
    }
    assert forall p :: p in s.rows ==> AtTemp(t, p) == AtTemp(s, p);
    forall p | p in t.rows
      ensures TempHome(u, t, p)
    {
      TempDirReady(u, s, p);
    }
  }

  /** A temporary name is given only when the directory is in place. */
  lemma TempDirReady(u: Setup, s: State, p: Path)
    requires Sound(u) && Inv(u, s) && s.phase.Applying? && p in s.rows
    ensures TempHome(u, s, p)
  {
    assert RowOk(u, s, p) && ApplyRow(u, s, p);
    ParentNotSource(u, p);
    if s.rows[p].temp.Some? && Parent(p) != [] {
      assert Done(s, Parent(p)) && ApplyRow(u, s, Parent(p)) && RowOk(u, s, Parent(p));
    }
  }

  /** An inode was made only if the application is rolled back, not while it is pending. */
  lemma MadeIsBack(u: Setup, s: State, p: Path)
    requires Sound(u) && Inv(u, s) && Undoing(u, s, p) && s.rows[p].made.Some?
    ensures s.phase.RollingBack? && BackPath(s, p) && AllHidden(s) && RowOk(u, s, p) && Cleared(u, s) && !AtTemp(s, p)
  {
    assert s.phase.Pending? ==> PendingRow(s, p);
    assert BackPath(s, p) && RowOk(u, s, p);
    BackCleared(u, s);
  }

  // ---- restoring promotions ----

  /** While a promotion is in force, every top-level entry and every target path is still recorded. */
  lemma StillRecorded(u: Setup, s: State, i: Ino)
    requires Sound(u) && Inv(u, s) && s.phase.RollingBack? && i in s.links && !s.links[i]
    ensures i in u.promo && i in u.cap.place && i in s.fs.place && !Restored(s) && (Top(u, i) ==> i in s.recs) && Promoted(u, s, i)
  {
    assert PromoOk(u, i);
    if Top(u, i) {
      assert BackRec(u, s, i);
    }
  }

  lemma RestoreFits(u: Setup, s: State, i: Ino)
    requires Sound(u) && Inv(u, s) && CanRestore(u, s, i)
    ensures i in s.fs.place && Free(s.fs, HomeOf(u, s, i))
  {
    StillRecorded(u, s, i);
    assert Legit(u, s, i) && AreaOk(u, i) && PromoOk(u, i);
    PromotedLeaf(u, s, i);
    if Top(u, i) {
      assert RecOk(u, s, i);
      ReservedFree(u, s, HomeOf(u, s, i));
    } else {
      HomeFree(u, s, i);
    }
  }

  /** A place inside a captured directory is held by nobody else. */
  lemma HomeFree(u: Setup, s: State, i: Ino)
    requires Sound(u) && Base(u, s) && Tables(u, s) && Places(u, s) && Presence(u, s) && Attrs(u, s) && !s.newBase
    requires i in u.cap.place && !Top(u, i) && i in s.fs.place && Promoted(u, s, i)
    ensures Free(s.fs, u.cap.place[i])
  {
    var d := u.cap.place[i].dir;
    assert IsDir(u.cap, d) && d in u.cap.place;
    assert AttrOk(u, s, d) && Sole(u.cap, i);
    if Occupied(s.fs, u.cap.place[i]) {
      var j :| j in s.fs.place && s.fs.place[j] == u.cap.place[i];
      InsideCaptured(u, s, j);
    }
  }

  /** Whoever is in a captured directory was captured there and is not promoted. */
  lemma InsideCaptured(u: Setup, s: State, j: Ino)
    requires Sound(u) && Tables(u, s) && Places(u, s) && j in s.fs.place && s.fs.place[j].dir in u.cap.place
    ensures j in u.cap.place && !Promoted(u, s, j) && s.fs.place[j] == u.cap.place[j]
  {
    assert Legit(u, s, j);
    if j in u.cap.place {
      PromotedDir(u, s, j);
    } else {
      assert OfOk(u, s, j);
      DirOfPath(u, s, s.of[j]);
    }
  }

  lemma PutBackOrder(u: Setup, s: State, i: Ino)
    requires Sound(u) && WellFormed(s.fs) && i in u.cap.place && (Top(u, i) ==> i in s.recs) && i in s.fs.place && Free(s.fs, HomeOf(u, s, i))
    requires !Top(u, i) ==> IsDir(u.cap, u.cap.place[i].dir) && IsDir(s.fs, u.cap.place[i].dir)
    ensures WellFormed(PutBack(u, s, i))
  {
    MoveKeepsOrder(s.fs, i, HomeOf(u, s, i));
    var moved, d := Move(s.fs, i, HomeOf(u, s, i)), u.cap.place[i].dir;
    if !Top(u, i) {
      SetAttrKeepsOrder(moved, d, u.cap.attr[d]);
    }
  }

  lemma RestoredBase(u: Setup, s: State, i: Ino)
    requires Sound(u) && Base(u, s) && Tables(u, s) && Presence(u, s) && Attrs(u, s) && CanRestore(u, s, i) && i in s.fs.place && Free(s.fs, HomeOf(u, s, i)) && !s.newBase
    ensures var t := RestoredState(u, s, i); Base(u, t) && Tables(u, t) && Presence(u, t)
  {
    if !Top(u, i) {
      assert IsDir(u.cap, u.cap.place[i].dir) && AttrOk(u, s, u.cap.place[i].dir);
    }
    PutBackOrder(u, s, i);
    TablesSame(u, s, RestoredState(u, s, i));
  }

  lemma RestoredPlaces(u: Setup, s: State, i: Ino)
    requires Sound(u) && Tables(u, s) && Places(u, s) && CanRestore(u, s, i) && i in s.fs.place && !s.newBase
    ensures Places(u, RestoredState(u, s, i))
  {
    var t := RestoredState(u, s, i);
    GrowsByCaptured(u, s, t, i);
    forall j | j in t.fs.place
      ensures Legit(u, t, j)
    {
      if j != i {
        LegitGrows(u, s, t, j);
      }
    }
  }

  lemma RestoredAttrs(u: Setup, s: State, i: Ino)
    requires Sound(u) && Base(u, s) && Tables(u, s) && Places(u, s) && Presence(u, s) && Attrs(u, s) && CanRestore(u, s, i) && i in s.fs.place && !s.newBase
    requires Promoted(u, s, i)
    ensures Attrs(u, RestoredState(u, s, i))
  {
    var t, d := RestoredState(u, s, i), u.cap.place[i].dir;
    assert Legit(u, s, i);
    PromotedDir(u, s, i);
    assert IsDir(u.cap, d);
    forall j | j in t.fs.place
      ensures AttrOk(u, t, j)
    {
      assert AttrOk(u, s, j);
      RestoredAttr(u, s, i, j);
    }
  }

  /** The directory of the file gets back its time; others keep theirs, and the ones robbed before of another file are still. */
  lemma RestoredAttr(u: Setup, s: State, i: Ino, j: Ino)
    requires Sound(u) && Base(u, s) && Presence(u, s) && AttrOk(u, s, j) && CanRestore(u, s, i) && i in s.fs.place && !s.newBase && Promoted(u, s, i)
    requires s.fs.place[i].dir !in u.cap.place && IsDir(u.cap, u.cap.place[i].dir) && IsDir(s.fs, s.fs.place[i].dir)
    ensures AttrOk(u, RestoredState(u, s, i), j)
  {
    var t, d := RestoredState(u, s, i), u.cap.place[i].dir;
    if j in u.cap.place {
      if j != d && !Robbed(u, t, j) {
        StillRobbed(u, s, i, j);
      }
    } else {
      AttrKept(u, s, t, j);
    }
  }

  lemma StillRobbed(u: Setup, s: State, i: Ino, j: Ino)
    requires i in s.fs.place && i in u.cap.place && (Top(u, i) ==> i in s.recs) && j != u.cap.place[i].dir
    ensures Robbed(u, s, j) ==> Robbed(u, RestoredState(u, s, i), j)
  {
    if Robbed(u, s, j) {
      var k :| k in s.links && !s.links[k] && k in u.cap.place && u.cap.place[k].dir == j;
      var t := RestoredState(u, s, i);
      assert k in t.links && !t.links[k];
    }
  }

  /** What happens to a captured inode puts nothing at a temporary name. */
  lemma CapturedNoTemps(u: Setup, s: State, t: State, i: Ino)
    requires Sound(u) && Tables(u, s) && NoTemps(s) && i in u.cap.place && t.rows == s.rows
    requires forall j :: j in t.fs.place && j != i ==> j in s.fs.place && t.fs.place[j] == s.fs.place[j]
    ensures NoTemps(t)
  {
    forall p | p in t.rows
      ensures !AtTemp(t, p)
    {
      assert RowOk(u, s, p) && !AtTemp(s, p);
      if s.rows[p].made.Some? {
        MadeOrSource(u, s, p);
      }
    }
  }

  /** Directories in place stay there, and no path is new. */
  lemma TempHomesGrow(u: Setup, s: State, t: State)
    requires Sound(u) && Tables(u, s) && Places(u, s) && Grows(u, s, t)
    requires forall p {:trigger TempHome(u, s, p)} :: p in s.rows ==> TempHome(u, s, p)
    requires forall p :: p in t.rows ==> p in s.rows && t.rows[p].temp == s.rows[p].temp
    ensures forall p {:trigger TempHome(u, t, p)} :: p in t.rows ==> TempHome(u, t, p)
  {
    forall p | p in t.rows
      ensures TempHome(u, t, p)
    {
      assert TempHome(u, s, p) && RowOk(u, s, p);
      ParentNotSource(u, p);
      DirGrows(u, s, t, Parent(p));
    }
  }

  lemma RestoredOrder(u: Setup, s: State, i: Ino)
    requires Sound(u) && Tables(u, s) && Places(u, s) && BackOrder(u, s) && CanRestore(u, s, i) && i in s.fs.place && !Restored(s)
    ensures BackOrder(u, RestoredState(u, s, i))
  {
    var t := RestoredState(u, s, i);
    HiddenSame(s, t);
    CapturedNoTemps(u, s, t, i);
    GrowsByCaptured(u, s, t, i);
    TempHomesGrow(u, s, t);
    forall j | j in u.cap.place && Top(u, j)
      ensures BackRec(u, t, j)
    {
      assert BackRec(u, s, j);
    }
    forall p | p in u.target
      ensures BackRow(t, p)
    {
      assert BackRow(s, p);
    }
    forall p | p in t.rows
      ensures BackPath(t, p)
    {
      assert BackPath(s, p);
    }
  }

  lemma RestoreKeeps(u: Setup, s: State, i: Ino)
    requires Sound(u) && Inv(u, s) && CanRestore(u, s, i)
    ensures i in s.fs.place && Free(s.fs, HomeOf(u, s, i)) && Inv(u, RestoredState(u, s, i))
  {
    RestoreFits(u, s, i);
    StillRecorded(u, s, i);
    RestoredBase(u, s, i);
    RestoredPlaces(u, s, i);
    RestoredAttrs(u, s, i);
    RestoredOrder(u, s, i);
  }

  // ---- removing what was made ----

  /** Nothing lies in an inode that is not in its place. */
  lemma NothingInside(u: Setup, s: State, p: Path, j: Ino)
    requires Sound(u) && Base(u, s) && Tables(u, s) && Places(u, s) && !s.newBase
    requires p in u.target && p != [] && p !in u.source && p in s.rows && s.rows[p].made.Some?
    requires s.rows[p].made.value in s.fs.place && !InPlace(u, s, p)
    requires j in s.fs.place
    ensures s.fs.place[j].dir != s.rows[p].made.value
  {
    MadeStands(u, s, p);
    assert Legit(u, s, j);
    if j in u.cap.place {
      assert IsDir(u.cap, u.cap.place[j].dir);
      if Promoted(u, s, j) {
        assert PromoOk(u, j);
        DirOfPath(u, s, u.promo[j]);
      }
    } else {
      assert OfOk(u, s, j);
      DirOfPath(u, s, s.of[j]);
    }
  }

  /** A file that was put back is not at the path it was promoted to, so nobody finds it there. */
  lemma PutBackIsAway(u: Setup, s: State, p: Path)
    requires Sound(u) && Inv(u, s) && Undoing(u, s, p) && FoundThere(s, p, p)
    ensures p !in u.source && InPlace(u, s, p)
  {
    MadeIsBack(u, s, p);
    LeadsHome(u, s, p, s.rows[p].made.value);
  }

  lemma UndoneIsThere(u: Setup, s: State, p: Path)
    requires Sound(u) && Inv(u, s) && CanUnlink(u, s, p)
    ensures p !in u.source && AtUndo(s, p) && !InPlace(u, s, p)
  {
    MadeIsBack(u, s, p);
    assert TargetOk(u, p);
    SiblingHome(u, s, p, s.rows[p].undo.value, s.rows[p].made.value);
    assert u.reserved(s.rows[p].undo.value);
  }

  /** An installed path: in its place, at the name it is undone under, or gone. */
  lemma UndoSides(u: Setup, s: State, p: Path)
    requires Sound(u) && Inv(u, s) && Undoing(u, s, p) && p !in u.source && s.rows[p].made.Some?
    ensures s.rows[p].made.value in s.fs.place ==>
              FoundThere(s, p, p) || (s.rows[p].undo.Some? && FoundThere(s, p, Sibling(p, s.rows[p].undo.value)))
  {
    var i := s.rows[p].made.value;
    if i in s.fs.place {
      MadeStands(u, s, p);
      MadeIsBack(u, s, p);
      assert Legit(u, s, i);
      InsideIsFound(u, s, p, s.fs.place[i].name, i);
      assert Sibling(p, Leaf(p)) == p;
    }
  }

  /** With promotions restored, whatever is at a path that an inode was recorded for is that inode. */
  lemma SeenIsOwn(u: Setup, s: State, p: Path)
    requires Sound(u) && Inv(u, s) && Undoing(u, s, p) && s.rows[p].made.Some? && Seen(s.fs, p)
    ensures FoundThere(s, p, p) && s.rows[p].noted
  {
    MadeIsBack(u, s, p);
    var i :| i in s.fs.attr && Leads(s.fs, p, i);
    LeadsHome(u, s, p, i);
    assert Legit(u, s, i) && TargetOk(u, p);
    assert s.rows[p].undo.Some? ==> u.reserved(s.rows[p].undo.value);
    assert s.rows[p].temp.Some? ==> u.reserved(s.rows[p].temp.value);
  }

  /** Likewise at the name it is undone under. */
  lemma UndoneIsOwn(u: Setup, s: State, p: Path)
    requires Sound(u) && Inv(u, s) && Undoing(u, s, p) && s.rows[p].undo.Some? && Seen(s.fs, Sibling(p, s.rows[p].undo.value))
    ensures FoundThere(s, p, Sibling(p, s.rows[p].undo.value)) && p !in u.source
  {
    var n := s.rows[p].undo.value;
    assert RowOk(u, s, p) && u.reserved(n);
    MadeIsBack(u, s, p);
    var i :| i in s.fs.attr && Leads(s.fs, Sibling(p, n), i);
    SiblingHome(u, s, p, n, i);
    DirOfPath(u, s, p);
    ReservedHolder(u, s, i);
  }

  /** Never are both names taken. */
  lemma OneUndoSide(u: Setup, s: State, p: Path)
    requires Sound(u) && Inv(u, s) && Undoing(u, s, p) && s.rows[p].undo.Some?
    ensures s.rows[p].made.Some? && p !in u.source && !(Seen(s.fs, p) && Seen(s.fs, Sibling(p, s.rows[p].undo.value)))
  {
    var n := s.rows[p].undo.value;
    assert RowOk(u, s, p) && TargetOk(u, p) && u.reserved(n);
    MadeIsBack(u, s, p);
    if Seen(s.fs, p) && Seen(s.fs, Sibling(p, n)) {
      SeenIsOwn(u, s, p);
      UndoneIsOwn(u, s, p);
      PutBackIsAway(u, s, p);
      SiblingHome(u, s, p, n, s.rows[p].made.value);
    }
  }

  /** An inode that is gone is found under neither name. */
  lemma GoneIsUnseen(u: Setup, s: State, p: Path)
    requires Sound(u) && Inv(u, s) && Undoing(u, s, p) && s.rows[p].undo.Some? && s.rows[p].made.Some? && s.rows[p].made.value !in s.fs.place
    ensures !Seen(s.fs, p) && !Seen(s.fs, Sibling(p, s.rows[p].undo.value))
  {
    if Seen(s.fs, p) {
      SeenIsOwn(u, s, p);
      PutBackIsAway(u, s, p);
    }
    if Seen(s.fs, Sibling(p, s.rows[p].undo.value)) {
      UndoneIsOwn(u, s, p);
      MadeIsBack(u, s, p);
      SiblingHome(u, s, p, s.rows[p].undo.value, s.rows[p].made.value);
    }
  }

  lemma ForgottenIsGone(u: Setup, s: State, p: Path)
    requires Sound(u) && Inv(u, s) && CanForget(u, s, p)
    ensures p in u.source || s.rows[p].made.None? || s.rows[p].made.value !in s.fs.place
  {
    if p !in u.source && s.rows[p].made.Some? {
      UndoSides(u, s, p);
    }
  }

  /** An inode made for the target that is not in its place can go. */
  predicate Removable(u: Setup, s: State, p: Path) {
    && (s.phase.Applying? || (s.phase.RollingBack? && Restored(s))) && !s.newBase && p in u.target && p != [] && p !in u.source && p in s.rows && s.rows[p].made.Some?
    && s.rows[p].made.value in s.fs.place && !InPlace(u, s, p)
  }

  lemma RemovableTemp(u: Setup, s: State, p: Path)
    requires Sound(u) && Inv(u, s) && CanDropTemp(u, s, p)
    ensures Removable(u, s, p)
  {
    assert RowOk(u, s, p);
    TempNotLeaf(u, s, p);
  }

  lemma RemovableUndone(u: Setup, s: State, p: Path)
    requires Sound(u) && Inv(u, s) && CanUnlink(u, s, p)
    ensures Removable(u, s, p)
  {
    UndoneIsThere(u, s, p);
    MadeIsBack(u, s, p);
  }

  lemma RemovedEmpty(u: Setup, s: State, p: Path)
    requires Sound(u) && Inv(u, s) && Removable(u, s, p)
    ensures Empty(s.fs, s.rows[p].made.value)
  {
    forall j | j in s.fs.place
      ensures s.fs.place[j].dir != s.rows[p].made.value
    {
      NothingInside(u, s, p, j);
    }
  }

  lemma RemovedGrows(u: Setup, s: State, p: Path)
    requires Sound(u) && Tables(u, s) && Removable(u, s, p)
    ensures Grows(u, s, WithoutMade(s, p))
  {
    var t := WithoutMade(s, p);
    forall q | q in s.rows
      ensures RowKept(s, t, q)
    {
    }
    forall q | q in s.rows
      ensures DirStays(u, s, t, q)
    {
      if q != p {
        OneOwner(u, s, p, q);
      }
    }
  }

  lemma RemovedPlaces(u: Setup, s: State, p: Path)
    requires Sound(u) && Tables(u, s) && Places(u, s) && Removable(u, s, p)
    ensures Places(u, WithoutMade(s, p))
  {
    var t := WithoutMade(s, p);
    RemovedGrows(u, s, p);
    forall j | j in t.fs.place
      ensures Legit(u, t, j)
    {
      LegitGrows(u, s, t, j);
    }
  }

  lemma RemovedAttrs(u: Setup, s: State, p: Path)
    requires Sound(u) && Base(u, s) && Tables(u, s) && Places(u, s) && Attrs(u, s) && Removable(u, s, p)
    ensures Attrs(u, WithoutMade(s, p))
  {
    var t := WithoutMade(s, p);
    MadeStands(u, s, p);
    forall j | j in t.fs.place
      ensures AttrOk(u, t, j)
    {
      assert AttrOk(u, s, j);
      AttrKept(u, s, t, j);
    }
  }

  /** The row is as before but for the name it is undone under, and its directory is still recorded. */
  predicate RowBack(s: State, t: State, p: Path) {
    && p in s.rows && p in t.rows && t.rows[p].made == s.rows[p].made && t.rows[p].stray == s.rows[p].stray
    && (p != [] && Parent(p) in s.rows ==> Parent(p) in t.rows)
  }

  predicate HomeBack(s: State, t: State, i: Ino) {
    i in s.fs.place && (i !in s.recs || t.rows != map[]) ==> SamePlace(s, t, i)
  }

  /** With promotions restored, the order of a rollback depends only on the records and the places of captured entries. */
  lemma BackSame(u: Setup, s: State, t: State)
    requires BackOrder(u, s) && Restored(s) && t.recs == s.recs && t.links == s.links && t.newBase == s.newBase && NoTemps(t)
    requires forall p {:trigger TempHome(u, t, p)} :: p in t.rows ==> TempHome(u, t, p)
    requires forall p {:trigger RowBack(s, t, p)} :: p in t.rows ==> RowBack(s, t, p)
    requires forall i {:trigger HomeBack(s, t, i)} :: i in u.cap.place ==> HomeBack(s, t, i)
    ensures BackOrder(u, t)
  {
    HiddenSame(s, t);
    if t.rows != map[] {
      var p :| p in t.rows;
      assert RowBack(s, t, p);
    }
    forall i | i in u.cap.place && Top(u, i)
      ensures BackRec(u, t, i)
    {
      assert BackRec(u, s, i) && HomeBack(s, t, i);
    }
    forall p | p in t.rows
      ensures BackPath(t, p)
    {
      assert RowBack(s, t, p) && BackPath(s, p);
    }
  }

  lemma BackSameRows(u: Setup, s: State, t: State)
    requires BackOrder(u, s) && Restored(s) && t.recs == s.recs && t.links == s.links && t.newBase == s.newBase && t.rows == s.rows && NoTemps(t)
    requires forall p {:trigger TempHome(u, t, p)} :: p in t.rows ==> TempHome(u, t, p)
    requires forall i {:trigger HomeBack(s, t, i)} :: i in u.cap.place ==> HomeBack(s, t, i)
    ensures BackOrder(u, t)
  {
    forall p | p in t.rows
      ensures RowBack(s, t, p)
    {
    }
    BackSame(u, s, t);
  }

  lemma RemovedKeeps(u: Setup, s: State, p: Path)
    requires Sound(u) && Inv(u, s) && Removable(u, s, p) && !s.rows[p].stray
    ensures Empty(s.fs, s.rows[p].made.value) && Inv(u, WithoutMade(s, p))
  {
    var t := WithoutMade(s, p);
    RemovedEmpty(u, s, p);
    RemoveKeepsOrder(s.fs, s.rows[p].made.value);
    MadeIsNew(u, s, p);
    TablesSame(u, s, t);
    RemovedPlaces(u, s, p);
    RemovedAttrs(u, s, p);
    if s.phase.RollingBack? {
      FewerNoTemps(s, t);
      RemovedGrows(u, s, p);
      TempHomesGrow(u, s, t);
      BackSameRows(u, s, t);
    } else {
      RemovedOrder(u, s, p);
    }
  }

  lemma FewerNoTemps(s: State, t: State)
    requires NoTemps(s) && (forall p :: p in t.rows ==> p in s.rows && t.rows[p].temp == s.rows[p].temp && t.rows[p].made == s.rows[p].made)
    requires forall j :: j in t.fs.place ==> j in s.fs.place && t.fs.place[j] == s.fs.place[j]
    ensures NoTemps(t)
  {
    forall p | p in t.rows
      ensures !AtTemp(t, p)
    {
      assert !AtTemp(s, p);
    }
  }

  lemma RemovedOrder(u: Setup, s: State, p: Path)
    requires Sound(u) && Tables(u, s) && Places(u, s) && ApplyOrder(u, s) && Removable(u, s, p) && !s.rows[p].stray
    ensures ApplyOrder(u, WithoutMade(s, p))
  {
    var t := WithoutMade(s, p);
    RemovedGrows(u, s, p);
    MadeIsNew(u, s, p);
    SameForward(u, s, t);
    assert ApplyRow(u, s, p);
    RowOrder(u, s, t, p);
  }

  // ---- undoing what was installed ----

  lemma UndoNamedKeeps(u: Setup, s: State, p: Path, n: Name)
    requires Sound(u) && Inv(u, s) && CanNameUndo(u, s, p, n)
    ensures Inv(u, UndoNamed(s, p, n))
  {
    var t := UndoNamed(s, p, n);
    PutBackIsAway(u, s, p);
    MadeIsBack(u, s, p);
    RowTables(u, s, t, p);
    FewerNoTemps(s, t);
    SameFilesGrow(u, s, t, p);
    TempHomesGrow(u, s, t);
    BackSame(u, s, t);
    RowKeeps(u, s, t, p);
  }

  lemma UndoFits(u: Setup, s: State, p: Path)
    requires Sound(u) && Inv(u, s) && CanUndo(u, s, p)
    ensures MadeMove(u, s, p, UndoPlace(u, s, p))
  {
    PutBackIsAway(u, s, p);
    MadeStands(u, s, p);
    assert RowOk(u, s, p) && TargetOk(u, p);
    assert u.reserved(s.rows[p].undo.value);
    ReservedFree(u, s, UndoPlace(u, s, p));
    ParentNotSource(u, p);
    ReadyIsDir(u, s, Parent(p));
  }

  /** A directory other than the one moved away stands where it stood. */
  lemma OtherDir(u: Setup, s: State, p: Path, to: Place, d: Path)
    requires Sound(u) && Tables(u, s) && MadeMove(u, s, p, to) && d != p && d !in u.source
    ensures DirKept(u, s, AfterMadeMove(s, p, to), d)
  {
    if d != [] && DirReady(u, s, d) {
      OneOwner(u, s, p, d);
    }
  }

  lemma UndonePlaces(u: Setup, s: State, p: Path)
    requires Sound(u) && Tables(u, s) && Places(u, s) && !s.newBase && CanUndo(u, s, p) && MadeMove(u, s, p, UndoPlace(u, s, p))
    ensures Places(u, AfterMadeMove(s, p, UndoPlace(u, s, p)))
  {
    var to := UndoPlace(u, s, p);
    var t, i := AfterMadeMove(s, p, to), s.rows[p].made.value;
    MadeStands(u, s, p);
    forall j | j in t.fs.place
      ensures Legit(u, t, j)
    {
      assert Legit(u, s, j);
      if j !in u.cap.place {
        assert OfOk(u, s, j);
        ParentNotSource(u, s.of[j]);
        OtherDir(u, s, p, to, Parent(s.of[j]));
      }
      if j != i {
        assert j in s.of ==> OfOk(u, s, j);
        LegitKept(u, s, t, j);
      }
    }
  }

  lemma UndoKeeps(u: Setup, s: State, p: Path)
    requires Sound(u) && Inv(u, s) && CanUndo(u, s, p)
    ensures MadeMove(u, s, p, UndoPlace(u, s, p)) && Inv(u, AfterMadeMove(s, p, UndoPlace(u, s, p)))
  {
    UndoFits(u, s, p);
    var to := UndoPlace(u, s, p);
    assert RowOk(u, s, p) && TargetOk(u, p) && u.reserved(to.name);
    MadeMoveBase(u, s, p, to);
    UndonePlaces(u, s, p);
    MadeMoveAttrs(u, s, p, to);
    MadeIsNew(u, s, p);
    MadeIsBack(u, s, p);
    NoTempsUndone(u, s, p);
    UndoneTempHomes(u, s, p);
    BackSameRows(u, s, AfterMadeMove(s, p, to));
  }

  lemma UndoneTempHomes(u: Setup, s: State, p: Path)
    requires Sound(u) && Inv(u, s) && s.phase.RollingBack? && CanUndo(u, s, p) && MadeMove(u, s, p, UndoPlace(u, s, p))
    ensures var t := AfterMadeMove(s, p, UndoPlace(u, s, p)); forall q {:trigger TempHome(u, t, q)} :: q in t.rows ==> TempHome(u, t, q)
  {
    var t := AfterMadeMove(s, p, UndoPlace(u, s, p));
    forall q | q in t.rows
      ensures TempHome(u, t, q)
    {
      assert TempHome(u, s, q) && RowOk(u, s, q);
      ParentNotSource(u, q);
      OtherDir(u, s, p, UndoPlace(u, s, p), Parent(q));
    }
  }

  /** A path that is undone bears its undo name, not a temporary one. */
  lemma NoTempsUndone(u: Setup, s: State, p: Path)
    requires Sound(u) && Inv(u, s) && CanUndo(u, s, p) && NoTemps(s) && s.rows[p].made.value in s.fs.place
    ensures NoTemps(MoveTo(s, s.rows[p].made.value, UndoPlace(u, s, p)))
  {
    var t := MoveTo(s, s.rows[p].made.value, UndoPlace(u, s, p));
    forall q | q in t.rows
      ensures !AtTemp(t, q)
    {
      assert !AtTemp(s, q) && RowOk(u, s, p) && RowOk(u, s, q);
      if q != p {
        OneOwner(u, s, p, q);
      }
    }
  }

  lemma ForgotTables(u: Setup, s: State, p: Path)
    requires Tables(u, s)
    ensures Tables(u, WithoutRow(s, p))
  {
    var t := WithoutRow(s, p);
    forall j | j in t.recs
      ensures RecOk(u, t, j)
    {
      assert RecOk(u, s, j);
    }
    forall q | q in t.rows
      ensures RowOk(u, t, q)
    {
      assert RowOk(u, s, q);
    }
    forall j | j in t.of
      ensures OfOk(u, t, j)
    {
      assert OfOk(u, s, j);
    }
  }

  lemma ForgotDir(u: Setup, s: State, p: Path, q: Path)
    requires Sound(u) && Tables(u, s) && Places(u, s) && CanForget(u, s, p) && q in s.rows && q != [] && q in u.target && DirReady(u, s, Parent(q))
    ensures DirKept(u, s, WithoutRow(s, p), Parent(q))
  {
    ParentNotSource(u, q);
    var d := Parent(q);
    assert d != p;
    if d != [] {
      ParentReady(u, s, d);
      assert Parent(d) != p;
    }
  }

  lemma ForgotPlaces(u: Setup, s: State, p: Path)
    requires Sound(u) && Tables(u, s) && Places(u, s) && !s.newBase && CanForget(u, s, p)
    requires p in u.source || s.rows[p].made.None? || s.rows[p].made.value !in s.fs.place
    ensures Places(u, WithoutRow(s, p))
  {
    var t := WithoutRow(s, p);
    forall j | j in t.fs.place
      ensures Legit(u, t, j)
    {
      assert Legit(u, s, j);
      if j !in u.cap.place {
        assert OfOk(u, s, j);
        ForgotDir(u, s, p, s.of[j]);
      }
    }
  }

  lemma ForgetKeeps(u: Setup, s: State, p: Path)
    requires Sound(u) && Inv(u, s) && CanForget(u, s, p)
    ensures Inv(u, WithoutRow(s, p))
  {
    var t := WithoutRow(s, p);
    ForgotTables(u, s, p);
    ForgottenIsGone(u, s, p);
    ForgotPlaces(u, s, p);
    AttrsTables(u, s, t);
    if s.phase.RollingBack? {
      FewerNoTemps(s, t);
      ForgotTempHomes(u, s, p);
      BackSame(u, s, t);
    } else {
      ForgotPending(u, s, p);
    }
  }

  lemma ForgotTempHomes(u: Setup, s: State, p: Path)
    requires Sound(u) && Inv(u, s) && s.phase.RollingBack? && CanForget(u, s, p)
    ensures var t := WithoutRow(s, p); forall q {:trigger TempHome(u, t, q)} :: q in t.rows ==> TempHome(u, t, q)
  {
    var t := WithoutRow(s, p);
    forall q | q in t.rows
      ensures TempHome(u, t, q)
    {
      assert TempHome(u, s, q) && RowOk(u, s, q);
      if s.rows[q].temp.Some? {
        ForgotDir(u, s, p, q);
      }
    }
  }

  lemma ForgotPending(u: Setup, s: State, p: Path)
    requires PendingOrder(u, s) && CanForget(u, s, p)
    ensures PendingOrder(u, WithoutRow(s, p))
  {
    var t := WithoutRow(s, p);
    forall q | q in t.rows
      ensures PendingRow(t, q)
    {
      assert PendingRow(s, q);
    }
  }

  // ---- putting the captured entries back ----

  lemma VisibleFree(u: Setup, s: State, i: Ino)
    requires Sound(u) && Tables(u, s) && Places(u, s) && !s.newBase && CanUnhide(u, s, i)
    ensures !Occupied(s.fs, InRoot(u, Visible(u, i)))
  {
    assert RecOk(u, s, i) && AreaOk(u, i) && Sole(u.cap, i);
    assert u.reserved(s.recs[i].hidden);
    if Occupied(s.fs, InRoot(u, Visible(u, i))) {
      var j :| j in s.fs.place && s.fs.place[j] == InRoot(u, Visible(u, i));
      AtVisible(u, s, j);
    }
  }

  /** With the target undone, whoever is in the root at a name that is not reserved was captured there. */
  lemma AtVisible(u: Setup, s: State, j: Ino)
    requires Sound(u) && Tables(u, s) && Places(u, s) && !s.newBase && Undid(s) && j in s.fs.place && s.fs.place[j].dir == u.cap.root
    requires !u.reserved(s.fs.place[j].name)
    ensures j in u.cap.place && s.fs.place[j] == u.cap.place[j]
  {
    assert Legit(u, s, j);
    assert j in u.cap.place;
    assert AreaOk(u, j);
    if j in s.recs {
      assert RecOk(u, s, j) && u.reserved(s.recs[j].hidden);
    }
  }

  lemma UnhideKeeps(u: Setup, s: State, i: Ino)
    requires Sound(u) && Inv(u, s) && CanUnhide(u, s, i)
    ensures Free(s.fs, InRoot(u, Visible(u, i))) && Inv(u, MoveTo(s, i, InRoot(u, Visible(u, i))))
  {
    var t := MoveTo(s, i, InRoot(u, Visible(u, i)));
    VisibleFree(u, s, i);
    assert RecOk(u, s, i) && Legit(u, s, i);
    BackSameRows(u, s, t);
    TopMoveKeeps(u, s, t, i, Visible(u, i));
  }

  lemma ReleasedPlaces(u: Setup, s: State, i: Ino)
    requires Sound(u) && Tables(u, s) && Places(u, s) && !s.newBase && CanRelease(u, s, i)
    ensures Places(u, WithoutRec(s, i))
  {
    var t := WithoutRec(s, i);
    forall j | j in t.fs.place
      ensures Legit(u, t, j)
    {
      assert Legit(u, s, j);
    }
  }

  lemma ReleaseKeeps(u: Setup, s: State, i: Ino)
    requires Sound(u) && Inv(u, s) && CanRelease(u, s, i)
    ensures Inv(u, WithoutRec(s, i))
  {
    var t := WithoutRec(s, i);
    WithoutRecTables(u, s, i);
    ReleasedPlaces(u, s, i);
    AttrsTables(u, s, t);
    forall j | j in u.cap.place && Top(u, j)
      ensures BackRec(u, t, j)
    {
      assert BackRec(u, s, j);
    }
  }

  function RootTimeSet(u: Setup, s: State): State
    requires u.cap.root in u.cap.attr
  {
    s.(fs := SetAttr(s.fs, u.cap.root, u.cap.attr[u.cap.root]))
  }

  lemma RootTimeKeeps(u: Setup, s: State)
    requires Sound(u) && Inv(u, s) && CanSetRootTime(u, s)
    ensures Inv(u, RootTimeSet(u, s))
  {
    var t := RootTimeSet(u, s);
    SetAttrKeepsOrder(s.fs, u.cap.root, u.cap.attr[u.cap.root]);
    TablesSame(u, s, t);
    forall j | j in t.fs.place
      ensures Legit(u, t, j)
    {
      assert Legit(u, s, j);
    }
    forall j | j in t.fs.place
      ensures AttrOk(u, t, j)
    {
      assert AttrOk(u, s, j);
      AttrKept(u, s, t, j);
    }
    BackSameRows(u, s, t);
  }

  // ---- the end of a rollback ----

  /** With everything undone and released, each inode is where it was captured, as it was. */
  lemma BackAtHome(u: Setup, s: State, j: Ino)
    requires Sound(u) && Inv(u, s) && CanClear(u, s) && j in s.fs.place
    ensures j in u.cap.place && s.fs.place[j] == u.cap.place[j] && j in s.fs.attr && j in u.cap.attr && s.fs.attr[j] == u.cap.attr[j]
  {
    assert Legit(u, s, j) && AttrOk(u, s, j);
    if Top(u, j) {
      assert BackRec(u, s, j);
    }
  }

  lemma ClearKeeps(u: Setup, s: State)
    requires Sound(u) && Inv(u, s) && CanClear(u, s)
    ensures Inv(u, s.(phase := Over))
  {
    var t := s.(phase := Over);
    TablesSame(u, s, t);
    OverSame(u, s, t);
    forall j | j in s.fs.place
      ensures j in u.cap.place && s.fs.place[j] == u.cap.place[j] && j in s.fs.attr && j in u.cap.attr && s.fs.attr[j] == u.cap.attr[j]
    {
      BackAtHome(u, s, j);
    }
    assert s.fs.place == u.cap.place;
    assert s.fs.attr == u.cap.attr;
  }

  lemma AbandonKeeps(u: Setup, s: State)
    requires Sound(u) && Inv(u, s) && s.phase.Pending?
    ensures Inv(u, s.(phase := Over))
  {
    var t := s.(phase := Over);
    TablesSame(u, s, t);
    OverSame(u, s, t);
  }
}
