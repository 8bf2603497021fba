/** In no reachable state does the program meet a situation it cannot tell apart. */
module SyncProgress {
  import opened Wrappers
  import opened Bytes
  import opened FileSystem
  import opened SyncApply
  import opened SyncInvariant
  import opened SyncSteps
  import opened SyncInstall
  import opened SyncFinish
  import opened SyncPaths
  import opened SyncRollback

  predicate There(s: State, at: Place, i: Ino) {
    Holds(s.fs, at, i)
  }

  // ---- captured entries ----

  /** Of the visible and the hidden name of an entry exactly one is taken, and by the entry itself. */
  predicate OneSide(u: Setup, s: State, i: Ino) {
    i in s.recs && i in u.cap.place &&
    ((There(s, InRoot(u, Visible(u, i)), i) && !Occupied(s.fs, InRoot(u, s.recs[i].hidden)))
     || (There(s, InRoot(u, s.recs[i].hidden), i) && !Occupied(s.fs, InRoot(u, Visible(u, i)))))
  }

  /** A hidden name is taken by its entry or by nobody. */
  lemma HiddenHolder(u: Setup, s: State, i: Ino)
    requires Sound(u) && Tables(u, s) && Places(u, s) && i in s.recs && !AtName(s, i, s.recs[i].hidden)
    ensures !Occupied(s.fs, InRoot(u, s.recs[i].hidden))
  {
    assert RecOk(u, s, i);
    ReservedFree(u, s, InRoot(u, s.recs[i].hidden));
  }

  /** Before everything is hidden nothing is installed, so a visible name is taken by its entry or by nobody. */
  lemma PrepareSides(u: Setup, s: State, i: Ino)
    requires Sound(u) && Inv(u, s) && s.phase.Applying? && i in s.recs && !s.recs[i].completed
    ensures OneSide(u, s, i)
  {
    assert RecOk(u, s, i) && AreaOk(u, i) && Legit(u, s, i) && !SetAside(s, i) && u.reserved(s.recs[i].hidden);
    if AtName(s, i, Visible(u, i)) {
      HiddenHolder(u, s, i);
    } else if Occupied(s.fs, InRoot(u, Visible(u, i))) {
      var j :| j in s.fs.place && s.fs.place[j] == InRoot(u, Visible(u, i));
      VisibleHolder(u, s, i, j);
    }
  }

  lemma VisibleHolder(u: Setup, s: State, i: Ino, j: Ino)
    requires Sound(u) && Inv(u, s) && s.phase.Applying? && i in s.recs && i in u.cap.place && !s.recs[i].completed
    requires j in s.fs.place && s.fs.place[j] == InRoot(u, Visible(u, i)) && Top(u, i)
    ensures i == j
  {
    assert !SetAside(s, i) && AreaOk(u, i) && Sole(u.cap, i);
    assert Legit(u, s, j);
    assert j !in u.cap.place ==> OfOk(u, s, j) && ApplyRow(u, s, s.of[j]);
    assert AreaOk(u, j);
    assert j in s.recs ==> RecOk(u, s, j) && u.reserved(s.recs[j].hidden);
  }

  /** An entry that was recorded as hidden is at its hidden name, or is a file that was promoted from there. */
  lemma CompletedStands(u: Setup, s: State, i: Ino)
    requires Sound(u) && Inv(u, s) && s.phase.Applying? && i in s.recs && s.recs[i].completed
    ensures if i in s.links then i in u.promo && !Occupied(s.fs, InRoot(u, s.recs[i].hidden)) else There(s, InRoot(u, s.recs[i].hidden), i)
  {
    assert RecOk(u, s, i) && ApplyRec(u, s, i) && Legit(u, s, i) && u.reserved(s.recs[i].hidden);
    if i in s.links {
      PromotedLeaf(u, s, i);
      HiddenHolder(u, s, i);
    }
  }

  /** A file to promote is at home, or it was promoted. */
  lemma PromotionStands(u: Setup, s: State, i: Ino)
    requires Sound(u) && Inv(u, s) && s.phase.Applying? && AllHidden(s) && i in u.promo
    ensures i in u.cap.place && (Top(u, i) ==> i in s.recs)
    ensures i !in s.links <==> There(s, HomeOf(u, s, i), i)
  {
    assert PromoOk(u, i) && AreaOk(u, i) && Legit(u, s, i);
    if Top(u, i) {
      assert ApplyRec(u, s, i) && SetAside(s, i) && RecOk(u, s, i) && u.reserved(s.recs[i].hidden);
    } else {
      assert IsDir(u.cap, u.cap.place[i].dir);
    }
    if i in s.links {
      PromotedLeaf(u, s, i);
      PromotedDir(u, s, i);
    }
  }

  // ---- target paths ----

  /** A directory that was recorded as done is in place. */
  lemma DoneReady(u: Setup, s: State, p: Path)
    requires Sound(u) && Inv(u, s) && s.phase.Applying? && p in u.target && HasDir(s, p)
    ensures p != [] && DirReady(u, s, Parent(p))
  {
    ParentNotSource(u, p);
    var d := Parent(p);
    if d != [] {
      assert ApplyRow(u, s, d) && RowOk(u, s, d);
    }
  }

  /**
    Whatever is at a target path is the path's own inode, and noted; if nothing is, its inode is at
    its temporary name, was not made, or is gone. A stray inode is never in place.
   */
  lemma TargetStands(u: Setup, s: State, p: Path)
    requires Sound(u) && Inv(u, s) && Installing(u, s, p) && DirReady(u, s, Parent(p))
    ensures if Occupied(s.fs, PlaceOf(u, s, p)) then Known(s, p) && InPlace(u, s, p)
            else s.rows[p].made.Some? ==> s.rows[p].temp.Some? && (AtTemp(s, p) || (Lost(s, p) && !s.rows[p].stray))
  {
    if Occupied(s.fs, PlaceOf(u, s, p)) {
      var j :| j in s.fs.place && s.fs.place[j] == PlaceOf(u, s, p);
      LeafHolder(u, s, p, j);
      assert Legit(u, s, j) && RowOk(u, s, p) && TargetOk(u, p);
      assert s.rows[p].temp.Some? ==> u.reserved(s.rows[p].temp.value);
      assert ApplyRow(u, s, p);
    } else if s.rows[p].made.Some? {
      assert ApplyRow(u, s, p) && RowOk(u, s, p);
      if !Lost(s, p) {
        MadeStands(u, s, p);
        assert Legit(u, s, s.rows[p].made.value);
      }
    }
  }

  /** A temporary name is looked up in a directory that is there; it is free unless the path's own inode bears it. */
  lemma TempNameFree(u: Setup, s: State, p: Path)
    requires Sound(u) && Inv(u, s) && p in s.rows && p in u.target && p != [] && s.rows[p].temp.Some? && DirReady(u, s, Parent(p))
    ensures DirIno(u, s, Parent(p)).Some? && Leads(s.fs, Parent(p), DirIno(u, s, Parent(p)).value)
    ensures !AtTemp(s, p) ==> !Occupied(s.fs, TempPlace(u, s, p))
  {
    assert RowOk(u, s, p);
    ParentNotSource(u, p);
    ReadyIsFound(u, s, Parent(p));
    DirOfPath(u, s, p);
    if !AtTemp(s, p) {
      ReservedFree(u, s, TempPlace(u, s, p));
    }
  }

  // ---- the end of an application ----

  /** Every directory has its time. */
  predicate TimeRight(u: Setup, s: State, p: Path) {
    p in u.target && p in s.rows && s.rows[p].made.Some? && s.rows[p].made.value in s.fs.attr && s.fs.attr[s.rows[p].made.value] == ItemAttr(u.target[p])
  }

  ghost predicate TimesRight(u: Setup, s: State) {
    forall p {:trigger TimeRight(u, s, p)} :: p in u.target && u.target[p].ItemDir? ==> TimeRight(u, s, p)
  }

  lemma FileAsTarget(u: Setup, s: State, p: Path)
    requires Sound(u) && Inv(u, s) && s.phase.Applying? && p in u.target && u.target[p].ItemFile? && Done(s, p)
    ensures AsTarget(u, s, p)
  {
    assert ApplyRow(u, s, p) && RowOk(u, s, p);
    var i := Owner(u, s, p).value;
    assert Legit(u, s, i) && AttrOk(u, s, i);
    if p in u.source {
      assert SourceOk(u, p) && PromoOk(u, i);
    } else {
      MadeIsNew(u, s, p);
    }
  }

  lemma DirAsTarget(u: Setup, s: State, p: Path)
    requires Sound(u) && Inv(u, s) && s.phase.Applying? && p in u.target && u.target[p].ItemDir? && Done(s, p) && TimeRight(u, s, p)
    ensures AsTarget(u, s, p)
  {
    assert ApplyRow(u, s, p);
    assert p in u.source ==> SourceOk(u, p);
  }

  /** The scan at the end finds exactly the target. */
  lemma ScanSucceeds(u: Setup, s: State)
    requires Sound(u) && Inv(u, s) && s.phase.Applying? && AllHidden(s) && DirsReady(u, s) && FilesDone(u, s) && Enrolled(u, s) && TimesRight(u, s)
    ensures Verified(u, s)
  {
    forall p | p in u.target
      ensures AsTarget(u, s, p)
    {
      assert Done(s, p);
      if u.target[p].ItemFile? {
        FileAsTarget(u, s, p);
      } else {
        assert TimeRight(u, s, p);
        DirAsTarget(u, s, p);
      }
    }
    forall i | i in s.fs.place
      ensures i in u.cap.place || i in s.of
    {
      assert Legit(u, s, i);
    }
    forall i | i in s.recs
      ensures OutOfSight(u, s, i)
    {
      assert SetAside(s, i) && RecOk(u, s, i);
      CompletedStands(u, s, i);
    }
  }

  // ---- cleaning up ----

  /** A hidden entry is at its hidden name, in the trash, or gone. */
  lemma CleanSides(u: Setup, s: State, i: Ino)
    requires Sound(u) && Inv(u, s) && s.phase.Finalized? && i in s.recs && s.recs[i].tomb.Some?
    ensures var hidden, tomb := InRoot(u, s.recs[i].hidden), InRoot(u, s.recs[i].tomb.value);
            if i in u.promo || i !in s.fs.place then !Occupied(s.fs, hidden) && !Occupied(s.fs, tomb)
            else (There(s, hidden, i) && !Occupied(s.fs, tomb)) || (There(s, tomb, i) && !Occupied(s.fs, hidden))
  {
    assert RecOk(u, s, i) && u.reserved(s.recs[i].hidden) && u.reserved(s.recs[i].tomb.value);
    if i in s.fs.place {
      assert Legit(u, s, i);
      PromotedLeaf(u, s, i);
    }
    if !AtName(s, i, s.recs[i].hidden) {
      HiddenHolder(u, s, i);
    }
    if !AtName(s, i, s.recs[i].tomb.value) {
      ReservedFree(u, s, InRoot(u, s.recs[i].tomb.value));
    }
  }

  // ---- rolling back ----

  lemma ReleaseSides(u: Setup, s: State, i: Ino)
    requires Sound(u) && Inv(u, s) && Undid(s) && i in s.recs
    ensures OneSide(u, s, i)
  {
    assert RecOk(u, s, i) && AreaOk(u, i) && Legit(u, s, i) && BackRec(u, s, i) && u.reserved(s.recs[i].hidden);
    if AtName(s, i, Visible(u, i)) {
      HiddenHolder(u, s, i);
    } else {
      VisibleFree(u, s, i);
    }
  }
}
