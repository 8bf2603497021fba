/** Installing the target and promoting captured files into it keeps the invariant. */
module SyncInstall {
  import opened Wrappers
  import opened Bytes
  import opened FileSystem
  import opened SyncApply
  import opened SyncInvariant
  import opened SyncSteps

  // ---- rows ----

  /** One row of a running application changed, the files did not. */
  lemma RowKeeps(u: Setup, s: State, t: State, p: Path)
    requires Sound(u) && Inv(u, s) && t.fs == s.fs && t.newBase == s.newBase && t.links == s.links && t.of == s.of && t.recs == s.recs
    requires p in s.rows && p in t.rows && t.rows == s.rows[p := t.rows[p]] && RowKept(s, t, p)
    requires Tables(u, t) && Order(u, t)
    ensures Inv(u, t)
  {
    forall q | q in s.rows
      ensures RowKept(s, t, q)
    {
    }
    forall i | i in s.recs
      ensures RecKept(s, t, i)
    {
    }
    PlacesTables(u, s, t);
    AttrsTables(u, s, t);
    KeptSame(u, s, t);
  }

  lemma KeptSame(u: Setup, s: State, t: State)
    requires Presence(u, s) && t.fs == s.fs && t.newBase == s.newBase && forall i :: i in s.recs ==> i in t.recs
    ensures Presence(u, t)
  {
    if s.newBase {
      forall j | j in u.cap.place && j in t.fs.place && j !in u.promo
        ensures Kept(u, t, j)
      {
        assert Kept(u, s, j);
      }
    }
  }

  /** The inode of a path that was done has its directory in place. */
  lemma DoneDir(u: Setup, s: State, p: Path)
    requires Sound(u) && Tables(u, s) && Places(u, s) && ApplyOrder(u, s) && p in u.target && p in s.rows && s.rows[p].done
    ensures p != [] && DirReady(u, s, Parent(p)) && Parent(p) !in u.source && Owner(u, s, p).Some? && Owner(u, s, p).value in s.fs.place
  {
    assert ApplyRow(u, s, p) && RowOk(u, s, p);
    ParentNotSource(u, p);
    var i := Owner(u, s, p).value;
    assert Legit(u, s, i);
    if p in u.source {
      assert SourceOk(u, p) && PromoOk(u, i);
    } else {
      MadeIsNew(u, s, p);
    }
  }

  /** Done stays done, and whatever was in place for it stays. */
  ghost predicate Forward(u: Setup, s: State, t: State) {
    && (forall i {:trigger i in t.recs} {:trigger SetAside(t, i)} :: i in t.recs ==> i in s.recs && (SetAside(s, i) ==> SetAside(t, i)))
    && (forall p {:trigger Done(t, p)} :: Done(s, p) ==> Done(t, p))
  }

  lemma HiddenForward(u: Setup, s: State, t: State)
    requires Forward(u, s, t) && AllHidden(s)
    ensures AllHidden(t)
  {
    forall i | i in t.recs
      ensures SetAside(t, i)
    {
      assert i in s.recs;
      assert SetAside(s, i);
    }
  }

  lemma DirsForward(u: Setup, s: State, t: State)
    requires Forward(u, s, t) && DirsReady(u, s)
    ensures DirsReady(u, t)
  {
    forall p | p in u.target && u.target[p].ItemDir?
      ensures Done(t, p)
    {
      assert Done(s, p);
    }
  }

  lemma EnrolledForward(u: Setup, s: State, t: State)
    requires Forward(u, s, t) && Enrolled(u, s)
    ensures Enrolled(u, t)
  {
    forall i | i in u.promo
      ensures Done(t, u.promo[i])
    {
      assert Done(s, u.promo[i]);
    }
  }

  lemma ForwardFacts(u: Setup, s: State, t: State)
    requires Forward(u, s, t)
    ensures (AllHidden(s) ==> AllHidden(t)) && (DirsReady(u, s) ==> DirsReady(u, t)) && (Enrolled(u, s) ==> Enrolled(u, t))
  {
    if AllHidden(s) {
      HiddenForward(u, s, t);
    }
    if DirsReady(u, s) {
      DirsForward(u, s, t);
    }
    if Enrolled(u, s) {
      EnrolledForward(u, s, t);
    }
  }

  /** A row that did not change keeps its order, when directories in place stay. */
  lemma OtherRow(u: Setup, s: State, t: State, p: Path)
    requires Sound(u) && Tables(u, s) && Places(u, s) && ApplyOrder(u, s) && Grows(u, s, t) && Forward(u, s, t)
    requires p in u.target && p in t.rows && p in s.rows && t.rows[p] == s.rows[p]
    requires s.rows[p].made.Some? && s.rows[p].made.value in s.fs.place ==> SamePlace(s, t, s.rows[p].made.value)
    requires p in u.source && u.source[p] in s.fs.place && s.rows[p].done ==> SamePlace(s, t, u.source[p])
    requires forall i :: i in s.links ==> i in t.links
    ensures ApplyRow(u, t, p)
  {
    assert ApplyRow(u, s, p);
    ForwardFacts(u, s, t);
    if s.rows[p].done {
      DoneDir(u, s, p);
      DirGrows(u, s, t, Parent(p));
    }
    ApplyRowKept(u, s, t, p);
  }

  /** The tables of a running application after a change of one row. */
  lemma RowOrder(u: Setup, s: State, t: State, p: Path)
    requires Sound(u) && Tables(u, s) && Places(u, s) && ApplyOrder(u, s) && Grows(u, s, t) && t.recs == s.recs && t.newBase == s.newBase && t.links == s.links
    requires p in s.rows && p in t.rows && t.rows == s.rows[p := t.rows[p]] && (s.rows[p].done ==> t.rows[p].done)
    requires forall i :: i in s.fs.place && s.rows[p].made != Some(i) ==> SamePlace(s, t, i)
    requires p in u.target ==> ApplyRow(u, t, p)
    requires s.rows[p].made.Some? && p in u.source ==> SamePlace(s, t, s.rows[p].made.value)
    ensures ApplyOrder(u, t)
  {
    assert Forward(u, s, t) by {
      forall q | Done(s, q)
        ensures Done(t, q)
      {
      }
    }
    ForwardFacts(u, s, t);
    forall j | j in u.cap.place && Top(u, j)
      ensures ApplyRec(u, t, j)
    {
      assert ApplyRec(u, s, j);
      if s.rows[p].made == Some(j) {
        MadeOrSource(u, s, p);
      }
    }
    forall q | q in u.target
      ensures ApplyRow(u, t, q)
    {
      assert ApplyRow(u, s, q);
      if q != p {
        OneOwner(u, s, p, q);
        OtherRow(u, s, t, q);
      }
    }
  }

  lemma MadeOrSource(u: Setup, s: State, p: Path)
    requires Sound(u) && Tables(u, s) && p in s.rows && s.rows[p].made.Some?
    ensures p in u.source || s.rows[p].made.value !in u.cap.place
  {
    if p !in u.source {
      MadeIsNew(u, s, p);
    }
  }

  /** Two target paths do not share an inode. */
  lemma OneOwner(u: Setup, s: State, p: Path, q: Path)
    requires Sound(u) && Tables(u, s) && p != q && p in s.rows && q in s.rows
    ensures s.rows[p].made.Some? ==> s.rows[q].made != s.rows[p].made
    ensures s.rows[p].made.Some? && q in u.source ==> s.rows[p].made.value != u.source[q]
  {
    assert RowOk(u, s, p) && RowOk(u, s, q);
    assert p in u.source ==> SourceOk(u, p) && PromoOk(u, u.source[p]);
    assert q in u.source ==> SourceOk(u, q) && PromoOk(u, u.source[q]);
    if s.rows[p].made.Some? && p !in u.source {
      MadeIsNew(u, s, p);
    }
    if s.rows[q].made.Some? && q !in u.source {
      MadeIsNew(u, s, q);
    }
  }

  // ---- temporary names ----

  lemma SameFilesGrow(u: Setup, s: State, t: State, p: Path)
    requires t.fs.place == s.fs.place && p in s.rows && p in t.rows && t.rows == s.rows[p := t.rows[p]] && RowKept(s, t, p)
    ensures Grows(u, s, t)
  {
    forall q | q in s.rows
      ensures RowKept(s, t, q)
    {
    }
    forall q | q in s.rows
      ensures DirStays(u, s, t, q)
    {
    }
  }

  lemma TempNamedKeeps(u: Setup, s: State, p: Path, n: Name)
    requires Sound(u) && Inv(u, s) && CanNameTemp(u, s, p, n)
    ensures Inv(u, TempNamed(s, p, n))
  {
    var t := TempNamed(s, p, n);
    assert RowOk(u, s, p) && ApplyRow(u, s, p);
    RowTables(u, s, t, p);
    SameFilesGrow(u, s, t, p);
    RowOrder(u, s, t, p);
    RowKeeps(u, s, t, p);
  }

  lemma InstalledRecordedKeeps(u: Setup, s: State, p: Path)
    requires Sound(u) && Inv(u, s) && CanRecordInstalled(u, s, p)
    ensures Inv(u, InstalledRecorded(s, p))
  {
    var t := InstalledRecorded(s, p);
    assert RowOk(u, s, p) && ApplyRow(u, s, p);
    RowTables(u, s, t, p);
    SameFilesGrow(u, s, t, p);
    assert ApplyRow(u, t, p) by {
      InstalledRow(u, s, p);
    }
    RowOrder(u, s, t, p);
    RowKeeps(u, s, t, p);
  }

  lemma InstalledRow(u: Setup, s: State, p: Path)
    requires Sound(u) && Tables(u, s) && Places(u, s) && ApplyOrder(u, s) && CanRecordInstalled(u, s, p)
    ensures ApplyRow(u, InstalledRecorded(s, p), p)
  {
    var t := InstalledRecorded(s, p);
    assert ApplyRow(u, s, p);
    assert Forward(u, s, t) by {
      forall q | Done(s, q)
        ensures Done(t, q)
      {
      }
    }
    ForwardFacts(u, s, t);
  }

  lemma EnrolledKeeps(u: Setup, s: State, i: Ino)
    requires Sound(u) && Inv(u, s) && CanEnroll(u, s, i)
    ensures Inv(u, EnrolledState(u, s, i))
  {
    var t, p := EnrolledState(u, s, i), u.promo[i];
    assert PromoOk(u, i) && RowOk(u, s, p) && ApplyRow(u, s, p);
    RowTables(u, s, t, p);
    SameFilesGrow(u, s, t, p);
    EnrolledRow(u, s, i);
    RowOrder(u, s, t, p);
    RowKeeps(u, s, t, p);
  }

  lemma EnrolledRow(u: Setup, s: State, i: Ino)
    requires Sound(u) && Tables(u, s) && Places(u, s) && Presence(u, s) && ApplyOrder(u, s) && CanEnroll(u, s, i)
    ensures ApplyRow(u, EnrolledState(u, s, i), u.promo[i])
  {
    var t, p := EnrolledState(u, s, i), u.promo[i];
    assert PromoOk(u, i) && ApplyRow(u, s, p) && RowOk(u, s, p) && Legit(u, s, i);
    ParentNotSource(u, p);
    assert Parent(p) != p;
    assert Forward(u, s, t) by {
      forall q | Done(s, q)
        ensures Done(t, q)
      {
      }
    }
    ForwardFacts(u, s, t);
  }

  // ---- temporary files and directories ----

  /** The inode of a path is at its temporary name, so not in its place. */
  lemma TempNotLeaf(u: Setup, s: State, p: Path)
    requires Sound(u) && Tables(u, s) && p in u.target && p in s.rows && AtTemp(s, p)
    ensures p != [] && s.rows[p].temp.value != Leaf(p) && (p !in u.source ==> !InPlace(u, s, p))
  {
    assert RowOk(u, s, p) && TargetOk(u, p);
    assert u.reserved(s.rows[p].temp.value);
  }

  /** A new inode can be made for the path at its temporary name. */
  predicate Vacant(u: Setup, s: State, p: Path) {
    && Installing(u, s, p) && s.rows[p].temp.Some? && (s.rows[p].made.None? || Lost(s, p)) && Turn(u, s, p) && DirReady(u, s, Parent(p))
  }

  lemma MakeTempFits(u: Setup, s: State, p: Path)
    requires Sound(u) && Inv(u, s) && Vacant(u, s, p)
    ensures Free(s.fs, TempPlace(u, s, p)) && (TempPlace(u, s, p).dir == u.cap.root || TempPlace(u, s, p).dir !in u.cap.attr)
  {
    assert RowOk(u, s, p);
    DirOfPath(u, s, p);
    ReservedFree(u, s, TempPlace(u, s, p));
    ParentNotSource(u, p);
    ReadyIsDir(u, s, Parent(p));
  }

  /** A directory in place is a directory. */
  lemma ReadyIsDir(u: Setup, s: State, d: Path)
    requires Sound(u) && Base(u, s) && Tables(u, s) && Places(u, s) && Attrs(u, s) && DirReady(u, s, d) && (d == [] || IsDirItem(u, d)) && d !in u.source
    ensures DirIno(u, s, d).Some? && IsDir(s.fs, DirIno(u, s, d).value)
  {
    if d != [] {
      MadeIsNew(u, s, d);
      assert AttrOk(u, s, s.rows[d].made.value);
    }
  }

  lemma MadeNewBase(u: Setup, s: State, p: Path, noted: bool, stray: bool)
    requires Sound(u) && Base(u, s) && Tables(u, s) && Presence(u, s) && Vacant(u, s, p) && Free(s.fs, TempPlace(u, s, p)) && !s.newBase && !s.rows[p].done
    ensures var t := MadeNew(u, s, p, noted, stray); Base(u, t) && Tables(u, t) && Presence(u, t)
  {
    var t := MadeNew(u, s, p, noted, stray);
    MakeKeepsOrder(s.fs, TempPlace(u, s, p), if u.target[p].ItemDir? then DirAttr(None) else FileAttr(0, None));
    assert RowOk(u, s, p);
    forall i | i in s.of
      ensures i in t.of && t.of[i] == s.of[i]
    {
      assert OfOk(u, s, i);
    }
    RowTables(u, s, t, p);
  }

  lemma MadeNewGrows(u: Setup, s: State, p: Path, noted: bool, stray: bool)
    requires Sound(u) && Tables(u, s) && Vacant(u, s, p)
    requires WellFormed(s.fs)
    ensures Grows(u, s, MadeNew(u, s, p, noted, stray))
  {
    var t := MadeNew(u, s, p, noted, stray);
    forall q | q in s.rows
      ensures RowKept(s, t, q)
    {
    }
    forall q | q in s.rows
      ensures DirStays(u, s, t, q)
    {
    }
  }

  lemma MadeNewPlaces(u: Setup, s: State, p: Path, noted: bool, stray: bool)
    requires Sound(u) && Base(u, s) && Tables(u, s) && Places(u, s) && Vacant(u, s, p) && !s.newBase
    ensures Places(u, MadeNew(u, s, p, noted, stray))
  {
    var t := MadeNew(u, s, p, noted, stray);
    MadeNewGrows(u, s, p, noted, stray);
    ParentNotSource(u, p);
    DirGrows(u, s, t, Parent(p));
    forall j | j in t.fs.place
      ensures Legit(u, t, j)
    {
      if j != s.fs.next {
        assert j in s.of ==> OfOk(u, s, j);
        LegitGrows(u, s, t, j);
      }
    }
  }

  lemma MadeNewAttrs(u: Setup, s: State, p: Path, noted: bool, stray: bool)
    requires Sound(u) && Base(u, s) && Tables(u, s) && Attrs(u, s) && Vacant(u, s, p) && !s.newBase
    requires (TempPlace(u, s, p).dir == u.cap.root || TempPlace(u, s, p).dir !in u.cap.attr) && IsDir(s.fs, TempPlace(u, s, p).dir)
    ensures Attrs(u, MadeNew(u, s, p, noted, stray))
  {
    var t := MadeNew(u, s, p, noted, stray);
    assert RowOk(u, s, p) && TargetOk(u, p) && u.reserved(s.rows[p].temp.value);
    forall j | j in t.fs.place
      ensures AttrOk(u, t, j)
    {
      if j != s.fs.next {
        assert AttrOk(u, s, j);
        assert j in s.of ==> OfOk(u, s, j);
        AttrKept(u, s, t, j);
      }
    }
  }

  lemma MadeNewOrder(u: Setup, s: State, p: Path, noted: bool, stray: bool)
    requires Sound(u) && Base(u, s) && Tables(u, s) && Places(u, s) && ApplyOrder(u, s) && Vacant(u, s, p) && (stray ==> u.target[p].ItemFile?)
    ensures ApplyOrder(u, MadeNew(u, s, p, noted, stray))
  {
    var t := MadeNew(u, s, p, noted, stray);
    MadeNewGrows(u, s, p, noted, stray);
    assert ApplyRow(u, s, p) && RowOk(u, s, p);
    assert Forward(u, s, t) by {
      forall q | Done(s, q)
        ensures Done(t, q)
      {
      }
    }
    ForwardFacts(u, s, t);
    RowOrder(u, s, t, p);
  }

  lemma MadeNewKeeps(u: Setup, s: State, p: Path, noted: bool, stray: bool)
    requires Sound(u) && Inv(u, s) && Vacant(u, s, p) && Free(s.fs, TempPlace(u, s, p)) && (stray ==> u.target[p].ItemFile?)
    ensures Inv(u, MadeNew(u, s, p, noted, stray))
  {
    MakeTempFits(u, s, p);
    assert ApplyRow(u, s, p);
    MadeNewBase(u, s, p, noted, stray);
    MadeNewPlaces(u, s, p, noted, stray);
    MadeNewAttrs(u, s, p, noted, stray);
    MadeNewOrder(u, s, p, noted, stray);
  }

  /** A change of the marks of a row whose inode is at its temporary name. */
  predicate Marked(u: Setup, s: State, t: State, p: Path) {
    && Installing(u, s, p) && AtTemp(s, p) && p in t.rows
    && t == SetRow(s, p, s.rows[p].(noted := t.rows[p].noted, stray := t.rows[p].stray)) && (t.rows[p].stray ==> s.rows[p].stray)
    && (s.rows[p].noted ==> t.rows[p].noted)
  }

  lemma MarkedKeeps(u: Setup, s: State, t: State, p: Path)
    requires Sound(u) && Inv(u, s) && Marked(u, s, t, p)
    ensures Inv(u, t)
  {
    assert RowOk(u, s, p) && ApplyRow(u, s, p);
    RowTables(u, s, t, p);
    SameFilesGrow(u, s, t, p);
    TempNotLeaf(u, s, p);
    MarkedRow(u, s, t, p);
    RowOrder(u, s, t, p);
    RowKeeps(u, s, t, p);
  }

  lemma MarkedRow(u: Setup, s: State, t: State, p: Path)
    requires Sound(u) && ApplyOrder(u, s) && Marked(u, s, t, p)
    ensures ApplyRow(u, t, p)
  {
    assert ApplyRow(u, s, p);
    assert Forward(u, s, t) by {
      forall q | Done(s, q)
        ensures Done(t, q)
      {
      }
    }
    ForwardFacts(u, s, t);
  }

  lemma NotedKeeps(u: Setup, s: State, p: Path)
    requires Sound(u) && Inv(u, s) && CanNote(u, s, p)
    ensures Inv(u, Noted(s, p))
  {
    MarkedKeeps(u, s, Noted(s, p), p);
  }

  // ---- contents and times ----

  lemma InstallingMade(u: Setup, s: State, p: Path)
    requires Sound(u) && Inv(u, s) && Installing(u, s, p) && s.rows[p].made.Some? && !Lost(s, p)
    ensures MadeAs(u, s, p)
  {
    MadeIsNew(u, s, p);
    assert AttrOk(u, s, s.rows[p].made.value);
  }

  /** New contents or times of an inode that was made for the target. */
  lemma SetAttrKeeps(u: Setup, s: State, t: State, p: Path, a: Attr)
    requires Sound(u) && Inv(u, s) && Installing(u, s, p) && MadeAs(u, s, p) && a.DirAttr? == u.target[p].ItemDir?
    requires a == ItemAttr(u.target[p]) || a.DirAttr? || AtTemp(s, p)
    requires t == s.(fs := SetAttr(s.fs, s.rows[p].made.value, a))
    ensures Inv(u, t)
  {
    var i := s.rows[p].made.value;
    SetAttrKeepsOrder(s.fs, i, a);
    TablesSame(u, s, t);
    MadeIsNew(u, s, p);
    if AtTemp(s, p) {
      TempNotLeaf(u, s, p);
    }
    SetAttrPlaces(u, s, t, p);
    SetAttrAttrs(u, s, t, p, a);
    SetAttrOrder(u, s, t);
  }

  lemma SetAttrPlaces(u: Setup, s: State, t: State, p: Path)
    requires Sound(u) && Tables(u, s) && Places(u, s) && SameTables(s, t) && t.fs.place == s.fs.place && p in s.rows
    ensures Places(u, t) && Grows(u, s, t)
  {
    SameFilesGrow(u, s, t, p);
    forall j | j in t.fs.place
      ensures Legit(u, t, j)
    {
      LegitGrows(u, s, t, j);
    }
  }

  lemma SetAttrAttrs(u: Setup, s: State, t: State, p: Path, a: Attr)
    requires Attrs(u, s) && MadeAs(u, s, p) && p != [] && a.DirAttr? == u.target[p].ItemDir? && s.rows[p].made.value !in u.cap.place
    requires a == ItemAttr(u.target[p]) || a.DirAttr? || (s.rows[p].made.value in s.fs.place && s.fs.place[s.rows[p].made.value].name != Leaf(p))
    requires s.rows[p].made.value in s.of && s.of[s.rows[p].made.value] == p
    requires t == s.(fs := SetAttr(s.fs, s.rows[p].made.value, a))
    ensures Attrs(u, t)
  {
    forall j | j in t.fs.place
      ensures AttrOk(u, t, j)
    {
      assert AttrOk(u, s, j);
      if j != s.rows[p].made.value {
        AttrKept(u, s, t, j);
      }
    }
  }

  lemma SetAttrOrder(u: Setup, s: State, t: State)
    requires Sound(u) && Tables(u, s) && Places(u, s) && ApplyOrder(u, s) && SameTables(s, t) && t.fs.place == s.fs.place
    ensures ApplyOrder(u, t)
  {
    forall j | j in u.cap.place && Top(u, j)
      ensures ApplyRec(u, t, j)
    {
      assert ApplyRec(u, s, j);
    }
    forall q | q in u.target
      ensures ApplyRow(u, t, q)
    {
      assert ApplyRow(u, s, q);
      SetAttrRow(u, s, t, q);
    }
    if s.links != map[] {
      SameForward(u, s, t);
    }
  }

  lemma SameForward(u: Setup, s: State, t: State)
    requires SameTables(s, t)
    ensures (AllHidden(s) ==> AllHidden(t)) && (DirsReady(u, s) ==> DirsReady(u, t)) && (Enrolled(u, s) ==> Enrolled(u, t))
  {
    assert Forward(u, s, t);
    ForwardFacts(u, s, t);
  }

  lemma SetAttrRow(u: Setup, s: State, t: State, q: Path)
    requires ApplyRow(u, s, q) && SameTables(s, t) && t.fs.place == s.fs.place
    ensures ApplyRow(u, t, q)
  {
    SameForward(u, s, t);
    assert InPlace(u, t, q) == InPlace(u, s, q);
  }

  // ---- renames into place ----

  /** A rename of an inode made for the target, within its directory. */
  predicate MadeMove(u: Setup, s: State, p: Path, to: Place) {
    && p in u.target && p != [] && p !in u.source && p in s.rows && s.rows[p].made.Some? && s.rows[p].made.value in s.fs.place && Free(s.fs, to)
    && to.dir == PlaceOf(u, s, p).dir && s.fs.place[s.rows[p].made.value].dir == to.dir
    && ((to.name == Leaf(p) && Known(s, p)) || s.rows[p].temp == Some(to.name) || s.rows[p].undo == Some(to.name))
  }

  function AfterMadeMove(s: State, p: Path, to: Place): State
    requires p in s.rows && s.rows[p].made.Some? && s.rows[p].made.value in s.fs.place
  {
    MoveTo(s, s.rows[p].made.value, to)
  }

  lemma MadeMoveBase(u: Setup, s: State, p: Path, to: Place)
    requires Sound(u) && Base(u, s) && Tables(u, s) && Presence(u, s) && MadeMove(u, s, p, to) && !s.newBase
    ensures var t := AfterMadeMove(s, p, to); Base(u, t) && Tables(u, t) && Presence(u, t)
  {
    MoveKeepsOrder(s.fs, s.rows[p].made.value, to);
    TablesSame(u, s, AfterMadeMove(s, p, to));
  }

  /** Where the inode was, and that its directory is in place. */
  lemma MadeStands(u: Setup, s: State, p: Path)
    requires Sound(u) && Tables(u, s) && Places(u, s) && p in u.target && p !in u.source && p in s.rows && s.rows[p].made.Some?
    requires s.rows[p].made.value in s.fs.place
    ensures p != [] && DirReady(u, s, Parent(p)) && s.fs.place[s.rows[p].made.value].dir == PlaceOf(u, s, p).dir
    ensures Parent(p) !in u.source && s.rows[p].made.value in s.of && s.of[s.rows[p].made.value] == p
    ensures s.rows[p].made.value !in u.cap.place && (PlaceOf(u, s, p).dir == u.cap.root || PlaceOf(u, s, p).dir !in u.cap.attr)
  {
    MadeIsNew(u, s, p);
    assert Legit(u, s, s.rows[p].made.value);
    ParentNotSource(u, p);
    DirOfPath(u, s, p);
  }

  /** Only the directory itself may lose its standing by being moved away; here it was not in place. */
  lemma InstallGrows(u: Setup, s: State, p: Path, to: Place)
    requires Sound(u) && Tables(u, s) && MadeMove(u, s, p, to) && !InPlace(u, s, p)
    ensures Grows(u, s, AfterMadeMove(s, p, to))
  {
    var t := AfterMadeMove(s, p, to);
    forall q | q in s.rows
      ensures RowKept(s, t, q)
    {
    }
    forall q | q in s.rows
      ensures DirStays(u, s, t, q)
    {
      if q != p {
        OneOwner(u, s, p, q);
      }
    }
  }

  lemma InstallPlaces(u: Setup, s: State, p: Path, to: Place)
    requires Sound(u) && Tables(u, s) && Places(u, s) && MadeMove(u, s, p, to) && !InPlace(u, s, p)
    ensures Places(u, AfterMadeMove(s, p, to))
  {
    var t, i := AfterMadeMove(s, p, to), s.rows[p].made.value;
    InstallGrows(u, s, p, to);
    MadeStands(u, s, p);
    DirGrows(u, s, t, Parent(p));
    forall j | j in t.fs.place
      ensures Legit(u, t, j)
    {
      if j != i {
        LegitGrows(u, s, t, j);
      }
    }
  }

  lemma MadeMoveAttrs(u: Setup, s: State, p: Path, to: Place)
    requires Sound(u) && Base(u, s) && Tables(u, s) && Places(u, s) && Attrs(u, s) && MadeMove(u, s, p, to) && !s.newBase
    requires to.name == Leaf(p) && u.target[p].ItemFile? ==> s.rows[p].made.value in s.fs.attr && s.fs.attr[s.rows[p].made.value] == ItemAttr(u.target[p])
    ensures Attrs(u, AfterMadeMove(s, p, to))
  {
    var t, i := AfterMadeMove(s, p, to), s.rows[p].made.value;
    MadeStands(u, s, p);
    forall j | j in t.fs.place
      ensures AttrOk(u, t, j)
    {
      assert AttrOk(u, s, j);
      if j != i {
        AttrKept(u, s, t, j);
      }
    }
  }

  lemma InstallOrder(u: Setup, s: State, p: Path)
    requires Sound(u) && Tables(u, s) && Places(u, s) && ApplyOrder(u, s) && CanInstall(u, s, p) && MadeMove(u, s, p, PlaceOf(u, s, p)) && !InPlace(u, s, p)
    ensures ApplyOrder(u, AfterMadeMove(s, p, PlaceOf(u, s, p)))
  {
    var t := AfterMadeMove(s, p, PlaceOf(u, s, p));
    InstallGrows(u, s, p, PlaceOf(u, s, p));
    SameForward(u, s, t);
    assert ApplyRow(u, s, p);
    RowOrder(u, s, t, p);
  }

  lemma InstallFits(u: Setup, s: State, p: Path)
    requires Sound(u) && Inv(u, s) && CanInstall(u, s, p)
    ensures MadeMove(u, s, p, PlaceOf(u, s, p)) && !InPlace(u, s, p)
  {
    TempNotLeaf(u, s, p);
    MadeStands(u, s, p);
    LeafFree(u, s, p);
    ParentNotSource(u, p);
    ReadyIsDir(u, s, Parent(p));
  }

  lemma InstallKeeps(u: Setup, s: State, p: Path)
    requires Sound(u) && Inv(u, s) && CanInstall(u, s, p)
    ensures MadeMove(u, s, p, PlaceOf(u, s, p)) && Inv(u, AfterMadeMove(s, p, PlaceOf(u, s, p)))
  {
    InstallFits(u, s, p);
    MadeMoveBase(u, s, p, PlaceOf(u, s, p));
    InstallPlaces(u, s, p, PlaceOf(u, s, p));
    MadeMoveAttrs(u, s, p, PlaceOf(u, s, p));
    InstallOrder(u, s, p);
  }

  // ---- promoting captured files ----

  lemma PromoteFits(u: Setup, s: State, i: Ino)
    requires Sound(u) && Inv(u, s) && CanPromote(u, s, i)
    ensures var p := u.promo[i]; i in s.fs.place && i in u.cap.place && p in u.target && DirReady(u, s, Parent(p)) && Free(s.fs, PlaceOf(u, s, p))
    ensures PlaceOf(u, s, u.promo[i]).dir == u.cap.root || PlaceOf(u, s, u.promo[i]).dir !in u.cap.attr
  {
    var p := u.promo[i];
    assert PromoOk(u, i);
    ParentNotSource(u, p);
    if Parent(p) != [] {
      assert Done(s, Parent(p)) && ApplyRow(u, s, Parent(p));
      assert RowOk(u, s, Parent(p));
    }
    LeafFree(u, s, p);
    ReadyIsDir(u, s, Parent(p));
    DirOfPath(u, s, p);
  }

  lemma PromotedBase(u: Setup, s: State, i: Ino)
    requires Sound(u) && Base(u, s) && Tables(u, s) && Presence(u, s) && CanPromote(u, s, i) && !s.newBase && i in s.fs.place && Free(s.fs, PlaceOf(u, s, u.promo[i]))
    ensures var t := PromotedState(u, s, i); Base(u, t) && Tables(u, t) && Presence(u, t)
  {
    MoveKeepsOrder(s.fs, i, PlaceOf(u, s, u.promo[i]));
    TablesSame(u, s, PromotedState(u, s, i));
  }

  lemma PromotedPlaces(u: Setup, s: State, i: Ino)
    requires Sound(u) && Tables(u, s) && Places(u, s) && CanPromote(u, s, i) && !s.newBase && i in s.fs.place && i in u.cap.place
    requires DirReady(u, s, Parent(u.promo[i])) && u.promo[i] in u.target
    ensures Places(u, PromotedState(u, s, i)) && Grows(u, s, PromotedState(u, s, i))
  {
    var t := PromotedState(u, s, i);
    GrowsByCaptured(u, s, t, i);
    ParentNotSource(u, u.promo[i]);
    DirGrows(u, s, t, Parent(u.promo[i]));
    forall j | j in t.fs.place
      ensures Legit(u, t, j)
    {
      if j != i {
        LegitGrows(u, s, t, j);
      }
    }
  }

  lemma PromotedAttrs(u: Setup, s: State, i: Ino)
    requires Sound(u) && Base(u, s) && Places(u, s) && Attrs(u, s) && CanPromote(u, s, i) && !s.newBase && i in s.fs.place && i in u.cap.place
    requires Free(s.fs, PlaceOf(u, s, u.promo[i]))
    requires PlaceOf(u, s, u.promo[i]).dir == u.cap.root || PlaceOf(u, s, u.promo[i]).dir !in u.cap.attr
    ensures Attrs(u, PromotedState(u, s, i))
  {
    var t, d := PromotedState(u, s, i), s.fs.place[i].dir;
    assert Legit(u, s, i);
    forall j | j in t.fs.place
      ensures AttrOk(u, t, j)
    {
      assert AttrOk(u, s, j);
      assert Robbed(u, s, j) ==> Robbed(u, t, j);
      if j in u.cap.place && j == d {
        RobbedNow(u, s, i);
      } else {
        AttrKept(u, s, t, j);
      }
    }
  }

  lemma RobbedNow(u: Setup, s: State, i: Ino)
    requires Sound(u) && CanPromote(u, s, i) && !s.newBase && i in s.fs.place && i in u.cap.place && Legit(u, s, i)
    requires s.fs.place[i].dir in u.cap.place
    ensures Robbed(u, PromotedState(u, s, i), s.fs.place[i].dir)
  {
    var t := PromotedState(u, s, i);
    assert !Top(u, i);
    assert i in t.links && !t.links[i] && u.cap.place[i].dir == s.fs.place[i].dir;
  }

  lemma PromotedOrder(u: Setup, s: State, i: Ino)
    requires Sound(u) && Tables(u, s) && Places(u, s) && ApplyOrder(u, s) && CanPromote(u, s, i) && i in s.fs.place && i in u.cap.place
    requires Grows(u, s, PromotedState(u, s, i))
    ensures ApplyOrder(u, PromotedState(u, s, i))
  {
    var t := PromotedState(u, s, i);
    assert Forward(u, s, t);
    ForwardFacts(u, s, t);
    assert PromoOk(u, i);
    forall j | j in u.cap.place && Top(u, j)
      ensures ApplyRec(u, t, j)
    {
      assert ApplyRec(u, s, j);
    }
    forall q | q in u.target
      ensures ApplyRow(u, t, q)
    {
      PromotedRow(u, s, i, q);
    }
  }

  lemma PromotedRow(u: Setup, s: State, i: Ino, q: Path)
    requires Sound(u) && Tables(u, s) && Places(u, s) && ApplyOrder(u, s) && CanPromote(u, s, i) && i in s.fs.place && i in u.cap.place
    requires Grows(u, s, PromotedState(u, s, i)) && Forward(u, s, PromotedState(u, s, i)) && q in u.target
    ensures ApplyRow(u, PromotedState(u, s, i), q)
  {
    assert ApplyRow(u, s, q) && PromoOk(u, i);
    if s.rows[q].made.Some? {
      MadeOrSource(u, s, q);
      assert RowOk(u, s, q);
    }
    assert q in u.source ==> SourceOk(u, q);
    OtherRow(u, s, PromotedState(u, s, i), q);
  }

  lemma PromoteKeeps(u: Setup, s: State, i: Ino)
    requires Sound(u) && Inv(u, s) && CanPromote(u, s, i)
    ensures i in s.fs.place && Free(s.fs, PlaceOf(u, s, u.promo[i])) && Inv(u, PromotedState(u, s, i))
  {
    PromoteFits(u, s, i);
    PromotedBase(u, s, i);
    PromotedPlaces(u, s, i);
    PromotedAttrs(u, s, i);
    PromotedOrder(u, s, i);
  }
}
