/** Every step that the program tries can be carried out, and keeps the invariant. */
module SyncSteps {
  import opened Wrappers
  import opened Bytes
  import opened FileSystem
  import opened SyncApply
  import opened SyncInvariant

  // ---- moves of captured top-level entries ----

  /** Only a captured inode was moved. */
  lemma GrowsByCaptured(u: Setup, s: State, t: State, i: Ino)
    requires WellFormed(u.cap) && Tables(u, s) && i in u.cap.place && t.rows == s.rows
    requires forall j :: j in s.fs.place && j != i ==> SamePlace(s, t, j)
    ensures Grows(u, s, t)
  {
    forall p | p in s.rows
      ensures RowKept(s, t, p)
    {
    }
    forall p | p in s.rows
      ensures DirStays(u, s, t, p)
    {
      if s.rows[p].made.Some? && p !in u.source {
        MadeIsNew(u, s, p);
      }
    }
  }

  lemma MovedPlaces(u: Setup, s: State, t: State, i: Ino)
    requires Sound(u) && Tables(u, s) && Places(u, s) && i in u.cap.place && i in s.fs.place && t.rows == s.rows
    requires forall j :: j in s.fs.place && j != i ==> SamePlace(s, t, j)
    requires forall j :: j in t.fs.place ==> j in s.fs.place
    requires t.recs == s.recs && t.of == s.of && t.newBase == s.newBase && t.links == s.links
    requires i in t.fs.place ==> Legit(u, t, i)
    ensures Places(u, t)
  {
    GrowsByCaptured(u, s, t, i);
    forall j | j in t.fs.place
      ensures Legit(u, t, j)
    {
      if j != i {
        LegitGrows(u, s, t, j);
      }
    }
  }

  /** A move inside the root, by an unpromoted top-level entry. */
  predicate TopMove(u: Setup, s: State, i: Ino, n: Name) {
    i in u.cap.place && Top(u, i) && i in s.fs.place && !Promoted(u, s, i) && Free(s.fs, InRoot(u, n)) && s.fs.place[i].dir == u.cap.root
  }

  lemma TopMoveBase(u: Setup, s: State, t: State, i: Ino, n: Name)
    requires Base(u, s) && Tables(u, s) && Presence(u, s) && TopMove(u, s, i, n) && t == MoveTo(s, i, InRoot(u, n))
    ensures Base(u, t) && Tables(u, t) && Presence(u, t)
  {
    MoveKeepsOrder(s.fs, i, InRoot(u, n));
    TablesSame(u, s, t);
    TopMovePresence(u, s, t, i, n);
  }

  lemma TopMovePresence(u: Setup, s: State, t: State, i: Ino, n: Name)
    requires Presence(u, s) && TopMove(u, s, i, n) && t == MoveTo(s, i, InRoot(u, n))
    ensures Presence(u, t)
  {
    if s.newBase {
      forall j | j in u.cap.place && j in t.fs.place && j !in u.promo
        ensures Kept(u, t, j)
      {
        assert Kept(u, s, j);
      }
    }
  }

  lemma TopMovePlaces(u: Setup, s: State, t: State, i: Ino, n: Name)
    requires Sound(u) && Tables(u, s) && Places(u, s) && TopMove(u, s, i, n) && TopName(u, s, i, n)
    requires t == MoveTo(s, i, InRoot(u, n))
    ensures Places(u, t)
  {
    MovedPlaces(u, s, t, i);
  }

  /** In the root only the root's own time is touched. */
  lemma TopMoveAttrs(u: Setup, s: State, t: State, i: Ino, n: Name)
    requires Base(u, s) && Attrs(u, s) && TopMove(u, s, i, n) && t == MoveTo(s, i, InRoot(u, n))
    ensures Attrs(u, t)
  {
    forall j | j in t.fs.place
      ensures AttrOk(u, t, j)
    {
      assert AttrOk(u, s, j);
      AttrKept(u, s, t, j);
    }
  }

  lemma TopMoveKeeps(u: Setup, s: State, t: State, i: Ino, n: Name)
    requires Sound(u) && Inv(u, s) && TopMove(u, s, i, n) && TopName(u, s, i, n) && t == MoveTo(s, i, InRoot(u, n)) && Order(u, t)
    ensures Inv(u, t)
  {
    TopMoveBase(u, s, t, i, n);
    TopMovePlaces(u, s, t, i, n);
    TopMoveAttrs(u, s, t, i, n);
  }

  // ---- moving aside ----

  lemma HideFits(u: Setup, s: State, i: Ino)
    requires Sound(u) && Inv(u, s) && CanHide(u, s, i)
    ensures Free(s.fs, HidPlace(u, s, i))
  {
    assert RecOk(u, s, i) && AreaOk(u, i);
    ReservedFree(u, s, HidPlace(u, s, i));
  }

  lemma HideOrder(u: Setup, s: State, i: Ino)
    requires Sound(u) && Tables(u, s) && ApplyOrder(u, s) && CanHide(u, s, i)
    ensures ApplyOrder(u, MoveTo(s, i, HidPlace(u, s, i)))
  {
    var t := MoveTo(s, i, HidPlace(u, s, i));
    assert !SetAside(s, i);
    forall j | j in u.cap.place && Top(u, j)
      ensures ApplyRec(u, t, j)
    {
      assert ApplyRec(u, s, j);
    }
    forall p | p in u.target
      ensures ApplyRow(u, t, p)
    {
      assert ApplyRow(u, s, p) && RowOk(u, s, p);
    }
  }

  lemma HideKeeps(u: Setup, s: State, i: Ino)
    requires Sound(u) && Inv(u, s) && CanHide(u, s, i) && Free(s.fs, HidPlace(u, s, i))
    ensures Inv(u, MoveTo(s, i, HidPlace(u, s, i)))
  {
    assert Legit(u, s, i) && RecOk(u, s, i) && AreaOk(u, i);
    assert !SetAside(s, i);
    HideOrder(u, s, i);
    TopMoveKeeps(u, s, MoveTo(s, i, HidPlace(u, s, i)), i, s.recs[i].hidden);
  }

  // ---- steps that change the tables only ----

  lemma PlacesTables(u: Setup, s: State, t: State)
    requires Sound(u) && Tables(u, s) && Places(u, s) && t.fs == s.fs && t.newBase == s.newBase && t.links == s.links && t.of == s.of
    requires forall p {:trigger RowKept(s, t, p)} :: p in s.rows ==> RowKept(s, t, p)
    requires forall i {:trigger RecKept(s, t, i)} :: i in s.recs ==> RecKept(s, t, i)
    ensures Places(u, t)
  {
    forall p | p in s.rows
      ensures DirStays(u, s, t, p)
    {
    }
    forall j | j in t.fs.place
      ensures Legit(u, t, j)
    {
      assert j in s.recs ==> RecKept(s, t, j);
      LegitGrows(u, s, t, j);
    }
  }

  lemma AttrsTables(u: Setup, s: State, t: State)
    requires Attrs(u, s) && t.fs == s.fs && t.newBase == s.newBase && t.links == s.links && t.of == s.of
    ensures Attrs(u, t)
  {
    forall j | j in t.fs.place
      ensures AttrOk(u, t, j)
    {
      assert AttrOk(u, s, j);
    }
  }

  /** What a change of one record leaves. */
  lemma RecTables(u: Setup, s: State, t: State, i: Ino, r: Rec)
    requires Tables(u, s) && i in s.recs && t.recs == s.recs[i := r] && t.rows == s.rows && t.links == s.links && t.of == s.of && t.fs.next == s.fs.next
    requires NamesGrow(s, t) && (forall n :: n in t.names && n !in s.names ==> u.reserved(n)) && r.hidden == s.recs[i].hidden
    requires r.tomb == s.recs[i].tomb || (r.tomb.Some? && HandedOut(t, r.tomb.value, Tomb(i)))
    ensures Tables(u, t)
  {
    forall j | j in t.recs
      ensures RecOk(u, t, j)
    {
      assert RecOk(u, s, j);
    }
    forall p | p in t.rows
      ensures RowOk(u, t, p)
    {
      assert RowOk(u, s, p);
    }
    forall j | j in t.of
      ensures OfOk(u, t, j)
    {
      assert OfOk(u, s, j);
    }
  }

  /** What a change of one row leaves. */
  lemma RowTables(u: Setup, s: State, t: State, p: Path)
    requires Tables(u, s) && p in s.rows && p in t.rows && t.rows == s.rows[p := t.rows[p]] && t.recs == s.recs && t.links == s.links
    requires NamesGrow(s, t) && (forall n :: n in t.names && n !in s.names ==> u.reserved(n)) && t.fs.next >= s.fs.next
    requires (forall i :: i in s.of ==> i in t.of && t.of[i] == s.of[i]) && (forall i :: i in t.of && i !in s.of ==> OfOk(u, t, i))
    requires RowOk(u, t, p)
    ensures Tables(u, t)
  {
    forall j | j in t.recs
      ensures RecOk(u, t, j)
    {
      assert RecOk(u, s, j);
    }
    forall q | q in t.rows
      ensures RowOk(u, t, q)
    {
      assert RowOk(u, s, q);
    }
    forall j | j in t.of
      ensures OfOk(u, t, j)
    {
      assert j in s.of ==> OfOk(u, s, j);
    }
  }

  lemma HiddenRecordedKeeps(u: Setup, s: State, i: Ino)
    requires Sound(u) && Inv(u, s) && CanRecordHidden(u, s, i)
    ensures Inv(u, HiddenRecorded(s, i))
  {
    var t := HiddenRecorded(s, i);
    RecTables(u, s, t, i, t.recs[i]);
    forall j | j in s.recs
      ensures RecKept(s, t, j)
    {
    }
    forall p | p in s.rows
      ensures RowKept(s, t, p)
    {
    }
    PlacesTables(u, s, t);
    AttrsTables(u, s, t);
    HiddenRecordedOrder(u, s, i);
  }

  lemma HiddenRecordedOrder(u: Setup, s: State, i: Ino)
    requires Sound(u) && Tables(u, s) && ApplyOrder(u, s) && CanRecordHidden(u, s, i)
    ensures ApplyOrder(u, HiddenRecorded(s, i))
  {
    var t := HiddenRecorded(s, i);
    assert !SetAside(s, i);
    forall j | j in u.cap.place && Top(u, j)
      ensures ApplyRec(u, t, j)
    {
      assert ApplyRec(u, s, j);
    }
    forall p | p in u.target
      ensures ApplyRow(u, t, p)
    {
      assert ApplyRow(u, s, p) && RowOk(u, s, p);
    }
  }

  lemma RecordKeeps(u: Setup, s: State)
    requires Sound(u) && Inv(u, s) && s.phase.Pending?
    ensures Inv(u, Recorded(u, s))
  {
    var t := Recorded(u, s);
    forall p | p in t.rows
      ensures RowOk(u, t, p) && PendingRow(t, p)
    {
      assert TargetOk(u, p);
    }
    forall j | j in t.fs.place
      ensures Legit(u, t, j) && AttrOk(u, t, j)
    {
      assert Legit(u, s, j) && AttrOk(u, s, j);
    }
  }

  lemma RegisterTables(u: Setup, s: State, hidden: map<Ino, Name>)
    requires Sound(u) && Tables(u, s) && Order(u, s) && CanRegister(u, s, hidden)
    ensures Tables(u, Registered(u, s, hidden))
  {
    var t := Registered(u, s, hidden);
    forall n | n in t.names
      ensures u.reserved(n)
    {
    }
    forall i | i in t.recs
      ensures RecOk(u, t, i)
    {
      assert hidden[i] in t.names;
    }
    forall p | p in t.rows
      ensures RowOk(u, t, p)
    {
      assert PendingRow(s, p) && RowOk(u, s, p);
    }
  }

  lemma RegisterKeeps(u: Setup, s: State, hidden: map<Ino, Name>)
    requires Sound(u) && Inv(u, s) && CanRegister(u, s, hidden)
    ensures Inv(u, Registered(u, s, hidden))
  {
    var t := Registered(u, s, hidden);
    RegisterTables(u, s, hidden);
    forall j | j in t.fs.place
      ensures Legit(u, t, j)
    {
    }
    forall j | j in t.fs.place
      ensures AttrOk(u, t, j)
    {
      assert AttrOk(u, s, j);
    }
    RegisterOrder(u, s, hidden);
  }

  lemma RegisterOrder(u: Setup, s: State, hidden: map<Ino, Name>)
    requires Sound(u) && Order(u, s) && CanRegister(u, s, hidden)
    ensures ApplyOrder(u, Registered(u, s, hidden))
  {
    var t := Registered(u, s, hidden);
    forall j | j in u.cap.place && Top(u, j)
      ensures ApplyRec(u, t, j)
    {
    }
    forall p | p in u.target
      ensures ApplyRow(u, t, p)
    {
      assert TargetOk(u, p) && PendingRow(s, p);
    }
  }
}
