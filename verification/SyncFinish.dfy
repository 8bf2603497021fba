/** Committing the new base and removing what was moved aside keeps the invariant. */
module SyncFinish {
  import opened Wrappers
  import opened Bytes
  import opened FileSystem
  import opened SyncApply
  import opened SyncInvariant
  import opened SyncSteps
  import opened SyncInstall

  function FinalizedState(s: State): State {
    s.(phase := Finalized, newBase := true)
  }

  /** When every promotion was recorded, exactly the files to promote are promoted. */
  lemma PromotedAll(u: Setup, s: State, j: Ino)
    requires Sound(u) && Tables(u, s) && ApplyOrder(u, s) && Enrolled(u, s)
    ensures Promoted(u, s, j) <==> j in u.promo
  {
    if j in u.promo {
      assert PromoOk(u, j) && Done(s, u.promo[j]) && ApplyRow(u, s, u.promo[j]);
    }
  }

  lemma FinalizedPlaces(u: Setup, s: State)
    requires Sound(u) && Tables(u, s) && Places(u, s) && ApplyOrder(u, s) && CanFinalize(u, s)
    ensures Places(u, FinalizedState(s))
  {
    var t := FinalizedState(s);
    forall j | j in t.fs.place
      ensures Legit(u, t, j)
    {
      assert Legit(u, s, j);
      PromotedAll(u, s, j);
      if j in u.cap.place && Top(u, j) {
        assert ApplyRec(u, s, j) && OutOfSight(u, s, j);
      }
    }
  }

  lemma FinalizedPresence(u: Setup, s: State)
    requires Sound(u) && Presence(u, s) && ApplyOrder(u, s)
    ensures Presence(u, FinalizedState(s))
  {
    var t := FinalizedState(s);
    forall i | i in u.promo
      ensures i in t.fs.place
    {
      assert PromoOk(u, i);
    }
    forall j | j in u.cap.place && j in t.fs.place && j !in u.promo
      ensures Kept(u, t, j)
    {
      assert AreaOk(u, j) && ApplyRec(u, s, u.area[j]);
    }
  }

  lemma FinalizeKeeps(u: Setup, s: State)
    requires Sound(u) && Inv(u, s) && CanFinalize(u, s)
    ensures Inv(u, FinalizedState(s))
  {
    var t := FinalizedState(s);
    TablesSame(u, s, t);
    FinalizedPlaces(u, s);
    FinalizedPresence(u, s);
    forall j | j in t.fs.place
      ensures AttrOk(u, t, j)
    {
      assert AttrOk(u, s, j);
    }
    forall p | p in u.target
      ensures AsTarget(u, t, p)
    {
      assert AsTarget(u, s, p);
    }
  }

  // ---- the target stays ----

  /** The owners of target paths are promoted files and inodes made for the target. */
  lemma OwnerKind(u: Setup, s: State, p: Path)
    requires Sound(u) && Tables(u, s) && p in u.target && Owner(u, s, p).Some?
    ensures Owner(u, s, p).value in u.promo || Owner(u, s, p).value !in u.cap.place
  {
    if p in u.source {
      assert SourceOk(u, p);
    } else {
      MadeIsNew(u, s, p);
    }
  }

  /** The target tree stays as long as no owner moves or changes. */
  lemma TargetStays(u: Setup, s: State, t: State)
    requires Sound(u) && Tables(u, s) && TreeAsTarget(u, s) && t.rows == s.rows
    requires forall i :: i in s.fs.place && (i in u.promo || i !in u.cap.place) ==> SamePlace(s, t, i)
    requires forall i :: i in s.fs.place && i in s.fs.attr && (i in u.promo || i !in u.cap.place) ==> i in t.fs.attr && t.fs.attr[i] == s.fs.attr[i]
    ensures TreeAsTarget(u, t)
  {
    forall p | p in u.target
      ensures AsTarget(u, t, p)
    {
      assert AsTarget(u, s, p);
      OwnerKind(u, s, p);
    }
  }

  // ---- trash ----

  lemma TombNamedKeeps(u: Setup, s: State, i: Ino, n: Name)
    requires Sound(u) && Inv(u, s) && CanNameTomb(u, s, i, n)
    ensures Inv(u, TombNamed(s, i, n))
  {
    var t := TombNamed(s, i, n);
    RecTables(u, s, t, i, t.recs[i]);
    forall j | j in s.recs
      ensures RecKept(s, t, j)
    {
    }
    forall p | p in s.rows
      ensures RowKept(s, t, p)
    {
    }
    PlacesTables(u, s, t);
    AttrsTables(u, s, t);
    KeptSame(u, s, t);
    TargetStays(u, s, t);
  }

  lemma TrashFits(u: Setup, s: State, i: Ino)
    requires Sound(u) && Inv(u, s) && CanTrash(u, s, i)
    ensures TopMove(u, s, i, s.recs[i].tomb.value) && TopName(u, s, i, s.recs[i].tomb.value)
  {
    assert RecOk(u, s, i) && Legit(u, s, i);
    ReservedFree(u, s, InRoot(u, s.recs[i].tomb.value));
  }

  lemma TrashKeeps(u: Setup, s: State, i: Ino)
    requires Sound(u) && Inv(u, s) && CanTrash(u, s, i)
    ensures Free(s.fs, InRoot(u, s.recs[i].tomb.value)) && Inv(u, MoveTo(s, i, InRoot(u, s.recs[i].tomb.value)))
  {
    TrashFits(u, s, i);
    var t := MoveTo(s, i, InRoot(u, s.recs[i].tomb.value));
    TargetStays(u, s, t);
    TopMoveKeeps(u, s, t, i, s.recs[i].tomb.value);
  }

  // ---- erasing ----

  function Erased(u: Setup, s: State, i: Ino): State {
    s.(fs := RemoveAll(s.fs, AreaOf(u, s, i)))
  }

  /** Nothing that stays lies in a directory that is erased. */
  lemma NothingBelow(u: Setup, s: State, i: Ino, j: Ino)
    requires Sound(u) && Tables(u, s) && Places(u, s) && s.newBase && j in s.fs.place && j !in AreaOf(u, s, i)
    ensures s.fs.place[j].dir !in AreaOf(u, s, i)
  {
    assert Legit(u, s, j);
    var d := s.fs.place[j].dir;
    if d in AreaOf(u, s, i) {
      assert d in u.cap.place && AreaOk(u, d);
      if j in u.cap.place {
        assert AreaOk(u, j);
        PromotedDir(u, s, j);
      } else {
        assert OfOk(u, s, j);
        DirOfPath(u, s, s.of[j]);
      }
    }
  }

  lemma PromotedDir(u: Setup, s: State, j: Ino)
    requires Sound(u) && Tables(u, s) && Legit(u, s, j) && j in u.cap.place
    ensures Promoted(u, s, j) ==> s.fs.place[j].dir !in u.cap.place
  {
    if Promoted(u, s, j) {
      assert PromoOk(u, j);
      DirOfPath(u, s, u.promo[j]);
    }
  }

  lemma ErasedOrder(fs: FS, gone: set<Ino>)
    requires WellFormed(fs) && IsDir(fs, fs.root) && gone <= fs.place.Keys && forall j :: j in fs.place && j !in gone ==> fs.place[j].dir !in gone
    ensures WellFormed(RemoveAll(fs, gone)) && IsDir(RemoveAll(fs, gone), fs.root)
  {
    var after := RemoveAll(fs, gone);
    forall j | j in after.place
      ensures Sole(after, j) && IsDir(after, after.place[j].dir)
    {
      assert Sole(fs, j) && IsDir(fs, fs.place[j].dir);
    }
  }

  lemma ErasedPlaces(u: Setup, s: State, i: Ino)
    requires Sound(u) && Base(u, s) && Tables(u, s) && Places(u, s) && s.newBase
    ensures Places(u, Erased(u, s, i)) && Grows(u, s, Erased(u, s, i))
  {
    var t := Erased(u, s, i);
    forall p | p in s.rows
      ensures RowKept(s, t, p)
    {
    }
    forall p | p in s.rows
      ensures DirStays(u, s, t, p)
    {
      if s.rows[p].made.Some? {
        MadeOrSource(u, s, p);
      }
    }
    forall j | j in t.fs.place
      ensures Legit(u, t, j)
    {
      LegitGrows(u, s, t, j);
    }
  }

  lemma ErasedPresence(u: Setup, s: State, i: Ino)
    requires Sound(u) && Presence(u, s) && s.newBase
    ensures Presence(u, Erased(u, s, i))
  {
    var t := Erased(u, s, i);
    forall j | j in u.cap.place && j in t.fs.place && j !in u.promo
      ensures Kept(u, t, j)
    {
      assert Kept(u, s, j) && AreaOk(u, j) && AreaOk(u, u.area[j]);
    }
  }

  lemma ErasedAttrs(u: Setup, s: State, i: Ino)
    requires Base(u, s) && Attrs(u, s) && s.newBase
    ensures Attrs(u, Erased(u, s, i))
  {
    var t := Erased(u, s, i);
    forall j | j in t.fs.place
      ensures AttrOk(u, t, j)
    {
      assert AttrOk(u, s, j);
      AttrKept(u, s, t, j);
    }
  }

  lemma EraseKeeps(u: Setup, s: State, i: Ino)
    requires Sound(u) && Inv(u, s) && CanErase(u, s, i)
    ensures Inv(u, Erased(u, s, i))
  {
    var t := Erased(u, s, i);
    forall j | j in s.fs.place && j !in AreaOf(u, s, i)
      ensures s.fs.place[j].dir !in AreaOf(u, s, i)
    {
      NothingBelow(u, s, i, j);
    }
    ErasedOrder(s.fs, AreaOf(u, s, i));
    TablesSame(u, s, t);
    ErasedPlaces(u, s, i);
    ErasedPresence(u, s, i);
    ErasedAttrs(u, s, i);
    TargetStays(u, s, t);
  }

  // ---- consuming ----

  lemma WithoutRecTables(u: Setup, s: State, i: Ino)
    requires Tables(u, s)
    ensures Tables(u, WithoutRec(s, i))
  {
    var t := WithoutRec(s, i);
    forall j | j in t.recs
      ensures RecOk(u, t, j)
    {
      assert RecOk(u, s, j);
    }
    forall p | p in t.rows
      ensures RowOk(u, t, p)
    {
      assert RowOk(u, s, p);
    }
    forall j | j in t.of
      ensures OfOk(u, t, j)
    {
      assert OfOk(u, s, j);
    }
  }

  lemma ConsumedPlaces(u: Setup, s: State, i: Ino)
    requires Sound(u) && Tables(u, s) && Places(u, s) && CanConsume(u, s, i) && s.newBase
    ensures Places(u, WithoutRec(s, i))
  {
    var t := WithoutRec(s, i);
    forall p | p in s.rows
      ensures RowKept(s, t, p)
    {
    }
    forall p | p in s.rows
      ensures DirStays(u, s, t, p)
    {
    }
    forall j | j in t.fs.place
      ensures Legit(u, t, j)
    {
      if j != i {
        LegitGrows(u, s, t, j);
      } else {
        LegitGrows(u, s, t.(recs := s.recs), j);
        assert Legit(u, t.(recs := s.recs), j);
      }
    }
  }

  lemma ConsumedPresence(u: Setup, s: State, i: Ino)
    requires Sound(u) && Presence(u, s) && CanConsume(u, s, i) && s.newBase
    ensures Presence(u, WithoutRec(s, i))
  {
    var t := WithoutRec(s, i);
    forall j | j in u.cap.place && j in t.fs.place && j !in u.promo
      ensures Kept(u, t, j)
    {
      assert Kept(u, s, j) && AreaOk(u, j);
      assert i in u.promo ==> PromoOk(u, i);
    }
  }

  lemma ConsumeKeeps(u: Setup, s: State, i: Ino)
    requires Sound(u) && Inv(u, s) && CanConsume(u, s, i)
    ensures Inv(u, WithoutRec(s, i))
  {
    var t := WithoutRec(s, i);
    WithoutRecTables(u, s, i);
    ConsumedPlaces(u, s, i);
    ConsumedPresence(u, s, i);
    AttrsTables(u, s, t);
    TargetStays(u, s, t);
  }

  lemma FinishKeeps(u: Setup, s: State)
    requires Sound(u) && Inv(u, s) && s.phase.Finalized? && s.recs == map[]
    ensures Inv(u, s.(phase := Over))
  {
    var t := s.(phase := Over);
    TablesSame(u, s, t);
    OverSame(u, s, t);
    TargetStays(u, s, t);
  }

  /** Places, presence and attributes do not depend on the phase. */
  lemma OverSame(u: Setup, s: State, t: State)
    requires Sound(u) && Tables(u, s) && Places(u, s) && Presence(u, s) && Attrs(u, s) && SameTables(s, t) && t.fs == s.fs
    ensures Places(u, t) && Presence(u, t) && Attrs(u, t)
  {
    forall p | p in s.rows
      ensures RowKept(s, t, p)
    {
    }
    forall i | i in s.recs
      ensures RecKept(s, t, i)
    {
    }
    PlacesTables(u, s, t);
    AttrsTables(u, s, t);
    KeptSame(u, s, t);
  }
}
