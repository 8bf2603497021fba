/** What every step of an application keeps. */
module SyncInvariant {
  import opened Wrappers
  import opened Bytes
  import opened FileSystem
  import opened SyncApply

  // ---- the setup ----

  ghost predicate Sound(u: Setup) {
    && WellFormed(u.cap) && IsDir(u.cap, u.cap.root)
    && (forall i {:trigger AreaOk(u, i)} :: i in u.cap.place ==> AreaOk(u, i))
    && (forall p {:trigger TargetOk(u, p)} :: p in u.target ==> TargetOk(u, p))
    && (forall i {:trigger PromoOk(u, i)} :: i in u.promo ==> PromoOk(u, i))
    && (forall p {:trigger SourceOk(u, p)} :: p in u.source ==> SourceOk(u, p))
  }

  /** Every captured inode lies below one top-level entry, and only directories have something below them. */
  ghost predicate AreaOk(u: Setup, i: Ino) {
    && i in u.cap.place && i in u.area && u.area[i] in u.cap.place && Top(u, u.area[i])
    && (if Top(u, i) then u.area[i] == i && !u.reserved(Visible(u, i))
        else u.cap.place[i].dir in u.area && u.area[i] == u.area[u.cap.place[i].dir] && IsDir(u.cap, u.area[i]))
  }

  ghost predicate TargetOk(u: Setup, p: Path) {
    p != [] && !u.reserved(Leaf(p)) && (Parent(p) != [] ==> IsDirItem(u, Parent(p)))
  }

  ghost predicate PromoOk(u: Setup, i: Ino) {
    && i in u.promo && i in u.cap.place && u.promo[i] in u.source && u.source[u.promo[i]] == i && u.promo[i] in u.target
    && u.promo[i] != [] && u.target[u.promo[i]].ItemFile? && i in u.cap.attr && u.cap.attr[i] == ItemAttr(u.target[u.promo[i]])
  }

  ghost predicate SourceOk(u: Setup, p: Path) {
    p in u.source && u.source[p] in u.promo && u.promo[u.source[p]] == p && p in u.target && u.target[p].ItemFile?
  }

  // ---- the invariant ----

  ghost predicate Inv(u: Setup, s: State) {
    Base(u, s) && Tables(u, s) && Places(u, s) && Presence(u, s) && Attrs(u, s) && Order(u, s)
  }

  ghost predicate Base(u: Setup, s: State) {
    WellFormed(s.fs) && s.fs.root == u.cap.root && u.cap.next <= s.fs.next && IsDir(s.fs, u.cap.root)
  }

  ghost predicate Tables(u: Setup, s: State) {
    && (forall n {:trigger u.reserved(n)} :: n in s.names ==> u.reserved(n))
    && (forall i {:trigger RecOk(u, s, i)} :: i in s.recs ==> RecOk(u, s, i))
    && (forall p {:trigger RowOk(u, s, p)} :: p in s.rows ==> RowOk(u, s, p))
    && (forall i :: i in s.links ==> i in u.promo)
    && (forall i {:trigger OfOk(u, s, i)} :: i in s.of ==> OfOk(u, s, i))
  }

  predicate HandedOut(s: State, n: Name, t: Token) {
    n in s.names && s.names[n] == t
  }

  ghost predicate OfOk(u: Setup, s: State, i: Ino) {
    i in s.of && u.cap.next <= i < s.fs.next && s.of[i] in u.target && s.of[i] !in u.source
  }

  ghost predicate RecOk(u: Setup, s: State, i: Ino) {
    && i in s.recs && Top(u, i) && HandedOut(s, s.recs[i].hidden, Hidden(i))
    && (s.recs[i].tomb.Some? ==> HandedOut(s, s.recs[i].tomb.value, Tomb(i)))
  }

  ghost predicate RowOk(u: Setup, s: State, p: Path) {
    p in s.rows &&
    var r := s.rows[p];
    && p in u.target && (r.temp.Some? ==> HandedOut(s, r.temp.value, Temp(p))) && (r.undo.Some? ==> HandedOut(s, r.undo.value, Undone(p)))
    && (r.done ==> r.made.Some? && r.noted && !r.stray) && (r.noted || r.stray || r.undo.Some? ==> r.made.Some?)
    && (r.made.Some? ==>
          if p in u.source then r.made.value == u.source[p] && r.done
          else r.made.value in s.of && s.of[r.made.value] == p && r.temp.Some?)
    && (p in u.source ==> r.temp.None? && r.undo.None?)
  }

  ghost predicate Places(u: Setup, s: State) {
    forall j {:trigger Legit(u, s, j)} :: j in s.fs.place ==> Legit(u, s, j)
  }

  /** Where an inode may be. */
  ghost predicate Legit(u: Setup, s: State, j: Ino) {
    j in s.fs.place && if j in u.cap.place then LegitCaptured(u, s, j) else LegitMade(u, s, j)
  }

  /** A captured inode: at its promoted place, at its visible or hidden name, or where it was inside its directory. */
  ghost predicate LegitCaptured(u: Setup, s: State, j: Ino)
    requires j in s.fs.place && j in u.cap.place
  {
    var at := s.fs.place[j];
    if Promoted(u, s, j) then j in u.promo && u.promo[j] != [] && at == PlaceOf(u, s, u.promo[j]) && DirReady(u, s, Parent(u.promo[j]))
    else if Top(u, j) then at.dir == u.cap.root && TopName(u, s, j, at.name)
    else at == u.cap.place[j]
  }

  ghost predicate TopName(u: Setup, s: State, j: Ino, n: Name)
    requires j in u.cap.place
  {
    || (!s.newBase && n == Visible(u, j))
    || (j in s.recs && (n == s.recs[j].hidden || (s.newBase && s.recs[j].tomb == Some(n))))
  }

  /** An inode made for a target path: at its temporary name, in its place, or at the name it is undone under. */
  ghost predicate LegitMade(u: Setup, s: State, j: Ino)
    requires j in s.fs.place
  {
    j in s.of &&
    var p, at := s.of[j], s.fs.place[j];
    && p in s.rows && s.rows[p].made == Some(j) && p != [] && at.dir == PlaceOf(u, s, p).dir && DirReady(u, s, Parent(p))
    && ((at.name == Leaf(p) && Known(s, p)) || s.rows[p].temp == Some(at.name) || s.rows[p].undo == Some(at.name))
  }

  ghost predicate Presence(u: Setup, s: State) {
    if s.newBase then
      && (forall i :: i in u.promo ==> i in s.fs.place)
      && (forall j {:trigger Kept(u, s, j)} :: j in u.cap.place && j in s.fs.place && j !in u.promo ==> Kept(u, s, j))
    else forall i :: i in u.cap.place ==> i in s.fs.place
  }

  /** The top-level entry above is still waiting to be removed. */
  ghost predicate Kept(u: Setup, s: State, j: Ino) {
    j in u.area && u.area[j] in s.recs && u.area[j] in s.fs.place
  }

  ghost predicate Attrs(u: Setup, s: State) {
    forall j {:trigger AttrOk(u, s, j)} :: j in s.fs.place ==> AttrOk(u, s, j)
  }

  /** Some file of the directory is promoted and not yet restored. */
  ghost predicate Robbed(u: Setup, s: State, d: Ino) {
    exists i :: i in s.links && !s.links[i] && i in u.cap.place && u.cap.place[i].dir == d
  }

  ghost predicate AttrOk(u: Setup, s: State, j: Ino) {
    j in s.fs.place && j in s.fs.attr &&
    var a := s.fs.attr[j];
    if j in u.cap.place then
      && j in u.cap.attr && (u.cap.attr[j].DirAttr? == a.DirAttr?)
      && (u.cap.attr[j].FileAttr? || (!s.newBase && !Robbed(u, s, j)) ==> a == u.cap.attr[j])
    else
      j in s.of && s.of[j] in u.target && s.of[j] != [] && a.DirAttr? == u.target[s.of[j]].ItemDir? &&
      (a.FileAttr? && s.fs.place[j].name == Leaf(s.of[j]) ==> a == ItemAttr(u.target[s.of[j]]))
  }

  ghost predicate Order(u: Setup, s: State) {
    match s.phase
    case Pending => PendingOrder(u, s)
    case Applying => ApplyOrder(u, s)
    case RollingBack => BackOrder(u, s)
    case Finalized => s.newBase && TreeAsTarget(u, s)
    case Over => if s.newBase then TreeAsTarget(u, s) && s.recs == map[] else s.fs.place == u.cap.place && s.fs.attr == u.cap.attr
  }

  ghost predicate PendingOrder(u: Setup, s: State) {
    && s.recs == map[] && s.links == map[] && s.of == map[] && !s.newBase && s.fs == u.cap
    && forall p {:trigger PendingRow(s, p)} :: p in s.rows ==> PendingRow(s, p)
  }

  /** Nothing is made for a recorded path yet, and its directory is recorded too. */
  predicate PendingRow(s: State, p: Path) {
    p in s.rows && s.rows[p] == BLANK && p != [] && (Parent(p) != [] ==> Parent(p) in s.rows)
  }

  ghost predicate ApplyOrder(u: Setup, s: State) {
    && !s.newBase
    && (forall i {:trigger ApplyRec(u, s, i)} :: i in u.cap.place && Top(u, i) ==> ApplyRec(u, s, i))
    && (forall p {:trigger ApplyRow(u, s, p)} :: p in u.target ==> ApplyRow(u, s, p))
    && (forall i :: i in s.links ==> !s.links[i])
    && (s.links != map[] ==> AllHidden(s) && DirsReady(u, s))
  }

  ghost predicate ApplyRec(u: Setup, s: State, i: Ino) {
    i in s.recs && s.recs[i].tomb.None? && (s.recs[i].completed && !Promoted(u, s, i) ==> AtName(s, i, s.recs[i].hidden))
  }

  ghost predicate ApplyRow(u: Setup, s: State, p: Path) {
    p in s.rows && p in u.target && p != [] &&
    var r := s.rows[p];
    && r.undo.None? && (r.made.Some? ==> AllHidden(s) && (u.target[p].ItemFile? && p !in u.source ==> DirsReady(u, s) && Enrolled(u, s)))
    && (r.stray ==> u.target[p].ItemFile? && AtTemp(s, p)) && (r.temp.Some? ==> HasDir(s, p))
    && (r.done ==> InPlace(u, s, p) && (p in u.source ==> u.source[p] in s.links))
  }

  ghost predicate BackOrder(u: Setup, s: State) {
    && !s.newBase
    && (forall i {:trigger BackRec(u, s, i)} :: i in u.cap.place && Top(u, i) ==> BackRec(u, s, i))
    && (!Restored(s) ==> forall p {:trigger BackRow(s, p)} :: p in u.target ==> BackRow(s, p))
    && (forall p {:trigger BackPath(s, p)} :: p in s.rows ==> BackPath(s, p)) && NoTemps(s)
    && (forall p {:trigger TempHome(u, s, p)} :: p in s.rows ==> TempHome(u, s, p))
    && (s.links != map[] && s.rows != map[] ==> AllHidden(s))
  }

  /** Until everything installed is undone, entries stay where they were moved. */
  ghost predicate BackRec(u: Setup, s: State, i: Ino) {
    if i in s.recs then
      s.recs[i].tomb.None? && (s.rows != map[] && s.recs[i].completed && !Promoted(u, s, i) ==> AtName(s, i, s.recs[i].hidden))
    else s.rows == map[] && Restored(s) && i in u.cap.place && AtName(s, i, Visible(u, i))
  }

  /** Nothing is made before everything is hidden, and no directory is forgotten before its entries. */
  ghost predicate BackPath(s: State, p: Path) {
    && p in s.rows && p != [] && (s.rows[p].made.Some? ==> AllHidden(s)) && (Parent(p) != [] ==> Parent(p) in s.rows)
    && !s.rows[p].stray
  }

  /** The directory of a temporary name is in place as long as the row is there. */
  predicate TempHome(u: Setup, s: State, p: Path) {
    p in s.rows && p != [] && (s.rows[p].temp.Some? ==> DirReady(u, s, Parent(p)))
  }

  ghost predicate BackRow(s: State, p: Path) {
    p in s.rows && s.rows[p].undo.None?
  }

  // ---- who can be where ----

  /** The parent of a target path is a directory of the target or the root, so it is not promoted. */
  lemma ParentNotSource(u: Setup, p: Path)
    requires Sound(u) && p in u.target
    ensures p != [] && Parent(p) !in u.source && !u.reserved(Leaf(p)) && (Parent(p) != [] ==> IsDirItem(u, Parent(p)))
  {
    assert TargetOk(u, p);
    assert Parent(p) in u.source ==> SourceOk(u, Parent(p));
    assert Parent(p) in u.target ==> TargetOk(u, Parent(p));
  }

  /** Inodes made for target paths are not captured ones. */
  lemma MadeIsNew(u: Setup, s: State, p: Path)
    requires WellFormed(u.cap) && Tables(u, s) && p in s.rows && p !in u.source && s.rows[p].made.Some?
    ensures s.rows[p].made.value in s.of && s.of[s.rows[p].made.value] == p
    ensures s.rows[p].made.value !in u.cap.attr && s.rows[p].made.value !in u.cap.place
  {
    assert RowOk(u, s, p);
    assert OfOk(u, s, s.rows[p].made.value);
  }

  /** The inode of a target directory was made for it, unless it is the root. */
  lemma DirOfPath(u: Setup, s: State, p: Path)
    requires Sound(u) && Tables(u, s) && p in u.target && p != [] && DirReady(u, s, Parent(p))
    ensures var d := PlaceOf(u, s, p).dir;
            if Parent(p) == [] then d == u.cap.root else d in s.of && s.of[d] == Parent(p) && d !in u.cap.attr && d !in u.cap.place
  {
    ParentNotSource(u, p);
    if Parent(p) != [] {
      MadeIsNew(u, s, Parent(p));
    }
  }

  /** Two target paths at the same place are the same. */
  lemma SameDirectory(u: Setup, s: State, p: Path, q: Path)
    requires Sound(u) && Tables(u, s) && p in u.target && q in u.target && p != [] && q != []
    requires DirReady(u, s, Parent(p)) && DirReady(u, s, Parent(q)) && PlaceOf(u, s, p) == PlaceOf(u, s, q)
    ensures p == q
  {
    DirOfPath(u, s, p);
    DirOfPath(u, s, q);
    assert p == Parent(p) + [Leaf(p)] && q == Parent(q) + [Leaf(q)];
  }

  /** A reserved name at the root or in a target directory tells who holds it. */
  lemma ReservedHolder(u: Setup, s: State, j: Ino)
    requires Sound(u) && Tables(u, s) && Places(u, s) && j in s.fs.place && u.reserved(s.fs.place[j].name)
    requires s.fs.place[j].dir == u.cap.root || s.fs.place[j].dir !in u.cap.attr
    ensures var n := s.fs.place[j].name;
            if j in u.cap.place then HandedOut(s, n, Hidden(j)) || HandedOut(s, n, Tomb(j))
            else j in s.of && s.of[j] in s.rows && s.rows[s.of[j]].made == Some(j) && (HandedOut(s, n, Temp(s.of[j])) || HandedOut(s, n, Undone(s.of[j])))
  {
    assert Legit(u, s, j);
    if j in u.cap.place {
      CapturedHolder(u, s, j);
    } else {
      assert OfOk(u, s, j) && RowOk(u, s, s.of[j]) && TargetOk(u, s.of[j]);
    }
  }

  lemma CapturedHolder(u: Setup, s: State, j: Ino)
    requires Sound(u) && Tables(u, s) && j in u.cap.place && Legit(u, s, j) && u.reserved(s.fs.place[j].name)
    requires s.fs.place[j].dir == u.cap.root || s.fs.place[j].dir !in u.cap.attr
    ensures HandedOut(s, s.fs.place[j].name, Hidden(j)) || HandedOut(s, s.fs.place[j].name, Tomb(j))
  {
    assert AreaOk(u, j);
    PromotedLeaf(u, s, j);
    NestedDir(u, s, j);
    assert j in s.recs ==> RecOk(u, s, j);
  }

  lemma PromotedLeaf(u: Setup, s: State, j: Ino)
    requires Sound(u)
    ensures Legit(u, s, j) && j in u.cap.place && Promoted(u, s, j) ==> !u.reserved(s.fs.place[j].name)
  {
    if j in u.promo {
      assert PromoOk(u, j) && TargetOk(u, u.promo[j]);
    }
  }

  /** The inode that a reserved name was handed out for does not bear it. */
  predicate Away(s: State, n: Name) {
    n in s.names &&
    match s.names[n]
    case Hidden(i) => !AtName(s, i, n)
    case Tomb(i) => !AtName(s, i, n)
    case Temp(p) => p in s.rows && s.rows[p].made.Some? ==> !AtName(s, s.rows[p].made.value, n)
    case Undone(p) => p in s.rows && s.rows[p].made.Some? ==> !AtName(s, s.rows[p].made.value, n)
  }

  lemma ReservedFree(u: Setup, s: State, at: Place)
    requires Sound(u) && Tables(u, s) && Places(u, s) && Away(s, at.name)
    requires at.dir == u.cap.root || at.dir !in u.cap.attr
    ensures !Occupied(s.fs, at)
  {
    assert u.reserved(at.name);
    if Occupied(s.fs, at) {
      var j :| j in s.fs.place && s.fs.place[j] == at;
      ReservedHolder(u, s, j);
    }
  }

  lemma TopIsHidden(u: Setup, s: State, j: Ino)
    requires Sound(u) && Tables(u, s) && ApplyOrder(u, s) && AllHidden(s)
    ensures j in s.fs.place && j in u.cap.place && Top(u, j) && !Promoted(u, s, j) ==> u.reserved(s.fs.place[j].name)
  {
    if j in s.fs.place && j in u.cap.place && Top(u, j) && !Promoted(u, s, j) {
      assert ApplyRec(u, s, j) && RecOk(u, s, j) && SetAside(s, j);
      assert u.reserved(s.recs[j].hidden);
    }
  }

  /** What lies inside a captured directory lies in no directory of the target, and not in the root. */
  lemma NestedDir(u: Setup, s: State, j: Ino)
    requires Sound(u)
    ensures Legit(u, s, j) && j in u.cap.place && !Top(u, j) && !Promoted(u, s, j) ==>
              s.fs.place[j].dir in u.cap.attr && s.fs.place[j].dir != u.cap.root
  {
    if j in u.cap.place {
      assert IsDir(u.cap, u.cap.place[j].dir);
    }
  }

  /** A captured entry of the root that is not promoted bears a reserved name. */
  predicate OffSight(u: Setup, s: State, j: Ino) {
    j in s.fs.place && j in u.cap.place && Top(u, j) && !Promoted(u, s, j) ==> u.reserved(s.fs.place[j].name)
  }

  ghost predicate Cleared(u: Setup, s: State) {
    forall j {:trigger OffSight(u, s, j)} :: j in u.cap.place ==> OffSight(u, s, j)
  }

  lemma ApplyCleared(u: Setup, s: State)
    requires Sound(u) && Tables(u, s) && ApplyOrder(u, s) && AllHidden(s)
    ensures Cleared(u, s)
  {
    forall j | j in u.cap.place
      ensures OffSight(u, s, j)
    {
      TopIsHidden(u, s, j);
    }
  }

  /** When everything captured is hidden, only its owner can be at a target path. */
  lemma LeafOwner(u: Setup, s: State, p: Path, j: Ino)
    requires Sound(u) && Tables(u, s) && Places(u, s) && Cleared(u, s) && p in u.target && p != [] && DirReady(u, s, Parent(p))
    requires j in s.fs.place && s.fs.place[j] == PlaceOf(u, s, p)
    ensures if j in u.cap.place then Promoted(u, s, j) && p in u.source && u.source[p] == j
            else p !in u.source && j in s.of && s.of[j] == p && p in s.rows && s.rows[p].made == Some(j)
  {
    assert Legit(u, s, j) && TargetOk(u, p);
    DirOfPath(u, s, p);
    NestedDir(u, s, j);
    if j !in u.cap.place {
      assert OfOk(u, s, j) && RowOk(u, s, s.of[j]);
      MadeHolder(u, s, p, j);
    } else {
      assert OffSight(u, s, j);
      if Promoted(u, s, j) {
        assert PromoOk(u, j);
        SameDirectory(u, s, u.promo[j], p);
      }
    }
  }

  /** While an application runs and everything captured is hidden, only its owner can be at a target path. */
  lemma LeafHolder(u: Setup, s: State, p: Path, j: Ino)
    requires Sound(u) && Tables(u, s) && Places(u, s) && ApplyOrder(u, s) && AllHidden(s) && p in u.target && p != [] && DirReady(u, s, Parent(p))
    requires j in s.fs.place && s.fs.place[j] == PlaceOf(u, s, p)
    ensures if j in u.cap.place then Promoted(u, s, j) && p in u.source && u.source[p] == j
            else p !in u.source && j in s.of && s.of[j] == p && p in s.rows && s.rows[p].made == Some(j)
  {
    ApplyCleared(u, s);
    LeafOwner(u, s, p, j);
  }

  lemma MadeHolder(u: Setup, s: State, p: Path, j: Ino)
    requires Sound(u) && Tables(u, s) && p in u.target && p != [] && DirReady(u, s, Parent(p)) && j in s.fs.place && s.fs.place[j] == PlaceOf(u, s, p)
    requires LegitMade(u, s, j) && RowOk(u, s, s.of[j]) && !u.reserved(Leaf(p))
    ensures s.of[j] == p
  {
    var q := s.of[j];
    assert s.rows[q].temp.Some? ==> u.reserved(s.rows[q].temp.value);
    assert s.rows[q].undo.Some? ==> u.reserved(s.rows[q].undo.value);
    SameDirectory(u, s, q, p);
  }

  lemma LeafFree(u: Setup, s: State, p: Path)
    requires Sound(u) && Tables(u, s) && Places(u, s) && ApplyOrder(u, s) && AllHidden(s) && p in u.target && p != [] && DirReady(u, s, Parent(p))
    requires if p in u.source then !Promoted(u, s, u.source[p]) else p in s.rows && s.rows[p].made.Some? ==> !InPlace(u, s, p)
    ensures !Occupied(s.fs, PlaceOf(u, s, p))
  {
    if Occupied(s.fs, PlaceOf(u, s, p)) {
      var j :| j in s.fs.place && s.fs.place[j] == PlaceOf(u, s, p);
      LeafHolder(u, s, p, j);
    }
  }

  // ---- what carries over from one state to the next ----

  /** A target directory that was ready still is, with the same inode. */
  predicate DirKept(u: Setup, s: State, t: State, d: Path) {
    DirReady(u, s, d) ==> DirReady(u, t, d) && DirIno(u, t, d) == DirIno(u, s, d)
  }

  predicate SamePlace(s: State, t: State, j: Ino) {
    j in s.fs.place && j in t.fs.place && t.fs.place[j] == s.fs.place[j]
  }

  /** The names an entry goes by are still known. */
  predicate RecKept(s: State, t: State, i: Ino) {
    i in s.recs ==> i in t.recs && t.recs[i].hidden == s.recs[i].hidden && (s.recs[i].tomb.Some? ==> t.recs[i].tomb == s.recs[i].tomb)
  }

  predicate MadeKept(s: State, t: State, p: Path)
    requires p in s.rows && p in t.rows
  {
    t.rows[p].made == s.rows[p].made && (s.rows[p].noted ==> t.rows[p].noted) && (t.rows[p].stray ==> s.rows[p].stray)
  }

  predicate RowKept(s: State, t: State, p: Path) {
    p in s.rows ==> p in t.rows && (s.rows[p].temp.Some? ==> t.rows[p].temp == s.rows[p].temp)
                    && (s.rows[p].undo.Some? ==> t.rows[p].undo == s.rows[p].undo) && (s.rows[p].made.Some? && !Lost(s, p) ==> MadeKept(s, t, p))
  }

  /** An inode keeps its standing when its place, its names and its directory do. */
  lemma LegitKept(u: Setup, s: State, t: State, j: Ino)
    requires SamePlace(s, t, j) && Legit(u, s, j) && RecKept(s, t, j) && t.newBase == s.newBase && Promoted(u, t, j) == Promoted(u, s, j)
    requires j in s.of ==> j in t.of && t.of[j] == s.of[j] && RowKept(s, t, s.of[j]) && (s.of[j] != [] ==> DirKept(u, s, t, Parent(s.of[j])))
    requires Promoted(u, s, j) && j in u.promo && u.promo[j] != [] ==> DirKept(u, s, t, Parent(u.promo[j]))
    ensures Legit(u, t, j)
  {
  }

  /** Rows only gain, and directories in place stay there. */
  ghost predicate Grows(u: Setup, s: State, t: State) {
    && (forall p {:trigger RowKept(s, t, p)} :: p in s.rows ==> RowKept(s, t, p))
    && (forall p {:trigger DirStays(u, s, t, p)} :: p in s.rows ==> DirStays(u, s, t, p))
  }

  predicate DirStays(u: Setup, s: State, t: State, p: Path) {
    p in s.rows && s.rows[p].made.Some? && p != [] && InPlace(u, s, p) && p !in u.source ==> SamePlace(s, t, s.rows[p].made.value)
  }

  /** A directory in place has its own directory in place. */
  lemma ParentReady(u: Setup, s: State, d: Path)
    requires Sound(u) && Tables(u, s) && Places(u, s) && d != [] && d !in u.source && DirReady(u, s, d)
    ensures DirReady(u, s, Parent(d)) && s.rows[d].made.value in s.of && s.of[s.rows[d].made.value] == d
  {
    MadeIsNew(u, s, d);
    assert Legit(u, s, s.rows[d].made.value);
  }

  lemma DirGrows(u: Setup, s: State, t: State, d: Path)
    requires Sound(u) && Tables(u, s) && Places(u, s) && Grows(u, s, t) && d !in u.source
    ensures DirKept(u, s, t, d)
  {
    if d != [] && DirReady(u, s, d) {
      ParentReady(u, s, d);
      assert RowKept(s, t, d) && DirStays(u, s, t, d);
      assert RowOk(u, s, d);
      ParentNotSource(u, d);
      if Parent(d) != [] {
        assert RowKept(s, t, Parent(d));
        assert !Lost(s, Parent(d));
      }
    }
  }

  lemma LegitGrows(u: Setup, s: State, t: State, j: Ino)
    requires Sound(u) && Tables(u, s) && Places(u, s) && Grows(u, s, t) && SamePlace(s, t, j) && RecKept(s, t, j)
    requires t.newBase == s.newBase && Promoted(u, t, j) == Promoted(u, s, j) && (j in s.of ==> j in t.of && t.of[j] == s.of[j])
    ensures Legit(u, t, j)
  {
    assert Legit(u, s, j);
    if j in s.of {
      assert OfOk(u, s, j) && RowKept(s, t, s.of[j]);
      ParentNotSource(u, s.of[j]);
      DirGrows(u, s, t, Parent(s.of[j]));
    }
    if j in u.promo {
      assert PromoOk(u, j);
      ParentNotSource(u, u.promo[j]);
      DirGrows(u, s, t, Parent(u.promo[j]));
    }
    LegitKept(u, s, t, j);
  }

  ghost predicate NamesGrow(s: State, t: State) {
    forall n :: n in s.names ==> n in t.names && t.names[n] == s.names[n]
  }

  /** The row of a running application is as before, and what it depends on still holds. */
  lemma ApplyRowKept(u: Setup, s: State, t: State, p: Path)
    requires p in s.rows && p in t.rows && t.rows[p] == s.rows[p] && ApplyRow(u, s, p)
    requires (AllHidden(s) ==> AllHidden(t)) && (DirsReady(u, s) ==> DirsReady(u, t)) && (Enrolled(u, s) ==> Enrolled(u, t))
    requires s.rows[p].made.Some? && s.rows[p].made.value in s.fs.place ==> SamePlace(s, t, s.rows[p].made.value)
    requires p in u.source && u.source[p] in s.fs.place && s.rows[p].done ==> SamePlace(s, t, u.source[p])
    requires forall q {:trigger Done(t, q)} :: Done(s, q) ==> Done(t, q)
    requires s.rows[p].done ==> PlaceOf(u, t, p) == PlaceOf(u, s, p)
    requires forall i :: i in s.links ==> i in t.links
    ensures ApplyRow(u, t, p)
  {
  }

  predicate SameTables(s: State, t: State) {
    t.recs == s.recs && t.rows == s.rows && t.links == s.links && t.names == s.names && t.of == s.of && t.newBase == s.newBase
  }

  lemma TablesSame(u: Setup, s: State, t: State)
    requires Tables(u, s) && t.recs == s.recs && t.rows == s.rows && (forall i :: i in t.links ==> i in u.promo) && t.names == s.names
    requires t.of == s.of && t.fs.next >= s.fs.next
    ensures Tables(u, t)
  {
    forall i | i in t.recs
      ensures RecOk(u, t, i)
    {
      assert RecOk(u, s, i);
    }
    forall p | p in t.rows
      ensures RowOk(u, t, p)
    {
      assert RowOk(u, s, p);
    }
    forall i | i in t.of
      ensures OfOk(u, t, i)
    {
      assert OfOk(u, s, i);
    }
  }

  lemma AttrKept(u: Setup, s: State, t: State, j: Ino)
    requires j in s.fs.place && j in t.fs.place && j in s.fs.attr && j in t.fs.attr && AttrOk(u, s, j)
    requires t.fs.attr[j] == s.fs.attr[j] || (j !in u.cap.place && t.fs.attr[j].DirAttr? && s.fs.attr[j].DirAttr?)
    requires (Robbed(u, s, j) ==> Robbed(u, t, j)) && (j in s.of ==> j in t.of && t.of[j] == s.of[j]) && (s.newBase ==> t.newBase)
    requires j in u.cap.place || t.fs.place[j] == s.fs.place[j]
    ensures AttrOk(u, t, j)
  {
  }
}
