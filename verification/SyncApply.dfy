/**
  Applying a remote snapshot to a worktree, finishing it, and rolling it back, step by step. A step
  is one database transaction or one journaled file system action; a journaled action counts as
  done once its intent is written, since recovery carries it out before anything else happens.
 */
module SyncApply {
  import opened Wrappers
  import opened Bytes
  import opened FileSystem

  type Path = seq<Name>

  datatype Item = ItemFile(content: nat, mtime: nat) | ItemDir(mtime: nat)

  /**
    What an application starts from: the captured worktree, for every captured inode the top-level
    entry it lies below, the target tree, and which captured files go where in it.
   */
  datatype Setup = Setup(cap: FS, area: map<Ino, Ino>, target: map<Path, Item>, promo: map<Ino, Path>, source: map<Path, Ino>, reserved: Name -> bool)

  datatype Phase = Pending | Applying | RollingBack | Finalized | Over

  /** A top-level entry that is moved aside: its hidden name, whether that was recorded, and its name in the trash. */
  datatype Rec = Rec(hidden: Name, completed: bool, tomb: Option<Name>)

  /**
    A path of the target: its temporary name, its inode, whether the row has the inode noted (the
    journal knows it from the creation on), whether it was recorded as done, and its name while it is
    undone. A stray inode is at the temporary name, while another one, which is gone, is on record.
   */
  datatype Row = Row(temp: Option<Name>, made: Option<Ino>, noted: bool, stray: bool, done: bool, undo: Option<Name>)

  const BLANK := Row(None, None, false, false, false, None)

  /** What a reserved name was handed out for. */
  datatype Token = Hidden(i: Ino) | Tomb(i: Ino) | Temp(p: Path) | Undone(p: Path)

  /**
    The worktree and the tables. `names` and `of` only record history: the reserved names that were
    handed out, and the target path that an inode was created for. A link says whether its
    promotion was restored. When the work is over the tables are empty; they keep here what they held.
   */
  datatype State = State(fs: FS, phase: Phase, newBase: bool, recs: map<Ino, Rec>, rows: map<Path, Row>, links: map<Ino, bool>,
                         names: map<Name, Token>, of: map<Ino, Path>)

  predicate Top(u: Setup, i: Ino) {
    i in u.cap.place && u.cap.place[i].dir == u.cap.root
  }

  function Visible(u: Setup, i: Ino): Name
    requires i in u.cap.place
  {
    u.cap.place[i].name
  }

  /** The inode of a target directory. */
  function DirIno(u: Setup, s: State, p: Path): Option<Ino> {
    if p == [] then Some(u.cap.root) else if p in s.rows then s.rows[p].made else None
  }

  function PlaceOf(u: Setup, s: State, p: Path): Place
    requires p != []
  {
    var d := DirIno(u, s, Parent(p));
    Place(if d.Some? then d.value else u.cap.root, Leaf(p))
  }

  /** A promotion that is in force. */
  predicate Promoted(u: Setup, s: State, i: Ino) {
    if s.newBase then i in u.promo else i in s.links && !s.links[i]
  }

  function ItemAttr(x: Item): Attr {
    match x
    case ItemFile(content, mtime) => FileAttr(content, Some(mtime))
    case ItemDir(mtime) => DirAttr(Some(mtime))
  }

  /** The inode that a target path has, or will have. */
  function Owner(u: Setup, s: State, p: Path): Option<Ino> {
    if p in u.source then Some(u.source[p]) else if p in s.rows then s.rows[p].made else None
  }

  predicate InPlace(u: Setup, s: State, p: Path)
    requires p != []
  {
    Owner(u, s, p).Some? && Holds(s.fs, PlaceOf(u, s, p), Owner(u, s, p).value)
  }

  predicate AtTemp(s: State, p: Path) {
    p in s.rows && s.rows[p].made.Some? && s.rows[p].temp.Some? && s.rows[p].made.value in s.fs.place &&
    s.fs.place[s.rows[p].made.value].name == s.rows[p].temp.value
  }

  predicate AtUndo(s: State, p: Path) {
    p in s.rows && s.rows[p].made.Some? && s.rows[p].undo.Some? && s.rows[p].made.value in s.fs.place &&
    s.fs.place[s.rows[p].made.value].name == s.rows[p].undo.value
  }

  predicate AtName(s: State, i: Ino, n: Name) {
    i in s.fs.place && s.fs.place[i].name == n
  }

  // ---- conditions ----

  predicate FreshName(u: Setup, s: State, n: Name) {
    u.reserved(n) && n !in s.names
  }

  predicate SetAside(s: State, i: Ino) {
    i in s.recs && s.recs[i].completed
  }

  predicate AllHidden(s: State) {
    forall i {:trigger SetAside(s, i)} :: i in s.recs ==> SetAside(s, i)
  }

  predicate Done(s: State, p: Path) {
    p in s.rows && s.rows[p].done
  }

  /** The path's directory is the root or was recorded as done. */
  predicate HasDir(s: State, p: Path) {
    p != [] && (Parent(p) == [] || Done(s, Parent(p)))
  }

  /** The row has an inode noted, and it is the one that was made. */
  predicate Known(s: State, p: Path) {
    p in s.rows && s.rows[p].made.Some? && s.rows[p].noted && !s.rows[p].stray
  }

  /** The inode that was made for the path is gone. */
  predicate Lost(s: State, p: Path) {
    p in s.rows && s.rows[p].made.Some? && s.rows[p].made.value !in s.fs.place
  }

  predicate IsDirItem(u: Setup, p: Path) {
    p in u.target && u.target[p].ItemDir?
  }

  /** The target directory is where it belongs. */
  predicate DirReady(u: Setup, s: State, p: Path) {
    p == [] || (p in s.rows && s.rows[p].made.Some? && InPlace(u, s, p))
  }

  predicate DirsReady(u: Setup, s: State) {
    forall p {:trigger Done(s, p)} :: p in u.target && u.target[p].ItemDir? ==> Done(s, p)
  }

  predicate Enrolled(u: Setup, s: State) {
    forall i {:trigger u.promo[i]} :: i in u.promo ==> Done(s, u.promo[i])
  }

  predicate FilesDone(u: Setup, s: State) {
    forall p {:trigger Done(s, p)} :: p in u.target && u.target[p].ItemFile? ==> Done(s, p)
  }

  /** What may be created now: directories first, and files once every promotion is in place. */
  predicate Turn(u: Setup, s: State, p: Path)
    requires p in u.target
  {
    u.target[p].ItemDir? || (DirsReady(u, s) && Enrolled(u, s))
  }

  /** The target path is in place, as the target has it. */
  predicate AsTarget(u: Setup, s: State, p: Path) {
    && p in u.target && p != [] && InPlace(u, s, p) && Owner(u, s, p).value in s.fs.attr
    && s.fs.attr[Owner(u, s, p).value] == ItemAttr(u.target[p])
  }

  predicate TreeAsTarget(u: Setup, s: State) {
    forall p {:trigger AsTarget(u, s, p)} :: p in u.target ==> AsTarget(u, s, p)
  }

  /** An entry that was set aside is at its hidden name, unless it was promoted from there. */
  predicate OutOfSight(u: Setup, s: State, i: Ino) {
    i in s.recs && i in s.fs.place && i !in u.promo ==> s.fs.place[i].name == s.recs[i].hidden
  }

  /** The scan before the end: the target is in place, and nothing else is there but hidden entries. */
  predicate Verified(u: Setup, s: State) {
    && TreeAsTarget(u, s) && (forall i :: i in s.fs.place ==> i in u.cap.place || i in s.of)
    && forall i {:trigger OutOfSight(u, s, i)} :: i in s.recs ==> OutOfSight(u, s, i)
  }

  predicate Restored(s: State) {
    forall i :: i in s.links ==> s.links[i]
  }

  predicate NoTemps(s: State) {
    forall p :: p in s.rows ==> !AtTemp(s, p)
  }

  predicate Childless(s: State, p: Path) {
    forall q :: q in s.rows && q != [] ==> Parent(q) != p
  }

  predicate Free(fs: FS, at: Place) {
    !Occupied(fs, at) && IsDir(fs, at.dir)
  }

  function SetRow(s: State, p: Path, r: Row): State {
    s.(rows := s.rows[p := r])
  }

  function SetRec(s: State, i: Ino, r: Rec): State {
    s.(recs := s.recs[i := r])
  }

  function MoveTo(s: State, i: Ino, at: Place): State
    requires i in s.fs.place
  {
    s.(fs := Move(s.fs, i, at))
  }

  function InRoot(u: Setup, n: Name): Place {
    Place(u.cap.root, n)
  }

  // ---- moving the captured entries aside ----

  /** The paths of the target are recorded first, while the application is only pending. */
  function Recorded(u: Setup, s: State): State {
    s.(rows := map p | p in u.target :: BLANK)
  }

  predicate CanRegister(u: Setup, s: State, hidden: map<Ino, Name>) {
    && s.phase.Pending? && (forall p :: p in u.target ==> p in s.rows) && (forall i :: i in hidden ==> Top(u, i)) && (forall i :: i in u.cap.place && Top(u, i) ==> i in hidden)
    && (forall i :: i in hidden ==> FreshName(u, s, hidden[i]))
    && (forall i, j :: i in hidden && j in hidden && hidden[i] == hidden[j] ==> i == j)
  }

  /** The plan: every top-level entry gets a hidden name, and the root's time is remembered. */
  function Registered(u: Setup, s: State, hidden: map<Ino, Name>): State
    requires CanRegister(u, s, hidden)
  {
    s.(phase := Applying, recs := map i | i in hidden :: Rec(hidden[i], false, None),
       names := s.names + (map i | i in hidden :: hidden[i] := Hidden(i)))
  }

  predicate CanHide(u: Setup, s: State, i: Ino) {
    s.phase.Applying? && i in s.recs && !s.recs[i].completed && i in u.cap.place && AtName(s, i, Visible(u, i))
  }

  function HidPlace(u: Setup, s: State, i: Ino): Place
    requires i in s.recs
  {
    InRoot(u, s.recs[i].hidden)
  }

  predicate CanRecordHidden(u: Setup, s: State, i: Ino) {
    s.phase.Applying? && i in s.recs && !s.recs[i].completed && AtName(s, i, s.recs[i].hidden)
  }

  function HiddenRecorded(s: State, i: Ino): State
    requires i in s.recs
  {
    SetRec(s, i, s.recs[i].(completed := true))
  }

  // ---- installing the target ----

  /** A path that is installed, not promoted, while an application runs. */
  predicate Installing(u: Setup, s: State, p: Path) {
    s.phase.Applying? && AllHidden(s) && p in s.rows && p in u.target && p != [] && p !in u.source
  }

  predicate CanNameTemp(u: Setup, s: State, p: Path, n: Name) {
    Installing(u, s, p) && s.rows[p].temp.None? && Turn(u, s, p) && HasDir(s, p) && FreshName(u, s, n)
  }

  function TempNamed(s: State, p: Path, n: Name): State
    requires p in s.rows
  {
    SetRow(s, p, s.rows[p].(temp := Some(n))).(names := s.names[n := Temp(p)])
  }

  predicate CanMakeTemp(u: Setup, s: State, p: Path) {
    Installing(u, s, p) && s.rows[p].temp.Some? && s.rows[p].made.None? && Turn(u, s, p) && DirReady(u, s, Parent(p))
  }

  function TempPlace(u: Setup, s: State, p: Path): Place
    requires p != [] && p in s.rows && s.rows[p].temp.Some?
  {
    Place(PlaceOf(u, s, p).dir, s.rows[p].temp.value)
  }

  /** A new inode at the temporary name. */
  function MadeNew(u: Setup, s: State, p: Path, noted: bool, stray: bool): State
    requires p != [] && p in s.rows && p in u.target && s.rows[p].temp.Some?
  {
    SetRow(s, p, s.rows[p].(made := Some(s.fs.next), noted := noted, stray := stray)).(
      fs := Make(s.fs, TempPlace(u, s, p), if u.target[p].ItemDir? then DirAttr(None) else FileAttr(0, None)),
      of := s.of[s.fs.next := p])
  }

  /** Made by a journaled action. */
  function TempMade(u: Setup, s: State, p: Path): State
    requires p != [] && p in s.rows && p in u.target && s.rows[p].temp.Some?
  {
    MadeNew(u, s, p, false, false)
  }

  predicate CanNote(u: Setup, s: State, p: Path) {
    Installing(u, s, p) && AtTemp(s, p) && !s.rows[p].noted && !s.rows[p].stray
  }

  function Noted(s: State, p: Path): State
    requires p in s.rows
  {
    SetRow(s, p, s.rows[p].(noted := true))
  }

  /** The file that was made is gone: one is made again by opening the temporary name. */
  predicate CanRemake(u: Setup, s: State, p: Path) {
    && Installing(u, s, p) && s.rows[p].temp.Some? && Lost(s, p) && u.target[p].ItemFile? && Turn(u, s, p)
    && DirReady(u, s, Parent(p)) && !s.rows[p].noted
  }

  /** It is noted in place of the old one, which the row did not have. */
  function Remade(u: Setup, s: State, p: Path): State
    requires p != [] && p in s.rows && p in u.target && s.rows[p].temp.Some?
  {
    MadeNew(u, s, p, true, false)
  }

  /** It is not noted: the row has the old one already, or the process was cut in between. */
  predicate CanLitter(u: Setup, s: State, p: Path) {
    && Installing(u, s, p) && s.rows[p].temp.Some? && Lost(s, p) && u.target[p].ItemFile? && Turn(u, s, p) && DirReady(u, s, Parent(p))
  }

  function Strewn(u: Setup, s: State, p: Path): State
    requires p != [] && p in s.rows && p in u.target && s.rows[p].temp.Some?
  {
    MadeNew(u, s, p, s.rows[p].noted, true)
  }

  /** The inode was made, and is a file or a directory as the target says. */
  predicate MadeAs(u: Setup, s: State, p: Path) {
    p in u.target && p in s.rows && s.rows[p].made.Some? && s.rows[p].made.value in s.fs.attr &&
    s.fs.attr[s.rows[p].made.value].DirAttr? == u.target[p].ItemDir?
  }

  predicate CanWrite(u: Setup, s: State, p: Path) {
    Installing(u, s, p) && u.target[p].ItemFile? && AtTemp(s, p) && Known(s, p) && Turn(u, s, p)
  }

  function Written(s: State, p: Path, content: nat): State
    requires p in s.rows && s.rows[p].made.Some?
  {
    s.(fs := SetAttr(s.fs, s.rows[p].made.value, FileAttr(content, None)))
  }

  /** A written file gets its time at its temporary name; directories get theirs when every file is done. */
  predicate CanSetTime(u: Setup, s: State, p: Path) {
    Installing(u, s, p) && Known(s, p) &&
    if u.target[p].ItemFile? then
      AtTemp(s, p) && MadeAs(u, s, p) && s.fs.attr[s.rows[p].made.value].content == u.target[p].content
    else FilesDone(u, s) && Enrolled(u, s) && DirsReady(u, s)
  }

  function TimeSet(u: Setup, s: State, p: Path): State
    requires p in s.rows && s.rows[p].made.Some? && p in u.target
  {
    s.(fs := SetAttr(s.fs, s.rows[p].made.value, ItemAttr(u.target[p])))
  }

  predicate CanInstall(u: Setup, s: State, p: Path) {
    Installing(u, s, p) && AtTemp(s, p) && Known(s, p) && MadeAs(u, s, p) && (u.target[p].ItemFile? ==> s.fs.attr[s.rows[p].made.value] == ItemAttr(u.target[p]))
  }

  predicate CanRecordInstalled(u: Setup, s: State, p: Path) {
    Installing(u, s, p) && Known(s, p) && InPlace(u, s, p)
  }

  function InstalledRecorded(s: State, p: Path): State
    requires p in s.rows
  {
    SetRow(s, p, s.rows[p].(done := true))
  }

  predicate CanPromote(u: Setup, s: State, i: Ino) {
    s.phase.Applying? && AllHidden(s) && DirsReady(u, s) && i in u.promo && i !in s.links && u.promo[i] != []
  }

  function PromotedState(u: Setup, s: State, i: Ino): State
    requires i in u.promo && u.promo[i] != [] && i in s.fs.place
  {
    MoveTo(s, i, PlaceOf(u, s, u.promo[i])).(links := s.links[i := false])
  }

  predicate CanEnroll(u: Setup, s: State, i: Ino) {
    s.phase.Applying? && i in u.promo && i in s.links && u.promo[i] in s.rows
  }

  function EnrolledState(u: Setup, s: State, i: Ino): State
    requires i in u.promo && u.promo[i] in s.rows
  {
    SetRow(s, u.promo[i], s.rows[u.promo[i]].(made := Some(i), noted := true, done := true))
  }

  predicate CanFinalize(u: Setup, s: State) {
    s.phase.Applying? && AllHidden(s) && Enrolled(u, s) && Verified(u, s)
  }

  // ---- giving up temporary files ----

  /** Before it begins a rollback the program removes what is at temporary names, as the rows or the journal know it. */
  predicate CanDropTemp(u: Setup, s: State, p: Path) {
    s.phase.Applying? && p in u.target && p != [] && AtTemp(s, p) && !s.rows[p].stray
  }

  predicate CanRollback(s: State) {
    s.phase.Applying? && NoTemps(s)
  }

  /**
    What keeps an application from going on: a directory that was made is gone, a noted file is gone,
    or a stray file is at a temporary name.
   */
  predicate SpoiltAt(u: Setup, s: State, p: Path) {
    p in s.rows && (s.rows[p].stray || (Lost(s, p) && (IsDirItem(u, p) || s.rows[p].noted)))
  }

  predicate Spoilt(u: Setup, s: State) {
    exists p {:trigger SpoiltAt(u, s, p)} :: p in s.rows && SpoiltAt(u, s, p)
  }

  predicate StrayAt(s: State, p: Path) {
    p in s.rows && s.rows[p].stray
  }

  predicate Littered(s: State) {
    exists p {:trigger StrayAt(s, p)} :: p in s.rows && StrayAt(s, p)
  }

  // ---- removing what was moved aside ----

  predicate CanNameTomb(u: Setup, s: State, i: Ino, n: Name) {
    s.phase.Finalized? && i in s.recs && s.recs[i].tomb.None? && FreshName(u, s, n)
  }

  function TombNamed(s: State, i: Ino, n: Name): State
    requires i in s.recs
  {
    SetRec(s, i, s.recs[i].(tomb := Some(n))).(names := s.names[n := Tomb(i)])
  }

  predicate CanTrash(u: Setup, s: State, i: Ino) {
    s.phase.Finalized? && i in s.recs && s.recs[i].tomb.Some? && i !in u.promo && AtName(s, i, s.recs[i].hidden)
  }

  predicate CanErase(u: Setup, s: State, i: Ino) {
    s.phase.Finalized? && i in s.recs && s.recs[i].tomb.Some? && i !in u.promo && AtName(s, i, s.recs[i].tomb.value)
  }

  /** The entries of a moved-aside subtree that are still its own. */
  function AreaOf(u: Setup, s: State, i: Ino): set<Ino> {
    set j | j in s.fs.place && j in u.area && j in u.cap.place && u.area[j] == i && j !in u.promo
  }

  function RemoveAll(fs: FS, gone: set<Ino>): FS {
    fs.(place := fs.place - gone, attr := Touched(fs.attr, fs.root) - gone)
  }

  predicate CanConsume(u: Setup, s: State, i: Ino) {
    s.phase.Finalized? && i in s.recs && s.recs[i].tomb.Some? && (i in u.promo || i !in s.fs.place)
  }

  function WithoutRec(s: State, i: Ino): State {
    s.(recs := s.recs - {i})
  }

  // ---- rolling back ----

  predicate CanRestore(u: Setup, s: State, i: Ino) {
    s.phase.RollingBack? && i in s.links && !s.links[i] && i in u.cap.place && (Top(u, i) ==> i in s.recs)
  }

  /** Where a promoted file came from, while its subtree is hidden. */
  function HomeOf(u: Setup, s: State, i: Ino): Place
    requires i in u.cap.place && (Top(u, i) ==> i in s.recs)
  {
    if Top(u, i) then InRoot(u, s.recs[i].hidden) else u.cap.place[i]
  }

  /** Puts a promoted file back and gives its directory the time it had. */
  function PutBack(u: Setup, s: State, i: Ino): FS
    requires i in s.fs.place && i in u.cap.place && (Top(u, i) ==> i in s.recs)
  {
    var fs, dir := Move(s.fs, i, HomeOf(u, s, i)), u.cap.place[i].dir;
    if !Top(u, i) && dir in u.cap.attr then SetAttr(fs, dir, u.cap.attr[dir]) else fs
  }

  function RestoredState(u: Setup, s: State, i: Ino): State
    requires i in s.fs.place && i in u.cap.place && (Top(u, i) ==> i in s.recs)
  {
    s.(fs := PutBack(u, s, i), links := s.links[i := true])
  }

  /** A pending application is given up in the same way as one that is rolled back. */
  predicate Backing(s: State) {
    s.phase.RollingBack? || s.phase.Pending?
  }

  /** A recorded path of a rollback, once promotions are restored. The rollback does not ask whether it was promoted. */
  predicate Undoing(u: Setup, s: State, p: Path) {
    Backing(s) && Restored(s) && p in s.rows && p in u.target && p != []
  }

  /** Another name in the directory of the path. */
  function Sibling(p: Path, n: Name): Path
    requires p != []
  {
    Parent(p) + [n]
  }

  /** The inode recorded for the path is what is there. */
  predicate FoundThere(s: State, p: Path, at: Path) {
    p in s.rows && s.rows[p].made.Some? && Leads(s.fs, at, s.rows[p].made.value)
  }

  predicate CanNameUndo(u: Setup, s: State, p: Path, n: Name) {
    Undoing(u, s, p) && s.rows[p].undo.None? && s.rows[p].noted && FoundThere(s, p, p) && FreshName(u, s, n)
  }

  function UndoNamed(s: State, p: Path, n: Name): State
    requires p in s.rows
  {
    SetRow(s, p, s.rows[p].(undo := Some(n))).(names := s.names[n := Undone(p)])
  }

  predicate CanUndo(u: Setup, s: State, p: Path) {
    Undoing(u, s, p) && s.rows[p].undo.Some? && FoundThere(s, p, p) && Childless(s, p)
  }

  function UndoPlace(u: Setup, s: State, p: Path): Place
    requires p != [] && p in s.rows && s.rows[p].undo.Some?
  {
    Place(PlaceOf(u, s, p).dir, s.rows[p].undo.value)
  }

  predicate CanUnlink(u: Setup, s: State, p: Path) {
    Undoing(u, s, p) && s.rows[p].undo.Some? && FoundThere(s, p, Sibling(p, s.rows[p].undo.value)) && Childless(s, p)
  }

  function WithoutMade(s: State, p: Path): State
    requires p in s.rows && s.rows[p].made.Some? && s.rows[p].made.value in s.fs.place
  {
    s.(fs := Remove(s.fs, s.rows[p].made.value))
  }

  /** Nothing is at the path, nor under the name it is undone under. */
  predicate CanForget(u: Setup, s: State, p: Path) {
    && Undoing(u, s, p) && Childless(s, p) && !Seen(s.fs, p) && !Barred(s.fs, p)
    && (s.rows[p].undo.Some? ==> !Seen(s.fs, Sibling(p, s.rows[p].undo.value)))
  }

  function WithoutRow(s: State, p: Path): State {
    s.(rows := s.rows - {p})
  }

  predicate LeadsToFile(fs: FS, p: Path) {
    exists i {:trigger Leads(fs, p, i)} :: i in fs.attr && fs.attr[i].FileAttr? && Leads(fs, p, i)
  }

  /** A file stands where the path has a directory. */
  predicate Barred(fs: FS, p: Path) {
    exists k {:trigger p[..k]} :: 0 < k < |p| && LeadsToFile(fs, p[..k])
  }

  /**
    Something is at the path that no inode was noted for, or the path cannot be looked up: the
    rollback stops here, and again each time it is tried.
   */
  predicate Stuck(u: Setup, s: State, p: Path) {
    Undoing(u, s, p) && (Barred(s.fs, p) || (Seen(s.fs, p) && (s.rows[p].made.None? || !s.rows[p].noted)))
  }

  /** An entry that is not moved aside. */
  predicate Waiting(u: Setup, s: State, i: Ino) {
    Top(u, i) && !SetAside(s, i) && AtName(s, i, Visible(u, i))
  }

  /** An entry that is not moved aside has the name of a recorded path. */
  predicate Blocked(u: Setup, s: State) {
    exists i {:trigger Waiting(u, s, i)} :: i in u.cap.place && Waiting(u, s, i) && [Visible(u, i)] in s.rows
  }

  /** Everything installed was undone. */
  predicate Undid(s: State) {
    Backing(s) && Restored(s) && s.rows == map[]
  }

  predicate CanUnhide(u: Setup, s: State, i: Ino) {
    Undid(s) && i in s.recs && i in u.cap.place && AtName(s, i, s.recs[i].hidden)
  }

  predicate CanRelease(u: Setup, s: State, i: Ino) {
    Undid(s) && i in s.recs && i in u.cap.place && AtName(s, i, Visible(u, i))
  }

  predicate CanSetRootTime(u: Setup, s: State) {
    s.phase.RollingBack? && Undid(s) && s.recs == map[] && u.cap.root in u.cap.attr
  }

  predicate CanClear(u: Setup, s: State) {
    CanSetRootTime(u, s) && u.cap.root in s.fs.attr && s.fs.attr[u.cap.root] == u.cap.attr[u.cap.root]
  }

  // ---- all steps ----

  datatype Step =
    | Abandon | Record | Register(hidden: map<Ino, Name>) | Hide(i: Ino) | HideDone(i: Ino)
    | NameTemp(p: Path, n: Name) | MakeTemp(p: Path) | Note(p: Path) | Remake(p: Path) | Litter(p: Path) | Write(p: Path, content: nat) | SetTime(p: Path) | Install(p: Path) | InstallDone(p: Path)
    | Promote(i: Ino) | Enroll(i: Ino) | Finalize
    | NameTomb(i: Ino, n: Name) | Trash(i: Ino) | Erase(i: Ino) | Consume(i: Ino) | Finish
    | DropTemp(p: Path) | Rollback | Restore(i: Ino) | NameUndo(p: Path, n: Name) | Undo(p: Path) | Unlink(p: Path) | Forget(p: Path)
    | Unhide(i: Ino) | Release(i: Ino) | RootTime | Clear

  /** When the program takes a step. */
  predicate Enabled(u: Setup, s: State, step: Step) {
    match step
    case Abandon => s.phase.Pending?
    case Record => s.phase.Pending?
    case Register(hidden) => CanRegister(u, s, hidden)
    case Hide(i) => CanHide(u, s, i)
    case HideDone(i) => CanRecordHidden(u, s, i)
    case NameTemp(p, n) => CanNameTemp(u, s, p, n)
    case MakeTemp(p) => CanMakeTemp(u, s, p)
    case Note(p) => CanNote(u, s, p)
    case Remake(p) => CanRemake(u, s, p)
    case Litter(p) => CanLitter(u, s, p)
    case Write(p, content) => CanWrite(u, s, p)
    case SetTime(p) => CanSetTime(u, s, p)
    case Install(p) => CanInstall(u, s, p)
    case InstallDone(p) => CanRecordInstalled(u, s, p)
    case Promote(i) => CanPromote(u, s, i)
    case Enroll(i) => CanEnroll(u, s, i)
    case Finalize => CanFinalize(u, s)
    case NameTomb(i, n) => CanNameTomb(u, s, i, n)
    case Trash(i) => CanTrash(u, s, i)
    case Erase(i) => CanErase(u, s, i)
    case Consume(i) => CanConsume(u, s, i)
    case Finish => s.phase.Finalized? && s.recs == map[]
    case Rollback => CanRollback(s)
    case Restore(i) => CanRestore(u, s, i)
    case DropTemp(p) => CanDropTemp(u, s, p)
    case NameUndo(p, n) => CanNameUndo(u, s, p, n)
    case Undo(p) => CanUndo(u, s, p)
    case Unlink(p) => CanUnlink(u, s, p)
    case Forget(p) => CanForget(u, s, p)
    case Unhide(i) => CanUnhide(u, s, i)
    case Release(i) => CanRelease(u, s, i)
    case RootTime => CanSetRootTime(u, s)
    case Clear => CanClear(u, s)
  }

  /** What the file system must allow for the step's system call to succeed. */
  predicate Possible(u: Setup, s: State, step: Step)
    requires Enabled(u, s, step)
  {
    match step
    case Hide(i) => Free(s.fs, HidPlace(u, s, i))
    case MakeTemp(p) => Free(s.fs, TempPlace(u, s, p))
    case Remake(p) => Free(s.fs, TempPlace(u, s, p))
    case Litter(p) => Free(s.fs, TempPlace(u, s, p))
    case Write(p, content) => MadeAs(u, s, p)
    case SetTime(p) => MadeAs(u, s, p)
    case Install(p) => Free(s.fs, PlaceOf(u, s, p))
    case Promote(i) => i in s.fs.place && Free(s.fs, PlaceOf(u, s, u.promo[i]))
    case Trash(i) => Free(s.fs, InRoot(u, s.recs[i].tomb.value))
    case Restore(i) => i in s.fs.place && Free(s.fs, HomeOf(u, s, i))
    case DropTemp(p) => Empty(s.fs, s.rows[p].made.value)
    case Undo(p) => Free(s.fs, UndoPlace(u, s, p))
    case Unlink(p) => Empty(s.fs, s.rows[p].made.value)
    case Unhide(i) => Free(s.fs, InRoot(u, Visible(u, i)))
    case _ => true
  }

  function Apply(u: Setup, s: State, step: Step): State
    requires Enabled(u, s, step) && Possible(u, s, step)
  {
    match step
    case Abandon => s.(phase := Over)
    case Record => Recorded(u, s)
    case Register(hidden) => Registered(u, s, hidden)
    case Hide(i) => MoveTo(s, i, HidPlace(u, s, i))
    case HideDone(i) => HiddenRecorded(s, i)
    case NameTemp(p, n) => TempNamed(s, p, n)
    case MakeTemp(p) => TempMade(u, s, p)
    case Note(p) => Noted(s, p)
    case Remake(p) => Remade(u, s, p)
    case Litter(p) => Strewn(u, s, p)
    case Write(p, content) => Written(s, p, content)
    case SetTime(p) => TimeSet(u, s, p)
    case Install(p) => MoveTo(s, s.rows[p].made.value, PlaceOf(u, s, p))
    case InstallDone(p) => InstalledRecorded(s, p)
    case Promote(i) => PromotedState(u, s, i)
    case Enroll(i) => EnrolledState(u, s, i)
    case Finalize => s.(phase := Finalized, newBase := true)
    case NameTomb(i, n) => TombNamed(s, i, n)
    case Trash(i) => MoveTo(s, i, InRoot(u, s.recs[i].tomb.value))
    case Erase(i) => s.(fs := RemoveAll(s.fs, AreaOf(u, s, i)))
    case Consume(i) => WithoutRec(s, i)
    case Finish => s.(phase := Over)
    case Rollback => s.(phase := RollingBack)
    case Restore(i) => RestoredState(u, s, i)
    case DropTemp(p) => WithoutMade(s, p)
    case NameUndo(p, n) => UndoNamed(s, p, n)
    case Undo(p) => MoveTo(s, s.rows[p].made.value, UndoPlace(u, s, p))
    case Unlink(p) => WithoutMade(s, p)
    case Forget(p) => WithoutRow(s, p)
    case Unhide(i) => MoveTo(s, i, InRoot(u, Visible(u, i)))
    case Release(i) => WithoutRec(s, i)
    case RootTime => s.(fs := SetAttr(s.fs, u.cap.root, u.cap.attr[u.cap.root]))
    case Clear => s.(phase := Over)
  }
}
