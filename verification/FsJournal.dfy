/**
  The journal of file system actions: each is written down before it is carried out and marked
  completed afterwards, and an action that was cut short is carried on from wherever it stands.
 */
module FsJournal {
  import opened Wrappers
  import opened Bytes
  import opened FileSystem

  datatype Op = CreateFile | CreateDirectory | Rename | Promote | RestorePromotion | Unlink | Rmdir | SetTime

  datatype ActionState = Intent | Completed

  /**
    An action on the entry `source` of a directory. The inode is the identity it must have; a
    creation learns it only when it is carried out. The time of a restored promotion is the one
    its new directory gets.
   */
  datatype Action = Action(op: Op, dir: Ino, source: Name, to: Place, isDir: bool, ino: Option<Ino>, content: nat,
                           mtime: Option<nat>, state: ActionState)

  /** What survives a crash. */
  datatype Disk = Disk(fs: FS, journal: seq<Action>)

  function From(a: Action): Place {
    Place(a.dir, a.source)
  }

  predicate Creates(a: Action) {
    a.op.CreateFile? || a.op.CreateDirectory?
  }

  predicate Renames(a: Action) {
    a.op.Rename? || a.op.Promote? || a.op.RestorePromotion?
  }

  /** The expected inode, of the expected kind, is at the place. */
  predicate Matches(fs: FS, at: Place, a: Action) {
    a.ino.Some? && Holds(fs, at, a.ino.value) && a.ino.value in fs.attr && fs.attr[a.ino.value].DirAttr? == a.isDir
  }

  predicate ContentAs(fs: FS, a: Action) {
    a.ino.Some? && a.ino.value in fs.attr && fs.attr[a.ino.value] == FileAttr(a.content, a.mtime)
  }

  /** The action was not carried out yet and can be. */
  predicate Fresh(fs: FS, a: Action) {
    match a.op
    case CreateFile | CreateDirectory => a.ino.None? && !Occupied(fs, From(a))
    case Rename | RestorePromotion => Matches(fs, From(a), a) && !Occupied(fs, a.to)
    case Promote => Matches(fs, From(a), a) && !Occupied(fs, a.to) && ContentAs(fs, a)
    case Unlink => Matches(fs, From(a), a) && ContentAs(fs, a)
    case Rmdir => Matches(fs, From(a), a) && Empty(fs, a.ino.value)
    case SetTime => Matches(fs, From(a), a)
  }

  /** The action was carried out already. */
  predicate Carried(fs: FS, a: Action) {
    match a.op
    case CreateFile | CreateDirectory => Matches(fs, From(a), a)
    case Rename | Promote | RestorePromotion => !Occupied(fs, From(a)) && Matches(fs, a.to, a)
    case Unlink | Rmdir => !Occupied(fs, From(a))
    case SetTime => false
  }

  /** The shape that every action is checked to have before it is written down. */
  predicate Sane(a: Action) {
    match a.op
    case CreateFile => !a.isDir
    case CreateDirectory => a.isDir
    case Rename => From(a) != a.to
    case Promote | RestorePromotion => From(a) != a.to && !a.isDir
    case Unlink => !a.isDir
    case Rmdir => a.isDir
    case SetTime => true
  }

  /** A creation was identified, but nothing is at its place any more; the program makes it again. */
  predicate Lost(fs: FS, a: Action) {
    Sane(a) && Creates(a) && a.ino.Some? && IsDir(fs, a.dir) && !Occupied(fs, From(a))
  }

  predicate Ready(fs: FS, a: Action) {
    Sane(a) && IsDir(fs, a.dir) && (Renames(a) ==> IsDir(fs, a.to.dir)) && (Fresh(fs, a) || Carried(fs, a))
  }

  function NewAttr(a: Action): Attr {
    if a.op.CreateDirectory? then DirAttr(None) else FileAttr(0, None)
  }

  /** The system call of an action. */
  function Perform(fs: FS, a: Action): FS
    requires Ready(fs, a)
  {
    if Carried(fs, a) then fs
    else
      match a.op
      case CreateFile | CreateDirectory => Make(fs, From(a), NewAttr(a))
      case Rename | Promote | RestorePromotion => Move(fs, a.ino.value, a.to)
      case Unlink | Rmdir => Remove(fs, a.ino.value)
      case SetTime => SetAttr(fs, a.ino.value, Dated(fs.attr[a.ino.value], a.mtime))
  }

  /** What follows the call: a creation's identity is written down, a restored promotion's directory gets its time. */
  function Settle(fs: FS, a: Action): FS {
    if a.op.RestorePromotion? && a.mtime.Some? && a.to.dir in fs.attr then SetAttr(fs, a.to.dir, Dated(fs.attr[a.to.dir], a.mtime)) else fs
  }

  function Identified(before: FS, a: Action): Action {
    if Creates(a) && a.ino.None? then a.(ino := Some(before.next)) else a
  }

  predicate Live(d: Disk, k: nat) {
    k < |d.journal| && d.journal[k].state.Intent? && Ready(d.fs, d.journal[k])
  }

  function Called(d: Disk, k: nat): Disk
    requires Live(d, k)
  {
    d.(fs := Perform(d.fs, d.journal[k]))
  }

  function Settled(d: Disk, k: nat): Disk
    requires Live(d, k)
  {
    Disk(Settle(Perform(d.fs, d.journal[k]), d.journal[k]), d.journal[k := Identified(d.fs, d.journal[k])])
  }

  /** The action was carried out and marked completed. */
  function Finished(d: Disk, k: nat): Disk
    requires Live(d, k)
  {
    var s := Settled(d, k);
    s.(journal := s.journal[k := s.journal[k].(state := Completed)])
  }

  function MadeAgain(d: Disk, k: nat): Disk
    requires k < |d.journal|
  {
    var a := d.journal[k];
    Disk(Make(d.fs, From(a), NewAttr(a)), d.journal[k := a.(state := Completed)])
  }

  /** Where a crash may leave an action: before, in, or after it. */
  predicate Stage(d: Disk, k: nat, now: Disk)
    requires Live(d, k)
  {
    now == d || now == Called(d, k) || now == Settled(d, k) || now == Finished(d, k)
  }

  /** A creation whose inode exists but was not written down yet. */
  predicate InWindow(d: Disk, k: nat, now: Disk)
    requires Live(d, k)
  {
    Creates(d.journal[k]) && Fresh(d.fs, d.journal[k]) && now == Called(d, k)
  }

  lemma PerformKeepsOrder(fs: FS, a: Action)
    requires WellFormed(fs) && Ready(fs, a)
    ensures WellFormed(Perform(fs, a)) && WellFormed(Settle(Perform(fs, a), a))
  {
    if !Carried(fs, a) {
      match a.op
      case CreateFile | CreateDirectory => MakeKeepsOrder(fs, From(a), NewAttr(a));
      case Rename | Promote | RestorePromotion => MoveKeepsOrder(fs, a.ino.value, a.to);
      case Unlink =>
        FilesAreEmpty(fs, a.ino.value);
        RemoveKeepsOrder(fs, a.ino.value);
      case Rmdir => RemoveKeepsOrder(fs, a.ino.value);
      case SetTime => SetAttrKeepsOrder(fs, a.ino.value, Dated(fs.attr[a.ino.value], a.mtime));
    }
    var after := Perform(fs, a);
    if a.op.RestorePromotion? && a.to.dir in after.attr {
      SetAttrKeepsOrder(after, a.to.dir, Dated(after.attr[a.to.dir], a.mtime));
    }
  }

  lemma FilesAreEmpty(fs: FS, i: Ino)
    requires WellFormed(fs) && i in fs.attr && fs.attr[i].FileAttr?
    ensures Empty(fs, i)
  {
  }

  /** After the call, the action stands as carried out. */
  lemma PerformCarries(fs: FS, a: Action)
    requires WellFormed(fs) && Ready(fs, a) && !a.op.SetTime?
    ensures var after, b := Perform(fs, a), Identified(fs, a); Ready(after, b) && Carried(after, b)
  {
    var after := Perform(fs, a);
    if !Carried(fs, a) {
      if Creates(a) {
        assert Holds(after, From(a), fs.next);
      } else {
        LeftFree(fs, after, a.ino.value);
      }
    }
  }

  // ---- what an action is for, told by places, kinds, contents and times alone ----

  predicate Unoccupied(fs: FS, dir: Ino, name: Name) {
    forall j :: j in fs.place ==> fs.place[j] != Place(dir, name)
  }

  /** The inode is there, empty and without a known time, as it is when it was just made. */
  predicate MadeEmpty(fs: FS, dir: Ino, name: Name, i: Ino, isDir: bool) {
    i in fs.place && fs.place[i] == Place(dir, name) && i in fs.attr && fs.attr[i] == if isDir then DirAttr(None) else FileAttr(0, None)
  }

  /** What a file system shows once the action is done. */
  predicate Achieved(before: FS, after: FS, a: Action) {
    match a.op
    case CreateFile | CreateDirectory =>
      if a.ino.Some? then
        a.ino.value in after.place && after.place[a.ino.value] == Place(a.dir, a.source)
        && a.ino.value in after.attr && after.attr[a.ino.value].DirAttr? == a.op.CreateDirectory?
      else MadeEmpty(after, a.dir, a.source, before.next, a.op.CreateDirectory?)
    case Rename | Promote | RestorePromotion =>
      && a.ino.Some? && a.ino.value in after.place && after.place[a.ino.value] == a.to && Unoccupied(after, a.dir, a.source)
      && a.ino.value in before.attr && a.ino.value in after.attr && after.attr[a.ino.value].DirAttr? == a.isDir
      && (!a.isDir ==> after.attr[a.ino.value] == before.attr[a.ino.value])
      && (a.op.RestorePromotion? && a.mtime.Some? ==> a.to.dir in after.attr && after.attr[a.to.dir] == DirAttr(a.mtime))
    case Unlink | Rmdir => Unoccupied(after, a.dir, a.source)
    case SetTime =>
      && a.ino.Some? && a.ino.value in before.attr && after.place == before.place
      && after.attr == before.attr[a.ino.value := if before.attr[a.ino.value].FileAttr? then FileAttr(before.attr[a.ino.value].content, a.mtime) else DirAttr(a.mtime)]
  }

  /** An inode of the kind the action is for is at the place. */
  predicate Stands(fs: FS, dir: Ino, name: Name, a: Action) {
    && a.ino.Some? && a.ino.value in fs.place && fs.place[a.ino.value] == Place(dir, name)
    && a.ino.value in fs.attr && fs.attr[a.ino.value].DirAttr? == a.isDir
  }

  /** A file to be promoted is as it was captured. */
  predicate AsCaptured(fs: FS, a: Action) {
    a.op.Promote? ==> a.ino.Some? && a.ino.value in fs.attr && fs.attr[a.ino.value] == FileAttr(a.content, a.mtime)
  }

  /** What an action needs: its directories, and its entry where it is to be acted on, or where it ends. */
  predicate GoesThrough(fs: FS, a: Action) {
    && a.dir in fs.attr && fs.attr[a.dir].DirAttr?
    && match a.op
       case CreateFile | CreateDirectory => a.isDir == a.op.CreateDirectory? && if a.ino.None? then Unoccupied(fs, a.dir, a.source) else Stands(fs, a.dir, a.source, a)
       case Rename | Promote | RestorePromotion =>
         && a.to != Place(a.dir, a.source) && (!a.op.Rename? ==> !a.isDir) && a.to.dir in fs.attr && fs.attr[a.to.dir].DirAttr?
         && (|| (Unoccupied(fs, a.dir, a.source) && Stands(fs, a.to.dir, a.to.name, a))
             || (Unoccupied(fs, a.to.dir, a.to.name) && Stands(fs, a.dir, a.source, a) && AsCaptured(fs, a)))
       case Unlink => !a.isDir && (Unoccupied(fs, a.dir, a.source) || (Stands(fs, a.dir, a.source, a) && fs.attr[a.ino.value] == FileAttr(a.content, a.mtime)))
       case Rmdir => a.isDir && (Unoccupied(fs, a.dir, a.source) || (Stands(fs, a.dir, a.source, a) && forall j :: j in fs.place ==> fs.place[j].dir != a.ino.value))
       case SetTime => Stands(fs, a.dir, a.source, a)
  }

  lemma ReadyMeans(fs: FS, a: Action)
    ensures Ready(fs, a) <==> GoesThrough(fs, a)
  {
    assert Occupied(fs, From(a)) <==> !Unoccupied(fs, a.dir, a.source);
    assert Occupied(fs, a.to) <==> !Unoccupied(fs, a.to.dir, a.to.name);
  }

  /** What a completed action was for is so. */
  lemma FinishedAchieves(d: Disk, k: nat)
    requires WellFormed(d.fs) && Live(d, k)
    ensures Achieved(d.fs, Finished(d, k).fs, d.journal[k])
    ensures var j := Finished(d, k).journal; |j| == |d.journal| && j[k].state.Completed? && forall l :: 0 <= l < |j| && l != k ==> j[l] == d.journal[l]
  {
    var a := d.journal[k];
    if !a.op.SetTime? {
      PerformCarries(d.fs, a);
    }
    if Renames(a) {
      RenamedKeeps(d.fs, a);
    }
  }

  lemma RenamedKeeps(fs: FS, a: Action)
    requires WellFormed(fs) && Ready(fs, a) && Renames(a)
    ensures a.ino.Some? && a.ino.value in fs.attr && a.ino.value in Perform(fs, a).attr
    ensures !a.isDir ==> Settle(Perform(fs, a), a).attr[a.ino.value] == fs.attr[a.ino.value]
    ensures IsDir(Perform(fs, a), a.to.dir)
  {
  }

  /** The action changes the inode, or a directory in which it changes names. */
  predicate Touches(a: Action, i: Ino) {
    a.ino == Some(i) || (!a.op.SetTime? && a.dir == i) || (Renames(a) && a.to.dir == i)
  }

  lemma UntouchedKeepsAttr(fs: FS, a: Action, i: Ino)
    requires WellFormed(fs) && Ready(fs, a) && i in fs.attr && !Touches(a, i)
    ensures var after := Settle(Perform(fs, a), a); i in after.attr && after.attr[i] == fs.attr[i]
  {
  }

  /** Setting the times that belong to an action changes no place. */
  lemma SettleKeeps(fs: FS, a: Action)
    requires Carried(fs, a) && Ready(fs, a)
    ensures Ready(Settle(fs, a), a) && Carried(Settle(fs, a), a) && Settle(Settle(fs, a), a) == Settle(fs, a)
  {
    var after := Settle(fs, a);
    assert after.place == fs.place;
    assert forall at :: Occupied(after, at) == Occupied(fs, at);
  }

  lemma SetTimeTwice(fs: FS, a: Action)
    requires Ready(fs, a) && a.op.SetTime?
    ensures Ready(Perform(fs, a), a) && Perform(Perform(fs, a), a) == Perform(fs, a)
  {
  }

  /** An action that was cut short ends, when it is carried on, as if it had not been. */
  lemma CutResumes(d: Disk, k: nat, now: Disk)
    requires WellFormed(d.fs) && Live(d, k) && Stage(d, k, now) && !InWindow(d, k, now) && now != Finished(d, k)
    ensures WellFormed(now.fs) && Live(now, k) && Finished(now, k) == Finished(d, k)
  {
    var a := d.journal[k];
    PerformKeepsOrder(d.fs, a);
    if now != d {
      if a.op.SetTime? {
        SetTimeTwice(d.fs, a);
      } else {
        PerformCarries(d.fs, a);
        SettleKeeps(Perform(d.fs, a), Identified(d.fs, a));
        if now == Called(d, k) {
          CalledResumes(d, k);
        } else {
          SettledResumes(d, k);
        }
      }
    }
  }

  lemma CalledResumes(d: Disk, k: nat)
    requires Live(d, k) && !InWindow(d, k, Called(d, k)) && !d.journal[k].op.SetTime?
    requires var after, b := Perform(d.fs, d.journal[k]), Identified(d.fs, d.journal[k]); Ready(after, b) && Carried(after, b)
    ensures Live(Called(d, k), k) && Finished(Called(d, k), k) == Finished(d, k)
  {
    assert Identified(d.fs, d.journal[k]) == d.journal[k];
  }

  lemma SettledResumes(d: Disk, k: nat)
    requires Live(d, k) && !d.journal[k].op.SetTime?
    requires var after, b := Settle(Perform(d.fs, d.journal[k]), d.journal[k]), Identified(d.fs, d.journal[k]);
             Ready(after, b) && Carried(after, b) && Settle(after, b) == after
    ensures Live(Settled(d, k), k) && Finished(Settled(d, k), k) == Finished(d, k)
  {
    var s := Settled(d, k);
    assert Identified(s.fs, s.journal[k]) == s.journal[k];
  }

  // ---- the whole journal ----

  /** Every intent from position k on can be carried out when its turn comes. */
  ghost predicate AllReady(d: Disk, k: nat)
    requires k <= |d.journal|
    decreases |d.journal| - k
  {
    k == |d.journal| ||
    (if d.journal[k].state.Completed? then AllReady(d, k + 1) else Live(d, k) && AllReady(Finished(d, k), k + 1))
  }

  /** The disk when every intent from position k on was carried out, in order. */
  ghost function FinishAll(d: Disk, k: nat): Disk
    requires k <= |d.journal| && AllReady(d, k)
    decreases |d.journal| - k
  {
    if k == |d.journal| then d
    else if d.journal[k].state.Completed? then FinishAll(d, k + 1)
    else FinishAll(Finished(d, k), k + 1)
  }

  /** What a run from position k on may leave behind when it is cut, outside the creation window. */
  ghost predicate MayBeCut(d: Disk, k: nat, now: Disk)
    requires k <= |d.journal| && AllReady(d, k)
    decreases |d.journal| - k
  {
    if k == |d.journal| then now == d
    else if d.journal[k].state.Completed? then MayBeCut(d, k + 1, now)
    else (Stage(d, k, now) && !InWindow(d, k, now)) || MayBeCut(Finished(d, k), k + 1, now)
  }

  /** Everything before position k is completed. */
  ghost predicate DoneTo(d: Disk, k: nat)
    requires k <= |d.journal|
  {
    forall j :: 0 <= j < k ==> d.journal[j].state.Completed?
  }

  lemma {:induction false} SkipDone(d: Disk, j: nat, k: nat)
    requires j <= k <= |d.journal| && DoneTo(d, k)
    ensures AllReady(d, j) == AllReady(d, k) && (AllReady(d, k) ==> FinishAll(d, j) == FinishAll(d, k))
    decreases k - j
  {
    if j < k {
      SkipDone(d, j + 1, k);
    }
  }

  /**
    A journal that was cut anywhere can be carried on, and ends with the same file system and the
    same completed journal as a run that was never cut.
   */
  lemma {:induction false} RecoveryEndsTheSame(d: Disk, k: nat, now: Disk)
    requires WellFormed(d.fs) && k <= |d.journal| && DoneTo(d, k) && AllReady(d, k) && MayBeCut(d, k, now)
    ensures |now.journal| == |d.journal| && WellFormed(now.fs) && AllReady(now, 0) && FinishAll(now, 0) == FinishAll(d, k)
    decreases |d.journal| - k
  {
    if k == |d.journal| {
      SkipDone(d, 0, k);
    } else if d.journal[k].state.Completed? {
      RecoveryEndsTheSame(d, k + 1, now);
    } else {
      FinishedKeeps(d, k);
      if MayBeCut(Finished(d, k), k + 1, now) {
        RecoveryEndsTheSame(Finished(d, k), k + 1, now);
      } else {
        StageEndsTheSame(d, k, now);
      }
    }
  }

  lemma FinishedKeeps(d: Disk, k: nat)
    requires WellFormed(d.fs) && Live(d, k) && DoneTo(d, k)
    ensures var next := Finished(d, k); WellFormed(next.fs) && |next.journal| == |d.journal| && DoneTo(next, k + 1)
  {
    PerformKeepsOrder(d.fs, d.journal[k]);
  }

  lemma StageEndsTheSame(d: Disk, k: nat, now: Disk)
    requires WellFormed(d.fs) && Live(d, k) && DoneTo(d, k) && AllReady(d, k) && Stage(d, k, now) && !InWindow(d, k, now)
    ensures |now.journal| == |d.journal| && WellFormed(now.fs) && AllReady(now, 0) && FinishAll(now, 0) == FinishAll(d, k)
  {
    FinishedKeeps(d, k);
    if now == Finished(d, k) {
      SkipDone(now, 0, k + 1);
    } else {
      CutResumes(d, k, now);
      assert DoneTo(now, k);
      SkipDone(now, 0, k);
    }
  }

  /** A recovered journal holds no intent, so recovering it again does nothing. */
  lemma {:induction false} FinishedIsDone(d: Disk, k: nat)
    requires k <= |d.journal| && DoneTo(d, k) && AllReady(d, k)
    ensures var last := FinishAll(d, k); |last.journal| == |d.journal| && DoneTo(last, |last.journal|)
    decreases |d.journal| - k
  {
    if k < |d.journal| {
      if d.journal[k].state.Completed? {
        FinishedIsDone(d, k + 1);
      } else {
        FinishedIsDone(Finished(d, k), k + 1);
      }
    }
  }

  lemma SecondRecoveryIdle(d: Disk)
    requires AllReady(d, 0)
    ensures var last := FinishAll(d, 0); AllReady(last, 0) && FinishAll(last, 0) == last
  {
    FinishedIsDone(d, 0);
    var last := FinishAll(d, 0);
    SkipDone(last, 0, |last.journal|);
  }

  /** A whole run keeps the file system in order: no action ever takes an occupied name. */
  lemma {:induction false} FinishKeepsOrder(d: Disk, k: nat)
    requires WellFormed(d.fs) && k <= |d.journal| && AllReady(d, k)
    ensures WellFormed(FinishAll(d, k).fs)
    decreases |d.journal| - k
  {
    if k < |d.journal| {
      if d.journal[k].state.Completed? {
        FinishKeepsOrder(d, k + 1);
      } else {
        PerformKeepsOrder(d.fs, d.journal[k]);
        FinishKeepsOrder(Finished(d, k), k + 1);
      }
    }
  }

  predicate SparesAt(journal: seq<Action>, l: nat, i: Ino) {
    l < |journal| && (journal[l].state.Intent? ==> !Touches(journal[l], i))
  }

  /** No intent from the position on touches the inode. */
  ghost predicate Spares(journal: seq<Action>, from: nat, i: Ino) {
    forall l {:trigger SparesAt(journal, l, i)} :: from <= l < |journal| ==> SparesAt(journal, l, i)
  }

  /** The actions behind one that was finished are as they were. */
  lemma RestSpares(d: Disk, k: nat, from: nat, i: Ino)
    requires Live(d, k) && k < from && Spares(d.journal, from, i)
    ensures Spares(Finished(d, k).journal, from, i) && |Finished(d, k).journal| == |d.journal|
    ensures forall l :: from - 1 <= l < |d.journal| && l != k ==> Finished(d, k).journal[l] == d.journal[l]
  {
    var after := Finished(d, k).journal;
    forall l | from <= l < |after|
      ensures SparesAt(after, l, i)
    {
      assert SparesAt(d.journal, l, i);
    }
  }

  /** What an inode is, holds and has for a time stands through a run until an action touches it. */
  lemma {:induction false} AttrStands(d: Disk, k: nat, i: Ino)
    requires WellFormed(d.fs) && k <= |d.journal| && AllReady(d, k) && i in d.fs.attr && Spares(d.journal, k, i)
    ensures i in FinishAll(d, k).fs.attr && FinishAll(d, k).fs.attr[i] == d.fs.attr[i]
    decreases |d.journal| - k
  {
    if k < |d.journal| {
      assert SparesAt(d.journal, k, i);
      if d.journal[k].state.Completed? {
        AttrStands(d, k + 1, i);
      } else {
        UntouchedKeepsAttr(d.fs, d.journal[k], i);
        PerformKeepsOrder(d.fs, d.journal[k]);
        RestSpares(d, k, k + 1, i);
        AttrStands(Finished(d, k), k + 1, i);
      }
    }
  }

  /** The time that an action gives to an inode: its own, or the directory's that a promoted file was restored to. */
  predicate Dates(a: Action, i: Ino, mtime: Option<nat>) {
    a.mtime == mtime && ((a.op.SetTime? && a.ino == Some(i)) || (a.op.RestorePromotion? && mtime.Some? && a.to.dir == i))
  }

  /** The action's time is there when it is done. */
  lemma DatedThen(d: Disk, k: nat, i: Ino, mtime: Option<nat>)
    requires WellFormed(d.fs) && Live(d, k) && Dates(d.journal[k], i, mtime)
    ensures i in Finished(d, k).fs.attr && Finished(d, k).fs.attr[i].mtime == mtime && WellFormed(Finished(d, k).fs)
  {
    FinishedAchieves(d, k);
    PerformKeepsOrder(d.fs, d.journal[k]);
  }

  /** A time once set is still there at the end of the run, unless a later action touched the inode. */
  lemma {:induction false} TimeStands(d: Disk, k: nat, j: nat, i: Ino, mtime: Option<nat>)
    requires WellFormed(d.fs) && k <= j < |d.journal| && AllReady(d, k) && d.journal[j].state.Intent? && Dates(d.journal[j], i, mtime)
    requires Spares(d.journal, j + 1, i)
    ensures i in FinishAll(d, k).fs.attr && FinishAll(d, k).fs.attr[i].mtime == mtime
    decreases |d.journal| - k
  {
    if d.journal[k].state.Completed? {
      TimeStands(d, k + 1, j, i, mtime);
    } else {
      RestSpares(d, k, j + 1, i);
      if k < j {
        PerformKeepsOrder(d.fs, d.journal[k]);
        TimeStands(Finished(d, k), k + 1, j, i, mtime);
      } else {
        DatedThen(d, k, i, mtime);
        AttrStands(Finished(d, k), k + 1, i);
      }
    }
  }

  // ---- the program ----

  /** How a run ended: done, cut by a crash, refused by a check, at a creation whose identity is unknown, or with a lost creation made again. */
  datatype Ending = Done | Cut | Refused | Unknown | Remade

  /** A client at work; `fuse` is how many more effects reach the disk before it crashes. */
  class Client {
    var disk: Disk
    var fuse: nat

    constructor (disk: Disk, fuse: nat)
      ensures this.disk == disk && this.fuse == fuse
    {
      this.disk, this.fuse := disk, fuse;
    }

    /** One effect on the disk, unless the process is cut before it. */
    method Effect(next: Disk) returns (alive: bool)
      modifies this
      ensures alive == (old(fuse) > 0) && fuse == (if alive then old(fuse) - 1 else 0)
      ensures disk == if alive then next else old(disk)
    {
      if fuse == 0 {
        return false;
      }
      fuse, disk := fuse - 1, next;
      return true;
    }

    /** Carries out the action at position k from wherever it stands, and marks it completed. */
    method Complete(k: nat) returns (r: Ending)
      requires k < |disk.journal| && disk.journal[k].state.Intent?
      modifies this
      ensures r.Done? ==> Live(old(disk), k) && disk == Finished(old(disk), k)
      ensures r.Done? && WellFormed(old(disk).fs) ==> Achieved(old(disk).fs, disk.fs, old(disk).journal[k])
      ensures r.Cut? ==> fuse == 0 && old(fuse) < 3 &&
                         (Lost(old(disk).fs, old(disk).journal[k]) || (Live(old(disk), k) && Stage(old(disk), k, disk)))
      ensures r.Refused? || r.Unknown? ==> disk == old(disk) && fuse == old(fuse) && !Live(old(disk), k)
      ensures r.Refused? || r.Unknown? || r.Remade? ==> !GoesThrough(old(disk).fs, old(disk).journal[k])
      ensures r.Done? ==> GoesThrough(old(disk).fs, old(disk).journal[k])
      ensures r.Remade? ==> Lost(old(disk).fs, old(disk).journal[k]) && disk == MadeAgain(old(disk), k)
      ensures r.Remade? ==> var a := old(disk).journal[k]; MadeEmpty(disk.fs, a.dir, a.source, old(disk).fs.next, a.op.CreateDirectory?)
      ensures r.Unknown? ==> Creates(disk.journal[k]) && disk.journal[k].ino.None? && Occupied(disk.fs, From(disk.journal[k]))
    {
      ReadyMeans(disk.fs, disk.journal[k]);
      r := CarryOut(k);
      if r.Done? && WellFormed(old(disk).fs) {
        FinishedAchieves(old(disk), k);
      }
    }

    method CarryOut(k: nat) returns (r: Ending)
      requires k < |disk.journal| && disk.journal[k].state.Intent?
      modifies this
      ensures r.Done? ==> Live(old(disk), k) && disk == Finished(old(disk), k)
      ensures r.Cut? ==> fuse == 0 && old(fuse) < 3 &&
                         (Lost(old(disk).fs, old(disk).journal[k]) || (Live(old(disk), k) && Stage(old(disk), k, disk)))
      ensures r.Refused? || r.Unknown? ==> disk == old(disk) && fuse == old(fuse) && !Live(old(disk), k)
      ensures r.Remade? ==> Lost(old(disk).fs, old(disk).journal[k]) && disk == MadeAgain(old(disk), k)
      ensures r.Unknown? ==> Creates(disk.journal[k]) && disk.journal[k].ino.None? && Occupied(disk.fs, From(disk.journal[k]))
    {
      var a := disk.journal[k];
      var identified := Identified(disk.fs, a);
      if !Sane(a) || !IsDir(disk.fs, a.dir) || (Renames(a) && !IsDir(disk.fs, a.to.dir)) {
        return Refused;
      }
      if !Carried(disk.fs, a) {
        if Creates(a) && a.ino.None? && Occupied(disk.fs, From(a)) {
          return Unknown;
        }
        if Creates(a) && !Occupied(disk.fs, From(a)) && a.ino.Some? {
          r := MakeAgain(k);
          return;
        }
        if !Fresh(disk.fs, a) {
          return Refused;
        }
        var alive := Effect(disk.(fs := Perform(disk.fs, a)));
        if !alive {
          return Cut;
        }
      }
      if a.op.RestorePromotion? || (Creates(a) && a.ino.None?) {
        var alive := Effect(Disk(Settle(disk.fs, a), disk.journal[k := identified]));
        if !alive {
          return Cut;
        }
      }
      var alive := Effect(disk.(journal := disk.journal[k := disk.journal[k].(state := Completed)]));
      return if alive then Done else Cut;
    }

    method MakeAgain(k: nat) returns (r: Ending)
      requires k < |disk.journal| && Lost(disk.fs, disk.journal[k])
      modifies this
      ensures if r.Remade? then disk == MadeAgain(old(disk), k) else r.Cut? && fuse == 0 && old(fuse) < 3
    {
      var a := disk.journal[k];
      var alive := Effect(disk.(fs := Make(disk.fs, From(a), NewAttr(a))));
      if alive {
        alive := Effect(disk.(journal := disk.journal[k := a.(state := Completed)]));
      }
      return if alive then Remade else Cut;
    }

    /** Carries on every intent of the journal in order. */
    method RecoverActions() returns (r: Ending)
      modifies this
      ensures AllReady(old(disk), 0) ==> r.Done? || r.Cut?
      ensures AllReady(old(disk), 0) && r.Done? ==> disk == FinishAll(old(disk), 0)
      ensures AllReady(old(disk), 0) && r.Cut? ==> CutAt(old(disk), 0, disk)
      ensures r.Done? ==> DoneTo(disk, |disk.journal|)
    {
      ghost var start := disk;
      var k := 0;
      while k < |disk.journal|
        invariant k <= |disk.journal| && DoneTo(disk, k)
        invariant AllReady(start, 0) ==> AllReady(disk, k) && FinishAll(disk, k) == FinishAll(start, 0)
        invariant AllReady(start, 0) ==> forall now :: CutAt(disk, k, now) ==> CutAt(start, 0, now)
        decreases |disk.journal| - k
      {
        if disk.journal[k].state.Intent? {
          r := Complete(k);
          if !r.Done? && !r.Remade? {
            return;
          }
        }
        k := k + 1;
      }
      return Done;
    }
  }

  /** Like `MayBeCut`, with the creation window included. */
  ghost predicate CutAt(d: Disk, k: nat, now: Disk)
    decreases |d.journal| - k
  {
    k < |d.journal| &&
    if d.journal[k].state.Completed? then CutAt(d, k + 1, now)
    else Live(d, k) && (Stage(d, k, now) || CutAt(Finished(d, k), k + 1, now))
  }

  /** The run was cut in the window of some creation. */
  ghost predicate WindowAt(d: Disk, k: nat, now: Disk)
    decreases |d.journal| - k
  {
    k < |d.journal| &&
    if d.journal[k].state.Completed? then WindowAt(d, k + 1, now)
    else Live(d, k) && (InWindow(d, k, now) || WindowAt(Finished(d, k), k + 1, now))
  }

  lemma {:induction false} CutOrWindow(d: Disk, k: nat, now: Disk)
    requires k <= |d.journal| && AllReady(d, k) && CutAt(d, k, now)
    ensures MayBeCut(d, k, now) || WindowAt(d, k, now)
    decreases |d.journal| - k
  {
    if d.journal[k].state.Completed? {
      CutOrWindow(d, k + 1, now);
    } else if CutAt(Finished(d, k), k + 1, now) {
      CutOrWindow(Finished(d, k), k + 1, now);
    }
  }

  /** A run that crashes outside the creation window and is recovered ends like a run that never crashed. */
  lemma CrashThenRecover(d: Disk, now: Disk)
    requires WellFormed(d.fs) && AllReady(d, 0) && CutAt(d, 0, now) && !WindowAt(d, 0, now)
    ensures AllReady(now, 0) && FinishAll(now, 0) == FinishAll(d, 0)
  {
    CutOrWindow(d, 0, now);
    RecoveryEndsTheSame(d, 0, now);
  }

  /** The same place, the same kind, and for a file the same content and time. */
  predicate Kept(fs: FS, after: FS, j: Ino)
    requires j in fs.place && j in fs.attr
  {
    && j in after.place && after.place[j] == fs.place[j] && j in after.attr && after.attr[j].DirAttr? == fs.attr[j].DirAttr?
    && (fs.attr[j].FileAttr? ==> after.attr[j] == fs.attr[j])
  }

  lemma CallKeepsOthers(fs: FS, a: Action, j: Ino)
    requires WellFormed(fs) && Ready(fs, a) && j in fs.place && a.ino != Some(j)
    ensures Kept(fs, Perform(fs, a), j)
  {
    assert j in fs.attr && j != fs.next;
    assert forall d :: IsDir(fs, d) ==> fs.attr[d].DirAttr?;
    if !Carried(fs, a) && !Creates(a) && !a.op.SetTime? {
      assert IsDir(fs, fs.place[a.ino.value].dir);
    }
  }

  /** An action touches its own inode and the times of directories, and nothing else. */
  lemma OthersUntouched(fs: FS, a: Action, j: Ino)
    requires WellFormed(fs) && Ready(fs, a) && j in fs.place && a.ino != Some(j)
    ensures j in fs.attr && Kept(fs, Settle(Perform(fs, a), a), j)
  {
    assert j in fs.attr;
    CallKeepsOthers(fs, a, j);
    if a.op.RestorePromotion? {
      assert IsDir(fs, a.to.dir);
    }
  }
}
