/** What holds in every state an application can reach, however it is cut and carried on. */
module SyncSafety {
  import opened Wrappers
  import opened Bytes
  import opened FileSystem
  import opened SyncApply
  import opened SyncInvariant
  import opened SyncSteps
  import opened SyncInstall
  import opened SyncFinish
  import opened SyncPaths
  import opened SyncRollback

  lemma RemovingFits(u: Setup, s: State, step: Step)
    requires Sound(u) && Inv(u, s) && Enabled(u, s, step) && (step.DropTemp? || step.Unlink?)
    ensures Possible(u, s, step)
  {
    if step.DropTemp? {
      DropTempFits(u, s, step.p);
    } else {
      UnlinkFits(u, s, step.p);
    }
  }

  lemma BackStepFits(u: Setup, s: State, step: Step)
    requires Sound(u) && Inv(u, s) && Enabled(u, s, step) && Backing(s) && !step.Unlink?
    ensures Possible(u, s, step)
  {
    if step.Restore? {
      RestoreFits(u, s, step.i);
    } else if step.Undo? {
      UndoRenames(u, s, step.p);
    } else if step.Unhide? {
      UnhideFits(u, s, step.i);
    }
  }

  lemma UndoRenames(u: Setup, s: State, p: Path)
    requires Sound(u) && Inv(u, s) && CanUndo(u, s, p)
    ensures Free(s.fs, UndoPlace(u, s, p))
  {
    UndoFits(u, s, p);
  }

  lemma DropTempFits(u: Setup, s: State, p: Path)
    requires Sound(u) && Inv(u, s) && CanDropTemp(u, s, p)
    ensures Empty(s.fs, s.rows[p].made.value)
  {
    RemovableTemp(u, s, p);
    RemovedEmpty(u, s, p);
  }

  lemma UnlinkFits(u: Setup, s: State, p: Path)
    requires Sound(u) && Inv(u, s) && CanUnlink(u, s, p)
    ensures Empty(s.fs, s.rows[p].made.value)
  {
    RemovableUndone(u, s, p);
    RemovedEmpty(u, s, p);
  }

  lemma UnhideFits(u: Setup, s: State, i: Ino)
    requires Sound(u) && Inv(u, s) && CanUnhide(u, s, i)
    ensures Free(s.fs, InRoot(u, Visible(u, i)))
  {
    VisibleFree(u, s, i);
  }

  lemma SetTimeFits(u: Setup, s: State, p: Path)
    requires Sound(u) && Inv(u, s) && CanSetTime(u, s, p)
    ensures MadeAs(u, s, p)
  {
    if u.target[p].ItemDir? {
      assert Done(s, p) && ApplyRow(u, s, p);
    }
    InstallingMade(u, s, p);
  }

  /** No step fails: every place it needs is free, and what it acts on is there. */
  lemma NoStepFails(u: Setup, s: State, step: Step)
    requires Sound(u) && Inv(u, s) && Enabled(u, s, step)
    ensures Possible(u, s, step)
  {
    if step.DropTemp? || step.Unlink? {
      RemovingFits(u, s, step);
    } else if Backing(s) {
      BackStepFits(u, s, step);
    } else if step.MakeTemp? || step.Remake? || step.Litter? {
      MakeTempFits(u, s, step.p);
    } else {
      match step
      case Hide(i) => HideFits(u, s, i);
      case Write(p, content) => InstallingMade(u, s, p);
      case SetTime(p) => SetTimeFits(u, s, p);
      case Install(p) => InstallFits(u, s, p);
      case Promote(i) => PromoteFits(u, s, i);
      case Trash(i) => TrashFits(u, s, i);
      case _ =>
    }
  }

  /** Steps that move captured entries aside or end the application. */
  predicate Framing(step: Step) {
    step.Abandon? || step.Record? || step.Register? || step.Hide? || step.HideDone? || step.Finalize? || step.Rollback?
  }

  lemma FramingStepKeeps(u: Setup, s: State, step: Step)
    requires Sound(u) && Inv(u, s) && Enabled(u, s, step) && Possible(u, s, step) && Framing(step)
    ensures Inv(u, Apply(u, s, step))
  {
    match step
    case Abandon => AbandonKeeps(u, s);
    case Record => RecordKeeps(u, s);
    case Register(hidden) => RegisterKeeps(u, s, hidden);
    case Hide(i) => HideKeeps(u, s, i);
    case HideDone(i) => HiddenRecordedKeeps(u, s, i);
    case Finalize => FinalizeKeeps(u, s);
    case Rollback => RollbackKeeps(u, s);
  }

  /** Steps that name, make or remove what is at a temporary name. */
  predicate AtTempNames(step: Step) {
    step.NameTemp? || step.MakeTemp? || step.Note? || step.Remake? || step.Litter? || step.DropTemp?
  }

  lemma MakingStepKeeps(u: Setup, s: State, step: Step)
    requires Sound(u) && Inv(u, s) && Enabled(u, s, step) && Possible(u, s, step) && (step.MakeTemp? || step.Remake? || step.Litter?)
    ensures Inv(u, Apply(u, s, step))
  {
    var noted, stray := if step.Litter? then s.rows[step.p].noted else step.Remake?, step.Litter?;
    MadeNewKeeps(u, s, step.p, noted, stray);
  }

  lemma TempStepKeeps(u: Setup, s: State, step: Step)
    requires Sound(u) && Inv(u, s) && Enabled(u, s, step) && Possible(u, s, step) && AtTempNames(step)
    ensures Inv(u, Apply(u, s, step))
  {
    if step.NameTemp? {
      TempNamedKeeps(u, s, step.p, step.n);
    } else if step.Note? {
      NotedKeeps(u, s, step.p);
    } else if step.DropTemp? {
      DropTempKeeps(u, s, step.p);
    } else {
      MakingStepKeeps(u, s, step);
    }
  }

  lemma ApplyStepKeeps(u: Setup, s: State, step: Step)
    requires Sound(u) && Inv(u, s) && Enabled(u, s, step) && Possible(u, s, step) && s.phase.Applying? && !Framing(step) && !AtTempNames(step)
    ensures Inv(u, Apply(u, s, step))
  {
    match step
    case Write(p, content) => SetAttrKeeps(u, s, Written(s, p, content), p, FileAttr(content, None));
    case SetTime(p) => SetAttrKeeps(u, s, TimeSet(u, s, p), p, ItemAttr(u.target[p]));
    case Install(p) => InstallKeeps(u, s, p);
    case InstallDone(p) => InstalledRecordedKeeps(u, s, p);
    case Promote(i) => PromoteKeeps(u, s, i);
    case Enroll(i) => EnrolledKeeps(u, s, i);
  }

  lemma FinishStepKeeps(u: Setup, s: State, step: Step)
    requires Sound(u) && Inv(u, s) && Enabled(u, s, step) && Possible(u, s, step) && s.phase.Finalized?
    ensures Inv(u, Apply(u, s, step))
  {
    match step
    case NameTomb(i, n) => TombNamedKeeps(u, s, i, n);
    case Trash(i) => TrashKeeps(u, s, i);
    case Erase(i) => EraseKeeps(u, s, i);
    case Consume(i) => ConsumeKeeps(u, s, i);
    case Finish => FinishKeeps(u, s);
  }

  lemma BackStepKeeps(u: Setup, s: State, step: Step)
    requires Sound(u) && Inv(u, s) && Enabled(u, s, step) && Possible(u, s, step) && Backing(s) && !Framing(step) && !AtTempNames(step)
    ensures Inv(u, Apply(u, s, step))
  {
    match step
    case Restore(i) => RestoreKeeps(u, s, i);
    case NameUndo(p, n) => UndoNamedKeeps(u, s, p, n);
    case Undo(p) => UndoKeeps(u, s, p);
    case Unlink(p) =>
      UnlinkKeeps(u, s, p);
    case Forget(p) => ForgetKeeps(u, s, p);
    case Unhide(i) => UnhideKeeps(u, s, i);
    case Release(i) => ReleaseKeeps(u, s, i);
    case RootTime => RootTimeKeeps(u, s);
    case Clear => ClearKeeps(u, s);
  }

  lemma DropTempKeeps(u: Setup, s: State, p: Path)
    requires Sound(u) && Inv(u, s) && CanDropTemp(u, s, p)
    ensures Inv(u, WithoutMade(s, p))
  {
    RemovableTemp(u, s, p);
    RemovedKeeps(u, s, p);
  }

  lemma UnlinkKeeps(u: Setup, s: State, p: Path)
    requires Sound(u) && Inv(u, s) && CanUnlink(u, s, p)
    ensures s.rows[p].made.value in s.fs.place && Inv(u, WithoutMade(s, p))
  {
    RemovableUndone(u, s, p);
    MadeIsBack(u, s, p);
    RemovedKeeps(u, s, p);
  }

  /** Every step keeps the invariant. */
  lemma StepKeeps(u: Setup, s: State, step: Step)
    requires Sound(u) && Inv(u, s) && Enabled(u, s, step) && Possible(u, s, step)
    ensures Inv(u, Apply(u, s, step))
  {
    if Framing(step) {
      FramingStepKeeps(u, s, step);
    } else if AtTempNames(step) {
      TempStepKeeps(u, s, step);
    } else if s.phase.Applying? {
      ApplyStepKeeps(u, s, step);
    } else if s.phase.Finalized? {
      FinishStepKeeps(u, s, step);
    } else {
      BackStepKeeps(u, s, step);
    }
  }

  // ---- runs ----

  function Initial(u: Setup): State {
    State(u.cap, Pending, false, map[], map[], map[], map[], map[])
  }

  /** A run of steps. A crash changes nothing that survives, so it needs no step of its own. */
  ghost predicate Runs(u: Setup, s: State, steps: seq<Step>, last: State)
    decreases |steps|
  {
    if steps == [] then last == s
    else Enabled(u, s, steps[0]) && Possible(u, s, steps[0]) && Runs(u, Apply(u, s, steps[0]), steps[1..], last)
  }

  lemma {:induction false} RunKeeps(u: Setup, s: State, steps: seq<Step>, last: State)
    requires Sound(u) && Inv(u, s) && Runs(u, s, steps, last)
    ensures Inv(u, last)
    decreases |steps|
  {
    if steps != [] {
      StepKeeps(u, s, steps[0]);
      RunKeeps(u, Apply(u, s, steps[0]), steps[1..], last);
    }
  }

  lemma InitialHolds(u: Setup)
    requires Sound(u)
    ensures Inv(u, Initial(u))
  {
    var s := Initial(u);
    forall j | j in s.fs.place
      ensures Legit(u, s, j) && AttrOk(u, s, j)
    {
      assert AreaOk(u, j);
    }
  }

  // ---- all or nothing ----

  /** The path leads to the inode, and that is what the target has there: kind, content and time. */
  predicate ShownAs(fs: FS, p: Path, i: Ino, x: Item) {
    Leads(fs, p, i) && i in fs.attr &&
    match x
    case ItemFile(content, mtime) => fs.attr[i] == FileAttr(content, Some(mtime))
    case ItemDir(mtime) => fs.attr[i] == DirAttr(Some(mtime))
  }

  /** Looked up by path, everything that the target has is there as the target has it. */
  ghost predicate TargetShown(fs: FS, target: map<Path, Item>) {
    forall p :: p in target ==> exists i {:trigger ShownAs(fs, p, i, target[p])} :: ShownAs(fs, p, i, target[p])
  }

  /** The worktree is the target, and nothing else is there. */
  ghost predicate ExactlyTarget(u: Setup, s: State) {
    TargetShown(s.fs, u.target) && forall i :: i in s.fs.place ==> exists p {:trigger Leads(s.fs, p, i)} :: p in u.target && Leads(s.fs, p, i)
  }

  /** What is in place as the target has it is found there by its path. */
  lemma TargetIsFound(u: Setup, s: State, p: Path)
    requires Sound(u) && Inv(u, s) && TreeAsTarget(u, s) && p in u.target
    ensures Owner(u, s, p).Some? && ShownAs(s.fs, p, Owner(u, s, p).value, u.target[p])
  {
    assert AsTarget(u, s, p) && TargetOk(u, p);
    ParentNotSource(u, p);
    if Parent(p) != [] {
      assert AsTarget(u, s, Parent(p));
    }
    ReadyIsFound(u, s, Parent(p));
  }

  lemma TreeIsShown(u: Setup, s: State)
    requires Sound(u) && Inv(u, s) && TreeAsTarget(u, s)
    ensures TargetShown(s.fs, u.target)
  {
    forall p | p in u.target
      ensures exists i {:trigger ShownAs(s.fs, p, i, u.target[p])} :: ShownAs(s.fs, p, i, u.target[p])
    {
      TargetIsFound(u, s, p);
    }
  }

  /** Files and tree as they were captured: every name, every content, every time. */
  predicate ExactlyCaptured(u: Setup, s: State) {
    s.fs.place == u.cap.place && s.fs.attr == u.cap.attr
  }

  /** Whoever is left when the target is in place is part of it. */
  lemma OnlyOwners(u: Setup, s: State, i: Ino)
    requires Sound(u) && Inv(u, s) && s.phase.Over? && s.newBase && i in s.fs.place
    ensures exists p :: p in u.target && Owner(u, s, p) == Some(i)
  {
    assert Legit(u, s, i);
    assert i in u.cap.place && i !in u.promo ==> Kept(u, s, i);
    if i in u.cap.place {
      assert PromoOk(u, i);
      assert Owner(u, s, u.promo[i]) == Some(i);
    } else {
      assert OfOk(u, s, i);
      assert Owner(u, s, s.of[i]) == Some(i);
    }
  }

  /** When it is over, it is all or nothing. */
  lemma OverIsWhole(u: Setup, s: State)
    requires Sound(u) && Inv(u, s) && s.phase.Over?
    ensures if s.newBase then ExactlyTarget(u, s) else ExactlyCaptured(u, s)
  {
    if s.newBase {
      TreeIsShown(u, s);
      forall i | i in s.fs.place
        ensures exists p {:trigger Leads(s.fs, p, i)} :: p in u.target && Leads(s.fs, p, i)
      {
        OnlyOwners(u, s, i);
        var p :| p in u.target && Owner(u, s, p) == Some(i);
        TargetIsFound(u, s, p);
      }
    }
  }

  /**
    All or nothing: once the work is over, either the base is still the old one and the worktree is
    exactly what was captured, or the base is the new one and the worktree is exactly the target.
   */
  lemma AllOrNothing(u: Setup, steps: seq<Step>, s: State)
    requires Sound(u) && Runs(u, Initial(u), steps, s) && s.phase.Over?
    ensures if s.newBase then ExactlyTarget(u, s) else ExactlyCaptured(u, s)
  {
    InitialHolds(u);
    RunKeeps(u, Initial(u), steps, s);
    OverIsWhole(u, s);
  }

  // ---- captured files ----

  /** Before the base moves on, every captured file is somewhere, whole: at its name, at its hidden name, or where it was promoted. */
  ghost predicate Safe(u: Setup, s: State, i: Ino) {
    && i in s.fs.place && i in s.fs.attr && i in u.cap.place && i in u.cap.attr
    && (u.cap.attr[i].FileAttr? ==> s.fs.attr[i] == u.cap.attr[i])
    && (|| s.fs.place[i] == u.cap.place[i]
        || (Top(u, i) && i in s.recs && s.fs.place[i] == InRoot(u, s.recs[i].hidden))
        || (i in u.promo && u.promo[i] != [] && s.fs.place[i] == PlaceOf(u, s, u.promo[i])))
  }

  lemma CapturedIsSafe(u: Setup, s: State, i: Ino)
    requires Sound(u) && Inv(u, s) && !s.newBase && i in u.cap.place
    ensures Safe(u, s, i)
  {
    assert Legit(u, s, i) && AttrOk(u, s, i);
  }

  /** The place of a captured inode is its own: nobody else is there. */
  lemma OnePlace(u: Setup, s: State, i: Ino, j: Ino)
    requires Sound(u) && Inv(u, s) && i in s.fs.place && j in s.fs.place && s.fs.place[i] == s.fs.place[j]
    ensures i == j
  {
    assert Sole(s.fs, i);
  }

  /** No step removes a captured inode, or changes a captured file, before the base has moved on. */
  lemma NothingDestroyedEarly(u: Setup, s: State, step: Step, i: Ino)
    requires Sound(u) && Inv(u, s) && Enabled(u, s, step) && Possible(u, s, step) && !s.newBase && i in u.cap.place
    ensures i in Apply(u, s, step).fs.place && i in Apply(u, s, step).fs.attr && i in s.fs.attr
    ensures u.cap.attr[i].FileAttr? ==> Apply(u, s, step).fs.attr[i] == s.fs.attr[i]
  {
    CapturedIsSafe(u, s, i);
    StepKeeps(u, s, step);
    var t := Apply(u, s, step);
    if !t.newBase {
      CapturedIsSafe(u, t, i);
    }
  }

  /**
    A rollback never moves away or removes a promoted file, though the file was recorded as what is
    installed at its path: the rollback looks there only when every promotion is restored, and then
    finds nothing.
   */
  lemma RollbackSparesPromoted(u: Setup, s: State, p: Path, i: Ino)
    requires Sound(u) && Inv(u, s) && Touches(u, s, p) && i in u.cap.place
    ensures s.rows[p].made != Some(i) && p !in u.source
  {
    if CanDropTemp(u, s, p) {
      RemovableTemp(u, s, p);
    } else if CanUnlink(u, s, p) {
      UndoneIsThere(u, s, p);
    } else {
      PutBackIsAway(u, s, p);
    }
    MadeIsNew(u, s, p);
  }

  /** A rollback may remove the inode that is recorded for the path, or move it to the trash. */
  predicate Touches(u: Setup, s: State, p: Path) {
    CanDropTemp(u, s, p) || CanUnlink(u, s, p) || (Undoing(u, s, p) && FoundThere(s, p, p))
  }

  /**
    Only the order protects it: before the promotion is restored, the inode that is recorded for the
    path is the user's, and it is what the path leads to, so the rollback would take it for its own.
   */
  lemma UnlessPutBackItWouldGo(u: Setup, s: State, i: Ino)
    requires Sound(u) && Inv(u, s) && s.phase.RollingBack? && i in s.links && !s.links[i]
    requires u.promo[i] in s.rows && s.rows[u.promo[i]].made.Some?
    ensures FoundThere(s, u.promo[i], u.promo[i]) && s.rows[u.promo[i]].made == Some(i) && i in u.cap.place
  {
    StillRecorded(u, s, i);
    var p := u.promo[i];
    assert PromoOk(u, i) && RowOk(u, s, p) && Legit(u, s, i);
    InsideIsFound(u, s, p, Leaf(p), i);
    assert Sibling(p, Leaf(p)) == p;
  }
}
