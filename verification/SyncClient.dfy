/**
  The program that applies a remote snapshot: the loops that take the steps, cut anywhere by a
  crash and carried on by calling them again. Situations the program calls ambiguous are asserted
  away, and a run that is not cut comes to its end.
 */
module SyncClient {
  import opened Wrappers
  import opened Bytes
  import opened FileSystem
  import opened SyncApply
  import opened SyncInvariant
  import opened SyncSteps
  import opened SyncInstall
  import opened SyncPaths
  import opened SyncRollback
  import opened SyncSafety
  import opened SyncFinish
  import opened SyncProgress
  import opened SyncBlocked
  import opened SyncSpoilt

  /** A source of reserved names that never repeats. */
  ghost predicate PoolOk(u: Setup, pool: nat -> Name) {
    (forall k :: u.reserved(pool(k))) && forall j, k :: pool(j) == pool(k) ==> j == k
  }

  ghost predicate Unused(pool: nat -> Name, used: nat, names: set<Name>) {
    forall k :: k >= used ==> pool(k) !in names
  }

  /** The paths of the target, every directory before what is in it. */
  ghost predicate Listing(u: Setup, order: seq<Path>) {
    && (forall p :: p in order <==> p in u.target)
    && (forall j, k :: 0 <= j < |order| && 0 <= k < |order| && order[k] != [] && Parent(order[k]) == order[j] ==> j < k)
  }

  class Client {
    const u: Setup
    const order: seq<Path>
    const pool: nat -> Name
    /** The tables, and the files as they are once the action written down is carried out. */
    var s: State
    /** The files as they are. */
    var fs: FS
    /** An action is written down and not marked completed. */
    var intent: bool
    /** The state before that action. */
    ghost var before: State
    var used: nat
    /** How many more effects reach the disk before the process is cut. */
    var fuse: nat

    constructor (u: Setup, order: seq<Path>, pool: nat -> Name, fuse: nat)
      requires Sound(u) && Listing(u, order) && PoolOk(u, pool)
      ensures this.u == u && this.order == order && this.pool == pool && Ok() && s == Initial(u) && this.fuse == fuse
    {
      this.u, this.order, this.pool, this.fuse := u, order, pool, fuse;
      s, fs, intent, before, used := Initial(u), u.cap, false, Initial(u), 0;
      new;
      InitialHolds(u);
    }

    ghost predicate Ok()
      reads this
    {
      && Sound(u) && Listing(u, order) && PoolOk(u, pool) && Inv(u, s) && Unused(pool, used, s.names.Keys)
      && (if intent then (fs == before.fs || fs == s.fs) && Inv(u, before) && before.newBase == s.newBase else fs == s.fs)
    }

    /** The process runs and no action is under way. */
    ghost predicate Idle()
      reads this
    {
      Ok() && !intent
    }

    method Tick() returns (alive: bool)
      modifies this`fuse
      ensures alive == (old(fuse) > 0) && (!alive ==> fuse == 0)
    {
      alive := fuse > 0;
      if alive {
        fuse := fuse - 1;
      }
    }

    /** Carries out the action that is written down, and marks it completed. */
    method Recover() returns (alive: bool)
      requires Ok()
      modifies this
      ensures !alive ==> fuse == 0
      ensures Ok() && s == old(s) && used == old(used) && (alive ==> !intent)
    {
      if !intent {
        return true;
      }
      alive := Tick();
      if !alive {
        return;
      }
      fs := s.fs;
      alive := Tick();
      if alive {
        intent := false;
      }
    }

    /** Takes a step: a transaction, or the intent of a file system action and then the action. */
    method Commit(next: State, journaled: bool) returns (alive: bool)
      requires Idle() && Inv(u, next) && Unused(pool, used, next.names.Keys) && (journaled ==> next.newBase == s.newBase)
      modifies this
      ensures !alive ==> fuse == 0
      ensures Ok() && used == old(used) && (s == old(s) || s == next)
      ensures alive ==> Idle() && s == next
    {
      alive := Tick();
      if !alive {
        return;
      }
      before, s := s, next;
      intent := journaled;
      if intent {
        alive := Recover();
      } else {
        fs := s.fs;
      }
    }

    // ---- applying ----

    /** A step of an application that goes on: nothing that was done is undone. */
    method Advance(next: State, journaled: bool) returns (alive: bool)
      requires Idle() && s.phase.Applying? && Inv(u, next) && Unused(pool, used, next.names.Keys) && Onward(u, s, next)
      modifies this
      ensures !alive ==> fuse == 0
      ensures Ok() && used == old(used)
      ensures alive ==> Idle() && s == next && Ahead(u, old(s), s)
    {
      OnwardIsAhead(u, s, next);
      alive := Commit(next, journaled);
    }

    method StepHide(i: Ino) returns (alive: bool)
      requires Idle() && CanHide(u, s, i)
      modifies this
      ensures !alive ==> fuse == 0
      ensures Ok() && used == old(used)
      ensures alive ==> Idle() && i in old(s).recs && i in old(s).fs.place && s == MoveTo(old(s), i, HidPlace(u, old(s), i)) && Ahead(u, old(s), s)
    {
      HideFits(u, s, i);
      HideKeeps(u, s, i);
      HideGoesOn(u, s, i);
      alive := Advance(MoveTo(s, i, HidPlace(u, s, i)), true);
    }

    method StepHidden(i: Ino) returns (alive: bool)
      requires Idle() && CanRecordHidden(u, s, i)
      modifies this
      ensures !alive ==> fuse == 0
      ensures Ok() && used == old(used)
      ensures alive ==> Idle() && i in old(s).recs && s == HiddenRecorded(old(s), i) && Ahead(u, old(s), s)
    {
      HiddenRecordedKeeps(u, s, i);
      alive := Advance(HiddenRecorded(s, i), false);
    }

    method StepMake(p: Path) returns (alive: bool)
      requires Idle() && CanMakeTemp(u, s, p)
      modifies this
      ensures !alive ==> fuse == 0
      ensures Ok() && used == old(used)
      ensures alive ==> Idle() && Installing(u, old(s), p) && old(s).rows[p].temp.Some? && s == TempMade(u, old(s), p) && Ahead(u, old(s), s)
    {
      MakeTempFits(u, s, p);
      MadeNewKeeps(u, s, p, false, false);
      MakeGoesOn(u, s, p);
      alive := Advance(TempMade(u, s, p), true);
    }

    method StepNote(p: Path) returns (alive: bool)
      requires Idle() && CanNote(u, s, p)
      modifies this
      ensures !alive ==> fuse == 0
      ensures Ok() && used == old(used)
      ensures alive ==> Idle() && Installing(u, old(s), p) && s == Noted(old(s), p) && Ahead(u, old(s), s)
    {
      NotedKeeps(u, s, p);
      alive := Advance(Noted(s, p), false);
    }

    /** The file is made again, which the row does not allow to be noted. */
    method StepLitter(p: Path) returns (alive: bool)
      requires Idle() && CanLitter(u, s, p) && s.rows[p].noted
      modifies this
      ensures !alive ==> fuse == 0
      ensures Ok() && used == old(used)
      ensures alive ==> Idle() && p in s.rows && SpoiltAt(u, s, p) && Ahead(u, old(s), s)
    {
      MakeTempFits(u, s, p);
      MadeNewKeeps(u, s, p, true, true);
      LitterGoesOn(u, s, p);
      alive := Advance(Strewn(u, s, p), false);
    }

    /** The file is made again, and then noted; a crash in between leaves it stray. */
    method StepRemake(p: Path) returns (alive: bool)
      requires Idle() && CanRemake(u, s, p)
      modifies this
      ensures !alive ==> fuse == 0
      ensures Ok() && used == old(used)
      ensures alive ==> Idle() && Installing(u, old(s), p) && old(s).rows[p].temp.Some? && s == Remade(u, old(s), p) && Ahead(u, old(s), s)
    {
      MakeTempFits(u, s, p);
      ghost var start := s;
      MadeNewKeeps(u, s, p, s.rows[p].noted, true);
      alive := Commit(Strewn(u, s, p), false);
      if alive {
        StrewnIsNoted(u, start, p);
        alive := Commit(SetRow(s, p, s.rows[p].(noted := true, stray := false)), false);
      }
      if alive {
        RemadeIsAhead(u, start, p);
      }
    }

    method StepInstall(p: Path) returns (alive: bool)
      requires Idle() && CanInstall(u, s, p)
      modifies this
      ensures !alive ==> fuse == 0
      ensures Ok() && used == old(used)
      ensures alive ==> Idle() && Ahead(u, old(s), s) && Installing(u, s, p) && Known(s, p) && InPlace(u, s, p)
    {
      InstallKeeps(u, s, p);
      InstalledInPlace(u, s, p);
      alive := Advance(AfterMadeMove(s, p, PlaceOf(u, s, p)), true);
    }

    method StepPromote(i: Ino) returns (alive: bool)
      requires Idle() && CanPromote(u, s, i)
      modifies this
      ensures !alive ==> fuse == 0
      ensures Ok() && used == old(used)
      ensures alive ==> Idle() && u.promo[i] != [] && i in old(s).fs.place && s == PromotedState(u, old(s), i) && Ahead(u, old(s), s)
    {
      PromoteKeeps(u, s, i);
      alive := Advance(PromotedState(u, s, i), true);
    }

    method StepEnroll(i: Ino) returns (alive: bool)
      requires Idle() && CanEnroll(u, s, i)
      modifies this
      ensures !alive ==> fuse == 0
      ensures Ok() && used == old(used)
      ensures alive ==> Idle() && u.promo[i] in old(s).rows && s == EnrolledState(u, old(s), i) && Ahead(u, old(s), s)
    {
      EnrolledKeeps(u, s, i);
      EnrollSpoils(u, s, i);
      alive := Advance(EnrolledState(u, s, i), false);
    }

    method StepTime(p: Path) returns (alive: bool)
      requires Idle() && CanSetTime(u, s, p)
      modifies this
      ensures !alive ==> fuse == 0
      ensures Ok() && used == old(used)
      ensures alive ==> Idle() && Installing(u, old(s), p) && old(s).rows[p].made.Some? && s == TimeSet(u, old(s), p) && Ahead(u, old(s), s)
    {
      SetTimeFits(u, s, p);
      SetAttrKeeps(u, s, TimeSet(u, s, p), p, ItemAttr(u.target[p]));
      alive := Advance(TimeSet(u, s, p), true);
    }

    method FreshReserved() returns (n: Name)
      requires Idle()
      modifies this`used
      ensures Idle() && u.reserved(n) && n !in s.names && Unused(pool, used, {n})
    {
      n := pool(used);
      used := used + 1;
    }

    /** A hidden name for each top-level entry, no two alike. */
    method ChooseNames() returns (hidden: map<Ino, Name>)
      requires Idle() && s.phase.Pending? && forall p :: p in u.target ==> p in s.rows
      modifies this`used
      ensures Idle() && CanRegister(u, s, hidden) && Unused(pool, used, hidden.Values)
    {
      hidden := map[];
      var left := set i | i in u.cap.place && Top(u, i);
      ghost var all := left;
      while left != {}
        invariant Idle() && left <= all && hidden.Keys == all - left
        invariant forall i :: i in hidden ==> FreshName(u, s, hidden[i])
        invariant forall i, j :: i in hidden && j in hidden && hidden[i] == hidden[j] ==> i == j
        invariant Unused(pool, used, hidden.Values)
        decreases |left|
      {
        var i :| i in left;
        var n := pool(used);
        used := used + 1;
        assert n !in hidden.Values;
        hidden, left := hidden[i := n], left - {i};
      }
    }

    /** The paths of the target; what is recorded already stays. */
    method SavePaths() returns (alive: bool)
      requires Idle() && s.phase.Pending?
      modifies this
      ensures !alive ==> fuse == 0
      ensures Ok() && (alive ==> Idle() && s.phase.Pending? && forall p :: p in u.target ==> p in s.rows)
    {
      RecordKeeps(u, s);
      alive := Commit(Recorded(u, s), false);
    }

    /** The plan, in one transaction. */
    method RegisterPlan() returns (alive: bool)
      requires Idle() && s.phase.Pending? && forall p :: p in u.target ==> p in s.rows
      modifies this
      ensures !alive ==> fuse == 0
      ensures Ok() && (alive ==> Idle() && s.phase.Applying? && !Spoilt(u, s))
    {
      BlankIsWhole(u, s);
      var hidden := ChooseNames();
      RegisterKeeps(u, s, hidden);
      assert forall i :: i in hidden ==> hidden[i] in hidden.Values;
      alive := Commit(Registered(u, s, hidden), false);
    }

    /** Moves every captured top-level entry to its hidden name. */
    method PrepareRecoveries() returns (alive: bool)
      requires Idle() && s.phase.Applying?
      modifies this
      ensures !alive ==> fuse == 0
      ensures Ok() && (alive ==> Idle() && s.phase.Applying? && AllHidden(s) && Spoilt(u, s) == Spoilt(u, old(s)))
    {
      var left := s.recs.Keys;
      while left != {}
        invariant Idle() && s.phase.Applying? && left <= s.recs.Keys && Spoilt(u, s) == Spoilt(u, old(s))
        invariant forall i {:trigger SetAside(s, i)} :: i in s.recs && i !in left ==> SetAside(s, i)
        decreases |left|
      {
        var i :| i in left;
        if s.recs[i].completed {
          // The program fails here when the entry is neither at its hidden name nor promoted; that cannot be.
          CompletedStands(u, s, i);
          assert i in s.links || There(s, InRoot(u, s.recs[i].hidden), i);
        } else {
          alive := HideEntry(i);
          if !alive {
            return;
          }
        }
        left := left - {i};
      }
      alive := true;
    }

    /** The program calls an entry ambiguous when both its names are taken, or neither; it is always one of them. */
    method HideEntry(i: Ino) returns (alive: bool)
      requires Idle() && s.phase.Applying? && i in s.recs && !s.recs[i].completed
      modifies this
      ensures !alive ==> fuse == 0
      ensures Ok() && (alive ==> Idle() && Ahead(u, old(s), s) && SetAside(s, i))
    {
      PrepareSides(u, s, i);
      var visible, hidden := Occupied(s.fs, InRoot(u, Visible(u, i))), Occupied(s.fs, InRoot(u, s.recs[i].hidden));
      assert visible != hidden;
      if visible {
        alive := StepHide(i);
        if !alive {
          return;
        }
      }
      ghost var middle := s;
      alive := StepHidden(i);
      if alive {
        AheadTwice(u, old(s), middle, s);
      }
    }

    method NameTempOf(p: Path) returns (alive: bool)
      requires Idle() && s.phase.Applying? && AllHidden(s) && p in u.target && p !in u.source && Turn(u, s, p) && HasDir(s, p)
      modifies this
      ensures !alive ==> fuse == 0
      ensures Ok()
      ensures alive ==> Idle() && Ahead(u, old(s), s) && Installing(u, s, p) && s.rows[p].temp.Some? && Turn(u, s, p)
    {
      assert ApplyRow(u, s, p);
      if s.rows[p].temp.None? {
        alive := StepNameTemp(p);
      } else {
        OnwardIsAhead(u, s, s);
        alive := true;
      }
    }

    method StepNameTemp(p: Path) returns (alive: bool)
      requires Idle() && Installing(u, s, p) && s.rows[p].temp.None? && Turn(u, s, p) && HasDir(s, p)
      modifies this
      ensures !alive ==> fuse == 0
      ensures Ok()
      ensures alive ==> Idle() && Ahead(u, old(s), s) && Installing(u, s, p) && s.rows[p].temp.Some?
    {
      var n := FreshReserved();
      TempNamedKeeps(u, s, p, n);
      alive := Advance(TempNamed(s, p, n), false);
    }

    /** Makes the path's inode at its temporary name, or finds it there; nothing else can be there, but it can be missing. */
    method MakeTempOf(p: Path) returns (alive: bool)
      requires Idle() && Installing(u, s, p) && s.rows[p].temp.Some? && Turn(u, s, p) && HasDir(s, p) && !Occupied(s.fs, PlaceOf(u, s, p))
      modifies this
      ensures !alive ==> fuse == 0
      ensures Ok()
      ensures alive ==> Idle() && Ahead(u, old(s), s) && Installing(u, s, p) && Turn(u, s, p) && s.rows[p].temp.Some? && DirReady(u, s, Parent(p))
      ensures alive ==> s.rows[p].made.Some? && (AtTemp(s, p) || (Lost(s, p) && !s.rows[p].stray))
    {
      DoneReady(u, s, p);
      TargetStands(u, s, p);
      ghost var start := s;
      alive := true;
      if s.rows[p].made.None? {
        alive := StepMake(p);
        if alive {
          MadeNewDir(u, start, p);
        }
      } else {
        OnwardIsAhead(u, s, s);
      }
    }

    /** The directory is opened at its temporary name. */
    method OpenTempDirectory(p: Path) returns (alive: bool, stuck: bool)
      requires Idle() && Installing(u, s, p) && s.rows[p].temp.Some? && s.rows[p].made.Some? && u.target[p].ItemDir?
      requires AtTemp(s, p) || (Lost(s, p) && !s.rows[p].stray)
      modifies this
      ensures !alive ==> fuse == 0
      ensures Ok()
      ensures alive ==> Idle() && Ahead(u, old(s), s)
      ensures alive ==> if stuck then SpoiltAt(u, s, p) else CanInstall(u, s, p)
    {
      OnwardIsAhead(u, s, s);
      assert ApplyRow(u, s, p);
      alive, stuck := true, Lost(s, p);
      if !stuck && !s.rows[p].noted {
        alive := StepNote(p);
      }
      if alive && !stuck {
        InstallingMade(u, s, p);
      }
    }

    /** The file is opened at its temporary name, or made again if it is not there. */
    method OpenTempFile(p: Path) returns (alive: bool, stuck: bool)
      requires Idle() && Installing(u, s, p) && s.rows[p].temp.Some? && Turn(u, s, p) && DirReady(u, s, Parent(p)) && s.rows[p].made.Some?
      requires u.target[p].ItemFile? && (AtTemp(s, p) || (Lost(s, p) && !s.rows[p].stray))
      modifies this
      ensures !alive ==> fuse == 0
      ensures Ok()
      ensures alive ==> Idle() && Ahead(u, old(s), s)
      ensures alive ==> if stuck then SpoiltAt(u, s, p) else CanWrite(u, s, p) && MadeAs(u, s, p)
    {
      alive, stuck := true, false;
      if !Lost(s, p) {
        alive, stuck := OpenPresent(p);
      } else if s.rows[p].noted {
        alive := StepLitter(p);
        stuck := true;
      } else {
        alive := RemakeFile(p);
      }
    }

    method RemakeFile(p: Path) returns (alive: bool)
      requires Idle() && CanRemake(u, s, p)
      modifies this
      ensures !alive ==> fuse == 0
      ensures Ok()
      ensures alive ==> Idle() && Ahead(u, old(s), s) && CanWrite(u, s, p) && MadeAs(u, s, p)
    {
      ghost var start := s;
      alive := StepRemake(p);
      if alive {
        RemadeReady(u, start, p);
        InstallingMade(u, s, p);
      }
    }

    /** What is there is compared with the noted inode, or with that of the journal, and then noted. */
    method OpenPresent(p: Path) returns (alive: bool, stuck: bool)
      requires Idle() && Installing(u, s, p) && Turn(u, s, p) && AtTemp(s, p) && u.target[p].ItemFile?
      modifies this
      ensures !alive ==> fuse == 0
      ensures Ok()
      ensures alive ==> Idle() && Ahead(u, old(s), s)
      ensures alive ==> if stuck then SpoiltAt(u, s, p) else CanWrite(u, s, p) && MadeAs(u, s, p)
    {
      OnwardIsAhead(u, s, s);
      alive, stuck := true, s.rows[p].stray;
      if !stuck && !s.rows[p].noted {
        alive := StepNote(p);
      }
      if alive && !stuck {
        InstallingMade(u, s, p);
      }
    }

    /** A directory of the target: made at a temporary name, then renamed into place. */
    method InstallDirectory(p: Path) returns (alive: bool, stuck: bool)
      requires Idle() && s.phase.Applying? && AllHidden(s) && p in u.target && u.target[p].ItemDir? && HasDir(s, p)
      modifies this
      ensures !alive ==> fuse == 0
      ensures Ok() && (alive ==> Idle() && Ahead(u, old(s), s) && if stuck then Spoilt(u, s) else Done(s, p))
    {
      stuck := false;
      DirNotSource(u, p);
      alive := NameTempOf(p);
      if !alive {
        return;
      }
      DoneReady(u, s, p);
      TargetStands(u, s, p);
      if !Occupied(s.fs, PlaceOf(u, s, p)) {
        alive, stuck := PlaceDirectory(p, old(s));
        if !alive || stuck {
          return;
        }
      }
      alive := RecordInstalled(p, old(s));
    }

    method PlaceDirectory(p: Path, ghost start: State) returns (alive: bool, stuck: bool)
      requires Idle() && Installing(u, s, p) && s.rows[p].temp.Some? && u.target[p].ItemDir? && HasDir(s, p) && !Occupied(s.fs, PlaceOf(u, s, p))
      requires Ahead(u, start, s)
      modifies this
      ensures !alive ==> fuse == 0
      ensures Ok() && (alive ==> Idle() && Ahead(u, start, s))
      ensures alive ==> if stuck then Spoilt(u, s) else Installing(u, s, p) && Known(s, p) && InPlace(u, s, p)
    {
      stuck := false;
      ghost var named := s;
      alive := MakeTempOf(p);
      if !alive {
        return;
      }
      AheadTwice(u, start, named, s);
      ghost var made := s;
      alive, stuck := OpenTempDirectory(p);
      if !alive {
        return;
      }
      AheadTwice(u, start, made, s);
      if !stuck {
        ghost var found := s;
        alive := StepInstall(p);
        if alive {
          AheadTwice(u, start, found, s);
        }
      }
    }

    method RecordInstalled(p: Path, ghost start: State) returns (alive: bool)
      requires Idle() && Installing(u, s, p) && Known(s, p) && InPlace(u, s, p) && Ahead(u, start, s)
      modifies this
      ensures !alive ==> fuse == 0
      ensures Ok() && (alive ==> Idle() && Ahead(u, start, s) && Done(s, p))
    {
      ghost var placed := s;
      InstalledRecordedKeeps(u, s, p);
      alive := Advance(InstalledRecorded(s, p), false);
      if alive {
        AheadTwice(u, start, placed, s);
      }
    }

    /** All directories of the target, parents first. */
    method MaterializeDirectories() returns (alive: bool, stuck: bool)
      requires Idle() && s.phase.Applying? && AllHidden(s)
      modifies this
      ensures !alive ==> fuse == 0
      ensures Ok() && (alive ==> Idle() && s.phase.Applying? && AllHidden(s) && Spoilt(u, s) == Spoilt(u, old(s)))
      ensures alive ==> if stuck then Spoilt(u, s) else DirsReady(u, s)
    {
      var k := 0;
      while k < |order|
        invariant 0 <= k <= |order| && Idle() && s.phase.Applying? && AllHidden(s) && Spoilt(u, s) == Spoilt(u, old(s))
        invariant forall j :: 0 <= j < k && IsDirItem(u, order[j]) ==> Done(s, order[j])
      {
        alive, stuck := InstallDirectoryAt(k);
        if !alive || stuck {
          return;
        }
        k := k + 1;
      }
      ListedDirsDone(u, s, order);
      alive, stuck := true, false;
    }

    method InstallDirectoryAt(k: nat) returns (alive: bool, stuck: bool)
      requires Idle() && s.phase.Applying? && AllHidden(s) && k < |order|
      requires forall j :: 0 <= j < k && IsDirItem(u, order[j]) ==> Done(s, order[j])
      modifies this
      ensures !alive ==> fuse == 0
      ensures Ok() && (alive ==> Idle() && s.phase.Applying? && AllHidden(s) && Spoilt(u, s) == Spoilt(u, old(s)))
      ensures alive && stuck ==> Spoilt(u, s)
      ensures alive && !stuck ==> forall j :: 0 <= j <= k && IsDirItem(u, order[j]) ==> Done(s, order[j])
    {
      alive, stuck := true, false;
      ListingParent(u, order, k);
      if u.target[order[k]].ItemDir? {
        ghost var start := s;
        alive, stuck := InstallDirectory(order[k]);
        if alive {
          assert forall j :: 0 <= j < k && IsDirItem(u, order[j]) ==> Done(start, order[j]);
        }
      }
    }

    /** Captured files that the target keeps under another path move there, and are recorded as installed. */
    method PromoteFiles() returns (alive: bool)
      requires Idle() && s.phase.Applying? && AllHidden(s) && DirsReady(u, s)
      modifies this
      ensures !alive ==> fuse == 0
      ensures Ok() && (alive ==> Idle() && s.phase.Applying? && AllHidden(s) && DirsReady(u, s) && Enrolled(u, s) && Spoilt(u, s) == Spoilt(u, old(s)))
    {
      var left := u.promo.Keys;
      while left != {}
        invariant Idle() && s.phase.Applying? && AllHidden(s) && DirsReady(u, s) && left <= u.promo.Keys && Spoilt(u, s) == Spoilt(u, old(s))
        invariant forall i {:trigger u.promo[i]} :: i in u.promo && i !in left ==> Done(s, u.promo[i])
        decreases |left|
      {
        var i :| i in left;
        ghost var start := s;
        alive := PromoteFile(i);
        if !alive {
          return;
        }
        forall j | j in u.promo && j !in left
          ensures Done(s, u.promo[j])
        {
          assert Done(start, u.promo[j]);
        }
        left := left - {i};
      }
      alive := true;
    }

    method PromoteFile(i: Ino) returns (alive: bool)
      requires Idle() && s.phase.Applying? && AllHidden(s) && DirsReady(u, s) && i in u.promo
      modifies this
      ensures !alive ==> fuse == 0
      ensures Ok() && (alive ==> Idle() && Ahead(u, old(s), s) && Done(s, u.promo[i]))
    {
      PromotionStands(u, s, i);
      assert PromoOk(u, i);
      if Holds(s.fs, HomeOf(u, s, i), i) {
        alive := StepPromote(i);
        if !alive {
          return;
        }
      }
      ghost var promoted := s;
      assert ApplyRow(u, s, u.promo[i]);
      alive := StepEnroll(i);
      if alive {
        AheadTwice(u, old(s), promoted, s);
      }
    }

    /** A file of the target: made, written and dated at a temporary name, then renamed into place. */
    method InstallFile(p: Path) returns (alive: bool, stuck: bool)
      requires Idle() && s.phase.Applying? && AllHidden(s) && DirsReady(u, s) && Enrolled(u, s)
      requires p in u.target && u.target[p].ItemFile? && p !in u.source && HasDir(s, p)
      modifies this
      ensures !alive ==> fuse == 0
      ensures Ok() && (alive ==> Idle() && Ahead(u, old(s), s) && if stuck then Spoilt(u, s) else Done(s, p))
    {
      stuck := false;
      alive := NameTempOf(p);
      if !alive {
        return;
      }
      DoneReady(u, s, p);
      TargetStands(u, s, p);
      if !Occupied(s.fs, PlaceOf(u, s, p)) {
        alive, stuck := PlaceFile(p, old(s));
        if !alive || stuck {
          return;
        }
      }
      alive := RecordInstalled(p, old(s));
    }

    method PlaceFile(p: Path, ghost start: State) returns (alive: bool, stuck: bool)
      requires Idle() && Installing(u, s, p) && s.rows[p].temp.Some? && Turn(u, s, p) && u.target[p].ItemFile? && HasDir(s, p)
      requires !Occupied(s.fs, PlaceOf(u, s, p)) && Ahead(u, start, s)
      modifies this
      ensures !alive ==> fuse == 0
      ensures Ok() && (alive ==> Idle() && Ahead(u, start, s))
      ensures alive ==> if stuck then Spoilt(u, s) else Installing(u, s, p) && Known(s, p) && InPlace(u, s, p)
    {
      stuck := false;
      ghost var named := s;
      alive := MakeTempOf(p);
      if !alive {
        return;
      }
      AheadTwice(u, start, named, s);
      ghost var made := s;
      alive, stuck := OpenTempFile(p);
      if !alive {
        return;
      }
      AheadTwice(u, start, made, s);
      if !stuck {
        ghost var found := s;
        alive := FillAndInstall(p);
        if alive {
          AheadTwice(u, start, found, s);
        }
      }
    }

    /** The temporary file is written anew each time, whatever it held before. */
    method FillAndInstall(p: Path) returns (alive: bool)
      requires Idle() && CanWrite(u, s, p) && MadeAs(u, s, p)
      modifies this
      ensures !alive ==> fuse == 0
      ensures Ok() && (alive ==> Idle() && Ahead(u, old(s), s) && Installing(u, s, p) && Known(s, p) && InPlace(u, s, p))
    {
      alive := FillFile(p);
      if !alive {
        return;
      }
      ghost var dated := s;
      alive := StepInstall(p);
      if alive {
        AheadTwice(u, old(s), dated, s);
      }
    }

    /** Contents first, then the time. */
    method FillFile(p: Path) returns (alive: bool)
      requires Idle() && CanWrite(u, s, p) && MadeAs(u, s, p)
      modifies this
      ensures !alive ==> fuse == 0
      ensures Ok() && (alive ==> Idle() && Ahead(u, old(s), s) && CanInstall(u, s, p))
    {
      alive := StepWrite(p);
      if !alive {
        return;
      }
      ghost var written := s;
      alive := StepTime(p);
      if alive {
        AheadTwice(u, old(s), written, s);
      }
    }

    method StepWrite(p: Path) returns (alive: bool)
      requires Idle() && CanWrite(u, s, p) && MadeAs(u, s, p)
      modifies this
      ensures !alive ==> fuse == 0
      ensures Ok() && (alive ==> Idle() && Ahead(u, old(s), s) && CanSetTime(u, s, p) && AtTemp(s, p))
    {
      var content := u.target[p].content;
      SetAttrKeeps(u, s, Written(s, p, content), p, FileAttr(content, None));
      alive := Advance(Written(s, p, content), false);
    }

    /** All files of the target that were not promoted. */
    method MaterializeFiles() returns (alive: bool, stuck: bool)
      requires Idle() && s.phase.Applying? && AllHidden(s) && DirsReady(u, s) && Enrolled(u, s)
      modifies this
      ensures !alive ==> fuse == 0
      ensures Ok() && (alive ==> Idle() && s.phase.Applying? && Spoilt(u, s) == Spoilt(u, old(s)) && if stuck then Spoilt(u, s) else AllInstalled(u, s))
    {
      var k := 0;
      while k < |order|
        invariant 0 <= k <= |order| && Idle() && s.phase.Applying? && AllHidden(s) && DirsReady(u, s) && Enrolled(u, s)
        invariant Spoilt(u, s) == Spoilt(u, old(s))
        invariant forall j :: 0 <= j < k && order[j] in u.target && u.target[order[j]].ItemFile? ==> Done(s, order[j])
      {
        alive, stuck := InstallFileAt(k);
        if !alive || stuck {
          return;
        }
        k := k + 1;
      }
      ListedFilesDone(u, s, order);
      alive, stuck := true, false;
    }

    method InstallFileAt(k: nat) returns (alive: bool, stuck: bool)
      requires Idle() && s.phase.Applying? && AllHidden(s) && DirsReady(u, s) && Enrolled(u, s) && k < |order|
      requires forall j :: 0 <= j < k && order[j] in u.target && u.target[order[j]].ItemFile? ==> Done(s, order[j])
      modifies this
      ensures !alive ==> fuse == 0
      ensures Ok() && (alive ==> Idle() && s.phase.Applying? && AllHidden(s) && DirsReady(u, s) && Enrolled(u, s) && Spoilt(u, s) == Spoilt(u, old(s)))
      ensures alive && stuck ==> Spoilt(u, s)
      ensures alive && !stuck ==> forall j :: 0 <= j <= k && order[j] in u.target && u.target[order[j]].ItemFile? ==> Done(s, order[j])
    {
      alive, stuck := true, false;
      ListingParent(u, order, k);
      if u.target[order[k]].ItemFile? {
        ghost var start := s;
        alive, stuck := EnsureFile(k);
        if alive {
          assert forall j :: 0 <= j < k && order[j] in u.target && u.target[order[j]].ItemFile? ==> Done(start, order[j]);
        }
      }
    }

    /** A promoted file is there already; any other is installed. */
    method EnsureFile(k: nat) returns (alive: bool, stuck: bool)
      requires Idle() && s.phase.Applying? && AllHidden(s) && DirsReady(u, s) && Enrolled(u, s) && k < |order|
      requires order[k] in u.target && u.target[order[k]].ItemFile?
      modifies this
      ensures !alive ==> fuse == 0
      ensures Ok() && (alive ==> Idle() && Ahead(u, old(s), s) && if stuck then Spoilt(u, s) else Done(s, order[k]))
    {
      var p := order[k];
      ListingParent(u, order, k);
      assert Parent(p) != [] ==> Done(s, Parent(p));
      if p in u.source {
        assert SourceOk(u, p) && Done(s, u.promo[u.source[p]]);
        assert Ahead(u, s, s);
        alive, stuck := true, false;
      } else {
        alive, stuck := InstallFile(p);
      }
    }

    /** The directories get their times, children before parents, when nothing changes in them any more. */
    method SetTimes() returns (alive: bool)
      requires Idle() && AllInstalled(u, s)
      modifies this
      ensures !alive ==> fuse == 0
      ensures Ok() && (alive ==> Idle() && AllInstalled(u, s) && TimesRight(u, s))
    {
      var k := |order|;
      while k > 0
        invariant 0 <= k <= |order| && Idle() && AllInstalled(u, s)
        invariant forall j :: k <= j < |order| && IsDirItem(u, order[j]) ==> TimeRight(u, s, order[j])
      {
        k := k - 1;
        var p := order[k];
        if u.target[p].ItemDir? {
          ghost var start := s;
          alive := SetDirTime(p);
          if !alive {
            return;
          }
          forall j | k <= j < |order| && IsDirItem(u, order[j])
            ensures TimeRight(u, s, order[j])
          {
            if order[j] != p {
              assert TimeRight(u, start, order[j]);
            }
          }
        }
      }
      forall p | p in u.target && u.target[p].ItemDir?
        ensures TimeRight(u, s, p)
      {
        assert p in order;
      }
      alive := true;
    }

    method SetDirTime(p: Path) returns (alive: bool)
      requires Idle() && AllInstalled(u, s) && p in u.target && u.target[p].ItemDir?
      modifies this
      ensures !alive ==> fuse == 0
      ensures Ok() && (alive ==> Idle() && AllInstalled(u, s) && TimeRight(u, s, p) && forall q :: q != p && TimeRight(u, old(s), q) ==> TimeRight(u, s, q))
    {
      DirNotSource(u, p);
      assert Done(s, p) && ApplyRow(u, s, p) && RowOk(u, s, p);
      alive := StepTime(p);
      if alive {
        InstalledStays(u, old(s), s);
        TimesStay(u, old(s), s, p);
      }
    }

    /** The whole application, from wherever it stands: to the new base, unless it is spoilt. */
    method ApplyTarget() returns (alive: bool, stuck: bool)
      requires Idle() && s.phase.Applying?
      modifies this
      ensures !alive ==> fuse == 0
      ensures Ok()
      ensures alive ==> Idle() && stuck == Spoilt(u, old(s)) && if stuck then s.phase.Applying? && Spoilt(u, s) else s.phase.Finalized?
      ensures alive && !stuck ==> fs == s.fs && TargetShown(fs, u.target)
    {
      stuck := false;
      alive := PrepareRecoveries();
      if alive {
        alive, stuck := InstallAll();
      }
      if alive && !stuck {
        InstalledIsWhole(u, s);
        alive := SetTimes();
        if alive {
          // The program compares the worktree with the target here; it always finds the target.
          ScanSucceeds(u, s);
          FinalizeKeeps(u, s);
          alive := Commit(FinalizedState(s), false);
          if alive {
            TreeIsShown(u, s);
          }
        }
      }
    }

    /** Directories, promoted files and all other files. */
    method InstallAll() returns (alive: bool, stuck: bool)
      requires Idle() && s.phase.Applying? && AllHidden(s)
      modifies this
      ensures !alive ==> fuse == 0
      ensures Ok() && (alive ==> Idle() && s.phase.Applying? && Spoilt(u, s) == Spoilt(u, old(s)) && if stuck then Spoilt(u, s) else AllInstalled(u, s))
    {
      alive, stuck := MaterializeDirectories();
      if alive && !stuck {
        alive := PromoteFiles();
        if alive {
          alive, stuck := MaterializeFiles();
        }
      }
    }

    // ---- cleaning up ----

    /** Removes what was moved aside, entry by entry. */
    method CleanUp() returns (alive: bool)
      requires Idle() && s.phase.Finalized?
      modifies this
      ensures !alive ==> fuse == 0
      ensures Ok() && (alive ==> Idle() && s.phase.Over? && s.newBase)
    {
      while s.recs.Keys != {}
        invariant Idle() && s.phase.Finalized?
        decreases |s.recs.Keys|
      {
        var i :| i in s.recs.Keys;
        alive := CleanEntry(i);
        if !alive {
          return;
        }
      }
      assert s.recs == map[];
      assert s.newBase;
      FinishKeeps(u, s);
      alive := Commit(s.(phase := Over), false);
    }

    method CleanEntry(i: Ino) returns (alive: bool)
      requires Idle() && s.phase.Finalized? && i in s.recs
      modifies this
      ensures !alive ==> fuse == 0
      ensures Ok() && (alive ==> Idle() && s.phase.Finalized? && s.recs.Keys == old(s).recs.Keys - {i})
    {
      alive := true;
      if s.recs[i].tomb.None? {
        alive := StepNameTomb(i);
      }
      if alive {
        alive := RemoveEntry(i);
      }
      if alive {
        alive := StepConsume(i);
      }
    }

    method StepNameTomb(i: Ino) returns (alive: bool)
      requires Idle() && s.phase.Finalized? && i in s.recs && s.recs[i].tomb.None?
      modifies this
      ensures !alive ==> fuse == 0
      ensures Ok() && (alive ==> Idle() && s.phase.Finalized? && i in s.recs && s.recs[i].tomb.Some? && s.recs.Keys == old(s).recs.Keys)
    {
      var n := FreshReserved();
      TombNamedKeeps(u, s, i, n);
      alive := Commit(TombNamed(s, i, n), false);
    }

    method StepConsume(i: Ino) returns (alive: bool)
      requires Idle() && CanConsume(u, s, i)
      modifies this
      ensures !alive ==> fuse == 0
      ensures Ok() && (alive ==> Idle() && s.phase.Finalized? && s.recs.Keys == old(s).recs.Keys - {i})
    {
      ConsumeKeeps(u, s, i);
      alive := Commit(WithoutRec(s, i), false);
    }

    /** The program calls an entry ambiguous when both its names are taken; they never are. */
    method RemoveEntry(i: Ino) returns (alive: bool)
      requires Idle() && s.phase.Finalized? && i in s.recs && s.recs[i].tomb.Some?
      modifies this
      ensures !alive ==> fuse == 0
      ensures Ok() && (alive ==> Idle() && s.phase.Finalized? && s.recs == old(s).recs && (i in u.promo || i !in s.fs.place))
    {
      CleanSides(u, s, i);
      var hidden, tomb := Occupied(s.fs, InRoot(u, s.recs[i].hidden)), Occupied(s.fs, InRoot(u, s.recs[i].tomb.value));
      assert !(hidden && tomb);
      alive := true;
      if hidden {
        TrashKeeps(u, s, i);
        alive := Commit(MoveTo(s, i, InRoot(u, s.recs[i].tomb.value)), true);
      }
      if alive && (hidden || tomb) {
        alive := EraseEntry(i);
      }
    }

    method EraseEntry(i: Ino) returns (alive: bool)
      requires Idle() && CanErase(u, s, i)
      modifies this
      ensures !alive ==> fuse == 0
      ensures Ok() && (alive ==> Idle() && s.phase.Finalized? && s.recs == old(s).recs && i !in s.fs.place)
    {
      assert RecOk(u, s, i) && AreaOk(u, i);
      assert i in AreaOf(u, s, i);
      EraseKeeps(u, s, i);
      alive := Commit(Erased(u, s, i), true);
    }

    // ---- rolling back ----

    /** Promoted files go back first, so that what is removed later is never one of them. */
    method RestorePromotions() returns (alive: bool)
      requires Idle() && Backing(s)
      modifies this
      ensures !alive ==> fuse == 0
      ensures Ok() && (alive ==> Idle() && s.phase == old(s).phase && Restored(s) && Blocked(u, s) == Blocked(u, old(s)))
    {
      var left := s.links.Keys;
      while left != {}
        invariant Idle() && s.phase == old(s).phase && left <= s.links.Keys && Blocked(u, s) == Blocked(u, old(s))
        invariant forall i :: i in s.links && i !in left ==> s.links[i]
        decreases |left|
      {
        var i :| i in left;
        alive := RestoreOne(i);
        if !alive {
          return;
        }
        left := left - {i};
      }
      alive := true;
    }

    method RestoreOne(i: Ino) returns (alive: bool)
      requires Idle() && s.phase.RollingBack? && i in s.links
      modifies this
      ensures !alive ==> fuse == 0
      ensures Ok() && (alive ==> Idle() && s.phase.RollingBack? && s.links == old(s).links[i := true] && Blocked(u, s) == Blocked(u, old(s)))
    {
      alive := true;
      if !s.links[i] {
        alive := StepRestore(i);
      } else {
        assert s.links == s.links[i := true];
      }
    }

    method StepRestore(i: Ino) returns (alive: bool)
      requires Idle() && s.phase.RollingBack? && i in s.links && !s.links[i]
      modifies this
      ensures !alive ==> fuse == 0
      ensures Ok() && (alive ==> Idle() && s.phase.RollingBack? && s.links == old(s).links[i := true] && Blocked(u, s) == Blocked(u, old(s)))
    {
      StillRecorded(u, s, i);
      RestoreKeeps(u, s, i);
      RestoreSame(u, s, i);
      alive := Commit(RestoredState(u, s, i), true);
    }

    /**
      A target path with nothing below it any more is removed and forgotten. The rollback stops at a
      path where something is visible but no inode was recorded.
     */
    method UndoPath(p: Path) returns (alive: bool, stuck: bool)
      requires Idle() && Backing(s) && Restored(s) && p in s.rows && Childless(s, p)
      modifies this
      ensures !alive ==> fuse == 0
      ensures Ok()
      ensures alive ==> Idle() && s.phase == old(s).phase && Restored(s) && Blocked(u, s) == Blocked(u, old(s))
      ensures alive && stuck ==> s == old(s) && Stuck(u, s, p) && Blocked(u, s)
      ensures alive && !stuck ==> s.rows.Keys == old(s).rows.Keys - {p}
    {
      assert RowOk(u, s, p) && TargetOk(u, p);
      alive, stuck := NameIfSeen(p);
      if alive && !stuck {
        alive := RemoveAndForget(p);
      }
    }

    method NameIfSeen(p: Path) returns (alive: bool, stuck: bool)
      requires Idle() && Undoing(u, s, p) && Childless(s, p)
      modifies this
      ensures !alive ==> fuse == 0
      ensures Ok()
      ensures alive ==> Idle() && Undoing(u, s, p) && s.phase == old(s).phase && Childless(s, p) && s.rows.Keys == old(s).rows.Keys && Blocked(u, s) == Blocked(u, old(s))
      ensures alive ==> if stuck then s == old(s) && Stuck(u, s, p) && Blocked(u, s) else s.rows[p].undo.Some? || (!Seen(s.fs, p) && !Barred(s.fs, p))
    {
      alive, stuck := true, false;
      if Barred(s.fs, p) {
        StuckIsBlocked(u, s, p);
        stuck := true;
      } else if s.rows[p].undo.None? && Seen(s.fs, p) {
        if s.rows[p].made.None? || !s.rows[p].noted {
          StuckIsBlocked(u, s, p);
          stuck := true;
        } else {
          // The program compares what is there with the recorded identity; with promotions restored they agree.
          SeenIsOwn(u, s, p);
          MadeIsClear(u, s, p);
          alive := NameUndoOf(p);
          if alive {
            HiddenIsClear(u, s);
          }
        }
      }
    }

    method RemoveAndForget(p: Path) returns (alive: bool)
      requires Idle() && Undoing(u, s, p) && Childless(s, p) && (s.rows[p].undo.Some? || (!Seen(s.fs, p) && !Barred(s.fs, p)))
      modifies this
      ensures !alive ==> fuse == 0
      ensures Ok()
      ensures alive ==> Idle() && s.phase == old(s).phase && Restored(s) && s.rows.Keys == old(s).rows.Keys - {p}
                        && Blocked(u, s) == Blocked(u, old(s))
    {
      alive := true;
      if s.rows[p].undo.Some? {
        OneUndoSide(u, s, p);
        alive := RemoveClear(p);
      }
      if alive {
        alive := StepForget(p);
      }
    }

    method StepForget(p: Path) returns (alive: bool)
      requires Idle() && CanForget(u, s, p)
      modifies this
      ensures !alive ==> fuse == 0
      ensures Ok() && (alive ==> Idle() && p in old(s).rows && s == WithoutRow(old(s), p) && Blocked(u, s) == Blocked(u, old(s)))
    {
      ForgetKeeps(u, s, p);
      ForgetSame(u, s, p);
      alive := Commit(WithoutRow(s, p), false);
    }

    method NameUndoOf(p: Path) returns (alive: bool)
      requires Idle() && Undoing(u, s, p) && s.rows[p].undo.None? && s.rows[p].noted && FoundThere(s, p, p) && Childless(s, p)
      modifies this
      ensures !alive ==> fuse == 0
      ensures Ok()
      ensures alive ==> Idle() && Undoing(u, s, p) && s.phase == old(s).phase && s.rows[p].undo.Some? && Childless(s, p) && s.rows.Keys == old(s).rows.Keys
                        && AllHidden(s)
    {
      var n := FreshReserved();
      MadeIsClear(u, s, p);
      ghost var start := s;
      UndoNamedKeeps(u, s, p, n);
      alive := Commit(UndoNamed(s, p, n), false);
      if alive {
        HiddenSame(start, s);
      }
    }

    method RemoveClear(p: Path) returns (alive: bool)
      requires Idle() && Undoing(u, s, p) && Childless(s, p) && s.rows[p].undo.Some? && s.rows[p].made.Some?
      modifies this
      ensures !alive ==> fuse == 0
      ensures Ok()
      ensures alive ==> Idle() && CanForget(u, s, p) && s.phase == old(s).phase && s.rows == old(s).rows && !Blocked(u, s) && !Blocked(u, old(s))
    {
      ghost var start := s;
      MadeIsClear(u, s, p);
      alive := RemoveInstalled(p);
      if alive {
        HiddenSame(start, s);
        HiddenIsClear(u, s);
      }
    }

    /** The program calls a path ambiguous when its name and its undo name are both taken; they never are. */
    method RemoveInstalled(p: Path) returns (alive: bool)
      requires Idle() && Undoing(u, s, p) && Childless(s, p) && s.rows[p].undo.Some?
      modifies this
      ensures !alive ==> fuse == 0
      ensures Ok()
      ensures alive ==> Idle() && CanForget(u, s, p) && s.phase == old(s).phase && s.rows == old(s).rows && s.recs == old(s).recs
    {
      OneUndoSide(u, s, p);
      var visible, undone := Seen(s.fs, p), Seen(s.fs, Sibling(p, s.rows[p].undo.value));
      assert !(visible && undone);
      alive := true;
      if visible {
        SeenIsOwn(u, s, p);
        alive := StepUndo(p);
      }
      if alive && (visible || undone) {
        alive := StepUnlink(p);
      } else if alive {
        MadeIsBack(u, s, p);
        NotBarred(u, s, p);
      }
    }

    method StepUndo(p: Path) returns (alive: bool)
      requires Idle() && CanUndo(u, s, p)
      modifies this
      ensures !alive ==> fuse == 0
      ensures Ok()
      ensures alive ==> Idle() && Undoing(u, s, p) && s.phase == old(s).phase && Childless(s, p) && s.rows == old(s).rows && s.recs == old(s).recs
                        && s.rows[p].undo.Some? && Seen(s.fs, Sibling(p, s.rows[p].undo.value))
    {
      UndoKeeps(u, s, p);
      ghost var start := s;
      alive := Commit(AfterMadeMove(s, p, UndoPlace(u, s, p)), true);
      if alive {
        UndoneIsFound(u, start, p);
      }
    }

    method StepUnlink(p: Path) returns (alive: bool)
      requires Idle() && Undoing(u, s, p) && Childless(s, p) && s.rows[p].undo.Some? && Seen(s.fs, Sibling(p, s.rows[p].undo.value))
      modifies this
      ensures !alive ==> fuse == 0
      ensures Ok()
      ensures alive ==> Idle() && CanForget(u, s, p) && s.phase == old(s).phase && s.rows == old(s).rows && s.recs == old(s).recs
    {
      UndoneIsOwn(u, s, p);
      UnlinkKeeps(u, s, p);
      alive := Commit(WithoutMade(s, p), true);
      if alive {
        GoneIsUnseen(u, s, p);
        MadeIsBack(u, s, p);
        NotBarred(u, s, p);
      }
    }

    /** Files first, then directories, children before parents. */
    method UndoInstalled() returns (alive: bool, stuck: bool)
      requires Idle() && Backing(s) && Restored(s)
      modifies this
      ensures !alive ==> fuse == 0
      ensures Ok()
      ensures alive ==> Idle() && s.phase == old(s).phase && stuck == Blocked(u, old(s)) && (if stuck then Blocked(u, s) else Undid(s))
    {
      alive, stuck := UndoFiles();
      if alive && !stuck {
        alive, stuck := UndoDirectories();
      }
    }

    method UndoFiles() returns (alive: bool, stuck: bool)
      requires Idle() && Backing(s) && Restored(s)
      modifies this
      ensures !alive ==> fuse == 0
      ensures Ok()
      ensures alive ==> Idle() && s.phase == old(s).phase && Restored(s) && Blocked(u, s) == Blocked(u, old(s))
      ensures alive ==> if stuck then Blocked(u, s) else NoFileRows(u, s)
    {
      var k := 0;
      while k < |order|
        invariant 0 <= k <= |order| && Idle() && s.phase == old(s).phase && Restored(s) && Blocked(u, s) == Blocked(u, old(s))
        invariant forall j :: 0 <= j < k ==> !FileRow(u, s, order[j])
      {
        alive, stuck := UndoFileAt(k);
        if !alive || stuck {
          return;
        }
        k := k + 1;
      }
      forall p: Path
        ensures !FileRow(u, s, p)
      {
        assert p in u.target ==> p in order;
      }
      alive, stuck := true, false;
    }

    method UndoFileAt(k: nat) returns (alive: bool, stuck: bool)
      requires Idle() && Backing(s) && Restored(s) && k < |order|
      modifies this
      ensures !alive ==> fuse == 0
      ensures Ok()
      ensures alive ==> Idle() && s.phase == old(s).phase && Restored(s) && Blocked(u, s) == Blocked(u, old(s))
      ensures alive ==> if stuck then Blocked(u, s) else !FileRow(u, s, order[k]) && s.rows.Keys <= old(s).rows.Keys
    {
      alive, stuck := true, false;
      if FileRow(u, s, order[k]) {
        FileChildless(u, s, order[k]);
        alive, stuck := UndoPath(order[k]);
      }
    }

    method UndoDirectories() returns (alive: bool, stuck: bool)
      requires Idle() && Backing(s) && Restored(s) && NoFileRows(u, s)
      modifies this
      ensures !alive ==> fuse == 0
      ensures Ok()
      ensures alive ==> Idle() && s.phase == old(s).phase && stuck == Blocked(u, old(s)) && (if stuck then Blocked(u, s) else Undid(s))
    {
      var k := |order|;
      while k > 0
        invariant 0 <= k <= |order| && Idle() && s.phase == old(s).phase && Restored(s) && Blocked(u, s) == Blocked(u, old(s))
        invariant forall j :: k <= j < |order| ==> order[j] !in s.rows
      {
        k := k - 1;
        alive, stuck := UndoDirectoryAt(k);
        if !alive || stuck {
          return;
        }
      }
      NoRowsLeft(u, s, order);
      alive, stuck := true, false;
    }

    method UndoDirectoryAt(k: nat) returns (alive: bool, stuck: bool)
      requires Idle() && Backing(s) && Restored(s) && k < |order|
      requires forall j :: k < j < |order| ==> order[j] !in s.rows
      modifies this
      ensures !alive ==> fuse == 0
      ensures Ok()
      ensures alive ==> Idle() && s.phase == old(s).phase && Restored(s) && Blocked(u, s) == Blocked(u, old(s)) && (stuck ==> Blocked(u, s))
      ensures alive && !stuck ==> forall j :: k <= j < |order| ==> order[j] !in s.rows
    {
      alive, stuck := true, false;
      if order[k] in s.rows {
        DirChildless(u, s, order, k);
        alive, stuck := UndoPath(order[k]);
      }
    }

    /** Captured entries go back to their visible names. */
    method RestoreRecoveries() returns (alive: bool)
      requires Idle() && Undid(s)
      modifies this
      ensures !alive ==> fuse == 0
      ensures Ok() && (alive ==> Idle() && Undid(s) && s.phase == old(s).phase && s.recs == map[])
    {
      while s.recs.Keys != {}
        invariant Idle() && Undid(s) && s.phase == old(s).phase
        decreases |s.recs.Keys|
      {
        var i :| i in s.recs.Keys;
        alive := RestoreEntry(i);
        if !alive {
          return;
        }
      }
      assert s.recs == map[];
      alive := true;
    }

    method RestoreEntry(i: Ino) returns (alive: bool)
      requires Idle() && Undid(s) && i in s.recs
      modifies this
      ensures !alive ==> fuse == 0
      ensures Ok() && (alive ==> Idle() && Undid(s) && s.phase == old(s).phase && s.recs.Keys == old(s).recs.Keys - {i})
    {
      ReleaseSides(u, s, i);
      var visible, hidden := Occupied(s.fs, InRoot(u, Visible(u, i))), Occupied(s.fs, InRoot(u, s.recs[i].hidden));
      assert visible != hidden;
      alive := true;
      if hidden {
        UnhideKeeps(u, s, i);
        alive := Commit(MoveTo(s, i, InRoot(u, Visible(u, i))), true);
      }
      if alive {
        ReleaseKeeps(u, s, i);
        alive := Commit(WithoutRec(s, i), false);
      }
    }

    /**
      The whole rollback, from wherever it stands, or from a pending application. It comes to its end
      unless it is blocked; the files are then as before.
     */
    method RollBack() returns (alive: bool, stuck: bool)
      requires Idle() && Backing(s)
      modifies this
      ensures !alive ==> fuse == 0
      ensures Ok()
      ensures alive ==> Idle() && stuck == Blocked(u, old(s))
      ensures alive ==> if stuck then s.phase == old(s).phase && Blocked(u, s) else s.phase.Over? && !s.newBase
    {
      stuck := false;
      alive := RestorePromotions();
      if alive {
        alive, stuck := DropTemps();
      }
      if alive {
        alive, stuck := UndoInstalled();
      }
      if alive && !stuck {
        alive := RestoreRecoveries();
        if alive {
          alive := EndRollback();
        }
      }
    }

    /** The root gets back its time, if anything was applied, and the tables are cleared. */
    method EndRollback() returns (alive: bool)
      requires Idle() && Undid(s) && s.recs == map[]
      modifies this
      ensures !alive ==> fuse == 0
      ensures Ok() && (alive ==> Idle() && s.phase.Over? && !s.newBase)
    {
      alive := true;
      if s.phase.RollingBack? {
        assert IsDir(u.cap, u.cap.root);
        RootTimeKeeps(u, s);
        alive := Commit(RootTimeSet(u, s), true);
      }
      if alive {
        assert !s.newBase;
        OverKeeps(u, s);
        alive := Commit(s.(phase := Over), false);
      }
    }

    // ---- temporary names ----

    /**
      Removes what is at temporary names, before anything is undone and once more afterwards, when
      nothing is left there. It stops at a file that is not the one on record.
     */
    method DropTemps() returns (alive: bool, stuck: bool)
      requires Idle() && !s.phase.Over?
      modifies this
      ensures !alive ==> fuse == 0
      ensures Ok()
      ensures alive ==> Idle() && s.phase == old(s).phase && s.rows == old(s).rows && s.recs == old(s).recs && Blocked(u, s) == Blocked(u, old(s))
      ensures alive && stuck ==> s.phase.Applying? && Littered(s)
      ensures alive ==> if old(s).phase.Applying? then stuck == Littered(old(s)) && (!stuck ==> CanRollback(s)) else !stuck && s == old(s)
    {
      var left := s.rows.Keys;
      while left != {}
        invariant Idle() && s.phase == old(s).phase && s.rows == old(s).rows && s.recs == old(s).recs && left <= s.rows.Keys
        invariant Blocked(u, s) == Blocked(u, old(s)) && (!s.phase.Applying? ==> s == old(s))
        invariant forall p :: p in s.rows && p !in left ==> !AtTemp(s, p)
        decreases |left|
      {
        var p :| p in left;
        alive, stuck := DropTempAt(p);
        if !alive || stuck {
          if alive {
            LitteredSame(s, old(s));
          }
          return;
        }
        left := left - {p};
      }
      if s.phase.Applying? {
        CleanIsClear(u, s);
        LitteredSame(s, old(s));
      }
      alive, stuck := true, false;
    }

    method DropTempAt(p: Path) returns (alive: bool, stuck: bool)
      requires Idle() && !s.phase.Over? && p in s.rows
      modifies this
      ensures !alive ==> fuse == 0
      ensures Ok()
      ensures alive ==> Idle() && s.phase == old(s).phase && s.rows == old(s).rows && s.recs == old(s).recs && Blocked(u, s) == Blocked(u, old(s))
      ensures alive ==> (!s.phase.Applying? ==> s == old(s)) && forall q :: q in s.rows && AtTemp(s, q) ==> AtTemp(old(s), q)
      ensures alive ==> if stuck then s.phase.Applying? && Littered(s) else !AtTemp(s, p)
    {
      alive, stuck := true, false;
      // The directory of every temporary name is there to be looked into.
      TempHomeAlways(u, s, p);
      if s.rows[p].temp.Some? && Occupied(s.fs, TempPlace(u, s, p)) {
        TempNameFree(u, s, p);
        OnlyWhileApplying(u, s, p);
        if s.rows[p].stray {
          assert StrayAt(s, p);
          stuck := true;
        } else {
          alive := StepDropTemp(p);
        }
      } else {
        FreeIsAway(u, s, p);
      }
    }

    method StepDropTemp(p: Path) returns (alive: bool)
      requires Idle() && CanDropTemp(u, s, p)
      modifies this
      ensures !alive ==> fuse == 0
      ensures Ok()
      ensures alive ==> Idle() && AtTemp(old(s), p) && s == WithoutMade(old(s), p) && Blocked(u, s) == Blocked(u, old(s))
    {
      DropTempKeeps(u, s, p);
      DropSame(u, s, p);
      alive := Commit(WithoutMade(s, p), true);
    }

    // ---- starting again ----

    /** Gives the application up: what was begun is to be rolled back. Whether that will be blocked can be told beforehand. */
    method BeginRollback() returns (alive: bool)
      requires Idle() && CanRollback(s)
      modifies this
      ensures !alive ==> fuse == 0
      ensures Ok() && (alive ==> Idle() && s.phase.RollingBack? && Blocked(u, s) == Blocked(u, old(s)))
      ensures alive && AllHidden(old(s)) ==> !Blocked(u, s)
    {
      RollbackKeeps(u, s);
      BlockedSame(u, s, s.(phase := RollingBack));
      if AllHidden(s) {
        HiddenIsClear(u, s);
      }
      alive := Commit(s.(phase := RollingBack), false);
    }

    /**
      Starts the program on whatever a crash left behind. Unless it is cut again it ends, with the
      captured worktree and the old base, or with the target and the new one; except when it stood in
      a spoilt application or in a blocked rollback, which it never leaves that way.
     */
    method Continue() returns (alive: bool, stuck: bool)
      requires Ok()
      modifies this
      ensures !alive ==> fuse == 0
      ensures Ok()
      ensures alive ==> Idle() && stuck == Unfinishable(u, old(s))
      ensures alive && !stuck ==> s.phase.Over? && fs == s.fs && (if s.newBase then ExactlyTarget(u, s) else ExactlyCaptured(u, s))
      ensures alive && stuck ==> s.phase == old(s).phase && Unfinishable(u, s)
    {
      stuck := false;
      alive := Recover();
      if alive && s.phase.RollingBack? {
        alive, stuck := RollBack();
      } else if alive {
        alive, stuck := GoOn();
      }
      if alive && !stuck {
        OverIsWhole(u, s);
      }
    }

    /** Forward, from any state but a rollback, to the end. */
    method GoOn() returns (alive: bool, stuck: bool)
      requires Idle() && !s.phase.RollingBack?
      modifies this
      ensures !alive ==> fuse == 0
      ensures Ok()
      ensures alive ==> Idle() && stuck == Unfinishable(u, old(s)) && if stuck then s.phase.Applying? && Unfinishable(u, s) else s.phase.Over?
    {
      alive, stuck := true, false;
      if s.phase.Pending? {
        alive := SavePaths();
        if alive {
          alive := RegisterPlan();
        }
      }
      if alive && s.phase.Applying? {
        alive, stuck := ApplyTarget();
      }
      if alive && s.phase.Finalized? {
        alive := CleanUp();
      }
    }

    /**
      Gives up the binding, whatever a crash left behind: what is not committed is rolled back, what
      is committed is cleaned up. Unless it is cut again it ends, except when a stray file is in the
      way or the rollback is blocked.
     */
    method Unbind() returns (alive: bool, stuck: bool)
      requires Ok()
      modifies this
      ensures !alive ==> fuse == 0
      ensures Ok()
      ensures alive ==> Idle() && stuck == Irrevocable(u, old(s))
      ensures alive && !stuck ==> s.phase.Over? && fs == s.fs && (if s.newBase then ExactlyTarget(u, s) else ExactlyCaptured(u, s))
      ensures alive && stuck ==> Irrevocable(u, s)
    {
      stuck := false;
      alive := Recover();
      if alive && !s.phase.Over? {
        alive, stuck := DropTemps();
        if alive && !stuck {
          alive, stuck := GiveUp();
        }
      }
      if alive && !stuck {
        OverIsWhole(u, s);
      }
    }

    /** With temporary names clear. */
    method GiveUp() returns (alive: bool, stuck: bool)
      requires Idle() && !s.phase.Over? && (s.phase.Applying? ==> CanRollback(s))
      modifies this
      ensures !alive ==> fuse == 0
      ensures Ok()
      ensures alive ==> Idle() && stuck == (!old(s).phase.Finalized? && Blocked(u, old(s)))
      ensures alive ==> if stuck then Backing(s) && Blocked(u, s) else s.phase.Over?
    {
      alive, stuck := true, false;
      if s.phase.Applying? {
        alive := BeginRollback();
      }
      if alive && s.phase.Finalized? {
        alive := CleanUp();
      } else if alive {
        alive, stuck := RollBack();
      }
    }

    /** Whatever the moment, before the base moves on every captured file is there, whole, at one of its places. */
    lemma FilesAreSafe(i: Ino)
      requires Ok() && !s.newBase && i in u.cap.place
      ensures i in fs.place && i in fs.attr && i in u.cap.attr && (u.cap.attr[i].FileAttr? ==> fs.attr[i] == u.cap.attr[i])
      ensures (fs == s.fs && Safe(u, s, i)) || (intent && fs == before.fs && Safe(u, before, i))
    {
      if fs == s.fs {
        CapturedIsSafe(u, s, i);
      } else {
        CapturedIsSafe(u, before, i);
      }
    }
  }

  /** Carrying the work on does not end it. */
  predicate Unfinishable(u: Setup, s: State) {
    (s.phase.Applying? && Spoilt(u, s)) || (s.phase.RollingBack? && Blocked(u, s))
  }

  /** Giving the work up does not end it. */
  predicate Irrevocable(u: Setup, s: State) {
    (s.phase.Applying? && Littered(s)) || ((Backing(s) || s.phase.Applying?) && Blocked(u, s))
  }

  /** A spoilt application can still be given up, as long as no file was made again. */
  lemma SpoiltIsRevocable(u: Setup, s: State)
    requires Sound(u) && Inv(u, s) && s.phase.Applying? && Spoilt(u, s)
    ensures Irrevocable(u, s) == Littered(s)
  {
    var p :| p in s.rows && SpoiltAt(u, s, p);
    SpoiltIsSettled(u, s, p);
    assert ApplyRow(u, s, p);
    HiddenIsClear(u, s);
  }

  lemma OverKeeps(u: Setup, s: State)
    requires Sound(u) && Inv(u, s) && Undid(s) && s.recs == map[] && (s.phase.RollingBack? ==> CanClear(u, s))
    ensures Inv(u, s.(phase := Over))
  {
    if s.phase.RollingBack? {
      ClearKeeps(u, s);
    } else {
      AbandonKeeps(u, s);
    }
  }

  // ---- making anew ----

  /** What a new inode spoils: nothing, unless it is stray. */
  lemma MadeNewSpoils(u: Setup, s: State, p: Path, noted: bool, stray: bool)
    requires Sound(u) && Inv(u, s) && Vacant(u, s, p)
    ensures var t := MadeNew(u, s, p, noted, stray); forall q {:trigger SpoiltAt(u, t, q)} :: SpoiltAt(u, t, q) == if q == p then stray else SpoiltAt(u, s, q)
    ensures SpoiltAt(u, s, p) == (s.rows[p].made.Some? && (IsDirItem(u, p) || s.rows[p].noted))
  {
    var t := MadeNew(u, s, p, noted, stray);
    assert ApplyRow(u, s, p) && RowOk(u, s, p);
    forall q | q in s.rows && q != p
      ensures SpoiltAt(u, t, q) == SpoiltAt(u, s, q)
    {
      if s.rows[q].made.Some? {
        GoneStaysGone(u, s, q);
      }
    }
  }

  /** A promoted file is there, so recording it spoils nothing. */
  lemma EnrollSpoils(u: Setup, s: State, i: Ino)
    requires Sound(u) && Inv(u, s) && CanEnroll(u, s, i)
    ensures var t := EnrolledState(u, s, i); forall q {:trigger SpoiltAt(u, t, q)} :: SpoiltAt(u, t, q) == SpoiltAt(u, s, q)
  {
    assert PromoOk(u, i) && RowOk(u, s, u.promo[i]);
  }

  lemma StrewnIsMarked(u: Setup, s: State, p: Path)
    requires Sound(u) && Inv(u, s) && CanRemake(u, s, p)
    ensures var m := Strewn(u, s, p); Marked(u, m, Remade(u, s, p), p) && SetRow(m, p, m.rows[p].(noted := true, stray := false)) == Remade(u, s, p)
  {
    HiddenSame(s, Strewn(u, s, p));
  }

  lemma HideGoesOn(u: Setup, s: State, i: Ino)
    requires Sound(u) && Inv(u, s) && CanHide(u, s, i) && Free(s.fs, HidPlace(u, s, i))
    ensures Onward(u, s, MoveTo(s, i, HidPlace(u, s, i)))
  {
  }

  lemma LitterGoesOn(u: Setup, s: State, p: Path)
    requires Sound(u) && Inv(u, s) && CanLitter(u, s, p) && s.rows[p].noted && Free(s.fs, TempPlace(u, s, p))
    ensures SpoiltAt(u, Strewn(u, s, p), p) && Onward(u, s, Strewn(u, s, p))
  {
    MadeNewSpoils(u, s, p, true, true);
  }

  lemma MakeGoesOn(u: Setup, s: State, p: Path)
    requires Sound(u) && Inv(u, s) && CanMakeTemp(u, s, p) && Free(s.fs, TempPlace(u, s, p))
    ensures Onward(u, s, TempMade(u, s, p))
  {
    MadeNewSpoils(u, s, p, false, false);
  }

  lemma RemadeIsAhead(u: Setup, s: State, p: Path)
    requires Sound(u) && Inv(u, s) && CanRemake(u, s, p) && Free(s.fs, TempPlace(u, s, p))
    ensures Ahead(u, s, Remade(u, s, p))
  {
    MadeNewSpoils(u, s, p, true, false);
    OnwardIsAhead(u, s, Remade(u, s, p));
  }

  lemma StrewnIsNoted(u: Setup, s: State, p: Path)
    requires Sound(u) && Inv(u, s) && CanRemake(u, s, p) && Inv(u, Strewn(u, s, p))
    ensures Inv(u, Remade(u, s, p)) && p in Strewn(u, s, p).rows
    ensures var m := Strewn(u, s, p); SetRow(m, p, m.rows[p].(noted := true, stray := false)) == Remade(u, s, p)
  {
    StrewnIsMarked(u, s, p);
    MarkedKeeps(u, Strewn(u, s, p), Remade(u, s, p), p);
  }

  lemma MadeNewDir(u: Setup, s: State, p: Path)
    requires Sound(u) && Inv(u, s) && Vacant(u, s, p)
    ensures DirReady(u, MadeNew(u, s, p, false, false), Parent(p))
  {
    MadeNewGrows(u, s, p, false, false);
    ParentNotSource(u, p);
    DirGrows(u, s, MadeNew(u, s, p, false, false), Parent(p));
  }

  lemma RemadeReady(u: Setup, s: State, p: Path)
    requires Sound(u) && Inv(u, s) && CanRemake(u, s, p) && Ahead(u, s, Remade(u, s, p))
    ensures CanWrite(u, Remade(u, s, p), p)
  {
  }

  /** Nothing is spoilt before anything is made. */
  lemma BlankIsWhole(u: Setup, s: State)
    requires Inv(u, s) && s.phase.Pending?
    ensures forall p, t: State :: t.rows == s.rows ==> !SpoiltAt(u, t, p)
  {
    forall p, t: State | t.rows == s.rows
      ensures !SpoiltAt(u, t, p)
    {
      assert p in s.rows ==> PendingRow(s, p);
    }
  }

  /** What is installed is not spoilt. */
  lemma InstalledIsWhole(u: Setup, s: State)
    requires Sound(u) && Inv(u, s) && AllInstalled(u, s)
    ensures !Spoilt(u, s)
  {
    forall p | p in s.rows
      ensures !SpoiltAt(u, s, p)
    {
      assert RowOk(u, s, p) && Done(s, p) && ApplyRow(u, s, p);
      if p in u.source {
        assert SourceOk(u, p);
      }
    }
  }

  // ---- temporary names ----

  lemma TempHomeAlways(u: Setup, s: State, p: Path)
    requires Sound(u) && Inv(u, s) && !s.phase.Over? && p in s.rows
    ensures TempHome(u, s, p) && p in u.target && RowOk(u, s, p)
  {
    assert RowOk(u, s, p) && TargetOk(u, p);
    ParentNotSource(u, p);
    if s.phase.Applying? {
      TempDirReady(u, s, p);
    } else if s.phase.Finalized? && Parent(p) != [] {
      assert AsTarget(u, s, Parent(p));
    } else if s.phase.Pending? {
      assert PendingRow(s, p);
    }
  }

  /** Only a running application has anything at a temporary name. */
  lemma OnlyWhileApplying(u: Setup, s: State, p: Path)
    requires Sound(u) && Inv(u, s) && !s.phase.Over? && p in s.rows && AtTemp(s, p)
    ensures s.phase.Applying?
  {
    assert RowOk(u, s, p);
    assert s.phase.Pending? ==> PendingRow(s, p);
    TempNotLeaf(u, s, p);
    assert s.phase.Finalized? ==> AsTarget(u, s, p);
  }

  lemma FreeIsAway(u: Setup, s: State, p: Path)
    requires Sound(u) && Inv(u, s) && p in s.rows && p in u.target && p != [] && (s.rows[p].temp.Some? ==> !Occupied(s.fs, TempPlace(u, s, p)))
    ensures !AtTemp(s, p)
  {
    assert RowOk(u, s, p);
    if AtTemp(s, p) {
      MadeStands(u, s, p);
    }
  }

  lemma LitteredSame(s: State, t: State)
    requires s.rows == t.rows
    ensures Littered(s) == Littered(t)
  {
    assert forall p :: StrayAt(s, p) == StrayAt(t, p);
  }

  lemma CleanIsClear(u: Setup, s: State)
    requires Sound(u) && Inv(u, s) && s.phase.Applying? && NoTemps(s)
    ensures !Littered(s)
  {
    forall p | p in s.rows
      ensures !StrayAt(s, p)
    {
      assert RowOk(u, s, p) && ApplyRow(u, s, p) && !AtTemp(s, p);
    }
  }

  /** Removing a temporary file blocks nothing and clears nothing. */
  lemma DropSame(u: Setup, s: State, p: Path)
    requires Sound(u) && Inv(u, s) && CanDropTemp(u, s, p)
    ensures Blocked(u, WithoutMade(s, p)) == Blocked(u, s)
  {
    RemovableTemp(u, s, p);
    MadeIsNew(u, s, p);
    var t := WithoutMade(s, p);
    assert forall i :: i in u.cap.place ==> Waiting(u, t, i) == Waiting(u, s, i);
  }

  /** A path that was renamed into place is there, and still being installed. */
  lemma InstalledInPlace(u: Setup, s: State, p: Path)
    requires Sound(u) && Inv(u, s) && CanInstall(u, s, p) && MadeMove(u, s, p, PlaceOf(u, s, p))
    ensures var t := AfterMadeMove(s, p, PlaceOf(u, s, p)); Installing(u, t, p) && Known(t, p) && InPlace(u, t, p)
  {
    MadeStands(u, s, p);
    HiddenSame(s, AfterMadeMove(s, p, PlaceOf(u, s, p)));
  }

  lemma BlockedSame(u: Setup, s: State, t: State)
    requires t.recs == s.recs && t.rows == s.rows && t.fs == s.fs
    ensures Blocked(u, t) == Blocked(u, s)
  {
    assert forall i :: i in u.cap.place ==> Waiting(u, t, i) == Waiting(u, s, i);
  }

  /** A path that was moved to its undo name is found there. */
  lemma UndoneIsFound(u: Setup, s: State, p: Path)
    requires Sound(u) && Inv(u, s) && CanUndo(u, s, p) && MadeMove(u, s, p, UndoPlace(u, s, p)) && Inv(u, AfterMadeMove(s, p, UndoPlace(u, s, p)))
    ensures Seen(AfterMadeMove(s, p, UndoPlace(u, s, p)).fs, Sibling(p, s.rows[p].undo.value))
  {
    var t := AfterMadeMove(s, p, UndoPlace(u, s, p));
    MadeStands(u, t, p);
    MadeStands(u, s, p);
    InsideIsFound(u, t, p, s.rows[p].undo.value, s.rows[p].made.value);
  }

  predicate FileRow(u: Setup, s: State, p: Path) {
    p in s.rows && p in u.target && u.target[p].ItemFile?
  }

  ghost predicate NoFileRows(u: Setup, s: State) {
    forall p :: !FileRow(u, s, p)
  }

  lemma FileChildless(u: Setup, s: State, p: Path)
    requires Sound(u) && Inv(u, s) && p in u.target && u.target[p].ItemFile?
    ensures Childless(s, p)
  {
    forall q | q in s.rows && q != []
      ensures Parent(q) != p
    {
      assert RowOk(u, s, q) && TargetOk(u, p);
      ParentNotSource(u, q);
    }
  }

  /** When the files and all later directories are forgotten, nothing is below this one. */
  lemma DirChildless(u: Setup, s: State, order: seq<Path>, k: nat)
    requires Sound(u) && Inv(u, s) && Listing(u, order) && k < |order|
    requires forall j :: k + 1 <= j < |order| ==> order[j] !in s.rows
    ensures Childless(s, order[k])
  {
    forall q | q in s.rows && q != []
      ensures Parent(q) != order[k]
    {
      assert RowOk(u, s, q);
      assert q in order;
      var j :| 0 <= j < |order| && order[j] == q;
    }
  }

  lemma ListedFilesDone(u: Setup, s: State, order: seq<Path>)
    requires Listing(u, order) && forall j :: 0 <= j < |order| && order[j] in u.target && u.target[order[j]].ItemFile? ==> Done(s, order[j])
    ensures FilesDone(u, s)
  {
    forall p | p in u.target && u.target[p].ItemFile?
      ensures Done(s, p)
    {
      assert p in order;
    }
  }

  lemma ListedDirsDone(u: Setup, s: State, order: seq<Path>)
    requires Listing(u, order) && forall j :: 0 <= j < |order| && IsDirItem(u, order[j]) ==> Done(s, order[j])
    ensures DirsReady(u, s)
  {
    forall p | p in u.target && u.target[p].ItemDir?
      ensures Done(s, p)
    {
      assert p in order && IsDirItem(u, p);
    }
  }

  lemma NoRowsLeft(u: Setup, s: State, order: seq<Path>)
    requires Inv(u, s) && Listing(u, order) && forall j :: 0 <= j < |order| ==> order[j] !in s.rows
    ensures s.rows == map[]
  {
    forall p: Path
      ensures p !in s.rows
    {
      assert p in s.rows ==> RowOk(u, s, p);
      assert p in u.target ==> p in order;
    }
  }

  /** Everything of the target is in place, only the times of directories may be missing. */
  ghost predicate AllInstalled(u: Setup, s: State) {
    s.phase.Applying? && AllHidden(s) && DirsReady(u, s) && Enrolled(u, s) && FilesDone(u, s)
  }

  lemma InstalledStays(u: Setup, s: State, t: State)
    requires AllInstalled(u, s) && Ahead(u, s, t)
    ensures AllInstalled(u, t)
  {
    forall p | p in u.target && u.target[p].ItemFile?
      ensures Done(t, p)
    {
      assert Done(s, p);
    }
  }

  lemma TimesStay(u: Setup, s: State, t: State, p: Path)
    requires Sound(u) && Inv(u, s) && p in s.rows && p in u.target && u.target[p].ItemDir? && s.rows[p].made.Some? && t == TimeSet(u, s, p)
    ensures TimeRight(u, t, p) && forall q :: q != p && TimeRight(u, s, q) ==> TimeRight(u, t, q)
  {
    forall q | q != p && TimeRight(u, s, q)
      ensures TimeRight(u, t, q)
    {
      OneOwner(u, s, p, q);
    }
  }

  lemma DirNotSource(u: Setup, p: Path)
    requires Sound(u) && IsDirItem(u, p)
    ensures p !in u.source
  {
    assert p in u.source ==> SourceOk(u, p);
  }

  /** The directory of a listed path was listed before it. */
  lemma ListingParent(u: Setup, order: seq<Path>, k: nat)
    requires Sound(u) && Listing(u, order) && k < |order|
    ensures order[k] in u.target && order[k] != [] && (Parent(order[k]) != [] ==> exists j :: 0 <= j < k && order[j] == Parent(order[k]) && IsDirItem(u, order[j]))
  {
    var p := order[k];
    assert p in order;
    ParentNotSource(u, p);
    if Parent(p) != [] {
      assert Parent(p) in order;
      var j :| 0 <= j < |order| && order[j] == Parent(p);
    }
  }

  /** An application goes on: its records and rows may only gain. */
  ghost predicate Onward(u: Setup, s: State, t: State) {
    && (forall p {:trigger SpoiltAt(u, t, p)} :: SpoiltAt(u, t, p) == SpoiltAt(u, s, p))
    && t.phase.Applying? && t.newBase == s.newBase && t.recs.Keys == s.recs.Keys
    && (forall i {:trigger SetAside(t, i)} :: SetAside(s, i) ==> SetAside(t, i)) && (forall p {:trigger Done(t, p)} :: Done(s, p) ==> Done(t, p))
  }

  lemma OnwardIsAhead(u: Setup, s: State, t: State)
    requires Onward(u, s, t)
    ensures Ahead(u, s, t)
  {
    SpoiltSame(u, s, t);
    ForwardFacts(u, s, t);
  }

  lemma SpoiltSame(u: Setup, s: State, t: State)
    requires forall p {:trigger SpoiltAt(u, t, p)} :: SpoiltAt(u, t, p) == SpoiltAt(u, s, p)
    ensures Spoilt(u, t) == Spoilt(u, s)
  {
    if Spoilt(u, s) {
      var p :| p in s.rows && SpoiltAt(u, s, p);
      assert SpoiltAt(u, t, p);
    }
  }

  /** An application went on: what was hidden or done before still is, and it is spoilt if it was. */
  ghost predicate Ahead(u: Setup, s: State, t: State) {
    && t.phase.Applying? && t.recs.Keys == s.recs.Keys && Forward(u, s, t) && (forall i {:trigger SetAside(t, i)} :: SetAside(s, i) ==> SetAside(t, i))
    && (AllHidden(s) ==> AllHidden(t)) && (DirsReady(u, s) ==> DirsReady(u, t)) && (Enrolled(u, s) ==> Enrolled(u, t))
    && Spoilt(u, t) == Spoilt(u, s)
  }

  lemma AheadTwice(u: Setup, s: State, m: State, t: State)
    requires Ahead(u, s, m) && Ahead(u, m, t)
    ensures Ahead(u, s, t)
  {
    forall i | SetAside(s, i)
      ensures SetAside(t, i)
    {
      assert SetAside(m, i);
    }
    forall p | Done(s, p)
      ensures Done(t, p)
    {
      assert Done(m, p);
    }
  }
}
