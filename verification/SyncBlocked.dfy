/**
  When a rollback cannot come to its end. It stops at a recorded path where something is visible
  that no inode was recorded for; that happens when it is begun before every captured entry was
  moved aside and the target has an entry of the same name, and then it never gets further.
 */
module SyncBlocked {
  import opened Wrappers
  import opened Bytes
  import opened FileSystem
  import opened SyncApply
  import opened SyncInvariant
  import opened SyncSteps
  import opened SyncInstall
  import opened SyncPaths
  import opened SyncRollback
  import opened SyncSafety

  /** Some entry may not be moved aside yet. */
  predicate Early(s: State) {
    s.phase.Pending? || (s.phase.RollingBack? && s.rows != map[] && !AllHidden(s))
  }

  /** Before everything is moved aside, nothing was made and nothing promoted. */
  lemma NothingEarly(u: Setup, s: State)
    requires Sound(u) && Inv(u, s) && Early(s)
    ensures s.links == map[] && !s.newBase && (forall p :: p in s.rows ==> s.rows[p].made.None?) && (forall j :: j in s.fs.place ==> j in u.cap.place)
  {
    forall p | p in s.rows
      ensures s.rows[p].made.None?
    {
      assert if s.phase.Pending? then PendingRow(s, p) else BackPath(s, p);
    }
    forall j | j in s.fs.place
      ensures j in u.cap.place
    {
      assert Legit(u, s, j);
    }
  }

  lemma BlockedIsEarly(u: Setup, s: State) returns (i: Ino)
    requires Sound(u) && Inv(u, s) && Backing(s) && Blocked(u, s)
    ensures Waiting(u, s, i) && [Visible(u, i)] in s.rows && Early(s)
    ensures s.links == map[] && (forall p :: p in s.rows ==> s.rows[p].made.None?)
    ensures Leads(s.fs, [Visible(u, i)], i) && Seen(s.fs, [Visible(u, i)])
  {
    i :| i in u.cap.place && Waiting(u, s, i) && [Visible(u, i)] in s.rows;
    assert s.phase.RollingBack? ==> BackRec(u, s, i);
    NothingEarly(u, s);
    WaitingIsSeen(u, s, i);
  }

  lemma WaitingIsSeen(u: Setup, s: State, i: Ino)
    requires Sound(u) && Inv(u, s) && Waiting(u, s, i) && !s.newBase && s.links == map[]
    ensures Leads(s.fs, [Visible(u, i)], i) && Seen(s.fs, [Visible(u, i)])
  {
    assert Legit(u, s, i);
    var at := [Visible(u, i)];
    assert Parent(at) == [] && Leaf(at) == Visible(u, i);
    assert Leads(s.fs, [], s.fs.root);
    assert Leads(s.fs, Parent(at), s.fs.root) && s.fs.root in s.fs.attr;
    assert Leads(s.fs, at, i) && i in s.fs.attr;
  }

  // ---- a rollback stops exactly when it is blocked ----

  lemma {:induction false} FirstStep(fs: FS, p: Path, i: Ino) returns (j: Ino)
    requires p != [] && Leads(fs, p, i)
    ensures Holds(fs, Place(fs.root, p[0]), j)
    decreases |p|
  {
    var d := LastStep(fs, p, i);
    if |p| == 1 {
      j := i;
    } else {
      assert Parent(p)[0] == p[0];
      j := FirstStep(fs, Parent(p), d);
    }
  }

  /** The top of a recorded path is recorded too. */
  lemma {:induction false} TopRecorded(u: Setup, s: State, p: Path)
    requires Inv(u, s) && Backing(s) && p in s.rows
    ensures p != [] && [p[0]] in s.rows
    decreases |p|
  {
    assert if s.phase.Pending? then PendingRow(s, p) else BackPath(s, p);
    if |p| == 1 {
      assert p == [p[0]];
    } else {
      TopRecorded(u, s, Parent(p));
    }
  }

  /** Every beginning of a target path is a directory of the target. */
  lemma {:induction false} PrefixIsDir(u: Setup, p: Path, k: nat)
    requires Sound(u) && p in u.target && 0 < k < |p|
    ensures IsDirItem(u, p[..k])
    decreases |p|
  {
    ParentNotSource(u, p);
    if k == |p| - 1 {
      assert p[..k] == Parent(p);
    } else {
      assert Parent(p)[..k] == p[..k];
      PrefixIsDir(u, Parent(p), k);
    }
  }

  /** With everything hidden, no file stands in the way of a recorded path. */
  lemma NotBarred(u: Setup, s: State, p: Path)
    requires Sound(u) && Inv(u, s) && Cleared(u, s) && p in u.target
    ensures !Barred(s.fs, p)
  {
    forall k | 0 < k < |p|
      ensures !LeadsToFile(s.fs, p[..k])
    {
      PrefixIsDir(u, p, k);
      DirLeadsToDir(u, s, p[..k]);
    }
  }

  lemma DirLeadsToDir(u: Setup, s: State, q: Path)
    requires Sound(u) && Inv(u, s) && Cleared(u, s) && IsDirItem(u, q)
    ensures !LeadsToFile(s.fs, q)
  {
    forall i | i in s.fs.attr && Leads(s.fs, q, i)
      ensures s.fs.attr[i].DirAttr?
    {
      LeadsHome(u, s, q, i);
      assert q in u.source ==> SourceOk(u, q);
      assert AttrOk(u, s, i);
    }
  }

  /** Where a rollback stops, something waits that was not moved aside. */
  lemma StuckIsBlocked(u: Setup, s: State, p: Path)
    requires Sound(u) && Inv(u, s) && Stuck(u, s, p)
    ensures Blocked(u, s)
  {
    if Early(s) {
      StuckEarly(u, s, p);
    } else {
      NotStuckLate(u, s, p);
    }
  }

  lemma NotStuckLate(u: Setup, s: State, p: Path)
    requires Sound(u) && Inv(u, s) && Undoing(u, s, p) && !Early(s)
    ensures !Stuck(u, s, p)
  {
    BackCleared(u, s);
    NotBarred(u, s, p);
    if Seen(s.fs, p) {
      var i :| i in s.fs.attr && Leads(s.fs, p, i);
      LeadsHome(u, s, p, i);
      SeenIsOwn(u, s, p);
    }
  }

  lemma StuckEarly(u: Setup, s: State, p: Path)
    requires Sound(u) && Inv(u, s) && Stuck(u, s, p) && Early(s)
    ensures Blocked(u, s)
  {
    var q := p;
    if Barred(s.fs, p) {
      var k :| 0 < k < |p| && LeadsToFile(s.fs, p[..k]);
      q := p[..k];
    }
    var i :| i in s.fs.attr && Leads(s.fs, q, i);
    var j := FirstStep(s.fs, q, i);
    TopRecorded(u, s, p);
    TopWaits(u, s, [p[0]], j);
  }

  /** Whoever has the name of a recorded path at the top was captured there, and waits. */
  lemma TopWaits(u: Setup, s: State, top: Path, j: Ino)
    requires Sound(u) && Inv(u, s) && Early(s) && |top| == 1 && top in s.rows && Holds(s.fs, Place(s.fs.root, top[0]), j)
    ensures Blocked(u, s)
  {
    NothingEarly(u, s);
    assert RowOk(u, s, top) && TargetOk(u, top) && Leaf(top) == top[0];
    assert Legit(u, s, j);
    NestedDir(u, s, j);
    assert AreaOk(u, j) && (j in s.recs ==> RecOk(u, s, j) && BackRec(u, s, j) && u.reserved(s.recs[j].hidden));
    assert Waiting(u, s, j) && [Visible(u, j)] == top;
  }

  /** A blocked rollback, with promotions restored, does stop: at a path it cannot tell from a user's. */
  lemma BlockedIsStuck(u: Setup, s: State) returns (p: Path)
    requires Sound(u) && Inv(u, s) && Backing(s) && Blocked(u, s)
    ensures Stuck(u, s, p)
  {
    var i := BlockedIsEarly(u, s);
    p := [Visible(u, i)];
    assert RowOk(u, s, p);
  }

  // ---- and stays so ----

  /** While it is blocked, all a rollback can do is forget paths where nothing is. */
  lemma BlockedStep(u: Setup, s: State, step: Step)
    requires Sound(u) && Inv(u, s) && s.phase.RollingBack? && Blocked(u, s) && Enabled(u, s, step)
    ensures step.Forget? && CanForget(u, s, step.p) && Blocked(u, WithoutRow(s, step.p))
  {
    var i := BlockedIsEarly(u, s);
    if step.Forget? {
      var t := WithoutRow(s, step.p);
      assert Waiting(u, t, i) && [Visible(u, i)] in t.rows;
    } else {
      BlockedSteps(u, s, step);
      assert false;
    }
  }

  lemma BlockedSteps(u: Setup, s: State, step: Step)
    requires s.phase.RollingBack? && s.rows != map[] && s.links == map[] && (forall p :: p in s.rows ==> s.rows[p].made.None?)
    requires Enabled(u, s, step)
    ensures step.Forget?
  {
  }

  /** A blocked rollback never ends, whatever is tried. */
  lemma {:induction false} BlockedForever(u: Setup, s: State, steps: seq<Step>, last: State)
    requires Sound(u) && Inv(u, s) && s.phase.RollingBack? && Blocked(u, s) && Runs(u, s, steps, last)
    ensures last.phase.RollingBack? && Blocked(u, last) && last.fs == s.fs
    decreases |steps|
  {
    if steps != [] {
      BlockedStep(u, s, steps[0]);
      StepKeeps(u, s, steps[0]);
      BlockedForever(u, Apply(u, s, steps[0]), steps[1..], last);
    }
  }

  /** Nothing that a rollback does blocks it. */
  lemma StaysClear(u: Setup, s: State, t: State)
    requires !Blocked(u, s) && (forall p :: p in t.rows ==> p in s.rows)
    requires forall i {:trigger Waiting(u, t, i)} :: Waiting(u, t, i) ==> Waiting(u, s, i)
    ensures !Blocked(u, t)
  {
  }

  lemma ForgetSame(u: Setup, s: State, p: Path)
    requires Sound(u) && Inv(u, s) && CanForget(u, s, p)
    ensures Blocked(u, WithoutRow(s, p)) == Blocked(u, s)
  {
    if Blocked(u, s) {
      var i := BlockedIsEarly(u, s);
      assert Waiting(u, WithoutRow(s, p), i) && [Visible(u, i)] in WithoutRow(s, p).rows;
    } else {
      StaysClear(u, s, WithoutRow(s, p));
    }
  }

  /** A promotion that is restored was made after everything was hidden. */
  lemma RestoreSame(u: Setup, s: State, i: Ino)
    requires Sound(u) && Inv(u, s) && CanRestore(u, s, i) && i in s.fs.place
    ensures !Blocked(u, s) && !Blocked(u, RestoredState(u, s, i))
  {
    RestoreKeeps(u, s, i);
    if s.rows != map[] {
      HiddenSame(s, RestoredState(u, s, i));
      HiddenIsClear(u, s);
      HiddenIsClear(u, RestoredState(u, s, i));
    }
  }

  /** Where an inode was recorded, everything is hidden. */
  lemma MadeIsClear(u: Setup, s: State, p: Path)
    requires Sound(u) && Inv(u, s) && Undoing(u, s, p) && s.rows[p].made.Some?
    ensures !Blocked(u, s) && AllHidden(s) && s.phase.RollingBack?
  {
    MadeIsBack(u, s, p);
    HiddenIsClear(u, s);
  }

  // ---- before it is begun ----

  /** Once everything is moved aside, a rollback is not blocked. */
  lemma HiddenIsClear(u: Setup, s: State)
    requires Sound(u) && Inv(u, s) && (s.phase.Applying? || s.phase.RollingBack?) && AllHidden(s)
    ensures !Blocked(u, s)
  {
    forall i | Waiting(u, s, i)
      ensures [Visible(u, i)] !in s.rows
    {
      assert if s.phase.Applying? then ApplyRec(u, s, i) else BackRec(u, s, i);
      assert i in s.recs ==> SetAside(s, i);
    }
  }

  // ---- the smallest case ----

  function CaseFs(): FS {
    FS(0, 2, map[1 := Place(0, "b")], map[0 := DirAttr(Some(5)), 1 := FileAttr(7, Some(5))])
  }

  /** A worktree with one file, and a target that changes it and has another. */
  function CaseSetup(): Setup {
    Setup(CaseFs(), map[1 := 1], map[["b"] := ItemFile(8, 6), ["r"] := ItemFile(9, 6)], map[], map[], n => n != [] && n[0] == '.')
  }

  function CaseNames(): map<Ino, Name> {
    map[1 := ".h"]
  }

  lemma CaseSound(u: Setup)
    requires u == CaseSetup()
    ensures Sound(u) && Top(u, 1) && Visible(u, 1) == "b"
  {
    assert AreaOk(u, 1);
    assert TargetOk(u, ["b"]) && TargetOk(u, ["r"]);
  }

  lemma CaseRegisters(u: Setup)
    requires u == CaseSetup()
    ensures CanRegister(u, Recorded(u, Initial(u)), CaseNames())
  {
  }

  lemma CaseBlocked(u: Setup, s: State)
    requires u == CaseSetup() && Top(u, 1) && Visible(u, 1) == "b" && s.fs == u.cap && s.rows == Recorded(u, Initial(u)).rows && !SetAside(s, 1)
    ensures Blocked(u, s)
  {
    assert ["b"] in u.target;
    assert Waiting(u, s, 1);
  }

  /** Cut when the target is recorded and nothing else is done: giving it up stops at once, until it is applied. */
  lemma CutWhilePending(u: Setup) returns (s: State)
    requires u == CaseSetup()
    ensures Sound(u) && Runs(u, Initial(u), [Record], s) && s.phase.Pending? && Blocked(u, s)
    ensures exists p :: Stuck(u, s, p)
  {
    CaseSound(u);
    s := Recorded(u, Initial(u));
    assert Runs(u, s, [], s);
    Records(u, Initial(u), [], s);
    CaseBlocked(u, s);
    InitialHolds(u);
    RunKeeps(u, Initial(u), [Record], s);
    var p := BlockedIsStuck(u, s);
  }

  /** Cut after the plan is registered and before the file is moved aside, then rolled back: the rollback stops at once and for good. */
  lemma CutBeforeHiding(u: Setup) returns (s: State)
    requires u == CaseSetup()
    ensures Sound(u) && Runs(u, Initial(u), [Record, Register(CaseNames()), Rollback], s) && s.phase.RollingBack? && Blocked(u, s)
    ensures exists p :: Stuck(u, s, p)
  {
    CaseSound(u);
    CaseRegisters(u);
    s := Registered(u, Recorded(u, Initial(u)), CaseNames()).(phase := RollingBack);
    BeginsBack(u, Initial(u), CaseNames(), s);
    CaseBlocked(u, s);
    InitialHolds(u);
    RunKeeps(u, Initial(u), [Record, Register(CaseNames()), Rollback], s);
    var p := BlockedIsStuck(u, s);
  }

  /** Recording, registering and giving up in a row. */
  lemma BeginsBack(u: Setup, s: State, names: map<Ino, Name>, t: State)
    requires s.phase.Pending? && CanRegister(u, Recorded(u, s), names) && t == Registered(u, Recorded(u, s), names).(phase := RollingBack)
    ensures Runs(u, s, [Record, Register(names), Rollback], t)
  {
    var m := Registered(u, Recorded(u, s), names);
    RollsBack(u, m, t);
    Registers(u, Recorded(u, s), names, m, [Rollback], t);
    Records(u, s, [Register(names)] + [Rollback], t);
    assert [Record] + ([Register(names)] + [Rollback]) == [Record, Register(names), Rollback];
  }

  lemma RollsBack(u: Setup, m: State, t: State)
    requires CanRollback(m) && t == m.(phase := RollingBack)
    ensures Runs(u, m, [Rollback], t)
  {
    assert [Rollback][1..] == [];
    assert Runs(u, t, [], t);
  }

  lemma Registers(u: Setup, s: State, names: map<Ino, Name>, m: State, rest: seq<Step>, t: State)
    requires CanRegister(u, s, names) && m == Registered(u, s, names) && Runs(u, m, rest, t)
    ensures Runs(u, s, [Register(names)] + rest, t)
  {
    assert ([Register(names)] + rest)[1..] == rest;
  }

  lemma Records(u: Setup, s: State, rest: seq<Step>, t: State)
    requires s.phase.Pending? && Runs(u, Recorded(u, s), rest, t)
    ensures Runs(u, s, [Record] + rest, t)
  {
    assert ([Record] + rest)[1..] == rest;
  }
}
