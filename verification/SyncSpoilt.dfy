/**
  When an application cannot go on. Before it is given up, what is at temporary names is removed, but
  the rows keep the inodes they have noted. If that is cut short and the application is carried on
  instead, it looks for them: a directory that is gone is never made again, and a file is made again
  but not noted, since the row has an inode already. The stray file then stops both ways.
 */
module SyncSpoilt {
  import opened Wrappers
  import opened Bytes
  import opened FileSystem
  import opened SyncApply
  import opened SyncInvariant
  import opened SyncSteps
  import opened SyncInstall
  import opened SyncRollback
  import opened SyncSafety

  // ---- how it comes about ----

  /** Removing what a row has noted, or a directory, spoils the application. */
  lemma DropSpoils(u: Setup, s: State, p: Path)
    requires CanDropTemp(u, s, p)
    ensures SpoiltAt(u, WithoutMade(s, p), p) <==> IsDirItem(u, p) || s.rows[p].noted
  {
  }

  /** A file that is made again for a row that has one noted is stray. */
  lemma LitterStrays(u: Setup, s: State, p: Path)
    requires CanLitter(u, s, p)
    ensures Littered(Strewn(u, s, p)) && Spoilt(u, Strewn(u, s, p))
  {
    var t := Strewn(u, s, p);
    assert StrayAt(t, p) && SpoiltAt(u, t, p);
  }

  // ---- and stays so ----

  /** An inode that is gone is not what the next one will be. */
  lemma GoneStaysGone(u: Setup, s: State, q: Path)
    requires Sound(u) && Inv(u, s) && q in s.rows && s.rows[q].made.Some?
    ensures s.rows[q].made.value != s.fs.next
  {
    assert RowOk(u, s, q);
    if q in u.source {
      assert SourceOk(u, q) && PromoOk(u, u.source[q]);
    } else {
      assert OfOk(u, s, s.rows[q].made.value);
    }
  }

  /** A spoilt path is neither in place nor done, and was not promoted. */
  lemma SpoiltIsSettled(u: Setup, s: State, p: Path)
    requires Sound(u) && Inv(u, s) && s.phase.Applying? && SpoiltAt(u, s, p)
    ensures p in u.target && p != [] && p !in u.source && s.rows[p].made.Some? && s.rows[p].temp.Some? && !InPlace(u, s, p) && !s.rows[p].done
    ensures if s.rows[p].stray then AtTemp(s, p) && !IsDirItem(u, p) else Lost(s, p)
  {
    assert RowOk(u, s, p) && ApplyRow(u, s, p);
    if AtTemp(s, p) {
      TempNotLeaf(u, s, p);
    }
  }

  /** The step is about the row of the path. */
  predicate Concerns(step: Step, p: Path) {
    (step.NameTemp? || step.MakeTemp? || step.Note? || step.Remake? || step.InstallDone?) && step.p == p
  }

  /** The program takes no such step for a spoilt path. */
  lemma SpoiltRefuses(u: Setup, s: State, step: Step, p: Path)
    requires Sound(u) && Inv(u, s) && s.phase.Applying? && SpoiltAt(u, s, p) && Concerns(step, p)
    ensures !Enabled(u, s, step)
  {
    SpoiltIsSettled(u, s, p);
  }

  /** Steps of an application that write rows. */
  predicate WritesRow(step: Step) {
    step.NameTemp? || step.MakeTemp? || step.Note? || step.Remake? || step.Litter? || step.InstallDone? || step.Enroll?
  }

  lemma RowsStay(u: Setup, s: State, step: Step)
    requires s.phase.Applying? && Enabled(u, s, step) && Possible(u, s, step) && !WritesRow(step)
    ensures Apply(u, s, step).rows == s.rows
  {
    assert !Backs(step);
  }

  lemma OtherRowStays(u: Setup, s: State, step: Step, p: Path)
    requires Sound(u) && p !in u.source && s.phase.Applying? && p in s.rows && Enabled(u, s, step) && Possible(u, s, step) && !Concerns(step, p) && step != Litter(p)
    ensures p in Apply(u, s, step).rows && Apply(u, s, step).rows[p] == s.rows[p]
  {
    if !WritesRow(step) {
      RowsStay(u, s, step);
    } else if step.Enroll? {
      assert PromoOk(u, step.i);
    }
  }

  /** Steps of an application that put an inode in a place. */
  predicate Places(step: Step) {
    step.MakeTemp? || step.Remake? || step.Litter? || step.Hide? || step.Install? || step.Promote?
  }

  lemma PlacesStay(u: Setup, s: State, step: Step, j: Ino)
    requires s.phase.Applying? && Enabled(u, s, step) && Possible(u, s, step) && j !in s.fs.place && !Places(step)
    ensures j !in Apply(u, s, step).fs.place
  {
  }

  /** Of what is not in a place, only the next inode comes to be in one. */
  lemma NextIsPlaced(u: Setup, s: State, step: Step, j: Ino)
    requires s.phase.Applying? && Enabled(u, s, step) && Possible(u, s, step) && j !in s.fs.place && j != s.fs.next && Places(step)
    ensures j !in Apply(u, s, step).fs.place
  {
  }

  lemma SpoiltPlace(u: Setup, s: State, step: Step, p: Path)
    requires Sound(u) && Inv(u, s) && s.phase.Applying? && SpoiltAt(u, s, p) && Enabled(u, s, step) && Possible(u, s, step) && Lost(s, p)
    ensures s.rows[p].made.value !in Apply(u, s, step).fs.place
  {
    GoneStaysGone(u, s, p);
    if Places(step) {
      NextIsPlaced(u, s, step, s.rows[p].made.value);
    } else {
      PlacesStay(u, s, step, s.rows[p].made.value);
    }
  }

  lemma NotFinal(u: Setup, s: State, p: Path)
    requires Sound(u) && Inv(u, s) && s.phase.Applying? && SpoiltAt(u, s, p)
    ensures !CanFinalize(u, s) && (s.rows[p].stray ==> !CanRollback(s))
  {
    SpoiltIsSettled(u, s, p);
    assert TreeAsTarget(u, s) ==> AsTarget(u, s, p);
  }

  /** Nothing but a rollback leaves a spoilt application, and nothing repairs it. */
  lemma SpoiltStep(u: Setup, s: State, step: Step, p: Path)
    requires Sound(u) && Inv(u, s) && s.phase.Applying? && SpoiltAt(u, s, p) && Enabled(u, s, step) && Possible(u, s, step)
    ensures var t := Apply(u, s, step); if t.phase.Applying? then SpoiltAt(u, t, p) else NotAhead(t)
    ensures s.rows[p].stray ==> var t := Apply(u, s, step); t.phase.Applying? && StrayAt(t, p)
  {
    NotFinal(u, s, p);
    SpoiltIsSettled(u, s, p);
    if step == Litter(p) {
      LitterStrays(u, s, p);
    } else {
      if Concerns(step, p) {
        SpoiltRefuses(u, s, step, p);
      }
      OtherRowStays(u, s, step, p);
      if Lost(s, p) {
        SpoiltPlace(u, s, step, p);
      }
    }
  }

  predicate NotAhead(s: State) {
    !s.newBase && (s.phase.RollingBack? || s.phase.Over?)
  }

  /** Steps of a rollback. */
  predicate Backs(step: Step) {
    step.Restore? || step.NameUndo? || step.Undo? || step.Unlink? || step.Forget? || step.Unhide? || step.Release? || step.RootTime? || step.Clear?
  }

  lemma OnlyBacks(u: Setup, s: State, step: Step)
    requires NotAhead(s) && Enabled(u, s, step)
    ensures Backs(step)
  {
  }

  lemma BackStaysBack(u: Setup, s: State, step: Step)
    requires NotAhead(s) && Enabled(u, s, step) && Possible(u, s, step) && Backs(step)
    ensures NotAhead(Apply(u, s, step))
  {
  }

  /** A rollback never comes to the new base. */
  lemma {:induction false} BackNeverCommits(u: Setup, s: State, steps: seq<Step>, last: State)
    requires NotAhead(s) && Runs(u, s, steps, last)
    ensures NotAhead(last)
    decreases |steps|
  {
    if steps != [] {
      OnlyBacks(u, s, steps[0]);
      BackStaysBack(u, s, steps[0]);
      BackNeverCommits(u, Apply(u, s, steps[0]), steps[1..], last);
    }
  }

  /** Once spoilt, the application never comes to the new base, whatever is tried and however it is cut. */
  lemma {:induction false} SpoiltNeverCommits(u: Setup, s: State, steps: seq<Step>, last: State)
    requires Sound(u) && Inv(u, s) && s.phase.Applying? && Spoilt(u, s) && Runs(u, s, steps, last)
    ensures !last.newBase && (last.phase.Applying? ==> Spoilt(u, last))
    decreases |steps|
  {
    if steps != [] {
      var p :| p in s.rows && SpoiltAt(u, s, p);
      var t := Apply(u, s, steps[0]);
      SpoiltStep(u, s, steps[0], p);
      StepKeeps(u, s, steps[0]);
      if t.phase.Applying? {
        SpoiltNeverCommits(u, t, steps[1..], last);
      } else {
        BackNeverCommits(u, t, steps[1..], last);
      }
    }
  }

  /** With a stray file it does not come to a rollback either: it never ends. */
  lemma {:induction false} LitteredForever(u: Setup, s: State, steps: seq<Step>, last: State)
    requires Sound(u) && Inv(u, s) && s.phase.Applying? && Littered(s) && Runs(u, s, steps, last)
    ensures last.phase.Applying? && Littered(last)
    decreases |steps|
  {
    if steps != [] {
      var p :| p in s.rows && StrayAt(s, p);
      SpoiltStep(u, s, steps[0], p);
      StepKeeps(u, s, steps[0]);
      LitteredForever(u, Apply(u, s, steps[0]), steps[1..], last);
    }
  }

  // ---- the smallest cases ----

  /** A worktree with one file, and a target with one other entry. */
  function CaseSetup(x: Item): Setup {
    Setup(FS(0, 2, map[1 := Place(0, "b")], map[0 := DirAttr(Some(5)), 1 := FileAttr(7, Some(5))]), map[1 := 1],
          map[["e"] := x], map[], map[], n => n != [] && n[0] == '.')
  }

  ghost predicate Small(u: Setup, x: Item) {
    && Sound(u) && u.cap.place.Keys == {1} && Top(u, 1) && Visible(u, 1) == "b" && u.target.Keys == {["e"]} && u.target[["e"]] == x
    && u.promo.Keys == {} && u.source.Keys == {} && u.reserved(".h") && u.reserved(".t") && !u.reserved("b")
  }

  /** There is such a worktree and target. */
  lemma CaseIsSmall(x: Item)
    ensures Small(CaseSetup(x), x)
  {
    assert AreaOk(CaseSetup(x), 1) && TargetOk(CaseSetup(x), ["e"]);
  }

  predicate Aside(hidden: map<Ino, Name>) {
    hidden.Keys == {1} && hidden[1] == ".h"
  }

  // What the states of the case look like, step by step.

  ghost predicate Listed(u: Setup, x: Item, s: State) {
    Small(u, x) && s.phase.Pending? && s.fs == u.cap && s.rows.Keys == {["e"]} && s.rows[["e"]] == BLANK && s.names.Keys == {} && s.links.Keys == {}
  }

  ghost predicate Planned(u: Setup, x: Item, s: State) {
    && Small(u, x) && s.phase.Applying? && s.fs == u.cap && s.rows.Keys == {["e"]} && s.rows[["e"]] == BLANK && s.names.Keys == {".h"} && s.links.Keys == {}
    && s.recs.Keys == {1} && s.recs[1] == Rec(".h", false, None)
  }

  /** Everything is hidden, and the entry is the only one recorded. */
  ghost predicate About(u: Setup, x: Item, s: State) {
    && Small(u, x) && s.phase.Applying? && s.recs.Keys == {1} && s.recs[1].completed && s.links.Keys == {} && s.rows.Keys == {["e"]}
    && s.rows[["e"]].undo.None? && !s.rows[["e"]].done && !s.rows[["e"]].stray
  }

  ghost predicate Hid(u: Setup, x: Item, s: State) {
    About(u, x, s) && s.rows[["e"]] == BLANK && s.names.Keys == {".h"}
  }

  ghost predicate Named(u: Setup, x: Item, s: State) {
    About(u, x, s) && s.rows[["e"]].temp.Some? && s.rows[["e"]].made.None? && !s.rows[["e"]].noted
  }

  ghost predicate Made(u: Setup, x: Item, s: State, noted: bool) {
    About(u, x, s) && s.rows[["e"]].temp.Some? && AtTemp(s, ["e"]) && s.rows[["e"]].noted == noted
  }

  ghost predicate Dropped(u: Setup, x: Item, s: State) {
    About(u, x, s) && s.rows[["e"]].temp.Some? && Lost(s, ["e"]) && s.rows[["e"]].noted
  }

  lemma AboutTurns(u: Setup, x: Item, s: State)
    requires About(u, x, s)
    ensures Installing(u, s, ["e"]) && Turn(u, s, ["e"]) && DirReady(u, s, Parent(["e"])) && HasDir(s, ["e"])
  {
    forall i | i in s.recs
      ensures SetAside(s, i)
    {
      assert i in {1};
    }
    forall p | p in u.target
      ensures p == ["e"]
    {
      assert p in {["e"]};
    }
    assert forall i :: i in u.promo ==> i in {};
    assert ["e"] in u.source ==> ["e"] in u.source.Keys;
  }

  lemma CaseRecord(u: Setup, x: Item)
    requires Small(u, x)
    ensures Listed(u, x, Recorded(u, Initial(u)))
  {
  }

  lemma CasePlan(u: Setup, x: Item, s: State, hidden: map<Ino, Name>)
    requires Listed(u, x, s) && Aside(hidden)
    ensures CanRegister(u, s, hidden) && Planned(u, x, Registered(u, s, hidden))
  {
    forall i | i in hidden
      ensures Top(u, i) && FreshName(u, s, hidden[i]) && i == 1
    {
      assert i in {1};
    }
    forall i | i in u.cap.place
      ensures i in hidden
    {
      assert i in {1};
    }
    forall p | p in u.target
      ensures p in s.rows
    {
      assert p in {["e"]};
    }
    var t := Registered(u, s, hidden);
    forall n | n in t.names
      ensures n == ".h"
    {
      assert n in s.names ==> n in {};
    }
    assert t.names[hidden[1]] == Hidden(1);
    assert t.recs.Keys == {1};
  }

  lemma CaseHide(u: Setup, x: Item, s: State)
    requires Planned(u, x, s)
    ensures CanHide(u, s, 1) && var m := MoveTo(s, 1, HidPlace(u, s, 1)); CanRecordHidden(u, m, 1) && Hid(u, x, HiddenRecorded(m, 1))
  {
    assert 1 in u.cap.place && 1 in s.recs;
  }

  lemma CaseName(u: Setup, x: Item, s: State)
    requires Hid(u, x, s)
    ensures CanNameTemp(u, s, ["e"], ".t") && Named(u, x, TempNamed(s, ["e"], ".t"))
  {
    AboutTurns(u, x, s);
    assert ".t" in s.names ==> ".t" in {".h"};
  }

  lemma CaseMake(u: Setup, x: Item, s: State)
    requires Named(u, x, s)
    ensures CanMakeTemp(u, s, ["e"]) && Made(u, x, TempMade(u, s, ["e"]), false)
  {
    AboutTurns(u, x, s);
  }

  lemma CaseNote(u: Setup, x: Item, s: State)
    requires Made(u, x, s, false)
    ensures CanNote(u, s, ["e"]) && Made(u, x, Noted(s, ["e"]), true)
  {
    AboutTurns(u, x, s);
  }

  lemma CaseDrop(u: Setup, x: Item, s: State)
    requires Made(u, x, s, true)
    ensures CanDropTemp(u, s, ["e"]) && Dropped(u, x, WithoutMade(s, ["e"]))
  {
    AboutTurns(u, x, s);
  }

  lemma DroppedIsSpoilt(u: Setup, x: Item, s: State)
    requires Dropped(u, x, s)
    ensures Spoilt(u, s) && !Littered(s) && (x.ItemFile? ==> CanLitter(u, s, ["e"]))
  {
    AboutTurns(u, x, s);
    assert SpoiltAt(u, s, ["e"]);
    forall p | p in s.rows
      ensures !StrayAt(s, p)
    {
      assert p in {["e"]};
    }
  }

  // The run.

  lemma {:induction false} RunsMore(u: Setup, s: State, steps: seq<Step>, m: State, step: Step, t: State)
    requires Runs(u, s, steps, m) && Enabled(u, m, step) && Possible(u, m, step) && t == Apply(u, m, step)
    ensures Runs(u, s, steps + [step], t)
    decreases |steps|
  {
    if steps == [] {
      assert [step][1..] == [];
      assert Runs(u, t, [], t);
    } else {
      assert (steps + [step])[1..] == steps[1..] + [step];
      RunsMore(u, Apply(u, s, steps[0]), steps[1..], m, step, t);
    }
  }

  /** The state comes after the steps, from the start. */
  ghost predicate After(u: Setup, steps: seq<Step>, s: State) {
    Runs(u, Initial(u), steps, s)
  }

  /** The next step of a run from the start. */
  lemma Then(u: Setup, steps: seq<Step>, m: State, step: Step) returns (t: State)
    requires Sound(u) && After(u, steps, m) && Enabled(u, m, step)
    ensures Possible(u, m, step) && t == Apply(u, m, step) && After(u, steps + [step], t)
  {
    InitialHolds(u);
    RunKeeps(u, Initial(u), steps, m);
    NoStepFails(u, m, step);
    t := Apply(u, m, step);
    RunsMore(u, Initial(u), steps, m, step, t);
  }

  lemma RunToListed(u: Setup, x: Item) returns (s: State)
    requires Small(u, x)
    ensures After(u, [Record], s) && Listed(u, x, s)
  {
    assert Runs(u, Initial(u), [], Initial(u));
    CaseRecord(u, x);
    s := Then(u, [], Initial(u), Record);
    assert [] + [Record] == [Record];
  }

  lemma RunToPlanned(u: Setup, x: Item, hidden: map<Ino, Name>) returns (s: State)
    requires Small(u, x) && Aside(hidden)
    ensures After(u, [Record] + [Register(hidden)], s) && Planned(u, x, s)
  {
    s := RunToListed(u, x);
    CasePlan(u, x, s, hidden);
    s := Then(u, [Record], s, Register(hidden));
  }

  function Hides(hidden: map<Ino, Name>): seq<Step> {
    [Record] + [Register(hidden)] + [Hide(1)] + [HideDone(1)]
  }

  lemma RunToHid(u: Setup, x: Item, hidden: map<Ino, Name>) returns (s: State)
    requires Small(u, x) && Aside(hidden)
    ensures After(u, Hides(hidden), s) && Hid(u, x, s)
  {
    s := RunToPlanned(u, x, hidden);
    CaseHide(u, x, s);
    s := Then(u, [Record] + [Register(hidden)], s, Hide(1));
    s := Then(u, [Record] + [Register(hidden)] + [Hide(1)], s, HideDone(1));
  }

  /** Up to the moment when the entry is at its temporary name. */
  function Makes(hidden: map<Ino, Name>): seq<Step> {
    Hides(hidden) + [NameTemp(["e"], ".t")] + [MakeTemp(["e"])]
  }

  lemma RunToMade(u: Setup, x: Item, hidden: map<Ino, Name>) returns (s: State)
    requires Small(u, x) && Aside(hidden)
    ensures After(u, Makes(hidden), s) && Made(u, x, s, false)
  {
    s := RunToHid(u, x, hidden);
    CaseName(u, x, s);
    s := Then(u, Hides(hidden), s, NameTemp(["e"], ".t"));
    CaseMake(u, x, s);
    s := Then(u, Hides(hidden) + [NameTemp(["e"], ".t")], s, MakeTemp(["e"]));
  }

  lemma RunToDropped(u: Setup, x: Item, hidden: map<Ino, Name>) returns (s: State)
    requires Small(u, x) && Aside(hidden)
    ensures After(u, Makes(hidden) + [Note(["e"])] + [DropTemp(["e"])], s) && Dropped(u, x, s)
  {
    s := RunToMade(u, x, hidden);
    CaseNote(u, x, s);
    s := Then(u, Makes(hidden), s, Note(["e"]));
    CaseDrop(u, x, s);
    s := Then(u, Makes(hidden) + [Note(["e"])], s, DropTemp(["e"]));
  }

  /** Giving up is cut after the temporary entry is removed: the application is spoilt, whatever the entry is. */
  lemma CutGivingUp(u: Setup, x: Item, hidden: map<Ino, Name>) returns (s: State)
    requires Small(u, x) && Aside(hidden)
    ensures Runs(u, Initial(u), Makes(hidden) + [Note(["e"])] + [DropTemp(["e"])], s) && s.phase.Applying? && Spoilt(u, s) && !Littered(s)
  {
    s := RunToDropped(u, x, hidden);
    DroppedIsSpoilt(u, x, s);
  }

  /** When a file is then carried on, it is made again and is stray: neither way comes to an end. */
  lemma CutAndCarriedOn(u: Setup, x: Item, hidden: map<Ino, Name>) returns (s: State)
    requires Small(u, x) && Aside(hidden) && x.ItemFile?
    ensures Runs(u, Initial(u), Makes(hidden) + [Note(["e"])] + [DropTemp(["e"])] + [Litter(["e"])], s) && s.phase.Applying? && Littered(s)
  {
    s := RunToDropped(u, x, hidden);
    DroppedIsSpoilt(u, x, s);
    LitterStrays(u, s, ["e"]);
    s := Then(u, Makes(hidden) + [Note(["e"])] + [DropTemp(["e"])], s, Litter(["e"]));
  }
}
