/**
  What a merge decides for every entry, told by what the three sides have there: a change stands where
  the other side has none, directories are combined, and Local steps aside only in a conflict.
 */
module MergeTable {
  import opened Wrappers
  import opened Bytes
  import opened Sorting
  import opened ConflictNames
  import opened Trees
  import opened TreeMerge
  import opened MergeLaws
  import opened MergeFates
  import opened MergeRequests
  import Paths

  // ---- the table ----

  /** Both sides changed the entry, differently; they are not both directories, nor the same file. */
  predicate Conflicting(b: Option<Slot>, l: Option<Slot>, r: Option<Slot>) {
    && l.Some? && l != b && r != b && l != r
    && !(r.Some? && l.value.node.Dir? && r.value.node.Dir?) && !(r.Some? && l.value.node.File? && r.value.node == l.value.node)
  }

  predicate ConflictAt(base: Node, local: Node, remote: Node, p: Path) {
    p != [] && Conflicting(Find(base, p), Find(local, p), Find(remote, p))
  }

  /** A combined directory that equals one side's only has that side's time, and otherwise the later one. */
  predicate DirectoryTime(out: Slot, l: Slot, r: Slot) {
    if out.node == l.node && out.node != r.node then out.mtime == l.mtime
    else if out.node == r.node && out.node != l.node then out.mtime == r.mtime
    else (out.mtime == l.mtime || out.mtime == r.mtime) && out.mtime >= l.mtime && out.mtime >= r.mtime
  }

  /** What there is in the end, by what the three sides have. */
  predicate Decided(b: Option<Slot>, l: Option<Slot>, r: Option<Slot>, out: Option<Slot>) {
    if l == b then out == r
    else if r == b || l == r then out == l
    else if l.None? then out == r
    else if r.Some? && l.value.node.Dir? && r.value.node.Dir? then out.Some? && out.value.node.Dir? && DirectoryTime(out.value, l.value, r.value)
    else if r.Some? && l.value.node == r.value.node then
      out.Some? && out.value.node == l.value.node
      && (out.value.mtime == l.value.mtime || out.value.mtime == r.value.mtime) && out.value.mtime >= l.value.mtime && out.value.mtime >= r.value.mtime
    else out == r
  }

  /** The directories on the way to the path are directories in the tree. */
  predicate OnTheWay(n: Node, p: Path)
    decreases |p|
  {
    |p| <= 1 || (Get(n, p[0]).Some? && Get(n, p[0]).value.node.Dir? && OnTheWay(Get(n, p[0]).value.node, p[1..]))
  }

  /** One of the three sides has the entry. */
  predicate Present(base: Node, local: Node, remote: Node, p: Path)
    requires p != []
  {
    Find(base, p).Some? || Find(local, p).Some? || Find(remote, p).Some?
  }

  // ---- entry by entry ----

  lemma BaseBelow(base: Node, name: Bytes, q: Path)
    requires q != []
    ensures Find(base, [name] + q) == Find(BaseDirectory(Get(base, name)), q)
  {
    assert ([name] + q)[1..] == q;
  }

  lemma SideBelow(n: Node, name: Bytes, q: Path)
    requires q != [] && Get(n, name).Some?
    ensures Find(n, [name] + q) == Find(Get(n, name).value.node, q)
  {
    assert ([name] + q)[1..] == q;
  }

  /** The list has exactly this entry under the name. */
  ghost predicate Gives(entries: seq<Entry>, name: Bytes, out: Option<Slot>) {
    forall s {:trigger Entry(name, s)} :: Entry(name, s) in entries <==> out == Some(s)
  }

  /** What is at the rest of the path below an entry. */
  function Inside(out: Option<Slot>, p: Path): Option<Slot>
    requires p != []
  {
    if |p| == 1 || out.None? then out else Find(out.value.node, p[1..])
  }

  ghost predicate RightFor(base: Node, local: Node, remote: Node, p: Path, out: Option<Slot>)
    requires p != []
  {
    Decided(Find(base, p), Find(local, p), Find(remote, p), Inside(out, p))
  }

  /** Where one side is taken as it is, everything below is as the table says. */
  lemma TakenIsRight(base: Node, local: Node, remote: Node, p: Path)
    requires p != [] && OnTheWay(local, p) && OnTheWay(remote, p)
    requires Settled(Get(base, p[0]), Get(local, p[0]), Get(remote, p[0]))
    ensures RightFor(base, local, remote, p, Settle(Get(base, p[0]), Get(local, p[0]), Get(remote, p[0])))
  {
  }

  /** So it is where Local steps aside: nothing is below. */
  lemma AsideIsRight(base: Node, local: Node, remote: Node, p: Path)
    requires p != [] && OnTheWay(local, p) && OnTheWay(remote, p)
    requires LocalConflictCopy(Get(base, p[0]), Get(local, p[0]), Get(remote, p[0]))
    ensures RightFor(base, local, remote, p, Get(remote, p[0])) && |p| == 1
  {
  }

  /** One name: the entry that its outcome has under that name. */
  lemma {:induction false} NameDecides(cfg: Config, base: Node, local: Node, remote: Node, path: Path, depth: nat, occupied: seq<Bytes>, p: Path, o: Outcome)
    returns (out: Option<Slot>)
    requires base.Dir? && local.Dir? && remote.Dir? && p != [] && OnTheWay(local, p) && OnTheWay(remote, p) && Present(base, local, remote, p)
    requires MergeName(cfg, base, local, remote, path, depth, p[0], occupied) == Ok(o) && p[0] in occupied
    ensures Gives(o.entries, p[0], out) && RightFor(base, local, remote, p, out)
    decreases local, 1, 0
  {
    var name := p[0];
    var b, l, r := Get(base, name), Get(local, name), Get(remote, name);
    if LocalConflictCopy(b, l, r) {
      out := r;
      AsideIsRight(base, local, remote, p);
      AsideGives(cfg, path, name, l.value, r, occupied, o);
    } else if Settled(b, l, r) {
      out := Settle(b, l, r);
      TakenIsRight(base, local, remote, p);
    } else {
      CombinedOutcome(cfg, base, local, remote, path, depth, name, occupied);
      var both := MergeBoth(cfg, b, l.value, r, path + [name], depth).value;
      out := both.slot;
      if l.value.node.Dir? {
        CombinedIsRight(cfg, base, local, remote, path, depth, p, both);
      }
    }
  }

  lemma AsideGives(cfg: Config, path: Path, name: Bytes, l: Slot, r: Option<Slot>, occupied: seq<Bytes>, o: Outcome)
    requires StepAside(cfg, path, name, l, r, occupied) == Ok(o) && name in occupied
    ensures Gives(o.entries, name, r)
  {
    if o.fallbacks == [] {
      CopyIsNew(cfg, path, name, occupied);
    }
  }

  lemma {:induction false} CombinedIsRight(cfg: Config, base: Node, local: Node, remote: Node, path: Path, depth: nat, p: Path, both: MergedEntry)
    requires local.Dir? && p != [] && OnTheWay(local, p) && OnTheWay(remote, p) && Present(base, local, remote, p)
    requires var b, l, r := Get(base, p[0]), Get(local, p[0]), Get(remote, p[0]);
             l.Some? && l.value.node.Dir? && !Settled(b, l, r) && MergeBoth(cfg, b, l.value, r, path + [p[0]], depth) == Ok(both)
    ensures RightFor(base, local, remote, p, both.slot)
    decreases local, 0, 0
  {
    var bd, l, r := BaseDirectory(Get(base, p[0])), Get(local, p[0]).value, Get(remote, p[0]).value;
    var m := Merge(cfg, bd, l.node, r.node, path + [p[0]], depth + 1).value;
    if |p| > 1 {
      assert [p[0]] + p[1..] == p;
      BaseBelow(base, p[0], p[1..]);
      MergeDecides(cfg, bd, l.node, r.node, path + [p[0]], depth + 1, p[1..], m);
    }
  }

  lemma NotGiven(entries: seq<Entry>, more: seq<Entry>, name: Bytes, out: Option<Slot>)
    requires Gives(entries, name, out) && forall e :: e in more ==> e.name != name
    ensures Gives(entries + more, name, out) && Gives(more + entries, name, out)
  {
  }

  /** No other name's outcome has an entry under this name. */
  lemma OthersDiffer(rules: Rules, o: Outcome, names: seq<Bytes>, occupied: seq<Bytes>, name: Bytes)
    requires Shape(rules, o, names, occupied) && name in occupied && name !in names
    ensures forall e :: e in o.entries ==> e.name != name
  {
    forall e | e in o.entries
      ensures e.name != name
    {
      if e.name in Added(occupied, o.occupied) {
        AddedElsewhere(rules, occupied, o.occupied, e.name);
      }
    }
  }

  lemma {:induction false} NamesDecide(cfg: Config, base: Node, local: Node, remote: Node, path: Path, depth: nat,
                                       names: seq<Bytes>, occupied: seq<Bytes>, p: Path, o: Outcome) returns (out: Option<Slot>)
    requires base.Dir? && local.Dir? && remote.Dir? && p != [] && OnTheWay(local, p) && OnTheWay(remote, p) && Present(base, local, remote, p)
    requires Ready(cfg.rules, names, occupied) && p[0] in names && MergeNames(cfg, base, local, remote, path, depth, names, occupied) == Ok(o)
    ensures Gives(o.entries, p[0], out) && RightFor(base, local, remote, p, out)
    decreases local, 1, |names|
  {
    var first := MergeName(cfg, base, local, remote, path, depth, names[0], occupied).value;
    var rest := MergeNames(cfg, base, local, remote, path, depth, names[1..], first.occupied).value;
    NameShape(cfg, base, local, remote, path, depth, names[0], occupied, first);
    ReadyRest(cfg.rules, names, occupied, first.occupied);
    NamesShape(cfg, base, local, remote, path, depth, names[1..], first.occupied);
    if p[0] == names[0] {
      out := NameDecides(cfg, base, local, remote, path, depth, occupied, p, first);
      assert p[0] in first.occupied;
      OthersDiffer(cfg.rules, rest, names[1..], first.occupied, p[0]);
      NotGiven(first.entries, rest.entries, p[0], out);
    } else {
      out := NamesDecide(cfg, base, local, remote, path, depth, names[1..], first.occupied, p, rest);
      OthersDiffer(cfg.rules, first, [names[0]], occupied, p[0]);
      NotGiven(rest.entries, first.entries, p[0], out);
    }
  }

  lemma GivenInNode(entries: seq<Entry>, n: Node, p: Path, out: Option<Slot>)
    requires Makes(entries, n) && p != [] && Gives(entries, p[0], out)
    ensures Find(n, p) == Inside(out, p)
  {
    if out.Some? {
      assert Entry(p[0], out.value) in entries;
    }
    assert Get(n, p[0]) == out;
  }

  lemma PresentName(base: Node, local: Node, remote: Node, p: Path)
    requires base.Dir? && local.Dir? && remote.Dir? && p != [] && Present(base, local, remote, p)
    ensures p[0] in AllNames(base, local, remote)
  {
  }

  /** At every path to which both sides have directories, the merge has what the table says. */
  lemma {:induction false} MergeDecides(cfg: Config, base: Node, local: Node, remote: Node, path: Path, depth: nat, p: Path, m: Merged)
    requires base.Dir? && local.Dir? && remote.Dir? && p != [] && OnTheWay(local, p) && OnTheWay(remote, p) && Present(base, local, remote, p)
    requires Merge(cfg, base, local, remote, path, depth) == Ok(m)
    ensures Decided(Find(base, p), Find(local, p), Find(remote, p), Find(m.node, p))
    decreases local, 2, 0
  {
    var all := AllNames(base, local, remote);
    var o := MergedFrom(cfg, base, local, remote, path, depth, m);
    OrderedReady(cfg.rules, all);
    OrderedSet(all);
    PresentName(base, local, remote, p);
    assert p[0] in Set(Ordered(all));
    var out := NamesDecide(cfg, base, local, remote, path, depth, Ordered(all), Ordered(all), p, o);
    ListMakes(cfg.rules, o.entries);
    GivenInNode(o.entries, m.node, p, out);
  }

  /** What is below an entry has directories on the way. */
  lemma {:induction false} FoundIsOnTheWay(n: Node, p: Path)
    requires p != [] && Find(n, p).Some?
    ensures OnTheWay(n, p)
    decreases |p|
  {
    if |p| > 1 {
      FoundIsOnTheWay(Get(n, p[0]).value.node, p[1..]);
    }
  }

  /** What is a directory on both sides is one in the result, under its own name, at every depth. */
  lemma BothDirectories(cfg: Config, base: Node, local: Node, remote: Node, path: Path, depth: nat, p: Path, m: Merged)
    requires base.Dir? && local.Dir? && remote.Dir? && Merge(cfg, base, local, remote, path, depth) == Ok(m)
    requires p != [] && Find(local, p).Some? && Find(local, p).value.node.Dir? && Find(remote, p).Some? && Find(remote, p).value.node.Dir?
    ensures Find(m.node, p).Some? && Find(m.node, p).value.node.Dir?
  {
    FoundIsOnTheWay(local, p);
    FoundIsOnTheWay(remote, p);
    MergeDecides(cfg, base, local, remote, path, depth, p, m);
  }

  // ---- every effect and every request has its reason ----

  /** A move is for a conflict; giving up is for an entry that Local left as it was in Base and Remote did not. */
  predicate Grounded(base: Node, local: Node, remote: Node, path: Path, e: Effect) {
    |e.path| > |path| && path <= e.path &&
    var q := e.path[|path|..];
    match e
    case Move(_, _) => ConflictAt(base, local, remote, q)
    case Drop(_, directory) =>
      && Find(local, q) == Find(base, q) && Find(remote, q) != Find(base, q)
      && (directory <==> Find(local, q).Some? && Find(local, q).value.node.Dir?)
  }

  predicate RequestGrounded(base: Node, local: Node, remote: Node, path: Path, f: Fallback) {
    |f.source| > |path| && path <= f.source && ConflictAt(base, local, remote, f.source[|path|..])
  }

  ghost predicate AllGrounded(base: Node, local: Node, remote: Node, path: Path, effects: seq<Effect>, fallbacks: seq<Fallback>) {
    && (forall e {:trigger Grounded(base, local, remote, path, e)} :: e in effects ==> Grounded(base, local, remote, path, e))
    && (forall f {:trigger RequestGrounded(base, local, remote, path, f)} :: f in fallbacks ==> RequestGrounded(base, local, remote, path, f))
  }

  lemma PathBelow(place: Path, path: Path, name: Bytes)
    requires |place| > |path| + 1 && path + [name] <= place
    ensures path <= place && place[|path|..] == [name] + place[|path| + 1..]
  {
    assert place[..|path| + 1] == path + [name];
    assert place[|path|] == place[..|path| + 1][|path|] == name;
    assert place[..|path|] == place[..|path| + 1][..|path|];
  }

  lemma GroundedAbove(base: Node, local: Node, remote: Node, path: Path, name: Bytes, effects: seq<Effect>, fallbacks: seq<Fallback>)
    requires Get(local, name).Some? && Get(remote, name).Some?
    requires AllGrounded(BaseDirectory(Get(base, name)), Get(local, name).value.node, Get(remote, name).value.node, path + [name], effects, fallbacks)
    ensures AllGrounded(base, local, remote, path, effects, fallbacks)
  {
    var b, l, r := BaseDirectory(Get(base, name)), Get(local, name).value.node, Get(remote, name).value.node;
    forall e | e in effects
      ensures Grounded(base, local, remote, path, e)
    {
      assert Grounded(b, l, r, path + [name], e);
      SameBelow(base, local, remote, path, name, e.path);
    }
    forall f | f in fallbacks
      ensures RequestGrounded(base, local, remote, path, f)
    {
      assert RequestGrounded(b, l, r, path + [name], f);
      SameBelow(base, local, remote, path, name, f.source);
    }
  }

  lemma SameBelow(base: Node, local: Node, remote: Node, path: Path, name: Bytes, place: Path)
    requires Get(local, name).Some? && Get(remote, name).Some? && |place| > |path| + 1 && path + [name] <= place
    ensures path <= place
    ensures Find(base, place[|path|..]) == Find(BaseDirectory(Get(base, name)), place[|path + [name]|..])
    ensures Find(local, place[|path|..]) == Find(Get(local, name).value.node, place[|path + [name]|..])
    ensures Find(remote, place[|path|..]) == Find(Get(remote, name).value.node, place[|path + [name]|..])
  {
    PathBelow(place, path, name);
    BaseBelow(base, name, place[|path| + 1..]);
    SideBelow(local, name, place[|path| + 1..]);
    SideBelow(remote, name, place[|path| + 1..]);
  }

  lemma {:induction false} NameGrounded(cfg: Config, base: Node, local: Node, remote: Node, path: Path, depth: nat, name: Bytes, occupied: seq<Bytes>, o: Outcome)
    requires base.Dir? && local.Dir? && remote.Dir? && MergeName(cfg, base, local, remote, path, depth, name, occupied) == Ok(o)
    ensures AllGrounded(base, local, remote, path, o.effects, o.fallbacks)
    decreases local, 1, 0
  {
    var b, l, r := Get(base, name), Get(local, name), Get(remote, name);
    var child := path + [name];
    assert child[|path|..] == [name] && path <= child;
    if !LocalConflictCopy(b, l, r) && !Settled(b, l, r) {
      CombinedOutcome(cfg, base, local, remote, path, depth, name, occupied);
      if l.value.node.Dir? {
        var m := Merge(cfg, BaseDirectory(b), l.value.node, r.value.node, child, depth + 1).value;
        MergeGrounded(cfg, BaseDirectory(b), l.value.node, r.value.node, child, depth + 1, m);
        GroundedAbove(base, local, remote, path, name, o.effects, o.fallbacks);
      }
    } else if !LocalConflictCopy(b, l, r) {
      assert o.fallbacks == [] && forall e :: e in o.effects ==> e == Drop(child, l.Some? && l.value.node.Dir?);
    } else {
      assert o.fallbacks == [] || (o.effects == [] && o.fallbacks == [Fallback(child, name, l.value)]);
    }
  }

  lemma {:induction false} NamesGrounded(cfg: Config, base: Node, local: Node, remote: Node, path: Path, depth: nat,
                                         names: seq<Bytes>, occupied: seq<Bytes>, o: Outcome)
    requires base.Dir? && local.Dir? && remote.Dir? && MergeNames(cfg, base, local, remote, path, depth, names, occupied) == Ok(o)
    ensures AllGrounded(base, local, remote, path, o.effects, o.fallbacks)
    decreases local, 1, |names|
  {
    if names != [] {
      var first := MergeName(cfg, base, local, remote, path, depth, names[0], occupied).value;
      NameGrounded(cfg, base, local, remote, path, depth, names[0], occupied, first);
      NamesGrounded(cfg, base, local, remote, path, depth, names[1..], first.occupied,
                    MergeNames(cfg, base, local, remote, path, depth, names[1..], first.occupied).value);
    }
  }

  /** Local steps aside only in a conflict, and is given up only where it changed nothing. */
  lemma {:induction false} MergeGrounded(cfg: Config, base: Node, local: Node, remote: Node, path: Path, depth: nat, m: Merged)
    requires base.Dir? && local.Dir? && remote.Dir? && Merge(cfg, base, local, remote, path, depth) == Ok(m)
    ensures AllGrounded(base, local, remote, path, m.effects, m.fallbacks)
    decreases local, 2, 0
  {
    var names := Ordered(AllNames(base, local, remote));
    var o := MergedFrom(cfg, base, local, remote, path, depth, m);
    NamesGrounded(cfg, base, local, remote, path, depth, names, names, o);
  }

  // ---- and every conflict has its effect or its request ----

  /** The entry at the place is moved, or waits for the fallback directory. */
  ghost predicate Answered(effects: seq<Effect>, fallbacks: seq<Fallback>, place: Path) {
    (exists e :: e in effects && e.Move? && e.path == place) || (exists f :: f in fallbacks && f.source == place)
  }

  /** Above a conflict both sides have directories, which are combined. */
  lemma CombinedAbove(base: Node, local: Node, remote: Node, p: Path)
    requires |p| > 1 && OnTheWay(remote, p) && ConflictAt(base, local, remote, p)
    ensures var b, l, r := Get(base, p[0]), Get(local, p[0]), Get(remote, p[0]);
            && l.Some? && l.value.node.Dir? && r.Some? && r.value.node.Dir? && !LocalConflictCopy(b, l, r) && !Settled(b, l, r)
            && OnTheWay(r.value.node, p[1..]) && ConflictAt(BaseDirectory(b), l.value.node, r.value.node, p[1..])
  {
    assert [p[0]] + p[1..] == p;
    FoundIsOnTheWay(local, p);
    BaseBelow(base, p[0], p[1..]);
  }

  lemma AsideAnswers(cfg: Config, path: Path, name: Bytes, l: Slot, r: Option<Slot>, occupied: seq<Bytes>, o: Outcome)
    requires StepAside(cfg, path, name, l, r, occupied) == Ok(o)
    ensures Answered(o.effects, o.fallbacks, path + [name])
  {
    if o.fallbacks == [] {
      assert o.effects[0] in o.effects && o.effects[0].Move?;
    } else {
      assert o.fallbacks[0] in o.fallbacks;
    }
  }

  lemma ConflictHere(base: Node, local: Node, remote: Node, p: Path)
    requires |p| == 1 && ConflictAt(base, local, remote, p)
    ensures Get(local, p[0]).Some? && LocalConflictCopy(Get(base, p[0]), Get(local, p[0]), Get(remote, p[0]))
  {
  }

  lemma NameAnswersHere(cfg: Config, base: Node, local: Node, remote: Node, path: Path, depth: nat, name: Bytes, occupied: seq<Bytes>, o: Outcome)
    requires base.Dir? && local.Dir? && remote.Dir? && MergeName(cfg, base, local, remote, path, depth, name, occupied) == Ok(o)
    requires Get(local, name).Some? && LocalConflictCopy(Get(base, name), Get(local, name), Get(remote, name))
    ensures Answered(o.effects, o.fallbacks, path + [name])
  {
    AsideAnswers(cfg, path, name, Get(local, name).value, Get(remote, name), occupied, o);
  }

  lemma {:induction false} NameAnswers(cfg: Config, base: Node, local: Node, remote: Node, path: Path, depth: nat, occupied: seq<Bytes>, p: Path, o: Outcome)
    requires base.Dir? && local.Dir? && remote.Dir? && OnTheWay(remote, p) && ConflictAt(base, local, remote, p)
    requires MergeName(cfg, base, local, remote, path, depth, p[0], occupied) == Ok(o)
    ensures Answered(o.effects, o.fallbacks, path + p)
    decreases local, 1, 0
  {
    if |p| == 1 {
      assert p == [p[0]];
      ConflictHere(base, local, remote, p);
      NameAnswersHere(cfg, base, local, remote, path, depth, p[0], occupied, o);
    } else {
      CombinedAbove(base, local, remote, p);
      CombinedAnswers(cfg, base, local, remote, path, depth, p[0], occupied, p[1..], o);
      assert path + [p[0]] + p[1..] == path + p;
    }
  }

  lemma {:induction false} CombinedAnswers(cfg: Config, base: Node, local: Node, remote: Node, path: Path, depth: nat, name: Bytes,
                                           occupied: seq<Bytes>, q: Path, o: Outcome)
    requires base.Dir? && local.Dir? && remote.Dir? && MergeName(cfg, base, local, remote, path, depth, name, occupied) == Ok(o)
    requires var b, l, r := Get(base, name), Get(local, name), Get(remote, name);
             && l.Some? && l.value.node.Dir? && r.Some? && r.value.node.Dir? && !LocalConflictCopy(b, l, r) && !Settled(b, l, r)
             && OnTheWay(r.value.node, q) && ConflictAt(BaseDirectory(b), l.value.node, r.value.node, q)
    ensures Answered(o.effects, o.fallbacks, path + [name] + q)
    decreases local, 0, 0
  {
    var b, l, r := Get(base, name), Get(local, name).value, Get(remote, name).value;
    CombinedOutcome(cfg, base, local, remote, path, depth, name, occupied);
    MergeAnswers(cfg, BaseDirectory(b), l.node, r.node, path + [name], depth + 1, q,
                 Merge(cfg, BaseDirectory(b), l.node, r.node, path + [name], depth + 1).value);
  }

  lemma AnsweredMore(a: Outcome, b: Outcome, place: Path)
    requires Answered(a.effects, a.fallbacks, place) || Answered(b.effects, b.fallbacks, place)
    ensures Answered(a.effects + b.effects, a.fallbacks + b.fallbacks, place)
  {
  }

  lemma {:induction false} NamesAnswer(cfg: Config, base: Node, local: Node, remote: Node, path: Path, depth: nat,
                                       names: seq<Bytes>, occupied: seq<Bytes>, p: Path, o: Outcome)
    requires base.Dir? && local.Dir? && remote.Dir? && OnTheWay(remote, p) && ConflictAt(base, local, remote, p) && p[0] in names
    requires MergeNames(cfg, base, local, remote, path, depth, names, occupied) == Ok(o)
    ensures Answered(o.effects, o.fallbacks, path + p)
    decreases local, 1, |names|
  {
    var first := MergeName(cfg, base, local, remote, path, depth, names[0], occupied).value;
    var rest := MergeNames(cfg, base, local, remote, path, depth, names[1..], first.occupied).value;
    if p[0] == names[0] {
      NameAnswers(cfg, base, local, remote, path, depth, occupied, p, first);
    } else {
      NamesAnswer(cfg, base, local, remote, path, depth, names[1..], first.occupied, p, rest);
    }
    AnsweredMore(first, rest, path + p);
  }

  /** Every conflict to which both sides have directories moves Local's entry aside or asks for the fallback directory. */
  lemma {:induction false} MergeAnswers(cfg: Config, base: Node, local: Node, remote: Node, path: Path, depth: nat, p: Path, m: Merged)
    requires base.Dir? && local.Dir? && remote.Dir? && OnTheWay(remote, p) && ConflictAt(base, local, remote, p)
    requires Merge(cfg, base, local, remote, path, depth) == Ok(m)
    ensures Answered(m.effects, m.fallbacks, path + p)
    decreases local, 2, 0
  {
    var all := AllNames(base, local, remote);
    var o := MergedFrom(cfg, base, local, remote, path, depth, m);
    OrderedSet(all);
    PresentName(base, local, remote, p);
    assert p[0] in Set(Ordered(all));
    NamesAnswer(cfg, base, local, remote, path, depth, Ordered(all), Ordered(all), p, o);
  }

  // ---- what is followed elsewhere was in a conflict ----

  lemma {:induction false} FirstMove(effects: seq<Effect>, p: Path) returns (e: Effect)
    requires Follow(effects, p).Some? && Follow(effects, p).value != p
    ensures e in effects && e.Move? && e.path <= p
  {
    e := effects[0];
    if !(e.Move? && e.path <= p) {
      e := FirstMove(effects[1..], p);
    }
  }

  /** A file that the merge moves has a conflict at its path or above. */
  lemma MovedInConflict(cfg: Config, base: Node, local: Node, remote: Node, p: Path, m: Merged) returns (k: nat)
    requires base.Dir? && local.Dir? && remote.Dir? && Merge(cfg, base, local, remote, [], 0) == Ok(m)
    requires (Follow(m.effects, p).Some? && Follow(m.effects, p).value != p) || exists f :: f in m.fallbacks && f.source <= p
    ensures 1 <= k <= |p| && ConflictAt(base, local, remote, p[..k])
  {
    MergeGrounded(cfg, base, local, remote, [], 0, m);
    var at: Path;
    if f :| f in m.fallbacks && f.source <= p {
      assert RequestGrounded(base, local, remote, [], f);
      at := f.source;
    } else {
      var e := FirstMove(m.effects, p);
      assert Grounded(base, local, remote, [], e);
      at := e.path;
    }
    k := |at|;
    assert at[0..] == at && p[..k] == at;
  }
}
