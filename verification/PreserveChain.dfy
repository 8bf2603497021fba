/**
  Creations whose inode was not written down before a crash: what is at their place may be the
  user's, so it is only ever renamed, to the first free recovery name, along a chain of actions.
 */
module PreserveChain {
  import opened Wrappers
  import opened Bytes
  import opened FileSystem

  /** Action identities; new ones were never used before. */
  type Id = nat

  datatype Outcome = NoOutcome | RolledBack | PreserveUnknown | Collision

  datatype RowKind = CreateRow | PreserveRow | OtherRow

  /** A row of the action journal, as far as these chains are concerned. */
  datatype Row = Row(id: Id, kind: RowKind, origin: Option<Id>, attempt: nat, parent: Bytes, dir: Ino, source: Name, target: Name,
                     isDir: bool, ino: Option<Ino>, outcome: Outcome, completed: bool)

  /** What survives a crash: the files, the journal, the state of the checkout and which of its paths a creation belongs to. */
  datatype Store = Store(fs: FS, rows: seq<Row>, rollingBack: bool, creators: map<Bytes, Id>, parents: map<Bytes, Bytes>, nextId: Id)

  function From(r: Row): Place {
    Place(r.dir, r.source)
  }

  function To(r: Row): Place {
    Place(r.dir, r.target)
  }

  // ---- the validator ----

  predicate Linked(r: Row, origin: Id, attempt: nat) {
    r.origin == Some(origin) && r.attempt == attempt
  }

  predicate HasAttempt(rows: seq<Row>, origin: Id, attempt: nat) {
    exists k :: 0 <= k < |rows| && Linked(rows[k], origin, attempt)
  }

  /** A creation that was given up because its inode was unknown. */
  predicate OriginOk(r: Row) {
    r.kind.CreateRow? && r.origin.None? && r.attempt == 0 && r.completed && r.outcome.RolledBack? && r.ino.None?
  }

  /** The checkout paths a creation is bound to, in the right directory. */
  function Bound(s: Store, id: Id, parent: Bytes): set<Bytes> {
    set p | p in s.creators && s.creators[p] == id && p in s.parents && s.parents[p] == parent
  }

  predicate SameChain(r: Row, origin: Row) {
    r.parent == origin.parent && r.dir == origin.dir && r.source == origin.source && r.isDir == origin.isDir
  }

  /** A row of a preserve chain: its origin, its place in the chain, and its name. */
  predicate ChainRowOk(s: Store, leaf: (Bytes, Id, nat) -> Option<Name>, r: Row)
    requires r.origin.Some?
  {
    && r.kind.PreserveRow? && r.attempt >= 1
    && (exists o :: 0 <= o < |s.rows| && s.rows[o].id == r.origin.value && OriginOk(s.rows[o]) && SameChain(r, s.rows[o])
                    && |Bound(s, s.rows[o].id, s.rows[o].parent)| == 1)
    && s.rollingBack && leaf(r.parent, r.origin.value, r.attempt) == Some(r.target)
    && (r.attempt > 1 ==> HasAttempt(s.rows, r.origin.value, r.attempt - 1))
    && (r.outcome.Collision? <==> HasAttempt(s.rows, r.origin.value, r.attempt + 1))
    && (r.outcome.Collision? ==> r.completed) && (!r.outcome.Collision? ==> r.outcome.PreserveUnknown?)
  }

  predicate RowOk(s: Store, leaf: (Bytes, Id, nat) -> Option<Name>, r: Row) {
    && (r.origin.Some? ==> ChainRowOk(s, leaf, r))
    && (r.outcome.RolledBack? ==> HasAttempt(s.rows, r.id, 1))
  }

  predicate Distinct(rows: seq<Row>) {
    && (forall j, k :: 0 <= j < k < |rows| ==> rows[j].id != rows[k].id)
    && (forall j, k :: 0 <= j < k < |rows| && rows[j].origin.Some? && rows[j].origin == rows[k].origin ==> rows[j].attempt != rows[k].attempt)
  }

  /** What the journal's validator accepts. */
  predicate Accepted(s: Store, leaf: (Bytes, Id, nat) -> Option<Name>) {
    Distinct(s.rows) && forall k :: 0 <= k < |s.rows| ==> RowOk(s, leaf, s.rows[k])
  }

  predicate Valid(s: Store, leaf: (Bytes, Id, nat) -> Option<Name>) {
    Accepted(s, leaf) && forall k :: 0 <= k < |s.rows| ==> s.rows[k].id < s.nextId
  }

  /** Looks for an identity or an attempt met before, and then at every row. */
  method ValidateJournal(s: Store, leaf: (Bytes, Id, nat) -> Option<Name>) returns (ok: bool)
    ensures ok <==> Accepted(s, leaf)
  {
    var ids: set<Id>, links: set<(Id, nat)> := {}, {};
    var k := 0;
    while k < |s.rows|
      invariant 0 <= k <= |s.rows| && Distinct(s.rows[..k])
      invariant forall id :: id in ids <==> exists j :: 0 <= j < k && s.rows[j].id == id
      invariant forall link :: link in links <==> exists j :: 0 <= j < k && Linked(s.rows[j], link.0, link.1)
    {
      var r := s.rows[k];
      if r.id in ids || (r.origin.Some? && (r.origin.value, r.attempt) in links) {
        return false;
      }
      assert s.rows[..k + 1] == s.rows[..k] + [r];
      ids := ids + {r.id};
      if r.origin.Some? {
        links := links + {(r.origin.value, r.attempt)};
      }
      k := k + 1;
    }
    assert s.rows[..k] == s.rows;
    return forall j :: 0 <= j < |s.rows| ==> RowOk(s, leaf, s.rows[j]);
  }

  /** Attempts go down to the first without a gap. */
  lemma {:induction false} Contiguous(s: Store, leaf: (Bytes, Id, nat) -> Option<Name>, k: nat, attempt: nat)
    requires Valid(s, leaf) && k < |s.rows| && s.rows[k].origin.Some? && 1 <= attempt <= s.rows[k].attempt
    ensures HasAttempt(s.rows, s.rows[k].origin.value, attempt)
    decreases s.rows[k].attempt
  {
    var r := s.rows[k];
    assert RowOk(s, leaf, r);
    if attempt == r.attempt {
      assert Linked(r, r.origin.value, attempt);
    } else {
      var j :| 0 <= j < |s.rows| && Linked(s.rows[j], r.origin.value, r.attempt - 1);
      Contiguous(s, leaf, j, attempt);
    }
  }

  /** A chain has one live tail: the only row that is not a collision is the last attempt. */
  lemma OneLiveTail(s: Store, leaf: (Bytes, Id, nat) -> Option<Name>, j: nat, k: nat)
    requires Valid(s, leaf) && j < |s.rows| && k < |s.rows| && s.rows[j].origin.Some? && s.rows[j].origin == s.rows[k].origin
    requires !s.rows[j].outcome.Collision?
    ensures s.rows[k].attempt <= s.rows[j].attempt && (!s.rows[k].outcome.Collision? ==> j == k)
  {
    assert RowOk(s, leaf, s.rows[j]) && RowOk(s, leaf, s.rows[k]);
    if s.rows[k].attempt > s.rows[j].attempt {
      Contiguous(s, leaf, k, s.rows[j].attempt + 1);
    } else if !s.rows[k].outcome.Collision? && s.rows[k].attempt < s.rows[j].attempt {
      Contiguous(s, leaf, j, s.rows[k].attempt + 1);
    }
  }

  /** Every chain has a live tail. */
  lemma {:induction false} TailExists(s: Store, leaf: (Bytes, Id, nat) -> Option<Name>, k: nat, limit: nat) returns (tail: nat)
    requires Valid(s, leaf) && k < |s.rows| && s.rows[k].origin.Some?
    requires forall j :: 0 <= j < |s.rows| && s.rows[j].origin == s.rows[k].origin ==> s.rows[j].attempt <= limit
    ensures tail < |s.rows| && s.rows[tail].origin == s.rows[k].origin && !s.rows[tail].outcome.Collision?
    decreases limit - s.rows[k].attempt
  {
    if s.rows[k].outcome.Collision? {
      var j := AttemptAfter(s, leaf, k);
      tail := TailExists(s, leaf, j, limit);
    } else {
      tail := k;
    }
  }

  lemma AttemptAfter(s: Store, leaf: (Bytes, Id, nat) -> Option<Name>, k: nat) returns (j: nat)
    requires Valid(s, leaf) && k < |s.rows| && s.rows[k].origin.Some? && s.rows[k].outcome.Collision?
    ensures j < |s.rows| && s.rows[j].origin == s.rows[k].origin && s.rows[j].attempt == s.rows[k].attempt + 1
  {
    assert RowOk(s, leaf, s.rows[k]);
    var origin, next := s.rows[k].origin.value, s.rows[k].attempt + 1;
    assert HasAttempt(s.rows, origin, next);
    j :| 0 <= j < |s.rows| && Linked(s.rows[j], origin, next);
  }

  // ---- the writers ----

  /** An intended creation that never learned its inode. */
  predicate UnknownCreation(r: Row) {
    r.kind.CreateRow? && r.origin.None? && r.attempt == 0 && !r.completed && r.outcome.NoOutcome? && r.ino.None?
  }

  predicate LiveTail(r: Row) {
    r.kind.PreserveRow? && r.origin.Some? && !r.completed && r.outcome.PreserveUnknown?
  }

  /** One transaction: the creation is given up, and the first preserve action is intended. */
  function GivenUp(s: Store, k: nat, target: Name): Store
    requires k < |s.rows|
  {
    var r := s.rows[k];
    s.(rows := s.rows[k := r.(completed := true, outcome := RolledBack)] +
               [Row(s.nextId, PreserveRow, Some(r.id), 1, r.parent, r.dir, r.source, target, r.isDir, None, PreserveUnknown, false)],
       rollingBack := true, nextId := s.nextId + 1)
  }

  /** One transaction: the name is taken, and the next one is intended. */
  function Advanced(s: Store, k: nat, target: Name): Store
    requires k < |s.rows|
  {
    var r := s.rows[k];
    s.(rows := s.rows[k := r.(completed := true, outcome := Collision)] +
               [r.(id := s.nextId, attempt := r.attempt + 1, target := target)],
       nextId := s.nextId + 1)
  }

  function Completed(s: Store, k: nat): Store
    requires k < |s.rows|
  {
    s.(rows := s.rows[k := s.rows[k].(completed := true)])
  }

  /** Rows may be completed and appended; what a chain row of another chain needs is still there. */
  lemma AttemptsStay(before: seq<Row>, after: seq<Row>, origin: Id, attempt: nat)
    requires |before| <= |after|
    requires forall j :: 0 <= j < |before| ==> after[j].origin == before[j].origin && after[j].attempt == before[j].attempt
    ensures HasAttempt(before, origin, attempt) ==> HasAttempt(after, origin, attempt)
    ensures HasAttempt(after, origin, attempt) ==>
              HasAttempt(before, origin, attempt) || exists j :: |before| <= j < |after| && Linked(after[j], origin, attempt)
  {
    if HasAttempt(before, origin, attempt) {
      var j :| 0 <= j < |before| && Linked(before[j], origin, attempt);
      assert Linked(after[j], origin, attempt);
    }
    if HasAttempt(after, origin, attempt) {
      var j :| 0 <= j < |after| && Linked(after[j], origin, attempt);
      assert j < |before| ==> Linked(before[j], origin, attempt);
    }
  }

  /** The creation a chain row comes from. */
  predicate IsOrigin(s: Store, r: Row, o: nat)
    requires r.origin.Some?
  {
    && o < |s.rows| && s.rows[o].id == r.origin.value && OriginOk(s.rows[o]) && SameChain(r, s.rows[o])
    && |Bound(s, s.rows[o].id, s.rows[o].parent)| == 1
  }

  lemma OriginOf(s: Store, leaf: (Bytes, Id, nat) -> Option<Name>, k: nat) returns (o: nat)
    requires Valid(s, leaf) && k < |s.rows| && s.rows[k].origin.Some?
    ensures IsOrigin(s, s.rows[k], o)
  {
    assert RowOk(s, leaf, s.rows[k]);
    o :| 0 <= o < |s.rows| && s.rows[o].id == s.rows[k].origin.value && OriginOk(s.rows[o]) && SameChain(s.rows[k], s.rows[o])
         && |Bound(s, s.rows[o].id, s.rows[o].parent)| == 1;
  }

  /** Nobody is linked to a creation that was not given up. */
  lemma NoChainYet(s: Store, leaf: (Bytes, Id, nat) -> Option<Name>, k: nat, j: nat)
    requires Valid(s, leaf) && k < |s.rows| && UnknownCreation(s.rows[k]) && j < |s.rows|
    ensures s.rows[j].origin != Some(s.rows[k].id)
  {
    if s.rows[j].origin.Some? {
      var o := OriginOf(s, leaf, j);
      assert o != k;
      assert s.rows[o].id != s.rows[k].id;
    }
  }

  /** A chain row stays right when the attempts of its chain, its origin, and the checkout's state do. */
  lemma ChainRowStays(s: Store, t: Store, leaf: (Bytes, Id, nat) -> Option<Name>, r: Row)
    requires r.origin.Some? && ChainRowOk(s, leaf, r) && t.rollingBack && t.creators == s.creators && t.parents == s.parents
    requires forall o :: 0 <= o < |s.rows| && OriginOk(s.rows[o]) ==> o < |t.rows| && t.rows[o] == s.rows[o]
    requires r.attempt > 1 ==> HasAttempt(t.rows, r.origin.value, r.attempt - 1)
    requires HasAttempt(t.rows, r.origin.value, r.attempt + 1) == HasAttempt(s.rows, r.origin.value, r.attempt + 1)
    ensures ChainRowOk(t, leaf, r)
  {
    var o :| 0 <= o < |s.rows| && s.rows[o].id == r.origin.value && OriginOk(s.rows[o]) && SameChain(r, s.rows[o])
             && |Bound(s, s.rows[o].id, s.rows[o].parent)| == 1;
    assert t.rows[o] == s.rows[o];
    assert Bound(t, s.rows[o].id, s.rows[o].parent) == Bound(s, s.rows[o].id, s.rows[o].parent);
  }

  lemma GivenUpChainRow(s: Store, t: Store, leaf: (Bytes, Id, nat) -> Option<Name>, k: nat, target: Name, r: Row)
    requires k < |s.rows| && UnknownCreation(s.rows[k]) && t == GivenUp(s, k, target)
    requires r.origin.Some? && ChainRowOk(s, leaf, r) && r.origin != Some(s.rows[k].id)
    ensures ChainRowOk(t, leaf, r)
  {
    AttemptsStay(s.rows, t.rows, r.origin.value, r.attempt + 1);
    if r.attempt > 1 {
      AttemptsStay(s.rows, t.rows, r.origin.value, r.attempt - 1);
    }
    ChainRowStays(s, t, leaf, r);
  }

  lemma GivenUpRow(s: Store, leaf: (Bytes, Id, nat) -> Option<Name>, k: nat, target: Name, j: nat)
    requires Valid(s, leaf) && k < |s.rows| && UnknownCreation(s.rows[k]) && j < |s.rows| && j != k
    ensures RowOk(GivenUp(s, k, target), leaf, s.rows[j])
  {
    var r := s.rows[j];
    assert RowOk(s, leaf, r);
    NoChainYet(s, leaf, k, j);
    if r.origin.Some? {
      GivenUpChainRow(s, GivenUp(s, k, target), leaf, k, target, r);
    }
    if r.outcome.RolledBack? {
      AttemptsStay(s.rows, GivenUp(s, k, target).rows, r.id, 1);
    }
  }

  lemma GivenUpNew(s: Store, leaf: (Bytes, Id, nat) -> Option<Name>, k: nat, target: Name)
    requires Valid(s, leaf) && k < |s.rows| && UnknownCreation(s.rows[k]) && |Bound(s, s.rows[k].id, s.rows[k].parent)| == 1
    requires leaf(s.rows[k].parent, s.rows[k].id, 1) == Some(target)
    ensures var t := GivenUp(s, k, target); RowOk(t, leaf, t.rows[k]) && RowOk(t, leaf, t.rows[|s.rows|])
  {
    var t := GivenUp(s, k, target);
    var id, last := s.rows[k].id, |s.rows|;
    assert Linked(t.rows[last], id, 1);
    assert Bound(t, id, s.rows[k].parent) == Bound(s, id, s.rows[k].parent);
    assert t.rows[k].id == id && OriginOk(t.rows[k]) && SameChain(t.rows[last], t.rows[k]);
    if HasAttempt(t.rows, id, 2) {
      var j :| 0 <= j < |t.rows| && Linked(t.rows[j], id, 2);
      if j < last && j != k {
        NoChainYet(s, leaf, k, j);
      }
    }
  }

  lemma GivenUpValid(s: Store, leaf: (Bytes, Id, nat) -> Option<Name>, k: nat, target: Name)
    requires Valid(s, leaf) && k < |s.rows| && UnknownCreation(s.rows[k]) && |Bound(s, s.rows[k].id, s.rows[k].parent)| == 1
    requires leaf(s.rows[k].parent, s.rows[k].id, 1) == Some(target)
    ensures Valid(GivenUp(s, k, target), leaf)
  {
    var t := GivenUp(s, k, target);
    GivenUpNew(s, leaf, k, target);
    forall j | 0 <= j < |t.rows|
      ensures RowOk(t, leaf, t.rows[j])
    {
      if j < |s.rows| && j != k {
        GivenUpRow(s, leaf, k, target, j);
      }
    }
    forall j | 0 <= j < |s.rows|
      ensures s.rows[j].origin != Some(s.rows[k].id)
    {
      NoChainYet(s, leaf, k, j);
    }
  }

  lemma AdvancedChainRow(s: Store, t: Store, leaf: (Bytes, Id, nat) -> Option<Name>, k: nat, target: Name, r: Row)
    requires k < |s.rows| && LiveTail(s.rows[k]) && s.rollingBack && t == Advanced(s, k, target)
    requires r.origin.Some? && ChainRowOk(s, leaf, r) && (r.origin == s.rows[k].origin ==> r.attempt != s.rows[k].attempt)
    ensures ChainRowOk(t, leaf, r)
  {
    AttemptsStay(s.rows, t.rows, r.origin.value, r.attempt + 1);
    if r.attempt > 1 {
      AttemptsStay(s.rows, t.rows, r.origin.value, r.attempt - 1);
    }
    ChainRowStays(s, t, leaf, r);
  }

  lemma AdvancedRow(s: Store, leaf: (Bytes, Id, nat) -> Option<Name>, k: nat, target: Name, j: nat)
    requires Valid(s, leaf) && k < |s.rows| && LiveTail(s.rows[k]) && j < |s.rows| && j != k
    ensures RowOk(Advanced(s, k, target), leaf, s.rows[j])
  {
    var r := s.rows[j];
    assert RowOk(s, leaf, r) && RowOk(s, leaf, s.rows[k]);
    if r.origin.Some? {
      AdvancedChainRow(s, Advanced(s, k, target), leaf, k, target, r);
    }
    if r.outcome.RolledBack? {
      AttemptsStay(s.rows, Advanced(s, k, target).rows, r.id, 1);
    }
  }

  /** What a chain row needs, given its origin and the attempts around it. */
  lemma ChainRowFrom(t: Store, leaf: (Bytes, Id, nat) -> Option<Name>, r: Row, o: nat)
    requires r.origin.Some? && IsOrigin(t, r, o) && r.kind.PreserveRow? && r.attempt >= 1 && t.rollingBack
    requires leaf(r.parent, r.origin.value, r.attempt) == Some(r.target)
    requires r.attempt > 1 ==> HasAttempt(t.rows, r.origin.value, r.attempt - 1)
    requires r.outcome.Collision? <==> HasAttempt(t.rows, r.origin.value, r.attempt + 1)
    requires (r.outcome.Collision? && r.completed) || r.outcome.PreserveUnknown?
    ensures RowOk(t, leaf, r)
  {
  }

  lemma OriginStays(s: Store, t: Store, r: Row, o: nat, next: Row)
    requires r.origin.Some? && IsOrigin(s, r, o) && o < |t.rows| && t.rows[o] == s.rows[o]
    requires t.creators == s.creators && t.parents == s.parents && next.origin == r.origin && SameChain(next, r)
    ensures IsOrigin(t, next, o)
  {
    assert Bound(t, s.rows[o].id, s.rows[o].parent) == Bound(s, s.rows[o].id, s.rows[o].parent);
  }

  lemma NoLaterAttempt(s: Store, leaf: (Bytes, Id, nat) -> Option<Name>, k: nat)
    requires Valid(s, leaf) && k < |s.rows| && LiveTail(s.rows[k])
    ensures var tail := s.rows[k]; forall n :: n > tail.attempt ==> !HasAttempt(s.rows, tail.origin.value, n)
  {
    var tail := s.rows[k];
    assert RowOk(s, leaf, tail);
    forall n | n > tail.attempt
      ensures !HasAttempt(s.rows, tail.origin.value, n)
    {
      if HasAttempt(s.rows, tail.origin.value, n) {
        var j :| 0 <= j < |s.rows| && Linked(s.rows[j], tail.origin.value, n);
        Contiguous(s, leaf, j, tail.attempt + 1);
      }
    }
  }

  lemma AdvancedNew(s: Store, leaf: (Bytes, Id, nat) -> Option<Name>, k: nat, target: Name)
    requires Valid(s, leaf) && k < |s.rows| && LiveTail(s.rows[k])
    requires leaf(s.rows[k].parent, s.rows[k].origin.value, s.rows[k].attempt + 1) == Some(target)
    ensures var t := Advanced(s, k, target); RowOk(t, leaf, t.rows[k]) && RowOk(t, leaf, t.rows[|s.rows|])
  {
    var t, tail := Advanced(s, k, target), s.rows[k];
    var o := OriginOf(s, leaf, k);
    assert RowOk(s, leaf, tail);
    AdvancedAttempts(s, leaf, k, target);
    AdvancedTail(s, t, leaf, tail, o, t.rows[k]);
    AdvancedTail(s, t, leaf, tail, o, t.rows[|s.rows|]);
  }

  /** The attempts of the chain are those of before and one more. */
  lemma AdvancedAttempts(s: Store, leaf: (Bytes, Id, nat) -> Option<Name>, k: nat, target: Name)
    requires Valid(s, leaf) && k < |s.rows| && LiveTail(s.rows[k])
    ensures var rows, origin, a := Advanced(s, k, target).rows, s.rows[k].origin.value, s.rows[k].attempt;
            && HasAttempt(rows, origin, a) && HasAttempt(rows, origin, a + 1) && !HasAttempt(rows, origin, a + 2)
            && (a > 1 ==> HasAttempt(rows, origin, a - 1))
  {
    var rows, tail := Advanced(s, k, target).rows, s.rows[k];
    var origin := tail.origin.value;
    assert RowOk(s, leaf, tail);
    NoLaterAttempt(s, leaf, k);
    assert Linked(rows[k], origin, tail.attempt) && Linked(rows[|s.rows|], origin, tail.attempt + 1);
    AttemptsStay(s.rows, rows, origin, tail.attempt + 2);
    if tail.attempt > 1 {
      AttemptsStay(s.rows, rows, origin, tail.attempt - 1);
    }
  }

  lemma AdvancedTail(s: Store, t: Store, leaf: (Bytes, Id, nat) -> Option<Name>, tail: Row, o: nat, r: Row)
    requires tail.origin.Some? && IsOrigin(s, tail, o) && o < |t.rows| && t.rows[o] == s.rows[o]
    requires t.creators == s.creators && t.parents == s.parents && r.origin == tail.origin && SameChain(r, tail)
    requires r.kind.PreserveRow? && r.attempt >= 1 && t.rollingBack && leaf(r.parent, r.origin.value, r.attempt) == Some(r.target)
    requires r.attempt > 1 ==> HasAttempt(t.rows, r.origin.value, r.attempt - 1)
    requires r.outcome.Collision? <==> HasAttempt(t.rows, r.origin.value, r.attempt + 1)
    requires (r.outcome.Collision? && r.completed) || r.outcome.PreserveUnknown?
    ensures RowOk(t, leaf, r)
  {
    OriginStays(s, t, tail, o, r);
    ChainRowFrom(t, leaf, r, o);
  }

  lemma AdvancedDistinct(s: Store, leaf: (Bytes, Id, nat) -> Option<Name>, k: nat, target: Name)
    requires Valid(s, leaf) && k < |s.rows| && LiveTail(s.rows[k])
    ensures Distinct(Advanced(s, k, target).rows)
  {
    NoLaterAttempt(s, leaf, k);
    var tail := s.rows[k];
    forall j | 0 <= j < |s.rows|
      ensures !Linked(s.rows[j], tail.origin.value, tail.attempt + 1)
    {
      assert !HasAttempt(s.rows, tail.origin.value, tail.attempt + 1);
    }
  }

  lemma AdvancedValid(s: Store, leaf: (Bytes, Id, nat) -> Option<Name>, k: nat, target: Name)
    requires Valid(s, leaf) && k < |s.rows| && LiveTail(s.rows[k])
    requires leaf(s.rows[k].parent, s.rows[k].origin.value, s.rows[k].attempt + 1) == Some(target)
    ensures Valid(Advanced(s, k, target), leaf)
  {
    var t := Advanced(s, k, target);
    AdvancedDistinct(s, leaf, k, target);
    AdvancedNew(s, leaf, k, target);
    forall j | 0 <= j < |t.rows|
      ensures RowOk(t, leaf, t.rows[j])
    {
      if j < |s.rows| && j != k {
        AdvancedRow(s, leaf, k, target, j);
      }
    }
  }

  lemma LinksSame(before: seq<Row>, after: seq<Row>, origin: Id, attempt: nat)
    requires |before| == |after|
    requires forall j :: 0 <= j < |before| ==> after[j].origin == before[j].origin && after[j].attempt == before[j].attempt
    ensures HasAttempt(before, origin, attempt) == HasAttempt(after, origin, attempt)
  {
    AttemptsStay(before, after, origin, attempt);
  }

  lemma CompletedChainRow(s: Store, t: Store, leaf: (Bytes, Id, nat) -> Option<Name>, k: nat, r: Row)
    requires k < |s.rows| && LiveTail(s.rows[k]) && t == Completed(s, k) && r.origin.Some? && ChainRowOk(s, leaf, r)
    ensures ChainRowOk(t, leaf, r)
  {
    LinksSame(s.rows, t.rows, r.origin.value, r.attempt + 1);
    if r.attempt > 1 {
      LinksSame(s.rows, t.rows, r.origin.value, r.attempt - 1);
    }
    ChainRowStays(s, t, leaf, r);
  }

  lemma CompletedRow(s: Store, leaf: (Bytes, Id, nat) -> Option<Name>, k: nat, j: nat)
    requires Valid(s, leaf) && k < |s.rows| && LiveTail(s.rows[k]) && j < |s.rows|
    ensures RowOk(Completed(s, k), leaf, s.rows[j])
  {
    var r := s.rows[j];
    assert RowOk(s, leaf, r);
    if r.origin.Some? {
      CompletedChainRow(s, Completed(s, k), leaf, k, r);
    }
    if r.outcome.RolledBack? {
      LinksSame(s.rows, Completed(s, k).rows, r.id, 1);
    }
  }

  lemma CompletedOne(t: Store, leaf: (Bytes, Id, nat) -> Option<Name>, r: Row)
    requires RowOk(t, leaf, r) && LiveTail(r)
    ensures RowOk(t, leaf, r.(completed := true))
  {
    var o :| 0 <= o < |t.rows| && t.rows[o].id == r.origin.value && OriginOk(t.rows[o]) && SameChain(r, t.rows[o])
             && |Bound(t, t.rows[o].id, t.rows[o].parent)| == 1;
    ChainRowFrom(t, leaf, r.(completed := true), o);
  }

  lemma CompletedValid(s: Store, leaf: (Bytes, Id, nat) -> Option<Name>, k: nat)
    requires Valid(s, leaf) && k < |s.rows| && LiveTail(s.rows[k])
    ensures Valid(Completed(s, k), leaf)
  {
    var t := Completed(s, k);
    forall j | 0 <= j < |t.rows|
      ensures RowOk(t, leaf, t.rows[j])
    {
      CompletedRow(s, leaf, k, j);
      if j == k {
        CompletedOne(t, leaf, s.rows[k]);
      }
    }
  }

  // ---- what becomes of the unknown inode ----

  const MaxAttempts: nat := 9999

  ghost predicate Bounded(leaf: (Bytes, Id, nat) -> Option<Name>) {
    forall parent, id, n :: n > MaxAttempts ==> leaf(parent, id, n) == None
  }

  predicate TakenName(fs: FS, dir: Ino, name: Option<Name>) {
    name.Some? && Occupied(fs, Place(dir, name.value))
  }

  /** Every recovery name before the given one is taken. */
  predicate Tried(leaf: (Bytes, Id, nat) -> Option<Name>, fs: FS, parent: Bytes, dir: Ino, id: Id, attempt: nat) {
    forall n :: 1 <= n < attempt ==> TakenName(fs, dir, leaf(parent, id, n))
  }

  /** The unknown inode went to the first recovery name that was free. */
  ghost predicate MovedToFirst(leaf: (Bytes, Id, nat) -> Option<Name>, before: FS, after: FS, parent: Bytes, from: Place, id: Id, attempt: nat) {
    && leaf(parent, id, attempt).Some? && !Occupied(before, Place(from.dir, leaf(parent, id, attempt).value))
    && Tried(leaf, before, parent, from.dir, id, attempt) && IsDir(before, from.dir)
    && exists i :: Holds(before, from, i) && after == Move(before, i, Place(from.dir, leaf(parent, id, attempt).value))
  }

  /** There is only one such end: neither crashes nor repetition can lead elsewhere. */
  lemma FirstIsUnique(leaf: (Bytes, Id, nat) -> Option<Name>, before: FS, a: FS, b: FS, parent: Bytes, from: Place, id: Id, m: nat, n: nat)
    requires WellFormed(before) && m >= 1 && n >= 1
    requires MovedToFirst(leaf, before, a, parent, from, id, m) && MovedToFirst(leaf, before, b, parent, from, id, n)
    ensures a == b && m == n
  {
    assert m == n;
    var i :| Holds(before, from, i) && a == Move(before, i, Place(from.dir, leaf(parent, id, m).value));
    assert Sole(before, i);
  }

  /** The chain's live tail: the inode was not moved and all earlier names are taken, or it was moved to the tail's name. */
  ghost predicate Chasing(leaf: (Bytes, Id, nat) -> Option<Name>, s: Store, before: FS, tail: nat) {
    tail < |s.rows| && LiveTail(s.rows[tail]) && WellFormed(before) && Valid(s, leaf) &&
    var r := s.rows[tail];
    Occupied(before, From(r)) &&
    ((s.fs == before && Tried(leaf, before, r.parent, r.dir, r.origin.value, r.attempt))
     || MovedToFirst(leaf, before, s.fs, r.parent, From(r), r.origin.value, r.attempt))
  }

  datatype PreserveEnding = Preserved | Cut | Refused | NoName

  class Preserver {
    const leaf: (Bytes, Id, nat) -> Option<Name>
    var s: Store
    var fuse: nat

    constructor (leaf: (Bytes, Id, nat) -> Option<Name>, s: Store, fuse: nat)
      ensures this.leaf == leaf && this.s == s && this.fuse == fuse
    {
      this.leaf, this.s, this.fuse := leaf, s, fuse;
    }

    method Effect(next: Store) returns (alive: bool)
      modifies this
      ensures alive == (old(fuse) > 0) && s == if alive then next else old(s)
    {
      if fuse == 0 {
        return false;
      }
      fuse, s := fuse - 1, next;
      return true;
    }

    /**
      Carries on the preserve action at the tail of a chain. However often it is cut and carried
      on, the inode ends at the first free recovery name, nothing else in the file system changes,
      and the journal stays valid.
     */
    method CompletePreserve(tail: nat, ghost before: FS) returns (r: PreserveEnding, last: nat)
      requires Bounded(leaf) && Chasing(leaf, s, before, tail)
      modifies this
      ensures Valid(s, leaf) && tail <= last < |s.rows| && SameChain(s.rows[last], old(s).rows[tail]) && s.rows[last].origin == old(s).rows[tail].origin
      ensures r.Preserved? ==> MovedToFirst(leaf, before, s.fs, s.rows[last].parent, From(s.rows[last]), s.rows[last].origin.value, s.rows[last].attempt)
      ensures r.Preserved? ==> s.rows[last].completed && !s.rows[last].outcome.Collision?
      ensures !r.Preserved? ==> Chasing(leaf, s, before, last)
      decreases MaxAttempts - s.rows[tail].attempt
    {
      var row := s.rows[tail];
      last := tail;
      if !IsDir(s.fs, row.dir) {
        return Refused, last;
      }
      if Occupied(s.fs, From(row)) && Occupied(s.fs, To(row)) {
        TailName(leaf, s, tail);
        NotMovedYet(leaf, s, before, tail);
        r, last := NextName(tail, before);
        return;
      }
      if Occupied(s.fs, From(row)) {
        TailName(leaf, s, tail);
        NotMovedYet(leaf, s, before, tail);
        var i :| i in s.fs.place && s.fs.place[i] == From(row);
        assert MovedToFirst(leaf, before, Move(s.fs, i, To(row)), row.parent, From(row), row.origin.value, row.attempt) by {
          assert Holds(before, From(row), i);
        }
        var moved := s.(fs := Move(s.fs, i, To(row)));
        SameJournal(leaf, s, moved);
        var alive := Effect(moved);
        if !alive {
          return Cut, last;
        }
      } else if !Occupied(s.fs, To(row)) {
        return Refused, last;
      }
      CompletedValid(s, leaf, tail);
      var alive := Effect(Completed(s, tail));
      r := if alive then Preserved else Cut;
    }

    /** The tail's name is taken: the next one is intended and tried. */
    method NextName(tail: nat, ghost before: FS) returns (r: PreserveEnding, last: nat)
      requires Bounded(leaf) && Chasing(leaf, s, before, tail) && s.fs == before && IsDir(before, s.rows[tail].dir)
      requires Occupied(before, To(s.rows[tail])) && Tried(leaf, before, s.rows[tail].parent, s.rows[tail].dir, s.rows[tail].origin.value, s.rows[tail].attempt)
      requires leaf(s.rows[tail].parent, s.rows[tail].origin.value, s.rows[tail].attempt) == Some(s.rows[tail].target)
      modifies this
      ensures Valid(s, leaf) && tail <= last < |s.rows| && SameChain(s.rows[last], old(s).rows[tail]) && s.rows[last].origin == old(s).rows[tail].origin
      ensures r.Preserved? ==> MovedToFirst(leaf, before, s.fs, s.rows[last].parent, From(s.rows[last]), s.rows[last].origin.value, s.rows[last].attempt)
      ensures r.Preserved? ==> s.rows[last].completed && !s.rows[last].outcome.Collision?
      ensures !r.Preserved? ==> Chasing(leaf, s, before, last)
      decreases MaxAttempts - s.rows[tail].attempt, 0
    {
      var row := s.rows[tail];
      last := tail;
      var name := leaf(row.parent, row.origin.value, row.attempt + 1);
      if name.None? {
        return NoName, last;
      }
      AdvancedChases(leaf, s, before, tail, name.value);
      var alive := Effect(Advanced(s, tail, name.value));
      if !alive {
        return Cut, last;
      }
      r, last := CompletePreserve(|s.rows| - 1, before);
    }

    /** A creation whose inode is unknown is given up, and what is at its place preserved. */
    method GiveUp(k: nat) returns (r: PreserveEnding, last: nat)
      requires Bounded(leaf) && WellFormed(s.fs) && Valid(s, leaf) && k < |s.rows| && UnknownCreation(s.rows[k])
      requires |Bound(s, s.rows[k].id, s.rows[k].parent)| == 1 && Occupied(s.fs, From(s.rows[k]))
      modifies this
      ensures Valid(s, leaf)
      ensures r.Preserved? ==> last < |s.rows| && s.rows[last].origin == Some(old(s).rows[k].id) && s.rows[last].completed &&
                               MovedToFirst(leaf, old(s).fs, s.fs, old(s).rows[k].parent, From(old(s).rows[k]), old(s).rows[k].id, s.rows[last].attempt)
      ensures !r.Preserved? && s != old(s) ==> Chasing(leaf, s, old(s).fs, last) && s.rows[last].origin == Some(old(s).rows[k].id)
    {
      var row := s.rows[k];
      last := k;
      var name := leaf(row.parent, row.id, 1);
      if name.None? {
        return NoName, last;
      }
      ghost var before := s.fs;
      GivenUpValid(s, leaf, k, name.value);
      var next := GivenUp(s, k, name.value);
      assert next.rows[|s.rows|].attempt == 1 && LiveTail(next.rows[|s.rows|]);
      var alive := Effect(next);
      if !alive {
        return Cut, last;
      }
      r, last := CompletePreserve(|s.rows| - 1, before);
    }
  }

  lemma TailName(leaf: (Bytes, Id, nat) -> Option<Name>, s: Store, tail: nat)
    requires Valid(s, leaf) && tail < |s.rows| && s.rows[tail].origin.Some?
    ensures var r := s.rows[tail]; leaf(r.parent, r.origin.value, r.attempt) == Some(r.target) && r.attempt >= 1
  {
    assert RowOk(s, leaf, s.rows[tail]);
  }

  lemma TriedMore(leaf: (Bytes, Id, nat) -> Option<Name>, fs: FS, parent: Bytes, dir: Ino, id: Id, attempt: nat)
    requires Tried(leaf, fs, parent, dir, id, attempt) && TakenName(fs, dir, leaf(parent, id, attempt))
    ensures Tried(leaf, fs, parent, dir, id, attempt + 1)
  {
  }

  lemma AdvancedFields(s: Store, tail: nat, name: Name)
    requires tail < |s.rows|
    ensures var t, r := Advanced(s, tail, name), s.rows[tail];
            |t.rows| == |s.rows| + 1 && t.rows[|s.rows|] == r.(id := s.nextId, attempt := r.attempt + 1, target := name) && t.fs == s.fs
  {
  }

  /** With the name taken, the chase goes on at the next attempt. */
  lemma AdvancedChases(leaf: (Bytes, Id, nat) -> Option<Name>, s: Store, before: FS, tail: nat, name: Name)
    requires Chasing(leaf, s, before, tail) && s.fs == before && Occupied(before, To(s.rows[tail]))
    requires var r := s.rows[tail]; Tried(leaf, before, r.parent, r.dir, r.origin.value, r.attempt) &&
                                    leaf(r.parent, r.origin.value, r.attempt) == Some(r.target) &&
                                    leaf(r.parent, r.origin.value, r.attempt + 1) == Some(name)
    ensures var t, r := Advanced(s, tail, name), s.rows[tail];
            Chasing(leaf, t, before, |s.rows|) && SameChain(t.rows[|s.rows|], r) && t.rows[|s.rows|].origin == r.origin &&
            t.rows[|s.rows|].attempt == r.attempt + 1
  {
    var r := s.rows[tail];
    AdvancedValid(s, leaf, tail, name);
    AdvancedFields(s, tail, name);
    TriedMore(leaf, before, r.parent, r.dir, r.origin.value, r.attempt);
    StillChasing(leaf, Advanced(s, tail, name), before, |s.rows|);
  }

  lemma StillChasing(leaf: (Bytes, Id, nat) -> Option<Name>, s: Store, before: FS, tail: nat)
    requires tail < |s.rows| && LiveTail(s.rows[tail]) && WellFormed(before) && Valid(s, leaf) && s.fs == before
    requires var r := s.rows[tail]; Occupied(before, From(r)) && Tried(leaf, before, r.parent, r.dir, r.origin.value, r.attempt)
    ensures Chasing(leaf, s, before, tail)
  {
  }

  lemma MovedLeaves(leaf: (Bytes, Id, nat) -> Option<Name>, before: FS, after: FS, parent: Bytes, from: Place, id: Id, attempt: nat)
    requires WellFormed(before)
    ensures MovedToFirst(leaf, before, after, parent, from, id, attempt) ==> !Occupied(after, from)
  {
    if MovedToFirst(leaf, before, after, parent, from, id, attempt) {
      var i :| Holds(before, from, i) && after == Move(before, i, Place(from.dir, leaf(parent, id, attempt).value));
      assert Holds(before, from, i) && !Occupied(before, Place(from.dir, leaf(parent, id, attempt).value));
      LeftFree(before, after, i);
    }
  }

  /** While something is at the source, the inode has not been moved. */
  lemma NotMovedYet(leaf: (Bytes, Id, nat) -> Option<Name>, s: Store, before: FS, tail: nat)
    requires Chasing(leaf, s, before, tail) && Occupied(s.fs, From(s.rows[tail]))
    ensures var r := s.rows[tail]; s.fs == before && Tried(leaf, before, r.parent, r.dir, r.origin.value, r.attempt)
  {
    MovedLeaves(leaf, before, s.fs, s.rows[tail].parent, From(s.rows[tail]), s.rows[tail].origin.value, s.rows[tail].attempt);
  }

  lemma SameJournal(leaf: (Bytes, Id, nat) -> Option<Name>, s: Store, t: Store)
    requires Valid(s, leaf) && t == s.(fs := t.fs)
    ensures Valid(t, leaf)
  {
    forall k | 0 <= k < |t.rows|
      ensures RowOk(t, leaf, t.rows[k])
    {
      assert RowOk(s, leaf, s.rows[k]);
      if s.rows[k].origin.Some? {
        var o := OriginOf(s, leaf, k);
        OriginStays(s, t, s.rows[k], o, t.rows[k]);
        ChainRowFrom(t, leaf, t.rows[k], o);
      }
    }
  }
}
