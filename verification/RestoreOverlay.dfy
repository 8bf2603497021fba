/** Overlaying a historical file or directory on the current tree, and what the result means. */
module RestoreOverlay {
  import opened Wrappers
  import opened Bytes
  import opened Trees
  import opened TreeMerge

  /** The entry at a path below a slot, the slot itself at the empty path. */
  function SlotAt(s: Option<Slot>, rest: Path): Option<Slot> {
    if s.None? || rest == [] then s else Find(s.value.node, rest)
  }

  predicate SameKind(a: Slot, b: Slot) {
    a.node.Dir? == b.node.Dir?
  }

  // ---- the result ----

  /** A node of the source laid over a node of the current tree. */
  function Overlay(current: Slot, source: Slot): Slot
    decreases current.node, 1
  {
    if current.node.File? || source.node.File? then source
    else Slot(Dir(OverlayEntries(current.node, source.node)), Max(current.mtime, source.mtime))
  }

  function OverlayEntries(current: Node, source: Node): map<Bytes, Slot>
    requires current.Dir? && source.Dir?
    decreases current, 0
  {
    map name | name in current.entries.Keys + source.entries.Keys ::
      if name !in source.entries then current.entries[name]
      else if name !in current.entries then source.entries[name]
      else Overlay(current.entries[name], source.entries[name])
  }

  /** The directories leading to the source node, where the current tree has none. */
  function BuildMissing(source: Slot, parts: Path): Option<Slot>
    requires parts != []
    decreases |parts|
  {
    var next := Get(source.node, parts[0]);
    if next.None? then None
    else
      var child := if |parts| == 1 then next else BuildMissing(next.value, parts[1..]);
      if child.None? then None else Some(Slot(Dir(map[parts[0] := child.value]), source.mtime))
  }

  /** The current tree with the source node at the path laid over it; nothing when the source has no such path. */
  function Apply(current: Option<Slot>, source: Slot, parts: Path): Option<Slot>
    decreases |parts|
  {
    if parts == [] then Some(if current.None? then source else Overlay(current.value, source))
    else if source.node.File? then None
    else if current.None? then BuildMissing(source, parts)
    else if current.value.node.File? then Some(source)
    else
      var next := Get(source.node, parts[0]);
      if next.None? then None
      else
        var child := Apply(Get(current.value.node, parts[0]), next.value, parts[1..]);
        if child.None? then None
        else Some(Slot(Dir(current.value.node.entries[parts[0] := child.value]), Max(current.value.mtime, source.mtime)))
  }

  lemma {:induction false} OverlaySame(s: Slot)
    ensures Overlay(s, s) == s
    decreases s.node
  {
    if s.node.Dir? {
      forall name | name in s.node.entries
        ensures OverlayEntries(s.node, s.node)[name] == s.node.entries[name]
      {
        OverlaySame(s.node.entries[name]);
      }
      assert OverlayEntries(s.node, s.node) == s.node.entries;
    }
  }

  // ---- laying the same source over the result changes nothing ----

  lemma {:induction false} OverlayTwice(current: Slot, source: Slot)
    ensures Overlay(Overlay(current, source), source) == Overlay(current, source)
    decreases current.node
  {
    if current.node.File? || source.node.File? {
      OverlaySame(source);
    } else {
      var once := OverlayEntries(current.node, source.node);
      forall name | name in once
        ensures OverlayEntries(Dir(once), source.node)[name] == once[name]
      {
        if name in source.node.entries {
          if name in current.node.entries {
            OverlayTwice(current.node.entries[name], source.node.entries[name]);
          } else {
            OverlaySame(source.node.entries[name]);
          }
        }
      }
      assert OverlayEntries(Dir(once), source.node) == once;
    }
  }

  lemma {:induction false} BuiltTwice(source: Slot, parts: Path, built: Slot)
    requires parts != [] && BuildMissing(source, parts) == Some(built)
    ensures Apply(Some(built), source, parts) == Some(built)
    decreases |parts|
  {
    var next := Get(source.node, parts[0]).value;
    if |parts| == 1 {
      OverlaySame(next);
      assert parts[1..] == [];
    } else {
      BuiltTwice(next, parts[1..], BuildMissing(next, parts[1..]).value);
    }
    assert built.node.entries[parts[0] := built.node.entries[parts[0]]] == built.node.entries;
  }

  lemma {:induction false} SourceTwice(source: Slot, parts: Path)
    requires SlotAt(Some(source), parts).Some?
    ensures Apply(Some(source), source, parts) == Some(source)
    decreases |parts|
  {
    if parts == [] {
      OverlaySame(source);
    } else {
      var next := Get(source.node, parts[0]).value;
      SourceTwice(next, parts[1..]);
      assert source.node.entries[parts[0] := next] == source.node.entries;
    }
  }

  /** Planning again over the result gives the same result. */
  lemma {:induction false} ApplyTwice(current: Option<Slot>, source: Slot, parts: Path, result: Slot)
    requires SlotAt(Some(source), parts).Some? && Apply(current, source, parts) == Some(result)
    ensures Apply(Some(result), source, parts) == Some(result)
    decreases |parts|
  {
    if parts == [] {
      if current.None? {
        OverlaySame(source);
      } else {
        OverlayTwice(current.value, source);
      }
    } else if current.None? {
      BuiltTwice(source, parts, result);
    } else if current.value.node.File? {
      SourceTwice(source, parts);
    } else {
      var next := Get(source.node, parts[0]).value;
      var child := Apply(Get(current.value.node, parts[0]), next, parts[1..]).value;
      ApplyTwice(Get(current.value.node, parts[0]), next, parts[1..], child);
      assert result.node.entries[parts[0] := child] == result.node.entries;
    }
  }

  // ---- what the result holds ----

  /** A file of the source stands somewhere above the path. */
  predicate FileAbove(source: Slot, rest: Path) {
    rest != [] &&
    (source.node.File? || (Get(source.node, rest[0]).Some? && FileAbove(Get(source.node, rest[0]).value, rest[1..])))
  }

  /**
    What the overlay holds at a path. Where the source has nothing: Current's entry, unless a file
    of the source took the place of a directory above. A source file: that file, with its content
    and time. A source directory: a directory with the later of both times, or the source's time
    where Current has no directory.
   */
  ghost predicate Laid(c: Option<Slot>, source: Slot, r: Option<Slot>, rest: Path) {
    match SlotAt(Some(source), rest)
    case None => r == if FileAbove(source, rest) then None else c
    case Some(s) =>
      && r.Some? && SameKind(r.value, s)
      && (s.node.File? ==> r.value == s)
      && r.value.mtime == (if s.node.Dir? && c.Some? && c.value.node.Dir? then Max(c.value.mtime, s.mtime) else s.mtime)
  }

  lemma OverlayNames(current: Node, source: Node, name: Bytes)
    requires current.Dir? && source.Dir?
    ensures var c, s := Get(current, name), Get(source, name);
            Get(Dir(OverlayEntries(current, source)), name) ==
              if s.None? then c else if c.None? then s else Some(Overlay(c.value, s.value))
  {
    assert name in OverlayEntries(current, source) <==> name in current.entries || name in source.entries;
  }

  lemma {:induction false} OverlayLays(current: Slot, source: Slot, rest: Path)
    ensures Laid(SlotAt(Some(current), rest), source, SlotAt(Some(Overlay(current, source)), rest), rest)
    decreases current.node
  {
    if rest != [] && current.node.Dir? && source.node.Dir? {
      OverlayNames(current.node, source.node, rest[0]);
      var c, s := Get(current.node, rest[0]), Get(source.node, rest[0]);
      if s.Some? && c.Some? {
        OverlayLays(c.value, s.value, rest[1..]);
      }
    }
  }

  /** At the restored path the result holds the source's node laid over what Current had there. */
  lemma {:induction false} ApplyAt(current: Option<Slot>, source: Slot, parts: Path, result: Slot)
    requires SlotAt(Some(source), parts).Some? && Apply(current, source, parts) == Some(result)
    ensures var c, s := SlotAt(current, parts), SlotAt(Some(source), parts).value;
            SlotAt(Some(result), parts) == Some(if c.None? then s else Overlay(c.value, s))
    decreases |parts|
  {
    if parts != [] && current.Some? && current.value.node.Dir? {
      var next := Get(source.node, parts[0]).value;
      var child := Apply(Get(current.value.node, parts[0]), next, parts[1..]).value;
      ApplyAt(Get(current.value.node, parts[0]), next, parts[1..], child);
    } else if parts != [] && current.None? {
      BuiltAt(source, parts, result);
    }
  }

  lemma {:induction false} BuiltAt(source: Slot, parts: Path, built: Slot)
    requires parts != [] && BuildMissing(source, parts) == Some(built) && SlotAt(Some(source), parts).Some?
    ensures SlotAt(Some(built), parts) == SlotAt(Some(source), parts)
    decreases |parts|
  {
    if |parts| > 1 {
      var next := Get(source.node, parts[0]).value;
      BuiltAt(next, parts[1..], BuildMissing(next, parts[1..]).value);
    }
  }

  /** The path leads neither to, nor below, nor above the restored path. */
  predicate Elsewhere(parts: Path, p: Path) {
    !(parts <= p) && !(p <= parts)
  }

  /** Current has a file where the restored path, and this path with it, goes on. */
  predicate Blocked(current: Option<Slot>, parts: Path, p: Path)
    decreases |parts|
  {
    parts != [] && current.Some? &&
    (current.value.node.File? || (p != [] && p[0] == parts[0] && Blocked(Get(current.value.node, parts[0]), parts[1..], p[1..])))
  }

  lemma ElsewhereBelow(parts: Path, p: Path)
    requires parts != [] && p != [] && Elsewhere(parts, p) && p[0] == parts[0]
    ensures Elsewhere(parts[1..], p[1..])
  {
    assert parts == [parts[0]] + parts[1..] && p == [p[0]] + p[1..];
  }

  /**
    Everything off the restored path is unchanged, except below a file of Current that stood in
    the way: that file is replaced by the whole source directory.
   */
  lemma {:induction false} ApplyElsewhere(current: Option<Slot>, source: Slot, parts: Path, result: Slot, p: Path)
    requires Apply(current, source, parts) == Some(result) && Elsewhere(parts, p)
    ensures SlotAt(Some(result), p) == if Blocked(current, parts, p) then SlotAt(Some(source), p) else SlotAt(current, p)
    decreases |parts|
  {
    if current.None? {
      BuiltElsewhere(source, parts, result, p);
    } else if current.value.node.Dir? {
      var next := Get(source.node, parts[0]).value;
      var child := Apply(Get(current.value.node, parts[0]), next, parts[1..]).value;
      if p[0] == parts[0] {
        ElsewhereBelow(parts, p);
        ApplyElsewhere(Get(current.value.node, parts[0]), next, parts[1..], child, p[1..]);
        assert Find(result.node, p) == SlotAt(Some(child), p[1..]);
      }
    }
  }

  lemma {:induction false} BuiltElsewhere(source: Slot, parts: Path, built: Slot, p: Path)
    requires parts != [] && BuildMissing(source, parts) == Some(built) && Elsewhere(parts, p)
    ensures SlotAt(Some(built), p) == None
    decreases |parts|
  {
    if |parts| == 1 {
      assert p != [] ==> (parts == p[..1] <==> parts[0] == p[0]);
    } else if p[0] == parts[0] {
      ElsewhereBelow(parts, p);
      var next := Get(source.node, parts[0]).value;
      BuiltElsewhere(next, parts[1..], BuildMissing(next, parts[1..]).value, p[1..]);
    }
  }

  /** The directories leading to the restored path: kept with the later time, or made like the source's. */
  lemma {:induction false} ApplyAbove(current: Option<Slot>, source: Slot, parts: Path, result: Slot, k: nat)
    requires SlotAt(Some(source), parts).Some? && Apply(current, source, parts) == Some(result) && k < |parts|
    ensures var c, s, r := SlotAt(current, parts[..k]), SlotAt(Some(source), parts[..k]), SlotAt(Some(result), parts[..k]);
            && r.Some? && r.value.node.Dir? && s.Some?
            && r.value.mtime == (if c.Some? && c.value.node.Dir? then Max(c.value.mtime, s.value.mtime) else s.value.mtime)
    decreases |parts|
  {
    var up := parts[..k];
    if k > 0 {
      assert up[0] == parts[0] && up[1..] == parts[1..][..k - 1];
      if current.Some? && current.value.node.Dir? {
        var next := Get(source.node, parts[0]).value;
        var child := Apply(Get(current.value.node, parts[0]), next, parts[1..]).value;
        ApplyAbove(Get(current.value.node, parts[0]), next, parts[1..], child, k - 1);
        assert SlotAt(Some(result), up) == SlotAt(Some(child), up[1..]);
      } else if current.None? {
        BuiltAbove(source, parts, result, k);
      } else {
        SourceAbove(source, parts, k);
      }
    }
  }

  lemma {:induction false} BuiltAbove(source: Slot, parts: Path, built: Slot, k: nat)
    requires SlotAt(Some(source), parts).Some? && k < |parts| && BuildMissing(source, parts) == Some(built)
    ensures var s, r := SlotAt(Some(source), parts[..k]), SlotAt(Some(built), parts[..k]);
            s.Some? && r.Some? && r.value.node.Dir? && r.value.mtime == s.value.mtime
    decreases |parts|
  {
    if k > 0 {
      var up := parts[..k];
      assert up[0] == parts[0] && up[1..] == parts[1..][..k - 1];
      var next := Get(source.node, parts[0]).value;
      BuiltAbove(next, parts[1..], BuildMissing(next, parts[1..]).value, k - 1);
    }
  }

  lemma {:induction false} SourceAbove(source: Slot, parts: Path, k: nat)
    requires SlotAt(Some(source), parts).Some? && k < |parts|
    ensures SlotAt(Some(source), parts[..k]).Some? && SlotAt(Some(source), parts[..k]).value.node.Dir?
    decreases |parts|
  {
    if k > 0 {
      var up := parts[..k];
      assert up[0] == parts[0] && up[1..] == parts[1..][..k - 1];
      SourceAbove(Get(source.node, parts[0]).value, parts[1..], k - 1);
    }
  }

  // ---- no change, no difference ----

  /** The entry is in the result and was not there, or was different, before. */
  predicate ChangedAt(before: Option<Slot>, after: Option<Slot>) {
    after.Some? && after != before
  }

  /** A result that changes no path is the current tree. */
  lemma {:induction false} NoChangeSame(current: Slot, source: Slot, parts: Path, result: Slot)
    requires current.node.Dir? && source.node.Dir? && Apply(Some(current), source, parts) == Some(result)
    requires forall p: Path :: p != [] ==> !ChangedAt(Find(current.node, p), Find(result.node, p))
    ensures result.node == current.node
  {
    forall name | name in result.node.entries
      ensures name in current.node.entries && current.node.entries[name] == result.node.entries[name]
    {
      assert !ChangedAt(Find(current.node, [name]), Find(result.node, [name]));
    }
    forall name | name in current.node.entries
      ensures name in result.node.entries
    {
      if parts == [] {
        OverlayNames(current.node, source.node, name);
      }
    }
    assert result.node.entries == current.node.entries;
  }
}
