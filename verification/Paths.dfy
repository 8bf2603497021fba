/** Protocol paths: components joined by slashes, with the limits on length and depth. */
module Paths {
  import opened Bytes

  const MaxPathBytes: nat := 1024
  const MaxPathDepth: nat := 256

  /** The components between slashes. */
  function Split(path: Bytes): (parts: seq<Bytes>)
    ensures parts != []
  {
    if path == [] then [[]]
    else
      var rest := Split(path[1..]);
      if path[0] == '/' then [[]] + rest else [[path[0]] + rest[0]] + rest[1..]
  }

  function Join(parts: seq<Bytes>): Bytes {
    if parts == [] then []
    else if |parts| == 1 then parts[0]
    else parts[0] + "/" + Join(parts[1..])
  }

  /**
    A canonical protocol path: the root marker, or at most 256 valid names in at most 1024 bytes.
    `validName` is the name check; every name it accepts is non-empty and free of slashes.
   */
  predicate ValidPath(validName: Bytes -> bool, path: Bytes) {
    path == "." || (path != [] && |path| <= MaxPathBytes && |Split(path)| <= MaxPathDepth &&
                    forall part :: part in Split(path) ==> validName(part))
  }

  lemma {:induction false} JoinSplit(path: Bytes)
    ensures Join(Split(path)) == path
  {
    if path != [] {
      JoinSplit(path[1..]);
      var rest := Split(path[1..]);
      if path[0] != '/' && |rest| > 1 {
        assert Split(path)[1..] == rest[1..];
        assert [path[0]] + (rest[0] + "/" + Join(rest[1..])) == ([path[0]] + rest[0]) + "/" + Join(rest[1..]);
      } else if path[0] == '/' {
        assert Split(path)[1..] == rest;
      }
    }
  }

  lemma {:induction false} SplitName(name: Bytes)
    requires '/' !in name
    ensures Split(name) == [name]
  {
    if name != [] {
      SplitName(name[1..]);
      assert name == [name[0]] + name[1..];
    }
  }

  lemma {:induction false} SplitFirst(name: Bytes, rest: Bytes)
    requires '/' !in name
    ensures Split(name + "/" + rest) == [name] + Split(rest)
  {
    var whole := name + "/" + rest;
    if name == [] {
      assert whole[1..] == rest;
    } else {
      assert whole[0] == name[0] && whole[1..] == name[1..] + "/" + rest;
      SplitFirst(name[1..], rest);
      var parts := [name[1..]] + Split(rest);
      assert parts[1..] == Split(rest) && name == [name[0]] + name[1..];
    }
  }

  /** Names without slashes come back from their joined path. */
  lemma {:induction false} SplitJoin(parts: seq<Bytes>)
    requires parts != [] && forall p :: p in parts ==> '/' !in p
    ensures Split(Join(parts)) == parts
  {
    if |parts| == 1 {
      SplitName(parts[0]);
    } else {
      SplitJoin(parts[1..]);
      SplitFirst(parts[0], Join(parts[1..]));
    }
  }

  // ---- the last component ----

  datatype Location = Location(parent: Bytes, leaf: Bytes)

  /** The part before the last slash and the part after it. */
  function SplitLeaf(path: Bytes): Location {
    if path == [] then Location([], [])
    else if path[|path| - 1] == '/' then Location(path[..|path| - 1], [])
    else
      var rest := SplitLeaf(path[..|path| - 1]);
      Location(rest.parent, rest.leaf + [path[|path| - 1]])
  }

  function JoinLeaf(parent: Bytes, leaf: Bytes): Bytes {
    if parent == [] then leaf else parent + "/" + leaf
  }

  lemma {:induction false} SplitLeafNoSlash(path: Bytes)
    ensures '/' !in SplitLeaf(path).leaf
  {
    if path != [] && path[|path| - 1] != '/' {
      SplitLeafNoSlash(path[..|path| - 1]);
    }
  }

  lemma {:induction false} SplitLeafJoin(parent: Bytes, leaf: Bytes)
    requires '/' !in leaf
    ensures SplitLeaf(JoinLeaf(parent, leaf)) == Location(parent, leaf)
  {
    var path := JoinLeaf(parent, leaf);
    if leaf == [] {
      assert parent != [] ==> path[..|path| - 1] == parent;
    } else {
      var front := leaf[..|leaf| - 1];
      assert path[..|path| - 1] == JoinLeaf(parent, front) && leaf == front + [leaf[|leaf| - 1]];
      SplitLeafJoin(parent, front);
    }
  }

  lemma {:induction false} SplitLeafParts(path: Bytes)
    requires path != [] && path[0] != '/'
    ensures var l := SplitLeaf(path); JoinLeaf(l.parent, l.leaf) == path && '/' !in l.leaf
    ensures var l := SplitLeaf(path); l.parent != [] ==> l.parent[0] != '/'
  {
    var front := path[..|path| - 1];
    assert path == front + [path[|path| - 1]];
    if |path| > 1 && path[|path| - 1] != '/' {
      SplitLeafParts(front);
    }
  }

  lemma {:induction false} SplitAppend(parent: Bytes, leaf: Bytes)
    requires '/' !in leaf
    ensures Split(parent + "/" + leaf) == Split(parent) + [leaf]
  {
    var whole := parent + "/" + leaf;
    if parent == [] {
      assert whole[1..] == leaf;
      SplitName(leaf);
    } else {
      assert whole[0] == parent[0] && whole[1..] == parent[1..] + "/" + leaf;
      SplitAppend(parent[1..], leaf);
    }
  }
}
