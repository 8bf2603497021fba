/**
  The assumptions on commits and hashes that the replay rests on can be met: commits written as
  self-delimiting texts, with the text itself as the identity. A commit's text holds the texts of
  its parents, so it is longer than each of them.
 */
module PendingWorld {
  import opened Wrappers
  import opened Bytes
  import opened ConflictNames
  import opened Trees
  import opened TreeMerge
  import opened MergeLaws
  import opened PendingMerge

  // Every text is followed by the rest of the bytes, so that it must tell where it ends.

  function Unary(n: nat, rest: Bytes): Bytes {
    if n == 0 then ['0'] + rest else ['1'] + Unary(n - 1, rest)
  }

  function Counted(b: Bytes, rest: Bytes): Bytes {
    Unary(|b|, b + rest)
  }

  ghost function NodeText(n: Node, rest: Bytes): Bytes
    decreases n, 1, 0
  {
    match n
    case File(content) => ['f'] + Unary(content, rest)
    case Dir(entries) => ['d'] + EntriesText(n, Ordered(entries.Keys), rest)
  }

  ghost function EntriesText(n: Node, names: seq<Bytes>, rest: Bytes): Bytes
    requires n.Dir?
    decreases n, 0, |names|
  {
    if names == [] then ['.'] + rest
    else
      var more := EntriesText(n, names[1..], rest);
      if names[0] in n.entries then ['n'] + Counted(names[0], Unary(n.entries[names[0]].mtime, NodeText(n.entries[names[0]].node, more)))
      else more
  }

  function ParentsText(parents: seq<Bytes>, rest: Bytes): Bytes {
    if parents == [] then ['.'] + rest else ['p'] + Counted(parents[0], ParentsText(parents[1..], rest))
  }

  ghost function CommitText(c: Commit): Bytes {
    Counted(c.author, Counted(c.device, NodeText(c.root, ParentsText(c.parents, Counted(c.created, [])))))
  }

  // ---- texts are read back in one way ----

  lemma SameTail(a: Byte, b: Byte, x: Bytes, y: Bytes)
    requires [a] + x == [b] + y
    ensures a == b && x == y
  {
    assert ([a] + x)[0] == a && ([b] + y)[0] == b;
    assert ([a] + x)[1..] == x && ([b] + y)[1..] == y;
  }

  lemma {:induction false} UnaryOnce(n: nat, m: nat, x: Bytes, y: Bytes)
    requires Unary(n, x) == Unary(m, y)
    ensures n == m && x == y
    decreases n
  {
    SameTail(if n == 0 then '0' else '1', if m == 0 then '0' else '1', if n == 0 then x else Unary(n - 1, x), if m == 0 then y else Unary(m - 1, y));
    if n > 0 {
      UnaryOnce(n - 1, m - 1, x, y);
    }
  }

  lemma CountedOnce(a: Bytes, b: Bytes, x: Bytes, y: Bytes)
    requires Counted(a, x) == Counted(b, y)
    ensures a == b && x == y
  {
    UnaryOnce(|a|, |b|, a + x, b + y);
    assert (a + x)[..|a|] == a && (b + y)[..|b|] == b;
    assert (a + x)[|a|..] == x && (b + y)[|b|..] == y;
  }

  lemma KindTold(n: Node, rest: Bytes)
    ensures NodeText(n, rest) != [] && NodeText(n, rest)[0] == if n.File? then 'f' else 'd'
  {
  }

  lemma {:induction false} NodeOnce(a: Node, b: Node, x: Bytes, y: Bytes)
    requires NodeText(a, x) == NodeText(b, y)
    ensures a == b && x == y
    decreases a, 1, 0
  {
    KindTold(a, x);
    KindTold(b, y);
    if a.File? {
      SameTail('f', 'f', Unary(a.content, x), Unary(b.content, y));
      UnaryOnce(a.content, b.content, x, y);
    } else {
      var names, others := Ordered(a.entries.Keys), Ordered(b.entries.Keys);
      OrderedNames(a.entries.Keys);
      OrderedNames(b.entries.Keys);
      SameTail('d', 'd', EntriesText(a, names, x), EntriesText(b, others, y));
      EntriesOnce(a, names, b, others, x, y);
      SameEntries(a, names, b);
    }
  }

  lemma SameEntries(a: Node, names: seq<Bytes>, b: Node)
    requires a.Dir? && b.Dir? && (forall name :: name in names <==> name in a.entries) && (forall name :: name in names <==> name in b.entries)
    requires forall name :: name in names ==> a.entries[name] == b.entries[name]
    ensures a == b
  {
    assert a.entries == b.entries;
  }

  lemma {:induction false} EntriesOnce(a: Node, names: seq<Bytes>, b: Node, others: seq<Bytes>, x: Bytes, y: Bytes)
    requires a.Dir? && b.Dir? && (forall name :: name in names ==> name in a.entries) && (forall name :: name in others ==> name in b.entries)
    requires EntriesText(a, names, x) == EntriesText(b, others, y)
    ensures names == others && x == y && forall name :: name in names ==> a.entries[name] == b.entries[name]
    decreases a, 0, |names|
  {
    if names == [] || others == [] {
      OneEmpty(a, names, b, others, x, y);
    } else {
      assert names[0] in names && others[0] in others;
      var s, t := a.entries[names[0]], b.entries[others[0]];
      var moreA, moreB := EntriesText(a, names[1..], x), EntriesText(b, others[1..], y);
      SameTail('n', 'n', Counted(names[0], Unary(s.mtime, NodeText(s.node, moreA))), Counted(others[0], Unary(t.mtime, NodeText(t.node, moreB))));
      CountedOnce(names[0], others[0], Unary(s.mtime, NodeText(s.node, moreA)), Unary(t.mtime, NodeText(t.node, moreB)));
      UnaryOnce(s.mtime, t.mtime, NodeText(s.node, moreA), NodeText(t.node, moreB));
      NodeOnce(s.node, t.node, moreA, moreB);
      EntriesOnce(a, names[1..], b, others[1..], x, y);
      assert names == [names[0]] + names[1..] && others == [others[0]] + others[1..];
    }
  }

  lemma OneEmpty(a: Node, names: seq<Bytes>, b: Node, others: seq<Bytes>, x: Bytes, y: Bytes)
    requires a.Dir? && b.Dir? && (forall name :: name in names ==> name in a.entries) && (forall name :: name in others ==> name in b.entries)
    requires EntriesText(a, names, x) == EntriesText(b, others, y) && (names == [] || others == [])
    ensures names == [] && others == [] && x == y
  {
    assert EntriesText(a, names, x)[0] == if names == [] then '.' else 'n';
    assert EntriesText(b, others, y)[0] == if others == [] then '.' else 'n';
    SameTail('.', '.', x, y);
  }

  lemma {:induction false} ParentsOnce(a: seq<Bytes>, b: seq<Bytes>, x: Bytes, y: Bytes)
    requires ParentsText(a, x) == ParentsText(b, y)
    ensures a == b && x == y
    decreases |a|
  {
    SameTail(if a == [] then '.' else 'p', if b == [] then '.' else 'p',
             if a == [] then x else Counted(a[0], ParentsText(a[1..], x)), if b == [] then y else Counted(b[0], ParentsText(b[1..], y)));
    if a != [] {
      CountedOnce(a[0], b[0], ParentsText(a[1..], x), ParentsText(b[1..], y));
      ParentsOnce(a[1..], b[1..], x, y);
      assert a == [a[0]] + a[1..] && b == [b[0]] + b[1..];
    }
  }

  lemma CommitOnce(c: Commit, d: Commit)
    requires CommitText(c) == CommitText(d)
    ensures c == d
  {
    var endC, endD := Counted(c.created, []), Counted(d.created, []);
    var tailC, tailD := ParentsText(c.parents, endC), ParentsText(d.parents, endD);
    CountedOnce(c.author, d.author, Counted(c.device, NodeText(c.root, tailC)), Counted(d.device, NodeText(d.root, tailD)));
    CountedOnce(c.device, d.device, NodeText(c.root, tailC), NodeText(d.root, tailD));
    NodeOnce(c.root, d.root, tailC, tailD);
    ParentsOnce(c.parents, d.parents, endC, endD);
    CountedOnce(c.created, d.created, [], []);
  }

  // ---- a text is longer than the texts in it ----

  lemma {:induction false} UnaryLonger(n: nat, rest: Bytes)
    ensures |Unary(n, rest)| > |rest|
  {
    if n > 0 {
      UnaryLonger(n - 1, rest);
    }
  }

  lemma {:induction false} NodeLonger(n: Node, rest: Bytes)
    ensures |NodeText(n, rest)| > |rest|
    decreases n, 1, 0
  {
    if n.File? {
      UnaryLonger(n.content, rest);
    } else {
      EntriesLonger(n, Ordered(n.entries.Keys), rest);
    }
  }

  lemma {:induction false} EntriesLonger(n: Node, names: seq<Bytes>, rest: Bytes)
    requires n.Dir?
    ensures |EntriesText(n, names, rest)| > |rest|
    decreases n, 0, |names|
  {
    if names != [] {
      EntriesLonger(n, names[1..], rest);
      if names[0] in n.entries {
        var s, more := n.entries[names[0]], EntriesText(n, names[1..], rest);
        NodeLonger(s.node, more);
        UnaryLonger(s.mtime, NodeText(s.node, more));
        UnaryLonger(|names[0]|, names[0] + Unary(s.mtime, NodeText(s.node, more)));
      }
    }
  }

  lemma {:induction false} ParentsLonger(parents: seq<Bytes>, rest: Bytes, p: Bytes)
    ensures |ParentsText(parents, rest)| > |rest| && (p in parents ==> |ParentsText(parents, rest)| > |p|)
    decreases |parents|
  {
    if parents != [] {
      ParentsLonger(parents[1..], rest, p);
      UnaryLonger(|parents[0]|, parents[0] + ParentsText(parents[1..], rest));
      assert p in parents ==> p == parents[0] || p in parents[1..];
    }
  }

  lemma CommitLonger(c: Commit, p: Bytes)
    requires p in c.parents
    ensures |p| < |CommitText(c)|
  {
    var tail := ParentsText(c.parents, Counted(c.created, []));
    ParentsLonger(c.parents, Counted(c.created, []), p);
    NodeLonger(c.root, tail);
    UnaryLonger(|c.device|, c.device + NodeText(c.root, tail));
    UnaryLonger(|c.author|, c.author + Counted(c.device, NodeText(c.root, tail)));
  }

  // ---- the world ----

  ghost function Parse(data: Bytes): Option<Commit> {
    if exists c :: CommitText(c) == data then
      var c :| CommitText(c) == data;
      Some(c)
    else None
  }

  ghost function Plain(rules: Rules, seed: Commit -> Seed): World {
    World(rules, _ => false, data => Parse(data), c => CommitText(c), data => data, id => Parse(id), seed, (n, m) => Stats(0, 0))
  }

  /** There is a world as the replay supposes it, in which every commit can be fetched. */
  lemma SuchAWorld(rules: Rules, seed: Commit -> Seed)
    ensures var w := Plain(rules, seed); Sound(w) && Ranked(w, id => |id|) && forall c :: w.remote(w.hash(w.print_(c))) == Some(c)
  {
    var w := Plain(rules, seed);
    forall c: Commit
      ensures w.parse(w.print_(c)) == Some(c)
    {
      var d := Parse(CommitText(c)).value;
      CommitOnce(c, d);
    }
    forall c: Commit, p | p in c.parents
      ensures |p| < |w.hash(w.print_(c))|
    {
      CommitLonger(c, p);
    }
  }
}
