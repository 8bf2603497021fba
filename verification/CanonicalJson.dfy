/**
  The canonical bytes of objects: JSON with sorted members and the string escapes of section
  3.2.2.2 of RFC 8785. Distinct objects never share their bytes, so with a collision-free hash
  equal identities mean equal objects.
 */
module CanonicalJson {
  import opened Wrappers
  import opened Bytes
  import opened Utf8

  // ---- strings ----

  function HexDigit(n: nat): (c: Byte)
    requires n < 16
    ensures c as int < 0x80
  {
    if n < 10 then ToByte('0' as int + n) else ToByte('a' as int + (n - 10))
  }

  /** What one byte of text becomes; multi-byte characters are written unchanged. */
  function EscapeByte(c: Byte): (e: Bytes)
    ensures e != []
  {
    if c == '"' || c == '\\' then ['\\', c]
    else if c == '\U{0008}' then ['\\', 'b']
    else if c == '\t' then ['\\', 't']
    else if c == '\n' then ['\\', 'n']
    else if c == '\U{000C}' then ['\\', 'f']
    else if c == '\r' then ['\\', 'r']
    else if c as int < 0x20 then ['\\', 'u', '0', '0', HexDigit(c as int / 16), HexDigit(c as int % 16)]
    else [c]
  }

  const ReplacementRune: Bytes := [ToByte(0xEF), ToByte(0xBF), ToByte(0xBD)]

  /** The text escaped character by character; a byte that starts no character becomes U+FFFD. */
  function Escape(text: Bytes): Bytes {
    if text == [] then []
    else
      EscapeFirst(text) + Escape(text[FirstSize(text)..])
  }

  function Quoted(text: Bytes): Bytes {
    "\"" + Escape(text) + "\""
  }

  lemma Assoc(a: Bytes, b: Bytes, c: Bytes)
    ensures (a + b) + c == a + (b + c)
  {
  }

  /** The escaped form of the next character and what remains. */
  function EscapeFirst(text: Bytes): (e: Bytes)
    requires text != []
  {
    var n := RuneSize(text);
    if n == 0 then ReplacementRune else if n == 1 then EscapeByte(text[0]) else text[..n]
  }

  function FirstSize(text: Bytes): (n: nat)
    requires text != []
    ensures 1 <= n <= |text|
  {
    if RuneSize(text) == 0 then 1 else RuneSize(text)
  }

  ghost predicate EscapedUpTo(value: Bytes, i: nat, out: Bytes) {
    i <= |value| && out + Escape(value[i..]) == Escape(value)
  }

  lemma EscapedMore(value: Bytes, i: nat, out: Bytes)
    requires EscapedUpTo(value, i, out) && i < |value|
    ensures var rest := value[i..]; EscapedUpTo(value, i + FirstSize(rest), out + EscapeFirst(rest))
  {
    var rest := value[i..];
    EscapeUnfolds(rest, out);
    assert rest[FirstSize(rest)..] == value[i + FirstSize(rest)..];
  }

  lemma EscapeUnfolds(rest: Bytes, out: Bytes)
    requires rest != []
    ensures out + Escape(rest) == (out + EscapeFirst(rest)) + Escape(rest[FirstSize(rest)..])
  {
    Assoc(out, EscapeFirst(rest), Escape(rest[FirstSize(rest)..]));
  }

  method EscapeText(value: Bytes) returns (out: Bytes)
    ensures out == Escape(value)
  {
    out := [];
    var i := 0;
    while i < |value|
      invariant EscapedUpTo(value, i, out)
    {
      EscapedMore(value, i, out);
      var rest := value[i..];
      out := out + EscapeFirst(rest);
      i := i + FirstSize(rest);
    }
    assert value[i..] == [] && out + [] == out;
  }

  method AppendJSONString(dst: Bytes, value: Bytes) returns (r: Bytes)
    ensures r == dst + Quoted(value)
  {
    var out := EscapeText(value);
    r := dst + ("\"" + out + "\"");
  }

  datatype Read = Read(text: Bytes, rest: Bytes)

  function HexValue(c: Byte): Option<nat> {
    if '0' <= c <= '9' then Some(c as int - '0' as int)
    else if 'a' <= c <= 'f' then Some(c as int - 'a' as int + 10)
    else None
  }

  /** Reads one escape after its backslash: the byte it stands for and how many bytes it takes. */
  function ReadEscape(s: Bytes): Option<(Byte, nat)> {
    if s == [] then None
    else if s[0] == '"' || s[0] == '\\' then Some((s[0], 1))
    else if s[0] == 'b' then Some(('\U{0008}', 1))
    else if s[0] == 't' then Some(('\t', 1))
    else if s[0] == 'n' then Some(('\n', 1))
    else if s[0] == 'f' then Some(('\U{000C}', 1))
    else if s[0] == 'r' then Some(('\r', 1))
    else if |s| >= 5 && s[..3] == "u00" && HexValue(s[3]).Some? && HexValue(s[4]).Some?
    then Some((ToByte(16 * HexValue(s[3]).value + HexValue(s[4]).value), 5))
    else None
  }

  /** Reads a string whose opening quote has been passed, up to and including its closing quote. */
  function ReadString(s: Bytes): Option<Read>
    decreases |s|
  {
    if s == [] then None
    else if s[0] == '"' then Some(Read([], s[1..]))
    else if s[0] == '\\' then
      var e := ReadEscape(s[1..]);
      if e.None? || 1 + e.value.1 > |s| then None
      else Prepend(e.value.0, ReadString(s[1 + e.value.1..]))
    else Prepend(s[0], ReadString(s[1..]))
  }

  function Prepend(c: Byte, r: Option<Read>): Option<Read> {
    if r.None? then None else Some(Read([c] + r.value.text, r.value.rest))
  }

  lemma HexDigitValue(n: nat)
    requires n < 16
    ensures HexValue(HexDigit(n)) == Some(n)
  {
  }

  lemma ShortEscapeReads(c: Byte, second: Byte, tail: Bytes)
    requires ReadEscape([second] + tail) == Some((c, 1))
    ensures ReadString(['\\', second] + tail) == Prepend(c, ReadString(tail))
  {
    var s: Bytes := ['\\', second] + tail;
    assert s[1..] == [second] + tail && s[2..] == tail;
  }

  lemma LongEscapeReads(c: Byte, tail: Bytes)
    requires c as int < 0x20
    ensures var e: Bytes := ['\\', 'u', '0', '0', HexDigit(c as int / 16), HexDigit(c as int % 16)];
            ReadString(e + tail) == Prepend(c, ReadString(tail))
  {
    var e: Bytes := ['\\', 'u', '0', '0', HexDigit(c as int / 16), HexDigit(c as int % 16)];
    var s := e + tail;
    HexDigitValue(c as int / 16);
    HexDigitValue(c as int % 16);
    assert s[1..][..3] == "u00" && s[1..][3] == e[4] && s[1..][4] == e[5];
    assert s[6..] == tail;
  }

  /** Reading an escaped byte gives the byte. */
  lemma EscapeReads(c: Byte, tail: Bytes)
    ensures ReadString(EscapeByte(c) + tail) == Prepend(c, ReadString(tail))
  {
    var e := EscapeByte(c);
    if |e| == 1 {
      assert (e + tail)[0] == c && (e + tail)[1..] == tail;
    } else if |e| == 2 {
      assert ([e[1]] + tail)[0] == e[1];
      ShortEscapeReads(c, e[1], tail);
      assert e == ['\\', e[1]];
    } else {
      LongEscapeReads(c, tail);
    }
  }

  /** Bytes of a multi-byte character are read as they stand. */
  lemma {:induction false} PlainReads(plain: Bytes, text: Bytes, tail: Bytes, rest: Bytes)
    requires forall i :: 0 <= i < |plain| ==> plain[i] as int >= 0x80
    requires ReadString(tail) == Some(Read(text, rest))
    ensures ReadString(plain + tail) == Some(Read(plain + text, rest))
  {
    if plain == [] {
      assert plain + tail == tail && plain + text == text;
    } else {
      PlainReads(plain[1..], text, tail, rest);
      assert (plain + tail)[0] == plain[0] && (plain + tail)[1..] == plain[1..] + tail;
      assert [plain[0]] + (plain[1..] + text) == plain + text;
    }
  }

  lemma RuneBytes(text: Bytes)
    requires RuneSize(text) > 1
    ensures forall i :: 0 <= i < RuneSize(text) ==> text[i] as int >= 0x80
  {
  }

  /** Escaping is self-delimiting and undone by reading. */
  lemma {:induction false} StringReadsBack(text: Bytes, rest: Bytes)
    requires IsUtf8(text)
    ensures ReadString(Escape(text) + ("\"" + rest)) == Some(Read(text, rest))
  {
    var tail: Bytes := "\"" + rest;
    if text == [] {
      assert Escape(text) + tail == tail && tail[1..] == rest;
    } else {
      var n := RuneSize(text);
      StringReadsBack(text[n..], rest);
      Assoc(EscapeFirst(text), Escape(text[n..]), tail);
      FirstReads(text, Escape(text[n..]) + tail, rest);
    }
  }

  lemma FirstReads(text: Bytes, after: Bytes, rest: Bytes)
    requires text != [] && RuneSize(text) > 0 && ReadString(after) == Some(Read(text[RuneSize(text)..], rest))
    ensures ReadString(EscapeFirst(text) + after) == Some(Read(text, rest))
  {
    var n := RuneSize(text);
    if n == 1 {
      EscapeReads(text[0], after);
      assert [text[0]] + text[1..] == text;
    } else {
      RuneBytes(text);
      PlainReads(text[..n], text[n..], after, rest);
      assert text[..n] + text[n..] == text;
    }
  }

  lemma QuotedTail(text: Bytes, rest: Bytes)
    ensures Quoted(text) + rest != [] && (Quoted(text) + rest)[0] == '"'
    ensures (Quoted(text) + rest)[1..] == Escape(text) + ("\"" + rest)
  {
  }

  /** Two quoted texts followed by anything agree only if the texts and what follows agree. */
  lemma QuotedCancel(a: Bytes, restA: Bytes, b: Bytes, restB: Bytes)
    requires IsUtf8(a) && IsUtf8(b) && Quoted(a) + restA == Quoted(b) + restB
    ensures a == b && restA == restB
  {
    StringReadsBack(a, restA);
    StringReadsBack(b, restB);
    QuotedTail(a, restA);
    QuotedTail(b, restB);
  }

  lemma Cancel(front: Bytes, a: Bytes, b: Bytes)
    requires front + a == front + b
    ensures a == b
  {
    assert a == (front + a)[|front|..] && b == (front + b)[|front|..];
  }

  // ---- objects ----

  datatype Entry = Entry(id: Bytes, modifiedAt: Bytes, name: Bytes, kind: Bytes)

  datatype Object =
    | FileObject(blocks: seq<Bytes>, size: Bytes)
    | DirectoryObject(entries: seq<Entry>)
    | CommitObject(author: Bytes, createdAt: Bytes, device: Bytes, message: Bytes, parents: seq<Bytes>, root: Bytes)

  ghost predicate AllText(texts: seq<Bytes>) {
    forall i :: 0 <= i < |texts| ==> IsUtf8(texts[i])
  }

  ghost predicate EntryIsText(e: Entry) {
    IsUtf8(e.id) && IsUtf8(e.modifiedAt) && IsUtf8(e.name) && IsUtf8(e.kind)
  }

  /** Every string of the object is UTF-8, as decoding an object demands. */
  ghost predicate ObjectIsText(o: Object) {
    match o
    case FileObject(blocks, size) => AllText(blocks) && IsUtf8(size)
    case DirectoryObject(entries) => forall i :: 0 <= i < |entries| ==> EntryIsText(entries[i])
    case CommitObject(author, createdAt, device, message, parents, root) =>
      IsUtf8(author) && IsUtf8(createdAt) && IsUtf8(device) && IsUtf8(message) && AllText(parents) && IsUtf8(root)
  }

  const EntryOpen: Bytes := "{\"Id\":"
  const EntryModified: Bytes := ",\"ModifiedAt\":"
  const EntryName: Bytes := ",\"Name\":"
  const EntryKind: Bytes := ",\"Type\":"

  /** A member's words and its quoted value, before what follows. */
  function Member(words: Bytes, value: Bytes, rest: Bytes): Bytes {
    words + (Quoted(value) + rest)
  }

  function PrintEntry(e: Entry, rest: Bytes): Bytes {
    Member(EntryOpen, e.id, Member(EntryModified, e.modifiedAt, Member(EntryName, e.name,
           Member(EntryKind, e.kind, "}" + rest))))
  }

  function Comma(first: bool): Bytes {
    if first then [] else ","
  }

  /** The quoted texts with commas between them, before what follows; `first` when none was written before. */
  function PrintTexts(texts: seq<Bytes>, first: bool, rest: Bytes): Bytes {
    if texts == [] then rest else Member(Comma(first), texts[0], PrintTexts(texts[1..], false, rest))
  }

  function PrintEntries(entries: seq<Entry>, first: bool, rest: Bytes): Bytes {
    if entries == [] then rest else Comma(first) + PrintEntry(entries[0], PrintEntries(entries[1..], false, rest))
  }

  const FileOpen: Bytes := "{\"Blocks\":["
  const FileSize: Bytes := "],\"Size\":"
  const FileClose: Bytes := ",\"Type\":\"File\",\"Version\":1}"
  const DirectoryOpen: Bytes := "{\"Entries\":["
  const DirectoryClose: Bytes := "],\"Type\":\"Directory\",\"Version\":1}"
  const CommitOpen: Bytes := "{\"AuthorUserId\":"
  const CommitCreated: Bytes := ",\"CreatedAt\":"
  const CommitDevice: Bytes := ",\"DeviceId\":"
  const CommitMessage: Bytes := ",\"Message\":"
  const CommitParents: Bytes := ",\"Parents\":["
  const CommitRoot: Bytes := "],\"Root\":"
  const CommitClose: Bytes := ",\"Type\":\"Commit\",\"Version\":1}"

  function FileTail(size: Bytes): Bytes {
    Member(FileSize, size, FileClose)
  }

  function CommitTail(root: Bytes): Bytes {
    Member(CommitRoot, root, CommitClose)
  }

  function Print(o: Object): Bytes {
    match o
    case FileObject(blocks, size) => FileOpen + PrintTexts(blocks, true, FileTail(size))
    case DirectoryObject(entries) => DirectoryOpen + PrintEntries(entries, true, DirectoryClose)
    case CommitObject(author, createdAt, device, message, parents, root) =>
      Member(CommitOpen, author, Member(CommitCreated, createdAt, Member(CommitDevice, device,
             Member(CommitMessage, message, CommitParents + PrintTexts(parents, true, CommitTail(root))))))
  }

  // ---- printing as the program does, growing one buffer ----

  method AppendMember(dst: Bytes, words: Bytes, value: Bytes, ghost rest: Bytes) returns (r: Bytes)
    ensures r + rest == dst + Member(words, value, rest)
  {
    r := AppendJSONString(dst + words, value);
    Assoc(dst, words, Quoted(value));
    Assoc(dst, words + Quoted(value), rest);
    Assoc(words, Quoted(value), rest);
  }

  /** `rest` stands for what is appended afterwards. */
  method AppendTexts(dst: Bytes, texts: seq<Bytes>, ghost rest: Bytes) returns (r: Bytes)
    ensures r + rest == dst + PrintTexts(texts, true, rest)
  {
    r := dst;
    var i := 0;
    while i < |texts|
      invariant 0 <= i <= |texts|
      invariant r + PrintTexts(texts[i..], i == 0, rest) == dst + PrintTexts(texts, true, rest)
    {
      assert texts[i..][1..] == texts[i + 1..];
      r := AppendMember(r, Comma(i == 0), texts[i], PrintTexts(texts[i + 1..], false, rest));
      i := i + 1;
    }
  }

  method AppendEntry(dst: Bytes, e: Entry, ghost rest: Bytes) returns (r: Bytes)
    ensures r + rest == dst + PrintEntry(e, rest)
  {
    ghost var end := "}" + rest;
    ghost var kind := Member(EntryKind, e.kind, end);
    ghost var name := Member(EntryName, e.name, kind);
    r := AppendMember(dst, EntryOpen, e.id, Member(EntryModified, e.modifiedAt, name));
    r := AppendMember(r, EntryModified, e.modifiedAt, name);
    r := AppendMember(r, EntryName, e.name, kind);
    r := AppendMember(r, EntryKind, e.kind, end);
    Assoc(r, "}", rest);
    r := r + "}";
  }

  method AppendFile(dst: Bytes, blocks: seq<Bytes>, size: Bytes) returns (r: Bytes)
    ensures r == dst + Print(FileObject(blocks, size))
  {
    Assoc(dst, FileOpen, PrintTexts(blocks, true, FileTail(size)));
    r := AppendTexts(dst + FileOpen, blocks, FileTail(size));
    r := AppendMember(r, FileSize, size, FileClose);
    r := r + FileClose;
  }

  method AppendDirectory(dst: Bytes, entries: seq<Entry>) returns (r: Bytes)
    ensures r == dst + Print(DirectoryObject(entries))
  {
    Assoc(dst, DirectoryOpen, PrintEntries(entries, true, DirectoryClose));
    r := AppendEntries(dst + DirectoryOpen, entries, DirectoryClose);
    r := r + DirectoryClose;
  }

  ghost predicate EntriesUpTo(entries: seq<Entry>, i: nat, r: Bytes, rest: Bytes, whole: Bytes) {
    i <= |entries| && r + PrintEntries(entries[i..], i == 0, rest) == whole
  }

  lemma EntriesMore(entries: seq<Entry>, i: nat, r: Bytes, rest: Bytes, whole: Bytes)
    requires EntriesUpTo(entries, i, r, rest, whole) && i < |entries|
    ensures (r + Comma(i == 0)) + PrintEntry(entries[i], PrintEntries(entries[i + 1..], false, rest)) == whole
  {
    assert entries[i..][1..] == entries[i + 1..];
    Assoc(r, Comma(i == 0), PrintEntry(entries[i], PrintEntries(entries[i + 1..], false, rest)));
  }

  method AppendEntryAt(r: Bytes, entries: seq<Entry>, i: nat, ghost rest: Bytes, ghost whole: Bytes) returns (longer: Bytes)
    requires i < |entries| && EntriesUpTo(entries, i, r, rest, whole)
    ensures EntriesUpTo(entries, i + 1, longer, rest, whole)
  {
    EntriesMore(entries, i, r, rest, whole);
    longer := AppendEntry(r + Comma(i == 0), entries[i], PrintEntries(entries[i + 1..], false, rest));
  }

  lemma EntriesDone(entries: seq<Entry>, r: Bytes, rest: Bytes, whole: Bytes)
    requires EntriesUpTo(entries, |entries|, r, rest, whole)
    ensures r + rest == whole
  {
    assert entries[|entries|..] == [];
  }

  lemma EntriesBegin(entries: seq<Entry>, r: Bytes, rest: Bytes)
    ensures EntriesUpTo(entries, 0, r, rest, r + PrintEntries(entries, true, rest))
  {
    assert entries[0..] == entries;
  }

  method AppendEntries(dst: Bytes, entries: seq<Entry>, ghost rest: Bytes) returns (r: Bytes)
    ensures r + rest == dst + PrintEntries(entries, true, rest)
  {
    ghost var whole := dst + PrintEntries(entries, true, rest);
    r := dst;
    var i := 0;
    EntriesBegin(entries, r, rest);
    while i < |entries|
      invariant EntriesUpTo(entries, i, r, rest, whole)
    {
      r := AppendEntryAt(r, entries, i, rest, whole);
      i := i + 1;
    }
    EntriesDone(entries, r, rest, whole);
  }

  method AppendCommit(dst: Bytes, o: Object) returns (r: Bytes)
    requires o.CommitObject?
    ensures r == dst + Print(o)
  {
    ghost var list := PrintTexts(o.parents, true, CommitTail(o.root));
    ghost var message := Member(CommitMessage, o.message, CommitParents + list);
    ghost var device := Member(CommitDevice, o.device, message);
    r := AppendMember(dst, CommitOpen, o.author, Member(CommitCreated, o.createdAt, device));
    r := AppendMember(r, CommitCreated, o.createdAt, device);
    r := AppendMember(r, CommitDevice, o.device, message);
    r := AppendMember(r, CommitMessage, o.message, CommitParents + list);
    Assoc(r, CommitParents, list);
    r := AppendTexts(r + CommitParents, o.parents, CommitTail(o.root));
    r := AppendMember(r, CommitRoot, o.root, CommitClose);
    r := r + CommitClose;
  }

  // ---- distinct objects, distinct bytes ----

  /** Two members with the same words agree in their values and in what follows. */
  lemma MemberCancel(words: Bytes, a: Bytes, restA: Bytes, b: Bytes, restB: Bytes)
    requires IsUtf8(a) && IsUtf8(b) && Member(words, a, restA) == Member(words, b, restB)
    ensures a == b && restA == restB
  {
    Cancel(words, Quoted(a) + restA, Quoted(b) + restB);
    QuotedCancel(a, restA, b, restB);
  }

  /** A list starts with a comma or a quote unless it is empty, so the closing bracket ends it. */
  lemma TextsStart(texts: seq<Bytes>, first: bool, rest: Bytes)
    requires rest != [] && rest[0] == ']'
    ensures PrintTexts(texts, first, rest) != [] && (PrintTexts(texts, first, rest)[0] == ']' <==> texts == [])
  {
    if texts != [] {
      QuotedTail(texts[0], PrintTexts(texts[1..], false, rest));
    }
  }

  lemma {:induction false} TextsCancel(a: seq<Bytes>, restA: Bytes, b: seq<Bytes>, restB: Bytes, first: bool)
    requires AllText(a) && AllText(b) && restA != [] && restB != [] && restA[0] == ']' && restB[0] == ']'
    requires PrintTexts(a, first, restA) == PrintTexts(b, first, restB)
    ensures a == b && restA == restB
  {
    TextsStart(a, first, restA);
    TextsStart(b, first, restB);
    if a != [] {
      MemberCancel(Comma(first), a[0], PrintTexts(a[1..], false, restA), b[0], PrintTexts(b[1..], false, restB));
      TextsCancel(a[1..], restA, b[1..], restB, false);
      assert a == [a[0]] + a[1..] && b == [b[0]] + b[1..];
    }
  }

  lemma EntryCancel(a: Entry, restA: Bytes, b: Entry, restB: Bytes)
    requires EntryIsText(a) && EntryIsText(b) && PrintEntry(a, restA) == PrintEntry(b, restB)
    ensures a == b && restA == restB
  {
    var ka, kb := Member(EntryKind, a.kind, "}" + restA), Member(EntryKind, b.kind, "}" + restB);
    var na, nb := Member(EntryName, a.name, ka), Member(EntryName, b.name, kb);
    var ma, mb := Member(EntryModified, a.modifiedAt, na), Member(EntryModified, b.modifiedAt, nb);
    MemberCancel(EntryOpen, a.id, ma, b.id, mb);
    MemberCancel(EntryModified, a.modifiedAt, na, b.modifiedAt, nb);
    MemberCancel(EntryName, a.name, ka, b.name, kb);
    MemberCancel(EntryKind, a.kind, "}" + restA, b.kind, "}" + restB);
    Cancel("}", restA, restB);
  }

  lemma EntriesStart(entries: seq<Entry>, first: bool, rest: Bytes)
    requires rest != [] && rest[0] == ']'
    ensures PrintEntries(entries, first, rest) != [] && (PrintEntries(entries, first, rest)[0] == ']' <==> entries == [])
  {
  }

  lemma {:induction false} EntriesCancel(a: seq<Entry>, restA: Bytes, b: seq<Entry>, restB: Bytes, first: bool)
    requires ObjectIsText(DirectoryObject(a)) && ObjectIsText(DirectoryObject(b))
    requires restA != [] && restB != [] && restA[0] == ']' && restB[0] == ']'
    requires PrintEntries(a, first, restA) == PrintEntries(b, first, restB)
    ensures a == b && restA == restB
  {
    EntriesStart(a, first, restA);
    EntriesStart(b, first, restB);
    if a != [] {
      var tailA, tailB := PrintEntries(a[1..], false, restA), PrintEntries(b[1..], false, restB);
      Cancel(Comma(first), PrintEntry(a[0], tailA), PrintEntry(b[0], tailB));
      EntryCancel(a[0], tailA, b[0], tailB);
      EntriesCancel(a[1..], restA, b[1..], restB, false);
      SameList(a, b);
    }
  }

  lemma SameList(a: seq<Entry>, b: seq<Entry>)
    requires a != [] && b != [] && a[0] == b[0] && a[1..] == b[1..]
    ensures a == b
  {
    assert a == [a[0]] + a[1..] && b == [b[0]] + b[1..];
  }

  lemma FileInjective(a: Object, b: Object)
    requires a.FileObject? && b.FileObject? && ObjectIsText(a) && ObjectIsText(b) && Print(a) == Print(b)
    ensures a == b
  {
    Cancel(FileOpen, PrintTexts(a.blocks, true, FileTail(a.size)), PrintTexts(b.blocks, true, FileTail(b.size)));
    TextsCancel(a.blocks, FileTail(a.size), b.blocks, FileTail(b.size), true);
    MemberCancel(FileSize, a.size, FileClose, b.size, FileClose);
  }

  lemma DirectoryInjective(a: Object, b: Object)
    requires a.DirectoryObject? && b.DirectoryObject? && ObjectIsText(a) && ObjectIsText(b) && Print(a) == Print(b)
    ensures a == b
  {
    Cancel(DirectoryOpen, PrintEntries(a.entries, true, DirectoryClose), PrintEntries(b.entries, true, DirectoryClose));
    EntriesCancel(a.entries, DirectoryClose, b.entries, DirectoryClose, true);
  }

  lemma CommitInjective(a: Object, b: Object)
    requires a.CommitObject? && b.CommitObject? && ObjectIsText(a) && ObjectIsText(b) && Print(a) == Print(b)
    ensures a == b
  {
    var pa, pb := PrintTexts(a.parents, true, CommitTail(a.root)), PrintTexts(b.parents, true, CommitTail(b.root));
    var ma, mb := Member(CommitMessage, a.message, CommitParents + pa), Member(CommitMessage, b.message, CommitParents + pb);
    var da, db := Member(CommitDevice, a.device, ma), Member(CommitDevice, b.device, mb);
    var ca, cb := Member(CommitCreated, a.createdAt, da), Member(CommitCreated, b.createdAt, db);
    MemberCancel(CommitOpen, a.author, ca, b.author, cb);
    MemberCancel(CommitCreated, a.createdAt, da, b.createdAt, db);
    MemberCancel(CommitDevice, a.device, ma, b.device, mb);
    MemberCancel(CommitMessage, a.message, CommitParents + pa, b.message, CommitParents + pb);
    Cancel(CommitParents, pa, pb);
    TextsCancel(a.parents, CommitTail(a.root), b.parents, CommitTail(b.root), true);
    MemberCancel(CommitRoot, a.root, CommitClose, b.root, CommitClose);
  }

  /** The third byte tells the kind of object. */
  lemma KindShows(o: Object)
    ensures |Print(o)| > 2 && Print(o)[2] == if o.FileObject? then 'B' else if o.DirectoryObject? then 'E' else 'A'
  {
  }

  /** Distinct objects never share canonical bytes. */
  lemma PrintInjective(a: Object, b: Object)
    requires ObjectIsText(a) && ObjectIsText(b) && Print(a) == Print(b)
    ensures a == b
  {
    KindShows(a);
    KindShows(b);
    if a.FileObject? {
      FileInjective(a, b);
    } else if a.DirectoryObject? {
      DirectoryInjective(a, b);
    } else {
      CommitInjective(a, b);
    }
  }
}
