/** The record of renamed conflict files, in its FCP1 and FCP2 encodings. */
module ConflictProvenance {
  import opened Wrappers
  import opened Bytes
  import opened Sorting
  import opened RecordReader
  import B = ByteBuffer

  const MaxRecords: nat := 2_000_000
  const MaxProvenanceBytes: nat := 33_554_432
  const MagicV1: Bytes := "FCP1"
  const MagicV2: Bytes := "FCP2"
  const EmptyProvenance: Bytes := MagicV1 + PutUint32(0)

  type Int64 = n: int | 0 <= n + TWO_63 && n < TWO_63

  /** Two's complement, as the conversions between signed and unsigned numbers work. */
  function AsUint64(n: Int64): (u: nat)
    ensures u < TWO_64
  {
    if n < 0 then n + TWO_64 else n
  }

  function AsInt64(u: nat): Int64
    requires u < TWO_64
  {
    if u < TWO_63 then u else u - TWO_64
  }

  lemma Int64Inverse(n: Int64, b: Bytes)
    requires |b| == 8
    ensures AsInt64(Uint64(PutUint64(AsUint64(n)))) == n && PutUint64(AsUint64(AsInt64(Uint64(b)))) == b
  {
    Uint64Inverse(AsUint64(n), b);
  }

  /** One renamed file; `seed` is empty in records from before naming seeds. */
  datatype Promotion = Promotion(source: Bytes, target: Bytes, id: Bytes, mtime: Bytes, size: Int64, seed: Bytes)

  datatype ProvenanceError = TooManyRecords | InvalidRecords | MixedRecords | OverBudget | BadHeader | BadRecords | NotCanonical

  /** The checks on single fields that this module does not look into, and case folding. */
  datatype Rules = Rules(path: Bytes -> bool, mtime: Bytes -> bool, fold: Bytes -> Bytes)

  ghost predicate RulesRefuseEmpty(rules: Rules) {
    !rules.path([]) && !rules.mtime([])
  }

  predicate ValidFields(rules: Rules, value: Promotion) {
    && rules.path(value.source) && rules.path(value.target)
    && value.source != value.target && ValidId(value.id) && value.size >= 0
    && (value.seed == [] || ValidId(value.seed)) && rules.mtime(value.mtime)
  }

  ghost predicate Separate(rules: Rules, a: Promotion, b: Promotion) {
    rules.fold(a.source) != rules.fold(b.source) && rules.fold(a.target) != rules.fold(b.target)
  }

  /** Valid fields, and no two records share a source or a target, ignoring case. */
  ghost predicate Valid(rules: Rules, values: seq<Promotion>) {
    && (forall i :: 0 <= i < |values| ==> ValidFields(rules, values[i]))
    && (forall i, j :: 0 <= i < j < |values| ==> Separate(rules, values[i], values[j]))
  }

  ghost predicate ValidUpTo(rules: Rules, values: seq<Promotion>, n: nat)
    requires n <= |values|
  {
    && (forall i :: 0 <= i < n ==> ValidFields(rules, values[i]))
    && (forall i, j :: 0 <= i < j < n ==> Separate(rules, values[i], values[j]))
  }

  /** The folded sources (or targets) of the first records. */
  ghost function Folded(rules: Rules, values: seq<Promotion>, n: nat, ofTargets: bool): set<Bytes>
    requires n <= |values|
  {
    if n == 0 then {}
    else
      var last := values[n - 1];
      Folded(rules, values, n - 1, ofTargets) + {rules.fold(if ofTargets then last.target else last.source)}
  }

  lemma {:induction false} FoldedHas(rules: Rules, values: seq<Promotion>, n: nat, j: nat)
    requires j < n <= |values|
    ensures rules.fold(values[j].source) in Folded(rules, values, n, false)
    ensures rules.fold(values[j].target) in Folded(rules, values, n, true)
  {
    if j < n - 1 {
      FoldedHas(rules, values, n - 1, j);
    }
  }

  lemma {:induction false} FoldedFrom(rules: Rules, values: seq<Promotion>, n: nat, ofTargets: bool, name: Bytes) returns (j: nat)
    requires n <= |values| && name in Folded(rules, values, n, ofTargets)
    ensures j < n && rules.fold(if ofTargets then values[j].target else values[j].source) == name
  {
    var last := values[n - 1];
    if rules.fold(if ofTargets then last.target else last.source) == name {
      j := n - 1;
    } else {
      j := FoldedFrom(rules, values, n - 1, ofTargets, name);
    }
  }

  lemma ValidMore(rules: Rules, values: seq<Promotion>, i: nat)
    requires i < |values| && ValidUpTo(rules, values, i) && ValidFields(rules, values[i])
    requires rules.fold(values[i].source) !in Folded(rules, values, i, false)
    requires rules.fold(values[i].target) !in Folded(rules, values, i, true)
    ensures ValidUpTo(rules, values, i + 1)
  {
    forall j | 0 <= j < i
      ensures Separate(rules, values[j], values[i])
    {
      FoldedHas(rules, values, i, j);
    }
  }

  lemma NotValid(rules: Rules, values: seq<Promotion>, i: nat)
    requires i < |values|
    requires || rules.fold(values[i].source) in Folded(rules, values, i, false)
             || rules.fold(values[i].target) in Folded(rules, values, i, true)
    ensures !Valid(rules, values)
  {
    var ofTargets := rules.fold(values[i].target) in Folded(rules, values, i, true);
    var j := FoldedFrom(rules, values, i, ofTargets, rules.fold(if ofTargets then values[i].target else values[i].source));
    assert !Separate(rules, values[j], values[i]);
  }

  lemma InvalidAt(rules: Rules, values: seq<Promotion>, i: nat)
    requires i < |values| && !ValidFields(rules, values[i])
    ensures !Valid(rules, values)
  {
  }

  /** The first records are valid, and these are their folded paths. */
  ghost predicate Checked(rules: Rules, values: seq<Promotion>, i: nat, sources: set<Bytes>, targets: set<Bytes>)
    requires i <= |values|
  {
    ValidUpTo(rules, values, i) && sources == Folded(rules, values, i, false) && targets == Folded(rules, values, i, true)
  }

  lemma CheckedMore(rules: Rules, values: seq<Promotion>, i: nat, sources: set<Bytes>, targets: set<Bytes>)
    requires i < |values| && Checked(rules, values, i, sources, targets) && ValidFields(rules, values[i])
    requires rules.fold(values[i].source) !in sources && rules.fold(values[i].target) !in targets
    ensures Checked(rules, values, i + 1, sources + {rules.fold(values[i].source)}, targets + {rules.fold(values[i].target)})
  {
    ValidMore(rules, values, i);
  }

  method ValidateConflictPromotions(rules: Rules, values: seq<Promotion>) returns (ok: bool)
    ensures ok <==> Valid(rules, values)
    ensures ok <==>
              && (forall i :: 0 <= i < |values| ==>
                    var v := values[i];
                    && rules.path(v.source) && rules.path(v.target) && v.source != v.target && ValidId(v.id) && v.size >= 0
                    && rules.mtime(v.mtime) && (v.seed != [] ==> ValidId(v.seed)))
              && (forall i, j :: 0 <= i < j < |values| ==>
                    rules.fold(values[i].source) != rules.fold(values[j].source) && rules.fold(values[i].target) != rules.fold(values[j].target))
  {
    var sources: set<Bytes>, targets: set<Bytes> := {}, {};
    var i := 0;
    while i < |values|
      invariant 0 <= i <= |values| && Checked(rules, values, i, sources, targets)
    {
      if !ValidFields(rules, values[i]) {
        InvalidAt(rules, values, i);
        return false;
      }
      var source, target := rules.fold(values[i].source), rules.fold(values[i].target);
      if source in sources || target in targets {
        NotValid(rules, values, i);
        return false;
      }
      CheckedMore(rules, values, i, sources, targets);
      sources, targets := sources + {source}, targets + {target};
      i := i + 1;
    }
    return true;
  }

  // ---- encoding ----

  function FieldList(value: Promotion): seq<Bytes> {
    [value.source, value.target, value.id, value.mtime] + if value.seed == [] then [] else [value.seed]
  }

  function Record(value: Promotion): Bytes {
    Fields(FieldList(value)) + PutUint64(AsUint64(value.size))
  }

  function Records(values: seq<Promotion>): Bytes {
    if values == [] then [] else Record(values[0]) + Records(values[1..])
  }

  function Encoding(values: seq<Promotion>): Bytes {
    (if values != [] && values[0].seed != [] then MagicV2 else MagicV1) + PutUint32(|values| % TWO_32) + Records(values)
  }

  predicate Seeded(values: seq<Promotion>, seeded: bool) {
    forall i :: 0 <= i < |values| ==> (values[i].seed != [] <==> seeded)
  }

  ghost predicate FieldsFit(value: Promotion) {
    forall i :: 0 <= i < |FieldList(value)| ==> |FieldList(value)[i]| < TWO_16
  }

  ghost predicate AllFieldsFit(values: seq<Promotion>) {
    forall i :: 0 <= i < |values| ==> FieldsFit(values[i])
  }

  function SourceOf(value: Promotion): Bytes {
    value.source
  }

  /** What can be stored: sorted valid records, all seeded or none, within the size limits. */
  ghost predicate Storable(rules: Rules, values: seq<Promotion>) {
    && |values| <= MaxRecords && IncreasingBy(SourceOf, values) && Valid(rules, values)
    && Seeded(values, values != [] && values[0].seed != [])
    && AllFieldsFit(values) && |Encoding(values)| <= MaxProvenanceBytes
  }

  ghost predicate EncodesTo(rules: Rules, values: seq<Promotion>, data: Bytes) {
    Storable(rules, values) && Encoding(values) == data
  }

  lemma {:induction false} RecordsAppend(values: seq<Promotion>, last: Promotion)
    ensures Records(values + [last]) == Records(values) + Record(last)
  {
    if values == [] {
      assert Records([last]) == Record(last) + Records([]);
    } else {
      RecordsAppend(values[1..], last);
      assert (values + [last])[1..] == values[1..] + [last];
    }
  }

  lemma {:induction false} RecordsSplit(values: seq<Promotion>, i: nat)
    requires i <= |values|
    ensures Records(values) == Records(values[..i]) + Records(values[i..])
  {
    if i > 0 {
      RecordsSplit(values[1..], i - 1);
      assert values[1..][..i - 1] == values[..i][1..] && values[1..][i - 1..] == values[i..];
    } else {
      assert values[i..] == values;
    }
  }

  /** Distinct folded sources are distinct sources, so sorting leaves exactly one order. */
  lemma ValidSortedIncreasing(rules: Rules, values: seq<Promotion>)
    requires Valid(rules, values) && SortedBy(SourceOf, values)
    ensures IncreasingBy(SourceOf, values)
  {
    forall i, j | 0 <= i < j < |values|
      ensures Less(SourceOf(values[i]), SourceOf(values[j]))
    {
      assert Separate(rules, values[i], values[j]);
      assert AtMost(SourceOf(values[i]), SourceOf(values[j]));
    }
  }

  /** The size one record adds, or nothing when a field is too long or the budget is passed. */
  method AddRecordSize(value: Promotion, size: nat) returns (r: Option<nat>)
    requires size <= MaxProvenanceBytes
    ensures r.Some? <==> FieldsFit(value) && size + |Record(value)| <= MaxProvenanceBytes
    ensures r.Some? ==> r.value == size + |Record(value)|
  {
    var fields := FieldList(value);
    var total: nat, i := size, 0;
    while i < |fields|
      invariant 0 <= i <= |fields|
      invariant forall j :: 0 <= j < i ==> |fields[j]| < TWO_16
      invariant total == size + |Fields(fields[..i])| <= MaxProvenanceBytes
    {
      assert fields[..i + 1] == fields[..i] + [fields[i]];
      FieldsAppend(fields[..i], fields[i]);
      SplitAt(fields, i + 1);
      if |fields[i]| > 65535 || total + 2 + |fields[i]| > MaxProvenanceBytes {
        return None;
      }
      total := total + 2 + |fields[i]|;
      i := i + 1;
    }
    assert fields[..|fields|] == fields;
    return if total + 8 > MaxProvenanceBytes then None else Some(total + 8);
  }

  /** The exact size of the encoding, computed before anything is written. */
  method EncodedSize(values: seq<Promotion>) returns (r: Option<nat>)
    ensures r.Some? <==> AllFieldsFit(values) && |Encoding(values)| <= MaxProvenanceBytes
    ensures r.Some? ==> r.value == |Encoding(values)|
  {
    var size: nat, i := 8, 0;
    while i < |values|
      invariant 0 <= i <= |values|
      invariant AllFieldsFit(values[..i])
      invariant size == 8 + |Records(values[..i])| <= MaxProvenanceBytes
    {
      assert values[..i + 1] == values[..i] + [values[i]];
      RecordsAppend(values[..i], values[i]);
      RecordsSplit(values, i + 1);
      var next := AddRecordSize(values[i], size);
      if next.None? {
        return None;
      }
      size := next.value;
      i := i + 1;
    }
    assert values[..|values|] == values;
    return Some(size);
  }

  /** Encodes exactly the lists whose sorted form is storable, as that sorted form. */
  method EncodeConflictPromotions(rules: Rules, values: seq<Promotion>) returns (r: Result<Bytes, ProvenanceError>)
    ensures r.Ok? <==> Storable(rules, Sort(SourceOf, values))
    ensures r.Ok? ==> EncodesTo(rules, Sort(SourceOf, values), r.value)
  {
    SortSorts(SourceOf, values);
    if |values| > MaxRecords {
      return Err(TooManyRecords);
    }
    var ordered := Sort(SourceOf, values);
    var valid := ValidateConflictPromotions(rules, ordered);
    if !valid {
      return Err(InvalidRecords);
    }
    ValidSortedIncreasing(rules, ordered);
    var seeded := ordered != [] && ordered[0].seed != [];
    if !Seeded(ordered, seeded) {
      return Err(MixedRecords);
    }
    var size := EncodedSize(ordered);
    if size.None? {
      return Err(OverBudget);
    }
    var data := Write(ordered, size.value);
    return Ok(data);
  }

  method Write(values: seq<Promotion>, size: nat) returns (data: Bytes)
    requires size == |Encoding(values)|
    ensures data == Encoding(values)
  {
    var buffer := new Byte[size];
    B.Put(buffer, 0, if values != [] && values[0].seed != [] then MagicV2 else MagicV1);
    B.Put(buffer, 4, PutUint32(|values| % TWO_32));
    WriteRecords(buffer, 8, values);
    return buffer[..];
  }

  /** The first records are in the buffer's beginning, and the others fit behind them. */
  ghost predicate WrittenUpTo(values: seq<Promotion>, i: nat, front: Bytes, written: Bytes, size: nat) {
    i <= |values| && written == front + Records(values[..i]) && |written| + |Records(values[i..])| == size
  }

  lemma WrittenMore(values: seq<Promotion>, i: nat, front: Bytes, written: Bytes, size: nat)
    requires WrittenUpTo(values, i, front, written, size) && i < |values|
    ensures WrittenUpTo(values, i + 1, front, written + Record(values[i]), size)
  {
    assert values[..i + 1] == values[..i] + [values[i]] && values[i..][1..] == values[i + 1..];
    RecordsAppend(values[..i], values[i]);
  }

  lemma WrittenFits(values: seq<Promotion>, i: nat, front: Bytes, written: Bytes, size: nat)
    requires WrittenUpTo(values, i, front, written, size)
    ensures i < |values| ==> |written| + |Record(values[i])| <= size
    ensures i == |values| ==> written == front + Records(values) && |written| == size
  {
    if i == |values| {
      assert values[..i] == values && values[i..] == [];
    }
  }

  method WriteRecords(buffer: array<Byte>, start: nat, values: seq<Promotion>)
    requires start + |Records(values)| == buffer.Length
    modifies buffer
    ensures buffer[..] == old(buffer[..start]) + Records(values)
  {
    ghost var front := buffer[..start];
    var offset: nat, i := start, 0;
    assert values[..0] == [] && values[0..] == values;
    while i < |values|
      invariant offset <= buffer.Length && WrittenUpTo(values, i, front, buffer[..offset], buffer.Length)
    {
      WrittenFits(values, i, front, buffer[..offset], buffer.Length);
      WrittenMore(values, i, front, buffer[..offset], buffer.Length);
      offset := WriteRecord(buffer, offset, values[i]);
      i := i + 1;
    }
    WrittenFits(values, i, front, buffer[..offset], buffer.Length);
    assert buffer[..offset] == buffer[..];
  }

  method WriteRecord(buffer: array<Byte>, start: nat, value: Promotion) returns (end: nat)
    requires start + |Record(value)| <= buffer.Length
    modifies buffer
    ensures end == start + |Record(value)| && buffer[..end] == old(buffer[..start]) + Record(value)
  {
    end := WriteFields(buffer, start, FieldList(value));
    B.Put(buffer, end, PutUint64(AsUint64(value.size)));
    end := end + 8;
  }

  method WriteFields(buffer: array<Byte>, start: nat, fields: seq<Bytes>) returns (end: nat)
    requires start + |Fields(fields)| <= buffer.Length
    modifies buffer
    ensures end == start + |Fields(fields)| && buffer[..end] == old(buffer[..start]) + Fields(fields)
  {
    var i := 0;
    end := start;
    while i < |fields|
      invariant 0 <= i <= |fields|
      invariant start <= end && end + |Fields(fields[i..])| == start + |Fields(fields)|
      invariant buffer[..end] == old(buffer[..start]) + Fields(fields[..i])
    {
      assert fields[..i + 1] == fields[..i] + [fields[i]] && fields[i..][1..] == fields[i + 1..];
      FieldsAppend(fields[..i], fields[i]);
      end := WriteField(buffer, end, fields[i]);
      i := i + 1;
    }
    assert fields[..|fields|] == fields;
  }

  method WriteField(buffer: array<Byte>, start: nat, field: Bytes) returns (end: nat)
    requires start + |Field(field)| <= buffer.Length
    modifies buffer
    ensures end == start + |Field(field)| && buffer[..end] == old(buffer[..start]) + Field(field)
  {
    B.Put(buffer, start, PutUint16(|field| % TWO_16));
    B.Put(buffer, start + 2, field);
    end := start + 2 + |field|;
  }

  // ---- decoding ----

  ghost predicate RecordAt(data: Bytes, offset: nat, seeded: bool, value: Promotion) {
    && offset + |Record(value)| <= |data| && (value.seed != [] <==> seeded) && AllFit(FieldList(value))
    && data[offset..offset + |Record(value)|] == Record(value)
  }

  lemma RecordParts(data: Bytes, offset: nat, seeded: bool, value: Promotion)
    requires RecordAt(data, offset, seeded, value)
    ensures |FieldList(value)| == (if seeded then 5 else 4) && FieldsAt(data, offset, FieldList(value))
    ensures var middle := offset + |Fields(FieldList(value))|;
            middle + 8 <= |data| && AsInt64(Uint64(data[middle..middle + 8])) == value.size
  {
    var fields := Fields(FieldList(value));
    var whole := Record(value);
    assert data[offset..offset + |whole|][..|fields|] == whole[..|fields|];
    assert data[offset..offset + |fields|] == fields;
    assert data[offset + |fields|..offset + |whole|] == whole[|fields|..];
    Int64Inverse(value.size, PutUint64(0));
  }

  lemma RecordFrom(data: Bytes, offset: nat, seeded: bool, value: Promotion)
    requires FieldsAt(data, offset, FieldList(value)) && (value.seed != [] <==> seeded)
    requires var middle := offset + |Fields(FieldList(value))|;
             middle + 8 <= |data| && AsInt64(Uint64(data[middle..middle + 8])) == value.size
    ensures RecordAt(data, offset, seeded, value)
  {
    var middle := offset + |Fields(FieldList(value))|;
    Int64Inverse(0, data[middle..middle + 8]);
    assert data[offset..middle + 8] == data[offset..middle] + data[middle..middle + 8];
    FitFields(value, data, offset);
  }

  lemma FitFields(value: Promotion, data: Bytes, offset: nat)
    requires FieldsAt(data, offset, FieldList(value))
    ensures AllFit(FieldList(value))
  {
  }

  lemma RecordUnique(data: Bytes, offset: nat, seeded: bool, a: Promotion, b: Promotion)
    requires RecordAt(data, offset, seeded, a) && RecordAt(data, offset, seeded, b)
    requires FieldList(a) == FieldList(b)
    ensures a == b
  {
    RecordParts(data, offset, seeded, a);
    RecordParts(data, offset, seeded, b);
    var x, y := FieldList(a), FieldList(b);
    assert x[0] == y[0] && x[1] == y[1] && x[2] == y[2] && x[3] == y[3] && (seeded ==> x[4] == y[4]);
  }

  function FromFields(fields: seq<Bytes>, size: Int64): Promotion
    requires 4 <= |fields| <= 5
  {
    Promotion(fields[0], fields[1], fields[2], fields[3], size, if |fields| == 5 then fields[4] else [])
  }

  lemma FromFieldsList(fields: seq<Bytes>, size: Int64, data: Bytes, offset: nat)
    requires 4 <= |fields| <= 5 && FieldsAt(data, offset, fields)
    ensures FieldList(FromFields(fields, size)) == fields && (FromFields(fields, size).seed != [] <==> |fields| == 5)
  {
    assert |fields| == 5 ==> Fits(fields[4]);
  }

  /** The fields and the number found at a place make the one record that is there. */
  lemma RecordRead(data: Bytes, offset: nat, seeded: bool, fields: seq<Bytes>, read: Promotion)
    requires FieldsAt(data, offset, fields) && |fields| == if seeded then 5 else 4
    requires var middle := offset + |Fields(fields)|;
             middle + 8 <= |data| && read == FromFields(fields, AsInt64(Uint64(data[middle..middle + 8])))
    ensures RecordAt(data, offset, seeded, read)
  {
    FromFieldsList(fields, read.size, data, offset);
    RecordFrom(data, offset, seeded, read);
  }

  /** What `ReadFields` found out about the record there, if any. */
  lemma RecordNeeds(data: Bytes, offset: nat, seeded: bool, fields: Option<seq<Bytes>>, value: Promotion)
    requires RecordAt(data, offset, seeded, value)
    requires fields.None? ==> forall other :: |other| == (if seeded then 5 else 4) ==> !FieldsAt(data, offset, other)
    requires fields.Some? ==> forall other :: |other| == (if seeded then 5 else 4) && FieldsAt(data, offset, other) ==> other == fields.value
    ensures fields == Some(FieldList(value)) && offset + |Fields(FieldList(value))| + 8 <= |data|
  {
    RecordParts(data, offset, seeded, value);
  }

  /** Reads the record at `offset`, if there is one, and nothing else is there. */
  method ReadRecord(data: Bytes, offset: nat, seeded: bool) returns (r: Option<Promotion>)
    requires offset <= |data|
    ensures r.Some? ==> RecordAt(data, offset, seeded, r.value)
    ensures forall value :: RecordAt(data, offset, seeded, value) ==> r == Some(value)
  {
    var fields := ReadFields(data, offset, if seeded then 5 else 4);
    forall value | RecordAt(data, offset, seeded, value)
      ensures fields == Some(FieldList(value)) && offset + |Fields(FieldList(value))| + 8 <= |data|
    {
      RecordNeeds(data, offset, seeded, fields, value);
    }
    if fields.None? || |data| - (offset + |Fields(fields.value)|) < 8 {
      return None;
    }
    var middle := offset + |Fields(fields.value)|;
    var read := FromFields(fields.value, AsInt64(Uint64(data[middle..middle + 8])));
    RecordRead(data, offset, seeded, fields.value, read);
    forall value | RecordAt(data, offset, seeded, value)
      ensures value == read
    {
      FromFieldsList(fields.value, read.size, data, offset);
      RecordUnique(data, offset, seeded, value, read);
    }
    return Some(read);
  }

  ghost predicate RecordsFit(values: seq<Promotion>, seeded: bool) {
    Seeded(values, seeded) && forall i :: 0 <= i < |values| ==> AllFit(FieldList(values[i]))
  }

  /** The records' encoding is what lies between `start` and `end`. */
  ghost predicate RecordsBetween(values: seq<Promotion>, seeded: bool, data: Bytes, start: nat, end: nat) {
    start <= end <= |data| && RecordsFit(values, seeded) && data[start..end] == Records(values)
  }

  lemma RecordsMore(values: seq<Promotion>, seeded: bool, data: Bytes, start: nat, end: nat, next: Promotion)
    requires RecordsBetween(values, seeded, data, start, end) && RecordAt(data, end, seeded, next)
    ensures RecordsBetween(values + [next], seeded, data, start, end + |Record(next)|)
  {
    RecordsAppend(values, next);
    var last := end + |Record(next)|;
    assert data[start..last] == data[start..end] + data[end..last];
  }

  lemma NextRecord(values: seq<Promotion>, read: seq<Promotion>, seeded: bool, data: Bytes, start: nat, end: nat)
    requires RecordsBetween(values, seeded, data, start, |data|) && RecordsBetween(read, seeded, data, start, end)
    requires read <= values && |read| < |values|
    ensures RecordAt(data, end, seeded, values[|read|])
  {
    RecordsSplit(values, |read|);
    assert values[..|read|] == read;
    var rest := Records(values[|read|..]);
    var next := Record(values[|read|]);
    assert data[start..] == data[start..|data|];
    assert data[end..] == data[start..][end - start..] == rest;
    assert rest == next + Records(values[|read|..][1..]);
    assert data[end..end + |next|] == data[end..][..|next|] == next;
  }

  ghost predicate AllOf(values: seq<Promotion>, seeded: bool, data: Bytes, count: nat) {
    |data| >= 8 && |values| == count && RecordsBetween(values, seeded, data, 8, |data|)
  }

  ghost predicate Continues(values: seq<Promotion>, read: seq<Promotion>, seeded: bool, data: Bytes, count: nat) {
    AllOf(values, seeded, data, count) ==> read <= values
  }

  lemma ContinuesMore(values: seq<Promotion>, read: seq<Promotion>, seeded: bool, data: Bytes, count: nat,
                      offset: nat, next: Option<Promotion>)
    requires |data| >= 8 && |read| < count && RecordsBetween(read, seeded, data, 8, offset)
    requires forall value :: RecordAt(data, offset, seeded, value) ==> next == Some(value)
    requires AllOf(values, seeded, data, count) && Continues(values, read, seeded, data, count)
    ensures next.Some? && read + [next.value] <= values
  {
    NextRecord(values, read, seeded, data, 8, offset);
  }

  lemma AllRead(values: seq<Promotion>, read: seq<Promotion>, seeded: bool, data: Bytes, offset: nat)
    requires AllOf(values, seeded, data, |read|) && Continues(values, read, seeded, data, |read|)
    requires RecordsBetween(read, seeded, data, 8, offset)
    ensures values == read && offset == |data|
  {
    assert values == read by {
      assert values == values[..|read|];
    }
    var size := |Records(read)|;
    assert |data[8..offset]| == size;
    assert |data[8..|data|]| == size;
  }

  /** Reads exactly `count` records up to the end; fails just when that is not what is there. */
  method ReadRecords(data: Bytes, count: nat, seeded: bool) returns (r: Option<seq<Promotion>>)
    requires |data| >= 8
    ensures r.Some? ==> AllOf(r.value, seeded, data, count)
    ensures forall values :: AllOf(values, seeded, data, count) ==> r == Some(values)
  {
    var read: seq<Promotion> := [];
    var offset: nat := 8;
    while |read| < count
      invariant |read| <= count && RecordsBetween(read, seeded, data, 8, offset)
      invariant forall values :: Continues(values, read, seeded, data, count)
    {
      var next := ReadRecord(data, offset, seeded);
      forall values | AllOf(values, seeded, data, count)
        ensures next.Some? && read + [next.value] <= values
      {
        assert Continues(values, read, seeded, data, count);
        ContinuesMore(values, read, seeded, data, count, offset, next);
      }
      if next.None? {
        return None;
      }
      RecordsMore(read, seeded, data, 8, offset, next.value);
      offset := offset + |Record(next.value)|;
      read := read + [next.value];
    }
    forall values | AllOf(values, seeded, data, count)
      ensures values == read && offset == |data|
    {
      assert Continues(values, read, seeded, data, count);
      AllRead(values, read, seeded, data, offset);
    }
    return if offset == |data| then Some(read) else None;
  }

  lemma ValidFieldsFit(rules: Rules, value: Promotion)
    requires RulesRefuseEmpty(rules) && ValidFields(rules, value) && FieldsFit(value)
    ensures AllFit(FieldList(value))
  {
  }

  lemma StorableFits(rules: Rules, values: seq<Promotion>)
    requires RulesRefuseEmpty(rules) && Storable(rules, values)
    ensures RecordsFit(values, values != [] && values[0].seed != [])
  {
    forall i | 0 <= i < |values|
      ensures AllFit(FieldList(values[i]))
    {
      ValidFieldsFit(rules, values[i]);
    }
  }

  lemma HeaderParts(magic: Bytes, count: nat, rest: Bytes)
    requires |magic| == 4 && count < TWO_32
    ensures var data := magic + PutUint32(count) + rest;
            data[..4] == magic && Uint32(data[4..8]) == count && data[8..|data|] == rest
  {
    Uint32Inverse(count, PutUint32(count));
    var data := magic + PutUint32(count) + rest;
    assert data[4..8] == PutUint32(count);
  }

  lemma EncodingHeader(values: seq<Promotion>)
    requires |values| <= MaxRecords
    ensures var data := Encoding(values);
            && |data| >= 8 && Uint32(data[4..8]) == |values| && data[8..|data|] == Records(values)
            && data[..4] == (if values != [] && values[0].seed != [] then MagicV2 else MagicV1)
  {
    var magic := if values != [] && values[0].seed != [] then MagicV2 else MagicV1;
    assert |values| % TWO_32 == |values|;
    HeaderParts(magic, |values|, Records(values));
    assert Encoding(values) == magic + PutUint32(|values|) + Records(values);
  }

  lemma EncodingParts(rules: Rules, values: seq<Promotion>, data: Bytes)
    requires RulesRefuseEmpty(rules) && EncodesTo(rules, values, data)
    ensures 8 <= |data| <= MaxProvenanceBytes && Uint32(data[4..8]) == |values|
    ensures data[..4] == (if values != [] && values[0].seed != [] then MagicV2 else MagicV1)
    ensures RecordsBetween(values, data[..4] == MagicV2, data, 8, |data|)
  {
    EncodingHeader(values);
    StorableFits(rules, values);
    assert MagicV1[3] != MagicV2[3];
  }

  /**
    The strict decoder accepts exactly the encodings of storable lists, and returns the list:
    what it accepts is the encoding of what it returns, and an encoding gives its list back.
   */
  method DecodeConflictPromotions(rules: Rules, data: Bytes) returns (r: Result<seq<Promotion>, ProvenanceError>)
    requires RulesRefuseEmpty(rules)
    ensures r.Ok? ==> EncodesTo(rules, r.value, data)
    ensures forall values :: EncodesTo(rules, values, data) ==> r == Ok(values)
  {
    if |data| < 8 || |data| > MaxProvenanceBytes || (data[..4] != MagicV1 && data[..4] != MagicV2) {
      forall values
        ensures !EncodesTo(rules, values, data)
      {
        if EncodesTo(rules, values, data) {
          EncodingParts(rules, values, data);
        }
      }
      return Err(BadHeader);
    }
    var seeded := data[..4] == MagicV2;
    var count := Uint32(data[4..8]);
    forall values | EncodesTo(rules, values, data)
      ensures count <= MaxRecords && AllOf(values, seeded, data, count) && Sort(SourceOf, values) == values
    {
      EncodingParts(rules, values, data);
      SortKeeps(SourceOf, values);
    }
    if count > MaxRecords {
      return Err(TooManyRecords);
    }
    var read := ReadRecords(data, count, seeded);
    if read.None? {
      return Err(BadRecords);
    }
    var canonical := EncodeConflictPromotions(rules, read.value);
    if (seeded && read.value == []) || canonical != Ok(data) {
      forall values
        ensures !EncodesTo(rules, values, data)
      {
        if EncodesTo(rules, values, data) {
          EncodingParts(rules, values, data);
        }
      }
      return Err(NotCanonical);
    }
    SortedAlready(rules, read.value, seeded, data);
    return Ok(read.value);
  }

  /** When the sorted list re-encodes to the bytes the records were read from, it was sorted. */
  lemma SortedAlready(rules: Rules, read: seq<Promotion>, seeded: bool, data: Bytes)
    requires RulesRefuseEmpty(rules) && |data| >= 8 && (seeded <==> data[..4] == MagicV2)
    requires |read| == Uint32(data[4..8]) && RecordsBetween(read, seeded, data, 8, |data|)
    requires EncodesTo(rules, Sort(SourceOf, read), data)
    ensures EncodesTo(rules, read, data)
  {
    var ordered := Sort(SourceOf, read);
    EncodingParts(rules, ordered, data);
    SortSorts(SourceOf, read);
    SameRecords(read, ordered, seeded, data, 8);
  }

  lemma {:induction false} SameRecords(a: seq<Promotion>, b: seq<Promotion>, seeded: bool, data: Bytes, start: nat)
    requires |a| == |b| && RecordsBetween(a, seeded, data, start, |data|) && RecordsBetween(b, seeded, data, start, |data|)
    ensures a == b
  {
    if a != [] {
      NextRecord(a, [], seeded, data, start, start);
      NextRecord(b, [], seeded, data, start, start);
      RecordParts(data, start, seeded, a[0]);
      RecordParts(data, start, seeded, b[0]);
      SameFields(FieldList(a[0]), FieldList(b[0]), data, start);
      RecordUnique(data, start, seeded, a[0], b[0]);
      var next := start + |Record(a[0])|;
      assert data[next..|data|] == data[start..|data|][|Record(a[0])|..];
      SameRecords(a[1..], b[1..], seeded, data, next);
      assert a == [a[0]] + a[1..] && b == [b[0]] + b[1..];
    }
  }

  lemma {:induction false} SameFields(a: seq<Bytes>, b: seq<Bytes>, data: Bytes, start: nat)
    requires |a| == |b| && FieldsAt(data, start, a) && FieldsAt(data, start, b)
    ensures a == b
  {
    if a != [] {
      NextField(a, [], data, start, start);
      NextField(b, [], data, start, start);
      FieldUnique(data, start, a[0], b[0]);
      var next := start + |Field(a[0])|;
      assert data[next..start + |Fields(a)|] == data[start..start + |Fields(a)|][|Field(a[0])|..];
      assert data[next..start + |Fields(b)|] == data[start..start + |Fields(b)|][|Field(b[0])|..];
      SameFields(a[1..], b[1..], data, next);
      assert a == [a[0]] + a[1..] && b == [b[0]] + b[1..];
    }
  }

  /** No two storable lists share an encoding. */
  lemma EncodingInjective(rules: Rules, a: seq<Promotion>, b: seq<Promotion>, data: Bytes)
    requires RulesRefuseEmpty(rules) && EncodesTo(rules, a, data) && EncodesTo(rules, b, data)
    ensures a == b
  {
    EncodingParts(rules, a, data);
    EncodingParts(rules, b, data);
    SameRecords(a, b, data[..4] == MagicV2, data, 8);
  }
}
