/**
 Reading every partition of an archive into one index, whatever the exporter's order
 (src/cord_runtime/archive_query.py, read_spans).
 */
module ArchiveRead {
  import opened Basics
  import opened Spans
  import opened ArchiveQuery
  import opened Escalations
  import opened Projection

  /** A value as exported: one typed field, or anything the reader turns down. */
  datatype RawValue = Typed(value: Value) | Malformed

  /** A span as exported. An absent or empty parent is `""`; a timestamp is digits or unreadable. */
  datatype RawSpan = RawSpan(
    spanId: string,
    traceId: string,
    parentId: string,
    name: Name,
    attributes: seq<(Key, RawValue)>,
    start: Option<nat>,
    end: Option<nat>,
    extra: string)

  /** One line of a partition: the spans of one envelope, or text that is not one. */
  datatype Line = Envelope(spans: seq<RawSpan>) | Unreadable

  type File = seq<Line>

  // ---------------------------------------------------------------- one span

  predicate IsHex(c: char) {
    '0' <= c <= '9' || 'a' <= c <= 'f' || 'A' <= c <= 'F'
  }

  function Lower(c: char): char {
    if 'A' <= c <= 'F' then c - 'A' + 'a' else c
  }

  predicate IsIdentifier(text: string, length: nat) {
    && |text| == length
    && (forall i | 0 <= i < |text| :: IsHex(text[i]))
    && (exists i | 0 <= i < |text| :: text[i] != '0')
  }

  /** Exactly `length` hexadecimal digits, not all zero; case is folded away. */
  function Identifier(text: string, length: nat): (r: Option<string>)
    ensures r.Some? <==> IsIdentifier(text, length)
    ensures r.Some? ==> IsIdentifier(r.value, length) && forall i | 0 <= i < length :: r.value[i] == Lower(text[i])
  {
    if IsIdentifier(text, length) then
      var id := seq(|text|, i requires 0 <= i < |text| => Lower(text[i]));
      assert forall i | 0 <= i < |text| :: IsHex(id[i]) && (id[i] == '0' <==> text[i] == '0');
      Some(id)
    else None
  }

  /** Reading an identifier twice changes nothing, and case never distinguishes two of them. */
  lemma IdentifierCanonical(a: string, b: string, length: nat)
    requires IsIdentifier(a, length) && IsIdentifier(b, length)
    ensures Identifier(Identifier(a, length).value, length) == Identifier(a, length)
    ensures Identifier(a, length) == Identifier(b, length) <==> forall i | 0 <= i < length :: Lower(a[i]) == Lower(b[i])
  {
    var ida, idb := Identifier(a, length).value, Identifier(b, length).value;
    assert Identifier(ida, length).value == ida;
    if forall i | 0 <= i < length :: Lower(a[i]) == Lower(b[i]) {
      assert ida == idb;
    }
    if ida == idb {
      forall i | 0 <= i < length
        ensures Lower(a[i]) == Lower(b[i])
      {
        assert ida[i] == idb[i];
      }
    }
  }

  predicate IsTimestamp(value: Option<nat>) {
    value.Some? && 0 < value.value < 0x1_0000_0000_0000_0000
  }

  /** Attributes as a dict; a repeated key or a malformed value rejects the span. */
  function AttributesOf(raw: seq<(Key, RawValue)>): (r: Option<Attributes>)
    ensures r.Some? <==> (forall i | 0 <= i < |raw| :: raw[i].1.Typed?) && (forall i, j | 0 <= i < j < |raw| :: raw[i].0 != raw[j].0)
    ensures r.Some? ==> forall k, v :: (k in r.value && r.value[k] == v <==> (k, Typed(v)) in raw)
  {
    if |raw| == 0 then Some(map[])
    else
      var n := |raw| - 1;
      var front := AttributesOf(raw[..n]);
      assert raw == raw[..n] + [raw[n]];
      if front.None? || raw[n].1.Malformed? then None
      else if raw[n].0 in front.value then
        assert (raw[n].0, Typed(front.value[raw[n].0])) in raw[..n];
        None
      else
        assert forall i | 0 <= i < n :: raw[i].0 != raw[n].0 by {
          forall i | 0 <= i < n
            ensures raw[i].0 != raw[n].0
          {
            assert raw[..n][i] == raw[i] && (raw[i].0, Typed(raw[i].1.value)) in raw[..n];
          }
        }
        Some(front.value[raw[n].0 := raw[n].1.value])
  }

  function Normalize(raw: RawSpan): Option<Span> {
    var sid := Identifier(raw.spanId, 16);
    var tid := Identifier(raw.traceId, 32);
    var pid := if raw.parentId == "" then Some(None) else
                 match Identifier(raw.parentId, 16) case None => None case Some(p) => Some(Some(p));
    var attributes := AttributesOf(raw.attributes);
    if sid.None? || tid.None? || pid.None? || attributes.None? then None
    else if !IsTimestamp(raw.start) || !IsTimestamp(raw.end) || raw.end.value < raw.start.value then None
    else Some(Span(sid.value, tid.value, pid.value, raw.name, attributes.value, raw.start.value, raw.end.value, raw.extra))
  }

  // ---------------------------------------------------------------- what an archive says

  function SpansOf(line: Line): seq<RawSpan> {
    if line.Envelope? then line.spans else []
  }

  /** What the reader makes of some records; `None` is a record it turns down. */
  type Records = set<Option<Span>>

  function Normals(raws: seq<RawSpan>): Records {
    set raw | raw in raws :: Normalize(raw)
  }

  /** The records of the first `n` lines. */
  function LinesTo(file: File, n: nat): Records
    requires n <= |file|
  {
    if n == 0 then {} else LinesTo(file, n - 1) + Normals(SpansOf(file[n - 1]))
  }

  /** The records of one partition. */
  function RecordsOf(file: File): Records {
    LinesTo(file, |file|)
  }

  /** The records of the first `n` partitions. */
  function FilesTo(files: seq<File>, n: nat): Records
    requires n <= |files|
  {
    if n == 0 then {} else FilesTo(files, n - 1) + RecordsOf(files[n - 1])
  }

  /** The records of every partition. */
  function AllRecords(files: seq<File>): Records {
    FilesTo(files, |files|)
  }

  /** Every file is a non-empty run of envelopes, and some span is recorded. */
  ghost predicate WellShaped(files: seq<File>) {
    && (forall f | 0 <= f < |files| :: |files[f]| > 0 && (forall l | 0 <= l < |files[f]| :: files[f][l].Envelope?))
    && AllRecords(files) != {}
  }

  /** Every record is well formed, and no two of one span id disagree. */
  ghost predicate Consistent(records: Records) {
    && None !in records
    && (forall a, b {:trigger Agree(a, b)} | a in records && b in records :: Agree(a, b))
  }

  /** Records of one span id are one record. */
  predicate Agree(a: Option<Span>, b: Option<Span>) {
    a.Some? && b.Some? && a.value.spanId == b.value.spanId ==> a == b
  }

  predicate Recorded(spans: SpanMap, record: Option<Span>) {
    record.Some? && record.value.spanId in spans && spans[record.value.spanId].span == record.value
  }

  /** The index holds what the records say and nothing else. */
  ghost predicate Indexes(records: Records, spans: SpanMap) {
    && Keyed(spans)
    && (forall record | record in records :: Recorded(spans, record))
    && (forall id | id in spans :: Some(spans[id].span) in records)
  }

  lemma SubsetInconsistent(records: Records, all: Records)
    requires records <= all && !Consistent(records)
    ensures !Consistent(all)
  {
  }

  // ---------------------------------------------------------------- read_spans

  /** The index after one more record, or None when it is malformed or a conflicting duplicate. */
  function AddSpan(order: seq<string>, spans: SpanMap, record: Option<Span>, location: string): Option<(seq<string>, SpanMap)> {
    if record.None? then None
    else
      var span := record.value;
      if span.spanId in spans then
        if spans[span.spanId].span == span then Some((order, spans)) else None
      else Some((order + [span.spanId], spans[span.spanId := Entry(span, location)]))
  }

  ghost predicate Ordered(order: seq<string>, spans: SpanMap) {
    NoDup(order) && Elements(order) == spans.Keys
  }

  // ---------------------------------------------------------------- first readings

  /** One record as it was read, and where. */
  datatype Reading = Reading(record: Option<Span>, location: string)

  function LineReads(raws: seq<RawSpan>, n: nat, location: string): seq<Reading>
    requires n <= |raws|
  {
    if n == 0 then [] else LineReads(raws, n - 1, location) + [Reading(Normalize(raws[n - 1]), location)]
  }

  function FileReads(file: File, n: nat, f: nat, location: (nat, nat) -> string): seq<Reading>
    requires n <= |file|
  {
    if n == 0 then [] else FileReads(file, n - 1, f, location) + LineReads(SpansOf(file[n - 1]), |SpansOf(file[n - 1])|, location(f, n))
  }

  /** Every record of the first `n` partitions, in the order read; files and lines are numbered from one. */
  function AllReads(files: seq<File>, n: nat, location: (nat, nat) -> string): seq<Reading>
    requires n <= |files|
  {
    if n == 0 then [] else AllReads(files, n - 1, location) + FileReads(files[n - 1], |files[n - 1]|, n, location)
  }

  predicate IsOf(reading: Reading, id: string) {
    reading.record.Some? && reading.record.value.spanId == id
  }

  /** Where a span id is first read; the length where it is not. */
  function First(readings: seq<Reading>, id: string): (i: nat)
    ensures i <= |readings|
    ensures i < |readings| ==> IsOf(readings[i], id)
  {
    if |readings| == 0 then 0
    else
      var front := readings[..|readings| - 1];
      var i := First(front, id);
      if i < |front| then i else if IsOf(Last(readings), id) then |front| else |readings|
  }

  lemma {:induction false} FirstIsFirst(readings: seq<Reading>, id: string)
    ensures forall j | 0 <= j < First(readings, id) :: !IsOf(readings[j], id)
  {
    if |readings| > 0 {
      FirstIsFirst(readings[..|readings| - 1], id);
    }
  }

  /** The index lists the ids in the order of their first readings and keeps those readings. */
  ghost predicate FirstReads(readings: seq<Reading>, order: seq<string>, spans: SpanMap) {
    && (forall id | id in spans :: FirstAs(readings, id, spans[id]))
    && (forall id | First(readings, id) < |readings| :: id in spans)
    && (forall i, j | 0 <= i < j < |order| :: First(readings, order[i]) < First(readings, order[j]))
  }

  predicate FirstAs(readings: seq<Reading>, id: string, entry: Entry) {
    First(readings, id) < |readings| && readings[First(readings, id)] == Reading(Some(entry.span), entry.location)
  }

  lemma FirstOn(readings: seq<Reading>, reading: Reading, id: string)
    ensures First(readings + [reading], id)
            == if First(readings, id) < |readings| then First(readings, id) else if IsOf(reading, id) then |readings| else |readings| + 1
  {
    assert (readings + [reading])[..|readings|] == readings;
  }

  lemma AddSpanFirst(readings: seq<Reading>, reading: Reading, order: seq<string>, spans: SpanMap)
    requires FirstReads(readings, order, spans) && Ordered(order, spans) && AddSpan(order, spans, reading.record, reading.location).Some?
    ensures
      var added := AddSpan(order, spans, reading.record, reading.location).value;
      FirstReads(readings + [reading], added.0, added.1)
  {
    var more := readings + [reading];
    var added := AddSpan(order, spans, reading.record, reading.location).value;
    forall id | id in added.1
      ensures FirstAs(more, id, added.1[id])
    {
      FirstOn(readings, reading, id);
      assert id in spans ==> FirstAs(readings, id, spans[id]);
    }
    forall id | First(more, id) < |more|
      ensures id in added.1
    {
      FirstOn(readings, reading, id);
    }
    forall i, j | 0 <= i < j < |added.0|
      ensures First(more, added.0[i]) < First(more, added.0[j])
    {
      FirstOn(readings, reading, added.0[i]);
      FirstOn(readings, reading, added.0[j]);
      assert added.0[i] == order[i] && order[i] in Elements(order);
      assert FirstAs(readings, order[i], spans[order[i]]);
      assert j < |order| ==> order[j] in Elements(order);
    }
  }

  /** The index built reading by reading. */
  function Built(readings: seq<Reading>): Option<(seq<string>, SpanMap)> {
    if |readings| == 0 then Some(([], map[]))
    else
      var front := Built(readings[..|readings| - 1]);
      if front.None? then None else AddSpan(front.value.0, front.value.1, Last(readings).record, Last(readings).location)
  }

  lemma BuiltOn(readings: seq<Reading>, reading: Reading, order: seq<string>, spans: SpanMap)
    requires Built(readings) == Some((order, spans))
    ensures Built(readings + [reading]) == AddSpan(order, spans, reading.record, reading.location)
  {
    assert (readings + [reading])[..|readings|] == readings;
  }

  lemma {:induction false} BuiltIsFirst(readings: seq<Reading>)
    requires Built(readings).Some?
    ensures Ordered(Built(readings).value.0, Built(readings).value.1)
    ensures FirstReads(readings, Built(readings).value.0, Built(readings).value.1)
  {
    if |readings| > 0 {
      var front := readings[..|readings| - 1];
      BuiltIsFirst(front);
      assert readings == front + [Last(readings)];
      AddSpanFirst(front, Last(readings), Built(front).value.0, Built(front).value.1);
      AddSpanOrdered(Built(front).value.0, Built(front).value.1, Last(readings));
    }
  }

  lemma AddSpanOrdered(order: seq<string>, spans: SpanMap, reading: Reading)
    requires Ordered(order, spans) && AddSpan(order, spans, reading.record, reading.location).Some?
    ensures
      var added := AddSpan(order, spans, reading.record, reading.location).value;
      Ordered(added.0, added.1)
  {
    var span := reading.record.value;
    if span.spanId !in spans {
      assert span.spanId !in Elements(order);
      assert Elements(order + [span.spanId]) == Elements(order) + {span.spanId};
      NoDupConcat(order, [span.spanId]);
    }
  }

  lemma AddSpanIndexes(records: Records, record: Option<Span>, order: seq<string>, spans: SpanMap, location: string)
    requires Indexes(records, spans) && Ordered(order, spans)
    ensures match AddSpan(order, spans, record, location)
            case None => !Consistent(records + {record})
            case Some(added) => Indexes(records + {record}, added.1) && Ordered(added.0, added.1)
  {
    if record.Some? {
      var span := record.value;
      if span.spanId in spans {
        assert Some(spans[span.spanId].span) in records + {record} && record in records + {record};
        assert Agree(Some(spans[span.spanId].span), record) <==> spans[span.spanId].span == span;
      } else {
        assert span.spanId !in Elements(order);
        assert Elements(order + [span.spanId]) == Elements(order) + {span.spanId};
      }
    } else {
      assert record in records + {record};
    }
  }

  predicate ReadableFile(file: File) {
    |file| > 0 && EnvelopesTo(file, |file|)
  }

  predicate EnvelopesTo(file: File, n: nat) {
    n <= |file| && forall l | 0 <= l < n :: file[l].Envelope?
  }

  lemma EnvelopesOn(file: File, l: nat)
    requires l < |file| && EnvelopesTo(file, l) && file[l].Envelope?
    ensures EnvelopesTo(file, l + 1)
  {
  }

  predicate ReadableTo(files: seq<File>, n: nat) {
    n <= |files| && forall f | 0 <= f < n :: ReadableFile(files[f])
  }

  lemma ReadableOn(files: seq<File>, f: nat)
    requires f < |files| && ReadableTo(files, f) && ReadableFile(files[f])
    ensures ReadableTo(files, f + 1)
  {
  }

  lemma {:induction false} FilesGrow(files: seq<File>, n: nat)
    requires n <= |files|
    ensures FilesTo(files, n) <= AllRecords(files)
    decreases |files| - n
  {
    if n < |files| {
      FilesGrow(files, n + 1);
    }
  }

  lemma {:induction false} LinesGrow(file: File, n: nat)
    requires n <= |file|
    ensures LinesTo(file, n) <= RecordsOf(file)
    decreases |file| - n
  {
    if n < |file| {
      LinesGrow(file, n + 1);
    }
  }

  ghost predicate IndexedInOrder(records: Records, order: seq<string>, spans: SpanMap) {
    Indexes(records, spans) && Ordered(order, spans)
  }

  /**
   Join all partitions. Succeeds exactly when they are well shaped and consistent; a conflicting
   duplicate always rejects, and the index holds each recorded span once.
   */
  method ReadSpans(files: seq<File>, location: (nat, nat) -> string)
    returns (r: Option<(seq<string>, SpanMap)>)
    ensures r.Some? <==> WellShaped(files) && Consistent(AllRecords(files))
    ensures r.Some? ==> IndexedInOrder(AllRecords(files), r.value.0, r.value.1)
    ensures r.Some? ==> FirstReads(AllReads(files, |files|, location), r.value.0, r.value.1)
  {
    var order: seq<string> := [];
    var spans: SpanMap := map[];
    ghost var soFar: seq<Reading> := [];
    for f := 0 to |files|
      invariant IndexedInOrder(FilesTo(files, f), order, spans) 
      invariant soFar == AllReads(files, f, location) && Built(soFar) == Some((order, spans))
      invariant ReadableTo(files, f)
    {
      RefusedFile(files, f);
      if |files[f]| == 0 { return None; }
      var read := ReadFile(FilesTo(files, f), soFar, files[f], f + 1, location, order, spans);
      if read.None? { return None; }
      soFar := soFar + FileReads(files[f], |files[f]|, f + 1, location);
      ReadableOn(files, f);
      order, spans := read.value.0, read.value.1;
    }
    IndexIsConsistent(AllRecords(files), spans);
    if spans == map[] { return None; }
    BuiltIsFirst(AllReads(files, |files|, location));
    return Some((order, spans));
  }

  lemma RefusedFile(files: seq<File>, f: nat)
    requires f < |files|
    ensures FilesTo(files, f + 1) == FilesTo(files, f) + RecordsOf(files[f])
    ensures WellShaped(files) && Consistent(AllRecords(files)) ==>
              ReadableFile(files[f]) && Consistent(FilesTo(files, f) + RecordsOf(files[f]))
  {
    FilesGrow(files, f + 1);
    if !Consistent(FilesTo(files, f + 1)) {
      SubsetInconsistent(FilesTo(files, f + 1), AllRecords(files));
    }
  }

  lemma IndexIsConsistent(records: Records, spans: SpanMap)
    requires Indexes(records, spans)
    ensures Consistent(records) && (spans == map[] <==> records == {})
  {
    if spans != map[] {
      var id :| id in spans;
    }
  }

  lemma LineNext(before: Records, file: File, l: nat)
    requires l < |file| && file[l].Envelope?
    ensures before + LinesTo(file, l + 1) == before + LinesTo(file, l) + Normals(file[l].spans)
    ensures !Consistent(before + LinesTo(file, l + 1)) ==> !Consistent(before + RecordsOf(file))
  {
    LinesGrow(file, l + 1);
    if !Consistent(before + LinesTo(file, l + 1)) {
      SubsetInconsistent(before + LinesTo(file, l + 1), before + RecordsOf(file));
    }
  }

  lemma NextLine(readings: seq<Reading>, file: File, l: nat, f: nat, location: (nat, nat) -> string)
    requires l < |file| && file[l].Envelope?
    ensures readings + FileReads(file, l + 1, f, location)
            == readings + FileReads(file, l, f, location) + LineReads(file[l].spans, |file[l].spans|, location(f, l + 1))
  {
  }

  method ReadFile(ghost before: Records, ghost readings: seq<Reading>, file: File, f: nat, location: (nat, nat) -> string,
                  order0: seq<string>, spans0: SpanMap)
    returns (r: Option<(seq<string>, SpanMap)>)
    requires IndexedInOrder(before, order0, spans0) && Built(readings) == Some((order0, spans0)) && |file| > 0
    ensures r.Some? <==> ReadableFile(file) && Consistent(before + RecordsOf(file))
    ensures r.Some? ==> IndexedInOrder(before + RecordsOf(file), r.value.0, r.value.1)
    ensures r.Some? ==> Built(readings + FileReads(file, |file|, f, location)) == r
  {
    FileBegins(before, readings, file, f, location, order0, spans0);
    r := ReadLines(before, readings, file, f, location, order0, spans0);
    if r.Some? {
      FileEnds(before, readings, file, f, location, r.value.0, r.value.1);
    }
  }

  method ReadLines(ghost before: Records, ghost readings: seq<Reading>, file: File, f: nat, location: (nat, nat) -> string,
                   order0: seq<string>, spans0: SpanMap)
    returns (r: Option<(seq<string>, SpanMap)>)
    requires FileRead(before, readings, file, f, location, 0, order0, spans0)
    ensures r.Some? ==> FileRead(before, readings, file, f, location, |file|, r.value.0, r.value.1)
    ensures r.None? ==> !ReadableFile(file) || !Consistent(before + RecordsOf(file))
  {
    var order, spans := order0, spans0;
    for l := 0 to |file|
      invariant FileRead(before, readings, file, f, location, l, order, spans)
    {
      r := ReadNextLine(before, readings, file, f, location, l, order, spans);
      if r.None? { return; }
      order, spans := r.value.0, r.value.1;
    }
    return Some((order, spans));
  }

  method ReadNextLine(ghost before: Records, ghost readings: seq<Reading>, file: File, f: nat, location: (nat, nat) -> string, l: nat,
                      order: seq<string>, spans: SpanMap)
    returns (r: Option<(seq<string>, SpanMap)>)
    requires l < |file| && FileRead(before, readings, file, f, location, l, order, spans)
    ensures r.Some? ==> FileRead(before, readings, file, f, location, l + 1, r.value.0, r.value.1)
    ensures r.None? ==> !ReadableFile(file) || !Consistent(before + RecordsOf(file))
  {
    if file[l].Unreadable? { return None; }
    LineNext(before, file, l);
    r := ReadLine(before + LinesTo(file, l), readings + FileReads(file, l, f, location), file[l].spans, location(f, l + 1), order, spans);
    if r.Some? {
      FileOn(before, readings, file, f, location, l, order, spans, r.value.0, r.value.1);
    }
  }

  /** The index after the first `l` lines of a file. */
  ghost predicate FileRead(before: Records, readings: seq<Reading>, file: File, f: nat, location: (nat, nat) -> string, l: nat,
                           order: seq<string>, spans: SpanMap)
  {
    && l <= |file| && EnvelopesTo(file, l) && IndexedInOrder(before + LinesTo(file, l), order, spans)
    && Built(readings + FileReads(file, l, f, location)) == Some((order, spans))
  }

  lemma FileBegins(before: Records, readings: seq<Reading>, file: File, f: nat, location: (nat, nat) -> string, order: seq<string>, spans: SpanMap)
    requires IndexedInOrder(before, order, spans) && Built(readings) == Some((order, spans))
    ensures FileRead(before, readings, file, f, location, 0, order, spans)
  {
    assert before + LinesTo(file, 0) == before;
    assert readings + FileReads(file, 0, f, location) == readings;
  }

  lemma FileOn(before: Records, readings: seq<Reading>, file: File, f: nat, location: (nat, nat) -> string, l: nat,
               order: seq<string>, spans: SpanMap, orderNext: seq<string>, spansNext: SpanMap)
    requires l < |file| && file[l].Envelope? && FileRead(before, readings, file, f, location, l, order, spans)
    requires IndexedInOrder(before + LinesTo(file, l) + Normals(file[l].spans), orderNext, spansNext)
    requires Built(readings + FileReads(file, l, f, location) + LineReads(file[l].spans, |file[l].spans|, location(f, l + 1)))
             == Some((orderNext, spansNext))
    ensures FileRead(before, readings, file, f, location, l + 1, orderNext, spansNext)
  {
    LineNext(before, file, l);
    NextLine(readings, file, l, f, location);
    EnvelopesOn(file, l);
  }

  lemma FileEnds(before: Records, readings: seq<Reading>, file: File, f: nat, location: (nat, nat) -> string, order: seq<string>, spans: SpanMap)
    requires FileRead(before, readings, file, f, location, |file|, order, spans) && |file| > 0
    ensures ReadableFile(file) && Consistent(before + RecordsOf(file)) && IndexedInOrder(before + RecordsOf(file), order, spans)
    ensures Built(readings + FileReads(file, |file|, f, location)) == Some((order, spans))
  {
    IndexIsConsistent(before + RecordsOf(file), spans);
  }

  /** The index after the first `s` records of a line. */
  ghost predicate LineRead(before: Records, readings: seq<Reading>, raws: seq<RawSpan>, location: string, s: nat, order: seq<string>, spans: SpanMap) {
    && s <= |raws| && IndexedInOrder(before + Normals(raws[..s]), order, spans)
    && Built(readings + LineReads(raws, s, location)) == Some((order, spans))
  }

  lemma LineStep(before: Records, readings: seq<Reading>, raws: seq<RawSpan>, location: string, s: nat, order: seq<string>, spans: SpanMap)
    requires s < |raws| && LineRead(before, readings, raws, location, s, order, spans)
    ensures match AddSpan(order, spans, Normalize(raws[s]), location)
            case None => !Consistent(before + Normals(raws))
            case Some(added) => LineRead(before, readings, raws, location, s + 1, added.0, added.1)
  {
    var record := Normalize(raws[s]);
    var done, soFar := before + Normals(raws[..s]), readings + LineReads(raws, s, location);
    NormalsNext(raws, s);
    AddSpanIndexes(done, record, order, spans, location);
    BuiltOn(soFar, Reading(record, location), order, spans);
    assert before + Normals(raws[..s + 1]) == done + {record};
    assert readings + LineReads(raws, s + 1, location) == soFar + [Reading(record, location)];
    if AddSpan(order, spans, record, location).None? {
      SubsetInconsistent(done + {record}, before + Normals(raws));
    }
  }

  lemma LineBegins(before: Records, readings: seq<Reading>, raws: seq<RawSpan>, location: string, order: seq<string>, spans: SpanMap)
    requires IndexedInOrder(before, order, spans) && Built(readings) == Some((order, spans))
    ensures LineRead(before, readings, raws, location, 0, order, spans)
  {
    assert before + Normals(raws[..0]) == before;
    assert readings + LineReads(raws, 0, location) == readings;
  }

  lemma LineEnds(before: Records, readings: seq<Reading>, raws: seq<RawSpan>, location: string, order: seq<string>, spans: SpanMap)
    requires LineRead(before, readings, raws, location, |raws|, order, spans)
    ensures Consistent(before + Normals(raws)) && IndexedInOrder(before + Normals(raws), order, spans)
    ensures Built(readings + LineReads(raws, |raws|, location)) == Some((order, spans))
  {
    assert raws[..|raws|] == raws;
    IndexIsConsistent(before + Normals(raws), spans);
  }

  method ReadLine(ghost before: Records, ghost readings: seq<Reading>, raws: seq<RawSpan>, location: string, order0: seq<string>, spans0: SpanMap)
    returns (r: Option<(seq<string>, SpanMap)>)
    requires IndexedInOrder(before, order0, spans0) && Built(readings) == Some((order0, spans0))
    ensures r.Some? <==> Consistent(before + Normals(raws))
    ensures r.Some? ==> IndexedInOrder(before + Normals(raws), r.value.0, r.value.1)
    ensures r.Some? ==> Built(readings + LineReads(raws, |raws|, location)) == r
  {
    var order, spans := order0, spans0;
    LineBegins(before, readings, raws, location, order, spans);
    for s := 0 to |raws|
      invariant LineRead(before, readings, raws, location, s, order, spans)
    {
      LineStep(before, readings, raws, location, s, order, spans);
      var added := AddSpan(order, spans, Normalize(raws[s]), location);
      if added.None? { return None; }
      order, spans := added.value.0, added.value.1;
    }
    LineEnds(before, readings, raws, location, order, spans);
    return Some((order, spans));
  }

  lemma NormalsNext(raws: seq<RawSpan>, s: nat)
    requires s < |raws|
    ensures Normals(raws[..s + 1]) == Normals(raws[..s]) + {Normalize(raws[s])}
    ensures Normals(raws[..s + 1]) <= Normals(raws)
  {
    assert raws[..s + 1] == raws[..s] + [raws[s]];
    assert raws[s] in raws[..s + 1];
  }

  // ---------------------------------------------------------------- retransmission

  /** The same spans under the same ids; only where they were first read may differ. */
  ghost predicate SameSpans(a: SpanMap, b: SpanMap) {
    a.Keys == b.Keys && forall id | id in a :: a[id].span == b[id].span
  }

  /** The index depends on which records there are, not on their order, partition or repetition. */
  lemma IndexUnique(records: Records, a: SpanMap, b: SpanMap)
    requires Indexes(records, a) && Indexes(records, b)
    ensures SameSpans(a, b)
  {
    forall id | id in a
      ensures id in b && b[id].span == a[id].span
    {
      assert Recorded(b, Some(a[id].span));
    }
    forall id | id in b
      ensures id in a
    {
      assert Recorded(a, Some(b[id].span));
    }
  }

  /**
   Whatever the order, the partition into non-empty files, or the repetitions, the same records are
   accepted alike, and if accepted give the same rows.
   */
  lemma RetransmissionInsensitive(a: seq<File>, b: seq<File>, spansA: SpanMap, spansB: SpanMap,
                                  reference: int, top: nat, rowsA: seq<Row>, rowsB: seq<Row>)
    requires AllRecords(a) == AllRecords(b)
    requires Indexes(AllRecords(a), spansA) && Indexes(AllRecords(b), spansB)
    ensures SameSpans(spansA, spansB)
    ensures Legal(spansA) <==> Legal(spansB)
    ensures TopRows(spansA, reference, top, rowsA) && TopRows(spansB, reference, top, rowsB) ==> rowsA == rowsB
  {
    IndexUnique(AllRecords(a), spansA, spansB);
    SameSpansAlike(spansA, spansB);
    AlikeSameAnswer(spansA, spansB, reference, top, rowsA, rowsB);
  }

  lemma SameSpansAlike(a: SpanMap, b: SpanMap)
    requires SameSpans(a, b)
    ensures Alike(a, b)
  {
  }
}
