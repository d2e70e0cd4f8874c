/**
 Comparing a closed archive cohort with a public reader's copy of it
 (src/cord_runtime/langfuse_query.py). Network answers are inputs.
 */
module LangfuseQuery {
  import opened Basics
  import opened Spans
  import opened ArchiveQuery
  import opened Escalations
  import opened Projection

  // ---------------------------------------------------------------- paging

  /** One public row: a decoded span, one that has not ended, or one that breaks the mapping. */
  datatype PublicRow = Decoded(span: Span) | StillOpen | Undecodable

  /** The answer to one page request; `Broken` covers every malformed or refused answer. */
  datatype Answer = Page(rows: seq<PublicRow>, total: int, pages: int, number: int) | Broken

  datatype Outcome<T> = Found(value: T) | Pending | Failed

  predicate RowFits(row: PublicRow, traceId: string) {
    row.Decoded? && row.span.traceId == traceId
  }

  /** `found` holds exactly the decoded rows of the first `n` pages, which agree with each other. */
  ghost predicate Collected(answers: seq<Answer>, n: nat, traceId: string, found: map<string, Span>)
    requires n <= |answers|
  {
    && (forall i | 0 <= i < n :: answers[i].Page? && forall row | row in answers[i].rows :: RowFits(row, traceId) && Holds(found, row.span))
    && (forall id | id in found :: found[id].spanId == id && found[id].traceId == traceId && Listed(answers[..n], found[id]))
  }

  predicate Holds(found: map<string, Span>, span: Span) {
    span.spanId in found && found[span.spanId] == span
  }

  ghost predicate Listed(answers: seq<Answer>, span: Span) {
    exists i | 0 <= i < |answers| :: answers[i].Page? && Decoded(span) in answers[i].rows
  }

  /** The page count has settled on page `n`, and as many distinct spans as announced were read. */
  ghost predicate Settled(answers: seq<Answer>, n: nat, size: nat)
    requires 0 < n <= |answers|
  {
    && answers[n - 1].Page? && answers[n - 1].pages <= n && answers[n - 1].total == size
    && forall i | 0 <= i < n - 1 :: answers[i].Page? && answers[i].pages > i + 1 && |answers[i].rows| > 0
  }

  method ReadRows(rows: seq<PublicRow>, traceId: string, found0: map<string, Span>) returns (r: Outcome<map<string, Span>>)
    requires forall id | id in found0 :: found0[id].spanId == id && found0[id].traceId == traceId
    ensures r.Found? ==>
              && (forall row | row in rows :: RowFits(row, traceId) && Holds(r.value, row.span))
              && (forall id | id in found0 :: id in r.value && r.value[id] == found0[id])
              && (forall id | id in r.value :: r.value[id].spanId == id && r.value[id].traceId == traceId
                                               && (id in found0 || Decoded(r.value[id]) in rows))
  {
    var found := found0;
    for i := 0 to |rows|
      invariant forall row | row in rows[..i] :: RowFits(row, traceId) && Holds(found, row.span)
      invariant forall id | id in found0 :: id in found && found[id] == found0[id]
      invariant forall id | id in found :: found[id].spanId == id && found[id].traceId == traceId
                                           && (id in found0 || Decoded(found[id]) in rows[..i])
    {
      assert rows[..i + 1] == rows[..i] + [rows[i]];
      match rows[i] {
        case StillOpen => return Pending;
        case Undecodable => return Failed;
        case Decoded(span) =>
          if span.traceId != traceId { return Failed; }
          if span.spanId in found && found[span.spanId] != span { return Failed; }
          found := found[span.spanId := span];
      }
    }
    assert rows[..|rows|] == rows;
    return Found(found);
  }

  /**
   Page through one trace until the server says there are no more pages; running out of `answers`
   is the deadline. A result holds every row of the pages read, of that trace alone and without
   contradiction, and as many as the last page announced.
   */
  method ReadTrace(answers: seq<Answer>, traceId: string) returns (r: Outcome<map<string, Span>>)
    ensures r.Found? ==> r.value != map[] && exists n :: 0 < n <= |answers| && Collected(answers, n, traceId, r.value) && Settled(answers, n, |r.value|)
  {
    var found: map<string, Span> := map[];
    var page := 1;
    while page <= |answers|
      invariant 1 <= page <= |answers| + 1
      invariant Collected(answers, page - 1, traceId, found)
      invariant forall i | 0 <= i < page - 1 :: answers[i].Page? && answers[i].pages > i + 1 && |answers[i].rows| > 0
    {
      var answer := answers[page - 1];
      if answer.Broken? { return Failed; }
      if answer.total < 0 || answer.pages < 0 || answer.number != page { return Failed; }
      var read := ReadRows(answer.rows, traceId, found);
      if !read.Found? { return read; }
      CollectPage(answers, page, traceId, found, read.value);
      found := read.value;
      if page >= answer.pages {
        if |found| != answer.total { return Pending; }
        if found == map[] { return Pending; }
        assert Settled(answers, page, |found|);
        return Found(found);
      }
      if |answer.rows| == 0 { return Failed; }
      page := page + 1;
    }
    return Pending;
  }

  lemma CollectPage(answers: seq<Answer>, page: nat, traceId: string, before: map<string, Span>, after: map<string, Span>)
    requires 0 < page <= |answers| && Collected(answers, page - 1, traceId, before) && answers[page - 1].Page?
    requires forall row | row in answers[page - 1].rows :: RowFits(row, traceId) && Holds(after, row.span)
    requires forall id | id in before :: id in after && after[id] == before[id]
    requires forall id | id in after :: after[id].spanId == id && after[id].traceId == traceId
                                        && (id in before || Decoded(after[id]) in answers[page - 1].rows)
    ensures Collected(answers, page, traceId, after)
  {
    forall id | id in after
      ensures Listed(answers[..page], after[id])
    {
      if Decoded(after[id]) in answers[page - 1].rows {
        assert answers[..page][page - 1] == answers[page - 1];
      } else {
        assert Listed(answers[..page - 1], before[id]);
        var i :| 0 <= i < |answers[..page - 1]| && answers[..page - 1][i].Page? && Decoded(before[id]) in answers[..page - 1][i].rows;
        assert answers[..page][i] == answers[..page - 1][i];
      }
    }
    forall i | 0 <= i < page
      ensures answers[i].Page? && forall row | row in answers[i].rows :: RowFits(row, traceId) && Holds(after, row.span)
    {
    }
  }

  // ---------------------------------------------------------------- compare

  /** What the reader returned for one trace: its spans and the session it is filed under. */
  datatype TraceCopy = TraceCopy(spans: map<string, Span>, subject: string)

  type Copies = map<string, TraceCopy>

  function TracesOf(expected: SpanMap): set<string> {
    set id | id in expected :: expected[id].span.traceId
  }

  /** Every trace of the cohort was read, and each returned span is of that trace, under its own id. */
  ghost predicate Read(expected: SpanMap, copies: Copies) {
    && copies.Keys == TracesOf(expected)
    && (forall tid, id | tid in copies && id in copies[tid].spans ::
          copies[tid].spans[id].spanId == id && copies[tid].spans[id].traceId == tid)
  }

  function IdsOf(expected: SpanMap, tid: string): set<string> {
    set id | id in expected && expected[id].span.traceId == tid
  }

  predicate SubjectFits(span: Span, copies: Copies)
    requires span.traceId in copies
  {
    var subject := Get(span.attributes, SubjectKey);
    subject.None? || subject == Some(Raw("null")) || subject == Some(Str(copies[span.traceId].subject))
  }

  /** The copy is complete and nothing in it differs. */
  ghost predicate Faithful(expected: SpanMap, copies: Copies) {
    && Read(expected, copies)
    && (forall tid | tid in copies :: copies[tid].spans.Keys == IdsOf(expected, tid))
    && (forall id | id in expected :: FaithfulSpan(expected, copies, id))
  }

  ghost predicate FaithfulSpan(expected: SpanMap, copies: Copies, id: string)
    requires Read(expected, copies) && id in expected
  {
    var span := expected[id].span;
    && span.traceId in copies
    && id in copies[span.traceId].spans
    && CopyAgrees(span, copies[span.traceId].spans[id], copies)
  }

  predicate CopyAgrees(span: Span, copy: Span, copies: Copies)
    requires span.traceId in copies
  {
    LooselySame(Project(span), Project(copy)) && SubjectFits(span, copies)
  }

  /** Names a projection does not tell apart: the same, loosely equal, or both absent or false. */
  predicate NamesAgree(a: Name, b: Name) {
    || a == b
    || (a.NotText? && b.NotText? && LooselyEqual(a.v, b.v))
    || (NoNameIn(a) && NoNameIn(b))
  }

  predicate NoNameIn(name: Name) {
    name == NoName || name == Text("") || (name.NotText? && Falsy(name.v))
  }

  /** The execution key `k` says the same in both. */
  predicate SaysTheSame(a: Attributes, b: Attributes, k: Key) {
    (k in a <==> k in b) && (k in a ==> LooselyEqual(a[k], b[k]))
  }

  ghost predicate SameExecution(a: Attributes, b: Attributes) {
    forall k: Key | k.OtherKey? ==> "cord." <= k.text :: SaysTheSame(a, b, k)
  }

  /**
   A copy agrees exactly when its identity, parent, times, name and every execution attribute do and
   its trace is filed under the span's subject, if it names one. Any other attribute is ignored.
   */
  lemma CopyAgreesWhen(span: Span, copy: Span, copies: Copies)
    requires span.traceId in copies
    ensures CopyAgrees(span, copy, copies) <==>
              && span.spanId == copy.spanId && span.traceId == copy.traceId && span.parentId == copy.parentId
              && span.start == copy.start && span.end == copy.end && NamesAgree(span.name, copy.name)
              && SameExecution(span.attributes, copy.attributes)
              && (SubjectKey in span.attributes && span.attributes[SubjectKey] != Raw("null") ==>
                    span.attributes[SubjectKey] == Str(copies[span.traceId].subject))
  {
    ExecutionOnly(span.attributes, copy.attributes);
    NamesProject(span.name, copy.name);
  }

  lemma NamesProject(a: Name, b: Name)
    ensures NamesAgree(a, b) <==>
              var p, q := NameOrNone(a), NameOrNone(b);
              p == q || (p.NotText? && q.NotText? && LooselyEqual(p.v, q.v))
  {
  }

  lemma ExecutionOnly(a: Attributes, b: Attributes)
    ensures SameExecution(a, b) <==>
              && CordAttributes(a).Keys == CordAttributes(b).Keys
              && forall k | k in CordAttributes(a) :: LooselyEqual(CordAttributes(a)[k], CordAttributes(b)[k])
  {
    var c, d := CordAttributes(a), CordAttributes(b);
    if SameExecution(a, b) {
      forall k: Key
        ensures k in c <==> k in d
        ensures k in c ==> LooselyEqual(c[k], d[k])
      {
        if IsCord(k) { assert SaysTheSame(a, b, k); }
      }
    }
    if c.Keys == d.Keys && forall k | k in c :: LooselyEqual(c[k], d[k]) {
      forall k: Key | IsCord(k)
        ensures SaysTheSame(a, b, k)
      {
        assert (k in c.Keys <==> k in a) && (k in d.Keys <==> k in b);
      }
    }
  }

  datatype Status = Match | Mismatch | Waiting

  /** No expected span is missing from its trace. */
  ghost predicate Complete(expected: SpanMap, copies: Copies) {
    forall tid | tid in copies :: IdsOf(expected, tid) <= copies[tid].spans.Keys
  }

  ghost predicate SameIds(expected: SpanMap, copies: Copies) {
    forall tid | tid in copies :: IdsOf(expected, tid) == copies[tid].spans.Keys
  }

  /** `actual` after the copies of the traces in `done`, later ones overwriting earlier ones. */
  ghost predicate Merged(copies: Copies, done: seq<string>, actual: SpanMap) {
    && (forall id | id in actual :: exists tid :: tid in done && Holding(copies, tid, id) && actual[id].span == copies[tid].spans[id])
    && (forall tid, id | tid in done && Holding(copies, tid, id) :: id in actual)
  }

  predicate Holding(copies: Copies, tid: string, id: string) {
    tid in copies && id in copies[tid].spans
  }

  /** The loop over the traces, in the order they are read. */
  method MergeCopies(expected: SpanMap, copies: Copies, order: seq<string>)
    returns (actual: SpanMap, complete: bool, sameIds: bool)
    requires Read(expected, copies) && Elements(order) == copies.Keys
    ensures Keyed(actual) && Merged(copies, order, actual)
    ensures complete <==> Complete(expected, copies)
    ensures sameIds <==> SameIds(expected, copies)
  {
    actual, complete, sameIds := map[], true, true;
    for i := 0 to |order|
      invariant Keyed(actual) && Merged(copies, order[..i], actual)
      invariant complete <==> forall tid | tid in order[..i] :: tid in copies && IdsOf(expected, tid) <= copies[tid].spans.Keys
      invariant sameIds <==> forall tid | tid in order[..i] :: tid in copies && IdsOf(expected, tid) == copies[tid].spans.Keys
    {
      assert order[i] in Elements(order);
      assert order[..i + 1] == order[..i] + [order[i]];
      var spans := copies[order[i]].spans;
      complete := complete && IdsOf(expected, order[i]) <= spans.Keys;
      sameIds := sameIds && IdsOf(expected, order[i]) == spans.Keys;
      MergeOne(copies, order, i, actual);
      actual := actual + map id | id in spans :: Entry(spans[id], "public observation");
    }
    assert order[..|order|] == order;
    assert forall tid :: tid in order <==> tid in Elements(order);
  }

  /** Where a span's copy is found when nothing was moved or lost. */
  ghost predicate CopiedInPlace(expected: SpanMap, copies: Copies, actual: SpanMap) {
    && actual.Keys == expected.Keys
    && (forall id | id in expected ::
          Holding(copies, expected[id].span.traceId, id) && actual[id].span == copies[expected[id].span.traceId].spans[id])
  }

  /**
   One complete pass. `order` is the order the traces are read in. Expected spans missing from
   their trace leave the comparison waiting; otherwise it is a match exactly when the copy is
   faithful and the archive contract accepts it with the same complete rows.
   */
  method ComparePass(expected: SpanMap, copies: Copies, order: seq<string>, reference: int, allExpected: seq<Row>)
    returns (status: Status, actual: SpanMap)
    requires Read(expected, copies) && Elements(order) == copies.Keys && expected != map[]
    ensures status == Waiting <==> !Complete(expected, copies)
    ensures status == Match <==> Faithful(expected, copies) && Legal(actual) && TopRows(actual, reference, |actual|, allExpected)
    ensures Faithful(expected, copies) ==> CopiedInPlace(expected, copies, actual)
  {
    var complete, sameIds;
    actual, complete, sameIds := MergeCopies(expected, copies, order);
    if sameIds {
      MergedInPlace(expected, copies, order, actual);
    }
    SameIsFaithful(expected, copies, actual, sameIds);
    if !complete { return Waiting, actual; }
    MergedSomething(expected, copies, order, actual);
    var same := sameIds && SpansAgree(expected, copies, actual);
    var keys := SeqOf(actual.Keys);
    var rows := QuerySpans(keys, actual, reference, |actual|);
    if rows.Err? { return Mismatch, actual; }
    OnlyAnswer(actual, reference, rows.value, allExpected);
    return if same && rows.value == allExpected then Match else Mismatch, actual;
  }

  lemma OnlyAnswer(spans: SpanMap, reference: int, rows: seq<Row>, other: seq<Row>)
    requires TopRows(spans, reference, |spans|, rows)
    ensures TopRows(spans, reference, |spans|, other) <==> rows == other
  {
    if TopRows(spans, reference, |spans|, other) {
      QueryIsDeterministic(spans, reference, |spans|, rows, other);
    }
  }

  predicate SpansAgree(expected: SpanMap, copies: Copies, actual: SpanMap)
    requires actual.Keys == expected.Keys && TracesOf(expected) == copies.Keys
  {
    forall id | id in expected ::
      expected[id].span.traceId in copies && CopyAgrees(expected[id].span, actual[id].span, copies)
  }

  lemma SameIsFaithful(expected: SpanMap, copies: Copies, actual: SpanMap, sameIds: bool)
    requires Read(expected, copies)
    requires sameIds <==> SameIds(expected, copies)
    requires sameIds ==> CopiedInPlace(expected, copies, actual)
    ensures sameIds && SpansAgree(expected, copies, actual) <==> Faithful(expected, copies)
    ensures Faithful(expected, copies) ==> sameIds
  {
    if sameIds {
      forall id | id in expected
        ensures expected[id].span.traceId in copies
        ensures FaithfulSpan(expected, copies, id) <==> CopyAgrees(expected[id].span, actual[id].span, copies)
      {
        FaithfulInPlace(expected, copies, actual, id);
      }
    }
  }

  lemma FaithfulInPlace(expected: SpanMap, copies: Copies, actual: SpanMap, id: string)
    requires Read(expected, copies) && CopiedInPlace(expected, copies, actual) && id in expected
    ensures expected[id].span.traceId in copies
    ensures FaithfulSpan(expected, copies, id) <==> CopyAgrees(expected[id].span, actual[id].span, copies)
  {
    assert Holding(copies, expected[id].span.traceId, id);
  }

  /** A complete read of a non-empty cohort is not empty. */
  lemma MergedSomething(expected: SpanMap, copies: Copies, order: seq<string>, actual: SpanMap)
    requires Read(expected, copies) && Merged(copies, order, actual) && Elements(order) == copies.Keys && expected != map[]
    requires Complete(expected, copies)
    ensures |actual| > 0
  {
    var id :| id in expected;
    var tid := expected[id].span.traceId;
    assert tid in Elements(order) && id in IdsOf(expected, tid);
    assert Holding(copies, tid, id);
    assert id in actual;
  }

  method SeqOf(ids: set<string>) returns (order: seq<string>)
    ensures NoDup(order) && Elements(order) == ids
  {
    order := [];
    var todo := ids;
    while todo != {}
      invariant todo <= ids && NoDup(order) && Elements(order) == ids - todo
      decreases |todo|
    {
      var id :| id in todo;
      assert id !in Elements(order);
      assert Elements(order + [id]) == Elements(order) + {id};
      order, todo := order + [id], todo - {id};
    }
  }

  lemma MergeOne(copies: Copies, order: seq<string>, i: nat, actual: SpanMap)
    requires i < |order| && order[i] in copies && Merged(copies, order[..i], actual)
    ensures
      var spans := copies[order[i]].spans;
      Merged(copies, order[..i + 1], actual + map id | id in spans :: Entry(spans[id], "public observation"))
  {
    var spans := copies[order[i]].spans;
    var next := actual + map id | id in spans :: Entry(spans[id], "public observation");
    assert order[..i + 1] == order[..i] + [order[i]];
    forall id | id in next
      ensures exists tid :: tid in order[..i + 1] && Holding(copies, tid, id) && next[id].span == copies[tid].spans[id]
    {
      if id in spans {
        assert order[i] in order[..i + 1] && Holding(copies, order[i], id);
      } else {
        var tid :| tid in order[..i] && Holding(copies, tid, id) && actual[id].span == copies[tid].spans[id];
      }
    }
  }

  /** When each trace has exactly its own ids, overwriting by id never happens. */
  lemma MergedInPlace(expected: SpanMap, copies: Copies, order: seq<string>, actual: SpanMap)
    requires Read(expected, copies) && Merged(copies, order, actual) && Elements(order) == copies.Keys
    requires SameIds(expected, copies)
    ensures CopiedInPlace(expected, copies, actual)
  {
    SameKeys(expected, copies, order, actual);
    forall id | id in expected
      ensures Holding(copies, expected[id].span.traceId, id) && actual[id].span == copies[expected[id].span.traceId].spans[id]
    {
      HeldIsExpected(expected, copies, order, actual, id);
    }
  }

  lemma SameKeys(expected: SpanMap, copies: Copies, order: seq<string>, actual: SpanMap)
    requires Read(expected, copies) && Merged(copies, order, actual) && Elements(order) == copies.Keys && SameIds(expected, copies)
    ensures actual.Keys == expected.Keys
  {
    forall id
      ensures id in actual <==> id in expected
    {
      if id in expected { ExpectedIsHeld(expected, copies, order, id); }
      if id in actual { HeldIsExpected(expected, copies, order, actual, id); }
    }
  }

  lemma ExpectedIsHeld(expected: SpanMap, copies: Copies, order: seq<string>, id: string)
    requires Read(expected, copies) && Elements(order) == copies.Keys && SameIds(expected, copies) && id in expected
    ensures expected[id].span.traceId in order && Holding(copies, expected[id].span.traceId, id)
  {
    var tid := expected[id].span.traceId;
    assert tid in TracesOf(expected) && tid in Elements(order);
    assert id in IdsOf(expected, tid);
  }

  lemma HeldIsExpected(expected: SpanMap, copies: Copies, order: seq<string>, actual: SpanMap, id: string)
    requires Read(expected, copies) && Merged(copies, order, actual) && SameIds(expected, copies) && id in actual
    ensures id in expected && Holding(copies, expected[id].span.traceId, id) && actual[id].span == copies[expected[id].span.traceId].spans[id]
  {
    var tid :| tid in order && Holding(copies, tid, id) && actual[id].span == copies[tid].spans[id];
    assert id in IdsOf(expected, tid);
  }

  // ---------------------------------------------------------------- what the recount adds

  /** The condition under which a faithful copy is accepted, read off the returned spans. */
  predicate AllReadable(expected: SpanMap, actual: SpanMap)
    requires actual.Keys == expected.Keys
  {
    forall id | id in expected :: Readable(expected[id].span, actual[id].span)
  }

  lemma LegalIsReadable(spans: SpanMap, id: string)
    requires Legal(spans) && id in spans
    ensures Readable(spans[id].span, spans[id].span)
  {
    assert LegalSpan(spans, id);
  }

  lemma FaithfulIsLooselySame(expected: SpanMap, copies: Copies, actual: SpanMap, id: string)
    requires Faithful(expected, copies) && CopiedInPlace(expected, copies, actual) && id in expected
    ensures LooselySame(Project(expected[id].span), Project(actual[id].span))
  {
    assert FaithfulSpan(expected, copies, id);
  }

  lemma ReadableIsAlike(expected: SpanMap, copies: Copies, actual: SpanMap)
    requires Legal(expected) && Faithful(expected, copies) && CopiedInPlace(expected, copies, actual) && AllReadable(expected, actual)
    ensures Alike(expected, actual)
  {
    forall id | id in expected
      ensures SameFacts(expected[id].span, actual[id].span)
    {
      LegalIsReadable(expected, id);
      FaithfulIsLooselySame(expected, copies, actual, id);
      LooseFixesFacts(expected[id].span, actual[id].span);
    }
  }

  /** An accepted copy shows a textual name everywhere and an integer on each Attempt. */
  lemma AcceptedIsReadable(expected: SpanMap, copies: Copies, actual: SpanMap, id: string)
    requires Legal(expected) && Faithful(expected, copies) && CopiedInPlace(expected, copies, actual) && Legal(actual) && id in expected
    ensures Readable(expected[id].span, actual[id].span)
  {
    LegalIsReadable(expected, id);
    LegalIsReadable(actual, id);
    FaithfulIsLooselySame(expected, copies, actual, id);
    RoleAgrees(expected[id].span, actual[id].span);
  }

  /**
   A copy that agrees in Python's equality is accepted by the archive contract exactly when every
   returned name is text and every returned Attempt number an integer; then its rows are the
   archive's. Beyond that condition the recount adds nothing.
   */
  lemma FaithfulIsAcceptedWhen(expected: SpanMap, copies: Copies, actual: SpanMap, reference: int, rows: seq<Row>)
    requires Legal(expected) && Faithful(expected, copies) && CopiedInPlace(expected, copies, actual)
    ensures Legal(actual) <==> AllReadable(expected, actual)
    ensures Legal(actual) && TopRows(expected, reference, |expected|, rows) ==> TopRows(actual, reference, |actual|, rows)
  {
    if Legal(actual) {
      forall id | id in expected
        ensures Readable(expected[id].span, actual[id].span)
      {
        AcceptedIsReadable(expected, copies, actual, id);
      }
    }
    if AllReadable(expected, actual) {
      ReadableIsAlike(expected, copies, actual);
      AlikeLegal(expected, actual);
      AlikeHits(expected, actual, reference);
      SameSize(expected, actual);
    }
  }

  lemma SameSize(a: SpanMap, b: SpanMap)
    requires a.Keys == b.Keys
    ensures |a| == |b|
  {
    assert |a| == |a.Keys| && |b| == |b.Keys|;
  }

  /** A span the reader files under another trace is never hidden by the overwrite: no match. */
  lemma MovedSpanIsSeen(expected: SpanMap, copies: Copies, id: string, tid: string)
    requires Read(expected, copies) && tid in copies && id in copies[tid].spans
    requires id !in expected || expected[id].span.traceId != tid
    ensures !Faithful(expected, copies)
  {
    assert id !in IdsOf(expected, tid);
  }

  // ---------------------------------------------------------------- the whole comparison

  /** One pass over the traces: something not there yet, a reader that is away, one that fails, or every trace read. */
  datatype Pass = NotYet | Away | Broke | Got(copies: Copies)

  datatype Verdict = Matched | Mismatched | TimedOut | ReaderUnavailable | ReaderFailed

  /** A pass that ends the polling. */
  ghost predicate Decides(expected: SpanMap, pass: Pass) {
    pass.Broke? || (pass.Got? && Complete(expected, pass.copies))
  }

  ghost predicate ReadableCopies(expected: SpanMap, copies: Copies) {
    forall id | id in expected :: Holding(copies, expected[id].span.traceId, id)
                                  && Readable(expected[id].span, copies[expected[id].span.traceId].spans[id])
  }

  ghost predicate Judges(expected: SpanMap, pass: Pass, verdict: Verdict) {
    if pass.Got? then verdict == if Faithful(expected, pass.copies) && ReadableCopies(expected, pass.copies) then Matched else Mismatched
    else verdict == ReaderFailed
  }

  ghost predicate AllRead(expected: SpanMap, passes: seq<Pass>) {
    forall j | 0 <= j < |passes| :: passes[j].Got? ==> Read(expected, passes[j].copies)
  }

  /** None of the first `n` passes ends the polling. */
  ghost predicate Undecided(expected: SpanMap, passes: seq<Pass>, n: nat)
    requires n <= |passes|
  {
    forall j | 0 <= j < n :: !Decides(expected, passes[j])
  }

  lemma UndecidedOn(expected: SpanMap, passes: seq<Pass>, n: nat)
    requires n < |passes| && Undecided(expected, passes, n) && !Decides(expected, passes[n])
    ensures Undecided(expected, passes, n + 1)
  {
  }

  function StatusAfter(pass: Pass): Verdict {
    if pass.Away? then ReaderUnavailable else TimedOut
  }

  function LastStatus(passes: seq<Pass>): Verdict {
    if |passes| > 0 then StatusAfter(Last(passes)) else TimedOut
  }

  lemma InPlaceIsReadable(expected: SpanMap, copies: Copies, actual: SpanMap)
    requires CopiedInPlace(expected, copies, actual)
    ensures ReadableCopies(expected, copies) <==> AllReadable(expected, actual)
  {
  }

  lemma PassJudges(expected: SpanMap, copies: Copies, actual: SpanMap, status: Status, reference: int, rows: seq<Row>)
    requires Legal(expected) && TopRows(expected, reference, |expected|, rows) && !status.Waiting?
    requires status == Match <==> Faithful(expected, copies) && Legal(actual) && TopRows(actual, reference, |actual|, rows)
    requires Faithful(expected, copies) ==> CopiedInPlace(expected, copies, actual)
    ensures Judges(expected, Got(copies), if status == Match then Matched else Mismatched)
  {
    if Faithful(expected, copies) {
      FaithfulIsAcceptedWhen(expected, copies, actual, reference, rows);
      InPlaceIsReadable(expected, copies, actual);
    }
  }

  method TakePass(expected: SpanMap, traces: seq<string>, pass: Pass, reference: int, allExpected: seq<Row>) returns (verdict: Option<Verdict>)
    requires Legal(expected) && expected != map[] && TopRows(expected, reference, |expected|, allExpected)
    requires Elements(traces) == TracesOf(expected) && (pass.Got? ==> Read(expected, pass.copies))
    ensures verdict.Some? <==> Decides(expected, pass)
    ensures verdict.Some? ==> Judges(expected, pass, verdict.value)
  {
    if pass.Broke? { return Some(ReaderFailed); }
    if !pass.Got? { return None; }
    var status, actual := ComparePass(expected, pass.copies, traces, reference, allExpected);
    if status.Waiting? { return None; }
    PassJudges(expected, pass.copies, actual, status, reference, allExpected);
    return Some(if status == Match then Matched else Mismatched);
  }

  /** How the polling ends: by the first pass that decides, or after the last one. */
  ghost predicate Ends(expected: SpanMap, passes: seq<Pass>, n: nat, verdict: Verdict) {
    && n <= |passes| && Undecided(expected, passes, n)
    && if n < |passes| then Decides(expected, passes[n]) && Judges(expected, passes[n], verdict) else verdict == LastStatus(passes)
  }

  method Poll(expected: SpanMap, traces: seq<string>, passes: seq<Pass>, reference: int, allExpected: seq<Row>) returns (verdict: Verdict, n: nat)
    requires Legal(expected) && expected != map[] && TopRows(expected, reference, |expected|, allExpected)
    requires Elements(traces) == TracesOf(expected) && AllRead(expected, passes)
    ensures Ends(expected, passes, n, verdict)
  {
    n, verdict := 0, TimedOut;
    while n < |passes|
      invariant n <= |passes| && Undecided(expected, passes, n)
      invariant verdict == if n == 0 then TimedOut else StatusAfter(passes[n - 1])
    {
      var decided := TakePass(expected, traces, passes[n], reference, allExpected);
      if decided.Some? { return decided.value, n; }
      UndecidedOn(expected, passes, n);
      verdict := StatusAfter(passes[n]);
      n := n + 1;
    }
  }

  /**
   Validates the archive, then polls; running out of `passes` is the deadline. The first pass that
   decides gives the verdict: a match exactly when the copy is faithful with textual names and
   integer Attempt numbers.
   */
  method Compare(order: seq<string>, expected: SpanMap, traces: seq<string>, passes: seq<Pass>, reference: int, top: int)
    returns (r: Option<Verdict>, n: nat)
    requires Keyed(expected) && NoDup(order) && Elements(order) == expected.Keys && Elements(traces) == TracesOf(expected)
    requires AllRead(expected, passes)
    ensures r.Some? <==> expected != map[] && Legal(expected) && top > 0
    ensures r.Some? ==> Ends(expected, passes, n, r.value)
  {
    n := 0;
    var rows := QuerySpans(order, expected, reference, |expected|);
    if rows.Err? || top <= 0 { return None, n; }
    var verdict;
    verdict, n := Poll(expected, traces, passes, reference, rows.value);
    return Some(verdict), n;
  }
}
