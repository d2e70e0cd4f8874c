/** Which logical Run an API Run belongs to, by Thread (src/cord_runtime/run_continuity.py). */
module RunContinuity {
  import opened Basics
  import opened PendingCompletions

  datatype Record = Record(runId: string, apiRunIds: seq<string>)

  /** The stored object nests Threads under Deployments; one key stands for both. */
  type Records = map<Key, Record>

  datatype Failure = BlankField | UnknownThread

  function Recorded(records: Records, key: Key, apiRunId: string): Records {
    if key !in records then records[key := Record(apiRunId, [apiRunId])]
    else if apiRunId !in records[key].apiRunIds then records[key := records[key].(apiRunIds := records[key].apiRunIds + [apiRunId])]
    else records
  }

  ghost predicate Valid(records: Records) {
    forall key | key in records ::
      NoDup(records[key].apiRunIds) && |records[key].apiRunIds| > 0 && records[key].apiRunIds[0] == records[key].runId
  }

  class ContinuityStore {
    var records: Records

    constructor ()
      ensures records == map[]
    {
      records := map[];
    }

    /** The Thread's first API Run names its logical Run; later ones are appended once each. */
    method RecordSubmission(key: Key, apiRunId: string) returns (r: Result<string, Failure>)
      modifies this
      ensures r.Ok? <==> key.Named() && !Blank(apiRunId)
      ensures records == if r.Ok? then Recorded(old(records), key, apiRunId) else old(records)
      ensures r.Ok? ==> r.value == records[key].runId && apiRunId in records[key].apiRunIds
      ensures r.Ok? && key in old(records) ==> r.value == old(records)[key].runId
    {
      if !key.Named() || Blank(apiRunId) { return Err(BlankField); }
      if key !in records {
        records := records[key := Record(apiRunId, [apiRunId])];
        return Ok(apiRunId);
      }
      var record := records[key];
      if apiRunId !in record.apiRunIds {
        record := record.(apiRunIds := record.apiRunIds + [apiRunId]);
        assert apiRunId == record.apiRunIds[|record.apiRunIds| - 1];
        records := records[key := record];
      }
      return Ok(record.runId);
    }

    method LogicalRun(key: Key) returns (r: Result<Record, Failure>)
      ensures r == if key in records then Ok(records[key]) else Err(UnknownThread)
    {
      if key !in records { return Err(UnknownThread); }
      return Ok(records[key]);
    }

    /** Some Thread of the Deployment whose logical Run this is, if there is one. */
    method ThreadForRun(deployment: string, runId: string) returns (r: Option<string>)
      ensures r.Some? ==> Key(deployment, r.value) in records && records[Key(deployment, r.value)].runId == runId
      ensures r.None? ==> forall key | key in records && key.deployment == deployment :: records[key].runId != runId
    {
      var left := records.Keys;
      while left != {}
        invariant left <= records.Keys
        invariant forall key | key in records && key !in left && key.deployment == deployment :: records[key].runId != runId
        decreases left
      {
        var key :| key in left;
        if key.deployment == deployment && records[key].runId == runId { return Some(key.thread); }
        left := left - {key};
      }
      return None;
    }
  }

  // ---------------------------------------------------------------- over a history of submissions

  function After(records: Records, calls: seq<(Key, string)>): Records {
    if |calls| == 0 then records
    else Recorded(After(records, calls[..|calls| - 1]), Last(calls).0, Last(calls).1)
  }

  /** Submissions recorded for one Thread, first occurrences only. */
  function Submitted(calls: seq<(Key, string)>, key: Key): seq<string> {
    if |calls| == 0 then []
    else
      var before := Submitted(calls[..|calls| - 1], key);
      if Last(calls).0 == key && Last(calls).1 !in before then before + [Last(calls).1] else before
  }

  /** A Thread's record holds its submissions, each once, under the first one. */
  ghost predicate Tells(records: Records, key: Key, ids: seq<string>) {
    NoDup(ids) && (key in records <==> ids != []) && (ids != [] ==> records[key] == Record(ids[0], ids))
  }

  lemma RecordedValid(records: Records, key: Key, run: string)
    requires Valid(records)
    ensures Valid(Recorded(records, key, run))
  {
  }

  lemma RecordedTells(records: Records, key: Key, ids: seq<string>, at: Key, run: string)
    requires Tells(records, key, ids)
    ensures Tells(Recorded(records, at, run), key, if at == key && run !in ids then ids + [run] else ids)
  {
  }

  lemma {:induction false} AfterIsValid(calls: seq<(Key, string)>)
    ensures Valid(After(map[], calls))
  {
    if |calls| > 0 {
      AfterIsValid(calls[..|calls| - 1]);
      RecordedValid(After(map[], calls[..|calls| - 1]), Last(calls).0, Last(calls).1);
    }
  }

  /** The first submission of a Thread names its logical Run for good; all are kept, once, in order. */
  lemma {:induction false} FirstSubmissionNamesTheRun(calls: seq<(Key, string)>, key: Key)
    ensures Valid(After(map[], calls)) && Tells(After(map[], calls), key, Submitted(calls, key))
  {
    AfterIsValid(calls);
    if |calls| > 0 {
      var front := calls[..|calls| - 1];
      FirstSubmissionNamesTheRun(front, key);
      RecordedTells(After(map[], front), key, Submitted(front, key), Last(calls).0, Last(calls).1);
    }
  }

  lemma {:induction false} LogicalRunNeverChanges(records: Records, calls: seq<(Key, string)>, key: Key)
    requires key in records
    ensures key in After(records, calls) && After(records, calls)[key].runId == records[key].runId
    ensures records[key].apiRunIds <= After(records, calls)[key].apiRunIds
  {
    if |calls| > 0 {
      LogicalRunNeverChanges(records, calls[..|calls| - 1], key);
    }
  }
}
