/** One answer per runtime interrupt (src/cord_runtime/response_dedupe.py). */
module ResponseDedupe {
  import opened Basics

  datatype Slot = Slot(deployment: string, thread: string, interrupt: string) {
    predicate Named() {
      !Blank(deployment) && !Blank(thread) && !Blank(interrupt)
    }
  }

  datatype Outcome = Resumed | Rejected | Unknown

  datatype Record = Record(claimedAt: real, outcome: Option<Outcome>, resolvedAt: Option<real>)

  type Records = map<Slot, Record>

  datatype StoreError = BlankName | NotClaimed

  function Claimed(records: Records, slot: Slot, now: real): Records {
    if slot in records then records else records[slot := Record(now, None, None)]
  }

  /** The first outcome stays. */
  function WithOutcome(records: Records, slot: Slot, outcome: Outcome, now: real): Records {
    if slot in records && records[slot].outcome.None?
    then records[slot := records[slot].(outcome := Some(outcome), resolvedAt := Some(now))]
    else records
  }

  class ResponseDedupeStore {
    var records: Records

    constructor ()
      ensures records == map[]
    {
      records := map[];
    }

    method Claim(slot: Slot, now: real) returns (r: Result<bool, StoreError>)
      modifies this
      ensures r.Ok? <==> slot.Named()
      ensures r.Ok? ==> (r.value <==> slot !in old(records))
      ensures records == if r.Ok? then Claimed(old(records), slot, now) else old(records)
    {
      if !slot.Named() { return Err(BlankName); }
      if slot in records { return Ok(false); }
      records := records[slot := Record(now, None, None)];
      return Ok(true);
    }

    method RecordOutcome(slot: Slot, outcome: Outcome, now: real) returns (r: Result<Record, StoreError>)
      modifies this
      ensures r.Ok? <==> slot.Named() && slot in old(records)
      ensures records == if r.Ok? then WithOutcome(old(records), slot, outcome, now) else old(records)
      ensures r.Ok? ==> r.value == records[slot]
    {
      if !slot.Named() { return Err(BlankName); }
      if slot !in records { return Err(NotClaimed); }
      var record := records[slot];
      if record.outcome.None? {
        record := record.(outcome := Some(outcome), resolvedAt := Some(now));
        records := records[slot := record];
      }
      return Ok(record);
    }

    method GetClaim(slot: Slot) returns (r: Result<Option<Record>, StoreError>)
      ensures r.Ok? <==> slot.Named()
      ensures r.Ok? ==> r.value == if slot in records then Some(records[slot]) else None
    {
      if !slot.Named() { return Err(BlankName); }
      return Ok(if slot in records then Some(records[slot]) else None);
    }
  }

  // ---------------------------------------------------------------- over a history of calls

  datatype Call = Claim(slot: Slot, now: real) | Settle(slot: Slot, outcome: Outcome, now: real)

  function Apply(records: Records, c: Call): Records {
    match c
    case Claim(slot, now) => Claimed(records, slot, now)
    case Settle(slot, outcome, now) => WithOutcome(records, slot, outcome, now)
  }

  function After(records: Records, calls: seq<Call>): Records {
    if |calls| == 0 then records else Apply(After(records, calls[..|calls| - 1]), Last(calls))
  }

  /** Nothing later changes a claim, and nothing later changes an outcome. */
  lemma {:induction false} SettledForever(records: Records, calls: seq<Call>, slot: Slot)
    requires slot in records
    ensures slot in After(records, calls) && After(records, calls)[slot].claimedAt == records[slot].claimedAt
    ensures records[slot].outcome.Some? ==> After(records, calls)[slot] == records[slot]
  {
    if |calls| > 0 {
      SettledForever(records, calls[..|calls| - 1], slot);
    }
  }

  /** However submitters interleave, at most one claim of a slot is let through. */
  lemma OneClaimPerSlot(records: Records, calls: seq<Call>, i: nat, j: nat)
    requires i < j < |calls| && calls[i].Claim? && calls[j].Claim? && calls[i].slot == calls[j].slot
    ensures calls[j].slot in After(records, calls[..j])
  {
    var slot := calls[i].slot;
    var mid := After(records, calls[..i + 1]);
    assert calls[..i + 1][..i] == calls[..i];
    assert slot in mid;
    AfterConcat(records, calls[..i + 1], calls[i + 1..j]);
    assert calls[..i + 1] + calls[i + 1..j] == calls[..j];
    SettledForever(mid, calls[i + 1..j], slot);
  }

  lemma {:induction false} AfterConcat(records: Records, a: seq<Call>, b: seq<Call>)
    ensures After(records, a + b) == After(After(records, a), b)
  {
    if |b| == 0 {
      assert a + b == a;
    } else {
      assert (a + b)[..|a + b| - 1] == a + b[..|b| - 1];
      AfterConcat(records, a, b[..|b| - 1]);
    }
  }
}
