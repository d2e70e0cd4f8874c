/** The Signal-id claims, kept for a retention window (src/cord_runtime/signal_dedupe.py). */
module SignalDedupe {
  import opened Basics

  const DEFAULT_RETENTION: real := 86400.0

  /** When each remembered Signal id was claimed. */
  type Claims = map<string, real>

  datatype StoreError = BlankSignal

  function Prune(data: Claims, now: real, retention: real): Claims {
    map id | id in data && now - data[id] < retention :: data[id]
  }

  function Claimed(data: Claims, id: string, now: real, retention: real): Claims {
    var kept := Prune(data, now, retention);
    if id in kept then kept else kept[id := now]
  }

  predicate Remembered(data: Claims, id: string, now: real, retention: real) {
    id in data && now - data[id] < retention
  }

  class SignalDedupeStore {
    var data: Claims

    constructor ()
      ensures data == map[]
    {
      data := map[];
    }

    method IsDuplicate(id: string, now: real, retention: real) returns (r: Result<bool, StoreError>)
      ensures r.Ok? <==> !Blank(id)
      ensures r.Ok? ==> r.value == Remembered(data, id, now, retention)
    {
      if Blank(id) { return Err(BlankSignal); }
      var kept := Prune(data, now, retention);
      return Ok(id in kept);
    }

    /** Succeeds unless a claim inside the window is remembered; expired claims of every id are dropped. */
    method Claim(id: string, now: real, retention: real) returns (r: Result<bool, StoreError>)
      modifies this
      ensures r.Ok? <==> !Blank(id)
      ensures r.Err? ==> data == old(data)
      ensures r.Ok? ==> r.value == !Remembered(old(data), id, now, retention)
      ensures r.Ok? ==> data == Claimed(old(data), id, now, retention)
    {
      if Blank(id) { return Err(BlankSignal); }
      var kept := Prune(data, now, retention);
      if id in kept {
        data := kept;
        return Ok(false);
      }
      kept := kept[id := now];
      data := kept;
      return Ok(true);
    }
  }

  // ---------------------------------------------------------------- over a history of claims

  datatype Call = Call(id: string, now: real)

  function After(calls: seq<Call>, retention: real): Claims {
    if |calls| == 0 then map[]
    else Claimed(After(calls[..|calls| - 1], retention), Last(calls).id, Last(calls).now, retention)
  }

  predicate Succeeds(calls: seq<Call>, i: nat, retention: real)
    requires i < |calls|
  {
    !Remembered(After(calls[..i], retention), calls[i].id, calls[i].now, retention)
  }

  /** Some call after `i`, up to `j`, came a whole window later. */
  predicate WindowPassed(calls: seq<Call>, i: nat, j: nat, retention: real)
    requires i < |calls| && j < |calls|
  {
    exists m | i < m <= j :: calls[m].now - calls[i].now >= retention
  }

  ghost predicate QuietBetween(calls: seq<Call>, i: nat, j: nat, retention: real)
    requires i < j < |calls|
  {
    forall m | i < m < j && calls[m].id == calls[i].id :: !Succeeds(calls, m, retention)
  }

  lemma AfterStep(calls: seq<Call>, j: nat, retention: real)
    requires j < |calls|
    ensures After(calls[..j + 1], retention) == Claimed(After(calls[..j], retention), calls[j].id, calls[j].now, retention)
  {
    assert calls[..j + 1][..j] == calls[..j];
  }

  /** No call strictly between came a whole window after call `i`. */
  ghost predicate Young(calls: seq<Call>, i: nat, j: nat, retention: real)
    requires i < j <= |calls|
  {
    forall m | i < m < j :: calls[m].now - calls[i].now < retention
  }

  /** The claim of a call is on record, or gone. */
  predicate Stands(data: Claims, call: Call, young: bool) {
    if young then call.id in data && data[call.id] == call.now else call.id !in data
  }

  /** A later call that does not take the claim over leaves it, or prunes it a window later. */
  lemma StandsOn(data: Claims, call: Call, young: bool, next: Call, retention: real)
    requires Stands(data, call, young) && (next.id == call.id ==> Remembered(data, next.id, next.now, retention))
    ensures Stands(Claimed(data, next.id, next.now, retention), call, young && next.now - call.now < retention)
  {
  }

  lemma StandsAtFirst(data: Claims, call: Call, retention: real)
    requires retention > 0.0 && !Remembered(data, call.id, call.now, retention)
    ensures Stands(Claimed(data, call.id, call.now, retention), call, true)
  {
  }

  lemma YoungOn(calls: seq<Call>, i: nat, j: nat, retention: real)
    requires i < j < |calls|
    ensures Young(calls, i, j + 1, retention) <==> Young(calls, i, j, retention) && calls[j].now - calls[i].now < retention
  {
  }

  lemma QuietEarlier(calls: seq<Call>, i: nat, j: nat, retention: real)
    requires i + 1 < j < |calls| && QuietBetween(calls, i, j, retention)
    ensures QuietBetween(calls, i, j - 1, retention) && (calls[j - 1].id == calls[i].id ==> !Succeeds(calls, j - 1, retention))
  {
  }

  lemma RememberedStep(calls: seq<Call>, i: nat, j: nat, retention: real)
    requires i < j < |calls| && (calls[j].id == calls[i].id ==> !Succeeds(calls, j, retention))
    requires Stands(After(calls[..j], retention), calls[i], Young(calls, i, j, retention))
    ensures Stands(After(calls[..j + 1], retention), calls[i], Young(calls, i, j + 1, retention))
  {
    AfterStep(calls, j, retention);
    YoungOn(calls, i, j, retention);
    StandsOn(After(calls[..j], retention), calls[i], Young(calls, i, j, retention), calls[j], retention);
  }

  /** A successful claim is remembered until some call comes a window later, and then forgotten. */
  lemma {:induction false} RememberedUntil(calls: seq<Call>, i: nat, j: nat, retention: real)
    requires retention > 0.0 && i < j < |calls| && Succeeds(calls, i, retention) && QuietBetween(calls, i, j, retention)
    ensures Stands(After(calls[..j], retention), calls[i], Young(calls, i, j, retention))
    decreases j
  {
    if j == i + 1 {
      AfterStep(calls, i, retention);
      StandsAtFirst(After(calls[..i], retention), calls[i], retention);
    } else {
      QuietEarlier(calls, i, j, retention);
      RememberedUntil(calls, i, j - 1, retention);
      RememberedStep(calls, i, j - 1, retention);
    }
  }

  /**
   Exactly when a later delivery of one Signal is let through: when some claim call, its own
   included, came a whole retention window after the last one let through.
   */
  lemma NextSuccess(calls: seq<Call>, i: nat, j: nat, retention: real)
    requires retention > 0.0 && i < j < |calls| && calls[i].id == calls[j].id
    requires Succeeds(calls, i, retention) && QuietBetween(calls, i, j, retention)
    ensures Succeeds(calls, j, retention) <==> WindowPassed(calls, i, j, retention)
  {
    RememberedUntil(calls, i, j, retention);
    if Young(calls, i, j, retention) {
      if calls[j].now - calls[i].now >= retention {
        assert WindowPassed(calls, i, j, retention);
      }
    }
  }

  lemma LastSuccess(calls: seq<Call>, i: nat, j: nat, retention: real) returns (k: nat)
    requires i < j < |calls| && calls[i].id == calls[j].id && Succeeds(calls, i, retention)
    ensures i <= k < j && calls[k].id == calls[j].id && Succeeds(calls, k, retention) && QuietBetween(calls, k, j, retention)
  {
    k := j - 1;
    while !(calls[k].id == calls[j].id && Succeeds(calls, k, retention))
      invariant i <= k < j
      invariant forall m | k < m < j && calls[m].id == calls[j].id :: !Succeeds(calls, m, retention)
      decreases k
    {
      k := k - 1;
    }
  }

  ghost predicate ClockNeverGoesBack(calls: seq<Call>) {
    forall i, j | 0 <= i < j < |calls| :: calls[i].now <= calls[j].now
  }

  /** With a clock that never goes back, two successes for one Signal are a whole window apart. */
  lemma SuccessesAreAWindowApart(calls: seq<Call>, i: nat, j: nat, retention: real)
    requires retention > 0.0 && ClockNeverGoesBack(calls) && i < j < |calls| && calls[i].id == calls[j].id
    requires Succeeds(calls, i, retention) && Succeeds(calls, j, retention)
    ensures calls[j].now - calls[i].now >= retention
  {
    var k := LastSuccess(calls, i, j, retention);
    NextSuccess(calls, k, j, retention);
    var m :| k < m <= j && calls[m].now - calls[k].now >= retention;
  }

  /** The first delivery of a Signal is always let through. */
  lemma {:induction false} UnseenIsUnknown(calls: seq<Call>, id: string, retention: real)
    requires forall i | 0 <= i < |calls| :: calls[i].id != id
    ensures id !in After(calls, retention)
  {
    if |calls| > 0 {
      UnseenIsUnknown(calls[..|calls| - 1], id, retention);
    }
  }

  lemma FirstSucceeds(calls: seq<Call>, j: nat, retention: real)
    requires j < |calls| && forall i | 0 <= i < j :: calls[i].id != calls[j].id
    ensures Succeeds(calls, j, retention)
  {
    UnseenIsUnknown(calls[..j], calls[j].id, retention);
  }
}
