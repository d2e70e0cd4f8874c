/** The durable (Assistant, Subject) claim store (src/cord_runtime/concurrency.py). */
module Concurrency {
  import opened Basics

  datatype Pair = Pair(assistant: string, subject: string) {
    /** What `_key` accepts. */
    predicate Named() {
      !Blank(assistant) && !Blank(subject)
    }
  }

  /** When each held pair was claimed or last renewed. */
  type Claims = map<Pair, real>

  datatype StoreError = BlankName

  predicate Live(claims: Claims, pair: Pair, now: real, staleAfter: real) {
    pair in claims && now - claims[pair] < staleAfter
  }

  function Claimed(claims: Claims, pair: Pair, now: real, staleAfter: real): Claims {
    if Live(claims, pair, now, staleAfter) then claims else claims[pair := now]
  }

  function Renewed(claims: Claims, pair: Pair, now: real): Claims {
    if pair in claims then claims[pair := now] else claims
  }

  class ConcurrencyStore {
    var claims: Claims

    constructor ()
      ensures claims == map[]
    {
      claims := map[];
    }

    /** Succeeds unless a claim that has not gone stale holds the pair; a refusal changes nothing. */
    method TryClaim(pair: Pair, now: real, staleAfter: real) returns (r: Result<bool, StoreError>)
      modifies this
      ensures r.Ok? <==> pair.Named()
      ensures r.Err? ==> claims == old(claims)
      ensures r.Ok? ==> r.value == !Live(old(claims), pair, now, staleAfter) && claims == Claimed(old(claims), pair, now, staleAfter)
    {
      if !pair.Named() { return Err(BlankName); }
      if pair in claims && now - claims[pair] < staleAfter { return Ok(false); }
      claims := claims[pair := now];
      return Ok(true);
    }

    method Release(pair: Pair) returns (r: Result<(), StoreError>)
      modifies this
      ensures r.Ok? <==> pair.Named()
      ensures claims == if r.Ok? then old(claims) - {pair} else old(claims)
    {
      if !pair.Named() { return Err(BlankName); }
      if pair in claims {
        claims := claims - {pair};
      }
      assert claims == old(claims) - {pair};
      return Ok(());
    }

    /** Never makes a claim that is not held. */
    method Renew(pair: Pair, now: real) returns (r: Result<(), StoreError>)
      modifies this
      ensures r.Ok? <==> pair.Named()
      ensures claims == if r.Ok? then Renewed(old(claims), pair, now) else old(claims)
    {
      if !pair.Named() { return Err(BlankName); }
      if pair in claims {
        claims := claims[pair := now];
      }
      return Ok(());
    }
  }

  // ---------------------------------------------------------------- a claim over a history of calls

  datatype Call =
    | TryClaim(pair: Pair, now: real, staleAfter: real)
    | Release(pair: Pair)
    | Renew(pair: Pair, now: real)

  function Apply(claims: Claims, c: Call): Claims {
    match c
    case TryClaim(pair, now, staleAfter) => Claimed(claims, pair, now, staleAfter)
    case Release(pair) => claims - {pair}
    case Renew(pair, now) => Renewed(claims, pair, now)
  }

  function After(claims: Claims, calls: seq<Call>): Claims {
    if |calls| == 0 then claims else Apply(After(claims, calls[..|calls| - 1]), Last(calls))
  }

  /** The claim time of a pair that is claimed at `t`, renewed, and never taken over. */
  function LastRenewal(calls: seq<Call>, pair: Pair, t: real): real {
    if |calls| == 0 then t
    else if Last(calls).Renew? && Last(calls).pair == pair then Last(calls).now
    else LastRenewal(calls[..|calls| - 1], pair, t)
  }

  /** A rival attempt that finds the claim abandoned, whatever patience the rival brings. */
  predicate FindsStale(calls: seq<Call>, i: nat, pair: Pair, t: real)
    requires i < |calls|
  {
    calls[i].TryClaim? && calls[i].pair == pair && calls[i].now - LastRenewal(calls[..i], pair, t) >= calls[i].staleAfter
  }

  /** A rival attempt that succeeds. */
  predicate TakesOver(claims: Claims, calls: seq<Call>, i: nat, pair: Pair)
    requires i < |calls|
  {
    calls[i].TryClaim? && calls[i].pair == pair && !Live(After(claims, calls[..i]), pair, calls[i].now, calls[i].staleAfter)
  }

  lemma {:induction false} HeldSince(claims: Claims, calls: seq<Call>, pair: Pair)
    requires pair in claims
    requires forall i | 0 <= i < |calls| :: !(calls[i].Release? && calls[i].pair == pair)
    requires forall i | 0 <= i < |calls| :: !FindsStale(calls, i, pair, claims[pair])
    ensures pair in After(claims, calls) && After(claims, calls)[pair] == LastRenewal(calls, pair, claims[pair])
  {
    if |calls| > 0 {
      var front := calls[..|calls| - 1];
      forall i | 0 <= i < |front|
        ensures front[i] == calls[i] && front[..i] == calls[..i]
        ensures !FindsStale(front, i, pair, claims[pair])
      {
        assert !FindsStale(calls, i, pair, claims[pair]);
      }
      HeldSince(claims, front, pair);
      assert !FindsStale(calls, |calls| - 1, pair, claims[pair]);
    }
  }

  lemma HeldUntil(claims: Claims, calls: seq<Call>, pair: Pair, i: nat)
    requires pair in claims && i <= |calls|
    requires forall j | 0 <= j < i :: !(calls[j].Release? && calls[j].pair == pair)
    requires forall j | 0 <= j < i :: !FindsStale(calls, j, pair, claims[pair])
    ensures pair in After(claims, calls[..i]) && After(claims, calls[..i])[pair] == LastRenewal(calls[..i], pair, claims[pair])
  {
    var front := calls[..i];
    forall j | 0 <= j < i
      ensures front[j] == calls[j] && !FindsStale(front, j, pair, claims[pair])
    {
      assert front[..j] == calls[..j];
      assert !FindsStale(calls, j, pair, claims[pair]);
    }
    HeldSince(claims, front, pair);
  }

  /**
   While a pair is held and not released, the first rival attempt to succeed is the first that comes
   a rival's own `stale_after` or more after the last renewal: renewals spaced closer than every
   rival's patience make all of them fail, and nothing weaker does.
   */
  lemma RivalsFailWhileRenewed(claims: Claims, calls: seq<Call>, pair: Pair)
    requires pair in claims
    requires forall i | 0 <= i < |calls| :: !(calls[i].Release? && calls[i].pair == pair)
    ensures (forall i | 0 <= i < |calls| :: !TakesOver(claims, calls, i, pair))
            <==> (forall i | 0 <= i < |calls| :: !FindsStale(calls, i, pair, claims[pair]))
    ensures forall i | 0 <= i < |calls| && (forall j | 0 <= j < i :: !FindsStale(calls, j, pair, claims[pair])) ::
              TakesOver(claims, calls, i, pair) <==> FindsStale(calls, i, pair, claims[pair])
  {
    forall i | 0 <= i < |calls| && (forall j | 0 <= j < i :: !FindsStale(calls, j, pair, claims[pair]))
      ensures TakesOver(claims, calls, i, pair) <==> FindsStale(calls, i, pair, claims[pair])
    {
      HeldUntil(claims, calls, pair, i);
    }
    if i :| 0 <= i < |calls| && FindsStale(calls, i, pair, claims[pair]) {
      var j := FirstStale(calls, pair, claims[pair], i);
      assert TakesOver(claims, calls, j, pair);
    } else {
      forall i | 0 <= i < |calls|
        ensures !TakesOver(claims, calls, i, pair)
      {
        assert !FindsStale(calls, i, pair, claims[pair]);
      }
    }
  }

  lemma FirstStale(calls: seq<Call>, pair: Pair, t: real, i: nat) returns (j: nat)
    requires i < |calls| && FindsStale(calls, i, pair, t)
    ensures j <= i && FindsStale(calls, j, pair, t) && forall k | 0 <= k < j :: !FindsStale(calls, k, pair, t)
  {
    j := 0;
    while !FindsStale(calls, j, pair, t)
      invariant j <= i && forall k | 0 <= k < j :: !FindsStale(calls, k, pair, t)
      decreases i - j
    {
      j := j + 1;
    }
  }
}
