/** What one sweep and the cascades it routes leave behind (src/cord_runtime/router.py). */
module SweepFacts {
  import opened Basics
  import opened Protocol
  import opened Routes
  import opened RouteFacts
  import ProtocolCascade
  import P = PendingCompletions

  /** In every run of the protocol the tracked and recorded Threads have been seen, as the statements below ask. */
  lemma TrackedAreSeen(conns: Connections, trace: seq<World>, steps: seq<Step>, n: nat)
    requires Run(conns, trace, steps) && n < |trace|
    ensures trace[n].entries.Keys <= trace[n].seen && trace[n].threads.Keys <= trace[n].seen
  {
    ProtocolCascade.SoundAlways(conns, trace, steps, n);
  }

  // ---------------------------------------------------------------- one entry looked at

  /** How a tracked Run stands after it was looked at. */
  predicate StandsAs(entries: P.Entries, v: P.Entries, key: Key, status: Observation, now: real)
    requires key in entries
  {
    if status.Paused? then key in v && v[key] == entries[key].(concurrencyHeld := false, deploymentHeld := false, recordedAt := now)
    else if Settles(status) then key !in v
    else key in v && v[key] == entries[key]
  }

  predicate SameEntry(v: P.Entries, w: P.Entries, key: Key) {
    (key in v <==> key in w) && (key in w ==> v[key] == w[key])
  }

  lemma LookedStands(conns: Connections, w: World, key: Key, entry: P.Entry, status: Observation, now: real)
    requires key in w.entries
    ensures
      var v := Looked(conns, w, key, entry, status, now);
      StandsAs(w.entries, v.entries, key, status, now) && v.seen == w.seen && v.threads == w.threads && v.submissions == w.submissions
    ensures forall k | k != key :: SameEntry(Looked(conns, w, key, entry, status, now).entries, w.entries, k)
  {
  }

  predicate SameThread(v: World, w: World, key: Key) {
    (key in v.threads <==> key in w.threads) && (key in w.threads ==> v.threads[key] == w.threads[key])
  }

  ghost predicate ThreadsKept(w: World, v: World) {
    w.seen <= v.seen && forall key | key in w.seen :: SameThread(v, w, key)
  }

  lemma SweptOneThreads(conns: Connections, w: World, key: Key, entry: P.Entry, status: Observation, now: real, staleAfter: real, supply: seq<Answer>)
    requires Fresh(w.seen, supply)
    ensures ThreadsKept(w, SweptOne(conns, w, key, entry, status, now, staleAfter, supply).world)
  {
    var v := Looked(conns, w, key, entry, status, now);
    if status.Completed? {
      CascadeKeeps(conns, v, Finished(FinishOf(w.threads, key, entry)), now, staleAfter, supply);
      var u := AllRouted(conns, v, Finished(FinishOf(w.threads, key, entry)), now, staleAfter, supply).world;
      forall k | k in w.seen
        ensures SameThread(u, w, k)
      {
        assert SameAt(v, u, k);
      }
    }
  }

  /** One entry and its cascade: the entry stands as it was seen, and every other known Thread is left alone. */
  lemma SweptOneStands(conns: Connections, w: World, key: Key, entry: P.Entry, status: Observation, now: real, staleAfter: real, supply: seq<Answer>)
    requires Fresh(w.seen, supply) && key in w.entries && key in w.seen
    ensures
      var s := SweptOne(conns, w, key, entry, status, now, staleAfter, supply);
      && w.seen <= s.world.seen && Fresh(s.world.seen, s.rest) && StandsAs(w.entries, s.world.entries, key, status, now)
    ensures forall k | k in w.seen && k != key :: SameEntry(SweptOne(conns, w, key, entry, status, now, staleAfter, supply).world.entries, w.entries, k)
  {
    var v := Looked(conns, w, key, entry, status, now);
    LookedStands(conns, w, key, entry, status, now);
    if status.Completed? {
      CascadeKeeps(conns, v, Finished(FinishOf(w.threads, key, entry)), now, staleAfter, supply);
      var u := AllRouted(conns, v, Finished(FinishOf(w.threads, key, entry)), now, staleAfter, supply).world;
      assert SameAt(v, u, key);
      forall k | k in w.seen && k != key
        ensures SameEntry(u.entries, w.entries, k)
      {
        assert SameAt(v, u, k) && SameEntry(v.entries, w.entries, k);
      }
    }
  }

  // ---------------------------------------------------------------- every entry

  /** Each entry looked at stands as it was seen, each other one as it was. */
  ghost predicate AllStand(conns: Connections, entries: P.Entries, v: P.Entries, keys: seq<Key>, statuses: map<Key, Observation>, now: real) {
    forall key | key in entries ::
      if key in Elements(keys) then StandsAs(entries, v, key, StatusOf(conns, statuses, key), now) else SameEntry(v, entries, key)
  }

  lemma FrontOf(keys: seq<Key>)
    requires |keys| > 0
    ensures Last(keys) in Elements(keys) && Elements(keys[..|keys| - 1]) + {Last(keys)} == Elements(keys)
    ensures NoDup(keys) ==> NoDup(keys[..|keys| - 1]) && Last(keys) !in Elements(keys[..|keys| - 1])
  {
    var front := keys[..|keys| - 1];
    forall key | key in keys
      ensures key in Elements(front) + {Last(keys)}
    {
      var i :| 0 <= i < |keys| && keys[i] == key;
      assert i < |front| ==> front[i] == key;
    }
  }

  /**
   After a sweep, in whatever order: paused Runs stay tracked and hold nothing, ended ones are
   resolved, the others are as they were. No cascade disturbs that.
   */
  lemma {:induction false} EntriesAfterSweep(conns: Connections, w: World, keys: seq<Key>, statuses: map<Key, Observation>,
                                             now: real, staleAfter: real, supply: seq<Answer>)
    requires Fresh(w.seen, supply) && w.entries.Keys <= w.seen && Elements(keys) <= w.entries.Keys && NoDup(keys)
    ensures
      var s := SweptAll(conns, w, w.entries, keys, statuses, now, staleAfter, supply);
      w.seen <= s.world.seen && Fresh(s.world.seen, s.rest) && AllStand(conns, w.entries, s.world.entries, keys, statuses, now)
  {
    if |keys| > 0 {
      var front, key := keys[..|keys| - 1], Last(keys);
      FrontOf(keys);
      EntriesAfterSweep(conns, w, front, statuses, now, staleAfter, supply);
      var s := SweptAll(conns, w, w.entries, front, statuses, now, staleAfter, supply);
      assert SameEntry(s.world.entries, w.entries, key);
      SweptOneStands(conns, s.world, key, w.entries[key], StatusOf(conns, statuses, key), now, staleAfter, s.rest);
      var v := SweptOne(conns, s.world, key, w.entries[key], StatusOf(conns, statuses, key), now, staleAfter, s.rest).world;
      StandFurther(conns, w.entries, s.world.entries, v.entries, keys, statuses, now);
    }
  }

  lemma StandFurther(conns: Connections, entries: P.Entries, u: P.Entries, v: P.Entries, keys: seq<Key>, statuses: map<Key, Observation>, now: real)
    requires |keys| > 0 && NoDup(keys) && Last(keys) in entries && AllStand(conns, entries, u, keys[..|keys| - 1], statuses, now)
    requires SameEntry(u, entries, Last(keys)) && Last(keys) in u && StandsAs(u, v, Last(keys), StatusOf(conns, statuses, Last(keys)), now)
    requires forall key | key in entries && key != Last(keys) :: SameEntry(v, u, key)
    ensures AllStand(conns, entries, v, keys, statuses, now)
  {
    FrontOf(keys);
    forall key | key in entries
      ensures if key in Elements(keys) then StandsAs(entries, v, key, StatusOf(conns, statuses, key), now) else SameEntry(v, entries, key)
    {
      if key != Last(keys) {
        assert SameEntry(v, u, key);
      }
    }
  }

  lemma {:induction false} ThreadsAfterSweep(conns: Connections, w: World, keys: seq<Key>, statuses: map<Key, Observation>,
                                             now: real, staleAfter: real, supply: seq<Answer>)
    requires Fresh(w.seen, supply) && w.entries.Keys <= w.seen && Elements(keys) <= w.entries.Keys && NoDup(keys)
    ensures ThreadsKept(w, SweptAll(conns, w, w.entries, keys, statuses, now, staleAfter, supply).world)
  {
    if |keys| > 0 {
      var front, key := keys[..|keys| - 1], Last(keys);
      FrontOf(keys);
      ThreadsAfterSweep(conns, w, front, statuses, now, staleAfter, supply);
      EntriesAfterSweep(conns, w, front, statuses, now, staleAfter, supply);
      var s := SweptAll(conns, w, w.entries, front, statuses, now, staleAfter, supply);
      SweptOneThreads(conns, s.world, key, w.entries[key], StatusOf(conns, statuses, key), now, staleAfter, s.rest);
      var v := SweptOne(conns, s.world, key, w.entries[key], StatusOf(conns, statuses, key), now, staleAfter, s.rest).world;
      forall k | k in w.seen
        ensures SameThread(v, w, k)
      {
        assert SameThread(s.world, w, k) && SameThread(v, s.world, k);
      }
    }
  }

  // ---------------------------------------------------------------- finishes

  /** The finishes of given Threads. */
  function Of(finished: seq<Finish>, keys: set<Key>): seq<Finish> {
    if |finished| == 0 then []
    else Of(finished[..|finished| - 1], keys) + if Last(finished).key in keys then [Last(finished)] else []
  }

  lemma {:induction false} OfConcat(a: seq<Finish>, b: seq<Finish>, keys: set<Key>)
    ensures Of(a + b, keys) == Of(a, keys) + Of(b, keys)
  {
    if |b| == 0 {
      assert a + b == a;
    } else {
      OfConcat(a, b[..|b| - 1], keys);
      assert (a + b)[..|a + b| - 1] == a + b[..|b| - 1];
    }
  }

  lemma {:induction false} OfNone(finished: seq<Finish>, keys: set<Key>)
    requires forall k | 0 <= k < |finished| :: finished[k].key !in keys
    ensures Of(finished, keys) == []
  {
    if |finished| > 0 {
      OfNone(finished[..|finished| - 1], keys);
    }
  }

  /** What the entries found completed report, in the order they were looked at. */
  function Reports(conns: Connections, w: World, keys: seq<Key>, statuses: map<Key, Observation>): seq<Finish>
    requires Elements(keys) <= w.entries.Keys
  {
    if |keys| == 0 then []
    else
      var front, key := keys[..|keys| - 1], Last(keys);
      assert key in Elements(keys) && Elements(front) <= Elements(keys);
      Reports(conns, w, front, statuses)
      + if StatusOf(conns, statuses, key).Completed? then [FinishOf(w.threads, key, w.entries[key])] else []
  }

  lemma OfOne(before: seq<Finish>, finish: Finish, after: seq<Finish>, tracked: set<Key>)
    requires before + [finish] <= after && finish.key in tracked
    requires forall k | |before| < k < |after| :: after[k].key !in tracked
    ensures Of(after[|before|..], tracked) == [finish]
  {
    var more := after[|before| + 1..];
    assert after[|before|] == (before + [finish])[|before|] == finish;
    assert after[|before|..] == [finish] + more;
    OfConcat([finish], more, tracked);
    OfNone(more, tracked);
    assert [finish][..0] == [];
    assert Of([finish], tracked) == [finish];
  }

  lemma SweptOneReports(conns: Connections, w: World, tracked: set<Key>, key: Key, entry: P.Entry, status: Observation,
                        now: real, staleAfter: real, supply: seq<Answer>)
    requires Fresh(w.seen, supply) && tracked <= w.seen && key in tracked
    ensures
      var v := SweptOne(conns, w, key, entry, status, now, staleAfter, supply).world;
      && w.finished <= v.finished
      && Of(v.finished[|w.finished|..], tracked) == (if status.Completed? then [FinishOf(w.threads, key, entry)] else [])
  {
    var v := Looked(conns, w, key, entry, status, now);
    if status.Completed? {
      var finish := FinishOf(w.threads, key, entry);
      var u := AllRouted(conns, v, Finished(finish), now, staleAfter, supply).world;
      CascadeTrail(conns, v, Finished(finish), now, staleAfter, supply);
      CascadeReportsNew(conns, v, Finished(finish), now, staleAfter, supply);
      OfOne(w.finished, finish, u.finished, tracked);
    } else {
      assert v.finished[|w.finished|..] == [];
    }
  }

  /** Of the Threads tracked at its start, a sweep reports exactly the completed ones, each once. */
  lemma {:induction false} FinishesOfSweep(conns: Connections, w: World, keys: seq<Key>, statuses: map<Key, Observation>,
                                           now: real, staleAfter: real, supply: seq<Answer>)
    requires Fresh(w.seen, supply) && w.entries.Keys <= w.seen && Elements(keys) <= w.entries.Keys && NoDup(keys)
    ensures
      var v := SweptAll(conns, w, w.entries, keys, statuses, now, staleAfter, supply).world;
      w.finished <= v.finished && Of(v.finished[|w.finished|..], w.entries.Keys) == Reports(conns, w, keys, statuses)
  {
    if |keys| == 0 {
      assert w.finished[|w.finished|..] == [];
    } else {
      var front, key := keys[..|keys| - 1], Last(keys);
      FrontOf(keys);
      FinishesOfSweep(conns, w, front, statuses, now, staleAfter, supply);
      EntriesAfterSweep(conns, w, front, statuses, now, staleAfter, supply);
      ThreadsAfterSweep(conns, w, front, statuses, now, staleAfter, supply);
      var s := SweptAll(conns, w, w.entries, front, statuses, now, staleAfter, supply);
      SweptOneReports(conns, s.world, w.entries.Keys, key, w.entries[key], StatusOf(conns, statuses, key), now, staleAfter, s.rest);
      var v := SweptOne(conns, s.world, key, w.entries[key], StatusOf(conns, statuses, key), now, staleAfter, s.rest).world;
      assert SameThread(s.world, w, key);
      OfOn(w.finished, s.world.finished, v.finished, w.entries.Keys);
    }
  }

  lemma OfOn(a: seq<Finish>, b: seq<Finish>, c: seq<Finish>, keys: set<Key>)
    requires a <= b <= c
    ensures a <= c && Of(c[|a|..], keys) == Of(b[|a|..], keys) + Of(c[|b|..], keys)
  {
    assert c[|a|..] == b[|a|..] + c[|b|..];
    OfConcat(b[|a|..], c[|b|..], keys);
  }

  // ---------------------------------------------------------------- submissions

  function Allowance(finished: seq<Finish>): nat {
    if |finished| == 0 then 0 else Allowance(finished[..|finished| - 1]) + Room(Finished(Last(finished)))
  }

  lemma {:induction false} AllowanceBound(finished: seq<Finish>)
    ensures Allowance(finished) <= MAX_CASCADE_DEPTH * |finished|
  {
    if |finished| > 0 {
      AllowanceBound(finished[..|finished| - 1]);
    }
  }

  /** Every submission since answers the report of some finish. */
  ghost predicate AllCaused(w: World, v: World) {
    && w.submissions <= v.submissions && w.finished <= v.finished
    && forall k | |w.submissions| <= k < |v.submissions| :: AnswersOne(v.submissions[k].routing, v.finished)
  }

  ghost predicate AnswersOne(r: Routing, finished: seq<Finish>) {
    exists i | 0 <= i < |finished| :: MadeFor(r, Finished(finished[i]))
  }

  lemma AnswersMore(r: Routing, finished: seq<Finish>, more: seq<Finish>)
    requires AnswersOne(r, finished) && finished <= more
    ensures AnswersOne(r, more)
  {
    var i :| 0 <= i < |finished| && MadeFor(r, Finished(finished[i]));
    assert more[i] == finished[i];
  }

  lemma SweptOneSubmits(conns: Connections, w: World, key: Key, entry: P.Entry, status: Observation, now: real, staleAfter: real, supply: seq<Answer>)
    ensures
      var v := SweptOne(conns, w, key, entry, status, now, staleAfter, supply).world;
      && AllCaused(w, v)
      && |v.submissions| <= |w.submissions| + (if status.Completed? then Room(Finished(FinishOf(w.threads, key, entry))) else 0)
  {
    var v := Looked(conns, w, key, entry, status, now);
    if status.Completed? {
      var finish := FinishOf(w.threads, key, entry);
      var u := AllRouted(conns, v, Finished(finish), now, staleAfter, supply).world;
      CascadeTrail(conns, v, Finished(finish), now, staleAfter, supply);
      var made, ended := u.submissions[|v.submissions|..], u.finished[|v.finished|..];
      EachIsCaused(made, ended, Finished(finish));
      forall k | |w.submissions| <= k < |u.submissions|
        ensures AnswersOne(u.submissions[k].routing, u.finished)
      {
        var j := k - |w.submissions|;
        assert made[j] == u.submissions[k];
        if j == 0 {
          assert u.finished[|w.finished|] == v.finished[|w.finished|] == finish;
        } else {
          assert Caused(made, ended, j);
          assert u.finished[|v.finished| + j - 1] == ended[j - 1];
        }
      }
    }
  }

  /** A sweep submits nothing but answers to finishes, no more than the depths left to those it found completed. */
  lemma {:induction false} SubmissionsOfSweep(conns: Connections, w: World, keys: seq<Key>, statuses: map<Key, Observation>,
                                              now: real, staleAfter: real, supply: seq<Answer>)
    requires Fresh(w.seen, supply) && w.entries.Keys <= w.seen && Elements(keys) <= w.entries.Keys && NoDup(keys)
    ensures
      var v := SweptAll(conns, w, w.entries, keys, statuses, now, staleAfter, supply).world;
      AllCaused(w, v) && |v.submissions| <= |w.submissions| + Allowance(Reports(conns, w, keys, statuses))
  {
    if |keys| > 0 {
      var front, key := keys[..|keys| - 1], Last(keys);
      var status := StatusOf(conns, statuses, key);
      FrontOf(keys);
      SubmissionsOfSweep(conns, w, front, statuses, now, staleAfter, supply);
      ThreadsAfterSweep(conns, w, front, statuses, now, staleAfter, supply);
      var s := SweptAll(conns, w, w.entries, front, statuses, now, staleAfter, supply);
      SweptOneSubmits(conns, s.world, key, w.entries[key], status, now, staleAfter, s.rest);
      assert SameThread(s.world, w, key);
      CausedOn(w, s.world, SweptOne(conns, s.world, key, w.entries[key], status, now, staleAfter, s.rest).world);
      AllowanceOn(Reports(conns, w, front, statuses), FinishOf(w.threads, key, w.entries[key]));
      assert !status.Completed? ==> Reports(conns, w, front, statuses) + [] == Reports(conns, w, front, statuses);
    }
  }

  lemma AllowanceOn(finished: seq<Finish>, finish: Finish)
    ensures Allowance(finished + [finish]) == Allowance(finished) + Room(Finished(finish))
  {
    assert (finished + [finish])[..|finished|] == finished;
  }

  lemma CausedOn(w: World, u: World, v: World)
    requires AllCaused(w, u) && AllCaused(u, v)
    ensures AllCaused(w, v)
  {
    forall k | |w.submissions| <= k < |v.submissions|
      ensures AnswersOne(v.submissions[k].routing, v.finished)
    {
      if k < |u.submissions| {
        assert v.submissions[k] == u.submissions[k];
        AnswersMore(u.submissions[k].routing, u.finished, v.finished);
      }
    }
  }

  // ---------------------------------------------------------------- claims

  /** A pair given back by one of these entries. */
  ghost predicate FreedBy(conns: Connections, entries: P.Entries, keys: seq<Key>, statuses: map<Key, Observation>, pair: Pair) {
    exists key | key in keys && key in entries :: Frees(entries[key], StatusOf(conns, statuses, key), pair)
  }

  predicate Frees(entry: P.Entry, status: Observation, pair: Pair) {
    entry.concurrencyHeld && Settles(status) && PairOf(entry) == pair
  }

  /** A Run tracked since holds the pair. */
  ghost predicate HeldSince(w: World, v: World, pair: Pair) {
    exists key | key in v.entries && key !in w.seen :: Holds(v.entries[key], pair)
  }

  lemma SweptOneClaims(conns: Connections, w: World, key: Key, entry: P.Entry, status: Observation, now: real, staleAfter: real,
                       supply: seq<Answer>, pair: Pair)
    requires Fresh(w.seen, supply) && pair in SweptOne(conns, w, key, entry, status, now, staleAfter, supply).world.claims
    ensures
      var v := SweptOne(conns, w, key, entry, status, now, staleAfter, supply).world;
      (pair in w.claims && !Frees(entry, status, pair)) || HeldSince(w, v, pair)
  {
    var v := Looked(conns, w, key, entry, status, now);
    if status.Completed? {
      NoPairLeaks(conns, v, Finished(FinishOf(w.threads, key, entry)), now, staleAfter, supply);
      var u := AllRouted(conns, v, Finished(FinishOf(w.threads, key, entry)), now, staleAfter, supply).world;
      assert Accounted(v, u, pair);
    }
  }

  lemma SweptOneSees(conns: Connections, w: World, key: Key, entry: P.Entry, status: Observation, now: real, staleAfter: real, supply: seq<Answer>)
    requires Fresh(w.seen, supply) && w.entries.Keys <= w.seen
    ensures
      var v := SweptOne(conns, w, key, entry, status, now, staleAfter, supply).world;
      v.entries.Keys <= v.seen
  {
    var v := Looked(conns, w, key, entry, status, now);
    assert v.entries.Keys <= w.entries.Keys;
    if status.Completed? {
      CascadeReportsNew(conns, v, Finished(FinishOf(w.threads, key, entry)), now, staleAfter, supply);
    }
  }

  /**
   After a sweep the pair of every held entry found paused or ended is free, unless a Run started
   since holds it; and no pair is claimed that was not, but by such a Run.
   */
  lemma {:induction false} ClaimsAfterSweep(conns: Connections, w: World, keys: seq<Key>, statuses: map<Key, Observation>,
                                            now: real, staleAfter: real, supply: seq<Answer>)
    requires Fresh(w.seen, supply) && w.entries.Keys <= w.seen && Elements(keys) <= w.entries.Keys && NoDup(keys)
    ensures
      var v := SweptAll(conns, w, w.entries, keys, statuses, now, staleAfter, supply).world;
      v.entries.Keys <= v.seen && forall pair | pair in v.claims ::
        (pair in w.claims && !FreedBy(conns, w.entries, keys, statuses, pair)) || HeldSince(w, v, pair)
  {
    if |keys| > 0 {
      var front, key := keys[..|keys| - 1], Last(keys);
      var entry, status := w.entries[key], StatusOf(conns, statuses, key);
      FrontOf(keys);
      ClaimsAfterSweep(conns, w, front, statuses, now, staleAfter, supply);
      EntriesAfterSweep(conns, w, front, statuses, now, staleAfter, supply);
      var s := SweptAll(conns, w, w.entries, front, statuses, now, staleAfter, supply);
      var v := SweptOne(conns, s.world, key, entry, status, now, staleAfter, s.rest).world;
      assert SameEntry(s.world.entries, w.entries, key);
      SweptOneStands(conns, s.world, key, entry, status, now, staleAfter, s.rest);
      SweptOneSees(conns, s.world, key, entry, status, now, staleAfter, s.rest);
      forall pair | pair in v.claims
        ensures (pair in w.claims && !FreedBy(conns, w.entries, keys, statuses, pair)) || HeldSince(w, v, pair)
      {
        SweptOneClaims(conns, s.world, key, entry, status, now, staleAfter, s.rest, pair);
        ClaimOn(conns, w, s.world, v, keys, statuses, pair);
      }
    }
  }

  lemma ClaimOn(conns: Connections, w: World, u: World, v: World, keys: seq<Key>, statuses: map<Key, Observation>, pair: Pair)
    requires |keys| > 0 && Last(keys) in w.entries && Last(keys) in w.seen && w.seen <= u.seen && u.entries.Keys <= u.seen
    requires (pair in u.claims && !Frees(w.entries[Last(keys)], StatusOf(conns, statuses, Last(keys)), pair)) || HeldSince(u, v, pair)
    requires pair in u.claims ==> (pair in w.claims && !FreedBy(conns, w.entries, keys[..|keys| - 1], statuses, pair)) || HeldSince(w, u, pair)
    requires forall k | k in u.seen && k != Last(keys) :: SameEntry(v.entries, u.entries, k)
    ensures (pair in w.claims && !FreedBy(conns, w.entries, keys, statuses, pair)) || HeldSince(w, v, pair)
  {
    if HeldSince(u, v, pair) {
      var k :| k in v.entries && k !in u.seen && Holds(v.entries[k], pair);
      assert k !in w.seen;
    } else if HeldSince(w, u, pair) {
      var k :| k in u.entries && k !in w.seen && Holds(u.entries[k], pair);
      assert SameEntry(v.entries, u.entries, k);
    } else {
      FrontOf(keys);
      forall k | k in keys && k in w.entries
        ensures !Frees(w.entries[k], StatusOf(conns, statuses, k), pair)
      {
        if k != Last(keys) {
          assert k in Elements(keys[..|keys| - 1]);
        }
      }
    }
  }
}
