/** cli.py: a Yahoo run, from the batch to the mailbox. */
module YahooRuns {
  import opened Mail
  import opened Ledger
  import opened Protocol
  import opened PreferenceStore
  import opened Stages
  import opened Scan
  import opened Cleanup
  import opened Batch
  import opened Recovery
  import opened Runs

  // ---- the selection ----

  // What the selection has chosen: proposals of the batch and pending recovered ones, and among them every
  // proposal of the batch that could be acted on.
  ghost predicate Chosen(m: Machine, s: Settings, supply: Supply, final: seq<ScanResult>, pending: seq<Candidate>) {
    && AllAssessed(m, KeysOf(pending, s.profile))
    && (forall k :: k in KeysOf(pending, s.profile) ==>
          k in ProposedKeys(final, s.profile, Allowed(s, supply)) || IsRecovered(m.tables, s, supply, k))
    && CleanableAmong(m, ProposedKeys(final, s.profile, Allowed(s, supply))) <= Elements(KeysOf(pending, s.profile))
  }

  // A selection for the places a batch of its own leaves over misses none of the pending candidates that would have
  // fitted, exactly when the batch is not in the way.
  ghost predicate FillsPlaces(
    t: Tables, s: Settings, supply: Supply, places: nat, own: set<RowKey>, pending: seq<Candidate>)
  {
    |pending| == s.limit || Covered(t, s, supply, places, KeysOf(pending, s.profile))
    <==> !CrowdedOut(t, s, supply, places, own)
  }

  ghost predicate Complete(m: Machine, s: Settings, supply: Supply, final: seq<ScanResult>, pending: seq<Candidate>) {
    var taken := Actionable(m, s, supply, final);
    && taken <= s.limit
    && FillsPlaces(m.tables, s, supply, s.limit - taken,
                   CleanableAmong(m, ProposedKeys(final, s.profile, Allowed(s, supply))), pending)
  }

  lemma KeysOfMore(pending: seq<Candidate>, c: Candidate, profile: string)
    ensures KeysOf(pending + [c], profile) == KeysOf(pending, profile) + [RowKey(c.message, profile)]
  {
  }

  lemma NotYetProposed(s: Settings, supply: Supply, final: seq<ScanResult>, i: nat)
    requires i < |final| && NoDuplicates(KeysOfResults(final, s.profile))
    ensures Key(final[i], s.profile) !in ProposedKeys(final[..i], s.profile, Allowed(s, supply))
  {
    var k := Key(final[i], s.profile);
    InProposedKeys(final[..i], s.profile, Allowed(s, supply), k);
    forall j | 0 <= j < i ensures Key(final[..i][j], s.profile) != k {
      assert KeysOfResults(final, s.profile)[j] != KeysOfResults(final, s.profile)[i];
    }
  }

  // The candidates of the keys that can be acted on, each once.
  ghost predicate Selects(m: Machine, keys: seq<RowKey>, pending: seq<Candidate>, profile: string) {
    |pending| == CallCount(m, keys) && Elements(KeysOf(pending, profile)) == CleanableAmong(m, keys)
  }

  lemma SelectsMore(m: Machine, keys: seq<RowKey>, pending: seq<Candidate>, c: Candidate, profile: string)
    requires Selects(m, keys, pending, profile) && RowKey(c.message, profile) !in keys
    ensures var key := RowKey(c.message, profile);
      Selects(m, keys + [key], if Cleanable(m.tables, key, m.session.protecting) then pending + [c] else pending,
              profile)
  {
    var key := RowKey(c.message, profile);
    KeysOfMore(pending, c, profile);
    assert (keys + [key])[..|keys|] == keys;
    assert forall k :: k in keys + [key] <==> k in keys || k == key;
    assert forall k :: k in KeysOf(pending, profile) + [key] <==> k in KeysOf(pending, profile) || k == key;
    if Cleanable(m.tables, key, m.session.protecting) {
      assert CleanableAmong(m, keys + [key]) == CleanableAmong(m, keys) + {key};
    } else {
      assert CleanableAmong(m, keys + [key]) == CleanableAmong(m, keys);
    }
  }

  // The loop over the batch: the proposals that could be acted on now, in order.
  method SelectFromBatch(store: PreferenceStore, s: Settings, supply: Supply, final: seq<ScanResult>)
    returns (pending: seq<Candidate>)
    requires SessionOf(store.Now(), s) && BatchReady(store.Now(), final, s.profile)
    requires NoDuplicates(KeysOfResults(final, s.profile))
    ensures Selects(store.Now(), ProposedKeys(final, s.profile, Allowed(s, supply)), pending, s.profile)
    ensures |pending| <= |final|
  {
    pending := [];
    SelectsNothing(store.Now(), s.profile);
    var i := 0;
    while i < |final|
      invariant 0 <= i <= |final| && |pending| <= i
      invariant Selects(store.Now(), ProposedKeys(final[..i], s.profile, Allowed(s, supply)), pending, s.profile)
    {
      pending := SelectOne(store, s, supply, final, i, pending);
      i := i + 1;
    }
    assert final[..|final|] == final;
  }

  lemma SelectsNothing(m: Machine, profile: string)
    ensures Selects(m, [], [], profile)
  {
    assert CleanableAmong(m, []) == {} == Elements<RowKey>([]);
  }

  // One round of the loop.
  method SelectOne(
    store: PreferenceStore, s: Settings, supply: Supply, final: seq<ScanResult>, i: nat, pending: seq<Candidate>)
    returns (pending': seq<Candidate>)
    requires SessionOf(store.Now(), s) && BatchReady(store.Now(), final, s.profile) && i < |final|
    requires NoDuplicates(KeysOfResults(final, s.profile))
    requires Selects(store.Now(), ProposedKeys(final[..i], s.profile, Allowed(s, supply)), pending, s.profile)
    ensures Selects(store.Now(), ProposedKeys(final[..i + 1], s.profile, Allowed(s, supply)), pending', s.profile)
    ensures |pending'| <= |pending| + 1
  {
    var r := final[i];
    ProposedLast(final, i, s.profile, Allowed(s, supply));
    NotYetProposed(s, supply, final, i);
    assert Assessed(store.Now(), Key(r, s.profile));
    var ready := ReadyForCleanup(store, Key(r, s.profile));
    pending' := pending;
    if r.decision.action == Quarantine && (s.direct || Permits(supply.allowed, r.category)) {
      SelectsMore(store.Now(), ProposedKeys(final[..i], s.profile, Allowed(s, supply)), pending,
                  Candidate(r.message, r.unread), s.profile);
      if ready {
        pending' := pending + [Candidate(r.message, r.unread)];
      }
    }
  }

  // The recovered candidates whose message is not pending already.
  function Unlisted(found: seq<Candidate>, pending: seq<Candidate>): (added: seq<Candidate>)
    ensures |added| <= |found|
  {
    if found == [] then []
    else
      Unlisted(found[..|found| - 1], pending)
      + if Lists(pending, found[|found| - 1].message) then [] else [found[|found| - 1]]
  }

  lemma {:induction false} UnlistedMeans(found: seq<Candidate>, pending: seq<Candidate>)
    ensures forall c :: c in Unlisted(found, pending) <==> c in found && !Lists(pending, c.message)
    ensures |Unlisted(found, pending)| == |found| <==> forall c :: c in found ==> !Lists(pending, c.message)
  {
    if found != [] {
      UnlistedMeans(found[..|found| - 1], pending);
      assert forall c :: c in found <==> c in found[..|found| - 1] || c == found[|found| - 1];
    }
  }

  lemma ListsMeans(candidates: seq<Candidate>, m: MessageKey, profile: string)
    ensures Lists(candidates, m) <==> RowKey(m, profile) in KeysOf(candidates, profile)
  {
    var keys := KeysOf(candidates, profile);
    if Lists(candidates, m) {
      var j :| 0 <= j < |candidates| && candidates[j].message == m;
      assert keys[j] == RowKey(m, profile);
    }
    if RowKey(m, profile) in keys {
      var j :| 0 <= j < |keys| && keys[j] == RowKey(m, profile);
      assert candidates[j].message == m;
    }
  }

  // What was recovered before has other ids.
  lemma KnownIds(pending: seq<Candidate>, found: seq<Candidate>, i: nat, merged: seq<Candidate>)
    requires i < |found| && forall i, j :: 0 <= i < j < |found| ==> found[i].message != found[j].message
    requires merged == pending + Unlisted(found[..i], pending)
    ensures Lists(merged, found[i].message) <==> Lists(pending, found[i].message)
  {
    UnlistedMeans(found[..i], pending);
    if Lists(pending, found[i].message) {
      var j :| 0 <= j < |pending| && pending[j].message == found[i].message;
      assert merged[j] == pending[j];
    }
    if Lists(merged, found[i].message) {
      var j :| 0 <= j < |merged| && merged[j].message == found[i].message;
      if j >= |pending| {
        assert merged[j] in Unlisted(found[..i], pending);
      }
    }
  }

  // known_ids: a recovered id that is already pending is not added again; the rest is cut at the limit.
  method MergeCandidates(pending: seq<Candidate>, found: seq<Candidate>, limit: nat) returns (merged: seq<Candidate>)
    requires |pending| <= limit && forall i, j :: 0 <= i < j < |found| ==> found[i].message != found[j].message
    ensures merged == FirstOf(pending + Unlisted(found, pending), limit)
  {
    merged := pending;
    var i := 0;
    while i < |found|
      invariant 0 <= i <= |found| && merged == pending + Unlisted(found[..i], pending)
    {
      assert found[..i + 1][..i] == found[..i];
      KnownIds(pending, found, i, merged);
      if !Lists(merged, found[i].message) {
        merged := merged + [found[i]];
      }
      i := i + 1;
    }
    assert found[..|found|] == found;
    if |merged| > limit {
      merged := merged[..limit];
    }
  }

  lemma MergedKeys(batch: seq<Candidate>, found: seq<Candidate>, merged: seq<Candidate>, profile: string, c: Candidate)
    requires merged == batch + Unlisted(found, batch)
    ensures c in found || RowKey(c.message, profile) in KeysOf(batch, profile) ==>
      RowKey(c.message, profile) in KeysOf(merged, profile)
  {
    UnlistedMeans(found, batch);
    ListsMeans(batch, c.message, profile);
    ListsMeans(merged, c.message, profile);
    if Lists(batch, c.message) {
      var j :| 0 <= j < |batch| && batch[j].message == c.message;
      assert merged[j] == batch[j];
    } else if c in found {
      var j :| 0 <= j < |Unlisted(found, batch)| && Unlisted(found, batch)[j] == c;
      assert merged[|batch| + j] == c;
    }
  }

  lemma FoundAreMerged(batch: seq<Candidate>, found: seq<Candidate>, merged: seq<Candidate>, profile: string)
    requires merged == batch + Unlisted(found, batch)
    ensures forall c :: c in found ==> RowKey(c.message, profile) in KeysOf(merged, profile)
  {
    forall c | c in found ensures RowKey(c.message, profile) in KeysOf(merged, profile) {
      MergedKeys(batch, found, merged, profile, c);
    }
  }

  // Every place is filled exactly when none of what was found is a proposal of the batch.
  lemma PlacesFilled(batch: seq<Candidate>, found: seq<Candidate>, profile: string)
    ensures |Unlisted(found, batch)| == |found| <==>
      forall i :: 0 <= i < |found| ==> RowKey(found[i].message, profile) !in KeysOf(batch, profile)
  {
    UnlistedMeans(found, batch);
    forall i | 0 <= i < |found|
      ensures found[i] in found
        && (Lists(batch, found[i].message) <==> RowKey(found[i].message, profile) in KeysOf(batch, profile))
    {
      ListsMeans(batch, found[i].message, profile);
    }
    assert forall c :: c in found ==> exists i :: 0 <= i < |found| && found[i] == c;
  }

  // A pending candidate that was not found is selected only as a proposal of the batch.
  lemma LeftOver(
    all: seq<Candidate>, places: nat, batch: seq<Candidate>, found: seq<Candidate>, merged: seq<Candidate>,
    profile: string, i: nat)
    requires places <= i < |all| && found == all[..places] && merged == batch + Unlisted(found, batch)
    requires NoDuplicates(KeysOf(all, profile))
    ensures RowKey(all[i].message, profile) in KeysOf(merged, profile)
      <==> RowKey(all[i].message, profile) in KeysOf(batch, profile)
  {
    UnlistedMeans(found, batch);
    MergedKeys(batch, found, merged, profile, all[i]);
    forall j | |batch| <= j < |merged| ensures merged[j].message != all[i].message {
      assert merged[j] in found;
      var n :| 0 <= n < places && all[n] == merged[j];
      assert KeysOf(all, profile)[n] != KeysOf(all, profile)[i];
    }
    ListsMeans(merged, all[i].message, profile);
    ListsMeans(batch, all[i].message, profile);
  }

  lemma AllOrTheRest(all: seq<Candidate>, places: nat, keys: seq<RowKey>, profile: string)
    requires places <= |all| && forall i :: 0 <= i < places ==> RowKey(all[i].message, profile) in keys
    ensures (forall c :: c in all ==> RowKey(c.message, profile) in keys)
      <==> forall i :: places <= i < |all| ==> RowKey(all[i].message, profile) in keys
  {
    assert forall i :: 0 <= i < |all| ==> all[i] in all;
  }

  // More is pending than there are places: which of them are filled, and which pending candidates are left.
  lemma MoreThanPlaces(
    all: seq<Candidate>, places: nat, batch: seq<Candidate>, found: seq<Candidate>, merged: seq<Candidate>,
    profile: string)
    requires places < |all| && found == all[..places] && merged == batch + Unlisted(found, batch)
    requires NoDuplicates(KeysOf(all, profile))
    ensures |merged| == |batch| + places <==>
      forall i :: 0 <= i < places ==> RowKey(all[i].message, profile) !in KeysOf(batch, profile)
    ensures (forall c :: c in all ==> RowKey(c.message, profile) in KeysOf(merged, profile)) <==>
      forall i :: places <= i < |all| ==> RowKey(all[i].message, profile) in KeysOf(batch, profile)
  {
    PlacesFilled(batch, found, profile);
    FoundAreMerged(batch, found, merged, profile);
    assert forall i :: 0 <= i < places ==> found[i] == all[i] && all[i] in found;
    forall i | places <= i < |all|
      ensures RowKey(all[i].message, profile) in KeysOf(merged, profile)
        <==> RowKey(all[i].message, profile) in KeysOf(batch, profile)
    {
      LeftOver(all, places, batch, found, merged, profile, i);
    }
    AllOrTheRest(all, places, KeysOf(merged, profile), profile);
  }

  // Which places the selection fills, and which pending candidates it leaves.
  lemma MergedIsComplete(
    t: Tables, s: Settings, supply: Supply, places: nat, own: set<RowKey>, batch: seq<Candidate>,
    found: seq<Candidate>, merged: seq<Candidate>)
    requires |batch| + places == s.limit && found == FirstOf(PendingFor(t, s, supply, places), places)
    requires merged == batch + Unlisted(found, batch) && own == Elements(KeysOf(batch, s.profile))
    ensures FillsPlaces(t, s, supply, places, own, merged)
  {
    var all := PendingFor(t, s, supply, places);
    CoveredMeans(t, s, supply, places, KeysOf(merged, s.profile));
    if |all| <= places {
      FoundAreMerged(batch, found, merged, s.profile);
    } else {
      PendingInOnce(t, s, supply, Listing(supply.inbox, Window(places)));
      MoreThanPlaces(all, places, batch, found, merged, s.profile);
    }
  }

  lemma MergedIsChosen(
    m: Machine, s: Settings, supply: Supply, final: seq<ScanResult>, batch: seq<Candidate>, found: seq<Candidate>,
    merged: seq<Candidate>)
    requires SessionOf(m, s) && AllPending(m.tables, found, s, supply)
    requires Elements(KeysOf(batch, s.profile)) == CleanableAmong(m, ProposedKeys(final, s.profile, Allowed(s, supply)))
    requires batch <= merged && forall c :: c in merged ==> c in batch || c in found
    ensures Chosen(m, s, supply, final, merged)
  {
    forall k | k in KeysOf(merged, s.profile)
      ensures Assessed(m, k)
      ensures k in ProposedKeys(final, s.profile, Allowed(s, supply)) || IsRecovered(m.tables, s, supply, k)
    {
      var i :| 0 <= i < |merged| && k == RowKey(merged[i].message, s.profile);
      assert merged[i] in merged;
      if merged[i] in batch {
        var j :| 0 <= j < |batch| && batch[j] == merged[i];
        assert KeysOf(batch, s.profile)[j] == k;
        assert k in Elements(KeysOf(batch, s.profile));
      } else {
        assert Pending(m.tables, merged[i], s, supply);
        StandsMeans(m.tables, merged[i], s, supply);
      }
    }
    forall k | k in Elements(KeysOf(batch, s.profile)) ensures k in Elements(KeysOf(merged, s.profile)) {
      var j :| 0 <= j < |batch| && KeysOf(batch, s.profile)[j] == k;
      assert merged[j] == batch[j] && KeysOf(merged, s.profile)[j] == k;
    }
  }

  method SelectPending(store: PreferenceStore, s: Settings, supply: Supply, final: seq<ScanResult>)
    returns (pending: seq<Candidate>)
    requires SessionOf(store.Now(), s) && BatchReady(store.Now(), final, s.profile) && |final| <= s.limit
    requires NoDuplicates(KeysOfResults(final, s.profile))
    ensures |pending| <= s.limit && Chosen(store.Now(), s, supply, final, pending)
    ensures Complete(store.Now(), s, supply, final, pending)
  {
    var batch := SelectFromBatch(store, s, supply, final);
    var found: seq<Candidate> := [];
    if s.limit > |batch| {
      found := PrepareCandidates(store, s, supply, s.limit - |batch|);
    }
    DistinctKeys(found, s.profile);
    pending := MergeCandidates(batch, found, s.limit);
    MergedIsWhole(found, batch, s.limit);
    MergedIsChosen(store.Now(), s, supply, final, batch, found, pending);
    SelectionIsComplete(store.Now(), s, supply, final, batch, found, pending);
  }

  lemma DistinctKeys(found: seq<Candidate>, profile: string)
    requires NoDuplicates(KeysOf(found, profile))
    ensures forall i, j :: 0 <= i < j < |found| ==> found[i].message != found[j].message
  {
    assert forall i, j :: 0 <= i < j < |found| ==> KeysOf(found, profile)[i] != KeysOf(found, profile)[j];
  }

  lemma MergedIsWhole(found: seq<Candidate>, batch: seq<Candidate>, limit: nat)
    requires |batch| + |found| <= limit
    ensures FirstOf(batch + Unlisted(found, batch), limit) == batch + Unlisted(found, batch)
    ensures forall c :: c in batch + Unlisted(found, batch) ==> c in batch || c in found
  {
    UnlistedMeans(found, batch);
  }

  lemma SelectionIsComplete(
    m: Machine, s: Settings, supply: Supply, final: seq<ScanResult>, batch: seq<Candidate>, found: seq<Candidate>,
    pending: seq<Candidate>)
    requires |batch| <= s.limit && pending == batch + Unlisted(found, batch)
    requires Selects(m, ProposedKeys(final, s.profile, Allowed(s, supply)), batch, s.profile)
    requires found == FirstOf(PendingFor(m.tables, s, supply, s.limit - |batch|), s.limit - |batch|)
    ensures Complete(m, s, supply, final, pending)
  {
    MergedIsComplete(m.tables, s, supply, s.limit - |batch|,
                     CleanableAmong(m, ProposedKeys(final, s.profile, Allowed(s, supply))), batch, found, pending);
  }

  // ---- the mailbox phase ----

  method RecordFailedMarkers(store: PreferenceStore, ids: seq<RowKey>)
    requires store.Settled()
    modifies store
    ensures store.Settled() && old(store.trace) <= store.trace
    ensures OnlyMarked(old(store.Now()), store.Now(), Elements(ids)) && store.done == old(store.done)
  {
    ReopenTwice(store.shadow, {}, {});
    var i := 0;
    while i < |ids|
      invariant 0 <= i <= |ids| && store.Settled() && old(store.trace) <= store.trace
      invariant OnlyMarked(old(store.Now()), store.Now(), Elements(ids[..i]))
      invariant store.done == old(store.done)
    {
      assert ids[..i + 1] == ids[..i] + [ids[i]];
      assert Elements(ids[..i + 1]) == Elements(ids[..i]) + {ids[i]};
      ReopenTwice(old(store.shadow), Elements(ids[..i]), {ids[i]});
      store.RecordThreatMarkerExecution(ids[i], MarkerFailed);
      i := i + 1;
    }
    assert ids[..|ids|] == ids;
  }

  // A marker connection that cannot be opened counts as a failure of every marker.
  method YahooMarkers(store: PreferenceStore, s: Settings, supply: Supply, ghost keys: seq<MessageKey>,
                      ids: seq<RowKey>)
    returns (marked: nat, ghost failed: set<RowKey>)
    requires store.Settled() && store.session.mutating && NoDuplicates(ids)
    requires supply.Valid() && s.apply && s.provider != Gmail
    requires forall k :: k in ids <==> IsMarkerCandidate(AssessedOf(s, supply, keys), s.profile, k)
    modifies store
    ensures store.Settled() && old(store.trace) <= store.trace
    ensures OnlyMarked(old(store.Now()), store.Now(), failed) && AreFailed(s, supply, keys, failed)
    ensures store.done == old(store.done).Plus(Effects(0, 0, marked))
  {
    forall k ensures k in ids <==> k in RowsOf(keys, s.profile) && Flagged(s, supply.box.fetch(k.message)) {
      FlaggedInBatch(s, supply, keys, k);
    }
    if supply.markers {
      failed := FailedAmong(ids, supply.failing);
      marked := ApplyVisibleThreatMarkers(store, ids, supply.failing);
    } else {
      RecordFailedMarkers(store, ids);
      marked, failed := 0, Elements(ids);
    }
  }

  // Markers leave the selection as good as it was.
  lemma ChosenStays(
    m: Machine, m': Machine, s: Settings, supply: Supply, final: seq<ScanResult>, pending: seq<Candidate>,
    failed: set<RowKey>)
    requires Chosen(m, s, supply, final, pending) && OnlyMarked(m, m', failed)
    ensures Chosen(m', s, supply, final, pending)
  {
    MarkedStaysReady(m, m', final, s.profile, failed);
    RecoveredStays(m.tables, m'.tables, s, supply, failed);
  }

  lemma ChosenIsActedOn(
    m: Machine, m': Machine, s: Settings, supply: Supply, final: seq<ScanResult>, pending: seq<Candidate>)
    requires Chosen(m, s, supply, final, pending)
    requires OnlyExecuted(m, m', CleanableAmong(m, KeysOf(pending, s.profile)))
    ensures AllActedOn(m', s, supply, final) && ActedOn(m.tables, m'.tables, s, supply, final)
  {
    var acted := CleanableAmong(m, KeysOf(pending, s.profile));
    NoneLeft(m, m', s, supply, final, acted);
    ReopenTwice(m.tables.shadow, {}, {});
    RecoveredStays(m.tables, m'.tables, s, supply, {});
  }

  method YahooCleanup(store: PreferenceStore, s: Settings, pending: seq<Candidate>) returns (calls: nat, applied: nat)
    requires store.Settled() && store.session.mutating && AllAssessed(store.Now(), KeysOf(pending, s.profile))
    modifies store
    ensures store.Settled() && old(store.trace) <= store.trace
    ensures Cleaned(old(store.Now()), store.Now(), KeysOf(pending, s.profile), calls, applied)
  {
    calls, applied := 0, 0;
    ghost var keys := KeysOf(pending, s.profile);
    var i := 0;
    while i < |pending|
      invariant 0 <= i <= |pending| && store.Settled() && old(store.trace) <= store.trace
      invariant Cleaned(old(store.Now()), store.Now(), keys[..i], calls, applied)
    {
      var key := RowKey(pending[i].message, s.profile);
      assert key == keys[i] && keys[i] in keys && Assessed(old(store.Now()), key);
      calls, applied := CleanRound(store, key, s.direct, calls, applied, old(store.Now()), keys[..i]);
      assert keys[..i + 1] == keys[..i] + [key];
      i := i + 1;
    }
    assert keys[..|pending|] == keys;
  }

  method YahooActions(
    store: PreferenceStore, s: Settings, supply: Supply, ghost keys: seq<MessageKey>, assessed: seq<ScanResult>,
    ghost final: seq<ScanResult>, pending: seq<Candidate>)
    returns (marked: nat, ghost calls: nat, applied: nat, ghost failed: set<RowKey>)
    requires store.Settled() && store.session.mutating && supply.Valid() && s.apply && s.provider != Gmail
    requires assessed == AssessedOf(s, supply, keys) && final == FinalOf(s, supply, keys)
    requires Chosen(store.Now(), s, supply, final, pending)
    modifies store
    ensures store.Settled() && old(store.trace) <= store.trace && store.session == old(store.session)
    ensures store.done == old(store.done).Plus(Effects(calls, applied, marked))
    ensures applied <= calls <= |pending|
    ensures OnlyReopened(old(store.Contents()), store.Contents(), failed) && AreFailed(s, supply, keys, failed)
    ensures ActedOn(old(store.Contents()), store.Contents(), s, supply, final)
      && AllActedOn(store.Now(), s, supply, final)
    ensures store.executions.Keys
      == old(store.executions).Keys + CleanableAmong(old(store.Now()), KeysOf(pending, s.profile))
  {
    var ids := VisibleThreatMarkerIds(assessed, s.profile);
    marked, failed := YahooMarkers(store, s, supply, keys, ids);
    ghost var marks := store.Now();
    MarkedStaysReady(old(store.Now()), marks, final, s.profile, failed);
    ChosenStays(old(store.Now()), marks, s, supply, final, pending, failed);
    var made;
    made, applied := YahooCleanup(store, s, pending);
    calls := made;
    SameCleanable(old(store.Now()), marks, KeysOf(pending, s.profile));
    ReopenTwice(old(store.shadow), failed, {});
    ChosenIsActedOn(marks, store.Now(), s, supply, final, pending);
  }

  // In the end what was selected is covered, and nothing else.
  lemma CoveredExactly(
    m: Machine, t: Tables, s: Settings, supply: Supply, pending: seq<Candidate>, failed: set<RowKey>, places: nat)
    requires SessionOf(m, s) && OnlyReopened(m.tables, t, failed) && AllAssessed(m, KeysOf(pending, s.profile))
    requires t.executions.Keys == m.tables.executions.Keys + CleanableAmong(m, KeysOf(pending, s.profile))
    ensures Covered(t, s, supply, places, []) <==> Covered(m.tables, s, supply, places, KeysOf(pending, s.profile))
  {
    RecoveredStays(m.tables, t, s, supply, failed);
    forall c | Recoverable(m.tables, c, s, supply)
      ensures RowKey(c.message, s.profile) in t.executions <==>
        || RowKey(c.message, s.profile) in m.tables.executions
        || RowKey(c.message, s.profile) in KeysOf(pending, s.profile)
    {
    }
  }

  lemma SelectionRecovers(
    m: Machine, t: Tables, s: Settings, supply: Supply, final: seq<ScanResult>, pending: seq<Candidate>,
    failed: set<RowKey>)
    requires Complete(m, s, supply, final, pending) && SessionOf(m, s) && s.provider != Gmail
    requires OnlyReopened(m.tables, t, failed) && AllAssessed(m, KeysOf(pending, s.profile))
    requires t.executions.Keys == m.tables.executions.Keys + CleanableAmong(m, KeysOf(pending, s.profile))
    ensures Recovered(m, t, s, supply, final, |pending|)
  {
    var places := s.limit - Actionable(m, s, supply, final);
    CoveredExactly(m, t, s, supply, pending, failed, places);
    PendingStays(m.tables, t.(executions := m.tables.executions), s, supply, failed, places);
  }

  lemma FinalIsDistinct(s: Settings, supply: Supply, keys: seq<MessageKey>)
    requires supply.Valid() && NoDuplicates(keys)
    ensures NoDuplicates(KeysOfResults(FinalOf(s, supply, keys), s.profile))
  {
    var final := FinalOf(s, supply, keys);
    forall i | 0 <= i < |final| ensures Key(final[i], s.profile) == RowKey(keys[i], s.profile) {
      FinalAt(s, supply, keys, i);
    }
  }

  // The proposals are chosen before the mutation phase, and each is checked again right before its call.
  method YahooMailbox(
    store: PreferenceStore, s: Settings, supply: Supply, ghost keys: seq<MessageKey>, assessed: seq<ScanResult>,
    final: seq<ScanResult>)
    returns (r: Report, ghost calls: nat, ghost failed: set<RowKey>)
    requires store.Settled() && SessionOf(store.Now(), s) && s.provider != Gmail
    requires supply.Valid() && assessed == AssessedOf(s, supply, keys) && final == FinalOf(s, supply, keys)
    requires BatchReady(store.Now(), final, s.profile) && |final| <= s.limit && NoDuplicates(keys)
    modifies store
    ensures store.Settled() && old(store.trace) <= store.trace && store.session == old(store.session).(mutating := true)
    ensures Reported(old(store.done), store.done, calls, r, s.limit) && r.processed == |final|
    ensures !s.apply ==> store.done == old(store.done) && store.Contents() == old(store.Contents())
    ensures OnlyReopened(old(store.Contents()), store.Contents(), failed) && AreFailed(s, supply, keys, failed)
    ensures ActedOn(old(store.Contents()), store.Contents(), s, supply, final)
    ensures s.apply ==>
      && AllActedOn(store.Now(), s, supply, final)
      && Recovered(old(store.Now()), store.Contents(), s, supply, final, r.selected)
  {
    r, calls, failed := Report(|final|, 0, 0, 0, false), 0, {};
    if s.apply {
      FinalIsDistinct(s, supply, keys);
      var pending := SelectPending(store, s, supply, final);
      ghost var chosen := store.Now();
      store.StartMutations();
      var marked, applied;
      marked, calls, applied, failed := YahooActions(store, s, supply, keys, assessed, final, pending);
      r := Report(|final|, |pending|, applied, marked, applied > 0 || marked > 0);
      SelectionRecovers(chosen, store.Contents(), s, supply, final, pending, failed);
    } else {
      store.StartMutations();
      NothingDone(store.Contents(), s, supply, final);
    }
  }

  method YahooShadowRun(store: PreferenceStore, s: Settings, supply: Supply)
    returns (scan: Scan, r: Report, ghost calls: nat)
    requires store.Settled() && supply.Valid() && SessionOf(store.Now(), s) && s.provider != Gmail
    modifies store
    ensures store.Settled() && old(store.trace) <= store.trace
    ensures RunStep(old(store.Now()), store.Now(), s, supply, scan, calls, r)
    ensures scan.Scanned? ==> RunActs(old(store.Contents()), store.Contents(), s, supply, scan.keys, r.selected)
  {
    ghost var before := store.Now();
    EveryStateIsSound(store.start, store.trace);
    SkippedIsFinished(store.Contents(), s);
    r, calls := NO_REPORT, 0;
    var assessed, final;
    scan, assessed, final := ProcessBatch(store, s, supply);
    if scan.Scanned? {
      ghost var middle, failed := store.Now(), {};
      ScannedMessages(s, supply.box, Finished(before.tables, s));
      r, calls, failed := YahooMailbox(store, s, supply, scan.keys, assessed, final);
      RunConcluded(before, middle, store.Now(), s, supply, scan.keys, failed, calls, r);
      RunActed(before, middle, store.Now(), s, supply, scan.keys, failed, r.selected);
    }
  }

  // ---- a batch in its own way ----

  function Waiting(id: string): Candidate { Candidate(MessageKey("a", Yahoo, id), true) }

  const FIRST := RowKey(Waiting("1").message, "gemma26-v1")

  const SECOND := RowKey(Waiting("2").message, "gemma26-v1")

  // Two messages are to be quarantined, and nothing has been done with them.
  const BOTH_PROPOSED := EMPTY_TABLES.(
    shadow := map[FIRST := ShadowRow(Advertising, Quarantine, false, Some(true), "policy", true, false),
                  SECOND := ShadowRow(Advertising, Quarantine, false, Some(true), "policy", true, false)],
    threats := map[FIRST := Assessment(THREAT_ENGINE, ScreenClear, false, false, false),
                   SECOND := Assessment(THREAT_ENGINE, ScreenClear, false, false, false)])

  const TWO_PLACES := Settings(
    "a", Yahoo, "gemma26-v1", "policy", true, TechnicalOnly, false, true, false, false, 2, 2)

  // A limit of two, a batch that proposes the first, and an inbox that lists the first before the second: the place
  // that is left goes to the first again, and the second has to wait.
  lemma BatchInItsOwnWay(supply: Supply)
    requires supply.inbox == [[Waiting("1"), Waiting("2")]] && supply.allowed == None
    ensures CrowdedOut(BOTH_PROPOSED, TWO_PLACES, supply, 1, {FIRST})
  {
    var a, b := Waiting("1"), Waiting("2");
    assert "1" != "2";
    assert [[a, b]][..0] == [] && FirstOf([a, b], Window(1)) == [a, b];
    var listing := Listing(supply.inbox, Window(1));
    assert listing == [a, b] by {
      assert supply.inbox[..0] == [];
      assert Listing([], Window(1)) == [];
    }
    assert Pending(BOTH_PROPOSED, a, TWO_PLACES, supply) && Pending(BOTH_PROPOSED, b, TWO_PLACES, supply);
    assert listing[..1] == [a] && [a][..0] == [];
    assert PendingIn(BOTH_PROPOSED, TWO_PLACES, supply, [a]) == [a];
    assert !Lists([a], b.message);
    assert PendingFor(BOTH_PROPOSED, TWO_PLACES, supply, 1) == [a, b];
  }
}
