/** cli.py: a Gmail run, from the batch to the mailbox. */
module GmailRuns {
  import opened Mail
  import opened Ledger
  import opened Protocol
  import opened PreferenceStore
  import opened Stages
  import opened Scan
  import opened Cleanup
  import opened Batch
  import opened Recovery
  import opened Runs

  // All that is pending was found, and has been acted on.
  lemma RecoveredAll(t: Tables, t': Tables, s: Settings, supply: Supply, places: nat, found: seq<Candidate>)
    requires found == FirstOf(PendingFor(t, s, supply, places), places) && |found| < places
    requires t' == t.(executions := t'.executions) && t.executions.Keys <= t'.executions.Keys
    requires forall k :: k in KeysOf(found, s.profile) ==> k in t'.executions
    ensures Covered(t', s, supply, places, [])
  {
    forall c | c in PendingFor(t, s, supply, places)
      ensures RowKey(c.message, s.profile) in KeysOf(found, s.profile)
    {
      var j :| 0 <= j < |found| && found[j] == c;
      assert KeysOf(found, s.profile)[j] == RowKey(c.message, s.profile);
    }
    CoveredMeans(t, s, supply, places, KeysOf(found, s.profile));
    ReopenTwice(t.shadow, {}, {});
    CoveredStays(t, t', s, supply, {}, places, KeysOf(found, s.profile), []);
  }

  method GmailRecovery(store: PreferenceStore, s: Settings, supply: Supply, limit: nat)
    returns (selected: nat, applied: nat)
    requires store.Settled() && store.session.mutating && SessionOf(store.Now(), s) && limit > 0
    modifies store
    ensures store.Settled() && old(store.trace) <= store.trace
    ensures store.done == old(store.done).Plus(Effects(selected, applied, 0)) && applied <= selected <= limit
    ensures OnlyExecuted(old(store.Now()), store.Now(), store.executions.Keys)
    ensures forall k :: k in store.executions && k !in old(store.executions) ==>
      IsRecovered(store.Contents(), s, supply, k)
    ensures selected == limit || Covered(store.Contents(), s, supply, limit, [])
  {
    var found := PrepareCandidates(store, s, supply, limit);
    PendingIsReady(store.Now(), found, s, supply);
    PendingIsCleanable(store.Now(), found, s, supply);
    ElementsSize(KeysOf(found, s.profile));
    CallCountIsSize(store.Now(), KeysOf(found, s.profile));
    selected, applied := ApplyShadowQuarantineCandidates(store, found, s.profile, s.direct);
    forall k | k in store.executions && k !in old(store.executions)
      ensures IsRecovered(store.Contents(), s, supply, k)
    {
      assert k in KeysOf(found, s.profile);
      var i :| 0 <= i < |found| && k == RowKey(found[i].message, s.profile);
      assert found[i] in found && Pending(old(store.Contents()), found[i], s, supply);
      ReopenTwice(store.shadow, {}, {});
      StandsStays(old(store.Contents()), store.Contents(), {}, found[i], s, supply);
      StandsMeans(store.Contents(), found[i], s, supply);
    }
    if selected < limit {
      RecoveredAll(old(store.Contents()), store.Contents(), s, supply, limit, found);
    }
  }

  lemma NoneLeftLater(m: Machine, m': Machine, s: Settings, supply: Supply, final: seq<ScanResult>)
    requires AllActedOn(m, s, supply, final) && OnlyExecuted(m, m', m'.tables.executions.Keys)
    ensures AllActedOn(m', s, supply, final)
  {
    forall k | k in ProposedKeys(final, s.profile, Allowed(s, supply))
      ensures !Cleanable(m'.tables, k, m'.session.protecting)
    {
      assert k !in CleanableAmong(m, ProposedKeys(final, s.profile, Allowed(s, supply)));
      assert m.tables.executions.Keys <= m'.tables.executions.Keys;
    }
  }

  // The batch first, then as many recovered proposals as the limit leaves room for.
  method GmailCleanup(store: PreferenceStore, s: Settings, supply: Supply, final: seq<ScanResult>)
    returns (selected: nat, applied: nat)
    requires store.Settled() && store.session.mutating && SessionOf(store.Now(), s)
    requires BatchReady(store.Now(), final, s.profile) && |final| <= s.limit
    modifies store
    ensures store.Settled() && old(store.trace) <= store.trace && store.session == old(store.session)
    ensures store.done == old(store.done).Plus(Effects(selected, applied, 0))
    ensures applied <= selected <= s.limit
    ensures OnlyReopened(old(store.Contents()), store.Contents(), {})
    ensures ActedOn(old(store.Contents()), store.Contents(), s, supply, final)
    ensures AllActedOn(store.Now(), s, supply, final)
    ensures CaughtUp(store.Contents(), s, supply, selected, Actionable(old(store.Now()), s, supply, final))
  {
    ReopenTwice(store.shadow, {}, {});
    selected, applied := ApplyShadowQuarantineResults(store, final, s.profile, s.direct, Allowed(s, supply));
    ghost var middle := store.Now();
    ghost var batch := CleanableAmong(old(store.Now()), ProposedKeys(final, s.profile, Allowed(s, supply)));
    NoneLeft(old(store.Now()), middle, s, supply, final, batch);
    if s.limit > selected {
      var more, success := GmailRecovery(store, s, supply, s.limit - selected);
      NoneLeftLater(middle, store.Now(), s, supply, final);
      selected, applied := selected + more, applied + success;
    }
  }

  // The markers of the batch that fail.
  lemma FailedOfBatch(s: Settings, supply: Supply, keys: seq<MessageKey>, ids: seq<RowKey>, failing: set<MessageKey>)
    requires supply.Valid() && s.apply
    requires forall m :: m in failing <==> MarkerFails(s, supply, m)
    requires forall k :: k in ids <==> s.protecting && IsMarkerCandidate(FinalOf(s, supply, keys), s.profile, k)
    ensures AreFailed(s, supply, keys, FailedAmong(ids, failing))
  {
    forall k ensures k in ids <==> k in RowsOf(keys, s.profile) && Flagged(s, supply.box.fetch(k.message)) {
      FlaggedInBatch(s, supply, keys, k);
    }
  }

  method GmailMarkers(store: PreferenceStore, s: Settings, supply: Supply, ghost keys: seq<MessageKey>,
                      final: seq<ScanResult>)
    returns (marked: nat, ghost failed: set<RowKey>)
    requires store.Settled() && store.session.mutating && s.apply && s.provider == Gmail
    requires supply.Valid() && final == FinalOf(s, supply, keys) && BatchReady(store.Now(), final, s.profile)
    modifies store
    ensures store.Settled() && old(store.trace) <= store.trace && store.session == old(store.session)
    ensures store.done == old(store.done).Plus(Effects(0, 0, marked))
    ensures OnlyReopened(old(store.Contents()), store.Contents(), failed) && AreFailed(s, supply, keys, failed)
    ensures store.executions == old(store.executions) && BatchReady(store.Now(), final, s.profile)
    ensures SameGate(old(store.Now()), store.Now())
  {
    var ids := [];
    if s.protecting {
      ids := VisibleThreatMarkerIds(final, s.profile);
    }
    failed := FailedAmong(ids, supply.failing);
    FailedOfBatch(s, supply, keys, ids, supply.failing);
    marked := ApplyVisibleThreatMarkers(store, ids, supply.failing);
    MarkedStaysReady(old(store.Now()), store.Now(), final, s.profile, failed);
  }

  lemma {:induction false} NothingProposed(results: seq<ScanResult>, profile: string)
    ensures ProposedKeys(results, profile, Some({})) == []
  {
    if results != [] {
      NothingProposed(results[..|results| - 1], profile);
    }
  }

  lemma {:induction false} SameCallCount(m: Machine, m': Machine, keys: seq<RowKey>)
    requires SameGate(m, m')
    ensures CallCount(m', keys) == CallCount(m, keys)
  {
    if keys != [] {
      SameCallCount(m, m', keys[..|keys| - 1]);
      assert CanBeCleaned(m', keys[|keys| - 1]) <==> CanBeCleaned(m, keys[|keys| - 1]);
    }
  }

  lemma SameActionable(m: Machine, m': Machine, s: Settings, supply: Supply, final: seq<ScanResult>)
    requires SameGate(m, m')
    ensures Actionable(m', s, supply, final) == Actionable(m, s, supply, final)
  {
    SameCallCount(m, m', ProposedKeys(final, s.profile, Allowed(s, supply)));
  }

  // Markers, then cleanup unless the governor allows no category at all.
  method GmailActions(store: PreferenceStore, s: Settings, supply: Supply, ghost keys: seq<MessageKey>,
                      final: seq<ScanResult>)
    returns (marked: nat, selected: nat, applied: nat, ghost failed: set<RowKey>)
    requires store.Settled() && store.session.mutating && SessionOf(store.Now(), s)
    requires supply.Valid() && final == FinalOf(s, supply, keys) && s.apply && s.provider == Gmail
    requires BatchReady(store.Now(), final, s.profile) && |final| <= s.limit
    modifies store
    ensures store.Settled() && old(store.trace) <= store.trace && store.session == old(store.session)
    ensures store.done == old(store.done).Plus(Effects(selected, applied, marked))
    ensures applied <= selected <= s.limit
    ensures OnlyReopened(old(store.Contents()), store.Contents(), failed) && AreFailed(s, supply, keys, failed)
    ensures ActedOn(old(store.Contents()), store.Contents(), s, supply, final)
      && AllActedOn(store.Now(), s, supply, final)
    ensures CaughtUp(store.Contents(), s, supply, selected, Actionable(old(store.Now()), s, supply, final))
  {
    marked, failed := GmailMarkers(store, s, supply, keys, final);
    assert Actionable(store.Now(), s, supply, final) == Actionable(old(store.Now()), s, supply, final) by {
      SameActionable(old(store.Now()), store.Now(), s, supply, final);
    }
    selected, applied := 0, 0;
    if Allowed(s, supply) != Some({}) {
      selected, applied := GmailCleanup(store, s, supply, final);
      ReopenTwice(old(store.shadow), failed, {});
    } else {
      NothingProposed(final, s.profile);
      assert Covered(store.Contents(), s, supply, s.limit, []);
    }
  }

  // The mailbox phase.
  method GmailMailbox(store: PreferenceStore, s: Settings, supply: Supply, ghost keys: seq<MessageKey>,
                      final: seq<ScanResult>)
    returns (r: Report, ghost failed: set<RowKey>)
    requires store.Settled() && SessionOf(store.Now(), s) && s.provider == Gmail
    requires supply.Valid() && final == FinalOf(s, supply, keys) && BatchReady(store.Now(), final, s.profile)
    requires |final| <= s.limit
    modifies store
    ensures store.Settled() && old(store.trace) <= store.trace && store.session == old(store.session).(mutating := true)
    ensures Reported(old(store.done), store.done, r.selected, r, s.limit) && r.processed == |final|
    ensures !s.apply ==> store.done == old(store.done) && store.Contents() == old(store.Contents())
    ensures OnlyReopened(old(store.Contents()), store.Contents(), failed) && AreFailed(s, supply, keys, failed)
    ensures ActedOn(old(store.Contents()), store.Contents(), s, supply, final)
    ensures s.apply ==>
      && AllActedOn(store.Now(), s, supply, final)
      && Recovered(old(store.Now()), store.Contents(), s, supply, final, r.selected)
  {
    store.StartMutations();
    ghost var begun := store.Now();
    r, failed := Report(|final|, 0, 0, 0, false), {};
    if s.apply {
      var marked, selected, applied;
      marked, selected, applied, failed := GmailActions(store, s, supply, keys, final);
      r := Report(|final|, selected, applied, marked, applied > 0 || marked > 0);
      FewProposed(final, s.profile, Allowed(s, supply));
      assert Actionable(old(store.Now()), s, supply, final) == Actionable(begun, s, supply, final) by {
        SameActionable(old(store.Now()), begun, s, supply, final);
      }
    } else {
      NothingDone(store.Contents(), s, supply, final);
    }
  }

  method GmailShadowRun(store: PreferenceStore, s: Settings, supply: Supply) returns (scan: Scan, r: Report)
    requires store.Settled() && supply.Valid() && SessionOf(store.Now(), s) && s.provider == Gmail
    modifies store
    ensures store.Settled() && old(store.trace) <= store.trace
    ensures RunStep(old(store.Now()), store.Now(), s, supply, scan, r.selected, r)
    ensures scan.Scanned? ==> RunActs(old(store.Contents()), store.Contents(), s, supply, scan.keys, r.selected)
  {
    ghost var before := store.Now();
    EveryStateIsSound(store.start, store.trace);
    SkippedIsFinished(store.Contents(), s);
    r := NO_REPORT;
    var assessed, final;
    scan, assessed, final := ProcessBatch(store, s, supply);
    if scan.Scanned? {
      ghost var middle, failed := store.Now(), {};
      r, failed := GmailMailbox(store, s, supply, scan.keys, final);
      RunConcluded(before, middle, store.Now(), s, supply, scan.keys, failed, r.selected, r);
      RunActed(before, middle, store.Now(), s, supply, scan.keys, failed, r.selected);
    }
  }
}
