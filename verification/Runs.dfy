/** cli.py: what one run does, whichever provider it is of. */
module Runs {
  import opened Mail
  import opened Obsolescence
  import opened Ledger
  import opened Stages
  import opened Scan
  import opened Cleanup
  import opened Batch
  import opened Recovery

  datatype Report = Report(processed: nat, selected: nat, applied: nat, marked: nat, changes: bool)

  const NO_REPORT := Report(0, 0, 0, 0, false)

  // ---- what a run settles ----

  // Whether the marker of a message fails; a connection that cannot be opened counts as a failure of every marker.
  predicate MarkerFails(s: Settings, supply: Supply, m: MessageKey) {
    m in supply.failing || (s.provider != Gmail && !supply.markers)
  }

  // Whether a run is done with a message it scans, told from the message alone: its classification did not fall
  // back, and no marker of it failed.
  predicate Settles(s: Settings, supply: Supply, m: MessageKey)
    requires supply.box.fetch(m).Valid()
  {
    !supply.box.fetch(m).fallback && !(s.apply && Flagged(s, supply.box.fetch(m)) && MarkerFails(s, supply, m))
  }

  ghost function SettledOf(s: Settings, supply: Supply, keys: seq<MessageKey>): (settled: set<MessageKey>)
    requires supply.Valid()
  {
    set m | m in keys && Settles(s, supply, m)
  }

  // ... in the terms of its inputs: the model answered for it, and it needed no marker, or its marker did not fail.
  lemma SettledMeans(s: Settings, supply: Supply, keys: seq<MessageKey>, m: MessageKey)
    requires supply.Valid()
    ensures m in SettledOf(s, supply, keys) <==>
      && m in keys && !supply.box.fetch(m).fallback
      && (s.apply && s.protecting && FinalScore(supply.box.fetch(m), s.mode, s.backend) >= 40 ==>
            m !in supply.failing && (s.provider == Gmail || supply.markers))
  {
  }

  // The rows whose markers fail.
  ghost predicate AreFailed(s: Settings, supply: Supply, keys: seq<MessageKey>, failed: set<RowKey>)
    requires supply.Valid()
  {
    forall k :: k in failed <==>
      && s.apply && k in RowsOf(keys, s.profile)
      && Flagged(s, supply.box.fetch(k.message)) && MarkerFails(s, supply, k.message)
  }

  // A run is done with exactly what it was done with before and the messages it settled.
  lemma RunSettles(t: Tables, t1: Tables, t2: Tables, s: Settings, supply: Supply, keys: seq<MessageKey>,
                   failed: set<RowKey>)
    requires Sound(t) && supply.Valid() && ScanOf(s, supply.box, Finished(t, s)) == Scanned(keys)
    requires BatchDone(t, t1, s, supply, keys) && OnlyReopened(t1, t2, failed) && AreFailed(s, supply, keys, failed)
    ensures Finished(t2, s) == Finished(t, s) + SettledOf(s, supply, keys)
  {
    var t0 := AfterReset(t, s);
    SkippedIsFinished(t, s);
    ScannedMessages(s, supply.box, Finished(t, s));
    assert Confined(t0, t2, RowsOf(keys, s.profile)) by {
      assert Confined(t1, t2, RowsOf(keys, s.profile));
      ConfinedTwice(t0, t1, t2, RowsOf(keys, s.profile));
    }
    forall m | m in keys ensures RowIs(t2, s, m, m in SettledOf(s, supply, keys)) {
      assert RowIs(t1, s, m, !supply.box.fetch(m).fallback);
      assert RowKey(m, s.profile) in RowsOf(keys, s.profile);
    }
    FinishedGrows(t0, t2, s, keys, SettledOf(s, supply, keys));
  }

  // ---- the proposals of its batch ----

  // A message of the batch that is to be cleaned, told from the message: its proposal was not withdrawn, and was to
  // quarantine it or is overruled by a verified proof; and the governor leaves its category.
  predicate Proposes(s: Settings, supply: Supply, m: MessageKey)
    requires supply.box.fetch(m).Valid()
  {
    var r := supply.box.fetch(m);
    && !Overruled(s, supply, m) && (s.direct || supply.allowed.None? || r.category in supply.allowed.value)
    && (|| r.decision.action == Quarantine
        || (s.proofs && !s.direct && r.decision.action != Keep && Unprotected(r)
            && HoldsVerified(supply.proofs, RowKey(m, s.profile))))
  }

  lemma FinalProposes(s: Settings, supply: Supply, keys: seq<MessageKey>, i: nat)
    requires supply.Valid() && i < |keys|
    ensures var final := FinalOf(s, supply, keys);
      && Key(final[i], s.profile) == RowKey(keys[i], s.profile)
      && (Proposed(final[i], Allowed(s, supply)) <==> Proposes(s, supply, keys[i]))
  {
    var r := supply.box.fetch(keys[i]);
    FinalAt(s, supply, keys, i);
    AssessedAt(s, supply, keys, i);
    if s.proofs {
      ProofBatchAt(AssessedOf(s, supply, keys), supply.proofs, s.profile, s.direct, i);
    }
    if s.protecting {
      QuarantineAfterBothStages(r, s.mode, s.backend, supply.proofs, s.profile, s.direct);
      ThreatStageMeans(r, s.mode, s.backend);
    } else {
      AfterProofMeans(r, supply.proofs, s.profile, s.direct);
    }
  }

  lemma {:induction false} InProposedKeys(
    results: seq<ScanResult>, profile: string, allowed: Option<set<Category>>, k: RowKey)
    ensures k in ProposedKeys(results, profile, allowed) <==>
      exists i :: 0 <= i < |results| && Proposed(results[i], allowed) && Key(results[i], profile) == k
  {
    if results != [] {
      var n := |results| - 1;
      InProposedKeys(results[..n], profile, allowed, k);
      if i :| 0 <= i < n && Proposed(results[..n][i], allowed) && Key(results[..n][i], profile) == k {
        assert results[i] == results[..n][i];
      }
      if i :| 0 <= i < |results| && Proposed(results[i], allowed) && Key(results[i], profile) == k {
        if i < n {
          assert results[..n][i] == results[i];
        }
      }
    }
  }

  predicate IsProposed(s: Settings, supply: Supply, keys: seq<MessageKey>, k: RowKey)
    requires supply.box.fetch(k.message).Valid()
  {
    k.profile == s.profile && k.message in keys && Proposes(s, supply, k.message)
  }

  // The proposals of the final batch are exactly those messages.
  lemma ProposedMeans(s: Settings, supply: Supply, keys: seq<MessageKey>, k: RowKey)
    requires supply.Valid()
    ensures k in ProposedKeys(FinalOf(s, supply, keys), s.profile, Allowed(s, supply))
      <==> IsProposed(s, supply, keys, k)
  {
    var final := FinalOf(s, supply, keys);
    InProposedKeys(final, s.profile, Allowed(s, supply), k);
    forall i | 0 <= i < |final|
      ensures Key(final[i], s.profile) == RowKey(keys[i], s.profile)
      ensures Proposed(final[i], Allowed(s, supply)) <==> Proposes(s, supply, keys[i])
    {
      FinalProposes(s, supply, keys, i);
    }
    if IsProposed(s, supply, keys, k) {
      var i :| 0 <= i < |keys| && keys[i] == k.message;
      assert Key(final[i], s.profile) == k;
    }
  }

  // It was acted on, now or before, or the user asked to keep it.
  ghost predicate Handled(t: Tables, k: RowKey) {
    k in t.executions || (k.message in t.answers && t.answers[k.message] in {AnswerKeep, AnswerUnsure})
  }

  // ---- which messages it acts on ----

  // New execution rows are of proposals of the batch, or of stored proposals of the inbox that still stand.
  ghost predicate ActedOn(t: Tables, t': Tables, s: Settings, supply: Supply, final: seq<ScanResult>) {
    && t.executions.Keys <= t'.executions.Keys
    && forall k :: k in t'.executions && k !in t.executions ==>
         k in ProposedKeys(final, s.profile, Allowed(s, supply)) || IsRecovered(t', s, supply, k)
  }

  // No proposal of the batch that could be acted on has been passed over.
  ghost predicate AllActedOn(m: Machine, s: Settings, supply: Supply, final: seq<ScanResult>) {
    CleanableAmong(m, ProposedKeys(final, s.profile, Allowed(s, supply))) == {}
  }

  lemma NoneLeft(m: Machine, m': Machine, s: Settings, supply: Supply, final: seq<ScanResult>, acted: set<RowKey>)
    requires OnlyExecuted(m, m', acted)
    requires CleanableAmong(m, ProposedKeys(final, s.profile, Allowed(s, supply))) <= acted
    ensures AllActedOn(m', s, supply, final)
  {
    var keys := ProposedKeys(final, s.profile, Allowed(s, supply));
    forall k | k in keys ensures !Cleanable(m'.tables, k, m'.session.protecting) {
      if k !in m'.tables.executions {
        assert k !in CleanableAmong(m, keys);
      }
    }
  }

  lemma NothingDone(t: Tables, s: Settings, supply: Supply, final: seq<ScanResult>)
    ensures OnlyReopened(t, t, {}) && ActedOn(t, t, s, supply, final)
  {
    ReopenTwice(t.shadow, {}, {});
  }

  predicate CanBeCleaned(m: Machine, k: RowKey) { Cleanable(m.tables, k, m.session.protecting) }

  // Exactly the same messages can be acted on.
  ghost predicate SameGate(m: Machine, m': Machine) { forall k :: CanBeCleaned(m, k) <==> CanBeCleaned(m', k) }

  lemma SameCleanable(m: Machine, m': Machine, keys: seq<RowKey>)
    requires SameGate(m, m')
    ensures CleanableAmong(m', keys) == CleanableAmong(m, keys)
  {
    forall k ensures k in CleanableAmong(m', keys) <==> k in CleanableAmong(m, keys) {
      assert CanBeCleaned(m', k) <==> CanBeCleaned(m, k);
    }
  }

  lemma MarkedStaysReady(before: Machine, after: Machine, final: seq<ScanResult>, profile: string, failed: set<RowKey>)
    requires OnlyMarked(before, after, failed)
    ensures BatchReady(before, final, profile) ==> BatchReady(after, final, profile)
    ensures OnlyReopened(before.tables, after.tables, failed)
    ensures after.tables.executions == before.tables.executions
    ensures forall k :: Assessed(before, k) <==> Assessed(after, k)
    ensures SameGate(before, after)
  {
    assert forall k :: Assessed(before, k) <==> Assessed(after, k);
  }

  // How many messages the proposals of the batch are that can be acted on.
  ghost function Actionable(m: Machine, s: Settings, supply: Supply, final: seq<ScanResult>): (n: nat) {
    CallCount(m, ProposedKeys(final, s.profile, Allowed(s, supply)))
  }

  // ---- the run ----

  // The reports of a run are true: it never does more to the mailbox than it says, and never makes more cleanup
  // calls than the batch limit.
  ghost predicate Reported(before: Effects, after: Effects, calls: nat, r: Report, limit: nat) {
    && after == before.Plus(Effects(calls, r.applied, r.marked))
    && r.applied <= calls <= r.selected <= limit && r.processed <= limit
    && (r.changes <==> r.applied > 0 || r.marked > 0)
  }

  // What one run does, whichever provider it is of: it scans what the three searches give, reports what it did,
  // and is done with the messages it settled.
  ghost predicate RunStep(
    before: Machine, after: Machine, s: Settings, supply: Supply, scan: Scan, calls: nat, r: Report)
    requires supply.Valid()
  {
    && scan == ScanOf(s, supply.box, Finished(before.tables, s))
    && SessionOf(after, s) && after.session.epoch == before.session.epoch
    && match scan
       case Raised(_) =>
         && after.done == before.done && after.session == before.session
         && after.tables == AfterReset(before.tables, s) && Finished(after.tables, s) == Finished(before.tables, s)
       case Scanned(keys) =>
         && Reported(before.done, after.done, calls, r, s.limit) && r.processed == |keys| && after.session.mutating
         && (!s.apply ==> after.done == before.done && after.tables.executions == before.tables.executions)
         && Finished(after.tables, s) == Finished(before.tables, s) + SettledOf(s, supply, keys)
  }

  // The proposals of a batch that nothing kept from being acted on when they were made.
  ghost function ToHandle(t0: Tables, t: Tables, s: Settings, supply: Supply, keys: seq<MessageKey>): set<RowKey>
    requires supply.Valid()
  {
    set m | m in keys && Proposes(s, supply, m) && !Handled(t.(executions := t0.executions), RowKey(m, s.profile))
      :: RowKey(m, s.profile)
  }

  // The places the batch leaves over are filled with recoverable proposals.  A Gmail run looks for them when its
  // batch has been acted on; a Yahoo run looks before, and then the batch can be in its own way.
  ghost predicate Recovers(
    t0: Tables, t: Tables, s: Settings, supply: Supply, batch: set<RowKey>, taken: nat, selected: nat)
  {
    && taken <= s.limit
    && (s.provider == Gmail ==> CaughtUp(t, s, supply, selected, taken))
    && (s.provider != Gmail ==>
          (CaughtUp(t, s, supply, selected, taken)
           <==> !CrowdedOut(t.(executions := t0.executions), s, supply, s.limit - taken, batch)))
  }

  // ... what it writes of each message of its batch, and on which messages it acts: on proposals of the batch and on
  // recoverable ones alone; when it applies, on every proposal of the batch the user did not ask to keep, and on
  // recoverable ones until the batch limit is reached or none is left.
  ghost predicate RunActs(
    t0: Tables, t: Tables, s: Settings, supply: Supply, keys: seq<MessageKey>, selected: nat)
    requires supply.Valid()
  {
    && (forall m :: m in keys ==> RowHolds(t, s, supply, m))
    && t0.executions.Keys <= t.executions.Keys
    && (forall k :: k in t.executions && k !in t0.executions ==>
          IsProposed(s, supply, keys, k) || IsRecovered(t, s, supply, k))
    && (s.apply ==>
          && AllHandled(t, s, supply, keys)
          && var batch := ToHandle(t0, t, s, supply, keys);
             Recovers(t0, t, s, supply, batch, |batch|, selected))
  }

  ghost predicate AllHandled(t: Tables, s: Settings, supply: Supply, keys: seq<MessageKey>)
    requires supply.Valid()
  {
    forall m :: m in keys && Proposes(s, supply, m) ==> Handled(t, RowKey(m, s.profile))
  }

  lemma RowStaysHeld(t: Tables, t': Tables, s: Settings, supply: Supply, failed: set<RowKey>, m: MessageKey)
    requires supply.Valid() && OnlyReopened(t, t', failed) && RowHolds(t, s, supply, m)
    ensures RowHolds(t', s, supply, m)
  {
  }

  lemma ProposalIsHandled(m: Machine, s: Settings, supply: Supply, keys: seq<MessageKey>, k: MessageKey)
    requires supply.Valid() && SessionOf(m, s) && RowHolds(m.tables, s, supply, k)
    requires AllActedOn(m, s, supply, FinalOf(s, supply, keys)) && k in keys && Proposes(s, supply, k)
    ensures Handled(m.tables, RowKey(k, s.profile))
  {
    var key := RowKey(k, s.profile);
    ProposedMeans(s, supply, keys, key);
    assert key !in CleanableAmong(m, ProposedKeys(FinalOf(s, supply, keys), s.profile, Allowed(s, supply)));
  }

  // What can be acted on in the batch, told from the messages.
  lemma ToHandleMeans(m: Machine, s: Settings, supply: Supply, keys: seq<MessageKey>)
    requires supply.Valid() && SessionOf(m, s) && forall k :: k in keys ==> RowHolds(m.tables, s, supply, k)
    ensures CleanableAmong(m, ProposedKeys(FinalOf(s, supply, keys), s.profile, Allowed(s, supply)))
      == ToHandle(m.tables, m.tables, s, supply, keys)
  {
    var proposed := ProposedKeys(FinalOf(s, supply, keys), s.profile, Allowed(s, supply));
    forall k ensures k in CleanableAmong(m, proposed) <==> k in ToHandle(m.tables, m.tables, s, supply, keys) {
      ProposedMeans(s, supply, keys, k);
      if IsProposed(s, supply, keys, k) {
        assert RowHolds(m.tables, s, supply, k.message);
        assert k == RowKey(k.message, s.profile);
      }
    }
  }

  // What the mailbox phase ensures of the recovery, from the state m it began in.
  ghost predicate Recovered(m: Machine, t: Tables, s: Settings, supply: Supply, final: seq<ScanResult>, selected: nat) {
    Recovers(m.tables, t, s, supply, CleanableAmong(m, ProposedKeys(final, s.profile, Allowed(s, supply))),
             Actionable(m, s, supply, final), selected)
  }

  lemma RecoversOnTheTables(
    t0: Tables, m: Machine, t: Tables, s: Settings, supply: Supply, keys: seq<MessageKey>, selected: nat)
    requires supply.Valid() && SessionOf(m, s) && forall k :: k in keys ==> RowHolds(m.tables, s, supply, k)
    requires m.tables.executions == t0.executions && m.tables.answers == t.answers
    requires Recovered(m, t, s, supply, FinalOf(s, supply, keys), selected)
    ensures var batch := ToHandle(t0, t, s, supply, keys);
      Recovers(t0, t, s, supply, batch, |batch|, selected)
  {
    ToHandleMeans(m, s, supply, keys);
    assert ToHandle(m.tables, m.tables, s, supply, keys) == ToHandle(t0, t, s, supply, keys);
    CallCountIsSize(m, ProposedKeys(FinalOf(s, supply, keys), s.profile, Allowed(s, supply)));
  }

  lemma RunActed(
    before: Machine, middle: Machine, after: Machine, s: Settings, supply: Supply, keys: seq<MessageKey>,
    failed: set<RowKey>, selected: nat)
    requires supply.Valid() && SessionOf(middle, s) && SessionOf(after, s)
    requires BatchDone(before.tables, middle.tables, s, supply, keys)
    requires OnlyReopened(middle.tables, after.tables, failed)
    requires ActedOn(middle.tables, after.tables, s, supply, FinalOf(s, supply, keys))
    requires s.apply ==>
      && AllActedOn(after, s, supply, FinalOf(s, supply, keys))
      && Recovered(middle, after.tables, s, supply, FinalOf(s, supply, keys), selected)
    ensures RunActs(before.tables, after.tables, s, supply, keys, selected)
  {
    forall m | m in keys ensures RowHolds(after.tables, s, supply, m) {
      RowStaysHeld(middle.tables, after.tables, s, supply, failed, m);
    }
    forall k | k in after.tables.executions && k !in before.tables.executions
      ensures IsProposed(s, supply, keys, k) || IsRecovered(after.tables, s, supply, k)
    {
      ProposedMeans(s, supply, keys, k);
    }
    if s.apply {
      forall m | m in keys && Proposes(s, supply, m) ensures Handled(after.tables, RowKey(m, s.profile)) {
        ProposalIsHandled(after, s, supply, keys, m);
      }
      RecoversOnTheTables(before.tables, middle, after.tables, s, supply, keys, selected);
    }
  }

  // A run that has gone through its batch and its mailbox phase.
  lemma RunConcluded(
    before: Machine, middle: Machine, after: Machine, s: Settings, supply: Supply, keys: seq<MessageKey>,
    failed: set<RowKey>, calls: nat, r: Report)
    requires supply.Valid() && Sound(before.tables)
      && ScanOf(s, supply.box, Finished(before.tables, s)) == Scanned(keys)
    requires BatchDone(before.tables, middle.tables, s, supply, keys)
    requires OnlyReopened(middle.tables, after.tables, failed) && AreFailed(s, supply, keys, failed)
    requires SessionOf(before, s) && after.session == before.session.(mutating := true)
    requires Reported(before.done, after.done, calls, r, s.limit) && r.processed == |keys|
    requires !s.apply ==> after.done == before.done && after.tables == middle.tables
    ensures RunStep(before, after, s, supply, Scanned(keys), calls, r)
  {
    RunSettles(before.tables, middle.tables, after.tables, s, supply, keys, failed);
  }
}
