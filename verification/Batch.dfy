/** cli.py: what a run does to its batch - reset, scan, assess, prove, complete. */
module Batch {
  import opened Mail
  import opened Obsolescence
  import opened Ledger
  import opened Protocol
  import opened PreferenceStore
  import opened Stages
  import opened Scan
  import opened Cleanup

  // What the outside world supplies to one run: the mail, the proof table the graph stage leaves behind, the
  // governor's gate, the searches of the inbox used for recovery, whether the marker connection can be opened, and the
  // messages whose marker the provider fails to set.
  datatype Supply = Supply(
    box: Mailbox, proofs: ProofTable, allowed: Option<set<Category>>, inbox: seq<seq<Candidate>>, markers: bool,
    failing: set<MessageKey>)
  {
    ghost predicate Valid() { box.Valid() }
  }

  ghost predicate SessionOf(m: Machine, s: Settings) {
    && m.session.account == s.account && m.session.profile == s.profile
    && m.session.protecting == s.protecting && m.session.mode == s.mode
  }

  // ---- the deferred scan ----

  // shadow_recovery_expected_unread
  function ExpectedUnread(reasons: seq<Reason>): Option<bool> {
    if reasons == [] then None else Some(!exists x :: x in reasons && x.ExpiredRead?)
  }

  function EntryOf(r: ScanResult, s: Settings): Entry {
    var hard := HasHardReason(r.decision.reasons);
    Entry(Key(r, s.profile),
          ShadowRow(r.category, r.decision.action, hard, ExpectedUnread(r.decision.reasons), s.fingerprint, false,
            hard),
          r.unread, r.identity)
  }

  function EntriesOf(results: seq<ScanResult>, s: Settings): (entries: seq<Entry>)
    ensures |entries| == |results| && forall i :: 0 <= i < |entries| ==> entries[i] == EntryOf(results[i], s)
  {
    seq(|results|, i requires 0 <= i < |results| => EntryOf(results[i], s))
  }

  // run_shadow_scan with defer_completion: nothing is written until the whole batch is classified, and
  // then every row is written as incomplete.
  method RunShadowScan(store: PreferenceStore, s: Settings, box: Mailbox) returns (scan: Scan)
    requires store.Settled()
    modifies store
    ensures store.Settled() && old(store.trace) <= store.trace
    ensures scan == ScanOf(s, box, Skipped(old(store.Contents()), s.account, s.profile, s.fingerprint))
    ensures scan.Raised? ==> store.trace == old(store.trace) && store.Contents() == old(store.Contents())
    ensures scan.Scanned? ==>
      && store.trace == old(store.trace) + [RecordBatch(EntriesOf(ResultsOf(box, scan.keys), s))]
      && store.Contents() == RecordEntries(old(store.Contents()), EntriesOf(ResultsOf(box, scan.keys), s))
    ensures store.session == old(store.session) && store.done == old(store.done)
  {
    var skipped := store.MembershipChecker(s.account, s.profile, s.fingerprint);
    scan := Classify(s, box, skipped);
    if scan.Scanned? {
      store.RecordShadowScanBatch(EntriesOf(ResultsOf(box, scan.keys), s));
    }
  }

  ghost predicate Reusable(t: Tables, k: RowKey, fingerprint: string) {
    !(k in t.shadow && t.shadow[k].complete && t.shadow[k].fingerprint == fingerprint)
  }

  ghost predicate OpenRow(t: Tables, k: RowKey, fingerprint: string) {
    k in t.shadow && t.shadow[k].fingerprint == fingerprint && !t.shadow[k].complete
  }

  // The batch transaction opens the rows of its messages and touches no others.
  lemma {:induction false} EntriesOpen(t: Tables, entries: seq<Entry>, fingerprint: string, rows: set<RowKey>)
    requires forall i :: 0 <= i < |entries| ==>
      entries[i].key in rows && entries[i].row.fingerprint == fingerprint && !entries[i].row.complete
    requires forall k :: k in rows ==> Reusable(t, k, fingerprint)
    ensures var t' := RecordEntries(t, entries);
      && Confined(t, t', rows) && t'.executions == t.executions && t'.answers == t.answers
      && (forall k :: k in rows ==> Reusable(t', k, fingerprint))
      && (forall i :: 0 <= i < |entries| ==> OpenRow(t', entries[i].key, fingerprint))
  {
    if entries != [] {
      var n := |entries| - 1;
      EntriesOpen(t, entries[..n], fingerprint, rows);
      var before := RecordEntries(t, entries[..n]);
      var after := RecordEntries(t, entries);
      assert Reusable(before, entries[n].key, fingerprint);
      forall i | 0 <= i < |entries| ensures OpenRow(after, entries[i].key, fingerprint) {
        if i < n {
          assert OpenRow(before, entries[..n][i].key, fingerprint);
        }
      }
    }
  }

  // ... and each row holds what its entry says.
  lemma {:induction false} EntriesWritten(
    t: Tables, entries: seq<Entry>, fingerprint: string, rows: set<RowKey>, i: nat)
    requires forall j :: 0 <= j < |entries| ==>
      entries[j].key in rows && entries[j].row.fingerprint == fingerprint && !entries[j].row.complete
    requires forall k :: k in rows ==> Reusable(t, k, fingerprint)
    requires i < |entries| && forall j :: i < j < |entries| ==> entries[j].key != entries[i].key
    ensures var t' := RecordEntries(t, entries);
      entries[i].key in t'.shadow && t'.shadow[entries[i].key] == entries[i].row
    decreases |entries|
  {
    var n := |entries| - 1;
    if i < n {
      EntriesWritten(t, entries[..n], fingerprint, rows, i);
      assert entries[n].key != entries[i].key;
    } else {
      EntriesOpen(t, entries[..n], fingerprint, rows);
      assert Reusable(RecordEntries(t, entries[..n]), entries[n].key, fingerprint);
    }
  }

  // What the row of a message holds: the classification, the proposal unless it was withdrawn, whether anything
  // protects the message, and the read state its reasons rest on.
  ghost predicate Describes(row: ShadowRow, r: ScanResult, fingerprint: string, withdrawn: bool) {
    var hard := exists x :: x in r.decision.reasons && (x.Hard? || x.ThreatProtectiveReview?);
    && row.category == r.category && row.fingerprint == fingerprint
    && row.action == (if withdrawn then Review else r.decision.action)
    && (row.hardReason <==> hard) && (row.hardProtected <==> hard || withdrawn)
    && (if r.decision.reasons == [] then row.expectsUnread == None
        else row.expectsUnread == Some(forall x :: x in r.decision.reasons ==> !x.ExpiredRead?))
  }

  ghost predicate RowDescribes(t: Tables, s: Settings, box: Mailbox, m: MessageKey, withdrawn: bool) {
    && RowKey(m, s.profile) in t.shadow
    && Describes(t.shadow[RowKey(m, s.profile)], box.fetch(m), s.fingerprint, withdrawn)
  }

  lemma EntryDescribes(r: ScanResult, s: Settings)
    ensures Describes(EntryOf(r, s).row, r, s.fingerprint, false)
  {
  }

  // What the reset and the scan at the start of a run have done.
  ghost predicate Opened(t: Tables, t': Tables, s: Settings, box: Mailbox, keys: seq<MessageKey>) {
    && Confined(AfterReset(t, s), t', RowsOf(keys, s.profile))
    && t'.executions == t.executions && t'.answers == t.answers
    && (forall m :: m in keys ==> OpenRow(t', RowKey(m, s.profile), s.fingerprint))
    && forall m :: m in keys ==> RowDescribes(t', s, box, m, false)
  }

  method ScanBatch(store: PreferenceStore, s: Settings, box: Mailbox) returns (scan: Scan)
    requires store.Settled() && box.Valid()
    modifies store
    ensures store.Settled() && old(store.trace) <= store.trace
    ensures scan == ScanOf(s, box, Finished(old(store.Contents()), s))
    ensures scan.Raised? ==> store.Contents() == AfterReset(old(store.Contents()), s)
    ensures scan.Scanned? ==> Opened(old(store.Contents()), store.Contents(), s, box, scan.keys)
    ensures store.session == old(store.session) && store.done == old(store.done)
  {
    EveryStateIsSound(store.start, store.trace);
    SkippedIsFinished(store.Contents(), s);
    if s.protecting {
      var count := store.ResetStaleThreatAssessments(s.account, s.profile, s.mode);
    }
    ghost var t := store.Contents();
    scan := RunShadowScan(store, s, box);
    if scan.Scanned? {
      ScanOpens(t, s, box, scan.keys);
    }
  }

  lemma ScanOpens(t: Tables, s: Settings, box: Mailbox, keys: seq<MessageKey>)
    requires box.Valid() && ScanOf(s, box, Skipped(t, s.account, s.profile, s.fingerprint)) == Scanned(keys)
    ensures var t' := RecordEntries(t, EntriesOf(ResultsOf(box, keys), s));
      && Confined(t, t', RowsOf(keys, s.profile)) && t'.executions == t.executions && t'.answers == t.answers
      && (forall m :: m in keys ==> OpenRow(t', RowKey(m, s.profile), s.fingerprint))
      && forall m :: m in keys ==> RowDescribes(t', s, box, m, false)
  {
    var entries := EntriesOf(ResultsOf(box, keys), s);
    var skipped := Skipped(t, s.account, s.profile, s.fingerprint);
    ScannedMessages(s, box, skipped);
    forall k | k in RowsOf(keys, s.profile) ensures Reusable(t, k, s.fingerprint) {
      assert k.message !in skipped && k.message.account == s.account;
    }
    forall i | 0 <= i < |entries| ensures entries[i].key == RowKey(keys[i], s.profile) {
    }
    EntriesOpen(t, entries, s.fingerprint, RowsOf(keys, s.profile));
    forall m | m in keys
      ensures OpenRow(RecordEntries(t, entries), RowKey(m, s.profile), s.fingerprint)
      ensures RowDescribes(RecordEntries(t, entries), s, box, m, false)
    {
      var i :| 0 <= i < |keys| && keys[i] == m;
      assert OpenRow(RecordEntries(t, entries), entries[i].key, s.fingerprint);
      EntriesWritten(t, entries, s.fingerprint, RowsOf(keys, s.profile), i);
      EntryDescribes(box.fetch(m), s);
    }
  }

  // ---- the stages ----

  // The batch as the threat stage leaves it.
  function AssessedOf(s: Settings, supply: Supply, keys: seq<MessageKey>): (assessed: seq<ScanResult>)
    requires supply.Valid()
    ensures |assessed| == |keys|
  {
    var results := ResultsOf(supply.box, keys);
    if s.protecting then ThreatBatch(results, s.mode, s.backend) else results
  }

  // ... and as the proof stage leaves it.
  function FinalOf(s: Settings, supply: Supply, keys: seq<MessageKey>): (final: seq<ScanResult>)
    requires supply.Valid()
    ensures |final| == |keys|
  {
    var assessed := AssessedOf(s, supply, keys);
    if s.proofs then ProofBatch(assessed, supply.proofs, s.profile, s.direct) else assessed
  }

  // A message the threat stage marks.
  predicate Flagged(s: Settings, r: ScanResult)
    requires r.Valid()
  {
    s.protecting && FinalScore(r, s.mode, s.backend) >= 40
  }

  lemma AssessedAt(s: Settings, supply: Supply, keys: seq<MessageKey>, i: nat)
    requires supply.Valid() && i < |keys|
    ensures var r := supply.box.fetch(keys[i]);
      AssessedOf(s, supply, keys)[i] == if s.protecting then AfterThreat(r, s.mode, s.backend) else r
  {
    if s.protecting {
      ThreatBatchAt(ResultsOf(supply.box, keys), s.mode, s.backend, i);
    }
  }

  // What the stages do to one message of the batch.
  lemma StagesKeep(s: Settings, supply: Supply, r: ScanResult, assessed: ScanResult, final: ScanResult)
    requires r.Valid() && ThreatMarkerCandidate !in r.decision.reasons
    requires assessed == if s.protecting then AfterThreat(r, s.mode, s.backend) else r
    requires final == if s.proofs then AfterProof(assessed, supply.proofs, s.profile, s.direct) else assessed
    ensures final == r.(decision := final.decision) && assessed == r.(decision := assessed.decision)
    ensures ThreatMarkerCandidate in final.decision.reasons <==> Flagged(s, r)
    ensures ThreatMarkerCandidate in assessed.decision.reasons <==> Flagged(s, r)
  {
    if s.protecting {
      MarkersSurviveTheProofStage(r, s.mode, s.backend, supply.proofs, s.profile, s.direct);
      ThreatStageMeans(r, s.mode, s.backend);
    }
  }

  lemma FinalAt(s: Settings, supply: Supply, keys: seq<MessageKey>, i: nat)
    requires supply.Valid() && i < |keys|
    ensures var r, assessed, final := supply.box.fetch(keys[i]), AssessedOf(s, supply, keys)[i],
      FinalOf(s, supply, keys)[i];
      && final == r.(decision := final.decision) && assessed == r.(decision := assessed.decision)
      && (ThreatMarkerCandidate in final.decision.reasons <==> Flagged(s, r))
      && (ThreatMarkerCandidate in assessed.decision.reasons <==> Flagged(s, r))
  {
    AssessedAt(s, supply, keys, i);
    if s.proofs {
      ProofBatchAt(AssessedOf(s, supply, keys), supply.proofs, s.profile, s.direct, i);
    }
    StagesKeep(s, supply, supply.box.fetch(keys[i]), AssessedOf(s, supply, keys)[i], FinalOf(s, supply, keys)[i]);
  }

  // The markers a run asks for.
  lemma FlaggedInBatch(s: Settings, supply: Supply, keys: seq<MessageKey>, k: RowKey)
    requires supply.Valid()
    ensures IsMarkerCandidate(FinalOf(s, supply, keys), s.profile, k)
      <==> k in RowsOf(keys, s.profile) && Flagged(s, supply.box.fetch(k.message))
    ensures IsMarkerCandidate(AssessedOf(s, supply, keys), s.profile, k)
      <==> k in RowsOf(keys, s.profile) && Flagged(s, supply.box.fetch(k.message))
  {
    var final, assessed := FinalOf(s, supply, keys), AssessedOf(s, supply, keys);
    forall i | 0 <= i < |keys|
      ensures Key(final[i], s.profile) == Key(assessed[i], s.profile) == RowKey(keys[i], s.profile)
      ensures ThreatMarkerCandidate in final[i].decision.reasons <==> Flagged(s, supply.box.fetch(keys[i]))
      ensures ThreatMarkerCandidate in assessed[i].decision.reasons <==> Flagged(s, supply.box.fetch(keys[i]))
    {
      FinalAt(s, supply, keys, i);
    }
    if k in RowsOf(keys, s.profile) {
      var i :| 0 <= i < |keys| && keys[i] == k.message;
      assert Key(final[i], s.profile) == k && Key(assessed[i], s.profile) == k;
    }
  }

  // A batch has been assessed - by the threat stage, or by the attestation that it is switched off.
  ghost predicate Attestation(before: Machine, after: Machine, s: Settings, results: seq<ScanResult>)
    requires AllValid(results)
  {
    && after.session == before.session && after.done == before.done
    && after.tables.executions == before.tables.executions && after.tables.answers == before.tables.answers
    && SameProgress(before.tables.shadow, after.tables.shadow)
    && Confined(before.tables, after.tables, BatchKeys(results, s.profile))
    && BatchReady(after, results, s.profile)
    && (s.protecting ==> BatchAssessed(after.tables, results, s.profile, s.mode))
    && Assessments(before.tables, after.tables, s, results)
  }

  // The verdicts of the stage, and the rows it protects; or the attestation that it is switched off.
  ghost predicate Assessments(t: Tables, t': Tables, s: Settings, results: seq<ScanResult>)
    requires AllValid(results)
  {
    if s.protecting then
      && VerdictsStored(t', results, s.profile, s.mode, s.backend)
      && t'.shadow == Protect(t.shadow, WithdrawnKeys(results, s.profile, s.mode, s.backend))
    else
      && t'.shadow == t.shadow
      && forall i :: 0 <= i < |results| ==> SwitchedOff(t', Key(results[i], s.profile))
  }

  ghost predicate SwitchedOff(t: Tables, k: RowKey) {
    k in t.threats && t.threats[k] == Assessment("threat-disabled-v1", DisabledByUser, false, false, false)
  }

  method AssessBatch(store: PreferenceStore, s: Settings, results: seq<ScanResult>) returns (updated: seq<ScanResult>)
    requires store.Settled() && AllValid(results) && SessionOf(store.Now(), s)
    modifies store
    ensures store.Settled() && old(store.trace) <= store.trace
    ensures Attestation(old(store.Now()), store.Now(), s, results)
    ensures updated == if s.protecting then ThreatBatch(results, s.mode, s.backend) else results
  {
    if s.protecting {
      var summary;
      updated, summary := ApplyThreatProtection(store, results, s.profile, s.mode, s.backend);
      JudgedIsReady(store.Contents(), store.Now(), s, results);
    } else {
      updated := results;
      var keys := KeysOfResults(results, s.profile);
      ghost var t := store.Contents();
      store.RecordDisabledThreatAssessmentBatch(keys);
      DisabledIsReady(t, store.Now(), s, results, keys);
    }
  }

  lemma JudgedIsReady(t: Tables, m: Machine, s: Settings, results: seq<ScanResult>)
    requires m.tables == t && BatchAssessed(t, results, s.profile, s.mode)
    ensures BatchReady(m, results, s.profile)
  {
    forall i | 0 <= i < |results| ensures Assessed(m, Key(results[i], s.profile)) {
      assert AssessedFor(t, Key(results[i], s.profile), s.mode);
    }
  }

  lemma DisabledIsReady(t: Tables, m: Machine, s: Settings, results: seq<ScanResult>, keys: seq<RowKey>)
    requires keys == KeysOfResults(results, s.profile) && SessionOf(m, s) && !s.protecting
    requires m.tables == t.(threats := Disable(t.threats, Elements(keys)))
    ensures BatchReady(m, results, s.profile)
    ensures Confined(t, m.tables, BatchKeys(results, s.profile))
    ensures forall i :: 0 <= i < |results| ==> SwitchedOff(m.tables, Key(results[i], s.profile))
  {
    KeysAreBatchKeys(results, s.profile, keys);
    DisabledIsConfined(t, m.tables, Elements(keys));
    forall i | 0 <= i < |results| ensures SwitchedOff(m.tables, Key(results[i], s.profile)) {
      assert keys[i] in Elements(keys);
    }
  }

  lemma DisabledIsConfined(t: Tables, t': Tables, keys: set<RowKey>)
    requires t' == t.(threats := Disable(t.threats, keys))
    ensures Confined(t, t', keys)
  {
  }

  lemma KeysAreBatchKeys(results: seq<ScanResult>, profile: string, keys: seq<RowKey>)
    requires keys == KeysOfResults(results, profile)
    ensures Elements(keys) == BatchKeys(results, profile)
  {
    forall k | k in keys ensures k in BatchKeys(results, profile) {
      var i :| 0 <= i < |keys| && keys[i] == k;
      assert k == Key(results[i], profile);
    }
    assert forall i :: 0 <= i < |results| ==> keys[i] in keys;
  }

  function KeysOfResults(results: seq<ScanResult>, profile: string): (keys: seq<RowKey>)
    ensures |keys| == |results| && forall i :: 0 <= i < |keys| ==> keys[i] == Key(results[i], profile)
  {
    seq(|results|, i requires 0 <= i < |results| => Key(results[i], profile))
  }

  // The messages no model failure forced onto the heuristic classifier.
  function FullyClassified(results: seq<ScanResult>, profile: string): (keys: seq<RowKey>)
    ensures forall k :: k in keys <==>
      exists i :: 0 <= i < |results| && !results[i].fallback && k == Key(results[i], profile)
  {
    if results == [] then []
    else
      var n := |results| - 1;
      assert forall i :: 0 <= i < n ==> results[..n][i] == results[i];
      FullyClassified(results[..n], profile) + if results[n].fallback then [] else [Key(results[n], profile)]
  }

  method ProveBatch(s: Settings, supply: Supply, assessed: seq<ScanResult>) returns (final: seq<ScanResult>)
    ensures final == if s.proofs then ProofBatch(assessed, supply.proofs, s.profile, s.direct) else assessed
  {
    final := assessed;
    if s.proofs {
      var summary;
      final, summary := ApplyObsolescenceProofs(assessed, supply.proofs, s.profile, s.direct);
    }
  }

  // ---- the batch as a whole ----

  // What reset, scan, assessment and completion have done: the rows of the batch are complete except those of
  // messages only the heuristic classifier looked at, and nothing else has changed since the reset.
  ghost predicate BatchDone(t: Tables, t': Tables, s: Settings, supply: Supply, keys: seq<MessageKey>)
    requires supply.Valid()
  {
    && Confined(AfterReset(t, s), t', RowsOf(keys, s.profile))
    && t'.executions == t.executions && t'.answers == t.answers
    && (forall m :: m in keys ==> RowIs(t', s, m, !supply.box.fetch(m).fallback))
    && forall m :: m in keys ==> RowHolds(t', s, supply, m)
  }

  // A proposal of the ordinary policy that the threat stage of this run withdraws.
  predicate Overruled(s: Settings, supply: Supply, m: MessageKey)
    requires supply.box.fetch(m).Valid()
  {
    s.protecting && Withdrawn(supply.box.fetch(m), s.mode, s.backend)
  }

  // What the ledger holds of a message of the batch.
  ghost predicate RowHolds(t: Tables, s: Settings, supply: Supply, m: MessageKey)
    requires supply.Valid()
  {
    && RowDescribes(t, s, supply.box, m, Overruled(s, supply, m))
    && RowKey(m, s.profile) in t.threats
    && if s.protecting then IsVerdict(t.threats[RowKey(m, s.profile)], supply.box.fetch(m), s.mode, s.backend)
       else SwitchedOff(t, RowKey(m, s.profile))
  }

  lemma ConfinedTwice(t0: Tables, t1: Tables, t2: Tables, keys: set<RowKey>)
    requires Confined(t0, t1, keys) && Confined(t1, t2, keys)
    ensures Confined(t0, t2, keys)
  {
  }

  lemma BatchIsRows(s: Settings, supply: Supply, keys: seq<MessageKey>)
    requires supply.Valid()
    ensures BatchKeys(ResultsOf(supply.box, keys), s.profile) == RowsOf(keys, s.profile)
    ensures AllValid(ResultsOf(supply.box, keys))
  {
    var results := ResultsOf(supply.box, keys);
    forall i | 0 <= i < |keys| ensures Key(results[i], s.profile) == RowKey(keys[i], s.profile) && results[i].Valid() {
    }
    forall k | k in RowsOf(keys, s.profile) ensures k in BatchKeys(results, s.profile) {
      var i :| 0 <= i < |keys| && keys[i] == k.message;
      assert Key(results[i], s.profile) == k;
    }
  }

  // The rows of the batch after the assessment.
  lemma AssessedRows(t: Tables, before: Machine, after: Machine, s: Settings, supply: Supply, keys: seq<MessageKey>)
    requires supply.Valid() && Opened(t, before.tables, s, supply.box, keys)
    requires AllValid(ResultsOf(supply.box, keys)) && Attestation(before, after, s, ResultsOf(supply.box, keys))
    ensures Confined(AfterReset(t, s), after.tables, RowsOf(keys, s.profile))
    ensures forall m :: m in keys ==> RowIs(after.tables, s, m, false)
  {
    BatchIsRows(s, supply, keys);
    ConfinedTwice(AfterReset(t, s), before.tables, after.tables, RowsOf(keys, s.profile));
    var results := ResultsOf(supply.box, keys);
    forall m | m in keys ensures RowIs(after.tables, s, m, false) {
      assert OpenRow(before.tables, RowKey(m, s.profile), s.fingerprint);
      if s.protecting {
        var i :| 0 <= i < |keys| && keys[i] == m;
        assert AssessedFor(after.tables, Key(results[i], s.profile), s.mode);
      }
    }
  }

  // What they hold by then.
  lemma AssessedRowHolds(
    t: Tables, t': Tables, s: Settings, supply: Supply, keys: seq<MessageKey>, i: nat)
    requires supply.Valid() && NoDuplicates(keys) && i < |keys| && AllValid(ResultsOf(supply.box, keys))
    requires Assessments(t, t', s, ResultsOf(supply.box, keys)) && RowDescribes(t, s, supply.box, keys[i], false)
    ensures RowHolds(t', s, supply, keys[i])
  {
    var results := ResultsOf(supply.box, keys);
    var k := Key(results[i], s.profile);
    assert forall j :: 0 <= j < |keys| ==> results[j].message == keys[j];
    if s.protecting {
      assert VerdictStored(t', results, i, s.profile, s.mode, s.backend);
      WithdrawnOnce(s, supply, keys, i);
    } else {
      assert SwitchedOff(t', Key(results[i], s.profile));
    }
  }

  lemma WithdrawnOnce(s: Settings, supply: Supply, keys: seq<MessageKey>, i: nat)
    requires supply.Valid() && NoDuplicates(keys) && i < |keys| && AllValid(ResultsOf(supply.box, keys))
    ensures RowKey(keys[i], s.profile) in WithdrawnKeys(ResultsOf(supply.box, keys), s.profile, s.mode, s.backend)
      <==> Withdrawn(supply.box.fetch(keys[i]), s.mode, s.backend)
  {
    var results := ResultsOf(supply.box, keys);
    assert Key(results[i], s.profile) == RowKey(keys[i], s.profile);
    if RowKey(keys[i], s.profile) in WithdrawnKeys(results, s.profile, s.mode, s.backend) {
      var j :| 0 <= j < |results| && Withdrawn(results[j], s.mode, s.backend)
               && RowKey(keys[i], s.profile) == Key(results[j], s.profile);
      assert keys[j] == keys[i];
    }
  }

  lemma AllRowsHold(
    t: Tables, t': Tables, s: Settings, supply: Supply, keys: seq<MessageKey>, done: set<MessageKey>)
    requires supply.Valid() && ScanOf(s, supply.box, done) == Scanned(keys) && AllValid(ResultsOf(supply.box, keys))
    requires Assessments(t, t', s, ResultsOf(supply.box, keys))
    requires forall m :: m in keys ==> RowDescribes(t, s, supply.box, m, false)
    ensures forall m :: m in keys ==> RowHolds(t', s, supply, m)
  {
    ScannedMessages(s, supply.box, done);
    forall m | m in keys ensures RowHolds(t', s, supply, m) {
      var i :| 0 <= i < |keys| && keys[i] == m;
      AssessedRowHolds(t, t', s, supply, keys, i);
    }
  }

  // ... and after mark_shadow_batch_complete.
  lemma CompletedRows(t: Tables, t': Tables, s: Settings, supply: Supply, keys: seq<MessageKey>)
    requires supply.Valid() && (forall m :: m in keys ==> RowIs(t, s, m, false))
    requires forall m :: m in keys ==> RowHolds(t, s, supply, m)
    requires t' == t.(shadow :=
      MarkComplete(t.shadow, Elements(FullyClassified(FinalOf(s, supply, keys), s.profile)), s.fingerprint))
    ensures Confined(t, t', RowsOf(keys, s.profile))
    ensures forall m :: m in keys ==> RowIs(t', s, m, !supply.box.fetch(m).fallback)
    ensures forall m :: m in keys ==> RowHolds(t', s, supply, m)
  {
    forall m | m in keys ensures RowHolds(t', s, supply, m) {
      assert RowHolds(t, s, supply, m);
    }
    var final := FinalOf(s, supply, keys);
    forall i | 0 <= i < |keys|
      ensures Key(final[i], s.profile) == RowKey(keys[i], s.profile)
        && final[i].fallback == supply.box.fetch(keys[i]).fallback
    {
      FinalAt(s, supply, keys, i);
    }
    var marked := FullyClassified(final, s.profile);
    forall k | k in marked ensures k in RowsOf(keys, s.profile) && !supply.box.fetch(k.message).fallback {
      var i :| 0 <= i < |final| && !final[i].fallback && k == Key(final[i], s.profile);
      assert keys[i] in keys;
    }
    forall m | m in keys ensures RowIs(t', s, m, !supply.box.fetch(m).fallback) {
      var i :| 0 <= i < |keys| && keys[i] == m;
      assert RowIs(t, s, m, false);
      assert !final[i].fallback ==> Key(final[i], s.profile) in marked;
    }
  }

  lemma FinalReady(m: Machine, s: Settings, supply: Supply, keys: seq<MessageKey>)
    requires supply.Valid() && BatchReady(m, ResultsOf(supply.box, keys), s.profile)
    ensures BatchReady(m, FinalOf(s, supply, keys), s.profile)
  {
    var results, final := ResultsOf(supply.box, keys), FinalOf(s, supply, keys);
    forall i | 0 <= i < |final| ensures Assessed(m, Key(final[i], s.profile)) {
      FinalAt(s, supply, keys, i);
      assert Assessed(m, Key(results[i], s.profile));
    }
  }

  // Reset, scan, assess, prove, complete.
  method ProcessBatch(store: PreferenceStore, s: Settings, supply: Supply)
    returns (scan: Scan, assessed: seq<ScanResult>, final: seq<ScanResult>)
    requires store.Settled() && supply.Valid() && SessionOf(store.Now(), s)
    modifies store
    ensures store.Settled() && old(store.trace) <= store.trace
    ensures store.session == old(store.session) && store.done == old(store.done)
    ensures scan == ScanOf(s, supply.box, Finished(old(store.Contents()), s))
    ensures scan.Raised? ==> store.Contents() == AfterReset(old(store.Contents()), s)
    ensures scan.Scanned? ==>
      && assessed == AssessedOf(s, supply, scan.keys) && final == FinalOf(s, supply, scan.keys)
      && BatchDone(old(store.Contents()), store.Contents(), s, supply, scan.keys)
      && BatchReady(store.Now(), final, s.profile)
  {
    scan := ScanBatch(store, s, supply.box);
    assessed, final := [], [];
    if scan.Raised? {
      return;
    }
    BatchIsRows(s, supply, scan.keys);
    ghost var begun := store.Now();
    assessed := AssessBatch(store, s, ResultsOf(supply.box, scan.keys));
    AssessedRows(old(store.Contents()), begun, store.Now(), s, supply, scan.keys);
    AllRowsHold(begun.tables, store.Contents(), s, supply, scan.keys, Finished(old(store.Contents()), s));
    final := ProveBatch(s, supply, assessed);
    FinalReady(store.Now(), s, supply, scan.keys);
    CompleteProcessed(store, s, supply, scan.keys, final, old(store.Contents()));
  }

  // mark_shadow_batch_complete for the batch of one run.
  method CompleteProcessed(
    store: PreferenceStore, s: Settings, supply: Supply, ghost keys: seq<MessageKey>, final: seq<ScanResult>,
    ghost t: Tables)
    requires store.Settled() && supply.Valid() && final == FinalOf(s, supply, keys)
    requires BatchReady(store.Now(), final, s.profile)
    requires Confined(AfterReset(t, s), store.Contents(), RowsOf(keys, s.profile))
    requires store.executions == t.executions && store.answers == t.answers
    requires forall m :: m in keys ==> RowIs(store.Contents(), s, m, false)
    requires forall m :: m in keys ==> RowHolds(store.Contents(), s, supply, m)
    modifies store
    ensures store.Settled() && old(store.trace) <= store.trace
    ensures store.session == old(store.session) && store.done == old(store.done)
    ensures BatchDone(t, store.Contents(), s, supply, keys)
    ensures BatchReady(store.Now(), final, s.profile)
  {
    var marked := FullyClassified(final, s.profile);
    ghost var assessed := store.Contents();
    store.MarkShadowBatchComplete(marked, s.fingerprint);
    CompletedRows(assessed, store.Contents(), s, supply, keys);
    ConfinedTwice(AfterReset(t, s), assessed, store.Contents(), RowsOf(keys, s.profile));
    assert forall k :: Assessed(old(store.Now()), k) ==> Assessed(store.Now(), k);
  }
}
