/** cli.py: the threat stage and the proof stage, which rewrite the proposals of a batch. */
module Stages {
  import opened Mail
  import opened Obsolescence
  import opened Ledger
  import opened PreferenceStore
  import opened ThreatScore

  // Hard codes are the members of HARD_POLICY_REASONS a policy decision can carry; ExpiredRead are the two
  // codes of proposals that rest on the message being read.
  datatype Reason =
    | Hard(code: string) | Soft(code: string) | ExpiredRead(code: string)
    | ThreatProtectiveReview | ThreatAnalysisIncomplete | ThreatMarkerCandidate | ThreatLevel(level: Level)
    | ProofVerified | ProofWitness(closure: Witness)

  datatype Decision = Decision(action: PolicyAction, reasons: seq<Reason>)

  datatype SemanticReply = Answers(verdict: Verdict, confidence: real, name: string) | Fails

  // A classified message with its proposal, and what the later stages will find out about it.
  datatype ScanResult = ScanResult(
    message: MessageKey, unread: bool, category: Category, fallback: bool, decision: Decision,
    technical: Technical, reply: SemanticReply, protectedContent: bool, identity: Option<string>)
  {
    predicate Valid() {
      technical.Valid() && (reply.Answers? ==> 0.0 <= reply.confidence <= 1.0)
    }
  }

  predicate HasHardReason(reasons: seq<Reason>) {
    exists r :: r in reasons && (r.Hard? || r.ThreatProtectiveReview?)
  }

  predicate AllValid(results: seq<ScanResult>) {
    forall i :: 0 <= i < |results| ==> results[i].Valid()
  }

  // ---- the threat stage ----

  datatype Judgement = Judgement(assessment: Assessment, level: Level, requested: bool, failed: bool, candidate: bool)

  function Judge(r: ScanResult, mode: SemanticMode, backend: bool): (j: Judgement)
    requires r.Valid()
  {
    var t := r.technical;
    var alert := Alert(LevelOf(t.score));
    var requested := Demands(mode, t.signals, alert);
    var answered := requested && backend && r.reply.Answers?;
    var analyzer :=
      if answered then Model(r.reply.name)
      else if requested && backend then LocalModelFailure
      else if requested then LocalModelUnavailable
      else if mode == TechnicalOnly then OnlyTechnical
      else if t.signals then BelowAlert
      else ScreenClear;
    var combined := if answered then Combine(t, r.reply.verdict, r.reply.confidence)
      else Combine(t, UncertainVerdict, 0.0);
    var failed := requested && !answered;
    var candidate := Alert(combined.level);
    var protective := (candidate || failed) && r.decision.action != Keep;
    Judgement(Assessment(THREAT_ENGINE, analyzer, t.signals, alert, protective), combined.level, requested, failed,
      candidate)
  }

  // ---- what the threat stage is for, told from the message and the answer alone ----

  // The mode asks for a semantic pass: on any technical signal, or only on a technical alert.
  predicate PassDemanded(r: ScanResult, mode: SemanticMode) {
    match mode
    case TechnicalOnly => false
    case TargetedSemantic => r.technical.signals
    case ConfirmedSemantic => r.technical.score >= 40
  }

  predicate PassAnswered(r: ScanResult, mode: SemanticMode, backend: bool) {
    PassDemanded(r, mode) && backend && r.reply.Answers?
  }

  predicate PassFailed(r: ScanResult, mode: SemanticMode, backend: bool) {
    PassDemanded(r, mode) && !(backend && r.reply.Answers?)
  }

  // The score that counts: with the opinion when there is one, otherwise the technical one.
  function FinalScore(r: ScanResult, mode: SemanticMode, backend: bool): (score: nat)
    requires r.Valid()
  {
    if PassAnswered(r, mode, backend) then Combine(r.technical, r.reply.verdict, r.reply.confidence).score
    else r.technical.score
  }

  // An alert, or a pass that was asked for and not made.
  predicate Endangered(r: ScanResult, mode: SemanticMode, backend: bool)
    requires r.Valid()
  {
    PassFailed(r, mode, backend) || FinalScore(r, mode, backend) >= 40
  }

  // The proposal of the ordinary policy is withdrawn, unless it was to keep the message.
  predicate Withdrawn(r: ScanResult, mode: SemanticMode, backend: bool)
    requires r.Valid()
  {
    r.decision.action != Keep && Endangered(r, mode, backend)
  }

  // The assessment a message is to be stored with.
  predicate IsVerdict(a: Assessment, r: ScanResult, mode: SemanticMode, backend: bool)
    requires r.Valid()
  {
    && a.engine == "threat-consensus-v3" && a.signals == r.technical.signals
    && (a.alert <==> r.technical.score >= 40) && (a.protective <==> Withdrawn(r, mode, backend))
    && (if PassAnswered(r, mode, backend) then a.analyzer == Model(r.reply.name)
        else if PassDemanded(r, mode) then a.analyzer == if backend then LocalModelFailure else LocalModelUnavailable
        else if mode == TechnicalOnly then a.analyzer == OnlyTechnical
        else a.analyzer == if r.technical.signals then BelowAlert else ScreenClear)
  }

  lemma JudgeMeans(r: ScanResult, mode: SemanticMode, backend: bool)
    requires r.Valid()
    ensures var j := Judge(r, mode, backend);
      && IsVerdict(j.assessment, r, mode, backend) && j.level == LevelOf(FinalScore(r, mode, backend))
      && (j.candidate <==> FinalScore(r, mode, backend) >= 40)
      && (j.requested <==> PassDemanded(r, mode)) && (j.failed <==> PassFailed(r, mode, backend))
  {
    ScoreOfBoth(r.technical, UncertainVerdict, 0.0);
    if PassAnswered(r, mode, backend) {
      ScoreOfBoth(r.technical, r.reply.verdict, r.reply.confidence);
    }
  }

  // What the stage does to one message: a withdrawn proposal becomes a review, and the tags say why.
  lemma ThreatStageMeans(r: ScanResult, mode: SemanticMode, backend: bool)
    requires r.Valid()
    ensures var after, score := AfterThreat(r, mode, backend), FinalScore(r, mode, backend);
      && after == r.(decision := after.decision)
      && after.decision.action == (if Withdrawn(r, mode, backend) then Review else r.decision.action)
      && (!Withdrawn(r, mode, backend) && score < 40 ==> after == r)
      && (Withdrawn(r, mode, backend) || score >= 40 ==>
            forall x :: x in after.decision.reasons <==>
              || x in r.decision.reasons
              || (x == ThreatProtectiveReview && Withdrawn(r, mode, backend))
              || (x == ThreatAnalysisIncomplete && PassFailed(r, mode, backend))
              || (x == ThreatMarkerCandidate && score >= 40)
              || x == ThreatLevel(LevelOf(score)))
  {
    JudgeMeans(r, mode, backend);
  }

  lemma JudgementIsCurrent(r: ScanResult, mode: SemanticMode, backend: bool)
    requires r.Valid()
    ensures Current(Judge(r, mode, backend).assessment) && !Stale(Judge(r, mode, backend).assessment, mode)
    ensures Demands(mode, r.technical.signals, Alert(LevelOf(r.technical.score)))
      <==> Attempted(Judge(r, mode, backend).assessment.analyzer)
  {
  }

  function AfterThreat(r: ScanResult, mode: SemanticMode, backend: bool): (r': ScanResult)
    requires r.Valid()
  {
    var j := Judge(r, mode, backend);
    if !j.candidate && !j.assessment.protective then r
    else
      var tags :=
        r.decision.reasons
        + (if j.assessment.protective then [ThreatProtectiveReview] else [])
        + (if j.failed then [ThreatAnalysisIncomplete] else [])
        + (if j.candidate then [ThreatMarkerCandidate] else [])
        + [ThreatLevel(j.level)];
      r.(decision := Decision(if j.assessment.protective then Review else r.decision.action, Deduplicated(tags)))
  }

  // The stage on a whole batch: the same messages, in the same order.
  function ThreatBatch(results: seq<ScanResult>, mode: SemanticMode, backend: bool): (updated: seq<ScanResult>)
    requires AllValid(results)
    ensures |updated| == |results|
  {
    if results == [] then []
    else
      ThreatBatch(results[..|results| - 1], mode, backend) + [AfterThreat(results[|results| - 1], mode, backend)]
  }

  lemma {:induction false} ThreatBatchAt(results: seq<ScanResult>, mode: SemanticMode, backend: bool, i: nat)
    requires AllValid(results) && i < |results|
    ensures ThreatBatch(results, mode, backend)[i] == AfterThreat(results[i], mode, backend)
    decreases |results|
  {
    if i < |results| - 1 {
      ThreatBatchAt(results[..|results| - 1], mode, backend, i);
    }
  }

  datatype ThreatSummary = ThreatSummary(assessed: nat, protectedNow: nat, requested: nat, skipped: nat, failures: nat)

  // The counters of the stage over a batch.
  function ThreatTotals(results: seq<ScanResult>, mode: SemanticMode, backend: bool): (s: ThreatSummary)
    requires AllValid(results)
  {
    if results == [] then ThreatSummary(0, 0, 0, 0, 0)
    else
      var before, last := ThreatTotals(results[..|results| - 1], mode, backend), results[|results| - 1];
      ThreatSummary(before.assessed + 1,
                    before.protectedNow + (if Withdrawn(last, mode, backend) then 1 else 0),
                    before.requested + (if PassDemanded(last, mode) then 1 else 0),
                    before.skipped + (if PassDemanded(last, mode) then 0 else 1),
                    before.failures + (if PassFailed(last, mode, backend) then 1 else 0))
  }

  // Every message is assessed, and a pass was either asked for or skipped.
  lemma {:induction false} ThreatTotalsAddUp(results: seq<ScanResult>, mode: SemanticMode, backend: bool)
    requires AllValid(results)
    ensures var s := ThreatTotals(results, mode, backend);
      && s.assessed == s.requested + s.skipped == |results|
      && s.failures <= s.requested && s.protectedNow <= |results|
  {
    if results != [] {
      ThreatTotalsAddUp(results[..|results| - 1], mode, backend);
    }
  }

  function Key(r: ScanResult, profile: string): RowKey { RowKey(r.message, profile) }

  // Every message of the batch has a current assessment, which no reset of the session will withdraw.
  ghost predicate BatchAssessed(t: Tables, results: seq<ScanResult>, profile: string, mode: SemanticMode) {
    forall i :: 0 <= i < |results| ==> AssessedFor(t, Key(results[i], profile), mode)
  }

  ghost predicate AssessedFor(t: Tables, key: RowKey, mode: SemanticMode) {
    key in t.threats && Current(t.threats[key]) && !Stale(t.threats[key], mode)
  }

  // The transactions of the threat stage, one per message, in order.
  function Verdicts(results: seq<ScanResult>, profile: string, mode: SemanticMode,
                    backend: bool): (actions: seq<Action>)
    requires AllValid(results)
  {
    if results == [] then []
    else
      var last := results[|results| - 1];
      Verdicts(results[..|results| - 1], profile, mode, backend)
      + [Assess(Key(last, profile), Judge(last, mode, backend).assessment)]
  }

  // What a prefix of the batch has done to the store; nothing but the assessments of the batch and the rows they
  // protect is touched.
  ghost predicate Judged(
    before: Machine, after: Machine, results: seq<ScanResult>, profile: string, mode: SemanticMode, batch: set<RowKey>)
  {
    && after.session == before.session && after.done == before.done
    && after.tables.executions == before.tables.executions && after.tables.answers == before.tables.answers
    && SameProgress(before.tables.shadow, after.tables.shadow) && Confined(before.tables, after.tables, batch)
    && BatchAssessed(after.tables, results, profile, mode)
  }

  lemma OneMoreJudged(
    before: Machine, middle: Machine, results: seq<ScanResult>, i: nat, profile: string, mode: SemanticMode,
    batch: set<RowKey>, a: Assessment)
    requires i < |results| && Judged(before, middle, results[..i], profile, mode, batch)
    requires Current(a) && !Stale(a, mode) && Key(results[i], profile) in batch
    ensures Judged(before, middle.(tables := RecordAssessment(middle.tables, Key(results[i], profile), a)),
                   results[..i + 1], profile, mode, batch)
  {
    var after := RecordAssessment(middle.tables, Key(results[i], profile), a);
    forall j | 0 <= j < i + 1 ensures AssessedFor(after, Key(results[j], profile), mode) {
      if j < i {
        assert AssessedFor(middle.tables, Key(results[..i][j], profile), mode);
      }
    }
  }

  function BatchKeys(results: seq<ScanResult>, profile: string): (keys: set<RowKey>)
    ensures forall i :: 0 <= i < |results| ==> Key(results[i], profile) in keys
    ensures forall k :: k in keys ==> exists i :: 0 <= i < |results| && k == Key(results[i], profile)
  {
    set i | 0 <= i < |results| :: Key(results[i], profile)
  }

  // Every message of the batch has its verdict; of a message that is there twice, the last one.
  ghost predicate VerdictsStored(
    t: Tables, results: seq<ScanResult>, profile: string, mode: SemanticMode, backend: bool)
    requires AllValid(results)
  {
    forall i :: 0 <= i < |results| ==> VerdictStored(t, results, i, profile, mode, backend)
  }

  ghost predicate VerdictStored(
    t: Tables, results: seq<ScanResult>, i: nat, profile: string, mode: SemanticMode, backend: bool)
    requires AllValid(results) && i < |results|
  {
    (forall j :: i < j < |results| ==> results[j].message != results[i].message) ==>
      Key(results[i], profile) in t.threats && IsVerdict(t.threats[Key(results[i], profile)], results[i], mode, backend)
  }

  lemma OneMoreStored(
    t: Tables, results: seq<ScanResult>, i: nat, profile: string, mode: SemanticMode, backend: bool, a: Assessment)
    requires AllValid(results) && i < |results| && VerdictsStored(t, results[..i], profile, mode, backend)
    requires IsVerdict(a, results[i], mode, backend)
    ensures VerdictsStored(RecordAssessment(t, Key(results[i], profile), a), results[..i + 1], profile, mode, backend)
  {
    var t', more := RecordAssessment(t, Key(results[i], profile), a), results[..i + 1];
    forall j | 0 <= j < i + 1 ensures VerdictStored(t', more, j, profile, mode, backend) {
      if j < i && (forall k :: j < k < |more| ==> more[k].message != more[j].message) {
        assert VerdictStored(t, results[..i], j, profile, mode, backend);
        assert more[i].message != more[j].message;
        assert forall k :: j < k < i ==> results[..i][k] == more[k];
      }
    }
  }

  // The messages whose proposal the stage withdraws.
  function WithdrawnKeys(results: seq<ScanResult>, profile: string, mode: SemanticMode, backend: bool): set<RowKey>
    requires AllValid(results)
  {
    set i | 0 <= i < |results| && Withdrawn(results[i], mode, backend) :: Key(results[i], profile)
  }

  // Their rows become protected reviews, and no other row changes.
  function Protect(shadow: map<RowKey, ShadowRow>, keys: set<RowKey>): map<RowKey, ShadowRow> {
    map k | k in shadow :: if k in keys then shadow[k].(action := Review, hardProtected := true) else shadow[k]
  }

  lemma OneMoreWithdrawn(results: seq<ScanResult>, i: nat, profile: string, mode: SemanticMode, backend: bool)
    requires AllValid(results) && i < |results|
    ensures WithdrawnKeys(results[..i + 1], profile, mode, backend)
      == WithdrawnKeys(results[..i], profile, mode, backend)
      + if Withdrawn(results[i], mode, backend) then {Key(results[i], profile)} else {}
  {
    var more, fewer := results[..i + 1], results[..i];
    forall k | k in WithdrawnKeys(fewer, profile, mode, backend)
      ensures k in WithdrawnKeys(more, profile, mode, backend)
    {
      var j :| 0 <= j < i && Withdrawn(fewer[j], mode, backend) && k == Key(fewer[j], profile);
      assert more[j] == fewer[j];
    }
    forall k | k in WithdrawnKeys(more, profile, mode, backend)
      ensures k in WithdrawnKeys(fewer, profile, mode, backend)
        || (Withdrawn(results[i], mode, backend) && k == Key(results[i], profile))
    {
      var j :| 0 <= j < i + 1 && Withdrawn(more[j], mode, backend) && k == Key(more[j], profile);
      assert j < i ==> fewer[j] == more[j];
    }
    assert more[i] == results[i];
  }

  lemma ProtectOneMore(
    t: Tables, t': Tables, results: seq<ScanResult>, i: nat, profile: string, mode: SemanticMode, backend: bool,
    a: Assessment)
    requires AllValid(results) && i < |results| && IsVerdict(a, results[i], mode, backend)
    requires t'.shadow == Protect(t.shadow, WithdrawnKeys(results[..i], profile, mode, backend))
    ensures RecordAssessment(t', Key(results[i], profile), a).shadow
      == Protect(t.shadow, WithdrawnKeys(results[..i + 1], profile, mode, backend))
  {
    OneMoreWithdrawn(results, i, profile, mode, backend);
  }

  // What the stage has done to the store, whose trace was earlier, after some results of the batch.
  ghost predicate StageDone(
    before: Machine, after: Machine, earlier: seq<Action>, trace: seq<Action>, results: seq<ScanResult>,
    profile: string, mode: SemanticMode, backend: bool, batch: set<RowKey>)
    requires AllValid(results)
  {
    && trace == earlier + Verdicts(results, profile, mode, backend)
    && Judged(before, after, results, profile, mode, batch)
    && VerdictsStored(after.tables, results, profile, mode, backend)
    && after.tables.shadow == Protect(before.tables.shadow, WithdrawnKeys(results, profile, mode, backend))
  }

  // record_threat_assessment for one result of the batch.
  method RecordJudgement(
    store: PreferenceStore, results: seq<ScanResult>, i: nat, profile: string, mode: SemanticMode, backend: bool,
    ghost before: Machine, ghost earlier: seq<Action>)
    requires store.Settled() && AllValid(results) && i < |results|
    requires StageDone(before, store.Now(), earlier, store.trace, results[..i], profile, mode, backend,
                       BatchKeys(results, profile))
    modifies store
    ensures store.Settled()
    ensures StageDone(before, store.Now(), earlier, store.trace, results[..i + 1], profile, mode, backend,
                      BatchKeys(results, profile))
  {
    var a := Judge(results[i], mode, backend).assessment;
    JudgementIsCurrent(results[i], mode, backend);
    JudgeMeans(results[i], mode, backend);
    OneMoreJudged(before, store.Now(), results, i, profile, mode, BatchKeys(results, profile), a);
    OneMoreStored(store.Contents(), results, i, profile, mode, backend, a);
    ProtectOneMore(before.tables, store.Contents(), results, i, profile, mode, backend, a);
    store.RecordThreatAssessment(Key(results[i], profile), a);
    assert results[..i + 1][..i] == results[..i];
  }

  // The counters of the stage after a prefix of the batch.
  ghost predicate Tallied(s: ThreatSummary, results: seq<ScanResult>, mode: SemanticMode, backend: bool)
    requires AllValid(results)
  {
    && s == ThreatTotals(results, mode, backend)
    && s.assessed == |results| == s.requested + s.skipped && s.failures <= s.requested
  }

  function Tally(s: ThreatSummary, j: Judgement): ThreatSummary {
    ThreatSummary(s.assessed + 1, s.protectedNow + (if j.assessment.protective then 1 else 0),
                  s.requested + (if j.requested then 1 else 0), s.skipped + (if j.requested then 0 else 1),
                  s.failures + (if j.requested && j.failed then 1 else 0))
  }

  lemma OneMoreTallied(s: ThreatSummary, results: seq<ScanResult>, i: nat, mode: SemanticMode, backend: bool)
    requires AllValid(results) && i < |results| && Tallied(s, results[..i], mode, backend)
    ensures Tallied(Tally(s, Judge(results[i], mode, backend)), results[..i + 1], mode, backend)
  {
    assert results[..i + 1][..i] == results[..i];
    JudgeMeans(results[i], mode, backend);
  }

  // The rewritten result and the counters of one round.
  method CountJudgement(
    results: seq<ScanResult>, i: nat, mode: SemanticMode, backend: bool, updated: seq<ScanResult>,
    summary: ThreatSummary)
    returns (updated': seq<ScanResult>, summary': ThreatSummary)
    requires AllValid(results) && i < |results| && updated == ThreatBatch(results[..i], mode, backend)
    requires Tallied(summary, results[..i], mode, backend)
    ensures updated' == ThreatBatch(results[..i + 1], mode, backend)
    ensures Tallied(summary', results[..i + 1], mode, backend)
  {
    OneMoreTallied(summary, results, i, mode, backend);
    summary' := Tally(summary, Judge(results[i], mode, backend));
    updated' := updated + [AfterThreat(results[i], mode, backend)];
    assert results[..i + 1][..i] == results[..i];
  }

  // _apply_threat_protection
  method ApplyThreatProtection(
    store: PreferenceStore, results: seq<ScanResult>, profile: string, mode: SemanticMode, backend: bool)
    returns (updated: seq<ScanResult>, summary: ThreatSummary)
    requires store.Settled() && AllValid(results)
    modifies store
    ensures store.Settled()
    ensures StageDone(old(store.Now()), store.Now(), old(store.trace), store.trace, results, profile, mode, backend,
                      BatchKeys(results, profile))
    ensures updated == ThreatBatch(results, mode, backend)
    ensures Tallied(summary, results, mode, backend)
  {
    updated, summary := [], ThreatSummary(0, 0, 0, 0, 0);
    var i := 0;
    while i < |results|
      invariant 0 <= i <= |results| && updated == ThreatBatch(results[..i], mode, backend)
      invariant store.Settled()
      invariant StageDone(old(store.Now()), store.Now(), old(store.trace), store.trace, results[..i], profile, mode,
                          backend, BatchKeys(results, profile))
      invariant Tallied(summary, results[..i], mode, backend)
    {
      RecordJudgement(store, results, i, profile, mode, backend, old(store.Now()), old(store.trace));
      updated, summary := CountJudgement(results, i, mode, backend, updated, summary);
      i := i + 1;
    }
    assert results[..|results|] == results;
  }

  // ---- the proof stage ----

  // lifecycle_hard_protected
  predicate LifecycleProtected(r: ScanResult) {
    HasHardReason(r.decision.reasons) || r.protectedContent || r.category == Banking
  }

  predicate Proven(r: ScanResult, proofs: ProofTable, profile: string) {
    !LifecycleProtected(r) && HoldsVerified(proofs, Key(r, profile))
  }

  function AfterProof(r: ScanResult, proofs: ProofTable, profile: string, direct: bool): (r': ScanResult) {
    if !Proven(r, proofs, profile) || r.decision.action == Keep then r
    else if r.decision.action == Quarantine then
      r.(decision := Decision(Quarantine, Deduplicated(r.decision.reasons + [ProofVerified])))
    else if direct then r
    else r.(decision := Decision(Quarantine, [ProofVerified, ProofWitness(proofs[Key(r, profile)].proof.closure)]))
  }

  function ProofBatch(results: seq<ScanResult>, proofs: ProofTable, profile: string,
                      direct: bool): (updated: seq<ScanResult>)
    ensures |updated| == |results|
  {
    if results == [] then []
    else
      ProofBatch(results[..|results| - 1], proofs, profile, direct)
      + [AfterProof(results[|results| - 1], proofs, profile, direct)]
  }

  lemma {:induction false} ProofBatchAt(results: seq<ScanResult>, proofs: ProofTable, profile: string, direct: bool,
                                        i: nat)
    requires i < |results|
    ensures ProofBatch(results, proofs, profile, direct)[i] == AfterProof(results[i], proofs, profile, direct)
    decreases |results|
  {
    if i < |results| - 1 {
      ProofBatchAt(results[..|results| - 1], proofs, profile, direct, i);
    }
  }

  datatype ProofSummary = ProofSummary(verified: nat, promoted: nat, confirmed: nat, withheld: nat)

  // Nothing about the message forbids acting on a proof.
  predicate Unprotected(r: ScanResult) {
    && (forall x :: x in r.decision.reasons ==> !x.Hard? && !x.ThreatProtectiveReview?)
    && !r.protectedContent && r.category != Banking
  }

  // The counters of the stage over a batch.
  function ProofTotals(results: seq<ScanResult>, proofs: ProofTable, profile: string,
                       direct: bool): (s: ProofSummary)
  {
    if results == [] then ProofSummary(0, 0, 0, 0)
    else
      var before, last := ProofTotals(results[..|results| - 1], proofs, profile, direct), results[|results| - 1];
      if !Unprotected(last) || !HoldsVerified(proofs, Key(last, profile)) then before
      else
        ProofSummary(before.verified + 1,
                     before.promoted + (if last.decision.action in {Review, LabelReview} && !direct then 1 else 0),
                     before.confirmed + (if last.decision.action == Quarantine then 1 else 0),
                     before.withheld + (if last.decision.action in {Review, LabelReview} && direct then 1 else 0))
  }

  // Verified proofs overruled by an ordinary KEEP; the summary of the stage does not report them.
  function KeptDespiteProof(results: seq<ScanResult>, proofs: ProofTable, profile: string): (n: nat) {
    if results == [] then 0
    else
      var last := results[|results| - 1];
      KeptDespiteProof(results[..|results| - 1], proofs, profile)
      + if Unprotected(last) && HoldsVerified(proofs, Key(last, profile)) && last.decision.action == Keep then 1 else 0
  }

  function Quarantined(results: seq<ScanResult>): (n: nat) {
    if results == [] then 0
    else Quarantined(results[..|results| - 1]) + if results[|results| - 1].decision.action == Quarantine then 1 else 0
  }

  // The totals add up, and quarantines grow by exactly the promoted ones.
  ghost predicate AddsUp(
    s: ProofSummary, updated: seq<ScanResult>, results: seq<ScanResult>, proofs: ProofTable, profile: string,
    direct: bool)
  {
    && s.verified == s.promoted + s.confirmed + s.withheld + KeptDespiteProof(results, proofs, profile)
    && Quarantined(updated) == Quarantined(results) + s.promoted
    && (if direct then s.promoted == 0 else s.withheld == 0)
  }

  lemma {:induction false} ProofTotalsAddUp(
    results: seq<ScanResult>, proofs: ProofTable, profile: string, direct: bool)
    ensures AddsUp(ProofTotals(results, proofs, profile, direct), ProofBatch(results, proofs, profile, direct),
                   results, proofs, profile, direct)
  {
    if results != [] {
      ProofTotalsAddUp(results[..|results| - 1], proofs, profile, direct);
      AfterProofMeans(results[|results| - 1], proofs, profile, direct);
    }
  }

  // The stage quarantines a message that was not kept, is unprotected and holds a verified proof, unless what is
  // quarantined goes to the trash directly; other than that it only adds a tag.
  lemma AfterProofMeans(r: ScanResult, proofs: ProofTable, profile: string, direct: bool)
    ensures var r' := AfterProof(r, proofs, profile, direct);
      var proven := Unprotected(r) && HoldsVerified(proofs, Key(r, profile));
      && r' == r.(decision := r'.decision)
      && (!proven || r.decision.action == Keep ==> r' == r)
      && (proven && r.decision.action == Quarantine ==>
            r'.decision.action == Quarantine
            && forall x :: x in r'.decision.reasons <==> x in r.decision.reasons || x == ProofVerified)
      && (proven && r.decision.action in {Review, LabelReview} ==>
            if direct then r' == r
            else
              r'.decision
              == Decision(Quarantine, [ProofVerified, ProofWitness(proofs[Key(r, profile)].proof.closure)]))
  {
    assert Unprotected(r) <==> !LifecycleProtected(r);
  }

  // One round: the hard guardrails first, then the ledger, then the proposal of the ordinary policy.
  method ProveResult(
    results: seq<ScanResult>, i: nat, s: ProofSummary, proofs: ProofTable, profile: string, direct: bool)
    returns (r': ScanResult, s': ProofSummary)
    requires i < |results| && s == ProofTotals(results[..i], proofs, profile, direct)
    ensures r' == AfterProof(results[i], proofs, profile, direct)
    ensures s' == ProofTotals(results[..i + 1], proofs, profile, direct)
  {
    var r := results[i];
    r', s' := r, s;
    assert results[..i + 1][..i] == results[..i];
    assert Unprotected(r) <==> !LifecycleProtected(r);
    if LifecycleProtected(r) {
      return;
    }
    if !(Key(r, profile) in proofs && proofs[Key(r, profile)].proof.status == Verified) {
      return;
    }
    s' := s'.(verified := s'.verified + 1);
    if r.decision.action == Keep {
      return;
    }
    if r.decision.action == Quarantine {
      s' := s'.(confirmed := s'.confirmed + 1);
      r' := r.(decision := Decision(Quarantine, Deduplicated(r.decision.reasons + [ProofVerified])));
    } else if direct {
      s' := s'.(withheld := s'.withheld + 1);
    } else {
      s' := s'.(promoted := s'.promoted + 1);
      r' := r.(decision := Decision(Quarantine, [ProofVerified, ProofWitness(proofs[Key(r, profile)].proof.closure)]));
    }
  }

  lemma ProofBatchGrows(results: seq<ScanResult>, i: nat, proofs: ProofTable, profile: string, direct: bool)
    requires i < |results|
    ensures ProofBatch(results[..i + 1], proofs, profile, direct)
      == ProofBatch(results[..i], proofs, profile, direct) + [AfterProof(results[i], proofs, profile, direct)]
  {
    assert results[..i + 1][..i] == results[..i];
  }

  // _apply_obsolescence_proofs
  method ApplyObsolescenceProofs(results: seq<ScanResult>, proofs: ProofTable, profile: string, direct: bool)
    returns (updated: seq<ScanResult>, summary: ProofSummary)
    ensures updated == ProofBatch(results, proofs, profile, direct)
    ensures summary == ProofTotals(results, proofs, profile, direct)
    ensures AddsUp(summary, updated, results, proofs, profile, direct)
  {
    updated, summary := [], ProofSummary(0, 0, 0, 0);
    var i := 0;
    while i < |results|
      invariant 0 <= i <= |results|
      invariant updated == ProofBatch(results[..i], proofs, profile, direct)
      invariant summary == ProofTotals(results[..i], proofs, profile, direct)
    {
      var r', s' := ProveResult(results, i, summary, proofs, profile, direct);
      ProofBatchGrows(results, i, proofs, profile, direct);
      updated, summary := updated + [r'], s';
      i := i + 1;
    }
    assert results[..|results|] == results;
    ProofTotalsAddUp(results, proofs, profile, direct);
  }

  // ---- both stages together ----

  function AfterBoth(r: ScanResult, mode: SemanticMode, backend: bool, proofs: ProofTable, profile: string,
                     direct: bool)
    : (r': ScanResult)
    requires r.Valid()
  {
    AfterProof(AfterThreat(r, mode, backend), proofs, profile, direct)
  }

  lemma HardAfterThreat(r: ScanResult, mode: SemanticMode, backend: bool)
    requires r.Valid()
    ensures HasHardReason(AfterThreat(r, mode, backend).decision.reasons)
      <==> HasHardReason(r.decision.reasons) || Withdrawn(r, mode, backend)
  {
    ThreatStageMeans(r, mode, backend);
    var after := AfterThreat(r, mode, backend);
    if Withdrawn(r, mode, backend) {
      assert ThreatProtectiveReview in after.decision.reasons;
    }
  }

  // Which proposals end in quarantine, for every batch and every combination of settings: those the
  // ordinary policy put there and no threat verdict withdrew, and those a verified proof promotes, which
  // takes a proposal that is not KEEP, an unprotected message, no threat verdict, and not direct-to-Trash.
  lemma QuarantineAfterBothStages(
    r: ScanResult, mode: SemanticMode, backend: bool, proofs: ProofTable, profile: string, direct: bool)
    requires r.Valid()
    ensures var final := AfterBoth(r, mode, backend, proofs, profile, direct);
      var protective := r.decision.action != Keep && Endangered(r, mode, backend);
      && final == r.(decision := final.decision)
      && (r.decision.action == Keep ==> final.decision.action == Keep)
      && (final.decision.action == Keep ==> r.decision.action == Keep)
      && (protective ==> final.decision.action == Review)
      && (final.decision.action == Quarantine <==>
            || (r.decision.action == Quarantine && !protective)
            || (r.decision.action != Keep && !protective && !direct && Unprotected(r)
                && HoldsVerified(proofs, Key(r, profile))))
  {
    ThreatStageMeans(r, mode, backend);
    HardAfterThreat(r, mode, backend);
    AfterProofMeans(AfterThreat(r, mode, backend), proofs, profile, direct);
  }

  // The proof stage never loses a threat marker, so it does not matter that Gmail selects its markers
  // after that stage and Yahoo before it.
  lemma MarkersSurviveTheProofStage(
    r: ScanResult, mode: SemanticMode, backend: bool, proofs: ProofTable, profile: string, direct: bool)
    requires r.Valid() && ThreatMarkerCandidate !in r.decision.reasons
    ensures ThreatMarkerCandidate in AfterBoth(r, mode, backend, proofs, profile, direct).decision.reasons
      <==> ThreatMarkerCandidate in AfterThreat(r, mode, backend).decision.reasons
  {
    ThreatStageMeans(r, mode, backend);
    HardAfterThreat(r, mode, backend);
  }
}
