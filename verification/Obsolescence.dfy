/** proof_of_obsolescence.py: closure proofs and the successor rule of the lifecycle graph. */
module Obsolescence {
  import opened Mail
  import opened Lifecycle

  datatype ProofStatus = Verified | BlockedProtectedUtility | InsufficientEvidence

  datatype Witness =
    | DeterministicOtpExpiry | SuccessorCompleted | SuccessorReplaced | VerifiedDateElapsed
    | MultiSignalConsensus | NoWitness

  // ProofDestination has a single member, quarantine, so a proof carries no destination here.
  datatype Proof = Proof(status: ProofStatus, closure: Witness, confidence: nat)
  {
    predicate Valid() {
      confidence <= 9 && (status == Verified ==> closure != NoWitness)
    }
  }

  // The reason codes handed to the dataclass.  len() counts codes in a tuple but characters in a str.
  datatype Reasons = Codes(codes: seq<string>) | Text(text: string)
  {
    function Length(): nat { if Codes? then |codes| else |text| }
  }

  // ObsolescenceProof.__post_init__
  function MakeProof(status: ProofStatus, closure: Witness, reasons: Reasons, confidence: nat): (r: Result<Proof>)
    ensures r.Ok? ==> r.value.Valid()
    ensures r.Ok? <==> confidence <= 9 && 1 <= reasons.Length() <= 6 && (status == Verified ==> closure != NoWitness)
  {
    if confidence > 9 || !(1 <= reasons.Length() <= 6) || (status == Verified && closure == NoWitness) then Rejected
    else Ok(Proof(status, closure, confidence))
  }

  // min(9, int(confidence * 10))
  function Bucket(confidence: real): (b: nat)
    requires 0.0 <= confidence <= 1.0
    ensures b <= 9
  {
    var tenths := (confidence * 10.0).Floor;
    if tenths >= 9 then 9 else tenths
  }

  // What the deterministic proofs read off a message besides its lifecycle observation.
  datatype Facts = Facts(category: Category, confidence: real, hardProtected: bool, reading: Reading)

  predicate OtpClosed(f: Facts, o: Observation, minimumAge: nat) {
    && f.category == OneTimeCode && f.confidence >= 0.80 && !f.reading.unread && f.reading.ageDays >= minimumAge
    && !o.utility.evidentiary && !o.utility.personal
  }

  // deterministic_otp_proof
  function OtpProof(f: Facts, o: Observation, minimumAge: nat): (r: Result<Option<Proof>>)
    requires o.Valid()
    ensures r.Ok?
    ensures r.value.Some? <==> o.kind == OneTimeCodeKind
    ensures r.value.Some? ==>
      r.value.value.Valid() && (r.value.value.status == Verified <==> !f.hardProtected && OtpClosed(f, o, minimumAge))
    ensures r.value.Some? && r.value.value.status == Verified ==> r.value.value.closure == DeterministicOtpExpiry
    ensures r.value.Some? && r.value.value.status != Verified ==>
      (r.value.value.status == BlockedProtectedUtility
       <==> f.hardProtected || o.utility.evidentiary || o.utility.personal)
  {
    if o.kind != OneTimeCodeKind then Ok(None)
    else if f.hardProtected then
      Present(MakeProof(BlockedProtectedUtility, NoWitness, Codes(["hard_guardrail"]), Bucket(o.confidence)))
    else if OtpClosed(f, o, minimumAge) then
      Present(MakeProof(Verified, DeterministicOtpExpiry,
                        Codes(["read_otp", "age_threshold", "expired_state", "no_protected_utility"]), 9))
    else if o.utility.evidentiary || o.utility.personal then
      Present(MakeProof(BlockedProtectedUtility, NoWitness, Codes(["protected_utility_remains"]), Bucket(o.confidence)))
    else
      Present(MakeProof(InsufficientEvidence, NoWitness, Codes(["otp_closure_not_verified"]), Bucket(o.confidence)))
  }

  function Present(r: Result<Proof>): Result<Option<Proof>> {
    if r.Ok? then Ok(Some(r.value)) else Rejected
  }

  predicate DateClosed(f: Facts, o: Observation) {
    && f.reading.expiry.Some? && f.reading.expiry.value < f.reading.today
    && f.category == Advertising && f.confidence >= 0.90
    && !(o.utility.operational || o.utility.evidentiary || o.utility.personal || o.utility.security)
  }

  // deterministic_date_proof.  The last return passes one parenthesised string where the other
  // returns pass a tuple, so the dataclass counts its characters and refuses it.
  function DateProof(f: Facts, o: Observation): (r: Result<Option<Proof>>)
    requires o.Valid()
    ensures r.Rejected? <==> o.kind == Promotion && !f.hardProtected && !DateClosed(f, o)
    ensures r.Ok? ==> (r.value.Some? <==> o.kind == Promotion)
    ensures r.Ok? && r.value.Some? ==>
      && r.value.value.Valid() && (r.value.value.status == Verified <==> !f.hardProtected)
      && r.value.value.closure == if f.hardProtected then NoWitness else VerifiedDateElapsed
  {
    if o.kind != Promotion then Ok(None)
    else if f.hardProtected then
      Present(MakeProof(BlockedProtectedUtility, NoWitness, Codes(["hard_guardrail"]), Bucket(o.confidence)))
    else if DateClosed(f, o) then
      Present(MakeProof(Verified, VerifiedDateElapsed,
                        Codes(["explicit_expiry_date", "date_elapsed", "no_protected_utility"]), 9))
    else
      var remains := o.utility.operational || o.utility.evidentiary || o.utility.personal || o.utility.security;
      Present(MakeProof(if remains then BlockedProtectedUtility else InsufficientEvidence, NoWitness,
                        Text(if remains then "protected_utility_remains" else "date_closure_not_verified"),
                        Bucket(o.confidence)))
  }

  datatype Evidence = Evidence(
    kind: UtilityKind, state: LifecycleState, condition: Condition,
    operational: bool, evidentiary: bool, personal: bool, security: bool,
    hardProtected: bool, confidence: nat, reasons: seq<ReasonCode>, extractor: string)
  {
    predicate HasProtectedUtility() { evidentiary || personal || security }

    predicate Protected() { hardProtected || HasProtectedUtility() }
  }

  predicate Open(e: Evidence) {
    e.state in {Active, Pending} && e.operational
  }

  predicate Closed(e: Evidence) {
    && e.state in {Completed, Replaced}
    && e.condition == CompletedCondition
    && !e.operational
    && (if e.state == Completed then CompletionLanguage in e.reasons else ReplacementLanguage in e.reasons)
  }

  predicate TrustedModel(e: Evidence) {
    "mlx-lifecycle:gemma26" <= e.extractor && e.confidence >= 9
  }

  // successor_transition_proof: only a shipment that a later shipment message closes is verified.
  function SuccessorProof(before: Evidence, after: Evidence, profile: string): (p: Proof)
    ensures p.status == Verified <==>
      && before.kind == Shipment && after.kind == Shipment
      && !before.Protected() && !after.Protected()
      && "gemma26-" <= profile && TrustedModel(before) && TrustedModel(after)
      && Open(before) && Closed(after)
    ensures p.status == Verified ==>
      p.closure == if after.state == Completed then SuccessorCompleted else SuccessorReplaced
    ensures p.status == BlockedProtectedUtility <==>
      before.kind == after.kind == Shipment && (before.Protected() || after.Protected())
    ensures p.confidence <= before.confidence && p.confidence <= after.confidence
  {
    var confidence := Min(before.confidence, after.confidence);
    if before.kind != Shipment || after.kind != Shipment then
      Proof(InsufficientEvidence, NoWitness, confidence)
    else if before.hardProtected || after.hardProtected
            || before.HasProtectedUtility() || after.HasProtectedUtility() then
      Proof(BlockedProtectedUtility, NoWitness, confidence)
    else
      var supported := "gemma26-" <= profile;
      var consensus := TrustedModel(before) && TrustedModel(after);
      if supported && consensus && Open(before) && Closed(after) then
        Proof(Verified, if after.state == Completed then SuccessorCompleted else SuccessorReplaced, confidence)
      else
        Proof(InsufficientEvidence, NoWitness, confidence)
  }

  datatype ProofRow = ProofRow(proof: Proof, source: Option<RowKey>)

  type ProofTable = map<RowKey, ProofRow>

  predicate HoldsVerified(table: ProofTable, key: RowKey) {
    key in table && table[key].proof.status == Verified
  }

  // _upsert_obsolescence_proof: a verified row is only ever replaced by another verified proof.
  function Upsert(table: ProofTable, key: RowKey, row: ProofRow): (t: ProofTable) {
    if HoldsVerified(table, key) && row.proof.status != Verified then table else table[key := row]
  }

  datatype Write = Write(key: RowKey, row: ProofRow)

  function Upserts(table: ProofTable, writes: seq<Write>): (t: ProofTable) {
    if writes == [] then table
    else
      var last := writes[|writes| - 1];
      Upsert(Upserts(table, writes[..|writes| - 1]), last.key, last.row)
  }

  // The position of the write whose row the table shows, read off the log alone: the last verified
  // write to the key if there ever was one, otherwise the last write to the key.
  ghost predicate LastWrite(writes: seq<Write>, key: RowKey, i: nat) {
    i < |writes| && writes[i].key == key && forall j :: i < j < |writes| ==> writes[j].key != key
  }

  ghost predicate LastVerifiedWrite(writes: seq<Write>, key: RowKey, i: nat) {
    && i < |writes| && writes[i].key == key && writes[i].row.proof.status == Verified
    && forall j :: i < j < |writes| ==> !(writes[j].key == key && writes[j].row.proof.status == Verified)
  }

  ghost predicate EverVerified(writes: seq<Write>, key: RowKey) {
    exists i :: 0 <= i < |writes| && writes[i].key == key && writes[i].row.proof.status == Verified
  }

  ghost predicate EverWritten(writes: seq<Write>, key: RowKey) {
    exists i :: 0 <= i < |writes| && writes[i].key == key
  }

  lemma WrittenBeforeOrLast(writes: seq<Write>, key: RowKey)
    requires writes != []
    ensures var last, rest := writes[|writes| - 1], writes[..|writes| - 1];
      && (EverWritten(writes, key) <==> last.key == key || EverWritten(rest, key))
      && (EverVerified(writes, key)
          <==> (last.key == key && last.row.proof.status == Verified) || EverVerified(rest, key))
  {
    var rest := writes[..|writes| - 1];
    assert forall i :: 0 <= i < |rest| ==> rest[i] == writes[i];
    if EverVerified(rest, key) {
      var i :| 0 <= i < |rest| && rest[i].key == key && rest[i].row.proof.status == Verified;
      assert writes[i] == rest[i];
    }
    if EverWritten(rest, key) {
      var i :| 0 <= i < |rest| && rest[i].key == key;
      assert writes[i] == rest[i];
    }
  }

  lemma {:induction false} StoredExactlyWhenWritten(writes: seq<Write>, key: RowKey)
    ensures key in Upserts(map[], writes) <==> EverWritten(writes, key)
    ensures HoldsVerified(Upserts(map[], writes), key) <==> EverVerified(writes, key)
  {
    if writes != [] {
      StoredExactlyWhenWritten(writes[..|writes| - 1], key);
      WrittenBeforeOrLast(writes, key);
    }
  }

  ghost predicate DecidingWrite(writes: seq<Write>, key: RowKey, i: nat) {
    if EverVerified(writes, key) then LastVerifiedWrite(writes, key, i) else LastWrite(writes, key, i)
  }

  lemma {:induction false} DecidingWriteIsStored(writes: seq<Write>, key: RowKey, i: nat)
    requires DecidingWrite(writes, key, i)
    ensures key in Upserts(map[], writes) && Upserts(map[], writes)[key] == writes[i].row
    decreases |writes|
  {
    var n := |writes| - 1;
    var rest := writes[..n];
    StoredExactlyWhenWritten(rest, key);
    WrittenBeforeOrLast(writes, key);
    assert forall j :: 0 <= j < n ==> rest[j] == writes[j];
    if i < n {
      DecidingWriteIsStored(rest, key, i);
    }
  }

  // For every interleaving of proof writes: which row is stored, and that one is stored at all
  // exactly when one was written.
  lemma StoredProofIsLastVerifiedOrLast(writes: seq<Write>, key: RowKey)
    ensures key in Upserts(map[], writes) <==> EverWritten(writes, key)
    ensures HoldsVerified(Upserts(map[], writes), key) <==> EverVerified(writes, key)
    ensures forall i: nat :: DecidingWrite(writes, key, i) ==>
      key in Upserts(map[], writes) && Upserts(map[], writes)[key] == writes[i].row
  {
    StoredExactlyWhenWritten(writes, key);
    forall i: nat | DecidingWrite(writes, key, i)
      ensures key in Upserts(map[], writes) && Upserts(map[], writes)[key] == writes[i].row
    {
      DecidingWriteIsStored(writes, key, i);
    }
  }
}
