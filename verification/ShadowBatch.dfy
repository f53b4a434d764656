/** lumegraph_runtime.py: the messages of a batch, what is read off each of them, and which of them end the loop. */
module ShadowBatch {
  import opened Mail
  import opened Lifecycle
  import opened Obsolescence
  import opened LumeGraph
  import opened LumeGraphStore
  import Interest
  import InterestStore
  import RecentInterest

  // What the local model does with one message; a failure is an exception the loop catches, and any other
  // exception escapes it.
  datatype Reply = Answered(o: Observation) | Failed | Escaped

  // snapshot is what interest_for does for the message: it raises when the snapshot's constructor refuses it.
  datatype ShadowCandidate = ShadowCandidate(
    key: MessageKey, received: int, kind: UtilityKind, facts: Facts, tokens: seq<string>, reply: Reply,
    keeps: bool, modelDiscards: bool, snapshot: Result<InterestStore.Snapshot>)
  {
    predicate Valid() {
      && NoDuplicates(tokens) && (reply.Answered? ==> reply.o.Valid())
      && (snapshot.Ok? ==> snapshot.value.Valid())
    }
  }

  function Own(c: ShadowCandidate, profile: string): RowKey { RowKey(c.key, profile) }

  function RelationsOf(c: ShadowCandidate, profile: string): seq<RelationKey>
    requires c.Valid()
  {
    RelationKeys(RowKey(c.key, profile), RelationMaterials(c.kind, c.tokens))
  }

  // ---- the consensus proof ----

  predicate CorrectionsAgree(s: InterestStore.Snapshot) {
    && s.similarities.dontKeep.best >= 0.90 && s.similarities.dontKeep.examples >= 3
    && s.similarities.keep.best <= 0.35 && s.similarities.keep.examples == 0
  }

  predicate RegimeAgrees(s: InterestStore.Snapshot) {
    s.recent.score <= 0.20 && s.recent.evidence >= 3.0 && s.recent.examples >= 3
  }

  // multi_signal_consensus_proof: the model, repeated corrections and the current behaviour have to agree.
  function ConsensusProof(c: ShadowCandidate): (r: Option<Proof>)
    requires c.snapshot.Ok?
    ensures r.Some? <==> c.facts.category in {Advertising, Social, Spam}
    ensures r.Some? ==> r.value.Valid()
    ensures r.Some? ==>
      (r.value.status == Verified <==> !c.facts.hardProtected && !c.keeps && c.modelDiscards
                                       && CorrectionsAgree(c.snapshot.value) && RegimeAgrees(c.snapshot.value))
    ensures r.Some? ==> (r.value.status == BlockedProtectedUtility <==> c.facts.hardProtected || c.keeps)
  {
    if c.facts.category !in {Advertising, Social, Spam} then None
    else if c.facts.hardProtected || c.keeps then Some(Proof(BlockedProtectedUtility, NoWitness, 0))
    else
      var signals := (if c.modelDiscards then 1 else 0) + (if CorrectionsAgree(c.snapshot.value) then 1 else 0)
                     + (if RegimeAgrees(c.snapshot.value) then 1 else 0);
      Some(if signals == 3 then Proof(Verified, MultiSignalConsensus, 9)
           else Proof(InsufficientEvidence, NoWitness, 3 * signals))
  }

  // ---- the messages that end the loop ----

  ghost predicate UsesModel(c: ShadowCandidate, backend: bool) { backend && c.reply.Answered? }

  // The three exceptions that end the loop.  The first comes before anything is stored for the message, the
  // second after its consensus proof, the third after its node.
  ghost predicate InterestRaises(c: ShadowCandidate) { c.snapshot.Rejected? }

  ghost predicate ModelEscapes(c: ShadowCandidate, backend: bool) { c.kind != NoKind && backend && c.reply.Escaped? }

  // An unprotected promotion whose date closure is not verified.
  ghost predicate DateRaises(c: ShadowCandidate, backend: bool)
    requires c.Valid()
  {
    && c.kind != NoKind && !c.facts.hardProtected
    && (if UsesModel(c, backend) then c.reply.o.kind == Promotion && !DateClosed(c.facts, c.reply.o)
        else c.kind == Promotion && !(PromotionElapsed(c.kind, c.facts.reading)
                                      && c.facts.category == Advertising && c.facts.confidence >= 0.90))
  }

  // Whether the loop ends at a message, told from the message, its classification, the model's answer and the
  // learned preferences alone.
  ghost predicate Stops(c: ShadowCandidate, backend: bool)
    requires c.Valid()
  {
    InterestRaises(c) || ModelEscapes(c, backend) || DateRaises(c, backend)
  }

  // ... before its node is stored.
  ghost predicate StopsEarly(c: ShadowCandidate, backend: bool) { InterestRaises(c) || ModelEscapes(c, backend) }

  predicate CandidatesValid(results: seq<ShadowCandidate>) {
    forall i :: 0 <= i < |results| ==> results[i].Valid()
  }

  // No message of the batch stops it.
  ghost predicate NothingStops(results: seq<ShadowCandidate>, backend: bool)
    requires CandidatesValid(results)
  {
    results == []
    || (NothingStops(results[..|results| - 1], backend) && !Stops(results[|results| - 1], backend))
  }

  lemma {:induction false} NothingStopsMeans(results: seq<ShadowCandidate>, backend: bool)
    requires CandidatesValid(results)
    ensures NothingStops(results, backend) <==> forall i :: 0 <= i < |results| ==> !Stops(results[i], backend)
  {
    if results != [] {
      NothingStopsMeans(results[..|results| - 1], backend);
    }
  }

  lemma OneMoreDoesNotStop(results: seq<ShadowCandidate>, i: nat, backend: bool)
    requires i < |results| && CandidatesValid(results)
    requires NothingStops(results[..i], backend) && !Stops(results[i], backend)
    ensures NothingStops(results[..i + 1], backend)
  {
    assert results[..i + 1][..i] == results[..i];
  }

  // ---- the observation of a message ----

  // The observation the loop stores for a message: the model's, or the heuristic one, tagged when the model failed.
  ghost predicate Observes(c: ShadowCandidate, backend: bool, o: Observation)
    requires c.kind != NoKind
  {
    if UsesModel(c, backend) then o == c.reply.o
    else
      exists h: Observation :: Extracted(h, c.kind, c.facts.reading) &&
        if !backend then o == h
        else o == h.(reasons := h.reasons + [ModelFailure], extractor := "heuristic-lifecycle-v1:model-failure")
  }

  // The observation stored for a message, tagged when the model failed on it.  The dataclass accepts it.
  method Extract(c: ShadowCandidate, backend: bool) returns (o: Observation)
    requires c.Valid() && c.kind != NoKind && !ModelEscapes(c, backend)
    ensures o.Valid()
    ensures UsesModel(c, backend) ==> o == c.reply.o
    ensures !UsesModel(c, backend) ==> o.kind == c.kind && (ModelFailure in o.reasons <==> backend)
    ensures DateRaises(c, backend) <==> DateProof(c.facts, o).Rejected?
    ensures Observes(c, backend, o)
  {
    if backend && c.reply.Answered? {
      return c.reply.o;
    }
    var heuristic := ExtractLifecycle(c.kind, c.facts.reading);
    o := heuristic.value;
    TagFits(o, c.kind, c.facts.reading);
    if backend {
      o := o.(reasons := Deduplicated(o.reasons + [ModelFailure]),
              extractor := "heuristic-lifecycle-v1:model-failure");
    }
    HeuristicObserves(c, backend, heuristic.value, o);
  }

  lemma TagFits(h: Observation, kind: UtilityKind, r: Reading)
    requires kind != NoKind && Extracted(h, kind, r) && NoDuplicates(h.reasons)
    ensures ModelFailure !in h.reasons
    ensures Deduplicated(h.reasons + [ModelFailure]) == h.reasons + [ModelFailure]
    ensures h.(reasons := h.reasons + [ModelFailure], extractor := "heuristic-lifecycle-v1:model-failure").Valid()
  {
    assert !ExpectedReason(kind, r, ModelFailure);
    DeduplicatedDistinct(h.reasons + [ModelFailure]);
  }

  lemma HeuristicObserves(c: ShadowCandidate, backend: bool, h: Observation, o: Observation)
    requires c.Valid() && c.kind != NoKind && !UsesModel(c, backend) && ModelFailure !in h.reasons
    requires Extracted(h, c.kind, c.facts.reading)
    requires o == if !backend then h
                  else h.(reasons := h.reasons + [ModelFailure], extractor := "heuristic-lifecycle-v1:model-failure")
    requires o.Valid()
    ensures Observes(c, backend, o) && o.kind == c.kind && (ModelFailure in o.reasons <==> backend)
    ensures DateRaises(c, backend) <==> DateProof(c.facts, o).Rejected?
  {
    assert backend ==> o.reasons[|h.reasons|] == ModelFailure;
    HeuristicDateRaises(c, backend, h, o);
  }

  lemma HeuristicDateRaises(c: ShadowCandidate, backend: bool, h: Observation, o: Observation)
    requires c.Valid() && c.kind != NoKind && !UsesModel(c, backend) && o.Valid()
    requires Extracted(h, c.kind, c.facts.reading) && o.kind == h.kind && o.utility == h.utility
    ensures DateRaises(c, backend) <==> DateProof(c.facts, o).Rejected?
  {
  }

  // ---- which batches stop ----

  // The snapshot of a candidate is what interest_for returns for some letter of its message.
  ghost predicate Asked(state: Interest.State, c: ShadowCandidate, letter: Interest.Letter) {
    && letter.key == c.key
    && exists recent: RecentInterest.Recent, s: InterestStore.Snapshot ::
         && 0.0 <= recent.score <= 1.0 && recent.evidence >= 0.0
         && InterestStore.IsSnapshot(state, letter, c.facts.category, recent, s)
         && c.snapshot == InterestStore.MakeSnapshot(s)
  }

  // While every example of the account covers its features, no message stops a batch for its preferences: only
  // an escaping model error or an unverified date closure does.
  lemma TrustedIndexNeverStopsABatch(state: Interest.State, c: ShadowCandidate, letter: Interest.Letter, backend: bool)
    requires c.Valid() && Asked(state, c, letter) && InterestStore.Trusted(state.index, c.key.account)
    requires forall key :: key in state.preference ==> state.preference[key].Sensible()
    ensures Stops(c, backend) <==> ModelEscapes(c, backend) || DateRaises(c, backend)
  {
    var recent: RecentInterest.Recent, s: InterestStore.Snapshot :|
      && 0.0 <= recent.score <= 1.0 && recent.evidence >= 0.0
      && InterestStore.IsSnapshot(state, letter, c.facts.category, recent, s)
      && c.snapshot == InterestStore.MakeSnapshot(s);
    InterestStore.TrustedSnapshotIsValid(state, letter, c.facts.category, recent, s);
  }

  // An example that does not cover its features has a message that stops every batch it is in, whatever kind
  // it is of.
  lemma UntrustedExampleStopsABatch(
    state: Interest.State, m: MessageKey, c: ShadowCandidate, results: seq<ShadowCandidate>, i: nat, backend: bool)
    requires m in state.index.examples && !Interest.Covers(state.index, m)
    requires state.index.examples[m].answer != AnswerUnsure
    requires CandidatesValid(results) && i < |results| && results[i] == c
    requires Asked(state, c, Interest.Letter(m, "", "", state.index.Stored(m)))
    ensures !NothingStops(results, backend)
  {
    var letter := Interest.Letter(m, "", "", state.index.Stored(m));
    var recent: RecentInterest.Recent, s: InterestStore.Snapshot :|
      && 0.0 <= recent.score <= 1.0 && recent.evidence >= 0.0
      && InterestStore.IsSnapshot(state, letter, c.facts.category, recent, s)
      && c.snapshot == InterestStore.MakeSnapshot(s);
    InterestStore.UntrustedIndexBreaksTheConstructor(state, m, c.facts.category, recent, s);
    NothingStopsMeans(results, backend);
  }

  // An advertisement without an expiry date, and nothing else in the batch.
  lemma OrdinaryPromotionStopsABatch(key: MessageKey, snapshot: InterestStore.Snapshot)
    requires snapshot.Valid()
    ensures var reading := Reading(true, 30, 100, None, false, false, false, false);
      var c := ShadowCandidate(key, 0, Promotion, Facts(Advertising, 0.95, false, reading), [], Failed, false, false,
        Ok(snapshot));
      c.Valid() && !NothingStops([c], false)
  {
    var reading := Reading(true, 30, 100, None, false, false, false, false);
    var c := ShadowCandidate(key, 0, Promotion, Facts(Advertising, 0.95, false, reading), [], Failed, false, false,
      Ok(snapshot));
    NothingStopsMeans([c], false);
    assert Stops([c][0], false);
  }
}
