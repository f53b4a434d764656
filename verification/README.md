# InboxLume: verified model of the local ledger, the graph and the estimators

InboxLume classifies old mail with a local model, keeps everything it learns in one SQLite ledger, and moves a
message only after several independent checks. This project models that ledger, the scan pipeline that drives it,
the temporal graph behind its closure proofs, the learned preferences, and three self-contained algorithms, and
proves what each of them keeps.

## How the model is built

* **Tables are maps and sets, transactions are steps.** Every `with connection:` block is one action; so is every
  provider call. A digest is modelled as the material it is computed from, because the HMAC is taken to be
  injective (`src/inboxlume/learning.py:812-815`).
* **Objects are classes.** `LumeGraphStore`, `PreferenceStore` and `InterestStore` hold the tables as fields; their
  methods are loops and updates in place, each proved equal to a function on values. What the source promises is
  proved about those functions.
* **A scan session is a trace.** `Ledger` says when an action is enabled, `Protocol` says what holds after every
  sequence of enabled actions. `Stop` is enabled everywhere, so a process that dies between two transactions, and
  the sessions after it, are traces like any other. Every method of `Cleanup`, `Batch`, `GmailRuns`, `YahooRuns` and
  `ScanSession` ensures that it only extends the trace of its store, and a store's trace consists of enabled actions
  (`PreferenceStore.Valid`); `ScanSession.RunSessions` and `ScanSession.ResumeAfterCrash` draw the conclusions for any
  number of sessions, interrupted ones included: what was called and recorded, on which messages, and what the
  diagnostic file holds.
* **A run is told from its inputs.** What the three searches of a run scan is a function of the mailbox and of what the
  ledger is done with (`Scan.ScanOf`), and so is what the run is done with afterwards (`Runs.RunStep`). An unlimited
  session is the sequence of such steps, which `SessionEnd` follows without the ledger, and it ends when every full
  chunk it gets to settles another message.
* **What the model does not decide is arbitrary:** the ids each search lists, classifications, semantic opinions, the
  inbox listing, the governor's gate, the provider's outcomes, and which markers fail. All of it may differ from one
  chunk to the next.

| file | what it models |
|---|---|
| `Mail.dfy` | shared vocabulary and keys |
| `Lifecycle.dfy` | the lifecycle vocabulary and the heuristic extraction |
| `ShadowBatch.dfy`, `ShadowProofs.dfy`, `ShadowTotals.dfy`, `LumeGraphRuntime.dfy` | the graph batch: its messages and what ends it, the events and proofs it calls for, its totals, its loop |
| `Obsolescence.dfy` | closure proofs and the "verified is absorbing" upsert |
| `LumeGraph.dfy`, `ArrivalOrder.dfy`, `ProofOrder.dfy`, `LumeGraphStore.dfy` | the temporal graph, its invariants, what the arrival order decides, the tables behind it |
| `Ledger.dfy`, `Protocol.dfy`, `Provenance.dfy`, `PreferenceStore.dfy` | the scan ledger, its transactions, what every trace keeps, where its rows come from |
| `ThreatScore.dfy`, `Stages.dfy`, `Cleanup.dfy` | the threat and proof stages, cleanup and marker loops |
| `Scan.dfy`, `Batch.dfy` | the three searches, the batch of a run |
| `Recovery.dfy`, `Runs.dfy`, `GmailRuns.dfy`, `YahooRuns.dfy` | the recovered proposals, what a run does, whole Gmail and Yahoo runs |
| `UnlimitedSession.dfy`, `Chunks.dfy`, `SessionEnd.dfy` | how many chunks a session takes, counted; the chunks of a session on the ledger; when it ends |
| `Diagnostics.dfy`, `ScanSession.dfy` | diagnostic records and their bounded file, the worker's sessions and their merged totals |
| `RecentInterest.dfy`, `Interest.dfy`, `InterestStore.dfy` | the rewritten query, the preference table, the similarity index, the snapshot |
| `EvidenceSummary.dfy` | the label summary and the evidence by category |
| `QuizSelector.dfy`, `DurationEstimator.dfy`, `PngScanner.dfy` | the quiz selector, the duration estimate, the PNG chunk walk |

## Where the code does not do what was expected

Each of these is a theorem with its exact condition, or a concrete input.

* **Arrival order of graph messages.** Reachability never depends on it, but which proofs are verified does, and so does
  which of several messages of one week a query picks. For a message without direct proofs, all arrival orders with all
  such choices agree if and only if the messages themselves satisfy a condition that can be read off before any of them
  arrives: if some later message of a shared relation closes it, then some later message is certain to lead to a closing
  edge, whichever of the two arrives first (`ProofOrder.OrdersAgreeExactlyWhen`). When its relations have distinct weeks,
  such a message is simply a closer that comes next (`ProofOrder.CertainMeansNext`). Three messages for which the
  orders disagree, in three weeks or in two, are in `ProofOrder.VerificationDependsOnArrivalOrder`.
* **`deterministic_date_proof` passes a plain string as its reason codes**
  (`src/inboxlume/proof_of_obsolescence.py:238-252`). The proof's constructor refuses it, so every promotion that is
  neither protected nor expired ends the graph batch with an exception, after the earlier messages have been
  committed; the run then reports no new nodes. It is one of three exceptions that leave the loop of
  `src/inboxlume/lumegraph_runtime.py:66-171`. The other two are an error of the extractor that is not caught, and
  `interest_for`, which is called for every result and raises when a similarity is out of range.
  `LumeGraphRuntime.RunShadow` returns a summary if and only if no result of the batch has one of the three, and
  otherwise says how much of the batch is stored. A batch of one ordinary promotion stops
  (`ShadowBatch.OrdinaryPromotionStopsABatch`); with a trusted index the preferences never stop one
  (`ShadowBatch.TrustedIndexNeverStopsABatch`), and an untrusted example has a message that stops every batch it
  is in (`ShadowBatch.UntrustedExampleStopsABatch`).
* **The unlimited session can report an exhausted mailbox that is not.** A chunk reserves at most a fifth of its places
  for read one-time codes and a tenth for read access alerts (`src/inboxlume/pipeline.py:249-297`), and a chunk that
  is not full ends the session. With q the number of messages divided by the chunk size, it leaves nothing behind if
  and only if q chunks can be full and the read mail fits the quotas of q + 1 chunks
  (`UnlimitedSession.ExhaustedExactlyWhenQuotasFit`, and `Chunks.ExhaustedExactlyWhen` of the ledger); 101 read codes
  and nothing else at the usual chunk size leave one (`UnlimitedSession.ReadCodesEndTheSessionEarly`).
* **The unlimited session need not end.** A message whose classification falls back, or whose marker fails, is scanned
  again by every chunk. The session ends whenever every full chunk it gets to settles another message
  (`SessionEnd.ProgressEnds`, `ScanSession.RunChunks`). When the same messages fail every time, it never ends if and
  only if those of them that were not done before can fill a chunk on their own (`SessionEnd.NeverEndsExactlyWhen`);
  with a chunk size of one, a single such message is enough (`SessionEnd.OneUnclassifiedMessage`).
* **A Yahoo run can leave a stored proposal waiting although it has a place left.** It recovers stored proposals before
  its own batch is acted on (`src/inboxlume/cli.py:1640-1708`), so what the batch proposed is pending in the ledger too,
  can take the places that are left, and is then dropped because it was chosen already. The run catches up if and only
  if that does not happen (`YahooRuns.YahooShadowRun`: some pending proposal within the places is the batch's own, and
  some other one comes after them). `YahooRuns.BatchInItsOwnWay` is a batch of one with a limit of two. A Gmail run acts on
  its batch first and always catches up.
* **The Gmail recovery loop filters executed messages only up front.** Its calls are all authorised if and only if the
  recovered ids are distinct (`Cleanup.UpFrontFilterNeedsDistinctIds`); the recovery function does return distinct ones.
* **A backfill after the text of a message changed can push a similarity above one.** The example keeps the feature
  count of its first recording while its features accumulate. `interest_for` then raises. Similarities stay in range
  for every message if and only if no later recording of the example brought a new feature.
* **A diagnostic record without the later fields is not always read back as the newer one.** The comment in
  `src/inboxlume/diagnostics.py:40-47` says the applied count alone proves the outcome of a completed run; it does if and
  only if the run did not merely mark messages (`Diagnostics.LegacyAgreesExactlyWhen`). The code is followed.

The second pass of the quiz recognises what the first pass chose by its message id alone, so candidates of two accounts
could cost each other a place (`QuizSelector.SharedIdCostsAPlace`). Nothing hands it such candidates: every caller
passes the mail of one account (`src/inboxlume/pipeline.py:315-360`), whose candidates have distinct ids
(`QuizSelector.OneAccountHasDistinctIds`), and then the size formula of `QuizSelector.Select` holds.

## Model

| member | source | states |
|---|---|---|
| Lifecycle.ExtractLifecycle | src/inboxlume/lumegraph.py:495-634 | for every message family the observation is valid and is determined by the reading up to the order of its codes: state, condition, date, utility flags, confidence and exactly the codes whose condition holds, at most five, so the failure tag still fits the limit of six |
| Lifecycle.ExtractOneTimeCode | src/inboxlume/lumegraph.py:520-542 | a code is expired only when read and a week old, active only on its first day |
| Lifecycle.ExtractDocument | src/inboxlume/lumegraph.py:543-634 | replacement beats completion beats activity; an elapsed promotion is expired whatever else it says |
| Lifecycle.RelationMaterials | src/inboxlume/lumegraph.py:462-479 | the first four tokens in order, prefixed; none for a one-time code |
| Obsolescence.OtpProof | src/inboxlume/proof_of_obsolescence.py:141-194 | a proof exactly for one-time codes, verified exactly for a confident, read code past the age limit that carries no protected utility |
| Obsolescence.DateProof | src/inboxlume/proof_of_obsolescence.py:197-252 | raises exactly for the unprotected promotions whose date closure is not verified, because their reason codes are a string |
| Obsolescence.SuccessorProof | src/inboxlume/proof_of_obsolescence.py:317-385 | verified exactly when an open, unprotected shipment is followed by an unprotected shipment message that closes it, both read by the trusted model under its profile |
| LumeGraphStore.SuccessorClosesExactlyWhen | src/inboxlume/proof_of_obsolescence.py:317-385 | told from two stored observations and their protection flags: the later one closes the earlier iff both are unprotected shipments confidently read by the supported model, the first open, the second the news of its completion or replacement |
| Obsolescence.StoredExactlyWhenWritten | src/inboxlume/learning.py:2746-2787 | after any writes a row exists iff one was written, and is verified iff a verified one ever was |
| Obsolescence.StoredProofIsLastVerifiedOrLast | src/inboxlume/learning.py:2746-2812 | for any interleaving of writes to a key, the stored row is the last verified one if there was any, otherwise the last one |
| LumeGraph.LinkRelationKeeps | src/inboxlume/learning.py:2699-2743 | joining a message to its nearest neighbours adds exactly those edges, each from an older to a newer week |
| LumeGraph.LinkFirstKeeps | src/inboxlume/learning.py:2574-2620 | the whole relation loop adds exactly the edges of every relation's two neighbours and keeps the order |
| LumeGraph.RejoinedAtNode | src/inboxlume/learning.py:2574-2620 | after an insertion the weeks next to the new message are joined again |
| LumeGraph.ObserveKeepsConsistent | src/inboxlume/learning.py:2477-2622 | one observation keeps order, connection of adjacent weeks, and the witness of every sourced proof |
| LumeGraph.EveryHistoryIsConsistent | src/inboxlume/learning.py:2477-2812 | for every arrival order: transitions go from strictly older to strictly newer weeks, adjacent occupied weeks are joined, and every row naming a source has its transition |
| ArrivalOrder.EveryHistoryIsAcyclic | src/inboxlume/learning.py:2574-2620 | no message reaches itself, whatever the arrival order |
| ArrivalOrder.OlderReachesNewer | src/inboxlume/learning.py:2574-2620 | with distinct weeks an older message of a relation reaches every newer one |
| ArrivalOrder.ReachabilityIsTimeOrder | src/inboxlume/learning.py:2574-2620 | with distinct weeks u reaches v within a relation exactly when u is older |
| ArrivalOrder.ReachabilityIgnoresArrivalOrder | src/inboxlume/learning.py:2668-2743 | two histories of the same messages have the same reachability |
| ArrivalOrder.VerifiedExactlyWhenWitnessed | src/inboxlume/learning.py:2699-2812 | a stored proof is verified iff a direct verified proof was written or some transition's successor verdict is verified |
| ArrivalOrder.VerifiedAfterMore | src/inboxlume/learning.py:2477-2812 | what any further events add: a message holds a verified proof iff it held one before, a transition closes it now, or a verified proof was recorded for it among them |
| ArrivalOrder.AdjacentClosureIsVerified | src/inboxlume/learning.py:2699-2743 | a message directly followed by its closure within a relation is verified in every history |
| ArrivalOrder.VerifiedSourceClosesTheMessage | src/inboxlume/learning.py:2699-2743 | a verified row with a source names a strictly newer message of a shared relation, with a stored transition to it, and that message closes it |
| ArrivalOrder.ProofsFollowTheLog | src/inboxlume/learning.py:2699-2787 | the proof table of a history is the upsert of its writes in order |
| ArrivalOrder.StoredRowIsLastVerifiedOrLast | src/inboxlume/learning.py:2746-2812 | for graph proofs and direct proofs interleaved in any way, the stored row is the last verified one, otherwise the last one |
| ProofOrder.CertainCloserAlwaysVerifies | src/inboxlume/learning.py:2574-2743 | a message is verified in every arrival order, whatever is picked among equal weeks, if for some later message: when it arrives second it is joined to the first, and when it arrives first a closer no further away is |
| ProofOrder.NoLaterCloserNeverVerifies | src/inboxlume/learning.py:2574-2743 | a message that no later message of a shared relation closes is never verified without a direct proof |
| ProofOrder.LeftOpen | src/inboxlume/learning.py:2574-2743 | without such a later message there is an order that leaves the message open: first those that might not close it, then the message, then the rest by week, picking another neighbour wherever the week has one |
| ProofOrder.ClosedAtOnce | src/inboxlume/learning.py:2574-2743 | if some later message closes it, there is an arrival order - those two first - that closes it |
| ProofOrder.OrdersAgreeExactlyWhen | src/inboxlume/learning.py:2574-2743 | for any finite set of messages, equal weeks included: all arrival orders agree about a message iff a later closer implies a certain one |
| ProofOrder.CertainMeansNext | src/inboxlume/learning.py:2574-2743 | in relations with distinct weeks, certain means that the next message of some shared relation closes it |
| ProofOrder.VerificationDependsOnArrivalOrder | src/inboxlume/learning.py:2574-2743 | three messages whose arrival orders disagree about a verified proof, once in three weeks and once with two of them in one week, where the closer does come next |
| LumeGraphStore.LumeGraphStore.NearestOlderNode | src/inboxlume/learning.py:2668-2697 | a member of the relation in the greatest strictly older week, none exactly when there is no older member |
| LumeGraphStore.LumeGraphStore.NearestNewerNode | src/inboxlume/learning.py:2668-2697 | a member of the relation in the least strictly newer week, none exactly when there is no newer member |
| LumeGraphStore.LumeGraphStore.RecordTransition | src/inboxlume/learning.py:2699-2744 | the tables become the joined graph; true exactly when the edge is new |
| LumeGraphStore.LumeGraphStore.UpsertProof | src/inboxlume/learning.py:2746-2787 | the update in place is the absorbing upsert |
| LumeGraphStore.LumeGraphStore.RecordProof | src/inboxlume/learning.py:2789-2812 | a direct proof is one more event of the history |
| LumeGraphStore.LumeGraphStore.RecordObservation | src/inboxlume/learning.py:2477-2622 | an accepted observation is one more event of the history; a known message changes no node, relation or transition; linked exactly when another week of some relation is occupied |
| LumeGraphStore.LumeGraphStore.LinkRelations | src/inboxlume/learning.py:2574-2620 | the loop over the relations links to the neighbours as they were before it, because one relation's edges never feed another's |
| ShadowBatch.Extract | src/inboxlume/lumegraph_runtime.py:86-110 | model answer or tagged fallback, the stored observation is valid |
| ShadowBatch.ConsensusProof | src/inboxlume/proof_of_obsolescence.py:255-316 | a proof exactly for the three categories, verified exactly when nothing protects the message and the model, the corrections and the current behaviour agree |
| ShadowBatch.NothingStopsMeans | src/inboxlume/lumegraph_runtime.py:66-171 | the batch is run to its end iff no result in it raises one of the three exceptions of the loop |
| LumeGraphRuntime.RunShadow | src/inboxlume/lumegraph_runtime.py:41-194 | a summary iff no result stops the loop; the history grows by exactly the observations and proofs each message of the part run calls for; a message then holds a verified proof iff it held one before, a transition closes it, or it meets the consensus, one-time-code or date condition, stated in facts, observation and snapshot; the nodes are the old ones and the lifecycle messages of that part, and the totals count them, the messages linked and the proofs computed; otherwise it stopped at the first message that stops it |
| ShadowProofs.RoundsVerify | src/inboxlume/lumegraph_runtime.py:66-171 | whatever rounds a batch gets to, in events alone: the verified proofs afterwards are those from before, those of transitions, and those of messages that prove themselves |
| ShadowProofs.RoundProves | src/inboxlume/lumegraph_runtime.py:66-171 | one message's round records a verified proof of exactly that message, and iff it meets one of the three conditions |
| LumeGraphRuntime.BuildShadow | src/inboxlume/cli.py:456-490 | any of the three exceptions is reported as zero nodes although the batch up to it stays committed |
| ShadowBatch.TrustedIndexNeverStopsABatch | src/inboxlume/lumegraph_runtime.py:66-84 | while every example covers its features a message stops a batch only by its extraction or its date closure |
| ShadowBatch.UntrustedExampleStopsABatch | src/inboxlume/lumegraph_runtime.py:66-84 | an example that does not cover its features has a message that stops every batch it is in |
| ShadowBatch.OrdinaryPromotionStopsABatch | src/inboxlume/proof_of_obsolescence.py:238-252 | an advertisement without an expiry date stops a batch of its own |
| Ledger.OutcomesAreForever | src/inboxlume/learning.py:1346-1477 | no action changes or removes an execution, finalization or quiz row |
| Ledger.EachActionKeepsAttested | src/inboxlume/learning.py:1936-2291 | every enabled transaction keeps an assessment under every completed row |
| Ledger.EachActionKeepsCoherent | src/inboxlume/cli.py:314-365 | the stored analyzer word always agrees with the stored findings |
| Ledger.EachActionKeepsRestores | src/inboxlume/learning.py:1672-1800 | a restored event always belongs to a message that was moved |
| Ledger.EachActionKeepsSound | src/inboxlume/learning.py:1936-2454 | the three invariants survive every single transaction |
| Protocol.StoppingAnywhereIsPermitted | src/inboxlume/desktop_worker.py:442-632 | a session stopped after any transaction leaves a state the next session may start from |
| Protocol.EveryStateIsSound | src/inboxlume/learning.py:1936-2454 | after any sequence of sessions, crashes included, completed rows are assessed, verdicts coherent and restores real |
| Protocol.SkippedMessagesAreAssessed | src/inboxlume/learning.py:1283-2291 | after a stale reset, every message a scan skips has a current, enabled assessment, with the semantic pass its mode demands attempted |
| Protocol.ExecutionsPersist | src/inboxlume/learning.py:1346-1385 | an execution row once written is there in every later state |
| Protocol.AtMostOneCleanupCall | src/inboxlume/cli.py:1382-1483 | a second cleanup call on a message and profile needs a stop right between the first call and its row |
| Protocol.EveryCleanupCallIsAuthorised | src/inboxlume/cli.py:1382-1478 | at each call the mutation flag is up and the message has an unprotective verdict, not one of a switched-off module when protection is on, no keep or unsure answer and no execution row |
| Protocol.EveryTraceIsSafe | src/inboxlume/cli.py:1382-1483 | both together for a whole trace, in the form the session methods ensure of their stores |
| Protocol.SameEpoch | src/inboxlume/desktop_worker.py:442-632 | no session began or ended between two states of one epoch, so a run stays inside its session |
| Protocol.UnchangedMeansNoMutation | src/inboxlume/desktop_worker.py:815-831 | wherever a session stops, a receipt that says unchanged means no provider call since it began |
| Protocol.TotalsCountTheSession | src/inboxlume/diagnostics.py:139-180 | the session totals are exactly the numbers of cleanup calls, of calls that moved a message and of applied markers since the session began |
| Protocol.SessionTells | src/inboxlume/desktop_worker.py:815-831 | what totals and receipt say of the part of the trace since the session's Begin |
| Provenance.EveryEventHasACause | src/inboxlume/learning.py:1672-2020 | over every run an event is on record iff it was at the start, or an unread message was scanned, a registered message behaved so, or a registered message that a cleanup had moved was restored; nothing takes one back |
| Provenance.CompleteExactlyWhen | src/inboxlume/learning.py:1936-2454 | for every action: a row is complete iff it was and was neither scanned again under another fingerprint, nor had its assessment taken back, nor its marker failed, or it is now listed under its fingerprint |
| Provenance.AssessedExactlyWhen | src/inboxlume/learning.py:2049-2291 | for every action: an assessment is on record iff it was just written, or it was there and neither replaced nor taken back as stale or switched off |
| Provenance.FirstOutcomeStays | src/inboxlume/learning.py:1346-1385 | an outcome is on record iff it was the first one written for its message and profile |
| Provenance.FirstFinalizationStays | src/inboxlume/learning.py:1437-1477 | the same for finalizations |
| Provenance.FirstAnswerStays | src/inboxlume/learning.py:1066-1113 | the same for quiz answers |
| PreferenceStore.PreferenceStore.ResetStaleThreatAssessments | src/inboxlume/learning.py:2228-2291 | reopens and withdraws exactly the stale assessments of the account and profile, and counts them |
| PreferenceStore.PreferenceStore.RecordShadowScanBatch | src/inboxlume/learning.py:1980-2020 | the loop is the batch transaction: a completed row of the same fingerprint is not overwritten |
| PreferenceStore.PreferenceStore.RecordThreatAssessment | src/inboxlume/learning.py:2049-2126 | the verdict is stored and, when protective, mirrored into the shadow row |
| PreferenceStore.PreferenceStore.RecordDisabledThreatAssessmentBatch | src/inboxlume/learning.py:2128-2187 | every message of the batch is attested as switched off, nothing else changes |
| PreferenceStore.PreferenceStore.MarkShadowBatchComplete | src/inboxlume/learning.py:2022-2047 | exactly the batch's rows of that fingerprint become complete |
| PreferenceStore.PreferenceStore.RecordThreatMarkerExecution | src/inboxlume/learning.py:2385-2454 | a failed marker reopens its row in the same transaction |
| PreferenceStore.PreferenceStore.RecordQuarantinePilotExecution | src/inboxlume/learning.py:1346-1385 | the first outcome of a message and profile is kept |
| PreferenceStore.PreferenceStore.RecordQuizAnswer | src/inboxlume/learning.py:1066-1113 | a retry leaves the first answer |
| PreferenceStore.PreferenceStore.RecordRestoredEvent | src/inboxlume/learning.py:1696-1746 | true exactly when the message is registered, was moved, and had no such event |
| PreferenceStore.PreferenceStore.MembershipChecker | src/inboxlume/learning.py:1283-1323 | the skipped messages are those with a complete row of the current fingerprint |
| PreferenceStore.PreferenceStore.AfterCrash | src/inboxlume/learning.py:1936-2454 | a store opened on the tables of a stopped process continues that process's trace after a stop |
| PreferenceStore.ApplyCleanup | src/inboxlume/cli.py:1408-1418 | a provider call can only be made when the store authorises it, and leaves its execution row owed |
| ThreatScore.OpinionsOnlyRaise | src/inboxlume/threat_signals.py:423-461 | a semantic opinion never lowers a score or clears an alert, and never raises one without a technical signal |
| ThreatScore.ScoreOfBoth | src/inboxlume/threat_signals.py:423-461 | the combined score by cases: malice adds up to thirty points and fifteen more from confidence 0.80 on, suspicion up to fifteen, never above a hundred; without a finding it stays at 35 at most; an alert iff the score is at least 40 |
| Stages.JudgementIsCurrent | src/inboxlume/cli.py:314-365 | every verdict the stage stores is current, is not stale for the mode it was made under, and a pass was attempted exactly when the mode demands one |
| Stages.JudgeMeans | src/inboxlume/cli.py:314-365 | the verdict on a message is protective iff its action is not KEEP and either a pass its mode demands got no answer, or its final score is an alert; its flags and analyzer word say the same |
| Stages.ThreatStageMeans | src/inboxlume/cli.py:293-418 | the action changes, to a review, iff a proposal is withdrawn; the tags say whether it was, whether the pass failed, whether it is flagged, and the level |
| Stages.ApplyThreatProtection | src/inboxlume/cli.py:293-418 | length and order are kept and every message ends as the stage means; every message of the batch has its verdict stored, current and beyond any reset of the session, a withdrawn one has its row protected, no other row is touched; the totals count alerts, withdrawn proposals and passes |
| Stages.ThreatTotalsAddUp | src/inboxlume/cli.py:293-418 | every message is assessed, requested plus skipped passes make up the batch, failures are among the requested |
| Stages.ApplyObsolescenceProofs | src/inboxlume/cli.py:493-578 | length and order are kept and every message ends as the proof stage means: an unprotected verified proof keeps a KEEP, confirms a quarantine, and promotes the rest except for direct trash; the totals count each of these |
| Stages.AfterProofMeans | src/inboxlume/cli.py:493-578 | without an unprotected verified proof, or for a KEEP, nothing changes; a quarantine is confirmed; anything else is promoted with the proof's witness, and not for direct trash |
| Stages.ProofTotalsAddUp | src/inboxlume/cli.py:493-578 | verified = promoted + confirmed + withheld + kept, and the quarantines grow by exactly the promoted ones |
| Stages.QuarantineAfterBothStages | src/inboxlume/cli.py:293-578 | a message ends as a quarantine iff it was proposed and not endangered, or an unprotected verified proof promotes it; endangered means that it was not KEEP and a demanded pass got no answer or its final score is an alert; KEEP stays KEEP |
| Stages.MarkersSurviveTheProofStage | src/inboxlume/cli.py:421-578 | the proof stage never drops a threat flag, so selecting markers before it (Yahoo) or after it (Gmail) is the same |
| Cleanup.ApplyShadowQuarantineResults | src/inboxlume/cli.py:1363-1429 | the new execution rows are exactly the proposed messages the store allowed at the start, each acted on once |
| Cleanup.UpFrontFilterNeedsDistinctIds | src/inboxlume/cli.py:1443-1478 | with the up-front filter, every call is authorised iff the ids are distinct |
| Cleanup.ApplyShadowQuarantineCandidates | src/inboxlume/cli.py:1432-1483 | over distinct candidates the new execution rows are exactly those the store allowed at the start |
| Cleanup.SafeCandidates | src/inboxlume/cli.py:1443-1458 | the filter keeps exactly the candidates that may be acted on, once each |
| Cleanup.VisibleThreatMarkerIds | src/inboxlume/cli.py:421-430 | exactly the flagged messages, without repetition |
| Cleanup.ApplyVisibleThreatMarkers | src/inboxlume/cli.py:433-453 | every listed message gets a marker row, exactly the rows of those that fail are reopened, a failure ends nothing, and nothing a cleanup check reads is touched |
| Scan.SearchAdds | src/inboxlume/pipeline.py:223-297 | a search adds only messages it lists, of this account, not skipped, in the read state it asks for, each once, and at most its quota |
| Scan.ScannedMessages | src/inboxlume/pipeline.py:179-312 | a scan never looks at a message the session is done with, at one of another account, or at one twice |
| Scan.RunSearch | src/inboxlume/providers/gmail.py:620-700 | generator and loop together scan the first messages, up to the quota, that are not skipped and have the read state of the search, or raise at the first foreign one |
| Scan.Classify | src/inboxlume/pipeline.py:179-297 | the three loops under their quotas and the checks of the limit are the scan the later theorems speak about |
| Scan.SkippedIsFinished | src/inboxlume/cli.py:1073-1092 | in every sound state the reset before a chunk reopens nothing the session is done with, and the scan skips exactly that |
| Scan.FinishedGrows | src/inboxlume/learning.py:1283-2047 | a batch that completes some of its rows and touches no others adds exactly those messages |
| Batch.RunShadowScan | src/inboxlume/pipeline.py:179-312 | one transaction after the whole batch, nothing written when the scan raises |
| Batch.EntriesOpen | src/inboxlume/learning.py:1936-2020 | the batch transaction opens the rows of its messages, whatever they were, and touches no others |
| Batch.AssessBatch | src/inboxlume/cli.py:1094-1113 | after the stage or its attestation every message of the batch is assessed, no row has got further, and no other message is touched |
| Batch.FinalAt | src/inboxlume/cli.py:293-578 | both stages keep message, category and read state, and a message carries a marker tag exactly when the threat stage flagged it |
| Batch.ProcessBatch | src/inboxlume/cli.py:1073-1150 | reset, scan, assess, prove and complete: the batch is the scan of what was not done, every message of it has the row and the assessment its inputs say, exactly its fully classified messages end complete and beyond any reset of the session, every other row is as the reset left it, no provider is called |
| Runs.RunSettles | src/inboxlume/cli.py:1073-1235 | after batch and markers the session is done with what it was done with before, and the messages that neither fell back nor failed their marker |
| Runs.SettledMeans | src/inboxlume/cli.py:1094-1235 | which messages a run settles, told from its inputs: the model answered, and no marker was called for, or it did not fail |
| Runs.ProposedMeans | src/inboxlume/cli.py:1363-1429 | what a batch proposes, told from its inputs: messages of a permitted category that the threat stage does not overrule and that were to be quarantined or hold an unprotected verified proof |
| Recovery.PrepareCandidates | src/inboxlume/pipeline.py:666-805 | the first pending proposals of the windowed listing, up to the remaining places, each message where it is listed first and once |
| Recovery.StandsMeans | src/inboxlume/pipeline.py:666-805 | which stored proposals still stand, told from the tables: current policy, the read state its reasons expect, unprotected, not answered keep or unsure, a permitted category, and to be quarantined, answered DontKeep, or verified |
| Recovery.ListingMeans | src/inboxlume/pipeline.py:766-805 | a message is in the windowed listing iff some search lists it before the window ends |
| GmailRuns.GmailShadowRun | src/inboxlume/cli.py:1020-1360 | the run scans what its inputs say, settles what they say, its report equals what it did to the mailbox, never more cleanup calls than the limit, none without the apply switch; new execution rows are of its own proposals or of stored ones that stand; when it applies, no proposal of the batch that could be acted on is passed over, and it selects as many as the limit or leaves no stored proposal in the windows that stands without a row |
| GmailRuns.GmailCleanup | src/inboxlume/cli.py:1237-1316 | batch and recovered proposals together stay within the limit, every success is counted once, only they are acted on, all of the batch that could be, and stored proposals until the limit is reached or none is left |
| YahooRuns.YahooShadowRun | src/inboxlume/cli.py:1486-1879 | the same as for Gmail, although the proposals are chosen before the markers, with never more calls than were selected; it catches up on stored proposals iff its own batch does not crowd them out |
| YahooRuns.SelectPending | src/inboxlume/cli.py:1646-1708 | what is chosen are proposals of the batch and pending recovered ones, among them every proposal of the batch that could be acted on and every pending one that is offered a place |
| YahooRuns.BatchInItsOwnWay | src/inboxlume/cli.py:1640-1708 | a limit of two, one proposal of the batch and one stored behind it: the stored one is crowded out |
| YahooRuns.MergeCandidates | src/inboxlume/cli.py:1680-1708 | the chosen proposals stay first, nothing but recovered ones is added, a known id never again, every recovered id is there unless the limit is reached |
| YahooRuns.YahooCleanup | src/inboxlume/cli.py:1784-1813 | the loop that rechecks each proposal acts on exactly the allowed ones, even if an id is repeated |
| Diagnostics.LegacyAgreesExactlyWhen | src/inboxlume/diagnostics.py:40-58 | the fallback reads a completed run's outcome correctly iff its change shows in the applied count; a run that only marked messages is read as unchanged |
| Diagnostics.FileKeepsTheLatest | src/inboxlume/diagnostics.py:231-266 | after any number of appends to any file it holds the last 200 lines of all, in order, ending in the last record |
| Diagnostics.DiagnosticFile.Append | src/inboxlume/diagnostics.py:231-266 | the replaced file is the bounded history with the new record last |
| ScanSession.MergedUnlimitedSummary | src/inboxlume/desktop_worker.py:153-331 | the merged totals are the sums over the chunks, and changed as soon as one chunk changed something |
| ScanSession.MergedInTwoParts | src/inboxlume/desktop_worker.py:153-331 | merging two lists of reports adds their merges field by field, and a single report merges to itself |
| ScanSession.ProcessedIsSettled | src/inboxlume/desktop_worker.py:153-331 | over mail that settles, the processed total is the number of distinct messages the session settled |
| ScanSession.MergeCounters | src/inboxlume/desktop_worker.py:162-174 | a merged counter has exactly the words of the chunks' counters, each with the sum of its counts |
| ScanSession.CountInTwoParts | src/inboxlume/desktop_worker.py:162-174 | the count of a word over two lists of counters is the sum of its counts |
| ScanSession.RunChunks | src/inboxlume/desktop_worker.py:589-612 | whatever the chunks are supplied with, the loop ends if every full chunk it gets to settles another message; it ends on the first short chunk or on an exception, its chunks are the scans of the ledger one after the other, the reports account for every provider call, and every new execution row is of a proposal of one of the chunks |
| ScanSession.Conclude | src/inboxlume/diagnostics.py:139-222 | the record is accepted by its own checks; an interrupted session's says how many messages were processed, and unchanged only if no chunk had reached the mailbox phase |
| ScanSession.ExecuteScan | src/inboxlume/desktop_worker.py:442-632 | a completed session's record says changed exactly when a provider call since its Begin succeeded, and its processed count is the length of its batches laid end to end; an interrupted one's says unchanged only if there was no provider call since then, and counts what was scanned before it stopped; every chunk acted as its run must |
| ScanSession.RunSessions | src/inboxlume/desktop_worker.py:442-632 | over any number of Gmail and Yahoo sessions: every cleanup call authorised, none repeated barring a stop right after it, only proposals of some chunk acted on, every record true of its session, and the file holding the latest records |
| ScanSession.ResumeAfterCrash | src/inboxlume/desktop_worker.py:442-632 | the same for the sessions after a process that was stopped at any point, together with what it had done |
| UnlimitedSession.QuotasOfAChunk | src/inboxlume/pipeline.py:249-275 | a fifth of the places for read codes, a tenth for read access alerts, one place at least |
| UnlimitedSession.FullChunk | src/inboxlume/pipeline.py:249-297 | the size of a chunk in closed form, the smaller of the chunk size and the quotas plus the unread mail |
| UnlimitedSession.SessionLength | src/inboxlume/desktop_worker.py:589-612 | the number of chunks is the least number that cannot all be full |
| UnlimitedSession.SessionReach | src/inboxlume/desktop_worker.py:589-612 | what the session scans is all that so many chunks can reach |
| UnlimitedSession.ExhaustedExactlyWhenQuotasFit | src/inboxlume/desktop_worker.py:589-612 | nothing is left behind iff, for q the quotient of messages and chunk size, q chunks can be full and the read mail fits the quotas of q + 1 |
| UnlimitedSession.QuotientPlusOneChunks | src/inboxlume/desktop_worker.py:589-612 | N messages whose read mail fits one chunk's quotas take exactly floor(N / chunk) + 1 chunks |
| UnlimitedSession.ChunksOfOne | src/inboxlume/desktop_worker.py:589-612 | with chunks of one, N messages take N + 1 chunks and none is left |
| UnlimitedSession.ReadCodesEndTheSessionEarly | src/inboxlume/pipeline.py:249-262 | 101 read codes at chunk size 500: one chunk, one code left |
| UnlimitedSession.ReadAlertsEndTheSessionEarly | src/inboxlume/pipeline.py:263-285 | 51 read access alerts at chunk size 500: one chunk, one alert left |
| UnlimitedSession.RunLength | src/inboxlume/desktop_worker.py:589-612 | every run that ended on its first short chunk has that length and that remainder |
| Chunks.ScanSize | src/inboxlume/pipeline.py:249-297 | when the searches list each message once, a scan of the ledger has the size of the counting model |
| Chunks.ProcessedOnce | src/inboxlume/desktop_worker.py:589-612 | two chunks of a session share only messages that fell back or whose marker failed |
| Chunks.LaidIsSettled | src/inboxlume/desktop_worker.py:589-612 | the batches of such a session, laid end to end, list each settled message once |
| Chunks.ChunkFollowsCounts | src/inboxlume/pipeline.py:249-297 | one chunk of the ledger over mail that settles is one step of the counting model |
| Chunks.EverySessionHasTheSameLength | src/inboxlume/desktop_worker.py:589-612 | every ended session over mail that settles has the length and the remainder of the counting model, in whatever order the mail is listed |
| Chunks.ExhaustedExactlyWhen | src/inboxlume/desktop_worker.py:589-612 | all mail of such a session is done at its end iff the sizes satisfy the condition above |
| SessionEnd.ProgressEnds | src/inboxlume/desktop_worker.py:589-612 | whatever the chunks are supplied with: if every full chunk the session gets to settles a message of some finite mail, there is a first chunk that is not full |
| SessionEnd.FewStubbornProgress | src/inboxlume/cli.py:1142-1150 | it does so if the messages that may not settle, and were not done before, cannot fill a chunk |
| SessionEnd.SessionNeverEnds | src/inboxlume/cli.py:1142-1150 | if messages that no run settles can fill a chunk and stay listed, every chunk is full, whatever else is listed |
| SessionEnd.NeverEndsExactlyWhen | src/inboxlume/desktop_worker.py:589-612 | over mail of which the same messages fail every time, the session never ends iff those of them not done before can fill a chunk on their own |
| SessionEnd.OneUnclassifiedMessage | src/inboxlume/cli.py:1142-1150 | chunk size one and one unread message whose classification always falls back: every chunk is full |
| RecentInterest.InGroupsExactly | src/inboxlume/learning.py:912-946 | a row is in the rewritten query iff it is a group of the plain join with its distinct features counted, for any tables |
| RecentInterest.RewrittenQueryIsThePlainQuery | src/inboxlume/learning.py:912-946 | under the primary keys the rewritten query returns exactly the rows of join-then-group, each once |
| RecentInterest.RowsOfTheQuery | src/inboxlume/learning.py:912-946 | the rows of the query told from the three tables: events of the account's messages with the number of content features they share with the query, when there is one |
| RecentInterest.PlainQueryHasOneResult | src/inboxlume/learning.py:912-946 | any result of the plain query is the same bag of rows |
| RecentInterest.ScoreIgnoresTheOrder | src/inboxlume/learning.py:947-977 | the score, evidence and examples do not depend on the order of the rows |
| RecentInterest.RewritingKeepsTheScore | src/inboxlume/learning.py:895-977 | both query forms give the same score, whatever order the database yields |
| RecentInterest.RecentContentInterest | src/inboxlume/learning.py:947-977 | the loop computes the weighted share of its rows, between zero and one, with evidence never negative |
| RecentInterest.OneMoreEvent | src/inboxlume/learning.py:947-977 | one more row changes nothing while fewer than 0.55 of the features agree; otherwise it adds evidence, and raises the score strictly when it speaks for the content and lowers it strictly when it speaks against |
| RecentInterest.FirstEvent | src/inboxlume/learning.py:216-226 | what a single fresh event of each kind makes of the score |
| Interest.PreferenceSumsFirstAnswers | src/inboxlume/learning.py:838-1113 | every preference row is the sum of the weights of the first answer to each message bearing its feature |
| Interest.RowsCountTheAnswers | src/inboxlume/learning.py:838-1113 | a row's positive weight is 4.0 for every first answer Keep bearing its feature, its negative weight 3.0 for every first answer DontKeep, and it counts both |
| Interest.SidesOfARow | src/inboxlume/learning.py:838-1113 | a row has positive weight iff some first answer Keep bears its feature, and negative weight iff some first answer DontKeep does |
| Interest.RetriesChangeNothing | src/inboxlume/learning.py:1081-1113 | dropping all repeated answers from a log changes no table |
| Interest.AnsweredInLog | src/inboxlume/learning.py:1085-1094 | a message counts as answered exactly when the log answers it |
| Interest.IndexOfTheLog | src/inboxlume/learning.py:1021-1064 | an example keeps the size of its first recording and the features of all of them |
| Interest.DiceRange | src/inboxlume/learning.py:1006-1019 | with count equal to stored features the similarity is in [0,1] and is 1 only for equal sets |
| Interest.SimilarityInRangeExactlyWhen | src/inboxlume/learning.py:1006-1019 | the similarity stays at most one for every message iff the count covers the stored features |
| Interest.CoversExactlyWhen | src/inboxlume/learning.py:1021-1064 | the count covers the features iff no later recording brings one the first did not have |
| Interest.IndexHoldsTheContent | src/inboxlume/learning.py:1021-1064 | if a message's content never changes, the index holds exactly that content and its size |
| Interest.ChangedContentBreaksTheRange | src/inboxlume/learning.py:1059-1064 | one answer and one backfill with other words give a similarity of 1.5 |
| InterestStore.SimilarityFor | src/inboxlume/learning.py:979-1019 | the closest example per answer and the number of close ones, over exactly the examples sharing a feature, whatever order the groups come in |
| InterestStore.CloseExamples | src/inboxlume/learning.py:979-1019 | which examples count as close, told from the index and the content: twice the shared features are at least 0.55 of both sizes |
| InterestStore.InterestStore.ObserveFeatures | src/inboxlume/learning.py:838-857 | the loop upserts each feature once |
| InterestStore.InterestStore.RecordSimilarity | src/inboxlume/learning.py:1021-1057 | an existing example keeps its count, the features are added |
| InterestStore.InterestStore.BackfillSimilarityExample | src/inboxlume/learning.py:1059-1064 | a backfill is one more entry of the log: it adds the features and keeps the count of an existing example, and touches no preference and no answer |
| InterestStore.InterestStore.RecordQuizAnswer | src/inboxlume/learning.py:1066-1113 | one transaction over preference, index and answers, nothing on a retry |
| InterestStore.InterestStore.InterestFor | src/inboxlume/learning.py:859-893 | the snapshot is the kept-leaning share of the votes with the closest examples, and is accepted whenever every count covers its features |
| InterestStore.AnswersMoveTheScore | src/inboxlume/learning.py:859-893 | one more first answer Keep never lowers the score of any message and raises it for each that shares a feature; DontKeep does the reverse; Unsure moves none |
| InterestStore.FirstScores | src/inboxlume/learning.py:859-893 | without answers 3/4; after one Keep of the same message 15/16, after one DontKeep 3/13 |
| InterestStore.RefusedExactlyWhen | src/inboxlume/models.py:127-159 | the constructor refuses a snapshot iff some score leaves [0,1] or the evidence is negative |
| InterestStore.ConstantContentIsTrusted | src/inboxlume/models.py:127-159 | in every store whose contents depend on the message alone, interest_for never breaks the snapshot's constructor |
| InterestStore.UntrustedIndexBreaksTheConstructor | src/inboxlume/models.py:127-159 | an example that does not cover its features has a message for which the constructor refuses the snapshot |
| EvidenceSummary.MatchIsTheAnswer | src/inboxlume/learning.py:3138-3147 | under the primary key a message is joined to its one answer, or to none |
| EvidenceSummary.EligibleExactlyWhen | src/inboxlume/learning.py:3138-3147 | which rows are counted: completed, of the account and profile, protected neither way, to be quarantined or under review in a category that can be moved |
| EvidenceSummary.JoinsCountTheLabels | src/inboxlume/learning.py:3136-3192 | the groups of the JOIN and the count of the LEFT JOIN, over rows in any order, are the numbers of eligible rows with each label |
| EvidenceSummary.LabelSummary | src/inboxlume/learning.py:3130-3203 | the loop over the groups, in any order, and the separate count give the four numbers |
| EvidenceSummary.EvidenceByCategory | src/inboxlume/learning.py:3205-3275 | exactly the categories with an eligible row, each with the number of its rows per kind of evidence |
| EvidenceSummary.GrandTotalsAgree | src/inboxlume/learning.py:3130-3275 | both aggregates have the same grand total, the number of eligible rows |
| EvidenceSummary.KeepEvidenceAddsRestores | src/inboxlume/learning.py:3130-3275 | evidence Keep is label Keep plus the eligible restored rows not answered Keep |
| QuizSelector.SortByPriority | src/inboxlume/quiz.py:53-64 | a permutation of the candidates in order of priority |
| QuizSelector.TextBelowMeans | src/inboxlume/quiz.py:53-64 | the order of the ids: the first character in which they differ decides, a prefix comes first |
| QuizSelector.UniqueTakesUnanswered | src/inboxlume/quiz.py:45-51 | only unanswered candidates, and every one of them by its key |
| QuizSelector.UniqueKeys | src/inboxlume/quiz.py:45-51 | no two with the same account and message id |
| QuizSelector.FirstSpreads | src/inboxlume/quiz.py:69-79 | the first pass never takes more than two of a category |
| QuizSelector.FirstPass | src/inboxlume/quiz.py:69-79 | the loop with its counters is the greedy choice over senders and categories |
| QuizSelector.FirstTakesInOrder | src/inboxlume/quiz.py:69-79 | whoever the first pass leaves out although sender and category have places left comes after everyone it took |
| QuizSelector.SecondPass | src/inboxlume/quiz.py:81-93 | the loop with its id set is the greedy fill over senders |
| QuizSelector.SecondTakesInOrder | src/inboxlume/quiz.py:81-93 | whoever is left out although its sender has places left comes after everyone the second pass added |
| QuizSelector.FairChoiceFits | src/inboxlume/quiz.py:37-93 | no choice within the sender limit is larger than the capacity of the senders |
| QuizSelector.SizeOfTheQuiz | src/inboxlume/quiz.py:37-93 | a fair choice headed by the candidate of highest priority; with distinct ids its size is min(limit, sum over senders of min(maximum, candidates)), so the category pass never costs a place |
| QuizSelector.QuizOpensWith | src/inboxlume/quiz.py:53-79 | the quiz opens with an undecided message while there is one to ask about, the least confident of them, and with the least confident of all otherwise |
| QuizSelector.Select | src/inboxlume/quiz.py:37-93 | the two passes over the sorted unanswered candidates give distinct, unanswered candidates, at most max_per_sender each, of exactly the size the senders allow when ids are distinct |
| QuizSelector.SelectedFrom | src/inboxlume/quiz.py:37-93 | the same for any order that permutes the candidates, whatever the priority |
| QuizSelector.OneAccountHasDistinctIds | src/inboxlume/quiz.py:45-51 | the candidates of one account have distinct ids |
| QuizSelector.SharedIdCostsAPlace | src/inboxlume/quiz.py:81-93 | two accounts sharing an id: two chosen where three fit |
| DurationEstimator.ChunkedReferenceSeconds | src/inboxlume/duration_estimator.py:108-122 | the loop is the sum over chunks |
| DurationEstimator.ClosedForm | src/inboxlume/duration_estimator.py:108-122 | the loop is its quotient of full chunks and its remainder (Times(k, x) is k x, by TimesIsProduct) |
| DurationEstimator.ChunksIsCeiling | src/inboxlume/duration_estimator.py:108-122 | the number of chunks is the quotient rounded up |
| DurationEstimator.ChunkedBounds | src/inboxlume/duration_estimator.py:108-122 | between max(n rate, chunks floor) and their sum |
| DurationEstimator.ChunkedRises | src/inboxlume/duration_estimator.py:108-122 | monotone in messages, rate and floor |
| DurationEstimator.ReferenceIsOrdered | src/inboxlume/duration_estimator.py:219-306 | without samples the raw values satisfy 0 <= lower <= central <= upper |
| DurationEstimator.SampledIsOrdered | src/inboxlume/duration_estimator.py:205-218 | with samples the raw values are in the same order, through the median |
| DurationEstimator.MedianHalves | src/inboxlume/duration_estimator.py:205-208 | with as many rates on either side the median is the middle one, or half way between the two in the middle |
| DurationEstimator.SampledExamples | src/inboxlume/duration_estimator.py:205-211 | ten messages take what the samples say, one takes as long as loading the model |
| DurationEstimator.ReferenceGrows | src/inboxlume/duration_estimator.py:219-306 | without samples all three never fall when there are more messages |
| DurationEstimator.MoreToDoTakesLonger | src/inboxlume/duration_estimator.py:219-306 | switching on anything, or raising a fraction, never lowers any of the three values |
| DurationEstimator.MemoryMatters | src/inboxlume/duration_estimator.py:219-236 | only a computer known to have less than the recommended memory is taken to be slower; unknown memory widens the upper value alone |
| DurationEstimator.EverythingSwitchedOn | src/inboxlume/duration_estimator.py:219-306 | a thousand messages with every option, in seconds |
| DurationEstimator.TooLittleMemory | src/inboxlume/duration_estimator.py:219-306 | a hundred messages on a small computer, in seconds |
| DurationEstimator.OneFullChunk | src/inboxlume/duration_estimator.py:219-306 | a full chunk with everything switched off, in seconds |
| DurationEstimator.ThreeMessages | src/inboxlume/duration_estimator.py:219-306 | three messages take as long as loading the model |
| DurationEstimator.SampledGrows | src/inboxlume/duration_estimator.py:205-218 | with samples all three never fall when there are more messages |
| DurationEstimator.ClampsChangeNothingExactlyWhenOrdered | src/inboxlume/duration_estimator.py:306-308 | the clamps leave values alone iff they were in order |
| DurationEstimator.EstimateScanDuration | src/inboxlume/duration_estimator.py:125-320 | rejected exactly for a negative count or a fraction outside [0,1]; the estimate is the raw values, unclamped |
| PngScanner.LengthsRoundTrip | scripts/audit_repository_privacy.py:77 | four length bytes are read and written back unchanged |
| PngScanner.BinaryMetadataFindings | scripts/audit_repository_privacy.py:70-89 | terminates, reads only inside the buffer, and returns the findings of the walk |
| PngScanner.ParseRebuilds | scripts/audit_repository_privacy.py:75-88 | every buffer is the encoding of the chunks it starts with, followed by its rest |
| PngScanner.ParseOfEncoded | scripts/audit_repository_privacy.py:75-88 | a serialised list is parsed back, as far as its first IEND |
| PngScanner.EveryFile | scripts/audit_repository_privacy.py:75-88 | for every buffer: one finding per eXIf chunk up to the first IEND, and a malformed finding iff no IEND was met and the rest claims more than there is |
| PngScanner.SerialisedFileFindings | scripts/audit_repository_privacy.py:70-89 | a serialised chunk list is never malformed and gives one finding per eXIf up to the first IEND, whatever follows it |
| PngScanner.OverrunIsMalformedOnce | scripts/audit_repository_privacy.py:80-83 | a chunk overrunning the buffer is exactly one malformed finding, at the end |
| PngScanner.JpegFile | scripts/audit_repository_privacy.py:70-73 | a file that starts like a JPEG gives one finding iff the marker occurs anywhere in it |
| PngScanner.OtherFile | scripts/audit_repository_privacy.py:70-75 | a file that starts like neither a JPEG nor a PNG gives none |
| PngScanner.ExifBeforeAndAfterTheEnd | scripts/audit_repository_privacy.py:75-88 | byte by byte: an eXIf chunk before IEND is found, one after it is not |

## Left out

* Provider transports, OAuth, IMAP, key storage and OS locks: a provider call returns any outcome of its vocabulary,
  and an exception is a stop at that point of the trace.
* SQLite itself, JSON text, HMAC: tables are maps and sets, and digests are their material.
* Model prompts, keyword lists and date parsing: the facts they yield are inputs.
* The safety governor and the temporal drift report: the governor's gate is an input; what it reads is `EvidenceSummary`.
* The desktop application, screenshots, packaging and the release scripts.
* The scan command that completes rows at once instead of deferring them, and the pilot and finalization commands:
  their rows may already be in any sound starting state.
* Stored times: executions, answers and events keep no time stamp except in the recent-interest query.
* The authority check for direct trash before a session starts, and the behaviour feedback collected before a scan.
* Chunks.EverySessionHasTheSameLength: for searches that list each message once and in one search only; `ScanOf` and
  what ends a session (`SessionEnd.ProgressEnds`) have no such condition.
* ScanSession.RunChunks: asks that every full chunk the session gets to settles a message of some finite mail, and so
  covers no session that gets past a full chunk of failures; whether such a session ends is decided by
  `SessionEnd.NeverEndsExactlyWhen` when the same messages fail every time, and not otherwise.
* The read-state checks of the scan loops (`src/inboxlume/pipeline.py:223-297`): behind the generators of the providers,
  which yield only mail of the asked read state, they never apply. A listed id that can no longer be fetched is not
  listed in the model.
* ScanSession.MergedUnlimitedSummary: the other scalar totals of a chunk (threat, graph, proof and governor counts) are
  sums of the same form and are left out; the merged counters are `MergeCounters`.
* The progress events and the recording of a diagnostic that fails: the record is built, its file is `Diagnostics`.
* RecentInterest.RecentContentInterest: over real numbers, with the 45-day decay as any factor in (0,1]; rows with an
  unknown event or an unreadable time, which the code skips, cannot be stored by it.
* DurationEstimator.EstimateScanDuration: over real numbers, without the list of factor names shown to the user.
* Interest.PreferenceSumsFirstAnswers: the log holds quiz answers and backfills; the direct `observe` call, which nothing in the
  application makes, is not part of it.
* PngScanner.BinaryMetadataFindings: `git ls-files` and the text patterns of the same script are not modelled.
