/** The scan ledger of learning.py as a value: its tables, its transactions, and the protocol of a session.
 *
 * A session is a sequence of actions.  Every action is one SQLite transaction, one provider call or one
 * control step, and the process may stop between any two of them.
 */
module Ledger {
  import opened Mail

  const THREAT_ENGINE := "threat-consensus-v3"
  const DISABLED_ENGINE := "threat-disabled-v1"

  // shadow_scan; the reason codes are kept as the two facts that are ever read back from them.  A row without
  // reason codes expects no read state.
  datatype ShadowRow = ShadowRow(
    category: Category, action: PolicyAction, hardReason: bool, expectsUnread: Option<bool>, fingerprint: string,
    complete: bool, hardProtected: bool)

  datatype SemanticMode = TechnicalOnly | TargetedSemantic | ConfirmedSemantic

  // The stored analyzer string: four fixed words for messages no model looked at, two for failed
  // attempts, and the name of the model otherwise.
  datatype Analyzer =
    | DisabledByUser | OnlyTechnical | BelowAlert | ScreenClear
    | LocalModelFailure | LocalModelUnavailable | Model(name: string)

  datatype Assessment = Assessment(engine: string, analyzer: Analyzer, signals: bool, alert: bool, protective: bool)

  datatype Outcome = Applied | AlreadyApplied | MovedToTrash | SkippedNotInbox | SkippedProtected

  datatype FinalOutcome =
    | FinalTrash | FinalSpam | CancelledLabelRemoved | CancelledNotInbox | CancelledProtected | AlreadyFinalized

  datatype MarkerOutcome = MarkerApplied | MarkerAlreadyApplied | MarkerNotInbox | MarkerFailed

  datatype BehaviorEvent = Opened | Starred | MarkedImportant | Restored | LeftUnread

  datatype Tables = Tables(
    shadow: map<RowKey, ShadowRow>,
    threats: map<RowKey, Assessment>,
    markers: map<RowKey, MarkerOutcome>,
    executions: map<RowKey, Outcome>,
    finalizations: map<RowKey, FinalOutcome>,
    answers: map<MessageKey, Answer>,
    registered: set<MessageKey>,
    identities: set<(string, MessageKey)>,
    events: set<(MessageKey, BehaviorEvent)>)

  const EMPTY_TABLES := Tables(map[], map[], map[], map[], map[], map[], {}, {}, {})

  predicate InScope(k: RowKey, account: string, profile: string) {
    k.message.account == account && k.profile == profile
  }

  // ---- the transactions ----

  // One entry of record_shadow_scan_batch.
  datatype Entry = Entry(key: RowKey, row: ShadowRow, unread: bool, identity: Option<string>)

  // _upsert_shadow_scan_with_connection
  function UpsertShadow(shadow: map<RowKey, ShadowRow>, key: RowKey, row: ShadowRow): (s: map<RowKey, ShadowRow>) {
    if key in shadow && shadow[key].complete && shadow[key].fingerprint == row.fingerprint then shadow
    else shadow[key := row]
  }

  function RecordEntry(t: Tables, e: Entry): (t': Tables) {
    t.(shadow := UpsertShadow(t.shadow, e.key, e.row),
       registered := t.registered + {e.key.message},
       identities := if e.identity.Some? then t.identities + {(e.identity.value, e.key.message)} else t.identities,
       events := if e.unread then t.events + {(e.key.message, LeftUnread)} else t.events)
  }

  function RecordEntries(t: Tables, entries: seq<Entry>): (t': Tables) {
    if entries == [] then t
    else RecordEntry(RecordEntries(t, entries[..|entries| - 1]), entries[|entries| - 1])
  }

  // record_threat_assessment: a protective verdict is mirrored into the shadow row.
  function RecordAssessment(t: Tables, key: RowKey, a: Assessment): (t': Tables) {
    t.(threats := t.threats[key := a],
       shadow := if a.protective && key in t.shadow
                 then t.shadow[key := t.shadow[key].(action := Review, hardProtected := true)] else t.shadow)
  }

  const DISABLED_ASSESSMENT := Assessment(DISABLED_ENGINE, DisabledByUser, false, false, false)

  function Disable(threats: map<RowKey, Assessment>, keys: set<RowKey>): map<RowKey, Assessment> {
    threats + map k | k in keys :: DISABLED_ASSESSMENT
  }

  lemma DisableOneMore(threats: map<RowKey, Assessment>, keys: set<RowKey>, k: RowKey)
    ensures Disable(threats, keys + {k}) == Disable(threats, keys)[k := DISABLED_ASSESSMENT]
  {
  }

  // mark_shadow_batch_complete
  function MarkComplete(shadow: map<RowKey, ShadowRow>, keys: set<RowKey>,
                        fingerprint: string): map<RowKey, ShadowRow> {
    map k | k in shadow ::
      if k in keys && shadow[k].fingerprint == fingerprint then shadow[k].(complete := true) else shadow[k]
  }

  lemma MarkOneMore(shadow: map<RowKey, ShadowRow>, keys: set<RowKey>, k: RowKey, fingerprint: string)
    ensures MarkComplete(shadow, keys + {k}, fingerprint) ==
      var marked := MarkComplete(shadow, keys, fingerprint);
      if k in marked && marked[k].fingerprint == fingerprint then marked[k := marked[k].(complete := true)] else marked
  {
  }

  function Reopen(shadow: map<RowKey, ShadowRow>, keys: set<RowKey>): map<RowKey, ShadowRow> {
    map k | k in shadow :: if k in keys then shadow[k].(complete := false) else shadow[k]
  }

  // The WHERE clause of reset_stale_threat_assessments.
  predicate Stale(a: Assessment, mode: SemanticMode) {
    || a.engine != THREAT_ENGINE
    || a.analyzer == DisabledByUser
    || (mode in {TargetedSemantic, ConfirmedSemantic} && a.analyzer == OnlyTechnical)
    || (mode == TargetedSemantic && a.analyzer == BelowAlert)
  }

  function StaleKeys(t: Tables, account: string, profile: string, mode: SemanticMode): set<RowKey> {
    set k | k in t.threats && InScope(k, account, profile) && Stale(t.threats[k], mode)
  }

  function DisabledKeys(t: Tables, account: string, profile: string): set<RowKey> {
    set k | k in t.threats && InScope(k, account, profile) && t.threats[k].analyzer == DisabledByUser
  }

  // Both resets: reopen the rows, then delete their assessments, in one transaction.
  function Withdraw(t: Tables, keys: set<RowKey>): (t': Tables) {
    t.(shadow := Reopen(t.shadow, keys), threats := t.threats - keys)
  }

  // record_threat_marker_execution: a failed marker reopens its row.
  function RecordMarker(t: Tables, key: RowKey, outcome: MarkerOutcome): (t': Tables) {
    t.(markers := t.markers[key := outcome],
       shadow := if outcome == MarkerFailed then Reopen(t.shadow, {key}) else t.shadow)
  }

  // INSERT OR IGNORE
  function InsertOrIgnore<K, V>(m: map<K, V>, k: K, v: V): map<K, V> { if k in m then m else m[k := v] }

  // The rows that make a restore count: an execution that moved the message, or its finalization.
  predicate Moved(t: Tables, m: MessageKey) {
    || (exists k :: k in t.executions && k.message == m && t.executions[k] in {Applied, AlreadyApplied, MovedToTrash})
    || (exists k :: k in t.finalizations && k.message == m && t.finalizations[k] in {FinalTrash, FinalSpam})
  }

  // record_restored_event_for_message_id
  function RestoreMessage(t: Tables, m: MessageKey): (t': Tables) {
    if m in t.registered && Moved(t, m) then t.(events := t.events + {(m, Restored)}) else t
  }

  // record_restored_event_for_provider_identity
  function RestoreIdentity(t: Tables, account: string, provider: Provider, identity: string): (t': Tables) {
    var found := set p | p in t.identities && p.0 == identity && p.1.account == account && p.1.provider == provider
                         && p.1 in t.registered && Moved(t, p.1) :: (p.1, Restored);
    t.(events := t.events + found)
  }

  // ---- what a batch leaves alone ----

  // Rows and assessments of other messages are as they were.
  ghost predicate Confined(t: Tables, t': Tables, keys: set<RowKey>) {
    && (forall k :: k !in keys ==> (k in t'.shadow <==> k in t.shadow))
    && (forall k :: k !in keys && k in t.shadow ==> t'.shadow[k] == t.shadow[k])
    && (forall k :: k !in keys ==> (k in t'.threats <==> k in t.threats))
    && (forall k :: k !in keys && k in t.threats ==> t'.threats[k] == t.threats[k])
  }

  // A verdict does not change how far the scan of a message has got.
  ghost predicate SameProgress(shadow: map<RowKey, ShadowRow>, shadow': map<RowKey, ShadowRow>) {
    && shadow'.Keys == shadow.Keys
    && forall k :: k in shadow ==>
         shadow'[k].complete == shadow[k].complete && shadow'[k].fingerprint == shadow[k].fingerprint
  }

  // ---- sessions ----

  // What the scan command is doing.  unsettled is a cleanup call whose execution row is not written yet;
  // mutating is _mailbox_mutation_started; epoch counts the beginnings and ends of sessions.
  datatype Session = Session(
    account: string, profile: string, protecting: bool, mode: SemanticMode, mutating: bool,
    unsettled: Option<(RowKey, Outcome)>, epoch: nat)

  // What a session has done to the mailbox so far: cleanup calls, those that moved a message, and markers
  // applied.  Quarantine succeeds with Applied and direct Trash with MovedToTrash; no executor returns both.
  datatype Effects = Effects(calls: nat, moved: nat, marked: nat)
  {
    function Plus(e: Effects): Effects { Effects(calls + e.calls, moved + e.moved, marked + e.marked) }
  }

  const NO_EFFECTS := Effects(0, 0, 0)

  predicate Succeeded(outcome: Outcome) { outcome == Applied || outcome == MovedToTrash }

  datatype Machine = Machine(tables: Tables, session: Session, done: Effects)

  datatype Action =
    | Begin(account: string, profile: string, protecting: bool, mode: SemanticMode)
    | Stop
    | ResetStale(account: string, profile: string, mode: SemanticMode)
    | ResetDisabled(account: string, profile: string)
    | RecordBatch(entries: seq<Entry>)
    | Assess(key: RowKey, assessment: Assessment)
    | DisableBatch(keys: set<RowKey>)
    | CompleteBatch(keys: set<RowKey>, fingerprint: string)
    | StartMutations
    | CallMarker(key: RowKey, markerOutcome: MarkerOutcome)
    | WriteMarker(key: RowKey, markerOutcome: MarkerOutcome)
    | CallCleanup(key: RowKey, outcome: Outcome)
    | WriteExecution(key: RowKey, outcome: Outcome)
    | WriteFinalization(key: RowKey, finalOutcome: FinalOutcome)
    | AnswerQuiz(message: MessageKey, answer: Answer)
    | WriteBehavior(message: MessageKey, event: BehaviorEvent)
    | RestoreById(message: MessageKey)
    | RestoreByIdentity(account: string, provider: Provider, identity: string)

  function ApplyToTables(t: Tables, a: Action): (t': Tables) {
    match a
    case ResetStale(account, profile, mode) => Withdraw(t, StaleKeys(t, account, profile, mode))
    case ResetDisabled(account, profile) => Withdraw(t, DisabledKeys(t, account, profile))
    case RecordBatch(entries) => RecordEntries(t, entries)
    case Assess(key, assessment) => RecordAssessment(t, key, assessment)
    case DisableBatch(keys) => t.(threats := Disable(t.threats, keys))
    case CompleteBatch(keys, fingerprint) => t.(shadow := MarkComplete(t.shadow, keys, fingerprint))
    case WriteMarker(key, outcome) => RecordMarker(t, key, outcome)
    case WriteExecution(key, outcome) => t.(executions := InsertOrIgnore(t.executions, key, outcome))
    case WriteFinalization(key, outcome) => t.(finalizations := InsertOrIgnore(t.finalizations, key, outcome))
    case AnswerQuiz(m, answer) => t.(answers := InsertOrIgnore(t.answers, m, answer))
    case WriteBehavior(m, event) => if m in t.registered then t.(events := t.events + {(m, event)}) else t
    case RestoreById(m) => RestoreMessage(t, m)
    case RestoreByIdentity(account, provider, identity) => RestoreIdentity(t, account, provider, identity)
    case _ => t
  }

  function ApplyToSession(s: Session, a: Action): (s': Session) {
    match a
    case Begin(account, profile, protecting, mode) =>
      Session(account, profile, protecting, mode, false, None, s.epoch + 1)
    case StartMutations => s.(mutating := true)
    case CallCleanup(key, outcome) => s.(unsettled := Some((key, outcome)))
    case WriteExecution(key, outcome) => s.(unsettled := None)
    case Stop => s.(unsettled := None, epoch := s.epoch + 1)
    case _ => s
  }

  function ApplyToEffects(e: Effects, a: Action): (e': Effects) {
    match a
    case Begin(_, _, _, _) => NO_EFFECTS
    case CallCleanup(_, outcome) => e.Plus(Effects(1, if Succeeded(outcome) then 1 else 0, 0))
    case CallMarker(_, outcome) => e.Plus(Effects(0, 0, if outcome == MarkerApplied then 1 else 0))
    case _ => e
  }

  function Apply(m: Machine, a: Action): (m': Machine) {
    Machine(ApplyToTables(m.tables, a), ApplyToSession(m.session, a), ApplyToEffects(m.done, a))
  }

  // ---- when an action may happen ----

  // The pass the mode asks for on these technical findings (semantic_followup_recommended).
  predicate Demands(mode: SemanticMode, signals: bool, alert: bool) {
    match mode
    case TechnicalOnly => false
    case ConfirmedSemantic => alert
    case TargetedSemantic => signals
  }

  predicate Attempted(a: Analyzer) {
    a.LocalModelFailure? || a.LocalModelUnavailable? || a.Model?
  }

  // A message nothing may move: protective, kept by the user, or acted on before.
  predicate Cleanable(t: Tables, key: RowKey, protecting: bool) {
    && key in t.threats && !t.threats[key].protective
    && (protecting ==> t.threats[key].analyzer != DisabledByUser)
    && !(key.message in t.answers && t.answers[key.message] in {AnswerKeep, AnswerUnsure})
    && key !in t.executions
  }

  predicate Enabled(m: Machine, a: Action) {
    && (m.session.unsettled.Some? ==>
          a == Stop || a == WriteExecution(m.session.unsettled.value.0, m.session.unsettled.value.1))
    && match a
       case RecordBatch(entries) => forall i :: 0 <= i < |entries| ==> !entries[i].row.complete
       case Assess(_, assessment) => Current(assessment)
       case CompleteBatch(keys, _) => forall k :: k in keys ==> k in m.tables.threats
       case CallMarker(_, _) => m.session.mutating
       case CallCleanup(key, _) => m.session.mutating && Cleanable(m.tables, key, m.session.protecting)
       case WriteExecution(key, outcome) => m.session.unsettled == Some((key, outcome))
       case WriteBehavior(_, event) => event in {Opened, Starred, MarkedImportant}
       case _ => true
  }

  // ---- what every state keeps ----

  // The analyzer word says why no model looked.
  predicate Coherent(a: Assessment) {
    && (a.alert ==> a.signals)
    && (a.analyzer.ScreenClear? ==> !a.signals)
    && (a.analyzer.BelowAlert? ==> !a.alert)
  }

  predicate Current(a: Assessment) {
    Coherent(a) && a.engine == THREAT_ENGINE && a.analyzer != DisabledByUser
  }

  // Every completed row has an assessment under the same key.
  ghost predicate Attested(t: Tables) {
    forall k :: k in t.shadow && t.shadow[k].complete ==> k in t.threats
  }

  ghost predicate AllCoherent(t: Tables) {
    forall k :: k in t.threats ==> Coherent(t.threats[k])
  }

  // A restore is only ever recorded for a message that was moved.
  ghost predicate RestoresAreReal(t: Tables) {
    forall m :: (m, Restored) in t.events ==> Moved(t, m)
  }

  ghost predicate Sound(t: Tables) {
    Attested(t) && AllCoherent(t) && RestoresAreReal(t)
  }

  lemma {:induction false} EntriesKeep(t: Tables, entries: seq<Entry>)
    requires forall i :: 0 <= i < |entries| ==> !entries[i].row.complete
    ensures var t' := RecordEntries(t, entries);
      && t'.threats == t.threats && t'.executions == t.executions && t'.finalizations == t.finalizations
      && t'.answers == t.answers && t'.markers == t.markers
      && (forall k :: k in t'.shadow && t'.shadow[k].complete ==> k in t.shadow && t'.shadow[k] == t.shadow[k])
      && (forall m :: (m, Restored) in t'.events ==> (m, Restored) in t.events)
  {
    if entries != [] {
      EntriesKeep(t, entries[..|entries| - 1]);
    }
  }

  lemma MovedIsForever(t: Tables, t': Tables, m: MessageKey)
    requires forall k :: k in t.executions ==> k in t'.executions && t'.executions[k] == t.executions[k]
    requires forall k :: k in t.finalizations ==> k in t'.finalizations && t'.finalizations[k] == t.finalizations[k]
    requires Moved(t, m)
    ensures Moved(t', m)
  {
  }

  // Execution and finalization rows are never changed or removed, by any action at all.
  lemma OutcomesAreForever(t: Tables, a: Action)
    ensures var t' := ApplyToTables(t, a);
      && (forall k :: k in t.executions ==> k in t'.executions && t'.executions[k] == t.executions[k])
      && (forall k :: k in t.finalizations ==> k in t'.finalizations && t'.finalizations[k] == t.finalizations[k])
      && (forall m :: m in t.answers ==> m in t'.answers && t'.answers[m] == t.answers[m])
  {
    if a.RecordBatch? {
      EntriesKeepOutcomes(t, a.entries);
    }
  }

  lemma {:induction false} EntriesKeepOutcomes(t: Tables, entries: seq<Entry>)
    ensures var t' := RecordEntries(t, entries);
      t'.executions == t.executions && t'.finalizations == t.finalizations && t'.answers == t.answers
  {
    if entries != [] {
      EntriesKeepOutcomes(t, entries[..|entries| - 1]);
    }
  }

  lemma EachActionKeepsAttested(m: Machine, a: Action)
    requires Enabled(m, a) && Attested(m.tables)
    ensures Attested(Apply(m, a).tables)
  {
    if a.RecordBatch? {
      EntriesKeep(m.tables, a.entries);
    }
  }

  lemma EachActionKeepsCoherent(m: Machine, a: Action)
    requires Enabled(m, a) && AllCoherent(m.tables)
    ensures AllCoherent(Apply(m, a).tables)
  {
    if a.RecordBatch? {
      EntriesKeep(m.tables, a.entries);
    }
  }

  lemma EachActionKeepsRestores(m: Machine, a: Action)
    requires Enabled(m, a) && RestoresAreReal(m.tables)
    ensures RestoresAreReal(Apply(m, a).tables)
  {
    var t, t' := m.tables, Apply(m, a).tables;
    OutcomesAreForever(t, a);
    if a.RecordBatch? {
      EntriesKeep(t, a.entries);
    }
    forall msg | (msg, Restored) in t'.events ensures Moved(t', msg) {
      if (msg, Restored) in t.events || Moved(t, msg) {
        MovedIsForever(t, t', msg);
      }
    }
  }

  // The invariant of the ledger: one action at a time, so also when the process stops after any of them.
  lemma EachActionKeepsSound(m: Machine, a: Action)
    requires Enabled(m, a) && Sound(m.tables)
    ensures Sound(Apply(m, a).tables)
  {
    EachActionKeepsAttested(m, a);
    EachActionKeepsCoherent(m, a);
    EachActionKeepsRestores(m, a);
  }
}
