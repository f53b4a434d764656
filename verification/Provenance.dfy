/** Where the rows of the ledger come from: what each fact in its tables says about the actions before it. */
module Provenance {
  import opened Mail
  import opened Ledger
  import opened Protocol

  // ---- the behaviour events ----

  // Some cleanup moved the message, under whatever profile, and did not merely skip it.
  ghost predicate WasMoved(t: Tables, m: MessageKey) {
    exists profile: string :: var k := RowKey(m, profile);
      || (k in t.executions && t.executions[k] != SkippedNotInbox && t.executions[k] != SkippedProtected)
      || (k in t.finalizations && (t.finalizations[k] == FinalTrash || t.finalizations[k] == FinalSpam))
  }

  // The action records the event: an unread message of a batch, the behaviour of a registered message, or the
  // restore of a registered message that was moved.
  ghost predicate Causes(t: Tables, a: Action, m: MessageKey, event: BehaviorEvent) {
    match a
    case RecordBatch(entries) => event == LeftUnread && exists e :: e in entries && e.unread && e.key.message == m
    case WriteBehavior(message, e) => message == m && e == event && m in t.registered
    case RestoreById(message) => message == m && event == Restored && m in t.registered && WasMoved(t, m)
    case RestoreByIdentity(account, provider, identity) =>
      && event == Restored && m.account == account && m.provider == provider && (identity, m) in t.identities
      && m in t.registered && WasMoved(t, m)
    case _ => false
  }

  lemma MovedMeans(t: Tables, m: MessageKey)
    ensures Moved(t, m) <==> WasMoved(t, m)
  {
    if Moved(t, m) {
      if k :| k in t.executions && k.message == m && t.executions[k] in {Applied, AlreadyApplied, MovedToTrash} {
        assert k == RowKey(m, k.profile);
      } else {
        var k :| k in t.finalizations && k.message == m && t.finalizations[k] in {FinalTrash, FinalSpam};
        assert k == RowKey(m, k.profile);
      }
    }
  }

  // What a batch writes besides its rows: each of its messages is registered, with its identity if it has one, and
  // those that are unread get an event.
  ghost predicate Registers(t: Tables, t': Tables, entries: seq<Entry>) {
    && (forall m :: m in t'.registered <==> m in t.registered || exists e :: e in entries && e.key.message == m)
    && (forall id, m :: (id, m) in t'.identities <==>
          (id, m) in t.identities || exists e :: e in entries && e.key.message == m && e.identity == Some(id))
    && (forall m, event :: (m, event) in t'.events <==>
          (m, event) in t.events
          || (event == LeftUnread && exists e :: e in entries && e.unread && e.key.message == m))
  }

  lemma {:induction false} BatchRegisters(t: Tables, entries: seq<Entry>)
    ensures Registers(t, RecordEntries(t, entries), entries)
  {
    if entries != [] {
      var before, last := entries[..|entries| - 1], entries[|entries| - 1];
      BatchRegisters(t, before);
      assert forall e :: e in entries <==> e in before || e == last;
    }
  }

  lemma EventsOfOneAction(t: Tables, a: Action, m: MessageKey, event: BehaviorEvent)
    ensures (m, event) in ApplyToTables(t, a).events <==> (m, event) in t.events || Causes(t, a, m, event)
  {
    if a.RecordBatch? {
      BatchRegisters(t, a.entries);
    } else if a.RestoreById? {
      MovedMeans(t, m);
    } else if a.RestoreByIdentity? {
      IdentityRestores(t, a.account, a.provider, a.identity, m, event);
    } else if !a.WriteBehavior? {
      EventsStay(t, a);
    }
  }

  lemma EventsStay(t: Tables, a: Action)
    requires !a.RecordBatch? && !a.RestoreById? && !a.RestoreByIdentity? && !a.WriteBehavior?
    ensures ApplyToTables(t, a).events == t.events
  {
  }

  lemma IdentityRestores(
    t: Tables, account: string, provider: Provider, identity: string, m: MessageKey, event: BehaviorEvent)
    ensures (m, event) in RestoreIdentity(t, account, provider, identity).events <==>
      || (m, event) in t.events
      || (event == Restored && m.account == account && m.provider == provider && (identity, m) in t.identities
          && m in t.registered && WasMoved(t, m))
  {
    MovedMeans(t, m);
  }

  ghost predicate CausedBy(start: Machine, actions: seq<Action>, i: nat, m: MessageKey, event: BehaviorEvent)
    requires i < |actions|
  {
    Permitted(start, actions[..i]) && Causes(After(start, actions[..i]).tables, actions[i], m, event)
  }

  // Over every run, an event is on record exactly when it was at the beginning or some action caused it; no action
  // takes one back.
  lemma {:induction false} EveryEventHasACause(
    start: Machine, actions: seq<Action>, m: MessageKey, event: BehaviorEvent)
    requires Permitted(start, actions)
    ensures (m, event) in After(start, actions).tables.events <==>
      (m, event) in start.tables.events || exists i :: 0 <= i < |actions| && CausedBy(start, actions, i, m, event)
    decreases |actions|
  {
    if actions != [] {
      var n := |actions| - 1;
      var before := actions[..n];
      LastAction(start, actions);
      EveryEventHasACause(start, before, m, event);
      EventsOfOneAction(After(start, before).tables, actions[n], m, event);
      forall i | 0 <= i < n ensures CausedBy(start, before, i, m, event) <==> CausedBy(start, actions, i, m, event) {
        assert before[..i] == actions[..i];
      }
      assert CausedBy(start, actions, n, m, event) <==> Causes(After(start, before).tables, actions[n], m, event);
    }
  }

  // ---- the completed rows and their assessments ----

  predicate IsComplete(t: Tables, k: RowKey) { k in t.shadow && t.shadow[k].complete }

  // The action takes the message's assessment back: it is stale for the mode, or was written while the module was
  // switched off.
  predicate TakesBack(t: Tables, a: Action, k: RowKey) {
    match a
    case ResetStale(account, profile, mode) =>
      && k in t.threats && k.message.account == account && k.profile == profile
      && (|| t.threats[k].engine != "threat-consensus-v3" || t.threats[k].analyzer == DisabledByUser
          || (t.threats[k].analyzer == OnlyTechnical && mode != TechnicalOnly)
          || (t.threats[k].analyzer == BelowAlert && mode == TargetedSemantic))
    case ResetDisabled(account, profile) =>
      && k in t.threats && k.message.account == account && k.profile == profile
      && t.threats[k].analyzer == DisabledByUser
    case _ => false
  }

  lemma {:induction false} BatchReopens(t: Tables, entries: seq<Entry>, k: RowKey)
    requires forall i :: 0 <= i < |entries| ==> !entries[i].row.complete
    ensures IsComplete(RecordEntries(t, entries), k) <==>
      IsComplete(t, k) && forall e :: e in entries && e.key == k ==> e.row.fingerprint == t.shadow[k].fingerprint
  {
    if entries != [] {
      var before, last := entries[..|entries| - 1], entries[|entries| - 1];
      BatchReopens(t, before, k);
      EntriesKeep(t, before);
      assert forall e :: e in entries <==> e in before || e == last;
    }
  }

  // What makes a row complete, and what opens it again: it is listed as done under the fingerprint it was scanned
  // with, until it is scanned under another one, its assessment is taken back, or a marker fails on it.
  lemma CompleteExactlyWhen(m: Machine, a: Action, k: RowKey)
    requires Enabled(m, a)
    ensures var t := m.tables;
      IsComplete(Apply(m, a).tables, k) <==>
      match a
      case CompleteBatch(keys, fingerprint) =>
        k in t.shadow && (t.shadow[k].complete || (k in keys && t.shadow[k].fingerprint == fingerprint))
      case RecordBatch(entries) =>
        IsComplete(t, k) && forall e :: e in entries && e.key == k ==> e.row.fingerprint == t.shadow[k].fingerprint
      case WriteMarker(key, outcome) => IsComplete(t, k) && !(key == k && outcome == MarkerFailed)
      case _ => IsComplete(t, k) && !TakesBack(t, a, k)
  {
    if a.RecordBatch? {
      BatchReopens(m.tables, a.entries, k);
    }
  }

  // Which assessment a message has: the last one written for it that was not taken back.
  lemma AssessedExactlyWhen(m: Machine, a: Action, k: RowKey, assessment: Assessment)
    requires Enabled(m, a)
    ensures var t, t' := m.tables, Apply(m, a).tables;
      k in t'.threats && t'.threats[k] == assessment <==>
      match a
      case Assess(key, verdict) => if key == k then verdict == assessment
                                   else k in t.threats && t.threats[k] == assessment
      case DisableBatch(keys) =>
        if k in keys then assessment == Assessment("threat-disabled-v1", DisabledByUser, false, false, false)
        else k in t.threats && t.threats[k] == assessment
      case _ => k in t.threats && t.threats[k] == assessment && !TakesBack(t, a, k)
  {
    if a.RecordBatch? {
      EntriesKeep(m.tables, a.entries);
    }
  }

  // ---- the outcomes and the answers ----

  // An outcome is on record exactly when it was the first for its message, ...
  lemma FirstOutcomeStays(t: Tables, a: Action, k: RowKey, outcome: Outcome)
    ensures var t' := ApplyToTables(t, a);
      k in t'.executions && t'.executions[k] == outcome <==>
        if k in t.executions then t.executions[k] == outcome else a == WriteExecution(k, outcome)
  {
    if a.RecordBatch? {
      EntriesKeepOutcomes(t, a.entries);
    }
  }

  // ... and so is a finalization ...
  lemma FirstFinalizationStays(t: Tables, a: Action, k: RowKey, outcome: FinalOutcome)
    ensures var t' := ApplyToTables(t, a);
      k in t'.finalizations && t'.finalizations[k] == outcome <==>
        if k in t.finalizations then t.finalizations[k] == outcome else a == WriteFinalization(k, outcome)
  {
    if a.RecordBatch? {
      EntriesKeepOutcomes(t, a.entries);
    }
  }

  // ... and an answer.
  lemma FirstAnswerStays(t: Tables, a: Action, m: MessageKey, answer: Answer)
    ensures var t' := ApplyToTables(t, a);
      m in t'.answers && t'.answers[m] == answer <==>
        if m in t.answers then t.answers[m] == answer else a == AnswerQuiz(m, answer)
  {
    if a.RecordBatch? {
      EntriesKeepOutcomes(t, a.entries);
    }
  }
}
