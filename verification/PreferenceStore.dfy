/** PreferenceStore (learning.py): the scan ledger as an object whose methods are the transactions. */
module PreferenceStore {
  import opened Mail
  import opened Ledger
  import opened Protocol

  class PreferenceStore {
    var shadow: map<RowKey, ShadowRow>
    var threats: map<RowKey, Assessment>
    var markers: map<RowKey, MarkerOutcome>
    var executions: map<RowKey, Outcome>
    var finalizations: map<RowKey, FinalOutcome>
    var answers: map<MessageKey, Answer>
    var registered: set<MessageKey>
    var identities: set<(string, MessageKey)>
    var events: set<(MessageKey, BehaviorEvent)>

    // What the operation lock protects: the session under way, and every action since the store was opened.
    ghost var session: Session
    ghost var done: Effects
    ghost var trace: seq<Action>
    ghost const start: Machine

    function Contents(): Tables
      reads this
    {
      Tables(shadow, threats, markers, executions, finalizations, answers, registered, identities, events)
    }

    ghost function Now(): Machine
      reads this
    {
      Machine(Contents(), session, done)
    }

    ghost predicate Valid()
      reads this
    {
      Permitted(start, trace) && Now() == After(start, trace) && Sound(start.tables)
    }

    // No cleanup call is waiting for its execution row.
    ghost predicate Settled()
      reads this
    {
      Valid() && session.unsettled.None?
    }

    constructor (ghost idle: Session)
      requires idle.unsettled.None?
      ensures Settled() && Contents() == EMPTY_TABLES && session == idle && done == NO_EFFECTS && trace == []
    {
      shadow, threats, markers, executions, finalizations := map[], map[], map[], map[], map[];
      answers, registered, identities, events := map[], {}, {}, {};
      session, done, trace, start := idle, NO_EFFECTS, [], Machine(EMPTY_TABLES, idle, NO_EFFECTS);
    }

    // The store opened again after a process stopped: past is what it had done, and its tables are on disk.
    constructor AfterCrash(t: Tables, ghost was: Machine, ghost past: seq<Action>)
      requires Permitted(was, past) && Sound(was.tables) && t == After(was, past).tables
      ensures Settled() && Contents() == t && start == was && trace == past + [Stop]
    {
      shadow, threats, markers, executions, finalizations := t.shadow, t.threats, t.markers, t.executions,
        t.finalizations;
      answers, registered, identities, events := t.answers, t.registered, t.identities, t.events;
      OneMore(was, past, Stop);
      ghost var m := After(was, past + [Stop]);
      session, done, trace, start := m.session, m.done, past + [Stop], was;
    }

    // The one place where an action is entered into the history of the store.
    ghost method Record(was: Machine, a: Action)
      requires Permitted(start, trace) && was == After(start, trace) && Sound(start.tables)
      requires Enabled(was, a) && Now() == Apply(was, a)
      modifies `trace
      ensures Valid() && trace == old(trace) + [a]
    {
      OneMore(start, trace, a);
      trace := trace + [a];
    }

    // execute_scan: the session flags are reset.
    method Begin(account: string, profile: string, protecting: bool, mode: SemanticMode)
      requires Settled()
      modifies this
      ensures Settled() && trace == old(trace) + [Action.Begin(account, profile, protecting, mode)]
      ensures Contents() == old(Contents())
      ensures session == Session(account, profile, protecting, mode, false, None, old(session).epoch + 1)
      ensures done == NO_EFFECTS
    {
      ghost var was := Now();
      session, done := Session(account, profile, protecting, mode, false, None, session.epoch + 1), NO_EFFECTS;
      Record(was, Action.Begin(account, profile, protecting, mode));
    }

    // The phase callback for the mailbox actions: the mutation flag is raised before any of them.
    method StartMutations()
      requires Settled()
      modifies this
      ensures Settled() && trace == old(trace) + [Action.StartMutations]
      ensures Contents() == old(Contents()) && session == old(session).(mutating := true) && done == old(done)
    {
      ghost var was := Now();
      session := session.(mutating := true);
      Record(was, Action.StartMutations);
    }

    method ResetStaleThreatAssessments(account: string, profile: string, mode: SemanticMode) returns (count: nat)
      requires Settled()
      modifies this
      ensures Settled() && trace == old(trace) + [ResetStale(account, profile, mode)]
      ensures Contents() == Withdraw(old(Contents()), StaleKeys(old(Contents()), account, profile, mode))
      ensures session == old(session) && done == old(done)
      ensures count == |StaleKeys(old(Contents()), account, profile, mode)|
    {
      ghost var was := Now();
      var stale := set k | k in threats && InScope(k, account, profile) && Stale(threats[k], mode);
      count := |stale|;
      if stale != {} {
        shadow := Reopen(shadow, stale);
        threats := threats - stale;
      }
      assert stale == StaleKeys(was.tables, account, profile, mode);
      if stale == {} {
        assert shadow == Reopen(was.tables.shadow, {}) && threats == was.tables.threats - {};
      }
      Record(was, ResetStale(account, profile, mode));
    }

    method RecordShadowScanBatch(entries: seq<Entry>)
      requires Settled() && forall i :: 0 <= i < |entries| ==> !entries[i].row.complete
      modifies this
      ensures Settled() && trace == old(trace) + [RecordBatch(entries)]
      ensures Contents() == RecordEntries(old(Contents()), entries)
      ensures session == old(session) && done == old(done)
    {
      ghost var was := Now();
      WriteEntries(entries);
      Record(was, RecordBatch(entries));
    }

    method WriteEntries(entries: seq<Entry>)
      modifies `shadow, `registered, `identities, `events
      ensures Contents() == RecordEntries(old(Contents()), entries)
    {
      var i := 0;
      while i < |entries|
        invariant 0 <= i <= |entries|
        invariant Contents() == RecordEntries(old(Contents()), entries[..i])
      {
        var e := entries[i];
        if !(e.key in shadow && shadow[e.key].complete && shadow[e.key].fingerprint == e.row.fingerprint) {
          shadow := shadow[e.key := e.row];
        }
        registered := registered + {e.key.message};
        if e.identity.Some? {
          identities := identities + {(e.identity.value, e.key.message)};
        }
        if e.unread {
          events := events + {(e.key.message, LeftUnread)};
        }
        assert entries[..i + 1][..i] == entries[..i];
        i := i + 1;
      }
      assert entries[..|entries|] == entries;
    }

    method RecordThreatAssessment(key: RowKey, a: Assessment)
      requires Settled() && Current(a)
      modifies this
      ensures Settled() && trace == old(trace) + [Assess(key, a)]
      ensures Contents() == RecordAssessment(old(Contents()), key, a)
      ensures session == old(session) && done == old(done)
    {
      ghost var was := Now();
      threats := threats[key := a];
      if a.protective && key in shadow {
        shadow := shadow[key := shadow[key].(action := Review, hardProtected := true)];
      }
      Record(was, Assess(key, a));
    }

    method RecordDisabledThreatAssessmentBatch(keys: seq<RowKey>)
      requires Settled()
      modifies this
      ensures Settled() && trace == old(trace) + [DisableBatch(Elements(keys))]
      ensures Contents() == old(Contents()).(threats := Disable(old(threats), Elements(keys)))
      ensures session == old(session) && done == old(done)
    {
      ghost var was := Now();
      WriteDisabled(keys);
      Record(was, DisableBatch(Elements(keys)));
    }

    method WriteDisabled(keys: seq<RowKey>)
      modifies `threats
      ensures threats == Disable(old(threats), Elements(keys))
    {
      var i := 0;
      while i < |keys|
        invariant 0 <= i <= |keys|
        invariant threats == Disable(old(threats), Elements(keys[..i]))
      {
        assert keys[..i + 1] == keys[..i] + [keys[i]];
        assert Elements(keys[..i + 1]) == Elements(keys[..i]) + {keys[i]};
        DisableOneMore(old(threats), Elements(keys[..i]), keys[i]);
        threats := threats[keys[i] := DISABLED_ASSESSMENT];
        i := i + 1;
      }
      assert keys[..|keys|] == keys;
    }

    method MarkShadowBatchComplete(keys: seq<RowKey>, fingerprint: string)
      requires Settled() && forall k :: k in keys ==> k in threats
      modifies this
      ensures Settled() && trace == old(trace) + [CompleteBatch(Elements(keys), fingerprint)]
      ensures Contents() == old(Contents()).(shadow := MarkComplete(old(shadow), Elements(keys), fingerprint))
      ensures session == old(session) && done == old(done)
    {
      ghost var was := Now();
      WriteComplete(keys, fingerprint);
      Record(was, CompleteBatch(Elements(keys), fingerprint));
    }

    method WriteComplete(keys: seq<RowKey>, fingerprint: string)
      modifies `shadow
      ensures shadow == MarkComplete(old(shadow), Elements(keys), fingerprint)
    {
      var i := 0;
      while i < |keys|
        invariant 0 <= i <= |keys|
        invariant shadow == MarkComplete(old(shadow), Elements(keys[..i]), fingerprint)
      {
        assert keys[..i + 1] == keys[..i] + [keys[i]];
        assert Elements(keys[..i + 1]) == Elements(keys[..i]) + {keys[i]};
        MarkOneMore(old(shadow), Elements(keys[..i]), keys[i], fingerprint);
        if keys[i] in shadow && shadow[keys[i]].fingerprint == fingerprint {
          shadow := shadow[keys[i] := shadow[keys[i]].(complete := true)];
        }
        i := i + 1;
      }
      assert keys[..|keys|] == keys;
    }

    method RecordThreatMarkerExecution(key: RowKey, outcome: MarkerOutcome)
      requires Settled()
      modifies this
      ensures Settled() && trace == old(trace) + [WriteMarker(key, outcome)]
      ensures Contents() == RecordMarker(old(Contents()), key, outcome)
      ensures session == old(session) && done == old(done)
    {
      ghost var was := Now();
      markers := markers[key := outcome];
      if outcome == MarkerFailed {
        shadow := Reopen(shadow, {key});
      }
      Record(was, WriteMarker(key, outcome));
    }

    method RecordQuarantinePilotExecution(key: RowKey, outcome: Outcome)
      requires Valid() && session.unsettled == Some((key, outcome))
      modifies this
      ensures Settled() && trace == old(trace) + [WriteExecution(key, outcome)]
      ensures Contents() == old(Contents()).(executions := InsertOrIgnore(old(executions), key, outcome))
      ensures session == old(session).(unsettled := None) && done == old(done)
    {
      ghost var was := Now();
      if key !in executions {
        executions := executions[key := outcome];
      }
      session := session.(unsettled := None);
      Record(was, WriteExecution(key, outcome));
    }

    method RecordQuizAnswer(message: MessageKey, answer: Answer)
      requires Settled()
      modifies this
      ensures Settled() && trace == old(trace) + [AnswerQuiz(message, answer)]
      ensures Contents() == old(Contents()).(answers := InsertOrIgnore(old(answers), message, answer))
      ensures session == old(session) && done == old(done)
    {
      ghost var was := Now();
      if message !in answers {
        answers := answers[message := answer];
      }
      Record(was, AnswerQuiz(message, answer));
    }

    // record_restored_event_for_message_id; true when the event is new
    method RecordRestoredEvent(message: MessageKey) returns (recorded: bool)
      requires Settled()
      modifies this
      ensures Settled() && trace == old(trace) + [RestoreById(message)]
      ensures Contents() == RestoreMessage(old(Contents()), message)
      ensures session == old(session) && done == old(done)
      ensures recorded <==>
        message in registered && Moved(Contents(), message) && (message, Restored) !in old(events)
    {
      ghost var was := Now();
      recorded := WriteRestored(message);
      Record(was, RestoreById(message));
    }

    method WriteRestored(message: MessageKey) returns (recorded: bool)
      modifies `events
      ensures Contents() == RestoreMessage(old(Contents()), message)
      ensures recorded <==>
        message in registered && Moved(Contents(), message) && (message, Restored) !in old(events)
    {
      var moved :=
        || (exists k :: k in executions && k.message == message
                     && executions[k] in {Applied, AlreadyApplied, MovedToTrash})
        || (exists k :: k in finalizations && k.message == message && finalizations[k] in {FinalTrash, FinalSpam});
      recorded := message in registered && moved && (message, Restored) !in events;
      if recorded {
        events := events + {(message, Restored)};
      }
      assert message in registered && moved ==> events == old(events) + {(message, Restored)};
    }

    // ---- what the runs read back ----

    method ThreatProtects(key: RowKey) returns (protects: bool)
      ensures protects <==> key in threats && threats[key].protective
    {
      protects := key in threats && threats[key].protective;
    }

    method HasExecution(key: RowKey) returns (has: bool)
      ensures has <==> key in executions
    {
      has := key in executions;
    }

    method UserKeeps(message: MessageKey) returns (keeps: bool)
      ensures keeps <==> message in answers && answers[message] in {AnswerKeep, AnswerUnsure}
    {
      keeps := message in answers && answers[message] in {AnswerKeep, AnswerUnsure};
    }

    method MembershipChecker(account: string, profile: string, fingerprint: string) returns (skipped: set<MessageKey>)
      ensures skipped == Skipped(Contents(), account, profile, fingerprint)
    {
      skipped := set k | k in shadow && InScope(k, account, profile) && shadow[k].complete
                         && shadow[k].fingerprint == fingerprint :: k.message;
    }
  }

  // ---- the provider ----

  function CleanupOutcomes(direct: bool): set<Outcome> {
    if direct then {MovedToTrash, SkippedNotInbox, SkippedProtected}
    else {Applied, AlreadyApplied, SkippedNotInbox, SkippedProtected}
  }

  // The cleanup executor of the provider: it may return any outcome of its vocabulary.
  method ApplyCleanup(store: PreferenceStore, key: RowKey, direct: bool) returns (outcome: Outcome)
    requires store.Settled() && store.session.mutating && Cleanable(store.Contents(), key, store.session.protecting)
    modifies store`session, store`done, store`trace
    ensures outcome in CleanupOutcomes(direct)
    ensures store.Valid() && store.trace == old(store.trace) + [CallCleanup(key, outcome)]
    ensures store.Contents() == old(store.Contents())
    ensures store.session == old(store.session).(unsettled := Some((key, outcome)))
    ensures store.done == old(store.done).Plus(Effects(1, if Succeeded(outcome) then 1 else 0, 0))
  {
    outcome :| outcome in CleanupOutcomes(direct);
    ghost var was := store.Now();
    store.session := store.session.(unsettled := Some((key, outcome)));
    store.done := store.done.Plus(Effects(1, if Succeeded(outcome) then 1 else 0, 0));
    store.Record(was, CallCleanup(key, outcome));
  }

  // The marker executor; an exception is caught by the caller and counts as a failure.  Whether the marker fails
  // is up to the provider.
  method ApplyMarker(store: PreferenceStore, key: RowKey, fails: bool) returns (outcome: MarkerOutcome)
    requires store.Settled() && store.session.mutating
    modifies store`done, store`trace
    ensures outcome == MarkerFailed <==> fails
    ensures store.Settled() && store.trace == old(store.trace) + [CallMarker(key, outcome)]
    ensures store.Contents() == old(store.Contents()) && store.session == old(store.session)
    ensures store.done == old(store.done).Plus(Effects(0, 0, if outcome == MarkerApplied then 1 else 0))
  {
    outcome := MarkerFailed;
    if !fails {
      outcome :| outcome in {MarkerApplied, MarkerAlreadyApplied, MarkerNotInbox};
    }
    ghost var was := store.Now();
    store.done := store.done.Plus(Effects(0, 0, if outcome == MarkerApplied then 1 else 0));
    store.Record(was, CallMarker(key, outcome));
  }
}
