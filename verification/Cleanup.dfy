/** cli.py: the loops that call the provider - cleanup of the batch, of recovered proposals, and markers. */
module Cleanup {
  import opened Mail
  import opened Ledger
  import opened PreferenceStore
  import opened Stages

  // ---- one cleanup call and its record ----

  // Only execution rows were added.
  ghost predicate OnlyExecuted(before: Machine, after: Machine, keys: set<RowKey>) {
    && after.tables == before.tables.(executions := after.tables.executions) && after.session == before.session
    && after.tables.executions.Keys == before.tables.executions.Keys + keys
  }

  method CleanOne(store: PreferenceStore, key: RowKey, direct: bool) returns (success: bool)
    requires store.Settled() && store.session.mutating && Cleanable(store.Contents(), key, store.session.protecting)
    modifies store
    ensures old(store.trace) <= store.trace
    ensures store.Settled() && OnlyExecuted(old(store.Now()), store.Now(), {key})
    ensures store.done == old(store.done).Plus(Effects(1, if success then 1 else 0, 0))
  {
    var outcome := ApplyCleanup(store, key, direct);
    store.RecordQuarantinePilotExecution(key, outcome);
    success := Succeeded(outcome);
  }

  // The keys that may be acted on, judged by the store before a loop.
  ghost function CleanableAmong(m: Machine, keys: seq<RowKey>): (r: set<RowKey>) {
    set k | k in keys && Cleanable(m.tables, k, m.session.protecting)
  }

  // How many they are.
  ghost function CallCount(m: Machine, keys: seq<RowKey>): (n: nat)
    ensures n <= |keys|
  {
    if keys == [] then 0
    else
      var before, last := keys[..|keys| - 1], keys[|keys| - 1];
      CallCount(m, before) + if Cleanable(m.tables, last, m.session.protecting) && last !in before then 1 else 0
  }

  lemma {:induction false} CallCountIsSize(m: Machine, keys: seq<RowKey>)
    ensures CallCount(m, keys) == |CleanableAmong(m, keys)|
  {
    if keys == [] {
      assert CleanableAmong(m, keys) == {};
    } else {
      var before, last := keys[..|keys| - 1], keys[|keys| - 1];
      CallCountIsSize(m, before);
      assert forall k :: k in keys <==> k in before || k == last;
      if Cleanable(m.tables, last, m.session.protecting) && last !in before {
        assert CleanableAmong(m, keys) == CleanableAmong(m, before) + {last};
      } else {
        assert CleanableAmong(m, keys) == CleanableAmong(m, before);
      }
    }
  }

  // Assessed by something the session accepts.
  ghost predicate Assessed(m: Machine, key: RowKey) {
    key in m.tables.threats && (m.session.protecting ==> m.tables.threats[key].analyzer != DisabledByUser)
  }

  ghost predicate AllAssessed(m: Machine, keys: seq<RowKey>) {
    forall k :: k in keys ==> Assessed(m, k)
  }

  // One more key adds itself to those that could be acted on exactly when it is acted on now.
  lemma CleanableMore(m0: Machine, m1: Machine, done: seq<RowKey>, key: RowKey)
    requires OnlyExecuted(m0, m1, CleanableAmong(m0, done))
    ensures var called := Cleanable(m1.tables, key, m1.session.protecting);
      && CleanableAmong(m0, done + [key]) == CleanableAmong(m0, done) + (if called then {key} else {})
      && CallCount(m0, done + [key]) == CallCount(m0, done) + if called then 1 else 0
  {
    assert forall k :: k in done + [key] <==> k in done || k == key;
    assert (done + [key])[..|done|] == done;
    if Cleanable(m0.tables, key, m0.session.protecting) && key in done {
      assert key in CleanableAmong(m0, done);
    }
  }

  lemma ExecutedMore(m0: Machine, m1: Machine, m2: Machine, done: seq<RowKey>, key: RowKey, called: bool)
    requires OnlyExecuted(m0, m1, CleanableAmong(m0, done)) && OnlyExecuted(m1, m2, if called then {key} else {})
    requires called <==> Cleanable(m1.tables, key, m1.session.protecting)
    ensures OnlyExecuted(m0, m2, CleanableAmong(m0, done + [key]))
  {
    CleanableMore(m0, m1, done, key);
  }

  // What a cleanup loop has done after some keys: one call and one row for each that could be acted on.
  ghost predicate Cleaned(m0: Machine, m: Machine, done: seq<RowKey>, selected: nat, applied: nat) {
    && OnlyExecuted(m0, m, CleanableAmong(m0, done)) && m.done == m0.done.Plus(Effects(selected, applied, 0))
    && applied <= selected == CallCount(m0, done)
  }

  lemma CleanedMore(
    m0: Machine, m1: Machine, m2: Machine, done: seq<RowKey>, key: RowKey, called: bool, success: bool,
    selected: nat, applied: nat)
    requires Cleaned(m0, m1, done, selected, applied) && OnlyExecuted(m1, m2, if called then {key} else {})
    requires called <==> Cleanable(m1.tables, key, m1.session.protecting)
    requires success ==> called
    requires m2.done == m1.done.Plus(Effects(if called then 1 else 0, if success then 1 else 0, 0))
    ensures Cleaned(m0, m2, done + [key], selected + (if called then 1 else 0), applied + if success then 1 else 0)
  {
    ExecutedMore(m0, m1, m2, done, key, called);
    CleanableMore(m0, m1, done, key);
  }

  // One round of a cleanup loop, after the keys in done: a call if the store still allows it now.
  method CleanRound(
    store: PreferenceStore, key: RowKey, direct: bool, selected: nat, applied: nat, ghost m0: Machine,
    ghost done: seq<RowKey>)
    returns (selected': nat, applied': nat)
    requires store.Settled() && store.session.mutating && Assessed(store.Now(), key)
    requires Cleaned(m0, store.Now(), done, selected, applied)
    modifies store
    ensures store.Settled() && old(store.trace) <= store.trace
    ensures Cleaned(m0, store.Now(), done + [key], selected', applied')
  {
    var called := ReadyForCleanup(store, key);
    var success := false;
    if called {
      success := CleanOne(store, key, direct);
    }
    selected', applied' := selected + (if called then 1 else 0), applied + if success then 1 else 0;
    CleanedMore(m0, old(store.Now()), store.Now(), done, key, called, success, selected, applied);
  }

  // ---- the batch itself ----

  predicate Permits(allowed: Option<set<Category>>, category: Category) {
    allowed.None? || category in allowed.value
  }

  predicate Proposed(r: ScanResult, allowed: Option<set<Category>>) {
    r.decision.action == Quarantine && Permits(allowed, r.category)
  }

  function ProposedKeys(results: seq<ScanResult>, profile: string,
                        allowed: Option<set<Category>>): (keys: seq<RowKey>) {
    if results == [] then []
    else
      var n := |results| - 1;
      ProposedKeys(results[..n], profile, allowed)
        + if Proposed(results[n], allowed) then [Key(results[n], profile)] else []
  }

  ghost predicate BatchReady(m: Machine, results: seq<ScanResult>, profile: string) {
    forall i :: 0 <= i < |results| ==> Assessed(m, Key(results[i], profile))
  }

  // _apply_shadow_quarantine_results: exactly the proposed messages the store allows are acted on, each once.
  method ApplyShadowQuarantineResults(
    store: PreferenceStore, results: seq<ScanResult>, profile: string, direct: bool, allowed: Option<set<Category>>)
    returns (selected: nat, applied: nat)
    requires store.Settled() && store.session.mutating && BatchReady(store.Now(), results, profile)
    modifies store
    ensures store.Settled() && old(store.trace) <= store.trace
    ensures Cleaned(old(store.Now()), store.Now(), ProposedKeys(results, profile, allowed), selected, applied)
    ensures selected <= |results|
  {
    selected, applied := 0, 0;
    CleanedNothing(store.Now());
    var i := 0;
    while i < |results|
      invariant 0 <= i <= |results| && store.Settled() && old(store.trace) <= store.trace
      invariant Cleaned(old(store.Now()), store.Now(), ProposedKeys(results[..i], profile, allowed), selected, applied)
    {
      selected, applied :=
        ApplyShadowQuarantine(store, results, i, profile, direct, allowed, selected, applied, old(store.Now()));
      i := i + 1;
    }
    assert results[..|results|] == results;
    FewProposed(results, profile, allowed);
  }

  lemma CleanedNothing(m: Machine)
    ensures Cleaned(m, m, [], 0, 0)
  {
    assert CleanableAmong(m, []) == {};
  }

  // One round of the loop.
  method ApplyShadowQuarantine(
    store: PreferenceStore, results: seq<ScanResult>, i: nat, profile: string, direct: bool,
    allowed: Option<set<Category>>, selected: nat, applied: nat, ghost m0: Machine)
    returns (selected': nat, applied': nat)
    requires store.Settled() && store.session.mutating && BatchReady(m0, results, profile) && i < |results|
    requires Cleaned(m0, store.Now(), ProposedKeys(results[..i], profile, allowed), selected, applied)
    modifies store
    ensures store.Settled() && old(store.trace) <= store.trace
    ensures Cleaned(m0, store.Now(), ProposedKeys(results[..i + 1], profile, allowed), selected', applied')
  {
    ProposedLast(results, i, profile, allowed);
    selected', applied' := selected, applied;
    if Proposed(results[i], allowed) {
      assert Assessed(m0, Key(results[i], profile));
      selected', applied' := CleanRound(store, Key(results[i], profile), direct, selected, applied, m0,
                                        ProposedKeys(results[..i], profile, allowed));
    }
  }

  lemma ProposedLast(results: seq<ScanResult>, i: nat, profile: string, allowed: Option<set<Category>>)
    requires i < |results|
    ensures ProposedKeys(results[..i + 1], profile, allowed)
      == if Proposed(results[i], allowed) then ProposedKeys(results[..i], profile, allowed) + [Key(results[i], profile)]
         else ProposedKeys(results[..i], profile, allowed)
  {
    assert results[..i + 1][..i] == results[..i];
  }

  lemma {:induction false} FewProposed(results: seq<ScanResult>, profile: string, allowed: Option<set<Category>>)
    ensures |ProposedKeys(results, profile, allowed)| <= |results|
  {
    if results != [] {
      FewProposed(results[..|results| - 1], profile, allowed);
    }
  }

  // The three store checks before a call: threat verdict, execution row, the user's answer.
  method ReadyForCleanup(store: PreferenceStore, key: RowKey) returns (ready: bool)
    ensures key in store.threats && (store.session.protecting ==> store.threats[key].analyzer != DisabledByUser) ==>
      (ready <==> Cleanable(store.Contents(), key, store.session.protecting))
  {
    var protects := store.ThreatProtects(key);
    var executed := store.HasExecution(key);
    var keeps := store.UserKeeps(key.message);
    ready := !protects && !executed && !keeps;
  }

  // ---- recovered proposals ----

  datatype Candidate = Candidate(message: MessageKey, unread: bool)

  ghost predicate AllCleanable(m: Machine, keys: seq<RowKey>) {
    forall i :: 0 <= i < |keys| ==> Cleanable(m.tables, keys[i], m.session.protecting)
  }

  // Whether a loop that checks executions up front, and not again, is authorised for every call it makes.
  ghost predicate EachCallAuthorised(m: Machine, keys: seq<RowKey>, outcome: Outcome)
    decreases |keys|
  {
    keys == []
    || (&& Cleanable(m.tables, keys[0], m.session.protecting)
        && EachCallAuthorised(Apply(m, WriteExecution(keys[0], outcome)), keys[1..], outcome))
  }

  // The Gmail recovery loop filters executions before its first call.  Given that filter, all its calls are
  // authorised exactly when the recovered ids are distinct.
  lemma {:induction false} UpFrontFilterNeedsDistinctIds(m: Machine, keys: seq<RowKey>, outcome: Outcome)
    requires AllCleanable(m, keys)
    ensures EachCallAuthorised(m, keys, outcome) <==> NoDuplicates(keys)
    decreases |keys|
  {
    if keys != [] {
      var m', rest := Apply(m, WriteExecution(keys[0], outcome)), keys[1..];
      if keys[0] in rest {
        var i :| 0 <= i < |rest| && rest[i] == keys[0];
        assert keys[i + 1] == keys[0];
        RepeatedCallIsNotAuthorised(m', rest, i, outcome);
      } else {
        assert AllCleanable(m', rest) by {
          forall i | 0 <= i < |rest| ensures Cleanable(m'.tables, rest[i], m'.session.protecting) {
            assert rest[i] == keys[i + 1];
          }
        }
        UpFrontFilterNeedsDistinctIds(m', rest, outcome);
        assert NoDuplicates(keys) <==> NoDuplicates(rest) by {
          if NoDuplicates(rest) {
            forall i, j | 0 <= i < j < |keys| ensures keys[i] != keys[j] {
              assert keys[j] == rest[j - 1];
              if i > 0 {
                assert keys[i] == rest[i - 1];
              }
            }
          }
        }
      }
    }
  }

  lemma {:induction false} RepeatedCallIsNotAuthorised(m: Machine, keys: seq<RowKey>, i: nat, outcome: Outcome)
    requires i < |keys| && keys[i] in m.tables.executions
    ensures !EachCallAuthorised(m, keys, outcome)
    decreases |keys|
  {
    if i > 0 {
      RepeatedCallIsNotAuthorised(Apply(m, WriteExecution(keys[0], outcome)), keys[1..], i - 1, outcome);
    }
  }

  function KeysOf(candidates: seq<Candidate>, profile: string): (keys: seq<RowKey>)
    ensures |keys| == |candidates|
    ensures forall i :: 0 <= i < |keys| ==> keys[i] == RowKey(candidates[i].message, profile)
  {
    seq(|candidates|, i requires 0 <= i < |candidates| => RowKey(candidates[i].message, profile))
  }

  // _apply_shadow_quarantine_candidates: the filter first, then a loop that re-reads only the user's answer.
  method ApplyShadowQuarantineCandidates(
    store: PreferenceStore, candidates: seq<Candidate>, profile: string, direct: bool)
    returns (selected: nat, applied: nat)
    requires store.Settled() && store.session.mutating && AllAssessed(store.Now(), KeysOf(candidates, profile))
    requires NoDuplicates(KeysOf(candidates, profile))
    modifies store
    ensures old(store.trace) <= store.trace
    ensures store.Settled()
    ensures OnlyExecuted(old(store.Now()), store.Now(), CleanableAmong(old(store.Now()), KeysOf(candidates, profile)))
    ensures store.done == old(store.done).Plus(Effects(selected, applied, 0))
    ensures applied <= selected == CallCount(old(store.Now()), KeysOf(candidates, profile)) <= |candidates|
  {
    var safe := SafeCandidates(store, candidates, profile);
    selected, applied := 0, 0;
    var i := 0;
    while i < |safe|
      invariant 0 <= i <= |safe| && store.Settled() && old(store.trace) <= store.trace
      invariant OnlyExecuted(old(store.Now()), store.Now(), Elements(safe[..i]))
      invariant store.done == old(store.done).Plus(Effects(selected, applied, 0))
      invariant applied <= selected == i
    {
      assert safe[i] !in safe[..i] && safe[i] in safe;
      assert forall k :: k in safe[..i + 1] <==> k in safe[..i] || k == safe[i];
      var keeps := store.UserKeeps(safe[i].message);
      if !keeps {
        var success := CleanOne(store, safe[i], direct);
        selected := selected + 1;
        applied := applied + if success then 1 else 0;
      }
      i := i + 1;
    }
    assert safe[..|safe|] == safe;
    ElementsSize(safe);
    CallCountIsSize(old(store.Now()), KeysOf(candidates, profile));
  }

  // The list comprehension over the recovered candidates.
  method SafeCandidates(store: PreferenceStore, candidates: seq<Candidate>, profile: string) returns (safe: seq<RowKey>)
    requires AllAssessed(store.Now(), KeysOf(candidates, profile)) && NoDuplicates(KeysOf(candidates, profile))
    ensures Elements(safe) == CleanableAmong(store.Now(), KeysOf(candidates, profile))
    ensures |safe| <= |candidates| && NoDuplicates(safe) && AllCleanable(store.Now(), safe)
  {
    var keys := KeysOf(candidates, profile);
    safe := [];
    var i := 0;
    while i < |keys|
      invariant 0 <= i <= |keys| && |safe| <= i
      invariant Elements(safe) == CleanableAmong(store.Now(), keys[..i])
      invariant NoDuplicates(safe) && AllCleanable(store.Now(), safe)
    {
      assert keys[i] in keys && keys[i] !in keys[..i] && Assessed(store.Now(), keys[i]);
      assert forall k :: k in keys[..i + 1] <==> k in keys[..i] || k == keys[i];
      var ready := ReadyForCleanup(store, keys[i]);
      if ready {
        assert keys[i] !in Elements(safe);
        assert forall k :: k in safe + [keys[i]] <==> k in safe || k == keys[i];
        safe := safe + [keys[i]];
      }
      i := i + 1;
    }
    assert keys[..|keys|] == keys;
  }

  // ---- markers ----

  ghost predicate IsMarkerCandidate(results: seq<ScanResult>, profile: string, key: RowKey) {
    exists i :: 0 <= i < |results| && ThreatMarkerCandidate in results[i].decision.reasons
             && Key(results[i], profile) == key
  }

  // _visible_threat_marker_ids: every flagged message of the batch, once.
  method VisibleThreatMarkerIds(results: seq<ScanResult>, profile: string) returns (ids: seq<RowKey>)
    ensures NoDuplicates(ids)
    ensures forall k :: k in ids <==> IsMarkerCandidate(results, profile, k)
  {
    ids := [];
    var i := 0;
    while i < |results|
      invariant 0 <= i <= |results| && NoDuplicates(ids)
      invariant forall k :: k in ids <==> IsMarkerCandidate(results[..i], profile, k)
    {
      var key := Key(results[i], profile);
      OneMoreResult(results, i, profile);
      if ThreatMarkerCandidate in results[i].decision.reasons && key !in ids {
        assert forall k :: k in ids + [key] <==> k in ids || k == key;
        ids := ids + [key];
      }
      i := i + 1;
    }
    assert results[..|results|] == results;
  }

  lemma OneMoreResult(results: seq<ScanResult>, i: nat, profile: string)
    requires i < |results|
    ensures forall k :: IsMarkerCandidate(results[..i + 1], profile, k) <==>
      IsMarkerCandidate(results[..i], profile, k)
      || (ThreatMarkerCandidate in results[i].decision.reasons && Key(results[i], profile) == k)
  {
    var more, fewer := results[..i + 1], results[..i];
    assert forall j :: 0 <= j < i ==> more[j] == fewer[j];
    forall k | IsMarkerCandidate(fewer, profile, k) ensures IsMarkerCandidate(more, profile, k) {
      var j :| 0 <= j < |fewer| && ThreatMarkerCandidate in fewer[j].decision.reasons && Key(fewer[j], profile) == k;
      assert more[j] == fewer[j];
    }
    assert more[i] == results[i];
  }

  // Markers touch their own table and reopen the rows of those that failed; nothing a cleanup check reads.
  ghost predicate OnlyMarked(before: Machine, after: Machine, failed: set<RowKey>) {
    && after.tables
       == before.tables.(markers := after.tables.markers, shadow := Reopen(before.tables.shadow, failed))
    && after.session == before.session
  }

  lemma ReopenTwice(shadow: map<RowKey, ShadowRow>, a: set<RowKey>, b: set<RowKey>)
    ensures Reopen(Reopen(shadow, a), b) == Reopen(shadow, a + b)
    ensures Reopen(shadow, {}) == shadow
  {
  }

  function FailedAmong(ids: seq<RowKey>, failing: set<MessageKey>): set<RowKey> {
    set k | k in ids && k.message in failing
  }

  // A failed marker leaves its row to be scanned again.
  ghost predicate Marked(t: Tables, key: RowKey, fails: bool) {
    && key in t.markers && (t.markers[key] == MarkerFailed <==> fails)
    && (fails && key in t.shadow ==> !t.shadow[key].complete)
  }

  method MarkOne(store: PreferenceStore, key: RowKey, fails: bool) returns (success: bool)
    requires store.Settled() && store.session.mutating
    modifies store
    ensures old(store.trace) <= store.trace
    ensures store.Settled() && OnlyMarked(old(store.Now()), store.Now(), if fails then {key} else {})
    ensures Marked(store.Contents(), key, fails)
    ensures forall k, f :: k != key && Marked(old(store.Contents()), k, f) ==> Marked(store.Contents(), k, f)
    ensures store.done == old(store.done).Plus(Effects(0, 0, if success then 1 else 0))
  {
    ReopenTwice(store.shadow, {}, {});
    var outcome := ApplyMarker(store, key, fails);
    store.RecordThreatMarkerExecution(key, outcome);
    success := outcome == MarkerApplied;
  }

  lemma MarkedMore(m0: Machine, m1: Machine, m2: Machine, ids: seq<RowKey>, key: RowKey, failing: set<MessageKey>)
    requires OnlyMarked(m0, m1, FailedAmong(ids, failing))
    requires OnlyMarked(m1, m2, if key.message in failing then {key} else {})
    ensures OnlyMarked(m0, m2, FailedAmong(ids + [key], failing))
  {
    var more := if key.message in failing then {key} else {};
    ReopenTwice(m0.tables.shadow, FailedAmong(ids, failing), more);
    assert FailedAmong(ids + [key], failing) == FailedAmong(ids, failing) + more;
  }

  // _apply_visible_threat_markers: a failure never ends the loop, and reopens the row it concerns.
  method ApplyVisibleThreatMarkers(store: PreferenceStore, ids: seq<RowKey>, failing: set<MessageKey>)
    returns (applied: nat)
    requires store.Settled() && store.session.mutating && NoDuplicates(ids)
    modifies store
    ensures old(store.trace) <= store.trace
    ensures store.Settled() && OnlyMarked(old(store.Now()), store.Now(), FailedAmong(ids, failing))
    ensures store.done == old(store.done).Plus(Effects(0, 0, applied))
    ensures forall k :: k in ids ==> Marked(store.Contents(), k, k.message in failing)
  {
    ReopenTwice(store.shadow, {}, {});
    applied := 0;
    var i := 0;
    assert FailedAmong(ids[..0], failing) == {};
    while i < |ids|
      invariant 0 <= i <= |ids| && store.Settled() && old(store.trace) <= store.trace
      invariant OnlyMarked(old(store.Now()), store.Now(), FailedAmong(ids[..i], failing))
      invariant store.done == old(store.done).Plus(Effects(0, 0, applied))
      invariant forall k :: k in ids[..i] ==> Marked(store.Contents(), k, k.message in failing)
    {
      assert ids[i] !in ids[..i] && ids[..i + 1] == ids[..i] + [ids[i]];
      ghost var before := store.Now();
      var success := MarkOne(store, ids[i], ids[i].message in failing);
      MarkedMore(old(store.Now()), before, store.Now(), ids[..i], ids[i], failing);
      applied := applied + if success then 1 else 0;
      i := i + 1;
    }
    assert ids[..|ids|] == ids;
  }
}
