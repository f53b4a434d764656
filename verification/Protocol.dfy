/** What holds over every sequence of scan sessions, wherever each of them stops. */
module Protocol {
  import opened Mail
  import opened Ledger

  // A trace is any sequence of enabled actions.  Stop is enabled everywhere, so runs that crash between
  // two transactions, and the runs that follow them, are traces like any other.
  ghost predicate Permitted(start: Machine, actions: seq<Action>)
    decreases |actions|, 0
  {
    actions == [] || Continues(start, actions[..|actions| - 1], actions[|actions| - 1])
  }

  ghost predicate Continues(start: Machine, before: seq<Action>, a: Action)
    decreases |before|, 2
  {
    Permitted(start, before) && Enabled(After(start, before), a)
  }

  ghost function After(start: Machine, actions: seq<Action>): (m: Machine)
    requires Permitted(start, actions)
    decreases |actions|, 1
  {
    if actions == [] then start else Next(start, actions[..|actions| - 1], actions[|actions| - 1])
  }

  ghost function Next(start: Machine, before: seq<Action>, a: Action): (m: Machine)
    requires Continues(start, before, a)
    decreases |before|, 3
  {
    Apply(After(start, before), a)
  }

  lemma LastAction(start: Machine, actions: seq<Action>)
    requires actions != []
    ensures var before, a := actions[..|actions| - 1], actions[|actions| - 1];
      Permitted(start, actions) <==> Permitted(start, before) && Enabled(After(start, before), a)
    ensures var before, a := actions[..|actions| - 1], actions[|actions| - 1];
      Permitted(start, actions) ==> After(start, actions) == Apply(After(start, before), a)
  {
    var before, a := actions[..|actions| - 1], actions[|actions| - 1];
    assert Continues(start, before, a) <==> Permitted(start, before) && Enabled(After(start, before), a);
    if Permitted(start, actions) {
      assert After(start, actions) == Next(start, before, a);
    }
  }

  lemma OneMore(start: Machine, actions: seq<Action>, a: Action)
    requires Permitted(start, actions) && Enabled(After(start, actions), a)
    ensures Permitted(start, actions + [a]) && After(start, actions + [a]) == Apply(After(start, actions), a)
  {
    assert (actions + [a])[..|actions + [a]| - 1] == actions;
    LastAction(start, actions + [a]);
  }

  // Crash safety: every prefix of a trace, with the process stopped there, is a trace again.
  lemma {:induction false} StoppingAnywhereIsPermitted(start: Machine, actions: seq<Action>, n: nat)
    requires Permitted(start, actions) && n <= |actions|
    ensures Permitted(start, actions[..n]) && Permitted(start, actions[..n] + [Stop])
    ensures After(start, actions[..n] + [Stop]).tables == After(start, actions[..n]).tables
    ensures After(start, actions[..n] + [Stop]).session.unsettled == None
    decreases |actions| - n
  {
    if n == |actions| {
      assert actions[..n] == actions;
    } else {
      StoppingAnywhereIsPermitted(start, actions, n + 1);
      assert actions[..n + 1][..n] == actions[..n];
      LastAction(start, actions[..n + 1]);
    }
    OneMore(start, actions[..n], Stop);
  }

  lemma {:induction false} EveryStateIsSound(start: Machine, actions: seq<Action>)
    requires Permitted(start, actions) && Sound(start.tables)
    ensures Sound(After(start, actions).tables)
    decreases |actions|
  {
    if actions != [] {
      var before, a := actions[..|actions| - 1], actions[|actions| - 1];
      LastAction(start, actions);
      EveryStateIsSound(start, before);
      EachActionKeepsSound(After(start, before), a);
    }
  }

  // ---- the membership checker ----

  // shadow_scan_membership_checker: the messages a scan does not look at again.
  function Skipped(t: Tables, account: string, profile: string, fingerprint: string): (messages: set<MessageKey>) {
    set k | k in t.shadow && InScope(k, account, profile) && t.shadow[k].complete
      && t.shadow[k].fingerprint == fingerprint
      :: k.message
  }

  // In every reachable state a skipped message was assessed; once the stale assessments are reset, its
  // assessment is current, comes from an enabled engine and includes the pass the mode demands.
  lemma SkippedMessagesAreAssessed(
    start: Machine, actions: seq<Action>, account: string, profile: string, fingerprint: string, mode: SemanticMode,
    m: MessageKey)
    requires Permitted(start, actions) && Sound(start.tables)
      && Enabled(After(start, actions), ResetStale(account, profile, mode))
    requires m in Skipped(Apply(After(start, actions), ResetStale(account, profile, mode)).tables,
                          account, profile, fingerprint)
    ensures var t := Apply(After(start, actions), ResetStale(account, profile, mode)).tables;
      var key := RowKey(m, profile);
      && key in t.threats && t.threats[key].engine == THREAT_ENGINE && t.threats[key].analyzer != DisabledByUser
      && (Demands(mode, t.threats[key].signals, t.threats[key].alert) ==> Attempted(t.threats[key].analyzer))
  {
    var reset := ResetStale(account, profile, mode);
    EveryStateIsSound(start, actions);
    EachActionKeepsSound(After(start, actions), reset);
    var before, t := After(start, actions).tables, Apply(After(start, actions), reset).tables;
    var k :| k in t.shadow && InScope(k, account, profile) && t.shadow[k].complete
             && t.shadow[k].fingerprint == fingerprint && k.message == m;
    assert k in t.threats && t.threats[k] == before.threats[k];
    assert !Stale(t.threats[k], mode);
    assert k == RowKey(m, profile);
  }

  // ---- at most one cleanup call per message and profile ----

  lemma {:induction false} PrefixIsPermitted(start: Machine, actions: seq<Action>, n: nat)
    requires Permitted(start, actions) && n <= |actions|
    ensures Permitted(start, actions[..n])
    ensures n < |actions| ==> Enabled(After(start, actions[..n]), actions[n]) && Permitted(start, actions[..n + 1])
    ensures n < |actions| ==> After(start, actions[..n + 1]) == Apply(After(start, actions[..n]), actions[n])
  {
    StoppingAnywhereIsPermitted(start, actions, n);
    if n < |actions| {
      StoppingAnywhereIsPermitted(start, actions, n + 1);
      assert actions[..n + 1][..n] == actions[..n];
      LastAction(start, actions[..n + 1]);
    }
  }

  lemma {:induction false} ExecutionsPersist(start: Machine, actions: seq<Action>, i: nat, j: nat, key: RowKey)
    requires Permitted(start, actions) && i <= j <= |actions|
    ensures Permitted(start, actions[..i]) && Permitted(start, actions[..j])
    ensures key in After(start, actions[..i]).tables.executions ==> key in After(start, actions[..j]).tables.executions
    decreases j - i
  {
    PrefixIsPermitted(start, actions, i);
    PrefixIsPermitted(start, actions, j);
    if i < j {
      PrefixIsPermitted(start, actions, j - 1);
      ExecutionsPersist(start, actions, i, j - 1, key);
      OutcomesAreForever(After(start, actions[..j - 1]).tables, actions[j - 1]);
    }
  }

  // Over any sequence of sessions, a second cleanup call on the same message and profile is possible only
  // when the process stopped right after the first one, before its execution row was written.
  lemma AtMostOneCleanupCall(start: Machine, actions: seq<Action>, i: nat, j: nat)
    requires Permitted(start, actions) && i < j < |actions|
    requires actions[i].CallCleanup? && actions[j].CallCleanup? && actions[i].key == actions[j].key
    ensures actions[i + 1] == Stop
  {
    var key := actions[i].key;
    PrefixIsPermitted(start, actions, i);
    PrefixIsPermitted(start, actions, i + 1);
    PrefixIsPermitted(start, actions, j);
    if actions[i + 1] != Stop {
      assert actions[i + 1] == WriteExecution(key, actions[i].outcome);
      assert i + 1 != j;
      assert key in After(start, actions[..i + 2]).tables.executions;
      ExecutionsPersist(start, actions, i + 2, j, key);
    }
  }

  // Each call is on a message that was assessed without a protective verdict, that the user did not ask to
  // keep, and that has no execution row; with protection on, not on the strength of a disabled module.
  ghost predicate Authorised(start: Machine, actions: seq<Action>, i: nat)
    requires i < |actions| && actions[i].CallCleanup?
  {
    && Permitted(start, actions[..i])
    && var m, key := After(start, actions[..i]), actions[i].key;
       && m.session.mutating && key !in m.tables.executions
       && key in m.tables.threats && !m.tables.threats[key].protective
       && (m.session.protecting ==> m.tables.threats[key].analyzer != DisabledByUser)
       && (key.message in m.tables.answers ==> m.tables.answers[key.message] == AnswerDontKeep)
  }

  lemma EveryCleanupCallIsAuthorised(start: Machine, actions: seq<Action>, i: nat)
    requires Permitted(start, actions) && i < |actions| && actions[i].CallCleanup?
    ensures Authorised(start, actions, i)
  {
    PrefixIsPermitted(start, actions, i);
  }

  // Every cleanup call was authorised by the tables as they were at that moment, and a message that was called
  // twice under one profile was so because the process stopped right after the first call.
  ghost predicate Safe(start: Machine, actions: seq<Action>) {
    && (forall i :: 0 <= i < |actions| && actions[i].CallCleanup? ==> Authorised(start, actions, i))
    && (forall i, j :: 0 <= i < j < |actions| && SameCall(actions[i], actions[j]) ==> actions[i + 1] == Stop)
  }

  predicate SameCall(a: Action, b: Action) { a.CallCleanup? && b.CallCleanup? && a.key == b.key }

  lemma EveryTraceIsSafe(start: Machine, actions: seq<Action>)
    requires Permitted(start, actions)
    ensures Safe(start, actions)
  {
    forall i | 0 <= i < |actions| && actions[i].CallCleanup? ensures Authorised(start, actions, i) {
      EveryCleanupCallIsAuthorised(start, actions, i);
    }
    forall i, j | 0 <= i < j < |actions| && SameCall(actions[i], actions[j]) ensures actions[i + 1] == Stop {
      AtMostOneCleanupCall(start, actions, i, j);
    }
  }

  // No session began or ended between two states of the same epoch.
  lemma {:induction false} SameEpoch(start: Machine, actions: seq<Action>, n: nat)
    requires Permitted(start, actions) && n <= |actions|
    ensures Permitted(start, actions[..n])
    ensures After(start, actions[..n]).session.epoch <= After(start, actions).session.epoch
    ensures After(start, actions[..n]).session.epoch == After(start, actions).session.epoch ==>
      forall i :: n <= i < |actions| ==> !actions[i].Begin? && actions[i] != Stop
    decreases |actions|
  {
    if n < |actions| {
      var before := actions[..|actions| - 1];
      LastAction(start, actions);
      SameEpoch(start, before, n);
      assert before[..n] == actions[..n];
      assert forall i :: n <= i < |before| ==> before[i] == actions[i];
    } else {
      assert actions[..n] == actions;
    }
  }

  // ---- the terminal receipt ----

  predicate IsProviderMutation(a: Action) { a.CallCleanup? || a.CallMarker? }

  datatype MailboxOutcome = Unchanged | Changed | Unknown

  // terminal_scan_receipt
  function Receipt(m: Machine): MailboxOutcome { if m.session.mutating then Unknown else Unchanged }

  // Wherever a session stops: if its receipt says "unchanged", no provider mutation happened since it began.
  lemma {:induction false} UnchangedMeansNoMutation(start: Machine, actions: seq<Action>, i: nat)
    requires Permitted(start, actions) && i < |actions| && IsProviderMutation(actions[i])
    requires Receipt(After(start, actions)) == Unchanged
    ensures exists b :: i < b < |actions| && actions[b].Begin?
    decreases |actions|
  {
    var n := |actions| - 1;
    LastAction(start, actions);
    if actions[n].Begin? {
      assert i != n;
    } else if i < n {
      assert actions[..n][i] == actions[i];
      UnchangedMeansNoMutation(start, actions[..n], i);
      var b :| i < b < n && actions[..n][b].Begin?;
      assert actions[b].Begin?;
    }
  }

  predicate IsSuccess(a: Action) {
    || (a.CallCleanup? && (a.outcome == Applied || a.outcome == MovedToTrash))
    || (a.CallMarker? && a.markerOutcome == MarkerApplied)
  }

  // The provider calls since action b: all cleanup calls, those that moved a message, and the applied markers.
  function CallsSince(actions: seq<Action>, b: nat): (e: Effects) {
    if |actions| <= b + 1 then Effects(0, 0, 0)
    else
      var e, a := CallsSince(actions[..|actions| - 1], b), actions[|actions| - 1];
      Effects(e.calls + (if a.CallCleanup? then 1 else 0),
              e.moved + (if a.CallCleanup? && IsSuccess(a) then 1 else 0),
              e.marked + (if a.CallMarker? && IsSuccess(a) then 1 else 0))
  }

  // The running totals of a session count the provider calls since it began, and nothing else.
  lemma {:induction false} TotalsCountTheSession(start: Machine, actions: seq<Action>, b: nat)
    requires Permitted(start, actions) && b < |actions| && actions[b].Begin?
    requires forall i :: b < i < |actions| ==> !actions[i].Begin?
    ensures After(start, actions).done == CallsSince(actions, b)
    decreases |actions|
  {
    var n := |actions| - 1;
    LastAction(start, actions);
    if b < n {
      TotalsCountTheSession(start, actions[..n], b);
    }
  }

  lemma {:induction false} SuccessesAreCounted(actions: seq<Action>, b: nat)
    ensures CallsSince(actions, b).moved + CallsSince(actions, b).marked > 0
      <==> exists i :: b < i < |actions| && IsSuccess(actions[i])
    decreases |actions|
  {
    if |actions| > b + 1 {
      var n := |actions| - 1;
      var before := actions[..n];
      SuccessesAreCounted(before, b);
      assert forall i :: b < i < n ==> before[i] == actions[i];
    }
  }

  // The part of a trace that belongs to the session begun at b.
  ghost predicate IsSession(actions: seq<Action>, b: nat) {
    b < |actions| && actions[b].Begin? && forall i :: b < i < |actions| ==> !actions[i].Begin?
  }

  predicate Succeeds(actions: seq<Action>, b: nat) { exists i :: b < i < |actions| && IsSuccess(actions[i]) }

  predicate Mutates(actions: seq<Action>, b: nat) { exists i :: b < i < |actions| && IsProviderMutation(actions[i]) }

  // What the totals and the receipt of a session say about the trace.
  lemma SessionTells(start: Machine, actions: seq<Action>, b: nat)
    requires Permitted(start, actions) && IsSession(actions, b)
    ensures After(start, actions).done.moved + After(start, actions).done.marked > 0 <==> Succeeds(actions, b)
    ensures Receipt(After(start, actions)) == Unchanged ==> !Mutates(actions, b)
  {
    TotalsCountTheSession(start, actions, b);
    SuccessesAreCounted(actions, b);
    if Receipt(After(start, actions)) == Unchanged && Mutates(actions, b) {
      var i :| b < i < |actions| && IsProviderMutation(actions[i]);
      UnchangedMeansNoMutation(start, actions, i);
    }
  }
}
