/** pipeline.py: which stored proposals a run may recover, and which of them it finds. */
module Recovery {
  import opened Mail
  import opened Obsolescence
  import opened Ledger
  import opened PreferenceStore
  import opened Scan
  import opened Cleanup
  import opened Batch

  // ---- stored proposals that stand ----

  // The mailbox phase of a run leaves the scan alone but for the rows of failed markers.
  ghost predicate OnlyReopened(t: Tables, t': Tables, failed: set<RowKey>) {
    t'.shadow == Reopen(t.shadow, failed) && t'.threats == t.threats && t'.answers == t.answers
  }

  predicate Reviewable(c: Category) { c in {Advertising, Social, Spam, OneTimeCode} }

  // The categories the governor leaves to automatic actions; it has no say in direct trash.
  function Allowed(s: Settings, supply: Supply): Option<set<Category>> { if s.direct then None else supply.allowed }

  // A stored proposal that stands: the part of is_pending that is not about an earlier action.
  predicate Stands(t: Tables, c: Candidate, s: Settings, supply: Supply) {
    var key := RowKey(c.message, s.profile);
    && key in t.shadow && t.shadow[key].fingerprint == s.fingerprint && t.shadow[key].expectsUnread == Some(c.unread)
    && key in t.threats && (s.protecting ==> t.threats[key].analyzer != DisabledByUser) && !t.threats[key].protective
    && (var row := t.shadow[key];
        var dontKeep := c.message in t.answers && t.answers[c.message] == AnswerDontKeep;
        && (|| (row.action == Quarantine && !row.hardProtected)
            || (row.action == Review && Reviewable(row.category) && !row.hardProtected && dontKeep)
            || (s.proofs && !s.direct && HoldsVerified(supply.proofs, key) && !row.hardReason))
        && Permits(Allowed(s, supply), row.category))
    && !(c.message in t.answers && t.answers[c.message] in {AnswerKeep, AnswerUnsure})
  }

  // is_pending of prepare_automatic_quarantine_candidates
  predicate Pending(t: Tables, c: Candidate, s: Settings, supply: Supply) {
    Stands(t, c, s, supply) && RowKey(c.message, s.profile) !in t.executions
  }

  // A stored proposal that may be recovered, told from the tables: its row was written under the current policy and
  // rests on the read state the message has, nothing protects the message and the user did not ask to keep it, the
  // governor leaves its category, and it was to be quarantined, or was answered DontKeep, or holds a verified proof.
  ghost predicate Recoverable(t: Tables, c: Candidate, s: Settings, supply: Supply) {
    var key := RowKey(c.message, s.profile);
    && key in t.shadow && t.shadow[key].fingerprint == s.fingerprint && t.shadow[key].expectsUnread == Some(c.unread)
    && key in t.threats && !t.threats[key].protective && (t.threats[key].analyzer == DisabledByUser ==> !s.protecting)
    && (c.message in t.answers ==> t.answers[c.message] == AnswerDontKeep)
    && (s.direct || supply.allowed.None? || t.shadow[key].category in supply.allowed.value)
    && (|| (t.shadow[key].action == Quarantine && !t.shadow[key].hardProtected)
        || (t.shadow[key].action == Review && !t.shadow[key].hardProtected && c.message in t.answers
            && t.shadow[key].category in {Advertising, Social, Spam, OneTimeCode})
        || (s.proofs && !s.direct && !t.shadow[key].hardReason
            && key in supply.proofs && supply.proofs[key].proof.status == Verified))
  }

  lemma StandsMeans(t: Tables, c: Candidate, s: Settings, supply: Supply)
    ensures Stands(t, c, s, supply) <==> Recoverable(t, c, s, supply)
  {
  }

  // Markers and cleanup do not change which stored proposals stand.
  lemma StandsStays(t: Tables, t': Tables, failed: set<RowKey>, c: Candidate, s: Settings, supply: Supply)
    requires OnlyReopened(t, t', failed)
    ensures Stands(t', c, s, supply) <==> Stands(t, c, s, supply)
  {
  }

  // ---- the searches of the inbox ----

  // Found by one of the searches of the inbox.
  predicate InInbox(supply: Supply, c: Candidate) { exists i :: 0 <= i < |supply.inbox| && c in supply.inbox[i] }

  // The search window for so many places.
  function Window(limit: nat): (window: nat)
    ensures window >= 1000 && window >= 2 * limit && (window == 1000 || window == 2 * limit)
  {
    if 2 * limit > 1000 then 2 * limit else 1000
  }

  function FirstOf(s: seq<Candidate>, n: nat): seq<Candidate> { if |s| <= n then s else s[..n] }

  // The inbox search by search, each up to the window.
  function Listing(inbox: seq<seq<Candidate>>, window: nat): (listing: seq<Candidate>) {
    if inbox == [] then []
    else Listing(inbox[..|inbox| - 1], window) + FirstOf(inbox[|inbox| - 1], window)
  }

  lemma {:induction false} ListingIsInbox(inbox: seq<seq<Candidate>>, window: nat, c: Candidate)
    requires c in Listing(inbox, window)
    ensures exists i :: 0 <= i < |inbox| && c in inbox[i]
  {
    var n := |inbox| - 1;
    if c in Listing(inbox[..n], window) {
      ListingIsInbox(inbox[..n], window, c);
      var i :| 0 <= i < n && c in inbox[..n][i];
      assert c in inbox[i];
    } else {
      assert c in inbox[n];
    }
  }

  lemma {:induction false} ListingMeans(inbox: seq<seq<Candidate>>, window: nat, c: Candidate)
    ensures c in Listing(inbox, window) <==>
      exists i, j :: 0 <= i < |inbox| && 0 <= j < |inbox[i]| && j < window && inbox[i][j] == c
  {
    if inbox != [] {
      var n := |inbox| - 1;
      ListingMeans(inbox[..n], window, c);
      if i, j :| 0 <= i < n && 0 <= j < |inbox[..n][i]| && j < window && inbox[..n][i][j] == c {
        assert inbox[i][j] == c;
      }
      if i, j :| 0 <= i < |inbox| && 0 <= j < |inbox[i]| && j < window && inbox[i][j] == c {
        if i < n {
          assert inbox[..n][i][j] == c;
        } else {
          assert FirstOf(inbox[n], window)[j] == c;
        }
      }
      if c in FirstOf(inbox[n], window) {
        var j :| 0 <= j < |FirstOf(inbox[n], window)| && FirstOf(inbox[n], window)[j] == c;
        assert inbox[n][j] == c;
      }
    }
  }

  // At the first place its message is listed.
  ghost predicate ListedFirst(listing: seq<Candidate>, i: nat)
    requires i < |listing|
  {
    forall j :: 0 <= j < i ==> listing[j].message != listing[i].message
  }

  predicate Lists(candidates: seq<Candidate>, m: MessageKey) {
    exists j :: 0 <= j < |candidates| && candidates[j].message == m
  }

  // ---- the pending candidates ----

  // The pending candidates of a listing, each where its message is first listed.
  function PendingIn(t: Tables, s: Settings, supply: Supply, listing: seq<Candidate>): (pending: seq<Candidate>) {
    if listing == [] then []
    else
      var n := |listing| - 1;
      PendingIn(t, s, supply, listing[..n])
      + if Pending(t, listing[n], s, supply) && !Lists(listing[..n], listing[n].message) then [listing[n]] else []
  }

  lemma {:induction false} PendingInMeans(t: Tables, s: Settings, supply: Supply, listing: seq<Candidate>, c: Candidate)
    ensures c in PendingIn(t, s, supply, listing) <==>
      exists i :: 0 <= i < |listing| && ListedFirst(listing, i) && listing[i] == c && Pending(t, c, s, supply)
  {
    if listing != [] {
      var n := |listing| - 1;
      var fewer := listing[..n];
      PendingInMeans(t, s, supply, fewer, c);
      forall i | 0 <= i < n ensures ListedFirst(fewer, i) <==> ListedFirst(listing, i) {
        assert forall j :: 0 <= j <= i ==> fewer[j] == listing[j];
      }
      assert Lists(fewer, listing[n].message) <==> !ListedFirst(listing, n) by {
        assert forall j :: 0 <= j < n ==> fewer[j] == listing[j];
      }
      if i :| 0 <= i < n && ListedFirst(fewer, i) && fewer[i] == c && Pending(t, c, s, supply) {
        assert ListedFirst(listing, i) && listing[i] == c;
      }
    }
  }

  lemma {:induction false} PendingInOnce(t: Tables, s: Settings, supply: Supply, listing: seq<Candidate>)
    ensures NoDuplicates(KeysOf(PendingIn(t, s, supply, listing), s.profile))
    ensures forall c :: c in PendingIn(t, s, supply, listing) ==> Lists(listing, c.message)
  {
    if listing != [] {
      var n := |listing| - 1;
      PendingInOnce(t, s, supply, listing[..n]);
      forall m | Lists(listing[..n], m) ensures Lists(listing, m) {
        var j :| 0 <= j < n && listing[..n][j].message == m;
        assert listing[j].message == m;
      }
      assert Lists(listing, listing[n].message);
      var before := PendingIn(t, s, supply, listing[..n]);
      forall i | 0 <= i < |before| ensures Lists(listing[..n], before[i].message) {
        assert before[i] in before;
      }
    }
  }

  lemma {:induction false} PendingInGrows(t: Tables, s: Settings, supply: Supply, listing: seq<Candidate>, i: nat)
    requires i <= |listing|
    ensures PendingIn(t, s, supply, listing[..i]) <= PendingIn(t, s, supply, listing)
    decreases |listing|
  {
    if i < |listing| {
      var n := |listing| - 1;
      PendingInGrows(t, s, supply, listing[..n], i);
      assert listing[..n][..i] == listing[..i];
    } else {
      assert listing[..i] == listing;
    }
  }

  // The pending candidates in the windows for so many places.
  function PendingFor(t: Tables, s: Settings, supply: Supply, places: nat): (pending: seq<Candidate>) {
    PendingIn(t, s, supply, Listing(supply.inbox, Window(places)))
  }

  ghost predicate AllPending(t: Tables, found: seq<Candidate>, s: Settings, supply: Supply) {
    forall c :: c in found ==> InInbox(supply, c) && Pending(t, c, s, supply)
  }

  lemma ListsOneMore(listing: seq<Candidate>, i: nat)
    requires i < |listing|
    ensures forall m :: Lists(listing[..i + 1], m) <==> Lists(listing[..i], m) || m == listing[i].message
  {
    var more, fewer := listing[..i + 1], listing[..i];
    forall m ensures Lists(more, m) <==> Lists(fewer, m) || m == listing[i].message {
      if Lists(fewer, m) {
        var j :| 0 <= j < i && fewer[j].message == m;
        assert more[j].message == m;
      }
      assert more[i] == listing[i];
      if Lists(more, m) {
        var j :| 0 <= j < i + 1 && more[j].message == m;
        assert j < i ==> fewer[j].message == m;
      }
    }
  }

  lemma FoundArePending(t: Tables, s: Settings, supply: Supply, limit: nat, found: seq<Candidate>)
    requires found == FirstOf(PendingFor(t, s, supply, limit), limit)
    ensures NoDuplicates(KeysOf(found, s.profile)) && AllPending(t, found, s, supply)
  {
    var listing := Listing(supply.inbox, Window(limit));
    var all := PendingFor(t, s, supply, limit);
    PendingInOnce(t, s, supply, listing);
    assert forall i :: 0 <= i < |found| ==> KeysOf(found, s.profile)[i] == KeysOf(all, s.profile)[i];
    forall c | c in found ensures InInbox(supply, c) && Pending(t, c, s, supply) {
      assert c in all;
      PendingInMeans(t, s, supply, listing, c);
      ListingIsInbox(supply.inbox, Window(limit), c);
    }
  }

  // prepare_automatic_quarantine_candidates over the windows of the inbox searches: the first pending ones, each
  // once.
  method PrepareCandidates(store: PreferenceStore, s: Settings, supply: Supply, limit: nat)
    returns (found: seq<Candidate>)
    requires limit > 0
    ensures found == FirstOf(PendingFor(store.Contents(), s, supply, limit), limit)
    ensures NoDuplicates(KeysOf(found, s.profile)) && AllPending(store.Contents(), found, s, supply)
  {
    found := [];
    var seen: set<MessageKey> := {};
    var listing := Listing(supply.inbox, Window(limit));
    var i := 0;
    while i < |listing| && |found| < limit
      invariant 0 <= i <= |listing| && |found| <= limit
      invariant forall m :: m in seen <==> Lists(listing[..i], m)
      invariant found == PendingIn(store.Contents(), s, supply, listing[..i])
    {
      var c := listing[i];
      assert listing[..i + 1][..i] == listing[..i];
      ListsOneMore(listing, i);
      if c.message !in seen {
        seen := seen + {c.message};
        if Pending(store.Contents(), c, s, supply) {
          found := found + [c];
        }
      }
      i := i + 1;
    }
    PendingInGrows(store.Contents(), s, supply, listing, i);
    assert listing[..|listing|] == listing;
    FoundArePending(store.Contents(), s, supply, limit, found);
  }

  lemma PendingIsReady(m: Machine, found: seq<Candidate>, s: Settings, supply: Supply)
    requires SessionOf(m, s) && AllPending(m.tables, found, s, supply)
    ensures AllAssessed(m, KeysOf(found, s.profile))
  {
    forall k | k in KeysOf(found, s.profile) ensures Assessed(m, k) {
      var i :| 0 <= i < |found| && k == RowKey(found[i].message, s.profile);
      assert found[i] in found;
    }
  }

  // Pending candidates can be acted on.
  lemma PendingIsCleanable(m: Machine, found: seq<Candidate>, s: Settings, supply: Supply)
    requires SessionOf(m, s) && AllPending(m.tables, found, s, supply)
    ensures CleanableAmong(m, KeysOf(found, s.profile)) == Elements(KeysOf(found, s.profile))
  {
    forall k | k in KeysOf(found, s.profile) ensures Cleanable(m.tables, k, m.session.protecting) {
      var i :| 0 <= i < |found| && k == RowKey(found[i].message, s.profile);
      assert found[i] in found;
    }
  }

  // ---- what a run leaves behind ----

  ghost predicate IsRecovered(t: Tables, s: Settings, supply: Supply, k: RowKey) {
    exists c :: InInbox(supply, c) && k == RowKey(c.message, s.profile) && Recoverable(t, c, s, supply)
  }

  // Markers and cleanup do not change what is recoverable.
  lemma RecoveredStays(t: Tables, t': Tables, s: Settings, supply: Supply, failed: set<RowKey>)
    requires OnlyReopened(t, t', failed)
    ensures forall c :: Recoverable(t', c, s, supply) <==> Recoverable(t, c, s, supply)
    ensures forall k :: IsRecovered(t', s, supply, k) <==> IsRecovered(t, s, supply, k)
  {
    forall c ensures Recoverable(t', c, s, supply) <==> Recoverable(t, c, s, supply) {
      StandsStays(t, t', failed, c, s, supply);
      StandsMeans(t, c, s, supply);
      StandsMeans(t', c, s, supply);
    }
  }

  // Every recoverable proposal in the windows for so many places was acted on, or is among these.
  ghost predicate Covered(t: Tables, s: Settings, supply: Supply, places: nat, keys: seq<RowKey>) {
    var listing := Listing(supply.inbox, Window(places));
    forall i :: 0 <= i < |listing| && ListedFirst(listing, i) && Recoverable(t, listing[i], s, supply) ==>
      RowKey(listing[i].message, s.profile) in t.executions || RowKey(listing[i].message, s.profile) in keys
  }

  // Covered, in terms of the pending candidates.
  lemma CoveredMeans(t: Tables, s: Settings, supply: Supply, places: nat, keys: seq<RowKey>)
    ensures Covered(t, s, supply, places, keys) <==>
      forall c :: c in PendingFor(t, s, supply, places) ==> RowKey(c.message, s.profile) in keys
  {
    var listing := Listing(supply.inbox, Window(places));
    forall c ensures Stands(t, c, s, supply) <==> Recoverable(t, c, s, supply) {
      StandsMeans(t, c, s, supply);
    }
    if Covered(t, s, supply, places, keys) {
      forall c | c in PendingFor(t, s, supply, places) ensures RowKey(c.message, s.profile) in keys {
        PendingInMeans(t, s, supply, listing, c);
        var i :| 0 <= i < |listing| && ListedFirst(listing, i) && listing[i] == c && Pending(t, c, s, supply);
        assert Recoverable(t, listing[i], s, supply);
      }
    }
    if forall c :: c in PendingFor(t, s, supply, places) ==> RowKey(c.message, s.profile) in keys {
      forall i | 0 <= i < |listing| && ListedFirst(listing, i) && Recoverable(t, listing[i], s, supply)
        ensures RowKey(listing[i].message, s.profile) in t.executions || RowKey(listing[i].message, s.profile) in keys
      {
        PendingInMeans(t, s, supply, listing, listing[i]);
      }
    }
  }

  // What is covered stays covered while more is acted on.
  lemma CoveredStays(
    t: Tables, t': Tables, s: Settings, supply: Supply, failed: set<RowKey>, places: nat, keys: seq<RowKey>,
    left: seq<RowKey>)
    requires OnlyReopened(t, t', failed) && t.executions.Keys <= t'.executions.Keys
    requires Covered(t, s, supply, places, keys)
    requires forall c :: Recoverable(t, c, s, supply) && RowKey(c.message, s.profile) in keys ==>
      RowKey(c.message, s.profile) in t'.executions || RowKey(c.message, s.profile) in left
    ensures Covered(t', s, supply, places, left)
  {
    RecoveredStays(t, t', s, supply, failed);
  }

  lemma {:induction false} PendingInStays(
    t: Tables, t': Tables, s: Settings, supply: Supply, failed: set<RowKey>, listing: seq<Candidate>)
    requires OnlyReopened(t, t', failed) && t'.executions == t.executions
    ensures PendingIn(t', s, supply, listing) == PendingIn(t, s, supply, listing)
  {
    if listing != [] {
      PendingInStays(t, t', s, supply, failed, listing[..|listing| - 1]);
      StandsStays(t, t', failed, listing[|listing| - 1], s, supply);
    }
  }

  lemma PendingStays(t: Tables, t': Tables, s: Settings, supply: Supply, failed: set<RowKey>, places: nat)
    requires OnlyReopened(t, t', failed) && t'.executions == t.executions
    ensures PendingFor(t', s, supply, places) == PendingFor(t, s, supply, places)
  {
    PendingInStays(t, t', s, supply, failed, Listing(supply.inbox, Window(places)));
  }

  // After a run that selected so many messages, the first of them proposals of its batch: its places are taken, or no
  // recoverable proposal is left in the windows for the places the batch left over.
  ghost predicate CaughtUp(t: Tables, s: Settings, supply: Supply, selected: nat, batch: nat) {
    selected == s.limit || (batch <= s.limit && Covered(t, s, supply, s.limit - batch, []))
  }

  // The pending candidates do not all fit the places, and of those that do some are proposals of the batch itself,
  // while others that are not are left over.
  ghost predicate CrowdedOut(t: Tables, s: Settings, supply: Supply, places: nat, batch: set<RowKey>) {
    var pending := PendingFor(t, s, supply, places);
    && |pending| > places
    && (exists i :: 0 <= i < places && RowKey(pending[i].message, s.profile) in batch)
    && exists i :: places <= i < |pending| && RowKey(pending[i].message, s.profile) !in batch
  }
}
