/** pipeline.py: the three searches of one scan, and which messages a session is done with. */
module Scan {
  import opened Mail
  import opened Ledger
  import opened Protocol
  import opened Stages
  import opened UnlimitedSession

  datatype Settings = Settings(
    account: string, provider: Provider, profile: string, fingerprint: string, protecting: bool, mode: SemanticMode,
    proofs: bool, apply: bool, direct: bool, backend: bool, limit: nat, maximum: nat)

  // The ids that each search lists, in the order of the provider, and what fetching and classifying one yields.
  datatype Mailbox = Mailbox(
    codes: seq<MessageKey>, access: seq<MessageKey>, unread: seq<MessageKey>, fetch: MessageKey -> ScanResult)
  {
    // Marker tags are added by the threat stage alone.
    ghost predicate Valid() {
      forall k :: fetch(k).message == k && fetch(k).Valid() && ThreatMarkerCandidate !in fetch(k).decision.reasons
    }
  }

  // An exception of the scan, with the number of messages it had classified.
  datatype Scan = Scanned(keys: seq<MessageKey>) | Raised(processed: nat)

  function ResultsOf(box: Mailbox, keys: seq<MessageKey>): (results: seq<ScanResult>)
    ensures |results| == |keys| && forall i :: 0 <= i < |keys| ==> results[i] == box.fetch(keys[i])
  {
    seq(|keys|, i requires 0 <= i < |keys| => box.fetch(keys[i]))
  }

  // ---- one search ----

  // What the generator of a search yields: the ids that are not skipped and have the read state it asks for.
  function Left(box: Mailbox, unread: bool, ids: seq<MessageKey>, done: set<MessageKey>): (left: seq<MessageKey>) {
    if ids == [] then []
    else
      var before, k := Left(box, unread, ids[..|ids| - 1], done), ids[|ids| - 1];
      if k in done || box.fetch(k).unread != unread then before else before + [k]
  }

  function Take(s: seq<MessageKey>, n: nat): (t: seq<MessageKey>)
    ensures |t| == Min(|s|, n)
  {
    if |s| <= n then s else s[..n]
  }

  predicate Own(k: MessageKey, s: Settings) { k.account == s.account && k.provider == s.provider }

  // evaluate raises on a message of another account, and looks at each message once.
  function EvaluateOne(s: Settings, batch: seq<MessageKey>, k: MessageKey): Scan {
    if !Own(k, s) then Raised(|batch|) else if k in batch then Scanned(batch) else Scanned(batch + [k])
  }

  function Evaluate(s: Settings, batch: seq<MessageKey>, found: seq<MessageKey>): (r: Scan)
    ensures r.Scanned? ==> batch <= r.keys && |r.keys| <= |batch| + |found|
  {
    if found == [] then Scanned(batch)
    else
      var before := Evaluate(s, batch, found[..|found| - 1]);
      if before.Raised? then before else EvaluateOne(s, before.keys, found[|found| - 1])
  }

  // One search for at most quota messages, continuing a batch.
  function Search(
    s: Settings, box: Mailbox, unread: bool, ids: seq<MessageKey>, quota: nat, done: set<MessageKey>,
    batch: seq<MessageKey>)
    : (r: Scan)
    ensures r.Scanned? ==> batch <= r.keys && |r.keys| <= |batch| + quota
  {
    Evaluate(s, batch, Take(Left(box, unread, ids, done), quota))
  }

  // ---- the scan ----

  function CodesScan(s: Settings, box: Mailbox, done: set<MessageKey>): (r: Scan)
    ensures r.Scanned? ==> |r.keys| <= LimitsFor(s.limit).codes
  {
    Search(s, box, false, box.codes, LimitsFor(s.limit).codes, done, [])
  }

  function AccessScan(s: Settings, box: Mailbox, done: set<MessageKey>, batch: seq<MessageKey>): (r: Scan)
    requires |batch| <= s.limit
    ensures r.Scanned? ==> |r.keys| <= s.limit
  {
    if |batch| == s.limit then Scanned(batch)
    else Search(s, box, false, box.access, Min(s.limit - |batch|, LimitsFor(s.limit).access), done, batch)
  }

  function UnreadScan(s: Settings, box: Mailbox, done: set<MessageKey>, batch: seq<MessageKey>): (r: Scan)
    requires |batch| <= s.limit
    ensures r.Scanned? ==> |r.keys| <= s.limit
  {
    if |batch| == s.limit then Scanned(batch)
    else Search(s, box, true, box.unread, s.limit - |batch|, done, batch)
  }

  // The messages run_shadow_scan classifies, when it skips those in done.
  function ScanOf(s: Settings, box: Mailbox, done: set<MessageKey>): (r: Scan)
    ensures r.Scanned? ==> |r.keys| <= s.limit
  {
    if !(1 <= s.limit <= s.maximum) then Raised(0)
    else
      var codes := CodesScan(s, box, done);
      if codes.Raised? then codes
      else
        var access := AccessScan(s, box, done, codes.keys);
        if access.Raised? then access else UnreadScan(s, box, done, access.keys)
  }

  // ---- what a search adds ----

  // What a search adds to a batch: new messages of this account, each once, none of them skipped, in the read
  // state it asks for, and no more than its quota.
  ghost predicate Adds(
    s: Settings, box: Mailbox, unread: bool, ids: seq<MessageKey>, done: set<MessageKey>, batch: seq<MessageKey>,
    added: seq<MessageKey>)
  {
    && NoDuplicates(batch + added)
    && forall k :: k in added ==> k in ids && k !in done && Own(k, s) && box.fetch(k).unread == unread
  }

  lemma {:induction false} LeftIsUndone(box: Mailbox, unread: bool, ids: seq<MessageKey>, done: set<MessageKey>)
    ensures forall k :: k in Left(box, unread, ids, done) <==> k in ids && k !in done && box.fetch(k).unread == unread
    ensures NoDuplicates(ids) ==> NoDuplicates(Left(box, unread, ids, done))
  {
    if ids != [] {
      LeftIsUndone(box, unread, ids[..|ids| - 1], done);
      assert forall k :: k in ids <==> k in ids[..|ids| - 1] || k == ids[|ids| - 1];
      assert NoDuplicates(ids) ==> ids[|ids| - 1] !in ids[..|ids| - 1];
    }
  }

  lemma {:induction false} EvaluateAdds(s: Settings, batch: seq<MessageKey>, found: seq<MessageKey>)
    requires NoDuplicates(batch)
    ensures var r := Evaluate(s, batch, found);
      r.Scanned? ==>
        && batch + r.keys[|batch|..] == r.keys && NoDuplicates(r.keys)
        && forall k :: k in r.keys[|batch|..] ==> k in found && Own(k, s)
  {
    if found != [] {
      var fewer, k := found[..|found| - 1], found[|found| - 1];
      EvaluateAdds(s, batch, fewer);
      var before, r := Evaluate(s, batch, fewer), Evaluate(s, batch, found);
      if r.Scanned? && r.keys != before.keys {
        assert r.keys[|batch|..] == before.keys[|batch|..] + [k];
      }
    }
  }

  lemma SearchAdds(
    s: Settings, box: Mailbox, unread: bool, ids: seq<MessageKey>, quota: nat, done: set<MessageKey>,
    batch: seq<MessageKey>)
    requires NoDuplicates(batch)
    ensures var r := Search(s, box, unread, ids, quota, done, batch);
      r.Scanned? ==> |r.keys[|batch|..]| <= quota && Adds(s, box, unread, ids, done, batch, r.keys[|batch|..])
  {
    var found := Take(Left(box, unread, ids, done), quota);
    LeftIsUndone(box, unread, ids, done);
    EvaluateAdds(s, batch, found);
    assert forall k :: k in found ==> k in Left(box, unread, ids, done);
  }

  // The parts of a scan, by the search that found them.
  ghost predicate Parts(
    s: Settings, box: Mailbox, done: set<MessageKey>, keys: seq<MessageKey>, codes: seq<MessageKey>,
    access: seq<MessageKey>, unread: seq<MessageKey>)
  {
    && keys == codes + access + unread && |keys| <= s.limit
    && |codes| <= LimitsFor(s.limit).codes && |access| <= LimitsFor(s.limit).access
    && Adds(s, box, false, box.codes, done, [], codes)
    && Adds(s, box, false, box.access, done, codes, access)
    && Adds(s, box, true, box.unread, done, codes + access, unread)
  }

  lemma AccessAdds(s: Settings, box: Mailbox, done: set<MessageKey>, batch: seq<MessageKey>)
    returns (added: seq<MessageKey>)
    requires NoDuplicates(batch) && |batch| <= s.limit && AccessScan(s, box, done, batch).Scanned?
    ensures AccessScan(s, box, done, batch).keys == batch + added && |added| <= LimitsFor(s.limit).access
    ensures Adds(s, box, false, box.access, done, batch, added)
  {
    added := AccessScan(s, box, done, batch).keys[|batch|..];
    if |batch| < s.limit {
      SearchAdds(s, box, false, box.access, Min(s.limit - |batch|, LimitsFor(s.limit).access), done, batch);
    } else {
      assert batch + added == batch;
    }
  }

  lemma UnreadAdds(s: Settings, box: Mailbox, done: set<MessageKey>, batch: seq<MessageKey>)
    returns (added: seq<MessageKey>)
    requires NoDuplicates(batch) && |batch| <= s.limit && UnreadScan(s, box, done, batch).Scanned?
    ensures UnreadScan(s, box, done, batch).keys == batch + added
    ensures Adds(s, box, true, box.unread, done, batch, added)
  {
    added := UnreadScan(s, box, done, batch).keys[|batch|..];
    if |batch| < s.limit {
      SearchAdds(s, box, true, box.unread, s.limit - |batch|, done, batch);
    } else {
      assert batch + added == batch;
    }
  }

  lemma CodesAdds(s: Settings, box: Mailbox, done: set<MessageKey>) returns (added: seq<MessageKey>)
    requires CodesScan(s, box, done).Scanned?
    ensures CodesScan(s, box, done).keys == added && |added| <= LimitsFor(s.limit).codes
    ensures Adds(s, box, false, box.codes, done, [], added) && NoDuplicates(added)
  {
    added := CodesScan(s, box, done).keys;
    SearchAdds(s, box, false, box.codes, LimitsFor(s.limit).codes, done, []);
    assert added[0..] == added && [] + added == added;
  }

  lemma ScanHasParts(s: Settings, box: Mailbox, done: set<MessageKey>)
    returns (codes: seq<MessageKey>, access: seq<MessageKey>, unread: seq<MessageKey>)
    requires ScanOf(s, box, done).Scanned?
    ensures Parts(s, box, done, ScanOf(s, box, done).keys, codes, access, unread)
  {
    codes := CodesAdds(s, box, done);
    access := AccessAdds(s, box, done, codes);
    unread := UnreadAdds(s, box, done, codes + access);
  }

  // A scan never looks at a message that is done, at one of another account, or at one twice.
  lemma ScannedMessages(s: Settings, box: Mailbox, done: set<MessageKey>)
    requires ScanOf(s, box, done).Scanned?
    ensures var keys := ScanOf(s, box, done).keys;
      && NoDuplicates(keys) && |keys| <= s.limit
      && forall k :: k in keys ==>
           && k !in done && k.account == s.account && k.provider == s.provider
           && (k in box.codes || k in box.access || k in box.unread)
  {
    var codes, access, unread := ScanHasParts(s, box, done);
  }

  // ---- the loops ----

  lemma {:induction false} LeftOfPrefix(box: Mailbox, unread: bool, ids: seq<MessageKey>, n: nat, done: set<MessageKey>)
    requires n <= |ids|
    ensures Left(box, unread, ids[..n], done) <= Left(box, unread, ids, done)
    decreases |ids|
  {
    if n < |ids| {
      LeftOfPrefix(box, unread, ids[..|ids| - 1], n, done);
      assert ids[..|ids| - 1][..n] == ids[..n];
    } else {
      assert ids[..n] == ids;
    }
  }

  lemma {:induction false} RaisingIsFinal(s: Settings, batch: seq<MessageKey>, fewer: seq<MessageKey>,
                                          found: seq<MessageKey>)
    requires fewer <= found && Evaluate(s, batch, fewer).Raised?
    ensures Evaluate(s, batch, found) == Evaluate(s, batch, fewer)
    decreases |found|
  {
    if |fewer| < |found| {
      RaisingIsFinal(s, batch, fewer, found[..|found| - 1]);
    } else {
      assert fewer == found;
    }
  }

  // The generator of the provider, which skips and fetches before it counts, and the loop over it.
  method RunSearch(
    s: Settings, box: Mailbox, unread: bool, ids: seq<MessageKey>, quota: nat, done: set<MessageKey>,
    batch: seq<MessageKey>)
    returns (r: Scan)
    ensures r == Search(s, box, unread, ids, quota, done, batch)
  {
    r := Scanned(batch);
    var i := 0;
    ghost var found: seq<MessageKey> := [];
    var yielded := 0;
    while i < |ids| && yielded < quota && r.Scanned?
      invariant 0 <= i <= |ids| && found == Left(box, unread, ids[..i], done) && yielded == |found| <= quota
      invariant r == Evaluate(s, batch, found)
    {
      assert ids[..i + 1][..i] == ids[..i];
      if ids[i] !in done && box.fetch(ids[i]).unread == unread {
        assert (found + [ids[i]])[..|found|] == found;
        r := EvaluateOne(s, r.keys, ids[i]);
        found, yielded := found + [ids[i]], yielded + 1;
      }
      i := i + 1;
    }
    LeftOfPrefix(box, unread, ids, i, done);
    assert ids[..|ids|] == ids;
    assert found <= Take(Left(box, unread, ids, done), quota);
    if r.Raised? {
      RaisingIsFinal(s, batch, found, Take(Left(box, unread, ids, done), quota));
    } else {
      assert found == Take(Left(box, unread, ids, done), quota);
    }
  }

  // The scan up to the point where it is recorded.
  method Classify(s: Settings, box: Mailbox, done: set<MessageKey>) returns (r: Scan)
    ensures r == ScanOf(s, box, done)
  {
    if !(1 <= s.limit <= s.maximum) {
      return Raised(0);
    }
    r := RunSearch(s, box, false, box.codes, LimitsFor(s.limit).codes, done, []);
    if r.Scanned? && |r.keys| < s.limit {
      r := RunSearch(s, box, false, box.access, Min(s.limit - |r.keys|, LimitsFor(s.limit).access), done, r.keys);
    }
    if r.Scanned? && |r.keys| < s.limit {
      r := RunSearch(s, box, true, box.unread, s.limit - |r.keys|, done, r.keys);
    }
  }

  // ---- what a session is done with ----

  // The row of a message is complete under the current policy, and no reset of the session will reopen it.
  predicate IsDone(t: Tables, s: Settings, m: MessageKey) { m.account == s.account && RowIs(t, s, m, true) }

  predicate RowIs(t: Tables, s: Settings, m: MessageKey, complete: bool) {
    var k := RowKey(m, s.profile);
    && k in t.shadow && t.shadow[k].fingerprint == s.fingerprint && t.shadow[k].complete == complete
    && (s.protecting ==> k in t.threats && !Stale(t.threats[k], s.mode))
  }

  function Finished(t: Tables, s: Settings): (done: set<MessageKey>)
    ensures forall m :: m in done <==> IsDone(t, s, m)
  {
    set k | k in t.shadow && k == RowKey(k.message, s.profile) && IsDone(t, s, k.message) :: k.message
  }

  // The tables as the scan finds them, after the reset at the start of the run.
  function AfterReset(t: Tables, s: Settings): Tables {
    if s.protecting then Withdraw(t, StaleKeys(t, s.account, s.profile, s.mode)) else t
  }

  // The reset reopens nothing the session is done with, and the scan skips nothing else.
  lemma SkippedIsFinished(t: Tables, s: Settings)
    requires Sound(t)
    ensures Skipped(AfterReset(t, s), s.account, s.profile, s.fingerprint) == Finished(t, s)
    ensures Finished(AfterReset(t, s), s) == Finished(t, s)
  {
    var t' := AfterReset(t, s);
    var skipped := Skipped(t', s.account, s.profile, s.fingerprint);
    forall m ensures m in skipped <==> IsDone(t, s, m) {
      var k := RowKey(m, s.profile);
      if m in skipped {
        assert k in t'.shadow && t'.shadow[k].complete && k in t.threats;
      }
      if IsDone(t, s, m) {
        assert InScope(k, s.account, s.profile) && t'.shadow[k] == t.shadow[k];
        assert k.message in skipped;
      }
    }
    forall m ensures m in Finished(t', s) <==> IsDone(t, s, m) {
    }
  }

  function RowsOf(keys: seq<MessageKey>, profile: string): (rows: set<RowKey>)
    ensures forall k :: k in rows <==> k.message in keys && k.profile == profile
  {
    set m | m in keys :: RowKey(m, profile)
  }

  // What is done after a batch whose settled messages end complete and whose others end incomplete.
  lemma FinishedGrows(t: Tables, t': Tables, s: Settings, keys: seq<MessageKey>, settled: set<MessageKey>)
    requires Confined(t, t', RowsOf(keys, s.profile)) && settled <= Elements(keys)
    requires forall m :: m in keys ==> m.account == s.account && m !in Finished(t, s) && RowIs(t', s, m, m in settled)
    ensures Finished(t', s) == Finished(t, s) + settled
  {
    forall m ensures IsDone(t', s, m) <==> IsDone(t, s, m) || m in settled {
      if m !in keys {
        assert RowKey(m, s.profile) !in RowsOf(keys, s.profile);
      }
    }
  }
}
