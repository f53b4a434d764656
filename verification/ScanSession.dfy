/** desktop_worker.py: a scan session, its merged summary and its diagnostic record. */
module ScanSession {
  import opened Mail
  import opened Ledger
  import opened Protocol
  import opened PreferenceStore
  import opened Scan
  import opened Batch
  import opened Recovery
  import opened Runs
  import opened GmailRuns
  import opened YahooRuns
  import opened Chunks
  import opened SessionEnd
  import opened Diagnostics

  const UNLIMITED_SCAN_CHUNK_SIZE := 500

  // ---- the merged summary ----

  function Sum(reports: seq<Report>): (r: Report) {
    if reports == [] then NO_REPORT
    else
      var rest, last := Sum(reports[..|reports| - 1]), reports[|reports| - 1];
      Report(rest.processed + last.processed, rest.selected + last.selected, rest.applied + last.applied,
             rest.marked + last.marked, rest.changes || last.changes)
  }

  // Merging the reports of two stretches of chunks adds up, total by total, and a single report is its own merge.
  lemma {:induction false} MergedInTwoParts(a: seq<Report>, b: seq<Report>)
    ensures var both := Sum(a + b);
      && both.processed == Sum(a).processed + Sum(b).processed && both.selected == Sum(a).selected + Sum(b).selected
      && both.applied == Sum(a).applied + Sum(b).applied && both.marked == Sum(a).marked + Sum(b).marked
      && (both.changes <==> Sum(a).changes || Sum(b).changes)
  {
    if b == [] {
      assert a + b == a;
    } else {
      MergedInTwoParts(a, b[..|b| - 1]);
      assert (a + b)[..|a + b| - 1] == a + b[..|b| - 1];
    }
  }

  lemma MergedAlone(r: Report)
    ensures Sum([r]) == r
  {
    assert [r][..0] == [];
  }

  // _merged_unlimited_summary starts from the last chunk and replaces each total by a sum over all chunks.
  method MergedUnlimitedSummary(reports: seq<Report>) returns (merged: Report)
    requires reports != []
    ensures merged == Sum(reports)
  {
    merged := reports[|reports| - 1].(processed := 0, selected := 0, applied := 0, marked := 0, changes := false);
    var i := 0;
    while i < |reports|
      invariant 0 <= i <= |reports| && merged == Sum(reports[..i])
    {
      assert reports[..i + 1][..i] == reports[..i];
      merged := Report(merged.processed + reports[i].processed, merged.selected + reports[i].selected,
                       merged.applied + reports[i].applied, merged.marked + reports[i].marked,
                       merged.changes || reports[i].changes);
      i := i + 1;
    }
    assert reports[..|reports|] == reports;
  }

  // One entry of the counters, over all chunks.
  function CountOf(counters: seq<map<string, nat>>, word: string): (n: nat) {
    if counters == [] then 0
    else
      var last := counters[|counters| - 1];
      CountOf(counters[..|counters| - 1], word) + if word in last then last[word] else 0
  }

  // A word is counted wherever it occurs, and nowhere else.
  lemma {:induction false} CountInTwoParts(a: seq<map<string, nat>>, b: seq<map<string, nat>>, word: string)
    ensures CountOf(a + b, word) == CountOf(a, word) + CountOf(b, word)
    ensures forall c: map<string, nat> :: CountOf([c], word) == if word in c then c[word] else 0
    decreases |b|
  {
    assert forall c: map<string, nat> :: [c][..0] == [];
    if b == [] {
      assert a + b == a;
    } else {
      var rest := b[..|b| - 1];
      CountInTwoParts(a, rest, word);
      assert (a + b)[..|a + b| - 1] == a + rest;
    }
  }

  // The Counter that each field of categories, actions, outcomes, levels or witnesses is merged with.
  method MergeCounters(counters: seq<map<string, nat>>) returns (merged: map<string, nat>)
    ensures forall w :: w in merged <==> exists i :: 0 <= i < |counters| && w in counters[i]
    ensures forall w :: w in merged ==> merged[w] == CountOf(counters, w)
  {
    merged := map[];
    var i := 0;
    while i < |counters|
      invariant 0 <= i <= |counters|
      invariant forall w :: w in merged <==> exists j :: 0 <= j < i && w in counters[j]
      invariant forall w :: (if w in merged then merged[w] else 0) == CountOf(counters[..i], w)
    {
      var c := counters[i];
      assert counters[..i + 1][..i] == counters[..i];
      merged := map w | w in merged.Keys + c.Keys ::
        (if w in merged then merged[w] else 0) + (if w in c then c[w] else 0);
      i := i + 1;
    }
    assert counters[..|counters|] == counters;
  }

  // ---- the session ----

  // The reports so far account for everything the session has done to the mailbox.
  ghost predicate Accounted(done: Effects, total: Report) {
    && total.applied == done.moved && total.marked == done.marked
    && total.applied <= done.calls <= total.selected
    && (total.changes <==> total.applied > 0 || total.marked > 0)
  }

  method RunOnce(store: PreferenceStore, s: Settings, supply: Supply) returns (scan: Scan, r: Report, ghost calls: nat)
    requires store.Settled() && supply.Valid() && SessionOf(store.Now(), s)
    modifies store
    ensures store.Settled() && old(store.trace) <= store.trace
    ensures RunStep(old(store.Now()), store.Now(), s, supply, scan, calls, r)
    ensures scan.Scanned? ==> RunActs(old(store.Contents()), store.Contents(), s, supply, scan.keys, r.selected)
  {
    if s.provider == Gmail {
      scan, r := GmailShadowRun(store, s, supply);
      calls := r.selected;
    } else {
      scan, r, calls := YahooShadowRun(store, s, supply);
    }
  }

  lemma AccountedGrows(before: Effects, after: Effects, reports: seq<Report>, r: Report, calls: nat, limit: nat)
    requires Accounted(before, Sum(reports)) && Reported(before, after, calls, r, limit)
    ensures Accounted(after, Sum(reports + [r]))
  {
    assert (reports + [r])[..|reports|] == reports;
  }

  // The messages a chunk acted on: proposals of its batch, and stored proposals that stood when it ended.
  ghost predicate ActedIn(s: Settings, c: Chunk, k: RowKey) {
    c.supply.Valid() && (IsProposed(s, c.supply, c.batch, k) || IsRecovered(c.tables, s, c.supply, k))
  }

  // Every execution row that was added was added by one of the chunks.
  ghost predicate AllActedIn(t0: Tables, t: Tables, s: Settings, chunks: seq<Chunk>) {
    && t0.executions.Keys <= t.executions.Keys
    && forall k :: k in t.executions && k !in t0.executions ==>
         exists i :: 0 <= i < |chunks| && ActedIn(s, chunks[i], k)
  }

  lemma ActedInMore(t0: Tables, t: Tables, t': Tables, s: Settings, chunks: seq<Chunk>, c: Chunk)
    requires AllActedIn(t0, t, s, chunks) && c.supply.Valid() && c.tables == t'
    requires t.executions.Keys <= t'.executions.Keys
    requires forall k :: k in t'.executions && k !in t.executions ==> ActedIn(s, c, k)
    ensures AllActedIn(t0, t', s, chunks + [c])
  {
    var more := chunks + [c];
    forall k | k in t'.executions && k !in t0.executions ensures exists i :: 0 <= i < |more| && ActedIn(s, more[i], k) {
      if k in t.executions {
        var i :| 0 <= i < |chunks| && ActedIn(s, chunks[i], k);
        assert ActedIn(s, more[i], k);
      } else {
        assert ActedIn(s, more[|chunks|], k);
      }
    }
  }

  // What the chunks so far have done, since the tables were t0.
  ghost predicate Ran(t0: Tables, m: Machine, s: Settings, supply: nat -> Supply, reports: seq<Report>,
                      chunks: seq<Chunk>) {
    && SessionOf(m, s) && Accounted(m.done, Sum(reports)) && (m.session.mutating <==> reports != [])
    && SessionHistory(s, Finished(t0, s), chunks)
    && DoneAt(Finished(t0, s), chunks, |chunks|) == Finished(m.tables, s)
    && AllActedIn(t0, m.tables, s, chunks)
    && AllTold(s, supply, reports, chunks)
  }

  ghost predicate AllTold(s: Settings, supply: nat -> Supply, reports: seq<Report>, chunks: seq<Chunk>) {
    |chunks| == |reports| && forall i: nat :: i < |chunks| ==> Told(s, reports[i], chunks[i], supply(i))
  }

  lemma ToldMore(s: Settings, supply: nat -> Supply, reports: seq<Report>, chunks: seq<Chunk>, r: Report, c: Chunk)
    requires AllTold(s, supply, reports, chunks) && Told(s, r, c, supply(|chunks|))
    ensures AllTold(s, supply, reports + [r], chunks + [c])
  {
  }

  // What the report of a chunk says, and what the chunk did with its batch and with stored proposals.
  ghost predicate Told(s: Settings, r: Report, c: Chunk, supply: Supply) {
    && r.processed == |c.batch| && c.supply == supply && supply.Valid()
    && RunActs(c.found, c.tables, s, supply, c.batch, r.selected)
  }

  // The merged total is the number of messages in the batches of the chunks.
  lemma {:induction false} ProcessedIsLaid(reports: seq<Report>, chunks: seq<Chunk>)
    requires |reports| == |chunks| && forall i :: 0 <= i < |chunks| ==> reports[i].processed == |chunks[i].batch|
    ensures Sum(reports).processed == |Laid(chunks)|
  {
    if chunks != [] {
      var n := |chunks| - 1;
      ProcessedIsLaid(reports[..n], chunks[..n]);
      MergedInTwoParts(reports[..n], [reports[n]]);
      MergedAlone(reports[n]);
      assert reports[..n] + [reports[n]] == reports;
    }
  }

  lemma RanIsLaid(t0: Tables, m: Machine, s: Settings, supply: nat -> Supply, reports: seq<Report>, chunks: seq<Chunk>)
    requires Ran(t0, m, s, supply, reports, chunks)
    ensures Sum(reports).processed == |Laid(chunks)|
  {
    forall i | 0 <= i < |chunks| ensures reports[i].processed == |chunks[i].batch| {
      assert Told(s, reports[i], chunks[i], supply(i));
    }
    ProcessedIsLaid(reports, chunks);
  }

  // When everything that is scanned settles, it is the number of messages the session became done with.
  lemma ProcessedIsSettled(
    t0: Tables, m: Machine, s: Settings, supply: nat -> Supply, reports: seq<Report>, chunks: seq<Chunk>)
    requires Ran(t0, m, s, supply, reports, chunks) && forall i :: 0 <= i < |chunks| ==> BatchSettles(s, chunks[i])
    ensures Sum(reports).processed == |Finished(m.tables, s) - Finished(t0, s)|
  {
    RanIsLaid(t0, m, s, supply, reports, chunks);
    LaidIsSettled(s, Finished(t0, s), chunks);
    ElementsSize(Laid(chunks));
  }

  // The chunk between two states of the store.
  ghost predicate IsChunk(c: Chunk, m: Machine, m': Machine, s: Settings, supply: Supply) {
    && c.supply == supply && c.before == Finished(m.tables, s) && c.after == Finished(m'.tables, s)
    && c.found == m.tables && c.tables == m'.tables
  }

  lemma RanMore(
    t0: Tables, m: Machine, m': Machine, s: Settings, supply: nat -> Supply, reports: seq<Report>, chunks: seq<Chunk>,
    c: Chunk, calls: nat, r: Report)
    requires Ran(t0, m, s, supply, reports, chunks) && supply(|chunks|).Valid()
    requires IsChunk(c, m, m', s, supply(|chunks|))
    requires RunStep(m, m', s, c.supply, Scanned(c.batch), calls, r)
    requires RunActs(m.tables, m'.tables, s, c.supply, c.batch, r.selected)
    ensures ChunkStep(s, c) && Ran(t0, m', s, supply, reports + [r], chunks + [c])
  {
    AccountedGrows(m.done, m'.done, reports, r, calls, s.limit);
    HistoryGrows(s, Finished(t0, s), chunks, c);
    ActedInMore(t0, m.tables, m'.tables, s, chunks, c);
    ToldMore(s, supply, reports, chunks, r, c);
  }

  // All chunks so far were full.
  ghost predicate AllFull(s: Settings, chunks: seq<Chunk>) {
    forall i :: 0 <= i < |chunks| ==> |chunks[i].batch| == s.limit
  }

  lemma StillFullOrEnded(s: Settings, chunks: seq<Chunk>, c: Chunk)
    requires AllFull(s, chunks) && |c.batch| <= s.limit
    ensures |c.batch| == s.limit ==> AllFull(s, chunks + [c])
    ensures |c.batch| < s.limit ==> Ended(s, chunks + [c])
  {
  }

  datatype End = Running | Short | Failed(processed: nat)

  // Where the session is before chunk i.
  ghost predicate At(t0: Tables, t: Tables, s: Settings, supply: nat -> Supply, i: nat)
    requires SuppliesValid(supply)
  {
    Reached(s, supply, Finished(t0, s), i) && Finished(t, s) == DoneBefore(s, supply, Finished(t0, s), i)
  }

  // How far the session has got.
  ghost predicate SoFar(
    t0: Tables, m: Machine, s: Settings, supply: nat -> Supply, end: End, reports: seq<Report>, chunks: seq<Chunk>)
    requires SuppliesValid(supply)
  {
    && Ran(t0, m, s, supply, reports, chunks)
    && (if end.Short? then Ended(s, chunks) else AllFull(s, chunks))
    && (end.Running? ==> At(t0, m.tables, s, supply, |chunks|))
    && (end.Failed? ==> ScanOf(s, supply(|chunks|).box, Finished(m.tables, s)) == Raised(end.processed))
  }

  // After a full chunk the session goes on, with less of the mail left.
  lemma NextChunk(
    t0: Tables, m: Machine, m': Machine, s: Settings, supply: nat -> Supply, mail: set<MessageKey>, i: nat, c: Chunk)
    requires SuppliesValid(supply) && Progresses(s, supply, Finished(t0, s), mail) && At(t0, m.tables, s, supply, i)
    requires IsChunk(c, m, m', s, supply(i)) && ChunkStep(s, c) && |c.batch| == s.limit
    ensures At(t0, m'.tables, s, supply, i + 1)
    ensures mail - Finished(m'.tables, s) < mail - Finished(m.tables, s)
  {
    ReachedNext(s, supply, Finished(t0, s), i);
    FullChunkShrinks(s, supply, Finished(t0, s), mail, i);
  }

  // One pass of the loop.
  method RunChunk(
    store: PreferenceStore, s: Settings, supply: nat -> Supply, ghost mail: set<MessageKey>, ghost t0: Tables,
    reports: seq<Report>, ghost chunks: seq<Chunk>)
    returns (end: End, reports': seq<Report>, ghost chunks': seq<Chunk>)
    requires store.Settled() && SuppliesValid(supply) && Progresses(s, supply, Finished(t0, s), mail)
    requires SoFar(t0, store.Now(), s, supply, Running, reports, chunks)
    modifies store
    ensures store.Settled() && old(store.trace) <= store.trace
    ensures store.session.epoch == old(store.session.epoch)
    ensures SoFar(t0, store.Now(), s, supply, end, reports', chunks')
    ensures end.Running? ==> mail - Finished(store.Contents(), s) < mail - old(Finished(store.Contents(), s))
  {
    ghost var before := store.Now();
    var scan, r;
    ghost var calls;
    scan, r, calls := RunOnce(store, s, supply(|reports|));
    match scan {
      case Raised(processed) =>
        end, reports', chunks' := Failed(processed), reports, chunks;
      case Scanned(keys) =>
        ghost var c := Chunk(supply(|reports|), Finished(before.tables, s), keys, Finished(store.Contents(), s),
                             before.tables, store.Contents());
        end, reports', chunks' := if r.processed < s.limit then Short else Running, reports + [r], chunks + [c];
        OneMoreChunk(t0, before, store.Now(), s, supply, mail, reports, chunks, c, calls, r);
    }
  }

  lemma OneMoreChunk(
    t0: Tables, m: Machine, m': Machine, s: Settings, supply: nat -> Supply, mail: set<MessageKey>,
    reports: seq<Report>, chunks: seq<Chunk>, c: Chunk, calls: nat, r: Report)
    requires SuppliesValid(supply) && Progresses(s, supply, Finished(t0, s), mail)
    requires SoFar(t0, m, s, supply, Running, reports, chunks) && IsChunk(c, m, m', s, supply(|chunks|))
    requires RunStep(m, m', s, c.supply, Scanned(c.batch), calls, r)
    requires RunActs(m.tables, m'.tables, s, c.supply, c.batch, r.selected)
    ensures SoFar(t0, m', s, supply, if r.processed < s.limit then Short else Running, reports + [r], chunks + [c])
    ensures r.processed == s.limit ==> mail - Finished(m'.tables, s) < mail - Finished(m.tables, s)
  {
    RanMore(t0, m, m', s, supply, reports, chunks, c, calls, r);
    StillFullOrEnded(s, chunks, c);
    if r.processed == s.limit {
      NextChunk(t0, m, m', s, supply, mail, |chunks|, c);
    }
  }

  // The while True loop: chunk after chunk until one comes back short, or raises.  It ends because every full
  // chunk settles another message.
  method RunChunks(store: PreferenceStore, s: Settings, supply: nat -> Supply)
    returns (end: End, reports: seq<Report>, ghost chunks: seq<Chunk>)
    requires store.Settled() && SessionOf(store.Now(), s) && Accounted(store.done, NO_REPORT) && !store.session.mutating
    requires SuppliesValid(supply) && MakesProgress(s, supply, Finished(store.Contents(), s))
    modifies store
    ensures store.Settled() && old(store.trace) <= store.trace
    ensures store.session.epoch == old(store.session.epoch)
    ensures Ran(old(store.Contents()), store.Now(), s, supply, reports, chunks)
    ensures !end.Running?
    ensures end.Short? ==> Ended(s, chunks)
    ensures end.Failed? ==>
      AllFull(s, chunks) && ScanOf(s, supply(|chunks|).box, Finished(store.Contents(), s)) == Raised(end.processed)
  {
    ghost var t0 := store.Contents();
    ghost var mail :| Progresses(s, supply, Finished(store.Contents(), s), mail);
    end, reports, chunks := Running, [], [];
    while end.Running?
      invariant store.Settled() && old(store.trace) <= store.trace
      invariant store.session.epoch == old(store.session.epoch)
      invariant SoFar(t0, store.Now(), s, supply, end, reports, chunks)
      decreases end.Running?, mail - Finished(store.Contents(), s)
    {
      end, reports, chunks := RunChunk(store, s, supply, mail, t0, reports, chunks);
    }
  }

  // The settings of one run of a session; a session without limit runs in chunks.
  function Chunked(s: Settings): (r: Settings)
    ensures r.limit == if s.limit != 0 then s.limit else if s.maximum < 500 then s.maximum else 500
    ensures r == s.(limit := r.limit)
  {
    if s.limit == 0 then s.(limit := Min(UNLIMITED_SCAN_CHUNK_SIZE, s.maximum)) else s
  }

  // A session: its settings, and what its chunks will be supplied with.
  datatype Plan = Plan(settings: Settings, supply: nat -> Supply)
  {
    // Begun on these tables, an unlimited one makes progress.
    ghost predicate Valid(t: Tables) {
      && SuppliesValid(supply)
      && (settings.limit == 0 ==> MakesProgress(Chunked(settings), supply, Finished(t, Chunked(settings))))
    }
  }

  // The scan of the next chunk raised, after this many messages.
  ghost predicate StoppedIn(t: Tables, plan: Plan, chunks: seq<Chunk>, processed: nat) {
    var s := Chunked(plan.settings);
    ScanOf(s, plan.supply(|chunks|).box, Finished(t, s)) == Raised(processed)
  }

  // The runs of a session: one, or as many chunks as it takes.
  method RunSession(store: PreferenceStore, plan: Plan)
    returns (end: End, reports: seq<Report>, ghost chunks: seq<Chunk>)
    requires store.Settled() && SessionOf(store.Now(), plan.settings) && Accounted(store.done, NO_REPORT)
    requires plan.Valid(store.Contents()) && !store.session.mutating
    modifies store
    ensures store.Settled() && old(store.trace) <= store.trace && store.session.epoch == old(store.session.epoch)
    ensures Ran(old(store.Contents()), store.Now(), Chunked(plan.settings), plan.supply, reports, chunks)
      && !end.Running?
    ensures end.Short? ==> if plan.settings.limit == 0 then Ended(Chunked(plan.settings), chunks) else |reports| == 1
    ensures end.Failed? ==> StoppedIn(store.Contents(), plan, chunks, end.processed)
  {
    var s := Chunked(plan.settings);
    if plan.settings.limit == 0 {
      end, reports, chunks := RunChunks(store, s, plan.supply);
    } else {
      end, reports, chunks := RunLimited(store, s, plan.supply);
    }
  }

  method RunLimited(store: PreferenceStore, s: Settings, supply: nat -> Supply)
    returns (end: End, reports: seq<Report>, ghost chunks: seq<Chunk>)
    requires store.Settled() && SessionOf(store.Now(), s) && Accounted(store.done, NO_REPORT) && !store.session.mutating
    requires SuppliesValid(supply)
    modifies store
    ensures store.Settled() && old(store.trace) <= store.trace && store.session.epoch == old(store.session.epoch)
    ensures Ran(old(store.Contents()), store.Now(), s, supply, reports, chunks) && !end.Running?
    ensures end.Short? ==> |reports| == 1
    ensures end.Failed? ==> ScanOf(s, supply(|chunks|).box, Finished(store.Contents(), s)) == Raised(end.processed)
  {
    reports, chunks := [], [];
    ghost var before := store.Now();
    var scan, r;
    ghost var calls;
    scan, r, calls := RunOnce(store, s, supply(0));
    match scan {
      case Raised(processed) =>
        end := Failed(processed);
      case Scanned(keys) =>
        ghost var c :=
          Chunk(supply(0), Finished(before.tables, s), keys, Finished(store.Contents(), s), before.tables,
                store.Contents());
        RanMore(before.tables, before, store.Now(), s, supply, [], [], c, calls, r);
        end, reports, chunks := Short, [] + [r], [] + [c];
    }
  }

  // What the record of a session claims about the provider calls made since the session began at b.
  ghost predicate RecordTells(record: Diagnostic, actions: seq<Action>, b: nat) {
    && IsSession(actions, b) && record.Valid()
    && (record.status == Completed ==>
          record.outcome != Unknown && (record.outcome == Changed <==> Succeeds(actions, b)))
    && (record.status != Completed ==>
          record.outcome != Changed && (record.outcome == Unchanged ==> !Mutates(actions, b)))
  }

  lemma OneSession(start: Machine, actions: seq<Action>, b: nat)
    requires Permitted(start, actions) && b < |actions| && actions[b].Begin? && Permitted(start, actions[..b + 1])
    requires After(start, actions[..b + 1]).session.epoch == After(start, actions).session.epoch
    ensures IsSession(actions, b)
  {
    SameEpoch(start, actions, b + 1);
  }

  // The summary and the record: of the completed session, or of the phase in which it was interrupted.
  method Conclude(limit: nat, end: End, all: seq<Report>) returns (summary: Report, record: Diagnostic)
    requires !end.Running? && (end.Short? ==> all != [] && (limit > 0 ==> |all| == 1))
    ensures record.Valid() && (record.status == Completed <==> end.Short?)
    ensures end.Short? ==> summary == Sum(all) && record == DiagnosticFromSummary(summary)
    ensures end.Failed? ==> record.processed == Sum(all).processed + end.processed && record.applied == 0
    ensures end.Failed? ==> record.outcome == if all == [] then Unchanged else Unknown
  {
    summary := NO_REPORT;
    if end.Short? {
      if limit == 0 {
        summary := MergedUnlimitedSummary(all);
      } else {
        summary := all[0];
        assert all[..0] == [] && Sum(all[..0]) == NO_REPORT;
      }
      record := DiagnosticFromSummary(summary);
    } else {
      var phase := if all == [] then Classification else MailboxActions;
      var outcome := if all == [] then Unchanged else Unknown;
      record := TerminalDiagnostic(FailedStatus, phase, Sum(all).processed + end.processed, outcome).value;
    }
  }

  lemma RecordIsTrue(start: Machine, actions: seq<Action>, b: nat, all: seq<Report>, end: End, record: Diagnostic)
    requires Permitted(start, actions) && IsSession(actions, b) && record.Valid()
    requires Accounted(After(start, actions).done, Sum(all)) && (After(start, actions).session.mutating <==> all != [])
    requires record.status == Completed <==> end.Short?
    requires end.Short? ==> record == DiagnosticFromSummary(Sum(all))
    requires !end.Short? ==> record.outcome == if all == [] then Unchanged else Unknown
    ensures RecordTells(record, actions, b)
  {
    SessionTells(start, actions, b);
  }

  // _execute_scan_locked, and record_terminal_scan_status when it raises.
  method ExecuteScan(store: PreferenceStore, plan: Plan)
    returns (completed: bool, summary: Report, record: Diagnostic, ghost reports: seq<Report>, ghost chunks: seq<Chunk>)
    requires store.Settled() && plan.Valid(store.Contents())
    modifies store
    ensures store.Settled() && old(store.trace) <= store.trace
    ensures Ran(old(store.Contents()), store.Now(), Chunked(plan.settings), plan.supply, reports, chunks)
    ensures completed <==> record.status == Completed
    ensures completed ==> summary == Sum(reports) && record == DiagnosticFromSummary(summary)
    ensures completed ==> if plan.settings.limit == 0 then Ended(Chunked(plan.settings), chunks) else |reports| == 1
    ensures completed ==> summary.processed == record.processed == |Laid(chunks)| && record.applied == summary.applied
    ensures !completed ==>
      record.processed >= |Laid(chunks)|
      && StoppedIn(store.Contents(), plan, chunks, record.processed - |Laid(chunks)|)
    ensures RecordTells(record, store.trace, |old(store.trace)|)
  {
    ghost var b := |store.trace|;
    var s := plan.settings;
    store.Begin(s.account, s.profile, s.protecting, s.mode);
    ghost var begun := store.trace;
    assert begun[b].Begin?;
    var end, all;
    end, all, chunks := RunSession(store, plan);
    reports, completed := all, end.Short?;
    assert store.trace[..b + 1] == begun && store.trace[b] == begun[b];
    OneSession(store.start, store.trace, b);
    summary, record := Conclude(s.limit, end, all);
    RecordIsTrue(store.start, store.trace, b, all, end, record);
    RanIsLaid(old(store.Contents()), store.Now(), Chunked(s), plan.supply, all, chunks);
  }

  // ---- any number of sessions ----

  // The sessions between two marks of the trace, and what their records say about them.
  ghost predicate AllTell(records: seq<Diagnostic>, actions: seq<Action>, marks: seq<nat>) {
    && |marks| == |records| + 1
    && (forall i :: 0 <= i < |marks| ==> marks[i] <= |actions|)
    && forall i :: 0 <= i < |records| ==> RecordTells(records[i], actions[..marks[i + 1]], marks[i])
  }

  lemma TellsMore(records: seq<Diagnostic>, actions: seq<Action>, marks: seq<nat>, record: Diagnostic,
                  actions': seq<Action>)
    requires AllTell(records, actions, marks) && marks[|records|] == |actions| && actions <= actions'
    requires RecordTells(record, actions', |actions|)
    ensures AllTell(records + [record], actions', marks + [|actions'|])
  {
    var records', marks' := records + [record], marks + [|actions'|];
    assert actions'[..|actions'|] == actions';
    forall i | 0 <= i < |records'| ensures RecordTells(records'[i], actions'[..marks'[i + 1]], marks'[i]) {
      if i < |records| {
        assert actions'[..marks[i + 1]] == actions[..marks[i + 1]];
      }
    }
  }

  // A session that was run, by its settings and its chunks.
  datatype RanSession = RanSession(settings: Settings, chunks: seq<Chunk>)

  // Every execution row that was added was added by a chunk of one of the sessions.
  ghost predicate AllActed(t0: Tables, t: Tables, sessions: seq<RanSession>) {
    && t0.executions.Keys <= t.executions.Keys
    && forall k :: k in t.executions && k !in t0.executions ==>
         exists i :: 0 <= i < |sessions| && ActedDuring(sessions[i], k)
  }

  ghost predicate ActedDuring(session: RanSession, k: RowKey) {
    exists i :: 0 <= i < |session.chunks| && ActedIn(session.settings, session.chunks[i], k)
  }

  lemma ActedMore(t0: Tables, t: Tables, t': Tables, sessions: seq<RanSession>, last: RanSession)
    requires AllActed(t0, t, sessions) && AllActedIn(t, t', last.settings, last.chunks)
    ensures AllActed(t0, t', sessions + [last])
  {
    var more := sessions + [last];
    forall k | k in t'.executions && k !in t0.executions
      ensures exists i :: 0 <= i < |more| && ActedDuring(more[i], k)
    {
      if k in t.executions {
        var i :| 0 <= i < |sessions| && ActedDuring(sessions[i], k);
        assert ActedDuring(more[i], k);
      } else {
        assert ActedDuring(more[|sessions|], k);
      }
    }
  }

  // What a session will find may depend on the tables it finds; whatever they are, it makes progress.
  ghost predicate AllPlanned(plans: seq<Tables -> Plan>) {
    forall i, t :: 0 <= i < |plans| ==> plans[i](t).Valid(t)
  }

  // Over any number of Gmail and Yahoo sessions, whatever each of them finds: every cleanup call since the store
  // began was authorised, none was repeated unless the process stopped right after it, only proposals were acted
  // on, every record is true of the provider calls of its session, and the file holds the latest of them.
  method RunSessions(store: PreferenceStore, file: DiagnosticFile, plans: seq<Tables -> Plan>)
    returns (records: seq<Diagnostic>, ghost marks: seq<nat>, ghost sessions: seq<RanSession>)
    requires store.Settled() && AllPlanned(plans)
    modifies store, file
    ensures store.Settled() && old(store.trace) <= store.trace && Safe(store.start, store.trace)
    ensures |records| == |plans| && AllTell(records, store.trace, marks)
    ensures marks[0] == |old(store.trace)| && marks[|plans|] == |store.trace|
    ensures AllActed(old(store.Contents()), store.Contents(), sessions)
    ensures file.lines == AppendAll(old(file.lines), records)
  {
    records, marks, sessions := [], [|store.trace|], [];
    var i := 0;
    while i < |plans|
      invariant 0 <= i <= |plans| && store.Settled() && old(store.trace) <= store.trace
      invariant |records| == i && AllTell(records, store.trace, marks)
      invariant marks[0] == |old(store.trace)| && marks[i] == |store.trace|
      invariant AllActed(old(store.Contents()), store.Contents(), sessions)
      invariant file.lines == AppendAll(old(file.lines), records)
    {
      ghost var earlier, t := store.trace, store.Contents();
      var plan := plans[i](store.Contents());
      var completed, summary, record;
      ghost var reports, chunks;
      completed, summary, record, reports, chunks := ExecuteScan(store, plan);
      TellsMore(records, earlier, marks, record, store.trace);
      ActedMore(old(store.Contents()), t, store.Contents(), sessions, RanSession(Chunked(plan.settings), chunks));
      AppendOne(old(file.lines), records, record);
      file.Append(record);
      records, marks := records + [record], marks + [|store.trace|];
      sessions := sessions + [RanSession(Chunked(plan.settings), chunks)];
      i := i + 1;
    }
    EveryTraceIsSafe(store.start, store.trace);
  }

  lemma AppendOne(lines: seq<Line>, records: seq<Diagnostic>, record: Diagnostic)
    ensures AppendAll(AppendAll(lines, records), [record]) == AppendAll(lines, records + [record])
  {
    assert (records + [record])[..|records|] == records;
    assert [record][..0] == [];
  }

  // ... also when an earlier process was stopped at any point of its history, with its tables on disk.
  method ResumeAfterCrash(
    t: Tables, ghost was: Machine, ghost past: seq<Action>, file: DiagnosticFile, plans: seq<Tables -> Plan>)
    returns (store: PreferenceStore, records: seq<Diagnostic>, ghost marks: seq<nat>, ghost sessions: seq<RanSession>)
    requires Permitted(was, past) && Sound(was.tables) && t == After(was, past).tables && AllPlanned(plans)
    modifies file
    ensures store.Settled() && store.start == was && past + [Stop] <= store.trace && Safe(was, store.trace)
    ensures |records| == |plans| && AllTell(records, store.trace, marks) && marks[0] == |past| + 1
    ensures AllActed(t, store.Contents(), sessions) && file.lines == AppendAll(old(file.lines), records)
  {
    store := new PreferenceStore.AfterCrash(t, was, past);
    records, marks, sessions := RunSessions(store, file, plans);
  }
}
