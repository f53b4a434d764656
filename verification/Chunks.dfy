/** desktop_worker.py: what the chunks of an unlimited session scan, one after the other, and how that is counted. */
module Chunks {
  import opened Mail
  import opened Ledger
  import opened Scan
  import opened UnlimitedSession
  import opened Batch
  import opened Runs

  // The mail of a session, by the search that finds it.
  datatype Pool = Pool(codes: set<MessageKey>, access: set<MessageKey>, unread: set<MessageKey>)
  {
    function All(): set<MessageKey> { codes + access + unread }

    predicate Disjoint() { codes !! access && codes !! unread && access !! unread }

    // How much of it is in a set, and how much is not.
    function Among(ms: set<MessageKey>): Sizes { Sizes(|codes * ms|, |access * ms|, |unread * ms|) }

    function Without(done: set<MessageKey>): Sizes { Sizes(|codes - done|, |access - done|, |unread - done|) }
  }

  lemma AtMost(s: seq<MessageKey>, ms: set<MessageKey>)
    requires NoDuplicates(s) && forall k :: k in s ==> k in ms
    ensures |s| <= |ms|
  {
    ElementsSize(s);
    SubsetSize(Elements(s), ms);
  }

  // ---- the history of a session ----

  // One chunk: what it was supplied with, what it scanned, what the session was done with before and after, and the
  // tables it found and left.
  datatype Chunk = Chunk(
    supply: Supply, before: set<MessageKey>, batch: seq<MessageKey>, after: set<MessageKey>, found: Tables,
    tables: Tables)

  ghost predicate ChunkStep(s: Settings, c: Chunk) {
    && c.supply.Valid() && ScanOf(s, c.supply.box, c.before) == Scanned(c.batch)
    && c.after == c.before + SettledOf(s, c.supply, c.batch)
  }

  // What the session is done with before its chunk i, or at the end.
  function DoneAt(first: set<MessageKey>, chunks: seq<Chunk>, i: nat): set<MessageKey>
    requires i <= |chunks|
  {
    if i == 0 then first else chunks[i - 1].after
  }

  // The chunks of a session, one after the other.
  ghost predicate SessionHistory(s: Settings, first: set<MessageKey>, chunks: seq<Chunk>) {
    forall i :: 0 <= i < |chunks| ==> StepAt(s, first, chunks, i)
  }

  ghost predicate StepAt(s: Settings, first: set<MessageKey>, chunks: seq<Chunk>, i: nat)
    requires i < |chunks|
  {
    ChunkStep(s, chunks[i]) && chunks[i].before == DoneAt(first, chunks, i)
  }

  lemma HistoryGrows(s: Settings, first: set<MessageKey>, chunks: seq<Chunk>, c: Chunk)
    requires SessionHistory(s, first, chunks) && ChunkStep(s, c) && c.before == DoneAt(first, chunks, |chunks|)
    ensures SessionHistory(s, first, chunks + [c]) && DoneAt(first, chunks + [c], |chunks| + 1) == c.after
  {
    forall i | 0 <= i < |chunks + [c]| ensures StepAt(s, first, chunks + [c], i) {
      if i < |chunks| {
        assert StepAt(s, first, chunks, i);
      }
    }
  }

  lemma StepBounds(s: Settings, first: set<MessageKey>, chunks: seq<Chunk>, i: nat)
    requires SessionHistory(s, first, chunks) && i < |chunks|
    ensures chunks[i].before == DoneAt(first, chunks, i) <= DoneAt(first, chunks, i + 1) == chunks[i].after
  {
    assert StepAt(s, first, chunks, i);
  }

  lemma {:induction false} DoneStaysDone(s: Settings, first: set<MessageKey>, chunks: seq<Chunk>, i: nat, j: nat)
    requires SessionHistory(s, first, chunks) && i <= j <= |chunks|
    ensures DoneAt(first, chunks, i) <= DoneAt(first, chunks, j)
    decreases j - i
  {
    if i < j {
      DoneStaysDone(s, first, chunks, i, j - 1);
      StepBounds(s, first, chunks, j - 1);
    }
  }

  lemma DoneBetween(s: Settings, first: set<MessageKey>, chunks: seq<Chunk>, i: nat, j: nat)
    requires SessionHistory(s, first, chunks) && i < j < |chunks|
    ensures chunks[i].after <= chunks[j].before
  {
    StepBounds(s, first, chunks, i);
    StepBounds(s, first, chunks, j);
    DoneStaysDone(s, first, chunks, i + 1, j);
  }

  // Each message is processed once: two chunks of a session share only messages that the earlier one did not
  // settle - because no model classified them or because their marker failed.
  lemma ProcessedOnce(s: Settings, first: set<MessageKey>, chunks: seq<Chunk>, i: nat, j: nat, m: MessageKey)
    requires SessionHistory(s, first, chunks) && i < j < |chunks| && m in chunks[i].batch && m in chunks[j].batch
    ensures NoDuplicates(chunks[i].batch) && chunks[i].supply.Valid() && !Settles(s, chunks[i].supply, m)
  {
    DoneBetween(s, first, chunks, i, j);
    assert StepAt(s, first, chunks, i) && StepAt(s, first, chunks, j);
    StepIsNew(s, chunks[i], m);
    StepIsNew(s, chunks[j], m);
  }

  lemma StepIsNew(s: Settings, c: Chunk, m: MessageKey)
    requires ChunkStep(s, c) && m in c.batch
    ensures NoDuplicates(c.batch) && m !in c.before && (m in c.after <==> Settles(s, c.supply, m))
  {
    ScannedMessages(s, c.supply.box, c.before);
  }

  // ---- what a session processes ----

  // The batches of the chunks, laid end to end.
  function Laid(chunks: seq<Chunk>): (laid: seq<MessageKey>) {
    if chunks == [] then [] else Laid(chunks[..|chunks| - 1]) + chunks[|chunks| - 1].batch
  }

  ghost predicate BatchSettles(s: Settings, c: Chunk) {
    c.supply.Valid() && forall m :: m in c.batch ==> Settles(s, c.supply, m)
  }

  lemma PrefixOfHistory(s: Settings, first: set<MessageKey>, chunks: seq<Chunk>, n: nat)
    requires SessionHistory(s, first, chunks) && n <= |chunks|
    ensures SessionHistory(s, first, chunks[..n]) && DoneAt(first, chunks[..n], n) == DoneAt(first, chunks, n)
  {
    forall i | 0 <= i < n ensures StepAt(s, first, chunks[..n], i) {
      assert StepAt(s, first, chunks, i);
    }
  }

  // One more chunk, all of whose messages settle.
  lemma LaidOneMore(s: Settings, first: set<MessageKey>, laid: seq<MessageKey>, c: Chunk)
    requires ChunkStep(s, c) && BatchSettles(s, c) && first <= c.before
    requires NoDuplicates(laid) && Elements(laid) == c.before - first
    ensures NoDuplicates(laid + c.batch) && Elements(laid + c.batch) == c.after - first
  {
    var more := laid + c.batch;
    ScannedMessages(s, c.supply.box, c.before);
    assert forall m :: m in more <==> m in Elements(laid) || m in c.batch;
    forall i, j | 0 <= i < j < |more| ensures more[i] != more[j] {
      if i < |laid| <= j {
        assert more[i] in Elements(laid) && more[j] in c.batch;
      }
    }
  }

  // When everything that is scanned settles, the batches hold exactly what the session became done with, each
  // message once.
  lemma {:induction false} LaidIsSettled(s: Settings, first: set<MessageKey>, chunks: seq<Chunk>)
    requires SessionHistory(s, first, chunks) && forall i :: 0 <= i < |chunks| ==> BatchSettles(s, chunks[i])
    ensures NoDuplicates(Laid(chunks)) && Elements(Laid(chunks)) == DoneAt(first, chunks, |chunks|) - first
    decreases |chunks|
  {
    if chunks != [] {
      var n := |chunks| - 1;
      var c, before := chunks[n], chunks[..n];
      PrefixOfHistory(s, first, chunks, n);
      LaidIsSettled(s, first, before);
      assert StepAt(s, first, chunks, n) && BatchSettles(s, c);
      DoneStaysDone(s, first, chunks, 0, n);
      LaidOneMore(s, first, Laid(before), c);
    }
  }

  // ---- how much a chunk scans ----

  // The searches list each message once, in one search, with the read state it has, and of this account alone.
  ghost predicate Orderly(s: Settings, box: Mailbox) {
    && NoDuplicates(box.codes) && NoDuplicates(box.access) && NoDuplicates(box.unread)
    && Listed(s, box, box.codes, false) && Listed(s, box, box.access, false) && Listed(s, box, box.unread, true)
    && (forall k :: k in box.codes ==> k !in box.access && k !in box.unread)
    && (forall k :: k in box.access ==> k !in box.unread)
  }

  ghost predicate Listed(s: Settings, box: Mailbox, ids: seq<MessageKey>, unread: bool) {
    forall k :: k in ids ==> Own(k, s) && box.fetch(k).unread == unread
  }

  lemma {:induction false} EvaluateAll(s: Settings, batch: seq<MessageKey>, found: seq<MessageKey>)
    requires NoDuplicates(found) && forall k :: k in found ==> Own(k, s) && k !in batch
    ensures Evaluate(s, batch, found) == Scanned(batch + found)
  {
    if found != [] {
      var fewer, k := found[..|found| - 1], found[|found| - 1];
      EvaluateAll(s, batch, fewer);
      assert batch + found == batch + fewer + [k];
      assert k in found && k !in fewer;
    } else {
      assert batch + found == batch;
    }
  }

  // A part of a scan: messages of one search, each once, as many as the quota lets through.
  ghost predicate Part(
    box: Mailbox, unread: bool, ids: seq<MessageKey>, done: set<MessageKey>, quota: nat, part: seq<MessageKey>)
  {
    && NoDuplicates(part) && |part| == Min(|Left(box, unread, ids, done)|, quota)
    && forall k :: k in part ==> k in ids && k !in done
  }

  lemma SearchFinds(
    s: Settings, box: Mailbox, unread: bool, ids: seq<MessageKey>, quota: nat, done: set<MessageKey>,
    batch: seq<MessageKey>)
    returns (part: seq<MessageKey>)
    requires NoDuplicates(ids) && Listed(s, box, ids, unread) && forall k :: k in ids ==> k !in batch
    ensures Search(s, box, unread, ids, quota, done, batch) == Scanned(batch + part)
    ensures Part(box, unread, ids, done, quota, part)
  {
    LeftIsUndone(box, unread, ids, done);
    part := Take(Left(box, unread, ids, done), quota);
    assert forall k :: k in part ==> k in Left(box, unread, ids, done);
    EvaluateAll(s, batch, part);
  }

  lemma CodesFound(s: Settings, l: Limits, box: Mailbox, done: set<MessageKey>) returns (codes: seq<MessageKey>)
    requires Orderly(s, box) && l == LimitsFor(s.limit)
    ensures CodesScan(s, box, done) == Scanned(codes) && Part(box, false, box.codes, done, l.codes, codes)
  {
    codes := SearchFinds(s, box, false, box.codes, l.codes, done, []);
    assert [] + codes == codes;
  }

  lemma AccessFound(s: Settings, l: Limits, box: Mailbox, done: set<MessageKey>, batch: seq<MessageKey>)
    returns (access: seq<MessageKey>)
    requires Orderly(s, box) && l == LimitsFor(s.limit)
    requires |batch| <= s.limit && forall k :: k in batch ==> k !in box.access
    ensures AccessScan(s, box, done, batch) == Scanned(batch + access)
    ensures Part(box, false, box.access, done, Min(s.limit - |batch|, l.access), access)
  {
    access := SearchFinds(s, box, false, box.access, Min(s.limit - |batch|, l.access), done, batch);
    if |batch| == s.limit {
      assert batch + access == batch;
    }
  }

  lemma UnreadFound(s: Settings, box: Mailbox, done: set<MessageKey>, batch: seq<MessageKey>)
    returns (unread: seq<MessageKey>)
    requires Orderly(s, box) && |batch| <= s.limit && forall k :: k in batch ==> k !in box.unread
    ensures UnreadScan(s, box, done, batch) == Scanned(batch + unread)
    ensures Part(box, true, box.unread, done, s.limit - |batch|, unread)
  {
    unread := SearchFinds(s, box, true, box.unread, s.limit - |batch|, done, batch);
    if |batch| == s.limit {
      assert batch + unread == batch;
    }
  }

  function LeftSizes(box: Mailbox, done: set<MessageKey>): Sizes {
    Sizes(|Left(box, false, box.codes, done)|, |Left(box, false, box.access, done)|,
          |Left(box, true, box.unread, done)|)
  }

  // An orderly scan: the three searches under their quotas, one after the other, with the sizes of the counting
  // model.
  lemma OrderlyScan(s: Settings, l: Limits, box: Mailbox, done: set<MessageKey>)
    returns (codes: seq<MessageKey>, access: seq<MessageKey>, unread: seq<MessageKey>)
    requires Orderly(s, box) && 1 <= s.limit <= s.maximum && l == LimitsFor(s.limit) && l.Valid()
    ensures ScanOf(s, box, done) == Scanned(codes + access + unread)
    ensures Part(box, false, box.codes, done, |codes|, codes) && Part(box, false, box.access, done, |access|, access)
    ensures Part(box, true, box.unread, done, |unread|, unread)
    ensures Sizes(|codes|, |access|, |unread|) == Taken(l, LeftSizes(box, done))
  {
    codes := CodesFound(s, l, box, done);
    access := AccessFound(s, l, box, done, codes);
    unread := UnreadFound(s, box, done, codes + access);
    PartSizes(l, LeftSizes(box, done), |codes|, |access|, |unread|);
  }

  lemma PartSizes(l: Limits, n: Sizes, codes: nat, access: nat, unread: nat)
    requires l.Valid() && codes == Min(n.codes, l.codes)
    requires codes <= l.chunk && access == Min(n.access, Min(l.chunk - codes, l.access))
    requires codes + access <= l.chunk && unread == Min(n.unread, l.chunk - codes - access)
    ensures Sizes(codes, access, unread) == Taken(l, n)
  {
  }

  // The size of a chunk is that of the counting model.
  lemma ScanSize(s: Settings, l: Limits, box: Mailbox, done: set<MessageKey>)
    requires Orderly(s, box) && 1 <= s.limit <= s.maximum && l == LimitsFor(s.limit) && l.Valid()
    ensures ScanOf(s, box, done).Scanned? && |ScanOf(s, box, done).keys| == Taken(l, LeftSizes(box, done)).Total()
  {
    var codes, access, unread := OrderlyScan(s, l, box, done);
  }

  // ---- how many chunks a session takes ----

  // The searches list the mail of the pool, though they may leave out what the session is done with.
  ghost predicate Offers(s: Settings, box: Mailbox, pool: Pool, done: set<MessageKey>) {
    && Orderly(s, box)
    && forall k :: k !in done ==>
         && (k in box.codes <==> k in pool.codes) && (k in box.access <==> k in pool.access)
         && (k in box.unread <==> k in pool.unread)
  }

  lemma LeftIsWithout(s: Settings, box: Mailbox, unread: bool, ids: seq<MessageKey>, pool: set<MessageKey>,
                      done: set<MessageKey>)
    requires NoDuplicates(ids) && Listed(s, box, ids, unread) && forall k :: k !in done ==> (k in ids <==> k in pool)
    ensures |Left(box, unread, ids, done)| == |pool - done|
  {
    LeftIsUndone(box, unread, ids, done);
    ElementsSize(Left(box, unread, ids, done));
    assert Elements(Left(box, unread, ids, done)) == pool - done;
  }

  // What is left of one part of the pool once a part of the batch is done.
  lemma Removed(pool: set<MessageKey>, done: set<MessageKey>, batch: set<MessageKey>, part: seq<MessageKey>)
    requires NoDuplicates(part) && forall k :: k in part <==> k in batch && k in pool && k !in done
    ensures |pool - (done + batch)| == |pool - done| - |part|
  {
    ElementsSize(part);
    assert pool - done == (pool - (done + batch)) + Elements(part);
    assert (pool - (done + batch)) !! Elements(part);
  }

  // What is left of the pool once a batch is done, by the search that found the messages.
  lemma PartsRemoved(
    pool: Pool, done: set<MessageKey>, codes: seq<MessageKey>, access: seq<MessageKey>, unread: seq<MessageKey>)
    requires pool.Disjoint() && NoDuplicates(codes) && NoDuplicates(access) && NoDuplicates(unread)
    requires forall k :: k in codes ==> k in pool.codes && k !in done
    requires forall k :: k in access ==> k in pool.access && k !in done
    requires forall k :: k in unread ==> k in pool.unread && k !in done
    ensures var left, n := pool.Without(done + Elements(codes + access + unread)), pool.Without(done);
      && left.codes == n.codes - |codes| && left.access == n.access - |access| && left.unread == n.unread - |unread|
  {
    var keys := codes + access + unread;
    assert forall k :: k in keys <==> k in codes || k in access || k in unread;
    Removed(pool.codes, done, Elements(keys), codes);
    Removed(pool.access, done, Elements(keys), access);
    Removed(pool.unread, done, Elements(keys), unread);
  }

  lemma OffersLeft(s: Settings, box: Mailbox, pool: Pool, done: set<MessageKey>)
    requires Offers(s, box, pool, done)
    ensures LeftSizes(box, done) == pool.Without(done)
  {
    LeftIsWithout(s, box, false, box.codes, pool.codes, done);
    LeftIsWithout(s, box, false, box.access, pool.access, done);
    LeftIsWithout(s, box, true, box.unread, pool.unread, done);
  }

  // The parts of a chunk over a pool.
  lemma ChunkParts(s: Settings, l: Limits, box: Mailbox, pool: Pool, done: set<MessageKey>)
    returns (codes: seq<MessageKey>, access: seq<MessageKey>, unread: seq<MessageKey>)
    requires Offers(s, box, pool, done) && 1 <= s.limit <= s.maximum && l == LimitsFor(s.limit) && l.Valid()
    ensures ScanOf(s, box, done) == Scanned(codes + access + unread)
    ensures NoDuplicates(codes) && NoDuplicates(access) && NoDuplicates(unread)
    ensures forall k :: k in codes ==> k in pool.codes && k !in done
    ensures forall k :: k in access ==> k in pool.access && k !in done
    ensures forall k :: k in unread ==> k in pool.unread && k !in done
    ensures Sizes(|codes|, |access|, |unread|) == Taken(l, pool.Without(done))
  {
    OffersLeft(s, box, pool, done);
    codes, access, unread := OrderlyScan(s, l, box, done);
  }

  // One chunk over a pool: its size, and what is left of the pool once all of it is settled.
  lemma ChunkTakes(s: Settings, l: Limits, box: Mailbox, pool: Pool, done: set<MessageKey>, keys: seq<MessageKey>)
    requires Offers(s, box, pool, done) && pool.Disjoint() && 1 <= s.limit <= s.maximum
    requires l == LimitsFor(s.limit) && l.Valid() && ScanOf(s, box, done) == Scanned(keys)
    ensures forall k :: k in keys ==> k in pool.All()
    ensures Step(l, pool.Without(done), |keys|, pool.Without(done + Elements(keys)))
  {
    var codes, access, unread := ChunkParts(s, l, box, pool, done);
    PartsRemoved(pool, done, codes, access, unread);
  }

  // A session over a pool of mail that all settles.
  ghost predicate Settling(s: Settings, first: set<MessageKey>, chunks: seq<Chunk>, pool: Pool) {
    && SessionHistory(s, first, chunks) && pool.Disjoint() && 1 <= s.limit <= s.maximum
    && forall i :: 0 <= i < |chunks| ==>
         Offers(s, chunks[i].supply.box, pool, chunks[i].before) && AllSettles(s, chunks[i].supply, pool)
  }

  ghost predicate AllSettles(s: Settings, supply: Supply, pool: Pool) {
    supply.Valid() && forall m :: m in pool.All() ==> Settles(s, supply, m)
  }

  // The last chunk, and no other, was short.
  ghost predicate Ended(s: Settings, chunks: seq<Chunk>) {
    chunks != [] && forall i :: 0 <= i < |chunks| ==> (|chunks[i].batch| < s.limit <==> i == |chunks| - 1)
  }

  // Chunk by chunk a session does what the counting model says.
  lemma ChunkFollowsCounts(s: Settings, l: Limits, c: Chunk, pool: Pool)
    requires ChunkStep(s, c) && Offers(s, c.supply.box, pool, c.before) && AllSettles(s, c.supply, pool)
    requires pool.Disjoint() && 1 <= s.limit <= s.maximum && l == LimitsFor(s.limit) && l.Valid()
    ensures Step(l, pool.Without(c.before), |c.batch|, pool.Without(c.after))
  {
    ChunkTakes(s, l, c.supply.box, pool, c.before, c.batch);
    assert SettledOf(s, c.supply, c.batch) == Elements(c.batch);
  }

  // What is left before each chunk and at the end.
  function LeftsOf(first: set<MessageKey>, chunks: seq<Chunk>, pool: Pool): seq<Sizes> {
    seq(|chunks| + 1, i requires 0 <= i <= |chunks| => pool.Without(DoneAt(first, chunks, i)))
  }

  function BatchSizes(chunks: seq<Chunk>): seq<nat> { seq(|chunks|, i requires 0 <= i < |chunks| => |chunks[i].batch|) }

  lemma RunAtChunk(s: Settings, l: Limits, first: set<MessageKey>, chunks: seq<Chunk>, pool: Pool, i: nat)
    requires Settling(s, first, chunks, pool) && l == LimitsFor(s.limit) && l.Valid() && i < |chunks|
    ensures RunAt(l, LeftsOf(first, chunks, pool), BatchSizes(chunks), i)
  {
    assert StepAt(s, first, chunks, i) && AllSettles(s, chunks[i].supply, pool);
    ChunkFollowsCounts(s, l, chunks[i], pool);
    assert LeftsOf(first, chunks, pool)[i] == pool.Without(chunks[i].before);
    assert LeftsOf(first, chunks, pool)[i + 1] == pool.Without(chunks[i].after);
  }

  // Chunk by chunk the session is a run of the counting model.
  lemma SessionIsARun(s: Settings, l: Limits, first: set<MessageKey>, chunks: seq<Chunk>, pool: Pool)
    requires Settling(s, first, chunks, pool) && l == LimitsFor(s.limit) && l.Valid()
    ensures Run(l, LeftsOf(first, chunks, pool), BatchSizes(chunks))
  {
    forall i | 0 <= i < |chunks| ensures RunAt(l, LeftsOf(first, chunks, pool), BatchSizes(chunks), i) {
      RunAtChunk(s, l, first, chunks, pool, i);
    }
  }

  // Every session over the same mail, all of which settles, takes the same number of chunks and leaves the same
  // numbers of messages behind: those of the counting model, whatever the order of the searches.
  lemma EverySessionHasTheSameLength(s: Settings, l: Limits, first: set<MessageKey>, chunks: seq<Chunk>, pool: Pool)
    requires Settling(s, first, chunks, pool) && l == LimitsFor(s.limit) && l.Valid() && Ended(s, chunks)
    ensures |chunks| == Batches(l, pool.Without(first))
    ensures pool.Without(DoneAt(first, chunks, |chunks|)) == Leftover(l, pool.Without(first))
  {
    var lefts, sizes := LeftsOf(first, chunks, pool), BatchSizes(chunks);
    SessionIsARun(s, l, first, chunks, pool);
    assert lefts[0] == pool.Without(first);
    assert forall i :: 0 <= i < |sizes| ==> (sizes[i] < l.chunk <==> i == |sizes| - 1);
    RunLength(l, lefts, sizes);
  }

  // The session reports an exhausted mailbox.  All of the mail was done by then exactly when the sizes say so: q
  // chunks can be full, for q the number of messages divided by the chunk size, and the read mail fits the quotas
  // of one more.
  lemma ExhaustedExactlyWhen(
    s: Settings, l: Limits, first: set<MessageKey>, chunks: seq<Chunk>, pool: Pool, n: Sizes, q: nat)
    requires Settling(s, first, chunks, pool) && Ended(s, chunks)
    requires l == LimitsFor(s.limit) && s.limit >= 2 && n == pool.Without(first) && q == n.Total() / l.chunk
    ensures pool.All() <= DoneAt(first, chunks, |chunks|) <==> QuotasFit(l, n, q + 1) && Fills(l, n, q)
  {
    ChunksOfTwoAreRoomy(s.limit);
    EverySessionHasTheSameLength(s, l, first, chunks, pool);
    ExhaustedExactlyWhenQuotasFit(l, n, q);
    NothingLeft(pool, DoneAt(first, chunks, |chunks|));
  }

  lemma NothingLeft(pool: Pool, done: set<MessageKey>)
    ensures pool.All() <= done <==> pool.Without(done) == Sizes(0, 0, 0)
  {
    if pool.All() <= done {
      assert pool.codes - done == {} && pool.access - done == {} && pool.unread - done == {};
    } else {
      var k :| k in pool.All() && k !in done;
      assert k in pool.codes - done || k in pool.access - done || k in pool.unread - done;
    }
  }
}
