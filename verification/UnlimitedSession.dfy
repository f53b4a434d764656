/** The unlimited session of desktop_worker.py: when it ends, how many chunks it takes, and what it leaves
 * behind.
 *
 * A chunk scans at most so many messages through the three searches of run_shadow_scan (pipeline.py): read
 * one-time codes and read access alerts under their quotas, old unread mail with what is left.
 */
module UnlimitedSession {
  import opened Mail

  // Eligible messages, by the search that finds them.
  datatype Sizes = Sizes(codes: nat, access: nat, unread: nat)
  {
    function Total(): nat { codes + access + unread }

    predicate Within(other: Sizes) { codes <= other.codes && access <= other.access && unread <= other.unread }
  }

  // The size of a chunk and the two quotas within it.
  datatype Limits = Limits(chunk: nat, codes: nat, access: nat)
  {
    predicate Valid() { 0 < chunk && codes <= chunk }

    // Whether the two quotas fit side by side.
    predicate Roomy() { 0 < chunk && codes + access <= chunk }
  }

  function LimitsFor(chunk: nat): Limits {
    Limits(chunk, if chunk / 5 >= 1 then chunk / 5 else 1, if chunk / 10 >= 1 then chunk / 10 else 1)
  }

  lemma ChunksOfTwoAreRoomy(chunk: nat)
    ensures chunk > 0 ==> LimitsFor(chunk).Valid()
    ensures LimitsFor(chunk).Roomy() <==> chunk >= 2
  {
  }

  // A fifth of the places for read codes and a tenth for read access alerts, but one place at least.
  lemma QuotasOfAChunk(chunk: nat)
    ensures var l := LimitsFor(chunk);
      && l.chunk == chunk && l.codes >= 1 && l.access >= 1
      && (l.codes > 1 ==> 5 * l.codes <= chunk) && chunk < 5 * (l.codes + 1)
      && (l.access > 1 ==> 10 * l.access <= chunk) && chunk < 10 * (l.access + 1)
  {
  }

  // How many messages of each kind one chunk takes.
  function Taken(l: Limits, n: Sizes): (t: Sizes)
    requires l.Valid()
    ensures t.Within(n) && t.Total() <= l.chunk
  {
    var codes := Min(n.codes, l.codes);
    var access := Min(n.access, Min(l.chunk - codes, l.access));
    Sizes(codes, access, Min(n.unread, l.chunk - codes - access))
  }

  // A chunk is full exactly when the quotas and the unread mail together can fill it.
  lemma FullChunk(l: Limits, n: Sizes)
    requires l.Valid()
    ensures Taken(l, n).Total() <= l.chunk
    ensures Taken(l, n).Total() == Min(l.chunk, Min(n.codes, l.codes) + Min(n.access, l.access) + n.unread)
  {
  }

  function Remaining(n: Sizes, t: Sizes): Sizes
    requires t.Within(n)
  {
    Sizes(n.codes - t.codes, n.access - t.access, n.unread - t.unread)
  }

  // ---- the session when every scanned message completes ----

  function Batches(l: Limits, n: Sizes): (b: nat)
    requires l.Valid()
    ensures b >= 1
    decreases n.Total()
  {
    var t := Taken(l, n);
    if t.Total() < l.chunk then 1 else 1 + Batches(l, Remaining(n, t))
  }

  // The eligible messages the session never looked at.
  function Leftover(l: Limits, n: Sizes): (left: Sizes)
    requires l.Valid()
    decreases n.Total()
  {
    var t := Taken(l, n);
    if t.Total() < l.chunk then Remaining(n, t) else Leftover(l, Remaining(n, t))
  }

  // What b chunks can reach at most.
  function Reach(l: Limits, n: Sizes, b: nat): nat {
    n.unread + Min(n.codes, b * l.codes) + Min(n.access, b * l.access)
  }

  // b chunks can all be full.
  predicate Fills(l: Limits, n: Sizes, b: nat) { Reach(l, n, b) >= b * l.chunk }

  lemma OneMoreTimes(b: nat, q: nat)
    ensures (b + 1) * q == b * q + q
  {
  }

  lemma MinOfOneMore(n: nat, q: nat, b: nat)
    ensures Min(n, (b + 1) * q) == Min(n, q) + Min(n - Min(n, q), b * q)
  {
    OneMoreTimes(b, q);
  }

  lemma ReachOfOneMore(l: Limits, n: Sizes, b: nat)
    requires l.Roomy() && Taken(l, n).Total() >= l.chunk
    ensures Reach(l, n, b + 1) == l.chunk + Reach(l, Remaining(n, Taken(l, n)), b)
    ensures Fills(l, n, b + 1) <==> Fills(l, Remaining(n, Taken(l, n)), b)
  {
    MinOfOneMore(n.codes, l.codes, b);
    MinOfOneMore(n.access, l.access, b);
    OneMoreTimes(b, l.chunk);
  }

  lemma ReachOfOne(l: Limits, n: Sizes)
    requires l.Roomy()
    ensures Fills(l, n, 1) <==> Taken(l, n).Total() >= l.chunk
    ensures Taken(l, n).Total() < l.chunk ==> Taken(l, n).Total() == Reach(l, n, 1)
  {
    assert 1 * l.codes == l.codes && 1 * l.access == l.access;
    FullChunk(l, n);
  }

  // The exact length of the session: the least b >= 1 such that b chunks cannot all be full.
  lemma {:induction false} SessionLength(l: Limits, n: Sizes)
    requires l.Roomy()
    ensures !Fills(l, n, Batches(l, n))
    ensures forall b :: 1 <= b < Batches(l, n) ==> Fills(l, n, b)
    decreases n.Total()
  {
    ReachOfOne(l, n);
    var t := Taken(l, n);
    if t.Total() >= l.chunk {
      var rest := Remaining(n, t);
      SessionLength(l, rest);
      ReachOfOneMore(l, n, Batches(l, rest));
      forall b | 1 < b < 1 + Batches(l, rest) ensures Fills(l, n, b) {
        ReachOfOneMore(l, n, b - 1);
      }
    }
  }

  // What it scans is all that so many chunks can reach.
  lemma {:induction false} SessionReach(l: Limits, n: Sizes)
    requires l.Roomy()
    ensures n.Total() - Leftover(l, n).Total() == Reach(l, n, Batches(l, n))
    decreases n.Total()
  {
    ReachOfOne(l, n);
    var t := Taken(l, n);
    if t.Total() >= l.chunk {
      SessionReach(l, Remaining(n, t));
      ReachOfOneMore(l, n, Batches(l, Remaining(n, t)));
    }
  }

  // The read mail of either kind fits the quotas of b chunks.
  predicate QuotasFit(l: Limits, n: Sizes, b: nat) {
    n.codes <= b * l.codes && n.access <= b * l.access
  }

  lemma ReachOfAll(l: Limits, n: Sizes, b: nat, left: Sizes)
    requires n.Total() - left.Total() == Reach(l, n, b)
    ensures left == Sizes(0, 0, 0) <==> QuotasFit(l, n, b)
  {
  }

  // What the chunks that were run leave behind.
  lemma LeftoverFits(l: Limits, n: Sizes)
    requires l.Roomy()
    ensures Leftover(l, n) == Sizes(0, 0, 0) <==> QuotasFit(l, n, Batches(l, n))
  {
    var b := Batches(l, n);
    var left := Leftover(l, n);
    assert n.Total() - left.Total() == Reach(l, n, b) by {
      SessionReach(l, n);
    }
    ReachOfAll(l, n, b, left);
  }

  lemma MoreTimes(a: nat, b: nat, c: nat)
    requires a <= b
    ensures a * c <= b * c
  {
  }

  lemma Quotient(t: nat, c: nat, q: nat)
    requires c > 0 && q * c <= t < (q + 1) * c
    ensures t / c == q
  {
    var r := t / c;
    assert r * c <= t < (r + 1) * c;
    if r < q {
      MoreTimes(r + 1, q, c);
    } else if q < r {
      MoreTimes(q + 1, r, c);
    }
  }

  lemma FewerFill(l: Limits, n: Sizes, b: nat)
    requires l.Roomy() && Fills(l, n, b + 1)
    ensures Fills(l, n, b)
  {
    OneMoreTimes(b, l.chunk);
    OneMoreTimes(b, l.codes);
    OneMoreTimes(b, l.access);
  }

  // Chunks that can all be full are no more than the mail divided by the chunk size.
  lemma FillsAtMost(l: Limits, n: Sizes, b: nat, q: nat)
    requires l.Roomy() && Fills(l, n, b) && n.Total() < (q + 1) * l.chunk
    ensures b <= q
  {
    if b > q {
      MoreTimes(q + 1, b, l.chunk);
    }
  }

  lemma {:induction false} FillsIsDownwardClosed(l: Limits, n: Sizes, b: nat, q: nat)
    requires l.Roomy() && Fills(l, n, q) && b <= q
    ensures Fills(l, n, b)
    decreases q - b
  {
    if b < q {
      FillsIsDownwardClosed(l, n, b + 1, q);
      FewerFill(l, n, b);
    }
  }

  lemma QuotientBounds(t: nat, c: nat)
    requires c > 0
    ensures t / c * c <= t < (t / c + 1) * c
  {
  }

  // A session has one chunk more than the quotient exactly when that many chunks can be full.
  lemma QuotientIsReached(l: Limits, n: Sizes, q: nat)
    requires l.Roomy() && q == n.Total() / l.chunk
    ensures Batches(l, n) <= q + 1
    ensures Batches(l, n) == q + 1 <==> Fills(l, n, q)
  {
    QuotientBounds(n.Total(), l.chunk);
    SessionLength(l, n);
    var b := Batches(l, n);
    if b > 1 {
      FillsAtMost(l, n, b - 1, q);
    }
    if Fills(l, n, q) && b <= q {
      FillsIsDownwardClosed(l, n, b, q);
    }
    if q == 0 {
      assert Fills(l, n, 0);
    }
  }

  lemma ShortOfAll(l: Limits, n: Sizes, b: nat, q: nat)
    requires l.Roomy() && q == n.Total() / l.chunk && QuotasFit(l, n, b) && !Fills(l, n, b)
    ensures b > q
  {
    QuotientBounds(n.Total(), l.chunk);
    if b <= q {
      MoreTimes(b, q, l.chunk);
    }
  }

  // The summary always reports the mailbox as exhausted.  It is so exactly when, with q the number of messages
  // divided by the chunk size, q chunks can be full and the read mail fits the quotas of one more.
  lemma ExhaustedExactlyWhenQuotasFit(l: Limits, n: Sizes, q: nat)
    requires l.Roomy() && q == n.Total() / l.chunk
    ensures Leftover(l, n) == Sizes(0, 0, 0) <==> QuotasFit(l, n, q + 1) && Fills(l, n, q)
  {
    var b := Batches(l, n);
    assert !Fills(l, n, b) by {
      SessionLength(l, n);
    }
    LeftoverFits(l, n);
    QuotientIsReached(l, n, q);
    if QuotasFit(l, n, b) {
      ShortOfAll(l, n, b, q);
      assert b == q + 1;
    } else {
      assert b == q + 1 ==> !QuotasFit(l, n, q + 1);
    }
  }

  // With read mail within one chunk's quotas nothing is left behind, ...
  lemma {:induction false} LittleReadMail(l: Limits, n: Sizes)
    requires l.Roomy() && n.codes <= l.codes && n.access <= l.access
    ensures JustPast(n.Total(), l.chunk, Batches(l, n))
    ensures Leftover(l, n) == Sizes(0, 0, 0)
    decreases n.Total()
  {
    FullChunk(l, n);
    var t := Taken(l, n);
    if t.Total() >= l.chunk {
      var rest := Remaining(n, t);
      LittleReadMail(l, rest);
      JustPastOneMore(rest.Total(), l.chunk, Batches(l, rest));
    } else {
      assert 1 * l.chunk == l.chunk && 0 * l.chunk == 0;
    }
  }

  // b chunks of size c are more than t messages need, and one fewer is not.
  predicate JustPast(t: nat, c: nat, b: nat) { b > 0 && (b - 1) * c <= t < b * c }

  lemma JustPastOneMore(t: nat, c: nat, b: nat)
    requires JustPast(t, c, b)
    ensures JustPast(t + c, c, b + 1)
  {
    OneMoreTimes(b - 1, c);
    OneMoreTimes(b, c);
  }

  // ... and N messages take floor(N / chunk) + 1 chunks.
  lemma QuotientPlusOneChunks(l: Limits, n: Sizes)
    requires l.Roomy() && n.codes <= l.codes && n.access <= l.access
    ensures Batches(l, n) == n.Total() / l.chunk + 1
  {
    LittleReadMail(l, n);
    OneMoreThanQuotient(n.Total(), l.chunk, Batches(l, n));
  }

  lemma OneMoreThanQuotient(t: nat, c: nat, b: nat)
    requires c > 0 && JustPast(t, c, b)
    ensures b == t / c + 1
  {
    Quotient(t, c, b - 1);
  }

  // A chunk size of one never meets its quotas: one message per chunk, then an empty one.
  lemma {:induction false} ChunksOfOne(n: Sizes)
    ensures Batches(LimitsFor(1), n) == n.Total() + 1 && Leftover(LimitsFor(1), n) == Sizes(0, 0, 0)
    decreases n.Total()
  {
    FullChunk(LimitsFor(1), n);
    if Taken(LimitsFor(1), n).Total() >= 1 {
      ChunksOfOne(Remaining(n, Taken(LimitsFor(1), n)));
    }
  }

  // 101 read codes and nothing else, at the chunk size of the program: one chunk, and a code left behind.
  lemma ReadCodesEndTheSessionEarly()
    ensures Batches(LimitsFor(500), Sizes(101, 0, 0)) == 1
      && Leftover(LimitsFor(500), Sizes(101, 0, 0)) == Sizes(1, 0, 0)
  {
    assert Taken(LimitsFor(500), Sizes(101, 0, 0)) == Sizes(100, 0, 0);
  }

  // ... and the same with 51 read access alerts.
  lemma ReadAlertsEndTheSessionEarly(l: Limits, n: Sizes)
    requires l == LimitsFor(500) && n == Sizes(0, 51, 0)
    ensures Batches(l, n) == 1 && Leftover(l, n) == Sizes(0, 1, 0)
  {
    assert l == Limits(500, 100, 50) && Taken(l, n) == Sizes(0, 50, 0);
  }

  // ---- full chunks ----

  predicate FullSized(l: Limits, n: Sizes)
    requires l.Valid()
  {
    Taken(l, n).Total() == l.chunk
  }

  lemma MoreMailFillsMore(l: Limits, n: Sizes, m: Sizes)
    requires l.Valid() && n.Within(m)
    ensures FullSized(l, n) ==> FullSized(l, m)
  {
    FullChunk(l, n);
    FullChunk(l, m);
  }

  // ---- one run, chunk by chunk ----

  // What is left after k chunks.
  function AfterChunks(l: Limits, n: Sizes, k: nat): Sizes
    requires l.Valid()
  {
    if k == 0 then n else var m := AfterChunks(l, n, k - 1); Remaining(m, Taken(l, m))
  }

  // How many messages chunk k holds.
  function ChunkTotal(l: Limits, n: Sizes, k: nat): nat
    requires l.Valid()
  {
    Taken(l, AfterChunks(l, n, k)).Total()
  }

  lemma {:induction false} FullChunksSoFar(l: Limits, n: Sizes, k: nat)
    requires l.Valid() && forall i: nat :: i < k ==> ChunkTotal(l, n, i) == l.chunk
    ensures k + Batches(l, AfterChunks(l, n, k)) == Batches(l, n)
    ensures Leftover(l, AfterChunks(l, n, k)) == Leftover(l, n)
  {
    if k > 0 {
      FullChunksSoFar(l, n, k - 1);
      assert ChunkTotal(l, n, k - 1) == l.chunk;
    }
  }

  // The first short chunk is the last one.
  lemma ShortChunkEnds(l: Limits, n: Sizes, k: nat)
    requires l.Valid() && forall i: nat :: i < k ==> ChunkTotal(l, n, i) == l.chunk
    requires ChunkTotal(l, n, k) < l.chunk
    ensures k + 1 == Batches(l, n) && AfterChunks(l, n, k + 1) == Leftover(l, n)
  {
    FullChunksSoFar(l, n, k);
  }

  // One chunk whose messages all complete.
  ghost predicate Step(l: Limits, left: Sizes, size: nat, left': Sizes)
    requires l.Valid()
  {
    size == Taken(l, left).Total() && left' == Remaining(left, Taken(l, left))
  }

  // A run of such chunks: what is left before each of them, and their sizes.
  ghost predicate Run(l: Limits, lefts: seq<Sizes>, sizes: seq<nat>)
    requires l.Valid()
  {
    |lefts| == |sizes| + 1 && forall i :: 0 <= i < |sizes| ==> RunAt(l, lefts, sizes, i)
  }

  ghost predicate RunAt(l: Limits, lefts: seq<Sizes>, sizes: seq<nat>, i: nat)
    requires l.Valid() && i < |sizes| && |lefts| == |sizes| + 1
  {
    Step(l, lefts[i], sizes[i], lefts[i + 1])
  }

  lemma {:induction false} RunIsAfter(l: Limits, lefts: seq<Sizes>, sizes: seq<nat>, i: nat)
    requires l.Valid() && Run(l, lefts, sizes) && i <= |sizes|
    ensures lefts[i] == AfterChunks(l, lefts[0], i)
    ensures i > 0 ==> sizes[i - 1] == ChunkTotal(l, lefts[0], i - 1) <= l.chunk
  {
    if i > 0 {
      RunIsAfter(l, lefts, sizes, i - 1);
      assert RunAt(l, lefts, sizes, i - 1);
    }
  }

  // Every run that ended on its first short chunk has the same length and the same remainder.
  lemma RunLength(l: Limits, lefts: seq<Sizes>, sizes: seq<nat>)
    requires l.Valid() && Run(l, lefts, sizes) && sizes != []
    requires forall i :: 0 <= i < |sizes| ==> (sizes[i] < l.chunk <==> i == |sizes| - 1)
    ensures |sizes| == Batches(l, lefts[0]) && lefts[|sizes|] == Leftover(l, lefts[0])
  {
    var n, k := lefts[0], |sizes| - 1;
    forall i: nat | i <= k ensures ChunkTotal(l, n, i) == sizes[i] <= l.chunk {
      RunIsAfter(l, lefts, sizes, i + 1);
    }
    ShortChunkEnds(l, n, k);
    RunIsAfter(l, lefts, sizes, k + 1);
  }
}
