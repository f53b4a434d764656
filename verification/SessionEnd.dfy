/** desktop_worker.py: when the unlimited session ends, told from what the chunks are supplied with. */
module SessionEnd {
  import opened Mail
  import opened Ledger
  import opened ThreatScore
  import opened Stages
  import opened Scan
  import opened UnlimitedSession
  import opened Batch
  import opened Runs
  import opened Chunks

  // ---- the chunks a session gets to ----

  ghost predicate SuppliesValid(supply: nat -> Supply) { forall i: nat :: supply(i).Valid() }

  // What a session is done with after one more chunk.
  ghost function DoneAfter(s: Settings, supply: Supply, done: set<MessageKey>): set<MessageKey>
    requires supply.Valid()
  {
    match ScanOf(s, supply.box, done)
    case Scanned(keys) => done + SettledOf(s, supply, keys)
    case Raised(_) => done
  }

  ghost function DoneBefore(s: Settings, supply: nat -> Supply, first: set<MessageKey>, i: nat): set<MessageKey>
    requires SuppliesValid(supply)
  {
    if i == 0 then first else DoneAfter(s, supply(i - 1), DoneBefore(s, supply, first, i - 1))
  }

  predicate IsFull(s: Settings, box: Mailbox, done: set<MessageKey>) {
    ScanOf(s, box, done).Scanned? && |ScanOf(s, box, done).keys| == s.limit
  }

  // Chunk i, if the session gets to it, is full, so that another one follows.
  ghost predicate FullAt(s: Settings, supply: nat -> Supply, first: set<MessageKey>, i: nat)
    requires SuppliesValid(supply)
  {
    IsFull(s, supply(i).box, DoneBefore(s, supply, first, i))
  }

  ghost predicate Reached(s: Settings, supply: nat -> Supply, first: set<MessageKey>, i: nat)
    requires SuppliesValid(supply)
  {
    forall j: nat :: j < i ==> FullAt(s, supply, first, j)
  }

  ghost predicate NeverEnds(s: Settings, supply: nat -> Supply, first: set<MessageKey>)
    requires SuppliesValid(supply)
  {
    forall i: nat :: FullAt(s, supply, first, i)
  }

  // ---- why it ends ----

  // A scan that settles one of these messages.
  ghost predicate SettlesOne(s: Settings, supply: Supply, done: set<MessageKey>, mail: set<MessageKey>)
    requires supply.Valid() && ScanOf(s, supply.box, done).Scanned?
  {
    exists k :: k in ScanOf(s, supply.box, done).keys && k in mail && Settles(s, supply, k)
  }

  // Every full chunk the session gets to settles a message of this mail.
  ghost predicate Progresses(s: Settings, supply: nat -> Supply, first: set<MessageKey>, mail: set<MessageKey>)
    requires SuppliesValid(supply)
  {
    forall i: nat :: Reached(s, supply, first, i) && FullAt(s, supply, first, i) ==>
      SettlesOne(s, supply(i), DoneBefore(s, supply, first, i), mail)
  }

  // There is such mail.  Mail that arrives, goes or fails once on the way does not matter.
  ghost predicate MakesProgress(s: Settings, supply: nat -> Supply, first: set<MessageKey>)
    requires SuppliesValid(supply)
  {
    exists mail :: Progresses(s, supply, first, mail)
  }

  lemma SettlingShrinks(s: Settings, supply: Supply, done: set<MessageKey>, mail: set<MessageKey>)
    requires supply.Valid() && ScanOf(s, supply.box, done).Scanned? && SettlesOne(s, supply, done, mail)
    ensures mail - DoneAfter(s, supply, done) < mail - done
  {
    var k :| k in ScanOf(s, supply.box, done).keys && k in mail && Settles(s, supply, k);
    ScannedMessages(s, supply.box, done);
    assert k in mail - done && k !in mail - DoneAfter(s, supply, done);
  }

  lemma ReachedNext(s: Settings, supply: nat -> Supply, first: set<MessageKey>, i: nat)
    requires SuppliesValid(supply) && Reached(s, supply, first, i) && FullAt(s, supply, first, i)
    ensures Reached(s, supply, first, i + 1)
  {
  }

  lemma FullChunkShrinks(s: Settings, supply: nat -> Supply, first: set<MessageKey>, mail: set<MessageKey>, i: nat)
    requires SuppliesValid(supply) && Progresses(s, supply, first, mail)
    requires Reached(s, supply, first, i) && FullAt(s, supply, first, i)
    ensures mail - DoneBefore(s, supply, first, i + 1) < mail - DoneBefore(s, supply, first, i)
  {
    SettlingShrinks(s, supply(i), DoneBefore(s, supply, first, i), mail);
  }

  // Such a session ends, wherever it has got to.
  lemma {:induction false} ProgressEnds(s: Settings, supply: nat -> Supply, first: set<MessageKey>,
                                        mail: set<MessageKey>, i: nat)
    requires SuppliesValid(supply) && Progresses(s, supply, first, mail) && Reached(s, supply, first, i)
    ensures exists n: nat :: i <= n && Reached(s, supply, first, n) && !FullAt(s, supply, first, n)
    decreases mail - DoneBefore(s, supply, first, i)
  {
    if FullAt(s, supply, first, i) {
      ReachedNext(s, supply, first, i);
      FullChunkShrinks(s, supply, first, mail, i);
      ProgressEnds(s, supply, first, mail, i + 1);
    }
  }

  // ---- messages that cannot fill a chunk ----

  // What the searches still find is mail of the pool.
  ghost predicate Searches(box: Mailbox, pool: Pool, done: set<MessageKey>) {
    && (forall k :: k in box.codes && k !in done ==> k in pool.codes)
    && (forall k :: k in box.access && k !in done ==> k in pool.access)
    && (forall k :: k in box.unread && k !in done ==> k in pool.unread)
  }

  // If the messages of a set cannot fill a chunk on their own, a full chunk holds another message.
  lemma FullChunkHasAnother(
    s: Settings, l: Limits, box: Mailbox, pool: Pool, done: set<MessageKey>, ms: set<MessageKey>)
    requires Searches(box, pool, done) && l == LimitsFor(s.limit) && l.Valid() && !FullSized(l, pool.Among(ms))
    requires IsFull(s, box, done)
    ensures exists k :: k in ScanOf(s, box, done).keys && k !in ms
  {
    var keys := ScanOf(s, box, done).keys;
    if forall k :: k in keys ==> k in ms {
      var codes, access, unread := ScanHasParts(s, box, done);
      forall k | k in codes || k in access || k in unread ensures k in keys {
      }
      AddedOnce([], codes);
      AddedOnce(codes, access);
      AddedOnce(codes + access, unread);
      AtMost(codes, pool.codes * ms);
      AtMost(access, pool.access * ms);
      AtMost(unread, pool.unread * ms);
      FullChunk(l, pool.Among(ms));
      assert false;
    }
  }

  lemma AddedOnce(batch: seq<MessageKey>, added: seq<MessageKey>)
    requires NoDuplicates(batch + added)
    ensures NoDuplicates(added)
  {
    forall i, j | 0 <= i < j < |added| ensures added[i] != added[j] {
      assert (batch + added)[|batch| + i] == added[i] && (batch + added)[|batch| + j] == added[j];
    }
  }

  lemma {:induction false} FirstStaysDone(s: Settings, supply: nat -> Supply, first: set<MessageKey>, i: nat)
    requires SuppliesValid(supply)
    ensures first <= DoneBefore(s, supply, first, i)
  {
    if i > 0 {
      FirstStaysDone(s, supply, first, i - 1);
    }
  }

  // All messages of the pool settle but these, and of these some may.
  ghost predicate OthersSettle(s: Settings, supply: nat -> Supply, pool: Pool, stubborn: set<MessageKey>)
    requires SuppliesValid(supply)
  {
    forall i: nat, m :: m in pool.All() && m !in stubborn ==> Settles(s, supply(i), m)
  }

  // If the messages that may not settle, and were not done before, cannot fill a chunk on their own, every full
  // chunk settles another one.
  lemma FewStubbornProgress(
    s: Settings, l: Limits, supply: nat -> Supply, first: set<MessageKey>, pool: Pool, stubborn: set<MessageKey>)
    requires SuppliesValid(supply) && OthersSettle(s, supply, pool, stubborn) && l == LimitsFor(s.limit) && l.Valid()
    requires forall i: nat :: Reached(s, supply, first, i) ==>
      Searches(supply(i).box, pool, DoneBefore(s, supply, first, i))
    requires !FullSized(l, pool.Among(stubborn - first))
    ensures Progresses(s, supply, first, pool.All())
  {
    forall i: nat | Reached(s, supply, first, i) && FullAt(s, supply, first, i)
      ensures SettlesOne(s, supply(i), DoneBefore(s, supply, first, i), pool.All())
    {
      var done := DoneBefore(s, supply, first, i);
      FirstStaysDone(s, supply, first, i);
      FullChunkHasAnother(s, l, supply(i).box, pool, done, stubborn - first);
      var k :| k in ScanOf(s, supply(i).box, done).keys && k !in stubborn - first;
      ScannedMessages(s, supply(i).box, done);
      assert k in pool.All() && k !in stubborn;
    }
  }

  // ---- messages that can ----

  lemma AtLeast(box: Mailbox, unread: bool, ids: seq<MessageKey>, done: set<MessageKey>, ms: set<MessageKey>)
    requires NoDuplicates(ids) && ms !! done && forall m :: m in ms ==> m in ids && box.fetch(m).unread == unread
    ensures |ms| <= |Left(box, unread, ids, done)|
  {
    LeftIsUndone(box, unread, ids, done);
    ElementsSize(Left(box, unread, ids, done));
    SubsetSize(ms, Elements(Left(box, unread, ids, done)));
  }

  // The searches list these messages, whatever else they list.
  ghost predicate Includes(box: Mailbox, pool: Pool) {
    && (forall m :: m in pool.codes ==> m in box.codes)
    && (forall m :: m in pool.access ==> m in box.access)
    && (forall m :: m in pool.unread ==> m in box.unread)
  }

  // As many as a pool holds of each kind.
  function SizesOf(pool: Pool): Sizes { Sizes(|pool.codes|, |pool.access|, |pool.unread|) }

  lemma UndoneFill(s: Settings, l: Limits, box: Mailbox, done: set<MessageKey>, stubborn: Pool)
    requires Orderly(s, box) && Includes(box, stubborn) && done !! stubborn.All() && 1 <= s.limit <= s.maximum
    requires l == LimitsFor(s.limit) && l.Valid() && FullSized(l, SizesOf(stubborn))
    ensures IsFull(s, box, done)
  {
    AtLeast(box, false, box.codes, done, stubborn.codes);
    AtLeast(box, false, box.access, done, stubborn.access);
    AtLeast(box, true, box.unread, done, stubborn.unread);
    MoreMailFillsMore(l, SizesOf(stubborn), LeftSizes(box, done));
    ScanSize(s, l, box, done);
  }

  ghost predicate NeverSettle(s: Settings, supply: nat -> Supply, ms: set<MessageKey>)
    requires SuppliesValid(supply)
  {
    forall i: nat, m :: m in ms ==> !Settles(s, supply(i), m)
  }

  // Every chunk the session gets to lists these messages.
  ghost predicate StayListed(s: Settings, supply: nat -> Supply, first: set<MessageKey>, stubborn: Pool)
    requires SuppliesValid(supply)
  {
    forall i: nat :: Reached(s, supply, first, i) && DoneBefore(s, supply, first, i) !! stubborn.All() ==>
      Orderly(s, supply(i).box) && Includes(supply(i).box, stubborn)
  }

  lemma UnsettledAfter(s: Settings, supply: Supply, done: set<MessageKey>, ms: set<MessageKey>)
    requires supply.Valid() && done !! ms && forall m :: m in ms ==> !Settles(s, supply, m)
    ensures DoneAfter(s, supply, done) !! ms
  {
  }

  lemma {:induction false} UnsettledStays(
    s: Settings, supply: nat -> Supply, first: set<MessageKey>, ms: set<MessageKey>, i: nat)
    requires SuppliesValid(supply) && first !! ms && NeverSettle(s, supply, ms)
    ensures DoneBefore(s, supply, first, i) !! ms
  {
    if i > 0 {
      UnsettledStays(s, supply, first, ms, i - 1);
      UnsettledAfter(s, supply(i - 1), DoneBefore(s, supply, first, i - 1), ms);
    }
  }

  // If messages that no run settles can fill a chunk on their own, the session never ends.
  lemma SessionNeverEnds(s: Settings, l: Limits, supply: nat -> Supply, first: set<MessageKey>, stubborn: Pool)
    requires SuppliesValid(supply) && first !! stubborn.All() && NeverSettle(s, supply, stubborn.All())
    requires StayListed(s, supply, first, stubborn) && 1 <= s.limit <= s.maximum
    requires l == LimitsFor(s.limit) && l.Valid() && FullSized(l, SizesOf(stubborn))
    ensures NeverEnds(s, supply, first)
  {
    forall i: nat ensures FullAt(s, supply, first, i) {
      AllReached(s, l, supply, first, stubborn, 0, i);
      NextIsFull(s, l, supply, first, stubborn, i);
    }
  }

  lemma NextIsFull(s: Settings, l: Limits, supply: nat -> Supply, first: set<MessageKey>, stubborn: Pool, i: nat)
    requires SuppliesValid(supply) && first !! stubborn.All() && NeverSettle(s, supply, stubborn.All())
    requires StayListed(s, supply, first, stubborn) && 1 <= s.limit <= s.maximum
    requires l == LimitsFor(s.limit) && l.Valid() && FullSized(l, SizesOf(stubborn))
    requires Reached(s, supply, first, i)
    ensures FullAt(s, supply, first, i)
  {
    UnsettledStays(s, supply, first, stubborn.All(), i);
    UndoneFill(s, l, supply(i).box, DoneBefore(s, supply, first, i), stubborn);
  }

  lemma {:induction false} AllReached(
    s: Settings, l: Limits, supply: nat -> Supply, first: set<MessageKey>, stubborn: Pool, i: nat, n: nat)
    requires SuppliesValid(supply) && first !! stubborn.All() && NeverSettle(s, supply, stubborn.All())
    requires StayListed(s, supply, first, stubborn) && 1 <= s.limit <= s.maximum
    requires l == LimitsFor(s.limit) && l.Valid() && FullSized(l, SizesOf(stubborn))
    requires Reached(s, supply, first, i) && i <= n
    ensures Reached(s, supply, first, n)
    decreases n - i
  {
    if i < n {
      NextIsFull(s, l, supply, first, stubborn, i);
      ReachedNext(s, supply, first, i);
      AllReached(s, l, supply, first, stubborn, i + 1, n);
    }
  }

  // ---- the exact condition ----

  // Every chunk the session gets to is offered the mail of the pool it is not done with.
  ghost predicate Offered(s: Settings, supply: nat -> Supply, first: set<MessageKey>, pool: Pool)
    requires SuppliesValid(supply)
  {
    forall i: nat :: Reached(s, supply, first, i) ==>
      Offers(s, supply(i).box, pool, DoneBefore(s, supply, first, i))
  }

  // Exactly these messages of the pool fall back, or fail their marker, whenever they are scanned.
  ghost predicate FixedFate(s: Settings, supply: nat -> Supply, pool: Pool, stubborn: set<MessageKey>)
    requires SuppliesValid(supply)
  {
    forall i: nat, m :: m in pool.All() ==> (Settles(s, supply(i), m) <==> m !in stubborn)
  }

  function PartOf(pool: Pool, ms: set<MessageKey>): (part: Pool)
    ensures SizesOf(part) == pool.Among(ms) && forall m :: m in part.All() <==> m in pool.All() && m in ms
  {
    Pool(pool.codes * ms, pool.access * ms, pool.unread * ms)
  }

  lemma OfferedStayListed(
    s: Settings, supply: nat -> Supply, first: set<MessageKey>, pool: Pool, ms: set<MessageKey>)
    requires SuppliesValid(supply) && Offered(s, supply, first, pool)
    ensures StayListed(s, supply, first, PartOf(pool, ms))
  {
    var part := PartOf(pool, ms);
    forall i: nat | Reached(s, supply, first, i) && DoneBefore(s, supply, first, i) !! part.All()
      ensures Orderly(s, supply(i).box) && Includes(supply(i).box, part)
    {
      assert Offers(s, supply(i).box, pool, DoneBefore(s, supply, first, i));
      assert forall m :: m in part.All() ==> m !in DoneBefore(s, supply, first, i);
    }
  }

  // A session over a pool of mail with a fixed fate never ends if and only if the messages that do not settle,
  // leaving aside those done before, can fill a chunk on their own.
  lemma NeverEndsExactlyWhen(
    s: Settings, l: Limits, supply: nat -> Supply, first: set<MessageKey>, pool: Pool, stubborn: set<MessageKey>)
    requires SuppliesValid(supply) && Offered(s, supply, first, pool) && FixedFate(s, supply, pool, stubborn)
    requires 1 <= s.limit <= s.maximum && l == LimitsFor(s.limit) && l.Valid()
    ensures NeverEnds(s, supply, first) <==> FullSized(l, pool.Among(stubborn - first))
  {
    if FullSized(l, pool.Among(stubborn - first)) {
      OfferedStayListed(s, supply, first, pool, stubborn - first);
      SessionNeverEnds(s, l, supply, first, PartOf(pool, stubborn - first));
    } else {
      OfferedSearches(s, supply, first, pool);
      FewStubbornProgress(s, l, supply, first, pool, stubborn);
      ProgressEnds(s, supply, first, pool.All(), 0);
    }
  }

  lemma OfferedSearches(s: Settings, supply: nat -> Supply, first: set<MessageKey>, pool: Pool)
    requires SuppliesValid(supply) && Offered(s, supply, first, pool)
    ensures forall i: nat :: Reached(s, supply, first, i) ==>
      Searches(supply(i).box, pool, DoneBefore(s, supply, first, i))
  {
    forall i: nat | Reached(s, supply, first, i)
      ensures Searches(supply(i).box, pool, DoneBefore(s, supply, first, i))
    {
      assert Offers(s, supply(i).box, pool, DoneBefore(s, supply, first, i));
    }
  }

  // ---- one message that never settles ----

  const LONELY := MessageKey("a", Gmail, "1")

  const LONELY_SETTINGS := Settings(
    "a", Gmail, "gemma26-v1", "fingerprint", false, TechnicalOnly, false, true, false, true, 1, 1)

  // Unread, and classified by the fallback whenever it is fetched.
  function Unclassified(k: MessageKey): ScanResult {
    ScanResult(k, true, Uncertain, true, Decision(Review, []), Technical(0, false, false), Fails, false, None)
  }

  function LonelySupply(i: nat): Supply {
    Supply(Mailbox([], [], [LONELY], Unclassified), map[], None, [], true, {})
  }

  const LONELY_POOL := Pool({}, {}, {LONELY})

  lemma LonelyIsOffered()
    ensures SuppliesValid(LonelySupply) && Offered(LONELY_SETTINGS, LonelySupply, {}, LONELY_POOL)
    ensures FixedFate(LONELY_SETTINGS, LonelySupply, LONELY_POOL, {LONELY})
  {
    forall i: nat ensures LonelySupply(i).Valid() && Orderly(LONELY_SETTINGS, LonelySupply(i).box) {
    }
  }

  lemma LonelyFillsAChunk()
    ensures LimitsFor(1).Valid() && FullSized(LimitsFor(1), LONELY_POOL.Among({LONELY} - {}))
  {
    assert LONELY_POOL.unread * ({LONELY} - {}) == {LONELY};
    assert LONELY_POOL.Among({LONELY} - {}) == Sizes(0, 0, 1);
  }

  // Chunks of one message: the session scans it for ever.
  lemma OneUnclassifiedMessage()
    ensures SuppliesValid(LonelySupply) && NeverEnds(LONELY_SETTINGS, LonelySupply, {})
  {
    LonelyIsOffered();
    LonelyFillsAChunk();
    NeverEndsExactlyWhen(LONELY_SETTINGS, LimitsFor(1), LonelySupply, {}, LONELY_POOL, {LONELY});
  }
}
