/** QuizSelector.select (quiz.py): two greedy passes over the candidates in order of priority. */
module QuizSelector {
  import opened Mail

  datatype QuizCandidate = QuizCandidate(key: MessageKey, sender: string, category: Category, confidence: real)

  // ---- the order of priority ----

  function Rank(c: QuizCandidate): nat { if c.category in {Uncertain, Other} then 0 else 1 }

  // Python's order of strings.
  predicate TextBelow(a: string, b: string) {
    b != [] && (a == [] || a[0] < b[0] || (a[0] == b[0] && TextBelow(a[1..], b[1..])))
  }

  // The order of the tuples (rank, confidence, message id).
  predicate Before(a: QuizCandidate, b: QuizCandidate) {
    || Rank(a) < Rank(b)
    || (Rank(a) == Rank(b) && a.confidence < b.confidence)
    || (Rank(a) == Rank(b) && a.confidence == b.confidence && TextBelow(a.key.id, b.key.id))
  }

  lemma {:induction false} TextBelowIsAnOrder(a: string, b: string, c: string)
    ensures !(TextBelow(a, b) && TextBelow(b, a))
    ensures !TextBelow(a, b) && !TextBelow(b, c) ==> !TextBelow(a, c)
    decreases |a| + |b| + |c|
  {
    if a != [] && b != [] && c != [] {
      TextBelowIsAnOrder(a[1..], b[1..], c[1..]);
    } else if a != [] && b != [] {
      TextBelowIsAnOrder(a[1..], b[1..], []);
    }
  }

  ghost predicate Sorted(s: seq<QuizCandidate>) {
    forall i, j :: 0 <= i < j < |s| ==> !Before(s[j], s[i])
  }

  // sorted(): each element goes behind those it is not before.
  method SortByPriority(unique: seq<QuizCandidate>) returns (ordered: seq<QuizCandidate>)
    ensures Sorted(ordered) && multiset(ordered) == multiset(unique)
  {
    ordered := [];
    for i := 0 to |unique|
      invariant Sorted(ordered) && multiset(ordered) == multiset(unique[..i])
    {
      var c := unique[i];
      var k := |ordered|;
      while k > 0 && Before(c, ordered[k - 1])
        invariant 0 <= k <= |ordered|
        invariant forall j :: k <= j < |ordered| ==> Before(c, ordered[j])
      {
        k := k - 1;
      }
      InsertKeepsOrder(ordered, c, k);
      assert ordered == ordered[..k] + ordered[k..];
      assert unique[..i + 1] == unique[..i] + [c];
      ordered := ordered[..k] + [c] + ordered[k..];
    }
    assert unique[..|unique|] == unique;
  }

  lemma InsertKeepsOrder(s: seq<QuizCandidate>, c: QuizCandidate, k: nat)
    requires Sorted(s) && k <= |s| && (k > 0 ==> !Before(c, s[k - 1]))
    requires forall j :: k <= j < |s| ==> Before(c, s[j])
    ensures Sorted(s[..k] + [c] + s[k..])
  {
    forall i | 0 <= i < k ensures !Before(c, s[i]) {
      if i < k - 1 {
        TextBelowIsAnOrder(c.key.id, s[k - 1].key.id, s[i].key.id);
      }
    }
    forall j | k <= j < |s| ensures !Before(s[j], c) {
      TextBelowIsAnOrder(c.key.id, s[j].key.id, c.key.id);
    }
  }

  // ---- the candidates ----

  predicate SameKey(a: QuizCandidate, b: QuizCandidate) { a.key.account == b.key.account && a.key.id == b.key.id }

  predicate Seen(s: seq<QuizCandidate>, c: QuizCandidate) { exists d :: d in s && SameKey(c, d) }

  // The dictionary `unique`: the first unanswered candidate of every (account, message id).
  function Unique(candidates: seq<QuizCandidate>, answered: set<MessageKey>): seq<QuizCandidate> {
    if candidates == [] then []
    else
      var c, before := candidates[|candidates| - 1], Unique(candidates[..|candidates| - 1], answered);
      if c.key in answered || Seen(before, c) then before else before + [c]
  }

  lemma {:induction false} UniqueTakesUnanswered(candidates: seq<QuizCandidate>, answered: set<MessageKey>,
                                                 c: QuizCandidate)
    ensures c in Unique(candidates, answered) ==> c in candidates && c.key !in answered
    ensures c in candidates && c.key !in answered ==> Seen(Unique(candidates, answered), c)
  {
    if candidates != [] {
      var before, last := candidates[..|candidates| - 1], candidates[|candidates| - 1];
      UniqueTakesUnanswered(before, answered, c);
      assert c in candidates <==> c in before || c == last;
      assert SameKey(c, c);
      var u := Unique(before, answered);
      if Seen(u, c) {
        var d :| d in u && SameKey(c, d);
        assert d in Unique(candidates, answered);
      }
      if c == last && last.key !in answered && !Seen(u, last) {
        assert Unique(candidates, answered)[|u|] == c;
      }
    }
  }

  lemma {:induction false} UniqueKeys(candidates: seq<QuizCandidate>, answered: set<MessageKey>)
    ensures var u := Unique(candidates, answered);
      NoDuplicates(u) && forall i, j :: 0 <= i < j < |u| ==> !SameKey(u[i], u[j])
  {
    if candidates != [] {
      var before, c := Unique(candidates[..|candidates| - 1], answered), candidates[|candidates| - 1];
      UniqueKeys(candidates[..|candidates| - 1], answered);
      var u := Unique(candidates, answered);
      forall i, j | 0 <= i < j < |u| ensures !SameKey(u[i], u[j]) && u[i] != u[j] {
        if j == |before| && SameKey(u[i], u[j]) {
          assert u[i] in before && SameKey(c, u[i]);
        }
      }
    }
  }

  function OfSender(s: set<QuizCandidate>, sender: string): set<QuizCandidate> { set c | c in s && c.sender == sender }

  function OfCategory(s: set<QuizCandidate>, category: Category): set<QuizCandidate> {
    set c | c in s && c.category == category
  }

  // What the senders of a list allow: for each of them as many candidates as it has, up to the maximum.
  function Capacity(s: set<QuizCandidate>, senders: seq<string>, max: nat): nat {
    if senders == [] then 0
    else
      var last := |senders| - 1;
      Capacity(s, senders[..last], max) + Min(max, |OfSender(s, senders[last])|)
  }

  function Senders(s: seq<QuizCandidate>): seq<string> {
    Deduplicated(seq(|s|, i requires 0 <= i < |s| => s[i].sender))
  }

  // ---- any fair choice fits the capacity, and a complete one fills it ----

  // Distinct candidates of the list, with at most max from any sender.
  ghost predicate Fair(chosen: seq<QuizCandidate>, from: set<QuizCandidate>, max: nat) {
    && NoDuplicates(chosen)
    && Elements(chosen) <= from
    && forall sender :: |OfSender(Elements(chosen), sender)| <= max
  }

  // Nobody else fits: whoever is not chosen has a sender that has reached the maximum.
  ghost predicate Saturated(chosen: seq<QuizCandidate>, from: set<QuizCandidate>, max: nat) {
    forall c :: c in from && c !in chosen ==> |OfSender(Elements(chosen), c.sender)| >= max
  }

  lemma {:induction false} SenderSizesAddUp(s: set<QuizCandidate>, senders: seq<string>, max: nat)
    requires NoDuplicates(senders) && forall sender :: |OfSender(s, sender)| <= max
    ensures |set c | c in s && c.sender in senders| == Capacity(s, senders, max)
  {
    if senders == [] {
      assert (set c | c in s && c.sender in senders) == {};
    } else {
      var k := |senders| - 1;
      var before, last := senders[..k], senders[k];
      SenderSizesAddUp(s, before, max);
      var some := set c | c in s && c.sender in before;
      assert forall x :: x in senders <==> x in before || x == last;
      assert (set c | c in s && c.sender in senders) == some + OfSender(s, last);
      assert some !! OfSender(s, last);
    }
  }

  lemma {:induction false} MoreCandidatesMoreCapacity(a: set<QuizCandidate>, b: set<QuizCandidate>,
      senders: seq<string>, max: nat)
    requires a <= b
    ensures Capacity(a, senders, max) <= Capacity(b, senders, max)
  {
    if senders != [] {
      MoreCandidatesMoreCapacity(a, b, senders[..|senders| - 1], max);
      SubsetSize(OfSender(a, senders[|senders| - 1]), OfSender(b, senders[|senders| - 1]));
    }
  }

  lemma {:induction false} SameCapacity(a: set<QuizCandidate>, b: set<QuizCandidate>, senders: seq<string>, max: nat)
    requires forall sender :: Min(max, |OfSender(a, sender)|) == Min(max, |OfSender(b, sender)|)
    ensures Capacity(a, senders, max) == Capacity(b, senders, max)
  {
    if senders != [] {
      SameCapacity(a, b, senders[..|senders| - 1], max);
    }
  }

  // Every fair choice fits.
  lemma FairChoiceFits(chosen: seq<QuizCandidate>, from: set<QuizCandidate>, senders: seq<string>, max: nat)
    requires Fair(chosen, from, max) && NoDuplicates(senders) && forall c :: c in from ==> c.sender in senders
    ensures |chosen| <= Capacity(from, senders, max)
    ensures |chosen| == Capacity(Elements(chosen), senders, max)
  {
    ElementsSize(chosen);
    SenderSizesAddUp(Elements(chosen), senders, max);
    assert (set c | c in Elements(chosen) && c.sender in senders) == Elements(chosen);
    MoreCandidatesMoreCapacity(Elements(chosen), from, senders, max);
  }

  // A saturated one fills the capacity exactly.
  lemma SaturatedChoiceFills(chosen: seq<QuizCandidate>, from: set<QuizCandidate>, senders: seq<string>, max: nat)
    requires Fair(chosen, from, max) && Saturated(chosen, from, max)
    requires NoDuplicates(senders) && forall c :: c in from ==> c.sender in senders
    ensures |chosen| == Capacity(from, senders, max)
  {
    FairChoiceFits(chosen, from, senders, max);
    forall sender ensures Min(max, |OfSender(Elements(chosen), sender)|) == Min(max, |OfSender(from, sender)|) {
      var mine, all := OfSender(Elements(chosen), sender), OfSender(from, sender);
      SubsetSize(mine, all);
      if |mine| < max {
        forall c | c in all ensures c in mine {
          assert c in from && c.sender == sender;
        }
        assert mine == all;
      } else {
        assert |mine| == max <= |all|;
      }
    }
    SameCapacity(Elements(chosen), from, senders, max);
  }

  // ---- the two passes ----

  function CountSender(s: seq<QuizCandidate>, sender: string): nat { |OfSender(Elements(s), sender)| }

  function CountCategory(s: seq<QuizCandidate>, category: Category): nat { |OfCategory(Elements(s), category)| }

  // What the first pass chooses from a prefix of the list.
  function First(s: seq<QuizCandidate>, limit: nat, max: nat): seq<QuizCandidate> {
    if s == [] then []
    else
      var c, before := s[|s| - 1], First(s[..|s| - 1], limit, max);
      if |before| < limit && CountSender(before, c.sender) < max && CountCategory(before, c.category) < 2
      then before + [c] else before
  }

  function Ids(s: seq<QuizCandidate>): set<string> { set c | c in s :: c.key.id }

  // What the second pass has after a prefix; it recognises what was chosen by its message id alone.
  function Second(s: seq<QuizCandidate>, first: seq<QuizCandidate>, limit: nat, max: nat): seq<QuizCandidate> {
    if s == [] then first
    else
      var c, before := s[|s| - 1], Second(s[..|s| - 1], first, limit, max);
      if |before| < limit && c.key.id !in Ids(before) && CountSender(before, c.sender) < max
      then before + [c] else before
  }

  // Once the limit is reached nothing changes.
  lemma {:induction false} FirstIsFull(s: seq<QuizCandidate>, i: nat, limit: nat, max: nat)
    requires i <= |s| && |First(s[..i], limit, max)| == limit
    ensures First(s, limit, max) == First(s[..i], limit, max)
    decreases |s|
  {
    if i < |s| {
      assert s[..|s| - 1][..i] == s[..i];
      FirstIsFull(s[..|s| - 1], i, limit, max);
    } else {
      assert s[..i] == s;
    }
  }

  lemma {:induction false} SecondIsFull(s: seq<QuizCandidate>, i: nat, first: seq<QuizCandidate>, limit: nat, max: nat)
    requires i <= |s| && |Second(s[..i], first, limit, max)| == limit
    ensures Second(s, first, limit, max) == Second(s[..i], first, limit, max)
    decreases |s|
  {
    if i < |s| {
      assert s[..|s| - 1][..i] == s[..i];
      SecondIsFull(s[..|s| - 1], i, first, limit, max);
    } else {
      assert s[..i] == s;
    }
  }

  function Get<K>(m: map<K, nat>, k: K): nat { if k in m then m[k] else 0 }

  ghost predicate Counts(senders: map<string, nat>, chosen: seq<QuizCandidate>) {
    forall sender :: Get(senders, sender) == CountSender(chosen, sender)
  }

  ghost predicate CountsCategories(categories: map<Category, nat>, chosen: seq<QuizCandidate>) {
    forall category :: Get(categories, category) == CountCategory(chosen, category)
  }

  lemma ChooseOneMore(chosen: seq<QuizCandidate>, c: QuizCandidate, sender: string, category: Category)
    requires c !in chosen
    ensures CountSender(chosen + [c], sender) == CountSender(chosen, sender) + if c.sender == sender then 1 else 0
    ensures CountCategory(chosen + [c], category)
         == CountCategory(chosen, category) + if c.category == category then 1 else 0
  {
    var few, more := Elements(chosen), Elements(chosen + [c]);
    assert more == few + {c};
    OneMoreSender(few, c, sender);
    OneMoreCategory(few, c, category);
  }

  lemma OneMoreSender(s: set<QuizCandidate>, c: QuizCandidate, sender: string)
    requires c !in s
    ensures |OfSender(s + {c}, sender)| == |OfSender(s, sender)| + if c.sender == sender then 1 else 0
  {
    if c.sender == sender {
      assert OfSender(s + {c}, sender) == OfSender(s, sender) + {c};
    } else {
      assert OfSender(s + {c}, sender) == OfSender(s, sender);
    }
  }

  lemma OneMoreCategory(s: set<QuizCandidate>, c: QuizCandidate, category: Category)
    requires c !in s
    ensures |OfCategory(s + {c}, category)| == |OfCategory(s, category)| + if c.category == category then 1 else 0
  {
    if c.category == category {
      assert OfCategory(s + {c}, category) == OfCategory(s, category) + {c};
    } else {
      assert OfCategory(s + {c}, category) == OfCategory(s, category);
    }
  }

  method CountIn(chosen: seq<QuizCandidate>, senders: map<string, nat>, c: QuizCandidate)
    returns (senders': map<string, nat>)
    requires Counts(senders, chosen) && c !in chosen
    ensures Counts(senders', chosen + [c])
  {
    senders' := senders[c.sender := Get(senders, c.sender) + 1];
    forall sender ensures Get(senders', sender) == CountSender(chosen + [c], sender) {
      ChooseOneMore(chosen, c, sender, c.category);
    }
  }

  lemma {:induction false} FirstTakesFrom(s: seq<QuizCandidate>, limit: nat, max: nat)
    ensures Elements(First(s, limit, max)) <= Elements(s)
  {
    if s != [] {
      var before := s[..|s| - 1];
      FirstTakesFrom(before, limit, max);
      assert s == before + [s[|s| - 1]];
      forall c | c in First(s, limit, max) ensures c in s {
        assert c in Elements(First(before, limit, max)) || c == s[|s| - 1];
      }
    }
  }

  // The first pass, which also spreads over the categories.
  method FirstPass(ordered: seq<QuizCandidate>, limit: nat, max: nat)
    returns (chosen: seq<QuizCandidate>, senders: map<string, nat>)
    requires NoDuplicates(ordered) && limit > 0
    ensures chosen == First(ordered, limit, max) && Counts(senders, chosen)
  {
    chosen, senders := [], map[];
    var categories: map<Category, nat> := map[];
    for i := 0 to |ordered|
      invariant chosen == First(ordered[..i], limit, max) && |chosen| < limit
      invariant Counts(senders, chosen) && CountsCategories(categories, chosen)
    {
      var c := ordered[i];
      assert ordered[..i + 1][..i] == ordered[..i];
      if Get(senders, c.sender) >= max || Get(categories, c.category) >= 2 {
        continue;
      }
      NotChosenYet(ordered, i, limit, max);
      senders := CountIn(chosen, senders, c);
      categories := categories[c.category := Get(categories, c.category) + 1];
      forall category ensures Get(categories, category) == CountCategory(chosen + [c], category) {
        ChooseOneMore(chosen, c, c.sender, category);
      }
      chosen := chosen + [c];
      if |chosen| == limit {
        FirstIsFull(ordered, i + 1, limit, max);
        return;
      }
    }
    assert ordered[..|ordered|] == ordered;
  }

  lemma NotChosenYet(ordered: seq<QuizCandidate>, i: nat, limit: nat, max: nat)
    requires i < |ordered| && NoDuplicates(ordered)
    ensures ordered[i] !in First(ordered[..i], limit, max)
  {
    FirstTakesFrom(ordered[..i], limit, max);
    assert ordered[i] !in ordered[..i];
    assert ordered[i] !in Elements(ordered[..i]);
  }

  method SecondPass(ordered: seq<QuizCandidate>, limit: nat, max: nat, first: seq<QuizCandidate>,
                    counts: map<string, nat>)
    returns (chosen: seq<QuizCandidate>)
    requires Counts(counts, first) && |first| < limit
    ensures chosen == Second(ordered, first, limit, max)
  {
    chosen := first;
    var senders, ids := counts, Ids(first);
    for i := 0 to |ordered|
      invariant chosen == Second(ordered[..i], first, limit, max) && |chosen| < limit
      invariant Counts(senders, chosen) && ids == Ids(chosen)
    {
      var c := ordered[i];
      assert ordered[..i + 1][..i] == ordered[..i];
      if c.key.id in ids || Get(senders, c.sender) >= max {
        continue;
      }
      senders := CountIn(chosen, senders, c);
      ids := ids + {c.key.id};
      chosen := chosen + [c];
      if |chosen| == limit {
        SecondIsFull(ordered, i + 1, first, limit, max);
        return;
      }
    }
    assert ordered[..|ordered|] == ordered;
  }

  // ---- what they choose ----

  lemma FairGrows(chosen: seq<QuizCandidate>, c: QuizCandidate, from: set<QuizCandidate>, max: nat)
    requires Fair(chosen, from, max) && c in from && c !in chosen && CountSender(chosen, c.sender) < max
    ensures Fair(chosen + [c], from, max)
  {
    forall sender ensures |OfSender(Elements(chosen + [c]), sender)| <= max {
      ChooseOneMore(chosen, c, sender, c.category);
    }
    assert Elements(chosen + [c]) == Elements(chosen) + {c};
  }

  lemma FairFromMore(chosen: seq<QuizCandidate>, from: set<QuizCandidate>, more: set<QuizCandidate>, max: nat)
    requires Fair(chosen, from, max) && from <= more
    ensures Fair(chosen, more, max)
  {
  }

  lemma {:induction false} FirstIsFair(s: seq<QuizCandidate>, limit: nat, max: nat)
    requires NoDuplicates(s)
    ensures Fair(First(s, limit, max), Elements(s), max) && |First(s, limit, max)| <= limit
  {
    if s == [] {
      NobodyIsFair(Elements(s), max);
    } else {
      var before, c := s[..|s| - 1], s[|s| - 1];
      var chosen := First(before, limit, max);
      FirstIsFair(before, limit, max);
      NotChosenYet(s, |s| - 1, limit, max);
      assert s == before + [c];
      FairFromMore(chosen, Elements(before), Elements(s), max);
      if First(s, limit, max) != chosen {
        FairGrows(chosen, c, Elements(s), max);
      }
    }
  }

  lemma NobodyIsFair(from: set<QuizCandidate>, max: nat)
    ensures Fair([], from, max)
  {
    forall sender ensures |OfSender(Elements<QuizCandidate>([]), sender)| <= max {
      assert OfSender(Elements<QuizCandidate>([]), sender) == {};
    }
  }

  // At most two of any category in the first pass ...
  lemma {:induction false} FirstSpreads(s: seq<QuizCandidate>, limit: nat, max: nat, category: Category)
    requires NoDuplicates(s)
    ensures CountCategory(First(s, limit, max), category) <= 2
  {
    if s == [] {
      assert OfCategory(Elements(First(s, limit, max)), category) == {};
    } else {
      var before, c := s[..|s| - 1], s[|s| - 1];
      FirstSpreads(before, limit, max, category);
      NotChosenYet(s, |s| - 1, limit, max);
      ChooseOneMore(First(before, limit, max), c, c.sender, category);
    }
  }

  // ... and the head of the list in any case.
  lemma {:induction false} FirstTakesTheHead(s: seq<QuizCandidate>, limit: nat, max: nat)
    requires s != [] && limit > 0 && max > 0
    ensures First(s, limit, max) != [] && First(s, limit, max)[0] == s[0]
  {
    if |s| > 1 {
      FirstTakesTheHead(s[..|s| - 1], limit, max);
    } else {
      assert First(s[..0], limit, max) == [];
      assert OfSender(Elements<QuizCandidate>([]), s[0].sender) == {};
      assert OfCategory(Elements<QuizCandidate>([]), s[0].category) == {};
    }
  }

  // A prefix of the list has been offered its places.
  ghost predicate Offered(chosen: seq<QuizCandidate>, s: seq<QuizCandidate>, max: nat) {
    forall c :: c in s ==> c.key.id in Ids(chosen) || CountSender(chosen, c.sender) >= max
  }

  lemma {:induction false} SecondIsFair(s: seq<QuizCandidate>, from: set<QuizCandidate>, first: seq<QuizCandidate>,
                                        limit: nat, max: nat)
    requires Fair(first, from, max) && |first| <= limit && Elements(s) <= from
    ensures Fair(Second(s, first, limit, max), from, max)
    ensures |first| <= |Second(s, first, limit, max)| <= limit && first <= Second(s, first, limit, max)
    ensures |Second(s, first, limit, max)| < limit ==> Offered(Second(s, first, limit, max), s, max)
  {
    if s != [] {
      var before, c := s[..|s| - 1], s[|s| - 1];
      assert s == before + [c];
      assert Elements(before) <= Elements(s) && c in Elements(s);
      SecondIsFair(before, from, first, limit, max);
      var chosen := Second(before, first, limit, max);
      if Second(s, first, limit, max) != chosen {
        FairGrows(chosen, c, from, max);
        OfferedStays(chosen, c, before, max);
      }
    }
  }

  lemma OfferedStays(chosen: seq<QuizCandidate>, c: QuizCandidate, s: seq<QuizCandidate>, max: nat)
    requires c !in chosen
    ensures Offered(chosen, s, max) ==> Offered(chosen + [c], s + [c], max)
  {
    if Offered(chosen, s, max) {
      forall d | d in s + [c] ensures d.key.id in Ids(chosen + [c]) || CountSender(chosen + [c], d.sender) >= max {
        ChooseOneMore(chosen, c, d.sender, d.category);
        assert d in s || d == c;
        assert c in chosen + [c];
      }
    }
  }

  // Whoever is not chosen has a sender or a category without places left.
  ghost predicate Placed(chosen: seq<QuizCandidate>, s: seq<QuizCandidate>, max: nat) {
    forall c :: c in s ==> c in chosen || CountSender(chosen, c.sender) >= max || CountCategory(chosen, c.category) >= 2
  }

  lemma {:induction false} FirstOffersPlaces(s: seq<QuizCandidate>, limit: nat, max: nat)
    requires NoDuplicates(s) && |First(s, limit, max)| < limit
    ensures Placed(First(s, limit, max), s, max)
  {
    if s != [] {
      var before, c := s[..|s| - 1], s[|s| - 1];
      var chosen := First(before, limit, max);
      FirstOffersPlaces(before, limit, max);
      NotChosenYet(s, |s| - 1, limit, max);
      assert s == before + [c];
      if First(s, limit, max) != chosen {
        forall d | d in s
          ensures d in chosen + [c] || CountSender(chosen + [c], d.sender) >= max
               || CountCategory(chosen + [c], d.category) >= 2
        {
          ChooseOneMore(chosen, c, d.sender, d.category);
        }
      }
    }
  }

  // Whoever the first pass leaves out, although its sender and its category have places left, comes after everyone
  // it took ...
  lemma {:induction false} FirstTakesInOrder(s: seq<QuizCandidate>, limit: nat, max: nat, i: nat)
    requires NoDuplicates(s) && i < |s|
    requires var first := First(s, limit, max);
      s[i] !in first && CountSender(first, s[i].sender) < max && CountCategory(first, s[i].category) < 2
    ensures Elements(First(s, limit, max)) <= Elements(s[..i])
    decreases |s|
  {
    var n := |s| - 1;
    var before, c := s[..n], s[n];
    var chosen := First(before, limit, max);
    if i < n {
      NotChosenYet(s, n, limit, max);
      ChooseOneMore(chosen, c, s[i].sender, s[i].category);
      if |chosen| < limit {
        FirstOffersPlaces(before, limit, max);
      }
      assert before[i] in before && before[..i] == s[..i];
      assert First(s, limit, max) == chosen;
      FirstTakesInOrder(before, limit, max, i);
    } else {
      FirstTakesFrom(before, limit, max);
    }
  }

  // ... and likewise for those the second pass adds, with nobody's category in the way.
  lemma {:induction false} SecondTakesInOrder(
    s: seq<QuizCandidate>, from: set<QuizCandidate>, first: seq<QuizCandidate>, limit: nat, max: nat, i: nat)
    requires Fair(first, from, max) && |first| <= limit && Elements(s) <= from && i < |s|
    requires var chosen := Second(s, first, limit, max);
      s[i].key.id !in Ids(chosen) && CountSender(chosen, s[i].sender) < max
    ensures Elements(Second(s, first, limit, max)) <= Elements(first) + Elements(s[..i])
    decreases |s|
  {
    var n := |s| - 1;
    var before, c := s[..n], s[n];
    var chosen := Second(before, first, limit, max);
    assert forall d :: d in s <==> d in before || d == c;
    SecondIsFair(before, from, first, limit, max);
    if i < n {
      if c !in chosen {
        ChooseOneMore(chosen, c, s[i].sender, s[i].category);
      }
      assert before[i] in before && before[..i] == s[..i] && forall d :: d in chosen ==> d in chosen + [c];
      assert Second(s, first, limit, max) == chosen;
      SecondTakesInOrder(before, from, first, limit, max, i);
    } else {
      assert c in chosen + [c];
      SecondTakesFrom(before, first, limit, max);
    }
  }

  lemma {:induction false} SecondTakesFrom(s: seq<QuizCandidate>, first: seq<QuizCandidate>, limit: nat, max: nat)
    ensures Elements(Second(s, first, limit, max)) <= Elements(first) + Elements(s)
  {
    if s != [] {
      var before := s[..|s| - 1];
      SecondTakesFrom(before, first, limit, max);
      assert s == before + [s[|s| - 1]];
      forall c | c in Second(s, first, limit, max) ensures c in first || c in s {
        assert c in Elements(Second(before, first, limit, max)) || c == s[|s| - 1];
      }
    }
  }

  ghost predicate DistinctIds(s: seq<QuizCandidate>) {
    forall i, j :: 0 <= i < j < |s| ==> s[i].key.id != s[j].key.id
  }

  lemma OrderedElements(unique: seq<QuizCandidate>, ordered: seq<QuizCandidate>)
    requires multiset(ordered) == multiset(unique) && NoDuplicates(unique)
    ensures NoDuplicates(ordered) && Elements(ordered) == Elements(unique)
    ensures DistinctIds(unique) ==> DistinctIds(ordered)
  {
    forall c ensures c in ordered <==> c in unique {
      assert c in ordered <==> c in multiset(ordered);
      assert c in unique <==> c in multiset(unique);
    }
    forall i, j | 0 <= i < j < |ordered| ensures ordered[i] != ordered[j] {
      if ordered[i] == ordered[j] {
        TwiceInBag(ordered, i, j);
        OnceInBag(unique, ordered[i]);
      }
    }
    if DistinctIds(unique) {
      forall i, j | 0 <= i < j < |ordered| ensures ordered[i].key.id != ordered[j].key.id {
        assert ordered[i] in unique && ordered[j] in unique;
        var k :| 0 <= k < |unique| && unique[k] == ordered[i];
        var l :| 0 <= l < |unique| && unique[l] == ordered[j];
      }
    }
  }

  lemma TwiceInBag<T>(s: seq<T>, i: nat, j: nat)
    requires i < j < |s| && s[i] == s[j]
    ensures multiset(s)[s[i]] >= 2
  {
    assert s == s[..i] + [s[i]] + s[i + 1..j] + [s[j]] + s[j + 1..];
  }

  lemma SendersOf(s: seq<QuizCandidate>)
    ensures NoDuplicates(Senders(s)) && forall c :: c in s ==> c.sender in Senders(s)
  {
    var names := seq(|s|, i requires 0 <= i < |s| => s[i].sender);
    forall c | c in s ensures c.sender in names {
      var i :| 0 <= i < |s| && s[i] == c;
      assert names[i] == c.sender;
    }
  }

  // With distinct ids the second pass skips only what is chosen.
  lemma SkippedByIdIsChosen(ordered: seq<QuizCandidate>, chosen: seq<QuizCandidate>, max: nat)
    requires DistinctIds(ordered) && Elements(chosen) <= Elements(ordered) && Offered(chosen, ordered, max)
    ensures Saturated(chosen, Elements(ordered), max)
  {
    forall c | c in Elements(ordered) && c.key.id in Ids(chosen) ensures c in chosen {
      var d :| d in chosen && d.key.id == c.key.id;
      assert d in Elements(ordered);
      var i :| 0 <= i < |ordered| && ordered[i] == c;
      var j :| 0 <= j < |ordered| && ordered[j] == d;
    }
  }

  function Quiz(ordered: seq<QuizCandidate>, limit: nat, max: nat): seq<QuizCandidate> {
    var first := First(ordered, limit, max);
    if |first| < limit then Second(ordered, first, limit, max) else first
  }

  // The quiz is a fair choice with the first of the list first.  With distinct message ids (one account) it has
  // the best possible size, so the pass that spreads over the categories never costs a place.
  lemma SizeOfTheQuiz(ordered: seq<QuizCandidate>, senders: seq<string>, limit: nat, max: nat)
    requires NoDuplicates(ordered) && limit >= 1 && max >= 1
    requires NoDuplicates(senders) && forall c :: c in ordered ==> c.sender in senders
    ensures Fair(Quiz(ordered, limit, max), Elements(ordered), max) && |Quiz(ordered, limit, max)| <= limit
    ensures ordered != [] ==> Quiz(ordered, limit, max) != [] && Quiz(ordered, limit, max)[0] == ordered[0]
    ensures DistinctIds(ordered) ==>
      |Quiz(ordered, limit, max)| == Min(limit, Capacity(Elements(ordered), senders, max))
  {
    var quiz := Quiz(ordered, limit, max);
    FirstIsFair(ordered, limit, max);
    if ordered != [] {
      FirstTakesTheHead(ordered, limit, max);
    }
    if |First(ordered, limit, max)| < limit {
      SecondIsFair(ordered, Elements(ordered), First(ordered, limit, max), limit, max);
    }
    FairChoiceFits(quiz, Elements(ordered), senders, max);
    if DistinctIds(ordered) && |quiz| < limit {
      SkippedByIdIsChosen(ordered, quiz, max);
      SaturatedChoiceFills(quiz, Elements(ordered), senders, max);
    }
  }

  method Select(candidates: seq<QuizCandidate>, limit: int, answered: set<MessageKey>, max: nat)
    returns (chosen: seq<QuizCandidate>, ghost ordered: seq<QuizCandidate>)
    requires max >= 1
    ensures Sorted(ordered) && multiset(ordered) == multiset(Unique(candidates, answered))
    ensures chosen == if limit < 1 then [] else Quiz(ordered, limit, max)
    ensures Fair(chosen, Elements(Unique(candidates, answered)), max)
    ensures limit >= 1 && DistinctIds(Unique(candidates, answered)) ==>
      var u := Unique(candidates, answered); |chosen| == Min(limit, Capacity(Elements(u), Senders(u), max))
  {
    var sorted := SortByPriority(Unique(candidates, answered));
    if limit < 1 {
      NobodyIsFair(Elements(Unique(candidates, answered)), max);
      return [], sorted;
    }
    SelectedFrom(candidates, answered, sorted, limit, max);
    var first, counts := FirstPass(sorted, limit, max);
    if |first| == limit {
      return first, sorted;
    }
    chosen := SecondPass(sorted, limit, max, first, counts);
    ordered := sorted;
  }

  // What the quiz is, in terms of the candidates it was given.
  lemma SelectedFrom(candidates: seq<QuizCandidate>, answered: set<MessageKey>, ordered: seq<QuizCandidate>, limit: nat,
                     max: nat)
    requires multiset(ordered) == multiset(Unique(candidates, answered)) && limit >= 1 && max >= 1
    ensures NoDuplicates(ordered)
    ensures Fair(Quiz(ordered, limit, max), Elements(Unique(candidates, answered)), max)
    ensures |First(ordered, limit, max)| <= limit && |Quiz(ordered, limit, max)| <= limit
    ensures var u := Unique(candidates, answered);
      DistinctIds(u) ==> |Quiz(ordered, limit, max)| == Min(limit, Capacity(Elements(u), Senders(u), max))
  {
    var unique := Unique(candidates, answered);
    UniqueKeys(candidates, answered);
    OrderedElements(unique, ordered);
    SendersOf(unique);
    forall c | c in ordered ensures c.sender in Senders(unique) {
      assert c in Elements(ordered);
    }
    SizeOfTheQuiz(ordered, Senders(unique), limit, max);
    FirstIsFair(ordered, limit, max);
  }

  // The quiz opens with an undecided message while there is one to ask about, the least confident of them, and with
  // the least confident message of all otherwise; among equals the id decides.
  lemma QuizOpensWith(
    candidates: seq<QuizCandidate>, answered: set<MessageKey>, ordered: seq<QuizCandidate>, limit: nat, max: nat,
    c: QuizCandidate)
    requires Sorted(ordered) && multiset(ordered) == multiset(Unique(candidates, answered)) && limit >= 1 && max >= 1
    requires c in Unique(candidates, answered)
    ensures Quiz(ordered, limit, max) != []
    ensures var head, undecided := Quiz(ordered, limit, max)[0], {Uncertain, Other};
      && head in candidates && head.key !in answered
      && (c.category in undecided ==> head.category in undecided)
      && (c.category in undecided || head.category !in undecided ==>
            && head.confidence <= c.confidence
            && (head.confidence == c.confidence ==> !TextBelow(c.key.id, head.key.id)))
  {
    SelectedFrom(candidates, answered, ordered, limit, max);
    SameElements(ordered, Unique(candidates, answered));
    FirstTakesTheHead(ordered, limit, max);
    FirstIsFair(ordered, limit, max);
    SecondIsFair(ordered, Elements(ordered), First(ordered, limit, max), limit, max);
    UniqueTakesUnanswered(candidates, answered, ordered[0]);
    var i :| 0 <= i < |ordered| && ordered[i] == c;
    assert i > 0 ==> !Before(ordered[i], ordered[0]);
    TextBelowIsAnOrder(c.key.id, c.key.id, c.key.id);
  }

  lemma SameElements(a: seq<QuizCandidate>, b: seq<QuizCandidate>)
    requires multiset(a) == multiset(b)
    ensures forall c :: c in a <==> c in b
  {
    forall c: QuizCandidate ensures c in a <==> c in b {
      assert c in a <==> c in multiset(a);
      assert c in b <==> c in multiset(b);
    }
  }

  // Python's order of strings: the first character in which they differ decides, and a prefix comes first.
  lemma {:induction false} TextBelowMeans(a: string, b: string)
    ensures TextBelow(a, b) <==> exists k: nat :: DiffersAt(a, b, k)
  {
    if a != [] && b != [] && a[0] == b[0] {
      TextBelowMeans(a[1..], b[1..]);
      if k: nat :| DiffersAt(a[1..], b[1..], k) {
        assert a[..k + 1] == [a[0]] + a[1..][..k] && b[..k + 1] == [b[0]] + b[1..][..k];
        assert DiffersAt(a, b, k + 1);
      }
      if k: nat :| DiffersAt(a, b, k) {
        assert k > 0 && a[1..][..k - 1] == a[..k][1..] && b[1..][..k - 1] == b[..k][1..];
        assert DiffersAt(a[1..], b[1..], k - 1);
      }
    } else {
      assert TextBelow(a, b) ==> DiffersAt(a, b, 0);
    }
  }

  ghost predicate DiffersAt(a: string, b: string, k: nat) {
    k <= |a| && k < |b| && a[..k] == b[..k] && (k == |a| || a[k] < b[k])
  }

  // The candidates of one account have distinct ids once they are unique.
  lemma OneAccountHasDistinctIds(candidates: seq<QuizCandidate>, answered: set<MessageKey>, account: string)
    requires forall c :: c in candidates ==> c.key.account == account
    ensures DistinctIds(Unique(candidates, answered))
  {
    UniqueKeys(candidates, answered);
    var u := Unique(candidates, answered);
    forall i | 0 <= i < |u| ensures u[i].key.account == account {
      UniqueTakesUnanswered(candidates, answered, u[i]);
    }
  }

  // Three candidates of one category from three senders, the last one in another account but with the id of
  // the first: there is room for all three, and the second pass takes the third for the first.
  lemma SharedIdCostsAPlace(a: QuizCandidate, b: QuizCandidate, c: QuizCandidate)
    requires a.category == b.category == c.category
    requires a.sender != b.sender && a.sender != c.sender && b.sender != c.sender
    requires a.key.id == c.key.id != b.key.id && a.key.account != c.key.account
    ensures Quiz([a, b, c], 3, 2) == [a, b]
    ensures Capacity({a, b, c}, [a.sender, b.sender, c.sender], 2) == 3
  {
    FirstOfThree(a, b, c);
    var first := [a, b];
    assert [a, b, c][..2] == [a, b] && [a, b][..1] == [a] && [a][..0] == [];
    assert a in first && b in first;
    assert Second([a], first, 3, 2) == first;
    assert Second([a, b], first, 3, 2) == first;
    var senders := [a.sender, b.sender, c.sender];
    assert senders[..2] == [a.sender, b.sender] && senders[..2][..1] == [a.sender] && [a.sender][..0] == [];
    assert OfSender({a, b, c}, a.sender) == {a} && OfSender({a, b, c}, b.sender) == {b};
    assert OfSender({a, b, c}, c.sender) == {c};
    assert Capacity({a, b, c}, [a.sender], 2) == 1;
    assert Capacity({a, b, c}, [a.sender, b.sender], 2) == 2;
  }

  lemma FirstOfThree(a: QuizCandidate, b: QuizCandidate, c: QuizCandidate)
    requires a.category == b.category == c.category
    requires a.sender != b.sender && a.sender != c.sender && b.sender != c.sender && a.key.id != b.key.id
    ensures First([a, b, c], 3, 2) == [a, b]
  {
    assert [a, b, c][..2] == [a, b] && [a, b][..1] == [a] && [a][..0] == [];
    assert Elements<QuizCandidate>([]) == {} && OfSender({}, a.sender) == {} && OfCategory({}, a.category) == {};
    assert First([a], 3, 2) == [a];
    assert Elements([a]) == {a} && OfSender({a}, b.sender) == {} && OfCategory({a}, b.category) == {a};
    assert First([a, b], 3, 2) == [a, b];
    assert Elements([a, b]) == {a, b} && OfCategory({a, b}, c.category) == {a, b};
  }
}
