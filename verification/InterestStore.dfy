/** The PreferenceStore methods of learning.py that keep and read the learned preferences. */
module InterestStore {
  import opened Mail
  import opened RecentInterest
  import opened Interest

  // What interest_for hands to the policy engine; the constructor of the snapshot refuses anything else.
  datatype Snapshot = Snapshot(score: real, observations: nat, similarities: Similarities, recent: Recent)
  {
    predicate Valid() {
      && 0.0 <= score <= 1.0
      && 0.0 <= similarities.keep.best <= 1.0 && 0.0 <= similarities.dontKeep.best <= 1.0
      && 0.0 <= recent.score <= 1.0 && recent.evidence >= 0.0
    }
  }

  datatype Similarities = Similarities(keep: Closest, dontKeep: Closest)

  datatype Closest = Closest(best: real, examples: nat)

  function MakeSnapshot(s: Snapshot): Result<Snapshot> { if s.Valid() then Ok(s) else Rejected }

  lemma RefusedExactlyWhen(s: Snapshot)
    ensures MakeSnapshot(s) == Rejected <==>
      || s.score < 0.0 || s.score > 1.0 || s.recent.score < 0.0 || s.recent.score > 1.0 || s.recent.evidence < 0.0
      || s.similarities.keep.best < 0.0 || s.similarities.keep.best > 1.0
      || s.similarities.dontKeep.best < 0.0 || s.similarities.dontKeep.best > 1.0
    ensures MakeSnapshot(s) != Rejected ==> MakeSnapshot(s) == Ok(s)
  {
  }

  // One group of the similarity query.
  datatype Hit = Hit(answer: Answer, similarity: real)

  // The groups are the examples of the account that share a feature with the content.
  function Hits(x: Index, account: string, content: set<string>): map<MessageKey, Hit>
    requires content != {}
  {
    map m | m in x.examples && m.account == account && content * x.Stored(m) != {} ::
      Hit(x.examples[m].answer, Similarity(content, x.Stored(m), x.examples[m].count))
  }

  lemma HitsAreNotNegative(x: Index, account: string, content: set<string>, m: MessageKey)
    requires content != {} && m in Hits(x, account, content)
    ensures Hits(x, account, content)[m].similarity >= 0.0
  {
    Fraction(2.0 * |content * x.Stored(m)| as real, (|content| + x.examples[m].count) as real);
  }

  // The hits with this answer that are close.
  function Near(hits: map<MessageKey, Hit>, seen: set<MessageKey>, answer: Answer): set<MessageKey> {
    set m | m in seen && m in hits && hits[m].answer == answer && hits[m].similarity >= 0.55
  }

  // Which examples count as close, told from the index and the content.
  lemma CloseExamples(x: Index, account: string, content: set<string>, answer: Answer, m: MessageKey)
    requires content != {}
    ensures m in Near(Hits(x, account, content), Hits(x, account, content).Keys, answer) <==>
      && m in x.examples && m.account == account && x.examples[m].answer == answer
      && 2.0 * |content * x.Stored(m)| as real >= 0.55 * (|content| + x.examples[m].count) as real
  {
    if m in x.examples {
      var shared, sizes := 2.0 * |content * x.Stored(m)| as real, (|content| + x.examples[m].count) as real;
      assert |content| > 0;
      QuotientAtLeast(shared, sizes, 0.55);
      assert content * x.Stored(m) == {} ==> shared == 0.0;
    }
  }

  lemma QuotientAtLeast(a: real, b: real, bound: real)
    requires b > 0.0
    ensures a / b >= bound <==> a >= bound * b
  {
    assert a / b * b == a;
  }

  // c is the closest hit with this answer, or zero, and the number of those that are close.
  ghost predicate IsClosest(hits: map<MessageKey, Hit>, seen: set<MessageKey>, answer: Answer, c: Closest) {
    && (forall m :: m in seen && m in hits && hits[m].answer == answer ==> hits[m].similarity <= c.best)
    && c.best >= 0.0
    && (c.best == 0.0 || exists m :: m in seen && m in hits && hits[m] == Hit(answer, c.best))
    && c.examples == |Near(hits, seen, answer)|
  }

  // Every example of the account keeps its similarity in range for every message.
  ghost predicate Trusted(x: Index, account: string) {
    forall m :: m in x.examples && m.account == account ==> Covers(x, m)
  }

  lemma HitInRange(x: Index, account: string, content: set<string>, m: MessageKey)
    requires content != {} && Trusted(x, account) && m in Hits(x, account, content)
    ensures Hits(x, account, content)[m].similarity <= 1.0
  {
    SimilarityInRangeExactlyWhen(x.Stored(m), x.examples[m].count);
  }

  lemma ClosestInRange(x: Index, account: string, content: set<string>, answer: Answer, c: Closest)
    requires content != {} && Trusted(x, account)
    requires IsClosest(Hits(x, account, content), Hits(x, account, content).Keys, answer, c)
    ensures c.best <= 1.0
  {
    var hits := Hits(x, account, content);
    if c.best != 0.0 {
      var m :| m in hits && hits[m] == Hit(answer, c.best);
      HitInRange(x, account, content, m);
    }
  }

  // An example whose stored features outnumber its recorded count has a message it is too close to.
  lemma UntrustedExampleIsTooClose(x: Index, m: MessageKey, c: Closest)
    requires m in x.examples && !Covers(x, m)
    ensures x.Stored(m) != {}
    ensures var hits := Hits(x, m.account, x.Stored(m));
      IsClosest(hits, hits.Keys, x.examples[m].answer, c) ==> c.best > 1.0
  {
    var stored, count := x.Stored(m), x.examples[m].count;
    assert stored * stored == stored;
    Fraction(2.0 * |stored| as real, (|stored| + count) as real);
    var hits := Hits(x, m.account, stored);
    assert m in hits && hits[m].similarity > 1.0;
  }

  method NextHit(hits: map<MessageKey, Hit>, m: MessageKey, ghost seen: set<MessageKey>, answer: Answer, c: Closest)
    returns (c': Closest)
    requires m in hits && m !in seen && hits[m].similarity >= 0.0 && IsClosest(hits, seen, answer, c)
    ensures IsClosest(hits, seen + {m}, answer, c')
  {
    var hit := hits[m];
    ghost var near := Near(hits, seen, answer);
    if hit.answer == answer {
      c' := Closest(if hit.similarity > c.best then hit.similarity else c.best, c.examples);
      if hit.similarity >= 0.55 {
        c' := c'.(examples := c.examples + 1);
        assert Near(hits, seen + {m}, answer) == near + {m};
      } else {
        assert Near(hits, seen + {m}, answer) == near;
      }
    } else {
      c' := c;
      assert Near(hits, seen + {m}, answer) == near;
    }
  }

  ghost predicate IsSimilarity(x: Index, account: string, content: set<string>, s: Similarities) {
    if content == {} then s == Similarities(Closest(0.0, 0), Closest(0.0, 0))
    else
      var hits := Hits(x, account, content);
      IsClosest(hits, hits.Keys, AnswerKeep, s.keep) && IsClosest(hits, hits.Keys, AnswerDontKeep, s.dontKeep)
  }

  // The loop of _similarity_for: the groups come in any order.
  method ClosestHits(hits: map<MessageKey, Hit>) returns (s: Similarities)
    requires forall m :: m in hits ==> hits[m].similarity >= 0.0
    ensures IsClosest(hits, hits.Keys, AnswerKeep, s.keep) && IsClosest(hits, hits.Keys, AnswerDontKeep, s.dontKeep)
  {
    var keep, dontKeep := Closest(0.0, 0), Closest(0.0, 0);
    var rows, seen: set<MessageKey> := hits.Keys, {};
    while rows != {}
      invariant rows + seen == hits.Keys && rows !! seen
      invariant IsClosest(hits, seen, AnswerKeep, keep)
      invariant IsClosest(hits, seen, AnswerDontKeep, dontKeep)
      decreases |rows|
    {
      var m :| m in rows;
      keep := NextHit(hits, m, seen, AnswerKeep, keep);
      dontKeep := NextHit(hits, m, seen, AnswerDontKeep, dontKeep);
      rows, seen := rows - {m}, seen + {m};
    }
    assert seen == hits.Keys;
    s := Similarities(keep, dontKeep);
  }

  method SimilarityFor(x: Index, account: string, content: set<string>) returns (s: Similarities)
    ensures IsSimilarity(x, account, content, s)
  {
    if content == {} {
      return Similarities(Closest(0.0, 0), Closest(0.0, 0));
    }
    var hits := Hits(x, account, content);
    forall m | m in hits ensures hits[m].similarity >= 0.0 {
      HitsAreNotNegative(x, account, content, m);
    }
    s := ClosestHits(hits);
  }

  lemma TrustedSimilarities(x: Index, account: string, content: set<string>, s: Similarities)
    requires IsSimilarity(x, account, content, s) && Trusted(x, account)
    ensures 0.0 <= s.keep.best <= 1.0 && 0.0 <= s.dontKeep.best <= 1.0
  {
    if content != {} {
      ClosestInRange(x, account, content, AnswerKeep, s.keep);
      ClosestInRange(x, account, content, AnswerDontKeep, s.dontKeep);
    }
  }

  class InterestStore {
    var preference: PreferenceTable
    var examples: map<MessageKey, Example>
    var features: set<(MessageKey, string)>
    var answers: map<MessageKey, Answer>

    function State(): State
      reads this
    {
      Interest.State(preference, Index(examples, features), answers)
    }

    constructor ()
      ensures State() == EMPTY
    {
      preference, examples, features, answers := map[], map[], {}, map[];
    }

    // _observe_with_connection: one upsert per feature.
    method ObserveFeatures(letter: Letter, category: Category, w: Weight)
      modifies this`preference
      ensures preference == Observe(old(preference), letter, category, w)
    {
      var fs := Features(letter, category);
      for i := 0 to |fs|
        invariant i == 0 ==> preference == old(preference)
        invariant i == 1 ==> preference == Upsert(old(preference), (letter.key.account, fs[0]), w)
        invariant i == 2 ==>
          preference == Upsert(Upsert(old(preference), (letter.key.account, fs[0]), w), (letter.key.account, fs[1]), w)
        invariant i == 3 ==> preference == Observe(old(preference), letter, category, w)
      {
        preference := Upsert(preference, (letter.key.account, fs[i]), w);
      }
    }

    // _record_similarity_with_connection.
    method RecordSimilarity(letter: Letter, answer: Answer)
      modifies this`examples, this`features
      ensures Index(examples, features) == Record(old(Index(examples, features)), letter, answer)
    {
      if answer == AnswerUnsure || letter.content == {} {
        return;
      }
      if letter.key !in examples {
        examples := examples[letter.key := Example(answer, |letter.content|)];
      }
      var todo := letter.content;
      ghost var indexed := examples;
      while todo != {}
        invariant examples == indexed
        invariant todo <= letter.content
        invariant features == old(features) + Tagged(letter.key, letter.content - todo)
        decreases |todo|
      {
        var f :| f in todo;
        todo, features := todo - {f}, features + {(letter.key, f)};
      }
      assert letter.content - todo == letter.content;
    }

    method BackfillSimilarityExample(letter: Letter, answer: Answer)
      modifies this
      ensures State() == Step(old(State()), Backfilled(letter, answer))
    {
      RecordSimilarity(letter, answer);
    }

    // The signal CalibrationQuiz.answer chooses for an answer; an unsure one has none.
    method ObserveAnswer(letter: Letter, category: Category, answer: Answer)
      modifies this`preference
      ensures preference ==
        if SignalOf(answer).Some? then Observe(old(preference), letter, category, WeightOf(SignalOf(answer).value))
        else old(preference)
    {
      var signal := SignalOf(answer);
      if signal.Some? {
        ObserveFeatures(letter, category, WeightOf(signal.value));
      }
    }

    // record_quiz_answer
    method RecordQuizAnswer(letter: Letter, category: Category, answer: Answer)
      modifies this
      ensures State() == Step(old(State()), Answered(letter, category, answer))
    {
      if letter.key in answers {
        return;
      }
      ObserveAnswer(letter, category, answer);
      RecordSimilarity(letter, answer);
      answers := answers[letter.key := answer];
    }

    method CountVotes(account: string, fs: seq<Feature>) returns (votes: Tally)
      requires forall key :: key in preference ==> preference[key].Sensible()
      ensures votes == Votes(preference, account, fs) && votes.Sensible()
    {
      votes := ZERO;
      for i := 0 to |fs|
        invariant votes == Votes(preference, account, fs[..i]) && votes.Sensible()
      {
        assert fs[..i + 1][..i] == fs[..i];
        var key := (account, fs[i]);
        if key in preference {
          var row := preference[key];
          votes := Tally(votes.positive + row.positive, votes.negative + row.negative,
                         votes.observations + row.observations);
        }
      }
      assert fs[..|fs|] == fs;
    }

    // interest_for, given the result of the recent-interest query.
    method InterestFor(letter: Letter, category: Category, recent: Recent) returns (r: Result<Snapshot>)
      requires 0.0 <= recent.score <= 1.0 && recent.evidence >= 0.0
      requires forall key :: key in preference ==> preference[key].Sensible()
      ensures exists s :: IsSnapshot(State(), letter, category, recent, s) && r == MakeSnapshot(s)
      ensures Trusted(State().index, letter.key.account) ==> r.Ok?
    {
      var votes := CountVotes(letter.key.account, Features(letter, category));
      Share(votes.positive, votes.negative, 3.0, 4.0);
      var x := Index(examples, features);
      var similarities := SimilarityFor(x, letter.key.account, letter.content);
      var score := (3.0 + votes.positive) / (4.0 + votes.positive + votes.negative);
      var s := Snapshot(score, votes.observations, similarities, recent);
      assert IsSnapshot(State(), letter, category, recent, s);
      if Trusted(x, letter.key.account) {
        TrustedSimilarities(x, letter.key.account, letter.content, similarities);
      }
      r := MakeSnapshot(s);
    }
  }

  // The votes for the features of a message, added up.
  function Votes(p: PreferenceTable, account: string, fs: seq<Feature>): Tally {
    if fs == [] then ZERO
    else
      var before, row := Votes(p, account, fs[..|fs| - 1]), Lookup(p, (account, fs[|fs| - 1]));
      Tally(before.positive + row.positive, before.negative + row.negative, before.observations + row.observations)
  }

  // The prior leans towards keeping.
  ghost predicate IsScore(score: real, votes: Tally) {
    score * (4.0 + votes.positive + votes.negative) == 3.0 + votes.positive
  }

  ghost predicate IsSnapshot(state: State, letter: Letter, category: Category, recent: Recent, s: Snapshot) {
    var votes := Votes(state.preference, letter.key.account, Features(letter, category));
    && IsScore(s.score, votes)
    && s.observations == votes.observations
    && IsSimilarity(state.index, letter.key.account, letter.content, s.similarities)
    && s.recent == recent
  }

  // While the index of the account is trusted the constructor accepts every snapshot.
  lemma TrustedSnapshotIsValid(state: State, letter: Letter, category: Category, recent: Recent, s: Snapshot)
    requires Trusted(state.index, letter.key.account) && IsSnapshot(state, letter, category, recent, s)
    requires 0.0 <= recent.score <= 1.0 && recent.evidence >= 0.0
    requires forall key :: key in state.preference ==> state.preference[key].Sensible()
    ensures MakeSnapshot(s) == Ok(s)
  {
    var votes := Votes(state.preference, letter.key.account, Features(letter, category));
    VotesAreSensible(state.preference, letter.key.account, Features(letter, category));
    ShareInRange(s.score, votes.positive, votes.negative);
    TrustedSimilarities(state.index, letter.key.account, letter.content, s.similarities);
  }

  lemma {:induction false} VotesAreSensible(p: PreferenceTable, account: string, fs: seq<Feature>)
    requires forall key :: key in p ==> p[key].Sensible()
    ensures Votes(p, account, fs).Sensible()
  {
    if fs != [] {
      VotesAreSensible(p, account, fs[..|fs| - 1]);
    }
  }

  lemma ShareInRange(share: real, p: real, n: real)
    requires p >= 0.0 && n >= 0.0 && share * (4.0 + p + n) == 3.0 + p
    ensures 0.0 <= share <= 1.0
  {
    ProductIsPositive(4.0 + p + n, if share < 0.0 then -share else share - 1.0);
  }

  lemma ProductIsPositive(x: real, y: real)
    requires x > 0.0
    ensures y > 0.0 ==> x * y > 0.0
  {
  }

  lemma RowsAreSensible(log: seq<Event>)
    ensures forall key :: key in Play(log).preference ==> Play(log).preference[key].Sensible()
  {
    forall key | key in Play(log).preference ensures Play(log).preference[key].Sensible() {
      PreferenceSumsFirstAnswers(log, key);
      TotalIsSensible(log, key);
    }
  }

  // ---- what an answer does to the score ----

  // How many of the three features of a message an answer bears.
  function Shared(e: Event, letter: Letter, category: Category): (n: nat) {
    var a := letter.key.account;
    (if Bears(e, (a, FromSender(letter.sender))) then 1 else 0)
    + (if Bears(e, (a, FromDomain(letter.domain))) then 1 else 0)
    + (if Bears(e, (a, InCategory(category))) then 1 else 0)
  }

  lemma VotesOfThree(p: PreferenceTable, account: string, letter: Letter, category: Category)
    ensures var votes := Votes(p, account, Features(letter, category));
      var s, d, c := Lookup(p, (account, FromSender(letter.sender))), Lookup(p, (account, FromDomain(letter.domain))),
                     Lookup(p, (account, InCategory(category)));
      && votes.positive == s.positive + d.positive + c.positive
      && votes.negative == s.negative + d.negative + c.negative
  {
    var one, two := [FromSender(letter.sender)], [FromSender(letter.sender), FromDomain(letter.domain)];
    assert Features(letter, category)[..2] == two && two[..1] == one && one[..0] == [];
    assert Votes(p, account, one).positive == Lookup(p, (account, one[0])).positive;
    assert Votes(p, account, one).negative == Lookup(p, (account, one[0])).negative;
    assert Votes(p, account, two).positive
        == Votes(p, account, one).positive + Lookup(p, (account, two[1])).positive;
  }

  lemma AnswerMovesTheVotes(log: seq<Event>, e: Event, letter: Letter, category: Category)
    requires e.Answered? && e.letter.key !in Play(log).answers
    ensures var fs := Features(letter, category);
      var before := Votes(Play(log).preference, letter.key.account, fs);
      var after := Votes(Play(log + [e]).preference, letter.key.account, fs);
      var n := Shared(e, letter, category) as real;
      && after.positive == before.positive + (if e.answer == AnswerKeep then 4.0 * n else 0.0)
      && after.negative == before.negative + (if e.answer == AnswerDontKeep then 3.0 * n else 0.0)
  {
    var a := letter.key.account;
    VotesOfThree(Play(log).preference, a, letter, category);
    VotesOfThree(Play(log + [e]).preference, a, letter, category);
    AnswerMovesARow(log, e, (a, FromSender(letter.sender)));
    AnswerMovesARow(log, e, (a, FromDomain(letter.domain)));
    AnswerMovesARow(log, e, (a, InCategory(category)));
  }

  lemma AnswerMovesARow(log: seq<Event>, e: Event, key: FeatureKey)
    requires e.Answered? && e.letter.key !in Play(log).answers
    ensures var before, after := Lookup(Play(log).preference, key), Lookup(Play(log + [e]).preference, key);
      && after.positive == before.positive + (if Bears(e, key) && e.answer == AnswerKeep then 4.0 else 0.0)
      && after.negative == before.negative + (if Bears(e, key) && e.answer == AnswerDontKeep then 3.0 else 0.0)
  {
    RowsCountTheAnswers(log, key);
    RowsCountTheAnswers(log + [e], key);
    OneMoreAnswer(log, e, key, AnswerKeep);
    OneMoreAnswer(log, e, key, AnswerDontKeep);
  }

  // More on the kept side raises the score, more on the other side lowers it.
  lemma VotesMoveTheScore(x: real, y: real, votes: Tally, more: Tally, n: nat, answer: Answer)
    requires votes.Sensible() && IsScore(x, votes) && IsScore(y, more)
    requires more.positive == votes.positive + (if answer == AnswerKeep then 4.0 * n as real else 0.0)
    requires more.negative == votes.negative + (if answer == AnswerDontKeep then 3.0 * n as real else 0.0)
    ensures answer == AnswerKeep ==> y >= x && (n > 0 ==> y > x)
    ensures answer == AnswerDontKeep ==> y <= x && (n > 0 ==> y < x)
    ensures answer == AnswerUnsure ==> y == x
  {
    ShareBelowOne(x, votes.positive, votes.negative);
    var total := 4.0 + more.positive + more.negative;
    if answer == AnswerKeep {
      assert (y - x) * total == (4.0 * n as real) * (1.0 - x);
    } else if answer == AnswerDontKeep {
      assert (x - y) * total == (3.0 * n as real) * x;
    } else {
      assert (x - y) * total == 0.0;
    }
    SignOfQuotient(y - x, total, if answer == AnswerKeep then 4.0 * n as real else 0.0, 1.0 - x);
    SignOfQuotient(x - y, total, if answer == AnswerDontKeep then 3.0 * n as real else 0.0, x);
  }

  lemma SignOfQuotient(d: real, total: real, part: real, weight: real)
    requires total > 0.0 && part >= 0.0 && weight > 0.0
    ensures d * total == part * weight ==> d >= 0.0 && (part > 0.0 ==> d > 0.0)
  {
    if part > 0.0 {
      ProductIsPositive(part, weight);
    }
    ProductIsPositive(total, -d);
  }

  lemma ShareBelowOne(share: real, p: real, n: real)
    requires p >= 0.0 && n >= 0.0 && share * (4.0 + p + n) == 3.0 + p
    ensures 0.0 < share < 1.0
  {
    ShareInRange(share, p, n);
    assert share != 0.0 && share != 1.0;
  }

  // Over every log: a further first answer Keep never lowers the score of any message, and raises it for every
  // message that shares a feature; DontKeep does the reverse; an unsure answer moves no score.
  lemma AnswersMoveTheScore(
    log: seq<Event>, e: Event, letter: Letter, category: Category, recent: Recent, recent': Recent, s: Snapshot,
    s': Snapshot)
    requires e.Answered? && e.letter.key !in Play(log).answers
    requires IsSnapshot(Play(log), letter, category, recent, s)
    requires IsSnapshot(Play(log + [e]), letter, category, recent', s')
    ensures e.answer == AnswerKeep ==> s'.score >= s.score && (Shared(e, letter, category) > 0 ==> s'.score > s.score)
    ensures e.answer == AnswerDontKeep ==>
      s'.score <= s.score && (Shared(e, letter, category) > 0 ==> s'.score < s.score)
    ensures e.answer == AnswerUnsure ==> s'.score == s.score && Play(log + [e]).preference == Play(log).preference
  {
    var p, p' := Play(log).preference, Play(log + [e]).preference;
    var before := Votes(p, letter.key.account, Features(letter, category));
    var after := Votes(p', letter.key.account, Features(letter, category));
    AnswerMovesTheVotes(log, e, letter, category);
    RowsAreSensible(log);
    VotesAreSensible(p, letter.key.account, Features(letter, category));
    PlayGrows(log, e);
    VotesMoveTheScore(s.score, s'.score, before, after, Shared(e, letter, category), e.answer);
  }

  // An empty store leans towards keeping; one answer moves the score of its message to 15/16 or to 3/13.
  lemma FirstScores(e: Event, x: real, y: real)
    requires e.Answered? && IsScore(x, Votes(EMPTY.preference, e.letter.key.account, Features(e.letter, e.category)))
    requires IsScore(y, Votes(Play([e]).preference, e.letter.key.account, Features(e.letter, e.category)))
    ensures x == 3.0 / 4.0
    ensures e.answer == AnswerKeep ==> y == 15.0 / 16.0
    ensures e.answer == AnswerDontKeep ==> y == 3.0 / 13.0
  {
    FirstVotes(e);
  }

  lemma FirstVotes(e: Event)
    requires e.Answered?
    ensures var fs := Features(e.letter, e.category);
      var before := Votes(EMPTY.preference, e.letter.key.account, fs);
      var after := Votes(Play([e]).preference, e.letter.key.account, fs);
      && before.positive == 0.0 && before.negative == 0.0
      && after.positive == (if e.answer == AnswerKeep then 12.0 else 0.0)
      && after.negative == (if e.answer == AnswerDontKeep then 9.0 else 0.0)
  {
    var none: seq<Event> := [];
    assert none + [e] == [e];
    AnswerMovesTheVotes(none, e, e.letter, e.category);
    VotesOfThree(EMPTY.preference, e.letter.key.account, e.letter, e.category);
    assert Shared(e, e.letter, e.category) == 3;
  }

  // In every store built by answers and backfills whose content depends on the message alone, the snapshot's
  // constructor accepts whatever interest_for gives it.
  lemma ConstantContentIsTrusted(log: seq<Event>, contentOf: MessageKey -> set<string>, account: string)
    requires forall i :: 0 <= i < |log| ==> log[i].letter.content == contentOf(log[i].letter.key)
    ensures Trusted(Play(log).index, account)
    ensures forall key :: key in Play(log).preference ==> Play(log).preference[key].Sensible()
  {
    forall m | m in Play(log).index.examples ensures Covers(Play(log).index, m) {
      assert Constant(log, m, contentOf(m));
      IndexHoldsTheContent(log, m, contentOf(m));
    }
    RowsAreSensible(log);
  }

  // Conversely, an example whose stored features outnumber its recorded count has a message of its account for
  // which the constructor refuses the snapshot: interest_for raises.
  lemma UntrustedIndexBreaksTheConstructor(state: State, m: MessageKey, category: Category, recent: Recent, s: Snapshot)
    requires m in state.index.examples && !Covers(state.index, m)
    requires state.index.examples[m].answer != AnswerUnsure
    requires IsSnapshot(state, Letter(m, "", "", state.index.Stored(m)), category, recent, s)
    ensures MakeSnapshot(s) == Rejected
  {
    var hit := if state.index.examples[m].answer == AnswerKeep then s.similarities.keep else s.similarities.dontKeep;
    UntrustedExampleIsTooClose(state.index, m, hit);
  }
}
