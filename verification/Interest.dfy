/** The learned preferences of learning.py: the preference table, the similarity index, and the snapshot that
 * the policy engine is given.
 */
module Interest {
  import opened Mail
  import opened RecentInterest

  // A message as the learner sees it: its address features and its set of content features.
  datatype Letter = Letter(key: MessageKey, sender: string, domain: string, content: set<string>)

  datatype Feature = FromSender(sender: string) | FromDomain(domain: string) | InCategory(category: Category)

  function Features(letter: Letter, category: Category): seq<Feature> {
    [FromSender(letter.sender), FromDomain(letter.domain), InCategory(category)]
  }

  datatype Tally = Tally(positive: real, negative: real, observations: nat)
  {
    function Plus(w: Weight): Tally { Tally(positive + w.positive, negative + w.negative, observations + 1) }

    predicate Sensible() { positive >= 0.0 && negative >= 0.0 }
  }

  const ZERO := Tally(0.0, 0.0, 0)

  type FeatureKey = (string, Feature)

  type PreferenceTable = map<FeatureKey, Tally>

  function Lookup(p: PreferenceTable, key: FeatureKey): Tally { if key in p then p[key] else ZERO }

  datatype Example = Example(answer: Answer, count: nat)

  datatype Index = Index(examples: map<MessageKey, Example>, features: set<(MessageKey, string)>)
  {
    function Stored(m: MessageKey): set<string> { set pair | pair in features && pair.0 == m :: pair.1 }
  }

  datatype State = State(preference: PreferenceTable, index: Index, answers: map<MessageKey, Answer>)

  // ---- the transactions ----

  function SignalOf(answer: Answer): Option<Signal> {
    match answer
    case AnswerKeep => Some(ExplicitKeep)
    case AnswerDontKeep => Some(NotInterested)
    case AnswerUnsure => None
  }

  function Upsert(p: PreferenceTable, key: FeatureKey, w: Weight): PreferenceTable {
    p[key := Lookup(p, key).Plus(w)]
  }

  function Observe(p: PreferenceTable, letter: Letter, category: Category, w: Weight): PreferenceTable {
    var a := letter.key.account;
    var fs := Features(letter, category);
    Upsert(Upsert(Upsert(p, (a, fs[0]), w), (a, fs[1]), w), (a, fs[2]), w)
  }

  // Whether an answer leaves an example behind.
  predicate Indexed(letter: Letter, answer: Answer) { answer != AnswerUnsure && letter.content != {} }

  // Two INSERT OR IGNORE statements: the example row of a message is written once, its features accumulate.
  function Record(x: Index, letter: Letter, answer: Answer): Index {
    if !Indexed(letter, answer) then x
    else Index(
      if letter.key in x.examples then x.examples else x.examples[letter.key := Example(answer, |letter.content|)],
      x.features + Tagged(letter.key, letter.content))
  }

  function Tagged(key: MessageKey, content: set<string>): set<(MessageKey, string)> {
    set f | f in content :: (key, f)
  }

  datatype Event =
    | Answered(letter: Letter, category: Category, answer: Answer)
    | Backfilled(letter: Letter, answer: Answer)

  // One call of record_quiz_answer or backfill_similarity_example.
  function Step(s: State, e: Event): State {
    match e
    case Answered(letter, category, answer) =>
      if letter.key in s.answers then s
      else State(
        if SignalOf(answer).Some? then Observe(s.preference, letter, category, WeightOf(SignalOf(answer).value))
        else s.preference,
        Record(s.index, letter, answer),
        s.answers[letter.key := answer])
    case Backfilled(letter, answer) => s.(index := Record(s.index, letter, answer))
  }

  const EMPTY := State(map[], Index(map[], {}), map[])

  function Play(log: seq<Event>): State {
    if log == [] then EMPTY else Step(Play(log[..|log| - 1]), log[|log| - 1])
  }

  lemma PlayGrows(log: seq<Event>, e: Event)
    ensures Play(log + [e]) == Step(Play(log), e)
  {
    assert (log + [e])[..|log|] == log;
  }

  // ---- the preference table ----

  // The i-th event is the first answer to its message.
  predicate FirstAnswer(log: seq<Event>, i: nat)
    requires i < |log|
  {
    log[i].Answered? && forall j :: 0 <= j < i ==> !(log[j].Answered? && log[j].letter.key == log[i].letter.key)
  }

  predicate Touches(e: Event, key: FeatureKey)
    requires e.Answered?
  {
    SignalOf(e.answer).Some? && key.0 == e.letter.key.account && key.1 in Features(e.letter, e.category)
  }

  // What the log of answers should add up to: the weight of the first answer to each message.
  function Total(log: seq<Event>, key: FeatureKey): Tally {
    if log == [] then ZERO
    else
      var k := |log| - 1;
      var before := Total(log[..k], key);
      if FirstAnswer(log, k) && Touches(log[k], key) then before.Plus(WeightOf(SignalOf(log[k].answer).value))
      else before
  }

  lemma {:induction false} AnsweredInLog(log: seq<Event>, m: MessageKey)
    ensures m in Play(log).answers <==> exists i :: 0 <= i < |log| && log[i].Answered? && log[i].letter.key == m
  {
    if log != [] {
      var k := |log| - 1;
      AnsweredInLog(log[..k], m);
      assert forall i :: 0 <= i < k ==> log[..k][i] == log[i];
      if i :| 0 <= i < |log| && log[i].Answered? && log[i].letter.key == m {
        if i < k {
          assert log[..k][i].Answered?;
        }
      }
    }
  }

  lemma FirstAnswerIsNew(log: seq<Event>)
    requires log != [] && log[|log| - 1].Answered?
    ensures FirstAnswer(log, |log| - 1) <==> log[|log| - 1].letter.key !in Play(log[..|log| - 1]).answers
  {
    var k := |log| - 1;
    AnsweredInLog(log[..k], log[k].letter.key);
    assert forall j :: 0 <= j < k ==> log[..k][j] == log[j];
  }

  lemma ObserveCountsOnce(p: PreferenceTable, letter: Letter, category: Category, w: Weight, key: FeatureKey)
    ensures Lookup(Observe(p, letter, category, w), key)
         == if key.0 == letter.key.account && key.1 in Features(letter, category) then Lookup(p, key).Plus(w)
            else Lookup(p, key)
  {
    var fs := Features(letter, category);
    assert key.1 in fs <==> key.1 == fs[0] || key.1 == fs[1] || key.1 == fs[2];
  }

  // Every row of the table is the sum of the weights of the first answers that bear its feature.
  lemma {:induction false} PreferenceSumsFirstAnswers(log: seq<Event>, key: FeatureKey)
    ensures Lookup(Play(log).preference, key) == Total(log, key)
  {
    if log != [] {
      var k := |log| - 1;
      var before, e := log[..k], log[k];
      PreferenceSumsFirstAnswers(before, key);
      if e.Answered? {
        FirstAnswerIsNew(log);
        if FirstAnswer(log, k) && SignalOf(e.answer).Some? {
          ObserveCountsOnce(Play(before).preference, e.letter, e.category, WeightOf(SignalOf(e.answer).value), key);
        }
      }
    }
  }

  // Which answers weigh on a row: those of the account whose letter has the feature.
  predicate Bears(e: Event, key: FeatureKey) {
    && e.Answered? && key.0 == e.letter.key.account
    && (|| key.1 == FromSender(e.letter.sender) || key.1 == FromDomain(e.letter.domain)
        || key.1 == InCategory(e.category))
  }

  // The i-th event is the first answer to its message, is this one, and bears the feature.
  predicate AnsweredAt(log: seq<Event>, key: FeatureKey, answer: Answer, i: nat)
    requires i < |log|
  {
    Bears(log[i], key) && FirstAnswer(log, i) && log[i].answer == answer
  }

  // How many there are.
  function Answers(log: seq<Event>, key: FeatureKey, answer: Answer): (n: nat) {
    if log == [] then 0
    else
      var k := |log| - 1;
      Answers(log[..k], key, answer) + if AnsweredAt(log, key, answer, k) then 1 else 0
  }

  lemma AnsweredAtPrefix(log: seq<Event>, key: FeatureKey, answer: Answer, k: nat, i: nat)
    requires i < k <= |log|
    ensures AnsweredAt(log[..k], key, answer, i) <==> AnsweredAt(log, key, answer, i)
  {
    assert forall j :: 0 <= j <= i ==> log[..k][j] == log[j];
  }

  lemma {:induction false} AnsweredSo(log: seq<Event>, key: FeatureKey, answer: Answer)
    ensures Answers(log, key, answer) > 0 <==> exists i :: 0 <= i < |log| && AnsweredAt(log, key, answer, i)
  {
    if log != [] {
      var k := |log| - 1;
      AnsweredSo(log[..k], key, answer);
      forall i | 0 <= i < k
        ensures AnsweredAt(log[..k], key, answer, i) <==> AnsweredAt(log, key, answer, i)
      {
        AnsweredAtPrefix(log, key, answer, k, i);
      }
    }
  }

  // What a first answer weighs: four on the positive side for Keep, three on the negative side for DontKeep.
  lemma WeightOfAnswer(log: seq<Event>, k: nat, key: FeatureKey)
    requires k < |log| && log[k].Answered?
    ensures Touches(log[k], key) <==> Bears(log[k], key) && log[k].answer != AnswerUnsure
    ensures log[k].answer != AnswerUnsure ==>
      WeightOf(SignalOf(log[k].answer).value)
      == if log[k].answer == AnswerKeep then Weight(4.0, 0.0) else Weight(0.0, 3.0)
  {
  }

  // A row on its counts.
  ghost predicate Counts(t: Tally, keeps: nat, dontKeeps: nat) {
    t.positive == 4.0 * keeps as real && t.negative == 3.0 * dontKeeps as real && t.observations == keeps + dontKeeps
  }

  lemma CountsOneMore(t: Tally, keeps: nat, dontKeeps: nat)
    requires Counts(t, keeps, dontKeeps)
    ensures Counts(t.Plus(Weight(4.0, 0.0)), keeps + 1, dontKeeps)
    ensures Counts(t.Plus(Weight(0.0, 3.0)), keeps, dontKeeps + 1)
  {
  }

  lemma {:induction false} TotalCounts(log: seq<Event>, key: FeatureKey)
    ensures Counts(Total(log, key), Answers(log, key, AnswerKeep), Answers(log, key, AnswerDontKeep))
  {
    if log != [] {
      var k := |log| - 1;
      TotalCounts(log[..k], key);
      CountsOneMore(Total(log[..k], key), Answers(log[..k], key, AnswerKeep), Answers(log[..k], key, AnswerDontKeep));
      if log[k].Answered? {
        WeightOfAnswer(log, k, key);
      }
    }
  }

  // A first answer Keep adds four to the positive side of its rows, a first answer DontKeep three to the negative
  // side, and an unsure one nothing.
  lemma RowsCountTheAnswers(log: seq<Event>, key: FeatureKey)
    ensures var row := Lookup(Play(log).preference, key);
      && row.positive == 4.0 * Answers(log, key, AnswerKeep) as real
      && row.negative == 3.0 * Answers(log, key, AnswerDontKeep) as real
      && row.observations == Answers(log, key, AnswerKeep) + Answers(log, key, AnswerDontKeep)
  {
    PreferenceSumsFirstAnswers(log, key);
    TotalCounts(log, key);
  }

  // So the sign of a row says which answers its feature has had.
  lemma SidesOfARow(log: seq<Event>, key: FeatureKey)
    ensures Lookup(Play(log).preference, key).positive > 0.0 <==>
      exists i :: 0 <= i < |log| && AnsweredAt(log, key, AnswerKeep, i)
    ensures Lookup(Play(log).preference, key).negative > 0.0 <==>
      exists i :: 0 <= i < |log| && AnsweredAt(log, key, AnswerDontKeep, i)
  {
    RowsCountTheAnswers(log, key);
    AnsweredSo(log, key, AnswerKeep);
    AnsweredSo(log, key, AnswerDontKeep);
  }

  lemma OneMoreAnswer(log: seq<Event>, e: Event, key: FeatureKey, answer: Answer)
    requires e.Answered? && e.letter.key !in Play(log).answers
    ensures Answers(log + [e], key, answer)
         == Answers(log, key, answer) + if Bears(e, key) && e.answer == answer then 1 else 0
  {
    assert (log + [e])[..|log|] == log;
    FirstAnswerIsNew(log + [e]);
  }

  function WithoutRetries(log: seq<Event>): seq<Event> {
    if log == [] then []
    else
      var k := |log| - 1;
      WithoutRetries(log[..k]) + if log[k].Answered? && !FirstAnswer(log, k) then [] else [log[k]]
  }

  // Retries change no table.
  lemma {:induction false} RetriesChangeNothing(log: seq<Event>)
    ensures Play(WithoutRetries(log)) == Play(log)
  {
    if log != [] {
      var k := |log| - 1;
      RetriesChangeNothing(log[..k]);
      if log[k].Answered? {
        FirstAnswerIsNew(log);
      }
      var kept := WithoutRetries(log[..k]);
      PlayGrows(kept, log[k]);
      assert kept + [] == kept;
    }
  }

  lemma {:induction false} TotalIsSensible(log: seq<Event>, key: FeatureKey)
    ensures Total(log, key).Sensible()
  {
    if log != [] {
      TotalIsSensible(log[..|log| - 1], key);
    }
  }

  // ---- the similarity index ----

  // Whether the i-th event leaves something in the index.
  predicate Indexes(log: seq<Event>, i: nat)
    requires i < |log|
  {
    Indexed(log[i].letter, log[i].answer) && (log[i].Answered? ==> FirstAnswer(log, i))
  }

  // The contents a message was indexed with, in order.
  function Recordings(log: seq<Event>, m: MessageKey): seq<set<string>> {
    if log == [] then []
    else
      var k := |log| - 1;
      Recordings(log[..k], m) + if log[k].letter.key == m && Indexes(log, k) then [log[k].letter.content] else []
  }

  function Union(sets: seq<set<string>>): set<string> {
    if sets == [] then {} else Union(sets[..|sets| - 1]) + sets[|sets| - 1]
  }

  lemma RecordedIndex(x: Index, letter: Letter, answer: Answer, m: MessageKey)
    requires Indexed(letter, answer)
    ensures Record(x, letter, answer).Stored(m) == if m == letter.key then x.Stored(m) + letter.content else x.Stored(m)
  {
    var y := Record(x, letter, answer);
    forall f: string ensures f in y.Stored(m) <==> f in x.Stored(m) || (m == letter.key && f in letter.content) {
      assert f in y.Stored(m) <==> (m, f) in y.features;
      assert f in x.Stored(m) <==> (m, f) in x.features;
    }
  }

  // What the index holds of a message: the size of its first recording, and the features of all of them.
  lemma {:induction false} IndexOfTheLog(log: seq<Event>, m: MessageKey)
    ensures var x, rs := Play(log).index, Recordings(log, m);
      && (m in x.examples <==> rs != [])
      && (m in x.examples ==> x.examples[m].count == |rs[0]| && rs[0] != {})
      && x.Stored(m) == Union(rs)
  {
    if log != [] {
      var k := |log| - 1;
      IndexOfTheLog(log[..k], m);
      if log[k].Answered? {
        FirstAnswerIsNew(log);
      }
      var before, rs, letter := Play(log[..k]).index, Recordings(log[..k], m), log[k].letter;
      if Indexes(log, k) {
        assert Play(log).index == Record(before, letter, log[k].answer);
        RecordedIndex(before, letter, log[k].answer, m);
        assert (rs + [letter.content])[..|rs|] == rs;
        if letter.key == m {
          assert Recordings(log, m) == rs + [letter.content];
        } else {
          assert Recordings(log, m) == rs;
        }
      } else {
        assert Play(log).index == before;
        assert Recordings(log, m) == rs;
      }
    }
  }

  lemma {:induction false} UnionHolds(sets: seq<set<string>>, i: nat)
    requires i < |sets|
    ensures sets[i] <= Union(sets)
  {
    if i < |sets| - 1 {
      UnionHolds(sets[..|sets| - 1], i);
    }
  }

  lemma {:induction false} UnionWithin(sets: seq<set<string>>, bound: set<string>)
    requires forall i :: 0 <= i < |sets| ==> sets[i] <= bound
    ensures Union(sets) <= bound
  {
    if sets != [] {
      UnionWithin(sets[..|sets| - 1], bound);
    }
  }

  // The similarity the query computes for one example.
  function Similarity(content: set<string>, stored: set<string>, count: nat): real
    requires |content| + count > 0
  {
    2.0 * |content * stored| as real / (|content| + count) as real
  }

  // The recorded count covers the stored features.
  predicate Covers(x: Index, m: MessageKey)
    requires m in x.examples
  {
    |x.Stored(m)| <= x.examples[m].count
  }

  // With as many stored features as recorded, the query computes the Dice coefficient of two sets: between
  // zero and one, and one only for equal sets.
  lemma DiceRange(content: set<string>, stored: set<string>)
    requires content != {}
    ensures 0.0 <= Similarity(content, stored, |stored|) <= 1.0
    ensures Similarity(content, stored, |stored|) == 1.0 <==> content == stored
  {
    var both, all := content * stored, |content| + |stored|;
    SubsetSize(both, content);
    SubsetSize(both, stored);
    Fraction(2.0 * |both| as real, all as real);
    if content == stored {
      assert both == content;
    } else {
      assert both != content || both != stored;
      assert 2 * |both| < all;
    }
  }

  // It stays in range for every message exactly when the recorded count covers the stored features.
  lemma SimilarityInRangeExactlyWhen(stored: set<string>, count: nat)
    requires stored != {}
    ensures (forall content: set<string> :: content != {} ==> Similarity(content, stored, count) <= 1.0)
       <==> |stored| <= count
  {
    if |stored| <= count {
      forall content: set<string> | content != {} ensures Similarity(content, stored, count) <= 1.0 {
        SubsetSize(content * stored, content);
        SubsetSize(content * stored, stored);
        Fraction(2.0 * |content * stored| as real, (|content| + count) as real);
      }
    } else {
      assert stored * stored == stored;
      Fraction(2.0 * |stored| as real, (|stored| + count) as real);
      assert !(Similarity(stored, stored, count) <= 1.0);
    }
  }

  // ... which is when no later recording of the message brings a feature its first one did not have.
  lemma CoversExactlyWhen(log: seq<Event>, m: MessageKey)
    requires m in Play(log).index.examples
    ensures Recordings(log, m) != []
    ensures Covers(Play(log).index, m)
       <==> forall i :: 0 <= i < |Recordings(log, m)| ==> Recordings(log, m)[i] <= Recordings(log, m)[0]
  {
    var rs := Recordings(log, m);
    IndexOfTheLog(log, m);
    UnionHolds(rs, 0);
    SubsetSize(rs[0], Union(rs));
    if Covers(Play(log).index, m) {
      forall i | 0 <= i < |rs| ensures rs[i] <= rs[0] {
        UnionHolds(rs, i);
      }
    }
    if forall i :: 0 <= i < |rs| ==> rs[i] <= rs[0] {
      UnionWithin(rs, rs[0]);
      SubsetSize(Union(rs), rs[0]);
    }
  }

  // When the content of a message is always the same, the index holds exactly that content.
  ghost predicate Constant(log: seq<Event>, m: MessageKey, content: set<string>) {
    forall i :: 0 <= i < |log| && log[i].letter.key == m ==> log[i].letter.content == content
  }

  lemma {:induction false} ConstantRecordings(log: seq<Event>, m: MessageKey, content: set<string>)
    requires Constant(log, m, content)
    ensures forall i :: 0 <= i < |Recordings(log, m)| ==> Recordings(log, m)[i] == content
  {
    if log != [] {
      ConstantRecordings(log[..|log| - 1], m, content);
    }
  }

  lemma IndexHoldsTheContent(log: seq<Event>, m: MessageKey, content: set<string>)
    requires Constant(log, m, content) && m in Play(log).index.examples
    ensures Play(log).index.Stored(m) == content && Play(log).index.examples[m].count == |content|
  {
    IndexOfTheLog(log, m);
    ConstantRecordings(log, m, content);
    UnionHolds(Recordings(log, m), 0);
    UnionWithin(Recordings(log, m), content);
  }

  // A message that was answered with one word in it, and later recovered with two others.
  lemma ChangedContentBreaksTheRange(key: MessageKey)
    ensures var log := [Answered(Letter(key, "s", "d", {"a"}), Advertising, AnswerKeep),
                        Backfilled(Letter(key, "s", "d", {"b", "c"}), AnswerKeep)];
      && key in Play(log).index.examples
      && Similarity({"a", "b", "c"}, Play(log).index.Stored(key), Play(log).index.examples[key].count) == 1.5
  {
    var first := Answered(Letter(key, "s", "d", {"a"}), Advertising, AnswerKeep);
    var second := Backfilled(Letter(key, "s", "d", {"b", "c"}), AnswerKeep);
    var log := [first, second];
    assert Recordings(log, key) == [{"a"}, {"b", "c"}] by {
      TwoRecordings(key, first, second);
    }
    IndexOfTheLog(log, key);
    UnionOfTwo({"a"}, {"b", "c"});
    assert {"a"} + {"b", "c"} == {"a", "b", "c"};
    ThreeOfOne({"a", "b", "c"});
  }

  lemma UnionOfTwo(a: set<string>, b: set<string>)
    ensures Union([a, b]) == a + b
  {
    assert [a, b][..1] == [a] && [a][..0] == [];
    assert Union([a]) == a;
  }

  lemma ThreeOfOne(stored: set<string>)
    requires |stored| == 3
    ensures Similarity(stored, stored, 1) == 1.5
  {
    assert stored * stored == stored;
  }

  lemma TwoRecordings(key: MessageKey, first: Event, second: Event)
    requires first.Answered? && second.Backfilled? && first.letter.key == second.letter.key == key
    requires Indexed(first.letter, first.answer) && Indexed(second.letter, second.answer)
    ensures Recordings([first, second], key) == [first.letter.content, second.letter.content]
  {
    var log := [first, second];
    assert log[..1] == [first] && [first][..0] == [];
    assert Recordings([first], key) == [first.letter.content];
    assert Indexes(log, 1);
  }
}
