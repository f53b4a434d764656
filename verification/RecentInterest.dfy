/** The recent-interest query of learning.py, in the form that was rewritten for speed and in the plain form,
 * and the score that is computed from its rows.
 *
 * Tables are lists of rows, in whatever order the database yields them; a join is a nested loop.
 */
module RecentInterest {
  import opened Mail

  datatype Signal =
    | Opened | Replied | Starred | MarkedImportant | ExplicitKeep | Restored | LeftUnread | NotInterested

  datatype Weight = Weight(positive: real, negative: real)

  function WeightOf(signal: Signal): (w: Weight)
    ensures w.positive >= 0.0 && w.negative >= 0.0
  {
    match signal
    case Opened => Weight(1.0, 0.0)
    case Replied => Weight(3.0, 0.0)
    case Starred => Weight(3.0, 0.0)
    case MarkedImportant => Weight(3.0, 0.0)
    case ExplicitKeep => Weight(4.0, 0.0)
    case Restored => Weight(5.0, 0.0)
    case LeftUnread => Weight(0.0, 0.15)
    case NotInterested => Weight(0.0, 3.0)
  }

  datatype Kind = SenderKind | DomainKind | ContentKind

  datatype FeatureRow = FeatureRow(message: MessageKey, feature: string, kind: Kind)
  datatype EventRow = EventRow(message: MessageKey, event: Signal, time: int)
  datatype MessageRow = MessageRow(message: MessageKey, count: nat)

  datatype Row = Row(message: MessageKey, event: Signal, time: int, count: nat, matches: nat)

  datatype Tables = Tables(features: seq<FeatureRow>, events: seq<EventRow>, messages: seq<MessageRow>)
  {
    // The primary keys of the three tables.
    ghost predicate Keyed() {
      && (forall i, j :: 0 <= i < j < |features| ==>
            (features[i].message, features[i].feature) != (features[j].message, features[j].feature))
      && (forall i, j :: 0 <= i < j < |events| ==>
            (events[i].message, events[i].event) != (events[j].message, events[j].event))
      && (forall i, j :: 0 <= i < j < |messages| ==> messages[i].message != messages[j].message)
    }
  }

  // The rows of behavior_feature that the WHERE clause keeps.
  predicate Wanted(row: FeatureRow, account: string, query: set<string>) {
    row.message.account == account && row.kind == ContentKind && row.feature in query
  }

  function Filtered(rows: seq<FeatureRow>, account: string, query: set<string>): (r: seq<FeatureRow>)
    ensures forall row :: row in r <==> row in rows && Wanted(row, account, query)
  {
    if rows == [] then []
    else
      var last := rows[|rows| - 1];
      assert forall row :: row in rows <==> row in rows[..|rows| - 1] || row == last;
      Filtered(rows[..|rows| - 1], account, query) + if Wanted(last, account, query) then [last] else []
  }

  // COUNT(DISTINCT feature_hash) over the kept rows of one message.
  function Matches(kept: seq<FeatureRow>, message: MessageKey): nat {
    |set row | row in kept && row.message == message :: row.feature|
  }

  // ---- the query as it is: aggregate, then join ----

  datatype Match = Match(message: MessageKey, matches: nat)

  function Messages(kept: seq<FeatureRow>): seq<MessageKey> {
    Deduplicated(seq(|kept|, i requires 0 <= i < |kept| => kept[i].message))
  }

  function Matched(kept: seq<FeatureRow>): seq<Match> {
    var ms := Messages(kept);
    seq(|ms|, i requires 0 <= i < |ms| => Match(ms[i], Matches(kept, ms[i])))
  }

  function JoinMessages(m: Match, e: EventRow, messages: seq<MessageRow>): seq<Row> {
    if messages == [] then []
    else
      var b := messages[|messages| - 1];
      JoinMessages(m, e, messages[..|messages| - 1])
      + if b.message == m.message then [Row(e.message, e.event, e.time, b.count, m.matches)] else []
  }

  function JoinEvents(m: Match, events: seq<EventRow>, messages: seq<MessageRow>): seq<Row> {
    if events == [] then []
    else
      var e := events[|events| - 1];
      JoinEvents(m, events[..|events| - 1], messages)
      + if e.message == m.message then JoinMessages(m, e, messages) else []
  }

  function Join(matched: seq<Match>, t: Tables): seq<Row> {
    if matched == [] then []
    else Join(matched[..|matched| - 1], t) + JoinEvents(matched[|matched| - 1], t.events, t.messages)
  }

  function AggregateThenJoin(t: Tables, account: string, query: set<string>): seq<Row> {
    Join(Matched(Filtered(t.features, account, query)), t)
  }

  // ---- the plain form: join, then group ----

  datatype Joined = Joined(feature: FeatureRow, event: EventRow, message: MessageRow)
  {
    function Group(): (MessageKey, Signal, int, nat) { (event.message, event.event, event.time, message.count) }
  }

  // Every combination of one row from each table whose messages agree.
  ghost predicate InJoin(t: Tables, kept: seq<FeatureRow>, j: Joined) {
    && j.feature in kept && j.event in t.events && j.message in t.messages
    && j.feature.message == j.event.message == j.message.message
  }

  // One row for every group of the join, with the distinct features of that group counted.
  ghost predicate InGroups(t: Tables, kept: seq<FeatureRow>, row: Row) {
    && (exists j :: InJoin(t, kept, j) && j.Group() == (row.message, row.event, row.time, row.count))
    && (exists fs: set<string> :: row.matches == |fs| && GroupFeatures(t, kept, row, fs))
  }

  ghost predicate GroupFeatures(t: Tables, kept: seq<FeatureRow>, row: Row, fs: set<string>) {
    forall f :: f in fs <==>
      exists j :: InJoin(t, kept, j) && j.Group() == (row.message, row.event, row.time, row.count)
        && j.feature.feature == f
  }

  // rows is a result of the plain query: exactly one row per group.
  ghost predicate JoinThenGroup(t: Tables, account: string, query: set<string>, rows: seq<Row>) {
    && NoDuplicates(rows)
    && forall row :: row in rows <==> InGroups(t, Filtered(t.features, account, query), row)
  }

  // ---- which rows the rewritten query yields ----

  function RowOf(m: Match, e: EventRow, b: MessageRow): Row { Row(e.message, e.event, e.time, b.count, m.matches) }

  ghost predicate Combines(m: Match, e: EventRow, b: MessageRow, row: Row) {
    e.message == m.message && b.message == m.message && row == RowOf(m, e, b)
  }

  lemma {:induction false} InJoinMessages(m: Match, e: EventRow, messages: seq<MessageRow>, row: Row)
    requires e.message == m.message
    ensures row in JoinMessages(m, e, messages) <==> exists b :: b in messages && Combines(m, e, b, row)
  {
    if messages != [] {
      var b := messages[|messages| - 1];
      InJoinMessages(m, e, messages[..|messages| - 1], row);
      assert forall x :: x in messages <==> x in messages[..|messages| - 1] || x == b;
      assert b.message == m.message ==> Combines(m, e, b, RowOf(m, e, b));
    }
  }

  lemma {:induction false} InJoinEvents(m: Match, events: seq<EventRow>, messages: seq<MessageRow>, row: Row)
    ensures row in JoinEvents(m, events, messages)
       <==> exists e, b :: e in events && b in messages && Combines(m, e, b, row)
  {
    if events != [] {
      var e := events[|events| - 1];
      InJoinEvents(m, events[..|events| - 1], messages, row);
      assert forall x :: x in events <==> x in events[..|events| - 1] || x == e;
      if e.message == m.message {
        InJoinMessages(m, e, messages, row);
      }
    }
  }

  lemma {:induction false} InTheJoin(matched: seq<Match>, t: Tables, row: Row)
    ensures row in Join(matched, t)
       <==> exists m, e, b :: m in matched && e in t.events && b in t.messages && Combines(m, e, b, row)
  {
    if matched != [] {
      var m := matched[|matched| - 1];
      InTheJoin(matched[..|matched| - 1], t, row);
      InJoinEvents(m, t.events, t.messages, row);
      assert forall x :: x in matched <==> x in matched[..|matched| - 1] || x == m;
    }
  }

  lemma InMatched(kept: seq<FeatureRow>, m: Match)
    ensures m in Matched(kept)
       <==> m.matches == Matches(kept, m.message) && exists row :: row in kept && row.message == m.message
  {
    var ms := seq(|kept|, i requires 0 <= i < |kept| => kept[i].message);
    assert m.message in ms <==> exists row :: row in kept && row.message == m.message by {
      if m.message in ms {
        var i :| 0 <= i < |ms| && ms[i] == m.message;
        assert kept[i] in kept;
      }
      if row :| row in kept && row.message == m.message {
        var i :| 0 <= i < |kept| && kept[i] == row;
        assert ms[i] == m.message;
      }
    }
    if m.matches == Matches(kept, m.message) && m.message in Messages(kept) {
      var i :| 0 <= i < |Messages(kept)| && Messages(kept)[i] == m.message;
      assert Matched(kept)[i] == m;
    }
  }

  // Every group of the joined form takes its distinct features from all the kept rows of its message.
  lemma GroupHasEveryFeature(t: Tables, kept: seq<FeatureRow>, row: Row, j: Joined)
    requires InJoin(t, kept, j) && j.Group() == (row.message, row.event, row.time, row.count)
    ensures GroupFeatures(t, kept, row, set r | r in kept && r.message == row.message :: r.feature)
  {
    forall r | r in kept && r.message == row.message
      ensures exists k :: InJoin(t, kept, k) && k.Group() == (row.message, row.event, row.time, row.count)
                       && k.feature.feature == r.feature
    {
      assert InJoin(t, kept, j.(feature := r));
    }
  }

  lemma InGroupsExactly(t: Tables, kept: seq<FeatureRow>, row: Row)
    ensures InGroups(t, kept, row) <==> row in Join(Matched(kept), t)
  {
    InTheJoin(Matched(kept), t, row);
    var all := set r | r in kept && r.message == row.message :: r.feature;
    if InGroups(t, kept, row) {
      var j :| InJoin(t, kept, j) && j.Group() == (row.message, row.event, row.time, row.count);
      var fs: set<string> :| row.matches == |fs| && GroupFeatures(t, kept, row, fs);
      GroupHasEveryFeature(t, kept, row, j);
      assert fs == all;
      var m := Match(row.message, row.matches);
      InMatched(kept, m);
      assert m in Matched(kept) && Combines(m, j.event, j.message, row);
    }
    if row in Join(Matched(kept), t) {
      var m, e, b :| m in Matched(kept) && e in t.events && b in t.messages && Combines(m, e, b, row);
      InMatched(kept, m);
      var r :| r in kept && r.message == m.message;
      var j := Joined(r, e, b);
      assert InJoin(t, kept, j) && j.Group() == (row.message, row.event, row.time, row.count);
      GroupHasEveryFeature(t, kept, row, j);
    }
  }

  // ---- and how often ----

  lemma NoDuplicatesInSum<T>(a: seq<T>, b: seq<T>)
    requires NoDuplicates(a) && NoDuplicates(b) && forall x :: x in a ==> x !in b
    ensures NoDuplicates(a + b)
  {
    var s := a + b;
    forall i, j | 0 <= i < j < |s| ensures s[i] != s[j] {
      if i < |a| <= j {
        assert s[i] in a && s[j] in b;
      }
    }
  }

  lemma {:induction false} JoinMessagesOnce(m: Match, e: EventRow, messages: seq<MessageRow>)
    requires forall i, j :: 0 <= i < j < |messages| ==> messages[i].message != messages[j].message
    ensures |JoinMessages(m, e, messages)| <= 1
    ensures (forall i :: 0 <= i < |messages| ==> messages[i].message != m.message) ==>
      JoinMessages(m, e, messages) == []
  {
    if messages != [] {
      JoinMessagesOnce(m, e, messages[..|messages| - 1]);
    }
  }

  lemma {:induction false} JoinEventsOnce(m: Match, events: seq<EventRow>, messages: seq<MessageRow>)
    requires forall i, j :: 0 <= i < j < |events| ==>
      (events[i].message, events[i].event) != (events[j].message, events[j].event)
    requires forall i, j :: 0 <= i < j < |messages| ==> messages[i].message != messages[j].message
    ensures NoDuplicates(JoinEvents(m, events, messages))
  {
    if events != [] {
      var e, before := events[|events| - 1], events[..|events| - 1];
      JoinEventsOnce(m, before, messages);
      if e.message == m.message {
        JoinMessagesOnce(m, e, messages);
        forall row | row in JoinEvents(m, before, messages) ensures row !in JoinMessages(m, e, messages) {
          InJoinEvents(m, before, messages, row);
          InJoinMessages(m, e, messages, row);
        }
        NoDuplicatesInSum(JoinEvents(m, before, messages), JoinMessages(m, e, messages));
      }
    }
  }

  lemma {:induction false} JoinOnce(matched: seq<Match>, t: Tables)
    requires t.Keyed()
    requires forall i, j :: 0 <= i < j < |matched| ==> matched[i].message != matched[j].message
    ensures NoDuplicates(Join(matched, t))
  {
    if matched != [] {
      var m, before := matched[|matched| - 1], matched[..|matched| - 1];
      JoinOnce(before, t);
      JoinEventsOnce(m, t.events, t.messages);
      forall row | row in Join(before, t) ensures row !in JoinEvents(m, t.events, t.messages) {
        InTheJoin(before, t, row);
        InJoinEvents(m, t.events, t.messages, row);
      }
      NoDuplicatesInSum(Join(before, t), JoinEvents(m, t.events, t.messages));
    }
  }

  // The claim of the comment: the rewritten query returns the rows of the plain one, each exactly once.
  lemma RewrittenQueryIsThePlainQuery(t: Tables, account: string, query: set<string>)
    requires t.Keyed()
    ensures JoinThenGroup(t, account, query, AggregateThenJoin(t, account, query))
  {
    var kept := Filtered(t.features, account, query);
    JoinOnce(Matched(kept), t);
    forall row: Row ensures row in Join(Matched(kept), t) <==> InGroups(t, kept, row) {
      InGroupsExactly(t, kept, row);
    }
  }

  // The rows in terms of the three tables: an event of a message of the account, with the message's size and the
  // number of content features that it shares with the query, when there is one at all.
  lemma RowsOfTheQuery(t: Tables, account: string, query: set<string>, row: Row)
    ensures row in AggregateThenJoin(t, account, query) <==>
      && row.message.account == account
      && EventRow(row.message, row.event, row.time) in t.events && MessageRow(row.message, row.count) in t.messages
      && var shared := set r | r in t.features && r.message == row.message && r.kind == ContentKind
                             && r.feature in query :: r.feature;
         shared != {} && row.matches == |shared|
  {
    var kept := Filtered(t.features, account, query);
    var shared := set r | r in t.features && r.message == row.message && r.kind == ContentKind && r.feature in query
      :: r.feature;
    var m, e, b := Match(row.message, row.matches), EventRow(row.message, row.event, row.time),
      MessageRow(row.message, row.count);
    InTheJoin(Matched(kept), t, row);
    InMatched(kept, m);
    if row.message.account == account {
      assert (set r | r in kept && r.message == row.message :: r.feature) == shared;
    }
    if shared != {} && row.message.account == account {
      var r :| r in t.features && r.message == row.message && r.kind == ContentKind && r.feature in query;
      assert r in kept;
    }
    if row in Join(Matched(kept), t) {
      var m', e', b' :| m' in Matched(kept) && e' in t.events && b' in t.messages && Combines(m', e', b', row);
      assert m' == m && e' == e && b' == b;
      var r :| r in kept && r.message == m.message;
      assert r.feature in shared;
    } else if m in Matched(kept) && e in t.events && b in t.messages {
      assert Combines(m, e, b, row);
    }
  }

  // Any other result of the plain query is the same bag of rows.
  lemma PlainQueryHasOneResult(t: Tables, account: string, query: set<string>, rows: seq<Row>)
    requires t.Keyed() && JoinThenGroup(t, account, query, rows)
    ensures multiset(rows) == multiset(AggregateThenJoin(t, account, query))
  {
    RewrittenQueryIsThePlainQuery(t, account, query);
    SameElementsSameBag(rows, AggregateThenJoin(t, account, query));
  }

  lemma SameElementsSameBag<T>(a: seq<T>, b: seq<T>)
    requires NoDuplicates(a) && NoDuplicates(b) && forall x :: x in a <==> x in b
    ensures multiset(a) == multiset(b)
  {
    forall x: T ensures multiset(a)[x] == multiset(b)[x] {
      OnceInBag(a, x);
      OnceInBag(b, x);
    }
  }

  // ---- the score ----

  datatype Recent = Recent(score: real, evidence: real, examples: nat)

  function Sum<T>(s: seq<T>, f: T -> real): real {
    if s == [] then 0.0 else Sum(s[..|s| - 1], f) + f(s[|s| - 1])
  }

  lemma {:induction false} SumWithout<T>(s: seq<T>, f: T -> real, k: nat)
    requires k < |s|
    ensures Sum(s, f) == Sum(s[..k] + s[k + 1..], f) + f(s[k])
  {
    var last := |s| - 1;
    if k < last {
      SumWithout(s[..last], f, k);
      var rest := s[..k] + s[k + 1..];
      assert rest[..|rest| - 1] == s[..last][..k] + s[..last][k + 1..];
    } else {
      assert s[..k] + s[k + 1..] == s[..last];
    }
  }

  lemma BagWithout<T>(s: seq<T>, k: nat)
    requires k < |s|
    ensures multiset(s[..k] + s[k + 1..]) == multiset(s) - multiset{s[k]}
  {
    assert s == s[..k] + [s[k]] + s[k + 1..];
  }

  lemma {:induction false} SumOfABag<T>(a: seq<T>, b: seq<T>, f: T -> real)
    requires multiset(a) == multiset(b)
    ensures Sum(a, f) == Sum(b, f)
  {
    if a != [] {
      var x, before := a[|a| - 1], a[..|a| - 1];
      assert a == before + [x];
      assert x in multiset(b);
      var k :| 0 <= k < |b| && b[k] == x;
      var rest := b[..k] + b[k + 1..];
      BagWithout(b, k);
      BagWithout(a, |a| - 1);
      assert a[..|a| - 1] + a[|a| - 1 + 1..] == before;
      SumOfABag(before, rest, f);
      SumWithout(b, f, k);
    } else {
      assert |multiset(b)| == |b|;
    }
  }

  // 0.5 ** (age / 45) as a function of the time of the event: one at age zero, and never zero.
  type Decay = d: int -> real | forall time :: 0.0 < d(time) <= 1.0 witness (time: int) => 1.0

  predicate Similar(row: Row, queried: nat) {
    queried + row.count > 0 && 2.0 * row.matches as real / (queried + row.count) as real >= 0.55
  }

  function Positive(row: Row, queried: nat, decay: Decay): (p: real)
    ensures p >= 0.0
  {
    if Similar(row, queried) then WeightOf(row.event).positive * decay(row.time) else 0.0
  }

  function Negative(row: Row, queried: nat, decay: Decay): (n: real)
    ensures n >= 0.0
  {
    if Similar(row, queried) then WeightOf(row.event).negative * decay(row.time) else 0.0
  }

  lemma Share(p: real, n: real, prior: real, total: real)
    requires p >= 0.0 && n >= 0.0 && 0.0 <= prior <= total && total > 0.0
    ensures 0.0 <= (prior + p) / (total + p + n) <= 1.0
    ensures (prior + p) / (total + p + n) * (total + p + n) == prior + p
  {
    Fraction(prior + p, total + p + n);
  }

  lemma Fraction(k: real, d: real)
    requires 0.0 <= k && 0.0 < d
    ensures k / d >= 0.0 && k / d * d == k && (k <= d <==> k / d <= 1.0) && (k == d <==> k / d == 1.0)
  {
  }

  function Gain(rows: seq<Row>, queried: nat, decay: Decay): real {
    Sum(rows, row => Positive(row, queried, decay))
  }

  function Loss(rows: seq<Row>, queried: nat, decay: Decay): real {
    Sum(rows, row => Negative(row, queried, decay))
  }

  lemma OneRowMore(rows: seq<Row>, row: Row, queried: nat, decay: Decay)
    ensures Gain(rows + [row], queried, decay) == Gain(rows, queried, decay) + Positive(row, queried, decay)
    ensures Loss(rows + [row], queried, decay) == Loss(rows, queried, decay) + Negative(row, queried, decay)
  {
    assert (rows + [row])[..|rows|] == rows;
  }

  function Examples(rows: seq<Row>, queried: nat): set<MessageKey> {
    set row | row in rows && Similar(row, queried) :: row.message
  }

  // What the rows of the query are worth, as a bag.
  ghost predicate ScoreOf(rows: seq<Row>, queried: nat, decay: Decay, r: Recent) {
    var p, n := Gain(rows, queried, decay), Loss(rows, queried, decay);
    && r.score * (2.0 + p + n) == 1.0 + p
    && r.evidence == p + n
    && r.examples == |Examples(rows, queried)|
  }

  lemma ScoreIgnoresTheOrder(a: seq<Row>, b: seq<Row>, queried: nat, decay: Decay, r: Recent)
    requires multiset(a) == multiset(b) && ScoreOf(a, queried, decay, r)
    ensures ScoreOf(b, queried, decay, r)
  {
    assert Gain(a, queried, decay) == Gain(b, queried, decay) by {
      SumOfABag(a, b, row => Positive(row, queried, decay));
    }
    assert Loss(a, queried, decay) == Loss(b, queried, decay) by {
      SumOfABag(a, b, row => Negative(row, queried, decay));
    }
    assert Examples(a, queried) == Examples(b, queried) by {
      SameBagSameElements(a, b);
    }
  }

  lemma SameBagSameElements<T>(a: seq<T>, b: seq<T>)
    requires multiset(a) == multiset(b)
    ensures forall x :: x in a <==> x in b
  {
    forall x: T ensures x in a <==> x in b {
      assert x in a <==> x in multiset(a);
      assert x in b <==> x in multiset(b);
    }
  }

  method AddRow(row: Row, queried: nat, decay: Decay, positive: real, negative: real, evidence: real)
    returns (positive': real, negative': real, evidence': real)
    requires evidence == positive + negative
    ensures positive' == positive + Positive(row, queried, decay)
    ensures negative' == negative + Negative(row, queried, decay)
    ensures evidence' == positive' + negative'
  {
    positive', negative', evidence' := positive, negative, evidence;
    if Similar(row, queried) {
      var weight, factor := WeightOf(row.event), decay(row.time);
      positive' := positive + weight.positive * factor;
      negative' := negative + weight.negative * factor;
      evidence' := evidence + (weight.positive + weight.negative) * factor;
      Distribute(weight.positive, weight.negative, factor);
    }
  }

  lemma Distribute(a: real, b: real, c: real)
    ensures (a + b) * c == a * c + b * c
  {
  }

  // The loop of _recent_content_interest over the rows of either query.
  method RecentContentInterest(rows: seq<Row>, queried: nat, decay: Decay) returns (r: Recent)
    ensures ScoreOf(rows, queried, decay, r)
    ensures 0.0 <= r.score <= 1.0 && r.evidence >= 0.0
  {
    var positive, negative, evidence := 0.0, 0.0, 0.0;
    var examples: set<MessageKey> := {};
    for i := 0 to |rows|
      invariant positive == Gain(rows[..i], queried, decay) >= 0.0
      invariant negative == Loss(rows[..i], queried, decay) >= 0.0
      invariant evidence == positive + negative
      invariant examples == Examples(rows[..i], queried)
    {
      var row := rows[i];
      assert rows[..i + 1] == rows[..i] + [row];
      OneRowMore(rows[..i], row, queried, decay);
      positive, negative, evidence := AddRow(row, queried, decay, positive, negative, evidence);
      if Similar(row, queried) {
        examples := examples + {row.message};
      }
    }
    assert rows[..|rows|] == rows;
    Share(positive, negative, 1.0, 2.0);
    r := Recent((1.0 + positive) / (2.0 + positive + negative), evidence, |examples|);
  }

  // What one more row does: nothing while fewer than 0.55 of the features agree; otherwise an event that speaks for
  // the content raises the score and one that speaks against it lowers it.
  lemma OneMoreEvent(rows: seq<Row>, row: Row, queried: nat, decay: Decay, r: Recent, r': Recent)
    requires ScoreOf(rows, queried, decay, r) && ScoreOf(rows + [row], queried, decay, r')
    ensures var similar := queried + row.count > 0
        && 2.0 * row.matches as real / (queried + row.count) as real >= 0.55;
      if !similar then r'.score == r.score && r'.evidence == r.evidence
      else if row.event in {LeftUnread, NotInterested} then r'.score < r.score && r'.evidence > r.evidence
      else r'.score > r.score && r'.evidence > r.evidence
  {
    OneRowMore(rows, row, queried, decay);
    NothingNegative(rows, queried, decay);
    EventMoves(row, queried, decay);
    SharesCompare(r.score, r'.score, Gain(rows, queried, decay), Loss(rows, queried, decay),
                  Positive(row, queried, decay), Negative(row, queried, decay));
  }

  lemma NothingNegative(rows: seq<Row>, queried: nat, decay: Decay)
    ensures Gain(rows, queried, decay) >= 0.0 && Loss(rows, queried, decay) >= 0.0
  {
    SumIsPositive(rows, row => Positive(row, queried, decay));
    SumIsPositive(rows, row => Negative(row, queried, decay));
  }

  // An event counts for or against, never both, and only when enough of the features agree.
  lemma EventMoves(row: Row, queried: nat, decay: Decay)
    ensures var similar := queried + row.count > 0
        && 2.0 * row.matches as real / (queried + row.count) as real >= 0.55;
      && (Positive(row, queried, decay) > 0.0 <==> similar && row.event !in {LeftUnread, NotInterested})
      && (Negative(row, queried, decay) > 0.0 <==> similar && row.event in {LeftUnread, NotInterested})
  {
    if Similar(row, queried) {
      SignOfProduct(WeightOf(row.event).positive, decay(row.time));
      SignOfProduct(WeightOf(row.event).negative, decay(row.time));
    }
  }

  lemma {:induction false} SumIsPositive<T(!new)>(s: seq<T>, f: T -> real)
    requires forall x :: f(x) >= 0.0
    ensures Sum(s, f) >= 0.0
  {
    if s != [] {
      SumIsPositive(s[..|s| - 1], f);
    }
  }

  lemma SharesCompare(x: real, y: real, p: real, n: real, gain: real, loss: real)
    requires p >= 0.0 && n >= 0.0 && gain >= 0.0 && loss >= 0.0 && (gain == 0.0 || loss == 0.0)
    requires x * (2.0 + p + n) == 1.0 + p && y * (2.0 + (p + gain) + (n + loss)) == 1.0 + (p + gain)
    ensures gain > 0.0 ==> y > x
    ensures loss > 0.0 ==> y < x
    ensures gain == loss == 0.0 ==> y == x
  {
    var base, part := 2.0 + p + n, 1.0 + p;
    assert 2.0 + (p + gain) + (n + loss) == base + gain + loss;
    Between(x, base, part);
    if gain > 0.0 {
      GainRaises(x, y, base, part, gain);
    } else if loss > 0.0 {
      LossLowers(x, y, base, part, loss);
    } else {
      SignOfProduct(y - x, base);
      assert (y - x) * base == y * base - x * base;
    }
  }

  lemma GainRaises(x: real, y: real, base: real, part: real, gain: real)
    requires 0.0 < base && x < 1.0 && gain > 0.0 && x * base == part && y * (base + gain) == part + gain
    ensures y > x
  {
    var total := base + gain;
    assert x * total == x * base + x * gain && (1.0 - x) * gain == gain - x * gain;
    assert (y - x) * total == (1.0 - x) * gain;
    SignOfProduct(1.0 - x, gain);
    SignOfProduct(y - x, total);
  }

  lemma LossLowers(x: real, y: real, base: real, part: real, loss: real)
    requires 0.0 < base && 0.0 < x && loss > 0.0 && x * base == part && y * (base + loss) == part
    ensures y < x
  {
    var total := base + loss;
    assert x * total == x * base + x * loss;
    assert (x - y) * total == x * loss;
    SignOfProduct(x, loss);
    SignOfProduct(x - y, total);
  }

  lemma SignOfProduct(a: real, b: real)
    requires b > 0.0
    ensures (a * b > 0.0 <==> a > 0.0) && (a * b < 0.0 <==> a < 0.0)
  {
  }

  lemma Between(x: real, total: real, part: real)
    requires 0.0 < part < total && x * total == part
    ensures 0.0 < x < 1.0
  {
    SignOfProduct(x, total);
    SignOfProduct(1.0 - x, total);
    assert (1.0 - x) * total == total - part;
  }

  // What a single event of this instant makes of a content that is the message's own.
  lemma FirstEvent(row: Row, queried: nat, decay: Decay, r: Recent)
    requires ScoreOf([row], queried, decay, r) && decay(row.time) == 1.0
    requires queried > 0 && row.count == row.matches == queried
    ensures r.examples == 1
    ensures r.score == match row.event
      case Opened => 2.0 / 3.0
      case Replied => 4.0 / 5.0
      case Starred => 4.0 / 5.0
      case MarkedImportant => 4.0 / 5.0
      case ExplicitKeep => 5.0 / 6.0
      case Restored => 6.0 / 7.0
      case LeftUnread => 20.0 / 43.0
      case NotInterested => 1.0 / 5.0
  {
    Whole(queried);
    assert Similar(row, queried);
    assert [row][..0] == [];
    assert Sum([row], row => Positive(row, queried, decay)) == Positive(row, queried, decay);
    assert Sum([row], row => Negative(row, queried, decay)) == Negative(row, queried, decay);
    assert Examples([row], queried) == {row.message} by {
      assert row in [row];
    }
  }

  lemma Whole(n: nat)
    requires n > 0
    ensures 2.0 * n as real / (n + n) as real == 1.0
  {
  }

  // Whatever order the database yields the plain query's rows in, the rewritten one gives the same score.
  lemma RewritingKeepsTheScore(t: Tables, account: string, query: set<string>, rows: seq<Row>,
                               queried: nat, decay: Decay, r: Recent)
    requires t.Keyed() && JoinThenGroup(t, account, query, rows)
    ensures ScoreOf(rows, queried, decay, r) <==> ScoreOf(AggregateThenJoin(t, account, query), queried, decay, r)
  {
    PlainQueryHasOneResult(t, account, query, rows);
    if ScoreOf(rows, queried, decay, r) {
      ScoreIgnoresTheOrder(rows, AggregateThenJoin(t, account, query), queried, decay, r);
    }
    if ScoreOf(AggregateThenJoin(t, account, query), queried, decay, r) {
      ScoreIgnoresTheOrder(AggregateThenJoin(t, account, query), rows, queried, decay, r);
    }
  }
}
