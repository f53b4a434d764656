/** The two aggregates of learning.py over the rows a person could label: the label summary and the evidence by
 * category.
 */
module EvidenceSummary {
  import opened Mail
  import opened Ledger

  datatype Label = LabelKeep | LabelDontKeep | LabelUnsure | Unreviewed

  datatype Counts = Counts(keep: nat, dontKeep: nat, unsure: nat, unreviewed: nat)
  {
    function Of(tag: Label): nat {
      match tag
      case LabelKeep => keep
      case LabelDontKeep => dontKeep
      case LabelUnsure => unsure
      case Unreviewed => unreviewed
    }

    function With(tag: Label, n: nat): (c: Counts)
      ensures forall l :: c.Of(l) == if l == tag then n else Of(l)
    {
      match tag
      case LabelKeep => this.(keep := n)
      case LabelDontKeep => this.(dontKeep := n)
      case LabelUnsure => this.(unsure := n)
      case Unreviewed => this.(unreviewed := n)
    }

    function Total(): nat { keep + dontKeep + unsure + unreviewed }
  }

  const NO_COUNTS := Counts(0, 0, 0, 0)

  // The WHERE clause both queries share.
  predicate Eligible(t: Tables, account: string, profile: string, k: RowKey) {
    && k in t.shadow && InScope(k, account, profile)
    && var row := t.shadow[k];
    && row.complete && !row.hardProtected
    && !(k in t.threats && t.threats[k].protective)
    && (row.action == Quarantine
        || (row.action == Review && row.category in {Advertising, Social, Spam, OneTimeCode}))
  }

  function EligibleRows(t: Tables, account: string, profile: string): set<RowKey> {
    set k | k in t.shadow && Eligible(t, account, profile, k)
  }

  // Which rows a person can label: what the account's scan under the profile has finished with, is not protected, and
  // would be moved, or is up for review in a category that can be moved.
  lemma EligibleExactlyWhen(t: Tables, account: string, profile: string, k: RowKey)
    ensures k in EligibleRows(t, account, profile) <==>
      && k.message.account == account && k.profile == profile && k in t.shadow
      && t.shadow[k].complete && !t.shadow[k].hardProtected && (k in t.threats ==> !t.threats[k].protective)
      && t.shadow[k].action in {Quarantine, Review}
      && (t.shadow[k].action == Review ==> t.shadow[k].category in {Advertising, Social, Spam, OneTimeCode})
  {
  }

  function LabelOf(t: Tables, m: MessageKey): Label {
    if m !in t.answers then Unreviewed
    else
      match t.answers[m]
      case AnswerKeep => LabelKeep
      case AnswerDontKeep => LabelDontKeep
      case AnswerUnsure => LabelUnsure
  }

  // The CASE expression: a restore overrides whatever was answered.
  function EvidenceOf(t: Tables, m: MessageKey): Label {
    if (m, Restored) in t.events then LabelKeep else LabelOf(t, m)
  }

  function Labelled(t: Tables, rows: set<RowKey>, tag: Label): set<RowKey> {
    set k | k in rows && LabelOf(t, k.message) == tag
  }

  function Evident(t: Tables, rows: set<RowKey>, tag: Label): set<RowKey> {
    set k | k in rows && EvidenceOf(t, k.message) == tag
  }

  function OfCategory(t: Tables, rows: set<RowKey>, category: Category): set<RowKey> {
    set k | k in rows && k in t.shadow && t.shadow[k].category == category
  }

  // ---- the two methods ----

  // A row of quiz_answer.
  datatype AnswerRow = AnswerRow(message: MessageKey, answer: Answer)

  // The rows of the two tables, in any order, each under its primary key.
  ghost predicate RowsOfTables(t: Tables, shadowRows: seq<RowKey>, answerRows: seq<AnswerRow>) {
    && NoDuplicates(shadowRows) && (forall k :: k in shadowRows <==> k in t.shadow)
    && (forall i, j :: 0 <= i < j < |answerRows| ==> answerRows[i].message != answerRows[j].message)
    && (forall r :: r in answerRows <==> r.message in t.answers && t.answers[r.message] == r.answer)
  }

  // The answers joined to one message.
  function Matches(answerRows: seq<AnswerRow>, m: MessageKey): (answers: seq<Answer>) {
    if answerRows == [] then []
    else
      var last := answerRows[|answerRows| - 1];
      Matches(answerRows[..|answerRows| - 1], m) + if last.message == m then [last.answer] else []
  }

  // The answers the JOIN yields, before they are grouped.
  function Reviewed(t: Tables, account: string, profile: string, shadowRows: seq<RowKey>, answerRows: seq<AnswerRow>)
    : (answers: seq<Answer>)
  {
    if shadowRows == [] then []
    else
      var before, k := shadowRows[..|shadowRows| - 1], shadowRows[|shadowRows| - 1];
      Reviewed(t, account, profile, before, answerRows)
      + if Eligible(t, account, profile, k) then Matches(answerRows, k.message) else []
  }

  // The rows of the LEFT JOIN that found no answer.
  function Unanswered(t: Tables, account: string, profile: string, shadowRows: seq<RowKey>, answerRows: seq<AnswerRow>)
    : (n: nat)
  {
    if shadowRows == [] then 0
    else
      var before, k := shadowRows[..|shadowRows| - 1], shadowRows[|shadowRows| - 1];
      Unanswered(t, account, profile, before, answerRows)
      + if Eligible(t, account, profile, k) && Matches(answerRows, k.message) == [] then 1 else 0
  }

  lemma {:induction false} NoMatch(answerRows: seq<AnswerRow>, m: MessageKey)
    requires forall r :: r in answerRows ==> r.message != m
    ensures Matches(answerRows, m) == []
  {
    if answerRows != [] {
      assert answerRows[|answerRows| - 1] in answerRows;
      NoMatch(answerRows[..|answerRows| - 1], m);
    }
  }

  // The primary key of quiz_answer: a message is joined to its one answer.
  lemma {:induction false} OneMatch(answerRows: seq<AnswerRow>, i: nat)
    requires i < |answerRows|
    requires forall a, b :: 0 <= a < b < |answerRows| ==> answerRows[a].message != answerRows[b].message
    ensures Matches(answerRows, answerRows[i].message) == [answerRows[i].answer]
    decreases |answerRows|
  {
    var before := answerRows[..|answerRows| - 1];
    if i < |before| {
      OneMatch(before, i);
    } else {
      NoMatch(before, answerRows[i].message);
    }
  }

  lemma MatchIsTheAnswer(t: Tables, shadowRows: seq<RowKey>, answerRows: seq<AnswerRow>, m: MessageKey)
    requires RowsOfTables(t, shadowRows, answerRows)
    ensures Matches(answerRows, m) == if m in t.answers then [t.answers[m]] else []
  {
    if m in t.answers {
      assert AnswerRow(m, t.answers[m]) in answerRows;
      var i :| 0 <= i < |answerRows| && answerRows[i] == AnswerRow(m, t.answers[m]);
      OneMatch(answerRows, i);
    } else {
      NoMatch(answerRows, m);
    }
  }

  function TagOf(a: Answer): Label {
    match a
    case AnswerKeep => LabelKeep
    case AnswerDontKeep => LabelDontKeep
    case AnswerUnsure => LabelUnsure
  }

  function EligibleAmong(t: Tables, account: string, profile: string, shadowRows: seq<RowKey>): set<RowKey> {
    set k | k in shadowRows && Eligible(t, account, profile, k)
  }

  function Times(answers: seq<Answer>, a: Answer): (n: nat) {
    if answers == [] then 0 else Times(answers[..|answers| - 1], a) + if answers[|answers| - 1] == a then 1 else 0
  }

  lemma TimesOfMore(answers: seq<Answer>, more: seq<Answer>, a: Answer)
    requires |more| <= 1
    ensures Times(answers + more, a) == Times(answers, a) + if more == [a] then 1 else 0
  {
    if more == [] {
      assert answers + more == answers;
    } else {
      assert (answers + more)[..|answers|] == answers;
    }
  }

  // The eligible rows with a label, counted one by one.
  function RowsWith(t: Tables, account: string, profile: string, shadowRows: seq<RowKey>, tag: Label): (n: nat) {
    if shadowRows == [] then 0
    else
      var before, k := shadowRows[..|shadowRows| - 1], shadowRows[|shadowRows| - 1];
      RowsWith(t, account, profile, before, tag)
      + if Eligible(t, account, profile, k) && LabelOf(t, k.message) == tag then 1 else 0
  }

  lemma {:induction false} JoinCountsAnswers(
    t: Tables, account: string, profile: string, shadowRows: seq<RowKey>, answerRows: seq<AnswerRow>, some: seq<RowKey>,
    a: Answer)
    requires RowsOfTables(t, shadowRows, answerRows)
    ensures Times(Reviewed(t, account, profile, some, answerRows), a) == RowsWith(t, account, profile, some, TagOf(a))
  {
    if some != [] {
      var before, k := some[..|some| - 1], some[|some| - 1];
      JoinCountsAnswers(t, account, profile, shadowRows, answerRows, before, a);
      MatchIsTheAnswer(t, shadowRows, answerRows, k.message);
      TimesOfMore(Reviewed(t, account, profile, before, answerRows),
                  if Eligible(t, account, profile, k) then Matches(answerRows, k.message) else [], a);
    }
  }

  lemma {:induction false} LeftJoinCountsTheRest(
    t: Tables, account: string, profile: string, shadowRows: seq<RowKey>, answerRows: seq<AnswerRow>, some: seq<RowKey>)
    requires RowsOfTables(t, shadowRows, answerRows)
    ensures Unanswered(t, account, profile, some, answerRows) == RowsWith(t, account, profile, some, Unreviewed)
  {
    if some != [] {
      var before, k := some[..|some| - 1], some[|some| - 1];
      LeftJoinCountsTheRest(t, account, profile, shadowRows, answerRows, before);
      MatchIsTheAnswer(t, shadowRows, answerRows, k.message);
    }
  }

  lemma OneMoreRow(t: Tables, account: string, profile: string, some: seq<RowKey>, tag: Label)
    requires NoDuplicates(some) && some != []
    ensures var before, k := some[..|some| - 1], some[|some| - 1];
      |Labelled(t, EligibleAmong(t, account, profile, some), tag)|
      == |Labelled(t, EligibleAmong(t, account, profile, before), tag)|
         + if Eligible(t, account, profile, k) && LabelOf(t, k.message) == tag then 1 else 0
  {
    var before, k := some[..|some| - 1], some[|some| - 1];
    assert forall x :: x in some <==> x in before || x == k;
    var fewer := Labelled(t, EligibleAmong(t, account, profile, before), tag);
    var labelled := Labelled(t, EligibleAmong(t, account, profile, some), tag);
    assert k !in before;
    if Eligible(t, account, profile, k) && LabelOf(t, k.message) == tag {
      assert labelled == fewer + {k};
    } else {
      assert labelled == fewer;
    }
  }

  lemma {:induction false} RowsWithIsLabelled(t: Tables, account: string, profile: string, some: seq<RowKey>,
                                              tag: Label)
    requires NoDuplicates(some)
    ensures RowsWith(t, account, profile, some, tag) == |Labelled(t, EligibleAmong(t, account, profile, some), tag)|
  {
    if some == [] {
      assert Labelled(t, EligibleAmong(t, account, profile, some), tag) == {};
    } else {
      RowsWithIsLabelled(t, account, profile, some[..|some| - 1], tag);
      OneMoreRow(t, account, profile, some, tag);
    }
  }

  // The two queries, counted: for every answer the eligible rows with that label, and those without one.
  lemma JoinsCountTheLabels(
    t: Tables, account: string, profile: string, shadowRows: seq<RowKey>, answerRows: seq<AnswerRow>)
    requires RowsOfTables(t, shadowRows, answerRows)
    ensures var rows := EligibleRows(t, account, profile);
      && (forall a :: Times(Reviewed(t, account, profile, shadowRows, answerRows), a) == |Labelled(t, rows, TagOf(a))|)
      && Unanswered(t, account, profile, shadowRows, answerRows) == |Labelled(t, rows, Unreviewed)|
  {
    var rows := EligibleRows(t, account, profile);
    assert EligibleAmong(t, account, profile, shadowRows) == rows;
    forall a ensures Times(Reviewed(t, account, profile, shadowRows, answerRows), a) == |Labelled(t, rows, TagOf(a))| {
      JoinCountsAnswers(t, account, profile, shadowRows, answerRows, shadowRows, a);
      RowsWithIsLabelled(t, account, profile, shadowRows, TagOf(a));
    }
    LeftJoinCountsTheRest(t, account, profile, shadowRows, answerRows, shadowRows);
    RowsWithIsLabelled(t, account, profile, shadowRows, Unreviewed);
  }

  lemma {:induction false} UnlistedIsZero(answers: seq<Answer>, a: Answer)
    requires a !in answers
    ensures Times(answers, a) == 0
  {
    if answers != [] {
      assert answers[|answers| - 1] in answers;
      UnlistedIsZero(answers[..|answers| - 1], a);
    }
  }

  method SetGroup(reviewed: seq<Answer>, ghost seen: set<Answer>, counts: Counts, a: Answer) returns (counts': Counts)
    requires counts.Of(Unreviewed) == 0
    requires forall b :: counts.Of(TagOf(b)) == if b in seen then Times(reviewed, b) else 0
    ensures counts'.Of(Unreviewed) == 0
    ensures forall b :: counts'.Of(TagOf(b)) == if b in seen + {a} then Times(reviewed, b) else 0
  {
    counts' := counts.With(TagOf(a), Times(reviewed, a));
    assert forall b :: TagOf(b) == TagOf(a) <==> b == a;
  }

  // The loop over the groups, which come in any order.
  method SetGroups(reviewed: seq<Answer>) returns (counts: Counts)
    ensures counts.Of(Unreviewed) == 0 && forall a :: counts.Of(TagOf(a)) == Times(reviewed, a)
  {
    counts := NO_COUNTS;
    var groups, seen: set<Answer> := Elements(reviewed), {};
    while groups != {}
      invariant groups + seen == Elements(reviewed) && groups !! seen && counts.Of(Unreviewed) == 0
      invariant forall a :: counts.Of(TagOf(a)) == if a in seen then Times(reviewed, a) else 0
      decreases groups
    {
      var a :| a in groups;
      counts := SetGroup(reviewed, seen, counts, a);
      groups, seen := groups - {a}, seen + {a};
    }
    forall a | a !in seen ensures Times(reviewed, a) == 0 {
      UnlistedIsZero(reviewed, a);
    }
  }

  // shadow_quarantine_label_summary: the groups of the JOIN, and the count of the LEFT JOIN.  They are the numbers
  // of eligible rows with each label.
  method LabelSummary(t: Tables, account: string, profile: string, shadowRows: seq<RowKey>, answerRows: seq<AnswerRow>)
    returns (counts: Counts)
    requires RowsOfTables(t, shadowRows, answerRows)
    ensures IsLabelSummary(t, EligibleRows(t, account, profile), counts)
  {
    counts := SetGroups(Reviewed(t, account, profile, shadowRows, answerRows));
    counts := counts.With(Unreviewed, Unanswered(t, account, profile, shadowRows, answerRows));
    JoinsCountTheLabels(t, account, profile, shadowRows, answerRows);
    forall tag ensures counts.Of(tag) == |Labelled(t, EligibleRows(t, account, profile), tag)| {
      assert tag == Unreviewed || tag == TagOf(AnswerKeep) || tag == TagOf(AnswerDontKeep)
        || tag == TagOf(AnswerUnsure);
    }
  }

  datatype Group = Group(category: Category, tag: Label)

  function GroupOf(t: Tables, k: RowKey): Group
    requires k in t.shadow
  {
    Group(t.shadow[k].category, EvidenceOf(t, k.message))
  }

  // The non-empty groups of the evidence query.
  function Groups(t: Tables, rows: set<RowKey>): set<Group> {
    set k | k in rows && k in t.shadow :: GroupOf(t, k)
  }

  function Size(t: Tables, rows: set<RowKey>, g: Group): nat {
    |Evident(t, OfCategory(t, rows, g.category), g.tag)|
  }

  // The evidence collected from some of the groups.
  ghost predicate Collected(t: Tables, rows: set<RowKey>, seen: set<Group>, evidence: map<Category, Counts>) {
    && (forall c :: c in evidence <==> exists g :: g in seen && g.category == c)
    && (forall c, tag :: c in evidence ==>
          evidence[c].Of(tag) == if Group(c, tag) in seen then Size(t, rows, Group(c, tag)) else 0)
  }

  method CollectGroup(t: Tables, rows: set<RowKey>, ghost seen: set<Group>, evidence: map<Category, Counts>, g: Group)
    returns (evidence': map<Category, Counts>)
    requires g !in seen && Collected(t, rows, seen, evidence)
    ensures Collected(t, rows, seen + {g}, evidence')
  {
    var counts := if g.category in evidence then evidence[g.category] else NO_COUNTS;
    evidence' := evidence[g.category := counts.With(g.tag, Size(t, rows, g))];
    forall c | c in evidence' <==> c in evidence || c == g.category
      ensures c in evidence' <==> exists h :: h in seen + {g} && h.category == c
    {
      if c in evidence {
        var h :| h in seen && h.category == c;
        assert h in seen + {g};
      }
      assert g in seen + {g};
    }
  }

  // The groups come in any order.
  method CollectGroups(t: Tables, rows: set<RowKey>, groups: set<Group>) returns (evidence: map<Category, Counts>)
    ensures Collected(t, rows, groups, evidence)
  {
    var todo, seen: set<Group> := groups, {};
    evidence := map[];
    while todo != {}
      invariant todo + seen == groups && todo !! seen
      invariant Collected(t, rows, seen, evidence)
      decreases |todo|
    {
      var g :| g in todo;
      evidence := CollectGroup(t, rows, seen, evidence, g);
      todo, seen := todo - {g}, seen + {g};
    }
    assert seen == groups;
  }

  // shadow_quarantine_evidence_by_category
  method EvidenceByCategory(t: Tables, account: string, profile: string) returns (evidence: map<Category, Counts>)
    ensures IsEvidence(t, EligibleRows(t, account, profile), evidence)
  {
    var rows := EligibleRows(t, account, profile);
    evidence := CollectGroups(t, rows, Groups(t, rows));
    GroupsAreTheNonEmptyOnes(t, rows, evidence);
  }

  lemma GroupsAreTheNonEmptyOnes(t: Tables, rows: set<RowKey>, evidence: map<Category, Counts>)
    requires Collected(t, rows, Groups(t, rows), evidence)
    ensures IsEvidence(t, rows, evidence)
  {
    forall c ensures c in evidence <==> OfCategory(t, rows, c) != {} {
      if c in evidence {
        var g :| g in Groups(t, rows) && g.category == c;
        var k :| k in rows && k in t.shadow && GroupOf(t, k) == g;
        assert k in OfCategory(t, rows, c);
      }
      if k :| k in OfCategory(t, rows, c) {
        assert GroupOf(t, k) in Groups(t, rows);
      }
    }
    forall c, tag | c in evidence && Size(t, rows, Group(c, tag)) != 0 ensures Group(c, tag) in Groups(t, rows) {
      var k :| k in Evident(t, OfCategory(t, rows, c), tag);
      assert GroupOf(t, k) == Group(c, tag);
    }
  }

  // ---- the totals agree ----

  lemma FourLabels(t: Tables, rows: set<RowKey>)
    ensures |Labelled(t, rows, LabelKeep)| + |Labelled(t, rows, LabelDontKeep)|
          + |Labelled(t, rows, LabelUnsure)| + |Labelled(t, rows, Unreviewed)| == |rows|
  {
    var a, b, c, d := Labelled(t, rows, LabelKeep), Labelled(t, rows, LabelDontKeep),
                      Labelled(t, rows, LabelUnsure), Labelled(t, rows, Unreviewed);
    forall k ensures k in rows <==> k in a + b + c + d {
      assert LabelOf(t, k.message) in {LabelKeep, LabelDontKeep, LabelUnsure, Unreviewed};
    }
    Quarters(rows, a, b, c, d);
  }

  lemma FourKindsOfEvidence(t: Tables, rows: set<RowKey>)
    ensures |Evident(t, rows, LabelKeep)| + |Evident(t, rows, LabelDontKeep)|
          + |Evident(t, rows, LabelUnsure)| + |Evident(t, rows, Unreviewed)| == |rows|
  {
    var a, b, c, d := Evident(t, rows, LabelKeep), Evident(t, rows, LabelDontKeep),
                      Evident(t, rows, LabelUnsure), Evident(t, rows, Unreviewed);
    forall k ensures k in rows <==> k in a + b + c + d {
      assert EvidenceOf(t, k.message) in {LabelKeep, LabelDontKeep, LabelUnsure, Unreviewed};
    }
    Quarters(rows, a, b, c, d);
  }

  lemma Quarters<T>(s: set<T>, a: set<T>, b: set<T>, c: set<T>, d: set<T>)
    requires s == a + b + c + d && a !! b !! c !! d
    ensures |a| + |b| + |c| + |d| == |s|
  {
    assert |a + b| == |a| + |b|;
    assert |a + b + c| == |a + b| + |c|;
  }

  function SumOver(cats: seq<Category>, f: Category -> nat): nat {
    if cats == [] then 0 else SumOver(cats[..|cats| - 1], f) + f(cats[|cats| - 1])
  }

  // The rows of distinct categories add up.
  lemma {:induction false} CategoriesAddUp(t: Tables, rows: set<RowKey>, cats: seq<Category>)
    requires NoDuplicates(cats) && rows <= t.shadow.Keys
    ensures SumOver(cats, c => |OfCategory(t, rows, c)|) == |set k | k in rows && t.shadow[k].category in cats|
  {
    if cats == [] {
      assert (set k | k in rows && t.shadow[k].category in cats) == {};
    } else {
      var n := |cats| - 1;
      var before, last := cats[..n], cats[n];
      CategoriesAddUp(t, rows, before);
      var some := set k | k in rows && t.shadow[k].category in before;
      assert forall c :: c in cats <==> c in before || c == last;
      assert (set k | k in rows && t.shadow[k].category in cats) == some + OfCategory(t, rows, last);
      assert some !! OfCategory(t, rows, last);
    }
  }

  // cats lists the keys of the evidence dictionary, in any order.
  ghost predicate ListsCategories(cats: seq<Category>, t: Tables, rows: set<RowKey>) {
    NoDuplicates(cats) && forall c :: c in cats <==> OfCategory(t, rows, c) != {}
  }

  lemma ListedRows(t: Tables, rows: set<RowKey>, cats: seq<Category>)
    requires ListsCategories(cats, t, rows) && rows <= t.shadow.Keys
    ensures (set k | k in rows && t.shadow[k].category in cats) == rows
  {
    forall k | k in rows ensures t.shadow[k].category in cats {
      assert k in OfCategory(t, rows, t.shadow[k].category);
    }
  }

  // One column of the evidence table.
  lemma {:induction false} ColumnAddsUp(t: Tables, rows: set<RowKey>, cats: seq<Category>, tag: Label)
    requires ListsCategories(cats, t, rows) && rows <= t.shadow.Keys
    ensures SumOver(cats, c => Size(t, rows, Group(c, tag))) == |Evident(t, rows, tag)|
  {
    var column := Evident(t, rows, tag);
    forall c ensures Evident(t, OfCategory(t, rows, c), tag) == OfCategory(t, column, c) {
    }
    SameSumOver(cats, c => Size(t, rows, Group(c, tag)), c => |OfCategory(t, column, c)|);
    CategoriesAddUp(t, column, cats);
    ListedRows(t, rows, cats);
    assert (set k | k in column && t.shadow[k].category in cats) == column by {
      forall k | k in column ensures t.shadow[k].category in cats {
        assert k in (set r | r in rows && t.shadow[r].category in cats);
      }
    }
  }

  // The eligible rows whose message was put back although nobody answered Keep.
  function RestoredOtherwise(t: Tables, rows: set<RowKey>): set<RowKey> {
    set k | k in rows && (k.message, Restored) in t.events && LabelOf(t, k.message) != LabelKeep
  }

  // What the two methods return.
  ghost predicate IsLabelSummary(t: Tables, rows: set<RowKey>, labels: Counts) {
    forall tag :: labels.Of(tag) == |Labelled(t, rows, tag)|
  }

  ghost predicate IsEvidence(t: Tables, rows: set<RowKey>, evidence: map<Category, Counts>) {
    && (forall c :: c in evidence <==> OfCategory(t, rows, c) != {})
    && (forall c, tag :: c in evidence ==> evidence[c].Of(tag) == Size(t, rows, Group(c, tag)))
  }

  // The sum of one figure of the evidence over its categories, listed in any order.
  function Over(cats: seq<Category>, evidence: map<Category, Counts>, figure: Counts -> nat): nat {
    SumOver(cats, c => if c in evidence then figure(evidence[c]) else 0)
  }

  lemma {:induction false} OverIs(cats: seq<Category>, evidence: map<Category, Counts>, figure: Counts -> nat,
                                  g: Category -> nat)
    requires forall c :: c in cats ==> c in evidence && figure(evidence[c]) == g(c)
    ensures Over(cats, evidence, figure) == SumOver(cats, g)
  {
    SameSumOver(cats, c => if c in evidence then figure(evidence[c]) else 0, g);
  }

  // Both aggregates partition the same rows, so their grand totals agree ...
  lemma GrandTotalsAgree(t: Tables, rows: set<RowKey>, labels: Counts, evidence: map<Category, Counts>,
                         cats: seq<Category>)
    requires rows <= t.shadow.Keys && IsLabelSummary(t, rows, labels) && IsEvidence(t, rows, evidence)
    requires NoDuplicates(cats) && Elements(cats) == evidence.Keys
    ensures Over(cats, evidence, (n: Counts) => n.Total()) == labels.Total() == |rows|
  {
    forall c | c in cats ensures c in evidence && evidence[c].Total() == |OfCategory(t, rows, c)| {
      assert c in Elements(cats);
      EvidenceOfOneCategory(t, rows, c, evidence[c]);
    }
    OverIs(cats, evidence, (n: Counts) => n.Total(), c => |OfCategory(t, rows, c)|);
    CategoriesAddUp(t, rows, cats);
    ListedRows(t, rows, cats);
    LabelsAddUp(t, rows, labels);
  }

  lemma LabelsAddUp(t: Tables, rows: set<RowKey>, labels: Counts)
    requires IsLabelSummary(t, rows, labels)
    ensures labels.Total() == |rows|
  {
    FourLabels(t, rows);
    assert labels.Of(LabelKeep) == labels.keep && labels.Of(LabelDontKeep) == labels.dontKeep
        && labels.Of(LabelUnsure) == labels.unsure && labels.Of(Unreviewed) == labels.unreviewed;
  }

  // ... and the Keep evidence is the Keep labels plus the restored rows that were not answered Keep.
  lemma KeepEvidenceAddsRestores(t: Tables, rows: set<RowKey>, labels: Counts, evidence: map<Category, Counts>,
                                 cats: seq<Category>)
    requires rows <= t.shadow.Keys && IsLabelSummary(t, rows, labels) && IsEvidence(t, rows, evidence)
    requires NoDuplicates(cats) && Elements(cats) == evidence.Keys
    ensures Over(cats, evidence, (n: Counts) => n.keep) == labels.keep + |RestoredOtherwise(t, rows)|
  {
    forall c | c in cats ensures c in evidence && evidence[c].keep == Size(t, rows, Group(c, LabelKeep)) {
      assert c in Elements(cats);
      assert evidence[c].Of(LabelKeep) == evidence[c].keep;
    }
    OverIs(cats, evidence, (n: Counts) => n.keep, c => Size(t, rows, Group(c, LabelKeep)));
    ColumnAddsUp(t, rows, cats, LabelKeep);
    KeepSplits(t, rows);
    assert labels.Of(LabelKeep) == labels.keep;
  }

  lemma KeepSplits(t: Tables, rows: set<RowKey>)
    ensures |Evident(t, rows, LabelKeep)| == |Labelled(t, rows, LabelKeep)| + |RestoredOtherwise(t, rows)|
  {
    assert Evident(t, rows, LabelKeep) == Labelled(t, rows, LabelKeep) + RestoredOtherwise(t, rows);
    assert Labelled(t, rows, LabelKeep) !! RestoredOtherwise(t, rows);
  }

  lemma EvidenceOfOneCategory(t: Tables, rows: set<RowKey>, c: Category, counts: Counts)
    requires forall tag :: counts.Of(tag) == Size(t, rows, Group(c, tag))
    ensures counts.Total() == |OfCategory(t, rows, c)|
  {
    FourKindsOfEvidence(t, OfCategory(t, rows, c));
    assert counts.Of(LabelKeep) == counts.keep && counts.Of(LabelDontKeep) == counts.dontKeep
        && counts.Of(LabelUnsure) == counts.unsure && counts.Of(Unreviewed) == counts.unreviewed;
  }

  lemma {:induction false} SameSumOver(cats: seq<Category>, f: Category -> nat, g: Category -> nat)
    requires forall c :: c in cats ==> f(c) == g(c)
    ensures SumOver(cats, f) == SumOver(cats, g)
  {
    if cats != [] {
      assert forall c :: c in cats[..|cats| - 1] ==> c in cats;
      SameSumOver(cats[..|cats| - 1], f, g);
    }
  }
}
