/** For which messages the arrival order decides whether a closure proof is verified.
 *
 * keys are the messages, content says what each of them carries; both are known before any of them arrives.
 */
module ProofOrder {
  import opened Mail
  import opened Lifecycle
  import opened Obsolescence
  import opened LumeGraph
  import opened ArrivalOrder

  // ---- the messages ----

  function Week(content: Content, k: RowKey): int { content(k).0.week }

  ghost predicate Carries(keys: set<RowKey>, content: Content, r: RelationKey, k: RowKey) {
    k in keys && r in content(k).1
  }

  // v closes k when the two are neighbours.
  predicate Closes(content: Content, k: RowKey, v: RowKey) {
    SuccessorProof(content(k).0.evidence, content(v).0.evidence, k.profile).status == Verified
  }

  ghost predicate Later(keys: set<RowKey>, content: Content, r: RelationKey, u: RowKey, v: RowKey) {
    Carries(keys, content, r, u) && Carries(keys, content, r, v) && Week(content, u) < Week(content, v)
  }

  // v is in the next occupied week of r after u.
  ghost predicate Next(keys: set<RowKey>, content: Content, r: RelationKey, u: RowKey, v: RowKey) {
    && Later(keys, content, r, u, v)
    && forall k :: Carries(keys, content, r, k) ==>
      Week(content, k) <= Week(content, u) || Week(content, v) <= Week(content, k)
  }

  ghost predicate LaterCloser(keys: set<RowKey>, content: Content, k: RowKey) {
    exists r, v :: Later(keys, content, r, k, v) && Closes(content, k, v)
  }

  // No other message of r has the week of k.
  ghost predicate Alone(keys: set<RowKey>, content: Content, r: RelationKey, k: RowKey) {
    forall x :: Carries(keys, content, r, x) && Week(content, x) == Week(content, k) ==> x == k
  }

  // If v arrives after k it is joined to k, whatever else has arrived: k is alone in its week in some relation, and
  // v comes in the next week.
  ghost predicate JoinedLater(keys: set<RowKey>, content: Content, k: RowKey, v: RowKey) {
    exists r :: Next(keys, content, r, k, v) && Alone(keys, content, r, k)
  }

  // Every later message of r up to the week of v closes k.
  ghost predicate ClosedUpTo(keys: set<RowKey>, content: Content, r: RelationKey, k: RowKey, v: RowKey) {
    && Later(keys, content, r, k, v)
    && forall x :: Later(keys, content, r, k, x) && Week(content, x) <= Week(content, v) ==> Closes(content, k, x)
  }

  // If v arrives before k, then k is joined to v or to a closer that is nearer.
  ghost predicate ClosedBefore(keys: set<RowKey>, content: Content, k: RowKey, v: RowKey) {
    exists r :: ClosedUpTo(keys, content, r, k, v)
  }

  // Some message closes k, directly or through a nearer one, whichever of the two arrives first.
  ghost predicate CertainCloser(keys: set<RowKey>, content: Content, k: RowKey) {
    exists v :: JoinedLater(keys, content, k, v) && ClosedBefore(keys, content, k, v)
  }

  // ---- their arrival orders ----

  // One way for exactly these messages to arrive, with direct proofs anywhere in between.
  ghost predicate Arrives(events: seq<Event>, keys: set<RowKey>, content: Content) {
    History(events) && Faithful(events, content) && forall k :: ObservedIn(events, k) <==> k in keys
  }

  ghost predicate ArrivesUnproved(events: seq<Event>, keys: set<RowKey>, content: Content, k: RowKey) {
    Arrives(events, keys, content) && !ProvedDirectly(events, k)
  }

  // Every arrival order leaves k equally open or closed.
  ghost predicate OrdersAgree(keys: set<RowKey>, content: Content, k: RowKey) {
    forall first, second :: ArrivesUnproved(first, keys, content, k) && ArrivesUnproved(second, keys, content, k) ==>
      (HoldsVerified(Run(first).proofs, k) <==> HoldsVerified(Run(second).proofs, k))
  }

  lemma GraphOfTheMessages(events: seq<Event>, keys: set<RowKey>, content: Content)
    requires Arrives(events, keys, content)
    ensures forall k :: k in Run(events).nodes <==> k in keys
    ensures forall k :: k in keys ==> Run(events).nodes[k] == content(k).0
    ensures forall r, k :: Member(Run(events), r, k) <==> Carries(keys, content, r, k)
  {
    NodesAreTheMessages(events, content);
  }

  // ---- no closer at all ----

  lemma NoLaterCloserNeverVerifies(events: seq<Event>, keys: set<RowKey>, content: Content, k: RowKey)
    requires ArrivesUnproved(events, keys, content, k) && !LaterCloser(keys, content, k)
    ensures !HoldsVerified(Run(events).proofs, k)
  {
    var g := Run(events);
    VerifiedExactlyWhenWitnessed(events, k);
    EveryHistoryIsConsistent(events);
    GraphOfTheMessages(events, keys, content);
    if VerifiedByEdge(g, k) {
      var e :| e in g.transitions && e.from == k && e.from in g.nodes && e.to in g.nodes
               && Verdict(g, e).status == Verified;
      assert Member(g, e.relation, e.from) && Member(g, e.relation, e.to);
      assert Later(keys, content, e.relation, k, e.to) && Closes(content, k, e.to);
    }
  }

  // ---- one more arrival ----

  // A member of the avoided set is picked only from a week that has no other member.
  ghost predicate Avoids(g: Graph, r: RelationKey, pick: Option<RowKey>, avoid: set<RowKey>) {
    match pick
    case None => true
    case Some(p) =>
      p in avoid && p in g.nodes ==>
        forall k :: Member(g, r, k) && g.nodes[k].week == g.nodes[p].week ==> k in avoid
  }

  ghost predicate AllAvoid(g: Graph, rels: seq<RelationKey>, picks: seq<Links>, avoid: set<RowKey>) {
    && |picks| == |rels|
    && forall i :: 0 <= i < |rels| ==>
      Avoids(g, rels[i], picks[i].older, avoid) && Avoids(g, rels[i], picks[i].newer, avoid)
  }

  lemma OlderPickExists(g: Graph, r: RelationKey, week: int, avoid: set<RowKey>) returns (pick: Option<RowKey>)
    ensures NearestOlder(g, r, week, pick) && Avoids(g, r, pick, avoid)
  {
    var older := set k | k in g.nodes && (k, r) in g.relations && g.nodes[k].week < week;
    assert forall k :: Member(g, r, k) && g.nodes[k].week < week <==> k in older;
    pick := None;
    if older != {} {
      GreatestExists(g.nodes, older);
      var p :| p in older && forall j :: j in older ==> g.nodes[j].week <= g.nodes[p].week;
      if q :| q in older && q !in avoid && g.nodes[q].week == g.nodes[p].week {
        p := q;
      }
      pick := Some(p);
    }
  }

  lemma NewerPickExists(g: Graph, r: RelationKey, week: int, avoid: set<RowKey>) returns (pick: Option<RowKey>)
    ensures NearestNewer(g, r, week, pick) && Avoids(g, r, pick, avoid)
  {
    var newer := set k | k in g.nodes && (k, r) in g.relations && g.nodes[k].week > week;
    assert forall k :: Member(g, r, k) && g.nodes[k].week > week <==> k in newer;
    pick := None;
    if newer != {} {
      LeastExists(g.nodes, newer);
      var p :| p in newer && forall j :: j in newer ==> g.nodes[p].week <= g.nodes[j].week;
      if q :| q in newer && q !in avoid && g.nodes[q].week == g.nodes[p].week {
        p := q;
      }
      pick := Some(p);
    }
  }

  lemma PicksExist(g: Graph, rels: seq<RelationKey>, week: int, avoid: set<RowKey>) returns (picks: seq<Links>)
    ensures NearestIn(g, week, rels, picks) && AllAvoid(g, rels, picks, avoid)
  {
    picks := [];
    if rels != [] {
      var last := |rels| - 1;
      var before := PicksExist(g, rels[..last], week, avoid);
      var low := OlderPickExists(g, rels[last], week, avoid);
      var high := NewerPickExists(g, rels[last], week, avoid);
      picks := before + [Links(low, high)];
      forall i | 0 <= i < |rels|
        ensures Nearest(g, rels[i], week, picks[i])
        ensures Avoids(g, rels[i], picks[i].older, avoid) && Avoids(g, rels[i], picks[i].newer, avoid)
      {
        assert i < last ==> rels[..last][i] == rels[i] && before[i] == picks[i];
      }
    }
  }

  // The graph before and after message m arrives, with the neighbours that were picked for it.
  ghost predicate Arrived(g: Graph, g': Graph, content: Content, m: RowKey, picks: seq<Links>) {
    && NearestIn(Insert(g, m, content(m).0, content(m).1), Week(content, m), content(m).1, picks)
    && g'.transitions.Keys == g.transitions.Keys + NewEdges(m, content(m).1, picks, |picks|)
  }

  ghost predicate AllObserved(events: seq<Event>) {
    forall e :: e in events ==> e.Observed?
  }

  // The event with which m arrives.
  function Arrival(content: Content, m: RowKey, picks: seq<Links>): Event {
    Observed(m, content(m).0, content(m).1, picks)
  }

  lemma ArrivalLinks(events: seq<Event>, content: Content, m: RowKey, picks: seq<Links>)
    requires History(events) && m !in Run(events).nodes && Allowed(Run(events), Arrival(content, m, picks))
    requires NearestIn(Insert(Run(events), m, content(m).0, content(m).1), Week(content, m), content(m).1, picks)
    ensures History(events + [Arrival(content, m, picks)])
    ensures Arrived(Run(events), Run(events + [Arrival(content, m, picks)]), content, m, picks)
  {
    var events' := events + [Arrival(content, m, picks)];
    assert events'[..|events'| - 1] == events;
    LastStep(events');
    EveryHistoryIsConsistent(events);
    InsertKeeps(Run(events), m, content(m).0, content(m).1);
    LinkFirstKeeps(Insert(Run(events), m, content(m).0, content(m).1), m, content(m).1, picks, |content(m).1|);
  }

  // m arrives, and where the queries leave a choice the messages to avoid are not picked.
  lemma OneMoreArrives(events: seq<Event>, keys: set<RowKey>, content: Content, m: RowKey, avoid: set<RowKey>)
    returns (events': seq<Event>, picks: seq<Links>)
    requires AllObserved(events) && Arrives(events, keys, content) && m !in keys
    ensures AllObserved(events') && Arrives(events', keys + {m}, content)
    ensures Arrived(Run(events), Run(events'), content, m, picks)
    ensures AllAvoid(Insert(Run(events), m, content(m).0, content(m).1), content(m).1, picks, avoid)
  {
    GraphOfTheMessages(events, keys, content);
    picks := PicksExist(Insert(Run(events), m, content(m).0, content(m).1), content(m).1, Week(content, m), avoid);
    events' := events + [Arrival(content, m, picks)];
    ArrivalLinks(events, content, m, picks);
    OneMoreObserved(events, Arrival(content, m, picks));
  }

  lemma OneMoreObserved(events: seq<Event>, e: Event)
    requires e.Observed?
    ensures forall k :: ObservedIn(events + [e], k) <==> ObservedIn(events, k) || k == e.key
  {
    var more := events + [e];
    forall k ensures ObservedIn(more, k) <==> ObservedIn(events, k) || k == e.key {
      if ObservedIn(events, k) {
        var i :| 0 <= i < |events| && events[i].Observed? && events[i].key == k;
        assert more[i] == events[i];
      }
      assert more[|events|] == e;
      if ObservedIn(more, k) {
        var i :| 0 <= i < |more| && more[i].Observed? && more[i].key == k;
        assert i < |events| ==> events[i] == more[i];
      }
    }
  }

  lemma {:induction false} NewEdgesAreLinks(key: RowKey, rels: seq<RelationKey>, picks: seq<Links>, n: nat, e: Edge)
    requires n <= |rels| == |picks| && e in NewEdges(key, rels, picks, n)
    ensures exists i :: 0 <= i < n && e in EdgesOf(key, rels[i], picks[i])
  {
    if e !in EdgesOf(key, rels[n - 1], picks[n - 1]) {
      NewEdgesAreLinks(key, rels, picks, n - 1, e);
    }
  }

  // A consistent graph of exactly these messages.
  ghost predicate Holds(g: Graph, here: set<RowKey>, content: Content) {
    && Grounded(g)
    && (forall k :: k in g.nodes <==> k in here)
    && (forall k :: k in here ==> g.nodes[k] == content(k).0)
    && (forall r, k :: Member(g, r, k) <==> Carries(here, content, r, k))
  }

  // The members of a relation once m is inserted.
  lemma MembersWith(g: Graph, here: set<RowKey>, content: Content, m: RowKey, r: RelationKey)
    requires Holds(g, here, content) && m !in here
    ensures forall k :: Member(Insert(g, m, content(m).0, content(m).1), r, k) <==> Carries(here + {m}, content, r, k)
    ensures forall k :: k in here + {m} ==> k in Insert(g, m, content(m).0, content(m).1).nodes
    ensures forall k :: k in here + {m} ==> Insert(g, m, content(m).0, content(m).1).nodes[k].week == Week(content, k)
  {
    var g1 := Insert(g, m, content(m).0, content(m).1);
    forall k ensures Member(g1, r, k) <==> Carries(here + {m}, content, r, k) {
      assert Member(g, r, k) <==> Carries(here, content, r, k);
      assert (k, r) in g1.relations <==> (k, r) in g.relations || (k == m && r in content(m).1);
    }
  }

  // ---- a closer that no order can miss ----

  // A history of some of these messages.
  ghost predicate OnlyThese(events: seq<Event>, keys: set<RowKey>, content: Content) {
    && History(events) && Faithful(events, content) && forall x :: ObservedIn(events, x) ==> x in keys
  }

  lemma PrefixOnlyThese(events: seq<Event>, keys: set<RowKey>, content: Content)
    requires OnlyThese(events, keys, content) && events != []
    ensures OnlyThese(events[..|events| - 1], keys, content)
    ensures forall x :: ObservedIn(events, x) <==>
      ObservedIn(events[..|events| - 1], x) || (events[|events| - 1].Observed? && events[|events| - 1].key == x)
  {
    var n := |events| - 1;
    var before := events[..n];
    LastStep(events);
    forall x ensures ObservedIn(events, x) <==> ObservedIn(before, x) || (events[n].Observed? && events[n].key == x) {
      if ObservedIn(before, x) {
        var i :| 0 <= i < n && before[i].Observed? && before[i].key == x;
        assert events[i] == before[i];
      }
      if ObservedIn(events, x) {
        var i :| 0 <= i < |events| && events[i].Observed? && events[i].key == x;
        assert i < n ==> before[i] == events[i];
      }
    }
  }

  // v arrives after k.
  lemma JoinedWhenLater(g: Graph, here: set<RowKey>, keys: set<RowKey>, content: Content, k: RowKey, v: RowKey,
                        picks: seq<Links>)
    returns (e: Edge)
    requires Holds(g, here, content) && here <= keys && k in here && v in keys && v !in here
    requires NearestIn(Insert(g, v, content(v).0, content(v).1), Week(content, v), content(v).1, picks)
    requires JoinedLater(keys, content, k, v)
    ensures e in NewEdges(v, content(v).1, picks, |picks|) && e.from == k && e.to == v
  {
    var r :| Next(keys, content, r, k, v) && Alone(keys, content, r, k);
    var g1 := Insert(g, v, content(v).0, content(v).1);
    var i :| 0 <= i < |picks| && content(v).1[i] == r;
    MembersWith(g, here, content, v, r);
    assert Member(g1, r, k) && Nearest(g1, r, Week(content, v), picks[i]);
    var p := picks[i].older.value;
    assert Carries(keys, content, r, p) && Week(content, p) == Week(content, k);
    NewEdgesContain(v, content(v).1, picks, |picks|, i);
    e := Edge(r, k, v);
  }

  // v arrives before k.
  lemma ClosedWhenBefore(g: Graph, here: set<RowKey>, keys: set<RowKey>, content: Content, k: RowKey, v: RowKey,
                         picks: seq<Links>)
    returns (e: Edge)
    requires Holds(g, here, content) && here <= keys && v in here && k in keys && k !in here
    requires NearestIn(Insert(g, k, content(k).0, content(k).1), Week(content, k), content(k).1, picks)
    requires ClosedBefore(keys, content, k, v)
    ensures e in NewEdges(k, content(k).1, picks, |picks|) && e.from == k && e.to in here && Closes(content, k, e.to)
  {
    var r :| ClosedUpTo(keys, content, r, k, v);
    var g1 := Insert(g, k, content(k).0, content(k).1);
    var i :| 0 <= i < |picks| && content(k).1[i] == r;
    MembersWith(g, here, content, k, r);
    assert Member(g1, r, v) && Nearest(g1, r, Week(content, k), picks[i]);
    var p := picks[i].newer.value;
    assert Later(keys, content, r, k, p) && Week(content, p) <= Week(content, v);
    NewEdgesContain(k, content(k).1, picks, |picks|, i);
    e := Edge(r, k, p);
  }

  lemma ArrivesHolds(events: seq<Event>, here: set<RowKey>, content: Content)
    requires Arrives(events, here, content)
    ensures Holds(Run(events), here, content)
  {
    GraphOfTheMessages(events, here, content);
    EveryHistoryIsConsistent(events);
  }

  // The graph of a history of some of these messages.
  lemma GraphHolds(events: seq<Event>, keys: set<RowKey>, content: Content)
    requires OnlyThese(events, keys, content)
    ensures Holds(Run(events), Run(events).nodes.Keys, content) && Run(events).nodes.Keys <= keys
  {
    NodesAreTheMessages(events, content);
    ArrivesHolds(events, Run(events).nodes.Keys, content);
  }

  // The event with which k or v arrives when the other one is there.
  lemma LastOfTheTwo(before: seq<Event>, picks: seq<Links>, keys: set<RowKey>, content: Content, k: RowKey, v: RowKey,
                     m: RowKey)
    requires OnlyThese(before, keys, content) && m !in Run(before).nodes && k in keys && v in keys
    requires Allowed(Run(before), Arrival(content, m, picks))
    requires JoinedLater(keys, content, k, v) && ClosedBefore(keys, content, k, v)
    requires (m == v && k in Run(before).nodes) || (m == k && v in Run(before).nodes)
    ensures History(before + [Arrival(content, m, picks)])
    ensures VerifiedByEdge(Run(before + [Arrival(content, m, picks)]), k)
  {
    var g := Run(before);
    var after := before + [Arrival(content, m, picks)];
    GraphHolds(before, keys, content);
    assert NearestIn(Insert(g, m, content(m).0, content(m).1), Week(content, m), content(m).1, picks);
    ArrivalLinks(before, content, m, picks);
    var edge;
    if m == v {
      edge := JoinedWhenLater(g, g.nodes.Keys, keys, content, k, v, picks);
    } else {
      edge := ClosedWhenBefore(g, g.nodes.Keys, keys, content, k, v, picks);
    }
    NodesAfter(before, content, m, picks);
    assert edge in Run(after).transitions && Verdict(Run(after), edge).status == Verified;
  }

  lemma NodesAfter(before: seq<Event>, content: Content, m: RowKey, picks: seq<Links>)
    requires History(before) && m !in Run(before).nodes && Allowed(Run(before), Arrival(content, m, picks))
    requires History(before + [Arrival(content, m, picks)])
    ensures Run(before + [Arrival(content, m, picks)]).nodes == Run(before).nodes[m := content(m).0]
  {
    var after := before + [Arrival(content, m, picks)];
    assert after[..|after| - 1] == before;
    LastStep(after);
  }

  lemma {:induction false} CertainlyJoined(
    events: seq<Event>, keys: set<RowKey>, content: Content, k: RowKey, v: RowKey)
    requires OnlyThese(events, keys, content)
    requires JoinedLater(keys, content, k, v) && ClosedBefore(keys, content, k, v)
    requires ObservedIn(events, k) && ObservedIn(events, v)
    ensures VerifiedByEdge(Run(events), k)
    decreases |events|
  {
    var before, e := events[..|events| - 1], events[|events| - 1];
    LastStep(events);
    PrefixOnlyThese(events, keys, content);
    if ObservedIn(before, k) && ObservedIn(before, v) {
      CertainlyJoined(before, keys, content, k, v);
      ClosureStays(events, k);
    } else {
      NodesAreTheMessages(before, content);
      assert events == before + [e] && e == Arrival(content, e.key, e.picks);
      LastOfTheTwo(before, e.picks, keys, content, k, v, e.key);
    }
  }

  lemma CertainCloserAlwaysVerifies(events: seq<Event>, keys: set<RowKey>, content: Content, k: RowKey)
    requires Arrives(events, keys, content) && CertainCloser(keys, content, k)
    ensures HoldsVerified(Run(events).proofs, k)
  {
    var v :| JoinedLater(keys, content, k, v) && ClosedBefore(keys, content, k, v);
    CertainlyJoined(events, keys, content, k, v);
    VerifiedExactlyWhenWitnessed(events, k);
  }

  // ---- an order that misses every closer ----

  // Observations that have not closed k, with these messages so far.
  ghost predicate OpenSoFar(events: seq<Event>, keys: set<RowKey>, content: Content, k: RowKey) {
    Arrives(events, keys, content) && AllObserved(events) && !VerifiedByEdge(Run(events), k)
  }

  // None of the edges that come with m closes k.
  ghost predicate LinksLeaveOpen(content: Content, m: RowKey, picks: seq<Links>, k: RowKey) {
    && |picks| == |content(m).1|
    && forall i :: 0 <= i < |picks| ==> LinkLeavesOpen(content, m, content(m).1[i], picks[i], k)
  }

  ghost predicate LinkLeavesOpen(content: Content, m: RowKey, r: RelationKey, links: Links, k: RowKey) {
    forall e :: e in EdgesOf(m, r, links) && e.from == k ==> !Closes(content, k, e.to)
  }

  lemma StaysOpen(before: seq<Event>, events: seq<Event>, here: set<RowKey>, content: Content, m: RowKey,
                  picks: seq<Links>, k: RowKey)
    requires OpenSoFar(before, here, content, k) && Arrives(events, here + {m}, content) && m !in here
    requires Arrived(Run(before), Run(events), content, m, picks) && LinksLeaveOpen(content, m, picks, k)
    ensures !VerifiedByEdge(Run(events), k)
  {
    var g, g' := Run(before), Run(events);
    GraphOfTheMessages(before, here, content);
    GraphOfTheMessages(events, here + {m}, content);
    EveryHistoryIsConsistent(before);
    forall e | e in g'.transitions && e.from == k && e.from in g'.nodes && e.to in g'.nodes
      ensures Verdict(g', e).status != Verified
    {
      if e in g.transitions {
        assert Verdict(g, e) == Verdict(g', e);
      } else {
        NewEdgesAreLinks(m, content(m).1, picks, |picks|, e);
        var i :| 0 <= i < |picks| && e in EdgesOf(m, content(m).1[i], picks[i]);
        assert LinkLeavesOpen(content, m, content(m).1[i], picks[i], k);
      }
    }
  }

  lemma {:induction false} AnyOrder(keys: set<RowKey>, content: Content) returns (events: seq<Event>)
    ensures Arrives(events, keys, content) && AllObserved(events)
    decreases keys
  {
    events := [];
    if keys != {} {
      var m :| m in keys;
      var before := AnyOrder(keys - {m}, content);
      var picks;
      events, picks := OneMoreArrives(before, keys - {m}, content, m, {});
      assert keys - {m} + {m} == keys;
    }
  }

  lemma {:induction false} LatestOf(keys: set<RowKey>, content: Content) returns (m: RowKey)
    requires keys != {}
    ensures m in keys && forall k :: k in keys ==> Week(content, k) <= Week(content, m)
    decreases |keys|
  {
    m :| m in keys;
    if keys != {m} {
      var other := LatestOf(keys - {m}, content);
      if Week(content, m) < Week(content, other) {
        m := other;
      }
    }
  }

  // The messages that close k for certain when they come first.
  ghost function ClosedIfFirst(all: set<RowKey>, content: Content, k: RowKey): set<RowKey> {
    set v | v in all && ClosedBefore(all, content, k, v)
  }

  // k arrives when all the others are there.
  lemma LinkOfK(g: Graph, all: set<RowKey>, content: Content, k: RowKey, r: RelationKey, links: Links)
    requires k in all && r in content(k).1 && Holds(g, all - {k} - ClosedIfFirst(all, content, k), content)
    requires Nearest(Insert(g, k, content(k).0, content(k).1), r, Week(content, k), links)
    requires Avoids(Insert(g, k, content(k).0, content(k).1), r, links.newer, set v | v in all && Closes(content, k, v))
    ensures LinkLeavesOpen(content, k, r, links, k)
  {
    var here := all - {k} - ClosedIfFirst(all, content, k);
    var g1 := Insert(g, k, content(k).0, content(k).1);
    MembersWith(g, here, content, k, r);
    if links.newer.Some? && Closes(content, k, links.newer.value) {
      var p := links.newer.value;
      assert Member(g1, r, p) && p in here && Later(all, content, r, k, p);
      forall y | Later(all, content, r, k, y) && Week(content, y) <= Week(content, p) ensures Closes(content, k, y) {
        assert y in here ==> Member(g1, r, y);
      }
      assert ClosedUpTo(all, content, r, k, p);
    }
  }

  // m arrives when k is there, with every message that does not close k for certain and every earlier one that does.
  lemma LinkAfterK(g: Graph, here: set<RowKey>, all: set<RowKey>, content: Content, k: RowKey, m: RowKey,
                   r: RelationKey, links: Links)
    requires !CertainCloser(all, content, k) && k in here && here + {m} <= all && m !in here && r in content(m).1
    requires m in ClosedIfFirst(all, content, k) && Holds(g, here, content)
    requires forall x :: x in all && x !in here ==>
      x in ClosedIfFirst(all, content, k) && Week(content, m) <= Week(content, x)
    requires Nearest(Insert(g, m, content(m).0, content(m).1), r, Week(content, m), links)
    requires Avoids(Insert(g, m, content(m).0, content(m).1), r, links.older, {k})
    ensures LinkLeavesOpen(content, m, r, links, k)
  {
    var g1 := Insert(g, m, content(m).0, content(m).1);
    MembersWith(g, here, content, m, r);
    if links.older == Some(k) {
      assert Member(g1, r, k) && Later(all, content, r, k, m);
      forall x | Carries(all, content, r, x)
        ensures Week(content, x) <= Week(content, k) || Week(content, m) <= Week(content, x)
      {
        assert x in here ==> Member(g1, r, x);
      }
      forall x | Carries(all, content, r, x) && Week(content, x) == Week(content, k) ensures x == k {
        assert x !in ClosedIfFirst(all, content, k);
        assert Member(g1, r, x);
      }
      assert Next(all, content, r, k, m) && Alone(all, content, r, k);
    }
  }

  lemma KArrivesOpen(all: set<RowKey>, content: Content, k: RowKey) returns (events: seq<Event>)
    requires k in all
    ensures OpenSoFar(events, all - {k} - ClosedIfFirst(all, content, k) + {k}, content, k)
  {
    var here := all - {k} - ClosedIfFirst(all, content, k);
    var before := AnyOrder(here, content);
    var picks;
    ArrivesHolds(before, here, content);
    events, picks := OneMoreArrives(before, here, content, k, set v | v in all && Closes(content, k, v));
    assert LinksLeaveOpen(content, k, picks, k) by {
      forall i | 0 <= i < |picks| ensures LinkLeavesOpen(content, k, content(k).1[i], picks[i], k) {
        LinkOfK(Run(before), all, content, k, content(k).1[i], picks[i]);
      }
    }
    StaysOpen(before, events, here, content, k, picks, k);
  }

  lemma OneMoreStaysOpen(before: seq<Event>, here: set<RowKey>, all: set<RowKey>, content: Content, k: RowKey,
                         m: RowKey)
    returns (events: seq<Event>)
    requires OpenSoFar(before, here, content, k) && k in here && here + {m} <= all && m !in here
    requires !CertainCloser(all, content, k) && m in ClosedIfFirst(all, content, k)
    requires forall x :: x in all && x !in here ==>
      x in ClosedIfFirst(all, content, k) && Week(content, m) <= Week(content, x)
    ensures OpenSoFar(events, here + {m}, content, k)
  {
    var picks;
    ArrivesHolds(before, here, content);
    events, picks := OneMoreArrives(before, here, content, m, {k});
    assert LinksLeaveOpen(content, m, picks, k) by {
      forall i | 0 <= i < |picks| ensures LinkLeavesOpen(content, m, content(m).1[i], picks[i], k) {
        LinkAfterK(Run(before), here, all, content, k, m, content(m).1[i], picks[i]);
      }
    }
    StaysOpen(before, events, here, content, m, picks, k);
  }

  // The certain ones follow, by week.
  lemma {:induction false} InTimeOrder(some: set<RowKey>, all: set<RowKey>, content: Content, k: RowKey)
    returns (events: seq<Event>)
    requires k in all && !CertainCloser(all, content, k) && some <= ClosedIfFirst(all, content, k)
    requires forall a, b :: a in some && b in ClosedIfFirst(all, content, k) - some ==>
      Week(content, a) <= Week(content, b)
    ensures OpenSoFar(events, all - ClosedIfFirst(all, content, k) + some, content, k)
    decreases some
  {
    var certain := ClosedIfFirst(all, content, k);
    if some == {} {
      events := KArrivesOpen(all, content, k);
      assert all - {k} - certain + {k} == all - certain + some;
    } else {
      var m := LatestOf(some, content);
      var before := InTimeOrder(some - {m}, all, content, k);
      events := OneMoreStaysOpen(before, all - certain + (some - {m}), all, content, k, m);
      assert all - certain + (some - {m}) + {m} == all - certain + some;
    }
  }

  lemma LeftOpen(keys: set<RowKey>, content: Content, k: RowKey) returns (events: seq<Event>)
    requires k in keys && !CertainCloser(keys, content, k)
    ensures OpenSoFar(events, keys, content, k)
  {
    var certain := ClosedIfFirst(keys, content, k);
    events := InTimeOrder(certain, keys, content, k);
    assert keys - certain + certain == keys;
  }

  // ---- an order that closes ----

  // With no other message, a closer is certain.
  lemma CertainForTwo(content: Content, r: RelationKey, k: RowKey, v: RowKey)
    requires Later({k, v}, content, r, k, v) && Closes(content, k, v)
    ensures JoinedLater({k, v}, content, k, v) && ClosedBefore({k, v}, content, k, v)
  {
    assert Next({k, v}, content, r, k, v) && Alone({k, v}, content, r, k);
    assert ClosedUpTo({k, v}, content, r, k, v);
  }

  // The two of them first, and everything else later.
  lemma ClosedAtOnce(keys: set<RowKey>, content: Content, r: RelationKey, k: RowKey, v: RowKey)
    returns (events: seq<Event>)
    requires Later(keys, content, r, k, v) && Closes(content, k, v)
    ensures ClosedSoFar(events, keys, content, k)
  {
    var two := AnyOrder({k, v}, content);
    CertainForTwo(content, r, k, v);
    CertainlyJoined(two, {k, v}, content, k, v);
    events := TheRestArrives(two, {k, v}, keys, content, k);
  }

  // Observations that have closed k, with these messages so far.
  ghost predicate ClosedSoFar(events: seq<Event>, keys: set<RowKey>, content: Content, k: RowKey) {
    Arrives(events, keys, content) && AllObserved(events) && VerifiedByEdge(Run(events), k)
  }

  lemma OneMoreClosed(events: seq<Event>, keys: set<RowKey>, content: Content, m: RowKey, k: RowKey)
    returns (events': seq<Event>)
    requires ClosedSoFar(events, keys, content, k) && m !in keys
    ensures ClosedSoFar(events', keys + {m}, content, k)
  {
    var picks;
    events', picks := OneMoreArrives(events, keys, content, m, {});
    StaysClosed(events, events', keys, content, m, picks, k);
  }

  lemma {:induction false} TheRestArrives(events: seq<Event>, keys: set<RowKey>, all: set<RowKey>, content: Content,
                                          k: RowKey)
    returns (events': seq<Event>)
    requires ClosedSoFar(events, keys, content, k) && keys <= all
    ensures ClosedSoFar(events', all, content, k)
    decreases all - keys
  {
    events' := events;
    if keys != all {
      var m :| m in all && m !in keys;
      var more := OneMoreClosed(events, keys, content, m, k);
      events' := TheRestArrives(more, keys + {m}, all, content, k);
    }
  }

  lemma StaysClosed(events: seq<Event>, more: seq<Event>, keys: set<RowKey>, content: Content, m: RowKey,
                    picks: seq<Links>, k: RowKey)
    requires Arrives(events, keys, content) && Arrives(more, keys + {m}, content)
    requires Arrived(Run(events), Run(more), content, m, picks) && VerifiedByEdge(Run(events), k)
    ensures VerifiedByEdge(Run(more), k)
  {
    GraphOfTheMessages(events, keys, content);
    GraphOfTheMessages(more, keys + {m}, content);
    EdgesSurvive(Run(events), Run(more), k);
  }

  lemma VerifiedByEdges(events: seq<Event>, k: RowKey)
    requires History(events) && AllObserved(events)
    ensures !ProvedDirectly(events, k)
    ensures HoldsVerified(Run(events).proofs, k) <==> VerifiedByEdge(Run(events), k)
  {
    VerifiedExactlyWhenWitnessed(events, k);
    assert forall i :: 0 <= i < |events| ==> events[i] in events;
  }

  // ---- the exact condition ----

  // Without a closer that is certain, two orders disagree about a message that has a later closer.
  lemma OrdersDisagree(keys: set<RowKey>, content: Content, k: RowKey) returns (open: seq<Event>, closed: seq<Event>)
    requires LaterCloser(keys, content, k) && !CertainCloser(keys, content, k)
    ensures ArrivesUnproved(open, keys, content, k) && !HoldsVerified(Run(open).proofs, k)
    ensures ArrivesUnproved(closed, keys, content, k) && HoldsVerified(Run(closed).proofs, k)
  {
    var r, v :| Later(keys, content, r, k, v) && Closes(content, k, v);
    open := LeftOpen(keys, content, k);
    closed := ClosedAtOnce(keys, content, r, k, v);
    VerifiedByEdges(open, k);
    VerifiedByEdges(closed, k);
  }

  // The exact condition, on the messages alone: all arrival orders, with every choice among equal weeks, agree
  // about k if and only if a later closer of k is certain to be joined whenever there is a later closer at all.
  lemma OrdersAgreeExactlyWhen(keys: set<RowKey>, content: Content, k: RowKey)
    ensures OrdersAgree(keys, content, k) <==> (LaterCloser(keys, content, k) ==> CertainCloser(keys, content, k))
  {
    if LaterCloser(keys, content, k) && !CertainCloser(keys, content, k) {
      var open, closed := OrdersDisagree(keys, content, k);
      assert !OrdersAgree(keys, content, k);
    } else {
      forall first, second | ArrivesUnproved(first, keys, content, k) && ArrivesUnproved(second, keys, content, k)
        ensures HoldsVerified(Run(first).proofs, k) <==> HoldsVerified(Run(second).proofs, k)
      {
        if CertainCloser(keys, content, k) {
          CertainCloserAlwaysVerifies(first, keys, content, k);
          CertainCloserAlwaysVerifies(second, keys, content, k);
        } else {
          NoLaterCloserNeverVerifies(first, keys, content, k);
          NoLaterCloserNeverVerifies(second, keys, content, k);
        }
      }
    }
  }

  // ---- messages in distinct weeks ----

  ghost predicate DistinctIn(keys: set<RowKey>, content: Content, r: RelationKey) {
    forall u, v :: Carries(keys, content, r, u) && Carries(keys, content, r, v) && Week(content, u) == Week(content, v)
      ==> u == v
  }

  ghost predicate NextCloser(keys: set<RowKey>, content: Content, k: RowKey) {
    exists r, v :: Next(keys, content, r, k, v) && Closes(content, k, v)
  }

  // Then a certain closer is simply one that comes next.
  lemma CertainMeansNext(keys: set<RowKey>, content: Content, k: RowKey)
    requires forall r :: r in content(k).1 ==> DistinctIn(keys, content, r)
    ensures CertainCloser(keys, content, k) <==> NextCloser(keys, content, k)
  {
    if CertainCloser(keys, content, k) {
      var v :| JoinedLater(keys, content, k, v) && ClosedBefore(keys, content, k, v);
      var r :| Next(keys, content, r, k, v) && Alone(keys, content, r, k);
      assert Closes(content, k, v);
    }
    if NextCloser(keys, content, k) {
      var r, v :| Next(keys, content, r, k, v) && Closes(content, k, v);
      assert DistinctIn(keys, content, r);
      assert Alone(keys, content, r, k) && ClosedUpTo(keys, content, r, k, v);
      assert JoinedLater(keys, content, k, v);
    }
  }

  // ---- a story ----

  const CHAIN := RelationKey("a", "gemma26-v1", "reference:1")

  function Parcel(id: string): RowKey { RowKey(MessageKey("a", Gmail, id), "gemma26-v1") }

  function ParcelEvidence(state: LifecycleState): Evidence {
    Evidence(Shipment, state,
             if state == Completed then CompletedCondition else UncertainCondition,
             state == Active, false, false, false, false, 9, [CompletionLanguage], "mlx-lifecycle:gemma26")
  }

  // Dispatched (week 1), an uncertain update, delivered (week 3), all about one parcel.
  function ParcelStory(update: int): Content {
    k => (if k == Parcel("1") then Node(1, ParcelEvidence(Active))
          else if k == Parcel("2") then Node(update, ParcelEvidence(UncertainState))
          else Node(3, ParcelEvidence(Completed)), [CHAIN])
  }

  lemma OnlyDeliveryCloses(update: int)
    ensures Closes(ParcelStory(update), Parcel("1"), Parcel("3"))
    ensures !Closes(ParcelStory(update), Parcel("1"), Parcel("2"))
  {
    assert "1" != "2" && "2" != "3" && "1" != "3";
  }

  // Three messages of one relation: c closes a, and b, which does not, comes no later than c.
  lemma StoryIsOpen(keys: set<RowKey>, content: Content, a: RowKey, b: RowKey, c: RowKey)
    requires keys == {a, b, c} && forall k :: k in keys ==> content(k).1 == [CHAIN]
    requires Week(content, a) < Week(content, b) <= Week(content, c)
    requires Closes(content, a, c) && !Closes(content, a, b)
    ensures LaterCloser(keys, content, a) && !CertainCloser(keys, content, a)
    ensures Week(content, b) == Week(content, c) ==> NextCloser(keys, content, a)
  {
    assert Later(keys, content, CHAIN, a, b) && Later(keys, content, CHAIN, a, c);
    assert forall r, k :: Carries(keys, content, r, k) ==> r == CHAIN;
    assert forall v :: !ClosedUpTo(keys, content, CHAIN, a, v);
    assert Week(content, b) == Week(content, c) ==> Next(keys, content, CHAIN, a, c);
  }

  // The delivery closes the dispatch in one arrival order of the three messages and not in another, whether the
  // update comes in between or in the week of the delivery; then the delivery is next and still not certain.
  lemma VerificationDependsOnArrivalOrder(update: int)
    requires update == 2 || update == 3
    ensures !OrdersAgree({Parcel("1"), Parcel("2"), Parcel("3")}, ParcelStory(update), Parcel("1"))
    ensures update == 3 ==> NextCloser({Parcel("1"), Parcel("2"), Parcel("3")}, ParcelStory(update), Parcel("1"))
  {
    var a, b, c := Parcel("1"), Parcel("2"), Parcel("3");
    var keys, story := {a, b, c}, ParcelStory(update);
    OnlyDeliveryCloses(update);
    StoryIsOpen(keys, story, a, b, c);
    OrdersAgreeExactlyWhen(keys, story, a);
  }
}
