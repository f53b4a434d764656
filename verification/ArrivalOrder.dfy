/** What the order in which messages arrive can and cannot change in the LumeGraph. */
module ArrivalOrder {
  import opened Mail
  import opened Obsolescence
  import opened LumeGraph

  // ---- reachability ----

  ghost predicate HasEdge(g: Graph, u: RowKey, v: RowKey) {
    exists r :: Edge(r, u, v) in g.transitions
  }

  ghost predicate IsPath(g: Graph, p: seq<RowKey>) {
    |p| >= 2 && forall i :: 0 <= i < |p| - 1 ==> HasEdge(g, p[i], p[i + 1])
  }

  ghost predicate Reaches(g: Graph, u: RowKey, v: RowKey) {
    exists p :: IsPath(g, p) && p[0] == u && p[|p| - 1] == v
  }

  lemma {:induction false} PathsGoForward(g: Graph, p: seq<RowKey>)
    requires Ordered(g) && IsPath(g, p)
    ensures p[0] in g.nodes && p[|p| - 1] in g.nodes && g.nodes[p[0]].week < g.nodes[p[|p| - 1]].week
  {
    assert HasEdge(g, p[0], p[1]);
    if |p| > 2 {
      var rest := p[1..];
      forall i | 0 <= i < |rest| - 1 ensures HasEdge(g, rest[i], rest[i + 1]) {
        assert HasEdge(g, p[i + 1], p[i + 2]);
      }
      PathsGoForward(g, rest);
    }
  }

  // The whole graph, over all relations together, has no cycle.
  lemma EveryHistoryIsAcyclic(events: seq<Event>, u: RowKey)
    requires History(events)
    ensures !Reaches(Run(events), u, u)
  {
    var g := Run(events);
    EveryHistoryIsConsistent(events);
    forall p | IsPath(g, p) && p[0] == u && p[|p| - 1] == u ensures false {
      PathsGoForward(g, p);
    }
  }

  lemma ReachesIsTransitive(g: Graph, u: RowKey, v: RowKey, w: RowKey)
    requires Reaches(g, u, v) && Reaches(g, v, w)
    ensures Reaches(g, u, w)
  {
    var p :| IsPath(g, p) && p[0] == u && p[|p| - 1] == v;
    var q :| IsPath(g, q) && q[0] == v && q[|q| - 1] == w;
    var joined := p + q[1..];
    forall i | 0 <= i < |joined| - 1 ensures HasEdge(g, joined[i], joined[i + 1]) {
      if i < |p| - 1 {
        assert HasEdge(g, p[i], p[i + 1]);
      } else {
        assert HasEdge(g, q[i - |p| + 1], q[i - |p| + 2]);
      }
    }
    assert IsPath(g, joined) && joined[0] == u && joined[|joined| - 1] == w;
  }

  ghost predicate DistinctWeeks(g: Graph, r: RelationKey) {
    forall u, v :: Member(g, r, u) && Member(g, r, v) && g.nodes[u].week == g.nodes[v].week ==> u == v
  }

  lemma AdjacentIsJoined(g: Graph, r: RelationKey, u: RowKey, v: RowKey)
    requires Consistent(g) && DistinctWeeks(g, r) && Adjacent(g, r, u, v)
    ensures Edge(r, u, v) in g.transitions
  {
    assert JoinedLevels(g, r, g.nodes[u].week, g.nodes[v].week);
    var e :| e in g.transitions && e.relation == r && e.from in g.nodes && e.to in g.nodes
             && g.nodes[e.from].week == g.nodes[u].week && g.nodes[e.to].week == g.nodes[v].week;
    assert Member(g, r, e.from) && Member(g, r, e.to);
    assert e == Edge(r, u, v);
  }

  lemma {:induction false} OlderReachesNewer(g: Graph, r: RelationKey, u: RowKey, v: RowKey)
    requires Consistent(g) && DistinctWeeks(g, r)
    requires Member(g, r, u) && Member(g, r, v) && g.nodes[u].week < g.nodes[v].week
    ensures Reaches(g, u, v)
    decreases g.nodes[v].week - g.nodes[u].week
  {
    if Adjacent(g, r, u, v) {
      AdjacentIsJoined(g, r, u, v);
      assert HasEdge(g, u, v);
      assert IsPath(g, [u, v]);
    } else {
      var k :| Member(g, r, k) && g.nodes[u].week < g.nodes[k].week < g.nodes[v].week;
      OlderReachesNewer(g, r, u, k);
      OlderReachesNewer(g, r, k, v);
      ReachesIsTransitive(g, u, k, v);
    }
  }

  // The central law: for messages sharing a relation with distinct weeks, reachability is time order.
  lemma ReachabilityIsTimeOrder(events: seq<Event>, r: RelationKey, u: RowKey, v: RowKey)
    requires History(events) && DistinctWeeks(Run(events), r)
    requires Member(Run(events), r, u) && Member(Run(events), r, v)
    ensures Reaches(Run(events), u, v) <==> Run(events).nodes[u].week < Run(events).nodes[v].week
  {
    var g := Run(events);
    EveryHistoryIsConsistent(events);
    if g.nodes[u].week < g.nodes[v].week {
      OlderReachesNewer(g, r, u, v);
    }
    if Reaches(g, u, v) {
      var p :| IsPath(g, p) && p[0] == u && p[|p| - 1] == v;
      PathsGoForward(g, p);
    }
  }

  // ---- two arrival orders of the same messages ----

  type Content = RowKey -> (Node, seq<RelationKey>)

  // A message's node and relations are a function of its identity.
  ghost predicate Faithful(events: seq<Event>, content: Content) {
    forall i :: 0 <= i < |events| && events[i].Observed? ==> (events[i].node, events[i].rels) == content(events[i].key)
  }

  ghost predicate ObservedIn(events: seq<Event>, k: RowKey) {
    exists i :: 0 <= i < |events| && events[i].Observed? && events[i].key == k
  }

  lemma {:induction false} NodesAreTheMessages(events: seq<Event>, content: Content)
    requires History(events) && Faithful(events, content)
    ensures forall k :: k in Run(events).nodes <==> ObservedIn(events, k)
    ensures forall k :: k in Run(events).nodes ==> Run(events).nodes[k] == content(k).0
    ensures forall k, r :: (k, r) in Run(events).relations <==> ObservedIn(events, k) && r in content(k).1
    decreases |events|
  {
    if events != [] {
      var n := |events| - 1;
      var before, e := events[..n], events[n];
      LastStep(events);
      NodesAreTheMessages(before, content);
      forall k ensures ObservedIn(events, k) <==> ObservedIn(before, k) || (e.Observed? && e.key == k) {
        if ObservedIn(before, k) {
          var i :| 0 <= i < n && before[i].Observed? && before[i].key == k;
          assert events[i] == before[i];
        }
        if ObservedIn(events, k) {
          var i :| 0 <= i < |events| && events[i].Observed? && events[i].key == k;
          assert i == n || before[i] == events[i];
        }
      }
      if e.Observed? && e.key !in Run(before).nodes {
        assert Run(events).relations == Insert(Run(before), e.key, e.node, e.rels).relations;
      }
    }
  }

  lemma SameMessagesSameNodes(first: seq<Event>, second: seq<Event>, content: Content)
    requires History(first) && Faithful(first, content) && History(second) && Faithful(second, content)
    requires forall k :: ObservedIn(first, k) <==> ObservedIn(second, k)
    ensures Run(first).nodes == Run(second).nodes && Run(first).relations == Run(second).relations
  {
    var g, h := Run(first), Run(second);
    NodesAreTheMessages(first, content);
    NodesAreTheMessages(second, content);
    forall k ensures k in g.nodes <==> k in h.nodes {}
    assert g.nodes.Keys == h.nodes.Keys;
    forall p ensures p in g.relations <==> p in h.relations {
      assert p == (p.0, p.1);
    }
  }

  // Whatever the two arrival orders, and whatever ties SQLite broke: the same nodes, the same relations
  // and, for a relation with distinct weeks, the same reachability.
  lemma ReachabilityIgnoresArrivalOrder(
    first: seq<Event>, second: seq<Event>, content: Content, r: RelationKey, u: RowKey, v: RowKey)
    requires History(first) && Faithful(first, content) && History(second) && Faithful(second, content)
    requires forall k :: ObservedIn(first, k) <==> ObservedIn(second, k)
    requires DistinctWeeks(Run(first), r) && Member(Run(first), r, u) && Member(Run(first), r, v)
    ensures Run(first).nodes == Run(second).nodes && Run(first).relations == Run(second).relations
    ensures Reaches(Run(first), u, v) <==> Reaches(Run(second), u, v)
  {
    SameMessagesSameNodes(first, second, content);
    DistinctWeeksDependOnNodes(Run(first), Run(second), r);
    ReachabilityIsTimeOrder(first, r, u, v);
    ReachabilityIsTimeOrder(second, r, u, v);
  }

  lemma DistinctWeeksDependOnNodes(g: Graph, h: Graph, r: RelationKey)
    requires g.nodes == h.nodes && g.relations == h.relations && DistinctWeeks(g, r)
    ensures DistinctWeeks(h, r)
  {
    assert forall k :: Member(h, r, k) ==> Member(g, r, k);
  }

  // ---- which proofs end up verified ----

  ghost predicate VerifiedByEdge(g: Graph, k: RowKey) {
    exists e :: e in g.transitions && e.from == k && e.from in g.nodes && e.to in g.nodes
             && Verdict(g, e).status == Verified
  }

  ghost predicate ProvedDirectly(events: seq<Event>, k: RowKey) {
    exists i :: 0 <= i < |events| && events[i].Proved? && events[i].key == k && events[i].proof.status == Verified
  }

  // A row is verified for one of two reasons, and for no other.
  ghost predicate VerifiedMeans(g: Graph, k: RowKey, direct: bool) {
    HoldsVerified(g.proofs, k) <==> VerifiedByEdge(g, k) || direct
  }

  lemma EdgesSurvive(g: Graph, g': Graph, k: RowKey)
    requires g.transitions.Keys <= g'.transitions.Keys && VerifiedByEdge(g, k)
    requires forall n :: n in g.nodes ==> n in g'.nodes && g'.nodes[n] == g.nodes[n]
    ensures VerifiedByEdge(g', k)
  {
    var e :| e in g.transitions && e.from == k && e.from in g.nodes && e.to in g.nodes
             && Verdict(g, e).status == Verified;
    assert e in g'.transitions && Verdict(g', e) == Verdict(g, e);
  }

  lemma JoinKeepsMeaning(g: Graph, r: RelationKey, from: RowKey, to: RowKey, k: RowKey, direct: bool)
    requires from in g.nodes && to in g.nodes && VerifiedMeans(g, k, direct)
    ensures VerifiedMeans(Join(g, r, from, to), k, direct)
  {
    var g' := Join(g, r, from, to);
    var edge := Edge(r, from, to);
    assert g'.transitions.Keys == g.transitions.Keys + {edge};
    if VerifiedByEdge(g, k) {
      EdgesSurvive(g, g', k);
    }
    if VerifiedByEdge(g', k) && !VerifiedByEdge(g, k) {
      var e :| e in g'.transitions && e.from == k && e.from in g'.nodes && e.to in g'.nodes
               && Verdict(g', e).status == Verified;
      assert Verdict(g', e) == Verdict(g, e);
      assert e == edge;
    }
    if k == from && Verdict(g, edge).status == Verified {
      assert edge in g'.transitions && Verdict(g', edge) == Verdict(g, edge);
    }
  }

  lemma {:induction false} LinkFirstKeepsMeaning(
    g: Graph, key: RowKey, rels: seq<RelationKey>, picks: seq<Links>, n: nat, k: RowKey, direct: bool)
    requires n <= |rels| == |picks| && key in g.nodes && VerifiedMeans(g, k, direct)
    requires forall i :: 0 <= i < |picks| ==> Linkable(g, picks[i])
    ensures VerifiedMeans(LinkFirst(g, key, rels, picks, n), k, direct)
  {
    if n > 0 {
      LinkFirstKeepsMeaning(g, key, rels, picks, n - 1, k, direct);
      var middle := LinkFirst(g, key, rels, picks, n - 1);
      var r, links := rels[n - 1], picks[n - 1];
      if links.older.Some? {
        JoinKeepsMeaning(middle, r, links.older.value, key, k, direct);
        middle := Join(middle, r, links.older.value, key);
      }
      if links.newer.Some? {
        JoinKeepsMeaning(middle, r, key, links.newer.value, k, direct);
      }
    }
  }

  lemma InsertKeepsMeaning(g: Graph, key: RowKey, node: Node, rels: seq<RelationKey>, k: RowKey, direct: bool)
    requires Ordered(g) && key !in g.nodes && VerifiedMeans(g, k, direct)
    ensures VerifiedMeans(Insert(g, key, node, rels), k, direct)
  {
    var g' := Insert(g, key, node, rels);
    if VerifiedByEdge(g, k) {
      EdgesSurvive(g, g', k);
    }
    if VerifiedByEdge(g', k) {
      var e :| e in g'.transitions && e.from == k && e.from in g'.nodes && e.to in g'.nodes
               && Verdict(g', e).status == Verified;
      assert e in g.transitions && Verdict(g, e) == Verdict(g', e);
    }
  }

  // Over every history, a message holds a verified proof exactly when a recorded transition from it
  // is a verified closure, or a verified proof was recorded for it directly.
  lemma {:induction false} VerifiedExactlyWhenWitnessed(events: seq<Event>, k: RowKey)
    requires History(events)
    ensures VerifiedMeans(Run(events), k, ProvedDirectly(events, k))
    decreases |events|
  {
    if events == [] {
      assert !VerifiedByEdge(EMPTY_GRAPH, k);
    } else {
      var n := |events| - 1;
      var before, e := events[..n], events[n];
      LastStep(events);
      VerifiedExactlyWhenWitnessed(before, k);
      EveryHistoryIsConsistent(before);
      DirectProofsGrow(events, k);
      var g, direct := Run(before), ProvedDirectly(before, k);
      match e {
        case Observed(key, node, rels, picks) =>
          if key !in g.nodes {
            var g1 := Insert(g, key, node, rels);
            InsertKeepsMeaning(g, key, node, rels, k, direct);
            AllLinkable(g1, node.week, rels, picks);
            LinkFirstKeepsMeaning(g1, key, rels, picks, |rels|, k, direct);
          }
        case Proved(key, proof) =>
          var g' := Run(events);
          assert g'.transitions == g.transitions && g'.nodes == g.nodes;
          if VerifiedByEdge(g, k) {
            EdgesSurvive(g, g', k);
          }
          if VerifiedByEdge(g', k) {
            EdgesSurvive(g', g, k);
          }
      }
    }
  }

  lemma DirectProofsGrow(events: seq<Event>, k: RowKey)
    requires events != []
    ensures var n := |events| - 1; var e := events[n];
      ProvedDirectly(events, k)
      <==> ProvedDirectly(events[..n], k) || (e.Proved? && e.key == k && e.proof.status == Verified)
  {
    var n := |events| - 1;
    var before := events[..n];
    if ProvedDirectly(before, k) {
      var i :| 0 <= i < n && before[i].Proved? && before[i].key == k && before[i].proof.status == Verified;
      assert events[i] == before[i];
    }
    if ProvedDirectly(events, k) {
      var i :| 0 <= i < |events| && events[i].Proved? && events[i].key == k && events[i].proof.status == Verified;
      assert i == n || before[i] == events[i];
    }
  }

  lemma NothingIsLost(g: Graph, e: Event)
    requires Consistent(g) && Allowed(g, e)
    ensures g.transitions.Keys <= Step(g, e).transitions.Keys
    ensures forall k :: k in g.nodes ==> k in Step(g, e).nodes && Step(g, e).nodes[k] == g.nodes[k]
  {
    if e.Observed? && e.key !in g.nodes {
      var g1 := Insert(g, e.key, e.node, e.rels);
      InsertKeeps(g, e.key, e.node, e.rels);
      assert NearestIn(g1, e.node.week, e.rels, e.picks);
      LinkFirstKeeps(g1, e.key, e.rels, e.picks, |e.rels|);
    }
  }

  // Whatever comes next, a closure that is joined stays joined.
  lemma ClosureStays(events: seq<Event>, k: RowKey)
    requires History(events) && events != [] && History(events[..|events| - 1])
    requires VerifiedByEdge(Run(events[..|events| - 1]), k)
    ensures VerifiedByEdge(Run(events), k)
  {
    var before, e := events[..|events| - 1], events[|events| - 1];
    LastStep(events);
    EveryHistoryIsConsistent(before);
    NothingIsLost(Run(before), e);
    EdgesSurvive(Run(before), Run(events), k);
  }

  // ... however much comes.
  lemma {:induction false} ClosureStaysLonger(events: seq<Event>, n: nat, k: RowKey)
    requires History(events) && n <= |events| && History(events[..n]) && VerifiedByEdge(Run(events[..n]), k)
    ensures VerifiedByEdge(Run(events), k)
    decreases |events|
  {
    if n < |events| {
      var before := events[..|events| - 1];
      LastStep(events);
      assert before[..n] == events[..n];
      ClosureStaysLonger(before, n, k);
      ClosureStays(events, k);
    } else {
      assert events[..n] == events;
    }
  }

  lemma ProvedInTwoParts(a: seq<Event>, b: seq<Event>, k: RowKey)
    ensures ProvedDirectly(a + b, k) <==> ProvedDirectly(a, k) || ProvedDirectly(b, k)
  {
    if ProvedDirectly(a, k) {
      var i :| 0 <= i < |a| && a[i].Proved? && a[i].key == k && a[i].proof.status == Verified;
      assert (a + b)[i] == a[i];
    }
    if ProvedDirectly(b, k) {
      var i :| 0 <= i < |b| && b[i].Proved? && b[i].key == k && b[i].proof.status == Verified;
      assert (a + b)[|a| + i] == b[i];
    }
    if ProvedDirectly(a + b, k) {
      var i :| 0 <= i < |a + b| && (a + b)[i].Proved? && (a + b)[i].key == k && (a + b)[i].proof.status == Verified;
      assert if i < |a| then (a + b)[i] == a[i] else (a + b)[i] == b[i - |a|];
    }
  }

  // What more events do for a message: it holds a verified proof afterwards exactly when it held one before, a
  // transition from it closes it by then, or one of the new events is a verified proof of it.
  lemma VerifiedAfterMore(before: seq<Event>, more: seq<Event>, k: RowKey)
    requires History(before) && History(before + more)
    ensures HoldsVerified(Run(before + more).proofs, k) <==>
      HoldsVerified(Run(before).proofs, k) || VerifiedByEdge(Run(before + more), k) || ProvedDirectly(more, k)
  {
    VerifiedExactlyWhenWitnessed(before, k);
    VerifiedExactlyWhenWitnessed(before + more, k);
    ProvedInTwoParts(before, more, k);
    assert (before + more)[..|before|] == before;
    if VerifiedByEdge(Run(before), k) {
      ClosureStaysLonger(before + more, |before|, k);
    }
  }

  // In every arrival order a message whose next message in a relation closes it is verified, and a
  // verified row that names a source is closed by a strictly newer, unprotected shipment.
  lemma AdjacentClosureIsVerified(events: seq<Event>, r: RelationKey, u: RowKey, v: RowKey)
    requires History(events) && DistinctWeeks(Run(events), r) && Adjacent(Run(events), r, u, v)
    requires SuccessorProof(Run(events).nodes[u].evidence, Run(events).nodes[v].evidence, u.profile).status == Verified
    ensures HoldsVerified(Run(events).proofs, u)
  {
    var g := Run(events);
    EveryHistoryIsConsistent(events);
    AdjacentIsJoined(g, r, u, v);
    assert Verdict(g, Edge(r, u, v)).status == Verified;
    VerifiedExactlyWhenWitnessed(events, u);
  }

  lemma VerifiedSourceClosesTheMessage(events: seq<Event>, k: RowKey)
    requires History(events) && HoldsVerified(Run(events).proofs, k) && Run(events).proofs[k].source.Some?
    ensures var g := Run(events); var s := g.proofs[k].source.value;
      && k in g.nodes && s in g.nodes && g.nodes[k].week < g.nodes[s].week
      && (exists r :: Member(g, r, k) && Member(g, r, s) && Edge(r, k, s) in g.transitions)
      && !g.nodes[k].evidence.Protected() && !g.nodes[s].evidence.Protected()
      && Open(g.nodes[k].evidence) && Closed(g.nodes[s].evidence)
  {
    var g := Run(events);
    EveryHistoryIsConsistent(events);
    assert HasTransition(g, k, g.proofs[k]);
    var e :| e in g.transitions && e.from == k && e.to == g.proofs[k].source.value
             && e.from in g.nodes && e.to in g.nodes && g.proofs[k].proof == Verdict(g, e);
    assert Member(g, e.relation, k) && Member(g, e.relation, e.to);
    assert e == Edge(e.relation, k, g.proofs[k].source.value);
  }

  // ---- the stored row, read off the log of all proof writes ----

  function JoinWrite(g: Graph, from: RowKey, to: RowKey): Write
    requires from in g.nodes && to in g.nodes
  {
    Write(from, ProofRow(SuccessorProof(g.nodes[from].evidence, g.nodes[to].evidence, from.profile), Some(to)))
  }

  function LinkWrites(g: Graph, key: RowKey, links: Links): seq<Write>
    requires key in g.nodes && Linkable(g, links)
  {
    (if links.older.Some? then [JoinWrite(g, links.older.value, key)] else [])
    + (if links.newer.Some? then [JoinWrite(g, key, links.newer.value)] else [])
  }

  function FirstWrites(g: Graph, key: RowKey, picks: seq<Links>, n: nat): seq<Write>
    requires n <= |picks| && key in g.nodes
    requires forall i :: 0 <= i < |picks| ==> Linkable(g, picks[i])
  {
    if n == 0 then [] else FirstWrites(g, key, picks, n - 1) + LinkWrites(g, key, picks[n - 1])
  }

  ghost function WritesOf(g: Graph, e: Event): seq<Write>
    requires Allowed(g, e)
  {
    match e
    case Proved(key, proof) => [Write(key, ProofRow(proof, None))]
    case Observed(key, node, rels, picks) =>
      if key in g.nodes then []
      else
        var g1 := Insert(g, key, node, rels);
        AllLinkable(g1, node.week, rels, picks);
        FirstWrites(g1, key, picks, |picks|)
  }

  ghost function ProofLog(events: seq<Event>): seq<Write>
    requires History(events)
  {
    if events == [] then [] else
      var before := events[..|events| - 1];
      LastStep(events);
      ProofLog(before) + WritesOf(Run(before), events[|events| - 1])
  }

  lemma {:induction false} UpsertsInTwoParts(t: ProofTable, a: seq<Write>, b: seq<Write>)
    ensures Upserts(t, a + b) == Upserts(Upserts(t, a), b)
  {
    if b == [] {
      assert a + b == a;
    } else {
      var n := |b| - 1;
      assert (a + b)[..|a + b| - 1] == a + b[..n];
      UpsertsInTwoParts(t, a, b[..n]);
    }
  }

  lemma LinkRelationWrites(g: Graph, r: RelationKey, key: RowKey, links: Links)
    requires key in g.nodes && Linkable(g, links)
    ensures LinkRelation(g, r, key, links).proofs == Upserts(g.proofs, LinkWrites(g, key, links))
  {
    var older := if links.older.Some? then [JoinWrite(g, links.older.value, key)] else [];
    var newer := if links.newer.Some? then [JoinWrite(g, key, links.newer.value)] else [];
    UpsertsInTwoParts(g.proofs, older, newer);
  }

  lemma {:induction false} LinkFirstWrites(g: Graph, key: RowKey, rels: seq<RelationKey>, picks: seq<Links>, n: nat)
    requires n <= |rels| == |picks| && key in g.nodes
    requires forall i :: 0 <= i < |picks| ==> Linkable(g, picks[i])
    ensures LinkFirst(g, key, rels, picks, n).proofs == Upserts(g.proofs, FirstWrites(g, key, picks, n))
  {
    if n > 0 {
      LinkFirstWrites(g, key, rels, picks, n - 1);
      var middle := LinkFirst(g, key, rels, picks, n - 1);
      LinkRelationWrites(middle, rels[n - 1], key, picks[n - 1]);
      UpsertsInTwoParts(g.proofs, FirstWrites(g, key, picks, n - 1), LinkWrites(g, key, picks[n - 1]));
    }
  }

  lemma {:induction false} ProofsFollowTheLog(events: seq<Event>)
    requires History(events)
    ensures Run(events).proofs == Upserts(map[], ProofLog(events))
    decreases |events|
  {
    if events != [] {
      var before := events[..|events| - 1];
      var e := events[|events| - 1];
      var g := Run(before);
      LastStep(events);
      ProofsFollowTheLog(before);
      UpsertsInTwoParts(map[], ProofLog(before), WritesOf(g, e));
      if e.Observed? && e.key !in g.nodes {
        var g1 := Insert(g, e.key, e.node, e.rels);
        AllLinkable(g1, e.node.week, e.rels, e.picks);
        LinkFirstWrites(g1, e.key, e.rels, e.picks, |e.rels|);
      }
    }
  }

  // For any interleaving of graph proofs and direct proofs, the row stored for a message is its last
  // verified proof if it ever had one, and otherwise its last proof.
  lemma StoredRowIsLastVerifiedOrLast(events: seq<Event>, k: RowKey, i: nat)
    requires History(events)
    requires var log := ProofLog(events);
      if EverVerified(log, k) then LastVerifiedWrite(log, k, i) else LastWrite(log, k, i)
    ensures k in Run(events).proofs && Run(events).proofs[k] == ProofLog(events)[i].row
  {
    ProofsFollowTheLog(events);
    StoredProofIsLastVerifiedOrLast(ProofLog(events), k);
  }
}
