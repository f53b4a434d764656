/** The LumeGraph tables of learning.py as a value, and what an observation does to them. */
module LumeGraph {
  import opened Mail
  import opened Lifecycle
  import opened Obsolescence

  // A relation hash together with the account and profile its query is restricted to.
  datatype RelationKey = RelationKey(account: string, profile: string, material: string)

  datatype Node = Node(week: int, evidence: Evidence)

  datatype Edge = Edge(relation: RelationKey, from: RowKey, to: RowKey)

  datatype Graph = Graph(
    nodes: map<RowKey, Node>,
    relations: set<(RowKey, RelationKey)>,
    transitions: map<Edge, TransitionKind>,
    proofs: ProofTable)

  const EMPTY_GRAPH := Graph(map[], {}, map[], map[])

  // relation JOIN node
  predicate Member(g: Graph, r: RelationKey, k: RowKey) {
    (k, r) in g.relations && k in g.nodes
  }

  // Neighbours picked for one relation.  Equal weeks leave SQLite free to return any of them.
  datatype Links = Links(older: Option<RowKey>, newer: Option<RowKey>)

  ghost predicate NearestOlder(g: Graph, r: RelationKey, week: int, pick: Option<RowKey>) {
    match pick
    case None => forall k :: Member(g, r, k) ==> g.nodes[k].week >= week
    case Some(p) =>
      && Member(g, r, p) && g.nodes[p].week < week
      && forall k :: Member(g, r, k) && g.nodes[k].week < week ==> g.nodes[k].week <= g.nodes[p].week
  }

  ghost predicate NearestNewer(g: Graph, r: RelationKey, week: int, pick: Option<RowKey>) {
    match pick
    case None => forall k :: Member(g, r, k) ==> g.nodes[k].week <= week
    case Some(p) =>
      && Member(g, r, p) && g.nodes[p].week > week
      && forall k :: Member(g, r, k) && g.nodes[k].week > week ==> g.nodes[p].week <= g.nodes[k].week
  }

  ghost predicate Nearest(g: Graph, r: RelationKey, week: int, links: Links) {
    NearestOlder(g, r, week, links.older) && NearestNewer(g, r, week, links.newer)
  }

  // A nearest neighbour exists whenever there is a neighbour at all.
  lemma {:induction false} GreatestExists(nodes: map<RowKey, Node>, s: set<RowKey>)
    requires s != {} && s <= nodes.Keys
    ensures exists k :: k in s && forall j :: j in s ==> nodes[j].week <= nodes[k].week
  {
    var x :| x in s;
    if s == {x} {
      assert forall j :: j in s ==> j == x;
    } else {
      GreatestExists(nodes, s - {x});
      var hi :| hi in s - {x} && forall j :: j in s - {x} ==> nodes[j].week <= nodes[hi].week;
      var top := if nodes[hi].week <= nodes[x].week then x else hi;
      assert top in s && forall j :: j in s ==> j == x || j in s - {x};
    }
  }

  lemma {:induction false} LeastExists(nodes: map<RowKey, Node>, s: set<RowKey>)
    requires s != {} && s <= nodes.Keys
    ensures exists k :: k in s && forall j :: j in s ==> nodes[k].week <= nodes[j].week
  {
    var x :| x in s;
    if s == {x} {
      assert forall j :: j in s ==> j == x;
    } else {
      LeastExists(nodes, s - {x});
      var lo :| lo in s - {x} && forall j :: j in s - {x} ==> nodes[lo].week <= nodes[j].week;
      var bottom := if nodes[x].week <= nodes[lo].week then x else lo;
      assert bottom in s && forall j :: j in s ==> j == x || j in s - {x};
    }
  }

  // _record_lumegraph_transition_and_proof: INSERT OR IGNORE the edge, upsert the predecessor's proof.
  function Join(g: Graph, r: RelationKey, from: RowKey, to: RowKey): (g': Graph)
    requires from in g.nodes && to in g.nodes
  {
    var edge := Edge(r, from, to);
    var before, after := g.nodes[from].evidence, g.nodes[to].evidence;
    g.(transitions := if edge in g.transitions then g.transitions
                      else g.transitions[edge := TransitionForState(after.state)],
       proofs := Upsert(g.proofs, from, ProofRow(SuccessorProof(before, after, from.profile), Some(to))))
  }

  predicate Linkable(g: Graph, links: Links) {
    && (links.older.Some? ==> links.older.value in g.nodes)
    && (links.newer.Some? ==> links.newer.value in g.nodes)
  }

  function LinkRelation(g: Graph, r: RelationKey, key: RowKey, links: Links): (g': Graph)
    requires key in g.nodes && Linkable(g, links)
    ensures g'.nodes == g.nodes && g'.relations == g.relations
  {
    var g1 := if links.older.Some? then Join(g, r, links.older.value, key) else g;
    if links.newer.Some? then Join(g1, r, key, links.newer.value) else g1
  }

  // The loop over the relation hashes, after its first n rounds.
  function LinkFirst(g: Graph, key: RowKey, rels: seq<RelationKey>, picks: seq<Links>, n: nat): (g': Graph)
    requires n <= |rels| == |picks| && key in g.nodes
    requires forall i :: 0 <= i < |picks| ==> Linkable(g, picks[i])
    ensures g'.nodes == g.nodes && g'.relations == g.relations
  {
    if n == 0 then g else LinkRelation(LinkFirst(g, key, rels, picks, n - 1), rels[n - 1], key, picks[n - 1])
  }

  // The INSERTs into lumegraph_node and lumegraph_relation.
  function Insert(g: Graph, key: RowKey, node: Node, rels: seq<RelationKey>): (g': Graph) {
    g.(nodes := g.nodes[key := node], relations := g.relations + set r | r in rels :: (key, r))
  }

  ghost predicate ValidPicks(g: Graph, key: RowKey, node: Node, rels: seq<RelationKey>, picks: seq<Links>) {
    && |picks| == |rels|
    && forall i :: 0 <= i < |rels| ==> Nearest(Insert(g, key, node, rels), rels[i], node.week, picks[i])
  }

  // record_lumegraph_observation: a message already in the graph is left alone.
  ghost function Observe(g: Graph, key: RowKey, node: Node, rels: seq<RelationKey>, picks: seq<Links>): (g': Graph)
    requires key !in g.nodes ==> ValidPicks(g, key, node, rels, picks)
  {
    if key in g.nodes then g else LinkFirst(Insert(g, key, node, rels), key, rels, picks, |rels|)
  }

  // Everything that can happen to the graph: an observation, or a proof without a source message.
  datatype Event =
    | Observed(key: RowKey, node: Node, rels: seq<RelationKey>, picks: seq<Links>)
    | Proved(key: RowKey, proof: Proof)

  ghost predicate Allowed(g: Graph, e: Event) {
    e.Observed? && e.key !in g.nodes ==> ValidPicks(g, e.key, e.node, e.rels, e.picks)
  }

  ghost function Step(g: Graph, e: Event): (g': Graph)
    requires Allowed(g, e)
  {
    match e
    case Observed(key, node, rels, picks) => Observe(g, key, node, rels, picks)
    case Proved(key, proof) => g.(proofs := Upsert(g.proofs, key, ProofRow(proof, None)))
  }

  // A history is any sequence of events, in any order, whose picks are what the queries may return.
  ghost predicate History(events: seq<Event>)
    decreases |events|, 0
  {
    events == [] || Extends(events[..|events| - 1], events[|events| - 1])
  }

  ghost predicate Extends(before: seq<Event>, e: Event)
    decreases |before|, 2
  {
    History(before) && Allowed(Run(before), e)
  }

  ghost function Run(events: seq<Event>): (g: Graph)
    requires History(events)
    decreases |events|, 1
  {
    if events == [] then EMPTY_GRAPH else After(events[..|events| - 1], events[|events| - 1])
  }

  ghost function After(before: seq<Event>, e: Event): (g: Graph)
    requires Extends(before, e)
    decreases |before|, 3
  {
    Step(Run(before), e)
  }

  lemma LastStep(events: seq<Event>)
    requires events != []
    ensures var before, e := events[..|events| - 1], events[|events| - 1];
      History(events) <==> History(before) && Allowed(Run(before), e)
    ensures var before, e := events[..|events| - 1], events[|events| - 1];
      History(events) ==> Run(events) == Step(Run(before), e)
  {
    var before, e := events[..|events| - 1], events[|events| - 1];
    assert Extends(before, e) <==> History(before) && Allowed(Run(before), e);
    if History(events) {
      assert Run(events) == After(before, e);
    }
  }

  // ---- the invariant of every history ----

  ghost predicate Grounded(g: Graph) {
    forall p :: p in g.relations ==> p.0 in g.nodes
  }

  // Every transition joins two members of its relation, from a strictly older to a strictly newer week.
  ghost predicate Ordered(g: Graph) {
    forall e :: e in g.transitions ==>
      && Member(g, e.relation, e.from) && Member(g, e.relation, e.to)
      && g.nodes[e.from].week < g.nodes[e.to].week
      && g.transitions[e] == TransitionForState(g.nodes[e.to].evidence.state)
  }

  ghost predicate Adjacent(g: Graph, r: RelationKey, u: RowKey, v: RowKey) {
    && Member(g, r, u) && Member(g, r, v) && g.nodes[u].week < g.nodes[v].week
    && forall k :: Member(g, r, k) ==> g.nodes[k].week <= g.nodes[u].week || g.nodes[v].week <= g.nodes[k].week
  }

  ghost predicate JoinedLevels(g: Graph, r: RelationKey, low: int, high: int) {
    exists e :: e in g.transitions && e.relation == r && e.from in g.nodes && e.to in g.nodes
             && g.nodes[e.from].week == low && g.nodes[e.to].week == high
  }

  // Two occupied weeks of a relation with nothing in between are joined by a transition.
  ghost predicate Connected(g: Graph) {
    forall r, u, v :: Adjacent(g, r, u, v) ==> JoinedLevels(g, r, g.nodes[u].week, g.nodes[v].week)
  }

  // A proof naming a source is the verdict on a recorded transition to that source.
  ghost predicate Witnessed(g: Graph) {
    forall k :: k in g.proofs && g.proofs[k].source.Some? ==> HasTransition(g, k, g.proofs[k])
  }

  ghost predicate HasTransition(g: Graph, k: RowKey, row: ProofRow)
    requires row.source.Some?
  {
    exists e :: e in g.transitions && e.from == k && e.to == row.source.value
             && e.from in g.nodes && e.to in g.nodes && row.proof == Verdict(g, e)
  }

  ghost function Verdict(g: Graph, e: Edge): Proof
    requires e.from in g.nodes && e.to in g.nodes
  {
    SuccessorProof(g.nodes[e.from].evidence, g.nodes[e.to].evidence, e.from.profile)
  }

  ghost predicate Consistent(g: Graph) {
    Grounded(g) && Ordered(g) && Connected(g) && Witnessed(g)
  }

  // ---- one join keeps everything except what depends on the levels ----

  lemma JoinKeepsOrder(g: Graph, r: RelationKey, from: RowKey, to: RowKey)
    requires Ordered(g) && Member(g, r, from) && Member(g, r, to) && g.nodes[from].week < g.nodes[to].week
    ensures Ordered(Join(g, r, from, to))
    ensures Join(g, r, from, to).transitions.Keys == g.transitions.Keys + {Edge(r, from, to)}
  {
  }

  lemma JoinKeepsWitnesses(g: Graph, r: RelationKey, from: RowKey, to: RowKey)
    requires Witnessed(g) && from in g.nodes && to in g.nodes
    ensures Witnessed(Join(g, r, from, to))
  {
    var g' := Join(g, r, from, to);
    forall k | k in g'.proofs && g'.proofs[k].source.Some? ensures HasTransition(g', k, g'.proofs[k]) {
      if k in g.proofs && g'.proofs[k] == g.proofs[k] {
        TransitionSurvives(g, g', k, g.proofs[k]);
      } else {
        var edge := Edge(r, from, to);
        assert edge in g'.transitions && g'.proofs[k].proof == Verdict(g', edge);
      }
    }
  }

  lemma TransitionSurvives(g: Graph, g': Graph, k: RowKey, row: ProofRow)
    requires row.source.Some? && HasTransition(g, k, row)
    requires g.transitions.Keys <= g'.transitions.Keys
    requires forall n :: n in g.nodes ==> n in g'.nodes && g'.nodes[n] == g.nodes[n]
    ensures HasTransition(g', k, row)
  {
    var e :| e in g.transitions && e.from == k && e.to == row.source.value
             && e.from in g.nodes && e.to in g.nodes && row.proof == Verdict(g, e);
    assert e in g'.transitions && Verdict(g', e) == Verdict(g, e);
  }

  ghost predicate NearestIn(g: Graph, week: int, rels: seq<RelationKey>, picks: seq<Links>) {
    |picks| == |rels| && forall i :: 0 <= i < |rels| ==> Nearest(g, rels[i], week, picks[i])
  }

  // The edges one relation contributes for the new message, and the first n of them together.
  ghost function EdgesOf(key: RowKey, r: RelationKey, links: Links): set<Edge> {
    (if links.older.Some? then {Edge(r, links.older.value, key)} else {})
    + (if links.newer.Some? then {Edge(r, key, links.newer.value)} else {})
  }

  ghost function NewEdges(key: RowKey, rels: seq<RelationKey>, picks: seq<Links>, n: nat): (edges: set<Edge>)
    requires n <= |rels| == |picks|
  {
    if n == 0 then {} else NewEdges(key, rels, picks, n - 1) + EdgesOf(key, rels[n - 1], picks[n - 1])
  }

  lemma {:induction false} NewEdgesContain(key: RowKey, rels: seq<RelationKey>, picks: seq<Links>, n: nat, i: nat)
    requires i < n <= |rels| == |picks|
    ensures EdgesOf(key, rels[i], picks[i]) <= NewEdges(key, rels, picks, n)
  {
    if i < n - 1 {
      NewEdgesContain(key, rels, picks, n - 1, i);
    }
  }

  lemma LinkRelationKeeps(g: Graph, r: RelationKey, key: RowKey, links: Links)
    requires Ordered(g) && Member(g, r, key) && Nearest(g, r, g.nodes[key].week, links)
    ensures Linkable(g, links)
    ensures Ordered(LinkRelation(g, r, key, links))
    ensures LinkRelation(g, r, key, links).transitions.Keys == g.transitions.Keys + EdgesOf(key, r, links)
  {
    var middle := g;
    if links.older.Some? {
      JoinKeepsOrder(g, r, links.older.value, key);
      middle := Join(g, r, links.older.value, key);
    }
    if links.newer.Some? {
      JoinKeepsOrder(middle, r, key, links.newer.value);
    }
  }

  lemma LinkRelationKeepsWitnesses(g: Graph, r: RelationKey, key: RowKey, links: Links)
    requires Witnessed(g) && key in g.nodes && Linkable(g, links)
    ensures Witnessed(LinkRelation(g, r, key, links))
  {
    var middle := g;
    if links.older.Some? {
      JoinKeepsWitnesses(g, r, links.older.value, key);
      middle := Join(g, r, links.older.value, key);
    }
    if links.newer.Some? {
      JoinKeepsWitnesses(middle, r, key, links.newer.value);
    }
  }

  lemma NearestDependsOnMembers(g: Graph, g': Graph, r: RelationKey, week: int, links: Links)
    requires g'.nodes == g.nodes && g'.relations == g.relations && Nearest(g, r, week, links)
    ensures Nearest(g', r, week, links)
  {
    assert forall k :: Member(g', r, k) <==> Member(g, r, k);
  }

  lemma AllLinkable(g: Graph, week: int, rels: seq<RelationKey>, picks: seq<Links>)
    requires NearestIn(g, week, rels, picks)
    ensures forall i :: 0 <= i < |picks| ==> Linkable(g, picks[i])
  {
    forall i | 0 <= i < |picks| ensures Linkable(g, picks[i]) {
      assert Nearest(g, rels[i], week, picks[i]);
    }
  }

  lemma {:induction false} LinkFirstKeeps(g: Graph, key: RowKey, rels: seq<RelationKey>, picks: seq<Links>, n: nat)
    requires n <= |rels| == |picks| && key in g.nodes
    requires Ordered(g)
    requires forall r :: r in rels ==> Member(g, r, key)
    requires NearestIn(g, g.nodes[key].week, rels, picks)
    ensures forall i :: 0 <= i < |picks| ==> Linkable(g, picks[i])
    ensures Ordered(LinkFirst(g, key, rels, picks, n))
    ensures LinkFirst(g, key, rels, picks, n).transitions.Keys == g.transitions.Keys + NewEdges(key, rels, picks, n)
  {
    AllLinkable(g, g.nodes[key].week, rels, picks);
    if n > 0 {
      LinkFirstKeeps(g, key, rels, picks, n - 1);
      var before, r, links := LinkFirst(g, key, rels, picks, n - 1), rels[n - 1], picks[n - 1];
      assert r in rels && Member(before, r, key);
      NearestDependsOnMembers(g, before, r, g.nodes[key].week, links);
      LinkRelationKeeps(before, r, key, links);
      UnionInTwoSteps(g.transitions.Keys, NewEdges(key, rels, picks, n - 1), EdgesOf(key, r, links));
    }
  }

  lemma UnionInTwoSteps<T>(a: set<T>, b: set<T>, c: set<T>)
    ensures (a + b) + c == a + (b + c)
  {
  }

  lemma {:induction false} LinkFirstKeepsWitnesses(
    g: Graph, key: RowKey, rels: seq<RelationKey>, picks: seq<Links>, n: nat)
    requires n <= |rels| == |picks| && key in g.nodes && Witnessed(g)
    requires forall i :: 0 <= i < |picks| ==> Linkable(g, picks[i])
    ensures Witnessed(LinkFirst(g, key, rels, picks, n))
  {
    if n > 0 {
      LinkFirstKeepsWitnesses(g, key, rels, picks, n - 1);
      LinkRelationKeepsWitnesses(LinkFirst(g, key, rels, picks, n - 1), rels[n - 1], key, picks[n - 1]);
    }
  }

  // Linking the new message to its two neighbours re-joins every pair of adjacent weeks.
  lemma RejoinedAtNode(g1: Graph, g': Graph, key: RowKey, r: RelationKey, links: Links, u: RowKey, v: RowKey)
    requires g'.nodes == g1.nodes && g'.relations == g1.relations && key in g1.nodes
    requires Nearest(g1, r, g1.nodes[key].week, links) && EdgesOf(key, r, links) <= g'.transitions.Keys
    requires Adjacent(g', r, u, v) && (g1.nodes[u].week == g1.nodes[key].week || g1.nodes[v].week == g1.nodes[key].week)
    ensures JoinedLevels(g', r, g'.nodes[u].week, g'.nodes[v].week)
  {
    assert forall k :: Member(g', r, k) <==> Member(g1, r, k);
    assert Member(g1, r, u) && Member(g1, r, v);
    if g1.nodes[u].week == g1.nodes[key].week {
      assert Edge(r, key, links.newer.value) in g'.transitions;
    } else {
      assert Edge(r, links.older.value, key) in g'.transitions;
    }
  }

  lemma StillJoined(g: Graph, g': Graph, r: RelationKey, u: RowKey, v: RowKey)
    requires Ordered(g) && Connected(g) && g.transitions.Keys <= g'.transitions.Keys
    requires forall k :: k in g.nodes ==> k in g'.nodes && g'.nodes[k] == g.nodes[k]
    requires g.relations <= g'.relations
    requires Member(g, r, u) && Member(g, r, v) && Adjacent(g', r, u, v)
    ensures JoinedLevels(g', r, g'.nodes[u].week, g'.nodes[v].week)
  {
    assert Adjacent(g, r, u, v) by {
      forall k | Member(g, r, k) ensures g.nodes[k].week <= g.nodes[u].week || g.nodes[v].week <= g.nodes[k].week {
        assert Member(g', r, k);
      }
    }
    var e :| e in g.transitions && e.relation == r && e.from in g.nodes && e.to in g.nodes
             && g.nodes[e.from].week == g.nodes[u].week && g.nodes[e.to].week == g.nodes[v].week;
    assert e in g'.transitions;
  }

  // A member of r after the insertion is either an old one or has the week of the new message.
  lemma NewMember(g: Graph, key: RowKey, node: Node, rels: seq<RelationKey>, r: RelationKey, k: RowKey)
    requires Grounded(g) && key !in g.nodes && Member(Insert(g, key, node, rels), r, k)
    ensures (r in rels && k == key) || (k != key && Member(g, r, k))
  {
    if k == key && (key, r) in g.relations {
      assert false;
    }
  }

  lemma ObserveKeepsConsistent(g: Graph, key: RowKey, node: Node, rels: seq<RelationKey>, picks: seq<Links>)
    requires Consistent(g)
    requires key !in g.nodes ==> ValidPicks(g, key, node, rels, picks)
    ensures Consistent(Observe(g, key, node, rels, picks))
  {
    if key !in g.nodes {
      var g1 := Insert(g, key, node, rels);
      InsertKeeps(g, key, node, rels);
      assert NearestIn(g1, node.week, rels, picks);
      LinkFirstKeeps(g1, key, rels, picks, |rels|);
      LinkFirstKeepsWitnesses(g1, key, rels, picks, |rels|);
      var g' := Observe(g, key, node, rels, picks);
      forall r, u, v | Adjacent(g', r, u, v) ensures JoinedLevels(g', r, g'.nodes[u].week, g'.nodes[v].week) {
        assert Member(g1, r, u) && Member(g1, r, v);
        NewMember(g, key, node, rels, r, u);
        NewMember(g, key, node, rels, r, v);
        if u == key || v == key {
          var i :| 0 <= i < |rels| && rels[i] == r;
          NewEdgesContain(key, rels, picks, |rels|, i);
          RejoinedAtNode(g1, g', key, r, picks[i], u, v);
        } else {
          StillJoined(g, g', r, u, v);
        }
      }
    }
  }

  lemma InsertKeeps(g: Graph, key: RowKey, node: Node, rels: seq<RelationKey>)
    requires Consistent(g) && key !in g.nodes
    ensures var g1 := Insert(g, key, node, rels);
      Grounded(g1) && Ordered(g1) && Witnessed(g1) && forall r :: r in rels ==> Member(g1, r, key)
  {
    var g1 := Insert(g, key, node, rels);
    forall k | k in g1.proofs && g1.proofs[k].source.Some? ensures HasTransition(g1, k, g1.proofs[k]) {
      TransitionSurvives(g, g1, k, g.proofs[k]);
    }
  }

  lemma ProveKeepsWitnesses(g: Graph, g': Graph, key: RowKey, proof: Proof)
    requires Witnessed(g) && g' == g.(proofs := Upsert(g.proofs, key, ProofRow(proof, None)))
    ensures Witnessed(g')
  {
    forall k | k in g'.proofs && g'.proofs[k].source.Some? ensures HasTransition(g', k, g'.proofs[k]) {
      TransitionSurvives(g, g', k, g.proofs[k]);
    }
  }

  lemma ProofsDoNotConnect(g: Graph, g': Graph)
    requires Ordered(g) && Connected(g)
    requires g'.nodes == g.nodes && g'.relations == g.relations && g'.transitions == g.transitions
    ensures Connected(g')
  {
    forall r, u, v | Adjacent(g', r, u, v) ensures JoinedLevels(g', r, g'.nodes[u].week, g'.nodes[v].week) {
      StillJoined(g, g', r, u, v);
    }
  }

  // Over every history, whatever the arrival order: transitions run from older to newer weeks,
  // adjacent weeks are joined, and a proof naming a source has its transition.
  lemma {:induction false} EveryHistoryIsConsistent(events: seq<Event>)
    requires History(events)
    ensures Consistent(Run(events))
    decreases |events|
  {
    if events != [] {
      var before := events[..|events| - 1];
      LastStep(events);
      EveryHistoryIsConsistent(before);
      match events[|events| - 1] {
        case Observed(key, node, rels, picks) => ObserveKeepsConsistent(Run(before), key, node, rels, picks);
        case Proved(key, proof) =>
          ProveKeepsWitnesses(Run(before), Run(events), key, proof);
          ProofsDoNotConnect(Run(before), Run(events));
      }
    }
  }
}
