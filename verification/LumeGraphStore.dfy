/** The LumeGraph part of PreferenceStore (learning.py), and the batch loop of lumegraph_runtime.py. */
module LumeGraphStore {
  import opened Mail
  import opened Lifecycle
  import opened Obsolescence
  import opened LumeGraph

  const SECONDS_PER_WEEK := 604_800

  predicate Blank(s: string) {
    forall i :: 0 <= i < |s| ==> s[i] in {' ', '\t', '\n', '\r'}
  }

  predicate ValidProfile(profile: string) { !Blank(profile) && |profile| <= 100 }

  predicate ValidMaterials(materials: seq<string>) {
    |materials| <= 4 && NoDuplicates(materials) && forall i :: 0 <= i < |materials| ==> !Blank(materials[i])
  }

  function RelationKeys(key: RowKey, materials: seq<string>): (rels: seq<RelationKey>)
    ensures |rels| == |materials|
    ensures forall i :: 0 <= i < |rels| ==> rels[i] == RelationKey(key.message.account, key.profile, materials[i])
  {
    seq(|materials|, i requires 0 <= i < |materials| => RelationKey(key.message.account, key.profile, materials[i]))
  }

  function EvidenceOf(o: Observation, hardProtected: bool): Evidence
    requires o.Valid()
  {
    Evidence(o.kind, o.state, o.condition, o.utility.operational, o.utility.evidentiary, o.utility.personal,
             o.utility.security, hardProtected, Bucket(o.confidence), o.reasons, o.extractor)
  }

  // When one message closes an earlier one, told from the two observations and their hard-protection flags: both are
  // unprotected shipments confidently read by the supported model, the first of them open and the second the news
  // that it was completed or replaced.
  lemma SuccessorClosesExactlyWhen(
    before: Observation, beforeProtected: bool, after: Observation, afterProtected: bool, profile: string)
    requires before.Valid() && after.Valid()
    ensures
      SuccessorProof(EvidenceOf(before, beforeProtected), EvidenceOf(after, afterProtected), profile).status == Verified
      <==>
        && before.kind == after.kind == Shipment && !beforeProtected && !afterProtected
        && "gemma26-" <= profile
        && "mlx-lifecycle:gemma26" <= before.extractor && "mlx-lifecycle:gemma26" <= after.extractor
        && before.confidence >= 0.9 && after.confidence >= 0.9
        && before.state in {Active, Pending} && before.utility == Utility(true, false, false, false)
        && after.condition == CompletedCondition && after.utility == Utility(false, false, false, false)
        && ((after.state == Completed && CompletionLanguage in after.reasons)
            || (after.state == Replaced && ReplacementLanguage in after.reasons))
  {
    BucketOfNine(before.confidence);
    BucketOfNine(after.confidence);
  }

  lemma BucketOfNine(confidence: real)
    requires 0.0 <= confidence <= 1.0
    ensures Bucket(confidence) >= 9 <==> confidence >= 0.9
  {
    assert (confidence * 10.0).Floor >= 9 <==> confidence * 10.0 >= 9.0;
  }

  lemma {:induction false} LinkFirstReadsPrefix(
    g: Graph, key: RowKey, rels: seq<RelationKey>, picks: seq<Links>, rels': seq<RelationKey>, picks': seq<Links>,
    n: nat)
    requires n <= |rels| == |picks| && n <= |rels'| == |picks'| && key in g.nodes
    requires forall i :: 0 <= i < |picks| ==> Linkable(g, picks[i])
    requires forall i :: 0 <= i < |picks'| ==> Linkable(g, picks'[i])
    requires forall i :: 0 <= i < n ==> rels[i] == rels'[i] && picks[i] == picks'[i]
    ensures LinkFirst(g, key, rels, picks, n) == LinkFirst(g, key, rels', picks', n)
  {
    if n > 0 {
      LinkFirstReadsPrefix(g, key, rels, picks, rels', picks', n - 1);
    }
  }

  // g is g1 after the message key has been linked through rels.
  ghost predicate Linked(g1: Graph, g: Graph, key: RowKey, rels: seq<RelationKey>, picks: seq<Links>) {
    && key in g1.nodes && NearestIn(g1, g1.nodes[key].week, rels, picks)
    && (forall i :: 0 <= i < |picks| ==> Linkable(g1, picks[i]))
    && g == LinkFirst(g1, key, rels, picks, |rels|)
  }

  lemma LinkedExtends(
    g1: Graph, g: Graph, key: RowKey, rels: seq<RelationKey>, picks: seq<Links>, r: RelationKey, links: Links)
    requires Linked(g1, g, key, rels, picks)
    requires Nearest(g, r, g1.nodes[key].week, links) && Linkable(g, links)
    ensures Linked(g1, LinkRelation(g, r, key, links), key, rels + [r], picks + [links])
  {
    var rels', picks' := rels + [r], picks + [links];
    NearestDependsOnMembers(g, g1, r, g1.nodes[key].week, links);
    forall i | 0 <= i < |rels'| ensures Nearest(g1, rels'[i], g1.nodes[key].week, picks'[i]) {
      if i < |rels| {
        assert Nearest(g1, rels[i], g1.nodes[key].week, picks[i]);
      }
    }
    LinkFirstReadsPrefix(g1, key, rels, picks, rels', picks', |rels|);
  }

  predicate HasLink(links: Links) { links.older.Some? || links.newer.Some? }

  ghost predicate AnyLink(picks: seq<Links>) { exists j :: 0 <= j < |picks| && HasLink(picks[j]) }

  lemma OneMorePick(picks: seq<Links>, links: Links)
    ensures AnyLink(picks + [links]) <==> AnyLink(picks) || HasLink(links)
  {
    var more := picks + [links];
    assert more[|picks|] == links;
    if j :| 0 <= j < |picks| && HasLink(picks[j]) {
      assert more[j] == picks[j];
    }
  }

  // A message of another week in one of the relations, for the new message to be linked to.
  ghost predicate HasNeighbour(g: Graph, rels: seq<RelationKey>, week: int) {
    exists r, k :: r in rels && Member(g, r, k) && g.nodes[k].week != week
  }

  class LumeGraphStore {
    var nodes: map<RowKey, Node>
    var relations: set<(RowKey, RelationKey)>
    var transitions: map<Edge, TransitionKind>
    var proofs: ProofTable
    ghost var history: seq<Event>

    function State(): Graph
      reads this
    {
      Graph(nodes, relations, transitions, proofs)
    }

    // The tables are the outcome of everything recorded so far.
    ghost predicate Valid()
      reads this
    {
      History(history) && State() == Run(history)
    }

    constructor ()
      ensures Valid() && history == []
    {
      nodes, relations, transitions, proofs, history := map[], {}, map[], map[], [];
    }

    // _nearest_lumegraph_node with older=True
    method NearestOlderNode(r: RelationKey, week: int) returns (pick: Option<RowKey>)
      ensures NearestOlder(State(), r, week, pick)
    {
      var older := set k | k in nodes && (k, r) in relations && nodes[k].week < week;
      assert forall k :: Member(State(), r, k) && nodes[k].week < week ==> k in older;
      if older == {} {
        return None;
      }
      GreatestExists(nodes, older);
      var k :| k in older && forall j :: j in older ==> nodes[j].week <= nodes[k].week;
      pick := Some(k);
    }

    // _nearest_lumegraph_node with older=False
    method NearestNewerNode(r: RelationKey, week: int) returns (pick: Option<RowKey>)
      ensures NearestNewer(State(), r, week, pick)
    {
      var newer := set k | k in nodes && (k, r) in relations && nodes[k].week > week;
      assert forall k :: Member(State(), r, k) && nodes[k].week > week ==> k in newer;
      if newer == {} {
        return None;
      }
      LeastExists(nodes, newer);
      var k :| k in newer && forall j :: j in newer ==> nodes[k].week <= nodes[j].week;
      pick := Some(k);
    }

    // _record_lumegraph_transition_and_proof; true when the transition row is new
    method RecordTransition(r: RelationKey, from: RowKey, to: RowKey) returns (added: bool)
      requires from in nodes && to in nodes
      modifies `transitions, `proofs
      ensures State() == Join(old(State()), r, from, to)
      ensures added <==> Edge(r, from, to) !in old(transitions)
    {
      var edge := Edge(r, from, to);
      var before, after := nodes[from].evidence, nodes[to].evidence;
      added := edge !in transitions;
      if added {
        transitions := transitions[edge := TransitionForState(after.state)];
      }
      UpsertProof(from, ProofRow(SuccessorProof(before, after, from.profile), Some(to)));
    }

    // _upsert_obsolescence_proof
    method UpsertProof(key: RowKey, row: ProofRow)
      modifies `proofs
      ensures proofs == Upsert(old(proofs), key, row)
    {
      if !(key in proofs && proofs[key].proof.status == Verified) || row.proof.status == Verified {
        proofs := proofs[key := row];
      }
    }

    // record_obsolescence_proof
    method RecordProof(key: RowKey, proof: Proof)
      requires Valid()
      modifies `proofs, `history
      ensures Valid() && history == old(history) + [Proved(key, proof)]
    {
      UpsertProof(key, ProofRow(proof, None));
      ghost var event := Proved(key, proof);
      assert (history + [event])[..|history|] == history;
      LastStep(history + [event]);
      history := history + [event];
    }

    // record_lumegraph_observation; (inserted, linked)
    method RecordObservation(key: RowKey, received: int, o: Observation, hardProtected: bool, materials: seq<string>)
      returns (result: Result<(bool, bool)>)
      requires Valid() && o.Valid()
      modifies this
      ensures Valid()
      ensures result.Ok? <==>
        && !Blank(key.profile) && |key.profile| <= 100
        && |materials| <= 4 && NoDuplicates(materials) && forall m :: m in materials ==> !Blank(m)
      ensures result.Rejected? ==> State() == old(State()) && history == old(history)
      ensures result.Ok? ==> result.value.0 == (key !in old(nodes))
      ensures result.Ok? ==> nodes.Keys == old(nodes).Keys + {key}
      ensures result.Ok? && !result.value.0 ==> State() == old(State())
      ensures result.Ok? ==> exists picks ::
        history == old(history)
          + [Observed(key, Node(received / (7 * 24 * 60 * 60), EvidenceOf(o, hardProtected)),
            RelationKeys(key, materials), picks)]
      ensures result.Ok? ==> (result.value.1 <==>
        key !in old(nodes) && HasNeighbour(old(State()), RelationKeys(key, materials), received / (7 * 24 * 60 * 60)))
    {
      if !ValidProfile(key.profile) || !ValidMaterials(materials) {
        return Rejected;
      }
      var rels := RelationKeys(key, materials);
      var week := received / SECONDS_PER_WEEK;
      var node := Node(week, EvidenceOf(o, hardProtected));
      ghost var was := history;
      if key in nodes {
        history := history + [Observed(key, node, rels, [])];
        assert history[..|was|] == was;
        LastStep(history);
        assert history == was + [Observed(key, Node(received / (7 * 24 * 60 * 60), node.evidence), rels, [])];
        return Ok((false, false));
      }
      ghost var g := State();
      EveryHistoryIsConsistent(history);
      ghost var picks;
      var linked;
      linked, picks := Link(key, node, rels);
      ghost var event := Observed(key, node, rels, picks);
      assert (was + [event])[..|was|] == was;
      LastStep(was + [event]);
      history := was + [event];
      assert event == Observed(key, Node(received / (7 * 24 * 60 * 60), node.evidence), rels, picks);
      result := Ok((true, linked));
    }

    // One round of the relation loop: find both neighbours, then join them to the new message.
    method LinkOneRelation(r: RelationKey, key: RowKey) returns (linked: bool, links: Links)
      requires Member(State(), r, key)
      requires forall e :: e in transitions && (e.from == key || e.to == key) ==> e.relation != r
      modifies `transitions, `proofs
      ensures Linkable(old(State()), links) && Nearest(old(State()), r, nodes[key].week, links)
      ensures State() == LinkRelation(old(State()), r, key, links)
      ensures linked <==> HasLink(links)
      ensures forall e :: e in transitions ==> e in old(transitions) || e.relation == r
    {
      var older := NearestOlderNode(r, nodes[key].week);
      var newer := NearestNewerNode(r, nodes[key].week);
      links := Links(older, newer);
      linked := false;
      if older.Some? {
        linked := RecordTransition(r, older.value, key);
      }
      if newer.Some? {
        var added := RecordTransition(r, key, newer.value);
        linked := linked || added;
      }
    }

    // The loop over the relation hashes.
    method LinkRelations(key: RowKey, rels: seq<RelationKey>) returns (linked: bool, ghost picks: seq<Links>)
      requires NoDuplicates(rels) && forall r :: r in rels ==> Member(State(), r, key)
      requires key in nodes && forall e :: e in transitions ==> e.from != key && e.to != key
      modifies `transitions, `proofs
      ensures Linked(old(State()), State(), key, rels, picks)
      ensures linked <==> AnyLink(picks)
    {
      linked, picks := false, [];
      var i := 0;
      while i < |rels|
        invariant 0 <= i <= |rels|
        invariant Linked(old(State()), State(), key, rels[..i], picks)
        invariant nodes == old(nodes) && relations == old(relations)
        invariant forall e :: e in transitions && (e.from == key || e.to == key) ==> e.relation in rels[..i]
        invariant linked <==> AnyLink(picks)
      {
        assert rels[i] !in rels[..i];
        assert rels[..i + 1] == rels[..i] + [rels[i]];
        ghost var before := State();
        assert rels[i] in rels && Member(old(State()), rels[i], key);
        var added, links := LinkOneRelation(rels[i], key);
        LinkedExtends(old(State()), before, key, rels[..i], picks, rels[i], links);
        OneMorePick(picks, links);
        linked := linked || added;
        picks := picks + [links];
        i := i + 1;
      }
      assert rels[..|rels|] == rels;
    }

    // The transaction of record_lumegraph_observation for a message that is not in the graph yet.
    method Link(key: RowKey, node: Node, rels: seq<RelationKey>) returns (linked: bool, ghost picks: seq<Links>)
      requires Grounded(State()) && Ordered(State()) && key !in nodes && NoDuplicates(rels)
      modifies `nodes, `relations, `transitions, `proofs
      ensures ValidPicks(old(State()), key, node, rels, picks)
      ensures State() == Observe(old(State()), key, node, rels, picks)
      ensures linked <==> HasNeighbour(old(State()), rels, node.week)
    {
      nodes := nodes[key := node];
      relations := relations + set r | r in rels :: (key, r);
      ghost var g1 := State();
      linked, picks := LinkRelations(key, rels);
      PicksOf(old(State()), g1, State(), key, node, rels, picks);
    }
  }

  lemma PicksOf(g: Graph, g1: Graph, g': Graph, key: RowKey, node: Node, rels: seq<RelationKey>, picks: seq<Links>)
    requires Grounded(g) && key !in g.nodes && g1 == Insert(g, key, node, rels) && Linked(g1, g', key, rels, picks)
    ensures ValidPicks(g, key, node, rels, picks) && g' == Observe(g, key, node, rels, picks)
    ensures HasNeighbour(g, rels, node.week)
      <==> AnyLink(picks)
  {
    assert ValidPicks(g, key, node, rels, picks);
    NeighboursAreLinks(g, key, node, rels, picks);
  }

  lemma NeighboursAreLinks(g: Graph, key: RowKey, node: Node, rels: seq<RelationKey>, picks: seq<Links>)
    requires Grounded(g) && key !in g.nodes && ValidPicks(g, key, node, rels, picks)
    ensures HasNeighbour(g, rels, node.week)
      <==> AnyLink(picks)
  {
    var g1 := Insert(g, key, node, rels);
    if HasNeighbour(g, rels, node.week) {
      var r, k :| r in rels && Member(g, r, k) && g.nodes[k].week != node.week;
      var j :| 0 <= j < |rels| && rels[j] == r;
      assert Member(g1, r, k) && Nearest(g1, r, node.week, picks[j]);
    }
    if j :| 0 <= j < |picks| && HasLink(picks[j]) {
      assert Nearest(g1, rels[j], node.week, picks[j]);
      var k := if picks[j].older.Some? then picks[j].older.value else picks[j].newer.value;
      NewMember(g, key, node, rels, rels[j], k);
      assert rels[j] in rels && Member(g, rels[j], k);
    }
  }
}
