/** lumegraph_runtime.py: the nodes, model calls, transitions and proofs that run_lumegraph_shadow counts. */
module ShadowTotals {
  import opened Mail
  import opened Lifecycle
  import opened LumeGraph
  import opened LumeGraphStore
  import opened ShadowBatch

  datatype RunSummary = RunSummary(
    nodes: nat, transitions: nat, inferences: nat, fallbacks: nat, failures: nat, proofs: nat)

  // ---- the nodes and the counters ----

  function LifecycleKeys(results: seq<ShadowCandidate>, profile: string): (keys: set<RowKey>) {
    set i | 0 <= i < |results| && results[i].kind != NoKind :: RowKey(results[i].key, profile)
  }

  function LifecycleCount(results: seq<ShadowCandidate>): (n: nat)
    ensures n <= |results|
  {
    if results == [] then 0
    else LifecycleCount(results[..|results| - 1]) + if results[|results| - 1].kind != NoKind then 1 else 0
  }

  function FailureCount(results: seq<ShadowCandidate>): (n: nat)
    ensures n <= LifecycleCount(results)
  {
    if results == [] then 0
    else
      var last := results[|results| - 1];
      FailureCount(results[..|results| - 1]) + if last.kind != NoKind && !last.reply.Answered? then 1 else 0
  }

  // The model counters after a prefix of the batch.
  ghost predicate Counted(s: RunSummary, results: seq<ShadowCandidate>, backend: bool) {
    && s.inferences == (if backend then LifecycleCount(results) else 0)
    && s.failures == (if backend then FailureCount(results) else 0)
    && s.fallbacks == (if backend then FailureCount(results) else LifecycleCount(results))
  }

  function CountExtraction(s: RunSummary, c: ShadowCandidate, backend: bool): RunSummary {
    if !backend then s.(fallbacks := s.fallbacks + 1)
    else if c.reply.Answered? then s.(inferences := s.inferences + 1)
    else s.(inferences := s.inferences + 1, failures := s.failures + 1, fallbacks := s.fallbacks + 1)
  }

  lemma CountsGrow(s: RunSummary, results: seq<ShadowCandidate>, i: nat, backend: bool)
    requires i < |results| && Counted(s, results[..i], backend)
    ensures results[i].kind == NoKind ==> Counted(s, results[..i + 1], backend)
    ensures results[i].kind != NoKind ==> Counted(CountExtraction(s, results[i], backend), results[..i + 1], backend)
  {
    assert results[..i + 1][..i] == results[..i];
  }

  // g is g0 with the messages of keys observed; when they all were in g0 already, nothing but proofs changed.
  ghost predicate Grown(g0: Graph, g: Graph, keys: set<RowKey>) {
    && g.nodes.Keys == g0.nodes.Keys + keys
    && (keys <= g0.nodes.Keys ==>
          g.nodes == g0.nodes && g.relations == g0.relations && g.transitions == g0.transitions)
  }

  lemma GrownTwice(g0: Graph, g1: Graph, g2: Graph, a: set<RowKey>, b: set<RowKey>)
    requires Grown(g0, g1, a) && Grown(g1, g2, b)
    ensures Grown(g0, g2, a + b)
  {
    if a + b <= g0.nodes.Keys {
      assert a <= g0.nodes.Keys && b <= g1.nodes.Keys;
    }
  }

  function OwnKeys(c: ShadowCandidate, profile: string): set<RowKey> {
    if c.kind != NoKind then {RowKey(c.key, profile)} else {}
  }

  lemma KeysGrow(results: seq<ShadowCandidate>, i: nat, profile: string)
    requires i < |results|
    ensures LifecycleKeys(results[..i + 1], profile) == LifecycleKeys(results[..i], profile)
      + OwnKeys(results[i], profile)
  {
    var more, fewer := results[..i + 1], results[..i];
    forall k | k in LifecycleKeys(fewer, profile) ensures k in LifecycleKeys(more, profile) {
      var j :| 0 <= j < i && fewer[j].kind != NoKind && k == RowKey(fewer[j].key, profile);
      assert more[j] == fewer[j];
    }
    forall k | k in LifecycleKeys(more, profile)
      ensures k in LifecycleKeys(fewer, profile) || (results[i].kind != NoKind && k == RowKey(results[i].key, profile))
    {
      var j :| 0 <= j < i + 1 && more[j].kind != NoKind && k == RowKey(more[j].key, profile);
      assert j == i || fewer[j] == more[j];
    }
    if results[i].kind != NoKind {
      assert more[i] == results[i];
    }
  }

  predicate SameCounters(s: RunSummary, t: RunSummary) {
    s.inferences == t.inferences && s.failures == t.failures && s.fallbacks == t.fallbacks
  }

  // What a prefix of the batch has done to the graph g0 and to the counters.
  ghost predicate Progress(g0: Graph, g: Graph, s: RunSummary, results: seq<ShadowCandidate>, backend: bool,
                           profile: string) {
    && Grown(g0, g, LifecycleKeys(results, profile))
    && |g.nodes| == |g0.nodes| + s.nodes
    && Counted(s, results, backend)
  }

  // One more result, whose round took g to g' and s to s'.
  lemma ProgressGrows(g0: Graph, g: Graph, g': Graph, s: RunSummary, s': RunSummary,
                      results: seq<ShadowCandidate>, i: nat, backend: bool, profile: string)
    requires i < |results| && Progress(g0, g, s, results[..i], backend, profile)
    requires Grown(g, g', OwnKeys(results[i], profile)) && s'.nodes == s.nodes + |g'.nodes| - |g.nodes|
    requires results[i].kind == NoKind ==> SameCounters(s', s)
    requires results[i].kind != NoKind ==> SameCounters(s', CountExtraction(s, results[i], backend))
    ensures Progress(g0, g', s', results[..i + 1], backend, profile)
  {
    KeysGrow(results, i, profile);
    CountsGrow(s, results, i, backend);
    GrownTwice(g0, g, g', LifecycleKeys(results[..i], profile), OwnKeys(results[i], profile));
  }

  // ---- the totals ----

  // What decides whether an observation is linked: the weeks of the messages, and their relations.
  datatype Levels = Levels(weeks: map<RowKey, int>, relations: set<(RowKey, RelationKey)>)

  function LevelsOf(g: Graph): Levels { Levels(map k | k in g.nodes :: g.nodes[k].week, g.relations) }

  function ObservedWith(l: Levels, c: ShadowCandidate, profile: string): Levels
    requires c.Valid()
  {
    var key := RowKey(c.key, profile);
    if c.kind == NoKind || key in l.weeks then l
    else
      Levels(l.weeks[key := c.received / SECONDS_PER_WEEK],
             l.relations + set r | r in RelationsOf(c, profile) :: (key, r))
  }

  // A new message one of whose relations is carried by a message of another week.
  ghost predicate IsLinked(l: Levels, c: ShadowCandidate, profile: string)
    requires c.Valid()
  {
    && c.kind != NoKind && RowKey(c.key, profile) !in l.weeks
    && exists r, k :: r in RelationsOf(c, profile) && (k, r) in l.relations && k in l.weeks
                      && l.weeks[k] != c.received / SECONDS_PER_WEEK
  }

  function LevelsAfter(l: Levels, results: seq<ShadowCandidate>, profile: string): Levels
    requires CandidatesValid(results)
  {
    if results == [] then l
    else ObservedWith(LevelsAfter(l, results[..|results| - 1], profile), results[|results| - 1], profile)
  }

  ghost function LinkCount(l: Levels, results: seq<ShadowCandidate>, profile: string): (n: nat)
    requires CandidatesValid(results)
  {
    if results == [] then 0
    else
      var before, last := results[..|results| - 1], results[|results| - 1];
      LinkCount(l, before, profile) + if IsLinked(LevelsAfter(l, before, profile), last, profile) then 1 else 0
  }

  // The closure proofs of an observation: one for a one-time code, one for a promotion.
  ghost function ClosureCount(c: ShadowCandidate, backend: bool): (n: nat) {
    var kind := if c.kind != NoKind && UsesModel(c, backend) then c.reply.o.kind else c.kind;
    if c.kind != NoKind && kind in {OneTimeCodeKind, Promotion} then 1 else 0
  }

  // ... and the consensus proof.
  ghost function ProofCount(results: seq<ShadowCandidate>, backend: bool): (n: nat) {
    if results == [] then 0
    else
      var last := results[|results| - 1];
      ProofCount(results[..|results| - 1], backend)
      + (if last.facts.category in {Advertising, Social, Spam} then 1 else 0) + ClosureCount(last, backend)
  }

  ghost predicate Totalled(l: Levels, g: Graph, s: RunSummary, results: seq<ShadowCandidate>, backend: bool,
                           profile: string)
    requires CandidatesValid(results)
  {
    && LevelsOf(g) == LevelsAfter(l, results, profile) && s.transitions == LinkCount(l, results, profile)
    && s.proofs == ProofCount(results, backend)
  }

  // One round that did not stop.
  ghost predicate TotalsStep(
    g: Graph, g': Graph, s: RunSummary, s': RunSummary, c: ShadowCandidate, backend: bool, profile: string)
    requires c.Valid()
  {
    && LevelsOf(g') == ObservedWith(LevelsOf(g), c, profile)
    && s'.transitions == s.transitions + (if IsLinked(LevelsOf(g), c, profile) then 1 else 0)
    && s'.proofs == s.proofs + (if c.facts.category in {Advertising, Social, Spam} then 1 else 0)
      + ClosureCount(c, backend)
  }

  lemma TotalsGrow(l: Levels, g: Graph, g': Graph, s: RunSummary, s': RunSummary, results: seq<ShadowCandidate>, i: nat,
                   backend: bool, profile: string)
    requires CandidatesValid(results) && i < |results| && Totalled(l, g, s, results[..i], backend, profile)
    requires TotalsStep(g, g', s, s', results[i], backend, profile)
    ensures Totalled(l, g', s', results[..i + 1], backend, profile)
  {
    assert results[..i + 1][..i] == results[..i];
  }

  // What one observation does to the weeks and relations.
  lemma ObservedLevels(before: seq<Event>, after: seq<Event>, c: ShadowCandidate, profile: string)
    requires History(before) && History(after) && |after| == |before| + 1 && after[..|before|] == before
    requires c.Valid() && c.kind != NoKind && after[|before|].Observed? && after[|before|].key == RowKey(c.key, profile)
    requires after[|before|].node.week == c.received / SECONDS_PER_WEEK
    requires after[|before|].rels == RelationsOf(c, profile)
    ensures LevelsOf(Run(after)) == ObservedWith(LevelsOf(Run(before)), c, profile)
  {
    LastStep(after);
    var g, e := Run(before), after[|before|];
    if e.key !in g.nodes {
      assert Run(after).nodes == g.nodes[e.key := e.node];
      assert Run(after).relations == g.relations + set r | r in e.rels :: (e.key, r);
      assert LevelsOf(Run(after)).weeks == LevelsOf(g).weeks[e.key := e.node.week];
    }
  }

  lemma NeighboursByLevel(g: Graph, c: ShadowCandidate, profile: string)
    requires c.Valid()
    ensures c.kind != NoKind && RowKey(c.key, profile) !in g.nodes ==>
      (HasNeighbour(g, RelationsOf(c, profile), c.received / SECONDS_PER_WEEK) <==> IsLinked(LevelsOf(g), c, profile))
  {
    var l := LevelsOf(g);
    assert forall k :: k in g.nodes ==> l.weeks[k] == g.nodes[k].week;
    assert forall r, k :: Member(g, r, k) <==> (k, r) in l.relations && k in l.weeks;
  }
}
