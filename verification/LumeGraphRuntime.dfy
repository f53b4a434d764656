/** lumegraph_runtime.py: one batch of classified messages is turned into graph nodes and closure proofs. */
module LumeGraphRuntime {
  import opened Mail
  import opened Lifecycle
  import opened Obsolescence
  import opened LumeGraph
  import opened LumeGraphStore
  import opened ShadowBatch
  import opened ShadowProofs
  import opened ShadowTotals

  // ---- the loop ----

  // Where an interrupted run left off: done messages have their nodes, and the message at which it ended is
  // the last of them or the one after.
  ghost predicate StoppedAt(results: seq<ShadowCandidate>, backend: bool, done: nat, at: nat)
    requires CandidatesValid(results)
  {
    at < |results| && Stops(results[at], backend) && done == if StopsEarly(results[at], backend) then at else at + 1
  }

  // The batch has been run up to message i, and done of its messages have their nodes; if stopped, message i ended it.
  ghost predicate Standing(
    g0: Graph, g: Graph, s: RunSummary, results: seq<ShadowCandidate>, i: nat, done: nat, stopped: bool, backend: bool,
    profile: string)
    requires CandidatesValid(results)
  {
    && done <= |results| && i <= |results| && NothingStops(results[..i], backend)
    && Grown(g0, g, LifecycleKeys(results[..done], profile))
    && if stopped then StoppedAt(results, backend, done, i)
       else
         && done == i && Progress(g0, g, s, results[..i], backend, profile)
         && Totalled(LevelsOf(g0), g, s, results[..i], backend, profile)
  }

  // Only proofs have changed.
  predicate OnlyProofs(g: Graph, g': Graph) {
    g'.nodes == g.nodes && g'.relations == g.relations && g'.transitions == g.transitions
  }

  // What recording the observation of a message has done to the graph.
  ghost predicate ObservationDone(
    g: Graph, g': Graph, c: ShadowCandidate, profile: string, inserted: bool, linked: bool)
    requires c.Valid()
  {
    && (inserted <==> Own(c, profile) !in g.nodes) && Grown(g, g', {Own(c, profile)})
    && |g'.nodes| == |g.nodes| + (if inserted then 1 else 0)
    && LevelsOf(g') == ObservedWith(LevelsOf(g), c, profile)
    && (linked <==> IsLinked(LevelsOf(g), c, profile))
  }

  // What the round of one message has done to the graph and to the counters, its consensus proof aside.
  ghost predicate ResultDone(
    g: Graph, g': Graph, s: RunSummary, s': RunSummary, c: ShadowCandidate, backend: bool, profile: string,
    stopped: bool)
    requires c.Valid()
  {
    && (stopped <==> Stops(c, backend)) && s'.nodes == s.nodes + |g'.nodes| - |g.nodes|
    && (if c.kind == NoKind then SameCounters(s', s) else SameCounters(s', CountExtraction(s, c, backend)))
    && Grown(g, g', OwnKeys(c, profile))
    && (!stopped ==> TotalsStep(g, g', s, s', c, backend, profile))
  }

  lemma RoundEnds(
    g0: Graph, g: Graph, middle: Graph, g': Graph, s: RunSummary, s': RunSummary, results: seq<ShadowCandidate>,
    i: nat, backend: bool, profile: string, stopped: bool)
    requires CandidatesValid(results) && i < |results|
    requires Standing(g0, g, s, results, i, i, false, backend, profile)
    requires OnlyProofs(g, middle) && !StopsEarly(results[i], backend)
    requires ResultDone(middle, g', s, s', results[i], backend, profile, stopped)
    ensures Standing(g0, g', s', results, if stopped then i else i + 1, i + 1, stopped, backend, profile)
  {
    ProgressGrows(g0, g, g', s, s', results, i, backend, profile);
    if !stopped {
      TotalsGrow(LevelsOf(g0), g, g', s, s', results, i, backend, profile);
      OneMoreDoesNotStop(results, i, backend);
    }
  }

  lemma RoundEndsEarly(
    g0: Graph, g: Graph, g': Graph, s: RunSummary, results: seq<ShadowCandidate>, i: nat, backend: bool,
    profile: string)
    requires CandidatesValid(results) && i < |results|
    requires Standing(g0, g, s, results, i, i, false, backend, profile)
    requires OnlyProofs(g, g') && StopsEarly(results[i], backend)
    ensures Standing(g0, g', s, results, i, i, true, backend, profile)
  {
  }

  method ObserveCandidate(store: LumeGraphStore, c: ShadowCandidate, o: Observation, profile: string)
    returns (inserted: bool, linked: bool, ghost picks: seq<Links>)
    requires store.Valid() && ValidProfile(profile) && c.Valid() && c.kind != NoKind && o.Valid()
    modifies store
    ensures store.Valid() && store.history == old(store.history) + [ObservationEvent(c, o, picks, profile)]
    ensures ObservationDone(old(store.State()), store.State(), c, profile, inserted, linked)
  {
    var key := RowKey(c.key, profile);
    var materials := RelationMaterials(c.kind, c.tokens);
    assert forall i :: 0 <= i < |materials| ==> materials[i] in materials && materials[i][0] == 'r';
    NeighboursByLevel(store.State(), c, profile);
    var recorded := store.RecordObservation(key, c.received, o, c.facts.hardProtected, materials);
    inserted, linked := recorded.value.0, recorded.value.1;
    picks := store.history[|old(store.history)|].picks;
    assert |store.nodes| == |store.nodes.Keys| && |old(store.nodes)| == |old(store.nodes).Keys|;
    ObservedLevels(old(store.history), store.history, c, profile);
  }

  // The one-time-code and date proofs of an observed message.
  method RecordClosures(store: LumeGraphStore, key: RowKey, f: Facts, o: Observation, minimumAge: nat)
    returns (observations: nat, stopped: bool)
    requires store.Valid() && o.Valid()
    modifies store`proofs, store`history
    ensures store.Valid() && store.history == old(store.history) + ClosureEvents(key, f, o, minimumAge)
    ensures stopped <==> DateProof(f, o).Rejected?
    ensures !stopped ==> observations == if o.kind in {OneTimeCodeKind, Promotion} then 1 else 0
  {
    observations := 0;
    var otp := OtpProof(f, o, minimumAge);
    if otp.value.Some? {
      store.RecordProof(key, otp.value.value);
      observations := observations + 1;
    }
    var dated := DateProof(f, o);
    stopped := dated.Rejected?;
    if dated.Ok? && dated.value.Some? {
      store.RecordProof(key, dated.value.value);
      observations := observations + 1;
    }
  }

  // The lifecycle half of one round.
  ghost predicate CandidateDone(
    g: Graph, g': Graph, c: ShadowCandidate, backend: bool, profile: string, inserted: bool, linked: bool,
    observations: nat, stopped: bool)
    requires c.Valid()
  {
    && ObservationDone(g, g', c, profile, inserted, linked)
    && (stopped <==> DateRaises(c, backend)) && (!stopped ==> observations == ClosureCount(c, backend))
  }

  method RecordCandidate(store: LumeGraphStore, c: ShadowCandidate, backend: bool, profile: string, minimumAge: nat)
    returns (inserted: bool, linked: bool, observations: nat, stopped: bool, ghost events: seq<Event>)
    requires store.Valid() && ValidProfile(profile) && c.Valid() && c.kind != NoKind && !ModelEscapes(c, backend)
    modifies store
    ensures store.Valid() && store.history == old(store.history) + events
    ensures IsLifecycle(events, c, backend, profile, minimumAge)
    ensures CandidateDone(
      old(store.State()), store.State(), c, backend, profile, inserted, linked, observations, stopped)
  {
    var o := Extract(c, backend);
    ghost var g := store.State();
    ghost var picks;
    inserted, linked, picks := ObserveCandidate(store, c, o, profile);
    ghost var observed := store.State();
    observations, stopped := RecordClosures(store, RowKey(c.key, profile), c.facts, o, minimumAge);
    events := LifecycleEvents(c, o, picks, profile, minimumAge);
    Appended(old(store.history), [ObservationEvent(c, o, picks, profile)],
             ClosureEvents(Own(c, profile), c.facts, o, minimumAge));
    LifecycleOf(c, o, picks, backend, profile, minimumAge);
    CandidateEnds(g, observed, store.State(), c, o, backend, profile, inserted, linked, observations, stopped);
  }

  lemma CandidateEnds(
    g: Graph, observed: Graph, g': Graph, c: ShadowCandidate, o: Observation, backend: bool, profile: string,
    inserted: bool, linked: bool, observations: nat, stopped: bool)
    requires c.Valid() && c.kind != NoKind && o.Valid() && Observes(c, backend, o)
    requires ObservationDone(g, observed, c, profile, inserted, linked) && OnlyProofs(observed, g')
    requires stopped <==> DateRaises(c, backend)
    requires !stopped ==> observations == if o.kind in {OneTimeCodeKind, Promotion} then 1 else 0
    ensures CandidateDone(g, g', c, backend, profile, inserted, linked, observations, stopped)
  {
  }

  lemma Appended<T>(a: seq<T>, b: seq<T>, c: seq<T>)
    ensures a + b + c == a + (b + c)
  {
  }

  // The part of the round that concerns the observation.
  ghost predicate LifecycleDone(
    g: Graph, g': Graph, s: RunSummary, s': RunSummary, c: ShadowCandidate, backend: bool, profile: string,
    stopped: bool)
    requires c.Valid()
  {
    exists inserted, linked, observations: nat ::
      && CandidateDone(g, g', c, backend, profile, inserted, linked, observations, stopped)
      && s' == CountCandidate(CountExtraction(s, c, backend), inserted, linked, observations)
  }

  function CountCandidate(s: RunSummary, inserted: bool, linked: bool, observations: nat): RunSummary {
    s.(nodes := s.nodes + (if inserted then 1 else 0), transitions := s.transitions + (if linked then 1 else 0),
       proofs := s.proofs + observations)
  }

  method RecordLifecycle(
    store: LumeGraphStore, c: ShadowCandidate, s: RunSummary, backend: bool, profile: string, minimumAge: nat)
    returns (s': RunSummary, stopped: bool, ghost events: seq<Event>)
    requires store.Valid() && ValidProfile(profile) && c.Valid() && c.kind != NoKind && !ModelEscapes(c, backend)
    modifies store
    ensures store.Valid() && store.history == old(store.history) + events
    ensures IsLifecycle(events, c, backend, profile, minimumAge)
    ensures LifecycleDone(old(store.State()), store.State(), s, s', c, backend, profile, stopped)
  {
    s' := CountExtraction(s, c, backend);
    var inserted, linked, observations;
    inserted, linked, observations, stopped, events := RecordCandidate(store, c, backend, profile, minimumAge);
    s' := CountCandidate(s', inserted, linked, observations);
  }

  method RecordResult(
    store: LumeGraphStore, c: ShadowCandidate, s: RunSummary, backend: bool, profile: string, minimumAge: nat)
    returns (s': RunSummary, stopped: bool, ghost events: seq<Event>)
    requires store.Valid() && ValidProfile(profile) && c.Valid() && !StopsEarly(c, backend)
    modifies store
    ensures store.Valid() && store.history == old(store.history) + events
    ensures IsLifecycle(events, c, backend, profile, minimumAge)
    ensures ResultDone(old(store.State()), store.State(), s, s', c, backend, profile, stopped)
  {
    s', stopped, events := s, false, [];
    if c.facts.category in {Advertising, Social, Spam} {
      s' := s'.(proofs := s'.proofs + 1);
    }
    if c.kind != NoKind {
      ghost var counted := s';
      s', stopped, events := RecordLifecycle(store, c, s', backend, profile, minimumAge);
      LifecycleIsResult(old(store.State()), store.State(), s, counted, s', c, backend, profile, stopped);
    }
  }

  lemma LifecycleIsResult(
    g: Graph, g': Graph, s: RunSummary, counted: RunSummary, s': RunSummary, c: ShadowCandidate, backend: bool,
    profile: string, stopped: bool)
    requires c.Valid() && c.kind != NoKind && !StopsEarly(c, backend)
    requires counted == s.(proofs := s.proofs + if c.facts.category in {Advertising, Social, Spam} then 1 else 0)
    requires LifecycleDone(g, g', counted, s', c, backend, profile, stopped)
    ensures ResultDone(g, g', s, s', c, backend, profile, stopped)
  {
    var inserted, linked, observations: nat :|
      && CandidateDone(g, g', c, backend, profile, inserted, linked, observations, stopped)
      && s' == CountCandidate(CountExtraction(counted, c, backend), inserted, linked, observations);
    assert Grown(g, g', OwnKeys(c, profile)) by {
      assert OwnKeys(c, profile) == {Own(c, profile)};
    }
    CountsAreResult(s, counted, s', c, backend, inserted, linked, observations);
    if !stopped {
      TotalsOfRound(g, g', s, counted, s', c, backend, profile, inserted, linked, observations);
    }
  }

  lemma CountsAreResult(
    s: RunSummary, counted: RunSummary, s': RunSummary, c: ShadowCandidate, backend: bool, inserted: bool, linked: bool,
    observations: nat)
    requires SameCounters(counted, s) && counted.nodes == s.nodes
    requires s' == CountCandidate(CountExtraction(counted, c, backend), inserted, linked, observations)
    ensures SameCounters(s', CountExtraction(s, c, backend)) && s'.nodes == s.nodes + if inserted then 1 else 0
  {
  }

  lemma TotalsOfRound(
    g: Graph, g': Graph, s: RunSummary, counted: RunSummary, s': RunSummary, c: ShadowCandidate, backend: bool,
    profile: string, inserted: bool, linked: bool, observations: nat)
    requires c.Valid() && counted.transitions == s.transitions
    requires counted.proofs == s.proofs + if c.facts.category in {Advertising, Social, Spam} then 1 else 0
    requires CandidateDone(g, g', c, backend, profile, inserted, linked, observations, false)
    requires s' == CountCandidate(CountExtraction(counted, c, backend), inserted, linked, observations)
    ensures TotalsStep(g, g', s, s', c, backend, profile)
  {
  }

  // The consensus half of one round, and whether the loop ends before the message's node is stored.
  method RecordConsensus(store: LumeGraphStore, c: ShadowCandidate, backend: bool, profile: string)
    returns (early: bool)
    requires store.Valid() && c.Valid()
    modifies store`proofs, store`history
    ensures store.Valid() && store.history == old(store.history) + ConsensusEvents(c, profile)
    ensures early <==> StopsEarly(c, backend)
  {
    if c.snapshot.Rejected? {
      return true;
    }
    var consensus := ConsensusProof(c);
    if consensus.Some? {
      store.RecordProof(RowKey(c.key, profile), consensus.value);
    }
    early := c.kind != NoKind && backend && c.reply.Escaped?;
  }

  // One round of the loop.
  method Round(store: LumeGraphStore, results: seq<ShadowCandidate>, i: nat, s: RunSummary, backend: bool,
               profile: string, minimumAge: nat, ghost g0: Graph)
    returns (s': RunSummary, stopped: bool, ghost done: nat, ghost events: seq<Event>)
    requires store.Valid() && ValidProfile(profile) && CandidatesValid(results) && i < |results|
    requires Standing(g0, store.State(), s, results, i, i, false, backend, profile)
    modifies store
    ensures store.Valid() && store.history == old(store.history) + events
    ensures IsRound(events, results[i], backend, profile, minimumAge)
    ensures Standing(g0, store.State(), s', results, if stopped then i else i + 1, done, stopped, backend, profile)
  {
    s' := s;
    stopped := RecordConsensus(store, results[i], backend, profile);
    events, done := ConsensusEvents(results[i], profile), i;
    ghost var middle := store.State();
    if stopped {
      RoundEndsEarly(g0, old(store.State()), middle, s, results, i, backend, profile);
    } else {
      ghost var rest;
      s', stopped, rest := RecordResult(store, results[i], s, backend, profile, minimumAge);
      Appended(old(store.history), events, rest);
      events, done := events + rest, i + 1;
      RoundEnds(g0, old(store.State()), middle, store.State(), s, s', results, i, backend, profile, stopped);
    }
  }

  // The loop itself.
  method RunRounds(
    store: LumeGraphStore, results: seq<ShadowCandidate>, backend: bool, profile: string, minimumAge: nat)
    returns (s: RunSummary, stopped: bool, ghost i: nat, ghost done: nat, ghost rounds: seq<seq<Event>>)
    requires store.Valid() && ValidProfile(profile) && CandidatesValid(results)
    modifies store
    ensures store.Valid() && (stopped || i == |results|)
    ensures Standing(old(store.State()), store.State(), s, results, i, done, stopped, backend, profile)
    ensures |rounds| == (if stopped then i + 1 else i) && AreRounds(rounds, results, backend, profile, minimumAge)
    ensures store.history == old(store.history) + Flat(rounds)
  {
    s, stopped, i, done, rounds := RunSummary(0, 0, 0, 0, 0, 0), false, 0, 0, [];
    ghost var g0, before := store.State(), store.history;
    var n := 0;
    while n < |results| && !stopped
      invariant 0 <= n <= |results| && i == (if stopped then n - 1 else n) && store.Valid()
      invariant Standing(g0, store.State(), s, results, i, done, stopped, backend, profile)
      invariant |rounds| == n && AreRounds(rounds, results, backend, profile, minimumAge)
      invariant store.history == before + Flat(rounds)
    {
      ghost var events;
      s, stopped, done, events := Round(store, results, n, s, backend, profile, minimumAge, g0);
      FlatMore(before, rounds, events);
      OneMoreRound(rounds, events, results, backend, profile, minimumAge);
      rounds, n := rounds + [events], n + 1;
      i := if stopped then n - 1 else n;
    }
  }

  // How the batch ends after the rounds of its first n messages: done of them have their nodes, and an exception has
  // left the loop at the last of the n exactly when some message of the batch stops it.
  ghost predicate BatchDone(
    g0: Graph, g: Graph, r: Result<RunSummary>, results: seq<ShadowCandidate>, n: nat, done: nat, backend: bool,
    profile: string)
    requires CandidatesValid(results)
  {
    && n <= |results| && done <= |results| && (r.Ok? <==> NothingStops(results, backend))
    && Grown(g0, g, LifecycleKeys(results[..done], profile))
    && match r
       case Ok(s) =>
         && n == done == |results| && Progress(g0, g, s, results, backend, profile)
         && Totalled(LevelsOf(g0), g, s, results, backend, profile)
       case Rejected => n > 0 && StoppedAt(results, backend, done, n - 1) && NothingStops(results[..n - 1], backend)
  }

  lemma BatchEnds(
    g0: Graph, g: Graph, s: RunSummary, results: seq<ShadowCandidate>, i: nat, done: nat, stopped: bool, backend: bool,
    profile: string)
    requires CandidatesValid(results) && Standing(g0, g, s, results, i, done, stopped, backend, profile)
    requires stopped || i == |results|
    ensures BatchDone(g0, g, if stopped then Rejected else Ok(s), results, if stopped then i + 1 else i, done, backend,
                      profile)
  {
    assert results[..|results|] == results;
    if stopped {
      NothingStopsMeans(results, backend);
    }
  }

  // run_lumegraph_shadow.  An exception leaves the loop; every store call before it has been committed.
  method RunShadow(
    store: LumeGraphStore, results: seq<ShadowCandidate>, backend: bool, profile: string, minimumAge: nat)
    returns (r: Result<RunSummary>, ghost done: nat, ghost rounds: seq<seq<Event>>)
    requires store.Valid() && ValidProfile(profile) && CandidatesValid(results)
    modifies store
    ensures store.Valid()
    ensures AreRounds(rounds, results, backend, profile, minimumAge)
    ensures store.history == old(store.history) + Flat(rounds)
    ensures BatchProves(old(store.State()), store.State(), results, |rounds|, backend, profile, minimumAge)
    ensures BatchDone(old(store.State()), store.State(), r, results, |rounds|, done, backend, profile)
  {
    ghost var i;
    var s, stopped;
    s, stopped, i, done, rounds := RunRounds(store, results, backend, profile, minimumAge);
    r := if stopped then Rejected else Ok(s);
    RoundsVerify(old(store.history), rounds, store.history, results, backend, profile, minimumAge);
    BatchEnds(old(store.State()), store.State(), s, results, i, done, stopped, backend, profile);
  }

  // cli._build_lumegraph_shadow: any exception becomes a summary that reports no nodes.
  method BuildShadow(
    store: LumeGraphStore, results: seq<ShadowCandidate>, backend: bool, profile: string, minimumAge: nat)
    returns (available: bool, reportedNodes: nat)
    requires store.Valid() && ValidProfile(profile) && CandidatesValid(results)
    modifies store
    ensures store.Valid()
    ensures available <==> NothingStops(results, backend)
    ensures available ==> |store.nodes| == |old(store.nodes)| + reportedNodes
    ensures available ==> Grown(old(store.State()), store.State(), LifecycleKeys(results, profile))
    ensures !available ==> reportedNodes == 0
    ensures !available ==> exists at: nat, n: nat :: (
      && StoppedAt(results, backend, n, at) && NothingStops(results[..at], backend)
      && Grown(old(store.State()), store.State(), LifecycleKeys(results[..n], profile)))
  {
    ghost var done, rounds;
    var r;
    r, done, rounds := RunShadow(store, results, backend, profile, minimumAge);
    assert results[..|results|] == results;
    match r {
      case Ok(s) => available, reportedNodes := true, s.nodes;
      case Rejected => available, reportedNodes := false, 0;
    }
  }
}
