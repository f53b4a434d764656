/** lumegraph_runtime.py: the observations and proofs a batch calls for, and which messages they prove. */
module ShadowProofs {
  import opened Mail
  import opened Lifecycle
  import opened Obsolescence
  import opened LumeGraph
  import opened ArrivalOrder
  import opened LumeGraphStore
  import opened ShadowBatch

  // ---- what a message calls for ----

  function ConsensusEvents(c: ShadowCandidate, profile: string): (events: seq<Event>) {
    if c.snapshot.Ok? && ConsensusProof(c).Some? then [Proved(Own(c, profile), ConsensusProof(c).value)] else []
  }

  function ClosureEvents(key: RowKey, f: Facts, o: Observation, minimumAge: nat): (events: seq<Event>)
    requires o.Valid()
  {
    var otp, dated := OtpProof(f, o, minimumAge), DateProof(f, o);
    (if otp.value.Some? then [Proved(key, otp.value.value)] else [])
    + (if dated.Ok? && dated.value.Some? then [Proved(key, dated.value.value)] else [])
  }

  // The observation with its week, its evidence and its relations.
  function ObservationEvent(c: ShadowCandidate, o: Observation, picks: seq<Links>, profile: string): (e: Event)
    requires c.Valid() && o.Valid()
  {
    Observed(Own(c, profile), Node(c.received / SECONDS_PER_WEEK, EvidenceOf(o, c.facts.hardProtected)),
             RelationsOf(c, profile), picks)
  }

  // ... and the closure proofs after it.
  function LifecycleEvents(
    c: ShadowCandidate, o: Observation, picks: seq<Links>, profile: string, minimumAge: nat): (events: seq<Event>)
    requires c.Valid() && o.Valid()
  {
    [ObservationEvent(c, o, picks, profile)] + ClosureEvents(Own(c, profile), c.facts, o, minimumAge)
  }

  ghost predicate IsLifecycle(
    events: seq<Event>, c: ShadowCandidate, backend: bool, profile: string, minimumAge: nat)
    requires c.Valid()
  {
    if c.kind == NoKind then events == []
    else
      exists o: Observation, picks ::
        o.Valid() && Observes(c, backend, o) && events == LifecycleEvents(c, o, picks, profile, minimumAge)
  }

  lemma LifecycleOf(
    c: ShadowCandidate, o: Observation, picks: seq<Links>, backend: bool, profile: string, minimumAge: nat)
    requires c.Valid() && c.kind != NoKind && o.Valid() && Observes(c, backend, o)
    ensures IsLifecycle(LifecycleEvents(c, o, picks, profile, minimumAge), c, backend, profile, minimumAge)
  {
  }

  // The round of one message, as far as it gets.
  ghost predicate IsRound(events: seq<Event>, c: ShadowCandidate, backend: bool, profile: string, minimumAge: nat)
    requires c.Valid()
  {
    if StopsEarly(c, backend) then events == ConsensusEvents(c, profile)
    else
      exists rest ::
        events == ConsensusEvents(c, profile) + rest && IsLifecycle(rest, c, backend, profile, minimumAge)
  }

  ghost predicate AreRounds(
    rounds: seq<seq<Event>>, results: seq<ShadowCandidate>, backend: bool, profile: string, minimumAge: nat)
    requires CandidatesValid(results)
  {
    && |rounds| <= |results|
    && forall i :: 0 <= i < |rounds| ==> IsRound(rounds[i], results[i], backend, profile, minimumAge)
  }

  function Flat(rounds: seq<seq<Event>>): (events: seq<Event>) {
    if rounds == [] then [] else Flat(rounds[..|rounds| - 1]) + rounds[|rounds| - 1]
  }

  lemma FlatMore(before: seq<Event>, rounds: seq<seq<Event>>, events: seq<Event>)
    ensures before + Flat(rounds) + events == before + Flat(rounds + [events])
  {
    assert (rounds + [events])[..|rounds|] == rounds;
  }

  // ---- which messages prove themselves ----

  // The model, three corrections and the present behaviour all discard an unprotected message.
  ghost predicate ConsensusHolds(c: ShadowCandidate) {
    && c.snapshot.Ok? && c.facts.category in {Advertising, Social, Spam}
    && !c.facts.hardProtected && !c.keeps && c.modelDiscards
    && (var like, recent := c.snapshot.value.similarities, c.snapshot.value.recent;
        && like.dontKeep.best >= 0.90 && like.dontKeep.examples >= 3
        && like.keep.best <= 0.35 && like.keep.examples == 0
        && recent.score <= 0.20 && recent.evidence >= 3.0 && recent.examples >= 3)
  }

  // A read one-time code past its age, in which nobody sees a record or something personal.
  ghost predicate CodeExpired(c: ShadowCandidate, backend: bool, minimumAge: nat) {
    && !c.facts.hardProtected && c.facts.category == OneTimeCode && c.facts.confidence >= 0.80
    && !c.facts.reading.unread && c.facts.reading.ageDays >= minimumAge
    && (if UsesModel(c, backend)
        then c.reply.o.kind == OneTimeCodeKind && !c.reply.o.utility.evidentiary && !c.reply.o.utility.personal
        else c.kind == OneTimeCodeKind)
  }

  // An advertisement whose date is over, of no use to anybody.
  ghost predicate DateElapsed(c: ShadowCandidate, backend: bool) {
    && !c.facts.hardProtected && c.facts.category == Advertising && c.facts.confidence >= 0.90
    && c.facts.reading.expiry.Some? && c.facts.reading.expiry.value < c.facts.reading.today
    && (if UsesModel(c, backend)
        then c.reply.o.kind == Promotion && c.reply.o.utility == Utility(false, false, false, false)
        else c.kind == Promotion)
  }

  ghost predicate ProvesItself(c: ShadowCandidate, backend: bool, minimumAge: nat) {
    || ConsensusHolds(c)
    || (c.kind != NoKind && !StopsEarly(c, backend)
        && (CodeExpired(c, backend, minimumAge) || DateElapsed(c, backend)))
  }

  lemma ConsensusEventsProve(c: ShadowCandidate, profile: string, k: RowKey)
    ensures ProvedDirectly(ConsensusEvents(c, profile), k) <==> k == Own(c, profile) && ConsensusHolds(c)
  {
    if c.snapshot.Ok? && ConsensusProof(c).Some? {
      assert ConsensusEvents(c, profile)[0] == Proved(Own(c, profile), ConsensusProof(c).value);
    }
  }

  lemma LifecycleEventsProve(
    c: ShadowCandidate, backend: bool, o: Observation, picks: seq<Links>, profile: string, minimumAge: nat, k: RowKey)
    requires c.Valid() && c.kind != NoKind && o.Valid() && Observes(c, backend, o)
    ensures ProvedDirectly(LifecycleEvents(c, o, picks, profile, minimumAge), k)
      <==> k == Own(c, profile) && (CodeExpired(c, backend, minimumAge) || DateElapsed(c, backend))
  {
    var otp, dated := OtpProof(c.facts, o, minimumAge), DateProof(c.facts, o);
    var events := LifecycleEvents(c, o, picks, profile, minimumAge);
    assert otp.value.Some? ==> events[1] == Proved(Own(c, profile), otp.value.value);
    assert dated.Ok? && dated.value.Some? ==>
      events[if otp.value.Some? then 2 else 1] == Proved(Own(c, profile), dated.value.value);
  }

  lemma RoundProves(
    events: seq<Event>, c: ShadowCandidate, backend: bool, profile: string, minimumAge: nat, k: RowKey)
    requires c.Valid() && IsRound(events, c, backend, profile, minimumAge)
    ensures ProvedDirectly(events, k) <==> k == Own(c, profile) && ProvesItself(c, backend, minimumAge)
  {
    ConsensusEventsProve(c, profile, k);
    if !StopsEarly(c, backend) {
      var rest :| events == ConsensusEvents(c, profile) + rest && IsLifecycle(rest, c, backend, profile, minimumAge);
      ProvedInTwoParts(ConsensusEvents(c, profile), rest, k);
      if c.kind != NoKind {
        var o: Observation, picks :|
          o.Valid() && Observes(c, backend, o) && rest == LifecycleEvents(c, o, picks, profile, minimumAge);
        LifecycleEventsProve(c, backend, o, picks, profile, minimumAge, k);
      }
    }
  }

  ghost predicate ProvesItselfIn(
    results: seq<ShadowCandidate>, n: nat, backend: bool, profile: string, minimumAge: nat, k: RowKey)
  {
    exists i :: 0 <= i < |results| && i < n && k == Own(results[i], profile)
             && ProvesItself(results[i], backend, minimumAge)
  }

  lemma OneMoreProvesItself(
    results: seq<ShadowCandidate>, n: nat, backend: bool, profile: string, minimumAge: nat, k: RowKey)
    requires n < |results|
    ensures ProvesItselfIn(results, n + 1, backend, profile, minimumAge, k) <==>
      || ProvesItselfIn(results, n, backend, profile, minimumAge, k)
      || (k == Own(results[n], profile) && ProvesItself(results[n], backend, minimumAge))
  {
  }

  lemma {:induction false} RoundsProve(
    rounds: seq<seq<Event>>, results: seq<ShadowCandidate>, backend: bool, profile: string, minimumAge: nat, k: RowKey)
    requires CandidatesValid(results) && AreRounds(rounds, results, backend, profile, minimumAge)
    ensures ProvedDirectly(Flat(rounds), k) <==> ProvesItselfIn(results, |rounds|, backend, profile, minimumAge, k)
    decreases |rounds|
  {
    if rounds != [] {
      var n := |rounds| - 1;
      FewerRounds(rounds, results, backend, profile, minimumAge);
      RoundsProve(rounds[..n], results, backend, profile, minimumAge, k);
      RoundProves(rounds[n], results[n], backend, profile, minimumAge, k);
      ProvedInTwoParts(Flat(rounds[..n]), rounds[n], k);
      OneMoreProvesItself(results, n, backend, profile, minimumAge, k);
    }
  }

  lemma FewerRounds(
    rounds: seq<seq<Event>>, results: seq<ShadowCandidate>, backend: bool, profile: string, minimumAge: nat)
    requires CandidatesValid(results) && AreRounds(rounds, results, backend, profile, minimumAge) && rounds != []
    ensures AreRounds(rounds[..|rounds| - 1], results, backend, profile, minimumAge)
    ensures IsRound(rounds[|rounds| - 1], results[|rounds| - 1], backend, profile, minimumAge)
  {
  }

  lemma OneMoreRound(
    rounds: seq<seq<Event>>, events: seq<Event>, results: seq<ShadowCandidate>, backend: bool, profile: string,
    minimumAge: nat)
    requires CandidatesValid(results) && AreRounds(rounds, results, backend, profile, minimumAge)
    requires |rounds| < |results| && IsRound(events, results[|rounds|], backend, profile, minimumAge)
    ensures AreRounds(rounds + [events], results, backend, profile, minimumAge)
  {
  }

  // The verified proofs after the rounds: those from before, those of messages that a transition closes by now, and
  // those of messages of the batch that prove themselves.
  ghost predicate BatchProves(
    g0: Graph, g: Graph, results: seq<ShadowCandidate>, n: nat, backend: bool, profile: string, minimumAge: nat)
  {
    forall k :: HoldsVerified(g.proofs, k) <==>
      || HoldsVerified(g0.proofs, k) || VerifiedByEdge(g, k)
      || ProvesItselfIn(results, n, backend, profile, minimumAge, k)
  }

  lemma RoundsVerify(
    before: seq<Event>, rounds: seq<seq<Event>>, after: seq<Event>, results: seq<ShadowCandidate>, backend: bool,
    profile: string, minimumAge: nat)
    requires CandidatesValid(results) && AreRounds(rounds, results, backend, profile, minimumAge)
    requires History(before) && History(after) && after == before + Flat(rounds)
    ensures BatchProves(Run(before), Run(after), results, |rounds|, backend, profile, minimumAge)
  {
    forall k ensures HoldsVerified(Run(after).proofs, k) <==>
      || HoldsVerified(Run(before).proofs, k) || VerifiedByEdge(Run(after), k)
      || ProvesItselfIn(results, |rounds|, backend, profile, minimumAge, k)
    {
      VerifiedAfterMore(before, Flat(rounds), k);
      RoundsProve(rounds, results, backend, profile, minimumAge, k);
    }
  }
}
