/** The duration estimate of duration_estimator.py, over real numbers. */
module DurationEstimator {
  import opened Mail
  import opened Ledger

  datatype Model = Qwen8 | Gemma12 | Gemma26

  function Cold(model: Model): real {
    match model case Qwen8 => 5.4 case Gemma12 => 8.7 case Gemma26 => 9.7
  }

  function RecommendedMemory(model: Model): real {
    match model case Qwen8 => 12.0 case Gemma12 => 16.0 case Gemma26 => 24.0
  }

  datatype Confidence = Low | Medium | High

  datatype Basis = NothingEligible | LocalSessions | ReferenceBenchmark

  datatype Seconds = Seconds(lower: real, central: real, upper: real)
  {
    predicate Ordered() { 0.0 <= lower <= central <= upper }

    predicate AtMost(other: Seconds) { lower <= other.lower && central <= other.central && upper <= other.upper }
  }

  datatype Estimate = Estimate(seconds: Seconds, confidence: Confidence, basis: Basis)

  datatype EstimateSettings = EstimateSettings(
    model: Model, memory: Option<real>, appleSilicon: bool, gmail: bool, trash: bool, governor: bool,
    actionFraction: real, lifecycleFraction: real, threat: bool, mode: SemanticMode, threatFraction: real,
    lumegraph: bool, proof: bool)
  {
    predicate Valid() {
      0.0 <= actionFraction <= 1.0 && 0.0 <= lifecycleFraction <= 1.0 && 0.0 <= threatFraction <= 1.0
    }

    predicate SemanticPass() { threat && mode in {TargetedSemantic, ConfirmedSemantic} }
  }

  function Larger(a: real, b: real): real { if a >= b then a else b }

  function Smaller(a: real, b: real): real { if a <= b then a else b }

  // ---- chunks ----

  // k * x, by repeated addition.
  function Times(k: nat, x: real): real {
    if k == 0 then 0.0 else Times(k - 1, x) + x
  }

  lemma {:induction false} TimesIsProduct(k: nat, x: real)
    ensures Times(k, x) == k as real * x
  {
    if k > 0 {
      TimesIsProduct(k - 1, x);
      OneMore(k - 1, x);
    }
  }

  lemma OneMore(k: nat, x: real)
    ensures (k + 1) as real * x == k as real * x + x
  {
  }

  lemma {:induction false} TimesOfSum(a: nat, b: nat, x: real)
    ensures Times(a + b, x) == Times(a, x) + Times(b, x)
  {
    if b > 0 {
      TimesOfSum(a, b - 1, x);
    }
  }

  lemma {:induction false} TimesRises(a: nat, b: nat, x: real, y: real)
    requires a <= b && 0.0 <= x <= y
    ensures 0.0 <= Times(a, x) <= Times(b, y)
  {
    if b > 0 {
      TimesRises(if a == b then a - 1 else a, b - 1, x, y);
    }
  }

  function ChunkCost(k: nat, rate: real, floor: real): real { Larger(floor, Times(k, rate)) }

  function ChunkedSum(n: nat, size: nat, rate: real, floor: real): real
    requires size > 0
    decreases n
  {
    if n == 0 then 0.0
    else
      var k := Min(n, size);
      ChunkCost(k, rate, floor) + ChunkedSum(n - k, size, rate, floor)
  }

  method ChunkedReferenceSeconds(messages: nat, size: nat, rate: real, floor: real) returns (total: real)
    requires size > 0
    ensures total == ChunkedSum(messages, size, rate, floor)
  {
    if messages == 0 {
      return 0.0;
    }
    var remaining := messages;
    total := 0.0;
    while remaining != 0
      invariant total + ChunkedSum(remaining, size, rate, floor) == ChunkedSum(messages, size, rate, floor)
    {
      var chunk := Min(remaining, size);
      var cost := CostOfChunk(chunk, rate, floor);
      total := total + cost;
      remaining := remaining - chunk;
    }
  }

  method CostOfChunk(chunk: nat, rate: real, floor: real) returns (cost: real)
    ensures cost == ChunkCost(chunk, rate, floor)
  {
    TimesIsProduct(chunk, rate);
    cost := Larger(floor, chunk as real * rate);
  }

  // n is q chunks of this size and r messages more.
  predicate Splits(n: nat, size: nat, q: nat, r: nat) { n == q * size + r && r < size }

  lemma SplitsIsDivision(n: nat, size: nat)
    requires size > 0
    ensures Splits(n, size, n / size, n % size)
  {
  }

  // The loop is its quotient and its remainder.
  lemma ClosedForm(n: nat, size: nat, rate: real, floor: real)
    requires size > 0
    ensures ChunkedSum(n, size, rate, floor)
         == Times(n / size, ChunkCost(size, rate, floor))
          + if n % size == 0 then 0.0 else ChunkCost(n % size, rate, floor)
  {
    SplitsIsDivision(n, size);
    ChunkedOfSplit(n, size, n / size, n % size, rate, floor);
  }

  lemma {:induction false} ChunkedOfSplit(n: nat, size: nat, q: nat, r: nat, rate: real, floor: real)
    requires size > 0 && Splits(n, size, q, r)
    ensures ChunkedSum(n, size, rate, floor)
         == Times(q, ChunkCost(size, rate, floor)) + if r == 0 then 0.0 else ChunkCost(r, rate, floor)
    decreases q
  {
    if q > 0 {
      Peel(n, size, q, r);
      ChunkedOfSplit(n - size, size, q - 1, r, rate, floor);
    }
  }

  lemma Peel(n: nat, size: nat, q: nat, r: nat)
    requires Splits(n, size, q, r) && q > 0
    ensures n >= size && Splits(n - size, size, q - 1, r)
  {
    assert q * size == (q - 1) * size + size;
  }

  // The number of chunks: n / size rounded up.
  function Chunks(n: nat, size: nat): nat
    requires size > 0
    decreases n
  {
    if n == 0 then 0 else 1 + Chunks(n - Min(n, size), size)
  }

  lemma {:induction false} ChunksIsCeiling(n: nat, size: nat)
    requires size > 0
    ensures (Chunks(n, size) - 1) * size < n + (if n == 0 then 1 else 0)
    ensures n <= Chunks(n, size) * size
    decreases n
  {
    if n >= size {
      ChunksIsCeiling(n - size, size);
      var k := Chunks(n - size, size);
      assert (k + 1) * size == k * size + size && k * size == (k - 1) * size + size;
    }
  }

  // It lies between the larger of its two parts and their sum.
  lemma {:induction false} ChunkedBounds(n: nat, size: nat, rate: real, floor: real)
    requires size > 0 && rate >= 0.0 && floor >= 0.0
    ensures Times(n, rate) <= ChunkedSum(n, size, rate, floor)
    ensures Times(Chunks(n, size), floor) <= ChunkedSum(n, size, rate, floor)
    ensures ChunkedSum(n, size, rate, floor) <= Times(n, rate) + Times(Chunks(n, size), floor)
    decreases n
  {
    if n > 0 {
      var k := Min(n, size);
      ChunkedBounds(n - k, size, rate, floor);
      TimesOfSum(k, n - k, rate);
      TimesRises(0, k, rate, rate);
    }
  }

  // A longer list never takes less, and neither do higher rates and floors.
  lemma {:induction false} ChunkedRises(m: nat, n: nat, size: nat, rate: real, floor: real, rate': real, floor': real)
    requires size > 0 && m <= n && 0.0 <= rate <= rate' && 0.0 <= floor <= floor'
    ensures 0.0 <= ChunkedSum(m, size, rate, floor) <= ChunkedSum(n, size, rate', floor')
    decreases n
  {
    if n > 0 {
      var j, k := Min(m, size), Min(n, size);
      ChunkedRises(m - j, n - k, size, rate, floor, rate', floor');
      TimesRises(j, k, rate, rate');
    }
  }

  // ---- without samples ----

  const CHUNK := 500

  function MemoryFactor(s: EstimateSettings): real {
    if s.memory.Some? && s.memory.value < RecommendedMemory(s.model) then 1.25 else 1.0
  }

  function UpperMemoryFactor(s: EstimateSettings): real {
    var factor :=
      if s.memory.None? then 1.35 else if s.memory.value < RecommendedMemory(s.model) then 1.55 else 1.0;
    if s.appleSilicon then factor else factor * 1.25
  }

  function UpperSpread(s: EstimateSettings): real { if s.model == Gemma12 then 2.20 else 1.80 }

  // Seconds per message and per chunk at least, for the three estimates.
  datatype Rates = Rates(low: real, lowFloor: real, mid: real, midFloor: real, high: real, highFloor: real)
  {
    predicate Ordered() { 0.0 <= low <= mid <= high && 0.0 <= lowFloor <= midFloor <= highFloor }
  }

  function RatesOf(s: EstimateSettings): Rates {
    var cold, memory, upper := Cold(s.model), MemoryFactor(s), UpperMemoryFactor(s);
    Rates(
      cold / 5.0 * 0.70, cold * 0.70,
      cold / 5.0 * memory, cold * memory,
      cold / 5.0 * UpperSpread(s) * upper, cold * 1.40 * upper)
  }

  // What the semantic pass, the lifecycle extraction and the proofs add to the classification.
  datatype Extras = Extras(low: real, mid: real, high: real)
  {
    predicate Ordered() { 1.0 <= low <= mid <= high }
  }

  function Part(on: bool, factor: real, fraction: real): real { if on then factor * fraction else 0.0 }

  function Extra(s: EstimateSettings, semantic: real, lifecycle: real, proof: real): real {
    1.0 + Part(s.SemanticPass(), semantic, s.threatFraction) + Part(s.lumegraph, lifecycle, s.lifecycleFraction)
        + (if s.proof then proof else 0.0)
  }

  function ExtrasOf(s: EstimateSettings): Extras {
    Extras(Extra(s, 0.65, 0.45, 0.03), Extra(s, 0.85, 0.65, 0.05), Extra(s, 1.10, 0.90, 0.08))
  }

  // The provider calls for the messages acted on.
  function ActionSeconds(n: nat, s: EstimateSettings): real {
    n as real * s.actionFraction * (if s.gmail then 0.18 else 0.28) * (if s.trash then 1.08 else 1.0)
  }

  function Overhead(n: nat, s: EstimateSettings): real {
    n as real * (if s.gmail then 0.10 else 0.18)
    + ActionSeconds(n, s)
    + (if s.governor then Smaller(2.0, 0.005 * n as real) else 0.0)
    + (if s.proof then Smaller(1.5, 0.003 * n as real) else 0.0)
  }

  function Charge(model: real, extra: real, overhead: real): real { model * extra + overhead }

  function Combine(n: nat, r: Rates, x: Extras, overhead: real): Seconds {
    Seconds(
      Charge(ChunkedSum(n, CHUNK, r.low, r.lowFloor), x.low, overhead * 0.60),
      Charge(ChunkedSum(n, CHUNK, r.mid, r.midFloor), x.mid, overhead),
      Charge(ChunkedSum(n, CHUNK, r.high, r.highFloor), x.high, overhead * 1.80))
  }

  // The raw values, before they are clamped.
  function Reference(n: nat, s: EstimateSettings): Seconds { Combine(n, RatesOf(s), ExtrasOf(s), Overhead(n, s)) }

  lemma RatesAreOrdered(s: EstimateSettings)
    ensures RatesOf(s).Ordered()
  {
    match s.model
    case Qwen8 =>
    case Gemma12 =>
    case Gemma26 =>
  }

  lemma ExtrasAreOrdered(s: EstimateSettings)
    requires s.Valid()
    ensures ExtrasOf(s).Ordered()
  {
  }

  lemma ProductRises(a: real, b: real, x: real, y: real)
    requires 0.0 <= a <= b && 0.0 <= x <= y
    ensures 0.0 <= a * x <= b * y
  {
    assert a * x <= b * x;
    assert b * x <= b * y;
  }

  lemma ActionSecondsGrow(m: nat, n: nat, s: EstimateSettings)
    requires s.Valid() && m <= n
    ensures 0.0 <= ActionSeconds(m, s) <= ActionSeconds(n, s)
  {
    var perAction, factor := if s.gmail then 0.18 else 0.28, if s.trash then 1.08 else 1.0;
    var few, many := m as real * s.actionFraction, n as real * s.actionFraction;
    ProductRises(m as real, n as real, s.actionFraction, s.actionFraction);
    ProductRises(few, many, perAction, perAction);
    ProductRises(few * perAction, many * perAction, factor, factor);
  }

  lemma OverheadGrows(m: nat, n: nat, s: EstimateSettings)
    requires s.Valid() && m <= n
    ensures 0.0 <= Overhead(m, s) <= Overhead(n, s)
  {
    ActionSecondsGrow(m, n, s);
  }

  lemma ChargeRises(a: real, b: real, x: real, y: real, o: real, o': real)
    requires 0.0 <= a <= b && 1.0 <= x <= y && 0.0 <= o <= o'
    ensures 0.0 <= Charge(a, x, o) <= Charge(b, y, o')
  {
    ProductRises(a, b, x, y);
  }

  lemma CombineIsOrdered(n: nat, r: Rates, x: Extras, overhead: real)
    requires r.Ordered() && x.Ordered() && overhead >= 0.0
    ensures Combine(n, r, x, overhead).Ordered()
  {
    ChunkedRises(n, n, CHUNK, r.low, r.lowFloor, r.mid, r.midFloor);
    ChunkedRises(n, n, CHUNK, r.mid, r.midFloor, r.high, r.highFloor);
    var low, mid, high := ChunkedSum(n, CHUNK, r.low, r.lowFloor), ChunkedSum(n, CHUNK, r.mid, r.midFloor),
      ChunkedSum(n, CHUNK, r.high, r.highFloor);
    ChargeRises(low, mid, x.low, x.mid, overhead * 0.60, overhead);
    ChargeRises(mid, high, x.mid, x.high, overhead, overhead * 1.80);
  }

  lemma PartGrows(m: nat, n: nat, rate: real, floor: real, extra: real, o: real, o': real)
    requires m <= n && 0.0 <= rate && 0.0 <= floor && 1.0 <= extra && 0.0 <= o <= o'
    ensures Charge(ChunkedSum(m, CHUNK, rate, floor), extra, o) <= Charge(ChunkedSum(n, CHUNK, rate, floor), extra, o')
  {
    ChunkedRises(m, n, CHUNK, rate, floor, rate, floor);
    ChargeRises(ChunkedSum(m, CHUNK, rate, floor), ChunkedSum(n, CHUNK, rate, floor), extra, extra, o, o');
  }

  lemma CombineGrows(m: nat, n: nat, r: Rates, x: Extras, o: real, o': real)
    requires m <= n && r.Ordered() && x.Ordered() && 0.0 <= o <= o'
    ensures Combine(m, r, x, o).AtMost(Combine(n, r, x, o'))
  {
    PartGrows(m, n, r.low, r.lowFloor, x.low, o * 0.60, o' * 0.60);
    PartGrows(m, n, r.mid, r.midFloor, x.mid, o, o');
    PartGrows(m, n, r.high, r.highFloor, x.high, o * 1.80, o' * 1.80);
  }

  // The raw values are in order ...
  lemma ReferenceIsOrdered(n: nat, s: EstimateSettings)
    requires s.Valid()
    ensures Reference(n, s).Ordered()
  {
    RatesAreOrdered(s);
    ExtrasAreOrdered(s);
    OverheadGrows(n, n, s);
    CombineIsOrdered(n, RatesOf(s), ExtrasOf(s), Overhead(n, s));
  }

  // ... and never fall when there are more messages.
  lemma ReferenceGrows(m: nat, n: nat, s: EstimateSettings)
    requires s.Valid() && m <= n
    ensures Reference(m, s).AtMost(Reference(n, s))
  {
    RatesAreOrdered(s);
    ExtrasAreOrdered(s);
    OverheadGrows(m, n, s);
    CombineGrows(m, n, RatesOf(s), ExtrasOf(s), Overhead(m, s), Overhead(n, s));
  }

  // ---- what the settings do to the estimate ----

  // The same computer and mailbox with more to do: whatever s switches on t switches on too, and no fraction is lower.
  ghost predicate AsksForMore(s: EstimateSettings, t: EstimateSettings) {
    && s.model == t.model && s.memory == t.memory && s.appleSilicon == t.appleSilicon && s.gmail == t.gmail
    && (s.trash ==> t.trash) && (s.governor ==> t.governor) && (s.lumegraph ==> t.lumegraph) && (s.proof ==> t.proof)
    && (s.threat && s.mode in {TargetedSemantic, ConfirmedSemantic} ==>
          t.threat && t.mode in {TargetedSemantic, ConfirmedSemantic})
    && s.actionFraction <= t.actionFraction && s.lifecycleFraction <= t.lifecycleFraction
    && s.threatFraction <= t.threatFraction
  }

  lemma ExtraRises(s: EstimateSettings, t: EstimateSettings, semantic: real, lifecycle: real, proof: real)
    requires s.Valid() && t.Valid() && AsksForMore(s, t) && semantic >= 0.0 && lifecycle >= 0.0 && proof >= 0.0
    ensures 1.0 <= Extra(s, semantic, lifecycle, proof) <= Extra(t, semantic, lifecycle, proof)
  {
    PartOfMore(s.SemanticPass(), t.SemanticPass(), semantic, s.threatFraction, t.threatFraction);
    PartOfMore(s.lumegraph, t.lumegraph, lifecycle, s.lifecycleFraction, t.lifecycleFraction);
  }

  lemma PartOfMore(on: bool, on': bool, factor: real, x: real, y: real)
    requires (on ==> on') && factor >= 0.0 && 0.0 <= x <= y
    ensures 0.0 <= Part(on, factor, x) <= Part(on', factor, y)
  {
    ProductRises(factor, factor, x, y);
  }

  lemma ActionSecondsRise(n: nat, s: EstimateSettings, t: EstimateSettings)
    requires s.Valid() && t.Valid() && AsksForMore(s, t)
    ensures 0.0 <= ActionSeconds(n, s) <= ActionSeconds(n, t)
  {
    var perAction := if s.gmail then 0.18 else 0.28;
    var few, many := n as real * s.actionFraction, n as real * t.actionFraction;
    ProductRises(n as real, n as real, s.actionFraction, t.actionFraction);
    ProductRises(few, many, perAction, perAction);
    ProductRises(few * perAction, many * perAction, if s.trash then 1.08 else 1.0, if t.trash then 1.08 else 1.0);
  }

  lemma OverheadRises(n: nat, s: EstimateSettings, t: EstimateSettings)
    requires s.Valid() && t.Valid() && AsksForMore(s, t)
    ensures 0.0 <= Overhead(n, s) <= Overhead(n, t)
  {
    ActionSecondsRise(n, s, t);
  }

  lemma MoreToDoTakesLonger(n: nat, s: EstimateSettings, t: EstimateSettings)
    requires s.Valid() && t.Valid() && AsksForMore(s, t)
    ensures Reference(n, s).AtMost(Reference(n, t))
  {
    RatesAreOrdered(s);
    OverheadRises(n, s, t);
    ExtrasRise(s, t);
    CombineRises(n, RatesOf(s), ExtrasOf(s), ExtrasOf(t), Overhead(n, s), Overhead(n, t));
  }

  lemma ExtrasRise(s: EstimateSettings, t: EstimateSettings)
    requires s.Valid() && t.Valid() && AsksForMore(s, t)
    ensures 1.0 <= ExtrasOf(s).low <= ExtrasOf(t).low && 1.0 <= ExtrasOf(s).mid <= ExtrasOf(t).mid
    ensures 1.0 <= ExtrasOf(s).high <= ExtrasOf(t).high
  {
    ExtraRises(s, t, 0.65, 0.45, 0.03);
    ExtraRises(s, t, 0.85, 0.65, 0.05);
    ExtraRises(s, t, 1.10, 0.90, 0.08);
  }

  lemma CombineRises(n: nat, r: Rates, x: Extras, y: Extras, o: real, o': real)
    requires r.Ordered() && 0.0 <= o <= o'
    requires 1.0 <= x.low <= y.low && 1.0 <= x.mid <= y.mid && 1.0 <= x.high <= y.high
    ensures Combine(n, r, x, o).AtMost(Combine(n, r, y, o'))
  {
    PartRises(n, r.low, r.lowFloor, x.low, y.low, o * 0.60, o' * 0.60);
    PartRises(n, r.mid, r.midFloor, x.mid, y.mid, o, o');
    PartRises(n, r.high, r.highFloor, x.high, y.high, o * 1.80, o' * 1.80);
  }

  lemma PartRises(n: nat, rate: real, floor: real, x: real, y: real, o: real, o': real)
    requires 0.0 <= rate && 0.0 <= floor && 1.0 <= x <= y && 0.0 <= o <= o'
    ensures Charge(ChunkedSum(n, CHUNK, rate, floor), x, o) <= Charge(ChunkedSum(n, CHUNK, rate, floor), y, o')
  {
    ChunkedRises(n, n, CHUNK, rate, floor, rate, floor);
    ChargeRises(ChunkedSum(n, CHUNK, rate, floor), ChunkedSum(n, CHUNK, rate, floor), x, y, o, o');
  }

  // Only a computer known to have less than the recommended memory is taken to be slower; one of unknown memory is
  // merely less certain.
  lemma MemoryMatters(s: EstimateSettings)
    ensures
      var short := s.memory.Some?
        && s.memory.value < (match s.model case Qwen8 => 12.0 case Gemma12 => 16.0 case Gemma26 => 24.0);
      && MemoryFactor(s) == (if short then 1.25 else 1.0)
      && UpperMemoryFactor(s)
         == (if s.memory == None then 1.35 else if short then 1.55 else 1.0) * (if s.appleSilicon then 1.0 else 1.25)
  {
  }

  // Two full chunks with everything switched on ...
  lemma EverythingSwitchedOn(n: nat, s: EstimateSettings)
    requires n == 1000
    requires s == EstimateSettings(Gemma26, None, false, true, true, true, 0.5, 0.4, true, TargetedSemantic, 0.2,
                                  true, true)
    ensures Reference(n, s) == Seconds(1940.14, 3071.9, 10143.225)
  {
    assert RatesOf(s) == Rates(1.358, 6.79, 1.94, 9.7, 5.89275, 22.91625);
    assert ExtrasOf(s) == Extras(1.34, 1.48, 1.66);
    assert Overhead(n, s) == 200.7;
    InChunks(n, 2, 0, 1.358, 6.79);
    InChunks(n, 2, 0, 1.94, 9.7);
    InChunks(n, 2, 0, 5.89275, 22.91625);
  }

  // ... a hundred messages on a computer with too little memory ...
  lemma TooLittleMemory(n: nat, s: EstimateSettings)
    requires n == 100
    requires s == EstimateSettings(Qwen8, Some(8.0), true, false, false, true, 0.25, 0.2, true, ConfirmedSemantic, 0.1,
                                  true, true)
    ensures Reference(n, s) == Seconds(105.066, 196.575, 459.2484)
  {
    assert RatesOf(s) == Rates(0.756, 3.78, 1.35, 6.75, 3.0132, 11.718);
    assert ExtrasOf(s) == Extras(1.185, 1.265, 1.37);
    assert Overhead(n, s) == 25.8;
    InChunks(n, 0, 100, 0.756, 3.78);
    InChunks(n, 0, 100, 1.35, 6.75);
    InChunks(n, 0, 100, 3.0132, 11.718);
  }

  // ... a full chunk with everything else switched off ...
  lemma OneFullChunk(n: nat, s: EstimateSettings)
    requires n == 500
    requires s == EstimateSettings(Gemma12, Some(16.0), true, false, true, false, 1.0, 1.0, true, TechnicalOnly, 1.0,
                                  false, false)
    ensures Reference(n, s) == Seconds(753.72, 1111.2, 2348.16)
  {
    assert RatesOf(s) == Rates(1.218, 6.09, 1.74, 8.7, 3.828, 12.18);
    assert ExtrasOf(s) == Extras(1.0, 1.0, 1.0);
    assert Overhead(n, s) == 241.2;
    InChunks(n, 1, 0, 1.218, 6.09);
    InChunks(n, 1, 0, 1.74, 8.7);
    InChunks(n, 1, 0, 3.828, 12.18);
  }

  // ... and three messages, which take as long as loading the model.
  lemma ThreeMessages(n: nat, s: EstimateSettings)
    requires n == 3
    requires s == EstimateSettings(Gemma12, Some(16.0), true, false, true, false, 1.0, 1.0, true, TechnicalOnly, 1.0,
                                  false, false)
    ensures Reference(n, s) == Seconds(6.95832, 10.1472, 14.78496)
  {
    assert RatesOf(s) == Rates(1.218, 6.09, 1.74, 8.7, 3.828, 12.18);
    assert ExtrasOf(s) == Extras(1.0, 1.0, 1.0);
    assert Overhead(n, s) == 1.4472;
    InChunks(n, 0, 3, 1.218, 6.09);
    InChunks(n, 0, 3, 1.74, 8.7);
    InChunks(n, 0, 3, 3.828, 12.18);
  }

  lemma InChunks(n: nat, full: nat, rest: nat, rate: real, floor: real)
    requires n == 500 * full + rest && rest < 500
    ensures ChunkedSum(n, CHUNK, rate, floor)
         == full as real * Larger(floor, 500.0 * rate) + if rest == 0 then 0.0 else Larger(floor, rest as real * rate)
  {
    var size := CHUNK;
    ChunkedOfSplit(n, size, full, rest, rate, floor);
    TimesIsProduct(full, ChunkCost(size, rate, floor));
    TimesIsProduct(size, rate);
    TimesIsProduct(rest, rate);
  }

  // ---- with samples ----

  datatype Sample = Sample(processed: nat, elapsed: real)
  {
    // What the constructor of ScanTimingSample demands.
    predicate Valid() { processed >= 1 && elapsed > 0.0 }

    function Rate(): real
      requires Valid()
    {
      elapsed / processed as real
    }
  }

  ghost predicate Rising(rates: seq<real>) { forall i, j :: 0 <= i <= j < |rates| ==> rates[i] <= rates[j] }

  // statistics.median
  function Median(rates: seq<real>): real
    requires rates != []
  {
    var k := |rates| / 2;
    if |rates| % 2 == 1 then rates[k] else (rates[k - 1] + rates[k]) / 2.0
  }

  function FromRates(cold: real, least: real, middle: real, most: real, n: real): Seconds {
    Seconds(Larger(cold * 0.75, least * n * 0.8), Larger(cold, middle * n), Larger(cold * 1.25, most * n * 1.25))
  }

  function Sampled(n: nat, cold: real, rates: seq<real>): Seconds
    requires rates != []
  {
    FromRates(cold, rates[0], Median(rates), rates[|rates| - 1], n as real)
  }

  // As many rates on either side: the middle one, or half way between the two in the middle.
  lemma MedianHalves(below: seq<real>, middle: real, other: real, above: seq<real>)
    requires |below| == |above|
    ensures Median(below + [middle] + above) == middle
    ensures 2.0 * Median(below + [middle, other] + above) == middle + other
  {
    var odd, even := below + [middle] + above, below + [middle, other] + above;
    assert |odd| == 2 * |below| + 1 && odd[|below|] == middle;
    assert |even| == 2 * |below| + 2 && even[|below|] == middle && even[|below| + 1] == other;
  }

  lemma MedianIsBetween(rates: seq<real>)
    requires rates != [] && Rising(rates)
    ensures rates[0] <= Median(rates) <= rates[|rates| - 1]
  {
  }

  // Ten messages take as long as the samples say, one takes as long as loading the model.
  lemma SampledExamples()
    ensures Sampled(10, 9.7, [1.0, 2.0, 3.0]) == Seconds(8.0, 20.0, 37.5)
    ensures Sampled(1, 9.7, [1.0, 2.0, 3.0]) == Seconds(7.275, 9.7, 12.125)
  {
  }

  lemma FromRatesIsOrdered(cold: real, least: real, middle: real, most: real, t: real)
    requires cold >= 0.0 && 0.0 <= least <= middle <= most && t >= 0.0
    ensures FromRates(cold, least, middle, most, t).Ordered()
  {
    ProductRises(least, middle, t, t);
    ProductRises(middle, most, t, t);
    LargerOfOrdered(cold, least * t, middle * t, most * t);
  }

  lemma LargerOfOrdered(cold: real, a: real, b: real, c: real)
    requires 0.0 <= cold && 0.0 <= a <= b <= c
    ensures 0.0 <= Larger(cold * 0.75, a * 0.8) <= Larger(cold, b) <= Larger(cold * 1.25, c * 1.25)
  {
  }

  lemma FromRatesGrows(cold: real, least: real, middle: real, most: real, t: real, t': real)
    requires 0.0 <= least && 0.0 <= middle && 0.0 <= most && 0.0 <= t <= t'
    ensures FromRates(cold, least, middle, most, t).AtMost(FromRates(cold, least, middle, most, t'))
  {
    ProductRises(least, least, t, t');
    ProductRises(middle, middle, t, t');
    ProductRises(most, most, t, t');
  }

  lemma SampledIsOrdered(n: nat, cold: real, rates: seq<real>)
    requires rates != [] && Rising(rates) && rates[0] >= 0.0 && cold >= 0.0
    ensures Sampled(n, cold, rates).Ordered()
  {
    MedianIsBetween(rates);
    FromRatesIsOrdered(cold, rates[0], Median(rates), rates[|rates| - 1], n as real);
  }

  lemma SampledGrows(m: nat, n: nat, cold: real, rates: seq<real>)
    requires rates != [] && Rising(rates) && rates[0] >= 0.0 && m <= n
    ensures Sampled(m, cold, rates).AtMost(Sampled(n, cold, rates))
  {
    MedianIsBetween(rates);
    FromRatesGrows(cold, rates[0], Median(rates), rates[|rates| - 1], m as real, n as real);
  }

  lemma RateIsPositive(sample: Sample)
    requires sample.Valid()
    ensures sample.Rate() > 0.0
  {
    var n := sample.processed as real;
    assert sample.elapsed / n * n == sample.elapsed;
  }

  function RatesIn(samples: seq<Sample>): seq<real>
    requires forall i :: 0 <= i < |samples| ==> samples[i].Valid()
  {
    seq(|samples|, i requires 0 <= i < |samples| => samples[i].Rate())
  }

  // sorted(...)
  method SortRates(all: seq<real>) returns (rates: seq<real>)
    ensures Rising(rates) && multiset(rates) == multiset(all)
  {
    rates := [];
    for i := 0 to |all|
      invariant Rising(rates) && multiset(rates) == multiset(all[..i])
    {
      rates := InsertRate(rates, all[i]);
      assert all[..i + 1] == all[..i] + [all[i]];
    }
    assert all[..|all|] == all;
  }

  method InsertRate(rates: seq<real>, rate: real) returns (more: seq<real>)
    requires Rising(rates)
    ensures Rising(more) && multiset(more) == multiset(rates) + multiset{rate}
  {
    var k := |rates|;
    while k > 0 && rates[k - 1] > rate
      invariant 0 <= k <= |rates|
      invariant forall j :: k <= j < |rates| ==> rates[j] > rate
    {
      k := k - 1;
    }
    InsertKeepsRising(rates, rate, k);
    InsertAddsOne(rates, rate, k);
    more := rates[..k] + [rate] + rates[k..];
  }

  lemma InsertAddsOne(rates: seq<real>, rate: real, k: nat)
    requires k <= |rates|
    ensures multiset(rates[..k] + [rate] + rates[k..]) == multiset(rates) + multiset{rate}
  {
    assert rates == rates[..k] + rates[k..];
  }

  lemma InsertKeepsRising(rates: seq<real>, rate: real, k: nat)
    requires Rising(rates) && k <= |rates| && (k > 0 ==> rates[k - 1] <= rate)
    requires forall j :: k <= j < |rates| ==> rates[j] > rate
    ensures Rising(rates[..k] + [rate] + rates[k..])
  {
    assert forall i :: 0 <= i < k ==> rates[i] <= rate;
  }

  method SortedRates(samples: seq<Sample>) returns (rates: seq<real>)
    requires samples != [] && forall i :: 0 <= i < |samples| ==> samples[i].Valid()
    ensures Rising(rates) && multiset(rates) == multiset(RatesIn(samples))
    ensures |rates| == |samples| && rates[0] > 0.0
  {
    var all := RatesIn(samples);
    rates := SortRates(all);
    assert |multiset(rates)| == |rates| && |multiset(all)| == |all|;
    assert rates[0] in multiset(all);
    ghost var i :| 0 <= i < |all| && all[i] == rates[0];
    RateIsPositive(samples[i]);
  }

  // ---- the estimate ----

  // The final clamps.
  function Clamped(raw: Seconds): Seconds {
    var central := Larger(0.0, raw.central);
    Seconds(Larger(0.0, Smaller(raw.lower, central)), central, Larger(central, raw.upper))
  }

  // They only ever repair values that were out of order.
  lemma ClampsChangeNothingExactlyWhenOrdered(raw: Seconds)
    ensures Clamped(raw).Ordered()
    ensures Clamped(raw) == raw <==> raw.Ordered()
  {
  }

  method EstimateScanDuration(eligible: int, s: EstimateSettings, samples: seq<Sample>)
    returns (r: Result<Estimate>, ghost rates: seq<real>)
    requires forall i :: 0 <= i < |samples| ==> samples[i].processed >= 1 && samples[i].elapsed > 0.0
    ensures r.Ok? <==>
      && eligible >= 0
      && 0.0 <= s.actionFraction <= 1.0 && 0.0 <= s.lifecycleFraction <= 1.0 && 0.0 <= s.threatFraction <= 1.0
    ensures r.Ok? ==> r.value.seconds.Ordered()
    ensures r.Ok? && eligible == 0 ==> r.value == Estimate(Seconds(0.0, 0.0, 0.0), High, NothingEligible)
    ensures r.Ok? && eligible > 0 && samples == [] ==>
      r.value == Estimate(Reference(eligible, s), Low, ReferenceBenchmark)
    ensures r.Ok? && eligible > 0 && samples != [] ==>
      && Rising(rates) && |rates| == |samples| && rates[0] > 0.0
      && multiset(rates) == multiset(RatesIn(samples))
      && r.value.seconds == Sampled(eligible, Cold(s.model), rates)
      && r.value.basis == LocalSessions
      && (r.value.confidence == High <==> |samples| >= 3 && rates[|rates| - 1] / rates[0] <= 1.5)
  {
    rates := [];
    if eligible < 0 || !s.Valid() {
      return Rejected, rates;
    }
    if eligible == 0 {
      return Ok(Estimate(Seconds(0.0, 0.0, 0.0), High, NothingEligible)), rates;
    }
    var raw, confidence, basis;
    if samples != [] {
      var sorted := SortedRates(samples);
      rates := sorted;
      SampledIsOrdered(eligible, Cold(s.model), sorted);
      raw := Sampled(eligible, Cold(s.model), sorted);
      confidence := if |samples| >= 3 && sorted[|sorted| - 1] / sorted[0] <= 1.5 then High else Medium;
      basis := LocalSessions;
    } else {
      raw := ReferenceSeconds(eligible, s);
      confidence, basis := Low, ReferenceBenchmark;
      ReferenceIsOrdered(eligible, s);
    }
    ClampsChangeNothingExactlyWhenOrdered(raw);
    r := Ok(Estimate(Clamped(raw), confidence, basis));
  }

  // The branch without samples, step by step.
  method ReferenceSeconds(planned: nat, s: EstimateSettings) returns (raw: Seconds)
    ensures raw == Reference(planned, s)
  {
    var r := PlanRates(s);
    var central := ChunkedReferenceSeconds(planned, CHUNK, r.mid, r.midFloor);
    var lower := ChunkedReferenceSeconds(planned, CHUNK, r.low, r.lowFloor);
    var upper := ChunkedReferenceSeconds(planned, CHUNK, r.high, r.highFloor);
    raw := AddOverhead(Seconds(lower, central, upper), ExtrasOf(s), Overhead(planned, s));
  }

  method AddOverhead(model: Seconds, x: Extras, overhead: real) returns (raw: Seconds)
    ensures raw == Seconds(Charge(model.lower, x.low, overhead * 0.60), Charge(model.central, x.mid, overhead),
                           Charge(model.upper, x.high, overhead * 1.80))
  {
    var central, lower, upper := model.central * x.mid, model.lower * x.low, model.upper * x.high;
    central := central + overhead;
    lower := lower + overhead * 0.60;
    upper := upper + overhead * 1.80;
    raw := Seconds(lower, central, upper);
  }

  method PlanRates(s: EstimateSettings) returns (r: Rates)
    ensures r == RatesOf(s)
  {
    var cold := Cold(s.model);
    var baseRate := cold / 5.0;
    var lowerRate, upperRate := baseRate * 0.70, baseRate * (if s.model == Gemma12 then 2.20 else 1.80);
    var memoryFactor, upperMemoryFactor := 1.0, 1.0;
    if s.memory.None? {
      upperMemoryFactor := 1.35;
    } else if s.memory.value < RecommendedMemory(s.model) {
      memoryFactor, upperMemoryFactor := 1.25, 1.55;
    }
    if !s.appleSilicon {
      upperMemoryFactor := upperMemoryFactor * 1.25;
    }
    assert memoryFactor == MemoryFactor(s) && upperMemoryFactor == UpperMemoryFactor(s);
    r := Rates(lowerRate, cold * 0.70, baseRate * memoryFactor, cold * memoryFactor,
               upperRate * upperMemoryFactor, cold * 1.40 * upperMemoryFactor);
  }
}
