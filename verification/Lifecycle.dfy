/** lumegraph.py: the lifecycle vocabulary, the heuristic extractor and the transition kinds. */
module Lifecycle {
  import opened Mail

  datatype UtilityKind =
    | NoKind | OneTimeCodeKind | Order | Shipment | Reservation | Invoice | Payment | SecurityFlow | Promotion

  datatype LifecycleState = Active | Pending | Completed | Replaced | Expired | UncertainState

  datatype DateRelation = NoDate | Past | Today | Future | UncertainDate

  datatype Condition =
    | NoCondition | UserActionRequired | ExternalActionPending | TimeBound | CompletedCondition | UncertainCondition

  datatype TransitionKind = Updates | Completes | Replaces | Expires

  datatype ReasonCode =
    | OtpLanguage | OrderLanguage | ShipmentLanguage | ReservationLanguage | InvoiceLanguage
    | PaymentLanguage | SecurityFlowLanguage | PromotionLanguage
    | ActiveLanguage | PendingLanguage | CompletionLanguage | ReplacementLanguage | ExpiryLanguage
    | ExplicitDate | EvidentiaryRecord | AmbiguousLifecycle | HeuristicFallback | ModelFailure
    | UnknownCode(text: string)

  datatype Utility = Utility(operational: bool, evidentiary: bool, personal: bool, security: bool)

  datatype Observation = Observation(
    kind: UtilityKind, state: LifecycleState, utility: Utility, date: DateRelation, condition: Condition,
    confidence: real, reasons: seq<ReasonCode>, extractor: string)
  {
    // What the dataclass checks when it is built.
    predicate Valid() {
      && kind != NoKind
      && 0.0 <= confidence <= 1.0
      && 0 < |extractor| <= 100
      && |reasons| <= 6
      && forall c :: c in reasons ==> !c.UnknownCode?
    }
  }

  // The facts the extractor reads off a message: term matches are booleans, days are day numbers.
  datatype Reading = Reading(
    unread: bool, ageDays: nat, today: int, expiry: Option<int>,
    replacedTerm: bool, completedTerm: bool, activeTerm: bool, pendingTerm: bool)

  function TransitionForState(state: LifecycleState): (kind: TransitionKind) {
    match state
    case Completed => Completes
    case Replaced => Replaces
    case Expired => Expires
    case _ => Updates
  }

  function KindReason(kind: UtilityKind): (code: ReasonCode)
    requires kind != NoKind
  {
    match kind
    case OneTimeCodeKind => OtpLanguage
    case Order => OrderLanguage
    case Shipment => ShipmentLanguage
    case Reservation => ReservationLanguage
    case Invoice => InvoiceLanguage
    case Payment => PaymentLanguage
    case SecurityFlow => SecurityFlowLanguage
    case Promotion => PromotionLanguage
  }

  function Without(codes: seq<ReasonCode>, code: ReasonCode): (r: seq<ReasonCode>)
    ensures |r| <= |codes|
    ensures forall c :: c in r <==> c in codes && c != code
    ensures code in codes ==> |r| < |codes|
  {
    if codes == [] then []
    else
      var rest := Without(codes[..|codes| - 1], code);
      var last := codes[|codes| - 1];
      assert forall c :: c in codes <==> c in codes[..|codes| - 1] || c == last;
      if last == code then rest else rest + [last]
  }

  ghost predicate PromotionElapsed(kind: UtilityKind, r: Reading) {
    kind == Promotion && r.expiry.Some? && r.expiry.value < r.today
  }

  // The state each message family is in, stated independently of how the reasons are collected.
  ghost function ExpectedState(kind: UtilityKind, r: Reading): LifecycleState {
    if kind == OneTimeCodeKind then
      if !r.unread && r.ageDays >= 7 then Expired else if r.ageDays == 0 then Active else UncertainState
    else if PromotionElapsed(kind, r) then Expired
    else if r.replacedTerm then Replaced
    else if r.completedTerm then Completed
    else if r.activeTerm then Active
    else if r.pendingTerm then Pending
    else UncertainState
  }

  predicate Documentary(kind: UtilityKind, state: LifecycleState) {
    && kind != OneTimeCodeKind
    && (kind == Invoice || kind == Payment || kind == Reservation || state == Completed || state == Replaced)
  }

  // What has to happen before the message is done with.
  ghost function ExpectedCondition(kind: UtilityKind, state: LifecycleState): Condition {
    match state
    case Completed => CompletedCondition
    case Replaced => CompletedCondition
    case Expired => CompletedCondition
    case UncertainState => UncertainCondition
    case _ =>
      if kind == OneTimeCodeKind then TimeBound
      else if kind == Invoice || kind == SecurityFlow then UserActionRequired
      else ExternalActionPending
  }

  // Only a promotion has a date to compare with today.
  ghost function ExpectedDate(kind: UtilityKind, r: Reading): DateRelation {
    if kind != Promotion || r.expiry == None then UncertainDate
    else if r.expiry.value < r.today then Past
    else if r.expiry.value > r.today then Future
    else Today
  }

  // The codes an observation carries.  An elapsed promotion keeps the code of its wording, unless that is the
  // ambiguous one, beside the one for its expiry.
  ghost predicate ExpectedReason(kind: UtilityKind, r: Reading, code: ReasonCode)
    requires kind != NoKind
  {
    || code == KindReason(kind) || code == HeuristicFallback
    || (code == ExplicitDate && kind == Promotion && r.expiry.Some?)
    || (code == EvidentiaryRecord && Documentary(kind, ExpectedState(kind, r)))
    || (code == ExpiryLanguage && ExpectedState(kind, r) == Expired)
    || (code == AmbiguousLifecycle && ExpectedState(kind, r) == UncertainState)
    || (code == ActiveLanguage && if kind == OneTimeCodeKind then ExpectedState(kind, r) == Active
                                  else r.activeTerm && !r.completedTerm && !r.replacedTerm)
    || (kind != OneTimeCodeKind
        && (|| (code == ReplacementLanguage && r.replacedTerm)
            || (code == CompletionLanguage && r.completedTerm && !r.replacedTerm)
            || (code == PendingLanguage && r.pendingTerm && !r.activeTerm && !r.completedTerm && !r.replacedTerm)))
  }

  // What extract_lifecycle promises of the observation it builds: everything but the order of the codes.  Five codes
  // at most, so the model-failure tag of the runtime still fits the limit of six.
  ghost predicate Extracted(o: Observation, kind: UtilityKind, r: Reading)
    requires kind != NoKind
  {
    && o.Valid() && |o.reasons| <= 5 && (forall code :: code in o.reasons <==> ExpectedReason(kind, r, code))
    && o.kind == kind && o.state == ExpectedState(kind, r)
    && o.condition == ExpectedCondition(kind, o.state) && o.date == ExpectedDate(kind, r)
    && (o.utility.operational <==> o.state.Active? || o.state.Pending?)
    && (o.utility.evidentiary <==> Documentary(kind, o.state))
    && (o.utility.personal <==> kind == Reservation)
    && (o.utility.security <==> kind == SecurityFlow || (kind == OneTimeCodeKind && o.state != Expired))
    && o.confidence == (if o.state == UncertainState then 0.45 else 0.76)
    && o.extractor == "heuristic-lifecycle-v1"
  }

  // HeuristicLifecycleExtractor.extract_lifecycle
  method ExtractLifecycle(kind: UtilityKind, r: Reading) returns (result: Result<Observation>)
    ensures result.Rejected? <==> kind == NoKind
    ensures result.Ok? ==> Extracted(result.value, kind, r) && NoDuplicates(result.value.reasons)
  {
    if kind == NoKind {
      return Rejected;
    }
    var o;
    if kind == OneTimeCodeKind {
      o := ExtractOneTimeCode(r);
    } else {
      o := ExtractDocument(kind, r);
    }
    result := Ok(o.(reasons := Deduplicated(o.reasons)));
  }

  // The one-time-code branch: only the read state and the age decide.
  method ExtractOneTimeCode(r: Reading) returns (o: Observation)
    ensures Extracted(o, OneTimeCodeKind, r)
  {
    var reasons := [OtpLanguage, HeuristicFallback];
    var state;
    if !r.unread && r.ageDays >= 7 {
      state, reasons := Expired, reasons + [ExpiryLanguage];
    } else if r.ageDays == 0 {
      state, reasons := Active, reasons + [ActiveLanguage];
    } else {
      state, reasons := UncertainState, reasons + [AmbiguousLifecycle];
    }
    var condition :=
      if state == Expired then CompletedCondition else if state == Active then TimeBound else UncertainCondition;
    o := Observation(OneTimeCodeKind, state, Utility(state == Active, false, false, state != Expired),
                     UncertainDate, condition, Confidence(state), reasons, "heuristic-lifecycle-v1");
  }

  // Every other family: the wording decides, and an elapsed promotion date overrides it.
  method ExtractDocument(kind: UtilityKind, r: Reading) returns (o: Observation)
    requires kind != NoKind && kind != OneTimeCodeKind
    ensures Extracted(o, kind, r)
  {
    var expiry := if kind == Promotion then r.expiry else None;
    var state, reasons := CollectReasons(kind, expiry, r);
    var utility := Utility(
      state == Active || state == Pending,
      kind == Invoice || kind == Payment || kind == Reservation || state == Completed || state == Replaced,
      kind == Reservation,
      kind == SecurityFlow);
    ghost var collected := reasons;
    if utility.evidentiary {
      reasons := reasons + [EvidentiaryRecord];
    }
    assert forall c :: c in reasons <==> c in collected || (utility.evidentiary && c == EvidentiaryRecord);
    var condition;
    if state == Completed || state == Replaced || state == Expired {
      condition := CompletedCondition;
    } else if state == Active || state == Pending {
      condition := if kind == Invoice || kind == SecurityFlow then UserActionRequired else ExternalActionPending;
    } else {
      condition := UncertainCondition;
    }
    var date :=
      if expiry.None? then UncertainDate
      else if expiry.value < r.today then Past
      else if expiry.value > r.today then Future
      else Today;
    o := Observation(kind, state, utility, date, condition, Confidence(state), reasons, "heuristic-lifecycle-v1");
  }

  // The reasons gathered before the evidentiary tag; an evidentiary document leaves room for it.
  method CollectReasons(kind: UtilityKind, expiry: Option<int>, r: Reading)
    returns (state: LifecycleState, reasons: seq<ReasonCode>)
    requires kind != NoKind && kind != OneTimeCodeKind
    requires expiry == if kind == Promotion then r.expiry else None
    ensures state == ExpectedState(kind, r)
    ensures |reasons| <= if kind == Promotion && state == Expired then 5 else 4
    ensures forall c :: c in reasons <==> ExpectedReason(kind, r, c) && c != EvidentiaryRecord
  {
    reasons := [KindReason(kind), HeuristicFallback];
    if expiry.Some? {
      reasons := reasons + [ExplicitDate];
    }
    var (read, wording) := ReadState(r);
    state := read;
    reasons := reasons + [wording];
    if kind == Promotion && expiry.Some? && expiry.value < r.today {
      state := Expired;
      reasons := Without(reasons, AmbiguousLifecycle) + [ExpiryLanguage];
    }
  }

  function ReadState(r: Reading): (LifecycleState, ReasonCode) {
    if r.replacedTerm then (Replaced, ReplacementLanguage)
    else if r.completedTerm then (Completed, CompletionLanguage)
    else if r.activeTerm then (Active, ActiveLanguage)
    else if r.pendingTerm then (Pending, PendingLanguage)
    else (UncertainState, AmbiguousLifecycle)
  }

  function Confidence(state: LifecycleState): real {
    if state != UncertainState then 0.76 else 0.45
  }

  // lifecycle_relation_materials: the reference tokens found in a message arrive sorted and distinct;
  // at most four become relation materials, and a one-time code has none.
  function RelationMaterials(kind: UtilityKind, tokens: seq<string>): (materials: seq<string>)
    requires NoDuplicates(tokens)
    ensures NoDuplicates(materials)
    ensures |materials| == if kind == OneTimeCodeKind then 0 else Min(4, |tokens|)
    ensures forall i :: 0 <= i < |materials| ==> materials[i] == "reference:" + tokens[i]
  {
    if kind == OneTimeCodeKind then []
    else
      var count := Min(4, |tokens|);
      var r := seq(count, i requires 0 <= i < count => "reference:" + tokens[i]);
      assert forall i :: 0 <= i < count ==> r[i][10..] == tokens[i];
      r
  }
}
