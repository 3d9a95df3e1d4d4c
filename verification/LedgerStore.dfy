/**
 * services/ledger-service/src/store.ts and, as functions on values, the mutating routes of
 * app.ts. A route runs to completion without yielding, so each is one step of the ledger.
 * Instants are milliseconds; amounts are the numbers their decimal strings spell.
 */
module LedgerStore {
  import opened Wrappers
  import opened Mandates
  import Text

  type Time = int

  datatype Challenge = Challenge(x402Version: int, network: string, chainId: int, amount: nat, asset: string,
                                 payTo: string, maxTimeoutSeconds: int, name: string, version: string)

  datatype Decision = Signed | Refused | Escalated
  datatype IntentState =
    IntentCreated | ChallengeAttached | NonceReserved | SignedState | Settled | Captured

  datatype Settlement = Settlement(settlementTx: string, blockNumber: int, cardOpaqueId: string,
                                   rawToolResultHash: Option<string>)
  datatype Spend = Spend(merchantDomain: string, orderTotal: string, itemSku: string, orderId: string,
                         observedAt: string)
  datatype Capture = Capture(orderId: string, capturedAt: string, settlementTx: string, blockNumber: int)

  datatype Intent = Intent(
    requestId: string, mandateId: string, agentId: string, instruction: string, instructionHash: string,
    createdAt: Time, challenge: Option<Challenge>, challengeAttachedAt: Option<Time>,
    nonce: Option<string>, nonceReservedAt: Option<Time>, nonceReleased: bool,
    decision: Option<Decision>, decidedAt: Option<Time>, policyHash: Option<string>,
    merchantDomain: Option<string>, validAfter: Option<int>, validBefore: Option<int>,
    settlement: Option<Settlement>, spend: Option<Spend>, capture: Option<Capture>, state: IntentState)

  datatype LogEntry = LogEntry(sequence: nat, requestId: string, decision: Decision, check: Option<string>,
                               detail: Option<string>, decidedAt: Time)

  datatype PolicyRecord = PolicyRecord(policy: Mandate, policyVersion: nat)

  datatype EscalationReason = WindowBudgetExceeded | IntentMismatch

  datatype Escalation = Escalation(
    requestId: string, mandateId: string, reason: EscalationReason, approvalUrl: string, createdAt: Time,
    expiresAt: int, ttlSeconds: int, resolved: bool, decision: Option<Verdict>, approvedBy: Option<string>,
    resolvedAt: Option<Time>, merchantDomain: Option<string>)

  datatype EventKind =
    | IntentCreatedEvent | ChallengeAttachedEvent | NonceReservedEvent | NonceReleasedEvent
    | DecisionRecorded | SettlementRecorded | SpendRecorded | CaptureRecorded
    | EscalationCreated | EscalationResolved | PolicyPut | StandingApprovalSet

  datatype ChallengeView = ChallengeView(payTo: string, asset: string, chainId: int, amount: nat)

  datatype SettlementView = SettlementView(settlementTx: string, blockNumber: int, cardOpaqueId: string)

  /** The read-only view of an intent that the feed carries. */
  datatype IntentView = IntentView(
    requestId: string, mandateId: string, agentId: string, instruction: string, instructionHash: string,
    createdAt: Time, state: IntentState, decision: Option<Decision>, decidedAt: Option<Time>,
    policyHash: Option<string>, merchantDomain: Option<string>, challenge: Option<ChallengeView>,
    nonce: Option<string>, nonceReserved: bool, settlement: Option<SettlementView>,
    spend: Option<Spend>, capture: Option<Capture>)

  /** One append event: its number, kind and instant, and the touched intent if there is one. */
  datatype Event = Event(number: nat, kind: EventKind, at: Time, intent: Option<IntentView>)

  /** `order` lists the intents as inserted; `events` is everything the feed has emitted. */
  datatype Ledger = Ledger(
    order: seq<string>, intents: map<string, Intent>, log: seq<LogEntry>, policies: map<string, PolicyRecord>,
    escalations: map<string, Escalation>, approvals: map<string, int>, eventSeq: nat, events: seq<Event>)

  const EMPTY: Ledger := Ledger([], map[], [], map[], map[], map[], 0, [])

  datatype Reply = Sent(status: int) | Failed(status: int, code: string)

  /** The bodies of the mutating routes; a field the caller may omit is an option. */
  datatype Request =
    | CreateIntent(newId: Option<string>, mandateId: Option<string>, agentId: Option<string>,
                   instruction: Option<string>, createdAt: Option<Time>)
    | AttachChallenge(requestId: string, challenge: Option<Challenge>)
    | ReserveNonce(requestId: string, nonce: Option<string>)
    | ReleaseNonce(requestId: string)
    | PutPolicy(mandate: string, policy: Option<Mandate>)
    | CreateEscalation(newId: Option<string>, mandateId: Option<string>, reason: Option<EscalationReason>,
                       approvalUrl: Option<string>, ttlSeconds: Option<int>, merchantDomain: Option<string>)
    | ResolveEscalation(requestId: string, verdict: Option<Verdict>, approvedBy: Option<string>)
    | SetStandingApproval(mandateId: Option<string>, merchantDomain: Option<string>, expiresAt: Option<int>)
    | RecordDecision(newId: Option<string>, decision: Option<Decision>, check: Option<string>,
                     detail: Option<string>, decidedAt: Option<Time>, policyHash: Option<string>,
                     merchantDomain: Option<string>, validAfter: Option<int>, validBefore: Option<int>)
    | RecordSettlement(requestId: string, settlementTx: Option<string>, blockNumber: Option<int>,
                       cardOpaqueId: Option<string>, rawToolResultHash: Option<string>)
    | RecordCapture(requestId: string, orderId: Option<string>, capturedAt: Option<string>,
                    settlementTx: Option<string>, blockNumber: Option<int>)
    | RecordSpend(requestId: string, merchantDomain: Option<string>, orderTotal: Option<string>,
                  itemSku: Option<string>, orderId: Option<string>, observedAt: Option<string>)

  /** An optional text as a view shows it: empty is left out. */
  function Present(s: Option<string>): Option<string> {
    if Truthy(s) then s else None
  }

  // ---- store.ts ------------------------------------------------------------------------

  function IntentViewOf(i: Intent): IntentView {
    IntentView(
      i.requestId, i.mandateId, i.agentId, i.instruction, i.instructionHash, i.createdAt, i.state,
      i.decision, i.decidedAt, Present(i.policyHash), Present(i.merchantDomain),
      match i.challenge
      case None => None
      case Some(c) => Some(ChallengeView(c.payTo, c.asset, c.chainId, c.amount)),
      i.nonce, i.nonce.Some? && !i.nonceReleased,
      match i.settlement
      case None => None
      case Some(t) => Some(SettlementView(t.settlementTx, t.blockNumber, t.cardOpaqueId)),
      i.spend, i.capture)
  }

  function ApprovalKey(mandateId: string, merchantDomain: string): string {
    mandateId + "::" + Text.Lower(merchantDomain)
  }

  // ---- One step ---------------------------------------------------------------------------

  /** What a route decides: to reject, or which one thing changes and is announced. */
  datatype Outcome =
    | Reject(status: int, code: string)
    | Unchanged
    | Create(intent: Intent)
    | Change(intent: Intent, kind: EventKind)
    | Decide(intent: Intent, entry: LogEntry)
    | Put(mandateId: string, record: PolicyRecord)
    | Escalate(escalation: Escalation, kind: EventKind)
    | Preapprove(key: string, expiresAt: int)

  function Emit(s: Ledger, kind: EventKind, at: Time, view: Option<IntentView>): Ledger {
    s.(eventSeq := s.eventSeq + 1, events := s.events + [Event(s.eventSeq + 1, kind, at, view)])
  }

  /** Stores one intent's record and announces it. */
  function Save(s: Ledger, i: Intent, kind: EventKind, at: Time): Ledger {
    Emit(s.(intents := s.intents[i.requestId := i]), kind, at, Some(IntentViewOf(i)))
  }

  function Apply(s: Ledger, o: Outcome, now: Time): Ledger {
    match o
    case Reject(_, _) => s
    case Unchanged => s
    case Create(i) => Save(s.(order := s.order + [i.requestId]), i, IntentCreatedEvent, now)
    case Change(i, kind) => Save(s, i, kind, now)
    case Decide(i, entry) => Save(s.(log := s.log + [entry]), i, DecisionRecorded, now)
    case Put(id, record) => Emit(s.(policies := s.policies[id := record]), PolicyPut, now, None)
    case Escalate(e, kind) => Emit(s.(escalations := s.escalations[e.requestId := e]), kind, now, None)
    case Preapprove(key, at) => Emit(s.(approvals := s.approvals[key := at]), StandingApprovalSet, now, None)
  }

  function ReplyTo(o: Outcome): Reply {
    match o
    case Reject(status, code) => Failed(status, code)
    case Create(_) => Sent(201)
    case Escalate(_, kind) => if kind.EscalationCreated? then Sent(201) else Sent(200)
    case _ => Sent(200)
  }

  // ---- app.ts, route by route ------------------------------------------------------------

  function CreateIntentRoute(s: Ledger, q: Request, keccak: Keccak): Outcome
    requires q.CreateIntent?
  {
    if !Truthy(q.newId) || !Truthy(q.mandateId) || !Truthy(q.agentId) || !Truthy(q.instruction) || q.createdAt.None?
    then Reject(400, "INVALID_BODY")
    else if q.newId.value in s.intents then Reject(409, "INTENT_EXISTS")
    else
      Create(Intent(q.newId.value, q.mandateId.value, q.agentId.value, q.instruction.value,
                    HashIntentInstruction(keccak, q.instruction.value), q.createdAt.value,
                    None, None, None, None, false, None, None, None, None, None, None, None, None, None,
                    IntentCreated))
  }

  function AttachChallengeRoute(s: Ledger, q: Request, now: Time): Outcome
    requires q.AttachChallenge?
  {
    if q.requestId !in s.intents then Reject(404, "INTENT_NOT_FOUND")
    else if q.challenge.None? then Reject(400, "INVALID_BODY")
    else
      var i := s.intents[q.requestId];
      if i.challenge.Some? then Reject(409, "CHALLENGE_EXISTS")
      else Change(i.(challenge := q.challenge, challengeAttachedAt := Some(now), state := ChallengeAttached),
                  ChallengeAttachedEvent)
  }

  function ReserveNonceRoute(s: Ledger, q: Request, now: Time): Outcome
    requires q.ReserveNonce?
  {
    if q.requestId !in s.intents then Reject(404, "INTENT_NOT_FOUND")
    else if !Truthy(q.nonce) then Reject(400, "INVALID_BODY")
    else
      var i := s.intents[q.requestId];
      if Truthy(i.nonce) && !i.nonceReleased then Reject(409, "NONCE_ALREADY_RESERVED")
      else Change(i.(nonce := q.nonce, nonceReservedAt := Some(now), nonceReleased := false, state := NonceReserved),
                  NonceReservedEvent)
  }

  function ReleaseNonceRoute(s: Ledger, q: Request): Outcome
    requires q.ReleaseNonce?
  {
    if q.requestId !in s.intents then Reject(404, "INTENT_NOT_FOUND")
    else
      var i := s.intents[q.requestId];
      if i.decision == Some(Signed) then Reject(409, "NONCE_BURNED")
      else if !Truthy(i.nonce) || i.nonceReleased then Reject(400, "NONCE_NOT_RESERVED")
      else Change(i.(nonceReleased := true, nonce := None, nonceReservedAt := None, state := ChallengeAttached),
                  NonceReleasedEvent)
  }

  function PutPolicyRoute(s: Ledger, q: Request): Outcome
    requires q.PutPolicy?
  {
    if q.policy.None? then Reject(400, "INVALID_BODY")
    else
      var version := if q.mandate in s.policies then s.policies[q.mandate].policyVersion else 0;
      Put(q.mandate, PolicyRecord(q.policy.value, version + 1))
  }

  function CreateEscalationRoute(s: Ledger, q: Request, now: Time): Outcome
    requires q.CreateEscalation?
  {
    if !Truthy(q.newId) || !Truthy(q.mandateId) || q.reason.None? || !Truthy(q.approvalUrl)
       || q.ttlSeconds.None? || q.ttlSeconds.value == 0
    then Reject(400, "INVALID_BODY")
    else if q.newId.value in s.escalations then Unchanged
    else
      Escalate(Escalation(q.newId.value, q.mandateId.value, q.reason.value, q.approvalUrl.value, now,
                          now / 1000 + q.ttlSeconds.value, q.ttlSeconds.value, false, None, None, None,
                          q.merchantDomain), EscalationCreated)
  }

  function ResolveEscalationRoute(s: Ledger, q: Request, now: Time): Outcome
    requires q.ResolveEscalation?
  {
    if q.requestId !in s.escalations then Reject(404, "ESCALATION_NOT_FOUND")
    else if q.verdict.None? then Reject(400, "INVALID_BODY")
    else
      Escalate(s.escalations[q.requestId].(requestId := q.requestId, resolved := true, decision := q.verdict,
                                           approvedBy := q.approvedBy, resolvedAt := Some(now)), EscalationResolved)
  }

  function SetStandingApprovalRoute(q: Request): Outcome
    requires q.SetStandingApproval?
  {
    if !Truthy(q.mandateId) || !Truthy(q.merchantDomain) || q.expiresAt.None? || q.expiresAt.value == 0
    then Reject(400, "INVALID_BODY")
    else Preapprove(ApprovalKey(q.mandateId.value, q.merchantDomain.value), q.expiresAt.value)
  }

  function RecordDecisionRoute(s: Ledger, q: Request): Outcome
    requires q.RecordDecision?
  {
    if !Truthy(q.newId) || q.decision.None? || q.decidedAt.None? then Reject(400, "INVALID_BODY")
    else if q.newId.value !in s.intents then Reject(404, "INTENT_NOT_FOUND")
    else
      var entry := LogEntry(|s.log| + 1, q.newId.value, q.decision.value, q.check, q.detail, q.decidedAt.value);
      var decided := s.intents[q.newId.value].(decision := q.decision, decidedAt := q.decidedAt);
      Decide(if q.decision.value.Signed? then
               decided.(state := SignedState, policyHash := q.policyHash, merchantDomain := q.merchantDomain,
                        validAfter := q.validAfter, validBefore := q.validBefore)
             else decided, entry)
  }

  predicate IsHash32(h: string) {
    |h| == 66 && h[..2] == "0x" && forall i :: 2 <= i < 66 ==> '0' <= h[i] <= '9' || 'a' <= h[i] <= 'f' || 'A' <= h[i] <= 'F'
  }

  function RecordSettlementRoute(s: Ledger, q: Request): Outcome
    requires q.RecordSettlement?
  {
    if q.requestId !in s.intents then Reject(404, "INTENT_NOT_FOUND")
    else if !Truthy(q.settlementTx) || q.blockNumber.None? || !Truthy(q.cardOpaqueId) then Reject(400, "INVALID_BODY")
    else if q.rawToolResultHash.Some? && !IsHash32(q.rawToolResultHash.value) then Reject(400, "INVALID_BODY")
    else
      var settlement := Settlement(q.settlementTx.value, q.blockNumber.value, q.cardOpaqueId.value, q.rawToolResultHash);
      Change(s.intents[q.requestId].(settlement := Some(settlement), state := Settled), SettlementRecorded)
  }

  function RecordCaptureRoute(s: Ledger, q: Request): Outcome
    requires q.RecordCapture?
  {
    if q.requestId !in s.intents then Reject(404, "INTENT_NOT_FOUND")
    else if !Truthy(q.orderId) || !Truthy(q.capturedAt) then Reject(400, "INVALID_BODY")
    else
      var i := s.intents[q.requestId];
      if i.capture.Some? then Reject(409, "CAPTURE_EXISTS")
      else if i.settlement.None? then Reject(409, "SETTLEMENT_NOT_RECORDED")
      else if Truthy(q.settlementTx) && i.settlement.value.settlementTx != q.settlementTx.value
      then Reject(409, "SETTLEMENT_MISMATCH")
      else
        var capture := Capture(q.orderId.value, q.capturedAt.value, i.settlement.value.settlementTx,
                               q.blockNumber.GetOr(i.settlement.value.blockNumber));
        Change(i.(capture := Some(capture), state := Captured), CaptureRecorded)
  }

  function RecordSpendRoute(s: Ledger, q: Request): Outcome
    requires q.RecordSpend?
  {
    if q.requestId !in s.intents then Reject(404, "INTENT_NOT_FOUND")
    else if !Truthy(q.merchantDomain) || !Truthy(q.orderTotal) || !Truthy(q.itemSku) || !Truthy(q.orderId)
            || !Truthy(q.observedAt)
    then Reject(400, "INVALID_BODY")
    else
      var spend := Spend(q.merchantDomain.value, q.orderTotal.value, q.itemSku.value, q.orderId.value, q.observedAt.value);
      Change(s.intents[q.requestId].(spend := Some(spend)), SpendRecorded)
  }

  /** The route of any mutating request. */
  function Route(s: Ledger, q: Request, now: Time, keccak: Keccak): Outcome {
    match q
    case CreateIntent(_, _, _, _, _) => CreateIntentRoute(s, q, keccak)
    case AttachChallenge(_, _) => AttachChallengeRoute(s, q, now)
    case ReserveNonce(_, _) => ReserveNonceRoute(s, q, now)
    case ReleaseNonce(_) => ReleaseNonceRoute(s, q)
    case PutPolicy(_, _) => PutPolicyRoute(s, q)
    case CreateEscalation(_, _, _, _, _, _) => CreateEscalationRoute(s, q, now)
    case ResolveEscalation(_, _, _) => ResolveEscalationRoute(s, q, now)
    case SetStandingApproval(_, _, _) => SetStandingApprovalRoute(q)
    case RecordDecision(_, _, _, _, _, _, _, _, _) => RecordDecisionRoute(s, q)
    case RecordSettlement(_, _, _, _, _) => RecordSettlementRoute(s, q)
    case RecordCapture(_, _, _, _, _) => RecordCaptureRoute(s, q)
    case RecordSpend(_, _, _, _, _, _) => RecordSpendRoute(s, q)
  }

  function Handle(s: Ledger, q: Request, now: Time, keccak: Keccak): Ledger {
    Apply(s, Route(s, q, now, keccak), now)
  }

  // ---- Reads -----------------------------------------------------------------------------

  /** The intents the rolling window counts. */
  predicate Counts(i: Intent, mandateId: string, from: Time) {
    && i.mandateId == mandateId
    && i.decision == Some(Signed) && i.decidedAt.Some? && i.challenge.Some?
    && i.decidedAt.value >= from
  }

  datatype Usage = Usage(spent: nat, cardCount: nat)

  /** What the first `k` intents add to the window. */
  function WindowOver(s: Ledger, mandateId: string, from: Time, k: nat): Usage
    requires k <= |s.order|
  {
    if k == 0 then Usage(0, 0) else
      var before := WindowOver(s, mandateId, from, k - 1);
      var id := s.order[k - 1];
      if id in s.intents && Counts(s.intents[id], mandateId, from)
      then Usage(before.spent + s.intents[id].challenge.value.amount, before.cardCount + 1)
      else before
  }

  function Window(s: Ledger, mandateId: string, from: Time): Usage {
    WindowOver(s, mandateId, from, |s.order|)
  }

  function StandingApprovalActive(s: Ledger, mandateId: string, merchantDomain: string, now: Time): bool {
    var key := ApprovalKey(mandateId, merchantDomain);
    key in s.approvals && s.approvals[key] > now / 1000
  }

  /** What GET /receipt reports that a verifier recomputes from. */
  datatype Receipt = Receipt(requestId: string, mandateId: string, policyHash: Option<string>, intent: string,
                             intentHash: string, merchantDomain: Option<string>, nonce: Option<string>,
                             validAfter: Option<int>, validBefore: Option<int>,
                             decision: Option<Decision>, decidedAt: Option<Time>)

  function ReceiptOf(i: Intent): Receipt {
    Receipt(i.requestId, i.mandateId, i.policyHash, i.instruction, i.instructionHash, i.merchantDomain,
            Present(i.nonce),
            if Truthy(i.nonce) then i.validAfter else None, if Truthy(i.nonce) then i.validBefore else None,
            i.decision, i.decidedAt)
  }
}
