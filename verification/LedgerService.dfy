/**
 * services/ledger-service/src/app.ts: the routes over the module-level store, in place. Each
 * mutating route is proved against its route on values (LedgerStore); the window route is a loop.
 */
module LedgerService {
  import opened Wrappers
  import opened Mandates
  import opened LedgerStore

  class Service {
    const keccak: Keccak
    var order: seq<string>
    var intents: map<string, Intent>
    var decisionLog: seq<LogEntry>
    var policies: map<string, PolicyRecord>
    var escalations: map<string, Escalation>
    var standingApprovals: map<string, int>
    var ledgerEventSeq: nat
    var emitted: seq<Event>

    constructor (keccak: Keccak)
      ensures this.keccak == keccak && State() == EMPTY
    {
      this.keccak := keccak;
      order, intents, decisionLog, policies := [], map[], [], map[];
      escalations, standingApprovals, ledgerEventSeq, emitted := map[], map[], 0, [];
    }

    /** The store as one value. */
    function State(): Ledger
      reads this
    {
      Ledger(order, intents, decisionLog, policies, escalations, standingApprovals, ledgerEventSeq, emitted)
    }

    method AppendEvent(kind: EventKind, at: Time, view: Option<IntentView>)
      modifies this
      ensures State() == Emit(old(State()), kind, at, view)
    {
      ledgerEventSeq := ledgerEventSeq + 1;
      emitted := emitted + [Event(ledgerEventSeq, kind, at, view)];
    }

    method PostIntent(q: Request, now: Time) returns (reply: Reply)
      requires q.CreateIntent?
      modifies this
      ensures var outcome := CreateIntentRoute(old(State()), q, keccak);
              State() == Apply(old(State()), outcome, now) && reply == ReplyTo(outcome)
    {
      if !Truthy(q.newId) || !Truthy(q.mandateId) || !Truthy(q.agentId) || !Truthy(q.instruction) || q.createdAt.None? {
        return Failed(400, "INVALID_BODY");
      }
      var id := q.newId.value;
      if id in intents {
        return Failed(409, "INTENT_EXISTS");
      }
      var hash := HashIntentInstruction(keccak, q.instruction.value);
      var record := Intent(id, q.mandateId.value, q.agentId.value, q.instruction.value, hash, q.createdAt.value,
                           None, None, None, None, false, None, None, None, None, None, None, None, None, None,
                           IntentCreated);
      order := order + [id];
      intents := intents[id := record];
      AppendEvent(IntentCreatedEvent, now, Some(IntentViewOf(intents[id])));
      return Sent(201);
    }

    method PostChallenge(q: Request, now: Time) returns (reply: Reply)
      requires q.AttachChallenge? && Keyed()
      modifies this
      ensures var outcome := AttachChallengeRoute(old(State()), q, now);
              State() == Apply(old(State()), outcome, now) && reply == ReplyTo(outcome)
    {
      var id := q.requestId;
      if id !in intents {
        return Failed(404, "INTENT_NOT_FOUND");
      }
      if q.challenge.None? {
        return Failed(400, "INVALID_BODY");
      }
      if intents[id].challenge.Some? {
        return Failed(409, "CHALLENGE_EXISTS");
      }
      intents := intents[id := intents[id].(challenge := q.challenge)];
      intents := intents[id := intents[id].(challengeAttachedAt := Some(now))];
      intents := intents[id := intents[id].(state := ChallengeAttached)];
      assert intents == old(intents)[id := intents[id]];
      AppendEvent(ChallengeAttachedEvent, now, Some(IntentViewOf(intents[id])));
      return Sent(200);
    }

    method PostNonce(q: Request, now: Time) returns (reply: Reply)
      requires q.ReserveNonce? && Keyed()
      modifies this
      ensures var outcome := ReserveNonceRoute(old(State()), q, now);
              State() == Apply(old(State()), outcome, now) && reply == ReplyTo(outcome)
    {
      var id := q.requestId;
      if id !in intents {
        return Failed(404, "INTENT_NOT_FOUND");
      }
      if !Truthy(q.nonce) {
        return Failed(400, "INVALID_BODY");
      }
      if Truthy(intents[id].nonce) && !intents[id].nonceReleased {
        return Failed(409, "NONCE_ALREADY_RESERVED");
      }
      intents := intents[id := intents[id].(nonce := q.nonce)];
      intents := intents[id := intents[id].(nonceReservedAt := Some(now))];
      intents := intents[id := intents[id].(nonceReleased := false)];
      intents := intents[id := intents[id].(state := NonceReserved)];
      assert intents == old(intents)[id := intents[id]];
      AppendEvent(NonceReservedEvent, now, Some(IntentViewOf(intents[id])));
      return Sent(200);
    }

    method PostReleaseNonce(q: Request, now: Time) returns (reply: Reply)
      requires q.ReleaseNonce? && Keyed()
      modifies this
      ensures var outcome := ReleaseNonceRoute(old(State()), q);
              State() == Apply(old(State()), outcome, now) && reply == ReplyTo(outcome)
    {
      var id := q.requestId;
      if id !in intents {
        return Failed(404, "INTENT_NOT_FOUND");
      }
      if intents[id].decision == Some(Signed) {
        return Failed(409, "NONCE_BURNED");
      }
      if !Truthy(intents[id].nonce) || intents[id].nonceReleased {
        return Failed(400, "NONCE_NOT_RESERVED");
      }
      intents := intents[id := intents[id].(nonceReleased := true)];
      intents := intents[id := intents[id].(nonce := None)];
      intents := intents[id := intents[id].(nonceReservedAt := None)];
      intents := intents[id := intents[id].(state := ChallengeAttached)];
      assert intents == old(intents)[id := intents[id]];
      AppendEvent(NonceReleasedEvent, now, Some(IntentViewOf(intents[id])));
      return Sent(200);
    }

    /** The rolling window: accumulates over every intent in insertion order. */
    method GetWindow(mandateId: string, windowSeconds: int, now: Time) returns (usage: Usage)
      ensures usage == Window(State(), mandateId, now - windowSeconds * 1000)
    {
      var windowStartedAt := now - windowSeconds * 1000;
      var spent: nat, cardCount: nat := 0, 0;
      for k := 0 to |order|
        invariant Usage(spent, cardCount) == WindowOver(State(), mandateId, windowStartedAt, k)
      {
        var id := order[k];
        if id in intents && Counts(intents[id], mandateId, windowStartedAt) {
          spent := spent + intents[id].challenge.value.amount;
          cardCount := cardCount + 1;
        }
      }
      return Usage(spent, cardCount);
    }

    method PutPolicyRecord(q: Request, now: Time) returns (reply: Reply)
      requires q.PutPolicy?
      modifies this
      ensures var outcome := PutPolicyRoute(old(State()), q);
              State() == Apply(old(State()), outcome, now) && reply == ReplyTo(outcome)
    {
      if q.policy.None? {
        return Failed(400, "INVALID_BODY");
      }
      var version := 0;
      if q.mandate in policies {
        version := policies[q.mandate].policyVersion;
      }
      policies := policies[q.mandate := PolicyRecord(q.policy.value, version + 1)];
      AppendEvent(PolicyPut, now, None);
      return Sent(200);
    }

    method PostEscalation(q: Request, now: Time) returns (reply: Reply)
      requires q.CreateEscalation?
      modifies this
      ensures var outcome := CreateEscalationRoute(old(State()), q, now);
              State() == Apply(old(State()), outcome, now) && reply == ReplyTo(outcome)
    {
      if !Truthy(q.newId) || !Truthy(q.mandateId) || q.reason.None? || !Truthy(q.approvalUrl)
         || q.ttlSeconds.None? || q.ttlSeconds.value == 0 {
        return Failed(400, "INVALID_BODY");
      }
      var id := q.newId.value;
      if id in escalations {
        return Sent(200);
      }
      var expiresAt := now / 1000 + q.ttlSeconds.value;
      escalations := escalations[id := Escalation(id, q.mandateId.value, q.reason.value, q.approvalUrl.value, now,
                                                  expiresAt, q.ttlSeconds.value, false, None, None, None,
                                                  q.merchantDomain)];
      AppendEvent(EscalationCreated, now, None);
      return Sent(201);
    }

    method PutEscalation(q: Request, now: Time) returns (reply: Reply)
      requires q.ResolveEscalation? && Keyed()
      modifies this
      ensures var outcome := ResolveEscalationRoute(old(State()), q, now);
              State() == Apply(old(State()), outcome, now) && reply == ReplyTo(outcome)
    {
      var id := q.requestId;
      if id !in escalations {
        return Failed(404, "ESCALATION_NOT_FOUND");
      }
      if q.verdict.None? {
        return Failed(400, "INVALID_BODY");
      }
      escalations := escalations[id := escalations[id].(resolved := true)];
      escalations := escalations[id := escalations[id].(decision := q.verdict)];
      escalations := escalations[id := escalations[id].(approvedBy := q.approvedBy)];
      escalations := escalations[id := escalations[id].(resolvedAt := Some(now))];
      assert escalations == old(escalations)[id := escalations[id]];
      AppendEvent(EscalationResolved, now, None);
      return Sent(200);
    }

    method PostStandingApproval(q: Request, now: Time) returns (reply: Reply)
      requires q.SetStandingApproval?
      modifies this
      ensures var outcome := SetStandingApprovalRoute(q);
              State() == Apply(old(State()), outcome, now) && reply == ReplyTo(outcome)
    {
      if !Truthy(q.mandateId) || !Truthy(q.merchantDomain) || q.expiresAt.None? || q.expiresAt.value == 0 {
        return Failed(400, "INVALID_BODY");
      }
      var key := ApprovalKey(q.mandateId.value, q.merchantDomain.value);
      standingApprovals := standingApprovals[key := q.expiresAt.value];
      AppendEvent(StandingApprovalSet, now, None);
      return Sent(200);
    }

    method PostDecision(q: Request, now: Time) returns (reply: Reply)
      requires q.RecordDecision? && Keyed()
      modifies this
      ensures var outcome := RecordDecisionRoute(old(State()), q);
              State() == Apply(old(State()), outcome, now) && reply == ReplyTo(outcome)
    {
      if !Truthy(q.newId) || q.decision.None? || q.decidedAt.None? {
        return Failed(400, "INVALID_BODY");
      }
      var id := q.newId.value;
      if id !in intents {
        return Failed(404, "INTENT_NOT_FOUND");
      }
      var sequence := |decisionLog| + 1;
      decisionLog := decisionLog + [LogEntry(sequence, id, q.decision.value, q.check, q.detail, q.decidedAt.value)];
      intents := intents[id := intents[id].(decision := q.decision)];
      intents := intents[id := intents[id].(decidedAt := q.decidedAt)];
      hide IntentViewOf;
      if q.decision.value.Signed? {
        SignIntent(id, q);
      }
      assert intents == old(intents)[id := intents[id]];
      AppendEvent(DecisionRecorded, now, Some(IntentViewOf(intents[id])));
      return Sent(200);
    }

    /** What a signed decision adds to the record. */
    method SignIntent(id: string, q: Request)
      requires q.RecordDecision? && id in intents
      modifies this`intents
      ensures intents == old(intents)[id := old(intents[id]).(
                           state := SignedState, policyHash := q.policyHash, merchantDomain := q.merchantDomain,
                           validAfter := q.validAfter, validBefore := q.validBefore)]
    {
      intents := intents[id := intents[id].(state := SignedState, policyHash := q.policyHash)];
      intents := intents[id := intents[id].(merchantDomain := q.merchantDomain)];
      intents := intents[id := intents[id].(validAfter := q.validAfter, validBefore := q.validBefore)];
    }

    method PostSettlement(q: Request, now: Time) returns (reply: Reply)
      requires q.RecordSettlement? && Keyed()
      modifies this
      ensures var outcome := RecordSettlementRoute(old(State()), q);
              State() == Apply(old(State()), outcome, now) && reply == ReplyTo(outcome)
    {
      var id := q.requestId;
      if id !in intents {
        return Failed(404, "INTENT_NOT_FOUND");
      }
      if !Truthy(q.settlementTx) || q.blockNumber.None? || !Truthy(q.cardOpaqueId) {
        return Failed(400, "INVALID_BODY");
      }
      if q.rawToolResultHash.Some? && !IsHash32(q.rawToolResultHash.value) {
        return Failed(400, "INVALID_BODY");
      }
      var settlement := Settlement(q.settlementTx.value, q.blockNumber.value, q.cardOpaqueId.value, q.rawToolResultHash);
      intents := intents[id := intents[id].(settlement := Some(settlement))];
      intents := intents[id := intents[id].(state := Settled)];
      assert intents == old(intents)[id := intents[id]];
      AppendEvent(SettlementRecorded, now, Some(IntentViewOf(intents[id])));
      return Sent(200);
    }

    method PostCapture(q: Request, now: Time) returns (reply: Reply)
      requires q.RecordCapture? && Keyed()
      modifies this
      ensures var outcome := RecordCaptureRoute(old(State()), q);
              State() == Apply(old(State()), outcome, now) && reply == ReplyTo(outcome)
    {
      var id := q.requestId;
      if id !in intents {
        return Failed(404, "INTENT_NOT_FOUND");
      }
      if !Truthy(q.orderId) || !Truthy(q.capturedAt) {
        return Failed(400, "INVALID_BODY");
      }
      if intents[id].capture.Some? {
        return Failed(409, "CAPTURE_EXISTS");
      }
      if intents[id].settlement.None? {
        return Failed(409, "SETTLEMENT_NOT_RECORDED");
      }
      var settlement := intents[id].settlement.value;
      if Truthy(q.settlementTx) && settlement.settlementTx != q.settlementTx.value {
        return Failed(409, "SETTLEMENT_MISMATCH");
      }
      var capture := Capture(q.orderId.value, q.capturedAt.value, settlement.settlementTx,
                             q.blockNumber.GetOr(settlement.blockNumber));
      intents := intents[id := intents[id].(capture := Some(capture))];
      intents := intents[id := intents[id].(state := Captured)];
      assert intents == old(intents)[id := intents[id]];
      AppendEvent(CaptureRecorded, now, Some(IntentViewOf(intents[id])));
      return Sent(200);
    }

    method PostSpend(q: Request, now: Time) returns (reply: Reply)
      requires q.RecordSpend? && Keyed()
      modifies this
      ensures var outcome := RecordSpendRoute(old(State()), q);
              State() == Apply(old(State()), outcome, now) && reply == ReplyTo(outcome)
    {
      var id := q.requestId;
      if id !in intents {
        return Failed(404, "INTENT_NOT_FOUND");
      }
      if !Truthy(q.merchantDomain) || !Truthy(q.orderTotal) || !Truthy(q.itemSku) || !Truthy(q.orderId)
         || !Truthy(q.observedAt) {
        return Failed(400, "INVALID_BODY");
      }
      var spend := Spend(q.merchantDomain.value, q.orderTotal.value, q.itemSku.value, q.orderId.value, q.observedAt.value);
      intents := intents[id := intents[id].(spend := Some(spend))];
      AppendEvent(SpendRecorded, now, Some(IntentViewOf(intents[id])));
      return Sent(200);
    }

    /** Every record is stored under its own id, as LedgerInvariants proves of every reachable store. */
    ghost predicate Keyed()
      reads this
    {
      KeyedStore(State())
    }
  }

  ghost predicate KeyedStore(s: Ledger) {
    && (forall id :: id in s.intents ==> s.intents[id].requestId == id)
    && (forall id :: id in s.escalations ==> s.escalations[id].requestId == id)
  }
}
