/**
 * What every handler of the policy service rests on, in every run: what it read from the ledger at
 * some moment of the run, and what it makes of that, up to its reply, its record and its signature.
 */
module Evidence {
  import opened Wrappers
  import opened Text
  import opened Mandates
  import opened LedgerStore
  import opened LedgerInvariants
  import opened PolicyChecks
  import opened SignerService
  import opened SigningInvariant
  import opened SigningAuthority
  import P = SigningProtocol

  // ---- What was there to be read ------------------------------------------------------------------

  /** The intent, policy or escalation was on the ledger, as it is given, in one of these worlds. */
  ghost predicate HeldIntent(past: set<World>, id: string, i: Intent) {
    exists w :: w in past && id in w.ledger.intents && w.ledger.intents[id] == i
  }

  ghost predicate MissingIntent(past: set<World>, id: string) {
    exists w :: w in past && id !in w.ledger.intents
  }

  ghost predicate HeldPolicy(past: set<World>, id: string, m: Mandate) {
    exists w :: w in past && id in w.ledger.policies && w.ledger.policies[id].policy == m
  }

  ghost predicate MissingPolicy(past: set<World>, id: string) {
    exists w :: w in past && id !in w.ledger.policies
  }

  ghost predicate MissingEscalation(past: set<World>, id: string) {
    exists w :: w in past && id !in w.ledger.escalations
  }

  ghost predicate HeldEscalation(past: set<World>, id: string, e: Escalation) {
    exists w :: w in past && id in w.ledger.escalations && w.ledger.escalations[id] == e
  }

  /** The window of the mandate's seconds before that moment. */
  ghost predicate HeldWindow(past: set<World>, id: string, m: Mandate, usage: Usage) {
    exists w :: w in past && usage == Window(w.ledger, id, w.clock - m.windowSeconds * 1000)
  }

  /** Whether a standing approval for the mandate's merchant was then in force. */
  ghost predicate HeldApproval(past: set<World>, id: string, domain: string, active: bool) {
    exists w :: w in past && (active <==> InForce(w, id + "::" + Lower(domain)))
  }

  predicate InForce(w: World, key: string) {
    key in w.ledger.approvals && w.ledger.approvals[key] > w.clock / 1000
  }

  ghost predicate At(past: set<World>, now: Time) {
    exists w :: w in past && w.clock == now
  }

  // ---- A payment ------------------------------------------------------------------------------------

  /** What a payment read, and when it was checked. */
  datatype Reading = Reading(intent: Intent, mandate: Mandate, usage: Usage, registry: Option<Registry>, now: Time)

  ghost predicate WasRead(past: set<World>, call: P.Call, r: Reading)
    requires call.Payment?
  {
    && HeldIntent(past, call.requestId, r.intent) && HeldPolicy(past, call.mandateId, r.mandate)
    && HeldWindow(past, call.mandateId, r.mandate, r.usage) && At(past, r.now)
  }

  /** What the ladder of checks is given. */
  function Ladder(call: P.Call, r: Reading, setup: P.Setup): CheckContext
    requires call.Payment?
  {
    CheckContext(r.now / 1000, r.mandate, r.registry, call.challenge, call.requestedAmount, r.usage, r.intent.createdAt,
                 r.intent.challengeAttachedAt, setup.maxSaneValiditySeconds, setup.keccak)
  }

  ghost predicate ClearedBy(past: set<World>, call: P.Call, r: Reading, setup: P.Setup)
    requires call.Payment?
  {
    WasRead(past, call, r) && Cleared(Ladder(call, r, setup))
  }

  ghost predicate StoppedBy(past: set<World>, call: P.Call, r: Reading, k: nat, setup: P.Setup)
    requires call.Payment?
  {
    WasRead(past, call, r) && FirstFails(Ladder(call, r, setup), k)
  }

  /** The first check that failed was the k-th, on what the payment read. */
  ghost predicate StoppedAt(past: set<World>, call: P.Call, k: nat, setup: P.Setup)
    requires call.Payment?
  {
    exists r :: StoppedBy(past, call, r, k, setup)
  }

  /** All checks passed, but there was no standing approval. */
  ghost predicate PassedWithoutApproval(past: set<World>, call: P.Call, setup: P.Setup)
    requires call.Payment?
  {
    (exists r :: ClearedBy(past, call, r, setup)) && HeldApproval(past, call.mandateId, call.domain, false)
  }

  /** Why a payment is put to the human. */
  ghost predicate Escalates(past: set<World>, call: P.Call, reason: EscalationReason, check: string, setup: P.Setup) {
    call.Payment? &&
    match reason
    case WindowBudgetExceeded => check == "check6_window_budget" && StoppedAt(past, call, BUDGET, setup)
    case IntentMismatch => check == "check9_intent_match" && PassedWithoutApproval(past, call, setup)
  }

  /** Why a payment is refused before it is signed for. */
  ghost predicate Refuses(past: set<World>, call: P.Call, check: string, setup: P.Setup) {
    call.Payment? &&
    ( || (check == "precondition_intent_exists" && MissingIntent(past, call.requestId))
      || (check == "precondition_merchant_domain" && Trim(call.domain) == "")
      || exists k: nat :: k < 8 && k != BUDGET && check == CHECK_NAMES[k] && StoppedAt(past, call, k, setup))
  }

  /** The item fits the mandate, or a standing approval stands in for that. */
  ghost predicate ItemAccepted(past: set<World>, call: P.Call, m: Mandate)
    requires call.Payment?
  {
    ItemFits(m, call.domain, true) || HeldApproval(past, call.mandateId, call.domain, true)
  }

  ghost predicate PaysBy(past: set<World>, call: P.Call, job: P.Job, r: Reading, setup: P.Setup)
    requires call.Payment?
  {
    && ClearedBy(past, call, r, setup) && ItemAccepted(past, call, r.mandate)
    && job.mandate == r.mandate && job.mandateId == call.mandateId
    && job.challenge == call.challenge && job.amount == call.requestedAmount && job.now == r.now / 1000
    && job.intentHash == r.intent.instructionHash && job.domain == call.domain
  }

  // ---- A resolution -----------------------------------------------------------------------------------

  /** The escalation a resolution read was open. */
  ghost predicate Opened(past: set<World>, id: string, e: Escalation) {
    HeldEscalation(past, id, e) && !e.resolved
  }

  ghost predicate InTime(past: set<World>, e: Escalation) {
    exists w :: w in past && w.clock / 1000 <= e.expiresAt
  }

  ghost predicate TooLate(past: set<World>, e: Escalation) {
    exists w :: w in past && w.clock / 1000 > e.expiresAt
  }

  /** The owner of the escalation's mandate signed this verdict on the request. */
  ghost predicate OwnerSaid(past: set<World>, call: P.Call, e: Escalation, m: Mandate, verdict: Verdict, setup: P.Setup)
    requires call.Resolve?
  {
    && Opened(past, call.requestId, e) && InTime(past, e) && HeldPolicy(past, e.mandateId, m)
    && call.verdict == Some(verdict) && call.approvedBy != "" && Lower(call.approvedBy) == Lower(m.owner)
    && VerifyEscalationSignature(setup.verifyMessage, call.requestId, e.mandateId, verdict, call.signature, m.owner)
  }

  ghost predicate ApprovesBy(past: set<World>, call: P.Call, job: P.Job, e: Escalation, i: Intent, setup: P.Setup)
    requires call.Resolve?
  {
    && OwnerSaid(past, call, e, job.mandate, Approve, setup) && HeldIntent(past, call.requestId, i)
    && job.mandateId == e.mandateId && i.challenge == Some(job.challenge) && job.amount == job.challenge.amount
    && job.intentHash == i.instructionHash && e.merchantDomain == Some(job.domain)
    && exists now :: At(past, now) && job.now == now / 1000
  }

  /** Why a resolution ends in a denial, before anything is signed. */
  ghost predicate Denies(past: set<World>, call: P.Call, check: string, setup: P.Setup) {
    call.Resolve? &&
    ( || (check == "escalation_expired" && exists e :: Opened(past, call.requestId, e) && TooLate(past, e))
      || (check == "escalation_denied" && exists e, m :: OwnerSaid(past, call, e, m, Deny, setup))
      || (check == "precondition_merchant_domain" &&
            exists e, m :: OwnerSaid(past, call, e, m, Approve, setup)
                           && (e.merchantDomain.None? || Trim(e.merchantDomain.value) == "")))
  }

  /** The escalation was open, and its mandate's policy was this. */
  ghost predicate OwnedBy(past: set<World>, call: P.Call, e: Escalation, m: Mandate) {
    Opened(past, call.requestId, e) && HeldPolicy(past, e.mandateId, m)
  }

  /** Why a handler that has not come to sign answers with an error. */
  ghost predicate Errs(past: set<World>, call: P.Call, code: string, setup: P.Setup) {
    var id := call.requestId;
    if call.Payment? then
      || (code == "INVALID_BODY" && (id == "" || call.mandateId == ""))
      || (code == "POLICY_NOT_FOUND" && MissingPolicy(past, call.mandateId))
    else
      || (code == "INVALID_BODY" && call.verdict.None?)
      || (code == "ESCALATION_NOT_FOUND" && MissingEscalation(past, id))
      || (code == "ESCALATION_ALREADY_RESOLVED" && exists e :: HeldEscalation(past, id, e) && e.resolved)
      || (code == "ESCALATION_EXPIRED" && Denies(past, call, "escalation_expired", setup))
      || (code == "POLICY_NOT_FOUND" && exists e :: Opened(past, id, e) && MissingPolicy(past, e.mandateId))
      || (code == "NOT_MANDATE_OWNER" &&
            exists e, m :: OwnedBy(past, call, e, m) && (call.approvedBy == "" || Lower(call.approvedBy) != Lower(m.owner)))
      || (code == "ESCALATION_SIGNATURE_REQUIRED" && call.signature == "")
      || (code == "ESCALATION_SIGNATURE_INVALID" && call.signature != "" &&
            exists e, m :: OwnedBy(past, call, e, m)
                           && (call.verdict.None? || !VerifyEscalationSignature(setup.verifyMessage, id, e.mandateId,
                                                                                call.verdict.value, call.signature, m.owner)))
      || (code == "CHALLENGE_NOT_FOUND" && (MissingIntent(past, id) || exists i :: HeldIntent(past, id, i) && i.challenge.None?))
      || (code == "MERCHANT_DOMAIN_REQUIRED" && Denies(past, call, "precondition_merchant_domain", setup))
  }

  // ---- A handler ----------------------------------------------------------------------------------------

  /**
   * What a handler has the signer sign: for a payment, what it read and was cleared on; for an
   * approval, the stored challenge, on the owner's word. The policy hash is that of the mandate read.
   */
  ghost predicate Justified(past: set<World>, call: P.Call, job: P.Job, setup: P.Setup) {
    && job.policyHash == HashPolicy(setup.keccak, job.mandate) && HeldPolicy(past, job.mandateId, job.mandate)
    && if call.Payment? then exists r :: PaysBy(past, call, job, r, setup)
       else exists e, i :: ApprovesBy(past, call, job, e, i, setup)
  }

  ghost predicate AnswerRead(h: Handler, past: set<World>) {
    var id := h.call.requestId;
    h.answer.Some? ==>
      match h.answer.value
      case IntentRead(i) => if i.Some? then HeldIntent(past, id, i.value) else MissingIntent(past, id)
      case PolicyRead(p) =>
        (match h.point
         case AwaitPolicy(_) =>
           h.call.Payment? ==>
             if p.Some? then HeldPolicy(past, h.call.mandateId, p.value.policy) else MissingPolicy(past, h.call.mandateId)
         case AwaitOwnerPolicy(e) =>
           if p.Some? then HeldPolicy(past, e.mandateId, p.value.policy) else MissingPolicy(past, e.mandateId)
         case _ => true)
      case WindowRead(usage) =>
        h.call.Payment? && h.point.AwaitWindow? ==> HeldWindow(past, h.call.mandateId, h.point.mandate, usage)
      case ApprovalRead(active) => h.call.Payment? ==> HeldApproval(past, h.call.mandateId, h.call.domain, active)
      case EscalationRead(e) => if e.Some? then HeldEscalation(past, id, e.value) else MissingEscalation(past, id)
      case Written(_) => true
  }

  ghost predicate PaymentStands(h: Handler, past: set<World>, setup: P.Setup)
    requires h.call.Payment?
  {
    var call := h.call;
    match h.point
    case AwaitIntent => true
    case AwaitPolicy(i) => HeldIntent(past, call.requestId, i) && Trim(call.domain) != ""
    case AwaitWindow(i, m) => HeldIntent(past, call.requestId, i) && HeldPolicy(past, call.mandateId, m)
    case AwaitRegistry(i, m, usage) =>
      HeldIntent(past, call.requestId, i) && HeldPolicy(past, call.mandateId, m) && HeldWindow(past, call.mandateId, m, usage)
    case AwaitApprovalRead(i, m, at) =>
      exists r :: ClearedBy(past, call, r, setup) && r.intent == i && r.mandate == m && at == r.now / 1000
    case AwaitEscalation(reason, check) => Escalates(past, call, reason, check, setup)
    case AwaitEscalatedRecord(reason, check, at) => Escalates(past, call, reason, check, setup) && At(past, at)
    case AwaitReservation(approved) => approved.None? && h.job.Some?
    case AwaitSigner(approved) => approved.None? && h.job.Some?
    case AwaitRelease(approved, _) => approved.None? && h.job.Some?
    case AwaitSignedRecord(approved, at) => approved.None? && h.job.Some? && At(past, at)
    case AwaitRefusedRecord(check, at, reply) =>
      && At(past, at)
      && if reply.ErrorReply? then check == "signer_refused" && h.job.Some?
         else reply == P.RefusedReply(check) && Refuses(past, call, check, setup)
    case Finished(reply) =>
      (match reply
       case RefusedReply(check) => Refuses(past, call, check, setup)
       case EscalatedReply(reason) => exists check :: Escalates(past, call, reason, check, setup)
       case ErrorReply(code) => h.job.Some? || Errs(past, call, code, setup)
       case _ => true)
    case _ => false
  }

  ghost predicate ApprovedFrom(h: Handler, approved: Option<Escalation>, past: set<World>) {
    h.job.Some? && approved.Some? && HeldEscalation(past, h.call.requestId, approved.value)
    && h.job.value.mandateId == approved.value.mandateId
  }

  /** What a resolution that does not sign answers. */
  ghost predicate DeniesWith(h: Handler, check: string, reply: P.PolicyReply, past: set<World>, setup: P.Setup) {
    if check == "signer_refused" then h.job.Some? && reply.ErrorReply?
    else
      && Denies(past, h.call, check, setup)
      && (check == "escalation_denied" ==> reply == P.RefusedReply(check))
      && (check == "escalation_expired" ==> reply == P.ErrorReply("ESCALATION_EXPIRED"))
      && (check == "precondition_merchant_domain" ==> reply == P.ErrorReply("MERCHANT_DOMAIN_REQUIRED"))
  }

  ghost predicate ResolveStands(h: Handler, past: set<World>, setup: P.Setup)
    requires h.call.Resolve?
  {
    var call := h.call;
    match h.point
    case AwaitEscalationRead => true
    case AwaitOwnerPolicy(e) => Opened(past, call.requestId, e) && InTime(past, e)
    case AwaitVerification(e, m) =>
      && Opened(past, call.requestId, e) && InTime(past, e) && HeldPolicy(past, e.mandateId, m)
      && call.approvedBy != "" && Lower(call.approvedBy) == Lower(m.owner) && call.signature != ""
    case AwaitStoredIntent(e, m) => OwnerSaid(past, call, e, m, Approve, setup)
    case AwaitReservation(approved) => ApprovedFrom(h, approved, past)
    case AwaitSigner(approved) => ApprovedFrom(h, approved, past)
    case AwaitRelease(approved, _) => ApprovedFrom(h, approved, past)
    case AwaitApproveRecord(e) => ApprovedFrom(h, Some(e), past)
    case AwaitSignedRecord(approved, at) => ApprovedFrom(h, approved, past) && At(past, at)
    case AwaitStandingApproval(e, at) =>
      && ApprovedFrom(h, Some(e), past) && call.merchantWindow && e.reason.IntentMismatch?
      && exists now :: At(past, now) && at == now / 1000 + h.job.value.mandate.windowSeconds
    case AwaitDenial(approver, check, reply) =>
      && DeniesWith(h, check, reply, past, setup)
      && approver == (if check == "escalation_expired" then None else Some(call.approvedBy))
    case AwaitRefusedRecord(check, at, reply) => DeniesWith(h, check, reply, past, setup) && At(past, at)
    case Finished(reply) =>
      (match reply
       case RefusedReply(check) => check == "escalation_denied" && Denies(past, call, check, setup)
       case EscalatedReply(_) => false
       case ErrorReply(code) => h.job.Some? || Errs(past, call, code, setup)
       case _ => true)
    case _ => false
  }

  /** A handler stands where it is for what it read. */
  ghost predicate Stands(h: Handler, past: set<World>, setup: P.Setup) {
    && (h.job.Some? ==> Justified(past, h.call, h.job.value, setup)) && AnswerRead(h, past)
    && if h.call.Payment? then PaymentStands(h, past, setup) else ResolveStands(h, past, setup)
  }

  // ---- More worlds never take a reason away -----------------------------------------------------------

  lemma MoreHeld(past: set<World>, more: set<World>)
    requires past <= more
    ensures forall id, i :: HeldIntent(past, id, i) ==> HeldIntent(more, id, i)
    ensures forall id :: MissingIntent(past, id) ==> MissingIntent(more, id)
    ensures forall id, m :: HeldPolicy(past, id, m) ==> HeldPolicy(more, id, m)
    ensures forall id, e :: HeldEscalation(past, id, e) ==> HeldEscalation(more, id, e)
    ensures forall id :: MissingPolicy(past, id) ==> MissingPolicy(more, id)
    ensures forall id :: MissingEscalation(past, id) ==> MissingEscalation(more, id)
    ensures forall now :: At(past, now) ==> At(more, now)
    ensures forall e :: InTime(past, e) ==> InTime(more, e)
    ensures forall e :: TooLate(past, e) ==> TooLate(more, e)
  {
  }

  lemma MoreWindows(past: set<World>, more: set<World>)
    requires past <= more
    ensures forall id, m, usage :: HeldWindow(past, id, m, usage) ==> HeldWindow(more, id, m, usage)
    ensures forall id, domain, active :: HeldApproval(past, id, domain, active) ==> HeldApproval(more, id, domain, active)
  {
    hide Window;
    hide Lower;
    hide InForce;
  }

  lemma MoreReadings(past: set<World>, more: set<World>, call: P.Call, setup: P.Setup)
    requires past <= more && call.Payment?
    ensures forall r :: ClearedBy(past, call, r, setup) ==> ClearedBy(more, call, r, setup)
    ensures forall r, k :: StoppedBy(past, call, r, k, setup) ==> StoppedBy(more, call, r, k, setup)
    ensures forall m :: ItemAccepted(past, call, m) ==> ItemAccepted(more, call, m)
    ensures forall job, r :: PaysBy(past, call, job, r, setup) ==> PaysBy(more, call, job, r, setup)
  {
    hide HeldIntent;
    hide HeldPolicy;
    hide HeldWindow;
    hide HeldApproval;
    hide At;
    hide Cleared;
    hide FirstFails;
    hide Ladder;
    hide ItemFits;
    MoreHeld(past, more);
    MoreWindows(past, more);
  }

  lemma MoreVerdicts(past: set<World>, more: set<World>, call: P.Call, setup: P.Setup)
    requires past <= more && call.Resolve?
    ensures forall e, m, v :: OwnerSaid(past, call, e, m, v, setup) ==> OwnerSaid(more, call, e, m, v, setup)
    ensures forall job, e, i :: ApprovesBy(past, call, job, e, i, setup) ==> ApprovesBy(more, call, job, e, i, setup)
    ensures forall e :: Opened(past, call.requestId, e) ==> Opened(more, call.requestId, e)
  {
    hide HeldIntent;
    hide HeldPolicy;
    hide HeldEscalation;
    hide At;
    hide InTime;
    hide VerifyEscalationSignature;
    hide Lower;
    MoreHeld(past, more);
  }

  lemma MoreReasons(past: set<World>, more: set<World>, call: P.Call, setup: P.Setup)
    requires past <= more
    ensures forall reason, check :: Escalates(past, call, reason, check, setup) ==> Escalates(more, call, reason, check, setup)
    ensures forall check :: Refuses(past, call, check, setup) ==> Refuses(more, call, check, setup)
    ensures forall check :: Denies(past, call, check, setup) ==> Denies(more, call, check, setup)
    ensures forall job :: Justified(past, call, job, setup) ==> Justified(more, call, job, setup)
  {
    hide HeldApproval;
    hide HeldPolicy;
    hide MissingIntent;
    hide TooLate;
    hide Opened;
    hide OwnerSaid;
    hide ApprovesBy;
    hide PaysBy;
    hide ClearedBy;
    hide StoppedBy;
    hide HashPolicy;
    hide Trim;
    MoreHeld(past, more);
    MoreWindows(past, more);
    if call.Payment? {
      MoreReadings(past, more, call, setup);
    } else {
      MoreVerdicts(past, more, call, setup);
    }
  }

  lemma MoreOpened(past: set<World>, more: set<World>, call: P.Call)
    requires past <= more
    ensures forall e :: Opened(past, call.requestId, e) ==> Opened(more, call.requestId, e)
    ensures forall e, m :: OwnedBy(past, call, e, m) ==> OwnedBy(more, call, e, m)
  {
    hide HeldPolicy;
    hide HeldEscalation;
    MoreHeld(past, more);
  }

  lemma MoreErrors(past: set<World>, more: set<World>, call: P.Call, setup: P.Setup)
    requires past <= more
    ensures forall code :: Errs(past, call, code, setup) ==> Errs(more, call, code, setup)
  {
    hide HeldIntent;
    hide MissingIntent;
    hide HeldPolicy;
    hide MissingPolicy;
    hide HeldEscalation;
    hide MissingEscalation;
    hide Denies;
    hide Opened;
    hide OwnedBy;
    hide VerifyEscalationSignature;
    hide Lower;
    MoreHeld(past, more);
    MoreOpened(past, more, call);
    MoreReasons(past, more, call, setup);
  }

  lemma MoreStands(h: Handler, past: set<World>, more: set<World>, setup: P.Setup)
    requires Stands(h, past, setup) && past <= more
    ensures Stands(h, more, setup)
  {
    hide HeldIntent;
    hide HeldPolicy;
    hide HeldEscalation;
    hide HeldWindow;
    hide HeldApproval;
    hide MissingIntent;
    hide MissingPolicy;
    hide MissingEscalation;
    hide Errs;
    hide At;
    hide InTime;
    hide Escalates;
    hide Refuses;
    hide Denies;
    hide Justified;
    hide OwnerSaid;
    hide ClearedBy;
    hide Trim;
    hide Lower;
    MoreHeld(past, more);
    MoreWindows(past, more);
    MoreReasons(past, more, h.call, setup);
    MoreErrors(past, more, h.call, setup);
    if h.call.Payment? {
      MoreReadings(past, more, h.call, setup);
    } else {
      MoreVerdicts(past, more, h.call, setup);
    }
  }

  // ---- A payment goes on --------------------------------------------------------------------------------

  lemma PaymentReadsStand(h: Handler, past: set<World>, env: P.Env, now: Time, setup: P.Setup)
    requires Stands(h, past, setup) && h.call.Payment? && At(past, now) && !P.InSigning(h.point)
    requires !h.point.AwaitRegistry? && !(h.point.AwaitApprovalRead? && h.answer.Some? && h.answer.value.ApprovalRead?)
    ensures Stands(P.ResumePayment(h, env, now, setup).(answer := None), past, setup)
  {
    hide HeldIntent;
    hide HeldPolicy;
    hide HeldEscalation;
    hide HeldWindow;
    hide HeldApproval;
    hide MissingIntent;
    hide At;
    hide Escalates;
    hide StoppedAt;
    hide Justified;
    hide ClearedBy;
    hide Trim;
  }

  lemma LadderStands(h: Handler, past: set<World>, env: P.Env, now: Time, setup: P.Setup)
    requires Stands(h, past, setup) && h.call.Payment? && At(past, now) && h.point.AwaitRegistry?
    ensures Stands(P.ResumePayment(h, env, now, setup).(answer := None), past, setup)
  {
    hide HeldIntent;
    hide HeldPolicy;
    hide HeldWindow;
    hide HeldApproval;
    hide MissingIntent;
    hide At;
    hide Justified;
    hide FirstFailure;
    hide FirstFails;
    hide Cleared;
    hide Trim;
    var r := Reading(h.point.intent, h.point.mandate, h.point.usage, env.registry, now);
    var c := Ladder(h.call, r, setup);
    assert WasRead(past, h.call, r);
    assert c == P.Context(h, r.intent, r.mandate, r.usage, r.registry, now, setup);
    var next := P.ResumePayment(h, env, now, setup).(answer := None);
    hide Ladder;
    hide P.Context;
    hide WasRead;
    match FirstFailure(c) {
      case None =>
        ChecksPassExactlyWhenCleared(c);
        assert ClearedBy(past, h.call, r, setup);
      case Some((k, f)) =>
        LadderVerdict(c, k);
        assert StoppedBy(past, h.call, r, k, setup);
        assert StoppedAt(past, h.call, k, setup);
        assert k == BUDGET ==> CHECK_NAMES[k] == "check6_window_budget";
        hide StoppedAt;
    }
  }

  lemma ItemStands(h: Handler, past: set<World>, env: P.Env, now: Time, setup: P.Setup)
    requires Stands(h, past, setup) && h.call.Payment? && h.point.AwaitApprovalRead?
    requires h.answer.Some? && h.answer.value.ApprovalRead?
    ensures Stands(P.ResumePayment(h, env, now, setup).(answer := None), past, setup)
  {
    hide HeldIntent;
    hide HeldPolicy;
    hide HeldWindow;
    hide HeldApproval;
    hide At;
    hide Cleared;
    hide Ladder;
    hide Check9IntentMatch;
    hide ItemFits;
    hide BuildCommitmentNonce;
    hide HashPolicy;
    var AwaitApprovalRead(i, m, at) := h.point;
    var active := h.answer.value.active;
    ItemVerdict(m, h.call.domain, active, env.matches);
    MatchedFits(m, h.call.domain, env.matches);
    var r :| ClearedBy(past, h.call, r, setup) && r.intent == i && r.mandate == m && at == r.now / 1000;
    var next := P.ResumePayment(h, env, now, setup).(answer := None);
    if next.point.AwaitReservation? {
      assert PaysBy(past, h.call, next.job.value, r, setup);
    }
    hide PaysBy;
  }

  lemma MatchedFits(m: Mandate, domain: string, matches: bool)
    ensures ItemFits(m, domain, matches) ==> ItemFits(m, domain, true)
  {
  }

  // ---- A resolution goes on -----------------------------------------------------------------------------

  lemma EscalationReadStands(h: Handler, past: set<World>, env: P.Env, now: Time, setup: P.Setup)
    requires Stands(h, past, setup) && h.call.Resolve? && At(past, now) && h.point.AwaitEscalationRead?
    ensures Stands(P.ResumeResolve(h, env, now, setup).(answer := None), past, setup)
  {
    hide HeldIntent;
    hide HeldPolicy;
    hide HeldEscalation;
    hide MissingIntent;
    hide Justified;
    hide OwnerSaid;
    hide Lower;
    if h.answer.Some? && h.answer.value.EscalationRead? && h.answer.value.escalation.Some? {
      var e := h.answer.value.escalation.value;
      assert now / 1000 > e.expiresAt ==> TooLate(past, e);
      assert now / 1000 <= e.expiresAt ==> InTime(past, e);
      hide TooLate;
      hide InTime;
      assert !e.resolved ==> Opened(past, h.call.requestId, e);
    }
    hide At;
    hide Opened;
  }

  lemma OwnerPolicyStands(h: Handler, past: set<World>, env: P.Env, now: Time, setup: P.Setup)
    requires Stands(h, past, setup) && h.call.Resolve? && h.point.AwaitOwnerPolicy?
    ensures Stands(P.ResumeResolve(h, env, now, setup).(answer := None), past, setup)
  {
    hide HeldIntent;
    hide HeldPolicy;
    hide HeldEscalation;
    hide MissingIntent;
    hide MissingPolicy;
    hide MissingEscalation;
    hide Justified;
    hide InTime;
    hide Denies;
    hide OwnerSaid;
    hide Lower;
    hide VerifyEscalationSignature;
    if h.answer.Some? && h.answer.value.PolicyRead? && h.answer.value.policy.Some? {
      assert OwnedBy(past, h.call, h.point.escalation, h.answer.value.policy.value.policy);
    }
    hide OwnedBy;
    hide Opened;
  }

  lemma OwnerVerdictStands(h: Handler, past: set<World>, env: P.Env, now: Time, setup: P.Setup)
    requires Stands(h, past, setup) && h.call.Resolve? && h.point.AwaitVerification?
    ensures Stands(P.ResumeResolve(h, env, now, setup).(answer := None), past, setup)
  {
    hide HeldPolicy;
    hide HeldEscalation;
    hide HeldIntent;
    hide MissingIntent;
    hide MissingPolicy;
    hide MissingEscalation;
    hide Opened;
    hide InTime;
    hide TooLate;
    hide Justified;
    hide VerifyEscalationSignature;
    hide Lower;
    var AwaitVerification(e, m) := h.point;
    var next := P.ResumeResolve(h, env, now, setup).(answer := None);
    assert OwnedBy(past, h.call, e, m);
    hide OwnedBy;
    if next.point.AwaitDenial? {
      assert OwnerSaid(past, h.call, e, m, Deny, setup);
      hide Errs;
    } else if next.point.AwaitStoredIntent? {
      assert h.call.verdict.value == Approve;
      assert OwnerSaid(past, h.call, e, m, Approve, setup);
      hide Errs;
      hide Denies;
    } else {
      hide Denies;
    }
    hide OwnerSaid;
  }

  lemma StoredIntentStands(h: Handler, past: set<World>, env: P.Env, now: Time, setup: P.Setup)
    requires Stands(h, past, setup) && h.call.Resolve? && At(past, now) && h.point.AwaitStoredIntent?
    ensures Stands(P.ResumeResolve(h, env, now, setup).(answer := None), past, setup)
  {
    hide HeldIntent;
    hide HeldPolicy;
    hide HeldEscalation;
    hide MissingIntent;
    hide InTime;
    hide VerifyEscalationSignature;
    hide BuildCommitmentNonce;
    hide HashPolicy;
    hide Lower;
    hide Trim;
    hide TooLate;
    hide PaysBy;
    hide PaymentStands;
    hide HeldApproval;
    hide HeldWindow;
    var AwaitStoredIntent(e, m) := h.point;
    var next := P.ResumeResolve(h, env, now, setup).(answer := None);
    if next.point.AwaitReservation? {
      var i := h.answer.value.intent.value;
      assert ApprovesBy(past, h.call, next.job.value, e, i, setup);
    }
    hide At;
    hide ApprovesBy;
  }

  lemma OutcomeStands(h: Handler, past: set<World>, env: P.Env, now: Time, setup: P.Setup)
    requires Stands(h, past, setup) && h.call.Resolve? && At(past, now) && !P.InSigning(h.point)
    requires h.point.AwaitApproveRecord? || h.point.AwaitStandingApproval? || h.point.AwaitDenial? || h.point.Finished?
    ensures Stands(P.ResumeResolve(h, env, now, setup).(answer := None), past, setup)
  {
    hide HeldEscalation;
    hide HeldIntent;
    hide HeldPolicy;
    hide At;
    hide Justified;
    hide Denies;
  }

  // ---- The section both share -----------------------------------------------------------------------------

  lemma PaymentSigningStands(h: Handler, past: set<World>, now: Time, setup: P.Setup)
    requires Stands(h, past, setup) && h.call.Payment? && At(past, now) && P.InSigning(h.point)
    ensures Stands(P.ResumeSigning(h, now, setup).(answer := None), past, setup)
  {
    hide HeldEscalation;
    hide HeldIntent;
    hide HeldPolicy;
    hide At;
    hide Justified;
    hide Refuses;
    hide Escalates;
    hide P.JobRequest;
  }

  lemma ResolveSigningStands(h: Handler, past: set<World>, now: Time, setup: P.Setup)
    requires Stands(h, past, setup) && h.call.Resolve? && At(past, now) && P.InSigning(h.point)
    requires !h.point.AwaitRefusedRecord?
    ensures Stands(P.ResumeSigning(h, now, setup).(answer := None), past, setup)
  {
    hide HeldEscalation;
    hide HeldIntent;
    hide HeldPolicy;
    hide At;
    hide Justified;
    hide Denies;
    hide Errs;
    hide OwnerSaid;
    hide Opened;
    hide P.JobRequest;
    var next := P.ResumeSigning(h, now, setup).(answer := None);
    assert next.point.AwaitStandingApproval? ==>
        At(past, now) && next.point.expiresAt == now / 1000 + h.job.value.mandate.windowSeconds;
  }

  lemma ResolveRefusedStands(h: Handler, past: set<World>, now: Time, setup: P.Setup)
    requires Stands(h, past, setup) && h.call.Resolve? && h.point.AwaitRefusedRecord?
    ensures Stands(P.ResumeSigning(h, now, setup).(answer := None), past, setup)
  {
    hide At;
    hide Justified;
    hide Opened;
    hide OwnedBy;
    hide OwnerSaid;
    hide HeldEscalation;
    hide HeldIntent;
    hide MissingIntent;
    hide MissingPolicy;
    hide MissingEscalation;
    hide TooLate;
    hide Trim;
    hide Lower;
    hide VerifyEscalationSignature;
    var next := P.ResumeSigning(h, now, setup).(answer := None);
    assert next.point == P.Finished(P.Thrown) || next.point == P.Finished(h.point.reply);
    assert next.job == h.job && next.call == h.call && next.answer.None?;
    hide P.ResumeSigning;
  }

  lemma ResumedStands(h: Handler, past: set<World>, env: P.Env, now: Time, setup: P.Setup)
    requires Stands(h, past, setup) && At(past, now) && P.Answered(h)
    ensures Stands(P.Resumed(h, env, now, setup), past, setup)
  {
    hide Stands;
    hide At;
    if h.call.Resolve? {
      PointsOfAResolution(h, past, setup);
    }
    hide P.ResumePayment;
    hide P.ResumeResolve;
    hide P.ResumeSigning;
    if P.InSigning(h.point) {
      if h.call.Payment? {
        PaymentSigningStands(h, past, now, setup);
      } else if h.point.AwaitRefusedRecord? {
        ResolveRefusedStands(h, past, now, setup);
      } else {
        ResolveSigningStands(h, past, now, setup);
      }
    } else if h.call.Payment? {
      if h.point.AwaitRegistry? {
        LadderStands(h, past, env, now, setup);
      } else if h.point.AwaitApprovalRead? && h.answer.Some? && h.answer.value.ApprovalRead? {
        ItemStands(h, past, env, now, setup);
      } else {
        PaymentReadsStand(h, past, env, now, setup);
      }
    } else if h.point.AwaitEscalationRead? {
      EscalationReadStands(h, past, env, now, setup);
    } else if h.point.AwaitOwnerPolicy? {
      OwnerPolicyStands(h, past, env, now, setup);
    } else if h.point.AwaitVerification? {
      OwnerVerdictStands(h, past, env, now, setup);
    } else if h.point.AwaitStoredIntent? {
      StoredIntentStands(h, past, env, now, setup);
    } else {
      OutcomeStands(h, past, env, now, setup);
    }
  }

  lemma PointsOfAResolution(h: Handler, past: set<World>, setup: P.Setup)
    requires Stands(h, past, setup) && h.call.Resolve?
    ensures P.InSigning(h.point) || h.point.AwaitEscalationRead? || h.point.AwaitOwnerPolicy? || h.point.AwaitVerification?
            || h.point.AwaitStoredIntent? || h.point.AwaitApproveRecord? || h.point.AwaitStandingApproval?
            || h.point.AwaitDenial? || h.point.Finished?
  {
  }

  // ---- Every step -------------------------------------------------------------------------------------------

  ghost predicate AllStand(handlers: map<nat, Handler>, past: set<World>, setup: P.Setup) {
    forall a :: a in handlers ==> Stands(handlers[a], past, setup)
  }

  lemma AnswerStands(w: World, h: Handler, past: set<World>, setup: P.Setup)
    requires Stands(h, past, setup) && w in past
    ensures Stands(h.(answer := P.AnswerTo(w.ledger, P.Outstanding(h, setup), w.clock, setup.keccak)), past, setup)
  {
    hide Route;
    hide Window;
    hide Lower;
    hide PaymentStands;
    hide ResolveStands;
    hide Justified;
    var next := h.(answer := P.AnswerTo(w.ledger, P.Outstanding(h, setup), w.clock, setup.keccak));
    assert AnswerRead(next, past);
    SamePlace(h, next, past, setup);
  }

  /** Where a handler stands does not depend on its outstanding answer, nor on the life of its signer call. */
  lemma SamePlace(h: Handler, next: Handler, past: set<World>, setup: P.Setup)
    requires Stands(h, past, setup) && AnswerRead(next, past)
    requires next == h.(answer := next.answer, live := next.live, signer := next.signer)
    ensures Stands(next, past, setup)
  {
    hide AnswerRead;
    hide Justified;
    hide Escalates;
    hide Refuses;
    hide Denies;
    hide Opened;
    hide OwnerSaid;
    hide HeldIntent;
    hide HeldPolicy;
    hide HeldEscalation;
    hide HeldWindow;
    hide ClearedBy;
    hide At;
    hide InTime;
    hide Trim;
    hide Lower;
  }

  lemma SameAnswer(h: Handler, next: Handler, past: set<World>)
    requires AnswerRead(h, past) && next == h.(live := next.live, signer := next.signer)
    ensures AnswerRead(next, past)
  {
    hide HeldIntent;
    hide MissingIntent;
    hide HeldPolicy;
    hide HeldEscalation;
    hide HeldWindow;
    hide HeldApproval;
  }

  lemma StartStands(call: P.Call, past: set<World>, setup: P.Setup)
    ensures Stands(P.Start(call), past, setup)
  {
  }

  /** What a step does to the one handler it moves, if it moves one. */
  lemma MoverStands(w: World, step: P.Step, past: set<World>, setup: P.Setup, a: nat)
    requires AllStand(w.handlers, past, setup) && w in past && a in P.Next(w, step, setup).handlers
    ensures Stands(P.Next(w, step, setup).handlers[a], past, setup)
  {
    hide Stands;
    hide P.Resumed;
    hide P.Answered;
    hide P.Unserved;
    hide P.LedgerAfter;
    hide P.AnswerTo;
    hide P.Outstanding;
    hide P.Start;
    hide Handle;
    hide Admit;
    var next := P.Next(w, step, setup).handlers[a];
    if a !in w.handlers {
      StartStands(step.call, past, setup);
    } else if next != w.handlers[a] {
      var h := w.handlers[a];
      if step.Serve? {
        AnswerStands(w, h, past, setup);
      } else if step.Resume? {
        assert At(past, w.clock);
        ResumedStands(h, past, step.env, w.clock, setup);
      } else {
        SignerStands(h, next, past, setup);
      }
    }
  }

  lemma SignerStands(h: Handler, next: Handler, past: set<World>, setup: P.Setup)
    requires Stands(h, past, setup) && next == h.(live := next.live, signer := next.signer)
    ensures Stands(next, past, setup)
  {
    assert AnswerRead(h, past);
    SameAnswer(h, next, past);
    hide Stands;
    hide AnswerRead;
    SamePlace(h, next, past, setup);
  }

  lemma NextStands(w: World, step: P.Step, past: set<World>, setup: P.Setup)
    requires AllStand(w.handlers, past, setup) && w in past
    ensures AllStand(P.Next(w, step, setup).handlers, past + {P.Next(w, step, setup)}, setup)
  {
    hide P.Next;
    hide Stands;
    var after := P.Next(w, step, setup);
    forall a | a in after.handlers
      ensures Stands(after.handlers[a], past + {after}, setup)
    {
      MoverStands(w, step, past, setup, a);
      MoreStands(after.handlers[a], past, past + {after}, setup);
    }
  }

  /** All worlds of a run so far. */
  function Past(clock: Time, steps: seq<P.Step>, setup: P.Setup): set<World> {
    if steps == [] then {P.Begin(clock)}
    else Past(clock, steps[..|steps| - 1], setup) + {P.Run(clock, steps, setup)}
  }

  lemma {:induction false} PastIsOfTheRun(clock: Time, steps: seq<P.Step>, setup: P.Setup, w: World)
    ensures w in Past(clock, steps, setup) <==> exists n :: 0 <= n <= |steps| && w == P.Run(clock, steps[..n], setup)
  {
    hide P.Next;
    if steps == [] {
      assert steps[..0] == [];
    } else {
      var front := steps[..|steps| - 1];
      PastIsOfTheRun(clock, front, setup, w);
      assert steps[..|steps|] == steps;
      assert forall n :: 0 <= n <= |front| ==> front[..n] == steps[..n];
      hide P.Run;
      if n :| 0 <= n <= |front| && w == P.Run(clock, front[..n], setup) {
        assert w == P.Run(clock, steps[..n], setup);
      }
      if n :| 0 <= n <= |steps| && w == P.Run(clock, steps[..n], setup) {
        assert n <= |front| ==> w == P.Run(clock, front[..n], setup);
      }
    }
  }

  /** In every run, every handler stands where it is for what the ledger held at some moment of the run. */
  lemma {:induction false} HandlersStand(clock: Time, steps: seq<P.Step>, setup: P.Setup)
    ensures AllStand(P.Run(clock, steps, setup).handlers, Past(clock, steps, setup), setup)
    ensures P.Run(clock, steps, setup) in Past(clock, steps, setup)
  {
    hide Stands;
    hide P.Next;
    if steps != [] {
      hide AllStand;
      var front := steps[..|steps| - 1];
      HandlersStand(clock, front, setup);
      NextStands(P.Run(clock, front, setup), steps[|steps| - 1], Past(clock, front, setup), setup);
    }
  }
}
