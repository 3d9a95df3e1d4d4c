/**
 * services/policy-service/src/app.ts and signing.ts as interleaved steps. A handler of
 * POST /payment/request or POST /escalation/:id/resolve stops at each await; between two stops
 * anything else may happen. A ledger call is served by the ledger at one moment and answered to
 * the handler at a later one. A handler may be cut off at any await; the call it has outstanding
 * may still be served.
 */
module SigningProtocol {
  import opened Wrappers
  import opened Text
  import opened Mandates
  import opened LedgerStore
  import opened PolicyChecks
  import opened SignerService

  const RESOURCE: string := "cardapi sandbox issue-card"

  /** What the three services are configured with. */
  datatype Setup = Setup(keccak: Keccak, verifyMessage: VerifyMessage, config: Config, payingWallet: string,
                         maxSaneValiditySeconds: int, escalationTtlSeconds: int, dashboardUrl: string)

  /** The request a handler serves. Missing texts are empty, as the handlers treat them alike. */
  datatype Call =
    | Payment(requestId: string, mandateId: string, requestedAmount: nat, challenge: Challenge, domain: string)
    | Resolve(requestId: string, verdict: Option<Verdict>, approvedBy: string, signature: string, merchantWindow: bool)

  /** What performSigning is called with, and the nonce it derives. */
  datatype Job = Job(mandate: Mandate, mandateId: string, challenge: Challenge, amount: nat, now: int,
                     policyHash: string, intentHash: string, domain: string, nonce: string)

  /** What a handler answers; the header of a signed reply is known by the authorisation it carries. */
  datatype PolicyReply =
    | SignedReply(nonce: string, header: TypedData)
    | RefusedReply(check: string)
    | EscalatedReply(reason: EscalationReason)
    | ErrorReply(code: string)
    | Thrown

  /** The await a handler is stopped at, with the local variables it still needs. */
  datatype Point =
    | AwaitIntent
    | AwaitPolicy(intent: Intent)
    | AwaitWindow(intent: Intent, mandate: Mandate)
    | AwaitRegistry(intent: Intent, mandate: Mandate, usage: Usage)
    | AwaitApprovalRead(intent: Intent, mandate: Mandate, now: int)
    | AwaitEscalation(reason: EscalationReason, check: string)
    | AwaitEscalatedRecord(reason: EscalationReason, check: string, at: Time)
    | AwaitEscalationRead
    | AwaitOwnerPolicy(escalation: Escalation)
    | AwaitVerification(escalation: Escalation, mandate: Mandate)
    | AwaitStoredIntent(escalation: Escalation, mandate: Mandate)
    | AwaitReservation(approved: Option<Escalation>)
    | AwaitSigner(approved: Option<Escalation>)
    | AwaitRelease(approved: Option<Escalation>, code: string)
    | AwaitApproveRecord(escalation: Escalation)
    | AwaitSignedRecord(approved: Option<Escalation>, at: Time)
    | AwaitStandingApproval(escalation: Escalation, expiresAt: int)
    | AwaitDenial(approvedBy: Option<string>, check: string, reply: PolicyReply)
    | AwaitRefusedRecord(check: string, at: Time, reply: PolicyReply)
    | Finished(reply: PolicyReply)

  datatype Answer =
    | IntentRead(intent: Option<Intent>)
    | PolicyRead(policy: Option<PolicyRecord>)
    | WindowRead(usage: Usage)
    | ApprovalRead(active: bool)
    | EscalationRead(escalation: Option<Escalation>)
    | Written(reply: Reply)

  /** The life of a handler's one call to the signer. */
  datatype SignerCall =
    | NotCalled
    | Arrived(request: SignRequest)
    | AtKey(request: SignRequest, typed: TypedData)
    | Rejected(code: string)
    | SignedBy(typed: TypedData)

  datatype Handler = Handler(call: Call, point: Point, answer: Option<Answer>, job: Option<Job>, signer: SignerCall,
                             live: bool)

  /** What a handler learns from outside: the registry read on chain, and the item matcher's verdict. */
  datatype Env = Env(registry: Option<Registry>, matches: bool)

  // ---- The ledger's side of a call --------------------------------------------------------

  datatype LedgerCall =
    | ReadIntent(id: string)
    | ReadPolicy(id: string)
    | ReadWindow(id: string, windowSeconds: int)
    | ReadApproval(id: string, domain: string)
    | ReadEscalation(id: string)
    | Write(request: Request)
    | NoCall

  function Decided(id: string, decision: Decision, check: string, at: Time): Request {
    RecordDecision(Some(id), Some(decision), Some(check), None, Some(at), None, None, None, None)
  }

  function SignedDecision(id: string, job: Job, at: Time): Request {
    RecordDecision(Some(id), Some(Signed), None, None, Some(at), Some(job.policyHash), Some(job.domain),
                   Some(job.now - 5), Some(job.now - 5 + Validity(job.mandate, job.challenge)))
  }

  /** The mandate a payment names; resolutions take theirs from the escalation. */
  function PaidMandate(call: Call): string {
    if call.Payment? then call.mandateId else ""
  }

  /** The ledger call a handler has outstanding where it is stopped. */
  function Outstanding(h: Handler, setup: Setup): LedgerCall {
    var id := h.call.requestId;
    match h.point
    case AwaitIntent => ReadIntent(id)
    case AwaitPolicy(_) => ReadPolicy(PaidMandate(h.call))
    case AwaitWindow(_, mandate) => ReadWindow(PaidMandate(h.call), mandate.windowSeconds)
    case AwaitApprovalRead(_, _, _) =>
      if h.call.Payment? then ReadApproval(h.call.mandateId, h.call.domain) else NoCall
    case AwaitEscalation(reason, _) =>
      if h.call.Payment?
      then Write(CreateEscalation(Some(id), Some(h.call.mandateId), Some(reason),
                                  Some(setup.dashboardUrl + "/approve/" + id), Some(setup.escalationTtlSeconds),
                                  Some(h.call.domain)))
      else NoCall
    case AwaitEscalatedRecord(_, check, at) => Write(Decided(id, Escalated, check, at))
    case AwaitEscalationRead => ReadEscalation(id)
    case AwaitOwnerPolicy(e) => ReadPolicy(e.mandateId)
    case AwaitStoredIntent(_, _) => ReadIntent(id)
    case AwaitReservation(_) => if h.job.Some? then Write(ReserveNonce(id, Some(h.job.value.nonce))) else NoCall
    case AwaitRelease(_, _) => Write(ReleaseNonce(id))
    case AwaitApproveRecord(_) => Write(ResolveEscalation(id, Some(Approve), Approver(h.call)))
    case AwaitSignedRecord(_, at) => if h.job.Some? then Write(SignedDecision(id, h.job.value, at)) else NoCall
    case AwaitStandingApproval(e, at) => Write(SetStandingApproval(Some(e.mandateId), e.merchantDomain, Some(at)))
    case AwaitDenial(approver, _, _) => Write(ResolveEscalation(id, Some(Deny), approver))
    case AwaitRefusedRecord(check, at, _) => Write(Decided(id, Refused, check, at))
    case _ => NoCall
  }

  function Approver(call: Call): Option<string> {
    if call.Resolve? then Some(call.approvedBy) else None
  }

  /** What the ledger does and answers when it serves a call. */
  function LedgerAfter(s: Ledger, c: LedgerCall, now: Time, keccak: Keccak): Ledger {
    if c.Write? then Handle(s, c.request, now, keccak) else s
  }

  function AnswerTo(s: Ledger, c: LedgerCall, now: Time, keccak: Keccak): Option<Answer> {
    match c
    case ReadIntent(id) => Some(IntentRead(if id in s.intents then Some(s.intents[id]) else None))
    case ReadPolicy(id) => Some(PolicyRead(if id in s.policies then Some(s.policies[id]) else None))
    case ReadWindow(id, seconds) => Some(WindowRead(Window(s, id, now - seconds * 1000)))
    case ReadApproval(id, domain) => Some(ApprovalRead(StandingApprovalActive(s, id, domain, now)))
    case ReadEscalation(id) => Some(EscalationRead(if id in s.escalations then Some(s.escalations[id]) else None))
    case Write(q) => Some(Written(ReplyTo(Route(s, q, now, keccak))))
    case NoCall => None
  }

  // ---- The handler's side -----------------------------------------------------------------

  predicate Blank(domain: string) {
    Trim(domain) == ""
  }

  /** performSigning up to its first await; a malformed hash throws. */
  function BeginSigning(h: Handler, approved: Option<Escalation>, mandateId: string, mandate: Mandate,
                        challenge: Challenge, amount: nat, now: int, intentHash: string, domain: string, setup: Setup)
    : Handler
  {
    var policyHash := HashPolicy(setup.keccak, mandate);
    match BuildCommitmentNonce(setup.keccak, h.call.requestId, policyHash, intentHash, domain)
    case Err(_) => h.(point := Finished(Thrown))
    case Ok(nonce) =>
      h.(point := AwaitReservation(approved),
         job := Some(Job(mandate, mandateId, challenge, amount, now, policyHash, intentHash, domain, nonce)))
  }

  function JobRequest(id: string, job: Job, setup: Setup): SignRequest {
    SignRequest(id, job.mandateId,
                SigningRequest(job.mandate, job.challenge, job.amount, job.now, job.nonce, setup.payingWallet),
                job.challenge, RESOURCE)
  }

  /** performSigning returned a refusal: what each handler does with it. */
  function AfterRefusal(h: Handler, approved: Option<Escalation>, code: string, now: Time): Point {
    if approved.None? then AwaitRefusedRecord("signer_refused", now, ErrorReply(code))
    else AwaitDenial(Approver(h.call), "signer_refused", ErrorReply(code))
  }

  function Context(h: Handler, intent: Intent, mandate: Mandate, usage: Usage, registry: Option<Registry>, now: Time,
                   setup: Setup): CheckContext
    requires h.call.Payment?
  {
    CheckContext(now / 1000, mandate, registry, h.call.challenge, h.call.requestedAmount, usage, intent.createdAt,
                 intent.challengeAttachedAt, setup.maxSaneValiditySeconds, setup.keccak)
  }

  /** /payment/request, from one await to the next. */
  function ResumePayment(h: Handler, env: Env, now: Time, setup: Setup): Handler
    requires h.call.Payment?
  {
    match (h.point, h.answer)
    case (AwaitIntent, Some(IntentRead(found))) =>
      if found.None?
      then h.(point := AwaitRefusedRecord("precondition_intent_exists", now, RefusedReply("precondition_intent_exists")))
      else if Blank(h.call.domain)
      then h.(point := AwaitRefusedRecord("precondition_merchant_domain", now,
                                          RefusedReply("precondition_merchant_domain")))
      else h.(point := AwaitPolicy(found.value))
    case (AwaitPolicy(intent), Some(PolicyRead(found))) =>
      if found.None? then h.(point := Finished(ErrorReply("POLICY_NOT_FOUND")))
      else h.(point := AwaitWindow(intent, found.value.policy))
    case (AwaitWindow(intent, mandate), Some(WindowRead(usage))) =>
      h.(point := AwaitRegistry(intent, mandate, usage))
    case (AwaitRegistry(intent, mandate, usage), _) =>
      (match FirstFailure(Context(h, intent, mandate, usage, env.registry, now, setup))
       case None => h.(point := AwaitApprovalRead(intent, mandate, now / 1000))
       case Some((k, Refuse)) =>
         h.(point := AwaitRefusedRecord(CHECK_NAMES[k], now, RefusedReply(CHECK_NAMES[k])))
       case Some((k, EscalateFor(reason))) => h.(point := AwaitEscalation(reason, CHECK_NAMES[k])))
    case (AwaitApprovalRead(intent, mandate, at), Some(ApprovalRead(active))) =>
      (match Check9IntentMatch(mandate, h.call.domain, active, env.matches)
       case Some(reason) => h.(point := AwaitEscalation(reason, "check9_intent_match"))
       case None => BeginSigning(h, None, h.call.mandateId, mandate, h.call.challenge, h.call.requestedAmount, at,
                                 intent.instructionHash, h.call.domain, setup))
    case (AwaitEscalation(reason, check), Some(Written(Sent(_)))) => h.(point := AwaitEscalatedRecord(reason, check, now))
    case (AwaitEscalatedRecord(reason, _, _), Some(Written(Sent(_)))) => h.(point := Finished(EscalatedReply(reason)))
    case _ => h.(point := Finished(Thrown))
  }

  /** /escalation/:id/resolve, from one await to the next. */
  function ResumeResolve(h: Handler, env: Env, now: Time, setup: Setup): Handler
    requires h.call.Resolve?
  {
    match (h.point, h.answer)
    case (AwaitEscalationRead, Some(EscalationRead(found))) =>
      if found.None? then h.(point := Finished(ErrorReply("ESCALATION_NOT_FOUND")))
      else if found.value.resolved then h.(point := Finished(ErrorReply("ESCALATION_ALREADY_RESOLVED")))
      else if now / 1000 > found.value.expiresAt
      then h.(point := AwaitDenial(None, "escalation_expired", ErrorReply("ESCALATION_EXPIRED")))
      else h.(point := AwaitOwnerPolicy(found.value))
    case (AwaitOwnerPolicy(e), Some(PolicyRead(found))) =>
      if found.None? then h.(point := Finished(ErrorReply("POLICY_NOT_FOUND")))
      else if h.call.approvedBy == "" || Lower(h.call.approvedBy) != Lower(found.value.policy.owner)
      then h.(point := Finished(ErrorReply("NOT_MANDATE_OWNER")))
      else if h.call.signature == "" then h.(point := Finished(ErrorReply("ESCALATION_SIGNATURE_REQUIRED")))
      else h.(point := AwaitVerification(e, found.value.policy))
    case (AwaitVerification(e, mandate), _) =>
      if h.call.verdict.None?
         || !VerifyEscalationSignature(setup.verifyMessage, h.call.requestId, e.mandateId, h.call.verdict.value,
                                       h.call.signature, mandate.owner)
      then h.(point := Finished(ErrorReply("ESCALATION_SIGNATURE_INVALID")))
      else if h.call.verdict == Some(Deny)
      then h.(point := AwaitDenial(Approver(h.call), "escalation_denied", RefusedReply("escalation_denied")))
      else h.(point := AwaitStoredIntent(e, mandate))
    case (AwaitStoredIntent(e, mandate), Some(IntentRead(found))) =>
      if found.None? || found.value.challenge.None? then h.(point := Finished(ErrorReply("CHALLENGE_NOT_FOUND")))
      else if e.merchantDomain.None? || Blank(e.merchantDomain.value)
      then h.(point := AwaitDenial(Approver(h.call), "precondition_merchant_domain",
                                   ErrorReply("MERCHANT_DOMAIN_REQUIRED")))
      else
        var challenge := found.value.challenge.value;
        BeginSigning(h, Some(e), e.mandateId, mandate, challenge, challenge.amount, now / 1000,
                     found.value.instructionHash, e.merchantDomain.value, setup)
    case (AwaitApproveRecord(e), Some(Written(Sent(_)))) => h.(point := AwaitSignedRecord(Some(e), now))
    case (AwaitStandingApproval(_, _), Some(Written(Sent(_)))) => FinishSigned(h)
    case (AwaitDenial(_, check, reply), Some(Written(Sent(_)))) => h.(point := AwaitRefusedRecord(check, now, reply))
    case _ => h.(point := Finished(Thrown))
  }

  function FinishSigned(h: Handler): Handler {
    if h.job.Some? && h.signer.SignedBy?
    then h.(point := Finished(SignedReply(h.job.value.nonce, h.signer.typed)))
    else h.(point := Finished(Thrown))
  }

  /** After the signed decision is on record, an approval may extend to the merchant. */
  function AfterSignedRecord(h: Handler, approved: Option<Escalation>, now: Time): Handler {
    if approved.Some? && h.call.Resolve? && h.call.merchantWindow && approved.value.reason.IntentMismatch?
       && Truthy(approved.value.merchantDomain) && h.job.Some?
    then h.(point := AwaitStandingApproval(approved.value, now / 1000 + h.job.value.mandate.windowSeconds))
    else FinishSigned(h)
  }

  /** The awaits of performSigning and the decision after it, which both handlers share. */
  function ResumeSigning(h: Handler, now: Time, setup: Setup): Handler {
    match (h.point, h.answer)
    case (AwaitReservation(approved), Some(Written(Sent(_)))) =>
      if h.job.Some?
      then h.(point := AwaitSigner(approved), signer := Arrived(JobRequest(h.call.requestId, h.job.value, setup)))
      else h.(point := Finished(Thrown))
    case (AwaitReservation(approved), Some(Written(Failed(_, code)))) =>
      h.(point := AfterRefusal(h, approved, code, now))
    case (AwaitSigner(approved), _) =>
      (match h.signer
       case SignedBy(_) =>
         if approved.Some? then h.(point := AwaitApproveRecord(approved.value))
         else h.(point := AwaitSignedRecord(None, now))
       case Rejected(code) => h.(point := AwaitRelease(approved, code))
       case _ => h)
    case (AwaitRelease(approved, code), Some(Written(_))) =>
      h.(point := AfterRefusal(h, approved, code, now))
    case (AwaitSignedRecord(approved, _), Some(Written(Sent(_)))) => AfterSignedRecord(h, approved, now)
    case (AwaitRefusedRecord(_, _, reply), Some(Written(Sent(_)))) => h.(point := Finished(reply))
    case _ => h.(point := Finished(Thrown))
  }

  predicate InSigning(p: Point) {
    p.AwaitReservation? || p.AwaitSigner? || p.AwaitRelease? || p.AwaitSignedRecord? || p.AwaitRefusedRecord?
  }

  /** A handler can go on once the call it waits for is answered. */
  predicate Answered(h: Handler) {
    h.live && !h.point.Finished?
    && match h.point
       case AwaitRegistry(_, _, _) => true
       case AwaitVerification(_, _) => true
       case AwaitSigner(_) => h.signer.SignedBy? || h.signer.Rejected?
       case _ => h.answer.Some?
  }

  function Resumed(h: Handler, env: Env, now: Time, setup: Setup): Handler {
    var next := if InSigning(h.point) then ResumeSigning(h, now, setup)
                else if h.call.Payment? then ResumePayment(h, env, now, setup) else ResumeResolve(h, env, now, setup);
    next.(answer := None)
  }

  // ---- The system ---------------------------------------------------------------------------

  datatype Signature = Signature(handler: nat, requestId: string, typed: TypedData)

  datatype World = World(clock: Time, ledger: Ledger, handlers: map<nat, Handler>, seen: set<string>,
                         signatures: seq<Signature>)

  datatype Step =
    | Tick(milliseconds: nat)
    | Spawn(id: nat, call: Call)
    | Serve(id: nat)
    | Resume(id: nat, env: Env)
    | Abort(id: nat)
    | SignerAdmits(id: nat)
    | KeyAnswers(id: nat, signed: bool)
    | Outside(request: Request)

  /** The entry of each handler, up to its first await. */
  function Start(call: Call): Handler {
    var point := match call
      case Payment(id, mandateId, _, _, _) =>
        if id == "" || mandateId == "" then Finished(ErrorReply("INVALID_BODY")) else AwaitIntent
      case Resolve(_, verdict, _, _, _) =>
        if verdict.None? then Finished(ErrorReply("INVALID_BODY")) else AwaitEscalationRead;
    Handler(call, point, None, None, NotCalled, true)
  }

  /** Requests that only policy-service makes; all others may arrive from anyone at any time. */
  predicate PolicyOnly(q: Request) {
    q.ReserveNonce? || q.ReleaseNonce? || q.RecordDecision? || q.CreateEscalation? || q.ResolveEscalation?
  }

  predicate Unserved(h: Handler, setup: Setup) {
    h.answer.None? && !Outstanding(h, setup).NoCall?
  }

  /** The signer takes the call up to its key: Admit decides. */
  function Admitted(h: Handler, config: Config, seen: set<string>): Handler
    requires h.signer.Arrived?
  {
    match Admit(h.signer.request, config, seen)
    case Err(code) => h.(signer := Rejected(code))
    case Ok(typed) => h.(signer := AtKey(h.signer.request, typed))
  }

  /** One step of the system; a step that is not possible changes nothing. */
  function Next(w: World, step: Step, setup: Setup): World {
    match step
    case Tick(milliseconds) => w.(clock := w.clock + milliseconds)
    case Spawn(id, call) => if id in w.handlers then w else w.(handlers := w.handlers[id := Start(call)])
    case Serve(id) =>
      if id !in w.handlers || !Unserved(w.handlers[id], setup) then w else Served(w, id, setup)
    case Resume(id, env) =>
      if id !in w.handlers || !Answered(w.handlers[id]) then w
      else w.(handlers := w.handlers[id := Resumed(w.handlers[id], env, w.clock, setup)])
    case Abort(id) =>
      if id !in w.handlers then w else w.(handlers := w.handlers[id := w.handlers[id].(live := false)])
    case SignerAdmits(id) =>
      if id !in w.handlers || !w.handlers[id].signer.Arrived? then w
      else w.(handlers := w.handlers[id := Admitted(w.handlers[id], setup.config, w.seen)])
    case KeyAnswers(id, signed) =>
      if id !in w.handlers || !w.handlers[id].signer.AtKey? then w
      else if signed then Signs(w, id)
      else w.(handlers := w.handlers[id := w.handlers[id].(signer := Rejected("SIGNER_UNAVAILABLE"))])
    case Outside(q) => if PolicyOnly(q) then w else w.(ledger := Handle(w.ledger, q, w.clock, setup.keccak))
  }

  function Served(w: World, id: nat, setup: Setup): World
    requires id in w.handlers
  {
    var h := w.handlers[id];
    var c := Outstanding(h, setup);
    w.(ledger := LedgerAfter(w.ledger, c, w.clock, setup.keccak),
       handlers := w.handlers[id := h.(answer := AnswerTo(w.ledger, c, w.clock, setup.keccak))])
  }

  function Signs(w: World, id: nat): World
    requires id in w.handlers && w.handlers[id].signer.AtKey?
  {
    var h := w.handlers[id];
    var call := h.signer;
    w.(handlers := w.handlers[id := h.(signer := SignedBy(call.typed))],
       seen := w.seen + {call.request.requestId},
       signatures := w.signatures + [Signature(id, call.request.requestId, call.typed)])
  }

  function Begin(clock: Time): World {
    World(clock, EMPTY, map[], {}, [])
  }

  /** The system after a run of steps, in any order. */
  function Run(clock: Time, steps: seq<Step>, setup: Setup): World {
    if steps == [] then Begin(clock)
    else Next(Run(clock, steps[..|steps| - 1], setup), steps[|steps| - 1], setup)
  }
}
