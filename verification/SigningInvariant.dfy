/**
 * The invariant of the signing protocol, kept by every step of every interleaving: at most one
 * handler holds the nonce reservation of a request, only a holder is ever signed for, and every
 * signed record is backed by a handler's job. The signer's replay set plays no part in it.
 */
module SigningInvariant {
  import opened Wrappers
  import opened Text
  import opened Mandates
  import opened LedgerStore
  import opened LedgerInvariants
  import opened PolicyChecks
  import opened SignerService
  import P = SigningProtocol

  type Handler = P.Handler
  type World = P.World

  // ---- The invariant -------------------------------------------------------------------------

  predicate Accepted(a: Option<P.Answer>) {
    a.Some? && a.value.Written? && a.value.reply.Sent?
  }

  /** The handler holds the reservation of its request, and nobody else may sign for it. */
  predicate Holds(h: Handler) {
    match h.signer
    case NotCalled => h.point.AwaitReservation? && Accepted(h.answer)
    case Rejected(_) => h.point.AwaitSigner? || (h.point.AwaitRelease? && h.answer.None?)
    case _ => true
  }

  /** How far the signer call has gone at each await. */
  predicate InStep(h: Handler) {
    match h.point
    case AwaitReservation(_) => h.job.Some? && h.signer.NotCalled?
    case AwaitSigner(_) => h.job.Some? && !h.signer.NotCalled?
    case AwaitRelease(_, _) => h.job.Some? && h.signer.Rejected?
    case AwaitApproveRecord(_) => h.job.Some? && h.signer.SignedBy?
    case AwaitSignedRecord(_, _) => h.job.Some? && h.signer.SignedBy?
    case AwaitStandingApproval(_, _) => h.job.Some? && h.signer.SignedBy?
    case AwaitDenial(_, _, reply) => !reply.SignedReply? && (h.signer.NotCalled? || h.signer.Rejected?)
    case AwaitRefusedRecord(_, _, reply) => !reply.SignedReply? && (h.signer.NotCalled? || h.signer.Rejected?)
    case Finished(reply) =>
      && !h.signer.Arrived? && !h.signer.AtKey? && (h.signer.SignedBy? ==> h.job.Some?)
      && (reply.SignedReply? ==>
            h.signer == P.SignedBy(reply.header) && h.job.Some? && reply.nonce == h.job.value.nonce)
    case _ => h.job.None? && h.signer.NotCalled?
  }

  /** An intent a handler has read is the stored one, as far as no request changes it. */
  predicate Known(i: Intent, id: string, s: Ledger) {
    id in s.intents && i.instructionHash == s.intents[id].instructionHash
  }

  predicate ReadsKnown(h: Handler, s: Ledger) {
    var id := h.call.requestId;
    && (match h.point
        case AwaitPolicy(i) => Known(i, id, s)
        case AwaitWindow(i, _) => Known(i, id, s)
        case AwaitRegistry(i, _, _) => Known(i, id, s)
        case AwaitApprovalRead(i, _, _) => Known(i, id, s)
        case _ => true)
    && (h.answer.Some? && h.answer.value.IntentRead? && h.answer.value.intent.Some? ==>
          Known(h.answer.value.intent.value, id, s))
  }

  /** The job commits to the request, the policy, the stored instruction and the merchant. */
  predicate JobSound(h: Handler, s: Ledger, setup: P.Setup) {
    h.job.Some? ==>
      var job, id := h.job.value, h.call.requestId;
      && id in s.intents && job.intentHash == s.intents[id].instructionHash
      && BuildCommitmentNonce(setup.keccak, id, job.policyHash, job.intentHash, job.domain) == Ok(job.nonce)
  }

  /** What the signer was sent is the job, and what it signs is that request's authorisation. */
  ghost predicate SignerSound(h: Handler, setup: P.Setup) {
    h.job.Some? ==>
      var request := P.JobRequest(h.call.requestId, h.job.value, setup);
      match h.signer
      case Arrived(q) => q == request
      case AtKey(q, typed) => q == request && Authorised(q, typed, setup.config)
      case SignedBy(typed) => Authorised(request, typed, setup.config)
      case _ => true
  }

  /** The signer admitted the request, with the replay set it had then, as this authorisation. */
  ghost predicate Authorised(q: SignRequest, typed: TypedData, config: Config) {
    exists seen: set<string> :: Admit(q, config, seen) == Result<TypedData>.Ok(typed)
  }

  predicate Reserves(h: Handler, s: Ledger) {
    Holds(h) ==> h.job.Some? && h.call.requestId in s.intents
                 && s.intents[h.call.requestId].nonce == Some(h.job.value.nonce)
  }

  ghost predicate HandlerSound(h: Handler, s: Ledger, setup: P.Setup) {
    InStep(h) && ReadsKnown(h, s) && JobSound(h, s, setup) && SignerSound(h, setup) && Reserves(h, s)
  }

  ghost predicate HandlersSound(w: World, setup: P.Setup) {
    forall a :: a in w.handlers ==> HandlerSound(w.handlers[a], w.ledger, setup)
  }

  ghost predicate Exclusive(handlers: map<nat, Handler>) {
    forall a, b :: a in handlers && b in handlers && a != b && Holds(handlers[a]) && Holds(handlers[b]) ==>
      handlers[a].call.requestId != handlers[b].call.requestId
  }

  predicate Emitted(g: P.Signature, handlers: map<nat, Handler>) {
    && g.handler in handlers && handlers[g.handler].signer == P.SignedBy(g.typed)
    && handlers[g.handler].call.requestId == g.requestId
  }

  /** The signature a handler was given is one of those emitted. */
  predicate Logged(h: Handler, a: nat, signatures: seq<P.Signature>) {
    h.signer.SignedBy? ==> P.Signature(a, h.call.requestId, h.signer.typed) in signatures
  }

  ghost predicate SignaturesSound(handlers: map<nat, Handler>, signatures: seq<P.Signature>) {
    && (forall g :: g in signatures ==> Emitted(g, handlers))
    && (forall j, k :: 0 <= j < k < |signatures| ==> signatures[j].handler != signatures[k].handler)
    && (forall a :: a in handlers ==> Logged(handlers[a], a, signatures))
  }

  /** The record's receipt fields are those of a job whose signature was emitted. */
  predicate Backs(h: Handler, i: Intent, id: string) {
    && h.call.requestId == id && h.signer.SignedBy? && h.job.Some?
    && i.policyHash == Some(h.job.value.policyHash) && i.merchantDomain == Some(h.job.value.domain)
    && i.validAfter == Some(h.job.value.now - 5)
    && i.validBefore == Some(h.job.value.now - 5 + Validity(h.job.value.mandate, h.job.value.challenge))
  }

  predicate Backed(handlers: map<nat, Handler>, i: Intent, id: string) {
    exists a :: a in handlers && Backs(handlers[a], i, id)
  }

  ghost predicate RecordsBacked(w: World) {
    forall id :: id in w.ledger.intents && w.ledger.intents[id].policyHash.Some? ==>
      Backed(w.handlers, w.ledger.intents[id], id)
  }

  ghost predicate Safe(w: World, setup: P.Setup) {
    && Sound(w.ledger, setup.keccak) && HandlersSound(w, setup) && Exclusive(w.handlers)
    && SignaturesSound(w.handlers, w.signatures) && RecordsBacked(w)
  }

  // ---- What a ledger write does to another request's record ----------------------------------

  predicate MovesNonce(q: Request, id: string) {
    (q.ReserveNonce? || q.ReleaseNonce?) && q.requestId == id
  }

  predicate SignsRecord(q: Request, id: string) {
    q.RecordDecision? && q.newId == Some(id) && id != "" && q.decision == Some(Signed)
  }

  predicate SameTermsSigned(i: Intent, j: Intent) {
    && j.policyHash == i.policyHash && j.merchantDomain == i.merchantDomain
    && j.validAfter == i.validAfter && j.validBefore == i.validBefore
  }

  lemma ApplyStores(s: Ledger, o: Outcome, now: Time)
    ensures Apply(s, o, now).intents
            == if Stored(o).Some? then s.intents[Stored(o).value.requestId := Stored(o).value] else s.intents
  {
    hide IntentViewOf;
  }

  /** What a route may change of the record it stores. */
  lemma RouteMoves(s: Ledger, q: Request, now: Time, keccak: Keccak)
    requires Subject(q) in s.intents ==> s.intents[Subject(q)].requestId == Subject(q)
    requires Stored(Route(s, q, now, keccak)).Some?
    ensures var i := Stored(Route(s, q, now, keccak)).value;
            if i.requestId in s.intents then
              var was := s.intents[i.requestId];
              && i.instructionHash == was.instructionHash
              && (!MovesNonce(q, i.requestId) ==> i.nonce == was.nonce)
              && (!SignsRecord(q, i.requestId) ==> SameTermsSigned(was, i))
            else i.policyHash.None?
  {
  }

  lemma WriteMoves(s: Ledger, q: Request, now: Time, keccak: Keccak, id: string)
    requires Sound(s, keccak) && id in s.intents
    ensures var t := Handle(s, q, now, keccak);
            && id in t.intents && t.intents[id].instructionHash == s.intents[id].instructionHash
            && (!MovesNonce(q, id) ==> t.intents[id].nonce == s.intents[id].nonce)
            && (!SignsRecord(q, id) ==> SameTermsSigned(s.intents[id], t.intents[id]))
  {
    hide Sound;
    hide Route;
    hide Apply;
    hide MovesNonce;
    hide SignsRecord;
    hide SameTermsSigned;
    Keyed(s, Subject(q), keccak);
    var o := Route(s, q, now, keccak);
    assert Handle(s, q, now, keccak) == Apply(s, o, now);
    ApplyStores(s, o, now);
    hide Handle;
    if Stored(o).Some? {
      RouteMoves(s, q, now, keccak);
    }
    if Stored(o).None? || Stored(o).value.requestId != id {
      SameAsItself(s.intents[id]);
    }
  }

  lemma SameAsItself(i: Intent)
    ensures SameTermsSigned(i, i)
  {
  }

  lemma Keyed(s: Ledger, id: string, keccak: Keccak)
    requires Sound(s, keccak)
    ensures id in s.intents ==> s.intents[id].requestId == id
    ensures id in s.intents && s.intents[id].nonce.Some? ==> Truthy(s.intents[id].nonce) && !s.intents[id].nonceReleased
  {
    if id in s.intents {
      assert RecordSound(s.intents[id], id, LastEntry(s.log, id), Reserved(s.events, id), keccak);
    }
  }

  /** A record that a write creates holds no receipt fields. */
  lemma WriteCreates(s: Ledger, q: Request, now: Time, keccak: Keccak, id: string)
    requires Sound(s, keccak) && id !in s.intents && id in Handle(s, q, now, keccak).intents
    ensures Handle(s, q, now, keccak).intents[id].policyHash.None?
  {
    Keyed(s, Subject(q), keccak);
    hide Sound;
    hide Route;
    hide Apply;
    ApplyStores(s, Route(s, q, now, keccak), now);
    RouteMoves(s, q, now, keccak);
  }

  // ---- Steps of one handler -------------------------------------------------------------------

  /** A handler keeps its request, its job and what was signed for it. */
  predicate Continues(h: Handler, next: Handler) {
    && next.call == h.call && (h.job.Some? ==> next.job == h.job)
    && (h.signer.SignedBy? ==> next.signer == h.signer)
  }

  /** A handler moves on without coming to hold a reservation or a signature. */
  predicate Successor(h: Handler, next: Handler) {
    Continues(h, next) && (Holds(next) ==> Holds(h)) && (next.signer.SignedBy? ==> next.signer == h.signer)
  }

  lemma SigningMovesOn(h: Handler, s: Ledger, now: Time, setup: P.Setup)
    requires HandlerSound(h, s, setup) && P.InSigning(h.point) && P.Answered(h)
    ensures var next := P.ResumeSigning(h, now, setup).(answer := None);
            HandlerSound(next, s, setup) && Successor(h, next)
  {
    hide P.JobRequest;
    hide BuildCommitmentNonce;
    hide Authorised;
  }

  lemma PointMovesOn(h: Handler, next: Handler, s: Ledger, setup: P.Setup)
    requires HandlerSound(h, s, setup) && next == h.(point := next.point, answer := None)
    requires InStep(next) && ReadsKnown(next, s) && (Holds(next) ==> Holds(h))
    ensures HandlerSound(next, s, setup) && Successor(h, next)
  {
  }

  /** performSigning starts with a commitment to an intent the handler has read. */
  lemma SigningBegins(h: Handler, next: Handler, i: Intent, approved: Option<Escalation>, mandateId: string, m: Mandate,
                      c: Challenge, amount: nat, now: int, domain: string, s: Ledger, setup: P.Setup)
    requires HandlerSound(h, s, setup) && h.job.None? && h.signer.NotCalled? && Known(i, h.call.requestId, s)
    requires next == P.BeginSigning(h, approved, mandateId, m, c, amount, now, i.instructionHash, domain, setup)
                     .(answer := None)
    ensures HandlerSound(next, s, setup) && Successor(h, next)
  {
    hide BuildCommitmentNonce;
  }

  lemma PaymentMovesOn(h: Handler, s: Ledger, env: P.Env, now: Time, setup: P.Setup)
    requires HandlerSound(h, s, setup) && !P.InSigning(h.point) && h.call.Payment?
    ensures var next := P.ResumePayment(h, env, now, setup).(answer := None);
            HandlerSound(next, s, setup) && Successor(h, next)
  {
    if h.point.AwaitApprovalRead? && h.answer.Some? && h.answer.value.ApprovalRead? {
      MatchMovesOn(h, s, env, now, setup);
    } else if h.point.AwaitRegistry? {
      ChecksMoveOn(h, s, env, now, setup);
    } else {
      ReadsMoveOn(h, s, env, now, setup);
    }
  }

  lemma MatchMovesOn(h: Handler, s: Ledger, env: P.Env, now: Time, setup: P.Setup)
    requires HandlerSound(h, s, setup) && h.call.Payment? && h.point.AwaitApprovalRead?
    requires h.answer.Some? && h.answer.value.ApprovalRead?
    ensures var next := P.ResumePayment(h, env, now, setup).(answer := None);
            HandlerSound(next, s, setup) && Successor(h, next)
  {
    hide JobSound;
    hide SignerSound;
    hide Reserves;
    hide Successor;
    hide Check9IntentMatch;
    hide P.BeginSigning;
    var next := P.ResumePayment(h, env, now, setup).(answer := None);
    var AwaitApprovalRead(i, m, at) := h.point;
    if Check9IntentMatch(m, h.call.domain, h.answer.value.active, env.matches).None? {
      SigningBegins(h, next, i, None, h.call.mandateId, m, h.call.challenge, h.call.requestedAmount, at, h.call.domain,
                    s, setup);
    } else {
      PointMovesOn(h, next, s, setup);
    }
  }

  lemma ChecksMoveOn(h: Handler, s: Ledger, env: P.Env, now: Time, setup: P.Setup)
    requires HandlerSound(h, s, setup) && h.call.Payment? && h.point.AwaitRegistry?
    ensures var next := P.ResumePayment(h, env, now, setup).(answer := None);
            HandlerSound(next, s, setup) && Successor(h, next)
  {
    hide JobSound;
    hide SignerSound;
    hide Reserves;
    hide Successor;
    hide P.Context;
    hide PassesUpTo;
    hide Check;
    hide FirstFailure;
    PointMovesOn(h, P.ResumePayment(h, env, now, setup).(answer := None), s, setup);
  }

  lemma ReadsMoveOn(h: Handler, s: Ledger, env: P.Env, now: Time, setup: P.Setup)
    requires HandlerSound(h, s, setup) && !P.InSigning(h.point) && h.call.Payment? && !h.point.AwaitRegistry?
    requires h.point.AwaitApprovalRead? ==> h.answer.None? || !h.answer.value.ApprovalRead?
    ensures var next := P.ResumePayment(h, env, now, setup).(answer := None);
            HandlerSound(next, s, setup) && Successor(h, next)
  {
    hide JobSound;
    hide SignerSound;
    hide Reserves;
    hide Successor;
    hide P.Blank;
    PointMovesOn(h, P.ResumePayment(h, env, now, setup).(answer := None), s, setup);
  }

  lemma ResolveMovesOn(h: Handler, s: Ledger, env: P.Env, now: Time, setup: P.Setup)
    requires HandlerSound(h, s, setup) && !P.InSigning(h.point) && h.call.Resolve?
    ensures var next := P.ResumeResolve(h, env, now, setup).(answer := None);
            HandlerSound(next, s, setup) && Successor(h, next)
  {
    hide HandlerSound;
    hide Successor;
    hide P.ResumeResolve;
    if h.point.AwaitStoredIntent? && h.answer.Some? && h.answer.value.IntentRead? && h.answer.value.intent.Some? {
      StoredIntentMovesOn(h, s, env, now, setup);
    } else if h.point.AwaitVerification? || h.point.AwaitOwnerPolicy? || h.point.AwaitEscalationRead? {
      OwnerMovesOn(h, s, env, now, setup);
    } else {
      OutcomeMovesOn(h, s, env, now, setup);
    }
  }

  /** The reads and the owner's signature that a resolution needs before it decides. */
  lemma OwnerMovesOn(h: Handler, s: Ledger, env: P.Env, now: Time, setup: P.Setup)
    requires HandlerSound(h, s, setup) && h.call.Resolve?
    requires h.point.AwaitVerification? || h.point.AwaitOwnerPolicy? || h.point.AwaitEscalationRead?
    ensures var next := P.ResumeResolve(h, env, now, setup).(answer := None);
            HandlerSound(next, s, setup) && Successor(h, next)
  {
    hide JobSound;
    hide SignerSound;
    hide Reserves;
    hide Successor;
    hide VerifyEscalationSignature;
    hide Lower;
    PointMovesOn(h, P.ResumeResolve(h, env, now, setup).(answer := None), s, setup);
  }

  lemma OutcomeMovesOn(h: Handler, s: Ledger, env: P.Env, now: Time, setup: P.Setup)
    requires HandlerSound(h, s, setup) && !P.InSigning(h.point) && h.call.Resolve?
    requires !h.point.AwaitVerification? && !h.point.AwaitOwnerPolicy? && !h.point.AwaitEscalationRead?
    requires !(h.point.AwaitStoredIntent? && h.answer.Some? && h.answer.value.IntentRead? && h.answer.value.intent.Some?)
    ensures var next := P.ResumeResolve(h, env, now, setup).(answer := None);
            HandlerSound(next, s, setup) && Successor(h, next)
  {
    hide JobSound;
    hide SignerSound;
    hide Reserves;
    hide Successor;
    hide VerifyEscalationSignature;
    hide Lower;
    hide P.Blank;
    hide P.BeginSigning;
    PointMovesOn(h, P.ResumeResolve(h, env, now, setup).(answer := None), s, setup);
  }

  lemma StoredIntentMovesOn(h: Handler, s: Ledger, env: P.Env, now: Time, setup: P.Setup)
    requires HandlerSound(h, s, setup) && h.call.Resolve? && h.point.AwaitStoredIntent?
    requires h.answer.Some? && h.answer.value.IntentRead? && h.answer.value.intent.Some?
    ensures var next := P.ResumeResolve(h, env, now, setup).(answer := None);
            HandlerSound(next, s, setup) && Successor(h, next)
  {
    hide JobSound;
    hide SignerSound;
    hide Reserves;
    hide P.Blank;
    hide VerifyEscalationSignature;
    hide Lower;
    hide Successor;
    hide P.BeginSigning;
    var next := P.ResumeResolve(h, env, now, setup).(answer := None);
    var AwaitStoredIntent(e, m) := h.point;
    var i := h.answer.value.intent.value;
    if i.challenge.Some? && e.merchantDomain.Some? && !P.Blank(e.merchantDomain.value) {
      var c := i.challenge.value;
      SigningBegins(h, next, i, Some(e), e.mandateId, m, c, c.amount, now / 1000, e.merchantDomain.value, s, setup);
    } else {
      PointMovesOn(h, next, s, setup);
    }
  }

  // ---- Steps of the system ----------------------------------------------------------------------

  lemma ReplaceKeepsExclusive(handlers: map<nat, Handler>, id: nat, next: Handler)
    requires Exclusive(handlers)
    requires id in handlers ==> next.call == handlers[id].call
    requires Holds(next) ==> id in handlers && Holds(handlers[id])
    ensures Exclusive(handlers[id := next])
  {
    hide Holds;
  }

  lemma ReplaceKeepsSignatures(handlers: map<nat, Handler>, signatures: seq<P.Signature>, id: nat, next: Handler)
    requires SignaturesSound(handlers, signatures)
    requires id in handlers ==> Continues(handlers[id], next)
    requires next.signer.SignedBy? ==> id in handlers && next.signer == handlers[id].signer
    ensures SignaturesSound(handlers[id := next], signatures)
  {
    var after := handlers[id := next];
    forall g | g in signatures
      ensures Emitted(g, after)
    {
      assert Emitted(g, handlers);
    }
    forall a | a in after
      ensures Logged(after[a], a, signatures)
    {
      assert a in handlers ==> Logged(handlers[a], a, signatures);
    }
  }

  lemma ReplaceKeepsBacked(handlers: map<nat, Handler>, id: nat, next: Handler, i: Intent, request: string)
    requires Backed(handlers, i, request)
    requires id in handlers ==> Continues(handlers[id], next)
    ensures Backed(handlers[id := next], i, request)
  {
    hide Holds;
    var a :| a in handlers && Backs(handlers[a], i, request);
    assert Backs(handlers[id := next][a], i, request);
  }

  /** Putting a sound successor in a handler's place keeps everything. */
  lemma ReplaceKeeps(w: World, id: nat, next: Handler, setup: P.Setup)
    requires Safe(w, setup) && HandlerSound(next, w.ledger, setup)
    requires if id in w.handlers then Successor(w.handlers[id], next) else !Holds(next) && !next.signer.SignedBy?
    ensures Safe(w.(handlers := w.handlers[id := next]), setup)
  {
    var after := w.(handlers := w.handlers[id := next]);
    hide HandlerSound;
    hide Sound;
    assert id in w.handlers ==> next.call == w.handlers[id].call && (Holds(next) ==> Holds(w.handlers[id]));
    ReplaceKeepsExclusive(w.handlers, id, next);
    ReplaceKeepsSignatures(w.handlers, w.signatures, id, next);
    forall request | request in w.ledger.intents && w.ledger.intents[request].policyHash.Some?
      ensures Backed(after.handlers, w.ledger.intents[request], request)
    {
      ReplaceKeepsBacked(w.handlers, id, next, w.ledger.intents[request], request);
    }
    hide Exclusive;
    hide SignaturesSound;
    hide Backed;
    hide Successor;
    hide Holds;
  }

  /** A ledger write that neither moves the nonce of a request nor signs it, seen by its handlers. */
  lemma WriteKeepsHandler(h: Handler, s: Ledger, q: Request, now: Time, setup: P.Setup)
    requires Sound(s, setup.keccak) && HandlerSound(h, s, setup)
    requires Holds(h) ==> !MovesNonce(q, h.call.requestId)
    ensures HandlerSound(h, Handle(s, q, now, setup.keccak), setup)
  {
    var id := h.call.requestId;
    if id in s.intents {
      WriteMoves(s, q, now, setup.keccak, id);
    }
    hide Sound;
    hide Handle;
    hide BuildCommitmentNonce;
    hide InStep;
    hide SignerSound;
    hide Holds;
  }

  ghost predicate MovesNoHeldNonce(handlers: map<nat, Handler>, q: Request) {
    forall a :: a in handlers && Holds(handlers[a]) ==> !MovesNonce(q, handlers[a].call.requestId)
  }

  /** Every record the write signs is one whose signature a handler holds. */
  ghost predicate SignsOnlyBacked(w: World, q: Request, setup: P.Setup)
    requires Sound(w.ledger, setup.keccak)
  {
    forall id :: id in w.ledger.intents && SignsRecord(q, id) ==> SignsBacked(w, q, id, setup)
  }

  ghost predicate SignsBacked(w: World, q: Request, id: string, setup: P.Setup) {
    var t := Handle(w.ledger, q, w.clock, setup.keccak);
    id in t.intents && Backed(w.handlers, t.intents[id], id)
  }

  lemma WriteKeepsRecords(w: World, q: Request, setup: P.Setup)
    requires Sound(w.ledger, setup.keccak) && RecordsBacked(w) && SignsOnlyBacked(w, q, setup)
    ensures RecordsBacked(w.(ledger := Handle(w.ledger, q, w.clock, setup.keccak)))
  {
    var t := Handle(w.ledger, q, w.clock, setup.keccak);
    hide Handle;
    forall id | id in t.intents && t.intents[id].policyHash.Some?
      ensures Backed(w.handlers, t.intents[id], id)
    {
      if id in w.ledger.intents {
        WriteMoves(w.ledger, q, w.clock, setup.keccak, id);
        if !SignsRecord(q, id) {
          SameTermsSameBacking(w.handlers, w.ledger.intents[id], t.intents[id], id);
        }
      } else {
        WriteCreates(w.ledger, q, w.clock, setup.keccak, id);
      }
    }
  }

  lemma SameTermsSameBacking(handlers: map<nat, Handler>, i: Intent, j: Intent, id: string)
    requires Backed(handlers, i, id) && SameTermsSigned(i, j)
    ensures Backed(handlers, j, id)
  {
    var a :| a in handlers && Backs(handlers[a], i, id);
    assert Backs(handlers[a], j, id);
  }

  /** A write that moves no held nonce and signs only what a handler backs. */
  lemma WriteKeeps(w: World, q: Request, setup: P.Setup)
    requires Safe(w, setup) && MovesNoHeldNonce(w.handlers, q) && SignsOnlyBacked(w, q, setup)
    ensures Safe(w.(ledger := Handle(w.ledger, q, w.clock, setup.keccak)), setup)
  {
    var after := w.(ledger := Handle(w.ledger, q, w.clock, setup.keccak));
    HandleKeeps(w.ledger, q, w.clock, setup.keccak);
    WriteKeepsRecords(w, q, setup);
    hide Handle;
    hide Sound;
    hide Backed;
    hide Holds;
    hide HandlerSound;
    hide MovesNonce;
    forall a | a in w.handlers
      ensures HandlerSound(after.handlers[a], after.ledger, setup)
    {
      WriteKeepsHandler(w.handlers[a], w.ledger, q, w.clock, setup);
    }
    hide Exclusive;
    hide SignaturesSound;
  }

  lemma ReadIsSound(h: Handler, s: Ledger, now: Time, setup: P.Setup)
    requires HandlerSound(h, s, setup) && h.answer.None? && !P.Outstanding(h, setup).Write?
    ensures var next := h.(answer := P.AnswerTo(s, P.Outstanding(h, setup), now, setup.keccak));
            HandlerSound(next, s, setup) && Successor(h, next)
  {
    hide Window;
    hide StandingApprovalActive;
    hide BuildCommitmentNonce;
    hide P.JobRequest;
  }

  /** The answer to a write other than an accepted reservation never makes a handler hold one. */
  lemma WrittenIsSound(h: Handler, s: Ledger, reply: Reply, setup: P.Setup)
    requires HandlerSound(h, s, setup) && h.answer.None?
    requires h.point.AwaitReservation? ==> reply.Failed?
    ensures var next := h.(answer := Some(P.Written(reply)));
            HandlerSound(next, s, setup) && Successor(h, next)
    ensures h.point.AwaitRelease? ==> !Holds(h.(answer := Some(P.Written(reply))))
  {
    hide BuildCommitmentNonce;
    hide P.JobRequest;
  }

  /** Which writes move a nonce or sign a record: only those of the handler's own request. */
  lemma OwnWrites(h: Handler, setup: P.Setup, id: string)
    requires P.Outstanding(h, setup).Write?
    ensures var q := P.Outstanding(h, setup).request;
            && (MovesNonce(q, id) <==> (h.point.AwaitReservation? || h.point.AwaitRelease?) && h.call.requestId == id)
            && (SignsRecord(q, id) <==> h.point.AwaitSignedRecord? && h.call.requestId == id && id != "")
  {
  }

  lemma SignedRecordTerms(s: Ledger, q: Request, now: Time, keccak: Keccak, id: string)
    requires SignsRecord(q, id) && q.decidedAt.Some? && id in s.intents && s.intents[id].requestId == id
    ensures var t := Handle(s, q, now, keccak);
            && id in t.intents
            && t.intents[id].policyHash == q.policyHash && t.intents[id].merchantDomain == q.merchantDomain
            && t.intents[id].validAfter == q.validAfter && t.intents[id].validBefore == q.validBefore
  {
    hide IntentViewOf;
  }

  lemma SignedWrite(h: Handler, setup: P.Setup)
    requires InStep(h) && h.point.AwaitSignedRecord?
    ensures P.Outstanding(h, setup) == P.Write(P.SignedDecision(h.call.requestId, h.job.value, h.point.at))
  {
  }

  lemma SignedWriteBacks(h: Handler, s: Ledger, now: Time, setup: P.Setup)
    requires Sound(s, setup.keccak) && InStep(h) && h.point.AwaitSignedRecord?
    requires h.call.requestId in s.intents && h.call.requestId != ""
    ensures P.Outstanding(h, setup).Write?
    ensures var q, id := P.Outstanding(h, setup).request, h.call.requestId;
            var t := Handle(s, q, now, setup.keccak);
            id in t.intents && Backs(h, t.intents[id], id)
  {
    hide P.Outstanding;
    hide Sound;
    hide Handle;
    hide Validity;
    SignedWrite(h, setup);
    Keyed(s, h.call.requestId, setup.keccak);
    SignedRecordTerms(s, P.SignedDecision(h.call.requestId, h.job.value, h.point.at), now, setup.keccak, h.call.requestId);
  }

  /** Nobody holds the reservation of a request whose nonce the ledger is about to reserve. */
  lemma AcceptedReservation(s: Ledger, id: string, nonce: string, now: Time, keccak: Keccak)
    requires Sound(s, keccak)
    ensures var q := ReserveNonce(id, Some(nonce));
            var t := Handle(s, q, now, keccak);
            if ReplyTo(Route(s, q, now, keccak)).Sent?
            then id in s.intents && s.intents[id].nonce.None? && id in t.intents && t.intents[id].nonce == Some(nonce)
            else t == s
  {
    Keyed(s, id, keccak);
    hide Sound;
    hide IntentViewOf;
  }

  predicate Granted(h: Handler, s: Ledger) {
    h.job.Some? && h.call.requestId in s.intents && s.intents[h.call.requestId].nonce == Some(h.job.value.nonce)
  }

  predicate SomeoneHolds(handlers: map<nat, Handler>, request: string) {
    exists a :: a in handlers && Holds(handlers[a]) && handlers[a].call.requestId == request
  }

  /** A handler whose reservation was just accepted becomes the only holder. */
  lemma ClaimKeeps(w: World, id: nat, setup: P.Setup)
    requires Safe(w, setup) && id in w.handlers && w.handlers[id].answer.None?
    requires w.handlers[id].point.AwaitReservation? && Granted(w.handlers[id], w.ledger)
    requires !SomeoneHolds(w.handlers, w.handlers[id].call.requestId)
    ensures Safe(w.(handlers := w.handlers[id := w.handlers[id].(answer := Some(P.Written(Sent(200))))]), setup)
  {
    var h := w.handlers[id];
    var next := h.(answer := Some(P.Written(Sent(200))));
    var after := w.(handlers := w.handlers[id := next]);
    assert HandlerSound(h, w.ledger, setup);
    assert HandlerSound(next, w.ledger, setup) by {
      hide BuildCommitmentNonce;
      hide P.JobRequest;
    }
    ClaimIsExclusive(w.handlers, id, next);
    ReplaceKeepsSignatures(w.handlers, w.signatures, id, next);
    hide HandlerSound;
    hide Sound;
    hide Holds;
    hide Exclusive;
    hide SignaturesSound;
    forall request | request in w.ledger.intents && w.ledger.intents[request].policyHash.Some?
      ensures Backed(after.handlers, w.ledger.intents[request], request)
    {
      ReplaceKeepsBacked(w.handlers, id, next, w.ledger.intents[request], request);
    }
    hide Backed;
  }

  lemma ClaimIsExclusive(handlers: map<nat, Handler>, id: nat, next: Handler)
    requires Exclusive(handlers) && id in handlers && next.call == handlers[id].call
    requires !SomeoneHolds(handlers, handlers[id].call.requestId)
    ensures Exclusive(handlers[id := next])
  {
    hide Holds;
  }

  lemma ServeKeeps(w: World, id: nat, setup: P.Setup)
    requires Safe(w, setup) && id in w.handlers && P.Unserved(w.handlers[id], setup)
    ensures Safe(P.Served(w, id, setup), setup)
  {
    var h := w.handlers[id];
    assert HandlerSound(h, w.ledger, setup);
    if !P.Outstanding(h, setup).Write? {
      ReadIsSound(h, w.ledger, w.clock, setup);
      ReplaceKeeps(w, id, P.Served(w, id, setup).handlers[id], setup);
    } else if h.point.AwaitReservation? {
      ReservationKeeps(w, id, setup);
    } else {
      OtherWriteKeeps(w, id, setup);
    }
  }

  lemma ReservationKeeps(w: World, id: nat, setup: P.Setup)
    requires Safe(w, setup) && id in w.handlers && P.Unserved(w.handlers[id], setup)
    requires w.handlers[id].point.AwaitReservation?
    ensures Safe(P.Served(w, id, setup), setup)
  {
    var h := w.handlers[id];
    assert HandlerSound(h, w.ledger, setup);
    ReservationIsServed(w, id, setup);
    hide P.Served;
    hide HandlerSound;
    var q := ReserveNonce(h.call.requestId, Some(h.job.value.nonce));
    AcceptedReservation(w.ledger, h.call.requestId, h.job.value.nonce, w.clock, setup.keccak) by { hide HandlersSound; }
    hide Handle;
    hide Route;
    if ReplyTo(Route(w.ledger, q, w.clock, setup.keccak)).Sent? {
      GrantedKeeps(w, id, q, setup);
    } else {
      var next := P.Served(w, id, setup).handlers[id];
      WrittenIsSound(h, w.ledger, next.answer.value.reply, setup);
      ReplaceKeeps(w, id, next, setup);
    }
  }

  lemma ReservationIsServed(w: World, id: nat, setup: P.Setup)
    requires id in w.handlers && w.handlers[id].point.AwaitReservation? && InStep(w.handlers[id])
    ensures var h := w.handlers[id];
            var q := ReserveNonce(h.call.requestId, Some(h.job.value.nonce));
            var reply := ReplyTo(Route(w.ledger, q, w.clock, setup.keccak));
            && P.Served(w, id, setup) == w.(ledger := Handle(w.ledger, q, w.clock, setup.keccak),
                                            handlers := w.handlers[id := h.(answer := Some(P.Written(reply)))])
            && (reply.Sent? ==> reply == Sent(200))
  {
    hide Apply;
  }

  lemma GrantedKeeps(w: World, id: nat, q: Request, setup: P.Setup)
    requires Safe(w, setup) && id in w.handlers && w.handlers[id].answer.None? && w.handlers[id].point.AwaitReservation?
    requires var h := w.handlers[id]; h.job.Some? && q == ReserveNonce(h.call.requestId, Some(h.job.value.nonce))
    requires var t := Handle(w.ledger, q, w.clock, setup.keccak);
             && q.requestId in w.ledger.intents && w.ledger.intents[q.requestId].nonce.None?
             && q.requestId in t.intents && t.intents[q.requestId].nonce == q.nonce
    ensures var next := w.handlers[id].(answer := Some(P.Written(Sent(200))));
            Safe(w.(ledger := Handle(w.ledger, q, w.clock, setup.keccak), handlers := w.handlers[id := next]), setup)
  {
    NoHolderWithoutNonce(w, q.requestId, setup) by { hide Sound; }
    hide Handle;
    assert SignsOnlyBacked(w, q, setup);
    assert MovesNoHeldNonce(w.handlers, q) by { hide Safe; hide Holds; }
    hide Safe;
    hide MovesNoHeldNonce;
    WriteKeeps(w, q, setup);
    ClaimKeeps(w.(ledger := Handle(w.ledger, q, w.clock, setup.keccak)), id, setup);
  }

  lemma NoHolderWithoutNonce(w: World, request: string, setup: P.Setup)
    requires HandlersSound(w, setup) && request in w.ledger.intents && w.ledger.intents[request].nonce.None?
    ensures !SomeoneHolds(w.handlers, request)
  {
    forall a | a in w.handlers && Holds(w.handlers[a])
      ensures w.handlers[a].call.requestId != request
    {
      assert HandlerSound(w.handlers[a], w.ledger, setup);
    }
  }

  lemma OtherWriteKeeps(w: World, id: nat, setup: P.Setup)
    requires Safe(w, setup) && id in w.handlers && P.Unserved(w.handlers[id], setup)
    requires P.Outstanding(w.handlers[id], setup).Write? && !w.handlers[id].point.AwaitReservation?
    ensures Safe(P.Served(w, id, setup), setup)
  {
    hide Handle;
    hide Route;
    hide P.Outstanding;
    hide Holds;
    hide MovesNoHeldNonce;
    hide SignsOnlyBacked;
    var h := w.handlers[id];
    var q := P.Outstanding(h, setup).request;
    var reply := ReplyTo(Route(w.ledger, q, w.clock, setup.keccak));
    var next := h.(answer := Some(P.Written(reply)));
    var middle := w.(handlers := w.handlers[id := next]);
    assert P.Served(w, id, setup) == middle.(ledger := Handle(w.ledger, q, w.clock, setup.keccak));
    hide P.Served;
    assert HandlerSound(h, w.ledger, setup) && Sound(w.ledger, setup.keccak) && Exclusive(w.handlers);
    hide Safe;
    WrittenIsSound(h, w.ledger, reply, setup);
    ReplaceKeeps(w, id, next, setup);
    OwnNonceOnly(w, id, next, setup);
    assert InStep(h);
    hide HandlerSound;
    OwnSignatureOnly(middle, id, h, setup);
    WriteKeeps(middle, q, setup);
  }

  /** Only a release is left to move a nonce, and its handler no longer holds it. */
  lemma OwnNonceOnly(w: World, id: nat, next: Handler, setup: P.Setup)
    requires Exclusive(w.handlers) && id in w.handlers && HandlerSound(w.handlers[id], w.ledger, setup)
    requires var h := w.handlers[id];
             && P.Unserved(h, setup) && P.Outstanding(h, setup).Write? && !h.point.AwaitReservation?
             && (h.point.AwaitRelease? ==> !Holds(next))
    ensures MovesNoHeldNonce(w.handlers[id := next], P.Outstanding(w.handlers[id], setup).request)
  {
    var h := w.handlers[id];
    var q := P.Outstanding(h, setup).request;
    assert h.point.AwaitRelease? ==> Holds(h);
    forall a | a in w.handlers && a != id
      ensures Holds(w.handlers[a]) ==> !MovesNonce(q, w.handlers[a].call.requestId)
    {
      OwnWrites(h, setup, w.handlers[a].call.requestId);
    }
    OwnWrites(h, setup, next.call.requestId);
    hide P.Outstanding;
    hide HandlerSound;
    hide Holds;
  }

  lemma OwnSignatureOnly(w: World, id: nat, h: Handler, setup: P.Setup)
    requires Sound(w.ledger, setup.keccak) && InStep(h) && P.Outstanding(h, setup).Write?
    requires id in w.handlers && w.handlers[id] == h.(answer := w.handlers[id].answer)
    ensures SignsOnlyBacked(w, P.Outstanding(h, setup).request, setup)
  {
    hide P.Outstanding;
    hide SignsRecord;
    hide SignsBacked;
    hide Sound;
    hide InStep;
    var q := P.Outstanding(h, setup).request;
    forall r | r in w.ledger.intents && SignsRecord(q, r)
      ensures SignsBacked(w, q, r, setup)
    {
      OwnSignature(w, id, h, r, setup);
    }
  }

  lemma OwnSignature(w: World, id: nat, h: Handler, r: string, setup: P.Setup)
    requires Sound(w.ledger, setup.keccak) && InStep(h) && P.Outstanding(h, setup).Write?
    requires id in w.handlers && w.handlers[id] == h.(answer := w.handlers[id].answer)
    requires r in w.ledger.intents && SignsRecord(P.Outstanding(h, setup).request, r)
    ensures SignsBacked(w, P.Outstanding(h, setup).request, r, setup)
  {
    hide Handle;
    hide P.Outstanding;
    hide SignsRecord;
    hide Sound;
    hide InStep;
    var q := P.Outstanding(h, setup).request;
    OwnWrites(h, setup, r);
    SignedWriteBacks(h, w.ledger, w.clock, setup);
    assert Backs(w.handlers[id], Handle(w.ledger, q, w.clock, setup.keccak).intents[r], r);
  }

  lemma AdmitAuthorises(q: SignRequest, config: Config, seen: set<string>)
    ensures Admit(q, config, seen).Ok? ==> Authorised(q, Admit(q, config, seen).value, config)
  {
    hide Admit;
  }

  lemma AdmissionMovesOn(h: Handler, s: Ledger, seen: set<string>, setup: P.Setup)
    requires HandlerSound(h, s, setup) && h.signer.Arrived?
    ensures var next := P.Admitted(h, setup.config, seen);
            HandlerSound(next, s, setup) && Successor(h, next)
  {
    AdmitAuthorises(h.signer.request, setup.config, seen);
    hide Admit;
    hide Authorised;
    hide BuildCommitmentNonce;
    hide P.JobRequest;
  }

  lemma KeyMovesOn(h: Handler, s: Ledger, setup: P.Setup)
    requires HandlerSound(h, s, setup) && h.signer.AtKey?
    ensures var next := h.(signer := P.SignedBy(h.signer.typed));
            HandlerSound(next, s, setup) && Continues(h, next) && Holds(h)
    ensures var next := h.(signer := P.Rejected("SIGNER_UNAVAILABLE"));
            HandlerSound(next, s, setup) && Successor(h, next)
  {
    hide Authorised;
    hide BuildCommitmentNonce;
    hide P.JobRequest;
  }

  /** A signature is emitted for a call that had none. */
  lemma SignKeeps(w: World, id: nat, setup: P.Setup)
    requires Safe(w, setup) && id in w.handlers && w.handlers[id].signer.AtKey?
    ensures Safe(P.Signs(w, id), setup)
  {
    var h := w.handlers[id];
    var next := h.(signer := P.SignedBy(h.signer.typed));
    assert HandlerSound(h, w.ledger, setup);
    SignerSoundId(h, setup);
    KeyMovesOn(h, w.ledger, setup);
    ReplaceKeepsExclusive(w.handlers, id, next);
    SignatureIsAdded(w.handlers, w.signatures, id, next);
    var after := P.Signs(w, id);
    assert after.handlers == w.handlers[id := next];
    hide HandlerSound;
    hide Sound;
    hide Exclusive;
    hide SignaturesSound;
    hide Holds;
    forall request | request in w.ledger.intents && w.ledger.intents[request].policyHash.Some?
      ensures Backed(after.handlers, w.ledger.intents[request], request)
    {
      ReplaceKeepsBacked(w.handlers, id, next, w.ledger.intents[request], request);
    }
    hide Backed;
  }

  lemma SignatureIsAdded(handlers: map<nat, Handler>, signatures: seq<P.Signature>, id: nat, next: Handler)
    requires SignaturesSound(handlers, signatures) && id in handlers && !handlers[id].signer.SignedBy?
    requires Continues(handlers[id], next) && next.signer.SignedBy?
    ensures SignaturesSound(handlers[id := next],
                            signatures + [P.Signature(id, next.call.requestId, next.signer.typed)])
  {
    var after := handlers[id := next];
    var g := P.Signature(id, next.call.requestId, next.signer.typed);
    forall f | f in signatures
      ensures f.handler != id && Emitted(f, after)
    {
      assert Emitted(f, handlers);
    }
    assert Emitted(g, after);
    forall k | 0 <= k < |signatures|
      ensures signatures[k].handler != id
    {
      assert signatures[k] in signatures;
    }
    forall a | a in after
      ensures Logged(after[a], a, signatures + [g])
    {
      assert Logged(handlers[a], a, signatures);
    }
  }

  lemma SignerSoundId(h: Handler, setup: P.Setup)
    requires h.job.Some? && SignerSound(h, setup) && h.signer.AtKey?
    ensures h.signer.request.requestId == h.call.requestId
  {
  }

  lemma StartIsSound(call: P.Call, s: Ledger, setup: P.Setup)
    ensures HandlerSound(P.Start(call), s, setup) && !Holds(P.Start(call)) && P.Start(call).signer.NotCalled?
  {
  }

  /** Every step of the system keeps the invariant. */
  lemma NextKeeps(w: World, step: P.Step, setup: P.Setup)
    requires Safe(w, setup)
    ensures Safe(P.Next(w, step, setup), setup)
  {
    hide HandlerSound;
    hide Holds;
    match step {
      case Tick(_) =>
        TickKeeps(w, step, setup);
      case Spawn(id, call) =>
        StartIsSound(call, w.ledger, setup);
        hide P.Start;
        if id !in w.handlers {
          ReplaceKeeps(w, id, P.Start(call), setup);
        }
      case Serve(id) =>
        if id in w.handlers && P.Unserved(w.handlers[id], setup) {
          ServeKeeps(w, id, setup);
        }
        hide P.Served;
      case Outside(q) =>
        OutsideKeeps(w, q, setup);
      case _ =>
        HandlerStepKeeps(w, step, setup);
    }
  }

  lemma TickKeeps(w: World, step: P.Step, setup: P.Setup)
    requires Safe(w, setup) && step.Tick?
    ensures Safe(P.Next(w, step, setup), setup)
  {
    hide HandlerSound;
    hide Sound;
    hide Exclusive;
    hide Backed;
  }

  lemma HandlerStepKeeps(w: World, step: P.Step, setup: P.Setup)
    requires Safe(w, setup) && (step.Resume? || step.Abort? || step.SignerAdmits? || step.KeyAnswers?)
    ensures Safe(P.Next(w, step, setup), setup)
  {
    if step.id in w.handlers {
      var h := w.handlers[step.id];
      assert HandlerSound(h, w.ledger, setup);
      match step {
        case Resume(id, env) =>
          if P.Answered(h) {
            ResumeMovesOn(h, w.ledger, env, w.clock, setup);
            hide P.Resumed;
            hide HandlerSound;
            ReplaceKeeps(w, id, P.Resumed(h, env, w.clock, setup), setup);
          }
        case Abort(id) =>
          AbortMovesOn(h, w.ledger, setup);
          hide HandlerSound;
          ReplaceKeeps(w, id, h.(live := false), setup);
        case SignerAdmits(id) =>
          if h.signer.Arrived? {
            AdmissionMovesOn(h, w.ledger, w.seen, setup);
            hide P.Admitted;
            hide HandlerSound;
            ReplaceKeeps(w, id, P.Admitted(h, setup.config, w.seen), setup);
          }
        case KeyAnswers(id, signed) =>
          if h.signer.AtKey? {
            if signed {
              SignKeeps(w, id, setup);
            } else {
              KeyMovesOn(h, w.ledger, setup);
              hide HandlerSound;
              ReplaceKeeps(w, id, h.(signer := P.Rejected("SIGNER_UNAVAILABLE")), setup);
            }
          }
      }
    }
  }

  lemma AbortMovesOn(h: Handler, s: Ledger, setup: P.Setup)
    requires HandlerSound(h, s, setup)
    ensures var next := h.(live := false); HandlerSound(next, s, setup) && Successor(h, next)
  {
    hide Authorised;
    hide BuildCommitmentNonce;
    hide P.JobRequest;
  }

  lemma ResumeMovesOn(h: Handler, s: Ledger, env: P.Env, now: Time, setup: P.Setup)
    requires HandlerSound(h, s, setup) && P.Answered(h)
    ensures var next := P.Resumed(h, env, now, setup);
            HandlerSound(next, s, setup) && Successor(h, next)
  {
    hide HandlerSound;
    hide Successor;
    if P.InSigning(h.point) {
      SigningMovesOn(h, s, now, setup);
      hide P.ResumeSigning;
    } else if h.call.Payment? {
      PaymentMovesOn(h, s, env, now, setup);
      hide P.ResumePayment;
    } else {
      ResolveMovesOn(h, s, env, now, setup);
      hide P.ResumeResolve;
    }
  }

  lemma OutsideKeeps(w: World, q: Request, setup: P.Setup)
    requires Safe(w, setup)
    ensures Safe(P.Next(w, P.Outside(q), setup), setup)
  {
    if !P.PolicyOnly(q) {
      assert MovesNoHeldNonce(w.handlers, q);
      assert SignsOnlyBacked(w, q, setup);
      WriteKeeps(w, q, setup);
      hide Handle;
    }
  }

  lemma BeginIsSafe(clock: Time, setup: P.Setup)
    ensures Safe(P.Begin(clock), setup)
  {
  }

  /** The invariant holds after any run. */
  lemma {:induction false} RunIsSafe(clock: Time, steps: seq<P.Step>, setup: P.Setup)
    ensures Safe(P.Run(clock, steps, setup), setup)
  {
    hide Safe;
    if steps == [] {
      BeginIsSafe(clock, setup);
    } else {
      RunIsSafe(clock, steps[..|steps| - 1], setup);
      NextKeeps(P.Run(clock, steps[..|steps| - 1], setup), steps[|steps| - 1], setup);
    }
  }
}
