/**
 * Whose authority each signature rests on: a payment's signature on the eight checks against the
 * mandate, an approval's on the owner's own signature over that request, mandate and decision.
 */
module SigningAuthority {
  import opened Wrappers
  import opened Text
  import opened Mandates
  import opened LedgerStore
  import opened LedgerInvariants
  import opened PolicyChecks
  import opened SignerService
  import opened SigningInvariant
  import opened SigningSafety
  import P = SigningProtocol

  /** What the checks leave true of a payment whatever happens later: the part that is not about time. */
  predicate WithinMandate(call: P.Call, m: Mandate, setup: P.Setup)
    requires call.Payment?
  {
    && ChallengeWithin(call.challenge, m, setup.maxSaneValiditySeconds)
    && call.challenge.amount == call.requestedAmount
    && Lower(call.challenge.payTo) == Lower(m.settlementRecipient)
  }

  /** The resolver claims to be the owner of the mandate. */
  predicate ClaimsOwner(call: P.Call, m: Mandate)
    requires call.Resolve?
  {
    call.approvedBy != "" && Lower(call.approvedBy) == Lower(m.owner)
  }

  /** The owner signed an approval of this request under this mandate. */
  predicate OwnerApproved(call: P.Call, mandateId: string, m: Mandate, setup: P.Setup)
    requires call.Resolve?
  {
    && ClaimsOwner(call, m)
    && VerifyEscalationSignature(setup.verifyMessage, call.requestId, mandateId, Approve, call.signature, m.owner)
  }

  predicate JobEntitled(call: P.Call, job: P.Job, setup: P.Setup) {
    if call.Payment? then
      && WithinMandate(call, job.mandate, setup) && job.challenge == call.challenge
      && job.amount == call.requestedAmount && job.mandateId == call.mandateId
    else OwnerApproved(call, job.mandateId, job.mandate, setup) && job.amount == job.challenge.amount
  }

  /** What has been established of a handler by where it is stopped. */
  predicate Entitled(h: Handler, setup: P.Setup) {
    && (h.job.Some? ==> JobEntitled(h.call, h.job.value, setup))
    && match h.point
       case AwaitApprovalRead(_, m, _) => h.call.Payment? ==> WithinMandate(h.call, m, setup)
       case AwaitVerification(_, m) => h.call.Resolve? ==> ClaimsOwner(h.call, m)
       case AwaitStoredIntent(e, m) => h.call.Resolve? ==> OwnerApproved(h.call, e.mandateId, m, setup)
       case _ => true
  }

  ghost predicate AllEntitled(handlers: map<nat, Handler>, setup: P.Setup) {
    forall a :: a in handlers ==> Entitled(handlers[a], setup)
  }

  lemma ChecksEntitle(h: Handler, i: Intent, m: Mandate, usage: Usage, registry: Option<Registry>, now: Time,
                      setup: P.Setup)
    requires h.call.Payment? && FirstFailure(P.Context(h, i, m, usage, registry, now, setup)).None?
    ensures WithinMandate(h.call, m, setup)
  {
    ChecksPassExactlyWhenCleared(P.Context(h, i, m, usage, registry, now, setup));
    hide FirstFailure;
  }

  lemma PaymentStaysEntitled(h: Handler, env: P.Env, now: Time, setup: P.Setup)
    requires Entitled(h, setup) && h.call.Payment?
    ensures Entitled(P.ResumePayment(h, env, now, setup), setup)
  {
    hide Entitled;
    hide P.ResumePayment;
    if h.point.AwaitRegistry? {
      CheckedStaysEntitled(h, env, now, setup);
    } else if h.point.AwaitApprovalRead? {
      MatchStaysEntitled(h, env, now, setup);
    } else {
      ReaderStaysEntitled(h, env, now, setup);
    }
  }

  lemma CheckedStaysEntitled(h: Handler, env: P.Env, now: Time, setup: P.Setup)
    requires Entitled(h, setup) && h.call.Payment? && h.point.AwaitRegistry?
    ensures Entitled(P.ResumePayment(h, env, now, setup), setup)
  {
    hide WithinMandate;
    hide FirstFailure;
    hide P.Context;
    hide JobEntitled;
    if FirstFailure(P.Context(h, h.point.intent, h.point.mandate, h.point.usage, env.registry, now, setup)).None? {
      ChecksEntitle(h, h.point.intent, h.point.mandate, h.point.usage, env.registry, now, setup);
    }
  }

  lemma MatchStaysEntitled(h: Handler, env: P.Env, now: Time, setup: P.Setup)
    requires Entitled(h, setup) && h.call.Payment? && h.point.AwaitApprovalRead?
    ensures Entitled(P.ResumePayment(h, env, now, setup), setup)
  {
    hide WithinMandate;
    hide Check9IntentMatch;
    hide BuildCommitmentNonce;
    hide HashPolicy;
  }

  lemma ReaderStaysEntitled(h: Handler, env: P.Env, now: Time, setup: P.Setup)
    requires Entitled(h, setup) && h.call.Payment? && !h.point.AwaitRegistry? && !h.point.AwaitApprovalRead?
    ensures Entitled(P.ResumePayment(h, env, now, setup), setup)
  {
    hide WithinMandate;
    hide JobEntitled;
    hide P.Blank;
  }

  lemma ResolveStaysEntitled(h: Handler, env: P.Env, now: Time, setup: P.Setup)
    requires Entitled(h, setup) && h.call.Resolve?
    ensures Entitled(P.ResumeResolve(h, env, now, setup), setup)
  {
    if h.point.AwaitStoredIntent? {
      ApprovalEntitles(h, env, now, setup);
    } else {
      hide JobEntitled;
      hide WithinMandate;
      hide VerifyEscalationSignature;
      hide P.BeginSigning;
      hide Lower;
      if h.point.AwaitVerification? && h.call.verdict.Some? && h.call.verdict != Some(Deny) {
        assert h.call.verdict.value == Approve;
      }
    }
  }

  lemma ApprovalEntitles(h: Handler, env: P.Env, now: Time, setup: P.Setup)
    requires Entitled(h, setup) && h.call.Resolve? && h.point.AwaitStoredIntent?
    ensures Entitled(P.ResumeResolve(h, env, now, setup), setup)
  {
    hide OwnerApproved;
    hide WithinMandate;
    hide BuildCommitmentNonce;
    hide HashPolicy;
    hide P.Blank;
  }

  lemma ResumeStaysEntitled(h: Handler, env: P.Env, now: Time, setup: P.Setup)
    requires Entitled(h, setup)
    ensures Entitled(P.Resumed(h, env, now, setup), setup)
  {
    hide JobEntitled;
    hide WithinMandate;
    hide OwnerApproved;
    hide ClaimsOwner;
    if P.InSigning(h.point) {
      hide P.JobRequest;
    } else if h.call.Payment? {
      PaymentStaysEntitled(h, env, now, setup);
      hide P.ResumePayment;
    } else {
      ResolveStaysEntitled(h, env, now, setup);
      hide P.ResumeResolve;
    }
  }

  lemma NextStaysEntitled(w: World, step: P.Step, setup: P.Setup)
    requires AllEntitled(w.handlers, setup)
    ensures AllEntitled(P.Next(w, step, setup).handlers, setup)
  {
    hide P.Resumed;
    hide P.Answered;
    hide P.Unserved;
    hide P.LedgerAfter;
    hide P.AnswerTo;
    hide Admit;
    hide Handle;
    hide JobEntitled;
    hide WithinMandate;
    hide OwnerApproved;
    hide ClaimsOwner;
    if step.Resume? && step.id in w.handlers {
      ResumeStaysEntitled(w.handlers[step.id], step.env, w.clock, setup);
    }
  }

  lemma {:induction false} RunIsEntitled(clock: Time, steps: seq<P.Step>, setup: P.Setup)
    ensures AllEntitled(P.Run(clock, steps, setup).handlers, setup)
  {
    if steps != [] {
      RunIsEntitled(clock, steps[..|steps| - 1], setup);
      hide P.Next;
      NextStaysEntitled(P.Run(clock, steps[..|steps| - 1], setup), steps[|steps| - 1], setup);
    }
  }

  // ---- The stored challenge an approval signs --------------------------------------------------------

  /** A resolution that has read the stored challenge signs that challenge, which nobody can replace. */
  predicate SignsStored(h: Handler, s: Ledger) {
    var id := h.call.requestId;
    h.call.Resolve? ==>
      && (h.job.Some? ==> id in s.intents && s.intents[id].challenge == Some(h.job.value.challenge))
      && (h.point.AwaitStoredIntent? && h.answer.Some? && h.answer.value.IntentRead? && h.answer.value.intent.Some?
          && h.answer.value.intent.value.challenge.Some? ==>
            id in s.intents && s.intents[id].challenge == h.answer.value.intent.value.challenge)
  }

  ghost predicate AllSignStored(w: World) {
    forall a :: a in w.handlers ==> SignsStored(w.handlers[a], w.ledger)
  }

  ghost predicate ChallengesKept(s: Ledger, after: Ledger) {
    forall id :: id in s.intents && s.intents[id].challenge.Some? ==>
      id in after.intents && after.intents[id].challenge == s.intents[id].challenge
  }

  lemma WriteKeepsChallenges(s: Ledger, q: Request, now: Time, keccak: Keccak)
    requires Sound(s, keccak)
    ensures ChallengesKept(s, Handle(s, q, now, keccak))
  {
    HandleKeeps(s, q, now, keccak);
    hide Handle;
    hide Sound;
  }

  lemma StoredSurvivesWrites(h: Handler, s: Ledger, after: Ledger)
    requires SignsStored(h, s) && ChallengesKept(s, after)
    ensures SignsStored(h, after)
  {
  }

  lemma ResumeSignsStored(h: Handler, env: P.Env, now: Time, s: Ledger, setup: P.Setup)
    requires SignsStored(h, s) && h.call.Resolve?
    ensures SignsStored(P.Resumed(h, env, now, setup), s)
  {
    hide BuildCommitmentNonce;
    hide HashPolicy;
    hide VerifyEscalationSignature;
    hide Lower;
    hide P.Blank;
    hide P.JobRequest;
    if P.InSigning(h.point) {
      hide P.ResumeResolve;
    } else {
      hide P.ResumeSigning;
    }
  }

  lemma ServeSignsStored(w: World, id: nat, setup: P.Setup)
    requires AllSignStored(w) && Sound(w.ledger, setup.keccak) && id in w.handlers
    requires P.Unserved(w.handlers[id], setup)
    ensures AllSignStored(P.Served(w, id, setup))
  {
    var h := w.handlers[id];
    var c := P.Outstanding(h, setup);
    assert ChallengesKept(w.ledger, P.LedgerAfter(w.ledger, c, w.clock, setup.keccak)) by {
      if c.Write? {
        WriteKeepsChallenges(w.ledger, c.request, w.clock, setup.keccak);
      }
      hide Handle;
    }
    AnswerIsStored(h, w.ledger, w.clock, setup);
    var after := P.Served(w, id, setup);
    hide P.LedgerAfter;
    hide P.AnswerTo;
    hide P.Outstanding;
    hide Sound;
    hide ChallengesKept;
    hide SignsStored;
    forall a | a in after.handlers
      ensures SignsStored(after.handlers[a], after.ledger)
    {
      StoredSurvivesWrites(if a == id then h.(answer := after.handlers[id].answer) else w.handlers[a], w.ledger,
                           after.ledger);
    }
  }

  lemma AnswerIsStored(h: Handler, s: Ledger, now: Time, setup: P.Setup)
    requires SignsStored(h, s)
    ensures SignsStored(h.(answer := P.AnswerTo(s, P.Outstanding(h, setup), now, setup.keccak)), s)
  {
    hide Route;
    hide Window;
    hide StandingApprovalActive;
  }

  lemma NextSignsStored(w: World, step: P.Step, setup: P.Setup)
    requires AllSignStored(w) && Sound(w.ledger, setup.keccak)
    ensures AllSignStored(P.Next(w, step, setup))
  {
    hide Sound;
    hide Handle;
    hide P.Served;
    hide P.Resumed;
    hide P.Answered;
    hide P.Unserved;
    hide Admit;
    if step.Serve? {
      if step.id in w.handlers && P.Unserved(w.handlers[step.id], setup) {
        ServeSignsStored(w, step.id, setup);
      }
      hide AllSignStored;
    } else if step.Outside? {
      OutsideSignsStored(w, step.request, setup);
      hide AllSignStored;
    } else if step.Resume? {
      if step.id in w.handlers {
        ResumeKeepsKind(w.handlers[step.id], step.env, w.clock, setup);
        if w.handlers[step.id].call.Resolve? {
          ResumeSignsStored(w.handlers[step.id], step.env, w.clock, w.ledger, setup);
        }
      }
    }
  }

  lemma OutsideSignsStored(w: World, q: Request, setup: P.Setup)
    requires AllSignStored(w) && Sound(w.ledger, setup.keccak)
    ensures AllSignStored(w.(ledger := Handle(w.ledger, q, w.clock, setup.keccak)))
  {
    WriteKeepsChallenges(w.ledger, q, w.clock, setup.keccak);
    hide Handle;
    hide Sound;
  }

  lemma ResumeKeepsKind(h: Handler, env: P.Env, now: Time, setup: P.Setup)
    ensures P.Resumed(h, env, now, setup).call == h.call
  {
    hide FirstFailure;
    hide Check9IntentMatch;
    hide BuildCommitmentNonce;
    hide HashPolicy;
    hide VerifyEscalationSignature;
    hide P.JobRequest;
    hide Lower;
    hide Trim;
  }

  lemma {:induction false} RunSignsStored(clock: Time, steps: seq<P.Step>, setup: P.Setup)
    ensures AllSignStored(P.Run(clock, steps, setup))
  {
    if steps != [] {
      var front := steps[..|steps| - 1];
      RunSignsStored(clock, front, setup);
      RunIsSafe(clock, front, setup);
      assert Sound(P.Run(clock, front, setup).ledger, setup.keccak);
      hide Safe;
      hide P.Next;
      NextSignsStored(P.Run(clock, front, setup), steps[|steps| - 1], setup);
    }
  }

  // ---- What follows ------------------------------------------------------------------------------------

  /** The bounds of the signer's rail, which hold whatever policy asks for. */
  predicate WithinRail(typed: TypedData, mandateId: string, config: Config) {
    && Lower(mandateId) in config.pinned
    && typed.to == config.pinned[Lower(mandateId)].settlementRecipient
    && typed.value <= config.pinned[Lower(mandateId)].hardMaxTotal
    && typed.from == config.signerAddress && typed.domain.chainId == config.chainId == config.expected.chainId
    && Lower(typed.domain.verifyingContract) == Lower(config.expected.verifyingContract)
    && typed.domain.name == config.expected.name && typed.domain.version == config.expected.version
    && typed.validBefore - typed.validAfter <= MAX_AUTH_WINDOW_SECONDS
  }

  /** An authorisation that spends within the mandate: its token, recipient, amounts and a sane validity. */
  predicate TermsWithin(typed: TypedData, m: Mandate, setup: P.Setup) {
    && typed.domain.chainId == m.chainId && typed.domain.verifyingContract == Lower(m.asset)
    && typed.to == Lower(m.settlementRecipient)
    && MIN_AMOUNT <= typed.value && typed.value <= m.maxPerCard && typed.value <= HARD_CAP
    && typed.validBefore - typed.validAfter <= setup.maxSaneValiditySeconds
  }

  /** What a signature says, against the request it was made for. */
  predicate HasAuthority(g: P.Signature, h: Handler, setup: P.Setup) {
    h.job.Some? && h.call.requestId == g.requestId && h.signer == P.SignedBy(g.typed) &&
    var job := h.job.value;
    && WithinRail(g.typed, job.mandateId, setup.config)
    && g.typed.to == Lower(job.mandate.settlementRecipient)
    && IsLesser(g.typed.validBefore - g.typed.validAfter, job.mandate.maxAuthValiditySeconds,
                job.challenge.maxTimeoutSeconds)
    && if h.call.Payment? then
         && job.mandateId == h.call.mandateId && TermsWithin(g.typed, job.mandate, setup)
         && g.typed.value == h.call.requestedAmount && g.typed.to == Lower(h.call.challenge.payTo)
       else
         && OwnerApproved(h.call, job.mandateId, job.mandate, setup)
         && g.typed.value == job.challenge.amount
  }

  /**
   * In every interleaving, every emitted signature is within the signer's rail for its mandate and
   * pays the mandate's recipient. It rests either on a payment within the mandate, for exactly the
   * amount that was asked for, or on an approval of that very request that the mandate's owner signed.
   */
  lemma EverySignatureHasAuthority(clock: Time, steps: seq<P.Step>, setup: P.Setup, g: P.Signature)
    ensures var w := P.Run(clock, steps, setup);
            g in w.signatures ==> g.handler in w.handlers && HasAuthority(g, w.handlers[g.handler], setup)
  {
    RunIsSafe(clock, steps, setup);
    RunIsEntitled(clock, steps, setup);
    var w := P.Run(clock, steps, setup);
    hide P.Run;
    if g in w.signatures {
      assert Emitted(g, w.handlers);
      var h := w.handlers[g.handler];
      assert HandlerSound(h, w.ledger, setup) && Entitled(h, setup);
      hide Safe;
      hide AllEntitled;
      AuthorityFollows(g, h, w.ledger, setup);
    }
  }

  lemma AuthorityFollows(g: P.Signature, h: Handler, s: Ledger, setup: P.Setup)
    requires HandlerSound(h, s, setup) && Entitled(h, setup)
    requires h.call.requestId == g.requestId && h.signer == P.SignedBy(g.typed)
    ensures HasAuthority(g, h, setup)
  {
    assert h.job.Some? by { assert Holds(h) && Reserves(h, s); }
    assert SignerSound(h, setup);
    hide HandlerSound;
    SignedFields(h, setup);
    SignedDomain(h, setup);
    ValidityIsTheLesser(h.job.value.mandate, h.job.value.challenge);
    hide VerifyEscalationSignature;
    hide WithinRail;
    hide SignerSound;
  }

  lemma SignedDomain(h: Handler, setup: P.Setup)
    requires SignerSound(h, setup) && h.job.Some? && h.signer.SignedBy?
    ensures var typed, job := h.signer.typed, h.job.value;
            && typed.domain.verifyingContract == Lower(job.challenge.asset)
            && typed.domain.chainId == job.challenge.chainId
            && WithinRail(typed, job.mandateId, setup.config)
  {
    var q := P.JobRequest(h.call.requestId, h.job.value, setup);
    var typed := h.signer.typed;
    var seen: set<string> :| Admit(q, setup.config, seen) == Result<TypedData>.Ok(typed);
    AdmittedWithinRail(q, typed, setup.config, seen);
  }

  lemma AdmittedWithinRail(q: SignRequest, typed: TypedData, config: Config, seen: set<string>)
    requires Admit(q, config, seen) == Result<TypedData>.Ok(typed)
    ensures q.requestId !in seen && WithinRail(typed, q.mandateId, config)
    ensures typed.domain.chainId == q.typedData.domain.chainId
    ensures typed.domain.verifyingContract == Lower(q.typedData.domain.verifyingContract)
  {
    hide Lower;
  }

  /**
   * The rail and the owner's signature bound an approval; the mandate does so exactly when the
   * challenge stored on the ledger is within it, for the checks are not run again.
   */
  lemma ApprovalIsWithinTheMandateExactlyWhen(clock: Time, steps: seq<P.Step>, setup: P.Setup, g: P.Signature)
    requires var w := P.Run(clock, steps, setup);
             g in w.signatures && g.handler in w.handlers && w.handlers[g.handler].call.Resolve?
    ensures var w := P.Run(clock, steps, setup);
            var h := w.handlers[g.handler];
            && h.job.Some? && g.requestId in w.ledger.intents && w.ledger.intents[g.requestId].challenge.Some?
            && (TermsWithin(g.typed, h.job.value.mandate, setup) <==>
                  ChallengeWithin(w.ledger.intents[g.requestId].challenge.value, h.job.value.mandate,
                                  setup.maxSaneValiditySeconds))
  {
    EverySignatureHasAuthority(clock, steps, setup, g);
    RunIsSafe(clock, steps, setup);
    RunSignsStored(clock, steps, setup);
    var w := P.Run(clock, steps, setup);
    var h := w.handlers[g.handler];
    hide P.Run;
    assert SignsStored(h, w.ledger) && HandlerSound(h, w.ledger, setup);
    hide AllSignStored;
    hide Safe;
    assert SignerSound(h, setup);
    hide HandlerSound;
    SignedFields(h, setup);
    SignedDomain(h, setup);
    ValidityIsTheLesser(h.job.value.mandate, h.job.value.challenge);
    hide SignerSound;
    hide OwnerApproved;
    hide WithinRail;
    hide Validity;
  }
}
