/**
 * services/policy-service/src/app.ts and signing.ts, in place: one handler with its local
 * variables, moved from one await to the next. Proved against the steps of SigningProtocol.
 */
module PolicyHandlers {
  import opened Wrappers
  import opened Text
  import opened Mandates
  import opened LedgerStore
  import opened PolicyChecks
  import P = SigningProtocol

  class HandlerProcess {
    const setup: P.Setup
    const call: P.Call
    var point: P.Point
    var answer: Option<P.Answer>
    var job: Option<P.Job>
    var signer: P.SignerCall
    var live: bool
    var checksPassed: seq<string>

    constructor (setup: P.Setup, call: P.Call)
      ensures this.setup == setup && this.call == call && State() == P.Start(call) && checksPassed == []
    {
      this.setup := setup;
      this.call := call;
      var start := P.Start(call);
      point, answer, job, signer, live := start.point, None, None, P.NotCalled, true;
      checksPassed := [];
    }

    function State(): P.Handler
      reads this
    {
      P.Handler(call, point, answer, job, signer, live)
    }

    method RefuseAndRecord(check: string, now: Time)
      modifies this`point
      ensures point == P.AwaitRefusedRecord(check, now, P.RefusedReply(check))
    {
      point := P.AwaitRefusedRecord(check, now, P.RefusedReply(check));
    }

    method Finish(reply: P.PolicyReply)
      modifies this`point
      ensures point == P.Finished(reply)
    {
      point := P.Finished(reply);
    }

    method FinishSigned()
      modifies this`point
      ensures State() == P.FinishSigned(old(State()))
    {
      if job.Some? && signer.SignedBy? {
        Finish(P.SignedReply(job.value.nonce, signer.typed));
      } else {
        Finish(P.Thrown);
      }
    }

    /** performSigning up to its reservation. */
    method BeginSigning(approved: Option<Escalation>, mandateId: string, mandate: Mandate, challenge: Challenge,
                        amount: nat, now: int, intentHash: string, domain: string)
      modifies this
      ensures State() == P.BeginSigning(old(State()), approved, mandateId, mandate, challenge, amount, now, intentHash,
                                        domain, setup)
      ensures checksPassed == old(checksPassed)
    {
      var policyHash := HashPolicy(setup.keccak, mandate);
      var nonce := BuildCommitmentNonce(setup.keccak, call.requestId, policyHash, intentHash, domain);
      if nonce.Err? {
        Finish(P.Thrown);
        return;
      }
      job := Some(P.Job(mandate, mandateId, challenge, amount, now, policyHash, intentHash, domain, nonce.value));
      point := P.AwaitReservation(approved);
    }

    /** The loop over the table of checks, and where its first failure leads. */
    method ClimbChecks(intent: Intent, mandate: Mandate, usage: Usage, registry: Option<Registry>, now: Time)
      requires call.Payment? && point == P.AwaitRegistry(intent, mandate, usage)
      modifies this`point, this`checksPassed
      ensures forall matches :: State() == P.ResumePayment(old(State()), P.Env(registry, matches), now, setup)
      ensures point.AwaitApprovalRead? ==> checksPassed == CHECK_NAMES
    {
      var c := P.Context(State(), intent, mandate, usage, registry, now, setup);
      var passed, failure := RunChecks(c);
      hide FirstFailure;
      hide P.Context;
      checksPassed := passed;
      if failure.None? {
        point := P.AwaitApprovalRead(intent, mandate, now / 1000);
        return;
      }
      var (k, f) := failure.value;
      if f.Refuse? {
        RefuseAndRecord(CHECK_NAMES[k], now);
      } else {
        point := P.AwaitEscalation(f.reason, CHECK_NAMES[k]);
      }
    }

    /** The ninth check, and signing once all nine have passed. */
    method MatchIntent(active: bool, matches: bool)
      requires call.Payment? && point.AwaitApprovalRead? && answer == Some(P.ApprovalRead(active))
      modifies this
      ensures forall registry, now :: State() == P.ResumePayment(old(State()), P.Env(registry, matches), now, setup)
      ensures point.AwaitReservation? ==> checksPassed == old(checksPassed) + ["check9_intent_match"]
    {
      hide P.BeginSigning;
      var AwaitApprovalRead(intent, mandate, at) := point;
      var mismatch := Check9IntentMatch(mandate, call.domain, active, matches);
      hide Check9IntentMatch;
      if mismatch.Some? {
        point := P.AwaitEscalation(mismatch.value, "check9_intent_match");
        return;
      }
      checksPassed := checksPassed + ["check9_intent_match"];
      BeginSigning(None, call.mandateId, mandate, call.challenge, call.requestedAmount, at, intent.instructionHash,
                   call.domain);
    }

    /** POST /payment/request between two awaits. */
    method ContinuePayment(env: P.Env, now: Time)
      requires call.Payment? && !P.InSigning(point)
      modifies this
      ensures State() == P.ResumePayment(old(State()), env, now, setup)
      ensures point.AwaitReservation? && old(checksPassed) == CHECK_NAMES ==>
                checksPassed == CHECK_NAMES + ["check9_intent_match"]
    {
      hide P.BeginSigning;
      hide P.Blank;
      hide PassesUpTo;
      hide Check9IntentMatch;
      if point.AwaitRegistry? {
        ClimbChecks(point.intent, point.mandate, point.usage, env.registry, now);
        return;
      }
      hide FirstFailure;
      hide P.Context;
      if point.AwaitApprovalRead? && answer.Some? && answer.value.ApprovalRead? {
        MatchIntent(answer.value.active, env.matches);
        return;
      }
      var at := point;
      Finish(P.Thrown);
      if answer.None? {
        return;
      }
      match (at, answer.value) {
        case (AwaitIntent, IntentRead(found)) =>
          if found.None? {
            RefuseAndRecord("precondition_intent_exists", now);
          } else if P.Blank(call.domain) {
            RefuseAndRecord("precondition_merchant_domain", now);
          } else {
            point := P.AwaitPolicy(found.value);
          }
        case (AwaitPolicy(intent), PolicyRead(found)) =>
          if found.None? {
            Finish(P.ErrorReply("POLICY_NOT_FOUND"));
          } else {
            point := P.AwaitWindow(intent, found.value.policy);
          }
        case (AwaitWindow(intent, mandate), WindowRead(usage)) =>
          point := P.AwaitRegistry(intent, mandate, usage);
        case (AwaitEscalation(reason, check), Written(Sent(_))) =>
          point := P.AwaitEscalatedRecord(reason, check, now);
        case (AwaitEscalatedRecord(reason, _, _), Written(Sent(_))) =>
          Finish(P.EscalatedReply(reason));
        case _ =>
      }
    }

    /** POST /escalation/:id/resolve between two awaits. */
    method ContinueResolve(env: P.Env, now: Time)
      requires call.Resolve? && !P.InSigning(point)
      modifies this
      ensures State() == P.ResumeResolve(old(State()), env, now, setup)
    {
      hide P.BeginSigning;
      hide P.Blank;
      hide VerifyEscalationSignature;
      hide Lower;
      if point.AwaitEscalationRead? || point.AwaitOwnerPolicy? || point.AwaitVerification? {
        CheckResolver(env, now);
        return;
      }
      var at := point;
      Finish(P.Thrown);
      if answer.None? {
        return;
      }
      match (at, answer.value) {
        case (AwaitStoredIntent(e, mandate), IntentRead(found)) =>
          if found.None? || found.value.challenge.None? {
            Finish(P.ErrorReply("CHALLENGE_NOT_FOUND"));
          } else if e.merchantDomain.None? || P.Blank(e.merchantDomain.value) {
            point := P.AwaitDenial(P.Approver(call), "precondition_merchant_domain",
                                   P.ErrorReply("MERCHANT_DOMAIN_REQUIRED"));
          } else {
            var challenge := found.value.challenge.value;
            point := at;
            BeginSigning(Some(e), e.mandateId, mandate, challenge, challenge.amount, now / 1000,
                         found.value.instructionHash, e.merchantDomain.value);
          }
        case (AwaitApproveRecord(e), Written(Sent(_))) =>
          point := P.AwaitSignedRecord(Some(e), now);
        case (AwaitStandingApproval(_, _), Written(Sent(_))) =>
          FinishSigned();
        case (AwaitDenial(_, check, reply), Written(Sent(_))) =>
          point := P.AwaitRefusedRecord(check, now, reply);
        case _ =>
      }
    }

    /** Its first half: the escalation is open, and the resolver is the owner and signed the decision. */
    method CheckResolver(env: P.Env, now: Time)
      requires call.Resolve? && (point.AwaitEscalationRead? || point.AwaitOwnerPolicy? || point.AwaitVerification?)
      modifies this
      ensures State() == P.ResumeResolve(old(State()), env, now, setup)
    {
      hide VerifyEscalationSignature;
      hide Lower;
      var at := point;
      if at.AwaitVerification? {
        if call.verdict.None?
           || !VerifyEscalationSignature(setup.verifyMessage, call.requestId, at.escalation.mandateId, call.verdict.value,
                                         call.signature, at.mandate.owner) {
          Finish(P.ErrorReply("ESCALATION_SIGNATURE_INVALID"));
        } else if call.verdict == Some(Deny) {
          point := P.AwaitDenial(P.Approver(call), "escalation_denied", P.RefusedReply("escalation_denied"));
        } else {
          point := P.AwaitStoredIntent(at.escalation, at.mandate);
        }
        return;
      }
      Finish(P.Thrown);
      if answer.None? {
        return;
      }
      match (at, answer.value) {
        case (AwaitEscalationRead, EscalationRead(found)) =>
          if found.None? {
            Finish(P.ErrorReply("ESCALATION_NOT_FOUND"));
          } else if found.value.resolved {
            Finish(P.ErrorReply("ESCALATION_ALREADY_RESOLVED"));
          } else if now / 1000 > found.value.expiresAt {
            point := P.AwaitDenial(None, "escalation_expired", P.ErrorReply("ESCALATION_EXPIRED"));
          } else {
            point := P.AwaitOwnerPolicy(found.value);
          }
        case (AwaitOwnerPolicy(e), PolicyRead(found)) =>
          if found.None? {
            Finish(P.ErrorReply("POLICY_NOT_FOUND"));
          } else if call.approvedBy == "" || Lower(call.approvedBy) != Lower(found.value.policy.owner) {
            Finish(P.ErrorReply("NOT_MANDATE_OWNER"));
          } else if call.signature == "" {
            Finish(P.ErrorReply("ESCALATION_SIGNATURE_REQUIRED"));
          } else {
            point := P.AwaitVerification(e, found.value.policy);
          }
        case _ =>
      }
    }

    /** performSigning and the decision after it, between two awaits. */
    method ContinueSigning(now: Time)
      requires P.InSigning(point)
      modifies this
      ensures State() == P.ResumeSigning(old(State()), now, setup)
    {
      match point {
        case AwaitSigner(approved) =>
          if signer.Rejected? {
            point := P.AwaitRelease(approved, signer.code);
          } else if signer.SignedBy? {
            point := if approved.Some? then P.AwaitApproveRecord(approved.value) else P.AwaitSignedRecord(None, now);
          }
          return;
        case _ =>
      }
      var at := point;
      Finish(P.Thrown);
      if answer.None? || !answer.value.Written? {
        return;
      }
      match (at, answer.value.reply) {
        case (AwaitReservation(approved), Sent(_)) =>
          if job.Some? {
            signer := P.Arrived(P.JobRequest(call.requestId, job.value, setup));
            point := P.AwaitSigner(approved);
          }
        case (AwaitReservation(approved), Failed(_, code)) =>
          point := P.AfterRefusal(State(), approved, code, now);
        case (AwaitRelease(approved, code), _) =>
          point := P.AfterRefusal(State(), approved, code, now);
        case (AwaitSignedRecord(approved, _), Sent(_)) =>
          if approved.Some? && call.Resolve? && call.merchantWindow && approved.value.reason.IntentMismatch?
             && Truthy(approved.value.merchantDomain) && job.Some? {
            point := P.AwaitStandingApproval(approved.value, now / 1000 + job.value.mandate.windowSeconds);
          } else {
            FinishSigned();
          }
        case (AwaitRefusedRecord(_, _, reply), Sent(_)) =>
          Finish(reply);
        case _ =>
      }
    }

    /** One resumption of the handler, wherever it was stopped. */
    method Resume(env: P.Env, now: Time)
      modifies this
      ensures State() == P.Resumed(old(State()), env, now, setup)
    {
      hide P.ResumePayment;
      hide P.ResumeResolve;
      hide P.ResumeSigning;
      if P.InSigning(point) {
        ContinueSigning(now);
      } else if call.Payment? {
        ContinuePayment(env, now);
      } else {
        ContinueResolve(env, now);
      }
      answer := None;
    }
  }
}
