/**
 * Why a signing that a handler asked for did not happen, in every run: the code it answers is that of
 * the ledger's refusal to reserve, or of the signer's refusal to sign.
 */
module Refusals {
  import opened Wrappers
  import opened Text
  import opened Mandates
  import opened LedgerStore
  import opened PolicyChecks
  import opened SignerService
  import opened SigningInvariant
  import opened Evidence
  import Answers
  import P = SigningProtocol

  /** Why the ledger does not reserve the nonce: it does not know the request, or holds another nonce for it. */
  predicate Unreserved(w: World, id: string, nonce: string, code: string) {
    || (code == "INTENT_NOT_FOUND" && id !in w.ledger.intents)
    || (code == "INVALID_BODY" && nonce == "")
    || (code == "NONCE_ALREADY_RESERVED" && id in w.ledger.intents && Truthy(w.ledger.intents[id].nonce)
        && !w.ledger.intents[id].nonceReleased)
  }

  /** The signer turned the request down, on the replay set it then had. */
  predicate TurnedDown(w: World, q: SignRequest, config: Config, code: string) {
    Admit(q, config, w.seen) == Result<TypedData>.Err(code)
  }

  ghost predicate NotReserved(past: set<World>, id: string, nonce: string, code: string) {
    exists w :: w in past && Unreserved(w, id, nonce, code)
  }

  ghost predicate NotSigned(past: set<World>, q: SignRequest, config: Config, code: string) {
    code == "SIGNER_UNAVAILABLE" || exists w :: w in past && TurnedDown(w, q, config, code)
  }

  /** The handler's signing did not happen, for the reason that the code names. */
  ghost predicate RefusedFor(h: Handler, code: string, past: set<World>, setup: P.Setup) {
    h.job.Some? &&
    match h.signer
    case NotCalled => NotReserved(past, h.call.requestId, h.job.value.nonce, code)
    case Rejected(told) =>
      told == code && NotSigned(past, P.JobRequest(h.call.requestId, h.job.value, setup), setup.config, code)
    case _ => false
  }

  /** A reply with an error, and what it is recorded under. */
  ghost predicate Told(h: Handler, check: string, reply: P.PolicyReply, past: set<World>, setup: P.Setup) {
    reply.ErrorReply? ==> if check == "signer_refused" then RefusedFor(h, reply.code, past, setup) else h.job.None?
  }

  ghost predicate SaysWhy(h: Handler, past: set<World>, setup: P.Setup) {
    && (h.signer.Rejected? ==> RefusedFor(h, h.signer.code, past, setup))
    && match h.point
       case AwaitReservation(_) =>
         h.answer.Some? && h.answer.value.Written? && h.answer.value.reply.Failed? ==>
           RefusedFor(h, h.answer.value.reply.code, past, setup)
       case AwaitRelease(_, code) => RefusedFor(h, code, past, setup)
       case AwaitDenial(_, check, reply) => Told(h, check, reply, past, setup)
       case AwaitRefusedRecord(check, _, reply) => Told(h, check, reply, past, setup)
       case Finished(reply) => reply.ErrorReply? && h.job.Some? ==> RefusedFor(h, reply.code, past, setup)
       case _ => true
  }

  ghost predicate AllSayWhy(handlers: map<nat, Handler>, past: set<World>, setup: P.Setup) {
    forall a :: a in handlers ==> SaysWhy(handlers[a], past, setup)
  }

  // ---- The steps of one handler ---------------------------------------------------------------------

  lemma WhyStays(h: Handler, past: set<World>, more: set<World>, setup: P.Setup)
    requires past <= more && SaysWhy(h, past, setup)
    ensures SaysWhy(h, more, setup)
  {
    hide Unreserved;
    hide TurnedDown;
    hide P.JobRequest;
    forall code
      ensures RefusedFor(h, code, past, setup) ==> RefusedFor(h, code, more, setup)
    {
    }
    hide RefusedFor;
  }

  lemma SigningSaysWhy(h: Handler, past: set<World>, now: Time, setup: P.Setup)
    requires SaysWhy(h, past, setup) && InStep(h) && P.InSigning(h.point)
    ensures SaysWhy(P.ResumeSigning(h, now, setup).(answer := None), past, setup)
  {
    hide NotReserved;
    hide NotSigned;
    hide P.JobRequest;
  }

  lemma PaymentSaysWhy(h: Handler, past: set<World>, env: P.Env, now: Time, setup: P.Setup)
    requires SaysWhy(h, past, setup) && InStep(h) && !P.InSigning(h.point) && h.call.Payment?
    ensures SaysWhy(P.ResumePayment(h, env, now, setup).(answer := None), past, setup)
  {
    hide NotReserved;
    hide NotSigned;
    hide FirstFailure;
    hide P.Context;
    hide Check9IntentMatch;
    hide BuildCommitmentNonce;
    hide HashPolicy;
    hide P.Blank;
  }

  lemma ResolveSaysWhy(h: Handler, past: set<World>, env: P.Env, now: Time, setup: P.Setup)
    requires SaysWhy(h, past, setup) && InStep(h) && !P.InSigning(h.point) && h.call.Resolve?
    ensures SaysWhy(P.ResumeResolve(h, env, now, setup).(answer := None), past, setup)
  {
    hide NotReserved;
    hide NotSigned;
    hide BuildCommitmentNonce;
    hide HashPolicy;
    hide VerifyEscalationSignature;
    hide Lower;
    hide P.Blank;
  }

  lemma ResumedSaysWhy(h: Handler, past: set<World>, env: P.Env, now: Time, setup: P.Setup)
    requires SaysWhy(h, past, setup) && InStep(h)
    ensures SaysWhy(P.Resumed(h, env, now, setup), past, setup)
  {
    hide SaysWhy;
    hide InStep;
    hide P.ResumeSigning;
    hide P.ResumePayment;
    hide P.ResumeResolve;
    if P.InSigning(h.point) {
      SigningSaysWhy(h, past, now, setup);
    } else if h.call.Payment? {
      PaymentSaysWhy(h, past, env, now, setup);
    } else {
      ResolveSaysWhy(h, past, env, now, setup);
    }
  }

  lemma RefusedReservation(w: World, id: string, nonce: string, setup: P.Setup)
    ensures var reply := ReplyTo(Route(w.ledger, ReserveNonce(id, Some(nonce)), w.clock, setup.keccak));
            reply.Failed? ==> Unreserved(w, id, nonce, reply.code)
  {
  }

  lemma ServedSaysWhy(w: World, a: nat, past: set<World>, setup: P.Setup)
    requires a in w.handlers && w in past && SaysWhy(w.handlers[a], past, setup) && InStep(w.handlers[a])
    requires P.Unserved(w.handlers[a], setup)
    ensures SaysWhy(P.Served(w, a, setup).handlers[a], past, setup)
  {
    hide Route;
    hide Unreserved;
    hide NotSigned;
    hide Handle;
    var h := w.handlers[a];
    var next := P.Served(w, a, setup).handlers[a];
    if h.point.AwaitReservation? {
      RefusedReservation(w, h.call.requestId, h.job.value.nonce, setup);
      assert next == h.(answer := next.answer);
    } else {
      assert next == h.(answer := next.answer) by { hide P.Outstanding; hide P.AnswerTo; }
      hide P.Outstanding;
      hide RefusedFor;
    }
  }

  lemma AdmissionSaysWhy(w: World, a: nat, past: set<World>, setup: P.Setup)
    requires a in w.handlers && w in past && SaysWhy(w.handlers[a], past, setup)
    requires InStep(w.handlers[a]) && SignerSound(w.handlers[a], setup) && w.handlers[a].signer.Arrived?
    ensures SaysWhy(P.Admitted(w.handlers[a], setup.config, w.seen), past, setup)
  {
    hide Admit;
    hide P.JobRequest;
    hide NotReserved;
    var h := w.handlers[a];
    var next := P.Admitted(h, setup.config, w.seen);
    if next.signer.Rejected? {
      assert TurnedDown(w, h.signer.request, setup.config, next.signer.code);
    }
  }

  lemma KeySaysWhy(h: Handler, next: Handler, past: set<World>, setup: P.Setup)
    requires SaysWhy(h, past, setup) && InStep(h)
    requires next == h.(live := next.live)
             || (h.signer.AtKey? && next == h.(signer := next.signer)
                 && (next.signer.SignedBy? || next.signer == P.Rejected("SIGNER_UNAVAILABLE")))
    ensures SaysWhy(next, past, setup)
  {
    hide NotReserved;
    hide P.JobRequest;
    hide TurnedDown;
  }

  // ---- Every step, every run ---------------------------------------------------------------------------

  lemma StartSaysWhy(call: P.Call, past: set<World>, setup: P.Setup)
    ensures SaysWhy(P.Start(call), past, setup)
  {
  }

  lemma HandlerParts(w: World, a: nat, setup: P.Setup)
    requires Safe(w, setup) && a in w.handlers
    ensures InStep(w.handlers[a]) && SignerSound(w.handlers[a], setup)
  {
    hide Exclusive;
    hide SignaturesSound;
    hide RecordsBacked;
    assert HandlerSound(w.handlers[a], w.ledger, setup);
    hide InStep;
    hide SignerSound;
  }

  lemma MoverSaysWhy(w: World, step: P.Step, past: set<World>, setup: P.Setup, a: nat)
    requires Safe(w, setup) && w in past && AllSayWhy(w.handlers, past, setup) && a in P.Next(w, step, setup).handlers
    ensures SaysWhy(P.Next(w, step, setup).handlers[a], past, setup)
  {
    hide SaysWhy;
    hide Safe;
    hide InStep;
    hide SignerSound;
    hide P.Resumed;
    hide P.Answered;
    hide P.Unserved;
    hide P.Served;
    hide P.Admitted;
    hide P.Start;
    hide Handle;
    if step.Serve? && step.id in w.handlers {
      Answers.ServedMovesOne(w, step.id, a, setup);
    }
    if a !in w.handlers {
      StartSaysWhy(step.call, past, setup);
    } else {
      var h, next := w.handlers[a], P.Next(w, step, setup).handlers[a];
      HandlerParts(w, a, setup);
      if next == h {
      } else if step.Serve? {
        ServedSaysWhy(w, a, past, setup);
      } else if step.Resume? {
        ResumedSaysWhy(h, past, step.env, w.clock, setup);
      } else if step.SignerAdmits? {
        AdmissionSaysWhy(w, a, past, setup);
      } else {
        KeySaysWhy(h, next, past, setup);
      }
    }
  }

  lemma NextSaysWhy(w: World, step: P.Step, past: set<World>, setup: P.Setup)
    requires Safe(w, setup) && w in past && AllSayWhy(w.handlers, past, setup)
    ensures AllSayWhy(P.Next(w, step, setup).handlers, past + {P.Next(w, step, setup)}, setup)
  {
    hide P.Next;
    hide SaysWhy;
    hide Safe;
    var after := P.Next(w, step, setup);
    forall a | a in after.handlers
      ensures SaysWhy(after.handlers[a], past + {after}, setup)
    {
      MoverSaysWhy(w, step, past, setup, a);
      WhyStays(after.handlers[a], past, past + {after}, setup);
    }
  }

  /**
   * In every run, a handler that came to sign and answers with an error answers the code of what
   * refused it: the ledger, which did not reserve the nonce, or the signer, which did not sign.
   */
  lemma {:induction false} RefusalsSayWhy(clock: Time, steps: seq<P.Step>, setup: P.Setup)
    ensures AllSayWhy(P.Run(clock, steps, setup).handlers, Past(clock, steps, setup), setup)
  {
    hide P.Next;
    hide SaysWhy;
    if steps != [] {
      hide AllSayWhy;
      hide Safe;
      hide AllStand;
      var front := steps[..|steps| - 1];
      RefusalsSayWhy(clock, front, setup);
      RunIsSafe(clock, front, setup);
      HandlersStand(clock, front, setup);
      NextSaysWhy(P.Run(clock, front, setup), steps[|steps| - 1], Past(clock, front, setup), setup);
    }
  }
}
