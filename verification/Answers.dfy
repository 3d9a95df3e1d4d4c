/**
 * What policy and the signer leave behind, in every run: each answer that tells of a decision is on
 * the decision log, each refused signing has freed the nonce, and the replay set is what was signed.
 */
module Answers {
  import opened Wrappers
  import opened Mandates
  import opened LedgerStore
  import opened LedgerInvariants
  import LedgerHistory
  import Text
  import opened PolicyChecks
  import opened SignerService
  import opened SigningInvariant
  import opened SigningSafety
  import opened RecordedDecision
  import opened Evidence
  import opened Explained
  import P = SigningProtocol

  // ---- On the log -----------------------------------------------------------------------------------

  /** The log has this decision on the request, under this check. */
  predicate Logged(s: Ledger, id: string, decision: Decision, check: Option<string>) {
    exists k :: 0 <= k < |s.log| && IsEntry(s.log[k], id, decision, check)
  }

  predicate IsEntry(e: LogEntry, id: string, decision: Decision, check: Option<string>) {
    e.requestId == id && e.decision == decision && e.check == check
  }

  /** The feed says that the nonce of the request was released. */
  predicate Freed(s: Ledger, id: string) {
    exists k :: 0 <= k < |s.events| && IsRelease(s.events[k], id)
  }

  predicate IsRelease(e: Event, id: string) {
    e.kind.NonceReleasedEvent? && e.intent.Some? && e.intent.value.requestId == id
  }

  /** What a handler has recorded before it goes on, and before it answers. */
  ghost predicate Recorded(h: Handler, s: Ledger) {
    var id := h.call.requestId;
    match h.point
    case AwaitRefusedRecord(check, _, _) => Accepted(h.answer) ==> Logged(s, id, Refused, Some(check))
    case AwaitEscalatedRecord(_, check, _) => Accepted(h.answer) ==> Logged(s, id, Escalated, Some(check))
    case AwaitSignedRecord(_, _) => Accepted(h.answer) ==> Logged(s, id, Signed, None)
    case AwaitStandingApproval(_, _) => Logged(s, id, Signed, None)
    case Finished(reply) =>
      (match reply
       case SignedReply(_, _) => Logged(s, id, Signed, None)
       case RefusedReply(check) => Logged(s, id, Refused, Some(check))
       case EscalatedReply(_) => exists check :: Logged(s, id, Escalated, Some(check))
       case ErrorReply(code) =>
         && (h.job.Some? ==> exists check :: Logged(s, id, Refused, Some(check)))
         && (h.job.None? && code == "ESCALATION_EXPIRED" ==> Logged(s, id, Refused, Some("escalation_expired")))
         && (h.job.None? && code == "MERCHANT_DOMAIN_REQUIRED" ==> Logged(s, id, Refused, Some("precondition_merchant_domain")))
       case Thrown => true)
    case _ => true
  }

  /** Once a handler whose signing was refused goes on, its nonce has been released. */
  predicate Released(h: Handler, s: Ledger) {
    h.signer.Rejected? && !h.point.AwaitSigner? && (h.point.AwaitRelease? ==> h.answer.Some?) ==> Freed(s, h.call.requestId)
  }

  ghost predicate Done(h: Handler, s: Ledger) {
    Recorded(h, s) && Released(h, s)
  }

  ghost predicate AllDone(handlers: map<nat, Handler>, s: Ledger) {
    forall a :: a in handlers ==> Done(handlers[a], s)
  }

  lemma LogOnlyGrows(s: Ledger, t: Ledger, id: string, decision: Decision, check: Option<string>)
    requires s.log <= t.log && Logged(s, id, decision, check)
    ensures Logged(t, id, decision, check)
  {
    hide IsEntry;
    var k :| 0 <= k < |s.log| && IsEntry(s.log[k], id, decision, check);
    assert t.log[k] == s.log[k];
  }

  lemma FeedOnlyGrows(s: Ledger, t: Ledger, id: string)
    requires s.events <= t.events && Freed(s, id)
    ensures Freed(t, id)
  {
    hide IsRelease;
    var k :| 0 <= k < |s.events| && IsRelease(s.events[k], id);
    assert t.events[k] == s.events[k];
  }

  lemma DoneStays(h: Handler, s: Ledger, t: Ledger)
    requires Done(h, s) && s.log <= t.log && s.events <= t.events
    ensures Done(h, t)
  {
    hide Logged;
    hide Freed;
    forall decision, check | Logged(s, h.call.requestId, decision, check)
      ensures Logged(t, h.call.requestId, decision, check)
    {
      LogOnlyGrows(s, t, h.call.requestId, decision, check);
    }
    if Freed(s, h.call.requestId) {
      FeedOnlyGrows(s, t, h.call.requestId);
    }
  }

  // ---- A handler goes on ---------------------------------------------------------------------------

  lemma SigningIsDone(h: Handler, s: Ledger, past: set<World>, now: Time, setup: P.Setup)
    requires Done(h, s) && Stands(h, past, setup) && InStep(h) && P.InSigning(h.point) && P.Answered(h)
    ensures Done(P.ResumeSigning(h, now, setup).(answer := None), s)
  {
    hide Logged;
    hide Freed;
    hide P.JobRequest;
    hide Justified;
    hide AnswerRead;
    hide At;
    hide Refuses;
    hide Escalates;
    hide Opened;
    hide OwnerSaid;
    hide TooLate;
    hide HeldEscalation;
    if h.point.AwaitRefusedRecord? {
      RefusedIsDone(h, s, past, now, setup);
    } else {
      hide Stands;
    }
  }

  lemma RefusedIsDone(h: Handler, s: Ledger, past: set<World>, now: Time, setup: P.Setup)
    requires Done(h, s) && Stands(h, past, setup) && h.point.AwaitRefusedRecord? && P.Answered(h)
    ensures Done(P.ResumeSigning(h, now, setup).(answer := None), s)
  {
    hide Logged;
    hide Freed;
    hide Justified;
    hide AnswerRead;
    hide At;
    hide Refuses;
    hide Opened;
    hide OwnerSaid;
    hide TooLate;
    var next := P.ResumeSigning(h, now, setup).(answer := None);
    if Accepted(h.answer) {
      assert next == h.(point := P.Finished(h.point.reply), answer := None);
    } else {
      assert next == h.(point := P.Finished(P.Thrown), answer := None);
    }
    hide P.ResumeSigning;
  }

  lemma PaymentIsDone(h: Handler, s: Ledger, env: P.Env, now: Time, setup: P.Setup)
    requires Done(h, s) && InStep(h) && !P.InSigning(h.point) && h.call.Payment? && P.Answered(h)
    ensures Done(P.ResumePayment(h, env, now, setup).(answer := None), s)
  {
    hide Logged;
    hide Freed;
    hide FirstFailure;
    hide P.Context;
    hide Check9IntentMatch;
    hide BuildCommitmentNonce;
    hide HashPolicy;
    hide P.Blank;
  }

  lemma ResolveIsDone(h: Handler, s: Ledger, env: P.Env, now: Time, setup: P.Setup)
    requires Done(h, s) && InStep(h) && !P.InSigning(h.point) && h.call.Resolve? && P.Answered(h)
    ensures Done(P.ResumeResolve(h, env, now, setup).(answer := None), s)
  {
    hide Logged;
    hide Freed;
    hide BuildCommitmentNonce;
    hide HashPolicy;
    hide VerifyEscalationSignature;
    hide Text.Lower;
    hide P.Blank;
  }

  lemma ResumedIsDone(h: Handler, s: Ledger, past: set<World>, env: P.Env, now: Time, setup: P.Setup)
    requires Done(h, s) && Stands(h, past, setup) && InStep(h) && P.Answered(h)
    ensures Done(P.Resumed(h, env, now, setup), s)
  {
    hide Done;
    hide Stands;
    hide InStep;
    hide P.ResumeSigning;
    hide P.ResumePayment;
    hide P.ResumeResolve;
    if P.InSigning(h.point) {
      SigningIsDone(h, s, past, now, setup);
    } else if h.call.Payment? {
      PaymentIsDone(h, s, env, now, setup);
    } else {
      ResolveIsDone(h, s, env, now, setup);
    }
  }

  // ---- The ledger serves a call ------------------------------------------------------------------------

  /** A decision the ledger accepts is then the last of the log. */
  lemma AcceptedDecisionIsLogged(s: Ledger, q: Request, now: Time, keccak: Keccak)
    requires q.RecordDecision? && q.newId.Some? && q.decision.Some? && ReplyTo(Route(s, q, now, keccak)).Sent?
    ensures Logged(Handle(s, q, now, keccak), q.newId.value, q.decision.value, q.check)
  {
    hide IntentViewOf;
    var t := Handle(s, q, now, keccak);
    assert IsEntry(t.log[|s.log|], q.newId.value, q.decision.value, q.check);
  }

  /** Who holds the reservation of a request and was refused its signature: nobody was signed for it. */
  lemma HolderIsUnsigned(w: World, a: nat, past: set<World>, setup: P.Setup)
    requires Safe(w, setup) && LogExplained(w, past, setup) && a in w.handlers
    requires Holds(w.handlers[a]) && !w.handlers[a].signer.SignedBy?
    ensures var id := w.handlers[a].call.requestId; id in w.ledger.intents && w.ledger.intents[id].decision != Some(Signed)
  {
    hide Decided;
    var h := w.handlers[a];
    var id := h.call.requestId;
    assert HandlerSound(h, w.ledger, setup);
    hide HandlerSound;
    assert Reserves(h, w.ledger) by { assert HandlerSound(h, w.ledger, setup); HolderReserves(h, w.ledger, setup); }
    if w.ledger.intents[id].decision == Some(Signed) {
      assert RecordSound(w.ledger.intents[id], id, LastEntry(w.ledger.log, id), Reserved(w.ledger.events, id), setup.keccak);
      var e := LastEntry(w.ledger.log, id).value;
      LastIsAnEntry(w.ledger.log, id);
      var b :| b in w.handlers && Decided(w.handlers[b], e, past, setup);
      SignedWasDecided(w.handlers[b], e, past, setup);
    }
  }

  lemma HolderReserves(h: Handler, s: Ledger, setup: P.Setup)
    requires HandlerSound(h, s, setup)
    ensures Reserves(h, s)
  {
  }

  lemma SignedWasDecided(h: Handler, e: LogEntry, past: set<World>, setup: P.Setup)
    requires Decided(h, e, past, setup) && e.decision.Signed?
    ensures h.signer.SignedBy? && Holds(h) && h.call.requestId == e.requestId
  {
    hide Justified;
  }

  lemma {:induction false} LastIsAnEntry(log: seq<LogEntry>, id: string)
    requires LastEntry(log, id).Some?
    ensures LastEntry(log, id).value in log && LastEntry(log, id).value.requestId == id
  {
    if log[|log| - 1].requestId != id {
      LastIsAnEntry(log[..|log| - 1], id);
    }
  }

  /** A refused signing always gets its nonce released. */
  lemma ReleaseIsAccepted(w: World, a: nat, past: set<World>, setup: P.Setup)
    requires Safe(w, setup) && LogExplained(w, past, setup) && a in w.handlers
    requires w.handlers[a].point.AwaitRelease? && w.handlers[a].answer.None?
    ensures var q := ReleaseNonce(w.handlers[a].call.requestId);
            && ReplyTo(Route(w.ledger, q, w.clock, setup.keccak)).Sent?
            && Freed(Handle(w.ledger, q, w.clock, setup.keccak), w.handlers[a].call.requestId)
  {
    hide Handle;
    hide Route;
    hide LogExplained;
    hide HandlersSound;
    hide Exclusive;
    hide SignaturesSound;
    hide RecordsBacked;
    var h := w.handlers[a];
    var id := h.call.requestId;
    var q := ReleaseNonce(id);
    assert InStep(h) && Reserves(h, w.ledger) by { HandlerIsSound(w, a, setup); }
    HolderIsUnsigned(w, a, past, setup);
    assert Sound(w.ledger, setup.keccak);
    hide Safe;
    Keyed(w.ledger, id, setup.keccak);
    assert "" !in w.ledger.intents;
    hide Sound;
    LedgerHistory.AcceptedExactlyWhen(w.ledger, q, w.clock, setup.keccak);
    LedgerHistory.StepIsAnnouncedOnce(w.ledger, Timed(q, w.clock), setup.keccak);
    var t := Handle(w.ledger, q, w.clock, setup.keccak);
    assert IsRelease(t.events[|w.ledger.events|], id);
  }

  lemma HandlerIsSound(w: World, a: nat, setup: P.Setup)
    requires Safe(w, setup) && a in w.handlers
    ensures InStep(w.handlers[a]) && Reserves(w.handlers[a], w.ledger)
  {
    hide Sound;
    hide Exclusive;
    hide SignaturesSound;
    hide RecordsBacked;
    assert HandlerSound(w.handlers[a], w.ledger, setup);
    hide InStep;
    hide Reserves;
  }

  /** What the ledger's answer adds to what a handler has done. */
  lemma ServedIsDone(w: World, a: nat, past: set<World>, setup: P.Setup)
    requires Safe(w, setup) && LogExplained(w, past, setup) && a in w.handlers && Done(w.handlers[a], w.ledger)
    requires P.Unserved(w.handlers[a], setup)
    ensures Done(P.Served(w, a, setup).handlers[a], P.Served(w, a, setup).ledger)
  {
    hide Logged;
    hide Freed;
    hide Handle;
    hide Route;
    hide LogExplained;
    var h := w.handlers[a];
    var c := P.Outstanding(h, setup);
    HandlerIsSound(w, a, setup);
    var after := P.Served(w, a, setup);
    if c.Write? {
      HandleKeeps(w.ledger, c.request, w.clock, setup.keccak) by { hide HandlersSound; }
      hide Safe;
      DoneStays(h, w.ledger, after.ledger);
      var reply := ReplyTo(Route(w.ledger, c.request, w.clock, setup.keccak));
      assert after.handlers[a] == h.(answer := Some(P.Written(reply)));
      if reply.Sent? && c.request.RecordDecision? {
        RecordingIsComplete(h, setup);
        AcceptedDecisionIsLogged(w.ledger, c.request, w.clock, setup.keccak);
      }
      if h.point.AwaitRelease? {
        ReleaseIsAccepted(w, a, past, setup);
      }
      WrittenIsDone(h, after.ledger, reply, setup);
    } else {
      hide Safe;
      ReadIsDone(h, after.handlers[a], w.ledger, setup);
    }
  }

  lemma RecordingIsComplete(h: Handler, setup: P.Setup)
    requires P.Outstanding(h, setup).Write? && P.Outstanding(h, setup).request.RecordDecision?
    ensures var q := P.Outstanding(h, setup).request;
            && q.newId == Some(h.call.requestId) && q.decision.Some?
            && (match h.point
                case AwaitRefusedRecord(check, _, _) => q.decision == Some(Refused) && q.check == Some(check)
                case AwaitEscalatedRecord(_, check, _) => q.decision == Some(Escalated) && q.check == Some(check)
                case AwaitSignedRecord(_, _) => q.decision == Some(Signed) && q.check == None
                case _ => false)
  {
  }

  lemma WrittenIsDone(h: Handler, s: Ledger, reply: Reply, setup: P.Setup)
    requires Done(h, s) && InStep(h) && P.Outstanding(h, setup).Write?
    requires var q := P.Outstanding(h, setup).request;
             reply.Sent? && q.RecordDecision? && q.newId.Some? && q.decision.Some? ==>
               Logged(s, q.newId.value, q.decision.value, q.check)
    requires h.point.AwaitRelease? ==> Freed(s, h.call.requestId)
    ensures Done(h.(answer := Some(P.Written(reply))), s)
  {
    hide Logged;
    hide Freed;
  }

  lemma ReadIsDone(h: Handler, next: Handler, s: Ledger, setup: P.Setup)
    requires Done(h, s) && !P.Outstanding(h, setup).Write? && next == h.(answer := next.answer) && InStep(h)
    requires h.answer.None? && !P.Outstanding(h, setup).NoCall?
    ensures Done(next, s)
  {
    hide Logged;
    hide Freed;
  }

  // ---- Every step, every run ---------------------------------------------------------------------------

  lemma LedgerOnlyGrows(w: World, step: P.Step, setup: P.Setup)
    requires Safe(w, setup)
    ensures var after := P.Next(w, step, setup).ledger; w.ledger.log <= after.log && w.ledger.events <= after.events
  {
    hide Handle;
    hide P.Next;
    hide HandlersSound;
    hide Exclusive;
    hide SignaturesSound;
    hide RecordsBacked;
    var q := LedgerMoves(w, step, setup);
    if q.Some? {
      HandleKeeps(w.ledger, q.value, w.clock, setup.keccak);
    }
  }

  lemma StartIsDone(call: P.Call, s: Ledger)
    ensures Done(P.Start(call), s)
  {
    hide Logged;
    hide Freed;
  }

  lemma SignerIsDone(h: Handler, next: Handler, s: Ledger)
    requires Done(h, s) && InStep(h) && next == h.(live := next.live, signer := next.signer)
    requires next.signer.Rejected? ==> h.signer.Rejected? || h.signer.Arrived? || h.signer.AtKey?
    ensures Done(next, s)
  {
    hide Logged;
    hide Freed;
  }

  lemma MoverIsDone(w: World, step: P.Step, past: set<World>, setup: P.Setup, a: nat)
    requires Safe(w, setup) && AllExplained(w, past, setup) && w in past && AllDone(w.handlers, w.ledger)
    requires a in P.Next(w, step, setup).handlers
    ensures Done(P.Next(w, step, setup).handlers[a], P.Next(w, step, setup).ledger)
  {
    hide Done;
    hide Stands;
    hide Safe;
    hide LogExplained;
    hide EscalationsExplained;
    hide P.Resumed;
    hide P.Answered;
    hide P.Unserved;
    hide P.Served;
    hide P.Start;
    hide Handle;
    hide Admit;
    hide InStep;
    var after := P.Next(w, step, setup);
    LedgerOnlyGrows(w, step, setup);
    if step.Serve? && step.id in w.handlers {
      ServedMovesOne(w, step.id, a, setup);
    }
    if a !in w.handlers {
      StartIsDone(step.call, after.ledger);
    } else {
      var h := w.handlers[a];
      HandlerIsSound(w, a, setup);
      if after.handlers[a] == h {
        DoneStays(h, w.ledger, after.ledger);
      } else if step.Serve? {
        ServedIsDone(w, a, past, setup);
      } else if step.Resume? {
        AtIsHere(w, past);
        ResumedIsDone(h, w.ledger, past, step.env, w.clock, setup);
      } else {
        SignerIsDone(h, after.handlers[a], w.ledger);
      }
    }
  }

  lemma AtIsHere(w: World, past: set<World>)
    requires w in past
    ensures At(past, w.clock)
  {
  }

  lemma ServedMovesOne(w: World, id: nat, a: nat, setup: P.Setup)
    requires id in w.handlers
    ensures P.Served(w, id, setup).handlers.Keys == w.handlers.Keys
    ensures id != a && a in w.handlers ==> P.Served(w, id, setup).handlers[a] == w.handlers[a]
  {
    hide P.Outstanding;
    hide P.AnswerTo;
    hide P.LedgerAfter;
  }

  lemma NextIsDone(w: World, step: P.Step, past: set<World>, setup: P.Setup)
    requires Safe(w, setup) && AllExplained(w, past, setup) && w in past && AllDone(w.handlers, w.ledger)
    ensures AllDone(P.Next(w, step, setup).handlers, P.Next(w, step, setup).ledger)
  {
    hide P.Next;
    hide Done;
    hide Safe;
    hide AllExplained;
    var after := P.Next(w, step, setup);
    forall a | a in after.handlers
      ensures Done(after.handlers[a], after.ledger)
    {
      MoverIsDone(w, step, past, setup, a);
    }
  }

  /**
   * In every run, whatever a handler answers of a decision is on the log, and every handler whose
   * signing was refused has freed the nonce before it went on.
   */
  lemma {:induction false} AnswersAreOnRecord(clock: Time, steps: seq<P.Step>, setup: P.Setup)
    ensures AllDone(P.Run(clock, steps, setup).handlers, P.Run(clock, steps, setup).ledger)
  {
    hide P.Next;
    hide Done;
    if steps != [] {
      hide AllDone;
      hide AllExplained;
      hide AllStand;
      hide Safe;
      var front := steps[..|steps| - 1];
      AnswersAreOnRecord(clock, front, setup);
      RunIsSafe(clock, front, setup);
      RunIsExplained(clock, front, setup);
      HandlersStand(clock, front, setup);
      NextIsDone(P.Run(clock, front, setup), steps[|steps| - 1], Past(clock, front, setup), setup);
    }
  }

  // ---- The replay set ------------------------------------------------------------------------------------

  ghost predicate SeenIsSigned(w: World) {
    forall id :: id in w.seen <==> exists g :: g in w.signatures && g.requestId == id
  }

  lemma SignatureIsSeen(w: World, g: P.Signature)
    requires SeenIsSigned(w)
    ensures SeenIsSigned(w.(seen := w.seen + {g.requestId}, signatures := w.signatures + [g]))
  {
    var more := w.signatures + [g];
    assert g in more && forall f :: f in w.signatures ==> f in more;
  }

  lemma NextSeen(w: World, step: P.Step, setup: P.Setup)
    requires SeenIsSigned(w)
    ensures SeenIsSigned(P.Next(w, step, setup))
  {
    hide P.Resumed;
    hide P.Answered;
    hide P.Unserved;
    hide P.LedgerAfter;
    hide P.AnswerTo;
    hide P.Outstanding;
    hide P.Start;
    hide P.Admitted;
    hide Handle;
    if step.KeyAnswers? && step.signed && step.id in w.handlers && w.handlers[step.id].signer.AtKey? {
      var call := w.handlers[step.id].signer;
      SignatureIsSeen(w, P.Signature(step.id, call.request.requestId, call.typed));
    }
  }

  /** In every run the replay set holds exactly the requests that were signed. */
  lemma {:induction false} ReplaySetIsWhatWasSigned(clock: Time, steps: seq<P.Step>, setup: P.Setup)
    ensures SeenIsSigned(P.Run(clock, steps, setup))
  {
    hide P.Next;
    if steps != [] {
      hide SeenIsSigned;
      ReplaySetIsWhatWasSigned(clock, steps[..|steps| - 1], setup);
      NextSeen(P.Run(clock, steps[..|steps| - 1], setup), steps[|steps| - 1], setup);
    }
  }

  // ---- The standing approval --------------------------------------------------------------------------------

  /**
   * Once its signature is on record, an approval extends to the merchant exactly when the owner asked
   * for that, the escalation was about the item, and it names a merchant; otherwise it answers.
   */
  lemma ApprovalExtendsExactlyWhen(h: Handler, now: Time, setup: P.Setup)
    requires InStep(h) && h.point.AwaitSignedRecord? && Accepted(h.answer)
    ensures var approved := h.point.approved;
            var next := P.ResumeSigning(h, now, setup);
            if approved.Some? && h.call.Resolve? && h.call.merchantWindow && approved.value.reason.IntentMismatch?
               && approved.value.merchantDomain.Some? && approved.value.merchantDomain.value != ""
            then
              && next.point == P.AwaitStandingApproval(approved.value, now / 1000 + h.job.value.mandate.windowSeconds)
              && P.Outstanding(next.(answer := None), setup)
                 == P.Write(SetStandingApproval(Some(approved.value.mandateId), approved.value.merchantDomain,
                                                Some(now / 1000 + h.job.value.mandate.windowSeconds)))
            else next.point == P.Finished(P.SignedReply(h.job.value.nonce, h.signer.typed))
  {
  }
}
