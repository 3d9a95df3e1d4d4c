/**
 * The rolling budget by what the signer emitted rather than by what the ledger recorded: a payment's
 * signature counts from the moment it exists, unless its handler was cut off before it was recorded.
 */
module EmittedBudget {
  import opened Wrappers
  import opened Mandates
  import opened LedgerStore
  import opened LedgerInvariants
  import opened PolicyChecks
  import opened SignerService
  import opened SigningInvariant
  import opened SigningAuthority
  import opened RollingWindow
  import opened RollingBudget
  import P = SigningProtocol

  /** The payments of the mandate that the signer has signed for. */
  function EmittedOf(w: World, t: Terms): set<nat> {
    set a | a in w.handlers && Ours(w.handlers[a], t) && w.handlers[a].signer.SignedBy?
  }

  /** Cut off between its signature and its record. */
  predicate CutOff(h: Handler) {
    h.signer.SignedBy? && h.point.AwaitSigner? && !h.live
  }

  /** A payment that was signed for and has answered, answered with the signature. */
  predicate AnswersSigned(h: Handler, t: Terms) {
    Ours(h, t) && h.signer.SignedBy? && h.point.Finished? ==> h.point.reply.SignedReply?
  }

  ghost predicate AllAnswerSigned(handlers: map<nat, Handler>, t: Terms) {
    forall a :: a in handlers ==> AnswersSigned(handlers[a], t)
  }

  // ---- Signed payments answer signed --------------------------------------------------------------------

  lemma SignedResumes(h: Handler, read: bool, s: Ledger, env: P.Env, now: Time, t: Terms, setup: P.Setup)
    requires AnswersSigned(h, t) && InStep(h) && P.Answered(h) && (Ours(h, t) ==> Placed(h, read, s, t))
    ensures AnswersSigned(P.Resumed(h, env, now, setup), t)
  {
    hide P.JobRequest;
    hide HasChallenge;
    hide Attached;
    ResumeKeepsKind(h, env, now, setup);
    if Ours(h, t) {
      if P.InSigning(h.point) {
        SigningAnswers(h, read, s, now, t, setup);
        hide P.ResumeSigning;
      } else {
        PaymentDoesNotSign(h, env, now, setup);
        hide P.ResumePayment;
      }
    } else {
      hide P.ResumeSigning;
      hide P.ResumePayment;
      hide P.ResumeResolve;
    }
  }

  lemma SigningAnswers(h: Handler, read: bool, s: Ledger, now: Time, t: Terms, setup: P.Setup)
    requires Ours(h, t) && InStep(h) && P.Answered(h) && P.InSigning(h.point) && Placed(h, read, s, t)
    ensures AnswersSigned(P.ResumeSigning(h, now, setup).(answer := None), t)
  {
    hide P.JobRequest;
    hide HasChallenge;
  }

  /** Outside performSigning the signer is not involved. */
  lemma PaymentDoesNotSign(h: Handler, env: P.Env, now: Time, setup: P.Setup)
    requires h.call.Payment?
    ensures P.ResumePayment(h, env, now, setup).signer == h.signer
  {
    hide FirstFailure;
    hide P.Context;
    hide Check9IntentMatch;
    hide BuildCommitmentNonce;
    hide HashPolicy;
    hide P.Blank;
  }

  lemma NextAnswersSigned(o: Seen, step: P.Step, t: Terms, setup: P.Setup)
    requires Tracked(o, t, setup) && AllAnswerSigned(o.world.handlers, t)
    ensures AllAnswerSigned(P.Next(o.world, step, setup).handlers, t)
  {
    hide P.Next;
    hide P.Resumed;
    hide P.Answered;
    hide Placed;
    hide Tracked;
    hide InStep;
    hide AnswersSigned;
    var w := o.world;
    if (step.Resume? || step.KeyAnswers?) && step.id in w.handlers {
      StandsWhere(o, step.id, t, setup);
      if step.Resume? && P.Answered(w.handlers[step.id]) {
        SignedResumes(w.handlers[step.id], step.id in o.readings, w.ledger, step.env, w.clock, t, setup);
      }
      OneAnswers(w, step, t, setup);
    } else {
      OthersAnswer(w, step, t, setup);
    }
  }

  lemma OneAnswers(w: World, step: P.Step, t: Terms, setup: P.Setup)
    requires AllAnswerSigned(w.handlers, t) && (step.Resume? || step.KeyAnswers?) && step.id in w.handlers
    requires InStep(w.handlers[step.id])
    requires step.Resume? && P.Answered(w.handlers[step.id]) ==>
               AnswersSigned(P.Resumed(w.handlers[step.id], step.env, w.clock, setup), t)
    ensures AllAnswerSigned(P.Next(w, step, setup).handlers, t)
  {
    hide P.Resumed;
    hide P.Answered;
    hide Ours;
  }

  lemma OthersAnswer(w: World, step: P.Step, t: Terms, setup: P.Setup)
    requires AllAnswerSigned(w.handlers, t) && (step.Resume? || step.KeyAnswers? ==> step.id !in w.handlers)
    ensures AllAnswerSigned(P.Next(w, step, setup).handlers, t)
  {
    hide P.Resumed;
    hide P.Answered;
    hide P.Unserved;
    hide P.LedgerAfter;
    hide P.AnswerTo;
    hide Admit;
    hide Handle;
  }

  lemma StandsWhere(o: Seen, a: nat, t: Terms, setup: P.Setup)
    requires Tracked(o, t, setup) && a in o.world.handlers
    ensures InStep(o.world.handlers[a])
    ensures Ours(o.world.handlers[a], t) ==> Placed(o.world.handlers[a], a in o.readings, o.world.ledger, t)
  {
    hide Placed;
    hide InStep;
    hide Ours;
    hide AliveFaithful;
    hide Overlap;
    hide ReadsSound;
    hide EscalationsOwned;
    hide ResolvesEscalated;
    assert HandlerSound(o.world.handlers[a], o.world.ledger, setup);
  }

  lemma {:induction false} RunAnswersSigned(clock: Time, steps: seq<P.Step>, t: Terms, setup: P.Setup)
    requires AssumedAlong(clock, steps, t, setup)
    ensures AllAnswerSigned(P.Run(clock, steps, setup).handlers, t)
  {
    hide AssumedAlong;
    hide Assumed;
    hide AnswersSigned;
    hide P.Next;
    if steps != [] {
      hide Tracked;
      hide AllAnswerSigned;
      var front, last := steps[..|steps| - 1], steps[|steps| - 1];
      AssumedBefore(clock, steps, t, setup);
      RunAnswersSigned(clock, front, t, setup);
      ObservedRunIsTracked(clock, front, t, setup);
      hide ObservedRun;
      NextAnswersSigned(ObservedRun(clock, front, t, setup), last, t, setup);
    }
  }

  // ---- The bound ------------------------------------------------------------------------------------------

  /** A payment that was signed for is recorded, or on its way to the record, exactly when it was not cut off. */
  lemma EmittedIsAliveUnlessCutOff(o: Seen, a: nat, t: Terms, setup: P.Setup)
    requires Tracked(o, t, setup) && AllAnswerSigned(o.world.handlers, t) && a in EmittedOf(o.world, t)
    ensures Alive(o.world.handlers[a]) <==> !CutOff(o.world.handlers[a])
  {
    hide Tracked;
    hide HasChallenge;
    StandsWhere(o, a, t, setup);
    assert AnswersSigned(o.world.handlers[a], t);
  }

  /** What the signer signed for the mandate and the window ending now has to count. */
  function CurrentOf(w: World, t: Terms): set<nat> {
    set a | a in EmittedOf(w, t) && !CutOff(w.handlers[a])
            && (Recorded(w.handlers[a]) ==> DecidedAt(w, a) >= w.clock - WindowMs(t))
  }

  lemma CurrentIsWindowSet(o: Seen, t: Terms, setup: P.Setup)
    requires Tracked(o, t, setup) && AllAnswerSigned(o.world.handlers, t)
    ensures WindowSet(o, CurrentOf(o.world, t), o.world.clock - WindowMs(t), t)
  {
    hide DecidedAt;
    hide Passed;
    hide Entered;
    hide Recorded;
    hide CutOff;
    hide Tracked;
    forall a | a in CurrentOf(o.world, t)
      ensures a in o.readings && InWindow(o.world.handlers[a], o.readings[a], DecidedAt(o.world, a),
                                          o.world.clock - WindowMs(t), t)
    {
      EmittedIsAliveUnlessCutOff(o, a, t, setup);
      SignedPassed(o, a, t, setup);
    }
  }

  lemma SignedPassed(o: Seen, a: nat, t: Terms, setup: P.Setup)
    requires Tracked(o, t, setup) && a in EmittedOf(o.world, t) && Alive(o.world.handlers[a])
    ensures a in o.readings && o.readings[a].at <= o.world.clock
    ensures Passed(o.world.handlers[a].call.requestedAmount, o.readings[a], t)
  {
    hide Passed;
    hide Entered;
    hide DecidedAt;
    StandsWhere(o, a, t, setup);
    assert AliveFaithful(o, t) by { hide Safe; hide AllPlaced; }
    hide Tracked;
    hide Placed;
    assert Faithful(o.world.handlers[a], a, o, t);
  }

  /** Each of them stands for one emitted signature, over the amount it counts with. */
  predicate Counted(w: World, a: nat) {
    exists g :: g in w.signatures && g.handler == a && g.typed.value == Amount(w.handlers, a)
  }

  /**
   * At every moment of every run, what the signer has signed for the mandate stays within the widened
   * limits, recorded or not: all of it but what left the window, and what was cut off before its record.
   */
  lemma EmittedWithinBudget(clock: Time, steps: seq<P.Step>, t: Terms, setup: P.Setup)
    requires AssumedAlong(clock, steps, t, setup) && t.inFlight >= 1
    ensures var w := P.Run(clock, steps, setup);
            var current := CurrentOf(w, t);
            && (current != {} ==> WithinBudget(w.handlers, current, t))
            && forall a :: a in current ==> Counted(w, a)
  {
    hide P.Run;
    hide ObservedRun;
    hide AssumedAlong;
    hide Tracked;
    hide WithinBudget;
    hide Counted;
    hide AllAnswerSigned;
    ObservedRunIsTracked(clock, steps, t, setup);
    RunAnswersSigned(clock, steps, t, setup);
    var o := ObservedRun(clock, steps, t, setup);
    CurrentIsWindowSet(o, t, setup);
    hide WindowSet;
    assert Overlap(o) && ReadsSound(o, t) by { TrackedReads(o, t, setup); }
    if CurrentOf(o.world, t) != {} {
      BoundFromReads(o, t, o.world.clock - WindowMs(t), CurrentOf(o.world, t));
    }
    forall a | a in EmittedOf(o.world, t)
      ensures Counted(o.world, a)
    {
      EmittedIsCounted(clock, steps, a, t, setup);
    }
    assert CurrentOf(o.world, t) <= EmittedOf(o.world, t);
  }

  lemma TrackedReads(o: Seen, t: Terms, setup: P.Setup)
    requires Tracked(o, t, setup)
    ensures Overlap(o) && ReadsSound(o, t)
  {
    hide Safe;
    hide AllPlaced;
    hide AliveFaithful;
    hide Overlap;
    hide ReadsSound;
  }

  lemma EmittedIsCounted(clock: Time, steps: seq<P.Step>, a: nat, t: Terms, setup: P.Setup)
    requires a in EmittedOf(P.Run(clock, steps, setup), t)
    ensures Counted(P.Run(clock, steps, setup), a)
  {
    hide P.Run;
    hide Safe;
    var w := P.Run(clock, steps, setup);
    var g := P.Signature(a, w.handlers[a].call.requestId, w.handlers[a].signer.typed);
    RunIsSafe(clock, steps, setup);
    EmittedIsLogged(w, a, setup);
    EverySignatureHasAuthority(clock, steps, setup, g);
    hide TermsWithin;
    hide WithinRail;
    assert g.typed.value == Amount(w.handlers, a);
  }

  lemma EmittedIsLogged(w: World, a: nat, setup: P.Setup)
    requires Safe(w, setup) && a in w.handlers && w.handlers[a].signer.SignedBy?
    ensures P.Signature(a, w.handlers[a].call.requestId, w.handlers[a].signer.typed) in w.signatures
  {
    hide Sound;
    hide HandlersSound;
    hide RecordsBacked;
    hide Exclusive;
    assert Logged(w.handlers[a], a, w.signatures);
  }
}
