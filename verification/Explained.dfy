/**
 * Why everything that policy leaves behind is there, in every run: each entry of the decision log,
 * each escalation and its resolution, each reply, and each receipt.
 */
module Explained {
  import opened Wrappers
  import opened Text
  import opened Mandates
  import opened LedgerStore
  import opened LedgerInvariants
  import LedgerHistory
  import opened PolicyChecks
  import opened SignerService
  import opened SigningInvariant
  import opened SigningSafety
  import opened SigningAuthority
  import opened RecordedDecision
  import Scenes
  import opened Evidence
  import P = SigningProtocol

  // ---- The decision log -------------------------------------------------------------------------

  /** The request was to be signed for, and the signing was refused. */
  predicate SigningRefused(h: Handler, check: string) {
    check == "signer_refused" && h.job.Some?
  }

  /** A handler of the request decided this, under this check, at this moment of the run, and for a reason. */
  ghost predicate Decided(h: Handler, e: LogEntry, past: set<World>, setup: P.Setup) {
    h.call.requestId == e.requestId && At(past, e.decidedAt) &&
    match e.decision
    case Signed => e.check.None? && h.signer.SignedBy? && h.job.Some? && Justified(past, h.call, h.job.value, setup)
    case Refused =>
      e.check.Some? && (SigningRefused(h, e.check.value) || Refuses(past, h.call, e.check.value, setup)
                        || Denies(past, h.call, e.check.value, setup))
    case Escalated => e.check.Some? && exists reason :: Escalates(past, h.call, reason, e.check.value, setup)
  }

  ghost predicate EntryExplained(handlers: map<nat, Handler>, e: LogEntry, past: set<World>, setup: P.Setup) {
    exists a :: a in handlers && Decided(handlers[a], e, past, setup)
  }

  ghost predicate LogExplained(w: World, past: set<World>, setup: P.Setup) {
    forall e :: e in w.ledger.log ==> EntryExplained(w.handlers, e, past, setup)
  }

  // ---- Escalations ----------------------------------------------------------------------------------

  /** A payment asked for the escalation, for this reason. */
  ghost predicate AskedBy(h: Handler, e: Escalation, past: set<World>, setup: P.Setup) {
    && h.call.Payment? && h.call.requestId == e.requestId && h.call.mandateId == e.mandateId
    && e.merchantDomain == Some(h.call.domain) && exists check :: Escalates(past, h.call, e.reason, check, setup)
  }

  /** It is on record as approved only once it was signed for, and as denied only for a reason. */
  ghost predicate ResolvedBy(h: Handler, e: Escalation, past: set<World>, setup: P.Setup) {
    h.call.Resolve? && h.call.requestId == e.requestId && e.decision.Some? &&
    match e.decision.value
    case Approve =>
      h.signer.SignedBy? && h.job.Some? && Justified(past, h.call, h.job.value, setup) && e.approvedBy == Some(h.call.approvedBy)
    case Deny => exists check :: DeniedAs(h, e, check, past, setup)
  }

  ghost predicate DeniedAs(h: Handler, e: Escalation, check: string, past: set<World>, setup: P.Setup) {
    && h.call.Resolve? && (SigningRefused(h, check) || Denies(past, h.call, check, setup))
    && e.approvedBy == if check == "escalation_expired" then None else Some(h.call.approvedBy)
  }

  ghost predicate EscalationExplained(handlers: map<nat, Handler>, e: Escalation, past: set<World>, setup: P.Setup) {
    && (exists a :: a in handlers && AskedBy(handlers[a], e, past, setup))
    && (e.resolved ==> exists a :: a in handlers && ResolvedBy(handlers[a], e, past, setup))
  }

  ghost predicate EscalationsExplained(w: World, past: set<World>, setup: P.Setup) {
    forall id :: id in w.ledger.escalations ==>
      w.ledger.escalations[id].requestId == id && EscalationExplained(w.handlers, w.ledger.escalations[id], past, setup)
  }

  // ---- Reasons stay -----------------------------------------------------------------------------------

  lemma DecidedStays(h: Handler, next: Handler, e: LogEntry, past: set<World>, more: set<World>, setup: P.Setup)
    requires Decided(h, e, past, setup) && Continues(h, next) && past <= more
    ensures Decided(next, e, more, setup)
  {
    hide At;
    hide Escalates;
    hide Refuses;
    hide Denies;
    hide Justified;
    MoreHeld(past, more);
    MoreReasons(past, more, h.call, setup);
  }

  lemma AskedStays(h: Handler, next: Handler, e: Escalation, past: set<World>, more: set<World>, setup: P.Setup)
    requires AskedBy(h, e, past, setup) && Continues(h, next) && past <= more
    ensures AskedBy(next, e, more, setup)
  {
    hide Escalates;
    MoreReasons(past, more, h.call, setup);
  }

  lemma ResolvedStays(h: Handler, next: Handler, e: Escalation, past: set<World>, more: set<World>, setup: P.Setup)
    requires ResolvedBy(h, e, past, setup) && Continues(h, next) && past <= more
    ensures ResolvedBy(next, e, more, setup)
  {
    hide Denies;
    hide Justified;
    MoreReasons(past, more, h.call, setup);
    if e.decision == Some(Deny) {
      var check :| DeniedAs(h, e, check, past, setup);
      assert DeniedAs(next, e, check, more, setup);
    }
  }

  ghost predicate AllContinue(handlers: map<nat, Handler>, after: map<nat, Handler>) {
    forall a :: a in handlers ==> a in after && Continues(handlers[a], after[a])
  }

  lemma EntryStays(handlers: map<nat, Handler>, after: map<nat, Handler>, e: LogEntry, past: set<World>, more: set<World>,
                   setup: P.Setup)
    requires EntryExplained(handlers, e, past, setup) && AllContinue(handlers, after) && past <= more
    ensures EntryExplained(after, e, more, setup)
  {
    hide Decided;
    hide Continues;
    var a :| a in handlers && Decided(handlers[a], e, past, setup);
    DecidedStays(handlers[a], after[a], e, past, more, setup);
  }

  lemma EscalationStays(handlers: map<nat, Handler>, after: map<nat, Handler>, e: Escalation, past: set<World>,
                        more: set<World>, setup: P.Setup)
    requires EscalationExplained(handlers, e, past, setup) && AllContinue(handlers, after) && past <= more
    ensures EscalationExplained(after, e, more, setup)
  {
    hide AskedBy;
    hide ResolvedBy;
    hide Continues;
    var a :| a in handlers && AskedBy(handlers[a], e, past, setup);
    AskedStays(handlers[a], after[a], e, past, more, setup);
    if e.resolved {
      var b :| b in handlers && ResolvedBy(handlers[b], e, past, setup);
      ResolvedStays(handlers[b], after[b], e, past, more, setup);
    }
  }

  // ---- New entries --------------------------------------------------------------------------------------

  /** A decision that a handler has outstanding is one it has a reason for. */
  lemma OutstandingDecision(h: Handler, e: LogEntry, now: Time, past: set<World>, setup: P.Setup)
    requires Stands(h, past, setup) && InStep(h) && P.Outstanding(h, setup).Write?
    requires LedgerHistory.Logs(Timed(P.Outstanding(h, setup).request, now), e)
    ensures Decided(h, e, past, setup)
  {
    hide At;
    hide Escalates;
    hide Refuses;
    hide Denies;
    hide Justified;
    hide Opened;
    hide OwnerSaid;
    hide HeldEscalation;
    hide HeldIntent;
    hide HeldPolicy;
    hide ClearedBy;
    hide AnswerRead;
    hide InTime;
    hide Trim;
    hide Lower;
  }

  /** What a handler asks the ledger to make of an escalation. */
  lemma OutstandingEscalation(h: Handler, e: Escalation, now: Time, past: set<World>, setup: P.Setup)
    requires Stands(h, past, setup) && P.Outstanding(h, setup).Write?
    requires LedgerHistory.AsksFor(Timed(P.Outstanding(h, setup).request, now), e)
    ensures AskedBy(h, e, past, setup)
  {
    hide At;
    hide Escalates;
    hide Refuses;
    hide Denies;
    hide Justified;
    hide Opened;
    hide OwnerSaid;
    hide AnswerRead;
    hide ClearedBy;
    hide InTime;
    hide Trim;
    hide Lower;
  }

  lemma OutstandingResolution(h: Handler, e: Escalation, now: Time, past: set<World>, setup: P.Setup)
    requires Stands(h, past, setup) && InStep(h) && P.Outstanding(h, setup).Write?
    requires LedgerHistory.Resolves(Timed(P.Outstanding(h, setup).request, now), e)
    ensures ResolvedBy(h, e, past, setup)
  {
    hide At;
    hide Escalates;
    hide Refuses;
    hide Denies;
    hide Justified;
    hide Opened;
    hide OwnerSaid;
    hide AnswerRead;
    hide ClearedBy;
    hide HeldEscalation;
    hide InTime;
    hide Trim;
    hide Lower;
    assert h.point.AwaitDenial? ==> DeniedAs(h, e, h.point.check, past, setup);
  }

  // ---- Every step ---------------------------------------------------------------------------------------

  /** The request comes from this handler, unless it is one that anybody may make. */
  ghost predicate ComesFrom(q: Request, h: Handler, setup: P.Setup) {
    P.Outstanding(h, setup) == P.Write(q)
  }

  /** A write by a handler, or one that policy has no part in. */
  ghost predicate Accounted(w: World, q: Request, setup: P.Setup) {
    !P.PolicyOnly(q) || exists a :: a in w.handlers && ComesFrom(q, w.handlers[a], setup)
  }

  lemma WriteLogged(w: World, q: Request, past: set<World>, setup: P.Setup)
    requires Safe(w, setup) && AllStand(w.handlers, past, setup) && LogExplained(w, past, setup) && Accounted(w, q, setup)
    ensures forall e :: e in Handle(w.ledger, q, w.clock, setup.keccak).log ==> EntryExplained(w.handlers, e, past, setup)
  {
    hide Handle;
    hide Stands;
    hide Decided;
    hide LedgerHistory.Logs;
    hide P.Outstanding;
    var t := Timed(q, w.clock);
    LedgerHistory.LogMoves(w.ledger, t, setup.keccak);
    var after := Handle(w.ledger, q, w.clock, setup.keccak);
    if after.log != w.ledger.log {
      var e := after.log[|w.ledger.log|];
      LoggedByPolicy(t, e);
      var a :| a in w.handlers && ComesFrom(q, w.handlers[a], setup);
      assert HandlerSound(w.handlers[a], w.ledger, setup) by { hide Sound; }
      hide Safe;
      OutstandingDecision(w.handlers[a], e, w.clock, past, setup);
    }
  }

  lemma LoggedByPolicy(t: Timed, e: LogEntry)
    requires LedgerHistory.Logs(t, e)
    ensures P.PolicyOnly(t.request)
  {
  }

  lemma WriteEscalates(w: World, q: Request, past: set<World>, setup: P.Setup)
    requires Safe(w, setup) && AllStand(w.handlers, past, setup) && EscalationsExplained(w, past, setup)
    requires Accounted(w, q, setup)
    ensures EscalationsExplained(w.(ledger := Handle(w.ledger, q, w.clock, setup.keccak)), past, setup)
  {
    hide Handle;
    var after := Handle(w.ledger, q, w.clock, setup.keccak);
    forall id | id in after.escalations
      ensures after.escalations[id].requestId == id && EscalationExplained(w.handlers, after.escalations[id], past, setup)
    {
      OneEscalates(w, q, past, setup, id);
    }
  }

  lemma OneEscalates(w: World, q: Request, past: set<World>, setup: P.Setup, id: string)
    requires Safe(w, setup) && AllStand(w.handlers, past, setup) && EscalationsExplained(w, past, setup)
    requires Accounted(w, q, setup) && id in Handle(w.ledger, q, w.clock, setup.keccak).escalations
    ensures var e := Handle(w.ledger, q, w.clock, setup.keccak).escalations[id];
            e.requestId == id && EscalationExplained(w.handlers, e, past, setup)
  {
    hide Handle;
    hide Stands;
    hide AskedBy;
    hide ResolvedBy;
    hide LedgerHistory.AsksFor;
    hide LedgerHistory.Resolves;
    hide P.Outstanding;
    var t := Timed(q, w.clock);
    var e := Handle(w.ledger, q, w.clock, setup.keccak).escalations[id];
    LedgerHistory.EscalationsMove(w.ledger, t, setup.keccak, id);
    if id !in w.ledger.escalations || e != w.ledger.escalations[id] {
      EscalatedByPolicy(t, e);
      var a :| a in w.handlers && ComesFrom(q, w.handlers[a], setup);
      assert HandlerSound(w.handlers[a], w.ledger, setup) by { hide Sound; }
      hide Safe;
      if id in w.ledger.escalations {
        OutstandingResolution(w.handlers[a], e, w.clock, past, setup);
        var was := w.ledger.escalations[id];
        var b :| b in w.handlers && AskedBy(w.handlers[b], was, past, setup);
        SameAsking(w.handlers[b], was, e, past, setup);
      } else {
        OutstandingEscalation(w.handlers[a], e, w.clock, past, setup);
      }
    }
  }

  lemma SameAsking(h: Handler, was: Escalation, e: Escalation, past: set<World>, setup: P.Setup)
    requires AskedBy(h, was, past, setup)
    requires e.requestId == was.requestId && e.mandateId == was.mandateId && e.reason == was.reason
    requires e.merchantDomain == was.merchantDomain
    ensures AskedBy(h, e, past, setup)
  {
    hide Escalates;
  }

  lemma EscalatedByPolicy(t: Timed, e: Escalation)
    requires LedgerHistory.AsksFor(t, e) || LedgerHistory.Resolves(t, e)
    ensures P.PolicyOnly(t.request)
  {
  }

  ghost predicate AllExplained(w: World, past: set<World>, setup: P.Setup) {
    AllStand(w.handlers, past, setup) && LogExplained(w, past, setup) && EscalationsExplained(w, past, setup)
  }

  /** The ledger of the next world is this one's, or this one's after a write that is accounted for. */
  lemma LedgerMoves(w: World, step: P.Step, setup: P.Setup) returns (q: Option<Request>)
    ensures q.None? ==> P.Next(w, step, setup).ledger == w.ledger
    ensures q.Some? ==> P.Next(w, step, setup).ledger == Handle(w.ledger, q.value, w.clock, setup.keccak)
                        && Accounted(w, q.value, setup)
  {
    hide Handle;
    hide P.Next;
    hide P.Outstanding;
    q := None;
    if step.Serve? {
      ServeMoves(w, step.id, setup);
      if step.id in w.handlers && P.Unserved(w.handlers[step.id], setup) && P.Outstanding(w.handlers[step.id], setup).Write? {
        q := Some(P.Outstanding(w.handlers[step.id], setup).request);
        assert ComesFrom(q.value, w.handlers[step.id], setup);
      }
    } else if step.Outside? {
      OutsideIsHandled(w, step.request, setup);
      if !P.PolicyOnly(step.request) {
        q := Some(step.request);
      }
    } else {
      OtherStep(w, step, setup);
    }
  }

  lemma ServeMoves(w: World, a: nat, setup: P.Setup)
    ensures P.Next(w, P.Serve(a), setup).ledger
            == if a in w.handlers && P.Unserved(w.handlers[a], setup) && P.Outstanding(w.handlers[a], setup).Write?
               then Handle(w.ledger, P.Outstanding(w.handlers[a], setup).request, w.clock, setup.keccak) else w.ledger
  {
    hide P.Outstanding;
    hide Handle;
    hide P.AnswerTo;
  }

  lemma NextExplained(w: World, step: P.Step, past: set<World>, setup: P.Setup)
    requires Safe(w, setup) && AllExplained(w, past, setup) && w in past
    ensures AllExplained(P.Next(w, step, setup), past + {P.Next(w, step, setup)}, setup)
  {
    hide P.Next;
    hide Handle;
    hide Safe;
    hide AllStand;
    var after := P.Next(w, step, setup);
    var more := past + {after};
    NextStands(w, step, past, setup);
    NextIsLater(w, step, setup);
    assert AllContinue(w.handlers, after.handlers) by { LaterContinues(w, after); }
    var q := LedgerMoves(w, step, setup);
    if q.Some? {
      WriteLogged(w, q.value, past, setup);
      WriteEscalates(w, q.value, past, setup);
    }
    hide EntryExplained;
    hide EscalationExplained;
    hide AllContinue;
    hide Accounted;
    forall e | e in after.ledger.log
      ensures EntryExplained(after.handlers, e, more, setup)
    {
      EntryStays(w.handlers, after.handlers, e, past, more, setup);
    }
    forall id | id in after.ledger.escalations
      ensures after.ledger.escalations[id].requestId == id
      ensures EscalationExplained(after.handlers, after.ledger.escalations[id], more, setup)
    {
      EscalationStays(w.handlers, after.handlers, after.ledger.escalations[id], past, more, setup);
    }
  }

  lemma LaterContinues(w: World, after: World)
    requires Later(w, after)
    ensures AllContinue(w.handlers, after.handlers)
  {
    hide Continues;
  }

  /** In every run, every log entry and every escalation is there for a reason that the run gave. */
  lemma {:induction false} RunIsExplained(clock: Time, steps: seq<P.Step>, setup: P.Setup)
    ensures AllExplained(P.Run(clock, steps, setup), Past(clock, steps, setup), setup)
  {
    hide P.Next;
    if steps != [] {
      hide AllExplained;
      hide AllStand;
      hide Safe;
      var front := steps[..|steps| - 1];
      RunIsExplained(clock, front, setup);
      RunIsSafe(clock, front, setup);
      HandlersStand(clock, front, setup);
      NextExplained(P.Run(clock, front, setup), steps[|steps| - 1], Past(clock, front, setup), setup);
    }
  }

  // ---- Receipts -------------------------------------------------------------------------------------------

  /**
   * The receipt shows the terms that this handler had signed: the hash of the mandate it read, which
   * the ledger held under that id at some moment of the run, and the signature made under it.
   */
  ghost predicate RestsOn(r: Receipt, g: P.Signature, h: Handler, past: set<World>, setup: P.Setup) {
    Shown(r, g) && HasAuthority(g, h, setup) && h.job.Some? &&
    var job := h.job.value;
    && r.policyHash == Some(setup.keccak(Utf8(Serialise(job.mandate)))) && HeldPolicy(past, job.mandateId, job.mandate)
    && r.intentHash == job.intentHash && r.merchantDomain == Some(job.domain)
    && Justified(past, h.call, job, setup)
  }

  /**
   * In every run, a receipt's policy hash is that of the mandate under which the signature it shows was
   * made, read from the ledger by the payment or the approval that made it.
   */
  lemma ReceiptNamesItsMandate(clock: Time, steps: seq<P.Step>, setup: P.Setup, id: string) returns (g: P.Signature)
    requires HasReceipt(P.Run(clock, steps, setup).ledger, id)
    ensures var w := P.Run(clock, steps, setup);
            && g in w.signatures && g.requestId == id && g.handler in w.handlers
            && RestsOn(ReceiptOf(w.ledger.intents[id]), g, w.handlers[g.handler], Past(clock, steps, setup), setup)
  {
    hide P.Run;
    hide Past;
    hide Safe;
    hide HasAuthority;
    hide Justified;
    hide HeldPolicy;
    hide Stands;
    var w := P.Run(clock, steps, setup);
    RunIsSafe(clock, steps, setup);
    HandlersStand(clock, steps, setup);
    var a := Backer(w, id, setup);
    var h := w.handlers[a];
    ReceiptIsTheJob(w, a, id, setup);
    BackerSigned(w, a, id, setup);
    g := P.Signature(a, id, h.signer.typed);
    EverySignatureHasAuthority(clock, steps, setup, g);
    JobIsJustified(h, Past(clock, steps, setup), setup);
  }

  lemma BackerSigned(w: World, a: nat, id: string, setup: P.Setup)
    requires Safe(w, setup) && a in w.handlers && HasReceipt(w.ledger, id) && Backs(w.handlers[a], w.ledger.intents[id], id)
    ensures w.handlers[a].signer.SignedBy?
    ensures var g := P.Signature(a, id, w.handlers[a].signer.typed);
            g in w.signatures && Shown(ReceiptOf(w.ledger.intents[id]), g)
  {
    hide Sound;
    hide RecordsBacked;
    hide Exclusive;
    hide InStep;
    hide ReadsKnown;
    hide JobSound;
    hide SignerSound;
    hide Validity;
    hide Lower;
    assert HandlerSound(w.handlers[a], w.ledger, setup) && Logged(w.handlers[a], a, w.signatures);
    Keyed(w.ledger, id, setup.keccak);
    ReceiptIsTheJob(w, a, id, setup);
    hide Safe;
    SignedFields(w.handlers[a], setup);
  }

  lemma JobIsJustified(h: Handler, past: set<World>, setup: P.Setup)
    requires Stands(h, past, setup) && h.job.Some?
    ensures Justified(past, h.call, h.job.value, setup)
    ensures h.job.value.policyHash == setup.keccak(Utf8(Serialise(h.job.value.mandate)))
    ensures HeldPolicy(past, h.job.value.mandateId, h.job.value.mandate)
  {
    hide HeldPolicy;
    hide PaysBy;
    hide ApprovesBy;
    hide Serialise;
    hide AnswerRead;
    hide PaymentStands;
    hide ResolveStands;
  }

  // ---- The verdict of the ladder, up to the reply ------------------------------------------------------------

  /** Where a payment goes from the ladder: on, to the human for the budget alone, or to its refusal. */
  lemma PaymentMeetsTheLadder(h: Handler, env: P.Env, now: Time, setup: P.Setup, k: nat)
    requires h.call.Payment? && h.point.AwaitRegistry?
    ensures var c := Ladder(h.call, Reading(h.point.intent, h.point.mandate, h.point.usage, env.registry, now), setup);
            var next := P.Resumed(h, env, now, setup);
            && (Cleared(c) <==> next.point.AwaitApprovalRead?)
            && (FirstFails(c, k) ==>
                  next.point == if k == BUDGET then P.AwaitEscalation(WindowBudgetExceeded, CHECK_NAMES[k])
                                else P.AwaitRefusedRecord(CHECK_NAMES[k], now, P.RefusedReply(CHECK_NAMES[k])))
            && next.answer.None? && next.call == h.call && next.live == h.live
  {
    hide FirstFailure;
    hide FirstFails;
    hide Cleared;
    hide CHECK_NAMES;
    var c := Ladder(h.call, Reading(h.point.intent, h.point.mandate, h.point.usage, env.registry, now), setup);
    assert c == P.Context(h, h.point.intent, h.point.mandate, h.point.usage, env.registry, now, setup);
    hide Ladder;
    hide P.Context;
    ChecksPassExactlyWhenCleared(c);
    LadderVerdict(c, k);
  }

  /** The last entry of the log, and the decision on record, as this handler left them. */
  predicate OnRecord(s: Ledger, id: string, decision: Decision, check: string, at: Time) {
    && id in s.intents && s.intents[id].decision == Some(decision) && s.intents[id].decidedAt == Some(at)
    && s.log != [] && s.log[|s.log| - 1] == LogEntry(|s.log|, id, decision, Some(check), None, at)
  }

  lemma DecisionIsRecorded(s: Ledger, id: string, decision: Decision, check: string, at: Time, now: Time, keccak: Keccak)
    requires id in s.intents && id != "" && s.intents[id].requestId == id
    ensures var q := P.Decided(id, decision, check, at);
            && ReplyTo(Route(s, q, now, keccak)) == Sent(200) && OnRecord(Handle(s, q, now, keccak), id, decision, check, at)
  {
    hide IntentViewOf;
  }

  /**
   * Whatever happens in between, a refused payment of a known intent is recorded as refused under the
   * check that stopped it, and answered with that check.
   */
  lemma RefusalIsRecordedAndAnswered(w: World, a: nat, check: string, at: Time, env: P.Env, later: Time, setup: P.Setup)
    requires a in w.handlers && w.handlers[a].live && w.handlers[a].answer.None?
    requires w.handlers[a].point == P.AwaitRefusedRecord(check, at, P.RefusedReply(check))
    requires var id := w.handlers[a].call.requestId; id in w.ledger.intents && id != "" && w.ledger.intents[id].requestId == id
    ensures var served := P.Next(w, P.Serve(a), setup);
            && OnRecord(served.ledger, w.handlers[a].call.requestId, Refused, check, at)
            && a in served.handlers && P.Answered(served.handlers[a])
            && P.Resumed(served.handlers[a], env, later, setup).point == P.Finished(P.RefusedReply(check))
  {
    hide P.Next;
    hide Route;
    hide Handle;
    hide OnRecord;
    var h := w.handlers[a];
    DecisionIsRecorded(w.ledger, h.call.requestId, Refused, check, at, w.clock, setup.keccak);
    Scenes.WriteServed(w, a, h, P.Decided(h.call.requestId, Refused, check, at), setup);
  }

  /** And one that is put to the human is recorded as escalated, and answered with the reason. */
  lemma EscalationIsRecordedAndAnswered(w: World, a: nat, reason: EscalationReason, check: string, at: Time, env: P.Env,
                                        later: Time, setup: P.Setup)
    requires a in w.handlers && w.handlers[a].live && w.handlers[a].answer.None? && w.handlers[a].call.Payment?
    requires w.handlers[a].point == P.AwaitEscalatedRecord(reason, check, at)
    requires var id := w.handlers[a].call.requestId; id in w.ledger.intents && id != "" && w.ledger.intents[id].requestId == id
    ensures var served := P.Next(w, P.Serve(a), setup);
            && OnRecord(served.ledger, w.handlers[a].call.requestId, Escalated, check, at)
            && a in served.handlers && P.Answered(served.handlers[a])
            && P.Resumed(served.handlers[a], env, later, setup).point == P.Finished(P.EscalatedReply(reason))
  {
    hide P.Next;
    hide Route;
    hide Handle;
    hide OnRecord;
    var h := w.handlers[a];
    DecisionIsRecorded(w.ledger, h.call.requestId, Escalated, check, at, w.clock, setup.keccak);
    Scenes.WriteServed(w, a, h, P.Decided(h.call.requestId, Escalated, check, at), setup);
  }

  /** Before that the escalation itself is asked for, and opened unless one is there already. */
  lemma EscalationIsOpened(w: World, a: nat, reason: EscalationReason, check: string, env: P.Env, later: Time, setup: P.Setup)
    requires a in w.handlers && w.handlers[a].live && w.handlers[a].answer.None? && w.handlers[a].call.Payment?
    requires w.handlers[a].point == P.AwaitEscalation(reason, check)
    requires w.handlers[a].call.requestId != "" && w.handlers[a].call.mandateId != "" && setup.escalationTtlSeconds != 0
    ensures var call := w.handlers[a].call;
            var served := P.Next(w, P.Serve(a), setup);
            && call.requestId in served.ledger.escalations
            && (call.requestId !in w.ledger.escalations ==>
                  var e := served.ledger.escalations[call.requestId];
                  && e.reason == reason && e.mandateId == call.mandateId && e.merchantDomain == Some(call.domain)
                  && !e.resolved && e.createdAt == w.clock
                  && e.expiresAt == w.clock / 1000 + setup.escalationTtlSeconds)
            && a in served.handlers && P.Answered(served.handlers[a])
            && P.Resumed(served.handlers[a], env, later, setup).point == P.AwaitEscalatedRecord(reason, check, later)
  {
    hide P.Next;
    var h := w.handlers[a];
    var q := CreateEscalation(Some(h.call.requestId), Some(h.call.mandateId), Some(reason),
                              Some(setup.dashboardUrl + "/approve/" + h.call.requestId), Some(setup.escalationTtlSeconds),
                              Some(h.call.domain));
    Scenes.WriteServed(w, a, h, q, setup);
    assert setup.dashboardUrl + "/approve/" + h.call.requestId != "";
    hide P.Outstanding;
  }
}
