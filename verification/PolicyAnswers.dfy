/**
 * What policy's replies become in the orchestrator: clients/policy-client.ts throws on every status
 * outside 2xx, and pipeline.ts fires its expiry timer 250 ms after `expiresAt`, while policy app.ts
 * denies by timeout only once the clock's whole seconds are past it.
 */
module PolicyAnswers {
  import opened Wrappers
  import opened Mandates
  import opened LedgerStore
  import opened LedgerInvariants
  import opened SigningInvariant
  import P = SigningProtocol
  import R = RunPipeline

  const TIMER_SLACK_MS: int := 250

  /** The orchestrator denies without naming an approver. */
  function ExpiryCall(id: string): P.Call {
    P.Resolve(id, Some(Deny), "", "", false)
  }

  /** The HTTP status of a reply; of the error statuses only 410 is told apart. */
  function Status(call: P.Call, reply: P.PolicyReply): int {
    match reply
    case SignedReply(_, _) => 200
    case RefusedReply(_) => if call.Payment? then 422 else 200
    case EscalatedReply(_) => 202
    case ErrorReply(code) => if code == "ESCALATION_EXPIRED" then R.GONE else 400
    case Thrown => 500
  }

  /** What the client returns or throws. */
  function AsAnswer(call: P.Call, reply: P.PolicyReply): R.Answer {
    var status := Status(call, reply);
    if !(200 <= status < 300) then R.Threw(status)
    else
      match reply
      case SignedReply(_, header) => R.SignedReply(header)
      case EscalatedReply(_) => R.EscalatedReply
      case _ => R.RefusedReply
  }

  /** What the orchestrator hears of each reply; only a timeout's error reaches it as 410. */
  lemma ReplyIsHeardAs(call: P.Call, reply: P.PolicyReply)
    ensures AsAnswer(call, reply)
            == match reply
               case SignedReply(_, header) => R.SignedReply(header)
               case EscalatedReply(_) => R.EscalatedReply
               case RefusedReply(_) => if call.Payment? then R.Threw(422) else R.RefusedReply
               case ErrorReply(code) => R.Threw(if code == "ESCALATION_EXPIRED" then 410 else 400)
               case Thrown => R.Threw(500)
  {
  }

  /**
   * A refused payment never ends the run REFUSED: its 422 is thrown, and the run ends FAILED
   * without a POLICY_DECISION event. A refused resolution does end it REFUSED.
   */
  lemma RefusedPaymentEndsFailed(r: R.Run, x: nat, call: P.Call, check: string)
    requires x in r.tasks && r.tasks[x] == if call.Payment? then R.AtDecision else R.AtResolution
    ensures var after := R.Next(r, R.Answered(x, AsAnswer(call, P.RefusedReply(check))));
            && after.state == (if call.Payment? then R.Failed else R.Refused)
            && after.events == r.events
  {
  }

  /**
   * The refusal of a payment whose intent is unknown is only sent if the intent exists by the time
   * the refusal is recorded: the ledger answers 404 to the record otherwise, and the handler throws.
   */
  lemma UnknownIntentIsNotRefused(w: World, a: nat, env: P.Env, setup: P.Setup)
    requires a in w.handlers && P.Unserved(w.handlers[a], setup) && w.handlers[a].live && w.handlers[a].call.requestId != ""
    requires w.handlers[a].point.AwaitRefusedRecord? && w.handlers[a].point.reply.RefusedReply?
    ensures var h := w.handlers[a];
            var served := P.Next(w, P.Serve(a), setup);
            var after := P.Next(served, P.Resume(a, env), setup).handlers[a].point;
            after == P.Finished(if h.call.requestId in w.ledger.intents then h.point.reply else P.Thrown)
  {
    RefusalIsAnswered(w, a, setup);
    hide P.Served;
    hide P.Outstanding;
  }

  lemma RefusalIsAnswered(w: World, a: nat, setup: P.Setup)
    requires a in w.handlers && w.handlers[a].point.AwaitRefusedRecord? && w.handlers[a].call.requestId != ""
    ensures var h := w.handlers[a];
            var reply := P.Served(w, a, setup).handlers[a].answer;
            && reply.Some? && reply.value.Written?
            && (reply.value.reply.Sent? <==> h.call.requestId in w.ledger.intents)
            && P.Served(w, a, setup).handlers == w.handlers[a := h.(answer := reply)]
  {
    hide Apply;
  }

  /** The state in which policy has read an open escalation on behalf of the timer. */
  predicate HasRead(h: P.Handler, id: string, e: Escalation) {
    h.call == ExpiryCall(id) && h.point.AwaitEscalationRead? && h.answer == Some(P.EscalationRead(Some(e))) && !e.resolved
  }

  /**
   * Policy takes the timer's call as a timeout exactly when it comes 750 ms late; otherwise it asks
   * for the owner, whom the call does not name, and refuses it with an error that is not a 410.
   */
  lemma TimeoutNeedsLateness(h: P.Handler, id: string, e: Escalation, late: nat, env: P.Env, setup: P.Setup)
    requires HasRead(h, id, e)
    ensures var next := P.Resumed(h, env, e.expiresAt * 1000 + TIMER_SLACK_MS + late, setup);
            && (late >= 750 ==>
                  next.point == P.AwaitDenial(None, "escalation_expired", P.ErrorReply("ESCALATION_EXPIRED")))
            && (late < 750 ==> next.point == P.AwaitOwnerPolicy(e))
  {
    var now := e.expiresAt * 1000 + TIMER_SLACK_MS + late;
    assert now / 1000 == e.expiresAt + (TIMER_SLACK_MS + late) / 1000;
  }

  lemma UnnamedOwnerIsRefused(h: P.Handler, id: string, e: Escalation, found: Option<PolicyRecord>, env: P.Env,
                              now: Time, setup: P.Setup)
    requires h.call == ExpiryCall(id) && h.point == P.AwaitOwnerPolicy(e) && h.answer == Some(P.PolicyRead(found))
    ensures var next := P.Resumed(h, env, now, setup);
            next.point.Finished? && next.point.reply.ErrorReply? && next.point.reply.code != "ESCALATION_EXPIRED"
  {
  }

  /**
   * The handler of the timer's call from its read on: late, it writes the denial and then the
   * refusal; on time, it reads the owner's policy. The ledger's answers are free.
   */
  function AfterRead(read: P.Handler, found: Option<PolicyRecord>, denial: Reply, record: Reply, env: P.Env, later: Time,
                     latest: Time, setup: P.Setup): P.Handler
  {
    if read.point.AwaitDenial? then
      var denied := P.Resumed(read.(answer := Some(P.Written(denial))), env, later, setup);
      if denied.point.AwaitRefusedRecord?
      then P.Resumed(denied.(answer := Some(P.Written(record))), env, latest, setup) else denied
    else P.Resumed(read.(answer := Some(P.PolicyRead(found))), env, later, setup)
  }

  lemma DenialIsWritten(read: P.Handler, id: string, found: Option<PolicyRecord>, denial: Reply, record: Reply, env: P.Env,
                        later: Time, latest: Time, setup: P.Setup)
    requires read.call == ExpiryCall(id)
    requires read.point == P.AwaitDenial(None, "escalation_expired", P.ErrorReply("ESCALATION_EXPIRED"))
    ensures AfterRead(read, found, denial, record, env, later, latest, setup).point
            == P.Finished(if denial.Sent? && record.Sent? then P.ErrorReply("ESCALATION_EXPIRED") else P.Thrown)
  {
    hide P.BeginSigning;
    hide P.AfterSignedRecord;
    hide VerifyEscalationSignature;
    hide P.Blank;
  }

  /**
   * An escalation nobody answers ends REFUSED exactly when policy reads the timer's call at least
   * 750 ms late and the ledger accepts both writes of the denial; on time, the run ends FAILED
   * although nothing went wrong.
   */
  lemma ExpiryRefusesExactlyWhen(r: R.Run, x: nat, h: P.Handler, id: string, e: Escalation, late: nat,
                                 found: Option<PolicyRecord>, denial: Reply, record: Reply, env: P.Env, later: Time,
                                 latest: Time, setup: P.Setup)
    requires HasRead(h, id, e) && x in r.tasks && r.tasks[x].AtExpiry?
    ensures var read := P.Resumed(h, env, e.expiresAt * 1000 + TIMER_SLACK_MS + late, setup);
            var end := AfterRead(read, found, denial, record, env, later, latest, setup);
            && end.point.Finished?
            && R.Next(r, R.Answered(x, AsAnswer(ExpiryCall(id), end.point.reply))).state
               == if late >= 750 && denial.Sent? && record.Sent? then R.Refused else R.Failed
  {
    var read := P.Resumed(h, env, e.expiresAt * 1000 + TIMER_SLACK_MS + late, setup);
    TimeoutNeedsLateness(h, id, e, late, env, setup);
    Kept(h, env, e.expiresAt * 1000 + TIMER_SLACK_MS + late, setup);
    if late < 750 {
      UnnamedOwnerIsRefused(read.(answer := Some(P.PolicyRead(found))), id, e, found, env, later, setup);
    } else {
      DenialIsWritten(read, id, found, denial, record, env, later, latest, setup);
    }
    var end := AfterRead(read, found, denial, record, env, later, latest, setup);
    hide AfterRead;
    hide P.Resumed;
    ExpiryAnswers(r, x, id, end.point.reply);
  }

  lemma ExpiryAnswers(r: R.Run, x: nat, id: string, reply: P.PolicyReply)
    requires x in r.tasks && r.tasks[x].AtExpiry? && (reply.ErrorReply? || reply.Thrown?)
    ensures R.Next(r, R.Answered(x, AsAnswer(ExpiryCall(id), reply))).state
            == if reply == P.ErrorReply("ESCALATION_EXPIRED") then R.Refused else R.Failed
  {
  }

  lemma Kept(h: P.Handler, env: P.Env, now: Time, setup: P.Setup)
    requires h.point.AwaitEscalationRead? && h.call.Resolve?
    ensures P.Resumed(h, env, now, setup).call == h.call
  {
  }
}
