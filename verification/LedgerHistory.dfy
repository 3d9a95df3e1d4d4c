/**
 * What the ledger holds against what it was asked: which requests it accepts, and, after any run,
 * where each field of each record, log entry, policy, escalation and approval comes from.
 */
module LedgerHistory {
  import opened Wrappers
  import opened Mandates
  import opened LedgerStore
  import opened LedgerInvariants
  import Text

  // ---- Which requests are accepted ------------------------------------------------------------

  /** What a request is about is on the ledger. */
  predicate Known(s: Ledger, q: Request) {
    match q
    case CreateIntent(_, _, _, _, _) => true
    case PutPolicy(_, _) => true
    case CreateEscalation(_, _, _, _, _, _) => true
    case SetStandingApproval(_, _, _) => true
    case ResolveEscalation(id, _, _) => id in s.escalations
    case RecordDecision(id, _, _, _, _, _, _, _, _) => id.Some? && id.value in s.intents
    case _ => q.requestId in s.intents
  }

  /** The body has everything the route asks for. */
  predicate Complete(q: Request) {
    match q
    case CreateIntent(id, m, agent, text, at) => Truthy(id) && Truthy(m) && Truthy(agent) && Truthy(text) && at.Some?
    case AttachChallenge(_, challenge) => challenge.Some?
    case ReserveNonce(_, nonce) => Truthy(nonce)
    case ReleaseNonce(_) => true
    case PutPolicy(_, policy) => policy.Some?
    case CreateEscalation(id, m, reason, url, ttl, _) =>
      Truthy(id) && Truthy(m) && reason.Some? && Truthy(url) && ttl.Some? && ttl.value != 0
    case ResolveEscalation(_, verdict, _) => verdict.Some?
    case SetStandingApproval(m, domain, at) => Truthy(m) && Truthy(domain) && at.Some? && at.value != 0
    case RecordDecision(id, decision, _, _, at, _, _, _, _) => Truthy(id) && decision.Some? && at.Some?
    case RecordSettlement(_, tx, block, card, raw) =>
      Truthy(tx) && block.Some? && Truthy(card) && (raw.Some? ==> IsHash32(raw.value))
    case RecordCapture(_, order, at, _, _) => Truthy(order) && Truthy(at)
    case RecordSpend(_, domain, total, sku, order, at) =>
      Truthy(domain) && Truthy(total) && Truthy(sku) && Truthy(order) && Truthy(at)
  }

  /** Nothing on record stands against it. */
  predicate Fitting(s: Ledger, q: Request)
    requires Known(s, q)
  {
    match q
    case CreateIntent(id, _, _, _, _) => id.None? || id.value !in s.intents
    case AttachChallenge(id, _) => s.intents[id].challenge.None?
    case ReserveNonce(id, _) => !Truthy(s.intents[id].nonce) || s.intents[id].nonceReleased
    case ReleaseNonce(id) =>
      s.intents[id].decision != Some(Signed) && Truthy(s.intents[id].nonce) && !s.intents[id].nonceReleased
    case RecordCapture(id, _, _, tx, _) =>
      && s.intents[id].capture.None? && s.intents[id].settlement.Some?
      && (Truthy(tx) ==> tx.value == s.intents[id].settlement.value.settlementTx)
    case _ => true
  }

  predicate Acceptable(s: Ledger, q: Request) {
    Known(s, q) && Complete(q) && Fitting(s, q)
  }

  /** It puts a new intent or a new escalation on the ledger. */
  predicate Founds(s: Ledger, q: Request) {
    q.CreateIntent? || (q.CreateEscalation? && q.newId.Some? && q.newId.value !in s.escalations)
  }

  /**
   * A request is accepted exactly when its subject is known, its body complete and nothing stands
   * against it, with 201 exactly for what is new; a refused one changes nothing, and its status says
   * which of the three it failed.
   */
  lemma AcceptedExactlyWhen(s: Ledger, q: Request, now: Time, keccak: Keccak)
    ensures var reply := ReplyTo(Route(s, q, now, keccak));
            && (reply.Sent? <==> Acceptable(s, q))
            && (reply.Sent? ==> reply.status == if Founds(s, q) then 201 else 200)
            && (reply.Failed? ==>
                  && Handle(s, q, now, keccak) == s
                  && (reply.status == 404 ==> !Known(s, q))
                  && (reply.status == 409 ==> Known(s, q) && Complete(q) && !Fitting(s, q))
                  && (reply.status == 400 ==> !Complete(q) || reply.code == "NONCE_NOT_RESERVED")
                  && (reply.status == 400 || reply.status == 404 || reply.status == 409))
  {
    hide IntentViewOf;
    hide IsHash32;
    hide ApprovalKey;
    hide HashIntentInstruction;
  }

  // ---- Captures ---------------------------------------------------------------------------------

  /** The two name one transaction, if the intent is captured. */
  predicate CaptureMatches(i: Intent) {
    i.capture.Some? ==> i.settlement.Some? && i.capture.value.settlementTx == i.settlement.value.settlementTx
  }

  /**
   * A capture is recorded exactly when the intent is known, the body complete, none is there yet, a
   * settlement is there, and a transaction that is named is that settlement's. It then names that
   * settlement's transaction, and the posted block or the settled one.
   */
  lemma CaptureIsRecordedExactlyWhen(s: Ledger, q: Request, now: Time, keccak: Keccak)
    requires q.RecordCapture? && (q.requestId in s.intents ==> s.intents[q.requestId].requestId == q.requestId)
    ensures var t := Handle(s, q, now, keccak);
            var id := q.requestId;
            && (t != s <==>
                  && id in s.intents && Truthy(q.orderId) && Truthy(q.capturedAt)
                  && s.intents[id].capture.None? && s.intents[id].settlement.Some?
                  && (Truthy(q.settlementTx) ==> q.settlementTx.value == s.intents[id].settlement.value.settlementTx))
            && (t != s ==>
                  && id in t.intents && t.intents[id].settlement == s.intents[id].settlement
                  && t.intents[id].capture
                     == Some(Capture(q.orderId.value, q.capturedAt.value, s.intents[id].settlement.value.settlementTx,
                                     if q.blockNumber.Some? then q.blockNumber.value
                                     else s.intents[id].settlement.value.blockNumber)))
  {
    hide IntentViewOf;
  }

  /** A settlement posted on a captured intent that names another transaction than the one on record. */
  predicate Resettles(s: Ledger, q: Request, id: string) {
    && q.RecordSettlement? && q.requestId == id && id in s.intents && Acceptable(s, q)
    && s.intents[id].capture.Some? && q.settlementTx.Some?
    && s.intents[id].settlement.Some? && q.settlementTx.value != s.intents[id].settlement.value.settlementTx
  }

  predicate Matches(s: Ledger, id: string) {
    id in s.intents ==> CaptureMatches(s.intents[id])
  }

  lemma RouteMatches(s: Ledger, q: Request, now: Time, keccak: Keccak)
    requires Subject(q) in s.intents ==> s.intents[Subject(q)].requestId == Subject(q)
    requires Matches(s, Subject(q)) && Stored(Route(s, q, now, keccak)).Some?
    ensures var i := Stored(Route(s, q, now, keccak)).value;
            && (q.CreateIntent? ==> i.capture.None?) && (!q.CreateIntent? ==> i.requestId == Subject(q))
            && (!q.CreateIntent? ==> (CaptureMatches(i) <==> !Resettles(s, q, i.requestId)))
  {
    hide IsHash32;
  }

  /** Capture and settlement go on naming one transaction at every step but such a settlement. */
  lemma MatchStaysExactlyWhen(s: Ledger, q: Request, now: Time, keccak: Keccak, id: string)
    requires Sound(s, keccak) && Matches(s, id)
    ensures Matches(Handle(s, q, now, keccak), id) <==> !Resettles(s, q, id)
  {
    hide Sound;
    hide Route;
    hide Apply;
    hide CaptureMatches;
    SubjectKeyed(s, q, keccak);
    var o := Route(s, q, now, keccak);
    StoresOne(s, o, now);
    if Stored(o).Some? && Stored(o).value.requestId == id {
      if q.CreateIntent? {
        CreationMatches(s, q, now, keccak);
      } else {
        StoredIsSubject(s, q, now, keccak);
        RouteMatches(s, q, now, keccak);
      }
    } else {
      NotStoredIsNotResettled(s, q, now, keccak, id);
    }
  }

  lemma StoredIsSubject(s: Ledger, q: Request, now: Time, keccak: Keccak)
    requires Subject(q) in s.intents ==> s.intents[Subject(q)].requestId == Subject(q)
    requires Stored(Route(s, q, now, keccak)).Some? && !q.CreateIntent?
    ensures Stored(Route(s, q, now, keccak)).value.requestId == Subject(q) && Subject(q) in s.intents
  {
  }

  lemma CreationMatches(s: Ledger, q: Request, now: Time, keccak: Keccak)
    requires q.CreateIntent? && Stored(Route(s, q, now, keccak)).Some?
    ensures CaptureMatches(Stored(Route(s, q, now, keccak)).value)
  {
  }

  lemma NotStoredIsNotResettled(s: Ledger, q: Request, now: Time, keccak: Keccak, id: string)
    requires Subject(q) in s.intents ==> s.intents[Subject(q)].requestId == Subject(q)
    requires var o := Route(s, q, now, keccak); Stored(o).None? || Stored(o).value.requestId != id
    ensures !Resettles(s, q, id)
  {
    hide IsHash32;
  }

  lemma SubjectKeyed(s: Ledger, q: Request, keccak: Keccak)
    requires Sound(s, keccak)
    ensures Subject(q) in s.intents ==> s.intents[Subject(q)].requestId == Subject(q)
  {
    var id := Subject(q);
    if id in s.intents {
      assert RecordSound(s.intents[id], id, LastEntry(s.log, id), Reserved(s.events, id), keccak);
    }
  }

  lemma StoresOne(s: Ledger, o: Outcome, now: Time)
    ensures Apply(s, o, now).intents
            == if Stored(o).Some? then s.intents[Stored(o).value.requestId := Stored(o).value] else s.intents
  {
    hide IntentViewOf;
  }

  ghost predicate NeverResettled(requests: seq<Timed>, id: string, keccak: Keccak) {
    forall n :: 0 <= n < |requests| ==> !Resettles(Run(requests[..n], keccak), requests[n].request, id)
  }

  /** So in every run, as long as no such settlement is posted, a capture names its intent's settlement. */
  lemma {:induction false} CaptureNamesItsSettlement(requests: seq<Timed>, id: string, keccak: Keccak)
    requires NeverResettled(requests, id, keccak)
    ensures Matches(Run(requests, keccak), id)
  {
    hide Handle;
    hide Resettles;
    if requests != [] {
      hide Matches;
      var front, last := requests[..|requests| - 1], requests[|requests| - 1];
      assert requests[..|front|] == front;
      forall n | 0 <= n < |front|
        ensures !Resettles(Run(front[..n], keccak), front[n].request, id)
      {
        assert front[..n] == requests[..n];
      }
      CaptureNamesItsSettlement(front, id, keccak);
      RunIsSound(front, keccak);
      MatchStaysExactlyWhen(Run(front, keccak), last.request, last.now, keccak, id);
    }
  }

  // ---- Where the records come from ----------------------------------------------------------------

  predicate Creates(t: Timed, i: Intent) {
    t.request == CreateIntent(Some(i.requestId), Some(i.mandateId), Some(i.agentId), Some(i.instruction), Some(i.createdAt))
  }

  predicate Attaches(t: Timed, id: string, challenge: Option<Challenge>, at: Option<Time>) {
    t.request == AttachChallenge(id, challenge) && at == Some(t.now)
  }

  predicate Reserves(t: Timed, id: string, nonce: Option<string>, at: Option<Time>) {
    t.request == ReserveNonce(id, nonce) && at == Some(t.now)
  }

  predicate Decides(t: Timed, id: string, decision: Option<Decision>, at: Option<Time>) {
    t.request.RecordDecision? && t.request.newId == Some(id) && t.request.decision == decision && t.request.decidedAt == at
  }

  /** The receipt terms of a record, which only a signed decision sets. */
  datatype Terms = Terms(policyHash: Option<string>, domain: Option<string>, validAfter: Option<int>, validBefore: Option<int>)

  const NO_TERMS: Terms := Terms(None, None, None, None)

  function TermsOf(i: Intent): Terms {
    Terms(i.policyHash, i.merchantDomain, i.validAfter, i.validBefore)
  }

  predicate Signs(t: Timed, id: string, terms: Terms) {
    && t.request.RecordDecision? && t.request.newId == Some(id) && t.request.decision == Some(Signed)
    && terms == Terms(t.request.policyHash, t.request.merchantDomain, t.request.validAfter, t.request.validBefore)
  }

  predicate Settles(t: Timed, id: string, settled: Settlement) {
    t.request == RecordSettlement(id, Some(settled.settlementTx), Some(settled.blockNumber), Some(settled.cardOpaqueId),
                                  settled.rawToolResultHash)
  }

  predicate Spends(t: Timed, id: string, spend: Spend) {
    t.request == RecordSpend(id, Some(spend.merchantDomain), Some(spend.orderTotal), Some(spend.itemSku),
                             Some(spend.orderId), Some(spend.observedAt))
  }

  predicate Captures(t: Timed, id: string, capture: Capture) {
    && t.request.RecordCapture? && t.request.requestId == id && t.request.orderId == Some(capture.orderId)
    && t.request.capturedAt == Some(capture.capturedAt)
  }

  /** Each field of a record was posted, for that record, by a request of its own kind. */
  ghost predicate RecordFrom(i: Intent, requests: seq<Timed>) {
    var id := i.requestId;
    && (exists t :: t in requests && Creates(t, i))
    && (i.challenge.Some? ==> exists t :: t in requests && Attaches(t, id, i.challenge, i.challengeAttachedAt))
    && (i.nonce.Some? ==> exists t :: t in requests && Reserves(t, id, i.nonce, i.nonceReservedAt))
    && (i.decision.Some? ==> exists t :: t in requests && Decides(t, id, i.decision, i.decidedAt))
    && (TermsOf(i) != NO_TERMS ==> exists t :: t in requests && Signs(t, id, TermsOf(i)))
    && (i.settlement.Some? ==> exists t :: t in requests && Settles(t, id, i.settlement.value))
    && (i.spend.Some? ==> exists t :: t in requests && Spends(t, id, i.spend.value))
    && (i.capture.Some? ==> exists t :: t in requests && Captures(t, id, i.capture.value))
  }

  ghost predicate RecordsFrom(s: Ledger, requests: seq<Timed>) {
    forall id :: id in s.intents ==> s.intents[id].requestId == id && RecordFrom(s.intents[id], requests)
  }

  /** Each field of a stored record is as it was, or as the request posts it. */
  predicate Follows(was: Intent, i: Intent, t: Timed) {
    var id := i.requestId;
    && id == was.requestId && i.mandateId == was.mandateId && i.agentId == was.agentId
    && i.instruction == was.instruction && i.createdAt == was.createdAt
    && ((i.challenge == was.challenge && i.challengeAttachedAt == was.challengeAttachedAt)
        || Attaches(t, id, i.challenge, i.challengeAttachedAt))
    && ((i.nonce == was.nonce && i.nonceReservedAt == was.nonceReservedAt) || i.nonce.None?
        || Reserves(t, id, i.nonce, i.nonceReservedAt))
    && ((i.decision == was.decision && i.decidedAt == was.decidedAt) || Decides(t, id, i.decision, i.decidedAt))
    && (TermsOf(i) == TermsOf(was) || Signs(t, id, TermsOf(i)))
    && (i.settlement == was.settlement || (i.settlement.Some? && Settles(t, id, i.settlement.value)))
    && (i.spend == was.spend || (i.spend.Some? && Spends(t, id, i.spend.value)))
    && (i.capture == was.capture || (i.capture.Some? && Captures(t, id, i.capture.value)))
  }

  predicate Bare(i: Intent) {
    && i.challenge.None? && i.nonce.None? && i.decision.None? && TermsOf(i) == NO_TERMS && i.settlement.None?
    && i.spend.None? && i.capture.None?
  }

  lemma RouteFollows(s: Ledger, t: Timed, keccak: Keccak)
    requires Subject(t.request) in s.intents ==> s.intents[Subject(t.request)].requestId == Subject(t.request)
    requires Stored(Route(s, t.request, t.now, keccak)).Some?
    ensures var i := Stored(Route(s, t.request, t.now, keccak)).value;
            if t.request.CreateIntent? then Creates(t, i) && Bare(i)
            else i.requestId in s.intents && Follows(s.intents[i.requestId], i, t)
  {
    hide IsHash32;
    hide HashIntentInstruction;
  }

  lemma MoreRequests(i: Intent, requests: seq<Timed>, t: Timed)
    requires RecordFrom(i, requests)
    ensures RecordFrom(i, requests + [t])
  {
    hide Creates;
    hide Attaches;
    hide Reserves;
    hide Decides;
    hide Signs;
    hide Settles;
    hide Spends;
    hide Captures;
    hide TermsOf;
    var more := requests + [t];
    assert forall u :: u in requests ==> u in more;
  }

  lemma FollowsFrom(was: Intent, i: Intent, requests: seq<Timed>, t: Timed)
    requires RecordFrom(was, requests) && Follows(was, i, t)
    ensures RecordFrom(i, requests + [t])
  {
    hide Attaches;
    hide Reserves;
    hide Decides;
    hide Signs;
    hide Settles;
    hide Spends;
    hide Captures;
    hide TermsOf;
    var more := requests + [t];
    assert forall u :: u in requests ==> u in more;
    assert t in more;
    var c :| c in requests && Creates(c, was);
    assert Creates(c, i);
    hide Creates;
  }

  /** After any run, every field of every record is one that was posted for it. */
  lemma {:induction false} RecordsArePosted(requests: seq<Timed>, keccak: Keccak)
    ensures RecordsFrom(Run(requests, keccak), requests)
  {
    hide Handle;
    if requests != [] {
      var front, t := requests[..|requests| - 1], requests[|requests| - 1];
      RecordsArePosted(front, keccak);
      RunIsSound(front, keccak);
      StepIsPosted(Run(front, keccak), front, t, keccak);
      assert requests == front + [t];
    }
  }

  lemma StepIsPosted(s: Ledger, requests: seq<Timed>, t: Timed, keccak: Keccak)
    requires Sound(s, keccak) && RecordsFrom(s, requests)
    ensures RecordsFrom(Handle(s, t.request, t.now, keccak), requests + [t])
  {
    hide Sound;
    hide Route;
    hide Apply;
    hide RecordFrom;
    hide Follows;
    hide Bare;
    SubjectKeyed(s, t.request, keccak);
    var o := Route(s, t.request, t.now, keccak);
    StoresOne(s, o, t.now);
    var after := Handle(s, t.request, t.now, keccak);
    forall id | id in after.intents
      ensures after.intents[id].requestId == id && RecordFrom(after.intents[id], requests + [t])
    {
      if Stored(o).Some? && Stored(o).value.requestId == id {
        RouteFollows(s, t, keccak);
        if t.request.CreateIntent? {
          BareFrom(Stored(o).value, requests, t);
        } else {
          FollowsFrom(s.intents[id], Stored(o).value, requests, t);
        }
      } else {
        MoreRequests(s.intents[id], requests, t);
      }
    }
  }

  lemma BareFrom(i: Intent, requests: seq<Timed>, t: Timed)
    requires Creates(t, i) && Bare(i)
    ensures RecordFrom(i, requests + [t])
  {
    assert t in requests + [t];
  }

  // ---- The log, policies, approvals and escalations -------------------------------------------------

  predicate Logs(t: Timed, e: LogEntry) {
    && t.request.RecordDecision? && t.request.newId == Some(e.requestId) && t.request.decision == Some(e.decision)
    && t.request.check == e.check && t.request.detail == e.detail && t.request.decidedAt == Some(e.decidedAt)
  }

  /** How often a policy was put for a mandate, and the last one. */
  function Puts(requests: seq<Timed>, id: string): nat {
    if requests == [] then 0 else
      Puts(requests[..|requests| - 1], id) + if PutsFor(requests[|requests| - 1].request, id) then 1 else 0
  }

  function LastPut(requests: seq<Timed>, id: string): Option<Mandate> {
    if requests == [] then None else
      var q := requests[|requests| - 1].request;
      if PutsFor(q, id) then q.policy else LastPut(requests[..|requests| - 1], id)
  }

  predicate PutsFor(q: Request, id: string) {
    q.PutPolicy? && q.mandate == id && q.policy.Some?
  }

  /** The last expiry given for a mandate's merchant, told by the mandate and the lower-cased domain. */
  function LastApproval(requests: seq<Timed>, key: string): Option<int> {
    if requests == [] then None else
      var q := requests[|requests| - 1].request;
      if ApprovesFor(q, key) then q.expiresAt else LastApproval(requests[..|requests| - 1], key)
  }

  predicate ApprovesFor(q: Request, key: string) {
    q.SetStandingApproval? && Complete(q) && key == q.mandateId.value + "::" + Text.Lower(q.merchantDomain.value)
  }

  predicate AsksFor(t: Timed, e: Escalation) {
    && t.request == CreateEscalation(Some(e.requestId), Some(e.mandateId), Some(e.reason), Some(e.approvalUrl),
                                     Some(e.ttlSeconds), e.merchantDomain)
    && t.now == e.createdAt
  }

  predicate Resolves(t: Timed, e: Escalation) {
    t.request == ResolveEscalation(e.requestId, e.decision, e.approvedBy) && e.resolvedAt == Some(t.now)
  }

  /** An escalation is as it was asked for, expires its seconds later, and is resolved as it was last resolved. */
  ghost predicate EscalationFrom(e: Escalation, requests: seq<Timed>) {
    && (exists t :: t in requests && AsksFor(t, e)) && e.expiresAt == e.createdAt / 1000 + e.ttlSeconds
    && (if e.resolved then exists t :: t in requests && Resolves(t, e)
        else e.decision.None? && e.approvedBy.None? && e.resolvedAt.None?)
  }

  /** A mandate's policy is the last one put, under the number of times it was put. */
  ghost predicate PoliciesAre(s: Ledger, requests: seq<Timed>) {
    && (forall id :: id in s.policies <==> LastPut(requests, id).Some?)
    && (forall id :: id in s.policies ==>
          s.policies[id] == PolicyRecord(LastPut(requests, id).value, Puts(requests, id)))
    && (forall id :: id !in s.policies ==> Puts(requests, id) == 0)
  }

  ghost predicate RestFrom(s: Ledger, requests: seq<Timed>) {
    && (forall e :: e in s.log ==> exists t :: t in requests && Logs(t, e))
    && PoliciesAre(s, requests)
    && (forall key :: key in s.approvals <==> LastApproval(requests, key).Some?)
    && (forall key :: key in s.approvals ==> Some(s.approvals[key]) == LastApproval(requests, key))
    && (forall id :: id in s.escalations ==> s.escalations[id].requestId == id && EscalationFrom(s.escalations[id], requests))
  }

  lemma FoldsOfOneMore(requests: seq<Timed>, t: Timed, id: string)
    ensures Puts(requests + [t], id) == Puts(requests, id) + if PutsFor(t.request, id) then 1 else 0
    ensures LastPut(requests + [t], id) == if PutsFor(t.request, id) then t.request.policy else LastPut(requests, id)
    ensures LastApproval(requests + [t], id)
            == if ApprovesFor(t.request, id) then t.request.expiresAt else LastApproval(requests, id)
  {
    assert (requests + [t])[..|requests + [t]| - 1] == requests;
  }

  lemma ApplyRest(s: Ledger, o: Outcome, now: Time)
    ensures var t := Apply(s, o, now);
            && t.log == (if o.Decide? then s.log + [o.entry] else s.log)
            && t.policies == (if o.Put? then s.policies[o.mandateId := o.record] else s.policies)
            && t.approvals == (if o.Preapprove? then s.approvals[o.key := o.expiresAt] else s.approvals)
  {
    hide IntentViewOf;
  }

  lemma LogMoves(s: Ledger, t: Timed, keccak: Keccak)
    ensures var after := Handle(s, t.request, t.now, keccak);
            after.log == s.log || (|after.log| == |s.log| + 1 && after.log == s.log + [after.log[|s.log|]]
                                   && Logs(t, after.log[|s.log|]))
  {
    hide Apply;
    hide IsHash32;
    hide ApprovalKey;
    hide HashIntentInstruction;
    ApplyRest(s, Route(s, t.request, t.now, keccak), t.now);
  }

  /** The policies after a request. */
  function PoliciesAfter(s: Ledger, t: Timed): map<string, PolicyRecord> {
    if t.request.PutPolicy? && t.request.policy.Some? then
      var id := t.request.mandate;
      s.policies[id := PolicyRecord(t.request.policy.value, if id in s.policies then s.policies[id].policyVersion + 1 else 1)]
    else s.policies
  }

  lemma PoliciesMove(s: Ledger, t: Timed, keccak: Keccak)
    ensures Handle(s, t.request, t.now, keccak).policies == PoliciesAfter(s, t)
  {
    hide Apply;
    hide IsHash32;
    hide ApprovalKey;
    hide HashIntentInstruction;
    ApplyRest(s, Route(s, t.request, t.now, keccak), t.now);
  }

  /** The standing approvals after a request. */
  function ApprovalsAfter(s: Ledger, t: Timed): map<string, int> {
    if t.request.SetStandingApproval? && Complete(t.request) then
      s.approvals[t.request.mandateId.value + "::" + Text.Lower(t.request.merchantDomain.value) := t.request.expiresAt.value]
    else s.approvals
  }

  lemma ApprovalsMove(s: Ledger, t: Timed, keccak: Keccak)
    ensures Handle(s, t.request, t.now, keccak).approvals == ApprovalsAfter(s, t)
  {
    hide Apply;
    hide IsHash32;
    hide HashIntentInstruction;
    ApplyRest(s, Route(s, t.request, t.now, keccak), t.now);
  }

  lemma EscalationsMove(s: Ledger, t: Timed, keccak: Keccak, id: string)
    requires id in s.escalations ==> s.escalations[id].requestId == id
    ensures var after := Handle(s, t.request, t.now, keccak);
            && (id in after.escalations && (id !in s.escalations || after.escalations[id] != s.escalations[id]) ==>
                  var e := after.escalations[id];
                  && e.requestId == id
                  && if id in s.escalations then
                       var was := s.escalations[id];
                       && Resolves(t, e)
                       && e == was.(resolved := true, decision := e.decision, approvedBy := e.approvedBy,
                                    resolvedAt := e.resolvedAt)
                     else
                       && AsksFor(t, e) && e.expiresAt == t.now / 1000 + e.ttlSeconds && !e.resolved
                       && e.decision.None? && e.approvedBy.None? && e.resolvedAt.None?)
  {
    hide IntentViewOf;
    hide IsHash32;
    hide ApprovalKey;
  }

  lemma EscalationStays(e: Escalation, requests: seq<Timed>, t: Timed)
    requires EscalationFrom(e, requests)
    ensures EscalationFrom(e, requests + [t])
  {
    hide AsksFor;
    hide Resolves;
    assert forall u :: u in requests ==> u in requests + [t];
  }

  lemma ResolvedFrom(was: Escalation, e: Escalation, requests: seq<Timed>, t: Timed)
    requires EscalationFrom(was, requests) && Resolves(t, e)
    requires e == was.(resolved := true, decision := e.decision, approvedBy := e.approvedBy, resolvedAt := e.resolvedAt)
    ensures EscalationFrom(e, requests + [t])
  {
    var u :| u in requests && AsksFor(u, was);
    assert AsksFor(u, e);
    assert u in requests + [t] && t in requests + [t];
  }

  lemma RestStepIsPosted(s: Ledger, requests: seq<Timed>, t: Timed, keccak: Keccak)
    requires RestFrom(s, requests)
    ensures RestFrom(Handle(s, t.request, t.now, keccak), requests + [t])
  {
    hide Handle;
    hide Logs;
    hide Complete;
    var after := Handle(s, t.request, t.now, keccak);
    var more := requests + [t];
    assert forall u :: u in requests ==> u in more;
    assert t in more;
    LogMoves(s, t, keccak);
    PoliciesMove(s, t, keccak);
    ApprovalsMove(s, t, keccak);
    LogStep(s, after, requests, t);
    forall id
      ensures Puts(more, id) == Puts(requests, id) + if PutsFor(t.request, id) then 1 else 0
      ensures LastPut(more, id) == if PutsFor(t.request, id) then t.request.policy else LastPut(requests, id)
      ensures LastApproval(more, id) == if ApprovesFor(t.request, id) then t.request.expiresAt else LastApproval(requests, id)
    {
      FoldsOfOneMore(requests, t, id);
    }
    hide Puts;
    hide LastPut;
    hide LastApproval;
    forall id | id in after.escalations
      ensures after.escalations[id].requestId == id && EscalationFrom(after.escalations[id], more)
    {
      EscalationsMove(s, t, keccak, id);
      if id in s.escalations {
        if after.escalations[id] == s.escalations[id] {
          EscalationStays(s.escalations[id], requests, t);
        } else {
          ResolvedFrom(s.escalations[id], after.escalations[id], requests, t);
        }
      }
    }
    hide EscalationFrom;
    PoliciesStep(s, after, requests, t);
    ApprovalsStep(s, after, requests, t);
  }

  lemma LogStep(s: Ledger, after: Ledger, requests: seq<Timed>, t: Timed)
    requires forall e :: e in s.log ==> exists u :: u in requests && Logs(u, e)
    requires after.log == s.log || (|after.log| == |s.log| + 1 && after.log == s.log + [after.log[|s.log|]]
                                    && Logs(t, after.log[|s.log|]))
    ensures forall e :: e in after.log ==> exists u :: u in requests + [t] && Logs(u, e)
  {
    hide Logs;
    var more := requests + [t];
    assert forall u :: u in requests ==> u in more;
    assert t in more;
  }

  /** After any run, every log entry, policy, approval and escalation is what was posted, and when. */
  lemma {:induction false} RestIsPosted(requests: seq<Timed>, keccak: Keccak)
    ensures RestFrom(Run(requests, keccak), requests)
  {
    hide Handle;
    if requests != [] {
      hide RestFrom;
      var front, t := requests[..|requests| - 1], requests[|requests| - 1];
      RestIsPosted(front, keccak);
      RestStepIsPosted(Run(front, keccak), front, t, keccak);
      assert requests == front + [t];
    }
  }

  lemma PoliciesStep(s: Ledger, after: Ledger, requests: seq<Timed>, t: Timed)
    requires PoliciesAre(s, requests)
    requires forall id :: Puts(requests + [t], id) == Puts(requests, id) + if PutsFor(t.request, id) then 1 else 0
    requires forall id :: LastPut(requests + [t], id) == if PutsFor(t.request, id) then t.request.policy else LastPut(requests, id)
    requires after.policies == PoliciesAfter(s, t)
    ensures PoliciesAre(after, requests + [t])
  {
    hide Puts;
    hide LastPut;
  }

  lemma ApprovalsStep(s: Ledger, after: Ledger, requests: seq<Timed>, t: Timed)
    requires forall key :: key in s.approvals <==> LastApproval(requests, key).Some?
    requires forall key :: key in s.approvals ==> Some(s.approvals[key]) == LastApproval(requests, key)
    requires forall key :: LastApproval(requests + [t], key)
               == if ApprovesFor(t.request, key) then t.request.expiresAt else LastApproval(requests, key)
    requires after.approvals == ApprovalsAfter(s, t)
    ensures forall key :: key in after.approvals <==> LastApproval(requests + [t], key).Some?
    ensures forall key :: key in after.approvals ==> Some(after.approvals[key]) == LastApproval(requests + [t], key)
  {
    hide LastApproval;
    hide Text.Lower;
  }

  // ---- The feed and the state -----------------------------------------------------------------------

  function KindOf(q: Request): EventKind {
    match q
    case CreateIntent(_, _, _, _, _) => IntentCreatedEvent
    case AttachChallenge(_, _) => ChallengeAttachedEvent
    case ReserveNonce(_, _) => NonceReservedEvent
    case ReleaseNonce(_) => NonceReleasedEvent
    case PutPolicy(_, _) => PolicyPut
    case CreateEscalation(_, _, _, _, _, _) => EscalationCreated
    case ResolveEscalation(_, _, _) => EscalationResolved
    case SetStandingApproval(_, _, _) => StandingApprovalSet
    case RecordDecision(_, _, _, _, _, _, _, _, _) => DecisionRecorded
    case RecordSettlement(_, _, _, _, _) => SettlementRecorded
    case RecordCapture(_, _, _, _, _) => CaptureRecorded
    case RecordSpend(_, _, _, _, _, _) => SpendRecorded
  }

  /** The event of an accepted request: its kind, its moment, and the intent it touched. */
  predicate Announces(t: Timed, e: Event) {
    && e.kind == KindOf(t.request) && e.at == t.now
    && (e.intent.Some? <==> t.request.CreateIntent? || Subject(t.request) != "")
    && (e.intent.Some? ==>
          Some(e.intent.value.requestId) == if t.request.CreateIntent? then t.request.newId else Some(Subject(t.request)))
  }

  /** Repeating an escalation is answered without an event; every other accepted request is announced once. */
  predicate Silent(s: Ledger, q: Request) {
    !Acceptable(s, q) || (q.CreateEscalation? && q.newId.value in s.escalations)
  }

  /** The kind of the event that an outcome is announced with. */
  function AnnouncedAs(o: Outcome): Option<EventKind> {
    match o
    case Reject(_, _) => None
    case Unchanged => None
    case Create(_) => Some(IntentCreatedEvent)
    case Change(_, kind) => Some(kind)
    case Decide(_, _) => Some(DecisionRecorded)
    case Put(_, _) => Some(PolicyPut)
    case Escalate(_, kind) => Some(kind)
    case Preapprove(_, _) => Some(StandingApprovalSet)
  }

  lemma ApplyAnnounces(s: Ledger, o: Outcome, now: Time)
    ensures var after := Apply(s, o, now);
            if AnnouncedAs(o).None? then after == s
            else |after.events| == |s.events| + 1
                 && after.events == s.events + [after.events[|s.events|]]
                 && var e := after.events[|s.events|];
                    && e.kind == AnnouncedAs(o).value && e.at == now
                    && (e.intent.Some? <==> Stored(o).Some?)
                    && (e.intent.Some? ==> e.intent.value.requestId == Stored(o).value.requestId
                                           && e.intent.value.decision == Stored(o).value.decision)
  {
  }

  /** Where a route changes anything, its outcome is of the request's kind and stores its intent. */
  lemma RouteAnnounces(s: Ledger, q: Request, now: Time, keccak: Keccak)
    requires Subject(q) in s.intents ==> s.intents[Subject(q)].requestId == Subject(q)
    requires "" !in s.intents
    ensures var o := Route(s, q, now, keccak);
            && (AnnouncedAs(o).None? <==> Silent(s, q))
            && (AnnouncedAs(o).Some? ==>
                  && AnnouncedAs(o).value == KindOf(q)
                  && (Stored(o).Some? <==> q.CreateIntent? || Subject(q) != "")
                  && (Stored(o).Some? ==>
                        Some(Stored(o).value.requestId) == if q.CreateIntent? then q.newId else Some(Subject(q))))
  {
    hide IsHash32;
    hide ApprovalKey;
    hide HashIntentInstruction;
  }

  lemma StepIsAnnouncedOnce(s: Ledger, t: Timed, keccak: Keccak)
    requires Subject(t.request) in s.intents ==> s.intents[Subject(t.request)].requestId == Subject(t.request)
    requires "" !in s.intents
    ensures var after := Handle(s, t.request, t.now, keccak);
            if Silent(s, t.request) then after == s
            else |after.events| == |s.events| + 1 && after.events == s.events + [after.events[|s.events|]]
                 && Announces(t, after.events[|s.events|])
  {
    hide Route;
    hide Apply;
    hide Silent;
    hide KindOf;
    hide AnnouncedAs;
    hide Stored;
    RouteAnnounces(s, t.request, t.now, keccak);
    ApplyAnnounces(s, Route(s, t.request, t.now, keccak), t.now);
  }

  /** Every event of the feed announces a request of the run, at its moment. */
  ghost predicate EventsFrom(s: Ledger, requests: seq<Timed>) {
    forall e :: e in s.events ==> exists t :: t in requests && Announces(t, e)
  }

  lemma EventsStep(s: Ledger, after: Ledger, requests: seq<Timed>, t: Timed)
    requires EventsFrom(s, requests)
    requires after.events == s.events || (|after.events| == |s.events| + 1 && Announces(t, after.events[|s.events|])
                                          && after.events == s.events + [after.events[|s.events|]])
    ensures EventsFrom(after, requests + [t])
  {
    hide Announces;
    assert forall u :: u in requests ==> u in requests + [t];
    assert t in requests + [t];
  }

  lemma {:induction false} EventsAreOfRequests(requests: seq<Timed>, keccak: Keccak)
    ensures EventsFrom(Run(requests, keccak), requests)
  {
    hide Handle;
    if requests != [] {
      hide EventsFrom;
      hide Announces;
      var front, t := requests[..|requests| - 1], requests[|requests| - 1];
      var s := Run(front, keccak);
      EventsAreOfRequests(front, keccak);
      RunIsSound(front, keccak);
      SubjectKeyed(s, t.request, keccak);
      StepIsAnnouncedOnce(s, t, keccak);
      EventsStep(s, Handle(s, t.request, t.now, keccak), front, t);
      assert requests == front + [t];
    }
  }

  /** What an event says of the state of an intent it shows, as decided so far. */
  function StateSaid(kind: EventKind, decision: Option<Decision>, before: IntentState): IntentState {
    match kind
    case IntentCreatedEvent => IntentCreated
    case ChallengeAttachedEvent => ChallengeAttached
    case NonceReservedEvent => NonceReserved
    case NonceReleasedEvent => ChallengeAttached
    case DecisionRecorded => if decision == Some(Signed) then SignedState else before
    case SettlementRecorded => Settled
    case CaptureRecorded => Captured
    case _ => before
  }

  /** The state that the feed of an intent leads to. */
  function StateTold(events: seq<Event>, id: string): IntentState {
    if events == [] then IntentCreated else
      var before, e := StateTold(events[..|events| - 1], id), events[|events| - 1];
      if e.intent.Some? && e.intent.value.requestId == id
      then StateSaid(e.kind, e.intent.value.decision, before) else before
  }

  lemma StateOfOneMore(events: seq<Event>, e: Event, id: string)
    ensures StateTold(events + [e], id)
            == if e.intent.Some? && e.intent.value.requestId == id
               then StateSaid(e.kind, e.intent.value.decision, StateTold(events, id)) else StateTold(events, id)
  {
    assert (events + [e])[..|events + [e]| - 1] == events;
  }

  ghost predicate StatesTold(s: Ledger) {
    forall id :: id in s.intents ==> s.intents[id].state == StateTold(s.events, id)
  }

  /** The state of a stored intent, by the kind of the event that announces it. */
  lemma RouteStates(s: Ledger, q: Request, now: Time, keccak: Keccak)
    requires Subject(q) in s.intents ==> s.intents[Subject(q)].requestId == Subject(q)
    requires Stored(Route(s, q, now, keccak)).Some?
    ensures var o := Route(s, q, now, keccak);
            var i := o.intent;
            && AnnouncedAs(o).Some? && (o.Create? <==> AnnouncedAs(o) == Some(IntentCreatedEvent))
            && (i.requestId !in s.intents ==> o.Create?)
            && forall before :: (i.requestId in s.intents ==> before == s.intents[i.requestId].state) ==>
                 i.state == StateSaid(AnnouncedAs(o).value, i.decision, before)
  {
    hide IsHash32;
    hide HashIntentInstruction;
  }

  lemma StatesStep(s: Ledger, t: Timed, keccak: Keccak)
    requires Sound(s, keccak) && StatesTold(s)
    ensures StatesTold(Handle(s, t.request, t.now, keccak))
  {
    hide Route;
    hide Apply;
    hide StateSaid;
    hide StateTold;
    hide AnnouncedAs;
    SubjectKeyed(s, t.request, keccak);
    hide Sound;
    var o := Route(s, t.request, t.now, keccak);
    var after := Handle(s, t.request, t.now, keccak);
    StoresOne(s, o, t.now);
    ApplyAnnounces(s, o, t.now);
    if Stored(o).Some? {
      RouteStates(s, t.request, t.now, keccak);
    }
    forall id | id in after.intents
      ensures after.intents[id].state == StateTold(after.events, id)
    {
      if AnnouncedAs(o).Some? {
        StateOfOneMore(s.events, after.events[|s.events|], id);
      }
    }
  }

  /** After any run, the state of each intent is the one its own events lead to. */
  lemma {:induction false} StatesFollowTheFeed(requests: seq<Timed>, keccak: Keccak)
    ensures StatesTold(Run(requests, keccak))
  {
    hide Handle;
    if requests != [] {
      hide StatesTold;
      var front, t := requests[..|requests| - 1], requests[|requests| - 1];
      StatesFollowTheFeed(front, keccak);
      RunIsSound(front, keccak);
      StatesStep(Run(front, keccak), t, keccak);
    }
  }
}
