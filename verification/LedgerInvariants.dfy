/**
 * What holds of the ledger after any sequence of requests by any callers: what every step keeps,
 * the decision cache as the log's last word, and the window as a fold over the log.
 */
module LedgerInvariants {
  import opened Wrappers
  import opened Mandates
  import opened LedgerStore

  datatype Timed = Timed(request: Request, now: Time)

  /** The ledger after a run of requests. */
  function Run(requests: seq<Timed>, keccak: Keccak): Ledger {
    if requests == [] then EMPTY else
      var last := requests[|requests| - 1];
      Handle(Run(requests[..|requests| - 1], keccak), last.request, last.now, keccak)
  }

  // ---- The log and the feed as histories ---------------------------------------------------

  /** The last log entry about a request. */
  function LastEntry(log: seq<LogEntry>, id: string): Option<LogEntry> {
    if log == [] then None else
    if log[|log| - 1].requestId == id then Some(log[|log| - 1]) else LastEntry(log[..|log| - 1], id)
  }

  predicate IsNonceEvent(e: Event, id: string) {
    (e.kind.NonceReservedEvent? || e.kind.NonceReleasedEvent?) && e.intent.Some? && e.intent.value.requestId == id
  }

  /** Whether the last thing that happened to a request's nonce was a reservation. */
  function Reserved(events: seq<Event>, id: string): bool {
    if events == [] then false else
    if IsNonceEvent(events[|events| - 1], id) then events[|events| - 1].kind.NonceReservedEvent?
    else Reserved(events[..|events| - 1], id)
  }

  lemma LogGrows(log: seq<LogEntry>, e: LogEntry, id: string)
    ensures LastEntry(log + [e], id) == if e.requestId == id then Some(e) else LastEntry(log, id)
  {
    assert (log + [e])[..|log|] == log;
  }

  lemma FeedGrows(events: seq<Event>, e: Event, id: string)
    ensures Reserved(events + [e], id)
            == if IsNonceEvent(e, id) then e.kind.NonceReservedEvent? else Reserved(events, id)
  {
    assert (events + [e])[..|events|] == events;
  }

  // ---- The invariant -------------------------------------------------------------------------

  /** One record stored under `id`, against its last log entry and the state of its nonce. */
  predicate RecordSound(i: Intent, id: string, last: Option<LogEntry>, reserved: bool, keccak: Keccak) {
    && i.requestId == id
    && i.instructionHash == HashIntentInstruction(keccak, i.instruction)
    && i.challenge.Some? == i.challengeAttachedAt.Some?
    && (i.capture.Some? ==> i.settlement.Some?)
    && (i.nonce.Some? ==> Truthy(i.nonce) && !i.nonceReleased)
    && i.nonce.Some? == reserved
    && match last
       case None => i.decision.None? && i.decidedAt.None?
       case Some(e) => i.decision == Some(e.decision) && i.decidedAt == Some(e.decidedAt)
  }

  ghost predicate RecordsSound(s: Ledger, keccak: Keccak) {
    forall id :: id in s.intents ==>
      RecordSound(s.intents[id], id, LastEntry(s.log, id), Reserved(s.events, id), keccak)
  }

  ghost predicate Ordered(s: Ledger) {
    && (forall j, k :: 0 <= j < k < |s.order| ==> s.order[j] != s.order[k])
    && (forall id :: id in s.order <==> id in s.intents) && "" !in s.intents
    && (forall id :: id in s.escalations ==> s.escalations[id].requestId == id)
  }

  ghost predicate Numbered(s: Ledger) {
    && (forall k :: 0 <= k < |s.log| ==> s.log[k].sequence == k + 1)
    && (forall k :: 0 <= k < |s.events| ==> s.events[k].number == k + 1)
    && s.eventSeq == |s.events|
  }

  ghost predicate NothingElse(s: Ledger) {
    forall id :: id !in s.intents ==> LastEntry(s.log, id).None? && !Reserved(s.events, id)
  }

  ghost predicate Sound(s: Ledger, keccak: Keccak) {
    Ordered(s) && Numbered(s) && RecordsSound(s, keccak) && NothingElse(s)
  }

  /** What no request ever changes about a record. */
  predicate Kept(i: Intent, j: Intent) {
    && j.requestId == i.requestId && j.mandateId == i.mandateId && j.agentId == i.agentId
    && j.instruction == i.instruction && j.instructionHash == i.instructionHash && j.createdAt == i.createdAt
    && (i.challenge.Some? ==> j.challenge == i.challenge && j.challengeAttachedAt == i.challengeAttachedAt)
    && (i.capture.Some? ==> j.capture == i.capture)
    && (i.settlement.Some? ==> j.settlement.Some?)
  }

  ghost predicate Extends(s: Ledger, t: Ledger) {
    && s.order <= t.order && s.log <= t.log && s.events <= t.events
    && forall id :: id in s.intents ==> id in t.intents && Kept(s.intents[id], t.intents[id])
  }

  // ---- Each step keeps it --------------------------------------------------------------------

  /** The record an outcome stores, if it stores one. */
  function Stored(o: Outcome): Option<Intent> {
    match o
    case Create(i) => Some(i)
    case Change(i, _) => Some(i)
    case Decide(i, _) => Some(i)
    case _ => None
  }

  /** What a stored record's nonce and last log entry become. */
  function ReservedAfter(o: Outcome, reserved: bool): bool {
    if o.Change? && o.kind.NonceReservedEvent? then true
    else if o.Change? && o.kind.NonceReleasedEvent? then false
    else reserved
  }

  function LastAfter(o: Outcome, last: Option<LogEntry>): Option<LogEntry> {
    if o.Decide? then Some(o.entry) else last
  }

  /** A route only ever stores a sound successor of the record under the same id. */
  ghost predicate StoresSoundly(s: Ledger, o: Outcome, keccak: Keccak) {
    && (o.Decide? ==> o.entry.requestId == o.intent.requestId && o.entry.sequence == |s.log| + 1)
    && (o.Escalate? ==> o.escalation.requestId in s.escalations || o.kind.EscalationCreated?)
    && (Stored(o).Some? ==>
          var i := Stored(o).value;
          && (o.Create? <==> i.requestId !in s.intents) && (o.Create? ==> i.requestId != "")
          && (o.Create? ==> RecordSound(i, i.requestId, None, false, keccak))
          && (!o.Create? ==>
                var last, reserved := LastEntry(s.log, i.requestId), Reserved(s.events, i.requestId);
                && Kept(s.intents[i.requestId], i)
                && RecordSound(i, i.requestId, LastAfter(o, last), ReservedAfter(o, reserved), keccak)))
  }

  lemma RoutesStoreSoundly(s: Ledger, q: Request, now: Time, keccak: Keccak)
    requires Ordered(s) && RecordsSound(s, keccak)
    ensures StoresSoundly(s, Route(s, q, now, keccak), keccak)
  {
    var id := Subject(q);
    assert id in s.intents ==> RecordSound(s.intents[id], id, LastEntry(s.log, id), Reserved(s.events, id), keccak);
    hide RecordsSound;
    hide Ordered;
    if q.ReserveNonce? || q.ReleaseNonce? || q.AttachChallenge? {
      NonceRoutes(s, q, now, keccak);
    } else if q.RecordSettlement? || q.RecordCapture? || q.RecordSpend? {
      PaymentRoutes(s, q, now, keccak);
    } else if q.RecordDecision? {
      DecisionRoute(s, q, now, keccak);
    }
  }

  /** The intent a request is about; escalations and policies are about none. */
  function Subject(q: Request): string {
    match q
    case AttachChallenge(id, _) => id
    case ReserveNonce(id, _) => id
    case ReleaseNonce(id) => id
    case RecordDecision(id, _, _, _, _, _, _, _, _) => id.GetOr("")
    case RecordSettlement(id, _, _, _, _) => id
    case RecordCapture(id, _, _, _, _) => id
    case RecordSpend(id, _, _, _, _, _) => id
    case _ => ""
  }

  ghost predicate SubjectSound(s: Ledger, q: Request, keccak: Keccak) {
    var id := Subject(q);
    id in s.intents ==> RecordSound(s.intents[id], id, LastEntry(s.log, id), Reserved(s.events, id), keccak)
  }

  lemma NonceRoutes(s: Ledger, q: Request, now: Time, keccak: Keccak)
    requires SubjectSound(s, q, keccak)
    requires q.ReserveNonce? || q.ReleaseNonce? || q.AttachChallenge?
    ensures StoresSoundly(s, Route(s, q, now, keccak), keccak)
  {
  }

  lemma PaymentRoutes(s: Ledger, q: Request, now: Time, keccak: Keccak)
    requires SubjectSound(s, q, keccak)
    requires q.RecordSettlement? || q.RecordCapture? || q.RecordSpend?
    ensures StoresSoundly(s, Route(s, q, now, keccak), keccak)
  {
  }

  lemma DecisionRoute(s: Ledger, q: Request, now: Time, keccak: Keccak)
    requires SubjectSound(s, q, keccak) && q.RecordDecision?
    ensures StoresSoundly(s, Route(s, q, now, keccak), keccak)
  {
  }

  lemma HistoriesOfOthers(s: Ledger, o: Outcome, now: Time, id: string)
    requires o.Decide? ==> o.entry.requestId == o.intent.requestId
    requires Stored(o).Some? ==> Stored(o).value.requestId != id
    ensures var t := Apply(s, o, now);
            LastEntry(t.log, id) == LastEntry(s.log, id) && Reserved(t.events, id) == Reserved(s.events, id)
  {
    var t := Apply(s, o, now);
    if o.Decide? {
      LogGrows(s.log, o.entry, id);
    }
    if t.events != s.events {
      FeedGrows(s.events, t.events[|s.events|], id);
    }
  }

  lemma HistoryOfStored(s: Ledger, o: Outcome, now: Time)
    requires Stored(o).Some? && (o.Decide? ==> o.entry.requestId == o.intent.requestId)
    ensures var t, id := Apply(s, o, now), Stored(o).value.requestId;
            && LastEntry(t.log, id) == LastAfter(o, LastEntry(s.log, id))
            && Reserved(t.events, id) == ReservedAfter(o, Reserved(s.events, id))
  {
    var t, id := Apply(s, o, now), Stored(o).value.requestId;
    if o.Decide? {
      LogGrows(s.log, o.entry, id);
    }
    FeedGrows(s.events, t.events[|s.events|], id);
  }

  lemma ApplyKeepsRecords(s: Ledger, o: Outcome, now: Time, keccak: Keccak)
    requires Sound(s, keccak) && StoresSoundly(s, o, keccak)
    ensures RecordsSound(Apply(s, o, now), keccak) && NothingElse(Apply(s, o, now))
  {
    hide RecordSound;
    hide IntentViewOf;
    var t := Apply(s, o, now);
    if Stored(o).Some? {
      HistoryOfStored(s, o, now);
    }
    forall id
      ensures id in t.intents ==> RecordSound(t.intents[id], id, LastEntry(t.log, id), Reserved(t.events, id), keccak)
      ensures id !in t.intents ==> LastEntry(t.log, id).None? && !Reserved(t.events, id)
    {
      if Stored(o).None? || Stored(o).value.requestId != id {
        HistoriesOfOthers(s, o, now, id);
      }
    }
  }

  lemma ApplyKeepsOrder(s: Ledger, o: Outcome, now: Time, keccak: Keccak)
    requires Ordered(s) && Numbered(s) && StoresSoundly(s, o, keccak)
    ensures Ordered(Apply(s, o, now)) && Numbered(Apply(s, o, now))
  {
    hide RecordSound;
    hide IntentViewOf;
    ApplyKeepsNumbers(s, o, now, keccak);
    hide Numbered;
    assert o.Create? ==> o.intent.requestId !in s.order;
  }

  lemma ApplyKeepsNumbers(s: Ledger, o: Outcome, now: Time, keccak: Keccak)
    requires Numbered(s) && StoresSoundly(s, o, keccak)
    ensures Numbered(Apply(s, o, now))
  {
    hide RecordSound;
    hide IntentViewOf;
  }

  lemma ApplyExtends(s: Ledger, o: Outcome, now: Time, keccak: Keccak)
    requires StoresSoundly(s, o, keccak) && (o.Create? ==> o.intent.requestId !in s.intents)
    ensures Extends(s, Apply(s, o, now))
  {
    hide RecordSound;
    hide IntentViewOf;
    var t := Apply(s, o, now);
    forall id | id in s.intents
      ensures id in t.intents && Kept(s.intents[id], t.intents[id])
    {
    }
  }

  /** Every request by any caller keeps the invariant, and keeps what records promise to keep. */
  lemma HandleKeeps(s: Ledger, q: Request, now: Time, keccak: Keccak)
    requires Sound(s, keccak)
    ensures Sound(Handle(s, q, now, keccak), keccak)
    ensures Extends(s, Handle(s, q, now, keccak))
  {
    var o := Route(s, q, now, keccak);
    RoutesStoreSoundly(s, q, now, keccak);
    hide Route;
    ApplyKeepsRecords(s, o, now, keccak);
    ApplyKeepsOrder(s, o, now, keccak);
    ApplyExtends(s, o, now, keccak);
  }

  lemma {:induction false} RunIsSound(requests: seq<Timed>, keccak: Keccak)
    ensures Sound(Run(requests, keccak), keccak)
  {
    if requests != [] {
      var front, last := requests[..|requests| - 1], requests[|requests| - 1];
      RunIsSound(front, keccak);
      HandleKeeps(Run(front, keccak), last.request, last.now, keccak);
    }
  }

  /** Along any run, the later ledger extends the earlier one. */
  lemma {:induction false} RunExtends(earlier: seq<Timed>, later: seq<Timed>, keccak: Keccak)
    ensures Extends(Run(earlier, keccak), Run(earlier + later, keccak))
  {
    hide Handle;
    hide RecordSound;
    if later == [] {
      assert earlier + later == earlier;
    } else {
      var front, last := later[..|later| - 1], later[|later| - 1];
      RunExtends(earlier, front, keccak);
      RunIsSound(earlier + front, keccak);
      HandleKeeps(Run(earlier + front, keccak), last.request, last.now, keccak);
      assert (earlier + later)[..|earlier + later| - 1] == earlier + front;
    }
  }

  /**
   * A capture names the settlement it was made against, but a later settlement overwrites that:
   * the two agree afterwards exactly when the later one names the same transaction.
   */
  lemma SettlementCanOverwriteACapturedOne(s: Ledger, q: Request, now: Time)
    requires q.RecordSettlement? && RecordSettlementRoute(s, q).Change?
    requires s.intents[q.requestId].requestId == q.requestId && s.intents[q.requestId].capture.Some?
    ensures var i := Apply(s, RecordSettlementRoute(s, q), now).intents[q.requestId];
            i.capture.value.settlementTx == i.settlement.value.settlementTx
            <==> s.intents[q.requestId].capture.value.settlementTx == q.settlementTx.value
  {
  }

  // ---- The window is a fold over the log -----------------------------------------------------

  /** Whether a request's last logged decision is a signature inside the window. */
  predicate LoggedInWindow(s: Ledger, id: string, mandateId: string, from: Time) {
    && id in s.intents && s.intents[id].mandateId == mandateId && s.intents[id].challenge.Some?
    && match LastEntry(s.log, id)
       case None => false
       case Some(e) => e.decision.Signed? && e.decidedAt >= from
  }

  function LoggedWindow(s: Ledger, mandateId: string, from: Time, k: nat): Usage
    requires k <= |s.order|
  {
    if k == 0 then Usage(0, 0) else
      var before := LoggedWindow(s, mandateId, from, k - 1);
      if LoggedInWindow(s, s.order[k - 1], mandateId, from)
      then Usage(before.spent + s.intents[s.order[k - 1]].challenge.value.amount, before.cardCount + 1)
      else before
  }

  lemma {:induction false} WindowFoldsTheLog(s: Ledger, mandateId: string, from: Time, k: nat, keccak: Keccak)
    requires Sound(s, keccak) && k <= |s.order|
    ensures WindowOver(s, mandateId, from, k) == LoggedWindow(s, mandateId, from, k)
  {
    if k > 0 {
      WindowFoldsTheLog(s, mandateId, from, k - 1, keccak);
      var id := s.order[k - 1];
      assert id in s.order;
      assert RecordSound(s.intents[id], id, LastEntry(s.log, id), Reserved(s.events, id), keccak);
    }
  }
}
