/**
 * Every run keeps what RollingWindow needs, as long as the mandate stays fixed, a request id is
 * paid once, the ledger holds the amount that was asked for, and no more than the allowed number
 * of the mandate's payments are in flight. Hence the budget of every window of every run.
 */
module RollingBudget {
  import opened Wrappers
  import opened Mandates
  import opened LedgerStore
  import opened LedgerInvariants
  import opened PolicyChecks
  import opened SigningInvariant
  import opened RollingWindow
  import opened RecordedDecision
  import P = SigningProtocol
  import Scenes

  // ---- What the deployment is assumed to keep to -----------------------------------------------

  ghost predicate OnePayment(handlers: map<nat, Handler>) {
    forall a, b :: a in handlers && b in handlers && a != b && handlers[a].call.Payment? && handlers[b].call.Payment? ==>
      handlers[a].call.requestId != handlers[b].call.requestId
  }

  predicate Agrees(h: Handler, s: Ledger, t: Terms) {
    var id := h.call.requestId;
    Ours(h, t) && id in s.intents ==>
      && s.intents[id].mandateId == t.mandateId
      && (s.intents[id].challenge.Some? ==> s.intents[id].challenge.value.amount == h.call.requestedAmount)
  }

  /** One payment per request, one fixed mandate, one amount per request, bounded concurrency. */
  ghost predicate Assumed(w: World, t: Terms) {
    && OnePayment(w.handlers)
    && (t.mandateId in w.ledger.policies ==> w.ledger.policies[t.mandateId].policy == t.mandate)
    && (forall a :: a in w.handlers ==> Agrees(w.handlers[a], w.ledger, t))
    && |InFlightOf(w.handlers, t)| <= t.inFlight
  }

  // ---- What else is kept -----------------------------------------------------------------------

  predicate HasChallenge(s: Ledger, id: string) {
    id in s.intents && s.intents[id].challenge.Some?
  }

  /** A copy of the intent shows a challenge only if the ledger has one. */
  predicate Attached(i: Intent, s: Ledger, id: string) {
    i.challengeAttachedAt.Some? ==> HasChallenge(s, id)
  }

  /** Where one of our payments stands agrees with the ledger and with whether it has read the window. */
  predicate Placed(h: Handler, read: bool, s: Ledger, t: Terms) {
    var id := h.call.requestId;
    && (Unread(h) ==> !read) && (!h.point.Finished? ==> id != "")
    && match h.point
       case AwaitIntent =>
         h.answer.Some? && h.answer.value.IntentRead? && h.answer.value.intent.Some? ==>
           Attached(h.answer.value.intent.value, s, id)
       case AwaitPolicy(i) =>
         && Attached(i, s, id)
         && (h.answer.Some? && h.answer.value.PolicyRead? && h.answer.value.policy.Some? ==>
               h.answer.value.policy.value.policy == t.mandate)
       case AwaitWindow(i, m) => m == t.mandate && Attached(i, s, id)
       case AwaitRegistry(i, _, _) => Attached(i, s, id)
       case AwaitApprovalRead(_, _, _) => HasChallenge(s, id)
       case AwaitReservation(approved) => approved.None? && HasChallenge(s, id)
       case AwaitSigner(approved) => approved.None? && HasChallenge(s, id)
       case AwaitSignedRecord(approved, _) =>
         approved.None? && HasChallenge(s, id) && (h.answer.Some? ==> Accepted(h.answer))
       case AwaitRelease(approved, _) => approved.None?
       case AwaitStandingApproval(_, _) => false
       case AwaitApproveRecord(_) => false
       case AwaitRefusedRecord(_, _, reply) => !reply.SignedReply?
       case AwaitDenial(_, _, _) => false
       case _ => true
  }

  ghost predicate AllPlaced(o: Seen, t: Terms) {
    && (forall a :: a in o.world.handlers && Ours(o.world.handlers[a], t) ==>
          Placed(o.world.handlers[a], a in o.readings, o.world.ledger, t))
    && (forall a :: a in o.readings ==> a in o.world.handlers && Ours(o.world.handlers[a], t))
  }

  /** A payment that asked for an escalation never signs. */
  predicate Escalating(h: Handler) {
    && h.call.Payment?
    && (h.point.AwaitEscalatedRecord? || (h.point.AwaitEscalation? && h.answer.Some?)
        || (h.point.Finished? && !h.point.reply.SignedReply?))
  }

  predicate EscalatedBy(handlers: map<nat, Handler>, id: string) {
    exists a :: a in handlers && Escalating(handlers[a]) && handlers[a].call.requestId == id
  }

  ghost predicate EscalationsOwned(w: World) {
    forall id :: id in w.ledger.escalations ==> EscalatedBy(w.handlers, id)
  }

  /** A resolution that has found its escalation. */
  predicate Approached(h: Handler) {
    && h.call.Resolve? && !h.point.Finished?
    && (h.point.AwaitEscalationRead? ==>
          h.answer.Some? && h.answer.value.EscalationRead? && h.answer.value.escalation.Some?)
  }

  ghost predicate ResolvesEscalated(w: World) {
    forall a :: a in w.handlers && Approached(w.handlers[a]) ==> w.handlers[a].call.requestId in w.ledger.escalations
  }

  ghost predicate Tracked(o: Seen, t: Terms, setup: P.Setup) {
    && Safe(o.world, setup) && AllPlaced(o, t) && AliveFaithful(o, t) && Overlap(o) && ReadsSound(o, t)
    && EscalationsOwned(o.world) && ResolvesEscalated(o.world)
  }

  // ---- Runs, observed ----------------------------------------------------------------------------

  predicate ReadsWindow(h: Handler, t: Terms) {
    Ours(h, t) && h.live && h.point.AwaitWindow? && h.answer.None?
  }

  /** What a window read sees. */
  function ReadingOf(o: Seen, a: nat, t: Terms): Read {
    var w := o.world;
    var from := w.clock - WindowMs(t);
    var recorded := RecordedOf(w.handlers, t);
    Read(|o.readings|, w.clock, Window(w.ledger, t.mandateId, from), InFlightOf(w.handlers, t), recorded,
         set b | b in recorded && DecidedAt(w, b) >= from)
  }

  function Observe(o: Seen, step: P.Step, t: Terms, setup: P.Setup): Seen {
    var after := P.Next(o.world, step, setup);
    if step.Serve? && step.id in o.world.handlers && ReadsWindow(o.world.handlers[step.id], t)
    then Seen(after, o.readings[step.id := ReadingOf(o, step.id, t)])
    else Seen(after, o.readings)
  }

  // ---- One step ---------------------------------------------------------------------------------

  /** What a ledger step leaves of what the invariant rests on. */
  ghost predicate LedgerMoved(w: World, s: Ledger, t: Terms) {
    && (forall a :: a in RecordedOf(w.handlers, t) ==> Stays(w.handlers[a], w.ledger, s, t))
    && (forall id :: HasChallenge(w.ledger, id) ==> HasChallenge(s, id))
    && (forall id :: id in w.ledger.escalations ==> id in s.escalations)
  }

  predicate Stays(h: Handler, s: Ledger, after: Ledger, t: Terms) {
    var id := h.call.requestId;
    h.call.Payment? && Entered(h, s, t) ==> Entered(h, after, t) && after.intents[id].decidedAt == s.intents[id].decidedAt
  }

  /** What a handler step leaves, or a new handler brings. */
  predicate HandlerMoved(h: Handler, next: Handler, t: Terms) {
    && next.call == h.call && (Escalating(h) ==> Escalating(next))
    && (Ours(h, t) ==> (Alive(next) ==> Alive(h)) && (Recorded(h) ==> Recorded(next)))
  }

  ghost predicate AllMoved(w: World, after: World, t: Terms) {
    forall a :: a in w.handlers ==> a in after.handlers && HandlerMoved(w.handlers[a], after.handlers[a], t)
  }

  lemma MovedOverlap(o: Seen, after: World, t: Terms)
    requires Overlap(o) && AllMoved(o.world, after, t)
    requires forall a :: a in o.readings ==> a in o.world.handlers && Ours(o.world.handlers[a], t)
    ensures Overlap(Seen(after, o.readings))
  {
    hide Alive;
    hide Recorded;
    hide Escalating;
  }

  lemma MovedReads(o: Seen, after: World, t: Terms)
    requires ReadsSound(o, t) && AliveFaithful(o, t)
    requires AllMoved(o.world, after, t) && LedgerMoved(o.world, after.ledger, t)
    ensures ReadsSound(Seen(after, o.readings), t)
  {
    hide Alive;
    hide Escalating;
    forall b | b in o.readings
      ensures ReadSound(o.readings[b], Seen(after, o.readings), t)
    {
      MovedRead(o, o.readings[b], after, t);
    }
    hide ReadSound;
  }

  lemma MovedRead(o: Seen, r: Read, after: World, t: Terms)
    requires ReadSound(r, o, t) && AliveFaithful(o, t)
    requires AllMoved(o.world, after, t) && LedgerMoved(o.world, after.ledger, t)
    ensures ReadSound(r, Seen(after, o.readings), t)
  {
    hide Escalating;
    forall a | a in r.recorded
      ensures a in RecordedOf(after.handlers, t) && DecidedAt(after, a) == DecidedAt(o.world, a)
      ensures Amount(after.handlers, a) == Amount(o.world.handlers, a)
    {
      RecordedStays(o, a, after, t);
    }
    TotalDependsOnAmounts(o.world.handlers, after.handlers, r.counted);
    hide RecordedOf;
    hide DecidedAt;
    hide AllMoved;
    hide LedgerMoved;
  }

  lemma RecordedStays(o: Seen, a: nat, after: World, t: Terms)
    requires AliveFaithful(o, t) && a in RecordedOf(o.world.handlers, t)
    requires AllMoved(o.world, after, t) && LedgerMoved(o.world, after.ledger, t)
    ensures a in RecordedOf(after.handlers, t) && DecidedAt(after, a) == DecidedAt(o.world, a)
    ensures Amount(after.handlers, a) == Amount(o.world.handlers, a)
    ensures Entered(o.world.handlers[a], after.ledger, t)
  {
    hide Escalating;
    assert Faithful(o.world.handlers[a], a, o, t);
    assert HandlerMoved(o.world.handlers[a], after.handlers[a], t);
    assert Stays(o.world.handlers[a], o.world.ledger, after.ledger, t);
    hide AliveFaithful;
    hide LedgerMoved;
  }

  // ---- A handler resumes --------------------------------------------------------------------------

  lemma ResumedPaymentIsPlaced(h: Handler, read: bool, env: P.Env, now: Time, s: Ledger, t: Terms, setup: P.Setup)
    requires Ours(h, t) && Placed(h, read, s, t) && P.Answered(h) && !P.InSigning(h.point)
    ensures var next := P.ResumePayment(h, env, now, setup).(answer := None);
            Placed(next, read, s, t) && HandlerMoved(h, next, t)
  {
    if h.point.AwaitRegistry? {
      ChecksArePlaced(h, read, env, now, s, t, setup);
    } else if h.point.AwaitApprovalRead? {
      MatchIsPlaced(h, read, env, now, s, t, setup);
    } else {
      ReadsArePlaced(h, read, env, now, s, t, setup);
    }
  }

  lemma ReadsArePlaced(h: Handler, read: bool, env: P.Env, now: Time, s: Ledger, t: Terms, setup: P.Setup)
    requires Ours(h, t) && Placed(h, read, s, t) && P.Answered(h) && !P.InSigning(h.point)
    requires !h.point.AwaitRegistry? && !h.point.AwaitApprovalRead?
    ensures var next := P.ResumePayment(h, env, now, setup).(answer := None);
            Placed(next, read, s, t) && HandlerMoved(h, next, t)
  {
    hide P.Blank;
    hide HasChallenge;
  }

  lemma ChecksArePlaced(h: Handler, read: bool, env: P.Env, now: Time, s: Ledger, t: Terms, setup: P.Setup)
    requires Ours(h, t) && Placed(h, read, s, t) && P.Answered(h) && h.point.AwaitRegistry?
    ensures var next := P.ResumePayment(h, env, now, setup).(answer := None);
            Placed(next, read, s, t) && HandlerMoved(h, next, t)
  {
    hide PassesUpTo;
    hide FirstFailure;
    hide HasChallenge;
    hide Check;
    var c := P.Context(h, h.point.intent, h.point.mandate, h.point.usage, env.registry, now, setup);
    if FirstFailure(c).None? {
      CheckedIntentIsAttached(c);
    }
  }

  lemma MatchIsPlaced(h: Handler, read: bool, env: P.Env, now: Time, s: Ledger, t: Terms, setup: P.Setup)
    requires Ours(h, t) && Placed(h, read, s, t) && P.Answered(h) && h.point.AwaitApprovalRead?
    ensures var next := P.ResumePayment(h, env, now, setup).(answer := None);
            Placed(next, read, s, t) && HandlerMoved(h, next, t)
  {
    hide Check9IntentMatch;
    hide BuildCommitmentNonce;
    hide HashPolicy;
    hide HasChallenge;
  }

  lemma ResumedSigningIsPlaced(h: Handler, read: bool, now: Time, s: Ledger, t: Terms, setup: P.Setup)
    requires Ours(h, t) && Placed(h, read, s, t) && P.Answered(h) && P.InSigning(h.point) && InStep(h)
    ensures var next := P.ResumeSigning(h, now, setup).(answer := None);
            Placed(next, read, s, t) && HandlerMoved(h, next, t)
  {
    hide P.JobRequest;
    hide HasChallenge;
  }

  // ---- What the checks leave ----------------------------------------------------------------------

  lemma ChecksPass(h: Handler, r: Read, i: Intent, registry: Option<Registry>, now: Time, t: Terms, setup: P.Setup)
    requires h.call.Payment?
    requires FirstFailure(P.Context(h, i, t.mandate, r.usage, registry, now, setup)).None?
    ensures Passed(h.call.requestedAmount, r, t)
  {
    var c := P.Context(h, i, t.mandate, r.usage, registry, now, setup);
    assert Check(4, c).None? && Check(5, c).None?;
  }

  lemma ResumedPaymentIsFaithful(h: Handler, a: nat, o: Seen, after: Seen, env: P.Env, t: Terms, setup: P.Setup)
    requires h.call.Payment? && Faithful(h, a, o, t) && P.Answered(h) && !P.InSigning(h.point) && Alive(h)
    requires after.readings == o.readings && after.world.clock == o.world.clock
    ensures var next := P.ResumePayment(h, env, o.world.clock, setup).(answer := None);
            Alive(next) ==> Faithful(next, a, after, t)
  {
    if h.point.AwaitRegistry? {
      var c := P.Context(h, h.point.intent, h.point.mandate, h.point.usage, env.registry, o.world.clock, setup);
      if FirstFailure(c).None? {
        ChecksPass(h, o.readings[a], h.point.intent, env.registry, o.world.clock, t, setup);
      }
    }
    hide Passed;
    hide FirstFailure;
    hide PassesUpTo;
    hide Check9IntentMatch;
    hide BuildCommitmentNonce;
    hide HashPolicy;
    hide Entered;
    hide P.Context;
  }

  lemma ResumedSigningIsFaithful(h: Handler, a: nat, o: Seen, after: Seen, t: Terms, setup: P.Setup)
    requires Ours(h, t) && Faithful(h, a, o, t) && P.Answered(h) && P.InSigning(h.point) && Alive(h)
    requires InStep(h) && Placed(h, true, o.world.ledger, t)
    requires after.readings == o.readings && after.world.clock == o.world.clock && after.world.ledger == o.world.ledger
    requires DecidedAt(after.world, a) == DecidedAt(o.world, a)
    ensures var next := P.ResumeSigning(h, o.world.clock, setup).(answer := None);
            Alive(next) ==> Faithful(next, a, after, t)
  {
    hide Passed;
    hide P.JobRequest;
    hide DecidedAt;
    hide HasChallenge;
  }

  lemma CheckedIntentIsAttached(c: CheckContext)
    requires PassesUpTo(8, c)
    ensures c.challengeAttachedAt.Some?
  {
    assert Check(7, c).None?;
  }

  // ---- A step that changes at most one handler and moves the ledger -----------------------------

  /** The handler that took the step, or was spawned by it, is as the invariant needs it. */
  ghost predicate Mover(o: Seen, after: World, id: nat, t: Terms) {
    id in after.handlers ==>
      var next := after.handlers[id];
      && (if id in o.world.handlers then HandlerMoved(o.world.handlers[id], next, t) else !Alive(next))
      && (Ours(next, t) ==> Placed(next, id in o.readings, after.ledger, t))
      && (Ours(next, t) && Alive(next) ==> Faithful(next, id, Seen(after, o.readings), t))
      && (Approached(next) ==> next.call.requestId in after.ledger.escalations)
  }

  ghost predicate OthersKept(w: World, after: World, id: nat) {
    && (forall a :: a in w.handlers ==> a in after.handlers && (a == id || after.handlers[a] == w.handlers[a]))
    && (forall a :: a in after.handlers ==> a == id || a in w.handlers)
  }

  ghost predicate NewEscalationsOwned(w: World, after: World) {
    forall id :: id in after.ledger.escalations ==> id in w.ledger.escalations || EscalatedBy(after.handlers, id)
  }

  lemma PlacedStays(h: Handler, read: bool, w: World, s: Ledger, t: Terms)
    requires Placed(h, read, w.ledger, t) && LedgerMoved(w, s, t)
    ensures Placed(h, read, s, t)
  {
    hide HasChallenge;
  }

  lemma FaithfulStays(o: Seen, a: nat, after: World, t: Terms)
    requires AliveFaithful(o, t) && AllMoved(o.world, after, t) && LedgerMoved(o.world, after.ledger, t)
    requires o.world.clock <= after.clock && a in o.world.handlers && after.handlers[a] == o.world.handlers[a]
    requires Ours(o.world.handlers[a], t) && Alive(o.world.handlers[a])
    ensures Faithful(o.world.handlers[a], a, Seen(after, o.readings), t)
  {
    assert Faithful(o.world.handlers[a], a, o, t);
    if Recorded(o.world.handlers[a]) {
      RecordedStays(o, a, after, t);
    }
    hide AliveFaithful;
    hide LedgerMoved;
    hide AllMoved;
    hide Passed;
    hide DecidedAt;
    hide Entered;
  }

  lemma OwnersStay(w: World, after: World, t: Terms)
    requires EscalationsOwned(w) && AllMoved(w, after, t) && NewEscalationsOwned(w, after)
    ensures EscalationsOwned(after)
  {
    hide Escalating;
    hide Alive;
    hide Recorded;
    forall id | id in after.ledger.escalations
      ensures EscalatedBy(after.handlers, id)
    {
      if id in w.ledger.escalations {
        assert EscalatedBy(w.handlers, id);
        var a :| a in w.handlers && Escalating(w.handlers[a]) && w.handlers[a].call.requestId == id;
        assert HandlerMoved(w.handlers[a], after.handlers[a], t);
      }
    }
  }

  lemma StepTracks(o: Seen, after: World, id: nat, t: Terms, setup: P.Setup)
    requires Tracked(o, t, setup) && Safe(after, setup) && o.world.clock <= after.clock
    requires OthersKept(o.world, after, id) && LedgerMoved(o.world, after.ledger, t) && Mover(o, after, id, t)
    requires NewEscalationsOwned(o.world, after)
    ensures Tracked(Seen(after, o.readings), t, setup)
  {
    hide Safe;
    EveryoneMoved(o, after, id, t);
    MovedReads(o, after, t);
    MovedOverlap(o, after, t);
    OwnersStay(o.world, after, t);
    EveryonePlaced(o, after, id, t);
    EveryoneFaithful(o, after, id, t);
    ResolversStay(o, after, id, t);
    hide LedgerMoved;
    hide AllMoved;
    hide Mover;
    hide OthersKept;
    hide Overlap;
    hide ReadsSound;
    hide AllPlaced;
    hide AliveFaithful;
    hide EscalationsOwned;
    hide ResolvesEscalated;
  }

  lemma EveryoneMoved(o: Seen, after: World, id: nat, t: Terms)
    requires OthersKept(o.world, after, id) && Mover(o, after, id, t)
    ensures AllMoved(o.world, after, t)
  {
    hide Placed;
    hide Faithful;
  }

  lemma EveryonePlaced(o: Seen, after: World, id: nat, t: Terms)
    requires AllPlaced(o, t) && OthersKept(o.world, after, id) && LedgerMoved(o.world, after.ledger, t)
    requires Mover(o, after, id, t) && AllMoved(o.world, after, t)
    ensures AllPlaced(Seen(after, o.readings), t)
  {
    hide Faithful;
    hide Alive;
    hide Placed;
    hide LedgerMoved;
    forall a | a in after.handlers && Ours(after.handlers[a], t)
      ensures Placed(after.handlers[a], a in o.readings, after.ledger, t)
    {
      if a != id {
        PlacedStays(after.handlers[a], a in o.readings, o.world, after.ledger, t);
      }
    }
  }

  lemma EveryoneFaithful(o: Seen, after: World, id: nat, t: Terms)
    requires AliveFaithful(o, t) && OthersKept(o.world, after, id) && LedgerMoved(o.world, after.ledger, t)
    requires Mover(o, after, id, t) && AllMoved(o.world, after, t) && o.world.clock <= after.clock
    ensures AliveFaithful(Seen(after, o.readings), t)
  {
    hide Faithful;
    hide Alive;
    hide Placed;
    hide LedgerMoved;
    forall a | a in after.handlers && Ours(after.handlers[a], t) && Alive(after.handlers[a])
      ensures Faithful(after.handlers[a], a, Seen(after, o.readings), t)
    {
      if a != id {
        FaithfulStays(o, a, after, t);
      }
    }
  }

  lemma ResolversStay(o: Seen, after: World, id: nat, t: Terms)
    requires ResolvesEscalated(o.world) && OthersKept(o.world, after, id) && LedgerMoved(o.world, after.ledger, t)
    requires Mover(o, after, id, t)
    ensures ResolvesEscalated(after)
  {
    hide Faithful;
    hide Alive;
    hide Placed;
    hide Approached;
    hide Stays;
    hide HasChallenge;
  }

  // ---- What a request to the ledger moves ---------------------------------------------------------

  lemma EscalationsGrow(s: Ledger, q: Request, now: Time, keccak: Keccak, id: string)
    requires Ordered(s)
    ensures id in s.escalations ==> id in Handle(s, q, now, keccak).escalations
    ensures id in Handle(s, q, now, keccak).escalations && id !in s.escalations ==>
              q.CreateEscalation? && q.newId == Some(id)
  {
    hide IntentViewOf;
  }

  lemma HandleMoves(w: World, q: Request, t: Terms, setup: P.Setup)
    requires Sound(w.ledger, setup.keccak)
    requires forall a :: a in RecordedOf(w.handlers, t) ==> !DecidesOn(q, w.handlers[a].call.requestId)
    ensures LedgerMoved(w, Handle(w.ledger, q, w.clock, setup.keccak), t)
  {
    var s := Handle(w.ledger, q, w.clock, setup.keccak);
    hide Handle;
    forall a | a in RecordedOf(w.handlers, t)
      ensures Stays(w.handlers[a], w.ledger, s, t)
    {
      var id := w.handlers[a].call.requestId;
      if id in w.ledger.intents {
        DecisionStays(w.ledger, q, w.clock, setup.keccak, id);
      }
    }
    forall id | HasChallenge(w.ledger, id)
      ensures HasChallenge(s, id)
    {
      DecisionStays(w.ledger, q, w.clock, setup.keccak, id);
    }
    forall id | id in w.ledger.escalations
      ensures id in s.escalations
    {
      EscalationsGrow(w.ledger, q, w.clock, setup.keccak, id);
    }
    hide Sound;
    hide Stays;
    hide RecordedOf;
    hide HasChallenge;
  }

  lemma SameLedgerMoves(w: World, t: Terms)
    ensures LedgerMoved(w, w.ledger, t)
  {
  }

  // ---- The steps of one handler --------------------------------------------------------------------

  lemma EscalatingStays(h: Handler, env: P.Env, now: Time, setup: P.Setup)
    requires Escalating(h) && P.Answered(h)
    ensures Escalating(P.Resumed(h, env, now, setup))
  {
  }

  lemma ApproachedStays(h: Handler, env: P.Env, now: Time, setup: P.Setup)
    requires h.call.Resolve? && P.Answered(h) && Approached(P.Resumed(h, env, now, setup))
    ensures Approached(h)
  {
  }

  lemma ResumeKeepsCall(h: Handler, env: P.Env, now: Time, setup: P.Setup)
    ensures P.Resumed(h, env, now, setup).call == h.call
  {
    hide FirstFailure;
    hide PassesUpTo;
    hide Check9IntentMatch;
    hide BuildCommitmentNonce;
  }

  lemma ResumeTracks(o: Seen, id: nat, env: P.Env, t: Terms, setup: P.Setup)
    requires Tracked(o, t, setup) && id in o.world.handlers && P.Answered(o.world.handlers[id])
    ensures var w := o.world;
            var after := w.(handlers := w.handlers[id := P.Resumed(w.handlers[id], env, w.clock, setup)]);
            Mover(o, after, id, t)
  {
    hide AllPlaced;
    hide AliveFaithful;
    hide Overlap;
    hide ReadsSound;
    hide EscalationsOwned;
    hide P.Resumed;
    hide P.Answered;
    hide HandlerSound;
    hide Faithful;
    hide Placed;
    hide Alive;
    hide Recorded;
    hide Escalating;
    hide Sound;
    hide Exclusive;
    hide SignaturesSound;
    hide RecordsBacked;
    var w := o.world;
    var h := w.handlers[id];
    var next := P.Resumed(h, env, w.clock, setup);
    var after := w.(handlers := w.handlers[id := next]);
    assert HandlerSound(h, w.ledger, setup);
    hide Safe;
    ResumeKeepsCall(h, env, w.clock, setup);
    if Escalating(h) {
      EscalatingStays(h, env, w.clock, setup);
    }
    if Approached(next) {
      ApproachedStays(h, env, w.clock, setup);
    }
    if Ours(h, t) {
      OursResumes(o, id, env, after, t, setup);
    }
  }

  lemma OursResumes(o: Seen, id: nat, env: P.Env, after: World, t: Terms, setup: P.Setup)
    requires AllPlaced(o, t) && AliveFaithful(o, t) && id in o.world.handlers && Ours(o.world.handlers[id], t)
    requires P.Answered(o.world.handlers[id]) && HandlerSound(o.world.handlers[id], o.world.ledger, setup)
    requires var w := o.world;
             after == w.(handlers := w.handlers[id := P.Resumed(w.handlers[id], env, w.clock, setup)])
    ensures var h, next := o.world.handlers[id], after.handlers[id];
            && HandlerMoved(h, next, t) && Placed(next, id in o.readings, o.world.ledger, t)
            && (Alive(next) ==> Faithful(next, id, Seen(after, o.readings), t))
  {
    var w := o.world;
    var h := w.handlers[id];
    var read := id in o.readings;
    assert Placed(h, read, w.ledger, t);
    assert InStep(h);
    assert Alive(h) ==> Faithful(h, id, o, t) && read;
    ResumeKeepsCall(h, env, w.clock, setup);
    hide AllPlaced;
    hide AliveFaithful;
    hide HandlerSound;
    if P.InSigning(h.point) {
      ResumedSigningIsPlaced(h, read, w.clock, w.ledger, t, setup);
      if Alive(h) {
        ResumedSigningIsFaithful(h, id, o, Seen(after, o.readings), t, setup);
      }
      hide P.ResumeSigning;
    } else {
      ResumedPaymentIsPlaced(h, read, env, w.clock, w.ledger, t, setup);
      if Alive(h) {
        ResumedPaymentIsFaithful(h, id, o, Seen(after, o.readings), env, t, setup);
      }
      hide P.ResumePayment;
    }
    hide Faithful;
    hide Placed;
    hide Alive;
    hide Recorded;
    hide Escalating;
    hide InStep;
  }

  lemma InPlaceIsPlaced(h: Handler, next: Handler, read: bool, s: Ledger, t: Terms)
    requires next == h.(live := next.live, signer := next.signer) && (next.live ==> h.live)
    ensures HandlerMoved(h, next, t) && (Approached(next) ==> Approached(h)) && (Alive(next) ==> Alive(h))
    ensures Placed(h, read, s, t) ==> Placed(next, read, s, t)
  {
    hide HasChallenge;
  }

  lemma InPlaceIsFaithful(o: Seen, id: nat, next: Handler, t: Terms)
    requires id in o.world.handlers && o.world.handlers[id].call.Payment? && Faithful(o.world.handlers[id], id, o, t)
    requires var h := o.world.handlers[id]; next == h.(live := next.live, signer := next.signer)
    ensures Faithful(next, id, Seen(o.world.(handlers := o.world.handlers[id := next]), o.readings), t)
  {
    hide Passed;
  }

  /** Aborting a handler, or its call moving on at the signer, leaves it where it is stopped. */
  lemma InPlaceTracks(o: Seen, id: nat, next: Handler, t: Terms)
    requires AllPlaced(o, t) && AliveFaithful(o, t) && ResolvesEscalated(o.world) && id in o.world.handlers
    requires next == o.world.handlers[id].(live := next.live, signer := next.signer)
    requires next.live ==> o.world.handlers[id].live
    ensures Mover(o, o.world.(handlers := o.world.handlers[id := next]), id, t)
  {
    var h := o.world.handlers[id];
    InPlaceIsPlaced(h, next, id in o.readings, o.world.ledger, t);
    if Ours(h, t) && Alive(h) {
      assert Faithful(h, id, o, t);
      InPlaceIsFaithful(o, id, next, t);
    }
    hide Placed;
    hide Faithful;
    hide Alive;
    hide Approached;
    hide HandlerMoved;
  }

  lemma SpawnTracks(o: Seen, id: nat, call: P.Call, t: Terms)
    requires AllPlaced(o, t) && id !in o.world.handlers
    ensures Mover(o, o.world.(handlers := o.world.handlers[id := P.Start(call)]), id, t)
  {
    hide HasChallenge;
    assert id !in o.readings;
  }

  lemma HandlerStepTracks(o: Seen, step: P.Step, t: Terms, setup: P.Setup)
    requires Tracked(o, t, setup)
    requires step.Spawn? || step.Resume? || step.Abort? || step.SignerAdmits? || step.KeyAnswers?
    ensures Tracked(Seen(P.Next(o.world, step, setup), o.readings), t, setup)
  {
    var w := o.world;
    var after := P.Next(w, step, setup);
    NextKeeps(w, step, setup);
    SameLedgerMoves(w, t);
    StepMover(o, step, t, setup);
    OneHandlerSteps(w, step, setup);
    hide P.Next;
    hide Tracked;
    hide Safe;
    hide Mover;
    assert NewEscalationsOwned(w, after);
    StepTracks(o, after, step.id, t, setup);
  }

  lemma OneHandlerSteps(w: World, step: P.Step, setup: P.Setup)
    requires step.Spawn? || step.Resume? || step.Abort? || step.SignerAdmits? || step.KeyAnswers?
    ensures var after := P.Next(w, step, setup);
            OthersKept(w, after, step.id) && after.ledger == w.ledger && after.clock == w.clock
  {
    hide P.Resumed;
    hide P.Admitted;
    hide P.Start;
  }

  lemma TickTracks(o: Seen, step: P.Step, t: Terms, setup: P.Setup)
    requires Tracked(o, t, setup) && step.Tick?
    ensures Tracked(Seen(P.Next(o.world, step, setup), o.readings), t, setup)
  {
    var after := P.Next(o.world, step, setup);
    NextKeeps(o.world, step, setup);
    SameLedgerMoves(o.world, t);
    QuietTracks(o, after, t, setup);
  }

  /** A step of the clock or of the ledger that no handler takes part in. */
  lemma QuietTracks(o: Seen, after: World, t: Terms, setup: P.Setup)
    requires Tracked(o, t, setup) && Safe(after, setup) && o.world.clock <= after.clock
    requires after.handlers == o.world.handlers && LedgerMoved(o.world, after.ledger, t)
    requires forall id :: id in after.ledger.escalations ==> id in o.world.ledger.escalations
    ensures Tracked(Seen(after, o.readings), t, setup)
  {
    var id := Unused(after.handlers.Keys);
    assert OthersKept(o.world, after, id);
    assert NewEscalationsOwned(o.world, after);
    assert Mover(o, after, id, t);
    hide Tracked;
    hide Safe;
    hide Mover;
    StepTracks(o, after, id, t, setup);
  }

  lemma {:induction false} Unused(s: set<nat>) returns (id: nat)
    ensures forall a :: a in s ==> a < id
    decreases |s|
  {
    id := 0;
    if s != {} {
      var a := Pick(s);
      var above := Unused(s - {a});
      id := if above <= a then a + 1 else above;
      forall b | b in s
        ensures b < id
      {
        assert b == a || b in s - {a};
      }
    }
  }

  lemma StepMover(o: Seen, step: P.Step, t: Terms, setup: P.Setup)
    requires Tracked(o, t, setup)
    requires step.Spawn? || step.Resume? || step.Abort? || step.SignerAdmits? || step.KeyAnswers?
    ensures Mover(o, P.Next(o.world, step, setup), step.id, t)
  {
    var w := o.world;
    if step.Spawn? {
      if step.id !in w.handlers {
        SpawnTracks(o, step.id, step.call, t);
      } else {
        StayMover(o, step.id, t);
      }
      hide P.Start;
    } else if step.id in w.handlers {
      StayMover(o, step.id, t);
      if step.Resume? {
        if P.Answered(w.handlers[step.id]) {
          ResumeTracks(o, step.id, step.env, t, setup);
        }
        hide P.Resumed;
        hide P.Answered;
      } else {
        SignerMover(o, step, t, setup);
      }
    }
    hide Tracked;
    hide Mover;
  }

  lemma StayMover(o: Seen, id: nat, t: Terms)
    requires AllPlaced(o, t) && AliveFaithful(o, t) && ResolvesEscalated(o.world) && id in o.world.handlers
    ensures Mover(o, o.world, id, t)
  {
    var w := o.world;
    InPlaceTracks(o, id, w.handlers[id], t);
    assert w.handlers[id := w.handlers[id]] == w.handlers;
    assert w.(handlers := w.handlers) == w;
    hide Mover;
  }

  lemma SignerMover(o: Seen, step: P.Step, t: Terms, setup: P.Setup)
    requires step.Abort? || step.SignerAdmits? || step.KeyAnswers?
    requires Tracked(o, t, setup) && step.id in o.world.handlers && Mover(o, o.world, step.id, t)
    ensures Mover(o, P.Next(o.world, step, setup), step.id, t)
  {
    hide Mover;
    hide P.Next;
    TrackedParts(o, t, setup);
    hide Tracked;
    if step.Abort? {
      AbortMover(o, step.id, t, setup);
    } else if step.SignerAdmits? {
      AdmitMover(o, step.id, t, setup);
    } else {
      KeyMover(o, step.id, step.signed, t, setup);
    }
  }

  lemma AbortMover(o: Seen, id: nat, t: Terms, setup: P.Setup)
    requires AllPlaced(o, t) && AliveFaithful(o, t) && ResolvesEscalated(o.world) && id in o.world.handlers
    ensures Mover(o, P.Next(o.world, P.Abort(id), setup), id, t)
  {
    hide Mover;
    hide AllPlaced;
    hide AliveFaithful;
    hide ResolvesEscalated;
    hide P.Next;
    Scenes.Aborts(o.world, id, setup);
    InPlaceTracks(o, id, o.world.handlers[id].(live := false), t);
  }

  lemma AdmitMover(o: Seen, id: nat, t: Terms, setup: P.Setup)
    requires AllPlaced(o, t) && AliveFaithful(o, t) && ResolvesEscalated(o.world) && id in o.world.handlers
    requires Mover(o, o.world, id, t)
    ensures Mover(o, P.Next(o.world, P.SignerAdmits(id), setup), id, t)
  {
    hide Mover;
    hide AllPlaced;
    hide AliveFaithful;
    hide ResolvesEscalated;
    hide P.Admitted;
    var h := o.world.handlers[id];
    if h.signer.Arrived? {
      Scenes.Admits(o.world, id, setup);
      hide P.Next;
      AdmittedInPlace(h, o.world.seen, setup);
      InPlaceTracks(o, id, P.Admitted(h, setup.config, o.world.seen), t);
    }
  }

  lemma KeyMover(o: Seen, id: nat, signed: bool, t: Terms, setup: P.Setup)
    requires AllPlaced(o, t) && AliveFaithful(o, t) && ResolvesEscalated(o.world) && id in o.world.handlers
    requires Mover(o, o.world, id, t)
    ensures Mover(o, P.Next(o.world, P.KeyAnswers(id, signed), setup), id, t)
  {
    hide Mover;
    hide AllPlaced;
    hide AliveFaithful;
    hide ResolvesEscalated;
    var h := o.world.handlers[id];
    if h.signer.AtKey? {
      var next := h.(signer := if signed then P.SignedBy(h.signer.typed) else P.Rejected("SIGNER_UNAVAILABLE"));
      InPlaceTracks(o, id, next, t);
      SignsMover(o, id, t, next);
    }
  }

  lemma TrackedParts(o: Seen, t: Terms, setup: P.Setup)
    requires Tracked(o, t, setup)
    ensures AllPlaced(o, t) && AliveFaithful(o, t) && ResolvesEscalated(o.world)
  {
    hide Safe;
    hide AllPlaced;
    hide AliveFaithful;
    hide Overlap;
    hide ReadsSound;
    hide EscalationsOwned;
    hide ResolvesEscalated;
  }

  lemma AdmittedInPlace(h: Handler, seen: set<string>, setup: P.Setup)
    requires h.signer.Arrived?
    ensures var next := P.Admitted(h, setup.config, seen); next == h.(live := next.live, signer := next.signer) && next.live == h.live
  {
  }

  /** The replay set and the list of signatures play no part in it. */
  lemma SignsMover(o: Seen, id: nat, t: Terms, next: Handler)
    requires id in o.world.handlers && o.world.handlers[id].signer.AtKey?
    requires Mover(o, o.world.(handlers := o.world.handlers[id := next]), id, t)
    requires next.signer.SignedBy? ==> next == P.Signs(o.world, id).handlers[id]
    ensures next.signer.SignedBy? ==> Mover(o, P.Signs(o.world, id), id, t)
  {
    hide Placed;
    hide Passed;
    hide HandlerMoved;
    hide Approached;
    hide Entered;
  }

  // ---- The ledger serves a call ---------------------------------------------------------------------

  /** Nobody else decides on a request whose payment is on record as signed. */
  lemma NobodyElseDecides(w: World, id: nat, a: nat, t: Terms, setup: P.Setup)
    requires OnePayment(w.handlers) && EscalationsOwned(w) && ResolvesEscalated(w)
    requires id in w.handlers && P.Unserved(w.handlers[id], setup) && P.Outstanding(w.handlers[id], setup).Write?
    requires a in RecordedOf(w.handlers, t)
    ensures !DecidesOn(P.Outstanding(w.handlers[id], setup).request, w.handlers[a].call.requestId)
  {
    var h, request := w.handlers[id], w.handlers[a].call.requestId;
    if DecidesOn(P.Outstanding(h, setup).request, request) {
      OwnDecision(h, setup, request);
      hide P.Outstanding;
      if request in w.ledger.escalations {
        EscalatedPayment(w, a);
      }
    }
  }

  /** The payment of an escalated request is the one that escalated it. */
  lemma EscalatedPayment(w: World, a: nat)
    requires OnePayment(w.handlers) && EscalationsOwned(w) && a in w.handlers && w.handlers[a].call.Payment?
    requires w.handlers[a].call.requestId in w.ledger.escalations
    ensures Escalating(w.handlers[a])
  {
    var request := w.handlers[a].call.requestId;
    assert EscalatedBy(w.handlers, request);
    var c :| c in w.handlers && Escalating(w.handlers[c]) && w.handlers[c].call.requestId == request;
    assert c == a;
  }

  lemma ServeMovesLedger(w: World, id: nat, t: Terms, setup: P.Setup)
    requires Sound(w.ledger, setup.keccak) && OnePayment(w.handlers) && EscalationsOwned(w) && ResolvesEscalated(w)
    requires id in w.handlers && P.Unserved(w.handlers[id], setup)
    ensures LedgerMoved(w, P.Served(w, id, setup).ledger, t)
  {
    var h := w.handlers[id];
    var c := P.Outstanding(h, setup);
    if c.Write? {
      forall a | a in RecordedOf(w.handlers, t)
        ensures !DecidesOn(c.request, w.handlers[a].call.requestId)
      {
        NobodyElseDecides(w, id, a, t, setup);
      }
      hide DecidesOn;
      hide Sound;
      HandleMoves(w, c.request, t, setup);
    } else {
      SameLedgerMoves(w, t);
    }
    hide LedgerMoved;
    hide Handle;
    hide P.AnswerTo;
    hide P.Outstanding;
  }

  lemma ServeOwnsEscalations(w: World, id: nat, setup: P.Setup)
    requires Ordered(w.ledger) && id in w.handlers && P.Unserved(w.handlers[id], setup)
    ensures NewEscalationsOwned(w, P.Served(w, id, setup))
  {
    var h := w.handlers[id];
    var after := P.Served(w, id, setup);
    var c := P.Outstanding(h, setup);
    assert after.handlers[id].answer.Some? by { hide Handle; hide Route; hide Window; }
    if c.Write? {
      forall r | r in after.ledger.escalations && r !in w.ledger.escalations
        ensures EscalatedBy(after.handlers, r)
      {
        EscalationsGrow(w.ledger, c.request, w.clock, setup.keccak, r);
        hide Handle;
        hide P.AnswerTo;
        assert Escalating(after.handlers[id]) && after.handlers[id].call.requestId == r;
      }
    }
    hide Handle;
    hide P.AnswerTo;
    hide P.Outstanding;
  }

  /** A record has its challenge exactly when it has the moment of its attachment. */
  lemma AttachedTogether(s: Ledger, id: string, keccak: Keccak)
    requires Sound(s, keccak)
    ensures id in s.intents ==> s.intents[id].challenge.Some? == s.intents[id].challengeAttachedAt.Some?
  {
    if id in s.intents {
      assert RecordSound(s.intents[id], id, LastEntry(s.log, id), Reserved(s.events, id), keccak);
    }
  }

  lemma ReadIsPlaced(o: Seen, id: nat, t: Terms, setup: P.Setup)
    requires AllPlaced(o, t) && Sound(o.world.ledger, setup.keccak) && Assumed(o.world, t)
    requires id in o.world.handlers && P.Unserved(o.world.handlers[id], setup) && ResolvesEscalated(o.world)
    requires !P.Outstanding(o.world.handlers[id], setup).Write?
    ensures var w := o.world;
            var h := w.handlers[id];
            var next := P.Served(w, id, setup).handlers[id];
            && (Ours(h, t) && !ReadsWindow(h, t) ==> Placed(next, id in o.readings, w.ledger, t))
            && (Approached(next) ==> h.call.requestId in w.ledger.escalations)
  {
    hide OnePayment;
    hide Window;
    hide StandingApprovalActive;
    hide Route;
    var w := o.world;
    var h := w.handlers[id];
    var request := h.call.requestId;
    AttachedTogether(w.ledger, request, setup.keccak);
    hide Sound;
    assert Ours(h, t) ==> Placed(h, id in o.readings, w.ledger, t);
    hide AllPlaced;
    assert Approached(h) ==> request in w.ledger.escalations;
    hide ResolvesEscalated;
  }

  lemma SignedDecisionEnters(s: Ledger, q: Request, now: Time, keccak: Keccak, id: string)
    requires q.RecordDecision? && q.newId == Some(id) && q.decision == Some(Signed) && q.decidedAt.Some? && id != ""
    requires id in s.intents && s.intents[id].requestId == id
    ensures ReplyTo(Route(s, q, now, keccak)).Sent?
    ensures Recording(s, Handle(s, q, now, keccak), id, q.decidedAt.value)
  {
    hide IntentViewOf;
  }

  /** One of our payments gets its signature on record. */
  lemma RecordIsFaithful(o: Seen, id: nat, t: Terms, setup: P.Setup)
    requires AllPlaced(o, t) && AliveFaithful(o, t) && Safe(o.world, setup) && Assumed(o.world, t)
    requires id in o.world.handlers && Ours(o.world.handlers[id], t) && P.Unserved(o.world.handlers[id], setup)
    requires o.world.handlers[id].point.AwaitSignedRecord?
    ensures var after := P.Served(o.world, id, setup);
            && Placed(after.handlers[id], id in o.readings, after.ledger, t)
            && Faithful(after.handlers[id], id, Seen(after, o.readings), t)
  {
    var w := o.world;
    var h := w.handlers[id];
    assert HandlerSound(h, w.ledger, setup);
    assert Placed(h, id in o.readings, w.ledger, t);
    assert Faithful(h, id, o, t);
    assert Agrees(h, w.ledger, t);
    Keyed(w.ledger, h.call.requestId, setup.keccak);
    hide Safe;
    hide AllPlaced;
    hide AliveFaithful;
    hide Assumed;
    hide HandlerSound;
    assert h.job.Some?;
    var q := P.SignedDecision(h.call.requestId, h.job.value, h.point.at);
    SignedDecisionEnters(w.ledger, q, w.clock, setup.keccak, h.call.requestId);
    RecordIsServed(w, id, setup);
    hide Handle;
    hide Route;
    hide P.Served;
    var reply := ReplyTo(Route(w.ledger, q, w.clock, setup.keccak));
    EnteredIsFaithful(o, P.Served(w, id, setup), id, reply, t);
  }

  lemma EnteredIsFaithful(o: Seen, after: World, id: nat, reply: Reply, t: Terms)
    requires id in o.world.handlers && Ours(o.world.handlers[id], t) && Faithful(o.world.handlers[id], id, o, t)
    requires Placed(o.world.handlers[id], id in o.readings, o.world.ledger, t)
    requires var h := o.world.handlers[id];
             && h.point.AwaitSignedRecord? && after.handlers == o.world.handlers[id := h.(answer := Some(P.Written(reply)))]
             && reply.Sent? && after.clock == o.world.clock && Agrees(h, o.world.ledger, t)
             && Recording(o.world.ledger, after.ledger, h.call.requestId, h.point.at)
    ensures Placed(after.handlers[id], id in o.readings, after.ledger, t)
    ensures Faithful(after.handlers[id], id, Seen(after, o.readings), t)
  {
    hide Passed;
  }

  predicate Recording(s: Ledger, after: Ledger, id: string, at: Time) {
    && id in s.intents && id in after.intents && after.intents[id].decision == Some(Signed)
    && after.intents[id].decidedAt == Some(at) && after.intents[id].mandateId == s.intents[id].mandateId
    && after.intents[id].challenge == s.intents[id].challenge
  }

  lemma RecordIsServed(w: World, id: nat, setup: P.Setup)
    requires id in w.handlers && w.handlers[id].point.AwaitSignedRecord? && w.handlers[id].job.Some?
    ensures var h, after := w.handlers[id], P.Served(w, id, setup);
            var q := P.SignedDecision(h.call.requestId, h.job.value, h.point.at);
            && after.handlers == w.handlers[id := h.(answer := Some(P.Written(
                                                      ReplyTo(Route(w.ledger, q, w.clock, setup.keccak)))))]
            && after.ledger == Handle(w.ledger, q, w.clock, setup.keccak) && after.clock == w.clock
  {
    hide Handle;
    hide Route;
  }

  lemma WriteIsPlaced(o: Seen, id: nat, t: Terms, setup: P.Setup)
    requires AllPlaced(o, t) && AliveFaithful(o, t) && ResolvesEscalated(o.world) && id in o.world.handlers
    requires P.Unserved(o.world.handlers[id], setup) && P.Outstanding(o.world.handlers[id], setup).Write?
    requires !o.world.handlers[id].point.AwaitSignedRecord?
    requires LedgerMoved(o.world, P.Served(o.world, id, setup).ledger, t)
    ensures var w := o.world;
            var h, after := w.handlers[id], P.Served(w, id, setup);
            var next := after.handlers[id];
            && (Ours(h, t) ==> Placed(next, id in o.readings, after.ledger, t))
            && (Ours(h, t) && Alive(next) ==> Faithful(next, id, Seen(after, o.readings), t))
            && (Approached(next) ==> h.call.requestId in after.ledger.escalations)
  {
    var w := o.world;
    var h := w.handlers[id];
    if Ours(h, t) {
      PlacedStays(h, id in o.readings, w, P.Served(w, id, setup).ledger, t);
    }
    assert Ours(h, t) && Alive(h) ==> Faithful(h, id, o, t);
    assert Approached(h) ==> h.call.requestId in P.Served(w, id, setup).ledger.escalations;
    hide AllPlaced;
    hide AliveFaithful;
    hide ResolvesEscalated;
    hide LedgerMoved;
    hide Handle;
    hide Route;
    hide Passed;
    hide HasChallenge;
  }

  lemma ServeMover(o: Seen, id: nat, t: Terms, setup: P.Setup)
    requires Tracked(o, t, setup) && Assumed(o.world, t)
    requires id in o.world.handlers && P.Unserved(o.world.handlers[id], setup) && !ReadsWindow(o.world.handlers[id], t)
    ensures Mover(o, P.Served(o.world, id, setup), id, t)
  {
    hide HandlerMoved;
    hide Faithful;
    hide Placed;
    hide LedgerMoved;
    hide P.Outstanding;
    hide P.AnswerTo;
    hide Handle;
    hide Sound;
    hide AllPlaced;
    hide AliveFaithful;
    hide ResolvesEscalated;
    var w := o.world;
    var h := w.handlers[id];
    AnswerMoves(w, id, t, setup);
    ServeMovesLedger(w, id, t, setup);
    if h.point.AwaitSignedRecord? {
      RecordIsPlaced(o, id, t, setup);
    } else if P.Outstanding(h, setup).Write? {
      WriteIsPlaced(o, id, t, setup);
    } else {
      ReadIsPlaced(o, id, t, setup);
      ReadIsFaithful(o, id, t, setup);
      assert P.Served(w, id, setup).ledger == w.ledger;
    }
    hide P.Served;
    hide Tracked;
    hide Assumed;
  }

  lemma RecordIsPlaced(o: Seen, id: nat, t: Terms, setup: P.Setup)
    requires Tracked(o, t, setup) && Assumed(o.world, t)
    requires id in o.world.handlers && P.Unserved(o.world.handlers[id], setup)
    requires o.world.handlers[id].point.AwaitSignedRecord?
    requires LedgerMoved(o.world, P.Served(o.world, id, setup).ledger, t)
    ensures var w := o.world;
            var h, after := w.handlers[id], P.Served(w, id, setup);
            var next := after.handlers[id];
            && (Ours(h, t) ==> Placed(next, id in o.readings, after.ledger, t))
            && (Ours(h, t) && Alive(next) ==> Faithful(next, id, Seen(after, o.readings), t))
            && (Approached(next) ==> h.call.requestId in after.ledger.escalations)
  {
    var h := o.world.handlers[id];
    if Ours(h, t) {
      RecordIsFaithful(o, id, t, setup);
    }
    RecordStaysApproached(o.world, id, t, setup);
    hide Tracked;
    hide Assumed;
    hide P.Served;
    hide LedgerMoved;
    hide Faithful;
    hide Placed;
    hide Approached;
  }

  lemma RecordStaysApproached(w: World, id: nat, t: Terms, setup: P.Setup)
    requires ResolvesEscalated(w) && id in w.handlers && w.handlers[id].point.AwaitSignedRecord?
    requires LedgerMoved(w, P.Served(w, id, setup).ledger, t)
    ensures var after := P.Served(w, id, setup);
            Approached(after.handlers[id]) ==> w.handlers[id].call.requestId in after.ledger.escalations
  {
    assert Approached(w.handlers[id]) ==> w.handlers[id].call.requestId in w.ledger.escalations;
    hide P.LedgerAfter;
    hide P.AnswerTo;
    hide P.Outstanding;
    hide Stays;
    hide HasChallenge;
  }

  lemma ReadIsFaithful(o: Seen, id: nat, t: Terms, setup: P.Setup)
    requires AliveFaithful(o, t) && id in o.world.handlers
    requires P.Unserved(o.world.handlers[id], setup) && !P.Outstanding(o.world.handlers[id], setup).Write?
    requires !ReadsWindow(o.world.handlers[id], t)
    ensures var after := P.Served(o.world, id, setup);
            var next := after.handlers[id];
            Ours(next, t) && Alive(next) ==> Faithful(next, id, Seen(after, o.readings), t)
  {
    var h := o.world.handlers[id];
    assert Ours(h, t) && Alive(h) ==> Faithful(h, id, o, t);
    hide AliveFaithful;
    hide Passed;
    hide Window;
    hide StandingApprovalActive;
  }

  /** An answer brings no payment of ours to life, except the answer to its window read. */
  lemma AnswerMoves(w: World, id: nat, t: Terms, setup: P.Setup)
    requires id in w.handlers && P.Unserved(w.handlers[id], setup) && !ReadsWindow(w.handlers[id], t)
    ensures HandlerMoved(w.handlers[id], P.Served(w, id, setup).handlers[id], t)
    ensures P.Served(w, id, setup).handlers[id] == w.handlers[id].(answer := P.Served(w, id, setup).handlers[id].answer)
    ensures P.Served(w, id, setup).handlers[id].answer.Some?
  {
    hide Handle;
    hide Route;
    hide Window;
    hide StandingApprovalActive;
  }

  // ---- A window read ----------------------------------------------------------------------------

  /** The world once a handler has its window answer. */
  function Told(w: World, id: nat, usage: Usage): World
    requires id in w.handlers
  {
    w.(handlers := w.handlers[id := w.handlers[id].(answer := Some(P.WindowRead(usage)))])
  }

  lemma WindowIsRead(o: Seen, id: nat, t: Terms, setup: P.Setup)
    requires AllPlaced(o, t) && id in o.world.handlers && ReadsWindow(o.world.handlers[id], t)
    ensures P.Served(o.world, id, setup) == Told(o.world, id, ReadingOf(o, id, t).usage)
    ensures id !in o.readings && o.world.handlers[id].point.mandate == t.mandate
    ensures P.Unserved(o.world.handlers[id], setup)
  {
    assert Placed(o.world.handlers[id], id in o.readings, o.world.ledger, t);
    hide AllPlaced;
    hide Window;
    hide InFlightOf;
    hide RecordedOf;
  }

  /** What the reader saw adds up: those it counted are in its usage, the others are few enough. */
  lemma NewReadIsSound(o: Seen, after: Seen, id: nat, t: Terms)
    requires AliveFaithful(o, t) && Ordered(o.world.ledger) && OnePayment(o.world.handlers)
    requires id in o.world.handlers && ReadsWindow(o.world.handlers[id], t)
    requires after.world == Told(o.world, id, ReadingOf(o, id, t).usage) && |after.readings| == |o.readings| + 1
    requires |InFlightOf(o.world.handlers, t)| < t.inFlight
    ensures ReadSound(ReadingOf(o, id, t), after, t)
  {
    hide AliveFaithful;
    hide Ordered;
    hide OnePayment;
    hide Window;
    hide Countable;
    hide InFlightOf;
    hide RecordedOf;
    hide DecidedAt;
    hide Told;
    var r := ReadingOf(o, id, t);
    var from := r.at - WindowMs(t);
    var counted := r.counted;
    RecordedIsCountable(o, counted, from, t);
    WindowCountsAll(o.world, counted, from, t);
    ToldKeepsTotals(o.world, id, r.usage, t);
    assert forall a :: a in r.recorded && a !in counted ==> DecidedAt(o.world, a) < from;
  }

  lemma NewReadHasRoom(w: World, id: nat, usage: Usage, t: Terms)
    requires id in w.handlers && ReadsWindow(w.handlers[id], t)
    requires |InFlightOf(Told(w, id, usage).handlers, t)| <= t.inFlight
    ensures |InFlightOf(w.handlers, t)| < t.inFlight
  {
    var others, after := InFlightOf(w.handlers, t), InFlightOf(Told(w, id, usage).handlers, t);
    assert id !in others;
    assert others + {id} <= after;
    SubsetIsSmaller(others + {id}, after);
  }

  lemma RecordedIsCountable(o: Seen, s: set<nat>, from: Time, t: Terms)
    requires AliveFaithful(o, t) && OnePayment(o.world.handlers)
    requires s <= RecordedOf(o.world.handlers, t) && forall a :: a in s ==> DecidedAt(o.world, a) >= from
    ensures Countable(o.world, s, from, t)
  {
    hide DecidedAt;
    forall a | a in s
      ensures Entered(o.world.handlers[a], o.world.ledger, t)
    {
      assert Faithful(o.world.handlers[a], a, o, t);
    }
    hide Entered;
    hide Faithful;
  }

  lemma ToldKeepsTotals(w: World, id: nat, usage: Usage, t: Terms)
    requires id in w.handlers && ReadsWindow(w.handlers[id], t)
    ensures var after := Told(w, id, usage);
            && RecordedOf(after.handlers, t) == RecordedOf(w.handlers, t)
            && (forall a :: DecidedAt(after, a) == DecidedAt(w, a))
            && (forall s :: Total(after.handlers, s) == Total(w.handlers, s))
  {
    var after := Told(w, id, usage);
    assert !Recorded(after.handlers[id]) && !Recorded(w.handlers[id]);
    forall s
      ensures Total(after.handlers, s) == Total(w.handlers, s)
    {
      TotalDependsOnAmounts(w.handlers, after.handlers, s);
    }
  }

  lemma OldReadsStaySound(o: Seen, after: Seen, id: nat, usage: Usage, t: Terms)
    requires ReadsSound(o, t) && id in o.world.handlers && ReadsWindow(o.world.handlers[id], t)
    requires after.world == Told(o.world, id, usage) && |after.readings| >= |o.readings|
    ensures forall b :: b in o.readings ==> ReadSound(o.readings[b], after, t)
  {
    ToldKeepsTotals(o.world, id, usage, t);
    forall b | b in o.readings
      ensures ReadSound(o.readings[b], after, t)
    {
      assert ReadSound(o.readings[b], o, t);
    }
  }

  lemma ReadOverlap(o: Seen, after: Seen, id: nat, t: Terms)
    requires Overlap(o) && AllPlaced(o, t) && id in o.world.handlers && ReadsWindow(o.world.handlers[id], t)
    requires forall b :: b in o.readings ==> o.readings[b].n < |o.readings|
    requires after.world == Told(o.world, id, ReadingOf(o, id, t).usage) && id !in o.readings
    requires after.readings == o.readings[id := ReadingOf(o, id, t)]
    ensures Overlap(after)
  {
    var r := ReadingOf(o, id, t);
    forall a, b | a in after.readings && b in after.readings && a in after.world.handlers
                  && Alive(after.world.handlers[a]) && after.readings[a].n < after.readings[b].n
      ensures a in after.readings[b].others || a in after.readings[b].recorded
    {
      if b == id {
        assert a in InFlightOf(o.world.handlers, t) || a in RecordedOf(o.world.handlers, t);
      }
    }
  }

  lemma ReadFaithful(o: Seen, after: Seen, id: nat, t: Terms)
    requires AliveFaithful(o, t) && id in o.world.handlers && ReadsWindow(o.world.handlers[id], t)
    requires o.world.handlers[id].point.mandate == t.mandate
    requires after.world == Told(o.world, id, ReadingOf(o, id, t).usage)
    requires after.readings == o.readings[id := ReadingOf(o, id, t)]
    ensures AliveFaithful(after, t)
  {
    var r := ReadingOf(o, id, t);
    assert r.at == o.world.clock;
    hide Passed;
    hide ReadingOf;
    forall a | a in after.world.handlers && Ours(after.world.handlers[a], t) && Alive(after.world.handlers[a])
      ensures Faithful(after.world.handlers[a], a, after, t)
    {
      if a != id {
        assert Faithful(o.world.handlers[a], a, o, t);
      }
    }
  }

  lemma OneMoreReading(readings: map<nat, Read>, id: nat, r: Read)
    requires id !in readings
    ensures |readings[id := r]| == |readings| + 1
  {
    assert readings[id := r].Keys == readings.Keys + {id};
  }

  lemma ReadSoundFrom(o: Seen, after: Seen, id: nat, r: Read, t: Terms)
    requires ReadsSound(o, t) && after.readings == o.readings[id := r] && r.n == |o.readings|
    requires forall b :: b in o.readings ==> ReadSound(o.readings[b], after, t) && o.readings[b].n < |o.readings|
    requires ReadSound(r, after, t)
    ensures ReadsSound(after, t)
  {
    hide ReadSound;
  }

  lemma ReadSums(o: Seen, after: Seen, id: nat, t: Terms)
    requires ReadsSound(o, t) && AliveFaithful(o, t) && Ordered(o.world.ledger) && OnePayment(o.world.handlers)
    requires id in o.world.handlers && ReadsWindow(o.world.handlers[id], t) && id !in o.readings
    requires |InFlightOf(o.world.handlers, t)| < t.inFlight
    requires after.world == Told(o.world, id, ReadingOf(o, id, t).usage)
    requires after.readings == o.readings[id := ReadingOf(o, id, t)]
    ensures ReadsSound(after, t)
  {
    var r := ReadingOf(o, id, t);
    assert r.n == |o.readings|;
    hide ReadingOf;
    OneMoreReading(o.readings, id, r);
    hide Told;
    hide InFlightOf;
    hide Ordered;
    hide OnePayment;
    hide AliveFaithful;
    NewReadIsSound(o, after, id, t);
    OldReadsStaySound(o, after, id, r.usage, t);
    ReadNumbers(o, t);
    hide ReadSound;
    hide ReadsSound;
    ReadSoundFrom(o, after, id, r, t);
  }

  lemma ReadTracks(o: Seen, id: nat, t: Terms, setup: P.Setup)
    requires Tracked(o, t, setup) && Assumed(o.world, t) && id in o.world.handlers && ReadsWindow(o.world.handlers[id], t)
    requires Assumed(P.Served(o.world, id, setup), t) && Safe(P.Served(o.world, id, setup), setup)
    ensures Tracked(Seen(P.Served(o.world, id, setup), o.readings[id := ReadingOf(o, id, t)]), t, setup)
  {
    var w, r := o.world, ReadingOf(o, id, t);
    var after := Seen(P.Served(w, id, setup), o.readings[id := r]);
    WindowIsRead(o, id, t, setup);
    hide P.Served;
    assert Ordered(w.ledger) by { hide AllPlaced; }
    hide Safe;
    NewReadHasRoom(w, id, r.usage, t);
    hide ReadingOf;
    hide Overlap;
    hide AliveFaithful;
    hide AllPlaced;
    hide EscalationsOwned;
    hide ResolvesEscalated;
    hide ReadsSound;
    hide InFlightOf;
    hide Told;
    ReadSums(o, after, id, t);
    ReadOverlap(o, after, id, t) by { ReadNumbers(o, t); }
    ReadFaithful(o, after, id, t);
    ReadPlaces(o, after, id, t);
    ReadKeepsEscalations(w, id, r.usage, t);
    hide Assumed;
  }

  lemma ReadNumbers(o: Seen, t: Terms)
    requires ReadsSound(o, t)
    ensures forall b :: b in o.readings ==> o.readings[b].n < |o.readings|
  {
    forall b | b in o.readings
      ensures o.readings[b].n < |o.readings|
    {
      assert ReadSound(o.readings[b], o, t);
    }
  }

  lemma ReadPlaces(o: Seen, after: Seen, id: nat, t: Terms)
    requires AllPlaced(o, t) && id in o.world.handlers && ReadsWindow(o.world.handlers[id], t)
    requires after.world == Told(o.world, id, ReadingOf(o, id, t).usage)
    requires after.readings == o.readings[id := ReadingOf(o, id, t)]
    ensures AllPlaced(after, t)
  {
    hide ReadingOf;
    hide HasChallenge;
    forall a | a in after.world.handlers && Ours(after.world.handlers[a], t)
      ensures Placed(after.world.handlers[a], a in after.readings, after.world.ledger, t)
    {
      assert Placed(o.world.handlers[a], a in o.readings, o.world.ledger, t);
    }
  }

  lemma ReadKeepsEscalations(w: World, id: nat, usage: Usage, t: Terms)
    requires EscalationsOwned(w) && ResolvesEscalated(w) && id in w.handlers && ReadsWindow(w.handlers[id], t)
    ensures EscalationsOwned(Told(w, id, usage)) && ResolvesEscalated(Told(w, id, usage))
  {
    var after := Told(w, id, usage);
    forall r | r in after.ledger.escalations
      ensures EscalatedBy(after.handlers, r)
    {
      assert EscalatedBy(w.handlers, r);
      var a :| a in w.handlers && Escalating(w.handlers[a]) && w.handlers[a].call.requestId == r;
      assert after.handlers[a] == w.handlers[a];
    }
  }

  // ---- Every step, every run -----------------------------------------------------------------------

  lemma ServeTracks(o: Seen, id: nat, t: Terms, setup: P.Setup)
    requires Tracked(o, t, setup) && Assumed(o.world, t) && id in o.world.handlers
    requires P.Unserved(o.world.handlers[id], setup) && !ReadsWindow(o.world.handlers[id], t)
    ensures Tracked(Seen(P.Served(o.world, id, setup), o.readings), t, setup)
  {
    var w := o.world;
    NextKeeps(w, P.Serve(id), setup);
    ServeMovesLedger(w, id, t, setup);
    ServeOwnsEscalations(w, id, setup);
    ServeMover(o, id, t, setup);
    ServeTouchesOne(w, id, setup);
    hide Tracked;
    hide Assumed;
    hide Safe;
    hide Mover;
    hide P.Served;
    hide P.Unserved;
    hide NewEscalationsOwned;
    hide LedgerMoved;
    StepTracks(o, P.Served(w, id, setup), id, t, setup);
  }

  lemma ServeTouchesOne(w: World, id: nat, setup: P.Setup)
    requires id in w.handlers
    ensures OthersKept(w, P.Served(w, id, setup), id) && P.Served(w, id, setup).clock == w.clock
    ensures P.Unserved(w.handlers[id], setup) ==> P.Next(w, P.Serve(id), setup) == P.Served(w, id, setup)
  {
    hide P.LedgerAfter;
    hide P.AnswerTo;
    hide P.Outstanding;
  }

  lemma OutsideTracks(o: Seen, q: Request, t: Terms, setup: P.Setup)
    requires Tracked(o, t, setup)
    ensures Tracked(Seen(P.Next(o.world, P.Outside(q), setup), o.readings), t, setup)
  {
    var w := o.world;
    var after := P.Next(w, P.Outside(q), setup);
    NextKeeps(w, P.Outside(q), setup);
    if P.PolicyOnly(q) {
      assert after == w;
      assert Seen(after, o.readings) == o;
    } else {
      HandleMoves(w, q, t, setup);
      forall id | id in after.ledger.escalations
        ensures id in w.ledger.escalations
      {
        EscalationsGrow(w.ledger, q, w.clock, setup.keccak, id);
      }
      hide Handle;
      hide Tracked;
      hide Safe;
      hide LedgerMoved;
      QuietTracks(o, after, t, setup);
    }
  }

  lemma ObserveTracks(o: Seen, step: P.Step, t: Terms, setup: P.Setup)
    requires Tracked(o, t, setup) && Assumed(o.world, t) && Assumed(P.Next(o.world, step, setup), t)
    ensures Tracked(Observe(o, step, t, setup), t, setup)
  {
    hide Tracked;
    hide P.Next;
    hide Assumed;
    match step {
      case Serve(id) => ServeStepTracks(o, id, t, setup);
      case Tick(_) => TickTracks(o, step, t, setup);
      case Outside(q) => OutsideTracks(o, q, t, setup);
      case _ => HandlerStepTracks(o, step, t, setup);
    }
  }

  lemma ServeStepTracks(o: Seen, id: nat, t: Terms, setup: P.Setup)
    requires Tracked(o, t, setup) && Assumed(o.world, t) && Assumed(P.Next(o.world, P.Serve(id), setup), t)
    ensures Tracked(Observe(o, P.Serve(id), t, setup), t, setup)
  {
    var w := o.world;
    if id !in w.handlers || !P.Unserved(w.handlers[id], setup) {
      assert P.Next(w, P.Serve(id), setup) == w;
      if id in w.handlers && ReadsWindow(w.handlers[id], t) {
        WindowIsRead(o, id, t, setup);
      }
      assert Observe(o, P.Serve(id), t, setup) == o;
    } else {
      ServeTouchesOne(w, id, setup);
      NextKeeps(w, P.Serve(id), setup);
      hide P.Next;
      hide P.Served;
      hide Safe;
      hide Assumed;
      if ReadsWindow(w.handlers[id], t) {
        ReadTracks(o, id, t, setup);
      } else {
        ServeTracks(o, id, t, setup);
      }
    }
    hide Tracked;
    hide ReadingOf;
  }

  function ObservedRun(clock: Time, steps: seq<P.Step>, t: Terms, setup: P.Setup): Seen {
    if steps == [] then Seen(P.Begin(clock), map[])
    else Observe(ObservedRun(clock, steps[..|steps| - 1], t, setup), steps[|steps| - 1], t, setup)
  }

  /** The assumptions hold at every state of a run. */
  ghost predicate AssumedAlong(clock: Time, steps: seq<P.Step>, t: Terms, setup: P.Setup) {
    forall n :: 0 <= n <= |steps| ==> Assumed(P.Run(clock, steps[..n], setup), t)
  }

  lemma AssumedBefore(clock: Time, steps: seq<P.Step>, t: Terms, setup: P.Setup)
    requires steps != [] && AssumedAlong(clock, steps, t, setup)
    ensures AssumedAlong(clock, steps[..|steps| - 1], t, setup) && Assumed(P.Run(clock, steps, setup), t)
    ensures Assumed(P.Run(clock, steps[..|steps| - 1], setup), t)
  {
    var front := steps[..|steps| - 1];
    hide Assumed;
    hide P.Run;
    assert steps[..|steps|] == steps;
    forall n | 0 <= n <= |front|
      ensures Assumed(P.Run(clock, front[..n], setup), t)
    {
      assert front[..n] == steps[..n];
    }
  }

  lemma {:induction false} ObservedRunIsTracked(clock: Time, steps: seq<P.Step>, t: Terms, setup: P.Setup)
    requires AssumedAlong(clock, steps, t, setup)
    ensures ObservedRun(clock, steps, t, setup).world == P.Run(clock, steps, setup)
    ensures Tracked(ObservedRun(clock, steps, t, setup), t, setup)
  {
    hide AssumedAlong;
    hide Assumed;
    if steps == [] {
      BeginIsSafe(clock, setup);
      hide Safe;
    } else {
      var front, last := steps[..|steps| - 1], steps[|steps| - 1];
      AssumedBefore(clock, steps, t, setup);
      ObservedRunIsTracked(clock, front, t, setup);
      hide Tracked;
      hide P.Next;
      ObserveTracks(ObservedRun(clock, front, t, setup), last, t, setup);
    }
  }

  /**
   * In every window of every run, what is signed without a human stays within the mandate's
   * limits, widened by one card's ceiling for each further payment allowed in flight. With one
   * payment in flight at a time the limits are exact. Each payment counted is on the ledger as
   * signed under the mandate, with the amount that is counted.
   */
  lemma RollingBudgetHolds(clock: Time, steps: seq<P.Step>, t: Terms, setup: P.Setup, from: Time)
    requires AssumedAlong(clock, steps, t, setup) && t.inFlight >= 1
    ensures var w := P.Run(clock, steps, setup);
            var signed := SignedBetween(w, t, from, from + WindowMs(t));
            && (signed != {} ==>
                  && Total(w.handlers, signed) <= t.mandate.maxPerWindow + (t.inFlight - 1) * Ceiling(t.mandate)
                  && |signed| <= t.mandate.maxCardsPerWindow + (t.inFlight - 1))
            && forall a :: a in signed ==> OnLedger(w, a, t)
  {
    hide P.Run;
    hide ObservedRun;
    hide AssumedAlong;
    hide Tracked;
    hide SignedBetween;
    hide OnLedger;
    hide WindowMs;
    ObservedRunIsTracked(clock, steps, t, setup);
    TrackedBudget(ObservedRun(clock, steps, t, setup), t, setup, from);
  }

  lemma TrackedBudget(o: Seen, t: Terms, setup: P.Setup, from: Time)
    requires Tracked(o, t, setup) && t.inFlight >= 1
    ensures var signed := SignedBetween(o.world, t, from, from + WindowMs(t));
            && (signed != {} ==> WithinBudget(o.world.handlers, signed, t))
            && forall a :: a in signed ==> OnLedger(o.world, a, t)
  {
    hide Safe;
    hide AllPlaced;
    hide AliveFaithful;
    hide Overlap;
    hide ReadsSound;
    hide EscalationsOwned;
    hide ResolvesEscalated;
    hide OnLedger;
    hide WithinBudget;
    hide WindowSet;
    var signed := SignedBetween(o.world, t, from, from + WindowMs(t));
    AllOnLedger(o, t, signed);
    SignedIsWindowSet(o, t, from);
    if signed != {} {
      BoundFromReads(o, t, from, signed);
    }
  }

  /** The ledger has the payment as signed under the mandate, for the amount it counts with. */
  predicate OnLedger(w: World, a: nat, t: Terms) {
    && a in w.handlers && w.handlers[a].call.Payment? && Entered(w.handlers[a], w.ledger, t)
    && Amount(w.handlers, a) == w.ledger.intents[w.handlers[a].call.requestId].challenge.value.amount
  }

  lemma AllOnLedger(o: Seen, t: Terms, s: set<nat>)
    requires AliveFaithful(o, t) && s <= RecordedOf(o.world.handlers, t)
    ensures forall a :: a in s ==> OnLedger(o.world, a, t)
  {
    forall a | a in s
      ensures OnLedger(o.world, a, t)
    {
      assert Faithful(o.world.handlers[a], a, o, t);
    }
  }
}
