/**
 * The rolling budget cannot be stated more narrowly: for every number of payments in flight there is
 * a run that spends the widened limits in full, and a signature whose handler is cut off before it is
 * recorded is in no window at all.
 */
module BudgetIsTight {
  import opened Wrappers
  import opened Mandates
  import opened LedgerStore
  import opened PolicyChecks
  import opened SignerService
  import opened SigningInvariant
  import opened LedgerInvariants
  import opened SigningAuthority
  import opened RollingWindow
  import opened RollingBudget
  import opened EmittedBudget
  import opened RecordedDecision
  import opened Scenes
  import opened Witnesses
  import P = SigningProtocol

  /** Request ids of different lengths. */
  function Id(i: nat): (id: string)
    ensures |id| == i + 1
  {
    seq(i + 1, _ => 'r')
  }

  const PUT: seq<P.Step> := [P.Outside(PutPolicy(MANDATE_ID, Some(MANDATE)))]

  function Prepare(i: nat): seq<P.Step> {
    Opening(Id(i), AMOUNT) + Join(i, Id(i))
  }

  /** `k` payments climb the checks, one after the other, before any of them is signed. */
  function PrepareAll(k: nat): seq<P.Step> {
    if k == 0 then PUT else PrepareAll(k - 1) + Prepare(k - 1)
  }

  function Spend(i: nat): seq<P.Step> {
    Sign(i, Look(true)) + Record(i, Look(true))
  }

  /** Then each is signed and recorded. */
  function SpendAll(k: nat): seq<P.Step> {
    if k == 0 then [] else SpendAll(k - 1) + Spend(k - 1)
  }

  // ---- The payments climb -----------------------------------------------------------------------------

  predicate IsOpen(i: Intent, id: string) {
    i == IntentOf(id, AMOUNT, 1)
  }

  /** The intents are those of the first `k` ids, the first `n` of them signed. */
  ghost predicate Intents(s: Ledger, k: nat, n: nat) {
    && n <= k
    && (forall id :: id in s.intents ==> 1 <= |id| <= k && id == Id(|id| - 1))
    && (forall i :: 0 <= i < k ==> Id(i) in s.intents)
    && (forall i :: n <= i < k ==> IsOpen(s.intents[Id(i)], Id(i)))
    && (forall i :: 0 <= i < n ==> IsSigned(s.intents[Id(i)]))
  }

  predicate IsSigned(i: Intent) {
    i.decision == Some(Signed) && i.decidedAt == Some(1)
  }

  /** The first `n` of the `k` payments are on record. */
  ghost predicate Handlers(handlers: map<nat, Handler>, k: nat, n: nat) {
    && (forall a :: a in handlers <==> 0 <= a < k)
    && (forall a :: n <= a < k ==> handlers[a] == Ready(Id(a), 1))
    && (forall a :: 0 <= a < n && a < k ==> handlers[a] == Witnesses.Entered(Id(a), 1))
  }

  ghost predicate Deployed(w: World) {
    && w.clock == 1 && w.ledger.approvals == map[]
    && MANDATE_ID in w.ledger.policies && w.ledger.policies[MANDATE_ID].policy == MANDATE
  }

  ghost predicate Prepared(w: World, k: nat) {
    && Deployed(w) && Intents(w.ledger, k, 0) && w.seen == {} && Handlers(w.handlers, k, 0)
  }

  lemma OpenIntents(s: Ledger, k: nat)
    requires Intents(s, k, 0)
    ensures NothingSigned(s) && Id(k) !in s.intents
  {
    forall id | id in s.intents
      ensures s.intents[id].decision.None?
    {
      assert IsOpen(s.intents[Id(|id| - 1)], Id(|id| - 1));
    }
  }

  lemma NewIntent(s: Ledger, t: Ledger, k: nat)
    requires Intents(s, k, 0) && t.intents == s.intents[Id(k) := IntentOf(Id(k), AMOUNT, 1)]
    ensures Intents(t, k + 1, 0)
  {
    hide IsOpen;
    forall i | 0 <= i < k + 1
      ensures Id(i) in t.intents && IsOpen(t.intents[Id(i)], Id(i))
    {
      if i == k {
        OpenIsOpen(k);
      } else {
        assert |Id(i)| != |Id(k)|;
      }
    }
  }

  lemma OpenIsOpen(k: nat)
    ensures IsOpen(IntentOf(Id(k), AMOUNT, 1), Id(k))
  {
  }

  /** One more payment opens its intent, climbs, and commits, as long as nothing is on record as signed. */
  lemma PreparesOne(w: World, k: nat)
    requires Deployed(w) && NothingSigned(w.ledger) && Id(k) !in w.ledger.intents && k !in w.handlers
    ensures var after := From(w, Prepare(k), SETUP);
            && after == With(w, k, Ready(Id(k), 1)).(ledger := after.ledger) && Deployed(after)
            && after.ledger.intents == w.ledger.intents[Id(k) := IntentOf(Id(k), AMOUNT, 1)]
            && NothingSigned(after.ledger)
  {
    hide From;
    hide Opening;
    hide Join;
    hide Ready;
    hide Id;
    FromAppend(w, Opening(Id(k), AMOUNT), Join(k, Id(k)), SETUP);
    Opens(w, Id(k), AMOUNT);
    var w1 := From(w, Opening(Id(k), AMOUNT), SETUP);
    assert w1.ledger.intents == Core(w1.ledger).intents && w1.ledger.policies == Core(w1.ledger).policies;
    assert w1.ledger.approvals == Core(w1.ledger).approvals;
    Joins(w1, k, Id(k), AMOUNT, 1);
  }

  lemma Prepares(w: World, k: nat)
    requires Deployed(w) && Intents(w.ledger, k, 0) && k !in w.handlers
    ensures var after := From(w, Prepare(k), SETUP);
            && after == With(w, k, Ready(Id(k), 1)).(ledger := after.ledger)
            && Deployed(after) && Intents(after.ledger, k + 1, 0)
  {
    hide From;
    hide Prepare;
    hide IntentOf;
    hide Ready;
    hide Intents;
    hide Deployed;
    OpenIntents(w.ledger, k);
    PreparesOne(w, k);
    NewIntent(w.ledger, From(w, Prepare(k), SETUP).ledger, k);
  }

  lemma PutIsPrepared()
    ensures var w := From(P.Begin(1), PUT, SETUP); Prepared(w, 0) && w.signatures == []
  {
    hide From;
    PolicyIsPut(1);
    var w := From(P.Begin(1), PUT, SETUP);
    assert w.ledger.intents == Core(w.ledger).intents && w.ledger.policies == Core(w.ledger).policies;
    assert w.ledger.approvals == Core(w.ledger).approvals;
  }

  lemma PreparedOneMore(w: World, after: World, k: nat)
    requires Prepared(w, k) && Deployed(after) && Intents(after.ledger, k + 1, 0)
    requires after == With(w, k, Ready(Id(k), 1)).(ledger := after.ledger)
    ensures Prepared(after, k + 1) && after.signatures == w.signatures
  {
    hide Ready;
    hide Id;
    hide Intents;
    hide Deployed;
  }

  lemma {:induction false} AllPrepare(k: nat)
    ensures Prepared(From(P.Begin(1), PrepareAll(k), SETUP), k)
    ensures From(P.Begin(1), PrepareAll(k), SETUP).signatures == []
  {
    hide From;
    hide Prepare;
    hide Ready;
    hide Intents;
    hide Deployed;
    hide PUT;
    if k == 0 {
      PutIsPrepared();
    } else {
      AllPrepare(k - 1);
      var w := From(P.Begin(1), PrepareAll(k - 1), SETUP);
      FromAppend(P.Begin(1), PrepareAll(k - 1), Prepare(k - 1), SETUP);
      Prepares(w, k - 1);
      hide Prepared;
      PreparedOneMore(w, From(w, Prepare(k - 1), SETUP), k - 1);
    }
  }

  // ---- Then they are signed -----------------------------------------------------------------------------

  ghost predicate Spent(w: World, k: nat, n: nat) {
    && w.clock == 1 && Intents(w.ledger, k, n) && Handlers(w.handlers, k, n)
    && (forall id :: id in w.seen ==> |id| <= n)
  }

  lemma OneIntentMoves(s: Ledger, t: Ledger, k: nat, n: nat)
    requires Intents(s, k, n) && n < k && t.intents.Keys == s.intents.Keys
    requires Id(n) in t.intents && IsSigned(t.intents[Id(n)])
    requires forall id :: id in s.intents && id != Id(n) ==> t.intents[id] == s.intents[id]
    ensures Intents(t, k, n + 1)
  {
    hide IsOpen;
    hide IsSigned;
    hide Id;
    forall i | 0 <= i < k && i != n
      ensures t.intents[Id(i)] == s.intents[Id(i)]
    {
      assert |Id(i)| != |Id(n)|;
    }
  }

  lemma OneHandlerMoves(handlers: map<nat, Handler>, k: nat, n: nat)
    requires Handlers(handlers, k, n) && n < k
    ensures Handlers(handlers[n := Witnesses.Entered(Id(n), 1)], k, n + 1)
  {
    hide Ready;
    hide Witnesses.Entered;
    hide Id;
  }

  lemma OpenIsUnreserved(i: Intent, id: string)
    requires IsOpen(i, id)
    ensures i.nonce.None? && i.requestId == id
  {
  }

  /** The payment that is next still has its intent open. */
  lemma NextIsOpen(w: World, k: nat, n: nat)
    requires Spent(w, k, n) && n < k
    ensures Id(n) in w.ledger.intents && Id(n) !in w.seen
    ensures w.ledger.intents[Id(n)].nonce.None? && w.ledger.intents[Id(n)].requestId == Id(n)
    ensures n in w.handlers && w.handlers[n] == Ready(Id(n), 1) && w.clock == 1
  {
    hide Id;
    hide Ready;
    hide IsSigned;
    OpenIsUnreserved(w.ledger.intents[Id(n)], Id(n));
    hide IsOpen;
  }

  /** Signing and recording one payment changes its handler and its intent, and nothing else of note. */
  lemma SpendsOne(w: World, n: nat, id: string)
    requires id in w.ledger.intents && id !in w.seen && id != "" && w.clock == 1
    requires w.ledger.intents[id].nonce.None? && w.ledger.intents[id].requestId == id
    requires n in w.handlers && w.handlers[n] == Ready(id, 1)
    ensures var after := From(w, Spend(n), SETUP);
            && after.clock == 1 && after.seen == w.seen + {id}
            && after.handlers == w.handlers[n := Witnesses.Entered(id, 1)]
            && after.ledger.intents.Keys == w.ledger.intents.Keys && IsSigned(after.ledger.intents[id])
            && forall r :: r in w.ledger.intents && r != id ==> after.ledger.intents[r] == w.ledger.intents[r]
  {
    hide From;
    hide Sign;
    hide Record;
    hide Handle;
    hide Authorisation;
    var job, typed := JobOf(AMOUNT, 0), Authorisation(AMOUNT, 0);
    FromAppend(w, Sign(n, Look(true)), Record(n, Look(true)), SETUP);
    SignsReady(w, n, id);
    ReservationCore(w.ledger, id, 1);
    var signed := SignedWorld(w, n, PaymentOf(id), None, job, typed, SETUP);
    assert signed.ledger.intents == Core(signed.ledger).intents;
    Records(signed, n, PaymentOf(id), job, typed, Look(true), SETUP);
    DecisionCore(signed.ledger, id, job, 1, 1);
    var after := From(signed, Record(n, Look(true)), SETUP);
    assert after.ledger.intents == Core(after.ledger).intents;
  }

  lemma Spends(w: World, k: nat, n: nat)
    requires Spent(w, k, n) && n < k
    ensures Spent(From(w, Spend(n), SETUP), k, n + 1)
  {
    hide From;
    hide Spend;
    hide Ready;
    hide Witnesses.Entered;
    hide IsSigned;
    hide Id;
    hide Spent;
    NextIsOpen(w, k, n);
    SpendsOne(w, n, Id(n));
    SpentOneMore(w, From(w, Spend(n), SETUP), k, n);
  }

  lemma SpentOneMore(w: World, after: World, k: nat, n: nat)
    requires Spent(w, k, n) && n < k && after.clock == 1 && after.seen == w.seen + {Id(n)}
    requires after.handlers == w.handlers[n := Witnesses.Entered(Id(n), 1)]
    requires Id(n) in w.ledger.intents
    requires after.ledger.intents.Keys == w.ledger.intents.Keys && IsSigned(after.ledger.intents[Id(n)])
    requires forall id :: id in w.ledger.intents && id != Id(n) ==> after.ledger.intents[id] == w.ledger.intents[id]
    ensures Spent(after, k, n + 1)
  {
    hide Handlers;
    hide Intents;
    hide IsSigned;
    hide Id;
    hide Witnesses.Entered;
    OneIntentMoves(w.ledger, after.ledger, k, n);
    OneHandlerMoves(w.handlers, k, n);
  }

  lemma PreparedIsSpent(w: World, k: nat)
    requires Prepared(w, k)
    ensures Spent(w, k, 0)
  {
  }

  lemma {:induction false} AllSpend(w: World, k: nat, n: nat)
    requires Prepared(w, k) && n <= k
    ensures Spent(From(w, SpendAll(n), SETUP), k, n)
  {
    hide From;
    hide Spend;
    hide Spent;
    hide Prepared;
    if n == 0 {
      PreparedIsSpent(w, k);
      NoSteps(w);
    } else {
      AllSpend(w, k, n - 1);
      FromAppend(w, SpendAll(n - 1), Spend(n - 1), SETUP);
      Spends(From(w, SpendAll(n - 1), SETUP), k, n - 1);
    }
  }

  lemma NoSteps(w: World)
    ensures From(w, [], SETUP) == w
  {
  }

  // ---- What they add up to ------------------------------------------------------------------------------

  function FirstOnes(k: nat): (s: set<nat>)
    ensures forall a :: a in s <==> 0 <= a < k
  {
    if k == 0 then {} else FirstOnes(k - 1) + {k - 1}
  }

  lemma FirstSplit(k: nat)
    requires k > 0
    ensures k - 1 in FirstOnes(k) && FirstOnes(k) - {k - 1} == FirstOnes(k - 1)
  {
  }

  lemma {:induction false} FirstCount(k: nat)
    ensures |FirstOnes(k)| == k
  {
    if k > 0 {
      FirstCount(k - 1);
      FirstSplit(k);
    }
  }

  lemma {:induction false} FirstTotal(handlers: map<nat, Handler>, k: nat, amount: nat)
    requires forall a :: 0 <= a < k ==> Amount(handlers, a) == amount
    ensures Total(handlers, FirstOnes(k)) == k * amount
  {
    hide Amount;
    if k > 0 {
      hide FirstOnes;
      FirstSplit(k);
      FirstTotal(handlers, k - 1, amount);
      TotalWithout(handlers, FirstOnes(k), k - 1);
      OneLess(k, k - 1, amount);
    }
  }

  /** MANDATE with `k` payments in flight at most. */
  function TermsOf(k: nat): Terms {
    Terms(MANDATE_ID, MANDATE, k)
  }

  lemma SpentAt(w: World, k: nat, a: nat)
    requires Spent(w, k, k) && a < k
    ensures a in w.handlers && w.handlers[a] == Witnesses.Entered(Id(a), 1)
    ensures Id(a) in w.ledger.intents && IsSigned(w.ledger.intents[Id(a)])
  {
    hide Id;
    hide IsOpen;
    hide IsSigned;
    hide Witnesses.Entered;
    hide Ready;
  }

  lemma OneIsSigned(w: World, k: nat, a: nat)
    requires a in w.handlers && w.handlers[a] == Witnesses.Entered(Id(a), 1)
    requires Id(a) in w.ledger.intents && IsSigned(w.ledger.intents[Id(a)])
    ensures a in RecordedOf(w.handlers, TermsOf(k)) && DecidedAt(w, a) == 1 && Amount(w.handlers, a) == AMOUNT
  {
    hide Id;
    hide Hex;
    hide JobOf;
    hide Authorisation;
  }

  lemma AllAreSignedBetween(w: World, k: nat)
    requires Spent(w, k, k)
    ensures SignedBetween(w, TermsOf(k), 1 - WindowMs(TermsOf(k)), 1) == FirstOnes(k)
    ensures forall a :: 0 <= a < k ==> Amount(w.handlers, a) == AMOUNT
  {
    hide DecidedAt;
    hide Amount;
    hide Hex;
    forall a: nat | a < k
      ensures a in RecordedOf(w.handlers, TermsOf(k)) && DecidedAt(w, a) == 1 && Amount(w.handlers, a) == AMOUNT
    {
      SpentAt(w, k, a);
      OneIsSigned(w, k, a);
    }
    assert forall a :: a in w.handlers ==> a < k;
    hide Spent;
    hide Recorded;
    hide Ours;
  }

  // ---- The run keeps to what is assumed ----------------------------------------------------------------

  predicate AllowedRequest(q: Request) {
    || q == PutPolicy(MANDATE_ID, Some(MANDATE))
    || (q.CreateIntent? && q.mandateId == Some(MANDATE_ID))
    || (q.AttachChallenge? && q.challenge == Some(Offer(AMOUNT)))
  }

  predicate Allowed(step: P.Step, k: nat) {
    && (step.Outside? ==> AllowedRequest(step.request))
    && (step.Spawn? ==> step.id < k && step.call == PaymentOf(Id(step.id)))
  }

  ghost predicate AllAllowed(steps: seq<P.Step>, k: nat) {
    forall step :: step in steps ==> Allowed(step, k)
  }

  predicate Fits(i: Intent) {
    i.mandateId == MANDATE_ID && (i.challenge.Some? ==> i.challenge.value.amount == AMOUNT)
  }

  ghost predicate LedgerFits(s: Ledger) {
    && (forall id :: id in s.intents ==> Fits(s.intents[id]))
    && (MANDATE_ID in s.policies ==> s.policies[MANDATE_ID].policy == MANDATE)
  }

  ghost predicate HandlersFit(handlers: map<nat, Handler>, k: nat) {
    forall a :: a in handlers ==> a < k && handlers[a].call == PaymentOf(Id(a))
  }

  predicate SetsNoTerms(q: Request) {
    !q.CreateIntent? && !q.AttachChallenge? && !q.PutPolicy?
  }

  lemma RouteFits(s: Ledger, q: Request, now: Time)
    requires LedgerFits(s) && (SetsNoTerms(q) || AllowedRequest(q))
    ensures var o := Route(s, q, now, SETUP.keccak);
            && (Stored(o).Some? ==> Fits(Stored(o).value))
            && (o.Put? ==> o.mandateId == MANDATE_ID && o.record.policy == MANDATE)
  {
    hide Hex;
  }

  lemma ApplyPolicies(s: Ledger, o: Outcome, now: Time)
    ensures Apply(s, o, now).policies == if o.Put? then s.policies[o.mandateId := o.record] else s.policies
  {
    hide IntentViewOf;
  }

  lemma WriteFits(s: Ledger, q: Request, now: Time)
    requires LedgerFits(s) && (SetsNoTerms(q) || AllowedRequest(q))
    ensures LedgerFits(Handle(s, q, now, SETUP.keccak))
  {
    hide Route;
    hide Apply;
    hide Fits;
    hide SetsNoTerms;
    hide AllowedRequest;
    hide Hex;
    RouteFits(s, q, now);
    var o := Route(s, q, now, SETUP.keccak);
    ApplyStores(s, o, now);
    ApplyPolicies(s, o, now);
  }

  lemma OwnWriteSetsNoTerms(h: Handler)
    requires P.Outstanding(h, SETUP).Write?
    ensures SetsNoTerms(P.Outstanding(h, SETUP).request)
  {
    hide Hex;
  }

  lemma ServedFits(w: World, a: nat)
    requires LedgerFits(w.ledger) && a in w.handlers
    ensures LedgerFits(P.Served(w, a, SETUP).ledger)
  {
    hide LedgerFits;
    hide P.AnswerTo;
    hide SetsNoTerms;
    hide Handle;
    hide P.Outstanding;
    hide Hex;
    var c := P.Outstanding(w.handlers[a], SETUP);
    if c.Write? {
      OwnWriteSetsNoTerms(w.handlers[a]);
      WriteFits(w.ledger, c.request, w.clock);
    }
  }

  lemma NextLedgerFits(w: World, step: P.Step, k: nat)
    requires LedgerFits(w.ledger) && Allowed(step, k)
    ensures LedgerFits(P.Next(w, step, SETUP).ledger)
  {
    hide LedgerFits;
    hide P.Next;
    hide P.Served;
    hide P.Unserved;
    hide AllowedRequest;
    hide Handle;
    hide Hex;
    if step.Serve? {
      ServeStepIs(w, step.id);
      if step.id in w.handlers {
        ServedFits(w, step.id);
      }
    } else if step.Outside? {
      OutsideIsHandled(w, step.request, SETUP);
      WriteFits(w.ledger, step.request, w.clock);
    } else {
      OtherStep(w, step, SETUP);
    }
  }

  lemma ServeStepIs(w: World, a: nat)
    ensures P.Next(w, P.Serve(a), SETUP) == w || (a in w.handlers && P.Next(w, P.Serve(a), SETUP) == P.Served(w, a, SETUP))
  {
    hide P.Served;
    hide P.Unserved;
  }

  lemma NextHandlersFit(w: World, step: P.Step, k: nat)
    requires HandlersFit(w.handlers, k) && Allowed(step, k)
    ensures HandlersFit(P.Next(w, step, SETUP).handlers, k)
  {
    hide P.Resumed;
    hide P.Answered;
    hide P.Unserved;
    hide P.LedgerAfter;
    hide P.AnswerTo;
    hide Admit;
    hide Handle;
    hide Hex;
    hide Id;
    hide AllowedRequest;
    if step.Resume? && step.id in w.handlers {
      ResumeKeepsKind(w.handlers[step.id], step.env, w.clock, SETUP);
    }
  }

  lemma {:induction false} RunFits(steps: seq<P.Step>, k: nat)
    requires AllAllowed(steps, k)
    ensures var w := P.Run(1, steps, SETUP); LedgerFits(w.ledger) && HandlersFit(w.handlers, k)
  {
    hide P.Next;
    hide Allowed;
    if steps != [] {
      hide LedgerFits;
      hide HandlersFit;
      var front, last := steps[..|steps| - 1], steps[|steps| - 1];
      RunFits(front, k);
      NextLedgerFits(P.Run(1, front, SETUP), last, k);
      NextHandlersFit(P.Run(1, front, SETUP), last, k);
    }
  }

  lemma FittingIsAssumed(w: World, k: nat)
    requires LedgerFits(w.ledger) && HandlersFit(w.handlers, k)
    ensures Assumed(w, TermsOf(k))
  {
    hide Hex;
    hide Id;
    hide InFlight;
    forall a, b | a in w.handlers && b in w.handlers && a != b
      ensures w.handlers[a].call.requestId != w.handlers[b].call.requestId
    {
      assert |Id(a)| != |Id(b)|;
    }
    assert InFlightOf(w.handlers, TermsOf(k)) <= FirstOnes(k);
    SubsetIsSmaller(InFlightOf(w.handlers, TermsOf(k)), FirstOnes(k));
    FirstCount(k);
  }

  lemma AllowedIsAssumed(steps: seq<P.Step>, k: nat)
    requires AllAllowed(steps, k)
    ensures AssumedAlong(1, steps, TermsOf(k), SETUP)
  {
    hide P.Run;
    hide Allowed;
    hide Assumed;
    hide LedgerFits;
    hide HandlersFit;
    forall n | 0 <= n <= |steps|
      ensures Assumed(P.Run(1, steps[..n], SETUP), TermsOf(k))
    {
      RunFits(steps[..n], k);
      FittingIsAssumed(P.Run(1, steps[..n], SETUP), k);
    }
  }

  lemma PreparingIsAllowed(i: nat, k: nat)
    requires i < k
    ensures AllAllowed(Prepare(i), k) && AllAllowed(Spend(i), k) && AllAllowed(PUT, k)
  {
    hide Hex;
    hide Id;
    hide Offer;
  }

  lemma {:induction false} AllIsAllowed(n: nat, k: nat)
    requires n <= k
    ensures AllAllowed(PrepareAll(n), k) && AllAllowed(SpendAll(n), k)
  {
    hide Prepare;
    hide Spend;
    hide Allowed;
    if n == 0 {
      PutIsAllowed(k);
    } else {
      AllIsAllowed(n - 1, k);
      PreparingIsAllowed(n - 1, k);
    }
  }

  lemma PutIsAllowed(k: nat)
    ensures AllAllowed(PUT, k)
  {
    hide Hex;
  }

  /**
   * For every number of payments in flight there is a run that keeps to everything RollingBudget
   * assumes and spends, in one window, exactly the amount and the cards of its bound.
   */
  lemma BoundIsAttained(k: nat)
    requires k >= 1
    ensures var steps := PrepareAll(k) + SpendAll(k);
            var w := P.Run(1, steps, SETUP);
            var t := TermsOf(k);
            var signed := SignedBetween(w, t, 1 - WindowMs(t), 1);
            && AssumedAlong(1, steps, t, SETUP)
            && Total(w.handlers, signed) == MANDATE.maxPerWindow + (t.inFlight - 1) * Ceiling(MANDATE)
            && |signed| == MANDATE.maxCardsPerWindow + (t.inFlight - 1)
  {
    hide From;
    hide Spent;
    hide Prepared;
    hide Hex;
    hide AllAllowed;
    hide SignedBetween;
    hide P.Run;
    var steps := PrepareAll(k) + SpendAll(k);
    RunIsFrom(1, steps, SETUP);
    FromAppend(P.Begin(1), PrepareAll(k), SpendAll(k), SETUP);
    AllPrepare(k);
    AllSpend(From(P.Begin(1), PrepareAll(k), SETUP), k, k);
    var w := P.Run(1, steps, SETUP);
    AllAreSignedBetween(w, k);
    FirstTotal(w.handlers, k, AMOUNT);
    FirstCount(k);
    AllIsAllowed(k, k);
    BothAllowed(PrepareAll(k), SpendAll(k), k);
    AllowedIsAssumed(steps, k);
    OneLess(k, k - 1, AMOUNT);
  }

  lemma BothAllowed(a: seq<P.Step>, b: seq<P.Step>, k: nat)
    requires AllAllowed(a, k) && AllAllowed(b, k)
    ensures AllAllowed(a + b, k)
  {
  }

  // ---- Signatures that no window counts ------------------------------------------------------------------

  /** A payment is signed, and its handler is cut off before it records it. */
  function Escape(i: nat): seq<P.Step> {
    Prepare(i) + Sign(i, Look(true)) + [P.Abort(i)]
  }

  function EscapeAll(n: nat): seq<P.Step> {
    if n == 0 then PUT else EscapeAll(n - 1) + Escape(n - 1)
  }

  function SignatureOf(i: nat): P.Signature {
    P.Signature(i, Id(i), Authorisation(AMOUNT, 0))
  }

  ghost predicate Escaped(w: World, n: nat) {
    && Deployed(w) && NothingSigned(w.ledger)
    && (forall id :: id in w.ledger.intents ==> |id| <= n) && (forall id :: id in w.seen ==> |id| <= n)
    && (forall a :: a in w.handlers ==> a < n && CutOff(w.handlers[a]))
    && |w.signatures| == n && (forall i :: 0 <= i < n ==> w.signatures[i] == SignatureOf(i))
  }

  lemma SignedIsCutOff(id: string, now: Time)
    ensures CutOff(JobAt(PaymentOf(id), P.AwaitSigner(None), None, JobOf(AMOUNT, now / 1000),
                         P.SignedBy(Authorisation(AMOUNT, now / 1000))).(live := false))
  {
  }

  lemma Escapes(w: World, n: nat)
    requires Escaped(w, n)
    ensures Escaped(From(w, Escape(n), SETUP), n + 1)
  {
    hide P.Next;
    hide From;
    hide Prepare;
    hide Sign;
    hide Id;
    hide Handle;
    hide Ready;
    hide Authorisation;
    hide CutOff;
    PreparesOne(w, n);
    var ready := From(w, Prepare(n), SETUP);
    FromAppend(w, Prepare(n) + Sign(n, Look(true)), [P.Abort(n)], SETUP);
    FromAppend(w, Prepare(n), Sign(n, Look(true)), SETUP);
    SignsReady(ready, n, Id(n));
    ReservationCore(ready.ledger, Id(n), 1);
    var signed := From(ready, Sign(n, Look(true)), SETUP);
    assert signed.ledger.intents == Core(signed.ledger).intents && signed.ledger.policies == Core(signed.ledger).policies;
    assert signed.ledger.approvals == Core(signed.ledger).approvals;
    FromOne(signed, P.Abort(n), SETUP);
    Aborts(signed, n, SETUP);
    SignedIsCutOff(Id(n), 1);
  }

  lemma PutIsEscaped()
    ensures Escaped(From(P.Begin(1), PUT, SETUP), 0)
  {
    hide From;
    hide Hex;
    PolicyIsPut(1);
    var w := From(P.Begin(1), PUT, SETUP);
    assert w.ledger.intents == Core(w.ledger).intents && w.ledger.policies == Core(w.ledger).policies;
    assert w.ledger.approvals == Core(w.ledger).approvals;
  }

  lemma {:induction false} AllEscape(n: nat)
    ensures Escaped(From(P.Begin(1), EscapeAll(n), SETUP), n)
  {
    hide From;
    hide Escape;
    hide Escaped;
    hide PUT;
    if n == 0 {
      PutIsEscaped();
    } else {
      AllEscape(n - 1);
      FromAppend(P.Begin(1), EscapeAll(n - 1), Escape(n - 1), SETUP);
      Escapes(From(P.Begin(1), EscapeAll(n - 1), SETUP), n - 1);
    }
  }

  /** Whoever is not the `n`-th has been cut off. */
  ghost predicate Alone(handlers: map<nat, Handler>, n: nat) {
    forall a :: a in handlers ==> a == n || CutOff(handlers[a])
  }

  lemma CutOffStays(h: Handler)
    requires CutOff(h)
    ensures !P.Answered(h) && !P.Unserved(h, SETUP) && !InFlight(h) && !h.signer.Arrived? && !h.signer.AtKey?
    ensures CutOff(h.(live := false))
  {
  }

  lemma AloneStays(w: World, step: P.Step, n: nat)
    requires Alone(w.handlers, n) && (step.Spawn? ==> step.id == n)
    ensures Alone(P.Next(w, step, SETUP).handlers, n)
  {
    hide P.Resumed;
    hide P.Answered;
    hide P.Unserved;
    hide P.LedgerAfter;
    hide P.AnswerTo;
    hide P.Start;
    hide P.Admitted;
    hide Handle;
    hide CutOff;
    forall a | a in w.handlers && a != n
      ensures !P.Answered(w.handlers[a]) && !P.Unserved(w.handlers[a], SETUP) && CutOff(w.handlers[a].(live := false))
      ensures !w.handlers[a].signer.Arrived? && !w.handlers[a].signer.AtKey?
    {
      CutOffStays(w.handlers[a]);
    }
  }

  lemma {:induction false} AloneFrom(w: World, steps: seq<P.Step>, n: nat)
    requires Alone(w.handlers, n) && forall step :: step in steps && step.Spawn? ==> step.id == n
    ensures Alone(From(w, steps, SETUP).handlers, n)
    decreases |steps|
  {
    hide P.Next;
    hide Alone;
    if steps != [] {
      var front := steps[..|steps| - 1];
      AloneFrom(w, front, n);
      AloneStays(From(w, front, SETUP), steps[|steps| - 1], n);
    }
  }

  lemma AloneIsAssumed(w: World, n: nat, k: nat)
    requires LedgerFits(w.ledger) && HandlersFit(w.handlers, k) && Alone(w.handlers, n)
    ensures Assumed(w, TermsOf(1))
  {
    hide Hex;
    hide InFlight;
    hide LedgerFits;
    hide HandlersFit;
    hide CutOff;
    FittingIsAssumed(w, k);
    forall a | a in InFlightOf(w.handlers, TermsOf(1))
      ensures a == n
    {
      if a != n {
        CutOffStays(w.handlers[a]);
      }
    }
    assert InFlightOf(w.handlers, TermsOf(1)) <= {n};
    SubsetIsSmaller(InFlightOf(w.handlers, TermsOf(1)), {n});
  }

  lemma EscapeSpawns(i: nat, k: nat)
    ensures forall step :: step in Escape(i) && step.Spawn? ==> step.id == i
    ensures i < k ==> AllAllowed(Escape(i), k)
  {
    hide Hex;
    hide Id;
    hide Offer;
  }

  lemma {:induction false} EscapesAreAllowed(n: nat, k: nat)
    requires n <= k
    ensures AllAllowed(EscapeAll(n), k)
  {
    hide Escape;
    hide Allowed;
    if n == 0 {
      PutIsAllowed(k);
    } else {
      EscapesAreAllowed(n - 1, k);
      EscapeSpawns(n - 1, k);
    }
  }

  /** Whenever the run is looked at, at most its newest payment is not cut off. */
  lemma {:induction false} EscapesAlone(n: nat, m: nat) returns (a: nat)
    requires m <= |EscapeAll(n)|
    ensures Alone(From(P.Begin(1), EscapeAll(n)[..m], SETUP).handlers, a)
  {
    hide From;
    hide Escape;
    hide Escaped;
    hide Alone;
    if n == 0 {
      a := 0;
      NobodyIsAlone();
      AloneFrom(P.Begin(1), EscapeAll(0)[..m], 0);
    } else if m <= |EscapeAll(n - 1)| {
      assert EscapeAll(n)[..m] == EscapeAll(n - 1)[..m];
      a := EscapesAlone(n - 1, m);
    } else {
      a := n - 1;
      var more := Escape(n - 1)[..m - |EscapeAll(n - 1)|];
      assert EscapeAll(n)[..m] == EscapeAll(n - 1) + more;
      FromAppend(P.Begin(1), EscapeAll(n - 1), more, SETUP);
      AllEscape(n - 1);
      EscapedIsAlone(From(P.Begin(1), EscapeAll(n - 1), SETUP), n - 1);
      EscapeSpawns(n - 1, n);
      AloneFrom(From(P.Begin(1), EscapeAll(n - 1), SETUP), more, n - 1);
    }
  }

  lemma NobodyIsAlone()
    ensures Alone(P.Begin(1).handlers, 0)
  {
  }

  lemma EscapedIsAlone(w: World, n: nat)
    requires Escaped(w, n)
    ensures Alone(w.handlers, n)
  {
    hide CutOff;
  }

  lemma EscapesAreAssumed(n: nat)
    ensures AssumedAlong(1, EscapeAll(n), TermsOf(1), SETUP)
  {
    hide P.Run;
    hide Allowed;
    hide Assumed;
    hide LedgerFits;
    hide HandlersFit;
    hide Alone;
    EscapesAreAllowed(n, n);
    var steps := EscapeAll(n);
    forall m | 0 <= m <= |steps|
      ensures Assumed(P.Run(1, steps[..m], SETUP), TermsOf(1))
    {
      RunFits(steps[..m], n);
      RunIsFrom(1, steps[..m], SETUP);
      var a := EscapesAlone(n, m);
      AloneIsAssumed(P.Run(1, steps[..m], SETUP), a, n);
    }
  }

  /**
   * For every number there is a run, with one payment in flight at a time and all else as assumed,
   * that emits that many signatures of a full window's budget each, while every window shows nothing.
   */
  lemma CutOffsEscapeTheWindow(n: nat)
    ensures var w := P.Run(1, EscapeAll(n), SETUP);
            && AssumedAlong(1, EscapeAll(n), TermsOf(1), SETUP)
            && |w.signatures| == n
            && (forall i :: 0 <= i < n ==> w.signatures[i].requestId == Id(i)
                                           && w.signatures[i].typed.value == MANDATE.maxPerWindow)
            && forall from :: Window(w.ledger, MANDATE_ID, from) == Usage(0, 0)
  {
    hide P.Run;
    hide From;
    hide Hex;
    EscapesAreAssumed(n);
    hide AssumedAlong;
    RunIsFrom(1, EscapeAll(n), SETUP);
    AllEscape(n);
    var w := P.Run(1, EscapeAll(n), SETUP);
    forall i | 0 <= i < n
      ensures w.signatures[i].requestId == Id(i) && w.signatures[i].typed.value == MANDATE.maxPerWindow
    {
      assert w.signatures[i] == SignatureOf(i);
    }
    forall from
      ensures Window(w.ledger, MANDATE_ID, from) == Usage(0, 0)
    {
      EmptyWindowOver(w.ledger, MANDATE_ID, from, |w.ledger.order|);
    }
  }
}
