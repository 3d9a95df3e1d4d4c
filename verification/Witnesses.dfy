/**
 * Concrete runs of the signing protocol from its first step, each for one thing that the code does
 * not prevent: a refusal recorded over a signature, and an approval beyond the mandate's ceiling.
 */
module Witnesses {
  import opened Wrappers
  import opened Text
  import opened Mandates
  import opened LedgerStore
  import opened PolicyChecks
  import opened SignerService
  import opened SigningInvariant
  import opened RecordedDecision
  import opened Scenes
  import P = SigningProtocol

  // ---- One deployment ---------------------------------------------------------------------------------

  function Hex(digits: nat, c: char): (s: string)
    ensures |s| == digits + 2 && s[..2] == "0x" && forall i :: 2 <= i < |s| ==> s[i] == c
  {
    "0x" + seq(digits, _ => c)
  }

  const ASSET: string := Hex(40, 'a')
  const RECIPIENT: string := Hex(40, 'b')
  const WALLET: string := Hex(40, 'c')
  const OWNER: string := Hex(40, 'd')
  const MANDATE_ID: string := Hex(64, 'e')
  const HASH: string := Hex(64, 'f')
  const SIGNATURE: string := Hex(130, '1')
  const DOMAIN: string := "shop"
  const TOKEN: TokenDomain := TokenDomain("USD Coin", "2", 43113, ASSET)

  /** One card uses up the window: ceiling, budget and card count allow exactly one payment of AMOUNT. */
  const AMOUNT: nat := 10_000_000
  const HARD_MAX: nat := 50_000_000
  const MANDATE: Mandate :=
    Mandate(MANDATE_ID, OWNER, "agent", 43113, ASSET, RECIPIENT, AMOUNT, AMOUNT, 1, 3600, 300, 10_000, false, "", [], 1)
  const CONFIG: Config := Config(map[MANDATE_ID := PinnedMandate(RECIPIENT, HARD_MAX)], WALLET, 43113, TOKEN)
  const SETUP: P.Setup := P.Setup(_ => HASH, (_, _, _) => true, CONFIG, WALLET, 600, 900, "https://dashboard")

  /** The registry agrees with the mandate; the item matches it, or does not. */
  function Look(matches: bool): P.Env {
    P.Env(Some(Registry(OWNER, HASH, 10_000, false)), matches)
  }

  function Offer(amount: nat): Challenge {
    Challenge(2, "avalanche-fuji", 43113, amount, ASSET, RECIPIENT, 300, "USD Coin", "2")
  }

  function PaymentOf(id: string): P.Call {
    P.Payment(id, MANDATE_ID, AMOUNT, Offer(AMOUNT), DOMAIN)
  }

  function ApprovalOf(id: string): P.Call {
    P.Resolve(id, Some(Approve), OWNER, SIGNATURE, false)
  }

  function JobOf(amount: nat, at: int): P.Job {
    P.Job(MANDATE, MANDATE_ID, Offer(amount), amount, at, HASH, HASH, DOMAIN, HASH)
  }

  function Authorisation(amount: nat, at: int): TypedData {
    TypedData(TOKEN, WALLET, RECIPIENT, amount, at - 5, at + 295, HASH)
  }

  lemma HexIsLower(digits: nat, c: char)
    requires '0' <= c <= '9' || 'a' <= c <= 'f'
    ensures Lower(Hex(digits, c)) == Hex(digits, c) && IsHexText(Hex(digits, c), digits)
  {
    var s := Hex(digits, c);
    forall i | 0 <= i < |s|
      ensures LowerChar(s[i]) == s[i]
    {
      assert i < 2 ==> s[i] == s[..2][i];
    }
    assert Lower(s) == s;
  }

  lemma Commitment(id: string)
    ensures BuildCommitmentNonce(SETUP.keccak, id, HashPolicy(SETUP.keccak, MANDATE), HASH, DOMAIN) == Ok(HASH)
    ensures HashPolicy(SETUP.keccak, MANDATE) == HASH
  {
    hide Serialise;
    HexIsLower(64, 'f');
    assert HASH[2..] == Strip(HASH).value;
  }

  lemma SignerAgrees(id: string, amount: nat, at: int, seen: set<string>)
    requires id != "" && id !in seen && amount <= HARD_MAX
    ensures Admit(P.JobRequest(id, JobOf(amount, at), SETUP), SETUP.config, seen)
            == Result<TypedData>.Ok(Authorisation(amount, at))
  {
    HexIsLower(40, 'a');
    HexIsLower(40, 'b');
    HexIsLower(40, 'c');
    HexIsLower(64, 'e');
    HexIsLower(64, 'f');
    hide Hex;
    hide Lower;
  }

  lemma ChecksAgree(h: Handler, i: Intent, now: Time)
    requires h.call.Payment? && h.call.challenge == Offer(AMOUNT) && h.call.requestedAmount == AMOUNT
    requires i.challengeAttachedAt.Some? && i.createdAt < i.challengeAttachedAt.value && now / 1000 < 10_000
    ensures FirstFailure(P.Context(h, i, MANDATE, Usage(0, 0), Look(true).registry, now, SETUP)).None?
  {
    hide FirstFailure;
    hide HashPolicy;
    hide Lower;
    hide Hex;
    Commitment("");
    var c := P.Context(h, i, MANDATE, Usage(0, 0), Look(true).registry, now, SETUP);
    assert Cleared(c);
    hide Cleared;
    ChecksPassExactlyWhenCleared(c);
  }

  // ---- The ledger -------------------------------------------------------------------------------------

  /** The ledger without its histories, which no handler reads. */
  function Core(s: Ledger): Ledger {
    s.(log := [], eventSeq := 0, events := [])
  }

  function IntentOf(id: string, amount: nat, now: Time): Intent {
    Intent(id, MANDATE_ID, "agent", "buy", HASH, 0, Some(Offer(amount)), Some(now), None, None, false, None, None, None,
           None, None, None, None, None, None, ChallengeAttached)
  }

  function Opening(id: string, amount: nat): seq<P.Step> {
    [ P.Outside(CreateIntent(Some(id), Some(MANDATE_ID), Some("agent"), Some("buy"), Some(0))),
      P.Outside(AttachChallenge(id, Some(Offer(amount)))) ]
  }

  lemma Opens(w: World, id: string, amount: nat)
    requires id != "" && id !in w.ledger.intents
    ensures var after := From(w, Opening(id, amount), SETUP);
            && after == w.(ledger := after.ledger)
            && Core(after.ledger) == Core(w.ledger).(order := w.ledger.order + [id],
                                                     intents := w.ledger.intents[id := IntentOf(id, amount, w.clock)])
  {
    hide P.Next;
    hide IntentViewOf;
    var create := CreateIntent(Some(id), Some(MANDATE_ID), Some("agent"), Some("buy"), Some(0));
    var attach := AttachChallenge(id, Some(Offer(amount)));
    FromTwo(w, P.Outside(create), P.Outside(attach), SETUP);
    hide From;
    Asks(w, create, SETUP);
    var s1 := Handle(w.ledger, create, w.clock, SETUP.keccak);
    Asks(w.(ledger := s1), attach, SETUP);
    var i1 := s1.intents[id];
    assert w.ledger.intents[id := i1][id := IntentOf(id, amount, w.clock)]
           == w.ledger.intents[id := IntentOf(id, amount, w.clock)];
  }

  lemma PolicyIsPut(clock: Time)
    ensures var w := From(P.Begin(clock), [P.Outside(PutPolicy(MANDATE_ID, Some(MANDATE)))], SETUP);
            && w == P.Begin(clock).(ledger := w.ledger)
            && Core(w.ledger) == EMPTY.(policies := map[MANDATE_ID := PolicyRecord(MANDATE, 1)])
  {
    hide P.Next;
    FromOne(P.Begin(clock), P.Outside(PutPolicy(MANDATE_ID, Some(MANDATE))), SETUP);
    hide From;
    Asks(P.Begin(clock), PutPolicy(MANDATE_ID, Some(MANDATE)), SETUP);
  }

  lemma ReservationCore(s: Ledger, id: string, now: Time)
    requires id in s.intents && s.intents[id].nonce.None? && s.intents[id].requestId == id
    ensures Core(Handle(s, ReserveNonce(id, Some(HASH)), now, SETUP.keccak))
            == Core(s).(intents := s.intents[id := s.intents[id].(nonce := Some(HASH), nonceReservedAt := Some(now),
                                                                  nonceReleased := false, state := NonceReserved)])
  {
    hide IntentViewOf;
    hide Hex;
  }

  lemma DecisionCore(s: Ledger, id: string, job: P.Job, at: Time, now: Time)
    requires id in s.intents && id != "" && s.intents[id].requestId == id
    ensures Core(Handle(s, P.SignedDecision(id, job, at), now, SETUP.keccak))
            == Core(s).(intents := s.intents[id := SignedIntent(s.intents[id], job, at)])
  {
    hide IntentViewOf;
    hide Validity;
  }

  function SignedIntent(i: Intent, job: P.Job, at: Time): Intent {
    i.(decision := Some(Signed), decidedAt := Some(at), state := SignedState, policyHash := Some(job.policyHash),
       merchantDomain := Some(job.domain), validAfter := Some(job.now - 5),
       validBefore := Some(job.now - 5 + Validity(job.mandate, job.challenge)))
  }

  ghost predicate NothingSigned(s: Ledger) {
    forall id :: id in s.intents ==> s.intents[id].decision.None?
  }

  lemma {:induction false} EmptyWindowOver(s: Ledger, mandateId: string, from: Time, k: nat)
    requires NothingSigned(s) && k <= |s.order|
    ensures WindowOver(s, mandateId, from, k) == Usage(0, 0)
  {
    if k > 0 {
      EmptyWindowOver(s, mandateId, from, k - 1);
    }
  }

  // ---- A payment up to its commitment -----------------------------------------------------------------

  /** A payment call arrives, climbs the checks, matches, and commits to its nonce. */
  function Join(a: nat, id: string): seq<P.Step> {
    [P.Spawn(a, PaymentOf(id))] + Climb(a, Look(true)) + [P.Resume(a, Look(true))]
  }

  function Ready(id: string, now: Time): Handler {
    JobAt(PaymentOf(id), P.AwaitReservation(None), None, JobOf(AMOUNT, now / 1000), P.NotCalled)
  }

  /** A world in which a payment of the request passes: its intent is open and nothing is signed. */
  ghost predicate Passes(w: World, id: string, amount: nat, since: Time) {
    && id != "" && id in w.ledger.intents && w.ledger.intents[id] == IntentOf(id, amount, since) && since > 0
    && MANDATE_ID in w.ledger.policies && w.ledger.policies[MANDATE_ID].policy == MANDATE
    && w.ledger.approvals == map[] && NothingSigned(w.ledger) && 0 <= w.clock < 1_000_000
  }

  function Climbed(id: string, i: Intent, now: Time): Handler {
    Plain(PaymentOf(id), P.AwaitApprovalRead(i, MANDATE, now / 1000), Some(P.ApprovalRead(false)))
  }

  lemma JoinsChecked(w: World, a: nat, id: string, amount: nat, since: Time)
    requires Passes(w, id, amount, since) && a !in w.handlers
    ensures From(w, [P.Spawn(a, PaymentOf(id))] + Climb(a, Look(true)), SETUP)
            == With(w, a, Climbed(id, IntentOf(id, amount, since), w.clock))
  {
    hide P.Next;
    hide Climb;
    hide FirstFailure;
    hide P.Context;
    hide Hex;
    var call := PaymentOf(id);
    FromAppend(w, [P.Spawn(a, call)], Climb(a, Look(true)), SETUP);
    FromOne(w, P.Spawn(a, call), SETUP);
    hide From;
    Spawns(w, a, call, SETUP);
    var w1 := With(w, a, P.Start(call));
    var i := w.ledger.intents[id];
    EmptyWindowOver(w.ledger, MANDATE_ID, w.clock - MANDATE.windowSeconds * 1000, |w.ledger.order|);
    ChecksAgree(Plain(call, P.AwaitRegistry(i, MANDATE, Usage(0, 0)), None), i, w.clock);
    DomainIsGiven();
    Climbs(w1, a, call, i, MANDATE, Usage(0, 0), Look(true), SETUP);
    WithTwice(w, a, P.Start(call), Climbed(id, i, w.clock));
  }

  lemma DomainIsGiven()
    ensures !P.Blank(DOMAIN)
  {
    assert TrimStart(DOMAIN) == DOMAIN && TrimEnd(DOMAIN) == DOMAIN;
  }

  lemma Joins(w: World, a: nat, id: string, amount: nat, since: Time)
    requires Passes(w, id, amount, since) && a !in w.handlers
    ensures From(w, Join(a, id), SETUP) == With(w, a, Ready(id, w.clock))
  {
    hide P.Next;
    hide Climb;
    var i := IntentOf(id, amount, since);
    FromAppend(w, [P.Spawn(a, PaymentOf(id))] + Climb(a, Look(true)), [P.Resume(a, Look(true))], SETUP);
    JoinsChecked(w, a, id, amount, since);
    hide From;
    Commitment(id);
    hide Passes;
    hide Hex;
    hide BuildCommitmentNonce;
    hide HashPolicy;
    Commits(With(w, a, Climbed(id, i, w.clock)), a, PaymentOf(id), i, MANDATE, w.clock / 1000, false, HASH, Look(true), SETUP);
    WithTwice(w, a, Climbed(id, i, w.clock), Ready(id, w.clock));
  }

  // ---- The start of each run ----------------------------------------------------------------------------

  const ID: string := "r"

  function Start(amount: nat): seq<P.Step> {
    [P.Outside(PutPolicy(MANDATE_ID, Some(MANDATE)))] + Opening(ID, amount)
  }

  lemma Starts(amount: nat)
    ensures var w := From(P.Begin(1), Start(amount), SETUP);
            && w == P.Begin(1).(ledger := w.ledger) && Passes(w, ID, amount, 1)
            && Core(w.ledger) == EMPTY.(policies := map[MANDATE_ID := PolicyRecord(MANDATE, 1)], order := [ID],
                                        intents := map[ID := IntentOf(ID, amount, 1)])
  {
    hide P.Next;
    hide Opening;
    hide IntentOf;
    hide Hex;
    var put := [P.Outside(PutPolicy(MANDATE_ID, Some(MANDATE)))];
    FromAppend(P.Begin(1), put, Opening(ID, amount), SETUP);
    PolicyIsPut(1);
    var w1 := From(P.Begin(1), put, SETUP);
    assert w1.ledger.intents == Core(w1.ledger).intents && w1.ledger.order == Core(w1.ledger).order;
    Opens(w1, ID, amount);
    hide From;
    var w := From(w1, Opening(ID, amount), SETUP);
    assert w.ledger.intents == Core(w.ledger).intents;
    assert NothingSigned(w.ledger) by { OpenIsUndecided(amount); }
  }

  lemma OpenIsUndecided(amount: nat)
    ensures IntentOf(ID, amount, 1).decision.None?
  {
  }

  lemma SignsReady(w: World, a: nat, id: string)
    requires id != "" && id in w.ledger.intents && w.ledger.intents[id].nonce.None?
    requires a in w.handlers && w.handlers[a] == Ready(id, w.clock) && id !in w.seen
    ensures From(w, Sign(a, Look(true)), SETUP)
            == SignedWorld(w, a, PaymentOf(id), None, JobOf(AMOUNT, w.clock / 1000), Authorisation(AMOUNT, w.clock / 1000),
                           SETUP)
  {
    hide From;
    hide Sign;
    hide Admit;
    SignerAgrees(id, AMOUNT, w.clock / 1000, w.seen);
    hide Hex;
    SignsFor(w, a, PaymentOf(id), None, JobOf(AMOUNT, w.clock / 1000), Authorisation(AMOUNT, w.clock / 1000), Look(true),
             SETUP);
  }

  // ---- A refusal recorded over a signature ----------------------------------------------------------------

  /**
   * Two payment calls for one request climb together. One reserves, is signed and recorded; the
   * other loses the reservation and is about to record its refusal.
   */
  const RACE: seq<P.Step> :=
    Start(AMOUNT) + Join(0, ID) + Join(1, ID) + Sign(0, Look(true)) + Record(0, Look(true)) + Turn(1, Look(true))

  function Lost(id: string, now: Time): Handler {
    Ready(id, now).(point := P.AwaitRefusedRecord("signer_refused", now, P.ErrorReply("NONCE_ALREADY_RESERVED")))
  }

  lemma Loses(w: World, a: nat, id: string)
    requires a in w.handlers && w.handlers[a] == Ready(id, w.clock)
    requires id in w.ledger.intents && w.ledger.intents[id].nonce == Some(HASH) && !w.ledger.intents[id].nonceReleased
    ensures From(w, Turn(a, Look(true)), SETUP) == With(w, a, Lost(id, w.clock))
  {
    hide From;
    hide Turn;
    var q := ReserveNonce(id, Some(HASH));
    assert Route(w.ledger, q, w.clock, SETUP.keccak) == Reject(409, "NONCE_ALREADY_RESERVED");
    assert Handle(w.ledger, q, w.clock, SETUP.keccak) == w.ledger;
    hide Route;
    hide Handle;
    hide Hex;
    hide JobOf;
    WriteTurn(w, a, Ready(id, w.clock), q, Lost(id, w.clock), Look(true), SETUP);
  }

  function Entered(id: string, now: Time): Handler {
    JobAt(PaymentOf(id), P.AwaitSignedRecord(None, now), Some(P.Written(Sent(200))), JobOf(AMOUNT, now / 1000),
          P.SignedBy(Authorisation(AMOUNT, now / 1000)))
  }

  lemma RaceIsLost()
    ensures var w := P.Run(1, RACE, SETUP);
            && w.handlers == map[0 := Entered(ID, 1), 1 := Lost(ID, 1)] && w.clock == 1
            && SignedNow(w.ledger, ID)
            && w.signatures == [P.Signature(0, ID, Authorisation(AMOUNT, 0))]
  {
    hide P.Next;
    hide From;
    hide Sign;
    hide Join;
    hide Start;
    hide Record;
    hide Turn;
    hide Hex;
    var look := Look(true);
    RunIsFrom(1, RACE, SETUP);
    FromAppend(P.Begin(1), Start(AMOUNT) + Join(0, ID) + Join(1, ID) + Sign(0, look) + Record(0, look), Turn(1, look), SETUP);
    FromAppend(P.Begin(1), Start(AMOUNT) + Join(0, ID) + Join(1, ID) + Sign(0, look), Record(0, look), SETUP);
    FromAppend(P.Begin(1), Start(AMOUNT) + Join(0, ID) + Join(1, ID), Sign(0, look), SETUP);
    FromAppend(P.Begin(1), Start(AMOUNT) + Join(0, ID), Join(1, ID), SETUP);
    FromAppend(P.Begin(1), Start(AMOUNT), Join(0, ID), SETUP);
    Starts(AMOUNT);
    var w0 := From(P.Begin(1), Start(AMOUNT), SETUP);
    Joins(w0, 0, ID, AMOUNT, 1);
    var w1 := With(w0, 0, Ready(ID, 1));
    assert Passes(w1, ID, AMOUNT, 1);
    Joins(w1, 1, ID, AMOUNT, 1);
    var w2 := With(w1, 1, Ready(ID, 1));
    assert Passes(w2, ID, AMOUNT, 1);
    SignedAndLost(w2);
  }

  /** From two payments that are ready, the one signs and records, the other loses. */
  lemma SignedAndLost(w: World)
    requires Passes(w, ID, AMOUNT, 1) && w.handlers == map[0 := Ready(ID, 1), 1 := Ready(ID, 1)]
    requires w.clock == 1 && w.seen == {} && w.signatures == []
    ensures var signed := From(w, Sign(0, Look(true)), SETUP);
            var recorded := From(signed, Record(0, Look(true)), SETUP);
            var after := From(recorded, Turn(1, Look(true)), SETUP);
            && after.handlers == map[0 := Entered(ID, 1), 1 := Lost(ID, 1)] && after.clock == 1
            && SignedNow(after.ledger, ID) && after.signatures == [P.Signature(0, ID, Authorisation(AMOUNT, 0))]
  {
    hide From;
    hide Sign;
    hide Record;
    hide Turn;
    hide Hex;
    hide Handle;
    SignsReady(w, 0, ID);
    ReservationCore(w.ledger, ID, 1);
    var signed := SignedWorld(w, 0, PaymentOf(ID), None, JobOf(AMOUNT, 0), Authorisation(AMOUNT, 0), SETUP);
    assert signed.ledger.intents == Core(signed.ledger).intents;
    Records(signed, 0, PaymentOf(ID), JobOf(AMOUNT, 0), Authorisation(AMOUNT, 0), Look(true), SETUP);
    DecisionCore(signed.ledger, ID, JobOf(AMOUNT, 0), 1, 1);
    var recorded := From(signed, Record(0, Look(true)), SETUP);
    assert recorded.ledger.intents == Core(recorded.ledger).intents;
    Loses(recorded, 1, ID);
  }

  /**
   * After the race the ledger serves the loser's refusal: the request is then on record as refused,
   * although its one signature was emitted and its winner goes on to answer with the signed header.
   */
  lemma LoserOverwritesTheDecision()
    ensures var before := P.Run(1, RACE, SETUP);
            var after := P.Run(1, RACE + [P.Serve(1)], SETUP);
            var answered := P.Run(1, RACE + [P.Serve(1)] + [P.Resume(0, Look(true))], SETUP);
            && SignedNow(before.ledger, ID) && Overwrites(before, P.Serve(1), ID)
            && ID in after.ledger.intents && after.ledger.intents[ID].decision == Some(Refused)
            && answered.ledger == after.ledger && 0 in answered.handlers
            && answered.handlers[0].point == P.Finished(P.SignedReply(HASH, Authorisation(AMOUNT, 0)))
  {
    hide P.Next;
    hide From;
    hide RACE;
    hide Hex;
    var w := P.Run(1, RACE, SETUP);
    RaceIsLost();
    RunIsSafe(1, RACE, SETUP);
    hide Safe;
    RunIsFrom(1, RACE, SETUP);
    RunIsFrom(1, RACE + [P.Serve(1)], SETUP);
    RunIsFrom(1, RACE + [P.Serve(1)] + [P.Resume(0, Look(true))], SETUP);
    FromAppend(P.Begin(1), RACE, [P.Serve(1)], SETUP);
    FromAppend(P.Begin(1), RACE + [P.Serve(1)], [P.Resume(0, Look(true))], SETUP);
    UndecidingWrite(w.handlers[1], ID, SETUP);
    FromOne(w, P.Serve(1), SETUP);
    Serves(w, 1, SETUP);
    ServedDecision(w, 1, ID, SETUP);
    var after := P.Served(w, 1, SETUP);
    assert after.handlers[0] == Entered(ID, 1) && after.clock == 1 by { hide P.AnswerTo; hide P.LedgerAfter; hide P.Outstanding; }
    hide P.Served;
    FromOne(after, P.Resume(0, Look(true)), SETUP);
    Resumes(after, 0, Look(true), SETUP);
    WinnerAnswers();
  }

  lemma WinnerAnswers()
    ensures P.Answered(Entered(ID, 1))
    ensures P.Resumed(Entered(ID, 1), Look(true), 1, SETUP).point == P.Finished(P.SignedReply(HASH, Authorisation(AMOUNT, 0)))
  {
    hide Hex;
  }

  // ---- An approval beyond the mandate's ceiling -----------------------------------------------------------

  const BIG: nat := 40_000_000

  /**
   * The challenge on the ledger is BIG. A payment call that names an amount within the mandate
   * climbs the checks, but its item does not match, so it escalates.
   */
  const ESCALATION: seq<P.Step> :=
    Start(BIG) + ([P.Spawn(0, PaymentOf(ID))] + Climb(0, Look(true))) + [P.Resume(0, Look(false)), P.Serve(0)]

  /** The owner approves; policy signs the challenge on the ledger. */
  const APPROVAL: seq<P.Step> := ESCALATION + APPROVES + Sign(1, Look(true))

  const ASKED: Escalation :=
    Escalation(ID, MANDATE_ID, IntentMismatch, "https://dashboard/approve/r", 1, 900, 900, false, None, None, None,
               Some(DOMAIN))

  function Escalating(): Handler {
    Plain(PaymentOf(ID), P.AwaitEscalation(IntentMismatch, "check9_intent_match"), Some(P.Written(Sent(201))))
  }

  ghost predicate Escalates(w: World) {
    && w.clock == 1 && w.seen == {} && w.signatures == [] && w.handlers == map[0 := Escalating()]
    && ID in w.ledger.intents && w.ledger.intents[ID] == IntentOf(ID, BIG, 1)
    && ID in w.ledger.escalations && w.ledger.escalations[ID] == ASKED
    && MANDATE_ID in w.ledger.policies && w.ledger.policies[MANDATE_ID].policy == MANDATE
  }

  lemma PaymentEscalates()
    ensures Escalates(From(P.Begin(1), ESCALATION, SETUP))
  {
    hide P.Next;
    hide From;
    hide Start;
    hide Climb;
    hide Hex;
    var climb := [P.Spawn(0, PaymentOf(ID))] + Climb(0, Look(true));
    var ask := [P.Resume(0, Look(false)), P.Serve(0)];
    FromAppend(P.Begin(1), Start(BIG) + climb, ask, SETUP);
    FromAppend(P.Begin(1), Start(BIG), climb, SETUP);
    Starts(BIG);
    var w0 := From(P.Begin(1), Start(BIG), SETUP);
    JoinsChecked(w0, 0, ID, BIG, 1);
    hide Passes;
    var w1 := With(w0, 0, Climbed(ID, IntentOf(ID, BIG, 1), 1));
    AsksForEscalation(w1);
  }

  lemma Mismatches()
    ensures P.Answered(Climbed(ID, IntentOf(ID, BIG, 1), 1))
    ensures P.Resumed(Climbed(ID, IntentOf(ID, BIG, 1), 1), Look(false), 1, SETUP) == Mismatched()
  {
    hide P.BeginSigning;
    hide IntentOf;
    hide Hex;
  }

  function Mismatched(): Handler {
    Plain(PaymentOf(ID), P.AwaitEscalation(IntentMismatch, "check9_intent_match"), None)
  }

  function Asking(): Request {
    CreateEscalation(Some(ID), Some(MANDATE_ID), Some(IntentMismatch), Some("https://dashboard/approve/r"), Some(900),
                     Some(DOMAIN))
  }

  lemma AskingIsOutstanding()
    ensures P.Outstanding(Mismatched(), SETUP) == P.Write(Asking())
  {
    hide Hex;
    assert SETUP.dashboardUrl + "/approve/" + ID == "https://dashboard/approve/r";
  }

  lemma AskingIsServed(s: Ledger)
    requires s.escalations == map[]
    ensures ReplyTo(Route(s, Asking(), 1, SETUP.keccak)) == Sent(201)
    ensures Core(Handle(s, Asking(), 1, SETUP.keccak)) == Core(s).(escalations := map[ID := ASKED])
  {
    hide Hex;
  }

  lemma AsksForEscalation(w: World)
    requires w.clock == 1 && w.seen == {} && w.signatures == []
    requires w.handlers == map[0 := Climbed(ID, IntentOf(ID, BIG, 1), 1)]
    requires Core(w.ledger) == EMPTY.(policies := map[MANDATE_ID := PolicyRecord(MANDATE, 1)], order := [ID],
                                      intents := map[ID := IntentOf(ID, BIG, 1)])
    ensures Escalates(From(w, [P.Resume(0, Look(false)), P.Serve(0)], SETUP))
  {
    hide P.Next;
    hide P.Resumed;
    hide P.Answered;
    hide P.Outstanding;
    hide Route;
    hide Handle;
    hide Asking;
    hide Hex;
    hide IntentOf;
    FromTwo(w, P.Resume(0, Look(false)), P.Serve(0), SETUP);
    hide From;
    Mismatches();
    Resumes(w, 0, Look(false), SETUP);
    hide Climbed;
    assert w.ledger.escalations == Core(w.ledger).escalations;
    AskingIsOutstanding();
    AskingIsServed(w.ledger);
    WriteServed(With(w, 0, Mismatched()), 0, Mismatched(), Asking(), SETUP);
    WithTwice(w, 0, Mismatched(), Escalating());
    var s := Handle(w.ledger, Asking(), 1, SETUP.keccak);
    assert s.escalations == Core(s).escalations && s.intents == Core(s).intents && s.policies == Core(s).policies;
  }

  lemma OwnerSigned()
    ensures VerifyEscalationSignature(SETUP.verifyMessage, ID, MANDATE_ID, Approve, SIGNATURE, OWNER)
    ensures OWNER != "" && SIGNATURE != ""
  {
    hide BuildEscalationMessage;
  }

  /** The approval, at one of its reads. */
  function Approving(point: P.Point): Handler {
    Plain(ApprovalOf(ID), point, None)
  }

  lemma EscalationTurn(w: World)
    requires Escalates(w.(handlers := map[0 := Escalating()])) && 1 in w.handlers
    requires w.handlers[1] == Approving(P.AwaitEscalationRead)
    ensures From(w, Turn(1, Look(true)), SETUP) == With(w, 1, Approving(P.AwaitOwnerPolicy(ASKED)))
  {
    hide From;
    hide Turn;
    hide Hex;
    hide Escalating;
    hide IntentOf;
    ReadTurn(w, 1, Approving(P.AwaitEscalationRead), P.EscalationRead(Some(ASKED)),
             Approving(P.AwaitOwnerPolicy(ASKED)), Look(true), SETUP);
  }

  lemma OwnerTurn(w: World)
    requires Escalates(w.(handlers := map[0 := Escalating()])) && 1 in w.handlers
    requires w.handlers[1] == Approving(P.AwaitOwnerPolicy(ASKED))
    ensures From(w, Turn(1, Look(true)), SETUP) == With(w, 1, Approving(P.AwaitVerification(ASKED, MANDATE)))
  {
    hide From;
    hide Turn;
    hide Hex;
    hide Lower;
    hide Escalating;
    hide IntentOf;
    OwnerSigned();
    ReadTurn(w, 1, Approving(P.AwaitOwnerPolicy(ASKED)), P.PolicyRead(Some(w.ledger.policies[MANDATE_ID])),
             Approving(P.AwaitVerification(ASKED, MANDATE)), Look(true), SETUP);
  }

  lemma VerificationPasses()
    ensures P.Answered(Approving(P.AwaitVerification(ASKED, MANDATE)))
    ensures P.Resumed(Approving(P.AwaitVerification(ASKED, MANDATE)), Look(true), 1, SETUP)
            == Approving(P.AwaitStoredIntent(ASKED, MANDATE))
  {
    hide VerifyEscalationSignature;
    hide Hex;
    OwnerSigned();
  }

  function Approved(): Handler {
    JobAt(ApprovalOf(ID), P.AwaitReservation(Some(ASKED)), None, JobOf(BIG, 0), P.NotCalled)
  }

  lemma StoredTurn(w: World)
    requires Escalates(w.(handlers := map[0 := Escalating()])) && 1 in w.handlers
    requires w.handlers[1] == Approving(P.AwaitStoredIntent(ASKED, MANDATE))
    ensures From(w, Turn(1, Look(true)), SETUP) == With(w, 1, Approved())
  {
    hide From;
    hide Turn;
    hide Hex;
    hide Escalating;
    hide BuildCommitmentNonce;
    hide HashPolicy;
    hide P.Blank;
    Commitment(ID);
    DomainIsGiven();
    ReadTurn(w, 1, Approving(P.AwaitStoredIntent(ASKED, MANDATE)), P.IntentRead(Some(IntentOf(ID, BIG, 1))), Approved(),
             Look(true), SETUP);
  }

  /** From the owner's call to its reservation. */
  const APPROVES: seq<P.Step> :=
    [P.Spawn(1, ApprovalOf(ID))] + Turn(1, Look(true)) + Turn(1, Look(true)) + [P.Resume(1, Look(true))] + Turn(1, Look(true))

  lemma ApprovalClimbs(w: World)
    requires Escalates(w)
    ensures From(w, APPROVES, SETUP) == With(w, 1, Approved())
  {
    hide P.Next;
    hide P.Resumed;
    hide P.Answered;
    hide Turn;
    hide Approved;
    hide IntentOf;
    hide Hex;
    var look := Look(true);
    FourParts(w, [P.Spawn(1, ApprovalOf(ID))], Turn(1, look), Turn(1, look), [P.Resume(1, look)], Turn(1, look), SETUP);
    var h1 := Approving(P.AwaitEscalationRead);
    var h2 := Approving(P.AwaitOwnerPolicy(ASKED));
    var h3 := Approving(P.AwaitVerification(ASKED, MANDATE));
    var h4 := Approving(P.AwaitStoredIntent(ASKED, MANDATE));
    FromOne(w, P.Spawn(1, ApprovalOf(ID)), SETUP);
    FromOne(With(w, 1, h3), P.Resume(1, look), SETUP);
    hide From;
    Spawns(w, 1, ApprovalOf(ID), SETUP);
    assert P.Start(ApprovalOf(ID)) == h1;
    assert w.(handlers := map[0 := Escalating()]) == w;
    EscalationTurn(With(w, 1, h1));
    WithTwice(w, 1, h1, h2);
    OwnerTurn(With(w, 1, h2));
    WithTwice(w, 1, h2, h3);
    VerificationPasses();
    Resumes(With(w, 1, h3), 1, look, SETUP);
    WithTwice(w, 1, h3, h4);
    StoredTurn(With(w, 1, h4));
    WithTwice(w, 1, h4, Approved());
  }

  /** The run emits one signature, on the owner's approval, for more than the mandate lets one card cost. */
  lemma ApprovalBeyondTheCeiling()
    ensures var w := P.Run(1, APPROVAL, SETUP);
            && w.signatures == [P.Signature(1, ID, Authorisation(BIG, 0))]
            && 1 in w.handlers && w.handlers[1].call == ApprovalOf(ID)
            && w.handlers[1].job.Some? && w.handlers[1].job.value.mandate == MANDATE
    ensures Authorisation(BIG, 0).value > Ceiling(MANDATE) && Authorisation(BIG, 0).value > MANDATE.maxPerWindow
  {
    hide P.Next;
    hide From;
    hide ESCALATION;
    hide APPROVES;
    hide Sign;
    hide Hex;
    hide Admit;
    hide Handle;
    hide IntentOf;
    RunIsFrom(1, APPROVAL, SETUP);
    FromAppend(P.Begin(1), ESCALATION + APPROVES, Sign(1, Look(true)), SETUP);
    FromAppend(P.Begin(1), ESCALATION, APPROVES, SETUP);
    PaymentEscalates();
    var w := From(P.Begin(1), ESCALATION, SETUP);
    ApprovalClimbs(w);
    SignerAgrees(ID, BIG, 0, w.seen);
    BigIsOpen();
    SignsFor(With(w, 1, Approved()), 1, ApprovalOf(ID), Some(ASKED), JobOf(BIG, 0), Authorisation(BIG, 0), Look(true), SETUP);
  }

  lemma BigIsOpen()
    ensures IntentOf(ID, BIG, 1).nonce.None?
  {
  }
}
