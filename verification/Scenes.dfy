/**
 * Runs of the signing protocol step by step: what each step makes of the world, and the stretches of
 * steps that concrete runs are put together from.
 */
module Scenes {
  import opened Wrappers
  import opened Text
  import opened Mandates
  import opened LedgerStore
  import opened PolicyChecks
  import opened SignerService
  import opened SigningInvariant
  import P = SigningProtocol

  // ---- Runs from any world ------------------------------------------------------------------------

  function From(w: World, steps: seq<P.Step>, setup: P.Setup): World
    decreases |steps|
  {
    if steps == [] then w else P.Next(From(w, steps[..|steps| - 1], setup), steps[|steps| - 1], setup)
  }

  lemma {:induction false} RunIsFrom(clock: Time, steps: seq<P.Step>, setup: P.Setup)
    ensures P.Run(clock, steps, setup) == From(P.Begin(clock), steps, setup)
  {
    hide P.Next;
    if steps != [] {
      RunIsFrom(clock, steps[..|steps| - 1], setup);
    }
  }

  lemma {:induction false} FromAppend(w: World, steps: seq<P.Step>, more: seq<P.Step>, setup: P.Setup)
    ensures From(w, steps + more, setup) == From(From(w, steps, setup), more, setup)
  {
    hide P.Next;
    if more == [] {
      assert steps + more == steps;
    } else {
      FromAppend(w, steps, more[..|more| - 1], setup);
      assert (steps + more)[..|steps + more| - 1] == steps + more[..|more| - 1];
    }
  }

  lemma FromOne(w: World, step: P.Step, setup: P.Setup)
    ensures From(w, [step], setup) == P.Next(w, step, setup)
  {
    hide P.Next;
    assert [step][..0] == [];
    assert From(w, [], setup) == w;
  }

  lemma FromTwo(w: World, a: P.Step, b: P.Step, setup: P.Setup)
    ensures From(w, [a, b], setup) == P.Next(P.Next(w, a, setup), b, setup)
  {
    hide P.Next;
    FromAppend(w, [a], [b], setup);
    FromOne(w, a, setup);
    FromOne(P.Next(w, a, setup), b, setup);
    assert [a] + [b] == [a, b];
  }

  // ---- One step ---------------------------------------------------------------------------------------

  function With(w: World, a: nat, h: Handler): World {
    w.(handlers := w.handlers[a := h])
  }

  lemma WithTwice(w: World, a: nat, g: Handler, h: Handler)
    ensures With(With(w, a, g), a, h) == With(w, a, h)
  {
    assert w.handlers[a := g][a := h] == w.handlers[a := h];
  }

  lemma Spawns(w: World, a: nat, call: P.Call, setup: P.Setup)
    requires a !in w.handlers
    ensures P.Next(w, P.Spawn(a, call), setup) == With(w, a, P.Start(call))
  {
    hide P.Start;
  }

  lemma Serves(w: World, a: nat, setup: P.Setup)
    requires a in w.handlers && P.Unserved(w.handlers[a], setup)
    ensures P.Next(w, P.Serve(a), setup) == P.Served(w, a, setup)
  {
    hide P.Served;
    hide P.Unserved;
  }

  lemma Resumes(w: World, a: nat, env: P.Env, setup: P.Setup)
    requires a in w.handlers && P.Answered(w.handlers[a])
    ensures P.Next(w, P.Resume(a, env), setup) == With(w, a, P.Resumed(w.handlers[a], env, w.clock, setup))
  {
    hide P.Resumed;
    hide P.Answered;
  }

  lemma Aborts(w: World, a: nat, setup: P.Setup)
    requires a in w.handlers
    ensures P.Next(w, P.Abort(a), setup) == With(w, a, w.handlers[a].(live := false))
  {
  }

  lemma Admits(w: World, a: nat, setup: P.Setup)
    requires a in w.handlers && w.handlers[a].signer.Arrived?
    ensures P.Next(w, P.SignerAdmits(a), setup) == With(w, a, P.Admitted(w.handlers[a], setup.config, w.seen))
  {
    hide P.Admitted;
  }

  lemma KeySigns(w: World, a: nat, setup: P.Setup)
    requires a in w.handlers && w.handlers[a].signer.AtKey?
    ensures P.Next(w, P.KeyAnswers(a, true), setup) == P.Signs(w, a)
  {
    hide P.Signs;
  }

  lemma Asks(w: World, q: Request, setup: P.Setup)
    requires !P.PolicyOnly(q)
    ensures P.Next(w, P.Outside(q), setup) == w.(ledger := Handle(w.ledger, q, w.clock, setup.keccak))
  {
    hide Handle;
  }

  // ---- A call to the ledger and its answer ------------------------------------------------------------

  function Turn(a: nat, env: P.Env): seq<P.Step> {
    [P.Serve(a), P.Resume(a, env)]
  }

  /** A handler reads from the ledger and goes on. */
  lemma ReadTurn(w: World, a: nat, h: Handler, answer: P.Answer, next: Handler, env: P.Env, setup: P.Setup)
    requires a in w.handlers && w.handlers[a] == h && h.answer.None? && !P.Outstanding(h, setup).Write?
    requires P.AnswerTo(w.ledger, P.Outstanding(h, setup), w.clock, setup.keccak) == Some(answer)
    requires P.Answered(h.(answer := Some(answer))) && P.Resumed(h.(answer := Some(answer)), env, w.clock, setup) == next
    ensures From(w, Turn(a, env), setup) == With(w, a, next)
  {
    hide P.Next;
    hide P.Resumed;
    hide P.Answered;
    hide P.Outstanding;
    FromTwo(w, P.Serve(a), P.Resume(a, env), setup);
    hide From;
    NoCallIsNotAnswered(w.ledger, P.Outstanding(h, setup), w.clock, setup.keccak);
    hide P.AnswerTo;
    var told := With(w, a, h.(answer := Some(answer)));
    Serves(w, a, setup);
    assert P.Served(w, a, setup) == told;
    Resumes(told, a, env, setup);
    WithTwice(w, a, h.(answer := Some(answer)), next);
  }

  lemma NoCallIsNotAnswered(s: Ledger, c: P.LedgerCall, now: Time, keccak: Keccak)
    ensures P.AnswerTo(s, c, now, keccak).Some? ==> !c.NoCall?
  {
    hide Window;
    hide StandingApprovalActive;
    hide Route;
  }

  /** A handler writes to the ledger. */
  lemma WriteServed(w: World, a: nat, h: Handler, q: Request, setup: P.Setup)
    requires a in w.handlers && w.handlers[a] == h && h.answer.None? && P.Outstanding(h, setup) == P.Write(q)
    ensures var s := Handle(w.ledger, q, w.clock, setup.keccak);
            var reply := ReplyTo(Route(w.ledger, q, w.clock, setup.keccak));
            P.Next(w, P.Serve(a), setup) == With(w, a, h.(answer := Some(P.Written(reply)))).(ledger := s)
  {
    hide P.Next;
    hide P.Outstanding;
    hide Handle;
    hide Route;
    Serves(w, a, setup);
  }

  /** A handler writes to the ledger and goes on. */
  lemma WriteTurn(w: World, a: nat, h: Handler, q: Request, next: Handler, env: P.Env, setup: P.Setup)
    requires a in w.handlers && w.handlers[a] == h && h.answer.None? && P.Outstanding(h, setup) == P.Write(q)
    requires var answered := h.(answer := Some(P.Written(ReplyTo(Route(w.ledger, q, w.clock, setup.keccak)))));
             P.Answered(answered) && P.Resumed(answered, env, w.clock, setup) == next
    ensures From(w, Turn(a, env), setup) == With(w, a, next).(ledger := Handle(w.ledger, q, w.clock, setup.keccak))
  {
    hide P.Next;
    hide P.Resumed;
    hide P.Answered;
    hide P.Outstanding;
    hide Handle;
    hide Route;
    FromTwo(w, P.Serve(a), P.Resume(a, env), setup);
    hide From;
    WriteServed(w, a, h, q, setup);
    var answered := h.(answer := Some(P.Written(ReplyTo(Route(w.ledger, q, w.clock, setup.keccak)))));
    var told := With(w, a, answered).(ledger := Handle(w.ledger, q, w.clock, setup.keccak));
    Resumes(told, a, env, setup);
    WithTwice(w, a, answered, next);
  }

  // ---- A payment up to the check of its item ----------------------------------------------------------

  /** A handler that has committed to nothing yet. */
  function Plain(call: P.Call, point: P.Point, answer: Option<P.Answer>): Handler {
    P.Handler(call, point, answer, None, P.NotCalled, true)
  }

  /** Five reads, the last of which it has not gone on from. */
  function Climb(a: nat, env: P.Env): seq<P.Step> {
    Turn(a, env) + Turn(a, env) + Turn(a, env) + [P.Resume(a, env)] + [P.Serve(a)]
  }

  lemma IntentTurn(w: World, a: nat, call: P.Call, env: P.Env, setup: P.Setup)
    requires a in w.handlers && w.handlers[a] == Plain(call, P.AwaitIntent, None) && call.Payment?
    requires call.requestId in w.ledger.intents && !P.Blank(call.domain)
    ensures From(w, Turn(a, env), setup)
            == With(w, a, Plain(call, P.AwaitPolicy(w.ledger.intents[call.requestId]), None))
  {
    hide From;
    hide P.Blank;
    var i := w.ledger.intents[call.requestId];
    ReadTurn(w, a, Plain(call, P.AwaitIntent, None), P.IntentRead(Some(i)), Plain(call, P.AwaitPolicy(i), None),
             env, setup);
  }

  lemma PolicyTurn(w: World, a: nat, call: P.Call, i: Intent, env: P.Env, setup: P.Setup)
    requires a in w.handlers && w.handlers[a] == Plain(call, P.AwaitPolicy(i), None) && call.Payment?
    requires call.mandateId in w.ledger.policies
    ensures From(w, Turn(a, env), setup)
            == With(w, a, Plain(call, P.AwaitWindow(i, w.ledger.policies[call.mandateId].policy), None))
  {
    hide From;
    var record := w.ledger.policies[call.mandateId];
    ReadTurn(w, a, Plain(call, P.AwaitPolicy(i), None), P.PolicyRead(Some(record)),
             Plain(call, P.AwaitWindow(i, record.policy), None), env, setup);
  }

  lemma WindowTurn(w: World, a: nat, call: P.Call, i: Intent, m: Mandate, env: P.Env, setup: P.Setup)
    requires a in w.handlers && w.handlers[a] == Plain(call, P.AwaitWindow(i, m), None) && call.Payment?
    ensures From(w, Turn(a, env), setup)
            == With(w, a, Plain(call, P.AwaitRegistry(i, m, Window(w.ledger, call.mandateId,
                                                                       w.clock - m.windowSeconds * 1000)), None))
  {
    hide From;
    hide Window;
    var usage := Window(w.ledger, call.mandateId, w.clock - m.windowSeconds * 1000);
    ReadTurn(w, a, Plain(call, P.AwaitWindow(i, m), None), P.WindowRead(usage),
             Plain(call, P.AwaitRegistry(i, m, usage), None), env, setup);
  }

  lemma ChecksPassed(w: World, a: nat, call: P.Call, i: Intent, m: Mandate, usage: Usage, env: P.Env, setup: P.Setup)
    requires a in w.handlers && w.handlers[a] == Plain(call, P.AwaitRegistry(i, m, usage), None) && call.Payment?
    requires FirstFailure(P.Context(w.handlers[a], i, m, usage, env.registry, w.clock, setup)).None?
    ensures From(w, [P.Resume(a, env)], setup)
            == With(w, a, Plain(call, P.AwaitApprovalRead(i, m, w.clock / 1000), None))
  {
    hide P.Next;
    hide FirstFailure;
    FromOne(w, P.Resume(a, env), setup);
    hide From;
    Resumes(w, a, env, setup);
  }

  lemma ApprovalServed(w: World, a: nat, call: P.Call, i: Intent, m: Mandate, at: int, setup: P.Setup)
    requires a in w.handlers && w.handlers[a] == Plain(call, P.AwaitApprovalRead(i, m, at), None) && call.Payment?
    ensures From(w, [P.Serve(a)], setup)
            == With(w, a, Plain(call, P.AwaitApprovalRead(i, m, at), Some(P.ApprovalRead(
                 StandingApprovalActive(w.ledger, call.mandateId, call.domain, w.clock)))))
  {
    hide P.Next;
    hide StandingApprovalActive;
    FromOne(w, P.Serve(a), setup);
    hide From;
    Serves(w, a, setup);
  }

  /** A payment climbs to the check of its item: nothing but the handler itself changes. */
  lemma Climbs(w: World, a: nat, call: P.Call, i: Intent, m: Mandate, usage: Usage, env: P.Env, setup: P.Setup)
    requires a in w.handlers && w.handlers[a] == Plain(call, P.AwaitIntent, None) && call.Payment?
    requires call.requestId in w.ledger.intents && w.ledger.intents[call.requestId] == i && !P.Blank(call.domain)
    requires call.mandateId in w.ledger.policies && w.ledger.policies[call.mandateId].policy == m
    requires usage == Window(w.ledger, call.mandateId, w.clock - m.windowSeconds * 1000)
    requires FirstFailure(P.Context(Plain(call, P.AwaitRegistry(i, m, usage), None), i, m, usage, env.registry, w.clock,
                                    setup)).None?
    ensures From(w, Climb(a, env), setup)
            == With(w, a, Plain(call, P.AwaitApprovalRead(i, m, w.clock / 1000), Some(P.ApprovalRead(
                 StandingApprovalActive(w.ledger, call.mandateId, call.domain, w.clock)))))
  {
    hide From;
    hide Turn;
    hide P.Blank;
    hide FirstFailure;
    hide P.Context;
    hide Window;
    hide StandingApprovalActive;
    FourParts(w, Turn(a, env), Turn(a, env), Turn(a, env), [P.Resume(a, env)], [P.Serve(a)], setup);
    var h0 := Plain(call, P.AwaitIntent, None);
    var h1 := Plain(call, P.AwaitPolicy(i), None);
    var h2 := Plain(call, P.AwaitWindow(i, m), None);
    var h3 := Plain(call, P.AwaitRegistry(i, m, usage), None);
    var h4 := Plain(call, P.AwaitApprovalRead(i, m, w.clock / 1000), None);
    IntentTurn(w, a, call, env, setup);
    PolicyTurn(With(w, a, h1), a, call, i, env, setup);
    WithTwice(w, a, h1, h2);
    WindowTurn(With(w, a, h2), a, call, i, m, env, setup);
    WithTwice(w, a, h2, h3);
    ChecksPassed(With(w, a, h3), a, call, i, m, usage, env, setup);
    WithTwice(w, a, h3, h4);
    ApprovalServed(With(w, a, h4), a, call, i, m, w.clock / 1000, setup);
    WithTwice(w, a, h4, h4.(answer := Some(P.ApprovalRead(
      StandingApprovalActive(w.ledger, call.mandateId, call.domain, w.clock)))));
  }

  lemma FourParts(w: World, a: seq<P.Step>, b: seq<P.Step>, c: seq<P.Step>, d: seq<P.Step>, e: seq<P.Step>, setup: P.Setup)
    ensures From(w, a + b + c + d + e, setup)
            == From(From(From(From(From(w, a, setup), b, setup), c, setup), d, setup), e, setup)
  {
    FromAppend(w, a, b, setup);
    FromAppend(w, a + b, c, setup);
    FromAppend(w, a + b + c, d, setup);
    FromAppend(w, a + b + c + d, e, setup);
    hide From;
  }

  // ---- From the commitment to the signature ------------------------------------------------------------

  function JobAt(call: P.Call, point: P.Point, answer: Option<P.Answer>, job: P.Job, signer: P.SignerCall): Handler {
    P.Handler(call, point, answer, Some(job), signer, true)
  }

  /** What a payment commits to when its item matches. */
  function PaymentJob(call: P.Call, i: Intent, m: Mandate, at: int, nonce: string, setup: P.Setup): P.Job
    requires call.Payment?
  {
    P.Job(m, call.mandateId, call.challenge, call.requestedAmount, at, HashPolicy(setup.keccak, m), i.instructionHash,
          call.domain, nonce)
  }

  lemma Commits(w: World, a: nat, call: P.Call, i: Intent, m: Mandate, at: int, active: bool, nonce: string, env: P.Env,
                setup: P.Setup)
    requires a in w.handlers && call.Payment?
    requires w.handlers[a] == Plain(call, P.AwaitApprovalRead(i, m, at), Some(P.ApprovalRead(active)))
    requires Check9IntentMatch(m, call.domain, active, env.matches).None?
    requires BuildCommitmentNonce(setup.keccak, call.requestId, HashPolicy(setup.keccak, m), i.instructionHash, call.domain)
             == Ok(nonce)
    ensures From(w, [P.Resume(a, env)], setup)
            == With(w, a, JobAt(call, P.AwaitReservation(None), None, PaymentJob(call, i, m, at, nonce, setup), P.NotCalled))
  {
    hide P.Next;
    hide Check9IntentMatch;
    hide BuildCommitmentNonce;
    hide HashPolicy;
    FromOne(w, P.Resume(a, env), setup);
    hide From;
    Resumes(w, a, env, setup);
  }

  function Sign(a: nat, env: P.Env): seq<P.Step> {
    Turn(a, env) + [P.SignerAdmits(a), P.KeyAnswers(a, true)]
  }

  lemma Reserves(w: World, a: nat, call: P.Call, approved: Option<Escalation>, job: P.Job, env: P.Env, setup: P.Setup)
    requires a in w.handlers && w.handlers[a] == JobAt(call, P.AwaitReservation(approved), None, job, P.NotCalled)
    requires call.requestId in w.ledger.intents && w.ledger.intents[call.requestId].nonce.None? && job.nonce != ""
    ensures From(w, Turn(a, env), setup)
            == With(w, a, JobAt(call, P.AwaitSigner(approved), None, job, P.Arrived(P.JobRequest(call.requestId, job, setup))))
               .(ledger := Handle(w.ledger, ReserveNonce(call.requestId, Some(job.nonce)), w.clock, setup.keccak))
  {
    hide From;
    hide P.JobRequest;
    hide Apply;
    WriteTurn(w, a, w.handlers[a], ReserveNonce(call.requestId, Some(job.nonce)),
              JobAt(call, P.AwaitSigner(approved), None, job, P.Arrived(P.JobRequest(call.requestId, job, setup))), env,
              setup);
  }

  /** A handler reserves the nonce, and the signer admits its request and signs. */
  lemma SignsFor(w: World, a: nat, call: P.Call, approved: Option<Escalation>, job: P.Job, typed: TypedData, env: P.Env,
                 setup: P.Setup)
    requires a in w.handlers && w.handlers[a] == JobAt(call, P.AwaitReservation(approved), None, job, P.NotCalled)
    requires call.requestId in w.ledger.intents && w.ledger.intents[call.requestId].nonce.None? && job.nonce != ""
    requires Admit(P.JobRequest(call.requestId, job, setup), setup.config, w.seen) == Result<TypedData>.Ok(typed)
    ensures From(w, Sign(a, env), setup) == SignedWorld(w, a, call, approved, job, typed, setup)
  {
    hide P.Next;
    hide Admit;
    hide Handle;
    hide Turn;
    var q := P.JobRequest(call.requestId, job, setup);
    assert q.requestId == call.requestId;
    hide P.JobRequest;
    FromAppend(w, Turn(a, env), [P.SignerAdmits(a), P.KeyAnswers(a, true)], setup);
    Reserves(w, a, call, approved, job, env, setup);
    var h1 := JobAt(call, P.AwaitSigner(approved), None, job, P.Arrived(q));
    var w1 := With(w, a, h1).(ledger := Handle(w.ledger, ReserveNonce(call.requestId, Some(job.nonce)), w.clock,
                                               setup.keccak));
    FromTwo(w1, P.SignerAdmits(a), P.KeyAnswers(a, true), setup);
    hide From;
    Admits(w1, a, setup);
    var h2 := h1.(signer := P.AtKey(q, typed));
    WithTwice(w1, a, h1, h2);
    KeySigns(With(w1, a, h2), a, setup);
    assert w.handlers[a := h1][a := h2][a := h2.(signer := P.SignedBy(typed))]
           == w.handlers[a := h2.(signer := P.SignedBy(typed))];
  }

  function SignedWorld(w: World, a: nat, call: P.Call, approved: Option<Escalation>, job: P.Job, typed: TypedData,
                       setup: P.Setup): World
  {
    P.World(w.clock, Handle(w.ledger, ReserveNonce(call.requestId, Some(job.nonce)), w.clock, setup.keccak),
            w.handlers[a := JobAt(call, P.AwaitSigner(approved), None, job, P.SignedBy(typed))],
            w.seen + {call.requestId}, w.signatures + [P.Signature(a, call.requestId, typed)])
  }

  /** The steps after a payment's signature, up to its record. */
  function Record(a: nat, env: P.Env): seq<P.Step> {
    [P.Resume(a, env), P.Serve(a)]
  }

  lemma Records(w: World, a: nat, call: P.Call, job: P.Job, typed: TypedData, env: P.Env, setup: P.Setup)
    requires a in w.handlers && w.handlers[a] == JobAt(call, P.AwaitSigner(None), None, job, P.SignedBy(typed))
    requires call.requestId in w.ledger.intents && call.requestId != ""
    ensures From(w, Record(a, env), setup)
            == With(w, a, JobAt(call, P.AwaitSignedRecord(None, w.clock), Some(P.Written(Sent(200))), job, P.SignedBy(typed)))
               .(ledger := Handle(w.ledger, P.SignedDecision(call.requestId, job, w.clock), w.clock, setup.keccak))
  {
    hide P.Next;
    hide Apply;
    hide Validity;
    FromTwo(w, P.Resume(a, env), P.Serve(a), setup);
    hide From;
    Resumes(w, a, env, setup);
    var h1 := JobAt(call, P.AwaitSignedRecord(None, w.clock), None, job, P.SignedBy(typed));
    assert P.Resumed(w.handlers[a], env, w.clock, setup) == h1;
    hide P.Resumed;
    WriteServed(With(w, a, h1), a, h1, P.SignedDecision(call.requestId, job, w.clock), setup);
    WithTwice(w, a, h1, h1.(answer := Some(P.Written(Sent(200)))));
  }
}
