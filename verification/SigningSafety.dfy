/**
 * What follows for whole runs of the signing protocol: a request is signed at most once, and what
 * a receipt shows is, and stays, what was signed.
 */
module SigningSafety {
  import opened Wrappers
  import opened Text
  import opened Mandates
  import opened LedgerStore
  import opened LedgerInvariants
  import opened PolicyChecks
  import opened SignerService
  import P = SigningProtocol
  import opened SigningInvariant

  /** In every interleaving, a request id is signed at most once. */
  lemma SignedAtMostOnce(clock: Time, steps: seq<P.Step>, setup: P.Setup)
    ensures var signatures := P.Run(clock, steps, setup).signatures;
            forall j, k :: 0 <= j < k < |signatures| ==> signatures[j].requestId != signatures[k].requestId
  {
    RunIsSafe(clock, steps, setup);
    var w := P.Run(clock, steps, setup);
    hide P.Run;
    hide Sound;
    forall j, k | 0 <= j < k < |w.signatures|
      ensures w.signatures[j].requestId != w.signatures[k].requestId
    {
      assert Emitted(w.signatures[j], w.handlers) && Emitted(w.signatures[k], w.handlers);
    }
  }

  /** No two handlers ever report the same request as signed. */
  lemma OneSignedReply(clock: Time, steps: seq<P.Step>, setup: P.Setup, a: nat, b: nat)
    ensures var handlers := P.Run(clock, steps, setup).handlers;
            (a in handlers && b in handlers && handlers[a].call.requestId == handlers[b].call.requestId
             && ReportsSigned(handlers[a]) && ReportsSigned(handlers[b])) ==> a == b
  {
    RunIsSafe(clock, steps, setup);
    var w := P.Run(clock, steps, setup);
    hide P.Run;
    hide Safe;
    if a in w.handlers && b in w.handlers && w.handlers[a].call.requestId == w.handlers[b].call.requestId
       && ReportsSigned(w.handlers[a]) && ReportsSigned(w.handlers[b]) {
      OneReporter(w, a, b, setup);
    }
  }

  lemma OneReporter(w: World, a: nat, b: nat, setup: P.Setup)
    requires Safe(w, setup) && a in w.handlers && b in w.handlers
    requires w.handlers[a].call.requestId == w.handlers[b].call.requestId
    requires ReportsSigned(w.handlers[a]) && ReportsSigned(w.handlers[b])
    ensures a == b
  {
    ReporterSigned(w, a, setup);
    ReporterSigned(w, b, setup);
    hide Sound;
    assert Holds(w.handlers[a]) && Holds(w.handlers[b]);
  }

  /** What a handler reports as signed is a signature that was emitted for it. */
  lemma ReporterSigned(w: World, a: nat, setup: P.Setup)
    requires Safe(w, setup) && a in w.handlers && ReportsSigned(w.handlers[a])
    ensures var h := w.handlers[a];
            && h.signer == P.SignedBy(h.point.reply.header)
            && P.Signature(a, h.call.requestId, h.point.reply.header) in w.signatures
  {
    hide Sound;
    hide RecordsBacked;
    hide Exclusive;
    hide ReadsKnown;
    hide JobSound;
    hide SignerSound;
    hide Reserves;
    assert HandlerSound(w.handlers[a], w.ledger, setup) && Logged(w.handlers[a], a, w.signatures);
    hide Safe;
  }

  predicate ReportsSigned(h: Handler) {
    h.point.Finished? && h.point.reply.SignedReply?
  }

  /**
   * A receipt shows the hash of its own instruction, the nonce that commits to its own fields, word
   * by word, and the authorisation that was signed.
   */
  ghost predicate Verifies(r: Receipt, id: string, keccak: Keccak, signatures: seq<P.Signature>) {
    && r.requestId == id && r.policyHash.Some? && r.merchantDomain.Some? && r.nonce.Some?
    && r.intentHash == keccak(Utf8(r.intent))
    && CommitsTo(r.nonce.value, keccak, id, r.policyHash.value, r.intentHash, r.merchantDomain.value)
    && exists g :: g in signatures && Shown(r, g)
  }

  predicate Shown(r: Receipt, g: P.Signature) {
    && g.requestId == r.requestId && r.nonce.Some? && g.typed.nonce == Lower(r.nonce.value)
    && r.validAfter == Some(g.typed.validAfter) && r.validBefore == Some(g.typed.validBefore)
  }

  /** In every reachable state, a receipt with a policy hash can be recomputed and was signed. */
  lemma ReceiptsVerify(clock: Time, steps: seq<P.Step>, setup: P.Setup, id: string)
    ensures var w := P.Run(clock, steps, setup);
            id in w.ledger.intents && w.ledger.intents[id].policyHash.Some? ==>
              && Verifies(ReceiptOf(w.ledger.intents[id]), id, setup.keccak, w.signatures)
              && ReceiptOf(w.ledger.intents[id]).mandateId == w.ledger.intents[id].mandateId
              && ReceiptOf(w.ledger.intents[id]).decision == w.ledger.intents[id].decision
              && ReceiptOf(w.ledger.intents[id]).decidedAt == w.ledger.intents[id].decidedAt
  {
    RunIsSafe(clock, steps, setup);
    var w := P.Run(clock, steps, setup);
    hide P.Run;
    if id in w.ledger.intents && w.ledger.intents[id].policyHash.Some? {
      var i := w.ledger.intents[id];
      assert Backed(w.handlers, i, id);
      var a :| a in w.handlers && Backs(w.handlers[a], i, id);
      BackedReceipt(w, a, id, setup);
    }
  }

  lemma BackedReceipt(w: World, a: nat, id: string, setup: P.Setup)
    requires Safe(w, setup) && a in w.handlers && id in w.ledger.intents
    requires Backs(w.handlers[a], w.ledger.intents[id], id)
    ensures Verifies(ReceiptOf(w.ledger.intents[id]), id, setup.keccak, w.signatures)
  {
    hide Sound;
    hide RecordsBacked;
    hide Exclusive;
    hide InStep;
    hide ReadsKnown;
    hide BuildCommitmentNonce;
    hide SignerSound;
    hide Validity;
    hide Lower;
    var h, r := w.handlers[a], ReceiptOf(w.ledger.intents[id]);
    assert HandlerSound(h, w.ledger, setup) && Logged(h, a, w.signatures);
    Keyed(w.ledger, id, setup.keccak);
    InstructionHashed(w.ledger, id, setup.keccak);
    hide Safe;
    SignedFields(h, setup);
    NonceIsTheHashOfItsWords(setup.keccak, id, h.job.value.policyHash, h.job.value.intentHash, h.job.value.domain);
    hide CommitsTo;
    assert Shown(r, P.Signature(a, id, h.signer.typed));
  }

  lemma InstructionHashed(s: Ledger, id: string, keccak: Keccak)
    requires Sound(s, keccak) && id in s.intents
    ensures s.intents[id].instructionHash == keccak(Utf8(s.intents[id].instruction))
  {
    assert RecordSound(s.intents[id], id, LastEntry(s.log, id), Reserved(s.events, id), keccak);
  }

  lemma SignedFields(h: Handler, setup: P.Setup)
    requires SignerSound(h, setup) && h.job.Some? && h.signer.SignedBy?
    ensures var typed, job := h.signer.typed, h.job.value;
            && typed.nonce == Lower(job.nonce) && typed.validAfter == job.now - 5
            && typed.validBefore == job.now - 5 + Validity(job.mandate, job.challenge)
            && typed.value == job.amount && typed.to == Lower(job.mandate.settlementRecipient)
  {
    AdmittedAsParsed(P.JobRequest(h.call.requestId, h.job.value, setup), h.signer.typed, setup.config);
    hide Authorised;
  }

  lemma AdmittedAsParsed(q: SignRequest, typed: TypedData, config: Config)
    requires Authorised(q, typed, config)
    ensures ParseSignBody(q).Ok? && typed == ParseSignBody(q).value.typedData
  {
    var seen: set<string> :| Admit(q, config, seen) == Result<TypedData>.Ok(typed);
    hide CheckRail;
    hide ParseSignBody;
  }

  // ---- Receipts stay ---------------------------------------------------------------------------

  predicate HasReceipt(s: Ledger, id: string) {
    id in s.intents && s.intents[id].policyHash.Some?
  }

  /** Handlers keep their jobs and signatures, receipts do not vanish, and signatures accumulate. */
  ghost predicate Later(w: World, after: World) {
    && (forall a :: a in w.handlers ==> a in after.handlers && Continues(w.handlers[a], after.handlers[a]))
    && (forall id :: HasReceipt(w.ledger, id) ==> HasReceipt(after.ledger, id))
    && w.signatures <= after.signatures
  }

  lemma WriteKeepsReceipt(h: Handler, w: World, q: Request, id: string, setup: P.Setup)
    requires Safe(w, setup) && HasReceipt(w.ledger, id)
    requires SignsRecord(q, id) ==> InStep(h) && h.point.AwaitSignedRecord? && P.Outstanding(h, setup) == P.Write(q)
    ensures HasReceipt(Handle(w.ledger, q, w.clock, setup.keccak), id)
  {
    if SignsRecord(q, id) {
      OwnWrites(h, setup, id);
      SignedWriteBacks(h, w.ledger, w.clock, setup);
    } else {
      WriteMoves(w.ledger, q, w.clock, setup.keccak, id);
    }
    hide Handle;
    hide Safe;
    hide P.Outstanding;
  }

  lemma ServeIsLater(w: World, id: nat, setup: P.Setup)
    requires Safe(w, setup) && id in w.handlers && P.Unserved(w.handlers[id], setup)
    ensures Later(w, P.Served(w, id, setup))
  {
    var h := w.handlers[id];
    assert HandlerSound(h, w.ledger, setup);
    if P.Outstanding(h, setup).Write? {
      var q := P.Outstanding(h, setup).request;
      forall r | HasReceipt(w.ledger, r)
        ensures HasReceipt(Handle(w.ledger, q, w.clock, setup.keccak), r)
      {
        OwnWrites(h, setup, r);
        WriteKeepsReceipt(h, w, q, r, setup);
      }
    }
    hide P.Outstanding;
    hide Handle;
    hide Safe;
    hide HandlerSound;
    hide P.AnswerTo;
  }

  lemma ReplaceIsLater(w: World, after: World, id: nat, next: Handler)
    requires id in w.handlers ==> Continues(w.handlers[id], next)
    requires after.handlers == w.handlers[id := next] && after.ledger == w.ledger && w.signatures <= after.signatures
    ensures Later(w, after)
  {
  }

  lemma ResumeIsLater(w: World, id: nat, env: P.Env, setup: P.Setup)
    requires Safe(w, setup) && id in w.handlers && P.Answered(w.handlers[id])
    ensures Later(w, w.(handlers := w.handlers[id := P.Resumed(w.handlers[id], env, w.clock, setup)]))
  {
    var h := w.handlers[id];
    assert HandlerSound(h, w.ledger, setup);
    hide Safe;
    hide HandlerSound;
    hide P.Resumed;
    hide P.Answered;
    hide Later;
    ResumeMovesOn(h, w.ledger, env, w.clock, setup);
    var next := P.Resumed(h, env, w.clock, setup);
    ReplaceIsLater(w, w.(handlers := w.handlers[id := next]), id, next);
  }

  lemma AbortIsLater(w: World, id: nat)
    requires id in w.handlers
    ensures Later(w, w.(handlers := w.handlers[id := w.handlers[id].(live := false)]))
  {
    var next := w.handlers[id].(live := false);
    var after := w.(handlers := w.handlers[id := next]);
    hide Later;
    ReplaceIsLater(w, after, id, next);
  }

  lemma AdmissionIsLater(w: World, id: nat, setup: P.Setup)
    requires Safe(w, setup) && id in w.handlers && w.handlers[id].signer.Arrived?
    ensures Later(w, w.(handlers := w.handlers[id := P.Admitted(w.handlers[id], setup.config, w.seen)]))
  {
    var h := w.handlers[id];
    assert HandlerSound(h, w.ledger, setup);
    hide Safe;
    hide P.Admitted;
    hide HandlerSound;
    hide Later;
    AdmissionMovesOn(h, w.ledger, w.seen, setup);
    var next := P.Admitted(h, setup.config, w.seen);
    ReplaceIsLater(w, w.(handlers := w.handlers[id := next]), id, next);
  }

  lemma KeyIsLater(w: World, id: nat)
    requires id in w.handlers && w.handlers[id].signer.AtKey?
    ensures Later(w, P.Signs(w, id))
    ensures Later(w, w.(handlers := w.handlers[id := w.handlers[id].(signer := P.Rejected("SIGNER_UNAVAILABLE"))]))
  {
    var h := w.handlers[id];
    hide Later;
    ReplaceIsLater(w, P.Signs(w, id), id, h.(signer := P.SignedBy(h.signer.typed)));
    var next := h.(signer := P.Rejected("SIGNER_UNAVAILABLE"));
    ReplaceIsLater(w, w.(handlers := w.handlers[id := next]), id, next);
  }

  lemma NothingIsLater(w: World)
    ensures Later(w, w)
  {
  }

  lemma OutsideIsLater(w: World, q: Request, setup: P.Setup)
    requires Safe(w, setup) && !P.PolicyOnly(q)
    ensures Later(w, w.(ledger := Handle(w.ledger, q, w.clock, setup.keccak)))
  {
    hide Handle;
    assert Sound(w.ledger, setup.keccak);
    hide Safe;
    hide Sound;
    forall id | HasReceipt(w.ledger, id)
      ensures HasReceipt(Handle(w.ledger, q, w.clock, setup.keccak), id)
    {
      WriteMoves(w.ledger, q, w.clock, setup.keccak, id);
    }
  }

  lemma NextIsLater(w: World, step: P.Step, setup: P.Setup)
    requires Safe(w, setup)
    ensures Later(w, P.Next(w, step, setup))
  {
    NothingIsLater(w);
    hide Safe;
    hide Later;
    hide P.Unserved;
    hide P.Answered;
    hide P.Start;
    hide P.Served;
    hide P.Signs;
    hide P.Resumed;
    hide P.Admitted;
    hide Handle;
    match step {
      case Tick(_) => TickIsLater(w, step, setup);
      case Spawn(id, call) =>
        if id !in w.handlers {
          ReplaceIsLater(w, w.(handlers := w.handlers[id := P.Start(call)]), id, P.Start(call));
        }
      case Serve(id) =>
        if id in w.handlers && P.Unserved(w.handlers[id], setup) {
          ServeIsLater(w, id, setup);
        }
      case Resume(id, env) =>
        if id in w.handlers && P.Answered(w.handlers[id]) {
          ResumeIsLater(w, id, env, setup);
        }
      case Abort(id) =>
        if id in w.handlers {
          AbortIsLater(w, id);
        }
      case SignerAdmits(id) =>
        if id in w.handlers && w.handlers[id].signer.Arrived? {
          AdmissionIsLater(w, id, setup);
        }
      case KeyAnswers(id, _) =>
        if id in w.handlers && w.handlers[id].signer.AtKey? {
          KeyIsLater(w, id);
        }
      case Outside(q) =>
        if !P.PolicyOnly(q) {
          OutsideIsLater(w, q, setup);
        }
    }
  }

  lemma TickIsLater(w: World, step: P.Step, setup: P.Setup)
    requires step.Tick?
    ensures Later(w, P.Next(w, step, setup))
  {
  }

  lemma {:induction false} RunIsLater(clock: Time, steps: seq<P.Step>, more: seq<P.Step>, setup: P.Setup)
    ensures Later(P.Run(clock, steps, setup), P.Run(clock, steps + more, setup))
  {
    hide P.Next;
    if more == [] {
      assert steps + more == steps;
    } else {
      var front := more[..|more| - 1];
      RunIsLater(clock, steps, front, setup);
      RunIsSafe(clock, steps + front, setup);
      NextIsLater(P.Run(clock, steps + front, setup), more[|more| - 1], setup);
      hide Safe;
      assert (steps + more)[..|steps + more| - 1] == steps + front;
    }
  }

  /** What a verifier recomputes a receipt from. */
  predicate SameReceipt(r: Receipt, q: Receipt) {
    && q.policyHash == r.policyHash && q.intentHash == r.intentHash && q.merchantDomain == r.merchantDomain
    && q.nonce == r.nonce && q.validAfter == r.validAfter && q.validBefore == r.validBefore
  }

  /** Once a receipt has a policy hash, no later step of any run changes it. */
  lemma ReceiptsStay(clock: Time, steps: seq<P.Step>, more: seq<P.Step>, setup: P.Setup, id: string)
    ensures var now, later := P.Run(clock, steps, setup).ledger, P.Run(clock, steps + more, setup).ledger;
            HasReceipt(now, id) ==>
              HasReceipt(later, id) && SameReceipt(ReceiptOf(now.intents[id]), ReceiptOf(later.intents[id]))
  {
    var w, after := P.Run(clock, steps, setup), P.Run(clock, steps + more, setup);
    RunIsSafe(clock, steps, setup);
    RunIsSafe(clock, steps + more, setup);
    RunIsLater(clock, steps, more, setup);
    hide P.Run;
    hide Safe;
    if HasReceipt(w.ledger, id) {
      LaterReceipt(w, after, id, setup);
    }
  }

  lemma LaterReceipt(w: World, after: World, id: string, setup: P.Setup)
    requires Safe(w, setup) && Safe(after, setup) && Later(w, after) && HasReceipt(w.ledger, id)
    ensures HasReceipt(after.ledger, id) && SameReceipt(ReceiptOf(w.ledger.intents[id]), ReceiptOf(after.ledger.intents[id]))
  {
    hide Safe;
    hide Present;
    var a := Backer(w, id, setup);
    var b := Backer(after, id, setup);
    assert Continues(w.handlers[a], after.handlers[a]);
    SoleBacker(after, a, b, id, setup);
    ReceiptIsTheJob(w, a, id, setup);
    ReceiptIsTheJob(after, a, id, setup);
    hide Backs;
    hide Later;
    hide ReceiptOf;
  }

  lemma Backer(w: World, id: string, setup: P.Setup) returns (a: nat)
    requires Safe(w, setup) && HasReceipt(w.ledger, id)
    ensures a in w.handlers && Backs(w.handlers[a], w.ledger.intents[id], id)
  {
    assert Backed(w.handlers, w.ledger.intents[id], id);
    a :| a in w.handlers && Backs(w.handlers[a], w.ledger.intents[id], id);
  }

  lemma SoleBacker(w: World, a: nat, b: nat, id: string, setup: P.Setup)
    requires Safe(w, setup) && a in w.handlers && b in w.handlers
    requires w.handlers[a].signer.SignedBy? && w.handlers[b].signer.SignedBy?
    requires w.handlers[a].call.requestId == id == w.handlers[b].call.requestId
    ensures a == b
  {
    hide Sound;
    assert Holds(w.handlers[a]) && Holds(w.handlers[b]);
  }

  lemma ReceiptIsTheJob(w: World, a: nat, id: string, setup: P.Setup)
    requires Safe(w, setup) && a in w.handlers && HasReceipt(w.ledger, id)
    requires Backs(w.handlers[a], w.ledger.intents[id], id)
    ensures var r, job := ReceiptOf(w.ledger.intents[id]), w.handlers[a].job.value;
            && r.policyHash == Some(job.policyHash) && r.intentHash == job.intentHash
            && r.merchantDomain == Some(job.domain) && r.nonce == Some(job.nonce)
            && r.validAfter == Some(job.now - 5)
            && r.validBefore == Some(job.now - 5 + Validity(job.mandate, job.challenge))
  {
    assert HandlerSound(w.handlers[a], w.ledger, setup);
    Keyed(w.ledger, id, setup.keccak);
    hide Safe;
    hide SignerSound;
  }
}
