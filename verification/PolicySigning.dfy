/**
 * services/policy-service/src/signing.ts when nothing else runs between its awaits: one call of
 * performSigning against the ledger and the signer, in place. SigningProtocol interleaves the
 * same calls with everything else.
 */
module PolicySigning {
  import opened Wrappers
  import opened Mandates
  import opened LedgerStore
  import opened PolicyChecks
  import L = LedgerService
  import S = SignerService
  import P = SigningProtocol

  datatype SigningOutcome =
    | Granted(nonce: string, validAfter: int, validBefore: int)
    | Denied(code: string)
    | Thrown

  /** The ledger after an attempt whose signer call failed: reserved, then released. */
  function ReservedAndReleased(s: Ledger, id: string, nonce: string, at: Time, keccak: Keccak): Ledger {
    Handle(Handle(s, ReserveNonce(id, Some(nonce)), at, keccak), ReleaseNonce(id), at, keccak)
  }

  /** What an uninterrupted attempt answers, and the ledger and replay set it leaves. */
  datatype Attempt = Attempt(outcome: SigningOutcome, ledger: Ledger, seen: set<string>)

  function Attempted(s: Ledger, seen: set<string>, id: string, job: P.Job, keyAnswers: bool, at: Time, setup: P.Setup)
    : Attempt
  {
    match ReserveNonceRoute(s, ReserveNonce(id, Some(job.nonce)), at)
    case Reject(_, code) => Attempt(Denied(code), s, seen)
    case _ =>
      match S.Admit(P.JobRequest(id, job, setup), setup.config, seen)
      case Err(code) => Attempt(Denied(code), ReservedAndReleased(s, id, job.nonce, at, setup.keccak), seen)
      case Ok(_) =>
        if !keyAnswers
        then Attempt(Denied("SIGNER_UNAVAILABLE"), ReservedAndReleased(s, id, job.nonce, at, setup.keccak), seen)
        else Attempt(Granted(job.nonce, job.now - 5, job.now - 5 + Validity(job.mandate, job.challenge)),
                     Handle(s, ReserveNonce(id, Some(job.nonce)), at, setup.keccak), seen + {id})
  }

  /** Reserve, sign, and release if signing failed; `keyAnswers` is whether the key source succeeds. */
  method PerformSigning(ledger: L.Service, signer: S.Signer, requestId: string, mandateId: string, mandate: Mandate,
                        challenge: Challenge, amount: nat, now: int, policyHash: string, intentHash: string,
                        domain: string, keyAnswers: bool, at: Time, setup: P.Setup)
    returns (outcome: SigningOutcome)
    requires ledger.Keyed() && ledger.keccak == setup.keccak && signer.config == setup.config
    modifies ledger, signer
    ensures match BuildCommitmentNonce(setup.keccak, requestId, policyHash, intentHash, domain)
            case Err(_) => Attempt(outcome, ledger.State(), signer.seenRequestIds)
                           == Attempt(Thrown, old(ledger.State()), old(signer.seenRequestIds))
            case Ok(nonce) =>
              var job := P.Job(mandate, mandateId, challenge, amount, now, policyHash, intentHash, domain, nonce);
              Attempt(outcome, ledger.State(), signer.seenRequestIds)
              == Attempted(old(ledger.State()), old(signer.seenRequestIds), requestId, job, keyAnswers, at, setup)
  {
    var committed := BuildCommitmentNonce(setup.keccak, requestId, policyHash, intentHash, domain);
    hide BuildCommitmentNonce;
    hide S.Admit;
    hide Apply;
    hide L.KeyedStore;
    if committed.Err? {
      return Thrown;
    }
    var nonce := committed.value;
    ReservationKeepsKeys(ledger.State(), ReserveNonce(requestId, Some(nonce)), at);
    var reserved := ledger.PostNonce(ReserveNonce(requestId, Some(nonce)), at);
    if reserved.Failed? {
      RejectionChangesNothing(old(ledger.State()), ReserveNonce(requestId, Some(nonce)), at);
      return Denied(reserved.code);
    }
    var validAfter := now - 5;
    var validBefore := validAfter + Validity(mandate, challenge);
    var typed := BuildTypedData(mandate, challenge, amount, validAfter, validBefore, nonce, setup.payingWallet);
    var admitted := signer.Begin(S.SignRequest(requestId, mandateId, typed, challenge, P.RESOURCE));
    signer.Finish(requestId, admitted.Ok? && keyAnswers);
    if admitted.Err? || !keyAnswers {
      var _ := ledger.PostReleaseNonce(ReleaseNonce(requestId), at);
      return Denied(if admitted.Err? then admitted.code else "SIGNER_UNAVAILABLE");
    }
    return Granted(nonce, validAfter, validBefore);
  }

  lemma ReservationKeepsKeys(s: Ledger, q: Request, at: Time)
    requires q.ReserveNonce? && L.KeyedStore(s)
    ensures L.KeyedStore(Apply(s, ReserveNonceRoute(s, q, at), at))
  {
    hide IntentViewOf;
  }

  lemma RejectionChangesNothing(s: Ledger, q: Request, at: Time)
    requires q.ReserveNonce? && ReplyTo(ReserveNonceRoute(s, q, at)).Failed?
    ensures Apply(s, ReserveNonceRoute(s, q, at), at) == s
  {
  }

  /**
   * A failed attempt leaves the request as it was, ready for a retry with a fresh nonce: exactly
   * when it had not been decided as signed, for otherwise the reservation is burned.
   */
  lemma ReleaseUndoesReservation(s: Ledger, id: string, nonce: string, at: Time, keccak: Keccak)
    requires id in s.intents && s.intents[id].requestId == id && s.intents[id].nonce.None? && nonce != ""
    ensures var i, j := s.intents[id], ReservedAndReleased(s, id, nonce, at, keccak).intents[id];
            && (i.decision != Some(Signed) <==> j.nonce.None?)
            && (i.decision != Some(Signed) ==>
                  j == i.(nonceReleased := true, nonceReservedAt := None, state := ChallengeAttached))
  {
    hide IntentViewOf;
  }
}
