/**
 * services/signer-service/src/routes/sign.ts, sign/rail.ts and sign/typed-data.ts: what a /sign
 * request must be for the key to be used, and the set of requests already signed.
 */
module SignerService {
  import opened Wrappers
  import opened Text
  import opened Mandates
  import opened LedgerStore
  import opened PolicyChecks

  const MAX_AUTH_WINDOW_SECONDS: int := 600

  datatype PinnedMandate = PinnedMandate(settlementRecipient: string, hardMaxTotal: nat)

  /** Fixed at boot; recipients, wallet and asset are lower-case. */
  datatype Config = Config(pinned: map<string, PinnedMandate>, signerAddress: string, chainId: int,
                           expected: TokenDomain)

  predicate IsHexDigit(c: char) {
    '0' <= c <= '9' || 'a' <= c <= 'f' || 'A' <= c <= 'F'
  }

  predicate IsHexText(s: string, digits: nat) {
    |s| == digits + 2 && s[..2] == "0x" && forall i :: 2 <= i < |s| ==> IsHexDigit(s[i])
  }

  predicate IsAddress(s: string) {
    IsHexText(s, 40)
  }

  predicate IsBytes32(s: string) {
    IsHexText(s, 64)
  }

  predicate IsSupportedChain(chainId: int) {
    chainId == 43113 || chainId == 43114
  }

  /** The body of /sign: `accepted` is the challenge being satisfied. */
  datatype SignRequest = SignRequest(requestId: string, mandateId: string, typedData: TypedData, accepted: Challenge,
                                     resource: string)

  /** parseSignBody: shapes are checked, hexadecimal is lower-cased. */
  function ParseSignBody(q: SignRequest): Result<SignRequest> {
    var t, a := q.typedData, q.accepted;
    if q.requestId == "" || !IsBytes32(q.mandateId) || !IsAddress(t.from) || !IsAddress(t.to) || !IsBytes32(t.nonce)
       || t.domain.name == "" || t.domain.version == "" || !IsSupportedChain(t.domain.chainId)
       || !IsAddress(t.domain.verifyingContract)
       || q.resource == "" || a.network == "" || !IsSupportedChain(a.chainId) || !IsAddress(a.asset)
       || !IsAddress(a.payTo) || a.name == "" || a.version == ""
    then Result<SignRequest>.Err("BAD_REQUEST")
    else Result<SignRequest>.Ok(SignRequest(
      q.requestId, Lower(q.mandateId),
      t.(from := Lower(t.from), to := Lower(t.to), nonce := Lower(t.nonce),
         domain := t.domain.(verifyingContract := Lower(t.domain.verifyingContract))),
      a.(asset := Lower(a.asset), payTo := Lower(a.payTo)), q.resource))
  }

  /** rail.ts checkRail: the first of the seven refusals, in order. */
  function CheckRail(q: SignRequest, config: Config, seen: set<string>): Option<string> {
    var t := q.typedData;
    if q.mandateId !in config.pinned then Some("SIGNER_UNPINNED_MANDATE")
    else if t.to != config.pinned[q.mandateId].settlementRecipient then Some("SIGNER_WRONG_RECIPIENT")
    else if t.value > config.pinned[q.mandateId].hardMaxTotal then Some("SIGNER_CEILING")
    else if t.from != config.signerAddress then Some("SIGNER_WRONG_FROM")
    else if t.domain.chainId != config.chainId then Some("SIGNER_WRONG_CHAIN")
    else if t.validBefore - t.validAfter > MAX_AUTH_WINDOW_SECONDS then Some("SIGNER_WINDOW")
    else if q.requestId in seen then Some("SIGNER_REPLAY") else None
  }

  function AssertDomainMatches(domain: TokenDomain, expected: TokenDomain): Option<string> {
    if domain.chainId != expected.chainId || Lower(domain.verifyingContract) != Lower(expected.verifyingContract)
       || domain.name != expected.name || domain.version != expected.version
    then Some("SIGNER_DOMAIN_MISMATCH") else None
  }

  /** Everything /sign does before it waits for the key: what is to be signed, or the refusal. */
  function Admit(q: SignRequest, config: Config, seen: set<string>): Result<TypedData> {
    match ParseSignBody(q)
    case Err(code) => Result<TypedData>.Err(code)
    case Ok(parsed) =>
      match CheckRail(parsed, config, seen)
      case Some(code) => Result<TypedData>.Err(code)
      case None =>
        match AssertDomainMatches(parsed.typedData.domain, config.expected)
        case Some(code) => Result<TypedData>.Err(code)
        case None => Result<TypedData>.Ok(parsed.typedData)
  }

  lemma LowerTwice(s: string)
    ensures Lower(Lower(s)) == Lower(s)
  {
    forall i | 0 <= i < |s|
      ensures LowerChar(LowerChar(s[i])) == LowerChar(s[i])
    {
    }
    assert |Lower(Lower(s))| == |Lower(s)| == |s|;
    assert forall i :: 0 <= i < |s| ==> Lower(Lower(s))[i] == Lower(s)[i];
  }

  // ---- What the key is used for --------------------------------------------------------------

  /** Every field is there and of its shape. */
  predicate WellFormed(q: SignRequest) {
    var t, a := q.typedData, q.accepted;
    && q.requestId != "" && IsBytes32(q.mandateId) && q.resource != ""
    && IsAddress(t.from) && IsAddress(t.to) && IsBytes32(t.nonce)
    && t.domain.name != "" && t.domain.version != "" && IsSupportedChain(t.domain.chainId)
    && IsAddress(t.domain.verifyingContract)
    && a.network != "" && IsSupportedChain(a.chainId) && IsAddress(a.asset) && IsAddress(a.payTo) && a.name != ""
    && a.version != ""
  }

  /** What the key requires of a well-formed request, in the order in which it is refused. */
  predicate RailHolds(k: nat, q: SignRequest, config: Config, seen: set<string>)
    requires k < 8
  {
    var t, id := q.typedData, Lower(q.mandateId);
    match k
    case 0 => id in config.pinned
    case 1 => id in config.pinned ==> Lower(t.to) == config.pinned[id].settlementRecipient
    case 2 => id in config.pinned ==> t.value <= config.pinned[id].hardMaxTotal
    case 3 => Lower(t.from) == config.signerAddress
    case 4 => t.domain.chainId == config.chainId
    case 5 => t.validBefore - t.validAfter <= 600
    case 6 => q.requestId !in seen
    case _ =>
      && t.domain.chainId == config.expected.chainId && t.domain.name == config.expected.name
      && t.domain.version == config.expected.version
      && Lower(t.domain.verifyingContract) == Lower(config.expected.verifyingContract)
  }

  const RAIL_CODES: seq<string> :=
    [ "SIGNER_UNPINNED_MANDATE", "SIGNER_WRONG_RECIPIENT", "SIGNER_CEILING", "SIGNER_WRONG_FROM", "SIGNER_WRONG_CHAIN",
      "SIGNER_WINDOW", "SIGNER_REPLAY", "SIGNER_DOMAIN_MISMATCH" ]

  predicate RailFailsAt(k: nat, q: SignRequest, config: Config, seen: set<string>) {
    k < 8 && !RailHolds(k, q, config, seen) && forall j :: 0 <= j < k ==> RailHolds(j, q, config, seen)
  }

  /** What is signed is what was asked for, in lower case. */
  predicate AsAsked(typed: TypedData, q: SignRequest) {
    var t := q.typedData;
    && typed.value == t.value && typed.validAfter == t.validAfter && typed.validBefore == t.validBefore
    && typed.from == Lower(t.from) && typed.to == Lower(t.to) && typed.nonce == Lower(t.nonce)
    && typed.domain.name == t.domain.name && typed.domain.version == t.domain.version
    && typed.domain.chainId == t.domain.chainId && typed.domain.verifyingContract == Lower(t.domain.verifyingContract)
  }

  /**
   * The key is used exactly for a well-formed request that meets the whole rail, and then for what
   * was asked; any other is refused under the code of the first requirement it fails.
   */
  lemma AdmittedExactlyWhen(q: SignRequest, config: Config, seen: set<string>, k: nat)
    ensures var result := Admit(q, config, seen);
            && (result.Ok? <==> WellFormed(q) && forall j :: 0 <= j < 8 ==> RailHolds(j, q, config, seen))
            && (result.Ok? ==> AsAsked(result.value, q))
            && (!WellFormed(q) ==> result == Result<TypedData>.Err("BAD_REQUEST"))
            && (WellFormed(q) && RailFailsAt(k, q, config, seen) ==> result == Result<TypedData>.Err(RAIL_CODES[k]))
  {
    hide IsHexText;
    hide IsSupportedChain;
    LowerTwice(q.typedData.domain.verifyingContract);
    hide Lower;
    RailInOrder(q, config, seen);
    if RailFailsAt(k, q, config, seen) {
      RailBefore(k, q, config, seen);
    }
  }

  lemma RailBefore(k: nat, q: SignRequest, config: Config, seen: set<string>)
    requires RailFailsAt(k, q, config, seen)
    ensures k > 0 ==> RailHolds(0, q, config, seen)
    ensures k > 1 ==> RailHolds(1, q, config, seen)
    ensures k > 2 ==> RailHolds(2, q, config, seen)
    ensures k > 3 ==> RailHolds(3, q, config, seen)
    ensures k > 4 ==> RailHolds(4, q, config, seen)
    ensures k > 5 ==> RailHolds(5, q, config, seen)
    ensures k > 6 ==> RailHolds(6, q, config, seen)
  {
    hide RailHolds;
  }

  lemma RailInOrder(q: SignRequest, config: Config, seen: set<string>)
    ensures (forall j :: 0 <= j < 8 ==> RailHolds(j, q, config, seen)) <==>
              && RailHolds(0, q, config, seen) && RailHolds(1, q, config, seen) && RailHolds(2, q, config, seen)
              && RailHolds(3, q, config, seen) && RailHolds(4, q, config, seen) && RailHolds(5, q, config, seen)
              && RailHolds(6, q, config, seen) && RailHolds(7, q, config, seen)
  {
    hide RailHolds;
  }

  /** The /sign handler around its await: the replay set is read before it and written after. */
  class Signer {
    const config: Config
    var seenRequestIds: set<string>

    constructor (config: Config)
      ensures this.config == config && seenRequestIds == {}
    {
      this.config := config;
      seenRequestIds := {};
    }

    method Begin(q: SignRequest) returns (result: Result<TypedData>)
      ensures result == Admit(q, config, seenRequestIds)
    {
      var parsed := ParseSignBody(q);
      if parsed.Err? {
        return Err(parsed.code);
      }
      var refusal := CheckRail(parsed.value, config, seenRequestIds);
      if refusal.Some? {
        return Err(refusal.value);
      }
      var mismatch := AssertDomainMatches(parsed.value.typedData.domain, config.expected);
      if mismatch.Some? {
        return Err(mismatch.value);
      }
      return Ok(parsed.value.typedData);
    }

    /** After the key source answered: only a signature marks the request as seen. */
    method Finish(requestId: string, signed: bool)
      modifies this
      ensures seenRequestIds == old(seenRequestIds) + (if signed then {requestId} else {})
    {
      if signed {
        seenRequestIds := seenRequestIds + {requestId};
      }
    }
  }

  // ---- Policy acceptance refines the rail --------------------------------------------------

  /** The signer was booted for this mandate: its pinned entry, wallet, chain and token domain. */
  predicate ConfiguredFor(config: Config, m: Mandate, challenge: Challenge, payingWallet: string) {
    && IsBytes32(m.mandateId) && IsAddress(m.settlementRecipient) && IsAddress(m.asset) && IsAddress(payingWallet)
    && Lower(m.mandateId) in config.pinned
    && config.pinned[Lower(m.mandateId)].settlementRecipient == Lower(m.settlementRecipient)
    && config.pinned[Lower(m.mandateId)].hardMaxTotal >= Ceiling(m)
    && config.signerAddress == Lower(payingWallet)
    && IsSupportedChain(m.chainId) && config.chainId == m.chainId && config.expected.chainId == m.chainId
    && Lower(config.expected.verifyingContract) == Lower(m.asset)
    && challenge.name == config.expected.name != "" && challenge.version == config.expected.version != ""
    && challenge.network != ""
  }

  /** The case-blind checks of policy accept a "0X" prefix; the signer's parser does not. */
  predicate LowerPrefix(s: string) {
    |s| >= 2 && s[..2] == "0x"
  }

  lemma LowerKeepsHex(s: string, t: string, digits: nat)
    requires IsHexText(t, digits) && Lower(s) == Lower(t)
    ensures IsHexText(s, digits) <==> LowerPrefix(s)
  {
    forall i | 2 <= i < |s|
      ensures IsHexDigit(s[i])
    {
      assert Lower(s)[i] == Lower(t)[i];
    }
  }

  /**
   * A request whose eight checks pass is refused by a signer booted for the mandate exactly when
   * its id was already signed or the challenge spells an address with "0X"; and what is signed is
   * the accepted block's amount and recipient.
   */
  lemma AcceptanceRefinesTheRail(c: CheckContext, config: Config, seen: set<string>, requestId: string, nonce: string,
                                 payingWallet: string, resource: string)
    requires PassesUpTo(8, c) && c.maxSaneValiditySeconds <= MAX_AUTH_WINDOW_SECONDS
    requires ConfiguredFor(config, c.mandate, c.challenge, payingWallet)
    requires IsBytes32(nonce) && requestId != "" && resource != ""
    ensures var typed := SigningRequest(c.mandate, c.challenge, c.requestedAmount, c.now, nonce, payingWallet);
            var q := SignRequest(requestId, c.mandate.mandateId, typed, c.challenge, resource);
            && (Admit(q, config, seen).Ok? <==>
                  requestId !in seen && LowerPrefix(c.challenge.asset) && LowerPrefix(c.challenge.payTo))
            && (Admit(q, config, seen).Ok? ==>
                  var signed := Admit(q, config, seen).value;
                  && signed.value == c.challenge.amount == c.requestedAmount
                  && signed.to == Lower(c.challenge.payTo)
                  && signed.domain.verifyingContract == Lower(c.challenge.asset)
                  && signed.validBefore - signed.validAfter <= MAX_AUTH_WINDOW_SECONDS)
  {
    assert Check(2, c).None? && Check(3, c).None? && Check(4, c).None? && Check(6, c).None?;
    LowerKeepsHex(c.challenge.asset, c.mandate.asset, 40);
    LowerKeepsHex(c.challenge.payTo, c.mandate.settlementRecipient, 40);
    LowerTwice(c.challenge.asset);
  }
}
