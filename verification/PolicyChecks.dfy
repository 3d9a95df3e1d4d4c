/**
 * services/policy-service/src/checks and typedData.ts: the ladder of checks a payment request
 * climbs, and the transfer authorisation built for it.
 */
module PolicyChecks {
  import opened Wrappers
  import opened Text
  import opened Mandates
  import opened LedgerStore

  const MIN_AMOUNT: nat := 5_000_000
  const HARD_CAP: nat := 30_000_000

  datatype Registry = Registry(owner: string, policyHash: string, expiresAt: int, revoked: bool)

  datatype CheckContext = CheckContext(
    now: int, mandate: Mandate, registry: Option<Registry>, challenge: Challenge, requestedAmount: nat,
    usage: Usage, intentCreatedAt: Time, challengeAttachedAt: Option<Time>, maxSaneValiditySeconds: int,
    keccak: Keccak)

  datatype CheckFailure = Refuse | EscalateFor(reason: EscalationReason)

  function Min(a: int, b: int): int {
    if a < b then a else b
  }

  function Check1MandateLive(c: CheckContext): Option<CheckFailure> {
    if c.registry.None? then Some(Refuse)
    else if c.registry.value.revoked then Some(Refuse)
    else if c.now >= c.registry.value.expiresAt then Some(Refuse) else None
  }

  function Check2PolicyHash(c: CheckContext): Option<CheckFailure> {
    if c.registry.None? then None
    else if Lower(HashPolicy(c.keccak, c.mandate)) != Lower(c.registry.value.policyHash) then Some(Refuse) else None
  }

  function Check3ChainAsset(c: CheckContext): Option<CheckFailure> {
    if c.challenge.chainId != c.mandate.chainId then Some(Refuse)
    else if Lower(c.challenge.asset) != Lower(c.mandate.asset) then Some(Refuse) else None
  }

  function Check4RecipientPinned(c: CheckContext): Option<CheckFailure> {
    if Lower(c.challenge.payTo) != Lower(c.mandate.settlementRecipient) then Some(Refuse) else None
  }

  /** The most one card may cost. */
  function Ceiling(m: Mandate): nat {
    if m.maxPerCard < HARD_CAP then m.maxPerCard else HARD_CAP
  }

  function Check5AmountBounds(c: CheckContext): Option<CheckFailure> {
    if c.challenge.amount < MIN_AMOUNT || c.challenge.amount > Ceiling(c.mandate) then Some(Refuse)
    else if c.challenge.amount != c.requestedAmount then Some(Refuse) else None
  }

  function Check6WindowBudget(c: CheckContext): Option<CheckFailure> {
    if c.usage.spent + c.challenge.amount > c.mandate.maxPerWindow then Some(EscalateFor(WindowBudgetExceeded))
    else if c.usage.cardCount >= c.mandate.maxCardsPerWindow then Some(EscalateFor(WindowBudgetExceeded)) else None
  }

  /** The seconds an authorisation stays valid. */
  function Validity(m: Mandate, challenge: Challenge): int {
    Min(m.maxAuthValiditySeconds, challenge.maxTimeoutSeconds)
  }

  /** v is the lesser of two numbers. */
  predicate IsLesser(v: int, a: int, b: int) {
    v <= a && v <= b && (v == a || v == b)
  }

  lemma ValidityIsTheLesser(m: Mandate, challenge: Challenge)
    ensures IsLesser(Validity(m, challenge), m.maxAuthValiditySeconds, challenge.maxTimeoutSeconds)
  {
  }

  function Check7ValiditySane(c: CheckContext): Option<CheckFailure> {
    if Validity(c.mandate, c.challenge) > c.maxSaneValiditySeconds then Some(Refuse) else None
  }

  function Check8IntentBound(c: CheckContext): Option<CheckFailure> {
    if c.challengeAttachedAt.None? then Some(Refuse)
    else if c.intentCreatedAt >= c.challengeAttachedAt.value then Some(Refuse) else None
  }

  const CHECK_NAMES: seq<string> :=
    [ "check1_mandate_live", "check2_policy_hash", "check3_chain_asset", "check4_recipient_pinned",
      "check5_amount_bounds", "check6_window_budget", "check7_validity_sane", "check8_intent_bound" ]

  /** The table CHECKS: the k-th check. */
  function Check(k: nat, c: CheckContext): Option<CheckFailure>
    requires k < 8
  {
    if k == 0 then Check1MandateLive(c) else if k == 1 then Check2PolicyHash(c)
    else if k == 2 then Check3ChainAsset(c) else if k == 3 then Check4RecipientPinned(c)
    else if k == 4 then Check5AmountBounds(c) else if k == 5 then Check6WindowBudget(c)
    else if k == 6 then Check7ValiditySane(c) else Check8IntentBound(c)
  }

  predicate PassesUpTo(k: nat, c: CheckContext)
    requires k <= 8
  {
    forall j :: 0 <= j < k ==> Check(j, c).None?
  }

  /** The first failing check: its place in the table and what it asks for. */
  function FirstFailure(c: CheckContext): (failure: Option<(nat, CheckFailure)>)
    ensures failure.None? <==> PassesUpTo(8, c)
    ensures failure.Some? ==> var (k, f) := failure.value;
                              k < 8 && PassesUpTo(k, c) && Check(k, c) == Some(f)
  {
    FailureFrom(0, c)
  }

  function FailureFrom(k: nat, c: CheckContext): (failure: Option<(nat, CheckFailure)>)
    requires k <= 8 && PassesUpTo(k, c)
    ensures failure.None? <==> PassesUpTo(8, c)
    ensures failure.Some? ==> var (j, f) := failure.value;
                              k <= j < 8 && PassesUpTo(j, c) && Check(j, c) == Some(f)
    decreases 8 - k
  {
    if k == 8 then None
    else if Check(k, c).Some? then Some((k, Check(k, c).value))
    else FailureFrom(k + 1, c)
  }

  /**
   * The loop of policy app.ts over CHECKS: it stops at the first failure, with the names of the
   * checks before it.
   */
  method RunChecks(c: CheckContext) returns (passed: seq<string>, failure: Option<(nat, CheckFailure)>)
    ensures failure == FirstFailure(c)
    ensures failure.None? ==> passed == CHECK_NAMES
    ensures failure.Some? ==> passed == CHECK_NAMES[..failure.value.0]
  {
    passed := [];
    for k := 0 to 8
      invariant PassesUpTo(k, c) && passed == CHECK_NAMES[..k]
    {
      var found := Check(k, c);
      if found.Some? {
        FailureIsFirst(k, c);
        return passed, Some((k, found.value));
      }
      passed := passed + [CHECK_NAMES[k]];
    }
    return passed, None;
  }

  lemma FailureIsFirst(k: nat, c: CheckContext)
    requires k < 8 && PassesUpTo(k, c) && Check(k, c).Some?
    ensures FirstFailure(c) == Some((k, Check(k, c).value))
  {
    var (j, f) := FirstFailure(c).value;
    assert j == k by {
      assert Check(j, c).Some? && Check(k, c).Some?;
    }
  }

  /** What a payment must be for all eight checks to pass, in the mandate's terms. */
  predicate Cleared(c: CheckContext) {
    && c.registry.Some? && !c.registry.value.revoked && c.now < c.registry.value.expiresAt
    && Lower(HashPolicy(c.keccak, c.mandate)) == Lower(c.registry.value.policyHash)
    && ChallengeWithin(c.challenge, c.mandate, c.maxSaneValiditySeconds)
    && Lower(c.challenge.payTo) == Lower(c.mandate.settlementRecipient) && c.challenge.amount == c.requestedAmount
    && c.usage.spent + c.challenge.amount <= c.mandate.maxPerWindow
    && c.usage.cardCount < c.mandate.maxCardsPerWindow
    && c.challengeAttachedAt.Some? && c.intentCreatedAt < c.challengeAttachedAt.value
  }

  /** A challenge for the mandate's token, within its amounts and a sane validity. */
  predicate ChallengeWithin(challenge: Challenge, m: Mandate, maxSaneValiditySeconds: int) {
    && challenge.chainId == m.chainId && Lower(challenge.asset) == Lower(m.asset)
    && MIN_AMOUNT <= challenge.amount && challenge.amount <= m.maxPerCard && challenge.amount <= HARD_CAP
    && (m.maxAuthValiditySeconds <= maxSaneValiditySeconds || challenge.maxTimeoutSeconds <= maxSaneValiditySeconds)
  }

  /** What each check is there to establish, in the mandate's terms. */
  predicate Condition(k: nat, c: CheckContext)
    requires k < 8
  {
    var m, challenge := c.mandate, c.challenge;
    match k
    case 0 => c.registry.Some? && !c.registry.value.revoked && c.now < c.registry.value.expiresAt
    case 1 => c.registry.Some? ==> Lower(HashPolicy(c.keccak, m)) == Lower(c.registry.value.policyHash)
    case 2 => challenge.chainId == m.chainId && Lower(challenge.asset) == Lower(m.asset)
    case 3 => Lower(challenge.payTo) == Lower(m.settlementRecipient)
    case 4 =>
      && MIN_AMOUNT <= challenge.amount && challenge.amount <= m.maxPerCard && challenge.amount <= HARD_CAP
      && challenge.amount == c.requestedAmount
    case 5 => c.usage.spent + challenge.amount <= m.maxPerWindow && c.usage.cardCount < m.maxCardsPerWindow
    case 6 =>
      m.maxAuthValiditySeconds <= c.maxSaneValiditySeconds || challenge.maxTimeoutSeconds <= c.maxSaneValiditySeconds
    case _ => c.challengeAttachedAt.Some? && c.intentCreatedAt < c.challengeAttachedAt.value
  }

  /** The first condition, in the order of the ladder, that does not hold. */
  predicate FirstFails(c: CheckContext, k: nat) {
    k < 8 && !Condition(k, c) && forall j :: 0 <= j < k ==> Condition(j, c)
  }

  /** The place of the budget and the card count in the ladder. */
  const BUDGET: nat := 5

  /** Only a payment that the window has no room for is put to the human; any other failure is refused. */
  function VerdictAt(k: nat): CheckFailure {
    if k == BUDGET then EscalateFor(WindowBudgetExceeded) else Refuse
  }

  lemma CheckIsItsCondition(k: nat, c: CheckContext)
    requires k < 8
    ensures Check(k, c).None? <==> Condition(k, c)
    ensures Check(k, c).Some? ==> Check(k, c).value == VerdictAt(k)
  {
    hide Lower;
    hide HashPolicy;
  }

  /**
   * The ladder stops at the first condition that fails. It asks for the human exactly when that is
   * the budget or the card count, and refuses otherwise.
   */
  lemma LadderVerdict(c: CheckContext, k: nat)
    ensures FirstFails(c, k) <==> FirstFailure(c).Some? && FirstFailure(c).value.0 == k
    ensures FirstFails(c, k) ==> FirstFailure(c) == Some((k, VerdictAt(k)))
  {
    hide Check;
    hide Condition;
    forall j | 0 <= j < 8
      ensures Check(j, c).None? <==> Condition(j, c)
      ensures Check(j, c).Some? ==> Check(j, c).value == VerdictAt(j)
    {
      CheckIsItsCondition(j, c);
    }
    if FirstFails(c, k) {
      FailureIsFirst(k, c);
    }
  }

  /** A payment is cleared exactly when no condition fails. */
  lemma ClearedMeansEveryCondition(c: CheckContext)
    ensures Cleared(c) <==> forall k :: 0 <= k < 8 ==> Condition(k, c)
  {
    hide Lower;
    hide HashPolicy;
    if forall k :: 0 <= k < 8 ==> Condition(k, c) {
      assert Condition(0, c) && Condition(1, c) && Condition(2, c) && Condition(3, c);
      assert Condition(4, c) && Condition(5, c) && Condition(6, c) && Condition(7, c);
    }
  }

  /** The ladder lets a payment through exactly when it is cleared. */
  lemma ChecksPassExactlyWhenCleared(c: CheckContext)
    ensures FirstFailure(c).None? <==> Cleared(c)
  {
    if FirstFailure(c).None? {
      assert Check(0, c).None? && Check(1, c).None? && Check(2, c).None? && Check(3, c).None?;
      assert Check(4, c).None? && Check(5, c).None? && Check(6, c).None? && Check(7, c).None?;
    }
    hide HashPolicy;
    hide Lower;
  }

  /** Check 9 never refuses; `matches` is the matcher's verdict on the resolved item. */
  function Check9IntentMatch(m: Mandate, merchantDomain: string, hasStandingApproval: bool, matches: bool)
    : Option<EscalationReason>
  {
    if hasStandingApproval then None
    else if m.merchantAllowlist != [] && forall d :: d in m.merchantAllowlist ==> Lower(d) != Lower(merchantDomain)
    then Some(IntentMismatch)
    else if !matches then Some(IntentMismatch) else None
  }

  /** The merchant is on the mandate's list, if it has one, and the item matches. */
  predicate ItemFits(m: Mandate, merchantDomain: string, matches: bool) {
    && matches
    && (m.merchantAllowlist == [] || exists d :: d in m.merchantAllowlist && Lower(d) == Lower(merchantDomain))
  }

  /** Without a standing approval, only an item that fits goes on; any other is put to the human. */
  lemma ItemVerdict(m: Mandate, merchantDomain: string, hasStandingApproval: bool, matches: bool)
    ensures Check9IntentMatch(m, merchantDomain, hasStandingApproval, matches)
            == if hasStandingApproval || ItemFits(m, merchantDomain, matches) then None else Some(IntentMismatch)
  {
  }

  // ---- typedData.ts ------------------------------------------------------------------------

  datatype TokenDomain = TokenDomain(name: string, version: string, chainId: int, verifyingContract: string)

  datatype TypedData = TypedData(domain: TokenDomain, from: string, to: string, value: nat,
                                 validAfter: int, validBefore: int, nonce: string)

  function BuildTypedData(m: Mandate, challenge: Challenge, amount: nat, validAfter: int, validBefore: int,
                          nonce: string, payingWallet: string): TypedData
  {
    TypedData(TokenDomain(challenge.name, challenge.version, challenge.chainId, challenge.asset),
              payingWallet, m.settlementRecipient, amount, validAfter, validBefore, nonce)
  }

  /** signing.ts: the request performSigning sends, valid from five seconds before `now`. */
  function SigningRequest(m: Mandate, challenge: Challenge, amount: nat, now: int, nonce: string, payingWallet: string)
    : TypedData
  {
    BuildTypedData(m, challenge, amount, now - 5, now - 5 + Validity(m, challenge), nonce, payingWallet)
  }
}
