/**
 * packages/contracts/src/mandate.ts and escalation.ts: the canonical texts that are hashed
 * or signed. keccak256 is a parameter; it is taken to be injective only where a lemma says so.
 */
module Mandates {
  import opened Wrappers
  import opened Text

  datatype Mandate = Mandate(
    mandateId: string, owner: string, agentId: string, chainId: int, asset: string,
    settlementRecipient: string, maxPerCard: nat, maxPerWindow: nat, maxCardsPerWindow: int,
    windowSeconds: int, maxAuthValiditySeconds: int, expiresAt: int, revoked: bool,
    intentConstraint: string, merchantAllowlist: seq<string>, policyVersion: int)

  // ---- serialise -----------------------------------------------------------------------

  function Domain(d: string): string {
    Lower(Trim(d))
  }

  function Domains(ds: seq<string>): (ls: seq<string>)
    ensures |ls| == |ds| && forall i :: 0 <= i < |ds| ==> ls[i] == Domain(ds[i])
  {
    seq(|ds|, i requires 0 <= i < |ds| => Domain(ds[i]))
  }

  const FIELD_ORDER: seq<string> :=
    [ "mandateId", "owner", "agentId", "chainId", "asset", "settlementRecipient", "maxPerCard", "maxPerWindow",
      "maxCardsPerWindow", "windowSeconds", "maxAuthValiditySeconds", "expiresAt", "revoked", "intentConstraint",
      "merchantAllowlist", "policyVersion" ]

  /** `encodeField` of each key, in FIELD_ORDER. */
  function EncodedFields(m: Mandate): (values: seq<string>)
    ensures |values| == 16
  {
    [ Lower(m.mandateId), Lower(m.owner), m.agentId, IntText(m.chainId), Lower(m.asset),
      Lower(m.settlementRecipient), Decimal(m.maxPerCard), Decimal(m.maxPerWindow),
      IntText(m.maxCardsPerWindow), IntText(m.windowSeconds), IntText(m.maxAuthValiditySeconds),
      IntText(m.expiresAt), BoolText(m.revoked), m.intentConstraint,
      Join(Domains(m.merchantAllowlist), ','), IntText(m.policyVersion) ]
  }

  function BoolText(b: bool): string {
    if b then "true" else "false"
  }

  function Fields(m: Mandate): (fields: seq<string>)
    ensures |fields| == 16
    ensures forall i :: 0 <= i < 16 ==> fields[i] == FIELD_ORDER[i] + ("=" + EncodedFields(m)[i])
  {
    seq(16, i requires 0 <= i < 16 => FIELD_ORDER[i] + ("=" + EncodedFields(m)[i]))
  }

  function Serialise(m: Mandate): string {
    Join(Fields(m), '|')
  }

  /** No text field holds the field delimiter; domains are non-empty and comma-free once trimmed. */
  predicate Delimitable(m: Mandate) {
    && Without(m.mandateId, '|') && Without(m.owner, '|') && Without(m.agentId, '|') && Without(m.asset, '|')
    && Without(m.settlementRecipient, '|') && Without(m.intentConstraint, '|')
    && DelimitableDomains(m.merchantAllowlist)
  }

  predicate DelimitableDomains(ds: seq<string>) {
    forall i :: 0 <= i < |ds| ==> Trim(ds[i]) != "" && Without(Trim(ds[i]), '|') && Without(Trim(ds[i]), ',')
  }

  /** Field by field the same, up to the case of addresses and the case and outer space of domains. */
  predicate SameTerms(m: Mandate, n: Mandate) {
    && Lower(m.mandateId) == Lower(n.mandateId) && Lower(m.owner) == Lower(n.owner) && m.agentId == n.agentId
    && m.chainId == n.chainId && Lower(m.asset) == Lower(n.asset)
    && Lower(m.settlementRecipient) == Lower(n.settlementRecipient)
    && m.maxPerCard == n.maxPerCard && m.maxPerWindow == n.maxPerWindow
    && m.maxCardsPerWindow == n.maxCardsPerWindow && m.windowSeconds == n.windowSeconds
    && m.maxAuthValiditySeconds == n.maxAuthValiditySeconds && m.expiresAt == n.expiresAt
    && m.revoked == n.revoked && m.intentConstraint == n.intentConstraint
    && Domains(m.merchantAllowlist) == Domains(n.merchantAllowlist)
    && m.policyVersion == n.policyVersion
  }

  lemma LowerKeepsWithout(s: string, c: char)
    requires Without(s, c) && (c == '|' || c == ',' || c == '\n')
    ensures Without(Lower(s), c)
  {
    forall i | 0 <= i < |s|
      ensures Lower(s)[i] != c
    {
      assert s[i] in s;
    }
  }

  lemma DomainsAreDelimitable(ds: seq<string>)
    requires DelimitableDomains(ds)
    ensures AllWithout(Domains(ds), '|') && AllWithout(Domains(ds), ',')
    ensures forall i :: 0 <= i < |ds| ==> Domains(ds)[i] != ""
  {
    forall i | 0 <= i < |ds|
      ensures Without(Domains(ds)[i], '|') && Without(Domains(ds)[i], ',') && Domains(ds)[i] != ""
    {
      LowerKeepsWithout(Trim(ds[i]), '|');
      LowerKeepsWithout(Trim(ds[i]), ',');
    }
  }

  lemma {:induction false} JoinKeepsWithout(parts: seq<string>, separator: char, c: char)
    requires AllWithout(parts, c) && separator != c
    ensures Without(Join(parts, separator), c)
  {
    if |parts| > 1 {
      JoinKeepsWithout(parts[1..], separator, c);
    }
  }

  lemma ValuesAreDelimited(m: Mandate)
    requires Delimitable(m)
    ensures AllWithout(EncodedFields(m), '|')
  {
    LowerKeepsWithout(m.mandateId, '|');
    LowerKeepsWithout(m.owner, '|');
    LowerKeepsWithout(m.asset, '|');
    LowerKeepsWithout(m.settlementRecipient, '|');
    DomainsAreDelimitable(m.merchantAllowlist);
    JoinKeepsWithout(Domains(m.merchantAllowlist), ',', '|');
  }

  lemma FieldsAreDelimited(m: Mandate)
    requires Delimitable(m)
    ensures AllWithout(Fields(m), '|')
  {
    ValuesAreDelimited(m);
    forall i | 0 <= i < 16
      ensures Without(Fields(m)[i], '|')
    {
      var key, value := FIELD_ORDER[i], EncodedFields(m)[i];
      assert Without(key, '|') by {
        KeysAreDelimited(i);
      }
      WithoutAppend("=", value, '|');
      WithoutAppend(key, "=" + value, '|');
    }
  }

  lemma KeysAreDelimited(i: nat)
    requires i < 16
    ensures Without(FIELD_ORDER[i], '|')
  {
  }

  lemma SamePrefix(key: string, a: string, b: string)
    requires key + a == key + b
    ensures a == b
  {
    assert a == (key + a)[|key|..] && b == (key + b)[|key|..];
  }

  lemma AllowlistIsInjective(ds: seq<string>, es: seq<string>)
    requires DelimitableDomains(ds) && DelimitableDomains(es)
    requires Join(Domains(ds), ',') == Join(Domains(es), ',')
    ensures Domains(ds) == Domains(es)
  {
    DomainsAreDelimitable(ds);
    DomainsAreDelimitable(es);
    if ds != [] && es != [] {
      JoinIsInjective(Domains(ds), Domains(es), ',');
    } else if ds != [] {
      JoinedIsNonEmpty(Domains(ds));
    } else if es != [] {
      JoinedIsNonEmpty(Domains(es));
    }
  }

  lemma JoinedIsNonEmpty(parts: seq<string>)
    requires parts != [] && parts[0] != ""
    ensures Join(parts, ',') != ""
  {
  }

  /** Two mandates have one serialisation exactly when their terms are the same. */
  lemma SerialiseIsUnambiguous(m: Mandate, n: Mandate)
    requires Delimitable(m) && Delimitable(n)
    ensures Serialise(m) == Serialise(n) <==> SameTerms(m, n)
  {
    if Serialise(m) == Serialise(n) {
      FieldsAreDelimited(m);
      FieldsAreDelimited(n);
      JoinIsInjective(Fields(m), Fields(n), '|');
      EqualFieldsEqualTerms(m, n);
    }
  }

  lemma EqualFieldsEqualTerms(m: Mandate, n: Mandate)
    requires Delimitable(m) && Delimitable(n) && Fields(m) == Fields(n)
    ensures SameTerms(m, n)
  {
    var f, g := EncodedFields(m), EncodedFields(n);
    forall i | 0 <= i < 16
      ensures f[i] == g[i]
    {
      assert Fields(m)[i] == Fields(n)[i];
      SamePrefix(FIELD_ORDER[i], "=" + f[i], "=" + g[i]);
      SamePrefix("=", f[i], g[i]);
    }
    EqualValuesEqualTerms(m, n);
  }

  lemma EqualValuesEqualTerms(m: Mandate, n: Mandate)
    requires Delimitable(m) && Delimitable(n)
    requires forall i :: 0 <= i < 16 ==> EncodedFields(m)[i] == EncodedFields(n)[i]
    ensures SameTerms(m, n)
  {
    var f, g := EncodedFields(m), EncodedFields(n);
    assert f[0] == g[0] && f[1] == g[1] && f[2] == g[2] && f[3] == g[3] && f[4] == g[4] && f[5] == g[5];
    assert f[6] == g[6] && f[7] == g[7] && f[8] == g[8] && f[9] == g[9] && f[10] == g[10] && f[11] == g[11];
    assert f[12] == g[12] && f[13] == g[13] && f[14] == g[14] && f[15] == g[15];
    IntTextIsInjective(m.chainId, n.chainId);
    IntTextIsInjective(m.maxPerCard, n.maxPerCard);
    IntTextIsInjective(m.maxPerWindow, n.maxPerWindow);
    IntTextIsInjective(m.maxCardsPerWindow, n.maxCardsPerWindow);
    IntTextIsInjective(m.windowSeconds, n.windowSeconds);
    IntTextIsInjective(m.maxAuthValiditySeconds, n.maxAuthValiditySeconds);
    IntTextIsInjective(m.expiresAt, n.expiresAt);
    assert BoolText(true)[0] != BoolText(false)[0];
    AllowlistIsInjective(m.merchantAllowlist, n.merchantAllowlist);
    IntTextIsInjective(m.policyVersion, n.policyVersion);
  }

  /** The text between the values of the first two fields. */
  const SEAM: string := "|owner="

  /** Without the delimiter condition the serialisation is ambiguous: text moves between fields. */
  lemma DelimitersCanCollide(m: Mandate)
    ensures var a := m.(mandateId := "m" + SEAM + "o", owner := "p");
            var b := m.(mandateId := "m", owner := "o" + SEAM + "p");
            Serialise(a) == Serialise(b) && !SameTerms(a, b)
  {
    var a := m.(mandateId := "m" + SEAM + "o", owner := "p");
    var b := m.(mandateId := "m", owner := "o" + SEAM + "p");
    FirstTwoFields(a);
    FirstTwoFields(b);
    SameTail(m, a.mandateId, a.owner, b.mandateId, b.owner);
    TextMoves("m", "o", "p");
  }

  lemma TextMoves(m: string, o: string, p: string)
    ensures Lower(m + SEAM + o) + SEAM + Lower(p) == Lower(m) + SEAM + Lower(o + SEAM + p)
  {
    assert Lower(SEAM) == SEAM;
    LowerAppends(m + SEAM, o);
    LowerAppends(m, SEAM);
    LowerAppends(o + SEAM, p);
    LowerAppends(o, SEAM);
  }

  lemma SameTail(m: Mandate, i: string, o: string, i': string, o': string)
    ensures Fields(m.(mandateId := i, owner := o))[2..] == Fields(m.(mandateId := i', owner := o'))[2..]
  {
  }

  lemma LowerAppends(s: string, t: string)
    ensures Lower(s + t) == Lower(s) + Lower(t)
  {
  }

  /** Nor are commas inside a domain, or blank domains, told apart from other allowlists. */
  lemma DomainsCanCollide(m: Mandate)
    ensures var a, b := m.(merchantAllowlist := ["a,b"]), m.(merchantAllowlist := ["a", "b"]);
            Serialise(a) == Serialise(b) && !SameTerms(a, b)
    ensures var a, b := m.(merchantAllowlist := []), m.(merchantAllowlist := [" "]);
            Serialise(a) == Serialise(b) && !SameTerms(a, b)
  {
    PlainDomains();
    var one, two := m.(merchantAllowlist := ["a,b"]), m.(merchantAllowlist := ["a", "b"]);
    assert Fields(one) == Fields(two);
    var none, blank := m.(merchantAllowlist := []), m.(merchantAllowlist := [" "]);
    assert Domains([]) == [];
    assert Fields(none) == Fields(blank);
  }

  lemma FirstTwoFields(m: Mandate)
    ensures Serialise(m) == FIELD_ORDER[0] + "=" + (Lower(m.mandateId) + SEAM + Lower(m.owner))
                            + "|" + Join(Fields(m)[2..], '|')
  {
    var f := Fields(m);
    assert f[1..][0] == f[1] && f[1..][1..] == f[2..];
    assert Join(f, '|') == f[0] + ['|'] + Join(f[1..], '|');
    assert Join(f[1..], '|') == f[1] + ['|'] + Join(f[2..], '|');
    assert "|" + (FIELD_ORDER[1] + "=") == SEAM;
  }

  lemma PlainDomains()
    ensures Domains(["a,b"]) == ["a,b"] && Domains(["a", "b"]) == ["a", "b"] && Domains([" "]) == [""]
    ensures Join(["a,b"], ',') == "a,b" == Join(["a", "b"], ',') && Join([""], ',') == ""
  {
    assert Lower("a,b") == "a,b" && Lower("a") == "a" && Lower("b") == "b" && Lower("") == "";
    assert TrimStart(" ") == TrimStart("") == "";
    assert Domain("a,b") == "a,b" && Domain("a") == "a" && Domain("b") == "b" && Domain(" ") == "";
    assert ["a", "b"][1..] == ["b"] && Join(["b"], ',') == "b";
  }

  /** The text that is hashed: every field under its own name, in the one order. */
  lemma SerialisedText(m: Mandate)
    ensures Serialise(m) == Join(NamedFields(m), '|')
  {
    hide Lower;
    hide Decimal;
    hide IntText;
    forall i | 0 <= i < 16
      ensures Fields(m)[i] == NamedFields(m)[i]
    {
      FieldIsNamed(m, i);
    }
    assert Fields(m) == NamedFields(m);
  }

  function NamedFields(m: Mandate): (fields: seq<string>)
    ensures |fields| == 16
  {
    [ "mandateId=" + Lower(m.mandateId), "owner=" + Lower(m.owner), "agentId=" + m.agentId,
      "chainId=" + IntText(m.chainId), "asset=" + Lower(m.asset),
      "settlementRecipient=" + Lower(m.settlementRecipient), "maxPerCard=" + Decimal(m.maxPerCard),
      "maxPerWindow=" + Decimal(m.maxPerWindow), "maxCardsPerWindow=" + IntText(m.maxCardsPerWindow),
      "windowSeconds=" + IntText(m.windowSeconds), "maxAuthValiditySeconds=" + IntText(m.maxAuthValiditySeconds),
      "expiresAt=" + IntText(m.expiresAt), "revoked=" + (if m.revoked then "true" else "false"),
      "intentConstraint=" + m.intentConstraint,
      "merchantAllowlist=" + Join(Domains(m.merchantAllowlist), ','), "policyVersion=" + IntText(m.policyVersion) ]
  }

  lemma FieldIsNamed(m: Mandate, i: nat)
    requires i < 16
    ensures Fields(m)[i] == NamedFields(m)[i]
  {
    hide Lower;
    hide Decimal;
    hide IntText;
    hide Domains;
    hide Join;
    NameIs(i);
    Assembled(FIELD_ORDER[i], EncodedFields(m)[i]);
    hide FIELD_ORDER;
  }

  function Names(): (names: seq<string>)
    ensures |names| == 16
  {
    [ "mandateId=", "owner=", "agentId=", "chainId=", "asset=", "settlementRecipient=", "maxPerCard=",
      "maxPerWindow=", "maxCardsPerWindow=", "windowSeconds=", "maxAuthValiditySeconds=", "expiresAt=",
      "revoked=", "intentConstraint=", "merchantAllowlist=", "policyVersion=" ]
  }

  lemma NameIs(i: nat)
    requires i < 16
    ensures FIELD_ORDER[i] + "=" == Names()[i]
  {
  }

  lemma Assembled(name: string, value: string)
    ensures name + ("=" + value) == (name + "=") + value
  {
  }

  // ---- Hashes --------------------------------------------------------------------------

  /** What keccak256 is applied to: the UTF-8 bytes of a text, or the bytes a hex string spells. */
  datatype Preimage = Utf8(text: string) | HexBytes(hex: string)

  type Keccak = Preimage -> string

  function HashPolicy(keccak: Keccak, m: Mandate): string {
    keccak(Utf8(Serialise(m)))
  }

  function HashIntentInstruction(keccak: Keccak, instruction: string): string {
    keccak(Utf8(instruction))
  }

  /** A lower-cased hash without its prefix; anything but 64 digits throws. */
  function Strip(h: string): Result<string> {
    var lower := Lower(h);
    var bare := if |lower| >= 2 && lower[..2] == "0x" then lower[2..] else lower;
    if |bare| == 64 then Ok(bare) else Err("expected a 32-byte hex value")
  }

  function BuildCommitmentNonce(keccak: Keccak, requestId: string, policyHash: string, intentHash: string,
                                merchantDomain: string): Result<string>
  {
    match (Strip(keccak(Utf8(requestId))), Strip(keccak(Utf8(merchantDomain))), Strip(policyHash), Strip(intentHash))
    case (Ok(request), Ok(merchant), Ok(policy), Ok(intent)) =>
      Ok(keccak(HexBytes(request + policy + intent + merchant)))
    case _ => Err("expected a 32-byte hex value")
  }

  /** The 256 digits a nonce is the hash of: request, policy, intent and merchant, 64 digits each. */
  predicate Spells(words: string, keccak: Keccak, requestId: string, policyHash: string, intentHash: string,
                   merchantDomain: string)
  {
    && |words| == 256
    && Strip(keccak(Utf8(requestId))) == Ok(words[..64]) && Strip(policyHash) == Ok(words[64..128])
    && Strip(intentHash) == Ok(words[128..192]) && Strip(keccak(Utf8(merchantDomain))) == Ok(words[192..])
  }

  ghost predicate CommitsTo(nonce: string, keccak: Keccak, requestId: string, policyHash: string, intentHash: string,
                            merchantDomain: string)
  {
    exists words: string ::
      nonce == keccak(HexBytes(words)) && Spells(words, keccak, requestId, policyHash, intentHash, merchantDomain)
  }

  /** A nonce is built exactly when all four words can be, and it is the hash of those words in that order. */
  lemma NonceIsTheHashOfItsWords(keccak: Keccak, requestId: string, policyHash: string, intentHash: string,
                                 merchantDomain: string)
    ensures var nonce := BuildCommitmentNonce(keccak, requestId, policyHash, intentHash, merchantDomain);
            && (nonce.Ok? <==> exists words :: Spells(words, keccak, requestId, policyHash, intentHash, merchantDomain))
            && (nonce.Ok? ==> CommitsTo(nonce.value, keccak, requestId, policyHash, intentHash, merchantDomain))
  {
    if BuildCommitmentNonce(keccak, requestId, policyHash, intentHash, merchantDomain).Ok? {
      var a, b := Strip(keccak(Utf8(requestId))).value, Strip(policyHash).value;
      var c, d := Strip(intentHash).value, Strip(keccak(Utf8(merchantDomain))).value;
      FourWordsCut(a, b, c, d);
      assert Spells(a + b + c + d, keccak, requestId, policyHash, intentHash, merchantDomain);
    }
    hide Strip;
  }

  lemma FourWordsCut(a: string, b: string, c: string, d: string)
    requires |a| == |b| == |c| == |d| == 64
    ensures var words := a + b + c + d;
            && |words| == 256 && words[..64] == a && words[64..128] == b && words[128..192] == c && words[192..] == d
  {
  }

  /** A hash is 64 characters, after a prefix or without one, and is read in lower case. */
  lemma StripTakesThePrefixOff(h: string)
    ensures Strip(h).Ok? <==>
              (|h| == 66 && HasPrefix(h)) || (|h| == 64 && !HasPrefix(h))
    ensures Strip(h).Ok? ==> Strip(h).value == Lower(h[|h| - 64..])
  {
    var lower := Lower(h);
    assert |h| >= 2 ==> (lower[..2] == "0x" <==> lower[0] == '0' && lower[1] == 'x');
    if |h| >= 64 {
      assert lower[|h| - 64..] == Lower(h[|h| - 64..]);
    }
  }

  predicate HasPrefix(h: string) {
    |h| >= 2 && h[0] == '0' && (h[1] == 'x' || h[1] == 'X')
  }

  /** keccak256 has no collisions among texts, nor among byte strings, and answers 32 bytes. */
  ghost predicate CollisionFree(keccak: Keccak) {
    && (forall x, y :: Strip(keccak(Utf8(x))).Ok? && (Strip(keccak(Utf8(x))) == Strip(keccak(Utf8(y))) ==> x == y))
    && (forall x, y :: keccak(HexBytes(x)) == keccak(HexBytes(y)) ==> x == y)
  }

  /** The nonce commits to all four inputs: equal nonces mean equal inputs, up to hash letter case. */
  lemma NonceCommits(keccak: Keccak, r: string, p: string, i: string, d: string,
                     r': string, p': string, i': string, d': string)
    requires CollisionFree(keccak)
    requires BuildCommitmentNonce(keccak, r, p, i, d).Ok?
    requires BuildCommitmentNonce(keccak, r, p, i, d) == BuildCommitmentNonce(keccak, r', p', i', d')
    ensures r == r' && Strip(p) == Strip(p') && Strip(i) == Strip(i') && d == d'
  {
    var (a, b, c, e) := (Strip(keccak(Utf8(r))).value, Strip(p).value, Strip(i).value, Strip(keccak(Utf8(d))).value);
    var (a', b', c', e') :=
      (Strip(keccak(Utf8(r'))).value, Strip(p').value, Strip(i').value, Strip(keccak(Utf8(d'))).value);
    FourWords(a, b, c, e, a', b', c', e');
  }

  lemma FourWords(a: string, b: string, c: string, e: string, a': string, b': string, c': string, e': string)
    requires |a| == |b| == |c| == |a'| == |b'| == |c'|
    requires a + b + c + e == a' + b' + c' + e'
    ensures a == a' && b == b' && c == c' && e == e'
  {
    var s := a + b + c + e;
    assert s[..|a|] == a && s[|a|..2 * |a|] == b && s[2 * |a|..3 * |a|] == c && s[3 * |a|..] == e;
    assert s[..|a|] == a' && s[|a|..2 * |a|] == b' && s[2 * |a|..3 * |a|] == c' && s[3 * |a|..] == e';
  }

  // ---- The escalation message --------------------------------------------------------------

  datatype Verdict = Approve | Deny

  function BuildEscalationMessage(requestId: string, mandateId: string, decision: Verdict): string {
    Join(["straitsx-888 escalation decision", "requestId: " + requestId, "mandateId: " + Lower(mandateId),
          "decision: " + (if decision.Approve? then "approve" else "deny")], '\n')
  }

  /** Whether a signature over a message recovers to an address: address, message, signature. */
  type VerifyMessage = (string, string, string) -> bool

  predicate IsHexSignature(signature: string) {
    |signature| > 2 && signature[..2] == "0x"
    && forall i :: 2 <= i < |signature| ==>
         '0' <= signature[i] <= '9' || 'a' <= signature[i] <= 'f' || 'A' <= signature[i] <= 'F'
  }

  predicate VerifyEscalationSignature(verifyMessage: VerifyMessage, requestId: string, mandateId: string,
                                      decision: Verdict, signature: string, expectedSigner: string)
  {
    && IsHexSignature(signature)
    && verifyMessage(expectedSigner, BuildEscalationMessage(requestId, mandateId, decision), signature)
  }

  /** The text a wallet is asked to sign, line by line. */
  lemma EscalationMessageText(r: string, m: string, d: Verdict)
    ensures BuildEscalationMessage(r, m, d)
            == "straitsx-888 escalation decision\nrequestId: " + r
               + "\nmandateId: " + Lower(m)
               + "\ndecision: " + (if d.Approve? then "approve" else "deny")
  {
    var head, l, t := "straitsx-888 escalation decision\nrequestId: ", "mandateId: " + Lower(m),
                      "decision: " + (if d.Approve? then "approve" else "deny");
    MessageShape(r, m, d, head, l, t);
    assert "\nmandateId: " + Lower(m) == ['\n'] + l;
    assert "\ndecision: " + (if d.Approve? then "approve" else "deny") == ['\n'] + t;
  }

  /**
   * A signed message belongs to one request, one mandate and one decision. Request ids may hold
   * line breaks: the decision and the mandate are read from the end.
   */
  lemma EscalationMessageBinds(r: string, m: string, d: Verdict, r': string, m': string, d': Verdict)
    requires Without(m, '\n') && Without(m', '\n')
    ensures BuildEscalationMessage(r, m, d) == BuildEscalationMessage(r', m', d')
            <==> r == r' && Lower(m) == Lower(m') && d == d'
  {
    if BuildEscalationMessage(r, m, d) == BuildEscalationMessage(r', m', d') {
      var head := "straitsx-888 escalation decision\nrequestId: ";
      var t, t' := "decision: " + (if d.Approve? then "approve" else "deny"),
                   "decision: " + (if d'.Approve? then "approve" else "deny");
      var l, l' := "mandateId: " + Lower(m), "mandateId: " + Lower(m');
      MessageShape(r, m, d, head, l, t);
      MessageShape(r', m', d', head, l', t');
      LowerKeepsWithout(m, '\n');
      LowerKeepsWithout(m', '\n');
      assert head + r + ['\n'] + l + ['\n'] + t == head + r' + ['\n'] + l' + ['\n'] + t';
      LastSeparator(head + r + ['\n'] + l, t, head + r' + ['\n'] + l', t', '\n');
      assert t[10..] == (if d.Approve? then "approve" else "deny");
      LastSeparator(head + r, l, head + r', l', '\n');
      SamePrefix(head, r, r');
      SamePrefix("mandateId: ", Lower(m), Lower(m'));
    }
  }

  lemma MessageShape(r: string, m: string, d: Verdict, head: string, l: string, t: string)
    requires head == "straitsx-888 escalation decision\nrequestId: "
    requires l == "mandateId: " + Lower(m) && t == "decision: " + (if d.Approve? then "approve" else "deny")
    ensures BuildEscalationMessage(r, m, d) == head + r + ['\n'] + l + ['\n'] + t
  {
    var first, second := "straitsx-888 escalation decision", "requestId: " + r;
    JoinFour(first, second, l, t);
    assert head == first + ['\n'] + "requestId: ";
    FiveParts(first, "requestId: ", r, l, t);
  }

  lemma JoinFour(a: string, b: string, c: string, d: string)
    ensures Join([a, b, c, d], '\n') == a + ['\n'] + (b + ['\n'] + (c + ['\n'] + d))
  {
    var parts: seq<string> := [a, b, c, d];
    var tail: seq<string> := [b, c, d];
    var last: seq<string> := [c, d];
    assert parts[1..] == tail && tail[1..] == last && last[1..] == [d];
    assert Join(last, '\n') == c + ['\n'] + d;
    assert Join(tail, '\n') == b + ['\n'] + Join(last, '\n');
  }

  lemma FiveParts(first: string, key: string, r: string, l: string, t: string)
    ensures first + ['\n'] + (key + r + ['\n'] + (l + ['\n'] + t))
            == first + ['\n'] + key + r + ['\n'] + l + ['\n'] + t
  {
  }
}
