# Card payments on a mandate: a verified model

An agent pays for purchases with stablecoin transfers that a human has bounded by a mandate. Four
services share the work: a ledger that records intents and reserves nonces, a policy service that
checks each payment against the mandate and asks the signer for a transfer authorisation, a signer
that holds the key, and an orchestrator that drives a run from discovery to checkout. This project
models what those services do and proves what they promise together.

| files | what they model |
|---|---|
| `LedgerStore`, `LedgerService`, `LedgerInvariants`, `LedgerHistory`, `LedgerFeed` | the ledger's store, its routes on values and in place, what holds after any sequence of requests, which requests are accepted and where everything on record comes from, and the feed as the dashboard reads it |
| `PolicyChecks`, `SignerService`, `PolicySigning` | the ladder of checks, the signer's rail and replay set, one uninterrupted signing attempt |
| `SigningProtocol`, `PolicyHandlers` | payment and resolve handlers as interleaved steps over ledger and signer, on values and in place |
| `SigningInvariant`, `SigningSafety`, `SigningAuthority`, `RecordedDecision` | what every interleaving keeps, and what follows for signatures, receipts and recorded decisions |
| `Evidence`, `Explained`, `Answers`, `Refusals` | what every handler read before it acts, why each log entry, escalation and receipt is there, that each answer is on record, and what each refused signing was refused for |
| `Scenes`, `Witnesses` | concrete runs of the protocol from its first step, for what it does not prevent |
| `RollingWindow`, `RollingBudget`, `EmittedBudget`, `BudgetIsTight` | the spending window under concurrency, by what is recorded and by what is emitted, and runs that exhaust the bound |
| `RunPipeline`, `RunStatus`, `RunTerminal`, `PolicyAnswers`, `RunOverPolicy` | one orchestrator run with its resolutions and expiry timer, what its feed and state tell, when its terminal states are final, what policy's replies become there, and the run together with the services behind it |
| `Bytes`, `Der`, `Spki`, `SignatureForm` | the byte codecs of signatures and keys (ITU-T X.690 sections 8.1.3, 8.3 and 10.1; RFC 3279 section 2.2.3; RFC 5480 section 2) and the low-s form |
| `Text`, `Mandate`, `Money` | the canonical encodings that are hashed or signed, and the decimal printers and readers |
| `SseFraming`, `McpClient` | the event-stream framing and the table of pending calls |

How the concurrent part is modelled. A ledger route has no await, so it is one step. A handler of
the policy service stops at each await; its ledger call is served at one moment and answered at a
later one; it may be cut off at any await, and the call it has outstanding may still be served. The
signer reads its replay set when a call arrives and writes it when the key has answered. Any number
of handlers may serve the same request id. Time passes in any amounts between steps. A run is any
finite sequence of steps; a step that is not possible changes nothing. Theorems are about all runs.

`keccak256` is a parameter, taken to be free of collisions only in `Mandates.NonceCommits`. The
curve, the key store and the address recovery are parameters too. The on-chain registry, the item
matcher, `JSON.parse` and the endpoint URL check are free outcomes; message recovery is a parameter.

## What the code does that its documentation does not say

- The recorded decision is not stable, the receipt is: any handler of a signed request that records a refusal or
  an escalation overwrites it, for one the handler that lost the nonce reservation
  (`RecordedDecision.SignedStaysUnlessOverwritten`, `Witnesses.LoserOverwritesTheDecision`, `SigningSafety.ReceiptsStay`).
- The run states DONE, REFUSED and FAILED are documented as terminal, but anything of the run still in flight can
  overwrite them, an expiry whatever the state is (`RunTerminal.FinalExactlyWhenQuiet`, `RunTerminal.DoneIsNotFinal`).
- The expiry timer fires 250 ms after the deadline, while policy needs the next whole second; a punctual
  expiry ends the run FAILED instead of REFUSED (`PolicyAnswers.ExpiryRefusesExactlyWhen`).
- A refused payment is sent with status 422, which the orchestrator's client throws, so the run ends FAILED
  rather than REFUSED (`PolicyAnswers.RefusedPaymentEndsFailed`).
- The refusal documented for an unknown intent is not sent, because the ledger answers 404 to recording it
  (`PolicyAnswers.UnknownIntentIsNotRefused`).
- An approval signs the stored challenge without running the checks again: the owner's signature and the signer's
  rail bound it, the mandate does not unless the stored challenge is within it
  (`SigningAuthority.ApprovalIsWithinTheMandateExactlyWhen`, `Witnesses.ApprovalBeyondTheCeiling`).
- A second settlement overwrites the first, also after a capture (`LedgerInvariants.SettlementCanOverwriteACapturedOne`).
- The DER reader accepts padded integers and long length forms, and the key reader a BIT STRING longer than
  its buffer (`Der.NonMinimalFormsAreAccepted`, `Spki.OverlongBitStringIsAccepted`).
- Policy compares addresses without regard to case, including the prefix; the signer accepts only `0x`
  (`SignerService.AcceptanceRefinesTheRail`).
- CR-LF is normalised per chunk, so a boundary between CR and LF changes the events
  (`SseFraming.ChunkingDoesNotMatter`).
- A signature whose handler is cut off before its record is in no window, so emitted signatures have no bound of
  their own unless no handler is cut off there (`BudgetIsTight.CutOffsEscapeTheWindow`, `EmittedBudget.EmittedWithinBudget`).
- The dashboard's ledger page fetches a snapshot beside the stream; an answer that arrives late makes the page stale
  (`LedgerFeed.LateFetchIsStale`, `LedgerFeed.FetchedPageShowsExactlyWhen`).
- A message that is the JSON text `null` ends the event stream (`McpClient.ChunkStopsExactlyWhen`).

## Model

| member | source | states |
|---|---|---|
| SigningSafety.SignedAtMostOnce | services/policy-service/src/signing.ts:40-78 | after every sequence of steps of any number of payment and resolve handlers, aborts, failed signer calls and outside ledger requests, no two emitted signatures are for the same request id |
| SigningSafety.OneSignedReply | services/policy-service/src/app.ts:189-207 | no two handlers ever report the same request as signed |
| SigningSafety.ReceiptsVerify | services/ledger-service/src/app.ts:439-475 | in every reachable state a receipt with a policy hash shows the hash of its instruction, a nonce that is the hash of 256 digits made up, in this order, of the hash of its own request id, its policy hash, its instruction hash and the hash of its merchant domain, and the nonce and validity window of a signature that was emitted; its mandate id and decision are those on record |
| Explained.ReceiptNamesItsMandate | services/policy-service/src/app.ts:321-347 | in every run, the policy hash of every receipt is the hash of the serialised mandate under which the signature it shows was made, for payments and approvals alike; the ledger held that mandate under its id at a moment of the run at which the handler read it, the merchant domain and instruction hash are the handler's, and the signature has authority |
| SigningSafety.ReceiptsStay | services/ledger-service/src/app.ts:336-342 | from any reachable state on, no later step of any run changes the policy hash, intent hash, merchant domain, nonce or validity window of a receipt that has a policy hash |
| RecordedDecision.SignedStaysUnlessOverwritten | services/policy-service/src/app.ts:184-187 | from every safe state, a request recorded as signed is still so after a step if and only if the step is not the ledger serving a handler of that request that is about to record a refusal or an escalation, whatever the refusal is for |
| RecordedDecision.ServedDecision | services/ledger-service/src/app.ts:311-345 | the decision of a signed request after the ledger serves any handler's call: refused or escalated if that handler of the request was about to record it, signed otherwise |
| RecordedDecision.SignedStaysAlong | services/policy-service/src/app.ts:184-197 | over any continuation of any run a signed request stays signed as long as no step of that kind occurs |
| Witnesses.LoserOverwritesTheDecision | services/policy-service/src/app.ts:184-187 | a run from the first step: two payment calls for one request reach the reservation together, one signs and is recorded, the other loses and has its refusal recorded over it; the winner still answers with the signed header |
| SigningInvariant.RunIsSafe | services/ledger-service/src/app.ts:129-171 | the invariant of the protocol after any run: at most one handler per request holds the reservation, its job's nonce is the reserved one, only a holder is signed for, every signed record is backed by a handler's job |
| SigningInvariant.NextKeeps | services/policy-service/src/signing.ts:40-78 | each single step of the system, possible or not, keeps that invariant |
| SigningInvariant.AcceptedReservation | services/ledger-service/src/app.ts:130-150 | a reservation is accepted only when the request is known and has no nonce, and then stores exactly the given nonce; otherwise the ledger is unchanged |
| SigningInvariant.WriteMoves | services/ledger-service/src/app.ts:311-345 | a ledger request changes a record's nonce only as a reservation or release of that request, and its receipt fields only as a signed decision on it; the instruction hash never changes |
| PolicySigning.PerformSigning | services/policy-service/src/signing.ts:21-79 | one uninterrupted attempt in place: a malformed hash changes nothing, a refused reservation changes nothing, a refused or failed signature leaves the ledger reserved-then-released and the replay set as it was, a signature leaves the nonce reserved and the id seen |
| PolicySigning.ReleaseUndoesReservation | services/ledger-service/src/app.ts:153-171 | after reserve and release the record is as before up to the release marks, and the nonce is gone, if and only if the request had not been decided as signed |
| Evidence.HandlersStand | services/policy-service/src/app.ts:60-354 | in every run, every handler is where it is for what it read from the ledger at some earlier moment: it signs for a payment only what that payment asked, on an intent, a mandate and a window under which all conditions of the ladder held and the item fits or was pre-approved, and for an approval only the stored challenge on the owner's verified word, under the hash of the mandate read; it refuses, escalates, denies or errs only for the reason that it gives |
| Explained.RunIsExplained | services/policy-service/src/app.ts:67-207 | in every run, each entry of the decision log and each escalation, with its resolution, is that of a handler of that request and is there for the reason it names, read from the ledger at a moment of the run |
| Explained.PaymentMeetsTheLadder | services/policy-service/src/app.ts:132-156 | a payment goes on if and only if every condition of the ladder holds; where a condition fails first, it is put to the human with WINDOW_BUDGET_EXCEEDED if that is the budget or the card count, and refused under that check's name otherwise |
| Explained.RefusalIsRecordedAndAnswered | services/policy-service/src/app.ts:67-78 | at any moment, a refused payment of a known intent becomes the last log entry and the decision on record, refused under the check that stopped it, and is answered with that check |
| Explained.EscalationIsOpened | services/policy-service/src/app.ts:80-91 | at any moment, a payment put to the human opens an escalation for its mandate, merchant and reason, unless one is there, that expires the configured seconds after that moment, and goes on to record it |
| Explained.EscalationIsRecordedAndAnswered | services/policy-service/src/app.ts:92-104 | that payment becomes the last log entry and the decision on record, escalated under its check, and is answered with the reason |
| Answers.AnswersAreOnRecord | services/policy-service/src/app.ts:184-207 | in every run, every reply that tells of a signature, a refusal, an escalation, a denial or a timeout is on the decision log as such, and every handler whose signing was refused has freed the nonce before it goes on |
| Answers.ReleaseIsAccepted | services/policy-service/src/signing.ts:61-65 | in every reachable state the ledger accepts the release that follows a refused signing, whatever else has happened to the request |
| Refusals.RefusalsSayWhy | services/policy-service/src/signing.ts:40-76 | in every run, a handler that came to sign and answers with an error answers the code of what refused it at some moment of the run: the ledger, for an unknown request or a live nonce, or the signer, for the requirement its request failed on the replay set of that moment, or because the key did not answer |
| Answers.ReplaySetIsWhatWasSigned | services/signer-service/src/routes/sign.ts:228-229 | in every run a request id is in the signer's replay set if and only if a signature was emitted for it |
| Answers.ApprovalExtendsExactlyWhen | services/policy-service/src/app.ts:349-351 | a signed approval is extended to its merchant, for the mandate's window from now, if and only if the owner asked for that, the escalation was about the item, and it names a merchant |
| SigningAuthority.EverySignatureHasAuthority | services/signer-service/src/sign/rail.ts:97-168 | every signature emitted in any interleaving, for a payment or an approval, is within the signer's rail whatever policy asked for: pinned mandate and recipient, at most its hard maximum, the configured wallet, chain and token domain, at most 600 s; it is valid for the lesser of the mandate's and the challenge's seconds; one made for a payment is for exactly the amount asked, within the bounds, chain, token, recipient and validity of the mandate; one made for an approval rests on the owner's own signature over an approval of that request under that mandate |
| SigningAuthority.ApprovalIsWithinTheMandateExactlyWhen | services/policy-service/src/app.ts:297-331 | an authorisation signed on an approval is within the mandate's amounts, chain, token and validity if and only if the challenge stored on the ledger for that request is |
| Witnesses.ApprovalBeyondTheCeiling | services/policy-service/src/app.ts:322-331 | a run from the first step whose one signature, on the owner's approval, is for four times the mandate's ceiling and window budget, and within the signer's hard maximum |
| PolicyChecks.ChecksPassExactlyWhenCleared | services/policy-service/src/checks/index.ts:31-40 | the eight checks let a payment through if and only if the registry entry is live and has the mandate's hash, chain, token and recipient are the mandate's, the amount is the one asked for, between 5000000 and the ceiling and within what the window has left, a card is free, the validity is sane and the challenge was attached after the intent was created |
| PolicyChecks.LadderVerdict | services/policy-service/src/checks/index.ts:31-40 | the ladder stops at the k-th check if and only if the k-th condition, in the mandate's terms, is the first that fails; it then asks for the human with WINDOW_BUDGET_EXCEEDED if that is the budget or the card count, and refuses otherwise |
| PolicyChecks.ItemVerdict | services/policy-service/src/checks/check9-intent-match.ts:26-51 | without a standing approval an item goes on exactly when its merchant is on the list, if there is one, and the matcher is sure; any other is put to the human with INTENT_MISMATCH, and none is refused |
| PolicyHandlers.HandlerProcess.ContinuePayment | services/policy-service/src/app.ts:107-208 | the payment handler in place, from one await to the next, equals the step on values; a payment that goes on to sign has collected the names of all nine checks |
| PolicyHandlers.HandlerProcess.ClimbChecks | services/policy-service/src/app.ts:132-156 | the loop over the checks, in place, equals the step on values: refuse, escalate or go on, as `Explained.PaymentMeetsTheLadder` says by the conditions |
| PolicyHandlers.HandlerProcess.ContinueResolve | services/policy-service/src/app.ts:226-354 | the resolve handler in place, from one await to the next, equals the step on values; `Evidence.HandlersStand` says what an approval commits to |
| PolicyHandlers.HandlerProcess.ContinueSigning | services/policy-service/src/signing.ts:40-78 | the reserve, sign and release section and the decision after it, in place, equals the step on values |
| PolicyHandlers.HandlerProcess.Resume | services/policy-service/src/app.ts:60-354 | one resumption of a handler, wherever it was stopped, is the protocol's step |
| RollingBudget.RollingBudgetHolds | services/ledger-service/src/app.ts:173-203 | for every window of every run under the stated deployment assumptions, the amounts signed without a human and decided in the window sum to at most maxPerWindow + (k-1)*min(maxPerCard, 30000000) and number at most maxCardsPerWindow + (k-1), k being the number of payments allowed in flight, so that k = 1 gives the exact limits; each payment counted is on the ledger as signed for that amount |
| BudgetIsTight.BoundIsAttained | services/policy-service/src/checks/check6-window-budget.ts:7-27 | for every k >= 1 there is a run that keeps to all those assumptions with k payments in flight and spends, in one window, exactly maxPerWindow + (k-1)*ceiling on exactly maxCardsPerWindow + (k-1) cards |
| EmittedBudget.EmittedWithinBudget | services/policy-service/src/app.ts:129-207 | under the same assumptions, at every moment of every run the signatures emitted for the mandate, recorded in the window ending now or not yet recorded, stay within the same bound, except those whose handler was cut off between signature and record; each stands for an emitted signature over the amount it counts with |
| EmittedBudget.EmittedIsAliveUnlessCutOff | services/policy-service/src/app.ts:173-197 | a payment the signer signed for is recorded or still on its way to the record if and only if it was not cut off while it waited for the signer |
| BudgetIsTight.CutOffsEscapeTheWindow | services/policy-service/src/app.ts:173-197 | for every n there is a run, with one payment in flight at a time, that emits n signatures of a full window's budget each while every window answer stays zero |
| RollingBudget.ObservedRunIsTracked | services/policy-service/src/app.ts:129-207 | along every such run, what each window read saw stays an account of the payments recorded or in flight at that moment |
| RollingBudget.NobodyElseDecides | services/policy-service/src/app.ts:226-232 | no other handler, payment or resolution, can record a decision on a request whose payment is on record as signed |
| RollingWindow.BoundFromReads | services/policy-service/src/checks/check6-window-budget.ts:7-27 | of any set of payments alive since their reads, none read after a window's end or recorded before its start, the last read bounds the total and the count |
| RollingWindow.WindowCountsAll | services/ledger-service/src/app.ts:181-189 | the window answer is at least the total and the number of any set of recorded payments of distinct requests decided since its start |
| RollingBudget.ChecksPass | services/policy-service/src/checks/check5-amount-bounds.ts:12-30 | a payment whose eight checks pass asked for at most the ceiling, fits in what the window had left, and leaves a card free |
| LedgerInvariants.HandleKeeps | services/ledger-service/src/app.ts:40-437 | every request by any caller keeps the ledger's invariant, and extends the ledger: identity, instruction and hash never change, challenge and capture are write-once, a settlement never disappears |
| LedgerInvariants.RunIsSound | services/ledger-service/src/app.ts:311-345 | after any request sequence: log sequences are 1..n, event numbers are 1..n, each record's decision and decidedAt are those of its last log entry, capture implies settlement, and a nonce is present exactly when the last nonce event of the request was a reservation |
| LedgerInvariants.RunExtends | services/ledger-service/src/app.ts:40-171 | along any run the later ledger extends the earlier one: order, log and feed by suffixes, records as above |
| LedgerInvariants.WindowFoldsTheLog | services/ledger-service/src/app.ts:181-189 | the window loop over cached decisions equals the fold over the last log entry of each intent |
| LedgerInvariants.SettlementCanOverwriteACapturedOne | services/ledger-service/src/app.ts:372-373 | a settlement posted after a capture leaves capture and settlement naming the same transaction if and only if it repeats that transaction |
| LedgerHistory.AcceptedExactlyWhen | services/ledger-service/src/app.ts:40-437 | every mutating request is accepted if and only if what it is about is known, its body is complete and nothing on record stands against it, with status 201 exactly for a new intent or escalation; a refused one changes nothing and its status tells which of these failed |
| LedgerHistory.CaptureIsRecordedExactlyWhen | services/ledger-service/src/app.ts:381-414 | for every ledger and request, a capture is recorded if and only if the intent is known, the body complete, none is there yet, a settlement is there and a transaction that is named is that settlement's; it then names that settlement's transaction, and the posted block or else the settled one |
| LedgerHistory.MatchStaysExactlyWhen | services/ledger-service/src/app.ts:348-414 | any request leaves a capture and its intent's settlement naming one transaction if and only if it is not a settlement of a captured intent that names another |
| LedgerHistory.CaptureNamesItsSettlement | services/ledger-service/src/app.ts:381-414 | so in every run without such a settlement the two keep naming one transaction |
| LedgerHistory.RecordsArePosted | services/ledger-service/src/app.ts:40-437 | after any run, every field of every record was posted, for that record, by a request of its own kind, with the instant of that request where the ledger adds one |
| LedgerHistory.RestIsPosted | services/ledger-service/src/app.ts:217-345 | after any run, every log entry is one that was posted, field by field; a mandate's policy is the last one put, under the number of times it was put; a standing approval is the last one given for the mandate and lower-cased merchant; an escalation is as it was first asked for, expires its seconds after that moment, and is resolved as it was last resolved |
| LedgerHistory.StepIsAnnouncedOnce | services/ledger-service/src/app.ts:19-22 | every accepted request is announced by exactly one event of its own kind, at its moment, with the intent it touched, except a repeated escalation, which like every refused request is not announced |
| LedgerHistory.EventsAreOfRequests | services/ledger-service/src/app.ts:19-22 | after any run, every event of the feed announces a request of the run at its moment |
| LedgerHistory.StatesFollowTheFeed | services/ledger-service/src/app.ts:108-414 | after any run, the state of each intent is the one that its own events lead to, in order |
| LedgerFeed.FeedIsAReplica | services/dashboard/app/ledger/page.tsx:92-103 | the two stream listeners: a page that shows the ledger at some moment of a run and replays the append events emitted since lists each current intent exactly once, with every field as it is on record, and nothing else; event numbers are consecutive |
| LedgerFeed.SubscriberIsAReplica | services/ledger-service/src/app.ts:97-99 | the same from the start: the snapshot sent on joining after any run, and the append events after it, keep listing the ledger, field by field |
| LedgerFeed.FetchedPageShowsExactlyWhen | services/dashboard/app/ledger/page.tsx:82-103 | with the page's own fetch beside the stream: once its answer has replaced the list, the page shows the ledger if and only if each request was announced since or has not changed since the answer was given |
| LedgerFeed.LateFetchIsStale | services/dashboard/app/ledger/page.tsx:83-89 | an answer given before a creation that arrives after its append event leaves the page without the intent |
| LedgerFeed.PunctualFetchIsHarmless | services/dashboard/app/ledger/page.tsx:82-103 | an answer that arrives before any event emitted after it leaves the page showing the ledger |
| LedgerFeed.StepIsShown | services/ledger-service/src/store.ts:182-218 | each request's own append event carries enough to keep a page showing the ledger |
| LedgerFeed.SnapshotShows | services/ledger-service/src/app.ts:97-97 | the snapshot sent on joining lists the ledger: each intent once, with every field as it is on record |
| LedgerService.Service.PostIntent | services/ledger-service/src/app.ts:40-66 | in place, the reply and the whole new store equal the route on values: creation, its three refusals, and the whole new store |
| LedgerService.Service.PostChallenge | services/ledger-service/src/app.ts:108-127 | in place, the reply and the whole new store equal the route on values: attaching a challenge once to a known intent |
| LedgerService.Service.PostNonce | services/ledger-service/src/app.ts:130-150 | in place, the reply and the whole new store equal the route on values: the conditional reservation |
| LedgerService.Service.PostReleaseNonce | services/ledger-service/src/app.ts:153-171 | in place, the reply and the whole new store equal the route on values: release before a signature only |
| LedgerService.Service.PutPolicyRecord | services/ledger-service/src/app.ts:217-228 | in place, the reply and the whole new store equal the route on values: stores the policy under the next version |
| LedgerService.Service.PostEscalation | services/ledger-service/src/app.ts:232-255 | in place, the reply and the whole new store equal the route on values: creates once, answers the existing one after |
| LedgerService.Service.PutEscalation | services/ledger-service/src/app.ts:266-282 | in place, the reply and the whole new store equal the route on values: resolves unconditionally |
| LedgerService.Service.PostStandingApproval | services/ledger-service/src/app.ts:286-298 | in place, the reply and the whole new store equal the route on values: keyed by mandate and lower-cased merchant |
| LedgerService.Service.PostDecision | services/ledger-service/src/app.ts:311-345 | in place, the reply and the whole new store equal the route on values: logs every decision, caches it, stores receipt fields for signed ones |
| LedgerService.Service.PostSettlement | services/ledger-service/src/app.ts:348-376 | in place, the reply and the whole new store equal the route on values: overwrites without a guard |
| LedgerService.Service.PostCapture | services/ledger-service/src/app.ts:381-414 | in place, the reply and the whole new store equal the route on values; `LedgerHistory.CaptureIsRecordedExactlyWhen` says when that records a capture, and which |
| LedgerService.Service.PostSpend | services/ledger-service/src/app.ts:416-437 | in place, the reply and the whole new store equal the route on values: records the observed spend |
| LedgerService.Service.GetWindow | services/ledger-service/src/app.ts:175-203 | the accumulating loop computes the window of the store at that moment |
| PolicyChecks.RunChecks | services/policy-service/src/app.ts:144-156 | the loop stops at the first failing check, having collected exactly the names of the checks before it |
| PolicyChecks.FirstFailure | services/policy-service/src/checks/index.ts:31-40 | none if and only if all eight checks pass; otherwise the k-th fails and all before it pass |
| SignerService.AcceptanceRefinesTheRail | services/signer-service/src/sign/rail.ts:97-168 | for a signer booted for the mandate, a request built after the eight checks pass is admitted if and only if its id is unseen and the challenge spells its addresses with "0x" rather than "0X"; what is signed has the accepted block's amount, recipient and token, and a window of at most 600 s |
| SignerService.AdmittedExactlyWhen | services/signer-service/src/sign/rail.ts:97-168 | a request reaches the key if and only if it is well formed and meets all eight requirements, pinned mandate, recipient, hard maximum, wallet, chain, window, unseen id and token domain; what is then signed is what was asked for, in lower case; any other is refused under the code of the first requirement it fails |
| SignerService.Signer.Begin | services/signer-service/src/routes/sign.ts:173-200 | before the key is used, the replay set as it stands decides with the shape, rail and domain checks, in that order |
| Der.EncodeLength | services/signer-service/src/keys/der.ts:50-59 | below 128 the length itself, otherwise the count and the bytes of the length modulo 2^32; below 2^32 it is the encoded length |
| Der.ReadLength | services/signer-service/src/keys/der.ts:63-80 | reads exactly the accepted length forms, and refuses exactly when there is none at the offset |
| Der.ToDerInteger | services/signer-service/src/keys/der.ts:84-101 | the hexadecimal detour and the sign padding give the minimal content of the integer |
| Der.EncodeSignatureDer | services/signer-service/src/keys/der.ts:104-125 | succeeds exactly on scalars in 1..n-1, with the encoded signature |
| Der.ReadInteger | services/signer-service/src/keys/der.ts:137-153 | reads exactly the accepted integers, and refuses exactly when there is none at the offset |
| Der.ParseSignatureDer | services/signer-service/src/keys/der.ts:128-161 | total; answers (r, s) only if the grammar accepts the bytes as (r, s) with both in 1..n-1, and refuses only if it accepts no pair |
| Der.RoundTrip | services/signer-service/src/keys/der.ts:104-161 | the encoding of any two scalars is accepted as those scalars |
| Der.EncodedSignature | services/signer-service/src/keys/der.ts:103-125 | the encoding of two scalars has between 8 and 72 bytes |
| Der.ReadingIsUnique | services/signer-service/src/keys/der.ts:128-161 | no byte string is accepted as two different pairs |
| Der.EncoderIsUniqueShortest | services/signer-service/src/keys/der.ts:104-161 | if d is accepted as (r, s), the encoding of (r, s) is no longer than d, and of equal length only if identical |
| Der.NonMinimalFormsAreAccepted | services/signer-service/src/keys/der.ts:143-152 | decode then encode is not the identity: a padded integer is accepted and is not what the encoder writes |
| Spki.BuildSpkiDer | services/signer-service/src/keys/local-key-source.ts:38-64 | succeeds exactly on 65-byte points starting with 0x04, with the DER key for the secp256k1 algorithm identifier |
| Spki.ExtractUncompressedPoint | services/signer-service/src/keys/derive-address.ts:52-81 | walks to the point without fixed offsets; answers what the grammar extracts and refuses only if it extracts nothing |
| Spki.SpkiRoundTrip | services/signer-service/src/keys/derive-address.ts:31-81 | for every algorithm-identifier content and every uncompressed point, extraction from the encoded key gives back the point |
| Spki.ExtractionIsUnique | services/signer-service/src/keys/derive-address.ts:52-81 | no byte string holds two different points |
| Spki.OverlongBitStringIsAccepted | services/signer-service/src/keys/derive-address.ts:68-81 | a BIT STRING whose length claims more than is there is accepted, as the slice stops at the end of the buffer |
| SignatureForm.LowSIsCanonical | services/signer-service/src/keys/der.ts:30-37 | the emitted s is in 1..floor(n/2), is s or n - s, is the same for both, and is stable under repetition |
| SignatureForm.PackingSplitsBack | services/signer-service/src/sign/pipeline.ts:76-81 | the packed string has 132 characters and its three fields read back as r, s and v |
| SignatureForm.HexFieldReadsBack | services/signer-service/src/sign/pipeline.ts:120-124 | the even-length hexadecimal response field reads back as the value |
| SignatureForm.RecoverV | services/signer-service/src/sign/pipeline.ts:148-178 | 27 or 28 by the parity of the first recovery id that recovers the expected address, and an error exactly when none does |
| SignatureForm.EmitSignature | services/signer-service/src/sign/pipeline.ts:181-214 | parse, normalise, recover and pack: succeeds exactly when the bytes are a signature and some id recovers the address, with the low-s form |
| Mandates.SerialiseIsUnambiguous | packages/contracts/src/mandate.ts:39-62 | for delimiter-free fields and non-empty comma-free domains, equal serialisations hold exactly when the mandates agree field by field up to address case and domain case and outer space |
| Mandates.DelimitersCanCollide | packages/contracts/src/mandate.ts:60-62 | without that condition, every mandate has two variants of different terms and one serialisation |
| Mandates.DomainsCanCollide | packages/contracts/src/mandate.ts:39-58 | a comma in a domain, or a blank domain, is not told apart from another allowlist |
| Mandates.SerialisedText | packages/contracts/src/mandate.ts:17-62 | the text that is hashed is the sixteen fields, each under its own name, joined by bars in the documented order |
| Mandates.NonceIsTheHashOfItsWords | packages/contracts/src/mandate.ts:104-126 | a nonce is built if and only if all four words are hashes, and it is then the hash of 256 digits whose quarters are, in this order, the stripped hash of the request id, the policy hash, the instruction hash and the stripped hash of the merchant domain |
| Mandates.StripTakesThePrefixOff | packages/contracts/src/mandate.ts:110-119 | a word is accepted if and only if it has 64 characters after an optional prefix, and is read as these in lower case |
| Mandates.NonceCommits | packages/contracts/src/mandate.ts:104-126 | for a collision-free hash, equal nonces mean equal request ids, merchant domains and (up to letter case) hashes |
| Mandates.EscalationMessageBinds | packages/contracts/src/escalation.ts:44-51 | two escalation messages are equal exactly when request id, mandate id (up to case) and decision are; request ids may hold line breaks |
| Mandates.EscalationMessageText | packages/contracts/src/escalation.ts:44-51 | the message the owner signs is these four lines, in this order, with the mandate id in lower case and no line break at the end |
| Money.PrintersAgreeOnBalances | services/chain-gateway/src/routes/balance.ts:30-37 | for every n >= 0, formatUnits(n, 6) equals formatXsgd(n) |
| Money.PrintersAgreeExactly | services/dashboard/lib/format.ts:4-9 | on all integers the two printers agree exactly when n >= 0 or n is a whole number of dollars |
| Money.PrintedAmountReadsBack | services/agent-orchestrator/src/discovery/discover.ts:157-162 | dollarsToBaseUnits6 reads the printed amount back as n |
| Money.ReadersAgree | services/dashboard/lib/format.ts:12-16 | on every string dollarsToBaseUnits6 accepts, sgdToBaseUnits gives the same number |
| Money.WholePrice | services/agent-orchestrator/src/discovery/discover.ts:157-162 | a whole number of dollars is accepted if and only if it has no leading zero, as a million units each |
| Money.PlacedPrice | services/agent-orchestrator/src/discovery/discover.ts:157-162 | a price with places is accepted if and only if there are one to six of them, and they count for what their place is worth |
| Money.OnlyPricesAreRead | services/agent-orchestrator/src/discovery/discover.ts:157-162 | nothing else is accepted |
| SseFraming.ChunkingDoesNotMatter | services/agent-orchestrator/src/card-gateway/mcp-client.ts:103-124 | the events and the leftover equal those of normalising and splitting the whole stream at once, if and only if no chunk ends between a CR and its LF |
| SseFraming.FrameReader.Read | services/agent-orchestrator/src/card-gateway/mcp-client.ts:117-123 | the buffer loop of one read dispatches the complete events and keeps the rest |
| SseFraming.SplitContinues | services/agent-orchestrator/src/card-gateway/mcp-client.ts:118-123 | splitting the leftover with more text behind it continues where splitting stopped |
| SseFraming.SplitIsInvertible | services/agent-orchestrator/src/card-gateway/mcp-client.ts:118-123 | splitting loses nothing: events and leftover spell the text |
| SseFraming.FrameIsReadBack | services/agent-orchestrator/src/card-gateway/mcp-client.ts:133-140 | a frame as the ledger's feed writes it is split off whole and read back as its name and data |
| SseFraming.NamedEventIsRead | services/agent-orchestrator/src/card-gateway/mcp-client.ts:133-140 | the name of an event is read without outer space, its line of data without leading space |
| SseFraming.DataLinesAreJoined | services/agent-orchestrator/src/card-gateway/mcp-client.ts:133-140 | an event of any number of data lines is a message whose data are those lines, joined by line breaks |
| McpClient.EveryCallSettlesOnce | services/agent-orchestrator/src/card-gateway/mcp-client.ts:192-209 | after any run of calls, chunks, timers, post failures, stream ends and closes: the pending ids are exactly those issued and not settled, all below the next id, each with one armed timer and no other timer armed, and no id is settled twice |
| McpClient.AnswerSettlesItsOwn | services/agent-orchestrator/src/card-gateway/mcp-client.ts:152-166 | an answer settles its own call if pending, resolving it exactly when it has a result and no error, and leaves every other call and timer alone |
| McpClient.FirstAnswerDecides | services/agent-orchestrator/src/card-gateway/mcp-client.ts:117-166 | what a read does to a pending call is told by the first answer for it among the events that the read completes: resolved exactly by a result without an error, rejected by any other answer, and kept pending without one |
| McpClient.OnlyAnswersResolve | services/agent-orchestrator/src/card-gateway/mcp-client.ts:192-233 | timers, failed posts, the end of the stream and a close only ever reject |
| McpClient.ClosesExactlyWhen | services/agent-orchestrator/src/card-gateway/mcp-client.ts:228-233 | a client is closed by a close and nothing else, for good; on a closed one, closing again and the end of the stream settle nothing |
| McpClient.PostsGoToTheLastEndpoint | services/agent-orchestrator/src/card-gateway/mcp-client.ts:141-149 | the address that calls are posted to is that of the last endpoint event among those read, and nothing else changes it |
| McpClient.EndSettlesAll | services/agent-orchestrator/src/card-gateway/mcp-client.ts:95-131 | whatever ends the stream of an open client, its end, its failure, or an event inside a chunk whose dispatch throws, and a close, leaves no call pending and no timer armed, and every call that was pending settled |
| McpClient.ChunkStopsExactlyWhen | services/agent-orchestrator/src/card-gateway/mcp-client.ts:117-158 | a read ends the stream if and only if one of the events it completes names a bad endpoint or carries the message null |
| McpClient.ChunksActAsOne | services/agent-orchestrator/src/card-gateway/mcp-client.ts:108-124 | two chunks bring the client to the same state as their concatenation, unless they tear a CR-LF apart |
| McpClient.McpSseClient.Call | services/agent-orchestrator/src/card-gateway/mcp-client.ts:192-209 | in place, the whole new state equals the operation on values: issues the next id |
| McpClient.McpSseClient.OnTimer | services/agent-orchestrator/src/card-gateway/mcp-client.ts:195-198 | in place, the whole new state equals the operation on values: times out its own call |
| McpClient.McpSseClient.OnPostFailure | services/agent-orchestrator/src/card-gateway/mcp-client.ts:201-207 | in place, the whole new state equals the operation on values: fails its own call if still pending |
| McpClient.McpSseClient.OnChunk | services/agent-orchestrator/src/card-gateway/mcp-client.ts:117-131 | in place, the whole new state equals the operation on values: reads, splits and dispatches; a bad endpoint or a null message stops the stream |
| McpClient.McpSseClient.OnStreamEnd | services/agent-orchestrator/src/card-gateway/mcp-client.ts:110-115 | in place, the whole new state equals the operation on values: rejects all unless closed |
| McpClient.McpSseClient.CloseClient | services/agent-orchestrator/src/card-gateway/mcp-client.ts:228-233 | in place, the whole new state equals the operation on values: rejects all, once |
| McpClient.McpSseClient.DispatchEvent | services/agent-orchestrator/src/card-gateway/mcp-client.ts:133-166 | in place, the whole new state equals the operation on values: endpoint, answer or nothing; it throws exactly on a bad endpoint and on a null message |
| McpClient.McpSseClient.RejectEvery | services/agent-orchestrator/src/card-gateway/mcp-client.ts:95-101 | the loop rejects every pending call in call order and clears every timer |
| RunOverPolicy.PresentedHeaderWasSigned | services/agent-orchestrator/src/run/pipeline.ts:77-265 | in every interleaving of a run's start, resolutions and expiry with the policy service, the signer, the ledger and anybody else's calls: at most one header is presented for a card, before anything else that moves money; it is the one signature emitted for the request, was emitted for the handler of one of this run's calls, and has authority; DONE is set only after the transfer matched, then settlement, then capture; events are numbered 1..n and their stages are a prefix of the documented order |
| RunOverPolicy.FeedTellsTheRun | services/agent-orchestrator/src/run/pipeline.ts:77-265 | in every interleaving of a run with the services behind it: POLICY_DECISION is announced as ok, refused or escalated exactly as policy answered this run; SETTLEMENT_FINALIZED is announced as ok exactly when the transfer matched and settlement and capture were stored, and as refused exactly when the transfer did not match; every other stage is announced as ok |
| RunOverPolicy.NextKeepsJoined | services/agent-orchestrator/src/run/pipeline.ts:104-204 | each step of run or policy keeps what ties them: every call of the run has its own handler of that request, and a header that was presented is the one its handler reported as signed |
| RunOverPolicy.PolicyRuns | services/agent-orchestrator/src/clients/policy-client.ts:43-55 | what policy, signer and ledger do beside a run is a run of the signing protocol, so all that holds of those holds here |
| RunPipeline.NextIsOrderly | services/agent-orchestrator/src/run/pipeline.ts:120-265 | each step keeps the invariant that at most one task works and its place fixes the stages and acts so far, unless it hears of a signature after one was presented |
| RunStatus.StatusesTellTheRun | services/agent-orchestrator/src/run/pipeline.ts:120-265 | the same for a run alone, whatever the other services answer, as long as it hears of one signature at most |
| RunStatus.StateIsTheLastWord | services/agent-orchestrator/src/run/pipeline.ts:77-265 | in every run the state is what the last answer that says anything about it made of it |
| RunStatus.EscalationIsTheLastWord | services/agent-orchestrator/src/run/pipeline.ts:120-205 | in every run, an escalation is open from policy's escalating answer until an answer to it, a 410 or the expiry is heard, and its timer is armed until it fires or such an answer is heard; no other failure ends it |
| RunTerminal.FinalExactlyWhenQuiet | services/agent-orchestrator/src/run/pipeline.ts:139-206 | a terminal state that a run can reach from its start stays under every continuation if and only if no task of the run is in flight |
| RunTerminal.ExpiryOverwrites | services/agent-orchestrator/src/run/pipeline.ts:145-167 | an expiry in flight sets the run REFUSED or FAILED whatever the state is by then |
| RunTerminal.CanFinish | services/agent-orchestrator/src/run/pipeline.ts:208-265 | a task that presented its header has a continuation that brings the run to DONE and leaves every other task where it is |
| RunTerminal.DoneIsNotFinal | services/agent-orchestrator/src/run/pipeline.ts:145-166 | a run from its start: it escalates, is resolved while it expires, reaches DONE and then FAILED |
| RunPipeline.RunRecord.HandleDecision | services/agent-orchestrator/src/run/pipeline.ts:120-137 | in place, the whole new run equals the step on values: refused, escalated or signed |
| RunPipeline.RunRecord.ExecuteRun | services/agent-orchestrator/src/run/pipeline.ts:77-114 | in place, the whole new run equals the step on values: from one await of the run to the next |
| RunPipeline.RunRecord.ContinueSignedRun | services/agent-orchestrator/src/run/pipeline.ts:208-265 | in place, the whole new run equals the step on values: from one await after the signature to the next, every failure caught |
| RunPipeline.RunRecord.ResolveRunEscalation | services/agent-orchestrator/src/run/pipeline.ts:177-205 | in place, the whole new run equals the step on values: only an answer or a 410 ends the escalation |
| RunPipeline.RunRecord.ExpireEscalation | services/agent-orchestrator/src/run/pipeline.ts:145-167 | in place, the whole new run equals the step on values: finalises without looking at the state again |
| PolicyAnswers.ExpiryRefusesExactlyWhen | services/agent-orchestrator/src/run/pipeline.ts:139-160 | an escalation nobody answers ends REFUSED if and only if policy reads the timer's call at least 750 ms late and the ledger accepts both writes of the denial; otherwise it ends FAILED |
| PolicyAnswers.TimeoutNeedsLateness | services/policy-service/src/app.ts:235-245 | policy denies the timer's call by timeout if and only if it comes at least 750 ms late, and asks for the owner otherwise |
| PolicyAnswers.RefusedPaymentEndsFailed | services/agent-orchestrator/src/clients/policy-client.ts:43-55 | a refused payment, which policy sends as 422, is thrown by the client and ends the run FAILED with no decision event; a refused resolution ends it REFUSED |
| PolicyAnswers.ReplyIsHeardAs | services/agent-orchestrator/src/clients/policy-client.ts:41-53 | the orchestrator hears a signature, an escalation and a refused resolution as they were sent, and every other reply as thrown with its status, of which only a timeout's is 410 |
| PolicyAnswers.UnknownIntentIsNotRefused | services/policy-service/src/app.ts:67-78 | the refusal of a payment is sent if and only if its intent exists when the refusal is recorded; otherwise the handler throws |

## Left out

- RollingBudget.RollingBudgetHolds: assumes at every state of the run one payment request per request id, one unchanging policy for the mandate, the ledger's mandate and challenge amount equal to the request's, and at most k payments of the mandate between window read and signed record; none of these is enforced by the code.
- EmittedBudget.EmittedWithinBudget: rests on the same assumptions as RollingBudget.RollingBudgetHolds, and looks at the window that ends at the moment in question.
- RunTerminal.FinalExactlyWhenQuiet: what the other services answer is free, also after a header was presented; `RunOverPolicy` says what policy can answer then.
- SignerService.AcceptanceRefinesTheRail: check 9 places no condition on the request, so it is not among the hypotheses.
- Spki.SpkiRoundTrip: algorithm identifiers of more than 2^32 - 101 bytes, whose lengths the length codec cannot spell.
- The free-text detail of a recorded decision, and the explanations for a human, which policy adds to its refusals: the decision log keeps what is posted (`LedgerHistory.RestIsPosted`), handlers post none.
- Request routing, the internal token, error envelopes, retries and the encoding of request ids in URLs.
- Who may call: only policy-service reserves, releases, decides, escalates and signs in `SigningProtocol`; every other ledger request may come from anyone at any time.
- Bodies without an amount or a challenge: the payment handler refuses them at once, like those without ids, which are modelled.
- Amounts are natural numbers and instants are milliseconds; text that does not spell them, and fractions of milliseconds or of seconds in configured durations, do not occur.
- `toLowerCase` is modelled on ASCII letters; other letters are left alone.
- `Decimal` text of amounts, so check 5's comparison of amount strings is a comparison of numbers.
- keccak256, EIP-712 digests, secp256k1 recovery, the key store and base64 of the header: library code, uninterpreted.
- `exactAmountSgd` beyond its outcome: its last step is a conversion to a floating-point number.
- The order of the snapshot by creation time, heartbeats, and event fields beyond number, kind, instant and intent view.
- `parsePinnedMandates`, the token-overlap matcher, the x402 allowlist, transfer matching, discovery and checkout pages, balance and revoke routes apart from `formatUnits`, dashboard pages apart from the feed's fold.
- `TextDecoder`: chunks are texts already; the connection handshake and the timing of POST aborts of the MCP client.
- Process restarts, which lose the in-memory maps.
