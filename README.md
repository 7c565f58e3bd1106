# secure-cross-402 in Dafny

A model of the decision logic of secure-cross-402, a pay-per-call protocol on
HTTP 402 "Payment Required" (section 15.5.3 of RFC 9110) in the x402 style.
A client agent asks a service agent for a paid skill over JSON-RPC 2.0. The
service agent forwards the request to a resource server. Without payment, the
resource server answers with a 402 challenge whose `accepts` list says what to
pay and to whom. The client then signs an EIP-3009 `TransferWithAuthorization`
as EIP-712 typed data and retries with the base64 JSON of that authorization
in the `X-PAYMENT` header. The resource server has a facilitator verify the
payment, serves the result, and posts the payment to the facilitator's
`/settle`. The facilitator's settlement service can pay the resource server
from a pre-funded USDC balance on the target chain, and its risk service can
score the payer's address. A dashboard draws the payment logs as a graph and
keeps a ranked node tree.

The model has one module per source file, plus small shared modules:

- `Wrappers`: `Option` and `Result`.
- `Json`: JSON values, JavaScript truthiness, and an abstract lawful serialise/parse pair.
- `Base64`: a strict encoder and decoder per section 4 of RFC 4648.
- `Text`: lower-casing, decimal rendering, `BigInt` parsing and string order.
- `Http`: post outcomes and axios's 2xx rule.
- `PaymentTypes`: the payload record and the EIP-712 domain and message.

Every outside effect is an explicit input:

- the clock and the random nonce;
- signature recovery and signing, as uninterpreted functions;
- HTTP replies, as `PostResult` values or functions of what was sent;
- RPC answers and the token ledger.

Where the code updates state step by step, the model is imperative:

- `/verify` accumulates an error list and reads the nonce set held by a class field.
- The settlement is a method on a ledger class.
- The express response is a class with `setHeader`.
- The client, the resource server and the dashboard build their header maps and graphs with loops and assignments.

Each such method is tied by its `ensures` to a specification function. The
properties are proved about those functions.

Points where the code's behaviour is easy to misread:

- The client puts the zero address in place of a malformed verifying contract. The replacement happens in both the signing domain and the payload it transmits.
- `/verify` only reads the nonce set. No nonce is marked used anywhere in these files.
- The facilitator serves only `/supported`, `/verify` and `/healthz` (apps/facilitator/src/index.ts:27, 38 and 113). The resource server's settle call posts to `/settle` (apps/resource-server/src/x402.ts:35). Express answers that with a 404, and `settlePayment` returns the 404's body as its data (x402.ts:57). That body has no `success`, so the receipt at apps/resource-server/src/index.ts:51-53 always says `success: false`. Nothing in these files calls `settleWithPreFundedBalance` or `calculateRiskScore`. They are modelled as the services they are, and the settle reply stays a parameter of the resource server.
- The client runs no check of its own on the amount or the payee. It hands them to the wallet's `signTypedData`, which throws on an amount that is not a uint256 or a payee that is not an address. That throw is not modelled (see `ClientPayment.CreatePaymentPayload` under "Left out").

## Model

| member | source | states |
|---|---|---|
| Facilitator.ListSupported | apps/facilitator/src/index.ts:27-36 | `/supported` lists polygon-amoy 80002, base-sepolia 84532, polygon 137 and base 8453, each with the single scheme `exact` |
| Facilitator.SupportedChainIdsMatchTable | apps/facilitator/src/index.ts:27-48 | a chain id is in the `/verify` accepted set exactly when `/supported` lists a network with that id |
| Facilitator.PayloadSource | apps/facilitator/src/index.ts:39-40 | the body's `paymentPayloadBase64` wins when non-empty; otherwise the `X-PAYMENT` header when non-empty; otherwise nothing |
| Facilitator.DecodePayload | apps/facilitator/src/index.ts:17-42 | a missing or empty source, or text that does not decode, parse and read as a payload, gives no payload; a present payload is what the codec parsed from the base64 bytes |
| Facilitator.ChainErrors | apps/facilitator/src/index.ts:48-52 | `invalid_chain` is raised, once, exactly when no `/supported` network has the payload's chain id |
| Facilitator.TimeErrors | apps/facilitator/src/index.ts:53-54 | `not_yet_valid` exactly when now < validAfter and `expired` exactly when now > validBefore, in that order and nothing else |
| Facilitator.NonceErrors | apps/facilitator/src/index.ts:55 | `nonce_replay` is raised, once, exactly when the nonce is in the used set |
| Facilitator.SignatureErrors | apps/facilitator/src/index.ts:86-106 | at most one signature code; `signature_verification_failed` exactly when both recoveries fail; no code exactly when the effective recovered signer equals `from` ignoring case |
| Facilitator.FacilitatorState.constructor | apps/facilitator/src/index.ts:15 | the nonce set starts empty |
| Facilitator.FacilitatorState.Verify | apps/facilitator/src/index.ts:38-111 | an undecodable payload gives 400 with exactly `['invalid_payload']`; otherwise the errors are chain, time, nonce and signature codes concatenated in that order; success and status 200 exactly when the list is empty, else 400; the nonce set cannot change |
| Facilitator.AcceptedIff | apps/facilitator/src/index.ts:45-110 | a decoded payload is accepted exactly when its chain is supported, validAfter <= now <= validBefore, its nonce is unused and the effective signer is `from` |
| Facilitator.PayloadErrorsInStageOrder | apps/facilitator/src/index.ts:45-106 | the accumulated codes come in the fixed order chain, time, nonce, signature, each at most once |
| Facilitator.AtMostOneTimeError | apps/facilitator/src/index.ts:53-54 | within a well-formed window at most one time code is raised |
| Facilitator.WindowBoundsInclusive | apps/facilitator/src/index.ts:53-54 | both ends of the window are valid instants; one second after validBefore is `expired` |
| Facilitator.FallbackOnlyWhenTypedRecoveryFails | apps/facilitator/src/index.ts:86-103 | once typed-data recovery yields any address, the hashed fallback has no influence on the outcome |
| FacilitatorHelpers.RpcUrlForChain | apps/facilitator/src/utils/helpers.ts:1-9 | the URL is non-empty exactly for base, base-sepolia, polygon and polygon-amoy |
| FacilitatorHelpers.TokenAddressForChain | apps/facilitator/src/utils/helpers.ts:11-19 | the address is non-empty exactly for the four chains, and then 42 characters long |
| FacilitatorHelpers.DecodeBase64Json | apps/facilitator/src/utils/helpers.ts:25-33 | an undefined or empty argument gives null; a present result is the parse of the decoded bytes, so any decode or parse failure gives null |
| FacilitatorHelpers.DecodeEncodeBase64Json | apps/facilitator/src/utils/helpers.ts:25-33 | decoding the base64 JSON text of any value gives that value back |
| PaymentTypes.FromJsonToJson | apps/facilitator/src/types.ts:1-11 | reading back the JSON object of a payload gives the payload |
| Settlement.ErrorText | apps/facilitator/src/services/payment.ts:93 | a thrown `Error` reports its message; anything else reports `Unknown error` |
| Settlement.VerifyPaymentOnChain | apps/facilitator/src/services/payment.ts:9-53 | the payment is confirmed exactly when the mined receipt has status 1; every thrown error gives false |
| Settlement.SetBalance | apps/facilitator/src/services/payment.ts:85 | the ledger update sets one balance and leaves every other chain and account as it was |
| Settlement.TransferMovesExactly | apps/facilitator/src/services/payment.ts:85-87 | a transfer debits the sender and credits the receiver by exactly the amount; every other balance on every chain is unchanged |
| Settlement.TransferConservesPair | apps/facilitator/src/services/payment.ts:85-87 | the sum of the two balances a transfer touches is preserved |
| Settlement.ResultOf | apps/facilitator/src/services/payment.ts:75-94 | success exactly on a confirmed payout, with no error; the two guard failures carry `insufficient_pre_funded_balance` and `resource_server_address_required` |
| Settlement.Decide | apps/facilitator/src/services/payment.ts:58-94 | a failed balance read ends there; otherwise an amount `BigInt` cannot read is its `SyntaxError`, a balance below the amount is `insufficient`, and a missing or empty resource server address is `address required`, each exactly when its guard is the first to fail; once all guards pass, an empty amount and a negative amount are refused by ethers, a thrown transfer is reported as such, and in every other case the amount is paid to the resource server address: a payout happens exactly then |
| Settlement.BalanceCheckPrecedesAddressCheck | apps/facilitator/src/services/payment.ts:75-82 | an underfunded facilitator reports the balance error even when the address is missing too |
| Settlement.HexAmountSettles | apps/facilitator/src/services/payment.ts:75-87 | the amount `0x10` settles exactly like `16`: the payee receives 16 |
| Settlement.TokenLedger.constructor | apps/facilitator/src/services/payment.ts:70 | the ledger holds the given balances |
| Settlement.TokenLedger.SettleWithPreFundedBalance | apps/facilitator/src/services/payment.ts:55-95 | the reply is the one of the guard order's outcome, no exception escapes, and the ledger changes only by the confirmed transfer to the resource server address |
| Settlement.SettlementEffect | apps/facilitator/src/services/payment.ts:79-90 | a paid settlement goes to `resourceServerAddress`, never to `payload.to`, moves exactly the amount, and leaves every other balance unchanged |
| RiskAnalysis.FlagScore | apps/facilitator/src/services/riskAnalysis.ts:340-352 | a boolean insight scores 100 when set and 0 otherwise |
| RiskAnalysis.With | apps/facilitator/src/services/riskAnalysis.ts:373-388 | raising a flag makes it set and keeps the sanctions score |
| RiskAnalysis.WithChangesOnlyF | apps/facilitator/src/services/riskAnalysis.ts:373-388 | raising one flag leaves every other flag as it was |
| RiskAnalysis.FlagTerm | apps/facilitator/src/services/riskAnalysis.ts:373-388 | one flag's contribution is its weight times its 0/100 sub-score |
| RiskAnalysis.FlagTermsFirstHalf | apps/facilitator/src/services/riskAnalysis.ts:356-371 | the weights of cyberCrime, moneyLaundering, financialCrime, darkweb, phishing, fakeKyc and blacklist are 0.12, 0.12, 0.08, 0.01, 0.02, 0.00 and 0.15 |
| RiskAnalysis.FlagTermsSecondHalf | apps/facilitator/src/services/riskAnalysis.ts:356-371 | the weights of stealing, blackmail, sanctioned, mining, honeypot and chainalysis are 0.04, 0.01, 0.20, 0.00, 0.00 and 0.15 |
| RiskAnalysis.FlagSumUnrolled | apps/facilitator/src/services/riskAnalysis.ts:373-388 | the reference sum over the flag list is the sum of the thirteen flag terms |
| RiskAnalysis.WeightedSumAsWritten | apps/facilitator/src/services/riskAnalysis.ts:373-388 | the weighted sum equals the source's fourteen terms in the source's order, in hundredths |
| RiskAnalysis.RoundHundredths | apps/facilitator/src/services/riskAnalysis.ts:373-388 | `Math.round` of a non-negative hundredth count is the nearest integer, halves rounded up |
| RiskAnalysis.CalculateAddressSecurityFactors | apps/facilitator/src/services/riskAnalysis.ts:322-407 | `overall` is the rounded weighted sum; each of the thirteen flags' factors is its 0/100 sub-score; the sanctions score passes through |
| RiskAnalysis.WeightsSumToOne | apps/facilitator/src/services/riskAnalysis.ts:356-371 | the fourteen weights add up to 1.00 |
| RiskAnalysis.FlagSumBounds | apps/facilitator/src/services/riskAnalysis.ts:373-388 | a weighted flag sum lies between 0 and 100 times the weights' total |
| RiskAnalysis.OverallInRange | apps/facilitator/src/services/riskAnalysis.ts:373-388 | `overall` is in 0..100 whenever the sanctions score is |
| RiskAnalysis.FlagSumMonotone | apps/facilitator/src/services/riskAnalysis.ts:373-388 | raising a flag never lowers a weighted flag sum |
| RiskAnalysis.OverallMonotoneInFlags | apps/facilitator/src/services/riskAnalysis.ts:373-388 | raising any one flag, with everything else fixed, never lowers `overall` |
| RiskAnalysis.IsSanctionedByChainalysis | apps/facilitator/src/services/riskAnalysis.ts:91-111 | sanctioned exactly when the oracle answered true; a failed call counts as not sanctioned |
| RiskAnalysis.GetAddressSecurityOverview | apps/facilitator/src/services/riskAnalysis.ts:116-192 | the insights equal `SecurityOverview` of the two answers: on a usable reply, `sanctioned` is GoPlus or Chainalysis and the sanctions score is 100 or 0, so the 50 branch is unreachable; the other flags are GoPlus's; an unusable reply clears every flag with score `chainalysis ? 0 : 100`; a thrown request gives all-clear with score 100 |
| RiskAnalysis.FallbackOverall | apps/facilitator/src/services/riskAnalysis.ts:127-191 | the fallback insights score 15 (Chainalysis-sanctioned) or 10, while a clean usable reply scores 0 |
| RiskAnalysis.AnalyzeTransactionHistory | apps/facilitator/src/services/riskAnalysis.ts:197-237 | the record equals `HistoryOf` the count: the score follows the table 60 (<= 5), 20 (6..10), 10 (11..50), 0 (> 50); sufficient history exactly above 5; HIGH above 50, MEDIUM in 11..50; a failed RPC gives the zero record |
| RiskAnalysis.KycStatusPlaceholder | apps/facilitator/src/services/riskAnalysis.ts:243-249 | every address is KYC-unverified |
| RiskAnalysis.KycRiskScore | apps/facilitator/src/services/riskAnalysis.ts:270 | the KYC score is 0 exactly when verified, otherwise 70 |
| RiskAnalysis.CombinedScoreMonotone | apps/facilitator/src/services/riskAnalysis.ts:273-283 | raising any of the three sub-scores never lowers the combined score |
| RiskAnalysis.CombinedScoreInRange | apps/facilitator/src/services/riskAnalysis.ts:273-283 | the weights 0.35, 0.25 and 0.40 keep the combined score in 0..100 |
| RiskAnalysis.LevelOf | apps/facilitator/src/services/riskAnalysis.ts:286-290 | CRITICAL exactly at >= 80, HIGH in [60,80), MEDIUM in [30,60), LOW below 30 |
| RiskAnalysis.LevelMonotone | apps/facilitator/src/services/riskAnalysis.ts:286-290 | a higher score never gives a lower level |
| RiskAnalysis.CalculateConfidence | apps/facilitator/src/services/riskAnalysis.ts:412-425 | confidence is 100 - (30 + 25 for verified KYC + 20 for a non-zero count), so always in 25..70 |
| RiskAnalysis.CalculateRiskScore | apps/facilitator/src/services/riskAnalysis.ts:254-317 | the address factors are those of `SecurityOverview` of the GoPlus and Chainalysis answers and the history is `HistoryOf` the fetched count; KYC is unverified; the score combines the address and history scores with KYC 70; the level follows the ladder; the score lies in 28..78, so the level is never CRITICAL; confidence is 50 exactly when a positive count was fetched, else 70 |
| RiskAnalysis.UnverifiedScoreRange | apps/facilitator/src/services/riskAnalysis.ts:270-283 | with KYC unverified and a history score in 0..60, every address score in 0..100 gives a combined score in 28..78 |
| RiskAnalysis.PlaceholderScoreRange | apps/facilitator/src/services/riskAnalysis.ts:211-290 | with the placeholder KYC and the history table, the combined score is in 28..78 and never CRITICAL |
| ClientPayment.ZeroAddressIsAddress | apps/client-agent/src/payment.ts:51 | the zero address is itself a well-formed address |
| ClientPayment.ContractOrZero | apps/client-agent/src/payment.ts:51 | a well-formed contract address is kept; anything else, including a missing address, becomes the zero address; the result is always well-formed |
| ClientPayment.ChainIdOrDefault | apps/client-agent/src/payment.ts:16 | a missing or zero chain id becomes 80002; any other is kept |
| ClientPayment.ClientJson | apps/client-agent/src/payment.ts:61-72 | the serialised object is the payload's nine fields plus `_rawNonce` |
| ClientPayment.ClientJsonReadsAsPayload | apps/client-agent/src/payment.ts:61-72 | the extra `_rawNonce` field does not disturb reading the payload back |
| ClientPayment.CreatePaymentPayload | apps/client-agent/src/payment.ts:4-68 | the window is now-60 .. now+300; the nonce is the hash of the raw nonce; the chain id defaults; the contract is the zero-substituted one in both payload and domain; the signature signs exactly the six message fields under `{USDC, 2, chainId, contract}`, and it is attached afterwards |
| ClientPayment.EncodePaymentPayload | apps/client-agent/src/payment.ts:70-72 | the transport text is base64 of the JSON bytes, a multiple of four characters long |
| ClientA2A.ChainIdFor | apps/client-agent/src/a2a.ts:41-53 | the four chains map to 8453, 84532, 137 and 80002; any other chain gets 80002 |
| ClientA2A.UsdcAddressFor | apps/client-agent/src/a2a.ts:47-54 | an address exactly for the four chains, and then the table's entry |
| ClientA2A.RpcRequest | apps/client-agent/src/a2a.ts:9 | the request is `message/send` with the skill and the input as its params |
| ClientA2A.FirstEntry | apps/client-agent/src/a2a.ts:22 | an array gives its first element (nothing when empty); any other value is used as it is |
| ClientA2A.StringOf | apps/client-agent/src/a2a.ts:31 | a JSON string gives its text; any other value gives nothing |
| ClientA2A.RetryHeaders | apps/client-agent/src/a2a.ts:66-69 | the retry carries exactly `X-PAYMENT` (the encoded payload) and `X-USER-CHAIN` (the preferred chain) |
| ClientA2A.SendMessage | apps/client-agent/src/a2a.ts:5-80 | at most two posts, the first without extra headers; a reply that is not a 402 error, or a failed post, is returned or rethrown with no retry; a missing `maxAmountRequired` throws before any payment; a 402 whose entry has a truthy string amount and a string `payTo` always leads to a payment, and only an amount or payee that is not a string ends unmodelled; a built payment pays the entry's amount to its `payTo` from the user's address on the preferred chain with the chain's USDC contract, the one-minute/five-minute window and the hashed nonce, is signed over exactly those fields, and the retry carries its encoding |
| ResourceHelpers.UsdcAddressForChain | apps/resource-server/src/utils/helpers.ts:1-9 | the address is non-empty exactly for the four chains; any other chain gives `''` |
| X402.BuildPaymentRequirements | apps/resource-server/src/x402.ts:7-20 | scheme `exact`, amount `100000`, timeout 120 and extra `{USDC, 2}`; the network is the target chain, defaulting to polygon-amoy; resource, payTo and asset pass through |
| X402.RequirementsJson | apps/resource-server/src/types.ts:1-13 | the JSON form carries the requirement's amount, payee and network under their field names |
| X402.FacilitatorRequest | apps/resource-server/src/x402.ts:26-51 | both calls post `{paymentPayloadBase64}` with the payment text |
| X402.VerifyPayment | apps/resource-server/src/x402.ts:23-32 | any reply, whatever its status, gives its body; a failure without a reply is rethrown with its text |
| X402.SettleHeadersShape | apps/resource-server/src/x402.ts:36-48 | each of the four settle headers is present exactly when its argument is non-empty and then carries it; no other header is sent |
| X402.SettleOutcome | apps/resource-server/src/x402.ts:50-59 | any reply gives `{data, headers}` of that reply; a failure without a reply is rethrown |
| X402.SettlePayment | apps/resource-server/src/x402.ts:34-59 | the header record built by the conditional assignments is the one the shape lemma describes, and the result is the outcome of posting it |
| Summarize.SummaryOfText | apps/resource-server/src/premium/summarize.ts:4 | text of at most 200 UTF-16 code units is kept; longer text becomes a proper prefix of it with 199 or 200 code units followed by `...` |
| Summarize.Utf16Prefix | apps/resource-server/src/premium/summarize.ts:4 | the cut is a prefix within the unit budget, and the longest one: the next character would exceed it |
| Summarize.BmpSummary | apps/resource-server/src/premium/summarize.ts:4 | for text in the Basic Multilingual Plane, longer text becomes exactly its first 200 characters plus `...` |
| Summarize.LengthExceeds | apps/resource-server/src/premium/summarize.ts:4 | a missing, `null` or boolean `length` never exceeds 200; a numeric one exactly when above 200 |
| Summarize.SummarizeInput | apps/resource-server/src/premium/summarize.ts:1-6 | for string text the reply is the summary and the text's UTF-16 length; missing or falsy text gives `''` and length 0; an object text throws exactly when its `length` exceeds 200, and is otherwise echoed with that `length`; an array text reports its element count |
| ResourceServer.TargetChainFromEnv | apps/resource-server/src/env.ts:8 | an unset target chain is polygon-amoy |
| ResourceServer.HttpResponse.constructor | apps/resource-server/src/index.ts:15 | a response starts with status 200, no body and no headers |
| ResourceServer.HttpResponse.Send | apps/resource-server/src/index.ts:30-42 | `status(code).json(v)` sets the status and body and leaves the headers |
| ResourceServer.HttpResponse.SendJson | apps/resource-server/src/index.ts:69 | `json(v)` sets the body and leaves status and headers |
| ResourceServer.HttpResponse.SetHeader | apps/resource-server/src/index.ts:61-66 | `setHeader` adds or replaces one header and changes nothing else |
| ResourceServer.ChallengeBody | apps/resource-server/src/index.ts:28-30 | the 402 body holds a single-element `accepts` list, whose entry asks for 100000 base units, pays the facilitator, names the target chain and gives that chain's USDC contract as asset |
| ResourceServer.ReceiptJson | apps/resource-server/src/index.ts:52-64 | a settle reply gives a receipt whose `network` is the target chain and whose `success` is the truthiness of the reply's `success`; a thrown settle gives `{success: false, error}` |
| ResourceServer.PremiumSummarize | apps/resource-server/src/index.ts:15-70 | no payment gives a 402 challenge and no outside call; a thrown verify gives 502 `facilitator_unreachable` and a rejection gives 402 `payment_verification_failed`, neither summarising nor settling; a throwing summary escapes the handler before settlement and leaves the response untouched; after a verified payment and a summary the result is always returned and the receipt header is always set, whatever the settle outcome |
| ResourceServer.ReceiptHeaderDecodes | apps/resource-server/src/index.ts:60-66 | the receipt header decodes and parses back to the receipt object |
| ServiceHttp.PremiumHeaders | apps/service-agent/src/client/http.ts:10-12 | `Content-Type` is always `application/json`; `X-PAYMENT` and `X-USER-CHAIN` are present exactly when their arguments are non-empty, with those values; nothing else |
| ServiceHttp.CallPremiumSummarize | apps/service-agent/src/client/http.ts:9-14 | the built headers are those of `PremiumHeaders` and the body is posted unchanged |
| ServiceAgent.WithOptional | apps/service-agent/src/index.ts:36-47 | an undefined property is dropped from the serialised object, a defined one is set, and the rest is kept |
| ServiceAgent.ErrorObject | apps/service-agent/src/index.ts:18-50 | a JSON-RPC error object carries its code, message and data |
| ServiceAgent.Envelope | apps/service-agent/src/index.ts:18-50 | every envelope carries `jsonrpc: '2.0'`, the request's id when there is one, and exactly one of `result` or `error` |
| ServiceAgent.DownstreamReply | apps/service-agent/src/index.ts:32-43 | a 2xx reply gives `{downstream, xPaymentResponse}` with null when the header is absent; a 402 gives error 402 carrying the downstream body; any other failure gives -32000; the HTTP status is 200 throughout |
| ServiceAgent.Dispatch | apps/service-agent/src/index.ts:15-51 | every reply carries `jsonrpc: '2.0'` and the request id; a bad version gives 400 and -32600; another method gives 404 and -32601; `premium.summarize` is forwarded with the forwarded headers; another skill echoes the params |
| NodeSort.RankOr0 | apps/dash/src/app/helper-node-sort.ts:43-44 | a missing rank counts as 0 |
| NodeSort.Children | apps/dash/src/app/helper-node-sort.ts:19-32 | the children are exactly the nodes whose parent is the given id |
| NodeSort.MaxRank | apps/dash/src/app/helper-node-sort.ts:21-34 | the maximum is defined exactly when every rank is present, and is then an upper bound that some node attains |
| NodeSort.NextRank | apps/dash/src/app/helper-node-sort.ts:20-35 | no siblings gives 1; otherwise one above the largest rank, undefined when a rank is missing |
| NodeSort.FirstEdgeInto | apps/dash/src/app/helper-node-sort.ts:25 | the edge found targets the node; none found means no edge targets it |
| NodeSort.DetermineSourceAndRank | apps/dash/src/app/helper-node-sort.ts:5-36 | series attaches under the selected node after its last child; parallel attaches under the incoming edge's source, else the node itself, at rank + 0.5 or 1; otherwise under the first node after the last root child; no nodes at all throws |
| NodeSort.PrecedesIsStrictTotal | apps/dash/src/app/helper-node-sort.ts:42-46 | the order by (rank, id, position) is a strict total order |
| NodeSort.SortNodesByRank | apps/dash/src/app/helper-node-sort.ts:66-68 | the result is a permutation of the input in non-decreasing rank, missing as 0 |
| NodeSort.SortNodesByRankIsStable | apps/dash/src/app/helper-node-sort.ts:66-68 | nodes of equal rank keep their original relative order |
| NodeSort.SiblingOrder | apps/dash/src/app/helper-node-sort.ts:41-46 | the sorted siblings are a permutation of the node's parent group in (rank, id) order, and contain the node |
| NodeSort.RecalculateRanks | apps/dash/src/app/helper-node-sort.ts:39-49 | length, order, ids, parents and other data are kept; each rank becomes the node's place among its siblings |
| NodeSort.SameParentSameOrder | apps/dash/src/app/helper-node-sort.ts:41 | nodes with the same parent are ranked against the same sorted list |
| NodeSort.RecalculatedRankInGroup | apps/dash/src/app/helper-node-sort.ts:47 | each new rank is below the size of its sibling group |
| NodeSort.RecalculatedRanksDistinct | apps/dash/src/app/helper-node-sort.ts:41-47 | no two siblings share a new rank |
| NodeSort.RecalculatedRanksCoverGroup | apps/dash/src/app/helper-node-sort.ts:41-47 | every value below a group's size is some sibling's new rank, so a group of k nodes is ranked 0..k-1 |
| NodeSort.RecalculatedRanksFollowOrder | apps/dash/src/app/helper-node-sort.ts:42-47 | among siblings, a lower new rank exactly when earlier by old rank (missing as 0), then id |
| NodeSort.ChildrenOf | apps/dash/src/app/helper-node-sort.ts:57 | a null parent id has no children; otherwise the nodes with that parent |
| NodeSort.Traverse | apps/dash/src/app/helper-node-sort.ts:52-63 | the traversal starts with the processor's output for the children of the parent id, then each child's traversal in order; it terminates whenever no parent cycle is reachable from the start id |
| NodeSort.SortLevel | apps/dash/src/app/helper-node-sort.ts:86 | sorting a level permutes it |
| NodeSort.CreateHierarchyEdges | apps/dash/src/app/helper-node-sort.ts:71-79 | nothing for a null parent; otherwise one edge `parent-node` per node, in order, from the parent to the node |
| NodeSort.TraverseYieldsChildren | apps/dash/src/app/helper-node-sort.ts:52-86 | every node the rank-sorting traversal yields is an input node that has a parent |
| NodeSort.TraverseEdgesJoinParents | apps/dash/src/app/helper-node-sort.ts:52-88 | every edge the edge-building traversal yields runs from a node's parent to that node |
| NodeSort.FindNode | apps/dash/src/app/helper-node-sort.ts:83 | the node found has the id; none found means no node has it |
| NodeSort.PrepareHierarchicalElements | apps/dash/src/app/helper-node-sort.ts:82-92 | no `root` node gives empty lists; otherwise the list starts with root, holds only input nodes with parents after it, and every edge joins a listed node to its parent |
| NodeSort.UnreachableCycleTolerated | apps/dash/src/app/helper-node-sort.ts:82-92 | a list with `root` and a cycle `a`/`b` outside its reach yields just `[root]` and no edges |
| FlowGraph.NodeId | apps/dash/src/app/Flow.tsx:81-135 | a node id is its kind's prefix `log-`, `verification-` or `settlement-` followed by the log id |
| FlowGraph.NodeIdInjective | apps/dash/src/app/Flow.tsx:81-153 | two node ids are equal exactly when they are of the same kind for the same log id |
| FlowGraph.Link | apps/dash/src/app/Flow.tsx:96-101 | an edge runs from its source to its target |
| FlowGraph.LogNodesShape | apps/dash/src/app/Flow.tsx:81-161 | a log adds its main node first, then verification and settlement nodes exactly when it has those hashes |
| FlowGraph.LastNodeId | apps/dash/src/app/Flow.tsx:103-160 | the next log is chained from the settlement node, else the verification node, else the main node |
| FlowGraph.LogEdgesShape | apps/dash/src/app/Flow.tsx:95-159 | a log is chained from the previous node when there is one; its verification node hangs off the main node; its settlement node hangs off the verification node when present, else the main node |
| FlowGraph.GroupLogsPartitions | apps/dash/src/app/Flow.tsx:65-71 | the grouping holds each correlation id once, in first-seen order, with exactly its logs in input order |
| FlowGraph.SortByTime | apps/dash/src/app/Flow.tsx:75 | each group is sorted into a time-ordered permutation |
| FlowGraph.SortByTimeIsStable | apps/dash/src/app/Flow.tsx:75 | the sort is stable: for every timestamp, the logs carrying it keep their input order |
| FlowGraph.GroupByCorrelation | apps/dash/src/app/Flow.tsx:65-71 | the `reduce` loop builds the grouping of the logs |
| FlowGraph.AppendLog | apps/dash/src/app/Flow.tsx:79-162 | one log appends its nodes and edges and sets the chaining point to its last node |
| FlowGraph.AppendGroup | apps/dash/src/app/Flow.tsx:77-163 | starting from a null chaining point, a group appends the nodes and edges of its logs in order |
| FlowGraph.BuildFlow | apps/dash/src/app/Flow.tsx:59-172 | an empty log list builds nothing; otherwise the graph is the groups' nodes and edges in turn |
| FlowGraph.GroupLogsWeight | apps/dash/src/app/Flow.tsx:65-71 | grouping loses and duplicates no log: any per-log count summed over groups equals its sum over the logs |
| FlowGraph.FlowNodeCounts | apps/dash/src/app/Flow.tsx:79-162 | the graph has one node per log plus one per verification hash and one per settlement hash, and exactly one main node per log |
| FlowGraph.GroupEdgesStayInGroup | apps/dash/src/app/Flow.tsx:77-160 | within a group every edge joins two of that group's nodes, so no edge crosses groups |
| FlowGraph.FlowEdgesEndpoints | apps/dash/src/app/Flow.tsx:79-162 | every edge of the graph starts and ends at a node of the graph |
| Text.ToLower | apps/facilitator/src/index.ts:88 | lower-casing keeps the length and maps each character |
| Text.EqualsIgnoreCaseIsEquivalence | apps/facilitator/src/index.ts:88-97 | comparing lower-cased addresses is an equivalence |
| Text.ParseBigInt | apps/facilitator/src/services/payment.ts:75 | `BigInt` of a blank text is 0; otherwise the text without surrounding white space must be a decimal literal with at most one sign or an unsigned `0x`/`0o`/`0b` literal, and gives its value |
| Text.ParseLiteral | apps/facilitator/src/services/payment.ts:75 | a literal is accepted exactly when it is a signed or unsigned digit run or a prefixed run of its radix's digits, with that value; a negative value only from a leading `-` |
| Text.ParseBigIntIgnoresPadding | apps/facilitator/src/services/payment.ts:75 | white space around a text does not change what `BigInt` gives |
| Text.PaddedAndBlankAccepted | apps/facilitator/src/services/payment.ts:75 | `" 5"` reads as 5 and an all-space text as 0 |
| Text.HexLiteralAccepted | apps/facilitator/src/services/payment.ts:75 | `0x10` reads as 16 |
| Text.SignedOrBarePrefixRefused | apps/facilitator/src/services/payment.ts:75 | the signed prefixed literal `-0x10` and the bare prefix `0x` are refused |
| Text.ParseNatToDecimal | apps/facilitator/src/services/payment.ts:75 | parsing the decimal rendering of a number gives the number back |
| Text.StrLtIsStrictTotal | apps/dash/src/app/helper-node-sort.ts:45 | the id order of the rank tiebreak is a strict total order |
| Base64.DecodeEncode | apps/facilitator/src/utils/helpers.ts:28 | decoding the base64 encoding of any byte string gives it back |
| Json.LawfulIsInjective | apps/facilitator/src/utils/helpers.ts:29 | two values with the same JSON text are equal |
| Http.ErrorString | apps/resource-server/src/index.ts:42 | `String(e)` of a failure without a reply is its own text |
| Protocol.ClientPayloadDecodes | apps/client-agent/src/payment.ts:70-72 | the facilitator takes the client's `X-PAYMENT` text as its payload source and decodes it to exactly the payload the client built |
| Protocol.SigningDataMatchesVerifier | apps/facilitator/src/index.ts:58-81 | the facilitator rebuilds the client's domain, types and six message fields, field for field |
| Protocol.HonestPaymentAccepted | apps/client-agent/src/payment.ts:12-58 | an honestly signed payment on a supported chain, with an unused nonce, presented within its window, raises no error |
| Protocol.StaleOrReplayedPaymentRefused | apps/facilitator/src/index.ts:53-55 | a client payment is `expired` more than 300 seconds after creation, `nonce_replay` once its nonce is used, and `not_yet_valid` exactly when presented more than 60 seconds early |
| Protocol.UsdcTablesAgree | apps/resource-server/src/utils/helpers.ts:1-9 | the resource server's, the facilitator's and the client's USDC tables agree entry for entry |
| Protocol.ClientChainIdsSupported | apps/client-agent/src/a2a.ts:41-53 | every chain id the client can use is one the facilitator accepts, and matches `/supported` for a known chain |
| Protocol.UsdcAddressesAreAddresses | apps/client-agent/src/a2a.ts:47-52 | every USDC address in the client's table is a well-formed address |
| Protocol.ClientContractIsUsdc | apps/client-agent/src/a2a.ts:54-62 | on a known chain the client signs for that chain's USDC contract; on an unknown one for the zero address |
| Protocol.ChallengeAsset | apps/resource-server/src/index.ts:29 | the challenge's asset is the target chain's USDC contract, `''` exactly when the chain is not one of the four |
| Protocol.ChallengeReachesClient | apps/service-agent/src/index.ts:39-40 | the resource server's 402 challenge, wrapped by the service agent, is recognised by the client as a payment request for `100000` payable to the facilitator |

## Left out

- Cryptography: EIP-712 hashing, `verifyTypedData`, `keccak256`, `recoverAddress`, `ethers.id` and `signTypedData` are function-valued parameters. The model proves what the code does with their answers, not the algorithms.
- Chain and network I/O: the RPC providers, contract calls, `tx.wait`, the GoPlus `fetch`, the Chainalysis `readContract` and every axios post. Each becomes an outcome parameter: a receipt status, a thrown failure, an oracle answer, a transaction count or a `PostResult`.
- The clock (`Date.now`), the random nonce (`Math.random`) and `generateJobId` are parameters or left out, since they are not deterministic.
- `usedNonces` is only read, because no code in these files adds a nonce. Concurrency between requests is not modelled.
- Logging, CORS, body parsing, route wiring, `/healthz`, `app.listen`, the environment loaders, the database, the dashboard's fetch, rendering and dagre layout are left out; they hold no decision logic.
- The outer `try` of `/verify` (apps/facilitator/src/index.ts:104-106) is left out: building the domain, types and message cannot throw in the model.
- `Json` numbers are integers. The one fractional rank of the dashboard uses `real`.
- Facilitator.DecodePayload: a parsed value that lacks a payload field or has one of the wrong type is treated as undecodable. The source would go on with `undefined` fields.
- FacilitatorHelpers.DecodeBase64Json: decodes strict base64 only. Node's decoder also skips stray characters and missing padding. UTF-8 decoding is folded into the abstract JSON parser.
- ClientPayment.IsAddress: checks the shape (`0x` and 40 hex digits) only, not the EIP-55 checksum of mixed-case addresses.
- RiskAnalysis.CalculateAddressSecurityFactors: computes the weighted sums exactly in hundredths. IEEE double arithmetic may round differently near `.5`.
- RiskAnalysis.CalculateRiskScore: the two ISO timestamps and the constant data-source list of the metadata are not modelled.
- ClientA2A.SendMessage: a truthy `maxAmountRequired` or `payTo` that is not a JSON string ends in the `NotModelled` outcome. JavaScript would pass such values on.
- Summarize.SummarizeInput: the string form of a sliced array text (`toText`) and the `length > 200` test on a string, array or object `length` property (`exceeds`) are parameters, since both depend on JavaScript's conversions to string and number.
- Summarize.SummaryOfText: when a surrogate pair straddles code unit 200, `slice(0, 200)` keeps a lone high surrogate, which a Dafny string cannot hold. The model cuts before the pair and keeps 199 units.
- ClientPayment.CreatePaymentPayload: the signer is a total function here. A failure of `signTypedData` on an amount that is not a uint256 or an address that is not an address is not modelled.
- Settlement.Decide: the two ethers failures on an empty or negative amount carry only the leading words of ethers' message. Ethers appends the argument, value, code and version details.
- X402.VerifyPayment: the `X-CORRELATION-ID` header is not modelled. The caller passes no correlation id.
- NodeSort.Traverse: termination is witnessed by a ghost set of reachable ids and a ghost level. A walk that reaches a parent cycle, which runs forever in the source, is outside the model rather than modelled as non-termination.
- NodeSort.RecalculateRanks: nodes are values, and each rank is taken from the node's own position in the sorted siblings. The source's `indexOf` compares by object identity and returns the first match, so one node object listed twice gets the same rank twice. Such a list is not represented.
- NodeSort.ChildrenOf: a missing parent is `None`. A node whose `data.parent` is an explicit `null` is not represented.
- NodeSort.MaxRank: a missing rank makes `Math.max` NaN, modelled as `None`. A non-numeric rank is not represented.
- Text.ToLower: lower-cases ASCII letters only, where `toLowerCase` folds all of Unicode. The address comparison comes out the same, since no character outside ASCII lower-cases to a hex digit or `x`.
- Text.StrLt: `localeCompare` is modelled as code-point order of Unicode scalar values. Locale collation is not modelled. Code-point order also differs from JavaScript's code-unit order when a character above U+FFFF is compared with one in U+E000..U+FFFF.
- FacilitatorHelpers.RpcUrlForChain: the chain table is a map, so keys inherited from `Object.prototype` are not modelled. A chain named `constructor` or `toString` yields a function in the source, where the model yields `''`.
- FacilitatorHelpers.TokenAddressForChain: inherited keys of the object literal are not modelled. A chain named after an `Object.prototype` member yields a function in the source, where the model yields `''`.
- ClientA2A.ChainIdFor: inherited keys are not modelled. A preferred chain such as `toString` gives a function as the chain id in the source, where the model gives 80002.
- ClientA2A.UsdcAddressFor: inherited keys are not modelled. A preferred chain named after an `Object.prototype` member gives a function in the source, where the model gives `None`.
- ResourceHelpers.UsdcAddressForChain: inherited keys are not modelled. `TARGET_CHAIN=constructor` gives the `Object` function in the source, where the model gives `''`.
- Protocol.ChallengeAsset: inherits that gap. For a target chain named after an `Object.prototype` member, the source's `res.json` drops the function-valued `asset` field, where the lemma states `''`.
- FlowGraph.GroupByCorrelation: inherited keys of the accumulator object are not modelled. A log whose `correlationId` is an `Object.prototype` member such as `constructor` or `__proto__` makes `acc[id].push` throw in the source, where the model groups it like any other id.
- FlowGraph.GroupLogs: groups come out in first-seen order. `Object.entries` would list integer-like correlation ids first, in numeric order.
- FlowGraph.SortByTime: the in-place `sort` of each group is modelled as a function on sequence values. Timestamps are already the integer `getTime()` values.
- FlowGraph.FlowNode: display text, positions and the copied log details are not modelled.
