/**
 * The client agent's JSON-RPC call with its 402 handling
 * (apps/client-agent/src/a2a.ts): one `message/send` post; when the reply is a
 * JSON-RPC error with code 402, the first payment requirement it carries is
 * paid by a fresh authorization on the user's preferred chain and the same
 * request is posted once more with the `X-PAYMENT` and `X-USER-CHAIN` headers.
 */
module ClientA2A {
  import opened Wrappers
  import opened Json
  import opened Http
  import opened PaymentTypes
  import ClientPayment

  /** `chainIdMap`. */
  const CHAIN_IDS: map<string, int> := map[
    "base" := 8453,
    "base-sepolia" := 84532,
    "polygon" := 137,
    "polygon-amoy" := 80002]

  /** `usdcAddressMap`. */
  const USDC_ADDRESSES: map<string, string> := map[
    "base" := "0x833589fCD6eDb6E08f4c7C32D4f71b54bdA02913",
    "base-sepolia" := "0x036CbD53842c5426634e7929541eC2318f3dCF7e",
    "polygon" := "0x2791Bca1f2de4661ED88A30C99A7a9449Aa84174",
    "polygon-amoy" := "0x41E94Eb019C0762f9Bfcf9Fb1E58725BfB0e7582"]

  /** `chainIdMap[chain] || 80002`. */
  function ChainIdFor(chain: string): (id: int)
    ensures chain in CHAIN_IDS ==> id == CHAIN_IDS[chain]
    ensures chain !in CHAIN_IDS ==> id == ClientPayment.DEFAULT_CHAIN_ID
    ensures id != 0
  {
    if chain in CHAIN_IDS then CHAIN_IDS[chain] else 80002
  }

  /** `usdcAddressMap[chain]`, `undefined` (`None`) for an unknown chain. */
  function UsdcAddressFor(chain: string): (address: Option<string>)
    ensures address.Some? <==> chain in USDC_ADDRESSES
    ensures address.Some? ==> address.value == USDC_ADDRESSES[chain]
  {
    if chain in USDC_ADDRESSES then Some(USDC_ADDRESSES[chain]) else None
  }

  /** `{jsonrpc: '2.0', id: 1, method: 'message/send', params: {skill, input}}`; an `undefined` input is dropped by `JSON.stringify`. */
  function RpcRequest(skill: string, input: Option<Json>): (j: Json)
    ensures Get(Some(j), "method") == Some(JStr("message/send"))
    ensures Get(Get(Some(j), "params"), "skill") == Some(JStr(skill))
    ensures Get(Get(Some(j), "params"), "input") == input
  {
    var params := map["skill" := JStr(skill)];
    JObj(map[
      "jsonrpc" := JStr("2.0"),
      "id" := JNum(1),
      "method" := JStr("message/send"),
      "params" := JObj(if input.Some? then params["input" := input.value] else params)])
  }

  /** `resp.data && resp.data.error && resp.data.error.code === 402`. */
  predicate IsPaymentRequired(data: Option<Json>) {
    TruthyOpt(data) && TruthyOpt(Get(data, "error")) && Get(Get(data, "error"), "code") == Some(JNum(402))
  }

  /** `resp.data.error.data?.accepts` (the source's `x || x` is `x`). */
  function Accepts(data: Option<Json>): Option<Json> {
    Get(Get(Get(data, "error"), "data"), "accepts")
  }

  /** `Array.isArray(accepts) ? accepts[0] : accepts`; the first element of an empty array is `undefined`. */
  function FirstEntry(accepts: Option<Json>): (first: Option<Json>)
    ensures accepts.Some? && accepts.value.JArr? && |accepts.value.items| > 0 ==> first == Some(accepts.value.items[0])
    ensures accepts.Some? && accepts.value.JArr? && |accepts.value.items| == 0 ==> first == None
    ensures !(accepts.Some? && accepts.value.JArr?) ==> first == accepts
  {
    match accepts
    case Some(JArr(items)) => if |items| > 0 then Some(items[0]) else None
    case _ => accepts
  }

  /** The text of a JSON string. */
  function StringOf(j: Option<Json>): (s: Option<string>)
    ensures s.Some? <==> j.Some? && j.value.JStr?
    ensures s.Some? ==> j == Some(JStr(s.value))
  {
    match j
    case Some(JStr(s)) => Some(s)
    case _ => None
  }

  /** The headers of the paid retry. */
  function RetryHeaders(paymentB64: string, preferredChain: string): (h: Headers)
    ensures h.Keys == {"X-PAYMENT", "X-USER-CHAIN"}
    ensures h["X-PAYMENT"] == paymentB64 && h["X-USER-CHAIN"] == preferredChain
  {
    map["X-PAYMENT" := paymentB64]["X-USER-CHAIN" := preferredChain]
  }

  datatype SendOutcome =
    | Returned(data: Option<Json>)   // `return resp.data` or `return retryResp.data`
    | Threw(error: string)           // an exception leaves `sendMessage`
    | NotModelled                    // a truthy amount or a payee that is not a JSON string

  /** The reply data when the post resolved, the rethrown axios error otherwise. */
  function OutcomeOf(r: PostResult): SendOutcome {
    if Resolves(r) then Returned(r.data) else Threw(ErrorString(r))
  }

  /**
   * `sendMessage(serviceUrl, skill, input)` with `ADDRESS` and
   * `USER_PREFERRED_CHAIN` from the environment (which requires both to be
   * non-empty). `first` is what the first post produced and `retry` what the
   * second produces for the headers sent; `now`, `nonceRaw`, `id` and `sign`
   * are passed on to `createPaymentPayload`. `posts` lists the extra headers of
   * every post made, in order, and `payment` is the authorization built, if any.
   */
  method SendMessage(skill: string, input: Option<Json>, address: string, preferredChain: string,
                     first: PostResult, retry: Headers -> PostResult,
                     now: int, nonceRaw: string, id: string -> string, sign: TypedDataSigner,
                     codec: JsonText)
    returns (outcome: SendOutcome, posts: seq<Headers>, payment: Option<ClientPayment.ClientPayload>)
    ensures 1 <= |posts| <= 2 && posts[0] == map[]
    ensures |posts| == 2 <==> payment.Some?
    ensures !(Resolves(first) && IsPaymentRequired(first.data)) ==> outcome == OutcomeOf(first) && |posts| == 1
    ensures Resolves(first) && IsPaymentRequired(first.data)
            && !TruthyOpt(Get(FirstEntry(Accepts(first.data)), "maxAmountRequired")) ==>
      outcome == Threw("Max amount required not found") && |posts| == 1
    ensures (&& Resolves(first) && IsPaymentRequired(first.data)
             && var entry := FirstEntry(Accepts(first.data));
                && TruthyOpt(Get(entry, "maxAmountRequired"))
                && StringOf(Get(entry, "maxAmountRequired")).Some?
                && StringOf(Get(entry, "payTo")).Some?)
            ==> payment.Some?
    ensures outcome == NotModelled ==>
      var entry := FirstEntry(Accepts(first.data));
      && Resolves(first) && IsPaymentRequired(first.data)
      && TruthyOpt(Get(entry, "maxAmountRequired"))
      && (StringOf(Get(entry, "maxAmountRequired")).None? || StringOf(Get(entry, "payTo")).None?)
      && payment.None?
    ensures payment.Some? ==>
      var entry := FirstEntry(Accepts(first.data));
      var p := payment.value.payload;
      && Resolves(first) && IsPaymentRequired(first.data)
      && Some(p.value) == StringOf(Get(entry, "maxAmountRequired")) && p.value != ""
      && Some(p.to) == StringOf(Get(entry, "payTo"))
      && p.from == address
      && p.chainId == ChainIdFor(preferredChain)
      && p.verifyingContract == ClientPayment.ContractOrZero(UsdcAddressFor(preferredChain))
      && p.validAfter == now - 60 && p.validBefore == now + 300
      && p.nonce == id(nonceRaw) && payment.value.rawNonce == nonceRaw
      && p.signature ==
           sign(Domain("USDC", "2", p.chainId, p.verifyingContract),
                ClientPayment.TRANSFER_WITH_AUTHORIZATION,
                Message(address, p.to, p.value, now - 60, now + 300, id(nonceRaw)))
      && posts[1] == RetryHeaders(ClientPayment.EncodePaymentPayload(payment.value, codec), preferredChain)
      && outcome == OutcomeOf(retry(posts[1]))
  {
    posts := [map[]];
    payment := None;
    if !Resolves(first) {
      return Threw(ErrorString(first)), posts, payment;
    }
    var data := first.data;
    if !IsPaymentRequired(data) {
      return Returned(data), posts, payment;
    }
    var accepts := Accepts(data);
    var entry := FirstEntry(accepts);
    if !TruthyOpt(Get(entry, "maxAmountRequired")) {
      return Threw("Max amount required not found"), posts, payment;
    }
    var value := StringOf(Get(entry, "maxAmountRequired"));
    var payTo := StringOf(Get(entry, "payTo"));
    if value.None? || payTo.None? {
      return NotModelled, posts, payment;
    }
    var userChainId := ChainIdFor(preferredChain);
    var userUsdcAddress := UsdcAddressFor(preferredChain);
    var built := ClientPayment.CreatePaymentPayload(address, payTo.value, value.value, userUsdcAddress,
                                                    Some(userChainId), now, nonceRaw, id, sign);
    var b64 := ClientPayment.EncodePaymentPayload(built, codec);
    var headers: Headers := map["X-PAYMENT" := b64];
    headers := headers["X-USER-CHAIN" := preferredChain];
    posts := posts + [headers];
    payment := Some(built);
    outcome := OutcomeOf(retry(headers));
  }
}
