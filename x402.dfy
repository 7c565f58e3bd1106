/**
 * The resource server's side of x402 (apps/resource-server/src/x402.ts): the
 * `PaymentRequirements` record of a 402 challenge, and the two calls to the
 * facilitator, which hand back the facilitator's reply body whenever there is
 * a reply (whatever its status) and rethrow only when there is none.
 */
module X402 {
  import opened Wrappers
  import opened Json
  import opened Http

  /** `PaymentRequirements` (apps/resource-server/src/types.ts) as the builder fills it. */
  datatype PaymentRequirements = PaymentRequirements(
    scheme: string,
    network: string,
    resource: string,
    description: string,
    mimeType: string,
    payTo: string,
    maxAmountRequired: string,
    maxTimeoutSeconds: int,
    asset: string,
    extraName: string,
    extraVersion: string)

  /** The price of one call: 0.1 USDC in six-decimal base units. */
  const PRICE: string := "100000"

  /** `buildPaymentRequirements(resourceUrl, payTo, asset, targetChain = 'polygon-amoy')`; `None` is an omitted chain. */
  function BuildPaymentRequirements(resourceUrl: string, payTo: string, asset: string,
                                    targetChain: Option<string>): (r: PaymentRequirements)
    ensures r.scheme == "exact" && r.maxAmountRequired == PRICE && r.maxTimeoutSeconds == 120
    ensures r.extraName == "USDC" && r.extraVersion == "2"
    ensures r.network == targetChain.GetOr("polygon-amoy")
    ensures r.resource == resourceUrl && r.payTo == payTo && r.asset == asset
  {
    PaymentRequirements("exact", targetChain.GetOr("polygon-amoy"), resourceUrl, "Premium summarization",
                        "application/json", payTo, PRICE, 120, asset, "USDC", "2")
  }

  /** The JSON object of a requirement, with its `extra` and `outputSchema` objects. */
  function RequirementsJson(r: PaymentRequirements): (j: Json)
    ensures Get(Some(j), "maxAmountRequired") == Some(JStr(r.maxAmountRequired))
    ensures Get(Some(j), "payTo") == Some(JStr(r.payTo))
    ensures Get(Some(j), "network") == Some(JStr(r.network))
  {
    JObj(map[
      "scheme" := JStr(r.scheme),
      "network" := JStr(r.network),
      "resource" := JStr(r.resource),
      "description" := JStr(r.description),
      "mimeType" := JStr(r.mimeType),
      "payTo" := JStr(r.payTo),
      "maxAmountRequired" := JStr(r.maxAmountRequired),
      "maxTimeoutSeconds" := JNum(r.maxTimeoutSeconds),
      "asset" := JStr(r.asset),
      "extra" := JObj(map["name" := JStr(r.extraName), "version" := JStr(r.extraVersion)]),
      "outputSchema" := JObj(map[
        "input" := JObj(map["type" := JStr("http"), "method" := JStr("POST")]),
        "output" := JObj(map[])])])
  }

  /** The body both calls post: `{paymentPayloadBase64}`. */
  function FacilitatorRequest(paymentB64: string): (j: Json)
    ensures Get(Some(j), "paymentPayloadBase64") == Some(JStr(paymentB64))
  {
    JObj(map["paymentPayloadBase64" := JStr(paymentB64)])
  }

  /**
   * `verifyPayment(paymentPayloadBase64)`: `post` is what the `/verify` post
   * produced for the body sent. Any reply yields its body (`Ok`), a failure
   * without a reply is rethrown (`Err` with `String(err)`).
   */
  function VerifyPayment(paymentB64: string, post: Json -> PostResult): (r: Result<Option<Json>, string>)
    ensures r.Ok? <==> post(FacilitatorRequest(paymentB64)).Response?
    ensures r.Ok? ==> r.value == post(FacilitatorRequest(paymentB64)).data
    ensures r.Err? ==> r.error == post(FacilitatorRequest(paymentB64)).error
  {
    match post(FacilitatorRequest(paymentB64))
    case Response(_, data, _) => Ok(data)
    case NoResponse(e) => Err(e)
  }

  /** The `/settle` reply handed back: `{data, headers}`. */
  datatype SettleReply = SettleReply(data: Option<Json>, headers: Headers)

  /** The header record `settlePayment` builds: each header exactly when its argument is truthy. */
  function SettleHeaders(userChain: Option<string>, targetChain: Option<string>,
                         resourceServerAddress: Option<string>, correlationId: Option<string>): Headers
  {
    var h0: Headers := map[];
    var h1 := if TruthyText(userChain) then h0["X-USER-CHAIN" := userChain.value] else h0;
    var h2 := if TruthyText(targetChain) then h1["X-TARGET-CHAIN" := targetChain.value] else h1;
    var h3 := if TruthyText(resourceServerAddress) then h2["X-RESOURCE-SERVER-ADDRESS" := resourceServerAddress.value] else h2;
    if TruthyText(correlationId) then h3["X-CORRELATION-ID" := correlationId.value] else h3
  }

  /** A header is sent exactly when its argument is a non-empty string, and then carries that string; nothing else is sent. */
  lemma SettleHeadersShape(userChain: Option<string>, targetChain: Option<string>,
                           resourceServerAddress: Option<string>, correlationId: Option<string>)
    ensures var h := SettleHeaders(userChain, targetChain, resourceServerAddress, correlationId);
      && ("X-USER-CHAIN" in h <==> TruthyText(userChain))
      && ("X-TARGET-CHAIN" in h <==> TruthyText(targetChain))
      && ("X-RESOURCE-SERVER-ADDRESS" in h <==> TruthyText(resourceServerAddress))
      && ("X-CORRELATION-ID" in h <==> TruthyText(correlationId))
      && ("X-USER-CHAIN" in h ==> h["X-USER-CHAIN"] == userChain.value)
      && ("X-TARGET-CHAIN" in h ==> h["X-TARGET-CHAIN"] == targetChain.value)
      && ("X-RESOURCE-SERVER-ADDRESS" in h ==> h["X-RESOURCE-SERVER-ADDRESS"] == resourceServerAddress.value)
      && ("X-CORRELATION-ID" in h ==> h["X-CORRELATION-ID"] == correlationId.value)
      && h.Keys <= {"X-USER-CHAIN", "X-TARGET-CHAIN", "X-RESOURCE-SERVER-ADDRESS", "X-CORRELATION-ID"}
  {
  }

  /** What `settlePayment` returns for a given `/settle` outcome: the reply as `{data, headers}`, or the rethrown error. */
  function SettleOutcome(p: PostResult): (r: Result<SettleReply, string>)
    ensures r.Ok? <==> p.Response?
    ensures r.Ok? ==> r.value == SettleReply(p.data, p.headers)
    ensures r.Err? ==> r.error == p.error
  {
    match p
    case Response(_, data, headers) => Ok(SettleReply(data, headers))
    case NoResponse(e) => Err(e)
  }

  /**
   * `settlePayment(paymentPayloadBase64, userChain, targetChain,
   * resourceServerAddress, correlationId)`: fills the header record by
   * conditional assignments and posts. `post` is what the `/settle` post
   * produced for the body and headers sent; `sent` is the header record.
   */
  method SettlePayment(paymentB64: string, userChain: Option<string>, targetChain: Option<string>,
                       resourceServerAddress: Option<string>, correlationId: Option<string>,
                       post: (Json, Headers) -> PostResult)
    returns (sent: Headers, r: Result<SettleReply, string>)
    ensures sent == SettleHeaders(userChain, targetChain, resourceServerAddress, correlationId)
    ensures r == SettleOutcome(post(FacilitatorRequest(paymentB64), sent))
  {
    sent := map[];
    if TruthyText(userChain) {
      sent := sent["X-USER-CHAIN" := userChain.value];
    }
    if TruthyText(targetChain) {
      sent := sent["X-TARGET-CHAIN" := targetChain.value];
    }
    if TruthyText(resourceServerAddress) {
      sent := sent["X-RESOURCE-SERVER-ADDRESS" := resourceServerAddress.value];
    }
    if TruthyText(correlationId) {
      sent := sent["X-CORRELATION-ID" := correlationId.value];
    }
    match post(FacilitatorRequest(paymentB64), sent)
    case Response(_, data, headers) => r := Ok(SettleReply(data, headers));
    case NoResponse(e) => r := Err(e);
  }
}
