/**
 * The paid endpoint `POST /premium/summarize` (apps/resource-server/src/index.ts):
 * challenge with a 402 when no payment is attached; otherwise have the
 * facilitator verify it, serve the summary, then ask the facilitator to settle
 * and report the outcome in the `X-PAYMENT-RESPONSE` header without ever
 * withholding the result.
 */
module ResourceServer {
  import opened Wrappers
  import opened Json
  import opened Http
  import Text
  import Base64
  import X402
  import ResourceHelpers
  import Summarize

  /** The server's configuration; `TARGET_CHAIN` is `'polygon-amoy'` when unset. */
  datatype ResourceEnv = ResourceEnv(port: nat, address: string, facilitatorAddress: string, targetChain: string)

  /** `TARGET_CHAIN`'s default. */
  function TargetChainFromEnv(raw: Option<string>): (chain: string)
    ensures raw.None? ==> chain == "polygon-amoy"
    ensures raw.Some? ==> chain == raw.value
  {
    raw.GetOr("polygon-amoy")
  }

  /** The express response object: status, JSON body and headers. */
  class HttpResponse {
    var status: int
    var body: Option<Json>
    var headers: Headers

    /** A fresh response: status 200, nothing sent, no headers. */
    constructor ()
      ensures status == 200 && body == None && headers == map[]
    {
      status := 200;
      body := None;
      headers := map[];
    }

    /** `res.status(code).json(value)`. */
    method Send(code: int, value: Json)
      modifies this
      ensures status == code && body == Some(value) && headers == old(headers)
    {
      status := code;
      body := Some(value);
    }

    /** `res.json(value)` with the status left as it is. */
    method SendJson(value: Json)
      modifies this
      ensures body == Some(value) && status == old(status) && headers == old(headers)
    {
      body := Some(value);
    }

    /** `res.setHeader(name, value)`. */
    method SetHeader(name: string, value: string)
      modifies this
      ensures headers == old(headers)[name := value] && status == old(status) && body == old(body)
    {
      headers := headers[name := value];
    }
  }

  /** `http://localhost:${PORT}/premium/summarize`. */
  function ResourceUrl(port: nat): string {
    "http://localhost:" + Text.NatToDecimal(port) + "/premium/summarize"
  }

  /** The 402 body `{accepts: [requirements]}`, payable to the facilitator on the target chain. */
  function ChallengeBody(env: ResourceEnv): (j: Json)
    ensures j.JObj? && "accepts" in j.fields && j.fields["accepts"].JArr? && |j.fields["accepts"].items| == 1
    ensures var entry := j.fields["accepts"].items[0];
      && Get(Some(entry), "maxAmountRequired") == Some(JStr(X402.PRICE))
      && Get(Some(entry), "payTo") == Some(JStr(env.facilitatorAddress))
      && Get(Some(entry), "network") == Some(JStr(env.targetChain))
      && Get(Some(entry), "asset") == Some(JStr(ResourceHelpers.UsdcAddressForChain(env.targetChain)))
  {
    var requirements := X402.BuildPaymentRequirements(
      ResourceUrl(env.port), env.facilitatorAddress, ResourceHelpers.UsdcAddressForChain(env.targetChain),
      Some(env.targetChain));
    JObj(map["accepts" := JArr([X402.RequirementsJson(requirements)])])
  }

  /** `!verify || !verify.success`. */
  predicate Rejected(verify: Option<Json>) {
    !TruthyOpt(verify) || !TruthyOpt(Get(verify, "success"))
  }

  /** `{error, details}`; an `undefined` detail is dropped by `JSON.stringify`. */
  function ErrorBody(error: string, details: Option<Json>): Json {
    JObj(if details.Some? then map["error" := JStr(error), "details" := details.value]
         else map["error" := JStr(error)])
  }

  /** The receipt object built from a `/settle` reply, or the error object when the call threw. */
  function ReceiptJson(settle: Result<X402.SettleReply, string>, targetChain: string): (j: Json)
    ensures settle.Ok? ==> Get(Some(j), "network") == Some(JStr(targetChain))
    ensures settle.Ok? ==>
      Get(Some(j), "success") == Some(JBool(TruthyOpt(Get(Some(Or(settle.value.data, JObj(map[]))), "success"))))
    ensures settle.Err? ==> j == JObj(map["success" := JBool(false), "error" := JStr(settle.error)])
  {
    match settle
    case Ok(reply) =>
      var resp := Some(Or(reply.data, JObj(map[])));
      JObj(map[
        "success" := JBool(TruthyOpt(Get(resp, "success"))),
        "transaction" := Or(Get(resp, "transaction"), JNull),
        "network" := JStr(targetChain),
        "payer" := Or(Get(resp, "payer"), JNull),
        "crossChain" := Or(Get(resp, "crossChain"), JNull)])
    case Err(e) =>
      JObj(map["success" := JBool(false), "error" := JStr(e)])
  }

  /** The steps of the handler that reach outside it. */
  datatype Step = VerifyCalled | Summarized | SettleCalled

  /**
   * The handler. `paymentHeader` and `userChain` are the `x-payment` and
   * `x-user-chain` request headers, `verifyPost` and `settlePost` what the
   * facilitator calls produce, and `toText` and `exceeds` are passed on to
   * `summarize`. `steps` lists the outside calls made, in order. When
   * `summarize` throws, the handler's promise is rejected with that error
   * (`rejection`), nothing is sent and the settlement is not requested.
   */
  method PremiumSummarize(env: ResourceEnv, paymentHeader: Option<string>, userChain: Option<string>,
                          body: Option<Json>, verifyPost: Json -> PostResult,
                          settlePost: (Json, Headers) -> PostResult, codec: JsonText,
                          toText: Json -> string, exceeds: Json -> bool, res: HttpResponse)
    returns (steps: seq<Step>, rejection: Option<string>)
    modifies res
    ensures !TruthyText(paymentHeader) ==>
      && steps == [] && rejection == None
      && res.status == 402 && res.body == Some(ChallengeBody(env)) && res.headers == old(res.headers)
    ensures TruthyText(paymentHeader) ==>
      var verify := X402.VerifyPayment(paymentHeader.value, verifyPost);
      && (verify.Err? ==>
            steps == [VerifyCalled] && rejection == None && res.status == 502
            && res.body == Some(ErrorBody("facilitator_unreachable", Some(JStr(verify.error))))
            && res.headers == old(res.headers))
      && (verify.Ok? && Rejected(verify.value) ==>
            steps == [VerifyCalled] && rejection == None && res.status == 402
            && res.body == Some(ErrorBody("payment_verification_failed", verify.value))
            && res.headers == old(res.headers))
      && var result := Summarize.SummarizeInput(Some(Or(body, JObj(map[]))), toText, exceeds);
      && (verify.Ok? && !Rejected(verify.value) && result.Err? ==>
            steps == [VerifyCalled, Summarized] && rejection == Some(result.error)
            && res.status == old(res.status) && res.body == old(res.body) && res.headers == old(res.headers))
      && (verify.Ok? && !Rejected(verify.value) && result.Ok? ==>
            steps == [VerifyCalled, Summarized, SettleCalled] && rejection == None
            && res.status == old(res.status)
            && res.body == Some(JObj(map["result" := result.value]))
            && var settle := X402.SettleOutcome(settlePost(
                 X402.FacilitatorRequest(paymentHeader.value),
                 X402.SettleHeaders(userChain, Some(env.targetChain), Some(env.address), None)));
               res.headers == old(res.headers)["X-PAYMENT-RESPONSE" :=
                 Base64.Encode(codec.serialize(ReceiptJson(settle, env.targetChain)))])
  {
    steps, rejection := [], None;
    if !TruthyText(paymentHeader) {
      res.Send(402, ChallengeBody(env));
      return;
    }
    var verify := X402.VerifyPayment(paymentHeader.value, verifyPost);
    steps := steps + [VerifyCalled];
    if verify.Err? {
      res.Send(502, ErrorBody("facilitator_unreachable", Some(JStr(verify.error))));
      return;
    }
    if Rejected(verify.value) {
      res.Send(402, ErrorBody("payment_verification_failed", verify.value));
      return;
    }
    var result := Summarize.SummarizeInput(Some(Or(body, JObj(map[]))), toText, exceeds);
    steps := steps + [Summarized];
    if result.Err? {
      rejection := Some(result.error);
      return;
    }
    var sent, settle := X402.SettlePayment(paymentHeader.value, userChain, Some(env.targetChain),
                                           Some(env.address), None, settlePost);
    steps := steps + [SettleCalled];
    var b64 := Base64.Encode(codec.serialize(ReceiptJson(settle, env.targetChain)));
    res.SetHeader("X-PAYMENT-RESPONSE", b64);
    res.SendJson(JObj(map["result" := result.value]));
  }

  /** The receipt header decodes to the receipt object: its `network` is always the target chain on a reply. */
  lemma ReceiptHeaderDecodes(settle: Result<X402.SettleReply, string>, targetChain: string, codec: JsonText)
    requires Lawful(codec)
    ensures Base64.Decode(Base64.Encode(codec.serialize(ReceiptJson(settle, targetChain)))) ==
            Some(codec.serialize(ReceiptJson(settle, targetChain)))
    ensures codec.parse(codec.serialize(ReceiptJson(settle, targetChain))) == Some(ReceiptJson(settle, targetChain))
  {
    Base64.DecodeEncode(codec.serialize(ReceiptJson(settle, targetChain)));
  }
}
