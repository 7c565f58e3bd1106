/**
 * The service agent's client for the resource server
 * (apps/service-agent/src/client/http.ts): the header record of a
 * `/premium/summarize` call, filled by conditional assignments before the post.
 */
module ServiceHttp {
  import opened Wrappers
  import opened Json
  import opened Http

  /** The headers `callPremiumSummarize` sends: the content type, and the two optional forwarded headers. */
  function PremiumHeaders(paymentHeader: Option<string>, userChain: Option<string>): (h: Headers)
    ensures "Content-Type" in h && h["Content-Type"] == "application/json"
    ensures "X-PAYMENT" in h <==> TruthyText(paymentHeader)
    ensures "X-PAYMENT" in h ==> h["X-PAYMENT"] == paymentHeader.value
    ensures "X-USER-CHAIN" in h <==> TruthyText(userChain)
    ensures "X-USER-CHAIN" in h ==> h["X-USER-CHAIN"] == userChain.value
    ensures h.Keys <= {"Content-Type", "X-PAYMENT", "X-USER-CHAIN"}
  {
    var h0: Headers := map["Content-Type" := "application/json"];
    var h1 := if TruthyText(paymentHeader) then h0["X-PAYMENT" := paymentHeader.value] else h0;
    if TruthyText(userChain) then h1["X-USER-CHAIN" := userChain.value] else h1
  }

  /**
   * `callPremiumSummarize(client, body, paymentHeader, userChain)`: `post` is
   * what posting a body with a header record to `/premium/summarize`
   * produced. The body goes out unchanged; `sent` is the header record.
   */
  method CallPremiumSummarize(body: Json, paymentHeader: Option<string>, userChain: Option<string>,
                              post: (Json, Headers) -> PostResult)
    returns (sent: Headers, r: PostResult)
    ensures sent == PremiumHeaders(paymentHeader, userChain)
    ensures r == post(body, sent)
  {
    sent := map["Content-Type" := "application/json"];
    if TruthyText(paymentHeader) {
      sent := sent["X-PAYMENT" := paymentHeader.value];
    }
    if TruthyText(userChain) {
      sent := sent["X-USER-CHAIN" := userChain.value];
    }
    r := post(body, sent);
  }
}
