/**
 * The service agent's `/a2a` endpoint (apps/service-agent/src/index.ts): a
 * minimal JSON-RPC 2.0 dispatcher. A `message/send` call for the skill
 * `premium.summarize` is forwarded to the resource server; any other skill is
 * echoed; any other method is refused. The error codes are those of section
 * 5.1 of the JSON-RPC 2.0 specification, plus 402 for a payment challenge and
 * -32000 for a failed downstream call.
 */
module ServiceAgent {
  import opened Wrappers
  import opened Json
  import opened Http
  import ServiceHttp

  /** The status and JSON body of a reply. */
  datatype RpcReply = RpcReply(status: int, body: Json)

  /** `{..., key: v}` as `JSON.stringify` writes it: an `undefined` property is dropped. */
  function WithOptional(m: map<string, Json>, key: string, v: Option<Json>): (r: map<string, Json>)
    ensures key in r <==> v.Some?
    ensures v.Some? ==> r[key] == v.value
    ensures forall k :: k != key ==> (k in r <==> k in m) && (k in r ==> r[k] == m[k])
  {
    if v.Some? then m[key := v.value] else m - {key}
  }

  /** An error object `{code, message, data}`. */
  function ErrorObject(code: int, message: string, data: Option<Json>): (e: Json)
    ensures Get(Some(e), "code") == Some(JNum(code))
    ensures Get(Some(e), "message") == Some(JStr(message))
    ensures Get(Some(e), "data") == data
  {
    JObj(WithOptional(map["code" := JNum(code), "message" := JStr(message)], "data", data))
  }

  /** A JSON-RPC envelope `{jsonrpc: '2.0', id, <member>: value}`, where `member` is `result` or `error`. */
  function Envelope(id: Option<Json>, member: string, value: Json): (j: Json)
    requires member == "result" || member == "error"
    ensures Get(Some(j), "jsonrpc") == Some(JStr("2.0"))
    ensures Get(Some(j), "id") == id
    ensures Get(Some(j), member) == Some(value)
    ensures j.JObj? && j.fields.Keys == {"jsonrpc", member} + (if id.Some? then {"id"} else {})
  {
    JObj(WithOptional(map["jsonrpc" := JStr("2.0"), member := value], "id", id))
  }

  /** What a forwarded `premium.summarize` call turns into, given the resource server's reply. */
  function DownstreamReply(id: Option<Json>, resp: PostResult): (r: RpcReply)
    ensures r.status == 200
    ensures Resolves(resp) ==> r.body == Envelope(id, "result", JObj(WithOptional(
      map["xPaymentResponse" := if "x-payment-response" in resp.headers && resp.headers["x-payment-response"] != ""
                                then JStr(resp.headers["x-payment-response"]) else JNull],
      "downstream", resp.data)))
    ensures !Resolves(resp) && resp.Response? && resp.status == 402 ==>
      r.body == Envelope(id, "error", ErrorObject(402, "Payment Required", resp.data))
    ensures !Resolves(resp) && !(resp.Response? && resp.status == 402) ==>
      r.body == Envelope(id, "error", ErrorObject(-32000, "Server error", Some(JStr(ErrorString(resp)))))
  {
    if Resolves(resp) then
      var xpr := if "x-payment-response" in resp.headers && resp.headers["x-payment-response"] != ""
                 then JStr(resp.headers["x-payment-response"]) else JNull;
      RpcReply(200, Envelope(id, "result", JObj(WithOptional(map["xPaymentResponse" := xpr], "downstream", resp.data))))
    else if resp.Response? && resp.status == 402 then
      RpcReply(200, Envelope(id, "error", ErrorObject(402, "Payment Required", resp.data)))
    else
      RpcReply(200, Envelope(id, "error", ErrorObject(-32000, "Server error", Some(JStr(ErrorString(resp))))))
  }

  /**
   * The `/a2a` handler. `body` is the parsed request body (`None` when
   * absent), `xPayment` and `xUserChain` are the request's `x-payment` and
   * `x-user-chain` headers, and `post` is what posting to the resource server
   * produces for a body and header record.
   */
  function Dispatch(body: Option<Json>, xPayment: Option<string>, xUserChain: Option<string>,
                    post: (Json, Headers) -> PostResult): (r: RpcReply)
    ensures var req := Some(Or(body, JObj(map[])));
      && Get(Some(r.body), "jsonrpc") == Some(JStr("2.0"))
      && Get(Some(r.body), "id") == Get(req, "id")
      && r.body.JObj? && ("result" in r.body.fields <==> "error" !in r.body.fields)
    ensures var req := Some(Or(body, JObj(map[])));
      Get(req, "jsonrpc") != Some(JStr("2.0")) ==>
        r.status == 400 && Get(Get(Some(r.body), "error"), "code") == Some(JNum(-32600))
    ensures var req := Some(Or(body, JObj(map[])));
      Get(req, "jsonrpc") == Some(JStr("2.0")) && Get(req, "method") != Some(JStr("message/send")) ==>
        r.status == 404 && Get(Get(Some(r.body), "error"), "code") == Some(JNum(-32601))
    ensures var req := Some(Or(body, JObj(map[])));
      var payload := Some(Or(Get(req, "params"), JObj(map[])));
      Get(req, "jsonrpc") == Some(JStr("2.0")) && Get(req, "method") == Some(JStr("message/send")) ==>
        if Get(payload, "skill") == Some(JStr("premium.summarize")) then
          r == DownstreamReply(Get(req, "id"), post(Or(Get(payload, "input"), JObj(map[])),
                                                    ServiceHttp.PremiumHeaders(xPayment, xUserChain)))
        else
          r.status == 200 && Get(Get(Some(r.body), "result"), "echo") == Get(req, "params")
  {
    var req := Some(Or(body, JObj(map[])));
    var id := Get(req, "id");
    if Get(req, "jsonrpc") != Some(JStr("2.0")) then
      RpcReply(400, Envelope(id, "error", ErrorObject(-32600, "Invalid Request", None)))
    else if Get(req, "method") == Some(JStr("message/send")) then
      var params := Get(req, "params");
      var payload := Some(Or(params, JObj(map[])));
      if Get(payload, "skill") == Some(JStr("premium.summarize")) then
        var input := Or(Get(payload, "input"), JObj(map[]));
        DownstreamReply(id, post(input, ServiceHttp.PremiumHeaders(xPayment, xUserChain)))
      else
        RpcReply(200, Envelope(id, "result", JObj(WithOptional(map[], "echo", params))))
    else
      RpcReply(404, Envelope(id, "error", ErrorObject(-32601, "Method not found", None)))
  }
}
