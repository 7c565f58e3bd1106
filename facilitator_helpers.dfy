/**
 * The facilitator's chain lookup tables and its total base64-JSON decoder
 * (apps/facilitator/src/utils/helpers.ts; `index.ts` holds an identical copy
 * of the decoder).
 */
module FacilitatorHelpers {
  import opened Wrappers
  import opened Json
  import Base64

  /** The four chain names every table of the system is keyed by. */
  const CHAIN_NAMES: set<string> := {"base", "base-sepolia", "polygon", "polygon-amoy"}

  /** `rpcUrls[chain] || ''`. */
  function RpcUrlForChain(chain: string): (url: string)
    ensures url != "" <==> chain in CHAIN_NAMES
  {
    var rpcUrls := map[
      "base" := "https://mainnet.base.org",
      "base-sepolia" := "https://sepolia.base.org",
      "polygon" := "https://polygon-rpc.com",
      "polygon-amoy" := "https://rpc-amoy.polygon.technology"];
    if chain in rpcUrls then rpcUrls[chain] else ""
  }

  /** The USDC contract per chain, `tokenAddresses[chain] || ''`. */
  function TokenAddressForChain(chain: string): (address: string)
    ensures address != "" <==> chain in CHAIN_NAMES
    ensures address != "" ==> |address| == 42
  {
    var tokenAddresses := map[
      "base" := "0x833589fCD6eDb6E08f4c7C32D4f71b54bdA02913",
      "base-sepolia" := "0x036CbD53842c5426634e7929541eC2318f3dCF7e",
      "polygon" := "0x2791Bca1f2de4661ED88A30C99A7a9449Aa84174",
      "polygon-amoy" := "0x41E94Eb019C0762f9Bfcf9Fb1E58725BfB0e7582"];
    if chain in tokenAddresses then tokenAddresses[chain] else ""
  }

  /**
   * `decodeBase64Json(b64)`: `null` (here `None`) for a missing or empty
   * argument and for text that does not decode or parse; otherwise the parsed
   * value (which may itself be JSON `null`).
   */
  function DecodeBase64Json(b64: Option<string>, codec: JsonText): (r: Option<Json>)
    ensures b64 == None || b64 == Some("") ==> r == None
    ensures r.Some? ==> exists bytes :: Base64.Decode(b64.value) == Some(bytes) && codec.parse(bytes) == r
  {
    match b64
    case None => None
    case Some(text) =>
      if text == "" then None
      else
        match Base64.Decode(text)
        case None => None
        case Some(bytes) => codec.parse(bytes)
  }

  /** `Buffer.from(JSON.stringify(j)).toString('base64')`. */
  function EncodeBase64Json(j: Json, codec: JsonText): string {
    Base64.Encode(codec.serialize(j))
  }

  /** Round trip: decoding the base64 JSON text of a value gives the value back. */
  lemma DecodeEncodeBase64Json(j: Json, codec: JsonText)
    requires Lawful(codec)
    ensures DecodeBase64Json(Some(EncodeBase64Json(j, codec)), codec) == Some(j)
  {
    var bytes := codec.serialize(j);
    Base64.DecodeEncode(bytes);
    assert |bytes| > 0;
    assert Base64.Encode(bytes) != "";
  }
}
