/**
 * The client agent's authorization builder (apps/client-agent/src/payment.ts):
 * an EIP-3009 `TransferWithAuthorization` valid from one minute before `now`
 * to five minutes after it, signed as EIP-712 typed data with the domain
 * `{name: 'USDC', version: '2', chainId, verifyingContract}`, and its base64
 * JSON transport form.
 */
module ClientPayment {
  import opened Wrappers
  import opened Json
  import opened PaymentTypes
  import Text
  import Base64

  /** `n` zero digits. */
  function Zeros(n: nat): (z: string)
    ensures |z| == n && Text.AllHex(z)
  {
    if n == 0 then "" else "0" + Zeros(n - 1)
  }

  /** `ethers.ZeroAddress`: `0x` and forty zeros. */
  const ZERO_ADDRESS: string := "0x" + Zeros(40)

  /** The default chain, polygon-amoy. */
  const DEFAULT_CHAIN_ID: int := 80002

  /**
   * The shape `ethers.isAddress` accepts for hexadecimal addresses: forty hex
   * digits, with or without the `0x` prefix.
   */
  predicate IsAddress(s: string) {
    var digits := if |s| >= 2 && s[0] == '0' && s[1] == 'x' then s[2..] else s;
    |digits| == 40 && Text.AllHex(digits)
  }

  lemma ZeroAddressIsAddress()
    ensures IsAddress(ZERO_ADDRESS)
  {
    assert ZERO_ADDRESS[2..] == Zeros(40);
  }

  /** `ethers.isAddress(v) ? v : ethers.ZeroAddress`; an `undefined` contract (`None`) is not an address. */
  function ContractOrZero(verifyingContract: Option<string>): (c: string)
    ensures verifyingContract.Some? && IsAddress(verifyingContract.value) ==> c == verifyingContract.value
    ensures !(verifyingContract.Some? && IsAddress(verifyingContract.value)) ==> c == ZERO_ADDRESS
    ensures IsAddress(c)
  {
    ZeroAddressIsAddress();
    if verifyingContract.Some? && IsAddress(verifyingContract.value) then verifyingContract.value else ZERO_ADDRESS
  }

  /** `chainId || 80002`: a missing or zero chain id falls back to polygon-amoy. */
  function ChainIdOrDefault(chainId: Option<int>): (c: int)
    ensures c == DEFAULT_CHAIN_ID <==> chainId.None? || chainId == Some(0) || chainId == Some(DEFAULT_CHAIN_ID)
    ensures chainId.Some? && chainId.value != 0 ==> c == chainId.value
    ensures c != 0
  {
    if chainId.None? || chainId == Some(0) then DEFAULT_CHAIN_ID else chainId.value
  }

  /** The client's `types.TransferWithAuthorization`. */
  const TRANSFER_WITH_AUTHORIZATION: seq<TypeField> := [
    TypeField("from", "address"),
    TypeField("to", "address"),
    TypeField("value", "uint256"),
    TypeField("validAfter", "uint256"),
    TypeField("validBefore", "uint256"),
    TypeField("nonce", "bytes32")
  ]

  /** The object `createPaymentPayload` returns: the payload fields plus the debugging `_rawNonce`. */
  datatype ClientPayload = ClientPayload(payload: PaymentPayload, rawNonce: string)

  /** The JSON object the client serialises: the nine payload fields and `_rawNonce`. */
  function ClientJson(cp: ClientPayload): (j: Json)
    ensures j.JObj? && j.fields == ToJson(cp.payload).fields["_rawNonce" := JStr(cp.rawNonce)]
  {
    JObj(ToJson(cp.payload).fields["_rawNonce" := JStr(cp.rawNonce)])
  }

  /** The extra field does not disturb the facilitator's reading of the payload. */
  lemma ClientJsonReadsAsPayload(cp: ClientPayload)
    ensures FromJson(ClientJson(cp)) == Some(cp.payload)
  {
    var m := ClientJson(cp).fields;
    assert m["from"] == JStr(cp.payload.from) && m["signature"] == JStr(cp.payload.signature);
    assert m["chainId"] == JNum(cp.payload.chainId);
  }

  /**
   * `createPaymentPayload(from, to, value, verifyingContract, chainId)`.
   * `now` is `Math.floor(Date.now() / 1000)`, `nonceRaw` the random base-36
   * string, `id` is `ethers.id` (keccak-256 of the UTF-8 text) and `sign` is
   * the wallet's `signTypedData`. The domain and the payload are built first;
   * the contract address is then replaced in both by the zero address when it
   * is not an address, and the signature is attached last.
   */
  method CreatePaymentPayload(from: string, to: string, value: string, verifyingContract: Option<string>,
                              chainId: Option<int>, now: int, nonceRaw: string,
                              id: string -> string, sign: TypedDataSigner)
    returns (cp: ClientPayload)
    ensures cp.payload.from == from && cp.payload.to == to && cp.payload.value == value
    ensures cp.payload.validAfter == now - 60 && cp.payload.validBefore == now + 300
    ensures cp.payload.nonce == id(nonceRaw) && cp.rawNonce == nonceRaw
    ensures cp.payload.chainId == ChainIdOrDefault(chainId)
    ensures cp.payload.verifyingContract == ContractOrZero(verifyingContract)
    ensures cp.payload.signature ==
      sign(Domain("USDC", "2", cp.payload.chainId, cp.payload.verifyingContract),
           TRANSFER_WITH_AUTHORIZATION,
           Message(from, to, value, now - 60, now + 300, id(nonceRaw)))
  {
    var nonce := id(nonceRaw);
    var payload := PaymentPayload(from, to, value, now - 60, now + 300, nonce,
                                  verifyingContract.GetOr(""), ChainIdOrDefault(chainId), "");
    var domain := Domain("USDC", "2", payload.chainId, verifyingContract.GetOr(""));
    var types := TRANSFER_WITH_AUTHORIZATION;
    var message := Message(payload.from, payload.to, payload.value,
                           payload.validAfter, payload.validBefore, payload.nonce);
    var verifyingContractAddress := ContractOrZero(verifyingContract);
    domain := domain.(verifyingContract := verifyingContractAddress);
    payload := payload.(verifyingContract := verifyingContractAddress);
    var signature := sign(domain, types, message);
    payload := payload.(signature := signature);
    cp := ClientPayload(payload, nonceRaw);
  }

  /** `encodePaymentPayload`: base64 of the JSON text. */
  function EncodePaymentPayload(cp: ClientPayload, codec: JsonText): (b64: string)
    ensures |b64| % 4 == 0
  {
    Base64.Encode(codec.serialize(ClientJson(cp)))
  }
}
