/**
 * The records that travel between the client agent, the resource server and
 * the facilitator: the signed EIP-3009 `TransferWithAuthorization` payload,
 * its JSON form, and the two EIP-712 typed-data parts (domain and message)
 * that both the signer and the verifier build from it.
 */
module PaymentTypes {
  import opened Wrappers
  import opened Json

  /** The transmitted authorization. `value` is a decimal string, times are unix seconds. */
  datatype PaymentPayload = PaymentPayload(
    from: string,
    to: string,
    value: string,
    validAfter: int,
    validBefore: int,
    nonce: string,
    verifyingContract: string,
    chainId: int,
    signature: string)

  /** The EIP-712 domain `{name, version, chainId, verifyingContract}`. */
  datatype Domain = Domain(name: string, version: string, chainId: int, verifyingContract: string)

  /** One `{name, type}` member of an EIP-712 struct type. */
  datatype TypeField = TypeField(name: string, fieldType: string)

  /** The six signed fields of `TransferWithAuthorization`; the signature is not among them. */
  datatype Message = Message(
    from: string,
    to: string,
    value: string,
    validAfter: int,
    validBefore: int,
    nonce: string)

  /** EIP-712 typed-data recovery of the signer, or `None` where the library throws. */
  type TypedDataRecovery = (Domain, seq<TypeField>, Message, string) -> Option<string>

  /** EIP-712 signing with the payer's key. */
  type TypedDataSigner = (Domain, seq<TypeField>, Message) -> string

  function ToJson(p: PaymentPayload): (j: Json)
    ensures j.JObj?
  {
    JObj(map[
      "from" := JStr(p.from),
      "to" := JStr(p.to),
      "value" := JStr(p.value),
      "validAfter" := JNum(p.validAfter),
      "validBefore" := JNum(p.validBefore),
      "nonce" := JStr(p.nonce),
      "verifyingContract" := JStr(p.verifyingContract),
      "chainId" := JNum(p.chainId),
      "signature" := JStr(p.signature)])
  }

  function StrField(m: map<string, Json>, key: string): (r: Option<string>)
    ensures r.Some? <==> key in m && m[key].JStr?
  {
    if key in m && m[key].JStr? then Some(m[key].s) else None
  }

  function NumField(m: map<string, Json>, key: string): (r: Option<int>)
    ensures r.Some? <==> key in m && m[key].JNum?
  {
    if key in m && m[key].JNum? then Some(m[key].n) else None
  }

  /** The parsed JSON read as a payload; `None` when it is not an object with the nine fields of the right types. */
  function FromJson(j: Json): (r: Option<PaymentPayload>)
    ensures r.Some? ==> j.JObj?
  {
    match j
    case JObj(m) =>
      var from := StrField(m, "from");
      var to := StrField(m, "to");
      var value := StrField(m, "value");
      var validAfter := NumField(m, "validAfter");
      var validBefore := NumField(m, "validBefore");
      var nonce := StrField(m, "nonce");
      var verifyingContract := StrField(m, "verifyingContract");
      var chainId := NumField(m, "chainId");
      var signature := StrField(m, "signature");
      if from.Some? && to.Some? && value.Some? && validAfter.Some? && validBefore.Some?
         && nonce.Some? && verifyingContract.Some? && chainId.Some? && signature.Some?
      then
        Some(PaymentPayload(from.value, to.value, value.value, validAfter.value, validBefore.value,
                            nonce.value, verifyingContract.value, chainId.value, signature.value))
      else None
    case _ => None
  }

  /** Reading back the JSON form of a payload gives the payload. */
  lemma FromJsonToJson(p: PaymentPayload)
    ensures FromJson(ToJson(p)) == Some(p)
  {
    var m := ToJson(p).fields;
    assert StrField(m, "from") == Some(p.from);
    assert StrField(m, "signature") == Some(p.signature);
  }
}
