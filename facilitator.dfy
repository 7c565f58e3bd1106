/**
 * The facilitator's `/supported` table and its `/verify` handler
 * (apps/facilitator/src/index.ts). Verification decodes the payload, then runs
 * four independent checks in a fixed order (chain, time window, nonce replay,
 * signature), accumulating error codes without short-circuiting, and succeeds
 * exactly when no check failed. The nonce set is only read.
 */
module Facilitator {
  import opened Wrappers
  import opened Json
  import opened PaymentTypes
  import Text
  import FacilitatorHelpers

  /** The error codes of a `/verify` rejection. */
  datatype VerifyError =
    | InvalidPayload
    | InvalidChain
    | NotYetValid
    | Expired
    | NonceReplay
    | SignatureMismatch
    | SignatureVerificationFailed
  {
    /** The string the wire carries. */
    function Code(): string {
      match this
      case InvalidPayload => "invalid_payload"
      case InvalidChain => "invalid_chain"
      case NotYetValid => "not_yet_valid"
      case Expired => "expired"
      case NonceReplay => "nonce_replay"
      case SignatureMismatch => "signature_mismatch"
      case SignatureVerificationFailed => "signature_verification_failed"
    }

    /** Position in the order the handler appends codes; the two signature codes share the last slot. */
    function Stage(): nat {
      match this
      case InvalidPayload => 0
      case InvalidChain => 1
      case NotYetValid => 2
      case Expired => 3
      case NonceReplay => 4
      case SignatureMismatch => 5
      case SignatureVerificationFailed => 5
    }
  }

  /** The HTTP reply of `/verify`: status 200 with `{success: true}` or 400 with the error list. */
  datatype VerifyReply = VerifyReply(status: int, success: bool, errors: seq<VerifyError>)

  /** One entry of the `/supported` table. */
  datatype Network = Network(name: string, chainId: int, schemes: seq<string>)

  const SUPPORTED_NETWORKS: seq<Network> := [
    Network("polygon-amoy", 80002, ["exact"]),
    Network("base-sepolia", 84532, ["exact"]),
    Network("polygon", 137, ["exact"]),
    Network("base", 8453, ["exact"])
  ]

  /** The chain ids the `/verify` handler accepts (its own literal list). */
  const SUPPORTED_CHAIN_IDS: seq<int> := [80002, 8453, 84532, 137]

  /** The handler's `/supported` reply. */
  function ListSupported(): (networks: seq<Network>)
    ensures |networks| == 4
    ensures forall n :: n in networks ==> n.schemes == ["exact"] && n.name in FacilitatorHelpers.CHAIN_NAMES
    ensures forall name :: name in FacilitatorHelpers.CHAIN_NAMES ==> exists n :: n in networks && n.name == name
  {
    SUPPORTED_NETWORKS
  }

  /** The chain ids `/verify` accepts are exactly those `/supported` lists. */
  lemma SupportedChainIdsMatchTable(chainId: int)
    ensures chainId in SUPPORTED_CHAIN_IDS <==> exists n :: n in ListSupported() && n.chainId == chainId
  {
    var table := ListSupported();
    if chainId in SUPPORTED_CHAIN_IDS {
      var i :| 0 <= i < 4 && SUPPORTED_CHAIN_IDS[i] == chainId;
      var n := if i == 0 then table[0] else if i == 1 then table[3] else if i == 2 then table[1] else table[2];
      assert n in table && n.chainId == chainId;
    }
  }

  /** `body.paymentPayloadBase64 || req.headers['x-payment'] || undefined`. */
  function PayloadSource(bodyField: Option<string>, header: Option<string>): (b64: Option<string>)
    ensures bodyField.Some? && bodyField.value != "" ==> b64 == bodyField
    ensures !(bodyField.Some? && bodyField.value != "") && header.Some? && header.value != "" ==> b64 == header
    ensures b64.Some? ==> b64.value != ""
  {
    if bodyField.Some? && bodyField.value != "" then bodyField
    else if header.Some? && header.value != "" then header
    else None
  }

  /** `decodeBase64Json` then the `!payload` test; a value that is not a well-typed payload is treated as undecodable. */
  function DecodePayload(b64: Option<string>, codec: JsonText): (r: Option<PaymentPayload>)
    ensures b64 == None ==> r == None
    ensures b64 == Some("") ==> r == None
    ensures FacilitatorHelpers.DecodeBase64Json(b64, codec) == None ==> r == None
    ensures r.Some? ==>
      && FacilitatorHelpers.DecodeBase64Json(b64, codec).Some?
      && FromJson(FacilitatorHelpers.DecodeBase64Json(b64, codec).value) == r
  {
    var parsed := FacilitatorHelpers.DecodeBase64Json(b64, codec);
    if TruthyOpt(parsed) then FromJson(parsed.value) else None
  }

  /** The domain the verifier rebuilds from the payload. */
  function VerifierDomain(p: PaymentPayload): Domain {
    Domain("USDC", "2", p.chainId, p.verifyingContract)
  }

  /** The verifier's `TransferWithAuthorization` type. */
  const VERIFIER_TYPES: seq<TypeField> := [
    TypeField("from", "address"),
    TypeField("to", "address"),
    TypeField("value", "uint256"),
    TypeField("validAfter", "uint256"),
    TypeField("validBefore", "uint256"),
    TypeField("nonce", "bytes32")
  ]

  /** The verifier's message: the six signed fields of the payload. */
  function VerifierMessage(p: PaymentPayload): Message {
    Message(p.from, p.to, p.value, p.validAfter, p.validBefore, p.nonce)
  }

  // The checks, each as the list of codes it contributes.

  function ChainErrors(p: PaymentPayload): (errs: seq<VerifyError>)
    ensures errs == [] || errs == [InvalidChain]
    ensures errs == [InvalidChain] <==> !exists n :: n in ListSupported() && n.chainId == p.chainId
  {
    SupportedChainIdsMatchTable(p.chainId);
    if p.chainId !in SUPPORTED_CHAIN_IDS then [InvalidChain] else []
  }

  function TimeErrors(p: PaymentPayload, now: int): (errs: seq<VerifyError>)
    ensures NotYetValid in errs <==> now < p.validAfter
    ensures Expired in errs <==> now > p.validBefore
    ensures forall e :: e in errs ==> e == NotYetValid || e == Expired
    ensures errs == [] || errs == [NotYetValid] || errs == [Expired] || errs == [NotYetValid, Expired]
  {
    (if now < p.validAfter then [NotYetValid] else []) + (if now > p.validBefore then [Expired] else [])
  }

  function NonceErrors(p: PaymentPayload, usedNonces: set<string>): (errs: seq<VerifyError>)
    ensures errs == [] || errs == [NonceReplay]
    ensures errs == [NonceReplay] <==> p.nonce in usedNonces
  {
    if p.nonce in usedNonces then [NonceReplay] else []
  }

  /**
   * The two-strategy signature check. `recoverTyped` is EIP-712 recovery
   * (`ethers.verifyTypedData`); `recoverHashed` is recovery from the keccak-256
   * hash of the JSON text of the message (`recoverAddress(keccak256(...))`).
   * Each is `None` where the library throws.
   */
  function SignatureErrors(p: PaymentPayload, recoverTyped: TypedDataRecovery,
                           recoverHashed: (Message, string) -> Option<string>): (errs: seq<VerifyError>)
    ensures errs == [] || errs == [SignatureMismatch] || errs == [SignatureVerificationFailed]
    ensures errs == [SignatureVerificationFailed] <==>
      recoverTyped(VerifierDomain(p), VERIFIER_TYPES, VerifierMessage(p), p.signature) == None &&
      recoverHashed(VerifierMessage(p), p.signature) == None
    ensures errs == [] <==> EffectiveSigner(p, recoverTyped, recoverHashed) == Some(Text.ToLower(p.from))
  {
    var typed := recoverTyped(VerifierDomain(p), VERIFIER_TYPES, VerifierMessage(p), p.signature);
    match typed
    case Some(recovered) =>
      if !Text.EqualsIgnoreCase(recovered, p.from) then [SignatureMismatch] else []
    case None =>
      match recoverHashed(VerifierMessage(p), p.signature)
      case Some(recovered) =>
        if !Text.EqualsIgnoreCase(recovered, p.from) then [SignatureMismatch] else []
      case None => [SignatureVerificationFailed]
  }

  /** The signer that counts, lower-cased: the typed-data result when there is one, else the fallback's. */
  function EffectiveSigner(p: PaymentPayload, recoverTyped: TypedDataRecovery,
                           recoverHashed: (Message, string) -> Option<string>): Option<string>
  {
    match recoverTyped(VerifierDomain(p), VERIFIER_TYPES, VerifierMessage(p), p.signature)
    case Some(a) => Some(Text.ToLower(a))
    case None =>
      match recoverHashed(VerifierMessage(p), p.signature)
      case Some(a) => Some(Text.ToLower(a))
      case None => None
  }

  /** All codes of a decoded payload, in the handler's order. */
  function PayloadErrors(p: PaymentPayload, now: int, usedNonces: set<string>,
                         recoverTyped: TypedDataRecovery,
                         recoverHashed: (Message, string) -> Option<string>): seq<VerifyError>
  {
    ChainErrors(p) + TimeErrors(p, now) + NonceErrors(p, usedNonces) + SignatureErrors(p, recoverTyped, recoverHashed)
  }

  /** Codes strictly increase in stage: fixed order, no repeats, at most one signature code. */
  predicate InStageOrder(errs: seq<VerifyError>) {
    forall i, j :: 0 <= i < j < |errs| ==> errs[i].Stage() < errs[j].Stage()
  }

  /** Every code of `x` has a stage in `[lo, hi]`. */
  predicate StagesWithin(x: seq<VerifyError>, lo: nat, hi: nat) {
    forall i :: 0 <= i < |x| ==> lo <= x[i].Stage() <= hi
  }

  lemma ConcatInStageOrder(x: seq<VerifyError>, y: seq<VerifyError>, lo: nat, mid: nat, hi: nat)
    requires InStageOrder(x) && InStageOrder(y)
    requires lo <= mid <= hi && StagesWithin(x, lo, mid) && StagesWithin(y, mid + 1, hi)
    ensures InStageOrder(x + y) && StagesWithin(x + y, lo, hi)
  {
    var z := x + y;
    forall i, j | 0 <= i < j < |z| ensures z[i].Stage() < z[j].Stage() {
      if j < |x| {
        assert z[i] == x[i] && z[j] == x[j];
      } else if i >= |x| {
        assert z[i] == y[i - |x|] && z[j] == y[j - |x|];
      } else {
        assert z[i] == x[i] && z[j] == y[j - |x|];
      }
    }
    forall i | 0 <= i < |z| ensures lo <= z[i].Stage() <= hi {
      if i < |x| { assert z[i] == x[i]; } else { assert z[i] == y[i - |x|]; }
    }
  }

  /** A check's codes: in stage order, within stages `[lo, hi]`, at most `k` of them. */
  predicate Piece(x: seq<VerifyError>, lo: nat, hi: nat, k: nat) {
    InStageOrder(x) && StagesWithin(x, lo, hi) && |x| <= k
  }

  /** A list of at most one code is in stage order. */
  lemma SingleStage(x: seq<VerifyError>, lo: nat, hi: nat)
    requires |x| <= 1 && (x != [] ==> lo <= x[0].Stage() <= hi)
    ensures Piece(x, lo, hi, 1)
  {
  }

  /** The time check's codes: not-yet-valid before expired. */
  lemma TimePieceInStageOrder(b: seq<VerifyError>)
    requires b == [] || b == [NotYetValid] || b == [Expired] || b == [NotYetValid, Expired]
    ensures Piece(b, 2, 3, 2)
  {
    if b == [NotYetValid, Expired] {
      assert InStageOrder(b) && StagesWithin(b, 2, 3);
    } else {
      SingleStage(b, 2, 3);
    }
  }

  lemma ChainPiece(p: PaymentPayload)
    ensures Piece(ChainErrors(p), 1, 1, 1)
  {
    SingleStage(ChainErrors(p), 1, 1);
  }

  lemma TimePiece(p: PaymentPayload, now: int)
    ensures Piece(TimeErrors(p, now), 2, 3, 2)
  {
    TimePieceInStageOrder(TimeErrors(p, now));
  }

  lemma NoncePiece(p: PaymentPayload, usedNonces: set<string>)
    ensures Piece(NonceErrors(p, usedNonces), 4, 4, 1)
  {
    SingleStage(NonceErrors(p, usedNonces), 4, 4);
  }

  lemma SignaturePiece(p: PaymentPayload, recoverTyped: TypedDataRecovery,
                       recoverHashed: (Message, string) -> Option<string>)
    ensures Piece(SignatureErrors(p, recoverTyped, recoverHashed), 5, 5, 1)
  {
    SingleStage(SignatureErrors(p, recoverTyped, recoverHashed), 5, 5);
  }

  /** Four pieces, each in stage order and confined to its own stages, concatenate in stage order. */
  lemma FourPiecesInStageOrder(a: seq<VerifyError>, b: seq<VerifyError>, c: seq<VerifyError>, d: seq<VerifyError>)
    requires Piece(a, 1, 1, 1) && Piece(b, 2, 3, 2) && Piece(c, 4, 4, 1) && Piece(d, 5, 5, 1)
    ensures InStageOrder(a + b + c + d) && |a + b + c + d| <= 5
  {
    ConcatInStageOrder(a, b, 1, 1, 3);
    ConcatInStageOrder(a + b, c, 1, 3, 4);
    ConcatInStageOrder(a + b + c, d, 1, 4, 5);
  }

  /** The handler's codes come in a fixed order (chain, time, nonce, signature), each at most once. */
  lemma PayloadErrorsInStageOrder(p: PaymentPayload, now: int, usedNonces: set<string>,
                                  recoverTyped: TypedDataRecovery,
                                  recoverHashed: (Message, string) -> Option<string>)
    ensures InStageOrder(PayloadErrors(p, now, usedNonces, recoverTyped, recoverHashed))
    ensures |PayloadErrors(p, now, usedNonces, recoverTyped, recoverHashed)| <= 5
  {
    ChainPiece(p);
    TimePiece(p, now);
    NoncePiece(p, usedNonces);
    SignaturePiece(p, recoverTyped, recoverHashed);
    FourPiecesInStageOrder(ChainErrors(p), TimeErrors(p, now), NonceErrors(p, usedNonces),
                           SignatureErrors(p, recoverTyped, recoverHashed));
  }

  /** `usedNonces`, the handler's module-level set, is a field that `Verify` only reads. */
  class FacilitatorState {
    var usedNonces: set<string>

    /** `new Set<string>()` at start-up. */
    constructor ()
      ensures usedNonces == {}
    {
      usedNonces := {};
    }

    /**
     * `POST /verify`: the payload comes from the body field or the `X-PAYMENT`
     * header, `now` is the clock in unix seconds. The method has no `modifies`
     * clause, so it cannot change `usedNonces`.
     */
    method Verify(bodyField: Option<string>, header: Option<string>, now: int, codec: JsonText,
                  recoverTyped: TypedDataRecovery,
                  recoverHashed: (Message, string) -> Option<string>) returns (reply: VerifyReply)
      ensures DecodePayload(PayloadSource(bodyField, header), codec).None? ==>
        reply == VerifyReply(400, false, [InvalidPayload])
      ensures DecodePayload(PayloadSource(bodyField, header), codec).Some? ==>
        var p := DecodePayload(PayloadSource(bodyField, header), codec).value;
        reply.errors == ChainErrors(p) + TimeErrors(p, now) + NonceErrors(p, usedNonces)
                        + SignatureErrors(p, recoverTyped, recoverHashed)
      ensures reply.success <==> reply.errors == []
      ensures reply.status == (if reply.success then 200 else 400)
    {
      var b64 := PayloadSource(bodyField, header);
      var decoded := DecodePayload(b64, codec);
      if decoded.None? {
        return VerifyReply(400, false, [InvalidPayload]);
      }
      var payload := decoded.value;
      var errors: seq<VerifyError> := [];
      if payload.chainId !in SUPPORTED_CHAIN_IDS {
        errors := errors + [InvalidChain];
      }
      assert errors == ChainErrors(payload);
      if now < payload.validAfter {
        errors := errors + [NotYetValid];
      }
      if now > payload.validBefore {
        errors := errors + [Expired];
      }
      assert errors == ChainErrors(payload) + TimeErrors(payload, now);
      if payload.nonce in usedNonces {
        errors := errors + [NonceReplay];
      }
      ghost var checked := errors;
      assert checked == ChainErrors(payload) + TimeErrors(payload, now) + NonceErrors(payload, usedNonces);
      var domain := Domain("USDC", "2", payload.chainId, payload.verifyingContract);
      var types := VERIFIER_TYPES;
      var message := Message(payload.from, payload.to, payload.value,
                             payload.validAfter, payload.validBefore, payload.nonce);
      var recovered := recoverTyped(domain, types, message, payload.signature);
      if recovered.Some? {
        if !Text.EqualsIgnoreCase(recovered.value, payload.from) {
          errors := errors + [SignatureMismatch];
        }
      } else {
        var recovered2 := recoverHashed(message, payload.signature);
        if recovered2.Some? {
          if !Text.EqualsIgnoreCase(recovered2.value, payload.from) {
            errors := errors + [SignatureMismatch];
          }
        } else {
          errors := errors + [SignatureVerificationFailed];
        }
      }
      assert errors == checked + SignatureErrors(payload, recoverTyped, recoverHashed);
      if |errors| > 0 {
        return VerifyReply(400, false, errors);
      }
      return VerifyReply(200, true, []);
    }
  }

  /** The payload is accepted exactly when every one of the four checks passes. */
  lemma AcceptedIff(p: PaymentPayload, now: int, usedNonces: set<string>,
                    recoverTyped: TypedDataRecovery,
                    recoverHashed: (Message, string) -> Option<string>)
    ensures PayloadErrors(p, now, usedNonces, recoverTyped, recoverHashed) == [] <==>
      && p.chainId in SUPPORTED_CHAIN_IDS
      && p.validAfter <= now <= p.validBefore
      && p.nonce !in usedNonces
      && EffectiveSigner(p, recoverTyped, recoverHashed) == Some(Text.ToLower(p.from))
  {
  }

  /** Inside a well-formed window at most one of the two time codes is raised. */
  lemma AtMostOneTimeError(p: PaymentPayload, now: int)
    requires p.validAfter <= p.validBefore
    ensures |TimeErrors(p, now)| <= 1
  {
  }

  /** Both window ends are valid instants. */
  lemma WindowBoundsInclusive(p: PaymentPayload)
    requires p.validAfter <= p.validBefore
    ensures TimeErrors(p, p.validAfter) == [] && TimeErrors(p, p.validBefore) == []
    ensures TimeErrors(p, p.validBefore + 1) == [Expired]
  {
  }

  /** The fallback is never consulted once typed-data recovery yields an address, even a wrong one. */
  lemma FallbackOnlyWhenTypedRecoveryFails(p: PaymentPayload, recoverTyped: TypedDataRecovery,
                                            hashed1: (Message, string) -> Option<string>,
                                            hashed2: (Message, string) -> Option<string>)
    requires recoverTyped(VerifierDomain(p), VERIFIER_TYPES, VerifierMessage(p), p.signature).Some?
    ensures SignatureErrors(p, recoverTyped, hashed1) == SignatureErrors(p, recoverTyped, hashed2)
  {
  }
}
