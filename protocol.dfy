/**
 * Properties of the x402 exchange as a whole, across the four services: the
 * 402 challenge the resource server emits reaches the client through the
 * service agent and tells it what to pay and to whom; the authorization the
 * client builds and encodes is read back unchanged by the facilitator and,
 * signed honestly and presented in time, passes every check; and the chain
 * tables the services keep separately agree.
 */
module Protocol {
  import opened Wrappers
  import opened Json
  import opened Http
  import opened PaymentTypes
  import Text
  import ClientPayment
  import ClientA2A
  import FacilitatorHelpers
  import Facilitator
  import X402
  import ResourceHelpers
  import ResourceServer
  import ServiceAgent

  // ------------------------------------------------------------ transport

  /**
   * The client's `X-PAYMENT` text, forwarded as `paymentPayloadBase64`, is
   * chosen by the facilitator as the payload source and decodes to exactly
   * the payload the client built: the debugging `_rawNonce` is ignored.
   */
  lemma ClientPayloadDecodes(cp: ClientPayment.ClientPayload, codec: JsonText, header: Option<string>)
    requires Lawful(codec)
    ensures var b64 := ClientPayment.EncodePaymentPayload(cp, codec);
      && Facilitator.PayloadSource(Some(b64), header) == Some(b64)
      && Facilitator.DecodePayload(Some(b64), codec) == Some(cp.payload)
  {
    var j := ClientPayment.ClientJson(cp);
    assert ClientPayment.EncodePaymentPayload(cp, codec) == FacilitatorHelpers.EncodeBase64Json(j, codec);
    FacilitatorHelpers.DecodeEncodeBase64Json(j, codec);
    assert |codec.serialize(j)| > 0;
    ClientPayment.ClientJsonReadsAsPayload(cp);
  }

  // ------------------------------------------------------------ signing

  /** The client signs over the very domain, type list and message the facilitator rebuilds to recover the signer. */
  lemma SigningDataMatchesVerifier(p: PaymentPayload)
    ensures Facilitator.VerifierDomain(p) == Domain("USDC", "2", p.chainId, p.verifyingContract)
    ensures Facilitator.VERIFIER_TYPES == ClientPayment.TRANSFER_WITH_AUTHORIZATION
    ensures Facilitator.VerifierMessage(p) == Message(p.from, p.to, p.value, p.validAfter, p.validBefore, p.nonce)
  {
  }

  /**
   * An authorization as `createPaymentPayload` builds it at time `created`,
   * signed by a key whose address is `from` (up to case), on a supported
   * chain, with an unused nonce, and presented within its window, raises no
   * code at the facilitator. `recoverTyped` is only asked to undo `sign` on
   * the data that was signed.
   */
  lemma HonestPaymentAccepted(p: PaymentPayload, created: int, now: int, usedNonces: set<string>,
                              sign: TypedDataSigner, recoverTyped: TypedDataRecovery,
                              recoverHashed: (Message, string) -> Option<string>, signer: string)
    requires p.validAfter == created - 60 && p.validBefore == created + 300
    requires p.signature == sign(Domain("USDC", "2", p.chainId, p.verifyingContract),
                                 ClientPayment.TRANSFER_WITH_AUTHORIZATION,
                                 Message(p.from, p.to, p.value, p.validAfter, p.validBefore, p.nonce))
    requires recoverTyped(Domain("USDC", "2", p.chainId, p.verifyingContract),
                          ClientPayment.TRANSFER_WITH_AUTHORIZATION,
                          Message(p.from, p.to, p.value, p.validAfter, p.validBefore, p.nonce),
                          p.signature) == Some(signer)
    requires Text.EqualsIgnoreCase(signer, p.from)
    requires p.chainId in Facilitator.SUPPORTED_CHAIN_IDS && p.nonce !in usedNonces
    requires created - 60 <= now <= created + 300
    ensures Facilitator.PayloadErrors(p, now, usedNonces, recoverTyped, recoverHashed) == []
  {
    SigningDataMatchesVerifier(p);
    assert Facilitator.SignatureErrors(p, recoverTyped, recoverHashed) == [];
    assert Facilitator.TimeErrors(p, now) == [];
  }

  /**
   * The same authorization presented after its window closes, or a second
   * time once its nonce is recorded, is refused with exactly that code.
   */
  lemma StaleOrReplayedPaymentRefused(p: PaymentPayload, created: int, now: int, usedNonces: set<string>,
                                      recoverTyped: TypedDataRecovery,
                                      recoverHashed: (Message, string) -> Option<string>)
    requires p.validAfter == created - 60 && p.validBefore == created + 300
    ensures now > created + 300 ==>
      Facilitator.Expired in Facilitator.PayloadErrors(p, now, usedNonces, recoverTyped, recoverHashed)
    ensures p.nonce in usedNonces ==>
      Facilitator.NonceReplay in Facilitator.PayloadErrors(p, now, usedNonces, recoverTyped, recoverHashed)
    ensures Facilitator.NotYetValid !in Facilitator.PayloadErrors(p, now, usedNonces, recoverTyped, recoverHashed) <==>
      now >= created - 60
  {
    var errs := Facilitator.PayloadErrors(p, now, usedNonces, recoverTyped, recoverHashed);
    var chain, time := Facilitator.ChainErrors(p), Facilitator.TimeErrors(p, now);
    var nonce, sig := Facilitator.NonceErrors(p, usedNonces), Facilitator.SignatureErrors(p, recoverTyped, recoverHashed);
    assert errs == chain + time + nonce + sig;
    assert Facilitator.NotYetValid !in chain && Facilitator.NotYetValid !in nonce && Facilitator.NotYetValid !in sig;
  }

  // ------------------------------------------------------------ chain tables

  /**
   * The three USDC tables agree: the facilitator's and the resource server's
   * give the same address for every name, and the client's has an entry for
   * exactly the four chains, holding that address.
   */
  lemma UsdcTablesAgree(chain: string)
    ensures FacilitatorHelpers.TokenAddressForChain(chain) == ResourceHelpers.UsdcAddressForChain(chain)
    ensures ClientA2A.UsdcAddressFor(chain) ==
      (if chain in FacilitatorHelpers.CHAIN_NAMES then Some(FacilitatorHelpers.TokenAddressForChain(chain)) else None)
  {
  }

  /**
   * Every chain id the client can pick is one the facilitator accepts, and for
   * a known chain name the facilitator lists that name with that id.
   */
  lemma ClientChainIdsSupported(chain: string)
    ensures ClientA2A.ChainIdFor(chain) in Facilitator.SUPPORTED_CHAIN_IDS
    ensures chain in ClientA2A.CHAIN_IDS ==>
      exists n :: n in Facilitator.ListSupported() && n.name == chain && n.chainId == ClientA2A.ChainIdFor(chain)
  {
    var table := Facilitator.ListSupported();
    if chain == "polygon-amoy" {
      assert table[0].name == chain && table[0].chainId == 80002;
    } else if chain == "base-sepolia" {
      assert table[1].name == chain && table[1].chainId == 84532;
    } else if chain == "polygon" {
      assert table[2].name == chain && table[2].chainId == 137;
    } else if chain == "base" {
      assert table[3].name == chain && table[3].chainId == 8453;
    }
  }

  /** Each entry of the client's USDC table is `0x` followed by forty hex digits. */
  lemma UsdcAddressesAreAddresses()
    ensures forall chain :: chain in ClientA2A.USDC_ADDRESSES ==> ClientPayment.IsAddress(ClientA2A.USDC_ADDRESSES[chain])
  {
    BaseUsdcIsAddress();
    BaseSepoliaUsdcIsAddress();
    PolygonUsdcIsAddress();
    PolygonAmoyUsdcIsAddress();
  }

  lemma BaseUsdcIsAddress()
    ensures ClientPayment.IsAddress(ClientA2A.USDC_ADDRESSES["base"])
  {
    HexAddress("0x833589fCD6eDb6E08f4c7C32D4f71b54bdA02913");
  }

  lemma BaseSepoliaUsdcIsAddress()
    ensures ClientPayment.IsAddress(ClientA2A.USDC_ADDRESSES["base-sepolia"])
  {
    HexAddress("0x036CbD53842c5426634e7929541eC2318f3dCF7e");
  }

  lemma PolygonUsdcIsAddress()
    ensures ClientPayment.IsAddress(ClientA2A.USDC_ADDRESSES["polygon"])
  {
    HexAddress("0x2791Bca1f2de4661ED88A30C99A7a9449Aa84174");
  }

  lemma PolygonAmoyUsdcIsAddress()
    ensures ClientPayment.IsAddress(ClientA2A.USDC_ADDRESSES["polygon-amoy"])
  {
    HexAddress("0x41E94Eb019C0762f9Bfcf9Fb1E58725BfB0e7582");
  }

  /** Hex digits checked one at a time. */
  lemma {:induction false} AllHexByIndex(s: string)
    requires forall i :: 0 <= i < |s| ==> Text.IsHexDigit(s[i])
    ensures Text.AllHex(s)
  {
    if s != [] {
      AllHexByIndex(s[1..]);
    }
  }

  lemma HexAddress(s: string)
    requires |s| == 42 && s[0] == '0' && s[1] == 'x'
    requires forall i :: 2 <= i < 42 ==> Text.IsHexDigit(s[i])
    ensures ClientPayment.IsAddress(s)
  {
    AllHexByIndex(s[2..]);
  }

  /**
   * On a known chain the client signs against, and transmits, the USDC
   * contract the facilitator holds for that chain; on an unknown one the zero
   * address takes its place.
   */
  lemma ClientContractIsUsdc(chain: string)
    ensures chain in FacilitatorHelpers.CHAIN_NAMES ==>
      ClientPayment.ContractOrZero(ClientA2A.UsdcAddressFor(chain)) == FacilitatorHelpers.TokenAddressForChain(chain)
    ensures chain !in FacilitatorHelpers.CHAIN_NAMES ==>
      ClientPayment.ContractOrZero(ClientA2A.UsdcAddressFor(chain)) == ClientPayment.ZERO_ADDRESS
  {
    UsdcAddressesAreAddresses();
    UsdcTablesAgree(chain);
  }

  // ------------------------------------------------------------ the challenge

  /** The single requirement of the resource server's challenge. */
  function ChallengeEntry(env: ResourceServer.ResourceEnv): Json {
    X402.RequirementsJson(X402.BuildPaymentRequirements(
      ResourceServer.ResourceUrl(env.port), env.facilitatorAddress,
      ResourceHelpers.UsdcAddressForChain(env.targetChain), Some(env.targetChain)))
  }

  /** The challenge's `asset` is the target chain's USDC contract, `''` exactly when the chain is not one of the four. */
  lemma ChallengeAsset(env: ResourceServer.ResourceEnv)
    ensures var asset := ResourceHelpers.UsdcAddressForChain(env.targetChain);
      && Get(Some(ChallengeEntry(env)), "asset") == Some(JStr(asset))
      && (asset == "" <==> env.targetChain !in FacilitatorHelpers.CHAIN_NAMES)
  {
  }

  /**
   * The resource server's 402 body, wrapped by the service agent into a
   * JSON-RPC error and delivered to the client as a 200 reply, is recognised
   * by the client as a payment request whose first entry asks for the price
   * ("100000") to be paid to the facilitator's address.
   */
  lemma ChallengeReachesClient(env: ResourceServer.ResourceEnv, id: Option<Json>,
                               downstreamHeaders: Headers, replyHeaders: Headers)
    ensures
      var downstream := Response(402, Some(ResourceServer.ChallengeBody(env)), downstreamHeaders);
      var first := Response(200, Some(ServiceAgent.DownstreamReply(id, downstream).body), replyHeaders);
      var entry := ClientA2A.FirstEntry(ClientA2A.Accepts(first.data));
      && Resolves(first) && ClientA2A.IsPaymentRequired(first.data)
      && entry == Some(ChallengeEntry(env))
      && TruthyOpt(Get(entry, "maxAmountRequired"))
      && ClientA2A.StringOf(Get(entry, "maxAmountRequired")) == Some(X402.PRICE)
      && ClientA2A.StringOf(Get(entry, "payTo")) == Some(env.facilitatorAddress)
  {
    var downstream := Response(402, Some(ResourceServer.ChallengeBody(env)), downstreamHeaders);
    var reply := ServiceAgent.DownstreamReply(id, downstream);
    var err := ServiceAgent.ErrorObject(402, "Payment Required", downstream.data);
    assert reply.body == ServiceAgent.Envelope(id, "error", err);
    assert Get(Some(reply.body), "error") == Some(err);
    assert Get(Get(Some(reply.body), "error"), "data") == Some(ResourceServer.ChallengeBody(env));
  }
}
