/**
 * The facilitator's two on-chain legs (apps/facilitator/src/services/payment.ts):
 * executing the payer's EIP-3009 `transferWithAuthorization` on the user's
 * chain, taken here as its outcome, and paying the resource server out of the
 * facilitator's pre-funded USDC balance on the target chain, modelled against
 * an abstract token ledger.
 */
module Settlement {
  import opened Wrappers
  import opened PaymentTypes
  import Text

  /** A thrown value: an `Error` with its `message`, or anything else. */
  datatype Failure = Failure(isError: bool, message: string)

  /** `error instanceof Error ? error.message : 'Unknown error'`. */
  function ErrorText(f: Failure): (text: string)
    ensures f.isError ==> text == f.message
    ensures !f.isError ==> text == "Unknown error"
  {
    if f.isError then f.message else "Unknown error"
  }

  /** What submitting and awaiting `transferWithAuthorization` produced. */
  datatype AuthorizationOutcome = Receipt(status: int) | AuthorizationThrew(failure: Failure)

  /** `verifyPaymentOnChain`: confirmed exactly when the mined receipt has status 1; any throw is `false`. */
  function VerifyPaymentOnChain(outcome: AuthorizationOutcome): (paid: bool)
    ensures paid <==> outcome == Receipt(1)
  {
    match outcome
    case Receipt(status) => status == 1
    case AuthorizationThrew(_) => false
  }

  /** Balances per chain name and address; a missing entry is 0. */
  type Balances = map<string, map<string, nat>>

  function BalanceOf(balances: Balances, chain: string, address: string): nat {
    if chain in balances && address in balances[chain] then balances[chain][address] else 0
  }

  function SetBalance(balances: Balances, chain: string, address: string, amount: nat): (r: Balances)
    ensures BalanceOf(r, chain, address) == amount
    ensures forall c, a :: (c != chain || a != address) ==> BalanceOf(r, c, a) == BalanceOf(balances, c, a)
  {
    var accounts := if chain in balances then balances[chain] else map[];
    balances[chain := accounts[address := amount]]
  }

  /** An ERC-20 `transfer` of `amount` from `from` to `to` on `chain`. */
  function Transfer(balances: Balances, chain: string, from: string, to: string, amount: nat): Balances
    requires amount <= BalanceOf(balances, chain, from)
  {
    var debited := SetBalance(balances, chain, from, BalanceOf(balances, chain, from) - amount);
    SetBalance(debited, chain, to, BalanceOf(debited, chain, to) + amount)
  }

  /** Exactly `amount` moves from `from` to `to`; every other balance, on every chain, is unchanged. */
  lemma TransferMovesExactly(balances: Balances, chain: string, from: string, to: string, amount: nat)
    requires amount <= BalanceOf(balances, chain, from)
    ensures from != to ==>
      && BalanceOf(Transfer(balances, chain, from, to, amount), chain, from) == BalanceOf(balances, chain, from) - amount
      && BalanceOf(Transfer(balances, chain, from, to, amount), chain, to) == BalanceOf(balances, chain, to) + amount
    ensures from == to ==> BalanceOf(Transfer(balances, chain, from, to, amount), chain, from) == BalanceOf(balances, chain, from)
    ensures forall c, a :: (c != chain || (a != from && a != to)) ==>
      BalanceOf(Transfer(balances, chain, from, to, amount), c, a) == BalanceOf(balances, c, a)
  {
  }

  /** The sum of the two balances a transfer touches is preserved. */
  lemma TransferConservesPair(balances: Balances, chain: string, from: string, to: string, amount: nat)
    requires amount <= BalanceOf(balances, chain, from) && from != to
    ensures BalanceOf(Transfer(balances, chain, from, to, amount), chain, from)
            + BalanceOf(Transfer(balances, chain, from, to, amount), chain, to)
         == BalanceOf(balances, chain, from) + BalanceOf(balances, chain, to)
  {
    TransferMovesExactly(balances, chain, from, to, amount);
  }

  /** How `settleWithPreFundedBalance` ends. */
  datatype SettleStep =
    | ReadFailed(failure: Failure)           // provider or `balanceOf` threw
    | BadAmount(failure: Failure)            // `BigInt(payload.value)` threw
    | Insufficient                           // balance below the amount
    | AddressRequired                        // no resource server address
    | TransferFailed(failure: Failure)       // `transfer` or `wait` threw
    | Paid(to: string, amount: nat)          // the transfer was confirmed

  datatype SettleResult = SettleResult(success: bool, error: Option<string>)

  /** The reply object of each ending. */
  function ResultOf(step: SettleStep): (r: SettleResult)
    ensures r.success <==> step.Paid?
    ensures step.Insufficient? ==> r.error == Some("insufficient_pre_funded_balance")
    ensures step.AddressRequired? ==> r.error == Some("resource_server_address_required")
    ensures r.success ==> r.error == None
  {
    match step
    case ReadFailed(f) => SettleResult(false, Some(ErrorText(f)))
    case BadAmount(f) => SettleResult(false, Some(ErrorText(f)))
    case Insufficient => SettleResult(false, Some("insufficient_pre_funded_balance"))
    case AddressRequired => SettleResult(false, Some("resource_server_address_required"))
    case TransferFailed(f) => SettleResult(false, Some(ErrorText(f)))
    case Paid(_, _) => SettleResult(true, None)
  }

  /** The `SyntaxError` that `BigInt` throws for text that is not an integer. */
  function BigIntSyntaxError(value: string): Failure {
    Failure(true, "Cannot convert " + value + " to a BigInt")
  }

  /**
   * ethers' errors when it encodes the `transfer` amount, which it reads from
   * `payload.value` again: the empty string is refused, and a negative amount
   * is out of range for `uint256`. Only the leading part of ethers' messages
   * is kept.
   */
  const EMPTY_AMOUNT_FAILURE: Failure := Failure(true, "invalid BigNumberish string: empty string")
  const NEGATIVE_AMOUNT_FAILURE: Failure := Failure(true, "value out-of-bounds")

  /**
   * The four guards of `settleWithPreFundedBalance` pass: `BigInt` reads the
   * amount, it is within the balance, and the resource server address is set.
   */
  predicate GuardsPass(balance: nat, value: string, resourceServerAddress: Option<string>) {
    && Text.ParseBigInt(value).Some? && Text.ParseBigInt(value).value <= balance
    && resourceServerAddress.Some? && resourceServerAddress.value != ""
  }

  /**
   * The guard order of `settleWithPreFundedBalance`: read the balance, parse
   * the amount with `BigInt`, compare (exactly, as integers), require the
   * resource server's address, transfer. `balanceRead` is `Some` when the
   * balance read threw and `transfer` is `Some` when sending the transfer or
   * awaiting its confirmation threw. An empty or negative amount passes both
   * guards and is then refused by ethers before anything is sent.
   */
  function Decide(balance: nat, value: string, resourceServerAddress: Option<string>,
                  balanceRead: Option<Failure>, transfer: Option<Failure>): (step: SettleStep)
    ensures step.Paid? ==>
      && resourceServerAddress == Some(step.to) && step.to != ""
      && Text.ParseBigInt(value) == Some(step.amount as int) && value != ""
      && step.amount <= balance
      && balanceRead.None? && transfer.None?
    ensures step == Insufficient <==>
      balanceRead.None? && Text.ParseBigInt(value).Some? && balance < Text.ParseBigInt(value).value
    ensures step == AddressRequired <==>
      && balanceRead.None? && Text.ParseBigInt(value).Some? && balance >= Text.ParseBigInt(value).value
      && (resourceServerAddress == None || resourceServerAddress == Some(""))
    ensures step.BadAmount? <==> balanceRead.None? && Text.ParseBigInt(value).None?
    ensures step.TransferFailed? && transfer.None? ==>
      step.failure == EMPTY_AMOUNT_FAILURE || step.failure == NEGATIVE_AMOUNT_FAILURE
    ensures (value == "" || (Text.ParseBigInt(value).Some? && Text.ParseBigInt(value).value < 0)) ==> !step.Paid?
    ensures balanceRead.Some? ==> step == ReadFailed(balanceRead.value)
    ensures step.BadAmount? ==> step.failure == BigIntSyntaxError(value)
    ensures balanceRead.None? && GuardsPass(balance, value, resourceServerAddress) ==>
      var amount := Text.ParseBigInt(value).value;
      && (value == "" ==> step == TransferFailed(EMPTY_AMOUNT_FAILURE))
      && (value != "" && amount < 0 ==> step == TransferFailed(NEGATIVE_AMOUNT_FAILURE))
      && (value != "" && amount >= 0 && transfer.Some? ==> step == TransferFailed(transfer.value))
      && (value != "" && amount >= 0 && transfer.None? ==> step == Paid(resourceServerAddress.value, amount as nat))
  {
    if balanceRead.Some? then ReadFailed(balanceRead.value)
    else
      match Text.ParseBigInt(value)
      case None => BadAmount(BigIntSyntaxError(value))
      case Some(amount) =>
        if balance < amount then Insufficient
        else if resourceServerAddress == None || resourceServerAddress == Some("") then AddressRequired
        else if value == "" then TransferFailed(EMPTY_AMOUNT_FAILURE)
        else if amount < 0 then TransferFailed(NEGATIVE_AMOUNT_FAILURE)
        else if transfer.Some? then TransferFailed(transfer.value)
        else Paid(resourceServerAddress.value, amount)
  }

  /** The balance check comes first: an underfunded facilitator reports that even when the address is missing too. */
  lemma BalanceCheckPrecedesAddressCheck(balance: nat, value: string, balanceRead: Option<Failure>,
                                         transfer: Option<Failure>)
    requires balanceRead.None?
    requires Text.ParseBigInt(value).Some? && balance < Text.ParseBigInt(value).value
    ensures Decide(balance, value, None, balanceRead, transfer) == Insufficient
  {
  }

  /** `BigInt` reads a hexadecimal amount, so `"0x10"` settles 16 base units like `"16"`. */
  lemma HexAmountSettles(balance: nat, address: string)
    requires 16 <= balance && address != ""
    ensures Decide(balance, "0x10", Some(address), None, None) == Paid(address, 16)
    ensures Decide(balance, "16", Some(address), None, None) == Paid(address, 16)
  {
    Text.HexLiteralAccepted();
    Text.ParseNatToDecimal(16);
    assert Text.NatToDecimal(16) == "16";
  }

  /** The facilitator's ledger of USDC balances across the four chains. */
  class TokenLedger {
    var balances: Balances

    constructor (initial: Balances)
      ensures balances == initial
    {
      balances := initial;
    }

    /**
     * `settleWithPreFundedBalance(targetChain, payload, resourceServerAddress)`
     * paid from the account `facilitator` (the wallet's address). The payout
     * goes to `resourceServerAddress`, never to `payload.to`, and the ledger
     * changes only when the transfer is confirmed. No exception escapes.
     */
    method SettleWithPreFundedBalance(facilitator: string, targetChain: string, payload: PaymentPayload,
                                      resourceServerAddress: Option<string>,
                                      balanceRead: Option<Failure>, transfer: Option<Failure>)
      returns (r: SettleResult)
      modifies this
      ensures var step := Decide(BalanceOf(old(balances), targetChain, facilitator), payload.value,
                                 resourceServerAddress, balanceRead, transfer);
        && r == ResultOf(step)
        && balances == (if step.Paid?
                        then Transfer(old(balances), targetChain, facilitator, step.to, step.amount)
                        else old(balances))
    {
      if balanceRead.Some? {
        return ResultOf(ReadFailed(balanceRead.value));
      }
      var balance := BalanceOf(balances, targetChain, facilitator);
      var parsed := Text.ParseBigInt(payload.value);
      if parsed.None? {
        return ResultOf(BadAmount(BigIntSyntaxError(payload.value)));
      }
      var amount := parsed.value;
      if balance < amount {
        return SettleResult(false, Some("insufficient_pre_funded_balance"));
      }
      if resourceServerAddress == None || resourceServerAddress == Some("") {
        return SettleResult(false, Some("resource_server_address_required"));
      }
      if payload.value == "" {
        return ResultOf(TransferFailed(EMPTY_AMOUNT_FAILURE));
      }
      if amount < 0 {
        return ResultOf(TransferFailed(NEGATIVE_AMOUNT_FAILURE));
      }
      if transfer.Some? {
        return ResultOf(TransferFailed(transfer.value));
      }
      balances := Transfer(balances, targetChain, facilitator, resourceServerAddress.value, amount);
      return SettleResult(true, None);
    }
  }

  /** Every failed settlement leaves the ledger as it was; a paid one moves exactly the amount to the resource server. */
  lemma SettlementEffect(balances: Balances, facilitator: string, targetChain: string, value: string,
                         resourceServerAddress: Option<string>, balanceRead: Option<Failure>,
                         transfer: Option<Failure>)
    ensures var step := Decide(BalanceOf(balances, targetChain, facilitator), value, resourceServerAddress,
                               balanceRead, transfer);
      step.Paid? ==>
        && step.to == resourceServerAddress.value
        && (facilitator != step.to ==>
              BalanceOf(Transfer(balances, targetChain, facilitator, step.to, step.amount), targetChain, step.to)
              == BalanceOf(balances, targetChain, step.to) + step.amount)
        && forall c, a :: (c != targetChain || (a != facilitator && a != step.to)) ==>
              BalanceOf(Transfer(balances, targetChain, facilitator, step.to, step.amount), c, a)
              == BalanceOf(balances, c, a)
  {
    var step := Decide(BalanceOf(balances, targetChain, facilitator), value, resourceServerAddress,
                       balanceRead, transfer);
    if step.Paid? {
      TransferMovesExactly(balances, targetChain, facilitator, step.to, step.amount);
    }
  }
}
