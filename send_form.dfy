/**
 * The send form: the list of assets offered for sending, the split of an asset
 * unit into policy id and asset name, the form's guards in order, and the gates
 * a send must pass before a transaction is built.
 */
module SendForm {
  import opened JsRuntime
  import opened Networks
  import opened Validation

  /** A wallet asset as the form receives it; `unit` is None when it is `undefined`. */
  datatype Asset = Asset(unit: Option<string>, quantity: string)

  /** `AssetOption`: one row of the asset picker. */
  datatype AssetOption = AssetOption(
    id: string,
    caption: string,  // the `label` field
    policyId: Option<string>,
    assetName: Option<string>,
    quantity: string,
    decimals: int)

  /** The id of the ADA row. */
  const AdaId: string := "ada"

  /** The first row, ADA itself, offering `balance` (in ADA) for sending. */
  function AdaOptionWith(balance: string): (o: AssetOption)
    ensures o.id == AdaId && o.quantity == balance && o.decimals == 6
  {
    AssetOption(AdaId, "ADA (Cardano)", None, None, balance, 6)
  }

  /** The ADA row as the options effect writes it: its quantity is always "0". */
  const AdaOptionAsWritten: AssetOption := AdaOptionWith("0")

  /** The length of a policy id in hex characters. */
  const PolicyIdLength: nat := 56

  /** `asset.unit || ''`. */
  function UnitOf(asset: Asset): string {
    if asset.unit.Some? then asset.unit.value else ""
  }

  /**
   * The split of a unit into policy id and asset name: the first 56 characters
   * when the unit is longer than that, otherwise no policy id at all.
   */
  function SplitUnit(unit: string): (string, string) {
    if |unit| > PolicyIdLength then (unit[..PolicyIdLength], unit[PolicyIdLength..]) else ("", unit)
  }

  /**
   * Policy id and asset name put together give the unit back; a unit longer
   * than a policy id yields a full policy id and a non-empty name, any other
   * unit no policy id at all.
   */
  lemma SplitUnitRejoins(unit: string)
    ensures SplitUnit(unit).0 + SplitUnit(unit).1 == unit
    ensures |unit| > PolicyIdLength ==> |SplitUnit(unit).0| == PolicyIdLength && SplitUnit(unit).1 != ""
    ensures |unit| <= PolicyIdLength ==> SplitUnit(unit).0 == ""
  {
    if |unit| > PolicyIdLength {
      assert unit[..PolicyIdLength] + unit[PolicyIdLength..] == unit;
    }
  }

  /** The option id `${unit}-${index}`. */
  function OptionId(unit: string, index: nat): string {
    unit + "-" + NatToString(index)
  }

  /** `assetName || \`Token ${index + 1}\``. */
  function TokenLabel(assetName: string, index: nat): string {
    if assetName != "" then assetName else "Token " + NatToString(index + 1)
  }

  /** The row the form builds for the asset at position `index`. */
  function TokenOption(asset: Asset, index: nat): AssetOption {
    var unit := UnitOf(asset);
    var parts := SplitUnit(unit);
    AssetOption(OptionId(unit, index), TokenLabel(parts.1, index), Some(parts.0), Some(parts.1), asset.quantity, 0)
  }

  /**
   * A token row's policy id and asset name rebuild its unit; its label is the
   * asset name, or "Token n" (counting from one) when the unit is empty.
   */
  lemma TokenOptionFields(asset: Asset, index: nat)
    ensures var o := TokenOption(asset, index);
            && o.policyId.Some? && o.assetName.Some?
            && o.policyId.value + o.assetName.value == UnitOf(asset)
            && o.id == OptionId(UnitOf(asset), index)
            && (UnitOf(asset) == "" ==> o.caption == "Token " + NatToString(index + 1))
            && (UnitOf(asset) == "" ==> AllDigits(o.caption[6..]) && DigitsValue(o.caption[6..]) == index + 1)
            && (UnitOf(asset) != "" ==> o.caption == o.assetName.value)
            && o.quantity == asset.quantity && o.decimals == 0
  {
    if UnitOf(asset) == "" {
      assert TokenOption(asset, index).caption[6..] == NatToString(index + 1);
      NatToStringValue(index + 1);
    }
  }

  /**
   * The options effect: ADA first, offering the wallet's ADA balance, then one
   * row per asset, in order.
   */
  method BuildAssetOptions(assets: seq<Asset>, adaBalance: string) returns (options: seq<AssetOption>)
    ensures |options| == |assets| + 1 && options[0] == AdaOptionWith(adaBalance)
    ensures forall k :: 1 <= k < |options| ==> options[k] == TokenOption(assets[k - 1], k - 1)
  {
    options := [AdaOptionWith(adaBalance)];
    var index := 0;
    while index < |assets|
      invariant 0 <= index <= |assets|
      invariant |options| == index + 1 && options[0] == AdaOptionWith(adaBalance)
      invariant forall k :: 1 <= k < |options| ==> options[k] == TokenOption(assets[k - 1], k - 1)
    {
      options := options + [TokenOption(assets[index], index)];
      index := index + 1;
    }
  }

  /** A string of digits after the last dash determines both halves of `u + "-" + d`. */
  lemma {:induction false} DashSplitUnique(u1: string, d1: string, u2: string, d2: string)
    requires AllDigits(d1) && AllDigits(d2)
    requires u1 + "-" + d1 == u2 + "-" + d2
    ensures u1 == u2 && d1 == d2
  {
    var s := u1 + "-" + d1;
    assert s == u2 + "-" + d2;
    assert s[|u1|] == '-' && s[|u2|] == '-';
    if |u1| < |u2| {
      assert false;
    } else if |u2| < |u1| {
      assert false;
    }
    assert u1 == s[..|u1|] == u2;
    assert d1 == s[|u1| + 1..] == d2;
  }

  /** Option ids name their (unit, index) pair uniquely. */
  lemma OptionIdInjective(u1: string, i: nat, u2: string, j: nat)
    requires OptionId(u1, i) == OptionId(u2, j)
    ensures u1 == u2 && i == j
  {
    DashSplitUnique(u1, NatToString(i), u2, NatToString(j));
    NatToStringInjective(i, j);
  }

  /** The option ids of a list are pairwise distinct and none is `ada`: they are safe list keys. */
  lemma OptionIdsAreKeys(assets: seq<Asset>, i: nat, j: nat)
    requires i < |assets| && j < |assets|
    ensures i != j ==> TokenOption(assets[i], i).id != TokenOption(assets[j], j).id
    ensures TokenOption(assets[i], i).id != AdaId
  {
    if TokenOption(assets[i], i).id == TokenOption(assets[j], j).id {
      OptionIdInjective(UnitOf(assets[i]), i, UnitOf(assets[j]), j);
    }
    var id := TokenOption(assets[i], i).id;
    var digits := NatToString(i);
    assert id[|id| - 1] == digits[|digits| - 1];
    assert IsDigit(id[|id| - 1]);
  }

  /** What the SDK is asked to transfer: lovelace, or a quantity of a native token named by its unit. */
  datatype Transfer =
    | SendLovelace(recipient: string, lovelace: string)
    | SendAssets(recipient: string, unit: string, quantity: string)

  /** `${selectedAsset.policyId}${selectedAsset.assetName || ''}` (an `undefined` policy id prints as "undefined"). */
  function RebuiltUnit(o: AssetOption): string {
    (if o.policyId.Some? then o.policyId.value else "undefined")
    + (if Truthy(o.assetName) then o.assetName.value else "")
  }

  /** The transfer built for the selected option and the typed amount. */
  function TransferFor(recipient: string, o: AssetOption, amount: string, num: NumberParsing): (t: Transfer)
    ensures t.recipient == recipient
    ensures t.SendLovelace? <==> o.id == AdaId
    ensures t.SendLovelace? ==> t.lovelace == num.show(Floor(Times(num.parse(amount), 1000000)))
    ensures t.SendAssets? ==> t.quantity == num.show(Floor(num.parse(amount)))
  {
    var sendAmount := num.parse(amount);
    if o.id == AdaId then SendLovelace(recipient, num.show(Floor(Times(sendAmount, 1000000))))
    else SendAssets(recipient, RebuiltUnit(o), num.show(Floor(sendAmount)))
  }

  /** Sending a token row asks for exactly the unit the wallet listed. */
  lemma TokenTransferKeepsUnit(assets: seq<Asset>, i: nat, recipient: string, amount: string, num: NumberParsing)
    requires i < |assets|
    ensures TransferFor(recipient, TokenOption(assets[i], i), amount, num)
            == SendAssets(recipient, UnitOf(assets[i]), num.show(Floor(num.parse(amount))))
  {
    OptionIdsAreKeys(assets, i, i);
  }

  /**
   * The two number primitives the form relies on: `parseFloat` from text to a
   * number, and the conversion of a number back to text (`toString` and
   * template interpolation).
   */
  datatype NumberParsing = NumberParsing(
    parse: string -> JsNumber,
    show: JsNumber -> string)

  /** The failures `validateForm` reports, in the order it checks them. */
  datatype FormError =
    | MissingRecipient
    | MissingAsset
    | InvalidAmount
    | InsufficientBalance(available: string)
    | MalformedRecipient

  function Message(e: FormError): string {
    match e
    case MissingRecipient => "Please enter a recipient address"
    case MissingAsset => "Please select an asset to send"
    case InvalidAmount => "Please enter a valid amount"
    case InsufficientBalance(available) => "Insufficient balance. Available: " + available
    case MalformedRecipient => "Invalid recipient address format"
  }

  /** The shortest recipient string the form accepts. */
  const MinRecipientLength: nat := 50

  /** `validateForm`'s guards as written: the first that fails decides. */
  function FirstFormError(recipient: string, selected: Option<AssetOption>, amount: string,
                          num: NumberParsing): Option<FormError> {
    if Trim(recipient) == "" then Some(MissingRecipient)
    else if selected.None? then Some(MissingAsset)
    else if amount == "" || AtMostZero(num.parse(amount)) then Some(InvalidAmount)
    else if Greater(num.parse(amount), num.parse(selected.value.quantity))
    then Some(InsufficientBalance(num.show(num.parse(selected.value.quantity))))
    else if |recipient| < MinRecipientLength then Some(MalformedRecipient)
    else None
  }

  /** Guard number `k` of `validateForm`, stated on its own. */
  predicate GuardFails(k: nat, recipient: string, selected: Option<AssetOption>, amount: string,
                       num: NumberParsing)
    requires k < 5
  {
    match k
    case 0 => forall i :: 0 <= i < |recipient| ==> IsJsWhitespace(recipient[i])
    case 1 => selected.None?
    case 2 => amount == "" || AtMostZero(num.parse(amount))
    case 3 => selected.Some? && Greater(num.parse(amount), num.parse(selected.value.quantity))
    case _ => |recipient| < MinRecipientLength
  }

  function Rank(e: FormError): (k: nat)
    ensures k < 5
  {
    match e
    case MissingRecipient => 0
    case MissingAsset => 1
    case InvalidAmount => 2
    case InsufficientBalance(_) => 3
    case MalformedRecipient => 4
  }

  /**
   * The form passes exactly when no guard fails; otherwise the reported error
   * is the one of the first failing guard, every earlier guard having passed.
   */
  lemma FirstFormErrorIsFirstFailingGuard(recipient: string, selected: Option<AssetOption>, amount: string,
                                          num: NumberParsing)
    ensures FirstFormError(recipient, selected, amount, num).None?
            <==> forall k :: 0 <= k < 5 ==> !GuardFails(k, recipient, selected, amount, num)
    ensures FirstFormError(recipient, selected, amount, num).Some? ==>
              var k := Rank(FirstFormError(recipient, selected, amount, num).value);
              && GuardFails(k, recipient, selected, amount, num)
              && forall k' :: 0 <= k' < k ==> !GuardFails(k', recipient, selected, amount, num)
  {
    TrimEmptyIffBlank(recipient);
    var r := FirstFormError(recipient, selected, amount, num);
    if r.Some? {
      assert GuardFails(Rank(r.value), recipient, selected, amount, num);
    } else {
      assert !GuardFails(0, recipient, selected, amount, num);
      assert !GuardFails(1, recipient, selected, amount, num);
      assert !GuardFails(2, recipient, selected, amount, num);
      assert !GuardFails(3, recipient, selected, amount, num);
      assert !GuardFails(4, recipient, selected, amount, num);
    }
  }

  /**
   * With the ADA row as written (quantity "0"), every numeric amount that gets
   * past the amount guard is refused as exceeding the balance: ADA can be sent
   * only with an amount that does not parse as a number.
   */
  lemma AdaAsWrittenRefusesEveryNumber(recipient: string, amount: string, num: NumberParsing)
    requires num.parse("0") == Finite(0.0)
    ensures FirstFormError(recipient, Some(AdaOptionAsWritten), amount, num).None? ==> num.parse(amount).NaN?
    ensures (Trim(recipient) != "" && amount != "" && !num.parse(amount).NaN? && !AtMostZero(num.parse(amount)))
            ==> FirstFormError(recipient, Some(AdaOptionAsWritten), amount, num)
                == Some(InsufficientBalance(num.show(Finite(0.0))))
  {
    GreaterThanZero(num.parse(amount));
  }

  /**
   * With the ADA row offering the wallet's balance, a well-formed recipient and a
   * positive amount within that balance pass every guard, and the send hands
   * the SDK a lovelace transfer.
   */
  lemma AdaWithinBalancePasses(recipient: string, amount: string, balance: string, num: NumberParsing,
                               a: real, b: real)
    requires Trim(recipient) != "" && |recipient| >= MinRecipientLength
    requires amount != "" && num.parse(amount) == Finite(a) && num.parse(balance) == Finite(b)
    requires 0.0 < a <= b
    ensures FirstFormError(recipient, Some(AdaOptionWith(balance)), amount, num).None?
    ensures TransferFor(recipient, AdaOptionWith(balance), amount, num).SendLovelace?
  {
  }

  /**
   * An amount that does not parse as a number (NaN) gets past both amount
   * guards, since every comparison with NaN is false; the transfer then carries
   * the text of NaN.
   */
  lemma NonNumericAmountPasses(recipient: string, o: AssetOption, amount: string, num: NumberParsing)
    requires Trim(recipient) != "" && |recipient| >= MinRecipientLength
    requires amount != "" && num.parse(amount).NaN?
    ensures FirstFormError(recipient, Some(o), amount, num).None?
    ensures TransferFor(recipient, o, amount, num).SendLovelace?
            ==> TransferFor(recipient, o, amount, num).lovelace == num.show(NaN)
    ensures TransferFor(recipient, o, amount, num).SendAssets?
            ==> TransferFor(recipient, o, amount, num).quantity == num.show(NaN)
  {
  }

  /** What building, signing and submitting the transaction give: a hash, or an error message. */
  datatype SubmitOutcome = Submitted(txHash: string) | SubmitFailed(message: string)

  /** The error shown when the mismatch flag blocks a send. */
  function MismatchRefusal(network: NetworkType): string {
    "Cannot send transaction: " + "wallet network mismatch. " + "Please connect to " + DisplayName(network) + "."
  }

  /** The error shown when `validateWalletNetwork` rejects. */
  function NetworkErrorMessage(e: NetworkValidationError): string {
    "Network Error: " + e.message
  }

  /** `err.message || \`Transaction failed on ${displayName}. Please try again.\``. */
  function SubmitFailureMessage(message: string, network: NetworkType): (shown: string)
    ensures shown != ""
    ensures message != "" ==> shown == message
  {
    if message != "" then message
    else "Transaction failed on " + DisplayName(network) + ". Please try again."
  }

  /** The form fields a send reads or writes. */
  datatype FormState = FormState(
    recipient: string,
    selectedAsset: Option<AssetOption>,
    amount: string,
    loading: bool,
    error: string)

  /** The form after a send, the transfer handed to the SDK (if any) and the submitted hash (if any). */
  datatype SendResult = SendResult(after: FormState, transfer: Option<Transfer>, txHash: Option<string>)

  /**
   * The `try`/`finally` part of `handleSend`: `check` is what awaiting
   * `validateWalletNetwork` gives; on success the transfer for the selected
   * asset is built, signed and submitted. Loading ends false either way.
   */
  function Attempt(f: FormState, check: ValidationOutcome, network: NetworkType, num: NumberParsing,
                   submit: SubmitOutcome): SendResult
    requires f.selectedAsset.Some?
  {
    match check
    case Err(e) => SendResult(f.(loading := false, error := NetworkErrorMessage(e)), None, None)
    case Ok =>
      var t := TransferFor(f.recipient, f.selectedAsset.value, f.amount, num);
      match submit
      case Submitted(hash) =>
        SendResult(f.(recipient := "", amount := "", loading := false, error := ""), Some(t), Some(hash))
      case SubmitFailed(message) =>
        SendResult(f.(loading := false, error := SubmitFailureMessage(message, network)), Some(t), None)
  }

  /**
   * `handleSend` on form `f`: the form's guards, the wallet and selection, the
   * mismatch flag, then `validateWalletNetwork` and the submission.
   */
  function Send(f: FormState, wallet: Option<Wallet>, network: NetworkType, isNetworkMismatch: bool,
                num: NumberParsing, submit: SubmitOutcome): SendResult
  {
    match FirstFormError(f.recipient, f.selectedAsset, f.amount, num)
    case Some(e) => SendResult(f.(error := Message(e)), None, None)
    case None =>
      if wallet.None? || f.selectedAsset.None? then SendResult(f, None, None)
      else if isNetworkMismatch then SendResult(f.(error := MismatchRefusal(network)), None, None)
      else Attempt(f.(loading := true, error := ""), Validate(wallet.value, network), network, num, submit)
  }

  /**
   * A transfer reaches the SDK exactly when every gate passes: the form is
   * valid, a wallet and an asset are present, the mismatch flag is off and the
   * wallet is on the app's network. It is then the transfer for the selected
   * asset and the typed amount.
   */
  lemma SendBuildsOnlyPastEveryGate(f: FormState, wallet: Option<Wallet>, network: NetworkType,
                                    isNetworkMismatch: bool, num: NumberParsing, submit: SubmitOutcome)
    ensures var r := Send(f, wallet, network, isNetworkMismatch, num, submit);
            && (r.transfer.Some? <==>
                  && FirstFormError(f.recipient, f.selectedAsset, f.amount, num).None?
                  && wallet.Some? && f.selectedAsset.Some? && !isNetworkMismatch
                  && Validate(wallet.value, network).Ok?)
            && (r.transfer.Some? ==> r.transfer.value == TransferFor(f.recipient, f.selectedAsset.value, f.amount, num))
            && (r.txHash.Some? <==> r.transfer.Some? && submit.Submitted?)
  {
  }

  /** Each way a send can stop shows its own message; stopping for a missing wallet or asset shows nothing new. */
  lemma SendErrorMessages(f: FormState, wallet: Option<Wallet>, network: NetworkType,
                          isNetworkMismatch: bool, num: NumberParsing, submit: SubmitOutcome)
    ensures var r := Send(f, wallet, network, isNetworkMismatch, num, submit);
            var formError := FirstFormError(f.recipient, f.selectedAsset, f.amount, num);
            && (formError.Some? ==> r.after.error == Message(formError.value))
            && (formError.None? && (wallet.None? || f.selectedAsset.None?) ==> r.after == f)
            && ((formError.None? && wallet.Some? && f.selectedAsset.Some? && isNetworkMismatch)
                  ==> r.after.error == MismatchRefusal(network))
            && ((formError.None? && wallet.Some? && f.selectedAsset.Some? && !isNetworkMismatch
                 && Validate(wallet.value, network).Err?)
                  ==> r.after.error == NetworkErrorMessage(Validate(wallet.value, network).error)
                      && Validate(wallet.value, network).error.expectedNetwork == network)
            && ((r.transfer.Some? && submit.SubmitFailed?)
                  ==> r.after.error == SubmitFailureMessage(submit.message, network))
  {
  }

  /**
   * Only a submitted transaction clears recipient and amount (and the error);
   * the selection is never changed, and loading ends false once it was set.
   */
  lemma SendResetsOnlyOnSuccess(f: FormState, wallet: Option<Wallet>, network: NetworkType,
                                isNetworkMismatch: bool, num: NumberParsing, submit: SubmitOutcome)
    ensures var r := Send(f, wallet, network, isNetworkMismatch, num, submit);
            && (r.txHash.Some? ==> submit == Submitted(r.txHash.value)
                                   && r.after.recipient == "" && r.after.amount == "" && r.after.error == "")
            && (r.txHash.None? ==> r.after.recipient == f.recipient && r.after.amount == f.amount)
            && r.after.selectedAsset == f.selectedAsset
            && (r.after.loading ==> f.loading)
  {
  }

  /** `Send` by cases, one gate after another. */
  lemma SendCases(f: FormState, wallet: Option<Wallet>, network: NetworkType, isNetworkMismatch: bool,
                  num: NumberParsing, submit: SubmitOutcome)
    ensures var fe := FirstFormError(f.recipient, f.selectedAsset, f.amount, num);
            var r := Send(f, wallet, network, isNetworkMismatch, num, submit);
            && (fe.Some? ==> r == SendResult(f.(error := Message(fe.value)), None, None))
            && (fe.None? && (wallet.None? || f.selectedAsset.None?) ==> r == SendResult(f, None, None))
            && ((fe.None? && wallet.Some? && f.selectedAsset.Some? && isNetworkMismatch)
                  ==> r == SendResult(f.(error := MismatchRefusal(network)), None, None))
            && ((fe.None? && wallet.Some? && f.selectedAsset.Some? && !isNetworkMismatch)
                  ==> r == Attempt(f.(loading := true, error := ""), Validate(wallet.value, network), network, num, submit))
  {
  }

  /** The state of the form. */
  class Form {
    var recipient: string
    var selectedAsset: Option<AssetOption>
    var amount: string
    var loading: bool
    var error: string
    var assetOptions: seq<AssetOption>

    constructor ()
      ensures recipient == "" && selectedAsset.None? && amount == "" && !loading && error == ""
      ensures assetOptions == []
    {
      recipient := "";
      selectedAsset := None;
      amount := "";
      loading := false;
      error := "";
      assetOptions := [];
    }

    /**
     * The options effect, then the auto-selection of the first row (ADA) when
     * nothing is selected. `adaBalance` is the ADA row's quantity.
     */
    method RefreshOptions(assets: seq<Asset>, adaBalance: string)
      modifies this`assetOptions, this`selectedAsset
      ensures |assetOptions| == |assets| + 1 && assetOptions[0] == AdaOptionWith(adaBalance)
      ensures forall k :: 1 <= k < |assetOptions| ==> assetOptions[k] == TokenOption(assets[k - 1], k - 1)
      ensures old(selectedAsset).None? ==> selectedAsset == Some(AdaOptionWith(adaBalance))
      ensures old(selectedAsset).Some? ==> selectedAsset == old(selectedAsset)
    {
      var options := BuildAssetOptions(assets, adaBalance);
      assetOptions := options;
      if selectedAsset.None? && |options| > 0 {
        selectedAsset := Some(options[0]);
      }
    }

    /** `validateForm`: true when every guard passes, else the first failure's message is shown. */
    method ValidateForm(num: NumberParsing) returns (ok: bool)
      modifies this`error
      ensures ok <==> FirstFormError(recipient, selectedAsset, amount, num).None?
      ensures !ok ==> error == Message(FirstFormError(recipient, selectedAsset, amount, num).value)
      ensures ok ==> error == old(error)
    {
      if Trim(recipient) == "" {
        error := Message(MissingRecipient);
        return false;
      }
      if selectedAsset.None? {
        error := Message(MissingAsset);
        return false;
      }
      if amount == "" || AtMostZero(num.parse(amount)) {
        error := Message(InvalidAmount);
        return false;
      }
      var availableQuantity := num.parse(selectedAsset.value.quantity);
      if Greater(num.parse(amount), availableQuantity) {
        error := Message(InsufficientBalance(num.show(availableQuantity)));
        return false;
      }
      if |recipient| < MinRecipientLength {
        error := Message(MalformedRecipient);
        return false;
      }
      return true;
    }

    /** The fields a send reads or writes. */
    function State(): FormState
      reads this
    {
      FormState(recipient, selectedAsset, amount, loading, error)
    }

    /** The `try`/`finally` part of `handleSend`. */
    method SendValidated(check: ValidationOutcome, network: NetworkType, num: NumberParsing, submit: SubmitOutcome)
      returns (transfer: Option<Transfer>, txHash: Option<string>)
      requires selectedAsset.Some?
      modifies this`error, this`loading, this`recipient, this`amount
      ensures SendResult(State(), transfer, txHash) == Attempt(old(State()), check, network, num, submit)
    {
      match check {
        case Err(e) =>
          error := NetworkErrorMessage(e);
          transfer, txHash := None, None;
        case Ok =>
          transfer := Some(TransferFor(recipient, selectedAsset.value, amount, num));
          match submit {
            case Submitted(hash) =>
              txHash := Some(hash);
              recipient := "";
              amount := "";
              error := "";
            case SubmitFailed(message) =>
              error := SubmitFailureMessage(message, network);
              txHash := None;
          }
      }
      loading := false;
    }

    /**
     * `handleSend`: the gates, then building, signing and submitting. The
     * returned transfer is the one handed to the SDK, if any; `txHash` is the
     * submitted transaction's hash.
     */
    method HandleSend(wallet: Option<Wallet>, network: NetworkType, isNetworkMismatch: bool,
                      num: NumberParsing, submit: SubmitOutcome)
      returns (transfer: Option<Transfer>, txHash: Option<string>)
      modifies this`error, this`loading, this`recipient, this`amount
      ensures SendResult(State(), transfer, txHash) == Send(old(State()), wallet, network, isNetworkMismatch, num, submit)
    {
      ghost var f0 := State();
      SendCases(f0, wallet, network, isNetworkMismatch, num, submit);
      var ok := ValidateForm(num);
      if !ok || wallet.None? || selectedAsset.None? {
        return None, None;
      }
      if isNetworkMismatch {
        error := MismatchRefusal(network);
        return None, None;
      }
      loading := true;
      error := "";
      transfer, txHash := SendValidated(Validate(wallet.value, network), network, num, submit);
    }
  }
}
