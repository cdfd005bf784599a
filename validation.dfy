/**
 * The wallet network validator: infers which Cardano network a connected wallet
 * is on by an ordered chain of probes, and compares it with the network the
 * application is set to. Every failure is a NetworkValidationError value.
 */
module Validation {
  import opened JsRuntime
  import opened Networks

  /**
   * One optional wallet capability: the method is missing, or calling it
   * resolves to a value, or it throws (or its promise rejects).
   */
  datatype Probe<T> = Absent | Returns(value: T) | Throws

  /** A transaction output; `address` is None when it is not a string. */
  datatype TxOutput = TxOutput(address: Option<string>)

  /** A UTXO as the wallet lists it; `output` is None when the field is missing. */
  datatype Utxo = Utxo(output: Option<TxOutput>)

  /**
   * The wallet handle, reduced to the three probes the validator uses.
   * A `null` UTXO list behaves as an empty one and is written as `Returns([])`.
   */
  datatype Wallet = Wallet(
    getNetworkId: Probe<int>,
    getUtxos: Probe<seq<Utxo>>,
    getChangeAddress: Probe<Option<string>>)

  datatype NetworkValidationError = NetworkValidationError(
    message: string,
    expectedNetwork: NetworkType,
    walletNetwork: string)

  /** The outcome of `validateWalletNetwork`: it returns, or it throws its error. */
  datatype ValidationOutcome = Ok | Err(error: NetworkValidationError)

  /** `NETWORK_ID`: the id a wallet reports for each network. */
  function NetworkIdOf(n: NetworkType): (id: int)
    ensures 0 <= id <= 2
  {
    match n
    case Mainnet => 1
    case Preprod => 0
    case Preview => 2
  }

  /** The validator's table agrees with the registry's chain ids, so no two networks share an id. */
  lemma NetworkIdIsChainId(a: NetworkType, b: NetworkType)
    ensures NetworkIdOf(a) == Config(a).chainId
    ensures NetworkIdOf(a) == NetworkIdOf(b) ==> a == b
  {
    ChainIdsDistinct(a, b);
  }

  const MainnetPrefix: string := "addr1"
  const TestnetPrefix: string := "addr_test1"

  /** No address starts with both Bech32 prefixes. */
  lemma PrefixesDisjoint(s: string)
    ensures !(MainnetPrefix <= s && TestnetPrefix <= s)
  {
    assert MainnetPrefix <= s ==> s[4] == MainnetPrefix[4] == '1';
    assert TestnetPrefix <= s ==> s[4] == TestnetPrefix[4] == '_';
  }

  /**
   * `parseNetworkFromAddress`: 1 for a mainnet prefix, 0 for a test-network
   * prefix, nothing otherwise; a non-string address is caught and gives nothing.
   */
  function ParseNetworkFromAddress(address: Option<string>): (r: Option<int>)
    ensures r == Some(1) <==> address.Some? && MainnetPrefix <= address.value
    ensures r == Some(0) <==> address.Some? && TestnetPrefix <= address.value
    ensures r.None? <==> address.None? || (!(MainnetPrefix <= address.value) && !(TestnetPrefix <= address.value))
  {
    match address
    case None => None
    case Some(a) =>
      PrefixesDisjoint(a);
      if MainnetPrefix <= a then Some(1)
      else if TestnetPrefix <= a then Some(0)
      else None
  }

  /** `getNetworkNameFromId`: the label used for a detected id in an error. */
  function NetworkNameFromId(id: int): (name: string)
    ensures name == "unknown" <==> id != 0 && id != 1 && id != 2
    ensures id == 1 ==> name == KeyOf(Mainnet)
    ensures id == 2 ==> name == KeyOf(Preview)
    ensures id == 0 ==> name == "testnet"
  {
    if id == 1 then "mainnet"
    else if id == 0 then "testnet"
    else if id == 2 then "preview"
    else "unknown"
  }

  /** The three known ids get three different labels. */
  lemma NetworkNamesDistinct(a: int, b: int)
    requires NetworkNameFromId(a) != "unknown"
    ensures NetworkNameFromId(a) == NetworkNameFromId(b) ==> a == b
  {
  }

  /**
   * `getWalletNetworkInfo`: the network id of the first probe that yields one,
   * written as the early-return chain of the source. A throw anywhere in the
   * chain ends it with no information.
   */
  function GetWalletNetworkInfo(w: Wallet): Option<int> {
    match w.getNetworkId
    case Throws => None
    case Returns(id) => Some(id)
    case Absent =>
      match w.getUtxos
      case Throws => None
      case Absent => ChangeAddressProbe(w.getChangeAddress)
      case Returns(utxos) =>
        if |utxos| > 0 then
          match utxos[0].output
          case None => None  // reading `.address` of a missing output throws a TypeError
          case Some(out) =>
            var id := ParseNetworkFromAddress(out.address);
            if id.Some? then id else ChangeAddressProbe(w.getChangeAddress)
        else ChangeAddressProbe(w.getChangeAddress)
  }

  /** The last probe of the chain, reached only when the earlier ones gave nothing. */
  function ChangeAddressProbe(p: Probe<Option<string>>): Option<int> {
    match p
    case Throws => None
    case Absent => None
    case Returns(a) => ParseNetworkFromAddress(a)
  }

  /** What one probe of the chain contributes: an id, nothing (try the next), or a throw. */
  datatype Step = Found(id: int) | Next | Abort

  /** The reading of the chain as a list: the first step that finds or aborts decides. */
  function FirstFound(steps: seq<Step>): Option<int> {
    if steps == [] then None
    else match steps[0]
      case Found(id) => Some(id)
      case Abort => None
      case Next => FirstFound(steps[1..])
  }

  function DirectStep(w: Wallet): Step {
    match w.getNetworkId
    case Absent => Next
    case Throws => Abort
    case Returns(id) => Found(id)
  }

  function UtxoStep(w: Wallet): Step {
    match w.getUtxos
    case Absent => Next
    case Throws => Abort
    case Returns(utxos) =>
      if |utxos| == 0 then Next
      else match utxos[0].output
        case None => Abort
        case Some(out) =>
          match ParseNetworkFromAddress(out.address)
          case Some(id) => Found(id)
          case None => Next
  }

  function ChangeAddressStep(w: Wallet): Step {
    match w.getChangeAddress
    case Absent => Next
    case Throws => Abort
    case Returns(a) =>
      match ParseNetworkFromAddress(a)
      case Some(id) => Found(id)
      case None => Next
  }

  /** The probes in the order the source tries them. */
  function Probes(w: Wallet): seq<Step> {
    [DirectStep(w), UtxoStep(w), ChangeAddressStep(w)]
  }

  /** The early-return chain is exactly "first probe that finds or aborts". */
  lemma ChainIsFirstFound(w: Wallet)
    ensures GetWalletNetworkInfo(w) == FirstFound(Probes(w))
  {
    var s := Probes(w);
    assert s[1..] == [UtxoStep(w), ChangeAddressStep(w)];
    assert s[1..][1..] == [ChangeAddressStep(w)];
    assert s[1..][1..][1..] == [];
    assert FirstFound([ChangeAddressStep(w)]) == ChangeAddressProbe(w.getChangeAddress);
  }

  /** A wallet that answers `getNetworkId` is judged by that answer alone. */
  lemma DirectIdWins(w: Wallet, other: Wallet)
    requires w.getNetworkId.Returns?
    requires other.getNetworkId == w.getNetworkId
    ensures GetWalletNetworkInfo(w) == Some(w.getNetworkId.value)
    ensures GetWalletNetworkInfo(other) == GetWalletNetworkInfo(w)
  {
  }

  /**
   * The UTXO probe decides only with a non-empty list whose first output
   * parses; otherwise (list missing, empty or unparsable) the result is what the
   * change-address probe alone gives.
   */
  lemma UtxoProbeFallsThrough(w: Wallet)
    requires w.getNetworkId.Absent?
    ensures (w.getUtxos.Returns? && |w.getUtxos.value| > 0 && w.getUtxos.value[0].output.Some?
             && ParseNetworkFromAddress(w.getUtxos.value[0].output.value.address).Some?)
            ==> GetWalletNetworkInfo(w) == ParseNetworkFromAddress(w.getUtxos.value[0].output.value.address)
    ensures (w.getUtxos.Absent? || (w.getUtxos.Returns? && |w.getUtxos.value| == 0)
             || (w.getUtxos.Returns? && w.getUtxos.value[0].output.Some?
                 && ParseNetworkFromAddress(w.getUtxos.value[0].output.value.address).None?))
            ==> GetWalletNetworkInfo(w) == GetWalletNetworkInfo(w.(getUtxos := Absent))
  {
  }

  /** A throwing probe ends the chain: the later probes are never consulted. */
  lemma ThrowEndsChain(w: Wallet, expected: NetworkType)
    requires FirstAbort(w)
    ensures GetWalletNetworkInfo(w).None?
    ensures Validate(w, expected) == Err(NetworkValidationError("Unable to determine wallet network", expected, "unknown"))
  {
  }

  /** The first probe that is present throws (or the first UTXO has no output). */
  predicate FirstAbort(w: Wallet) {
    || w.getNetworkId.Throws?
    || (w.getNetworkId.Absent? && w.getUtxos.Throws?)
    || (w.getNetworkId.Absent? && UtxoStep(w) == Abort)
    || (w.getNetworkId.Absent? && UtxoStep(w) == Next && w.getChangeAddress.Throws?)
  }

  /** Without a direct id, the chain can only find the two address-prefix ids. */
  lemma AddressProbesAreBinary(w: Wallet)
    requires !w.getNetworkId.Returns?
    ensures GetWalletNetworkInfo(w).Some? ==> GetWalletNetworkInfo(w).value in {0, 1}
  {
  }

  /** `validateWalletNetwork(wallet, expectedNetwork)`. */
  function Validate(w: Wallet, expected: NetworkType): (r: ValidationOutcome)
    ensures r.Ok? <==> GetWalletNetworkInfo(w) == Some(NetworkIdOf(expected))
    ensures r.Err? ==> r.error.expectedNetwork == expected
    ensures GetWalletNetworkInfo(w).None? ==> r.Err? && r.error.walletNetwork == "unknown"
    ensures GetWalletNetworkInfo(w).Some? && r.Err? ==> r.error.walletNetwork == NetworkNameFromId(GetWalletNetworkInfo(w).value)
    ensures GetWalletNetworkInfo(w).None? ==> r.error.message == "Unable to determine wallet network"
    ensures GetWalletNetworkInfo(w).Some? && r.Err? ==>
              r.error.message == "Wallet is connected to " + r.error.walletNetwork + " but app is set to " + KeyOf(expected)
  {
    match GetWalletNetworkInfo(w)
    case None =>
      Err(NetworkValidationError("Unable to determine wallet network", expected, "unknown"))
    case Some(id) =>
      if id == NetworkIdOf(expected) then Ok
      else
        var walletNetworkName := NetworkNameFromId(id);
        Err(NetworkValidationError(
          "Wallet is connected to " + walletNetworkName + " but app is set to " + KeyOf(expected),
          expected, walletNetworkName))
  }

  /**
   * Address prefixes cannot tell the preview network from preprod: a wallet
   * passes for preview only when its own `getNetworkId` answers 2.
   */
  lemma PreviewNeedsDirectId(w: Wallet)
    requires Validate(w, Preview).Ok?
    ensures w.getNetworkId == Returns(2)
  {
    if !w.getNetworkId.Returns? {
      AddressProbesAreBinary(w);
    }
  }

  /**
   * A wallet whose only capability is a test-network change address, checked
   * against mainnet, is rejected with the label "testnet".
   */
  lemma ChangeAddressMismatchExample(addr: string)
    requires TestnetPrefix <= addr
    ensures Validate(Wallet(Absent, Absent, Returns(Some(addr))), Mainnet)
            == Err(NetworkValidationError("Wallet is connected to testnet but app is set to mainnet", Mainnet, "testnet"))
  {
    var w := Wallet(Absent, Absent, Returns(Some(addr)));
    assert ParseNetworkFromAddress(Some(addr)) == Some(0);
    assert GetWalletNetworkInfo(w) == Some(0);
    assert "Wallet is connected to " + "testnet" + " but app is set to " + "mainnet"
        == "Wallet is connected to testnet but app is set to mainnet";
  }

  /** `getNetworkDisplayName`: every entry of its table is non-empty, so `|| network` never applies. */
  function NetworkDisplayName(n: NetworkType): (name: string)
    ensures name != "" && name != KeyOf(n)
  {
    match n
    case Mainnet => "Cardano Mainnet"
    case Preprod => "Preprod Testnet"
    case Preview => "Preview Testnet"
  }

  lemma DisplayNamesDistinct(a: NetworkType, b: NetworkType)
    ensures NetworkDisplayName(a) == NetworkDisplayName(b) ==> a == b
  {
  }

  const WarningSign: string := "\U{26A0}\U{FE0F}"
  const InformationSign: string := "\U{2139}\U{FE0F}"

  /** `getNetworkWarningMessage`: a warning for mainnet, a notice for the two test networks. */
  function NetworkWarningMessage(n: NetworkType): (message: string)
    ensures message != ""
    ensures WarningSign <= message <==> n == Mainnet
    ensures InformationSign <= message <==> n != Mainnet
  {
    var sign := if n == Mainnet then WarningSign else InformationSign;
    var text := match n
      case Mainnet => " You are about to transact on MAINNET with real ADA. Double-check all details."
      case Preprod => " You are using Preprod testnet. This is safe for testing."
      case Preview => " You are using Preview testnet. This is safe for testing.";
    assert (sign + text)[..2] == sign;
    assert WarningSign[0] != InformationSign[0];
    sign + text
  }
}
