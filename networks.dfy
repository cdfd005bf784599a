/**
 * The network registry: the closed set of Cardano environments the front-end
 * supports and the constant configuration record of each.
 */
module Networks {
  import opened JsRuntime

  /** `NetworkType`: the string-literal union 'mainnet' | 'preprod' | 'preview'. */
  datatype NetworkType = Mainnet | Preprod | Preview

  /** The string a NetworkType value is at run time (also its key in `NETWORKS`). */
  function KeyOf(n: NetworkType): (k: string)
    ensures |k| == 7
  {
    match n
    case Mainnet => "mainnet"
    case Preprod => "preprod"
    case Preview => "preview"
  }

  /** The three keys of `NETWORKS` are pairwise distinct strings. */
  lemma KeyOfInjective(a: NetworkType, b: NetworkType)
    ensures KeyOf(a) == KeyOf(b) ==> a == b
  {
  }

  datatype NetworkConfig = NetworkConfig(
    id: NetworkType,
    name: string,
    displayName: string,
    blockfrostUrl: string,
    cardanoscanUrl: string,
    faucetUrl: Option<string>,
    color: string,
    chainId: int)

  /** The `displayName` field of each registry entry. */
  function DisplayName(n: NetworkType): (name: string)
    ensures name != ""
  {
    match n
    case Mainnet => "Mainnet"
    case Preprod => "Preprod Testnet"
    case Preview => "Preview Testnet"
  }

  /** `NETWORKS[n]`: the registry entry of a network. */
  function Config(n: NetworkType): (c: NetworkConfig)
    ensures c.id == n && c.name == KeyOf(n) && c.displayName == DisplayName(n)
    ensures c.faucetUrl.Some? <==> n != Mainnet
    ensures c.displayName != "" && c.blockfrostUrl != "" && c.cardanoscanUrl != ""
  {
    match n
    case Mainnet =>
      NetworkConfig(Mainnet, "mainnet", DisplayName(Mainnet),
        "https://cardano-mainnet.blockfrost.io/api/v0", "https://cardanoscan.io",
        None, "#1e40af", 1)
    case Preprod =>
      NetworkConfig(Preprod, "preprod", DisplayName(Preprod),
        "https://cardano-preprod.blockfrost.io/api/v0", "https://preprod.cardanoscan.io",
        Some("https://docs.cardano.org/cardano-testnet/tools/faucet"), "#059669", 0)
    case Preview =>
      NetworkConfig(Preview, "preview", DisplayName(Preview),
        "https://cardano-preview.blockfrost.io/api/v0", "https://preview.cardanoscan.io",
        Some("https://docs.cardano.org/cardano-testnet/tools/faucet"), "#dc2626", 2)
  }

  /** The chain ids are 1, 0 and 2, and no two networks share one. */
  lemma ChainIdsDistinct(a: NetworkType, b: NetworkType)
    ensures Config(Mainnet).chainId == 1 && Config(Preprod).chainId == 0 && Config(Preview).chainId == 2
    ensures Config(a).chainId == Config(b).chainId ==> a == b
  {
  }

  /** `DEFAULT_NETWORK`. */
  const DEFAULT_NETWORK: NetworkType := Preprod

  /**
   * Looking an arbitrary string up among the OWN keys of `NETWORKS`: the network it
   * names, if any.
   */
  function NetworkFromKey(k: string): (r: Option<NetworkType>)
    ensures r.Some? <==> k == "mainnet" || k == "preprod" || k == "preview"
    ensures r.Some? ==> KeyOf(r.value) == k
  {
    if k == "mainnet" then Some(Mainnet)
    else if k == "preprod" then Some(Preprod)
    else if k == "preview" then Some(Preview)
    else None
  }

  /** Every network's key looks up to that network; in particular DEFAULT_NETWORK is a key. */
  lemma KeyRoundTrip(n: NetworkType)
    ensures NetworkFromKey(KeyOf(n)) == Some(n)
    ensures NetworkFromKey(KeyOf(DEFAULT_NETWORK)) == Some(Preprod)
  {
  }
}
