/**
 * The token-metadata service: per-asset display metadata fetched from the
 * Blockfrost indexer, merged from the on-chain and off-chain records, and kept
 * in a process-wide cache whose entries live for five minutes.
 */
module Blockfrost {
  import opened JsRuntime
  import opened Networks

  /** `TokenMetadata`: every field may be `undefined`. */
  datatype TokenMetadata = TokenMetadata(
    name: Option<string>,
    description: Option<string>,
    image: Option<string>,
    decimals: Option<int>,
    ticker: Option<string>,
    url: Option<string>,
    logo: Option<string>)

  /** The object literal `{}`. */
  const EmptyMetadata: TokenMetadata := TokenMetadata(None, None, None, None, None, None, None)

  /** An on-chain `image` is a string or a list of strings. */
  datatype ImageField = ImageUrl(url: string) | ImageList(urls: seq<string>)

  datatype OnchainMetadata = OnchainMetadata(
    name: Option<string>,
    description: Option<string>,
    image: Option<ImageField>,
    logo: Option<string>,
    decimals: Option<int>,
    ticker: Option<string>,
    url: Option<string>)

  datatype OffchainMetadata = OffchainMetadata(
    name: Option<string>,
    description: Option<string>,
    logo: Option<string>,
    decimals: Option<int>,
    ticker: Option<string>,
    url: Option<string>)

  /** The part of the indexer's `/assets/{unit}` answer that the service reads. */
  datatype AssetData = AssetData(
    assetName: string,
    onchain: Option<OnchainMetadata>,
    offchain: Option<OffchainMetadata>)

  /** `data.onchain_metadata?.…`: a missing record reads as all fields `undefined`. */
  function Onchain(d: AssetData): OnchainMetadata {
    if d.onchain.Some? then d.onchain.value else OnchainMetadata(None, None, None, None, None, None, None)
  }

  /** `data.metadata?.…`. */
  function Offchain(d: AssetData): OffchainMetadata {
    if d.offchain.Some? then d.offchain.value else OffchainMetadata(None, None, None, None, None, None)
  }

  /**
   * Node's `Buffer.from(hex, 'hex').toString('utf8')`, supplied from outside:
   * `None` stands for a decoding that throws.
   */
  type HexDecoder = string -> Option<string>

  /** `hexToString`: the decoded asset name; the empty name gives `""`, a throwing decoder the hex itself. */
  function HexToString(hex: string, decode: HexDecoder): (s: string)
    ensures hex == "" ==> s == ""
    ensures hex != "" && decode(hex).None? ==> s == hex
    ensures hex != "" && decode(hex).Some? ==> s == decode(hex).value
  {
    if hex == "" then ""
    else match decode(hex)
      case Some(text) => text
      case None => hex
  }

  const IpfsScheme: string := "ipfs://"
  const IpfsGateway: string := "https://ipfs.io/ipfs/"

  /** `resolveIpfsUrl`: an `ipfs://` URI is rewritten onto the public gateway, anything else is kept. */
  function ResolveIpfsUrl(url: string): (r: string)
    ensures IpfsScheme <= url ==> r == IpfsGateway + url[|IpfsScheme|..]
    ensures !(IpfsScheme <= url) ==> r == url
    ensures !(IpfsScheme <= r)
  {
    if IpfsScheme <= url then
      var r := IpfsGateway + url[7..];
      assert r[0] != IpfsScheme[0];
      r
    else url
  }

  /** The gateway form of `ipfs://x` is the gateway followed by `x`. */
  lemma ResolveIpfsScheme(x: string)
    ensures ResolveIpfsUrl(IpfsScheme + x) == IpfsGateway + x
  {
    assert (IpfsScheme + x)[..|IpfsScheme|] == IpfsScheme;
    assert (IpfsScheme + x)[|IpfsScheme|..] == x;
  }

  /** Resolving twice is resolving once. */
  lemma ResolveIpfsIdempotent(url: string)
    ensures ResolveIpfsUrl(ResolveIpfsUrl(url)) == ResolveIpfsUrl(url)
  {
  }

  /** JavaScript truthiness of the `image` field: any list (even `[]`) is truthy. */
  predicate TruthyImage(i: Option<ImageField>) {
    i.Some? && (i.value.ImageList? || i.value.url != "")
  }

  /** `onchain?.image || onchain?.logo || offchain?.logo`. */
  function ImageSource(d: AssetData): Option<ImageField> {
    if TruthyImage(Onchain(d).image) then Onchain(d).image
    else match Or(Onchain(d).logo, Offchain(d).logo)
      case None => None
      case Some(s) => Some(ImageUrl(s))
  }

  /** The image URL after a list has been replaced by its first element. */
  function ImageCandidate(d: AssetData): Option<string> {
    match ImageSource(d)
    case None => None
    case Some(ImageUrl(s)) => Some(s)
    case Some(ImageList(urls)) => if |urls| > 0 then Some(urls[0]) else None
  }

  /**
   * Which record the image comes from: a non-empty on-chain string, else the
   * first element of an on-chain list (an empty list hides the logos), else the
   * first non-empty logo.
   */
  lemma ImagePrecedence(d: AssetData)
    ensures Onchain(d).image.Some? && Onchain(d).image.value.ImageUrl? && Onchain(d).image.value.url != ""
            ==> ImageCandidate(d) == Some(Onchain(d).image.value.url)
    ensures Onchain(d).image.Some? && Onchain(d).image.value.ImageList?
            ==> ImageCandidate(d) == (if |Onchain(d).image.value.urls| > 0 then Some(Onchain(d).image.value.urls[0]) else None)
    ensures !TruthyImage(Onchain(d).image)
            ==> (Truthy(ImageCandidate(d)) <==> FirstNonEmpty(Onchain(d).logo, Offchain(d).logo).Some?)
    ensures !TruthyImage(Onchain(d).image) && Truthy(ImageCandidate(d))
            ==> ImageCandidate(d) == FirstNonEmpty(Onchain(d).logo, Offchain(d).logo)
  {
    OrIsFirstNonEmpty(Onchain(d).logo, Offchain(d).logo);
  }

  /** `parseMetadata`: the merge of the on-chain and off-chain records. */
  function ParseMetadata(d: AssetData, decode: HexDecoder): (m: TokenMetadata)
    ensures m.name.Some?
    ensures Truthy(Onchain(d).name) ==> m.name == Onchain(d).name
    ensures !Truthy(Onchain(d).name) && Truthy(Offchain(d).name) ==> m.name == Offchain(d).name
    ensures !Truthy(Onchain(d).name) && !Truthy(Offchain(d).name) ==> m.name == Some(HexToString(d.assetName, decode))
    ensures Truthy(m.description) <==> FirstNonEmpty(Onchain(d).description, Offchain(d).description).Some?
    ensures Truthy(m.description) ==> m.description == FirstNonEmpty(Onchain(d).description, Offchain(d).description)
    ensures Truthy(m.ticker) <==> FirstNonEmpty(Onchain(d).ticker, Offchain(d).ticker).Some?
    ensures Truthy(m.ticker) ==> m.ticker == FirstNonEmpty(Onchain(d).ticker, Offchain(d).ticker)
    ensures Truthy(m.url) <==> FirstNonEmpty(Onchain(d).url, Offchain(d).url).Some?
    ensures Truthy(m.url) ==> m.url == FirstNonEmpty(Onchain(d).url, Offchain(d).url)
    ensures m.image == m.logo
    ensures m.image.Some? <==> Truthy(ImageCandidate(d))
    ensures m.image.Some? ==> m.image.value == ResolveIpfsUrl(ImageCandidate(d).value)
    ensures m.decimals.Some?
    ensures TruthyNumber(Onchain(d).decimals) ==> m.decimals == Onchain(d).decimals
    ensures !TruthyNumber(Onchain(d).decimals) && TruthyNumber(Offchain(d).decimals) ==> m.decimals == Offchain(d).decimals
    ensures !TruthyNumber(Onchain(d).decimals) && !TruthyNumber(Offchain(d).decimals) ==> m.decimals == Some(0)
  {
    var on, off := Onchain(d), Offchain(d);
    OrIsFirstNonEmpty(on.description, off.description);
    OrIsFirstNonEmpty(on.ticker, off.ticker);
    OrIsFirstNonEmpty(on.url, off.url);
    var name := Or(Or(on.name, off.name), Some(HexToString(d.assetName, decode)));
    var image := if Truthy(ImageCandidate(d)) then Some(ResolveIpfsUrl(ImageCandidate(d).value)) else None;
    TokenMetadata(
      name,
      Or(on.description, off.description),
      image,
      OrNumber(OrNumber(on.decimals, off.decimals), Some(0)),
      Or(on.ticker, off.ticker),
      Or(on.url, off.url),
      image)
  }

  /** An on-chain `ipfs://` image ends up as a gateway URL in both `image` and `logo`. */
  lemma IpfsImageResolved(d: AssetData, cid: string, decode: HexDecoder)
    requires Onchain(d).image == Some(ImageUrl(IpfsScheme + cid))
    ensures ParseMetadata(d, decode).image == Some(IpfsGateway + cid)
    ensures ParseMetadata(d, decode).logo == Some(IpfsGateway + cid)
  {
    ResolveIpfsScheme(cid);
  }

  /** `baseUrls`: the indexer endpoint of each network. */
  function BaseUrl(n: NetworkType): string {
    match n
    case Mainnet => "https://cardano-mainnet.blockfrost.io/api/v0"
    case Preprod => "https://cardano-preprod.blockfrost.io/api/v0"
    case Preview => "https://cardano-preview.blockfrost.io/api/v0"
  }

  /** The service's endpoints are the registry's Blockfrost URLs. */
  lemma BaseUrlIsRegistryUrl(n: NetworkType)
    ensures BaseUrl(n) == Config(n).blockfrostUrl
  {
  }

  /** `CACHE_DURATION`: five minutes, in milliseconds. */
  const CACHE_DURATION: int := 5 * 60 * 1000

  /** The cache key `${network}-${unit}`. */
  function CacheKey(n: NetworkType, unit: string): string {
    KeyOf(n) + "-" + unit
  }

  /** Distinct (network, unit) pairs never share a cache key. */
  lemma CacheKeyInjective(n1: NetworkType, u1: string, n2: NetworkType, u2: string)
    requires CacheKey(n1, u1) == CacheKey(n2, u2)
    ensures n1 == n2 && u1 == u2
  {
    var k := CacheKey(n1, u1);
    assert k[..7] == KeyOf(n1) && k[..7] == KeyOf(n2);
    KeyOfInjective(n1, n2);
    assert k[8..] == u1 && k[8..] == u2;
  }

  /** `getHeaders` throws unless the network's project id is set and non-empty. */
  predicate HasProjectId(projectIds: map<NetworkType, string>, n: NetworkType) {
    n in projectIds && projectIds[n] != ""
  }

  /** What `response.json()` gives: the parsed asset, or a rejection. */
  datatype Body = Parsed(data: AssetData) | Malformed

  /** The outcome of the one `fetch` call: it rejects, or a response arrives. */
  datatype FetchOutcome = NetworkError | Response(status: int, body: Body)

  /** `response.ok`. */
  predicate IsOk(status: int) {
    200 <= status <= 299
  }

  /** The two maps `cache` and `cacheExpiry`, taken together. */
  datatype CacheState = CacheState(entries: map<string, TokenMetadata>, expiry: map<string, int>)

  /** The maps have the same keys. */
  predicate Consistent(s: CacheState) {
    s.entries.Keys == s.expiry.Keys
  }

  /** `this.cacheExpiry.get(cacheKey) || 0`. */
  function ExpiryOf(s: CacheState, key: string): int {
    if key in s.expiry then s.expiry[key] else 0
  }

  /** A cache hit: the key is present and `Date.now() < expiry`. */
  predicate IsLive(s: CacheState, key: string, now: nat) {
    key in s.entries && now < ExpiryOf(s, key)
  }

  /** A present entry with no expiry is never live, since the clock is not negative. */
  lemma MissingExpiryIsExpired(s: CacheState, key: string, now: nat)
    requires key in s.entries && key !in s.expiry
    ensures !IsLive(s, key, now)
  {
  }

  /** `cache.set(key, m)` and `cacheExpiry.set(key, now + CACHE_DURATION)`. */
  function Store(s: CacheState, key: string, m: TokenMetadata, now: nat): (t: CacheState)
    ensures Consistent(s) ==> Consistent(t)
    ensures IsLive(t, key, now) && t.entries[key] == m
  {
    CacheState(s.entries[key := m], s.expiry[key := now + CACHE_DURATION])
  }

  /** The result of one `getTokenMetadata` call, whether it fetched, and the cache after it. */
  datatype Lookup = Lookup(result: Option<TokenMetadata>, fetched: bool, next: CacheState)

  /**
   * `getTokenMetadata(unit, network)` at time `now`, as a function of the cache,
   * the credential's presence and the outcome of the fetch (consulted only when
   * a request is sent).
   */
  function TokenMetadataLookup(
    s: CacheState, unit: string, network: NetworkType, now: nat,
    configured: bool, response: FetchOutcome, decode: HexDecoder): (l: Lookup)
    ensures Consistent(s) ==> Consistent(l.next)
    ensures l.next == s
            || l.next == Store(s, CacheKey(network, unit), EmptyMetadata, now)
            || (response.Response? && response.body.Parsed?
                && l.next == Store(s, CacheKey(network, unit), ParseMetadata(response.body.data, decode), now))
    ensures l.fetched ==> configured
  {
    var key := CacheKey(network, unit);
    if IsLive(s, key, now) then Lookup(Some(s.entries[key]), false, s)
    else if !configured then Lookup(None, false, s)
    else match response
      case NetworkError => Lookup(None, true, s)
      case Response(status, body) =>
        if !IsOk(status) then
          if status == 404 then Lookup(None, true, Store(s, key, EmptyMetadata, now))
          else Lookup(None, true, s)
        else match body
          case Malformed => Lookup(None, true, s)
          case Parsed(data) =>
            var m := ParseMetadata(data, decode);
            Lookup(Some(m), true, Store(s, key, m, now))
  }

  /** A live entry is returned as stored, without a request and without touching the cache. */
  lemma CacheHitIsServedLocally(
    s: CacheState, unit: string, network: NetworkType, now: nat,
    configured: bool, response: FetchOutcome, decode: HexDecoder)
    requires IsLive(s, CacheKey(network, unit), now)
    ensures TokenMetadataLookup(s, unit, network, now, configured, response, decode)
            == Lookup(Some(s.entries[CacheKey(network, unit)]), false, s)
  {
  }

  /**
   * Without a credential, or when the request rejects, answers with a status
   * other than 2xx and 404, or a body that does not parse, the call returns
   * nothing and leaves the cache as it was; a request was sent exactly when the
   * credential is there.
   */
  lemma FailureIsNotCached(
    s: CacheState, unit: string, network: NetworkType, now: nat,
    configured: bool, response: FetchOutcome, decode: HexDecoder)
    requires !IsLive(s, CacheKey(network, unit), now)
    requires !configured || response.NetworkError?
             || (response.Response? && !IsOk(response.status) && response.status != 404)
             || (response.Response? && IsOk(response.status) && response.body.Malformed?)
    ensures TokenMetadataLookup(s, unit, network, now, configured, response, decode)
            == Lookup(None, configured, s)
  {
  }

  /**
   * A 404 stores `{}` for five minutes and returns nothing; a later call inside
   * the window is a hit that returns the stored `{}` without a request.
   */
  lemma NotFoundIsRemembered(
    s: CacheState, unit: string, network: NetworkType, now: nat, later: nat,
    body: Body, configured2: bool, response2: FetchOutcome, decode: HexDecoder)
    requires !IsLive(s, CacheKey(network, unit), now)
    requires now <= later < now + CACHE_DURATION
    ensures var first := TokenMetadataLookup(s, unit, network, now, true, Response(404, body), decode);
            && first.result.None? && first.fetched
            && first.next == Store(s, CacheKey(network, unit), EmptyMetadata, now)
            && TokenMetadataLookup(first.next, unit, network, later, configured2, response2, decode)
               == Lookup(Some(EmptyMetadata), false, first.next)
  {
  }

  /**
   * A successful response is parsed, stored and returned; a later call inside
   * the window is a hit returning the same metadata without a request.
   */
  lemma SuccessIsRemembered(
    s: CacheState, unit: string, network: NetworkType, now: nat, later: nat,
    status: int, data: AssetData, configured2: bool, response2: FetchOutcome, decode: HexDecoder)
    requires !IsLive(s, CacheKey(network, unit), now)
    requires IsOk(status)
    requires now <= later < now + CACHE_DURATION
    ensures var first := TokenMetadataLookup(s, unit, network, now, true, Response(status, Parsed(data)), decode);
            && first.result == Some(ParseMetadata(data, decode)) && first.fetched
            && first.next == Store(s, CacheKey(network, unit), ParseMetadata(data, decode), now)
            && TokenMetadataLookup(first.next, unit, network, later, configured2, response2, decode)
               == Lookup(Some(ParseMetadata(data, decode)), false, first.next)
  {
  }

  /** An entry stored at `now` has expired from `now + CACHE_DURATION` on: the next call sends a request again. */
  lemma StoredEntryExpires(
    s: CacheState, key: string, m: TokenMetadata, now: nat, later: nat,
    unit: string, network: NetworkType, response: FetchOutcome, decode: HexDecoder)
    requires key == CacheKey(network, unit)
    requires later >= now + CACHE_DURATION
    ensures !IsLive(Store(s, key, m, now), key, later)
    ensures TokenMetadataLookup(Store(s, key, m, now), unit, network, later, true, response, decode).fetched
  {
  }

  /** A call only ever writes its own key: every other entry and expiry stays as it was. */
  lemma OtherKeysUntouched(
    s: CacheState, unit: string, network: NetworkType, now: nat,
    configured: bool, response: FetchOutcome, decode: HexDecoder, other: string)
    requires other != CacheKey(network, unit)
    ensures var t := TokenMetadataLookup(s, unit, network, now, configured, response, decode).next;
            && (other in t.entries <==> other in s.entries)
            && (other in s.entries ==> t.entries[other] == s.entries[other])
            && (other in t.expiry <==> other in s.expiry)
            && (other in s.expiry ==> t.expiry[other] == s.expiry[other])
  {
  }

  /** `BlockfrostService`: the cache is two maps updated side by side. */
  class BlockfrostService {
    /** The project id of each network, from the environment. */
    const projectIds: map<NetworkType, string>
    /** The UTF-8 decoding of hex asset names. */
    const decodeHex: HexDecoder
    var cache: map<string, TokenMetadata>
    var cacheExpiry: map<string, int>
    /** The number of requests sent to the indexer so far. */
    ghost var requests: nat

    ghost predicate Valid()
      reads this
    {
      cache.Keys == cacheExpiry.Keys
    }

    function State(): (s: CacheState)
      reads this
      ensures Valid() <==> Consistent(s)
    {
      CacheState(cache, cacheExpiry)
    }

    constructor (projectIds: map<NetworkType, string>, decodeHex: HexDecoder)
      ensures Valid()
      ensures this.projectIds == projectIds && this.decodeHex == decodeHex
      ensures cache == map[] && cacheExpiry == map[]
      ensures requests == 0
    {
      this.projectIds := projectIds;
      this.decodeHex := decodeHex;
      cache := map[];
      cacheExpiry := map[];
      requests := 0;
    }

    /**
     * `getTokenMetadata(unit, network)`. `now` is `Date.now()`, `response` what
     * the `fetch` and `response.json()` calls produce; `fetched` tells whether
     * the request was sent.
     */
    method GetTokenMetadata(unit: string, network: NetworkType, now: nat, response: FetchOutcome)
      returns (metadata: Option<TokenMetadata>, fetched: bool)
      requires Valid()
      modifies this
      ensures Valid()
      ensures var l := TokenMetadataLookup(old(State()), unit, network, now,
                                           HasProjectId(projectIds, network), response, decodeHex);
              metadata == l.result && fetched == l.fetched && State() == l.next
      ensures requests == old(requests) + (if fetched then 1 else 0)
    {
      var cacheKey := CacheKey(network, unit);
      if cacheKey in cache {
        var expiry := if cacheKey in cacheExpiry then cacheExpiry[cacheKey] else 0;
        if now < expiry {
          return Some(cache[cacheKey]), false;
        }
      }
      // The headers are built inside the `try`: a missing project id is caught like any failure.
      if !HasProjectId(projectIds, network) {
        return None, false;
      }
      fetched := true;
      requests := requests + 1;
      match response {
        case NetworkError =>
          metadata := None;
        case Response(status, body) =>
          if !IsOk(status) {
            if status == 404 {
              cache := cache[cacheKey := EmptyMetadata];
              cacheExpiry := cacheExpiry[cacheKey := now + CACHE_DURATION];
            }
            metadata := None;
          } else {
            match body {
              case Malformed =>
                metadata := None;
              case Parsed(data) =>
                var m := ParseMetadata(data, decodeHex);
                cache := cache[cacheKey := m];
                cacheExpiry := cacheExpiry[cacheKey := now + CACHE_DURATION];
                metadata := Some(m);
            }
          }
      }
    }

    /** `clearCache`: both maps become empty. */
    method ClearCache()
      modifies this
      ensures Valid()
      ensures cache == map[] && cacheExpiry == map[]
      ensures requests == old(requests)
    {
      cache := map[];
      cacheExpiry := map[];
    }
  }
}
