/**
 * The token icon: the `TokenImage` component's state and its choice between
 * the token's picture and a text badge, and the `useTokenMetadata` hook. This is
 * where the native currency is recognised; the metadata service never sees it.
 */
module TokenImage {
  import opened JsRuntime
  import opened Networks
  import opened Blockfrost

  /** The units that denote ADA itself. */
  predicate IsAdaUnit(unit: string) {
    unit == "lovelace" || unit == "ada"
  }

  /** `{ name: 'ADA', ticker: 'ADA' }`. */
  const AdaMetadata: TokenMetadata := EmptyMetadata.(name := Some("ADA"), ticker := Some("ADA"))

  /** `fallbackText || metadata?.ticker || metadata?.name || '?'`. */
  function FallbackSource(fallbackText: Option<string>, metadata: Option<TokenMetadata>): (text: string)
    ensures text != ""
    ensures Truthy(fallbackText) ==> text == fallbackText.value
    ensures !Truthy(fallbackText) && metadata.Some? && Truthy(metadata.value.ticker)
            ==> text == metadata.value.ticker.value
    ensures !Truthy(fallbackText) && metadata.Some? && !Truthy(metadata.value.ticker) && Truthy(metadata.value.name)
            ==> text == metadata.value.name.value
    ensures !Truthy(fallbackText) && (metadata.None? || (!Truthy(metadata.value.ticker) && !Truthy(metadata.value.name)))
            ==> text == "?"
  {
    var ticker := if metadata.Some? then metadata.value.ticker else None;
    var name := if metadata.Some? then metadata.value.name else None;
    Or(Or(Or(fallbackText, ticker), name), Some("?")).value
  }

  /** The badge text of `renderFallback`: at most three characters of the source text, upper-cased. */
  function FallbackLabel(fallbackText: Option<string>, metadata: Option<TokenMetadata>): (badge: string)
    ensures 1 <= |badge| <= 3
    ensures |badge| == if |FallbackSource(fallbackText, metadata)| > 3 then 3 else |FallbackSource(fallbackText, metadata)|
    ensures forall i :: 0 <= i < |badge| ==> badge[i] == UpperChar(FallbackSource(fallbackText, metadata)[i])
  {
    var text := FallbackSource(fallbackText, metadata);
    if |text| > 3 then Upper(text[..3]) else Upper(text)
  }

  /** What the component shows. */
  datatype View = Skeleton | AdaIcon | TokenPicture(src: string) | FallbackBadge(text: string)

  /** The render function: a skeleton while loading, the ADA icon for ADA, else picture or badge. */
  function Render(unit: string, loading: bool, metadata: Option<TokenMetadata>, imageError: bool,
                  fallbackText: Option<string>): (v: View)
    ensures loading <==> v == Skeleton
    ensures !loading ==> (IsAdaUnit(unit) <==> v == AdaIcon)
    ensures !loading && !IsAdaUnit(unit)
            ==> (v.TokenPicture? <==> metadata.Some? && Truthy(metadata.value.image) && !imageError)
    ensures v.TokenPicture? ==> metadata.Some? && metadata.value.image == Some(v.src)
    ensures v.FallbackBadge? ==> v.text == FallbackLabel(fallbackText, metadata)
  {
    if loading then Skeleton
    else if IsAdaUnit(unit) then AdaIcon
    else if metadata.Some? && Truthy(metadata.value.image) && !imageError then TokenPicture(metadata.value.image.value)
    else FallbackBadge(FallbackLabel(fallbackText, metadata))
  }

  /** A failed image load switches the view to the badge until the next fetch. */
  lemma ImageErrorShowsBadge(unit: string, metadata: Option<TokenMetadata>, fallbackText: Option<string>)
    requires !IsAdaUnit(unit)
    ensures Render(unit, false, metadata, true, fallbackText) == FallbackBadge(FallbackLabel(fallbackText, metadata))
  {
  }

  /** The state of one `TokenImage`. */
  class TokenImageState {
    var metadata: Option<TokenMetadata>
    var loading: bool
    var imageError: bool

    constructor ()
      ensures metadata.None? && loading && !imageError
    {
      metadata := None;
      loading := true;
      imageError := false;
    }

    /**
     * The effect run for `unit` on `network`: ADA is answered locally; any
     * other unit is looked up through the service (which never throws), with
     * the image-error flag reset first.
     */
    method LoadMetadata(unit: string, network: NetworkType, service: BlockfrostService,
                        now: nat, response: FetchOutcome)
      requires service.Valid()
      modifies this, service
      ensures service.Valid() && !loading
      ensures IsAdaUnit(unit) ==>
                metadata == Some(AdaMetadata) && imageError == old(imageError)
                && service.State() == old(service.State()) && service.requests == old(service.requests)
      ensures !IsAdaUnit(unit) ==>
                var l := TokenMetadataLookup(old(service.State()), unit, network, now,
                                             HasProjectId(service.projectIds, network), response, service.decodeHex);
                && metadata == l.result && !imageError && service.State() == l.next
                && service.requests == old(service.requests) + (if l.fetched then 1 else 0)
    {
      if IsAdaUnit(unit) {
        metadata := Some(AdaMetadata);
        loading := false;
        return;
      }
      loading := true;
      imageError := false;
      var meta, _ := service.GetTokenMetadata(unit, network, now, response);
      metadata := meta;
      loading := false;
    }

    /** `handleImageError`. */
    method HandleImageError()
      modifies this`imageError
      ensures imageError
    {
      imageError := true;
    }
  }

  /** The state of the `useTokenMetadata` hook. */
  class MetadataHook {
    var metadata: Option<TokenMetadata>
    var loading: bool

    constructor ()
      ensures metadata.None? && loading
    {
      metadata := None;
      loading := true;
    }

    /** The hook's effect: the same ADA short-circuit and lookup, without an image flag. */
    method LoadMetadata(unit: string, network: NetworkType, service: BlockfrostService,
                        now: nat, response: FetchOutcome)
      requires service.Valid()
      modifies this, service
      ensures service.Valid() && !loading
      ensures IsAdaUnit(unit) ==>
                metadata == Some(AdaMetadata) && service.State() == old(service.State())
                && service.requests == old(service.requests)
      ensures !IsAdaUnit(unit) ==>
                var l := TokenMetadataLookup(old(service.State()), unit, network, now,
                                             HasProjectId(service.projectIds, network), response, service.decodeHex);
                && metadata == l.result && service.State() == l.next
                && service.requests == old(service.requests) + (if l.fetched then 1 else 0)
    {
      if IsAdaUnit(unit) {
        metadata := Some(AdaMetadata);
        loading := false;
        return;
      }
      loading := true;
      var meta, _ := service.GetTokenMetadata(unit, network, now, response);
      metadata := meta;
      loading := false;
    }
  }
}
