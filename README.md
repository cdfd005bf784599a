# Cardano token sender: a verified model of its core

The application is a browser front end for sending ADA and native tokens on
Cardano. It keeps track of the network the user has chosen (mainnet, preprod or
preview), checks that the connected wallet is on that network, fetches token
metadata from Blockfrost through a small time-limited cache, draws each token's
icon, and runs the send form: the asset picker, the form's checks, and the gates
that come before a transaction is built, signed and submitted.

The model has seven modules:

- `JsRuntime` (`js_runtime.dfy`) holds the JavaScript behaviour the code relies on. This covers `||` on optional
  strings and numbers, decimal printing of array indices, `String.prototype.trim`
  over ECMAScript white space and line terminators, upper-casing, and numbers as far as the form compares and
  floors them (NaN, the infinities and finite values).
- `Networks` (`networks.dfy`) is the network registry `NETWORKS` and the default network.
- `Validation` (`validation.dfy`) is `NetworkValidationService`. The wallet is a record of three optional
  capabilities, each missing, returning a value, or throwing. Over that record the model has the chain of
  probes that finds the wallet's network id, the address-prefix parse, and the
  validation with its error messages and labels. It also has the display names and warning texts.
- `Blockfrost` (`blockfrost.dfy`) is `BlockfrostService`. The metadata merge is a pure function. The cache is
  a class with the two maps as fields. Its lookup method is proved equal to a pure
  specification function, `TokenMetadataLookup`, and the caching properties are lemmas about that function.
- `NetworkProvider` (`network_provider.dfy`) is the provider's state: the current network, the mismatch flag,
  the mounted flag and the persisted storage entry. `Valid()` is the invariant that, once mounted, the
  storage entry names the current network.
- `TokenImage` (`token_image.dfy`) is the icon's render decision, the badge text, and the two metadata-loading
  effects (the component's and the `useTokenMetadata` hook's).
- `SendForm` (`send_form.dfy`) is the asset options, `validateForm`, and `handleSend`. The amount checks read
  the amount through one `parseFloat`. An amount that parses to NaN passes both of them, because every
  comparison with NaN is false; the model keeps that behaviour and states it (`NonNumericAmountPasses`).

Time, environment variables, storage reads, the HTTP response, hex decoding, the
wallet's ADA balance and the outcome of building, signing and submitting a
transaction are all inputs of the model.

## Model

| member | source | states |
|---|---|---|
| JsRuntime.Or | services/blockfrost.ts:123-145 | `a \|\| b` on optional strings returns one of its operands; the result is truthy iff either operand is; a falsy left operand yields the right one |
| JsRuntime.OrNumber | services/blockfrost.ts:139 | the same for numbers, where 0 and a missing value are falsy |
| JsRuntime.FirstNonEmpty | services/blockfrost.ts:126 | reference meaning of `a \|\| b` on optional strings: the first non-empty value, absent iff both are falsy |
| JsRuntime.OrIsFirstNonEmpty | services/blockfrost.ts:126 | `\|\|` agrees with the first-non-empty reading whenever its result is truthy, in both directions |
| JsRuntime.NatToString | components/SendForm.tsx:52 | decimal text of an index is non-empty, all digits, one character long iff the number is below ten, and has no leading zero |
| JsRuntime.NatToStringInjective | components/SendForm.tsx:52 | distinct indices print differently (proved by induction on the digits) |
| JsRuntime.NatToStringValue | components/SendForm.tsx:52-54 | the decimal text of a number reads back as that number |
| JsRuntime.GreaterThanZero | components/SendForm.tsx:80-91 | against zero, `x > 0` is the negation of `x <= 0`, except for NaN, where both are false |
| JsRuntime.Floor | components/SendForm.tsx:121-130 | `Math.floor` returns NaN and each infinity unchanged and maps a finite value to the greatest integer not above it |
| JsRuntime.Times | components/SendForm.tsx:125 | multiplying by a positive integer returns NaN and each infinity unchanged and scales a finite value |
| JsRuntime.Trim | components/SendForm.tsx:70 | trimming never lengthens and leaves no white space at either end |
| JsRuntime.TrimEmptyIffBlank | components/SendForm.tsx:70 | `recipient.trim()` is empty iff every character is ECMAScript white space or a line terminator |
| JsRuntime.UpperChar | components/TokenImage.tsx:57 | lower-case ASCII letters map to their upper-case letters; other characters are unchanged |
| JsRuntime.Upper | components/TokenImage.tsx:57 | upper-casing keeps the length and maps every character |
| Networks.KeyOf | types/networks.ts:1 | each network's key is its seven-letter name |
| Networks.KeyOfInjective | types/networks.ts:1 | distinct networks have distinct keys |
| Networks.Config | types/networks.ts:14-44 | each registry entry carries its own id and name; only the test networks have a faucet; display name and URLs are non-empty |
| Networks.ChainIdsDistinct | types/networks.ts:22-42 | chain ids are mainnet 1, preprod 0, preview 2, and they are pairwise distinct |
| Networks.NetworkFromKey | types/networks.ts:14-44 | a string names a network iff it is one of the three own keys, and the found network's key is that string |
| Networks.KeyRoundTrip | types/networks.ts:14-46 | looking up a network's key gives back that network; the default network is preprod |
| Validation.NetworkIdIsChainId | services/validation.ts:27-31 | the expected network id of each network equals the registry's chain id, so distinct networks expect distinct ids |
| Validation.PrefixesDisjoint | services/validation.ts:121-125 | no address starts with both `addr1` and `addr_test1` |
| Validation.ParseNetworkFromAddress | services/validation.ts:116-131 | 1 iff the address starts with `addr1`; 0 iff it starts with `addr_test1`; null iff it starts with neither or is not a string |
| Validation.NetworkNameFromId | services/validation.ts:133-144 | id 0 is labelled "testnet", ids 1 and 2 with their network's key, and every other id "unknown" (and only those) |
| Validation.NetworkIdOf | services/validation.ts:27-31 | the id a wallet reports for each network lies between 0 and 2 |
| Validation.NetworkNamesDistinct | services/validation.ts:133-144 | a label other than "unknown" names exactly one id |
| Validation.ChainIsFirstFound | services/validation.ts:77-114 | `getWalletNetworkInfo` is the first probe that finds an id; a throw anywhere ends the search with null |
| Validation.DirectIdWins | services/validation.ts:82-85 | a working `getNetworkId` decides the id alone; the other capabilities play no part |
| Validation.UtxoProbeFallsThrough | services/validation.ts:87-98 | without `getNetworkId`, the first UTXO's parsed address decides; a missing or empty UTXO list or an unparsable address falls through to the change address |
| Validation.ThrowEndsChain | services/validation.ts:110-113 | a throw before any id is found gives no network info, and validation then fails with "Unable to determine wallet network" and label "unknown" |
| Validation.AddressProbesAreBinary | services/validation.ts:87-107 | without a direct id, the only ids the wallet can be found on are 0 and 1 |
| Validation.Validate | services/validation.ts:33-75 | succeeds iff the found id equals the expected network's id; every error carries the expected network; no info gives "Unable to determine wallet network" with label "unknown"; a mismatch gives "Wallet is connected to L but app is set to K", with L the label of the found id and K the app's network key |
| Validation.PreviewNeedsDirectId | services/validation.ts:49-59 | a wallet validates for preview only when `getNetworkId` returns 2 |
| Validation.ChangeAddressMismatchExample | services/validation.ts:100-107 | a wallet known only by a testnet change address fails validation for mainnet with "Wallet is connected to testnet but app is set to mainnet" |
| Validation.NetworkDisplayName | services/validation.ts:146-153 | each display name is non-empty and differs from the network's key |
| Validation.DisplayNamesDistinct | services/validation.ts:146-153 | distinct networks have distinct display names |
| Validation.NetworkWarningMessage | services/validation.ts:155-162 | the message is non-empty; it starts with the warning sign iff the network is mainnet, and with the information sign otherwise |
| Blockfrost.HexToString | services/blockfrost.ts:150-157 | an empty name gives ""; a name that fails to decode is returned as it is; otherwise the decoded text |
| Blockfrost.ResolveIpfsUrl | services/blockfrost.ts:159-164 | an `ipfs://` URL is rewritten onto the public gateway with the rest kept; any other URL is unchanged; the result never starts with `ipfs://` |
| Blockfrost.ResolveIpfsScheme | services/blockfrost.ts:160-161 | `ipfs://` followed by x resolves to the gateway followed by x |
| Blockfrost.ResolveIpfsIdempotent | services/blockfrost.ts:159-164 | resolving twice is the same as resolving once |
| Blockfrost.ImagePrecedence | services/blockfrost.ts:129-132 | the image candidate is a non-empty on-chain image string, else the first element of an on-chain image list, else the on-chain logo or the off-chain logo |
| Blockfrost.ParseMetadata | services/blockfrost.ts:115-148 | name: on-chain, else off-chain, else the decoded asset name. Description, ticker and url: the first non-empty of on-chain and off-chain. Image and logo: equal, present iff the candidate is truthy, and IPFS-resolved. Decimals: on-chain, else off-chain, else 0 |
| Blockfrost.IpfsImageResolved | services/blockfrost.ts:129-136 | an on-chain `ipfs://` image appears as a gateway URL in both image and logo, whatever the hex decoder |
| Blockfrost.BaseUrlIsRegistryUrl | services/blockfrost.ts:41-45 | the service's base URL for each network is the registry's Blockfrost URL |
| Blockfrost.CacheKeyInjective | services/blockfrost.ts:75 | distinct (network, unit) pairs never share a cache key |
| Blockfrost.MissingExpiryIsExpired | services/blockfrost.ts:78-83 | an entry without an expiry is never served from the cache |
| Blockfrost.Store | services/blockfrost.ts:104-106 | storing keeps the two maps' keys equal and makes the entry live with exactly the stored value |
| Blockfrost.TokenMetadataLookup | services/blockfrost.ts:71-113 | a lookup keeps the two maps consistent; it leaves the cache alone, or stores {} for this key, or stores the parsed metadata; it fetches only with a project id |
| Blockfrost.CacheHitIsServedLocally | services/blockfrost.ts:77-83 | a live entry is returned as is, with no request and no change to the cache |
| Blockfrost.FailureIsNotCached | services/blockfrost.ts:109-112 | a missing project id or a failed request gives null and leaves the cache unchanged |
| Blockfrost.NotFoundIsRemembered | services/blockfrost.ts:91-97 | a 404 gives null and caches {}, so a call within five minutes sends no request and returns {} |
| Blockfrost.SuccessIsRemembered | services/blockfrost.ts:101-108 | a successful fetch caches the parsed metadata, so a call within five minutes returns it without a request |
| Blockfrost.StoredEntryExpires | services/blockfrost.ts:49 | five minutes after storing, the entry is stale and the next call fetches again |
| Blockfrost.OtherKeysUntouched | services/blockfrost.ts:75-106 | a lookup changes no other cache key |
| Blockfrost.BlockfrostService.constructor | services/blockfrost.ts:40-49 | the service starts with both maps empty and no request sent |
| Blockfrost.BlockfrostService.GetTokenMetadata | services/blockfrost.ts:71-113 | the method's result, its fetch, and its new maps are exactly those of `TokenMetadataLookup` on the old maps; the maps stay consistent; the request count grows by one exactly when it fetches |
| Blockfrost.BlockfrostService.ClearCache | services/blockfrost.ts:166-169 | both maps become empty; no request is sent |
| NetworkProvider.InitialNetworkAsWritten | components/NetworkProvider.tsx:21-33 | as written, the mount effect picks either the default key or the stored string itself |
| NetworkProvider.InheritedKeyIsAccepted | components/NetworkProvider.tsx:24 | the stored value "toString" passes the check as written and becomes the current network, though it names no network |
| NetworkProvider.InitialNetwork | components/NetworkProvider.tsx:21-33 | the stored network when the stored string names one; the default when it does not, is missing, or the read throws |
| NetworkProvider.InitialNetworkAgrees | components/NetworkProvider.tsx:21-33 | outside the inherited names, the corrected choice equals the choice as written, and a persisted network comes back as itself |
| NetworkProvider.Provider.constructor | components/NetworkProvider.tsx:16-19 | the first render has the default network, no mismatch, and is not mounted |
| NetworkProvider.Provider.Mount | components/NetworkProvider.tsx:21-39 | after mounting, the current network is the initial network, the provider is mounted, and storage holds the current network's key |
| NetworkProvider.Provider.SetNetwork | components/NetworkProvider.tsx:35-46 | the given network becomes current and the mismatch flag is cleared; once mounted, storage holds its key |
| NetworkProvider.Provider.SetNetworkMismatch | components/NetworkProvider.tsx:48-50 | only the mismatch flag changes |
| NetworkProvider.Provider.NetworkConfig | components/NetworkProvider.tsx:52 | the exposed configuration is the current network's registry entry |
| TokenImage.FallbackSource | components/TokenImage.tsx:56 | the fallback text, else the ticker, else the name, else "?"; never empty |
| TokenImage.FallbackLabel | components/TokenImage.tsx:55-57 | the badge has one to three characters, at most the source's length, each the upper-case form of the source's character at that position |
| TokenImage.Render | components/TokenImage.tsx:74-105 | a skeleton iff loading; else the ADA icon iff the unit is ADA; else the picture iff metadata has a non-empty image and no load error, with that image as source; otherwise the badge |
| TokenImage.ImageErrorShowsBadge | components/TokenImage.tsx:91-105 | after an image error a non-ADA token shows its badge |
| TokenImage.TokenImageState.constructor | components/TokenImage.tsx:20-22 | the icon starts loading, without metadata and without an image error |
| TokenImage.TokenImageState.LoadMetadata | components/TokenImage.tsx:25-49 | ADA gets its fixed metadata, and the service sends no request and keeps its maps. Any other unit gets the cache lookup's result, with the error flag reset, the service's maps advanced as the lookup says, and at most the lookup's one request sent. Loading ends either way |
| TokenImage.TokenImageState.HandleImageError | components/TokenImage.tsx:51-53 | the image-error flag is set |
| TokenImage.MetadataHook.constructor | components/TokenImage.tsx:125-126 | the hook starts loading, without metadata |
| TokenImage.MetadataHook.LoadMetadata | components/TokenImage.tsx:129-150 | the same ADA short-circuit with no request, and the same single lookup for other units, as the icon |
| SendForm.SplitUnitRejoins | components/SendForm.tsx:47-49 | policy id and asset name concatenate back to the unit; a unit over 56 characters gives a 56-character policy id and a non-empty name; otherwise the policy id is empty |
| SendForm.TokenOptionFields | components/SendForm.tsx:46-59 | a token row's policy id and asset name rebuild its unit. Its id is `unit-index`. Its label is the asset name, or for an empty unit "Token " followed by digits whose value is index + 1. It keeps the quantity, with 0 decimals |
| SendForm.BuildAssetOptions | components/SendForm.tsx:34-61 | the options are the ADA row offering the given ADA balance, followed by, at position k, the token row built from the (k-1)-th wallet asset with index k-1; one row per asset, in order |
| SendForm.DashSplitUnique | components/SendForm.tsx:52 | in `u-d` with digits d, both u and d are determined by the whole string |
| SendForm.OptionIdInjective | components/SendForm.tsx:52 | distinct (unit, index) pairs give distinct option ids |
| SendForm.OptionIdsAreKeys | components/SendForm.tsx:36-59 | the option ids of one list are pairwise distinct and none is "ada" |
| SendForm.TransferFor | components/SendForm.tsx:119-137 | ADA becomes a lovelace transfer of the amount in lovelace; any other option becomes an asset transfer of its whole units; the recipient is passed through |
| SendForm.TokenTransferKeepsUnit | components/SendForm.tsx:128-136 | sending a token row asks the SDK for exactly the unit the wallet listed |
| SendForm.FirstFormErrorIsFirstFailingGuard | components/SendForm.tsx:69-101 | the form passes iff no guard fails; otherwise the reported error is that of the first failing guard, all earlier guards passing |
| SendForm.AdaOptionWith | components/SendForm.tsx:37-42 | the ADA row has id "ada", six decimals, and the given balance as its quantity |
| SendForm.AdaAsWrittenRefusesEveryNumber | components/SendForm.tsx:80-92 | with the ADA row's quantity "0", every amount that passes the form parses to NaN; a positive numeric amount is refused as exceeding a balance of 0 |
| SendForm.AdaWithinBalancePasses | components/SendForm.tsx:69-125 | with the ADA row offering the wallet's balance, a valid recipient and a positive amount within the balance pass every guard and become a lovelace transfer |
| SendForm.NonNumericAmountPasses | components/SendForm.tsx:80-92 | an amount that parses to NaN passes both amount guards, and the transfer then carries NaN's text as its amount |
| SendForm.SubmitFailureMessage | components/SendForm.tsx:155 | the message shown after a failed submission is never empty, and it is the error's own message whenever that is non-empty |
| SendForm.SendBuildsOnlyPastEveryGate | components/SendForm.tsx:103-137 | a transfer reaches the SDK iff the form passes, a wallet and an asset exist, the mismatch flag is off, and the wallet validates for the app's network; it is then the transfer for the selected asset and typed amount; a hash is returned iff a transfer was made and submission succeeded |
| SendForm.SendErrorMessages | components/SendForm.tsx:103-159 | each way a send stops shows its own message: the first form error's, the mismatch refusal, "Network Error: " followed by the validation error's message (an error raised for the app's network), or the submission's message with its fallback; a missing wallet or asset leaves the form as it was |
| SendForm.SendResetsOnlyOnSuccess | components/SendForm.tsx:112-158 | only a submitted transaction clears recipient, amount and error, and its hash is the submitted one; otherwise recipient and amount are kept; the selection never changes; loading ends false once it was set |
| SendForm.Form.constructor | components/SendForm.tsx:27-32 | the form starts empty, not loading, without an error |
| SendForm.Form.RefreshOptions | components/SendForm.tsx:34-67 | the options are rebuilt from the assets and the ADA balance, and the ADA row is selected when nothing was selected |
| SendForm.Form.ValidateForm | components/SendForm.tsx:69-101 | returns true iff no guard fails; on failure the shown error is the first failure's message |
| SendForm.Form.SendValidated | components/SendForm.tsx:115-158 | the `try`/`finally` block: the new form fields, the transfer and the hash are exactly those of `Attempt` on the old fields |
| SendForm.Form.HandleSend | components/SendForm.tsx:103-159 | the new form fields, the transfer handed to the SDK and the hash are exactly those of `Send` on the old fields, so the `Send` lemmas above hold of the method |

## Left out

- Rendering (JSX, class names, the `showName` caption, the ADA glyph) is not modelled. The model keeps only the decision of what is shown.
- React scheduling is not modelled: batched state updates, effect re-runs, and the `loading = true` state in the middle of an async effect or send. Each effect and handler is one atomic step, so concurrent lookups and out-of-order completions are not covered.
- Wallet capabilities, `fetch`, `response.json()`, `Date.now()`, environment variables, `localStorage`, and the SDK's build, sign and submit are inputs of the model. A single timestamp stands for both `Date.now()` reads in one lookup.
- Blockfrost.HexToString: Node's UTF-8 decoding of hex is a function parameter. The model does not say what text the bytes decode to.
- SendForm.NumberParsing: `parseFloat` and number-to-text conversion are given functions. A parsed number is NaN, an infinity or a finite value. Finite values are exact reals, so floating-point rounding in the comparisons and in `sendAmount * 1000000` is not modelled.
- SendForm.FirstFormError: lengths are counted in characters here; JavaScript counts UTF-16 code units. The two differ only for characters outside the Basic Multilingual Plane.
- SendForm.SplitUnit: the 56-character cut is made in characters, while `unit.length` and `slice` count UTF-16 code units. The two agree on hex units, which is what asset units are.
- TokenImage.FallbackLabel: `text.length > 3` and `slice(0, 3)` count UTF-16 code units, and the model counts characters. A source text holding a character outside the Basic Multilingual Plane (an emoji, say) gives a different badge in JavaScript.
- SendForm.BuildAssetOptions: the ADA row's quantity is an input, the wallet's ADA balance. The code as written always writes "0", which is the case `adaBalance == "0"` (see Findings).
- NetworkProvider.Provider.Mount: the persisting effect's `localStorage.setItem` is taken to succeed. When storage is unreachable, the write throws out of the effect, nothing is stored, and `Valid()` would not hold. That is the same condition that makes the read throw. The model does not cover that run.
- NetworkProvider.Provider.SetNetwork: the same assumption that the storage write succeeds.
- JsRuntime.UpperChar: only ASCII letters are upper-cased. `toUpperCase` also maps other Unicode letters.
- Validation.Validate: the network magic table and `protocolMagic` are never read by the code, so they are not modelled. `getNetworkId` is assumed to return an integer; other return values are not modelled. The outer `catch` is left out because `getWalletNetworkInfo` already catches every throw.
- A `null` or `undefined` wallet passed to `validateWalletNetwork` is not modelled. `handleSend` never passes one.
- Blockfrost.TokenMetadataLookup: a missing project id is caught inside the same `try` as the request. The lookup then returns null, sends nothing and caches nothing. A reader might expect a fatal error here; the model follows the code.
- Blockfrost.NotFoundIsRemembered: after a 404, later calls within five minutes return `{}`, not null. The model states exactly this.
- Blockfrost.SuccessIsRemembered: the model claims at most one request per key every five minutes only after a call that cached something. A failed call caches nothing, so the next call fetches again.
- The `catch` in the icon's effect is left out: `getTokenMetadata` never rejects.
- `useNetwork`'s throw outside a provider is left out, and so is the wallet's `connected` flag. Both only decide whether anything renders.

## Findings

| source | as written | input that shows it | evidently intended | confidence | as-written member | corrected member |
|---|---|---|---|---|---|---|
| components/NetworkProvider.tsx:24 | `stored && NETWORKS[stored]` also accepts names that every object inherits from `Object.prototype` | a stored value of "toString" becomes the current network, which names no registry entry, so `networkConfig` is not a configuration | restore the stored value only when it is one of the three registry keys | not executed | NetworkProvider.InheritedKeyIsAccepted | NetworkProvider.InitialNetwork |
| components/SendForm.tsx:40 | the ADA row's quantity is the constant "0" and is never updated, and `validateForm` refuses any amount above the selected row's quantity | an amount of "1" with ADA selected is refused with "Insufficient balance. Available: 0". Only an amount that parses to NaN gets through, so the `sendLovelace` branch never sends a number | the ADA row offers the wallet's ADA balance, so an amount within it passes | not executed | SendForm.AdaAsWrittenRefusesEveryNumber | SendForm.AdaWithinBalancePasses |
