# SonicAgent core, modelled in Dafny

This project models the action handlers of the SonicAgent, an LLM agent for the Sonic chain. They turn a
classified user intent into an answer. There are four parts, one Dafny module each (plus `Common`,
the Python semantics they share):

- `TokenInfo` (`token_info.dfy`): `TokenInfoHandler`. It keeps the DexScreener pairs on the Sonic chain, aggregates them
  per base-token address (summed 24h volume, largest liquidity, other fields from the first
  pair seen), ranks them by volume with a stable sort and cuts the list to `limit`. It then renders the numbered
  entries. The aggregation loop, the socials loop and the rendering loop are methods proved
  against fold functions. The fold is proved equal to a per-address reference definition.
- `NftInfo` (`nft_info.dfy`): `NFTInfoHandler`. A one-hour cache is shared by the whole class: one
  timestamp covers the hot list and every per-address entry. It also covers the compact and detailed
  collection formatters and the JSON envelopes. The cache is a class whose methods are proved
  against pure step functions. Lemmas state the hit, refresh and stale-fallback paths, expiry, and an
  invariant over any run of requests.
- `Wallet` (`wallet.dfy`): `WalletActionHandler`. It covers the balance, ticker and transfer handlers, which write
  `token_name` into the caller's dictionary (a class `Parameters`). It also covers the decimals lookup, and
  the contract security check with its risk tier and report text.
- `DeepSeek` (`deepseek.dfy`): `DeepSeekConnection`. It covers `validate_config`, `register_actions`, `perform_action`,
  and the routing that `generate_text` applies to the model's classified reply.

Python is modelled explicitly: truthiness, `dict.get`, `==` across `int`/`bool`/`float`,
f-string rendering of values and `s[:n]` with negative `n`. The network, the clock and the
language model are inputs. A request is a `Fetch` (the body or the failure's text), the time is
`now` in seconds, and the classifier's reply is a `ClassifierReply`. The Sonic connection is a
`Chain` of functions (ticker lookup, balance, decimals, contract probes). Float rendering
(`:,.2f`, `:,.10f`) is a function parameter. An exception is `Err(str(e))`.

Quirks of the code are modelled as written and stated as lemmas:
- NFT JSON errors carry their prefix twice (`NftInfo.JsonErrorDoublePrefix`).
- Routing errors carry "Text generation failed: " twice (`DeepSeek.Route`).
- A per-address refresh renews the hot list (`NftInfo.InfoRefreshRenewsHotList`).
- `mint` is counted as two risk factors (`Wallet.MintCountedTwice`).
- Python's `1 == True` collapses a mint-price range (`NftInfo.MintPriceNumericEquality`).
- The routed transfer of "S" needs no Sonic connection, where the handler does (`DeepSeek.RouteNativeTransferWithoutSonic`).

## Model

| member | source | states |
|---|---|---|
| Common.NatToStringRoundTrip | src/actions/token_info_actions.py:106 | decimal rendering of an index parses back to the same number |
| Common.JoinContains | src/actions/token_info_actions.py:136 | `', '.join` keeps every part intact at its offset |
| Common.ConcatAppend | src/actions/token_info_actions.py:106-149 | text built line by line is the concatenation of its pieces |
| Common.ConcatStartsWith | src/actions/nft_info_actions.py:132 | a text built from lines starts with its first line |
| Common.NumberedStep | src/actions/token_info_actions.py:18-19 | one more rendered entry, numbered by its position from 1, extends the text of the entries before it |
| Common.NumberedStepFails | src/actions/nft_info_actions.py:25-26 | an entry that raises ends the enumeration with the exception |
| Common.NumberedPrefixFails | src/actions/token_info_actions.py:18-19 | once an entry has raised, the whole enumeration has raised |
| Common.NumberedFails | src/actions/nft_info_actions.py:25-26 | the enumeration raises exactly when some entry raises |
| TokenInfo.SonicPairs | src/actions/token_info_actions.py:41-44 | exactly the pairs whose chainId is "sonic" are kept: every kept pair is one, and every one is kept |
| TokenInfo.SonicPairsAppend | src/actions/token_info_actions.py:41-44 | a further pair is appended when it is a Sonic pair and dropped otherwise, so the kept pairs stay in input order |
| TokenInfo.LiquidityMax | src/actions/token_info_actions.py:85-88 | the recorded liquidity bounds every pair of the address, is one of them or 0, and is never negative |
| TokenInfo.FirstPos | src/actions/token_info_actions.py:65-81 | the record of an address comes from the first pair carrying it |
| TokenInfo.AggregateHas | src/actions/token_info_actions.py:47-88 | an address has a record exactly when some Sonic pair carries it |
| TokenInfo.AggregateRow | src/actions/token_info_actions.py:63-88 | each record equals the reference: summed volume, maximal liquidity, fields of the first pair |
| TokenInfo.AggregateOrder | src/actions/token_info_actions.py:47-88 | records are in order of first appearance |
| TokenInfo.AggregateSpec | src/actions/token_info_actions.py:47-88 | the three facts above together, for every address |
| TokenInfo.NoMatchIsZero | src/actions/token_info_actions.py:70-71 | an address without pairs has zero volume and liquidity |
| TokenInfo.InsertMembers | src/actions/token_info_actions.py:91-95 | one insertion step of the sort is a permutation |
| TokenInfo.InsertSorted | src/actions/token_info_actions.py:91-95 | insertion keeps volumes non-increasing |
| TokenInfo.InsertStable | src/actions/token_info_actions.py:91-95 | insertion keeps equal-volume records in their original order |
| TokenInfo.InsertDistinct | src/actions/token_info_actions.py:91-95 | insertion of a new address keeps addresses distinct |
| TokenInfo.SortSorted | src/actions/token_info_actions.py:91-95 | the sorted list is non-increasing by volume |
| TokenInfo.SortPermutes | src/actions/token_info_actions.py:91-95 | the sorted list is a permutation of its input |
| TokenInfo.SortStable | src/actions/token_info_actions.py:91-95 | records of equal volume keep their input order |
| TokenInfo.SortDistinct | src/actions/token_info_actions.py:91-95 | distinct addresses stay distinct |
| TokenInfo.SortFacts | src/actions/token_info_actions.py:91-95 | the sort is non-increasing by volume, a permutation, and stable (`sorted` with `reverse=True`) |
| TokenInfo.RankedSpec | src/actions/token_info_actions.py:38-97 | the ranking holds exactly one reference record per Sonic address, highest volume first |
| TokenInfo.RankedRecords | src/actions/token_info_actions.py:41-95 | every ranked record is the reference record of a Sonic address |
| TokenInfo.RankedComplete | src/actions/token_info_actions.py:41-95 | every Sonic address is ranked |
| TokenInfo.HotTokensSpec | src/actions/token_info_actions.py:97 | the result is a prefix of the ranking of at most `limit` entries (Python slice semantics) |
| TokenInfo.NonSonicPairIgnored | src/actions/token_info_actions.py:41-44 | a pair of another chain changes nothing |
| TokenInfo.SonicPairAddsVolume | src/actions/token_info_actions.py:84 | a Sonic pair adds its volume to its own address only |
| TokenInfo.GetHotTokens | src/actions/token_info_actions.py:27-101 | the loop computes the ranked, cut list; a failed request raises "Failed to get hot tokens: " and the reason |
| TokenInfo.SocialLineShown | src/actions/token_info_actions.py:141-146 | a social line is printed exactly for a dict with non-empty type and url |
| TokenInfo.SocialLinesAppend | src/actions/token_info_actions.py:141-146 | lines of concatenated social lists concatenate |
| TokenInfo.WebsiteUrls | src/actions/token_info_actions.py:134 | the urls are exactly those of dict entries that have a url |
| TokenInfo.Capitalize | src/actions/token_info_actions.py:143 | capitalisation keeps the length |
| TokenInfo.TokenText | src/actions/token_info_actions.py:104-149 | rendering fails exactly when the market cap is not a number |
| TokenInfo.TokenTextNumbered | src/actions/token_info_actions.py:106 | every entry starts with its index and ". " |
| TokenInfo.AppendSocialLines | src/actions/token_info_actions.py:139-146 | the socials loop appends exactly the lines of the shown socials |
| TokenInfo.FormatTokenInfo | src/actions/token_info_actions.py:104-149 | the step-by-step builder produces the entry text |
| TokenInfo.TokenEntriesFail | src/actions/token_info_actions.py:18-19 | the numbered list fails exactly when some token has no usable market cap |
| TokenInfo.HotTokensTextSpec | src/actions/token_info_actions.py:10-24 | the handler answers with the failure message exactly when the request fails or an entry raises, else with header plus entries |
| TokenInfo.AppendEntries | src/actions/token_info_actions.py:17-19 | the enumerate loop appends the numbered entries, or stops with the failure |
| TokenInfo.HandleHotTokens | src/actions/token_info_actions.py:10-24 | the handler never raises and its text is the specified one |
| NftInfo.HotNftsStep | src/actions/nft_info_actions.py:34-67 | a served hot list has at most `limit` entries |
| NftInfo.HotNftsHit | src/actions/nft_info_actions.py:38-42 | a fresh cached list is served without a request and the cache is unchanged |
| NftInfo.HotNftsRefresh | src/actions/nft_info_actions.py:44-59 | otherwise a successful request replaces the list and renews the timestamp |
| NftInfo.HotNftsStale | src/actions/nft_info_actions.py:61-67 | a failed request serves the cached list of any age and raises only without one |
| NftInfo.InfoStep | src/actions/nft_info_actions.py:86-118 | a served entry is the cached entry for that address after the step; an error leaves the cache unchanged and occurs only after a request with nothing cached for the address |
| NftInfo.InfoPaths | src/actions/nft_info_actions.py:86-118 | a fresh hit is served without a request; a refresh caches and returns the fetched collection and stamps `now`; a failed request serves the cached entry of any age, or raises the prefixed error without one |
| NftInfo.InfoTouchesOnlyItsAddress | src/actions/nft_info_actions.py:106-108 | a lookup writes only its own entry and the shared timestamp |
| NftInfo.FetchedListServedWithinHour | src/actions/nft_info_actions.py:14-42 | within an hour of a fetch the list is served from the cache |
| NftInfo.FetchedListExpires | src/actions/nft_info_actions.py:14-46 | from an hour after the fetch the request is issued again |
| NftInfo.InfoRefreshRenewsHotList | src/actions/nft_info_actions.py:38-40 | the shared timestamp: a per-address refresh makes an older hot list count as fresh |
| NftInfo.RunInvariant | src/actions/nft_info_actions.py:9-118 | over any run from the initial cache, nothing is cached before a timestamp is set, and an address is cached only after a successful request for it |
| NftInfo.Truncate | src/actions/nft_info_actions.py:172-175 | text longer than the width is cut to the width followed by "...", shorter text is kept |
| NftInfo.TruthyLine | src/actions/nft_info_actions.py:186-200 | an optional statistic is printed exactly when truthy |
| NftInfo.FlagLine | src/actions/nft_info_actions.py:151-158 | a verification or NSFW line is printed exactly when the field is not None |
| NftInfo.MintLinesSpec | src/actions/nft_info_actions.py:161-167 | one price when low == high in Python's sense, a range otherwise, nothing when either is None |
| NftInfo.MintPriceNumericEquality | src/actions/nft_info_actions.py:164-165 | low 1 and high True print as one price |
| NftInfo.DescriptionLines | src/actions/nft_info_actions.py:170-175 | the description raises exactly when truthy but not text |
| NftInfo.HighestSaleLines | src/actions/nft_info_actions.py:183-184 | the highest sale is printed exactly when truthy and not "0" |
| NftInfo.EntryLines | src/actions/nft_info_actions.py:121-221 | an entry fails exactly on a bad description and starts with its title |
| NftInfo.NftEntrySpec | src/actions/nft_info_actions.py:121-134 | an entry starts with its index, and a missing name reads "Unknown" |
| NftInfo.NftEntryDefaults | src/actions/nft_info_actions.py:133-134 | missing address and owner read "N/A" |
| NftInfo.NftEntryDescription | src/actions/nft_info_actions.py:170-175 | a text description is shown cut at 100 characters |
| NftInfo.StatisticsSection | src/actions/nft_info_actions.py:277-302 | the statistics section opens with its heading |
| NftInfo.LinksSection | src/actions/nft_info_actions.py:314-332 | the links section opens with its heading |
| NftInfo.ImagesSection | src/actions/nft_info_actions.py:335-347 | the images section opens with its heading |
| NftInfo.DetailedLines | src/actions/nft_info_actions.py:224-349 | the detailed view fails exactly on a bad description and starts with the name line |
| NftInfo.DetailedSectionLines | src/actions/nft_info_actions.py:277-347 | statistics, links and images headings appear in that order |
| NftInfo.InfoFailure | src/actions/nft_info_actions.py:83 | the detail failure starts with "❌" |
| NftInfo.DetailedSections | src/actions/nft_info_actions.py:277-335 | the three section headings always appear, in order |
| NftInfo.DetailedDescription | src/actions/nft_info_actions.py:273-274 | a text description is shown cut at 200 characters |
| NftInfo.NftEntriesFail | src/actions/nft_info_actions.py:25-26 | the numbered list fails exactly when some entry raises |
| NftInfo.HotNftsFailureMarked | src/actions/nft_info_actions.py:16-31 | the handler answers with "❌" exactly when the lookup raises or an entry raises |
| NftInfo.InfoFailureMarked | src/actions/nft_info_actions.py:70-83 | likewise for the detailed view, and the failure names the address |
| NftInfo.EnvelopeOf | src/actions/nft_info_actions.py:352-387 | success carries the data; an error is the prefix followed by the raised message |
| NftInfo.JsonErrorDoublePrefix | src/actions/nft_info_actions.py:363-368 | a failed hot list without cache reports "Failed to get hot NFTs: " twice |
| NftInfo.NftInfoHandler.constructor | src/actions/nft_info_actions.py:9-13 | the cache starts empty with no timestamp |
| NftInfo.NftInfoHandler.GetHotNfts | src/actions/nft_info_actions.py:34-67 | the fields after the call and its result are those of the step function |
| NftInfo.NftInfoHandler.GetNftInfo | src/actions/nft_info_actions.py:86-118 | the fields after the call and its result are those of the step function |
| NftInfo.NftInfoHandler.HandleHotNfts | src/actions/nft_info_actions.py:16-31 | the text of the hot-list handler over the lookup's outcome |
| NftInfo.NftInfoHandler.HandleNftInfo | src/actions/nft_info_actions.py:70-83 | the text of the detail handler over the lookup's outcome |
| NftInfo.NftInfoHandler.HandleHotNftsJson | src/actions/nft_info_actions.py:352-368 | the envelope of the hot-list lookup |
| NftInfo.NftInfoHandler.HandleNftInfoJson | src/actions/nft_info_actions.py:371-387 | the envelope of the detail lookup |
| NftInfo.AppendNftEntries | src/actions/nft_info_actions.py:24-26 | the enumerate loop appends the numbered entries, or stops with the failure |
| Wallet.Parameters.constructor | src/actions/wallet_actions.py:10 | the caller's dictionary as given |
| Wallet.WithDefaultTokenName | src/actions/wallet_actions.py:63-64 | `token_name` is set to "S" when absent and nothing else changes |
| Wallet.TokenDecimals | src/actions/wallet_actions.py:99-116 | 18 for "S" or when the contract cannot be read, else the contract's decimals |
| Wallet.TransferFirstMissing | src/actions/wallet_actions.py:58-61 | the recipient is checked before the amount, and the dictionary is untouched then |
| Wallet.TransferWritesTokenName | src/actions/wallet_actions.py:63-64 | past those checks the caller's dictionary gains `token_name` only |
| Wallet.TransferUnresolvedToken | src/actions/wallet_actions.py:70-74 | an unresolved ticker is refused by name |
| Wallet.TransferDescriptor | src/actions/wallet_actions.py:76-96 | the descriptor copies the request, carries the token's decimals (18 for "S" or an unreadable contract, else the contract's own) and requires a signature |
| Wallet.TransferMissingFromRaises | src/actions/wallet_actions.py:83 | without `from_address` the handler raises KeyError |
| Wallet.HandleTransfer | src/actions/wallet_actions.py:56-96 | reply and caller's dictionary are those of the transfer function |
| Wallet.GetBalanceSpec | src/actions/wallet_actions.py:10-36 | `token_name` defaults to "S", a ticker is resolved, and an empty name is refused |
| Wallet.GetBalanceWithoutSonic | src/actions/wallet_actions.py:13-27 | without a Sonic connection the handler raises after defaulting the name |
| Wallet.HandleGetBalance | src/actions/wallet_actions.py:10-36 | reply and caller's dictionary are those of the balance function |
| Wallet.TokenByTicker | src/actions/wallet_actions.py:39-53 | raises exactly without a connection, refuses an empty ticker, names ticker and address when the ticker resolves, and returns None when it does not |
| Wallet.TokenAddressText | src/actions/wallet_actions.py:52 | the found-address text is never the refusal text |
| Wallet.RiskFactors | src/actions/wallet_actions.py:263-273 | nine factors are counted |
| Wallet.CountTrue | src/actions/wallet_actions.py:274 | the count is at most the number of factors |
| Wallet.CountTrueSpec | src/actions/wallet_actions.py:274 | zero exactly when no factor holds, and at least two or three when that many hold |
| Wallet.CountTrueAtLeastOne | src/actions/wallet_actions.py:274 | one true factor makes the count positive |
| Wallet.RiskLevel | src/actions/wallet_actions.py:276-281 | low for 0, medium for 1 or 2, high for 3 or more, each an if-and-only-if |
| Wallet.LowRiskMeansClean | src/actions/wallet_actions.py:263-281 | low risk exactly when no factor holds |
| Wallet.MintCountedTwice | src/actions/wallet_actions.py:263-281 | a successful `mint` probe sets two factors, so never low and high with one more |
| Wallet.HiddenMintIsCanMint | src/actions/wallet_actions.py:174-294 | the hidden-mint finding always equals the can-mint finding |
| Wallet.ReadFindings | src/actions/wallet_actions.py:184-260 | the probes, read one after the other, give the findings of the reference definition |
| Wallet.CountFactors | src/actions/wallet_actions.py:274 | the summing loop counts the true factors |
| Wallet.CheckContractSecurity | src/actions/wallet_actions.py:174-301 | the sequential probes give the findings, the counting gives the tier, and a contract that cannot be built gives the error |
| Wallet.ReportLines | src/actions/wallet_actions.py:146-169 | the report opens with its heading and ends with the advice for its tier |
| Wallet.ProbesMatchSecurity | src/actions/wallet_actions.py:174-301 | findings, tier and error as the check computes them are the security report |
| Wallet.Failure | src/actions/wallet_actions.py:143 | a refusal is "❌", a space, then its message |
| Wallet.CheckedText | src/actions/wallet_actions.py:141-171 | after the check, the reply starts with "❌" exactly when the check failed; it is then "❌ " and the error, and otherwise the report text |
| Wallet.SecurityTextPaths | src/actions/wallet_actions.py:121-143 | the exact message for no connection, an unresolved name, neither name nor address, and a failed check |
| Wallet.SecurityTextChecked | src/actions/wallet_actions.py:129-139 | once an address is known, the reply is that of the check on it |
| Wallet.CheckAndReport | src/actions/wallet_actions.py:139-171 | the check and the report give the reply for that address |
| Wallet.SecurityTextFailures | src/actions/wallet_actions.py:119-143 | the text starts with "❌" exactly for no connection, an unresolved name, no address, or a failed check |
| Wallet.ReportText | src/actions/wallet_actions.py:146-171 | the report text opens with its heading and ends with the advice for its tier |
| Wallet.HandleCheckTokenSecurity | src/actions/wallet_actions.py:119-171 | the handler's text is the report text |
| DeepSeek.MissingFields | src/connections/deepseek_connection.py:35-36 | exactly the required fields the configuration lacks |
| DeepSeek.ValidateConfigSpec | src/connections/deepseek_connection.py:33-44 | accepted unchanged exactly with a textual `model`, otherwise the missing-field or type error |
| DeepSeek.Registry | src/connections/deepseek_connection.py:46-70 | three actions, each registered under its own name |
| DeepSeek.MethodName | src/connections/deepseek_connection.py:342 | dashes become underscores, every other character kept |
| DeepSeek.RegistryResolves | src/connections/deepseek_connection.py:46-70 | every registered action resolves to one of the connection's methods |
| DeepSeek.DeepSeekConnection.RegisterActions | src/connections/deepseek_connection.py:46-70 | the action table becomes the registry |
| DeepSeek.DeepSeekConnection.PerformAction | src/connections/deepseek_connection.py:332-344 | KeyError exactly for an unknown name, ValueError exactly for validation errors, else the method call with the given arguments |
| DeepSeek.InvalidParamsListsAll | src/connections/deepseek_connection.py:338-340 | every validation error appears intact in the ValueError |
| DeepSeek.Raise | src/connections/deepseek_connection.py:287-295 | a routed exception surfaces with "Text generation failed: " twice before its message |
| DeepSeek.RouteBalance | src/connections/deepseek_connection.py:191-220 | the only errors are a missing Sonic connection and a missing `from_address`, both wrapped; otherwise the answer is text |
| DeepSeek.RouteTicker | src/connections/deepseek_connection.py:223-237 | raises exactly without a Sonic connection, wrapped; otherwise the answer is text, never None |
| DeepSeek.RouteTransfer | src/connections/deepseek_connection.py:240-278 | the only errors are a missing Sonic connection and a missing `from_address`; a descriptor copies recipient and amount, requires a signature and carries no decimals |
| DeepSeek.Route | src/connections/deepseek_connection.py:178-295 | non-JSON text comes back unchanged; `get-balance`, `get-token-by-ticker` and `transfer` go to their own branches; the answer is never None, and every failure carries "Text generation failed: " twice |
| DeepSeek.RoutePassThrough | src/connections/deepseek_connection.py:181-188 | non-JSON text and other actions come back unchanged; an intent without a connection manager raises |
| DeepSeek.RouteTransferAgreesWithWallet | src/connections/deepseek_connection.py:240-278 | same checks, refusals and descriptor as the wallet handler, less the decimals |
| DeepSeek.RouteNativeTransferWithoutSonic | src/connections/deepseek_connection.py:249-271 | a transfer of "S" is routed without a Sonic connection, which the wallet handler refuses |
| DeepSeek.RouteBalanceAgreesWithWallet | src/connections/deepseek_connection.py:191-220 | same answer as the wallet handler, except a failure text instead of None, and wrapped errors |
| DeepSeek.RouteTickerSpec | src/connections/deepseek_connection.py:223-237 | an empty ticker is refused, an unresolved one named, and no connection raises |

## Left out

- The HTTP requests (DexScreener, PaintSwap), JSON parsing and `raise_for_status` are not modelled. A request is an input that succeeds with a body or fails with a reason.
- The language-model call of `generate_text` (prompt building, client creation, `configure`, `is_configured`) is not modelled. The classifier's reply is an input. `check_model` and `list_models` only call the remote API, so they are named as dispatch targets and not modelled further.
- Logging and `print` are not modelled; they do not affect any result.
- The clock is an integer `now` in seconds. `datetime` arithmetic and sub-second precision are not modelled.
- Float parsing and the `:,.2f` / `:,.10f` formatting are not modelled. Numbers are `real`, and the formatting is a function parameter.
- TokenInfo.Capitalize: applies `str.capitalize` to ASCII letters only.
- Responses whose shape differs from the one assumed are not modelled: `stats`, a collection, `parameters` or a pair field that is not a dictionary, a non-object JSON body, or `collections: null`. The model admits dictionaries and the listed value kinds only.
- Exceptions raised by the Sonic connection's own calls (`get_token_by_ticker`, `get_balance`) are not modelled. Those calls are total functions here.
- DeepSeek.PerformAction: `Action.validate_params` is defined in a base class that is not part of this model. It is a function parameter that yields the error list.
- DeepSeek.Route: the routing writes `token_name` into its local copy of the parameters. It is modelled on values, because that dictionary is not visible to the caller.
- The base connection class's constructor (which calls `validate_config` and `register_actions`) is not part of this model.
- The `limit=10` defaults of `handle_hot_tokens`, `get_hot_tokens`, `handle_hot_nfts` and `get_hot_nfts` are not modelled: Dafny has no default arguments, so `limit` is always passed.
- TokenInfo.WebsiteUrls and TokenInfo.SocialLineShown: a website whose `url` is null, or a social whose `type` is null, makes the Python code raise (TypeError or AttributeError). The model reads a null field as an absent one, so it skips that entry and does not raise.
- Wallet.HiddenMintIsCanMint: the two identical `mint(...)` probes are modelled as one probe result, so both findings read the same outcome. A contract that answered the two calls differently is not modelled.
- NftInfo.NftInfoHandler.GetHotNfts: the class-level `_cache` is shared by all callers. Concurrent access is not modelled.
