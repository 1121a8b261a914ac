/** `NFTInfoHandler`: PaintSwap NFT collections behind a one-hour cache that the whole class
    shares, and their rendering as text or as a JSON envelope. The cache holds the hot-collection
    list, one entry per collection address and a single `last_update` timestamp for all of them. */
module NftInfo {
  import opened Common

  /** `CACHE_DURATION`: one hour, in seconds. */
  const CacheDuration := 3600

  /** A collection as PaintSwap returns it: its top-level fields and its `stats` dictionary. */
  datatype Collection = Collection(fields: Dict, stats: Dict)

  /** `data.get('collection', {})` when the key is missing. */
  const EmptyCollection := Collection(map[], map[])

  // ---------------------------------------------------------------------------------------
  // The cache as a state machine

  datatype CacheState = CacheState(
    hotNfts: Option<seq<Collection>>,
    nftInfo: map<string, Collection>,
    lastUpdate: Option<int>)

  /** The class attribute `_cache` as the module is loaded. */
  const Initial := CacheState(None, map[], None)

  /** The shared timestamp is set and less than an hour old. */
  predicate Fresh(s: CacheState, now: int)
  {
    s.lastUpdate.Some? && now - s.lastUpdate.value < CacheDuration
  }

  /** What one call leaves behind: the new cache, the value returned or the exception raised,
      and whether the upstream request was issued. */
  datatype Step<T> = Step(state: CacheState, result: Result<T>, fetched: bool)

  /** The list a successful response carries: `data.get('collections', [])`. */
  function CollectionsOf(body: Option<seq<Collection>>): seq<Collection>
  {
    if body.Some? then body.value else []
  }

  /** The collection a successful response carries: `data.get('collection', {})`. */
  function CollectionOf(body: Option<Collection>): Collection
  {
    if body.Some? then body.value else EmptyCollection
  }

  /** `get_hot_nfts(limit)` at time `now`; `response` is what the PaintSwap request would give. */
  function HotNftsStep(s: CacheState, limit: int, now: int, response: Fetch<Option<seq<Collection>>>)
    : (st: Step<seq<Collection>>)
    ensures limit >= 0 && st.result.Ok? ==> |st.result.value| <= limit
  {
    if s.hotNfts.Some? && Fresh(s, now) then
      Step(s, Ok(Take(s.hotNfts.value, limit)), false)
    else
      match response
      case Fetched(body) =>
        var collections := CollectionsOf(body);
        Step(s.(hotNfts := Some(collections), lastUpdate := Some(now)), Ok(Take(collections, limit)), true)
      case FetchFailed(e) =>
        if s.hotNfts.Some? then Step(s, Ok(Take(s.hotNfts.value, limit)), true)
        else Step(s, Err(HotNftsError + e), true)
  }

  /** `get_nft_info(address)` at time `now`. */
  function InfoStep(s: CacheState, address: string, now: int, response: Fetch<Option<Collection>>)
    : (st: Step<Collection>)
    ensures st.result.Ok? ==> address in st.state.nftInfo && st.result.value == st.state.nftInfo[address]
    ensures st.result.Err? ==> st.state == s && address !in s.nftInfo && st.fetched
  {
    if address in s.nftInfo && Fresh(s, now) then
      Step(s, Ok(s.nftInfo[address]), false)
    else
      match response
      case Fetched(body) =>
        var c := CollectionOf(body);
        Step(s.(nftInfo := s.nftInfo[address := c], lastUpdate := Some(now)), Ok(c), true)
      case FetchFailed(e) =>
        if address in s.nftInfo then Step(s, Ok(s.nftInfo[address]), true)
        else Step(s, Err(InfoError + e), true)
  }

  /** A fresh cached hot list is served without a request and without touching the cache. */
  lemma HotNftsHit(s: CacheState, limit: int, now: int, response: Fetch<Option<seq<Collection>>>)
    requires s.hotNfts.Some? && Fresh(s, now)
    ensures var st := HotNftsStep(s, limit, now, response);
            !st.fetched && st.state == s && st.result == Ok(Take(s.hotNfts.value, limit))
  {
  }

  /** Otherwise the request is issued; a success replaces the list and renews the timestamp. */
  lemma HotNftsRefresh(s: CacheState, limit: int, now: int, body: Option<seq<Collection>>)
    requires !(s.hotNfts.Some? && Fresh(s, now))
    ensures var st := HotNftsStep(s, limit, now, Fetched(body));
            && st.fetched
            && st.state == CacheState(Some(CollectionsOf(body)), s.nftInfo, Some(now))
            && st.result == Ok(Take(CollectionsOf(body), limit))
  {
  }

  /** A failed request falls back to the cached list of any age, and raises only without one;
      the cache is left as it was. */
  lemma HotNftsStale(s: CacheState, limit: int, now: int, reason: string)
    requires !(s.hotNfts.Some? && Fresh(s, now))
    ensures var st := HotNftsStep(s, limit, now, FetchFailed(reason));
            && st.fetched && st.state == s
            && (s.hotNfts.Some? ==> st.result == Ok(Take(s.hotNfts.value, limit)))
            && (s.hotNfts.None? ==> st.result == Err(HotNftsError + reason))
  {
  }

  /** The per-address lookup has the same three paths: a fresh hit, a refresh that caches the
      fetched collection and stamps `now`, and the fallback on a failed request. */
  lemma InfoPaths(s: CacheState, address: string, now: int, response: Fetch<Option<Collection>>)
    ensures var st := InfoStep(s, address, now, response);
            && (address in s.nftInfo && Fresh(s, now) ==> !st.fetched && st.state == s && st.result == Ok(s.nftInfo[address]))
            && (!(address in s.nftInfo && Fresh(s, now)) ==> st.fetched)
            && (!(address in s.nftInfo && Fresh(s, now)) && response.Fetched? ==>
                  var c := CollectionOf(response.body);
                  st.state == s.(nftInfo := s.nftInfo[address := c], lastUpdate := Some(now))
                  && st.result == Ok(c))
            && (!(address in s.nftInfo && Fresh(s, now)) && response.FetchFailed? ==>
                  st.state == s
                  && st.result == (if address in s.nftInfo then Ok(s.nftInfo[address])
                                   else Err(InfoError + response.reason)))
  {
  }

  /** A successful lookup writes only its own address's entry (and the shared timestamp): the
      hot list and every other address are left alone. */
  lemma InfoTouchesOnlyItsAddress(s: CacheState, address: string, now: int, response: Fetch<Option<Collection>>)
    ensures var st := InfoStep(s, address, now, response);
            && st.state.hotNfts == s.hotNfts
            && (forall a :: a != address ==> (a in st.state.nftInfo <==> a in s.nftInfo))
            && (forall a :: a != address && a in s.nftInfo ==> st.state.nftInfo[a] == s.nftInfo[a])
            && (st.result.Ok? ==> address in st.state.nftInfo && st.state.nftInfo[address] == st.result.value)
            && (st.state != s ==> st.state.lastUpdate == Some(now) && response.Fetched?)
  {
  }

  /** After a hot list is fetched at `t1`, asking again within the hour at `t2` issues no request
      and serves the fetched list, cut to the new limit. */
  lemma FetchedListServedWithinHour(s: CacheState, limit1: int, limit2: int, t1: int, t2: int,
                                    body: Option<seq<Collection>>, response: Fetch<Option<seq<Collection>>>)
    requires HotNftsStep(s, limit1, t1, Fetched(body)).fetched
    requires t2 - t1 < CacheDuration
    ensures var s1 := HotNftsStep(s, limit1, t1, Fetched(body)).state;
            var st := HotNftsStep(s1, limit2, t2, response);
            !st.fetched && st.state == s1 && st.result == Ok(Take(CollectionsOf(body), limit2))
  {
  }

  /** From an hour after the fetch on, the next call issues the request again. */
  lemma FetchedListExpires(s: CacheState, limit1: int, limit2: int, t1: int, t2: int,
                           body: Option<seq<Collection>>, response: Fetch<Option<seq<Collection>>>)
    requires HotNftsStep(s, limit1, t1, Fetched(body)).fetched
    requires t2 - t1 >= CacheDuration
    ensures var s1 := HotNftsStep(s, limit1, t1, Fetched(body)).state;
            HotNftsStep(s1, limit2, t2, response).fetched
  {
  }

  /** The timestamp is shared: refreshing one collection's entry at `t1` makes a hot list of any
      age count as fresh until `t1` plus an hour, so it is served without a request. */
  lemma InfoRefreshRenewsHotList(s: CacheState, address: string, t1: int, t2: int, limit: int,
                                 body: Option<Collection>, response: Fetch<Option<seq<Collection>>>)
    requires s.hotNfts.Some?
    requires InfoStep(s, address, t1, Fetched(body)).fetched
    requires t2 - t1 < CacheDuration
    ensures var s1 := InfoStep(s, address, t1, Fetched(body)).state;
            var st := HotNftsStep(s1, limit, t2, response);
            !st.fetched && st.result == Ok(Take(s.hotNfts.value, limit))
  {
  }

  // ---------------------------------------------------------------------------------------
  // Runs of calls

  datatype Request =
    | HotRequest(limit: int, now: int, hotResponse: Fetch<Option<seq<Collection>>>)
    | InfoRequest(address: string, now: int, infoResponse: Fetch<Option<Collection>>)

  function Serve(s: CacheState, r: Request): CacheState
  {
    match r
    case HotRequest(limit, now, response) => HotNftsStep(s, limit, now, response).state
    case InfoRequest(address, now, response) => InfoStep(s, address, now, response).state
  }

  /** The cache after a sequence of calls, the last one last. */
  function Run(s: CacheState, rs: seq<Request>): CacheState
  {
    if rs == [] then s else Serve(Run(s, rs[..|rs| - 1]), rs[|rs| - 1])
  }

  /** Nothing is cached while the timestamp has never been set. */
  ghost predicate Consistent(s: CacheState)
  {
    s.lastUpdate.None? ==> s.hotNfts.None? && s.nftInfo == map[]
  }

  /** An address is cached only after a successful request for it. */
  ghost predicate FetchedBefore(rs: seq<Request>, address: string)
  {
    exists i :: 0 <= i < |rs| && rs[i].InfoRequest? && rs[i].address == address && rs[i].infoResponse.Fetched?
  }

  /** From the initial cache, every run keeps the cache consistent and holds only addresses
      that some earlier call fetched successfully. */
  lemma {:induction false} RunInvariant(rs: seq<Request>)
    ensures Consistent(Run(Initial, rs))
    ensures forall a :: a in Run(Initial, rs).nftInfo ==> FetchedBefore(rs, a)
  {
    if rs != [] {
      var pre := rs[..|rs| - 1];
      var r := rs[|rs| - 1];
      RunInvariant(pre);
      var s := Run(Initial, pre);
      forall a | a in Run(Initial, rs).nftInfo ensures FetchedBefore(rs, a) {
        if a in s.nftInfo {
          var i :| 0 <= i < |pre| && pre[i].InfoRequest? && pre[i].address == a && pre[i].infoResponse.Fetched?;
          assert rs[i] == pre[i];
        } else {
          assert rs[|rs| - 1] == r;
        }
      }
    }
  }

  // ---------------------------------------------------------------------------------------
  // Rendering

  /** `desc[:width] + "..."` when the text is longer than `width`, the text itself otherwise. */
  function Truncate(s: string, width: nat): (r: string)
    ensures |s| <= width ==> r == s
    ensures |s| > width ==> |r| == width + 3 && r[..width] == s[..width] && r[width..] == "..."
  {
    if |s| > width then s[..width] + "..." else s
  }

  /** A line printed when the value is truthy. */
  function TruthyLine(caption: string, v: Value): (lines: seq<string>)
    ensures |lines| <= 1
    ensures |lines| == 1 <==> Truthy(v)
  {
    if Truthy(v) then [caption + Show(v) + "\n"] else []
  }

  /** A line printed when the value is not None, reading "Yes" or "No". */
  function FlagLine(caption: string, v: Value): (lines: seq<string>)
    ensures |lines| == 1 <==> v != Null
  {
    if v != Null then [caption + (if Truthy(v) then "Yes" else "No") + "\n"] else []
  }

  /** The mint-price line: one price when low and high compare equal, a range when they
      differ, nothing when either is absent. */
  function MintLines(indent: string, f: Dict): (lines: seq<string>)
    ensures |lines| <= 1
  {
    var low := Get(f, "mintPriceLow", Null);
    var high := Get(f, "mintPriceHigh", Null);
    if low != Null && high != Null then
      if PyEq(low, high) then [indent + "Mint Price: " + Show(low) + " wei\n"]
      else [indent + "Mint Price Range: " + Show(low) + " - " + Show(high) + " wei\n"]
    else []
  }

  lemma MintLinesSpec(indent: string, f: Dict)
    ensures var low := Get(f, "mintPriceLow", Null);
            var high := Get(f, "mintPriceHigh", Null);
            && (MintLines(indent, f) == [] <==> low == Null || high == Null)
            && (low != Null && high != Null && PyEq(low, high) ==>
                  MintLines(indent, f) == [indent + "Mint Price: " + Show(low) + " wei\n"])
            && (low != Null && high != Null && !PyEq(low, high) ==>
                  MintLines(indent, f) == [indent + "Mint Price Range: " + Show(low) + " - " + Show(high) + " wei\n"])
  {
  }

  /** Python compares `1 == 1.0` and `True == 1` as equal: such a pair prints one price, in
      the low value's own spelling. */
  lemma MintPriceNumericEquality(indent: string, f: Dict)
    requires Get(f, "mintPriceLow", Null) == Int(1) && Get(f, "mintPriceHigh", Null) == Bool(true)
    ensures MintLines(indent, f) == [indent + "Mint Price: " + "1" + " wei\n"]
  {
    assert DigitChar(1) == '1';
    assert Show(Int(1)) == "1";
  }

  /** The description line; None when the description is truthy but not text, where `len`
      raises. */
  function DescriptionLines(caption: string, v: Value, width: nat): (r: Option<seq<string>>)
    ensures r.None? <==> Truthy(v) && !v.Str?
    ensures r.Some? ==> |r.value| <= 1 && (|r.value| == 1 <==> Truthy(v))
  {
    if !Truthy(v) then Some([])
    else if v.Str? then Some([caption + Truncate(v.s, width) + "\n"])
    else None
  }

  /** The highest-sale line, omitted when the value is falsy or the text "0". */
  function HighestSaleLines(indent: string, stats: Dict): (lines: seq<string>)
    ensures |lines| == 1 <==> Truthy(Get(stats, "highestSale", Str("0"))) && Get(stats, "highestSale", Str("0")) != Str("0")
  {
    var v := Get(stats, "highestSale", Str("0"));
    if Truthy(v) && v != Str("0") then [indent + "Highest Sale: " + Show(v) + " wei\n"] else []
  }

  /** The name, address and creator lines of an entry, with their defaults. */
  function IdentityLines(indent: string, f: Dict): seq<string>
  {
    [indent + "Address: " + Show(Get(f, "address", Str(NotAvailable))) + "\n",
     indent + "Creator: " + Show(Get(f, "owner", Str(NotAvailable))) + "\n"]
  }

  /** Symbol, standard, chain id, verification, NSFW flag and mint price. */
  function TraitLines(indent: string, c: Collection): seq<string>
  {
    TruthyLine(indent + "Symbol: ", Get(c.stats, "symbol", Null))
    + TruthyLine(indent + "Standard: ERC-", Get(c.fields, "standard", Null))
    + TruthyLine(indent + "Chain ID: ", Get(c.fields, "chainId", Null))
    + FlagLine(indent + "Verified: ", Get(c.fields, "verified", Null))
    + FlagLine(indent + "NSFW: ", Get(c.fields, "nsfw", Null))
    + MintLines(indent, c.fields)
  }

  /** The wei amounts that are always printed, defaulting to "0". */
  function VolumeLines(indent: string, stats: Dict): seq<string>
  {
    [indent + "24h Volume: " + Show(Get(stats, "volumeLast24Hours", Str("0"))) + " wei\n",
     indent + "7d Volume: " + Show(Get(stats, "volumeLast7Days", Str("0"))) + " wei\n",
     indent + "Total Volume: " + Show(Get(stats, "totalVolumeTraded", Str("0"))) + " wei\n"]
  }

  function FloorLine(indent: string, stats: Dict): string
  {
    indent + "Floor Price: " + Show(Get(stats, "floor", Str("0"))) + " wei\n"
  }

  /** Supply, owners, active sales and trades, each shown when truthy. */
  function CountLines(indent: string, stats: Dict): seq<string>
  {
    TruthyLine(indent + "Total Supply: ", Get(stats, "totalMinted", Null))
    + TruthyLine(indent + "Unique Owners: ", Get(stats, "numOwners", Null))
    + TruthyLine(indent + "Active Sales: ", Get(stats, "activeSales", Null))
    + TruthyLine(indent + "Total Trades: ", Get(stats, "totalTrades", Null))
  }

  /** Website, Twitter, Discord and Telegram, each shown when truthy. */
  function SocialLinks(indent: string, f: Dict): seq<string>
  {
    TruthyLine(indent + "Website: ", Get(f, "website", Null))
    + TruthyLine(indent + "Twitter: ", Get(f, "twitter", Null))
    + TruthyLine(indent + "Discord: ", Get(f, "discord", Null))
    + TruthyLine(indent + "Telegram: ", Get(f, "telegram", Null))
  }

  const Indent := "   "
  const UnknownName := "Unknown"
  const NotAvailable := "N/A"

  function EntryTitle(index: int, f: Dict): string
  {
    IntToString(index) + ". " + Show(Get(f, "name", Str(UnknownName))) + "\n"
  }

  /** The lines after the description: amounts, counts, dates, links and a blank line. */
  function EntryTail(c: Collection): seq<string>
  {
    var f := c.fields;
    var st := c.stats;
    [FloorLine(Indent, st)]
    + VolumeLines(Indent, st)
    + HighestSaleLines(Indent, st)
    + CountLines(Indent, st)
    + TruthyLine(Indent + "Created At: ", Get(f, "createdAt", Null))
    + SocialLinks(Indent, f)
    + ["\n"]
  }

  /** The lines of `_format_nft_info(index, nft)`. */
  function EntryLines(index: int, c: Collection): (r: Option<seq<string>>)
    ensures r.None? <==> DescriptionLines(Indent + "Description: ", Get(c.fields, "description", Null), 100).None?
    ensures r.Some? ==> |r.value| >= 3 && r.value[0] == EntryTitle(index, c.fields)
  {
    var desc := DescriptionLines(Indent + "Description: ", Get(c.fields, "description", Null), 100);
    if desc.None? then None
    else Some([EntryTitle(index, c.fields)] + IdentityLines(Indent, c.fields) + TraitLines(Indent, c) + desc.value + EntryTail(c))
  }

  /** `_format_nft_info`; None when it raises. */
  function NftEntry(index: int, c: Collection): Option<string>
  {
    var lines := EntryLines(index, c);
    if lines.None? then None else Some(Concat(lines.value))
  }

  /** An entry fails only on a description that is truthy but not text, and otherwise starts
      with its number and the name, "Unknown" when the collection has none. */
  lemma NftEntrySpec(index: int, c: Collection)
    ensures var d := Get(c.fields, "description", Null);
            NftEntry(index, c).None? <==> Truthy(d) && !d.Str?
    ensures NftEntry(index, c).Some? ==>
              StartsWith(NftEntry(index, c).value, EntryTitle(index, c.fields))
    ensures NftEntry(index, c).Some? && "name" !in c.fields ==>
              StartsWith(NftEntry(index, c).value, IntToString(index) + ". " + UnknownName + "\n")
  {
    var lines := EntryLines(index, c);
    if lines.Some? {
      ConcatStartsWith(lines.value);
      if "name" !in c.fields {
        assert EntryTitle(index, c.fields) == IntToString(index) + ". " + UnknownName + "\n";
      }
    }
  }

  /** A compact entry lists its address and creator right after the title, "N/A" when absent. */
  lemma NftEntryDefaults(index: int, c: Collection)
    requires EntryLines(index, c).Some?
    requires "address" !in c.fields && "owner" !in c.fields
    ensures EntryLines(index, c).value[1] == Indent + "Address: " + NotAvailable + "\n"
    ensures EntryLines(index, c).value[2] == Indent + "Creator: " + NotAvailable + "\n"
  {
    var head := [EntryTitle(index, c.fields)] + IdentityLines(Indent, c.fields);
    var rest := TraitLines(Indent, c) + DescriptionLines(Indent + "Description: ", Get(c.fields, "description", Null), 100).value + EntryTail(c);
    assert EntryLines(index, c).value == head + rest by {
      ConcatAssoc3(head, TraitLines(Indent, c), DescriptionLines(Indent + "Description: ", Get(c.fields, "description", Null), 100).value, EntryTail(c));
    }
  }

  lemma ConcatAssoc3<T>(a: seq<T>, b: seq<T>, c: seq<T>, d: seq<T>)
    ensures a + b + c + d == a + (b + c + d)
  {
  }

  /** A compact entry shows a text description whole up to 100 characters, and otherwise its
      first 100 characters followed by "...". */
  lemma NftEntryDescription(index: int, c: Collection)
    requires Get(c.fields, "description", Null).Str? && Get(c.fields, "description", Null).s != ""
    ensures var d := Get(c.fields, "description", Null).s;
            var line := Indent + "Description: " + (if |d| <= 100 then d else d[..100] + "...") + "\n";
            EntryLines(index, c).Some? && line in EntryLines(index, c).value
  {
    var desc := DescriptionLines(Indent + "Description: ", Get(c.fields, "description", Null), 100).value;
    var d := Get(c.fields, "description", Null).s;
    assert desc == [Indent + "Description: " + (if |d| <= 100 then d else d[..100] + "...") + "\n"];
    var pre := [EntryTitle(index, c.fields)] + IdentityLines(Indent, c.fields) + TraitLines(Indent, c);
    assert EntryLines(index, c).value == pre + desc + EntryTail(c);
    assert EntryLines(index, c).value[|pre|] == desc[0];
  }

  const StatisticsHeader := "\n📈 Statistics:\n"
  const LinksHeader := "\n🔗 Links:\n"
  const ImagesHeader := "\n🖼️ Images:\n"

  /** The statistics section of the detailed view. */
  function StatisticsSection(c: Collection): (ls: seq<string>)
    ensures |ls| >= 1 && ls[0] == StatisticsHeader
  {
    var f := c.fields;
    var st := c.stats;
    [StatisticsHeader, FloorLine("", st)]
    + CountLines("", st)
    + VolumeLines("", st)
    + HighestSaleLines("", st)
    + TruthyLine("Created At: ", Get(f, "createdAt", Null))
    + TruthyLine("Updated At: ", Get(f, "updatedAt", Null))
  }

  /** The links section of the detailed view. */
  function LinksSection(f: Dict): (ls: seq<string>)
    ensures |ls| >= 1 && ls[0] == LinksHeader
  {
    [LinksHeader]
    + SocialLinks("", f)
    + TruthyLine("Medium: ", Get(f, "medium", Null))
    + TruthyLine("Reddit: ", Get(f, "reddit", Null))
  }

  /** The images section of the detailed view. */
  function ImagesSection(f: Dict): (ls: seq<string>)
    ensures |ls| >= 1 && ls[0] == ImagesHeader
  {
    [ImagesHeader]
    + TruthyLine("Poster: ", Get(f, "poster", Null))
    + TruthyLine("Banner: ", Get(f, "banner", Null))
    + TruthyLine("Thumbnail: ", Get(f, "thumbnail", Null))
    + TruthyLine("Marketing: ", Get(f, "marketing", Null))
  }

  function DetailedTitle(f: Dict): string
  {
    "Name: " + Show(Get(f, "name", Str(UnknownName))) + "\n"
  }

  /** The lines of `_format_detailed_nft_info(nft)`. */
  function DetailedLines(c: Collection): (r: Option<seq<string>>)
    ensures r.None? <==> DescriptionLines("\nDescription: ", Get(c.fields, "description", Null), 200).None?
    ensures r.Some? ==> |r.value| >= 1 && r.value[0] == DetailedTitle(c.fields)
  {
    var desc := DescriptionLines("\nDescription: ", Get(c.fields, "description", Null), 200);
    if desc.None? then None
    else
      Some([DetailedTitle(c.fields)] + IdentityLines("", c.fields) + TraitLines("", c) + desc.value
           + DetailedSectionLines(c))
  }

  /** The statistics, links and images sections, whose headings appear in that order. */
  function DetailedSectionLines(c: Collection): (ls: seq<string>)
    ensures exists i, j, k :: 0 <= i < j < k < |ls| && ls[i] == StatisticsHeader && ls[j] == LinksHeader && ls[k] == ImagesHeader
  {
    var b := StatisticsSection(c);
    var l := LinksSection(c.fields);
    var m := ImagesSection(c.fields);
    PartHeads(b, l, m);
    var i, j, k := 0, |b|, |b| + |l|;
    assert 0 <= i < j < k < |b + l + m| && (b + l + m)[i] == StatisticsHeader
           && (b + l + m)[j] == LinksHeader && (b + l + m)[k] == ImagesHeader;
    b + l + m
  }

  /** `_format_detailed_nft_info`; None when it raises. */
  function DetailedNft(c: Collection): Option<string>
  {
    var lines := DetailedLines(c);
    if lines.None? then None else Some(Concat(lines.value))
  }

  /** The detailed view always has its three section headings, in order, whatever fields are
      missing; its description is cut at 200 characters. */
  lemma DetailedSections(c: Collection)
    requires DetailedLines(c).Some?
    ensures var ls := DetailedLines(c).value;
            exists i, j, k :: 0 <= i < j < k < |ls| && ls[i] == StatisticsHeader && ls[j] == LinksHeader && ls[k] == ImagesHeader
  {
    var ls := DetailedLines(c).value;
    var desc := DescriptionLines("\nDescription: ", Get(c.fields, "description", Null), 200).value;
    var head := [DetailedTitle(c.fields)] + IdentityLines("", c.fields) + TraitLines("", c) + desc;
    var tail := DetailedSectionLines(c);
    assert ls == head + tail;
    ShiftHeads(head, tail, StatisticsHeader, LinksHeader, ImagesHeader);
  }

  /** Three items that appear in order in `t` still do behind a prefix. */
  lemma ShiftHeads<T>(h: seq<T>, t: seq<T>, x: T, y: T, z: T)
    requires exists i, j, k :: 0 <= i < j < k < |t| && t[i] == x && t[j] == y && t[k] == z
    ensures exists i, j, k :: 0 <= i < j < k < |h + t| && (h + t)[i] == x && (h + t)[j] == y && (h + t)[k] == z
  {
    var i, j, k :| 0 <= i < j < k < |t| && t[i] == x && t[j] == y && t[k] == z;
    assert (h + t)[|h| + i] == x && (h + t)[|h| + j] == y && (h + t)[|h| + k] == z;
  }


  /** Where the first elements of the last three parts of a concatenation sit. */
  lemma PartHeads<T>(b: seq<T>, l: seq<T>, m: seq<T>)
    requires |b| >= 1 && |l| >= 1 && |m| >= 1
    ensures var s := b + l + m;
            |b| + |l| < |s| && s[0] == b[0] && s[|b|] == l[0] && s[|b| + |l|] == m[0]
  {
  }

  lemma DetailedDescription(c: Collection)
    requires Get(c.fields, "description", Null).Str? && Get(c.fields, "description", Null).s != ""
    ensures var d := Get(c.fields, "description", Null).s;
            var line := "\nDescription: " + (if |d| <= 200 then d else d[..200] + "...") + "\n";
            DetailedLines(c).Some? && line in DetailedLines(c).value
  {
    var desc := DescriptionLines("\nDescription: ", Get(c.fields, "description", Null), 200).value;
    var pre := [DetailedTitle(c.fields)] + IdentityLines("", c.fields) + TraitLines("", c);
    var post := DetailedSectionLines(c);
    assert DetailedLines(c).value == pre + desc + post;
    assert (pre + desc + post)[|pre|] == desc[0];
  }

  // ---------------------------------------------------------------------------------------
  // Handlers

  const HotNftsError := "Failed to get hot NFTs: "
  const InfoError := "Failed to get NFT info: "

  const HotNftsHeader := "🔥 Hot NFT Collections\n\n"
  const HotNftsFailure := FailureMark + " Failed to get hot NFT collections. Please try again later."
  const InfoHeader := "📊 NFT Collection Information\n\n"

  function InfoFailure(address: string): (text: string)
    ensures StartsWith(text, FailureMark)
  {
    StartsWithPrefix(FailureMark, " Failed to get NFT information for address " + address + ". Please try again later.");
    FailureMark + (" Failed to get NFT information for address " + address + ". Please try again later.")
  }

  /** The entries of a list, numbered from 1; None when one of them raises. */
  function NftEntries(cs: seq<Collection>): Option<string>
  {
    Numbered(NftEntry, cs)
  }


  /** `handle_hot_nfts` given the outcome of `get_hot_nfts`. */
  function HotNftsText(r: Result<seq<Collection>>): string
  {
    match r
    case Err(_) => HotNftsFailure
    case Ok(cs) =>
      match NftEntries(cs)
      case None => HotNftsFailure
      case Some(body) => HotNftsHeader + body
  }

  /** `handle_nft_info` given the outcome of `get_nft_info`. */
  function InfoText(address: string, r: Result<Collection>): string
  {
    match r
    case Err(_) => InfoFailure(address)
    case Ok(c) =>
      match DetailedNft(c)
      case None => InfoFailure(address)
      case Some(text) => InfoHeader + text
  }

  lemma NftEntriesFail(cs: seq<Collection>)
    ensures NftEntries(cs).None? <==> exists i :: 0 <= i < |cs| && NftEntry(i + 1, cs[i]).None?
  {
    NumberedFails(NftEntry, cs);
  }


  /** `handle_hot_nfts` never raises: it answers with a message starting with "❌" exactly when
      the lookup raised or an entry could not be rendered. */
  lemma HotNftsFailureMarked(r: Result<seq<Collection>>)
    ensures StartsWith(HotNftsText(r), FailureMark) <==> r.Err? || NftEntries(r.value).None?
  {
    assert HotNftsFailure[..1] == FailureMark;
    if r.Err? {
      assert HotNftsText(r) == HotNftsFailure;
    } else {
      var e := NftEntries(r.value);
      if e.Some? {
        assert HotNftsText(r) == HotNftsHeader + e.value;
        assert !StartsWith(HotNftsHeader + e.value, FailureMark) by {
          assert (HotNftsHeader + e.value)[0] == '🔥';
          assert FailureMark[0] == '❌';
        }
      } else {
        assert HotNftsText(r) == HotNftsFailure;
      }
    }
  }

  /** `handle_nft_info` likewise, naming the address it was asked for. */
  lemma InfoFailureMarked(address: string, r: Result<Collection>)
    ensures StartsWith(InfoText(address, r), FailureMark) <==> r.Err? || DetailedNft(r.value).None?
    ensures StartsWith(InfoText(address, r), FailureMark) ==> InfoText(address, r) == InfoFailure(address)
  {
    if r.Ok? {
      var d := DetailedNft(r.value);
      if d.Some? {
        assert InfoHeader[0] == '📊' && FailureMark[0] == '❌';
        HeadedIsNotFailure(InfoHeader, d.value);
      }
    }
  }

  /** The JSON handlers' reply: `{"status": "success", "data": ...}` or
      `{"status": "error", "message": ...}`. */
  datatype Envelope<T> = Success(data: T) | Error(message: string)

  /** The JSON envelope for a lookup outcome; the raised message already carries `prefix`,
      which is put in front a second time. */
  function EnvelopeOf<T>(prefix: string, r: Result<T>): (e: Envelope<T>)
    ensures e.Success? <==> r.Ok?
    ensures r.Ok? ==> e.data == r.value
    ensures r.Err? ==> StartsWith(e.message, prefix) && e.message[|prefix|..] == r.error
  {
    match r
    case Ok(v) => Success(v)
    case Err(msg) => Error(prefix + msg)
  }

  /** A failed hot-list request with nothing cached reports the prefix twice. */
  lemma JsonErrorDoublePrefix(s: CacheState, limit: int, now: int, reason: string)
    requires s.hotNfts.None?
    ensures EnvelopeOf(HotNftsError, HotNftsStep(s, limit, now, FetchFailed(reason)).result)
         == Error(HotNftsError + HotNftsError + reason)
  {
    ConcatAssoc(HotNftsError, HotNftsError, reason);
  }

  // ---------------------------------------------------------------------------------------
  // The handler class, with the cache as its state

  class NftInfoHandler {
    var hotNfts: Option<seq<Collection>>
    var nftInfo: map<string, Collection>
    var lastUpdate: Option<int>

    function State(): CacheState
      reads this
    {
      CacheState(hotNfts, nftInfo, lastUpdate)
    }

    constructor()
      ensures State() == Initial
    {
      hotNfts := None;
      nftInfo := map[];
      lastUpdate := None;
    }

    /** `get_hot_nfts`; `fetched` tells whether the request was issued. */
    method GetHotNfts(limit: int, now: int, response: Fetch<Option<seq<Collection>>>)
      returns (r: Result<seq<Collection>>, fetched: bool)
      modifies this
      ensures Step(State(), r, fetched) == HotNftsStep(old(State()), limit, now, response)
    {
      if hotNfts.Some? && lastUpdate.Some? && now - lastUpdate.value < CacheDuration {
        return Ok(Take(hotNfts.value, limit)), false;
      }
      fetched := true;
      if response.Fetched? {
        var collections := CollectionsOf(response.body);
        hotNfts := Some(collections);
        lastUpdate := Some(now);
        return Ok(Take(collections, limit)), fetched;
      }
      if hotNfts.Some? {
        return Ok(Take(hotNfts.value, limit)), fetched;
      }
      r := Err(HotNftsError + response.reason);
    }

    /** `get_nft_info`; `fetched` tells whether the request was issued. */
    method GetNftInfo(address: string, now: int, response: Fetch<Option<Collection>>)
      returns (r: Result<Collection>, fetched: bool)
      modifies this
      ensures Step(State(), r, fetched) == InfoStep(old(State()), address, now, response)
    {
      if address in nftInfo && lastUpdate.Some? && now - lastUpdate.value < CacheDuration {
        return Ok(nftInfo[address]), false;
      }
      fetched := true;
      if response.Fetched? {
        var c := CollectionOf(response.body);
        nftInfo := nftInfo[address := c];
        lastUpdate := Some(now);
        return Ok(c), fetched;
      }
      if address in nftInfo {
        return Ok(nftInfo[address]), fetched;
      }
      r := Err(InfoError + response.reason);
    }

    /** `handle_hot_nfts`: the numbered entries under a header, or the failure message. */
    method HandleHotNfts(limit: int, now: int, response: Fetch<Option<seq<Collection>>>) returns (text: string)
      modifies this
      ensures var st := HotNftsStep(old(State()), limit, now, response);
              State() == st.state && text == HotNftsText(st.result)
    {
      var hot, _ := GetHotNfts(limit, now, response);
      if hot.Err? {
        return HotNftsFailure;
      }
      var entries := AppendNftEntries(HotNftsHeader, hot.value);
      if entries.None? {
        return HotNftsFailure;
      }
      text := entries.value;
    }

    /** `handle_nft_info`: the detailed view under a header, or the failure message. */
    method HandleNftInfo(address: string, now: int, response: Fetch<Option<Collection>>) returns (text: string)
      modifies this
      ensures var st := InfoStep(old(State()), address, now, response);
              State() == st.state && text == InfoText(address, st.result)
    {
      var info, _ := GetNftInfo(address, now, response);
      if info.Err? {
        return InfoFailure(address);
      }
      var detail := DetailedNft(info.value);
      if detail.None? {
        return InfoFailure(address);
      }
      text := InfoHeader + detail.value;
    }

    /** `handle_hot_nfts_json` */
    method HandleHotNftsJson(limit: int, now: int, response: Fetch<Option<seq<Collection>>>)
      returns (e: Envelope<seq<Collection>>)
      modifies this
      ensures var st := HotNftsStep(old(State()), limit, now, response);
              State() == st.state && e == EnvelopeOf(HotNftsError, st.result)
    {
      var hot, _ := GetHotNfts(limit, now, response);
      if hot.Err? {
        return Error(HotNftsError + hot.error);
      }
      e := Success(hot.value);
    }

    /** `handle_nft_info_json` */
    method HandleNftInfoJson(address: string, now: int, response: Fetch<Option<Collection>>)
      returns (e: Envelope<Collection>)
      modifies this
      ensures var st := InfoStep(old(State()), address, now, response);
              State() == st.state && e == EnvelopeOf(InfoError, st.result)
    {
      var info, _ := GetNftInfo(address, now, response);
      if info.Err? {
        return Error(InfoError + info.error);
      }
      e := Success(info.value);
    }
  }

  /** The loop of `handle_hot_nfts` appending the numbered entries to `prefix`; None when one
      of them raises. */
  method AppendNftEntries(prefix: string, cs: seq<Collection>) returns (r: Option<string>)
    ensures r.None? <==> NftEntries(cs).None?
    ensures r.Some? ==> r.value == prefix + NftEntries(cs).value
  {
    var text := prefix;
    ghost var body := "";
    var i := 0;
    while i < |cs|
      invariant 0 <= i <= |cs|
      invariant text == prefix + body
      invariant NftEntries(cs[..i]) == Some(body)
    {
      var entry := NftEntry(i + 1, cs[i]);
      if entry.None? {
        NumberedStepFails(NftEntry, cs, i);
        NumberedPrefixFails(NftEntry, cs, i + 1);
        return None;
      }
      NumberedStep(NftEntry, cs, i, body, entry.value);
      ConcatAssoc(prefix, body, entry.value);
      text := text + entry.value;
      body := body + entry.value;
      i := i + 1;
    }
    assert cs[..|cs|] == cs;
    r := Some(text);
  }
}
