/** The hot-token list of `TokenInfoHandler`: DexScreener trading pairs are filtered to the
    Sonic chain, grouped by base-token address (24h volume summed, liquidity maximised, the
    descriptive fields of the first pair kept), ranked by summed volume with a stable sort and
    cut to `limit`; then each entry is rendered as numbered text. */
module TokenInfo {
  import opened Common

  const SonicChain := "sonic"

  /** A price as the formatter finds it: text that `float()` accepts, or text it rejects. */
  datatype Num = Parsed(value: real) | Unparsed(text: string)

  /** An entry of `info.websites`: a dictionary (with its `url`, if it has one) or anything else. */
  datatype Website = WebsiteDict(url: Option<string>) | WebsiteOther

  /** An entry of `info.socials`: a dictionary with optional `type` and `url`, or anything else. */
  datatype Social = SocialDict(kind: Option<string>, url: Option<string>) | SocialOther

  /** One DexScreener pair. `volume24h` and `liquidityUsd` are None when the field is missing,
      null, zero-like or not a number; `marketCap` is None when `float()` rejects it. */
  datatype Pair = Pair(
    chainId: Option<string>,
    baseAddress: Option<string>,
    baseName: Option<string>,
    baseSymbol: Option<string>,
    volume24h: Option<real>,
    liquidityUsd: Option<real>,
    priceUsd: Option<Num>,
    priceNative: Option<Num>,
    url: Option<string>,
    websites: seq<Website>,
    socials: seq<Social>,
    imageUrl: Option<string>,
    marketCap: Option<real>,
    priceChange24h: Option<string>)

  /** The fields of a token record that are copied from the first pair seen for it. */
  datatype Descr = Descr(
    name: Option<string>,
    symbol: Option<string>,
    priceUsd: Option<Num>,
    priceNative: Option<Num>,
    chainId: Option<string>,
    url: Option<string>,
    websites: seq<Website>,
    socials: seq<Social>,
    imageUrl: Option<string>,
    marketCap: Option<real>,
    priceChange24h: Option<string>)

  /** One entry of the hot-token list, keyed by base-token address. */
  datatype TokenInfo = TokenInfo(
    address: Option<string>,
    descr: Descr,
    totalVolume24h: real,
    maxLiquidityUsd: real)

  type Key = Option<string>

  predicate IsSonic(p: Pair)
  {
    p.chainId == Some(SonicChain)
  }

  /** `float(volume.h24 or 0)`, with an unparseable value counted as 0. */
  function VolumeOf(p: Pair): real
  {
    if p.volume24h.Some? then p.volume24h.value else 0.0
  }

  /** `float(liquidity.usd or 0)`, with an unparseable value counted as 0. */
  function LiquidityOf(p: Pair): real
  {
    if p.liquidityUsd.Some? then p.liquidityUsd.value else 0.0
  }

  function RealMax(a: real, b: real): real
  {
    if a >= b then a else b
  }

  function Describe(p: Pair): Descr
  {
    Descr(p.baseName, p.baseSymbol, p.priceUsd, p.priceNative, p.chainId, p.url,
          p.websites, p.socials, p.imageUrl, p.marketCap, p.priceChange24h)
  }

  /** The pairs on the Sonic chain, in input order. */
  function SonicPairs(ps: seq<Pair>): (r: seq<Pair>)
    ensures |r| <= |ps|
    ensures forall p :: p in r ==> IsSonic(p) && p in ps
    ensures forall i :: 0 <= i < |ps| && IsSonic(ps[i]) ==> ps[i] in r
  {
    if ps == [] then []
    else
      var pre := ps[..|ps| - 1];
      assert forall i :: 0 <= i < |pre| ==> pre[i] == ps[i];
      SonicPairs(pre) + (if IsSonic(ps[|ps| - 1]) then [ps[|ps| - 1]] else [])
  }

  /** One more pair extends the kept pairs by itself when it is a Sonic pair, and leaves them
      as they are otherwise: the kept pairs are in input order. */
  lemma SonicPairsAppend(ps: seq<Pair>, p: Pair)
    ensures SonicPairs(ps + [p]) == SonicPairs(ps) + (if IsSonic(p) then [p] else [])
  {
    assert (ps + [p])[..|ps|] == ps;
  }

  // ---------------------------------------------------------------------------------------
  // Reference definitions, one address at a time

  /** Sum of the 24h volumes of the pairs whose base token is `k`. */
  function VolumeSum(ps: seq<Pair>, k: Key): real
  {
    if ps == [] then 0.0
    else VolumeSum(ps[..|ps| - 1], k) + (if ps[|ps| - 1].baseAddress == k then VolumeOf(ps[|ps| - 1]) else 0.0)
  }

  /** The largest liquidity among the pairs whose base token is `k`, and never below 0. */
  function LiquidityMax(ps: seq<Pair>, k: Key): (m: real)
    ensures m >= 0.0
    ensures forall i :: 0 <= i < |ps| && ps[i].baseAddress == k ==> LiquidityOf(ps[i]) <= m
    ensures m == 0.0 || exists i :: 0 <= i < |ps| && ps[i].baseAddress == k && LiquidityOf(ps[i]) == m
  {
    if ps == [] then 0.0
    else
      var m := LiquidityMax(ps[..|ps| - 1], k);
      var last := ps[|ps| - 1];
      assert forall i :: 0 <= i < |ps| - 1 ==> ps[..|ps| - 1][i] == ps[i];
      if last.baseAddress == k then RealMax(m, LiquidityOf(last)) else m
  }

  /** Index of the first pair whose base token is `k`, or -1 when there is none. */
  function FirstPos(ps: seq<Pair>, k: Key): (r: int)
    ensures -1 <= r < |ps|
    ensures r >= 0 ==> ps[r].baseAddress == k && forall i :: 0 <= i < r ==> ps[i].baseAddress != k
    ensures r < 0 ==> forall i :: 0 <= i < |ps| ==> ps[i].baseAddress != k
  {
    if ps == [] then -1
    else
      var f := FirstPos(ps[..|ps| - 1], k);
      assert forall i :: 0 <= i < |ps| - 1 ==> ps[..|ps| - 1][i] == ps[i];
      if f >= 0 then f else if ps[|ps| - 1].baseAddress == k then |ps| - 1 else -1
  }

  /** The record the aggregation should hold for an address that occurs in `ps`. */
  function Expected(ps: seq<Pair>, k: Key): TokenInfo
    requires FirstPos(ps, k) >= 0
  {
    TokenInfo(k, Describe(ps[FirstPos(ps, k)]), VolumeSum(ps, k), LiquidityMax(ps, k))
  }

  // ---------------------------------------------------------------------------------------
  // The aggregation loop, as a fold

  /** `tokens_info`: an insertion-ordered dictionary from address to record. */
  datatype Table = Table(order: seq<Key>, rows: map<Key, TokenInfo>)

  /** One iteration of the loop over the Sonic pairs: create the record on first sight, then
      add the pair's volume and raise the liquidity maximum. */
  function Absorb(t: Table, p: Pair): Table
  {
    var k := p.baseAddress;
    var rows := if k in t.rows then t.rows else t.rows[k := TokenInfo(k, Describe(p), 0.0, 0.0)];
    var row := rows[k];
    Table(if k in t.rows then t.order else t.order + [k],
          rows[k := row.(totalVolume24h := row.totalVolume24h + VolumeOf(p),
                         maxLiquidityUsd := RealMax(row.maxLiquidityUsd, LiquidityOf(p)))])
  }

  function Aggregate(ps: seq<Pair>): (t: Table)
    ensures forall k :: k in t.order <==> k in t.rows
  {
    if ps == [] then Table([], map[]) else Absorb(Aggregate(ps[..|ps| - 1]), ps[|ps| - 1])
  }

  lemma {:induction false} NoMatchIsZero(ps: seq<Pair>, k: Key)
    requires FirstPos(ps, k) < 0
    ensures VolumeSum(ps, k) == 0.0 && LiquidityMax(ps, k) == 0.0
  {
    if ps != [] {
      NoMatchIsZero(ps[..|ps| - 1], k);
    }
  }

  /** An address has a record exactly when some pair carries it. */
  lemma {:induction false} AggregateHas(ps: seq<Pair>, k: Key)
    ensures k in Aggregate(ps).rows <==> FirstPos(ps, k) >= 0
  {
    if ps != [] {
      AggregateHas(ps[..|ps| - 1], k);
    }
  }

  /** The record of an address is the reference record. */
  lemma {:induction false} AggregateRow(ps: seq<Pair>, k: Key)
    requires k in Aggregate(ps).rows
    ensures FirstPos(ps, k) >= 0 && Aggregate(ps).rows[k] == Expected(ps, k)
  {
    AggregateHas(ps, k);
    var pre := ps[..|ps| - 1];
    var p := ps[|ps| - 1];
    AggregateHas(pre, k);
    if k in Aggregate(pre).rows {
      AggregateRow(pre, k);
      assert ps[FirstPos(ps, k)] == pre[FirstPos(pre, k)];
    } else {
      NoMatchIsZero(pre, k);
      assert FirstPos(ps, k) == |pre|;
    }
  }

  /** Addresses are listed in the order they were first seen. */
  lemma {:induction false} AggregateOrder(ps: seq<Pair>)
    ensures forall i, j :: 0 <= i < j < |Aggregate(ps).order| ==>
              FirstPos(ps, Aggregate(ps).order[i]) < FirstPos(ps, Aggregate(ps).order[j])
  {
    if ps != [] {
      var pre := ps[..|ps| - 1];
      var k := ps[|ps| - 1].baseAddress;
      var t0 := Aggregate(pre);
      var t := Aggregate(ps);
      AggregateOrder(pre);
      forall i, j | 0 <= i < j < |t.order|
        ensures FirstPos(ps, t.order[i]) < FirstPos(ps, t.order[j])
      {
        AggregateHas(pre, t.order[i]);
        if j < |t0.order| {
          AggregateHas(pre, t.order[j]);
        } else {
          AggregateHas(pre, k);
        }
      }
    }
  }

  /** The fold holds one record per address occurring in the pairs, equal to the reference
      record, and lists the addresses in the order they were first seen. */
  lemma AggregateSpec(ps: seq<Pair>)
    ensures forall k :: k in Aggregate(ps).rows <==> FirstPos(ps, k) >= 0
    ensures forall k :: k in Aggregate(ps).rows ==> Aggregate(ps).rows[k] == Expected(ps, k)
    ensures forall i, j :: 0 <= i < j < |Aggregate(ps).order| ==>
              FirstPos(ps, Aggregate(ps).order[i]) < FirstPos(ps, Aggregate(ps).order[j])
  {
    forall k
      ensures k in Aggregate(ps).rows <==> FirstPos(ps, k) >= 0
      ensures k in Aggregate(ps).rows ==> Aggregate(ps).rows[k] == Expected(ps, k)
    {
      AggregateHas(ps, k);
      if k in Aggregate(ps).rows {
        AggregateRow(ps, k);
      }
    }
    AggregateOrder(ps);
  }

  /** The records of a table in insertion order: `tokens_info.values()`. */
  function Values(t: Table): (vs: seq<TokenInfo>)
    requires forall k :: k in t.order ==> k in t.rows
    ensures |vs| == |t.order|
    ensures forall i :: 0 <= i < |vs| ==> vs[i] == t.rows[t.order[i]]
  {
    seq(|t.order|, i requires 0 <= i < |t.order| => t.rows[t.order[i]])
  }

  // ---------------------------------------------------------------------------------------
  // `sorted(..., key=total_volume_24h, reverse=True)`: a stable sort, highest volume first

  function InsertByVolume(x: TokenInfo, s: seq<TokenInfo>): seq<TokenInfo>
  {
    if s == [] || x.totalVolume24h >= s[0].totalVolume24h then [x] + s
    else [s[0]] + InsertByVolume(x, s[1..])
  }

  function SortByVolume(s: seq<TokenInfo>): seq<TokenInfo>
  {
    if s == [] then [] else InsertByVolume(s[0], SortByVolume(s[1..]))
  }

  ghost predicate NonIncreasing(s: seq<TokenInfo>)
  {
    forall i, j :: 0 <= i < j < |s| ==> s[i].totalVolume24h >= s[j].totalVolume24h
  }

  ghost predicate DistinctAddresses(s: seq<TokenInfo>)
  {
    forall i, j :: 0 <= i < j < |s| ==> s[i].address != s[j].address
  }

  /** The entries whose total volume is `v`, in their order in `s`. */
  function WithVolume(s: seq<TokenInfo>, v: real): seq<TokenInfo>
  {
    if s == [] then [] else (if s[0].totalVolume24h == v then [s[0]] else []) + WithVolume(s[1..], v)
  }

  lemma {:induction false} InsertMembers(x: TokenInfo, s: seq<TokenInfo>)
    ensures multiset(InsertByVolume(x, s)) == multiset{x} + multiset(s)
    ensures forall y :: y in InsertByVolume(x, s) <==> y == x || y in s
  {
    if s != [] && x.totalVolume24h < s[0].totalVolume24h {
      InsertMembers(x, s[1..]);
      assert s == [s[0]] + s[1..];
    }
  }

  lemma {:induction false} InsertSorted(x: TokenInfo, s: seq<TokenInfo>)
    requires NonIncreasing(s)
    ensures NonIncreasing(InsertByVolume(x, s))
  {
    var r := InsertByVolume(x, s);
    if s == [] || x.totalVolume24h >= s[0].totalVolume24h {
      forall i, j | 0 <= i < j < |r| ensures r[i].totalVolume24h >= r[j].totalVolume24h {
        assert r[j] == s[j - 1];
        if i > 0 { assert r[i] == s[i - 1]; }
      }
    } else {
      var tail := InsertByVolume(x, s[1..]);
      InsertSorted(x, s[1..]);
      InsertMembers(x, s[1..]);
      assert r == [s[0]] + tail;
      forall i, j | 0 <= i < j < |r| ensures r[i].totalVolume24h >= r[j].totalVolume24h {
        assert r[j] == tail[j - 1];
        assert tail[j - 1] in tail;
        if i > 0 {
          assert r[i] == tail[i - 1];
        } else if r[j] != x {
          var m :| 0 <= m < |s[1..]| && s[1..][m] == r[j];
          assert s[m + 1] == r[j];
        }
      }
    }
  }

  lemma {:induction false} InsertStable(x: TokenInfo, s: seq<TokenInfo>, v: real)
    requires NonIncreasing(s)
    ensures WithVolume(InsertByVolume(x, s), v) == (if x.totalVolume24h == v then [x] else []) + WithVolume(s, v)
  {
    var r := InsertByVolume(x, s);
    if s == [] || x.totalVolume24h >= s[0].totalVolume24h {
      assert r[1..] == s;
      if s != [] && x.totalVolume24h > v {
        assert r == [x] + s;
      }
    } else {
      InsertStable(x, s[1..], v);
      assert r[1..] == InsertByVolume(x, s[1..]);
      if x.totalVolume24h == v {
        assert s[0].totalVolume24h > v;
      }
    }
  }

  lemma {:induction false} InsertDistinct(x: TokenInfo, s: seq<TokenInfo>)
    requires DistinctAddresses(s)
    requires forall y :: y in s ==> y.address != x.address
    ensures DistinctAddresses(InsertByVolume(x, s))
  {
    var r := InsertByVolume(x, s);
    if s == [] || x.totalVolume24h >= s[0].totalVolume24h {
      forall i, j | 0 <= i < j < |r| ensures r[i].address != r[j].address {
        assert r[j] == s[j - 1];
        if i > 0 { assert r[i] == s[i - 1]; }
      }
    } else {
      var tail := InsertByVolume(x, s[1..]);
      InsertDistinct(x, s[1..]);
      InsertMembers(x, s[1..]);
      assert r == [s[0]] + tail;
      forall i, j | 0 <= i < j < |r| ensures r[i].address != r[j].address {
        assert r[j] == tail[j - 1];
        assert tail[j - 1] in tail;
        if i > 0 {
          assert r[i] == tail[i - 1];
        } else if r[j] != x {
          var m :| 0 <= m < |s[1..]| && s[1..][m] == r[j];
          assert s[m + 1] == r[j];
        } else {
          assert s[0] in s;
        }
      }
    }
  }

  /** The ranking is in non-increasing volume order, a permutation of its input, and stable:
      the entries of any one volume keep their input order. */
  lemma {:induction false} SortFacts(s: seq<TokenInfo>)
    ensures NonIncreasing(SortByVolume(s))
    ensures multiset(SortByVolume(s)) == multiset(s)
    ensures forall v :: WithVolume(SortByVolume(s), v) == WithVolume(s, v)
    ensures DistinctAddresses(s) ==> DistinctAddresses(SortByVolume(s))
  {
    SortSorted(s);
    SortPermutes(s);
    forall v ensures WithVolume(SortByVolume(s), v) == WithVolume(s, v) {
      SortStable(s, v);
    }
    if DistinctAddresses(s) {
      SortDistinct(s);
    }
  }

  lemma {:induction false} SortSorted(s: seq<TokenInfo>)
    ensures NonIncreasing(SortByVolume(s))
  {
    if s != [] {
      SortSorted(s[1..]);
      InsertSorted(s[0], SortByVolume(s[1..]));
    }
  }

  lemma {:induction false} SortPermutes(s: seq<TokenInfo>)
    ensures multiset(SortByVolume(s)) == multiset(s)
  {
    if s != [] {
      SortPermutes(s[1..]);
      InsertMembers(s[0], SortByVolume(s[1..]));
      assert s == [s[0]] + s[1..];
    }
  }

  lemma {:induction false} SortStable(s: seq<TokenInfo>, v: real)
    ensures WithVolume(SortByVolume(s), v) == WithVolume(s, v)
  {
    if s != [] {
      SortStable(s[1..], v);
      SortSorted(s[1..]);
      InsertStable(s[0], SortByVolume(s[1..]), v);
      assert s == [s[0]] + s[1..];
    }
  }

  lemma {:induction false} SortDistinct(s: seq<TokenInfo>)
    requires DistinctAddresses(s)
    ensures DistinctAddresses(SortByVolume(s))
  {
    if s != [] {
      var rest := SortByVolume(s[1..]);
      assert DistinctAddresses(s[1..]);
      SortDistinct(s[1..]);
      SortPermutes(s[1..]);
      forall y | y in rest ensures y.address != s[0].address {
        assert y in multiset(rest);
        var m :| 0 <= m < |s[1..]| && s[1..][m] == y;
        assert s[m + 1] == y;
      }
      InsertDistinct(s[0], rest);
    }
  }


  // ---------------------------------------------------------------------------------------
  // `get_hot_tokens`

  /** All aggregated Sonic tokens, highest summed volume first. */
  function Ranked(ps: seq<Pair>): seq<TokenInfo>
  {
    SortByVolume(Values(Aggregate(SonicPairs(ps))))
  }

  function HotTokens(ps: seq<Pair>, limit: int): seq<TokenInfo>
  {
    Take(Ranked(ps), limit)
  }

  /** The records of the fold, in insertion order, are the reference records of the addresses
      in first-seen order; so no address occurs twice. */
  lemma ValuesSpec(sonic: seq<Pair>)
    ensures var t := Aggregate(sonic);
            forall i :: 0 <= i < |t.order| ==>
              FirstPos(sonic, t.order[i]) >= 0 && Values(t)[i] == Expected(sonic, t.order[i])
    ensures DistinctAddresses(Values(Aggregate(sonic)))
  {
    var t := Aggregate(sonic);
    var vs := Values(t);
    AggregateSpec(sonic);
    forall i, j | 0 <= i < j < |vs| ensures vs[i].address != vs[j].address {
      assert vs[i].address == t.order[i];
      assert vs[j].address == t.order[j];
    }
  }

  lemma ValuesAt(sonic: seq<Pair>, i: int)
    requires 0 <= i < |Aggregate(sonic).order|
    ensures var t := Aggregate(sonic);
            FirstPos(sonic, t.order[i]) >= 0 && Values(t)[i] == Expected(sonic, t.order[i])
            && Values(t)[i].address == t.order[i]
  {
    var t := Aggregate(sonic);
    AggregateRow(sonic, t.order[i]);
  }

  lemma SortMembers(s: seq<TokenInfo>, x: TokenInfo)
    ensures x in SortByVolume(s) <==> x in s
  {
    SortFacts(s);
    assert x in SortByVolume(s) <==> x in multiset(SortByVolume(s));
  }

  /** Every ranked record is the reference record of a Sonic address. */
  lemma RankedRecords(ps: seq<Pair>)
    ensures var sonic := SonicPairs(ps);
            forall t :: t in Ranked(ps) ==> FirstPos(sonic, t.address) >= 0 && t == Expected(sonic, t.address)
  {
    var sonic := SonicPairs(ps);
    var t := Aggregate(sonic);
    var vs := Values(t);
    assert Ranked(ps) == SortByVolume(vs);
    forall x | x in Ranked(ps)
      ensures FirstPos(sonic, x.address) >= 0 && x == Expected(sonic, x.address)
    {
      SortMembers(vs, x);
      var i :| 0 <= i < |vs| && vs[i] == x;
      ValuesAt(sonic, i);
    }
  }

  /** Every address carried by a Sonic pair is ranked. */
  lemma RankedComplete(ps: seq<Pair>)
    ensures var sonic := SonicPairs(ps);
            forall k :: FirstPos(sonic, k) >= 0 ==> exists t :: t in Ranked(ps) && t.address == k
  {
    var sonic := SonicPairs(ps);
    var t := Aggregate(sonic);
    var vs := Values(t);
    forall k | FirstPos(sonic, k) >= 0
      ensures exists x :: x in Ranked(ps) && x.address == k
    {
      AggregateHas(sonic, k);
      assert k in t.order;
      var i :| 0 <= i < |t.order| && t.order[i] == k;
      ValuesAt(sonic, i);
      assert vs[i] in vs;
      SortMembers(vs, vs[i]);
      assert vs[i] in Ranked(ps) && vs[i].address == k;
    }
  }

  /** What `get_hot_tokens` promises about its list: only Sonic pairs count; one record per
      base-token address, holding the summed volume, the maximum liquidity (from 0) and the
      descriptive fields of the first Sonic pair for it; every such address is ranked; the
      ranking is by non-increasing volume, and entries of equal volume stay in first-seen order. */
  lemma RankedSpec(ps: seq<Pair>)
    ensures var sonic := SonicPairs(ps);
            forall t :: t in Ranked(ps) ==> FirstPos(sonic, t.address) >= 0 && t == Expected(sonic, t.address)
    ensures var sonic := SonicPairs(ps);
            forall k :: FirstPos(sonic, k) >= 0 ==> exists t :: t in Ranked(ps) && t.address == k
    ensures NonIncreasing(Ranked(ps))
    ensures DistinctAddresses(Ranked(ps))
    ensures var t := Aggregate(SonicPairs(ps));
            && (forall i, j :: 0 <= i < j < |t.order| ==> FirstPos(SonicPairs(ps), t.order[i]) < FirstPos(SonicPairs(ps), t.order[j]))
            && (forall v :: WithVolume(Ranked(ps), v) == WithVolume(Values(t), v))
  {
    var sonic := SonicPairs(ps);
    RankedRecords(ps);
    RankedComplete(ps);
    ValuesSpec(sonic);
    AggregateOrder(sonic);
    SortFacts(Values(Aggregate(sonic)));
  }

  /** The list is a prefix of the ranking, of at most `limit` entries for a non-negative
      `limit`; a negative `limit` drops that many entries from the end, as Python slicing does. */
  lemma HotTokensSpec(ps: seq<Pair>, limit: int)
    ensures var r := HotTokens(ps, limit);
            && r == Ranked(ps)[..|r|]
            && (limit >= 0 ==> |r| <= limit)
            && (limit >= |Ranked(ps)| ==> r == Ranked(ps))
            && (limit < 0 ==> |r| == if |Ranked(ps)| + limit > 0 then |Ranked(ps)| + limit else 0)
  {
  }

  /** A pair from another chain changes nothing. */
  lemma {:induction false} NonSonicPairIgnored(ps: seq<Pair>, p: Pair, limit: int)
    requires !IsSonic(p)
    ensures HotTokens(ps + [p], limit) == HotTokens(ps, limit)
  {
    assert (ps + [p])[..|ps|] == ps;
    assert SonicPairs(ps + [p]) == SonicPairs(ps);
  }

  /** A further Sonic pair adds its volume to its own address and to no other. */
  lemma {:induction false} SonicPairAddsVolume(ps: seq<Pair>, p: Pair, k: Key)
    requires IsSonic(p)
    ensures VolumeSum(SonicPairs(ps + [p]), k)
         == VolumeSum(SonicPairs(ps), k) + (if p.baseAddress == k then VolumeOf(p) else 0.0)
  {
    assert (ps + [p])[..|ps|] == ps;
    var s := SonicPairs(ps + [p]);
    assert s == SonicPairs(ps) + [p];
    assert s[..|s| - 1] == SonicPairs(ps);
  }

  /** The loop of `get_hot_tokens`, run on the response of the DexScreener search. */
  method GetHotTokens(response: Fetch<seq<Pair>>, limit: int) returns (r: Result<seq<TokenInfo>>)
    ensures response.FetchFailed? ==> r == Err("Failed to get hot tokens: " + response.reason)
    ensures response.Fetched? ==> r == Ok(HotTokens(response.body, limit))
  {
    if response.FetchFailed? {
      return Err("Failed to get hot tokens: " + response.reason);
    }
    var sonic := SonicPairs(response.body);
    var order: seq<Key> := [];
    var rows: map<Key, TokenInfo> := map[];
    var i := 0;
    while i < |sonic|
      invariant 0 <= i <= |sonic|
      invariant Table(order, rows) == Aggregate(sonic[..i])
    {
      var p := sonic[i];
      var k := p.baseAddress;
      assert sonic[..i + 1][..i] == sonic[..i];
      assert Aggregate(sonic[..i + 1]) == Absorb(Table(order, rows), p);
      if k !in rows {
        rows := rows[k := TokenInfo(k, Describe(p), 0.0, 0.0)];
        order := order + [k];
      }
      var row := rows[k];
      rows := rows[k := row.(totalVolume24h := row.totalVolume24h + VolumeOf(p),
                             maxLiquidityUsd := RealMax(row.maxLiquidityUsd, LiquidityOf(p)))];
      i := i + 1;
    }
    assert sonic[..|sonic|] == sonic;
    var ranked := SortByVolume(Values(Table(order, rows)));
    r := Ok(Take(ranked, limit));
  }

  // ---------------------------------------------------------------------------------------
  // `_format_token_info` and `handle_hot_tokens`

  const HotTokensHeader := "🔥 Hot Tokens on Sonic Chain\n\n"
  const HotTokensFailure := "❌ Failed to get hot tokens. Please try again later."

  function ShowOpt(o: Option<string>): string
  {
    if o.Some? then o.value else "None"
  }

  predicate NonEmpty(o: Option<string>)
  {
    o.Some? && o.value != ""
  }

  function UpperChar(c: char): char
  {
    if 'a' <= c <= 'z' then (c as int - 32) as char else c
  }

  function LowerChar(c: char): char
  {
    if 'A' <= c <= 'Z' then (c as int + 32) as char else c
  }

  function LowerAll(s: string): (r: string)
    ensures |r| == |s|
  {
    if s == [] then [] else [LowerChar(s[0])] + LowerAll(s[1..])
  }

  /** `str.capitalize` on ASCII letters: first letter upper case, the rest lower case. */
  function Capitalize(s: string): (r: string)
    ensures |r| == |s|
  {
    if s == [] then [] else [UpperChar(s[0])] + LowerAll(s[1..])
  }

  function OrEmpty(o: Option<string>): string
  {
    if o.Some? then o.value else ""
  }

  /** `f"    - {social_type}: {social_url}\n"` when both parts are non-empty. */
  function SocialEntry(kind: string, url: string): string
  {
    if kind != "" && url != "" then "    - " + kind + ": " + url + "\n" else ""
  }

  /** The line printed for one entry of `socials`. */
  function SocialLine(s: Social): string
  {
    match s
    case SocialOther => ""
    case SocialDict(kind, url) => SocialEntry(Capitalize(OrEmpty(kind)), OrEmpty(url))
  }

  /** A social line is printed exactly for a dictionary whose type and url are both non-empty. */
  lemma SocialLineShown(s: Social)
    ensures SocialLine(s) != "" <==> s.SocialDict? && NonEmpty(s.kind) && NonEmpty(s.url)
  {
  }

  function SocialLines(ss: seq<Social>): string
  {
    if ss == [] then "" else SocialLines(ss[..|ss| - 1]) + SocialLine(ss[|ss| - 1])
  }

  /** Lines of a concatenation of social lists are the concatenation of their lines. */
  lemma {:induction false} SocialLinesAppend(a: seq<Social>, b: seq<Social>)
    ensures SocialLines(a + b) == SocialLines(a) + SocialLines(b)
    decreases |b|
  {
    if b != [] {
      var b' := b[..|b| - 1];
      var ab := a + b;
      assert ab[..|ab| - 1] == a + b' && ab[|ab| - 1] == b[|b| - 1];
      SocialLinesAppend(a, b');
      assert SocialLines(ab) == SocialLines(a + b') + SocialLine(b[|b| - 1]);
      ConcatAssoc(SocialLines(a), SocialLines(b'), SocialLine(b[|b| - 1]));
    } else {
      assert a + b == a;
    }
  }

  /** `[w['url'] for w in websites if isinstance(w, dict) and 'url' in w]` */
  function WebsiteUrls(ws: seq<Website>): (urls: seq<string>)
    ensures |urls| <= |ws|
    ensures forall u :: u in urls <==> WebsiteDict(Some(u)) in ws
  {
    if ws == [] then []
    else
      assert forall w :: w in ws <==> w == ws[0] || w in ws[1..];
      (match ws[0] case WebsiteDict(Some(u)) => [u] case _ => []) + WebsiteUrls(ws[1..])
  }

  function WebsitesLine(ws: seq<Website>): string
  {
    if |ws| > 0 && |WebsiteUrls(ws)| > 0 then "   Websites: " + Join(WebsiteUrls(ws), ", ") + "\n" else ""
  }

  function PriceLine(caption: string, p: Option<Num>, price: real -> string): string
  {
    match p
    case None => ""
    case Some(Parsed(v)) => caption + price(v) + "\n"
    case Some(Unparsed(text)) => caption + text + "\n"
  }

  /** A line printed only when the field is present and non-empty. */
  function OptLine(caption: string, o: Option<string>): string
  {
    if NonEmpty(o) then caption + o.value + "\n" else ""
  }

  function SocialHeader(ss: seq<Social>): string
  {
    if |ss| > 0 then "   Social Media:\n" else ""
  }

  /** One always-printed line: a caption, a value and a newline. */
  function Field(caption: string, text: string): (r: string)
    ensures |r| > 0 && r[|r| - 1] == '\n'
  {
    caption + text + "\n"
  }

  function TitleLine(index: int, t: TokenInfo): string
  {
    IntToString(index) + ". " + ShowOpt(t.descr.symbol) + " (" + ShowOpt(t.descr.name) + ")\n"
  }

  /** The text of entry `index`; None when `float(marketCap)` raises. `money` renders a value
      as `:,.2f` does and `price` as `:,.10f` does. */
  function TokenText(index: int, t: TokenInfo, money: real -> string, price: real -> string): (r: Option<string>)
    ensures r.None? <==> t.descr.marketCap.None?
  {
    var d := t.descr;
    if d.marketCap.None? then None
    else
      Some(TitleLine(index, t)
        + Field("   Contract Address: ", ShowOpt(t.address))
        + Field("   Total 24h Volume: $", money(t.totalVolume24h))
        + Field("   Max Liquidity: $", money(t.maxLiquidityUsd))
        + Field("   Market Cap: $", money(d.marketCap.value))
        + Field("   Price Change (24h): ", ShowOpt(d.priceChange24h) + "%")
        + PriceLine("   Price (USD): $", d.priceUsd, price)
        + PriceLine("   Price (Native): ", d.priceNative, price)
        + OptLine("   Chain: ", d.chainId)
        + OptLine("   URL: ", d.url)
        + WebsitesLine(d.websites)
        + SocialHeader(d.socials)
        + SocialLines(d.socials)
        + "\n")
  }

  lemma StartsWithExtended(a: string, b: string, p: string)
    requires StartsWith(a, p)
    ensures StartsWith(a + b, p)
  {
    assert (a + b)[..|p|] == a[..|p|];
  }

  /** Every rendered entry starts with its number. */
  lemma TokenTextNumbered(index: int, t: TokenInfo, money: real -> string, price: real -> string)
    requires t.descr.marketCap.Some?
    ensures StartsWith(TokenText(index, t, money, price).value, IntToString(index) + ". ")
  {
    var d := t.descr;
    var head := IntToString(index) + ". ";
    var s := TitleLine(index, t);
    assert s[..|head|] == head;
    StartsWithExtended(s, Field("   Contract Address: ", ShowOpt(t.address)), head);
    s := s + Field("   Contract Address: ", ShowOpt(t.address));
    StartsWithExtended(s, Field("   Total 24h Volume: $", money(t.totalVolume24h)), head);
    s := s + Field("   Total 24h Volume: $", money(t.totalVolume24h));
    StartsWithExtended(s, Field("   Max Liquidity: $", money(t.maxLiquidityUsd)), head);
    s := s + Field("   Max Liquidity: $", money(t.maxLiquidityUsd));
    StartsWithExtended(s, Field("   Market Cap: $", money(d.marketCap.value)), head);
    s := s + Field("   Market Cap: $", money(d.marketCap.value));
    StartsWithExtended(s, Field("   Price Change (24h): ", ShowOpt(d.priceChange24h) + "%"), head);
    s := s + Field("   Price Change (24h): ", ShowOpt(d.priceChange24h) + "%");
    StartsWithExtended(s, PriceLine("   Price (USD): $", d.priceUsd, price), head);
    s := s + PriceLine("   Price (USD): $", d.priceUsd, price);
    StartsWithExtended(s, PriceLine("   Price (Native): ", d.priceNative, price), head);
    s := s + PriceLine("   Price (Native): ", d.priceNative, price);
    StartsWithExtended(s, OptLine("   Chain: ", d.chainId), head);
    s := s + OptLine("   Chain: ", d.chainId);
    StartsWithExtended(s, OptLine("   URL: ", d.url), head);
    s := s + OptLine("   URL: ", d.url);
    StartsWithExtended(s, WebsitesLine(d.websites), head);
    s := s + WebsitesLine(d.websites);
    StartsWithExtended(s, SocialHeader(d.socials), head);
    s := s + SocialHeader(d.socials);
    StartsWithExtended(s, SocialLines(d.socials), head);
    s := s + SocialLines(d.socials);
    StartsWithExtended(s, "\n", head);
    s := s + "\n";
    assert s == TokenText(index, t, money, price).value;
  }

  /** The loop over `socials` in `_format_token_info`. */
  method AppendSocialLines(prefix: string, socials: seq<Social>) returns (result: string)
    ensures result == prefix + SocialLines(socials)
  {
    result := prefix;
    var i := 0;
    while i < |socials|
      invariant 0 <= i <= |socials|
      invariant result == prefix + SocialLines(socials[..i])
    {
      ConcatAssoc(prefix, SocialLines(socials[..i]), SocialLine(socials[i]));
      result := result + SocialLine(socials[i]);
      assert socials[..i + 1][..i] == socials[..i];
      i := i + 1;
    }
    assert socials[..|socials|] == socials;
  }

  /** `_format_token_info`, building the text piece by piece. */
  method FormatTokenInfo(index: int, t: TokenInfo, money: real -> string, price: real -> string)
    returns (r: Option<string>)
    ensures r == TokenText(index, t, money, price)
  {
    var d := t.descr;
    if d.marketCap.None? {
      return None;
    }
    var result := TitleLine(index, t);
    result := result + Field("   Contract Address: ", ShowOpt(t.address));
    result := result + Field("   Total 24h Volume: $", money(t.totalVolume24h));
    result := result + Field("   Max Liquidity: $", money(t.maxLiquidityUsd));
    result := result + Field("   Market Cap: $", money(d.marketCap.value));
    result := result + Field("   Price Change (24h): ", ShowOpt(d.priceChange24h) + "%");
    result := result + PriceLine("   Price (USD): $", d.priceUsd, price);
    result := result + PriceLine("   Price (Native): ", d.priceNative, price);
    result := result + OptLine("   Chain: ", d.chainId);
    result := result + OptLine("   URL: ", d.url);
    result := result + WebsitesLine(d.websites);
    result := result + SocialHeader(d.socials);
    result := AppendSocialLines(result, d.socials);
    result := result + "\n";
    r := Some(result);
  }

  /** `_format_token_info` with the number formats fixed. */
  function Renderer(money: real -> string, price: real -> string): (int, TokenInfo) -> Option<string>
  {
    (index, t) => TokenText(index, t, money, price)
  }

  /** The entries of a list, numbered from 1; None when one of them cannot be rendered. */
  function TokenEntries(ts: seq<TokenInfo>, money: real -> string, price: real -> string): Option<string>
  {
    Numbered(Renderer(money, price), ts)
  }

  /** Rendering fails exactly when some entry has no usable market cap. */
  lemma TokenEntriesFail(ts: seq<TokenInfo>, money: real -> string, price: real -> string)
    ensures TokenEntries(ts, money, price).None? <==> exists t :: t in ts && t.descr.marketCap.None?
  {
    var render := Renderer(money, price);
    NumberedFails(render, ts);
    if exists t :: t in ts && t.descr.marketCap.None? {
      var t :| t in ts && t.descr.marketCap.None?;
      var i :| 0 <= i < |ts| && ts[i] == t;
      assert render(i + 1, ts[i]).None?;
    }
  }

  /** `handle_hot_tokens`: never raises; any failure gives the fixed failure message. */
  function HotTokensText(response: Fetch<seq<Pair>>, limit: int, money: real -> string, price: real -> string): (text: string)
  {
    match response
    case FetchFailed(_) => HotTokensFailure
    case Fetched(ps) =>
      match TokenEntries(HotTokens(ps, limit), money, price)
      case None => HotTokensFailure
      case Some(body) => HotTokensHeader + body
  }

  /** The handler answers with the failure message exactly when the request fails or some
      listed token has no usable market cap; otherwise with the header and the entries. */
  lemma HotTokensTextSpec(response: Fetch<seq<Pair>>, limit: int, money: real -> string, price: real -> string)
    ensures HotTokensText(response, limit, money, price) == HotTokensFailure
        <==> response.FetchFailed? || exists t :: t in HotTokens(response.body, limit) && t.descr.marketCap.None?
    ensures HotTokensText(response, limit, money, price) != HotTokensFailure ==>
              StartsWith(HotTokensText(response, limit, money, price), HotTokensHeader)
  {
    if response.Fetched? {
      TokenEntriesFail(HotTokens(response.body, limit), money, price);
      var text := HotTokensText(response, limit, money, price);
      if text != HotTokensFailure {
        assert text[0] == HotTokensHeader[0];
        assert text[..|HotTokensHeader|] == HotTokensHeader;
      }
    }
  }

  /** The loop of `handle_hot_tokens` that appends the numbered entries to `prefix`; None
      when one of them raises. */
  method AppendEntries(prefix: string, tokens: seq<TokenInfo>, money: real -> string, price: real -> string)
    returns (r: Option<string>)
    ensures r.None? <==> TokenEntries(tokens, money, price).None?
    ensures r.Some? ==> r.value == prefix + TokenEntries(tokens, money, price).value
  {
    var text := prefix;
    ghost var body := "";
    var i := 0;
    while i < |tokens|
      invariant 0 <= i <= |tokens|
      invariant text == prefix + body
      invariant TokenEntries(tokens[..i], money, price) == Some(body)
    {
      var entry := FormatTokenInfo(i + 1, tokens[i], money, price);
      if entry.None? {
        NumberedStepFails(Renderer(money, price), tokens, i);
        NumberedPrefixFails(Renderer(money, price), tokens, i + 1);
        return None;
      }
      NumberedStep(Renderer(money, price), tokens, i, body, entry.value);
      ConcatAssoc(prefix, body, entry.value);
      text := text + entry.value;
      body := body + entry.value;
      i := i + 1;
    }
    assert tokens[..|tokens|] == tokens;
    r := Some(text);
  }

  /** `handle_hot_tokens`, enumerating the list from 1. */
  method HandleHotTokens(response: Fetch<seq<Pair>>, limit: int, money: real -> string, price: real -> string)
    returns (text: string)
    ensures text == HotTokensText(response, limit, money, price)
  {
    var hot := GetHotTokens(response, limit);
    if hot.Err? {
      return HotTokensFailure;
    }
    var entries := AppendEntries(HotTokensHeader, hot.value, money, price);
    if entries.None? {
      return HotTokensFailure;
    }
    text := entries.value;
  }
}
