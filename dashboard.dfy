/**
 * The crypto dashboard's derived views: the persisted-preference validators, the sort
 * value of a coin, the visible top-coins list (search, trend filter, null-last sort),
 * the top-four market dominance, and the rule for the full-page failure state.
 */
module Dashboard {
  import opened Wrappers
  import opened Text
  import opened Seqs
  import opened Sorting
  import opened CoinGecko

  /* ---------- Preference values and their validators ---------- */

  datatype TrendFilter = All | Gainers | Losers
  datatype SortKey = MarketCapRank | CurrentPrice | MarketCap | PriceChange24h | PriceChange7d | TotalVolume
  datatype SortDirection = Asc | Desc

  function TrendFilterName(f: TrendFilter): string {
    match f
    case All => "all"
    case Gainers => "gainers"
    case Losers => "losers"
  }

  function SortKeyName(k: SortKey): string {
    match k
    case MarketCapRank => "market_cap_rank"
    case CurrentPrice => "current_price"
    case MarketCap => "market_cap"
    case PriceChange24h => "price_change_24h"
    case PriceChange7d => "price_change_7d"
    case TotalVolume => "total_volume"
  }

  function SortDirectionName(d: SortDirection): string {
    match d
    case Asc => "asc"
    case Desc => "desc"
  }

  /** `isTrendFilter`: membership in the set of trend-filter names. */
  predicate IsTrendFilter(s: string) {
    s in {"all", "gainers", "losers"}
  }

  /** `isSortKey`. */
  predicate IsSortKey(s: string) {
    s in {"market_cap_rank", "current_price", "market_cap", "price_change_24h", "price_change_7d", "total_volume"}
  }

  /** `isSortDirection`. */
  predicate IsSortDirection(s: string) {
    s in {"asc", "desc"}
  }

  /** `isSearchTerm`: any string. */
  predicate IsSearchTerm(s: string) {
    true
  }

  function ParseTrendFilter(s: string): (r: Option<TrendFilter>)
    ensures r.Some? <==> IsTrendFilter(s)
    ensures r.Some? ==> TrendFilterName(r.value) == s
  {
    if s == "all" then Some(All) else if s == "gainers" then Some(Gainers)
    else if s == "losers" then Some(Losers) else None
  }

  function ParseSortKey(s: string): (r: Option<SortKey>)
    ensures r.Some? <==> IsSortKey(s)
    ensures r.Some? ==> SortKeyName(r.value) == s
  {
    if s == "market_cap_rank" then Some(MarketCapRank)
    else if s == "current_price" then Some(CurrentPrice)
    else if s == "market_cap" then Some(MarketCap)
    else if s == "price_change_24h" then Some(PriceChange24h)
    else if s == "price_change_7d" then Some(PriceChange7d)
    else if s == "total_volume" then Some(TotalVolume)
    else None
  }

  function ParseSortDirection(s: string): (r: Option<SortDirection>)
    ensures r.Some? <==> IsSortDirection(s)
    ensures r.Some? ==> SortDirectionName(r.value) == s
  {
    if s == "asc" then Some(Asc) else if s == "desc" then Some(Desc) else None
  }

  /** Each validator accepts exactly the names of its values, and each name reads back as its value. */
  lemma NamesRoundTrip(f: TrendFilter, k: SortKey, d: SortDirection)
    ensures IsTrendFilter(TrendFilterName(f)) && ParseTrendFilter(TrendFilterName(f)) == Some(f)
    ensures IsSortKey(SortKeyName(k)) && ParseSortKey(SortKeyName(k)) == Some(k)
    ensures IsSortDirection(SortDirectionName(d)) && ParseSortDirection(SortDirectionName(d)) == Some(d)
  {
  }

  /** The direction toggle: `asc` becomes `desc` and anything else becomes `asc`. */
  function ToggleDirection(current: string): (r: string)
    ensures IsSortDirection(r)
    ensures current == "asc" ==> r == "desc"
    ensures current == "desc" ==> r == "asc"
  {
    if current == "asc" then "desc" else "asc"
  }

  /** Toggling twice restores any valid direction. */
  lemma ToggleDirectionInvolution(current: string)
    requires IsSortDirection(current)
    ensures ToggleDirection(ToggleDirection(current)) == current
  {
  }

  /* ---------- The sort value and the comparator ---------- */

  /** `getCoinSortValue`: the field the key names; an absent 7d change is null too. */
  function GetCoinSortValue(coin: MarketCoin, key: SortKey): (v: Option<real>)
    ensures key == MarketCapRank ==> v == coin.marketCapRank
    ensures key == CurrentPrice ==> v == Some(coin.currentPrice)
    ensures key == MarketCap ==> v == Some(coin.marketCap)
    ensures key == PriceChange24h ==> v == coin.priceChangePercentage24h
    ensures key == PriceChange7d ==>
      (v.Some? <==> coin.priceChangePercentage7dInCurrency.Present?)
    ensures key == PriceChange7d && v.Some? ==> v.value == coin.priceChangePercentage7dInCurrency.value
    ensures key == TotalVolume ==> v == Some(coin.totalVolume)
  {
    match key
    case MarketCapRank => coin.marketCapRank
    case CurrentPrice => Some(coin.currentPrice)
    case MarketCap => Some(coin.marketCap)
    case PriceChange24h => coin.priceChangePercentage24h
    case PriceChange7d =>
      if coin.priceChangePercentage7dInCurrency.Present? then Some(coin.priceChangePercentage7dInCurrency.value) else None
    case TotalVolume => Some(coin.totalVolume)
  }

  /**
   * The comparator of the visible list: two nulls tie, a null goes after any value
   * whatever the direction, and values compare by difference, negated for `desc`.
   */
  function CompareCoins(key: SortKey, direction: SortDirection, a: MarketCoin, b: MarketCoin): real {
    var va := GetCoinSortValue(a, key);
    var vb := GetCoinSortValue(b, key);
    if va.None? && vb.None? then 0.0
    else if va.None? then 1.0
    else if vb.None? then -1.0
    else if direction == Asc then va.value - vb.value
    else -(va.value - vb.value)
  }

  function CoinOrder(key: SortKey, direction: SortDirection): (MarketCoin, MarketCoin) -> real {
    (a, b) => CompareCoins(key, direction, a, b)
  }

  lemma CoinOrderConsistent(key: SortKey, direction: SortDirection)
    ensures IsConsistent(CoinOrder(key, direction))
  {
    var cmp := CoinOrder(key, direction);
    forall a, b, c | cmp(a, b) <= 0.0 && cmp(b, c) <= 0.0 ensures cmp(a, c) <= 0.0 {
      assert CompareCoins(key, direction, a, b) <= 0.0 && CompareCoins(key, direction, b, c) <= 0.0;
    }
  }

  /* ---------- The visible top-coins list ---------- */

  /** `searchTerm.trim().toLowerCase()`. */
  function NormalizeSearch(term: string): string {
    ToLower(Trim(term))
  }

  /** An empty normalized term matches every coin; otherwise the lower-cased name or symbol must contain it. */
  predicate MatchesSearch(coin: MarketCoin, normalized: string) {
    normalized == [] || Contains(ToLower(coin.name), normalized) || Contains(ToLower(coin.symbol), normalized)
  }

  /** The trend test: a null 24h change counts as 0. */
  predicate PassesTrend(coin: MarketCoin, trend: TrendFilter) {
    var change := coin.priceChangePercentage24h.GetOr(0.0);
    match trend
    case All => true
    case Gainers => change > 0.0
    case Losers => change < 0.0
  }

  function KeepCoin(normalized: string, trend: TrendFilter): MarketCoin -> bool {
    coin => MatchesSearch(coin, normalized) && PassesTrend(coin, trend)
  }

  /** The `filter` step of `visibleTopCoins`. */
  function FilterCoins(coins: seq<MarketCoin>, searchTerm: string, trend: TrendFilter): seq<MarketCoin> {
    Filter(coins, KeepCoin(NormalizeSearch(searchTerm), trend))
  }

  /** `visibleTopCoins`: the filtered coins, copied and sorted. */
  function VisibleCoins(coins: seq<MarketCoin>, searchTerm: string, trend: TrendFilter, key: SortKey,
                        direction: SortDirection): seq<MarketCoin> {
    SortBy(FilterCoins(coins, searchTerm, trend), CoinOrder(key, direction))
  }

  /** A blank or whitespace-only search term lets every coin through. */
  lemma BlankSearchMatchesAll(term: string, coin: MarketCoin)
    requires HasOnlyWhitespace(term)
    ensures MatchesSearch(coin, NormalizeSearch(term))
  {
    TrimEmptyIff(term);
  }

  /** A coin passes a non-blank search exactly when its lower-cased name or symbol holds the term somewhere. */
  lemma SearchMatchIff(term: string, coin: MarketCoin)
    requires !HasOnlyWhitespace(term)
    ensures MatchesSearch(coin, NormalizeSearch(term)) <==>
      (exists i :: OccursAt(ToLower(coin.name), NormalizeSearch(term), i))
      || (exists i :: OccursAt(ToLower(coin.symbol), NormalizeSearch(term), i))
  {
    TrimEmptyIff(term);
    ContainsIff(ToLower(coin.name), NormalizeSearch(term));
    ContainsIff(ToLower(coin.symbol), NormalizeSearch(term));
  }

  /** Gainers and losers are disjoint, and a coin with a null or zero change is in neither. */
  lemma TrendPartition(coin: MarketCoin)
    ensures !(PassesTrend(coin, Gainers) && PassesTrend(coin, Losers))
    ensures coin.priceChangePercentage24h.None? ==> !PassesTrend(coin, Gainers) && !PassesTrend(coin, Losers)
    ensures PassesTrend(coin, Gainers) || PassesTrend(coin, Losers) || coin.priceChangePercentage24h.GetOr(0.0) == 0.0
  {
  }

  /** The filtered list keeps the input's order and invents nothing. */
  lemma FilteredIsSubsequence(coins: seq<MarketCoin>, searchTerm: string, trend: TrendFilter)
    ensures IsSubsequence(FilterCoins(coins, searchTerm, trend), coins)
  {
    FilterIsSubsequence(coins, KeepCoin(NormalizeSearch(searchTerm), trend));
  }

  /** A coin is visible exactly when it is in the input and passes both the search and the trend test. */
  lemma VisibleMembership(coins: seq<MarketCoin>, searchTerm: string, trend: TrendFilter, key: SortKey,
                          direction: SortDirection, coin: MarketCoin)
    ensures coin in VisibleCoins(coins, searchTerm, trend, key, direction) <==>
      coin in coins && MatchesSearch(coin, NormalizeSearch(searchTerm)) && PassesTrend(coin, trend)
  {
    var filtered := FilterCoins(coins, searchTerm, trend);
    var visible := VisibleCoins(coins, searchTerm, trend, key, direction);
    assert coin in visible <==> coin in multiset(visible);
    assert coin in filtered <==> coin in multiset(filtered);
    if coin in coins && KeepCoin(NormalizeSearch(searchTerm), trend)(coin) {
      var i :| 0 <= i < |coins| && coins[i] == coin;
    }
    if coin in filtered {
      var i :| 0 <= i < |filtered| && filtered[i] == coin;
    }
  }

  /** The visible list is a permutation of the filtered list: same coins, same multiplicities. */
  lemma VisibleIsPermutation(coins: seq<MarketCoin>, searchTerm: string, trend: TrendFilter, key: SortKey,
                             direction: SortDirection)
    ensures multiset(VisibleCoins(coins, searchTerm, trend, key, direction))
         == multiset(FilterCoins(coins, searchTerm, trend))
    ensures multiset(VisibleCoins(coins, searchTerm, trend, key, direction)) <= multiset(coins)
  {
    FilterSubMultiset(coins, KeepCoin(NormalizeSearch(searchTerm), trend));
  }

  /**
   * The order of the visible list, for every key and both directions: null values come
   * after all others; non-null values are non-decreasing for `asc` and non-increasing
   * for `desc`.
   */
  lemma VisibleOrder(coins: seq<MarketCoin>, searchTerm: string, trend: TrendFilter, key: SortKey,
                     direction: SortDirection)
    ensures var v := VisibleCoins(coins, searchTerm, trend, key, direction);
      forall i, j | 0 <= i < j < |v| ::
        && (GetCoinSortValue(v[i], key).None? ==> GetCoinSortValue(v[j], key).None?)
        && (GetCoinSortValue(v[i], key).Some? && GetCoinSortValue(v[j], key).Some? ==>
              if direction == Asc then GetCoinSortValue(v[i], key).value <= GetCoinSortValue(v[j], key).value
              else GetCoinSortValue(v[i], key).value >= GetCoinSortValue(v[j], key).value)
  {
    var v := VisibleCoins(coins, searchTerm, trend, key, direction);
    CoinOrderConsistent(key, direction);
    SortByIsSorted(FilterCoins(coins, searchTerm, trend), CoinOrder(key, direction));
    forall i, j | 0 <= i < j < |v| ensures CompareCoins(key, direction, v[i], v[j]) <= 0.0 {
      assert CoinOrder(key, direction)(v[i], v[j]) <= 0.0;
    }
  }

  /**
   * Stability: coins that tie under the comparator (equal values, or both null) keep
   * their input order.
   */
  lemma VisibleStable(coins: seq<MarketCoin>, searchTerm: string, trend: TrendFilter, key: SortKey,
                      direction: SortDirection, e: MarketCoin)
    ensures Ties(VisibleCoins(coins, searchTerm, trend, key, direction), CoinOrder(key, direction), e)
         == Ties(FilterCoins(coins, searchTerm, trend), CoinOrder(key, direction), e)
  {
    CoinOrderConsistent(key, direction);
    SortByStable(FilterCoins(coins, searchTerm, trend), CoinOrder(key, direction), e);
  }

  /** With no search term and the "all" filter, the table shows both coins. */
  lemma UnfilteredPair(a: MarketCoin, b: MarketCoin)
    ensures FilterCoins([a, b], "", All) == [a, b]
  {
    var keep := KeepCoin(NormalizeSearch(""), All);
    NormalizeBlank();
    assert keep(a) && keep(b);
    KeepPair(a, b, keep);
  }

  /** The empty search term normalizes to itself. */
  lemma NormalizeBlank()
    ensures NormalizeSearch("") == ""
  {
    assert TrimStart("") == "";
  }

  /** Filtering two coins that both pass keeps both, in order. */
  lemma KeepPair(a: MarketCoin, b: MarketCoin, keep: MarketCoin -> bool)
    requires keep(a) && keep(b)
    ensures Filter([a, b], keep) == [a, b]
  {
    assert [b][1..] == [];
    assert Filter([b], keep) == [b];
    assert [a, b][1..] == [b];
  }

  /** By rank ascending, the coin ranked 1 is listed before the coin ranked 2. */
  lemma ExampleRankAscending(a: MarketCoin, b: MarketCoin)
    requires a.marketCapRank == Some(2.0) && b.marketCapRank == Some(1.0)
    ensures VisibleCoins([a, b], "", All, MarketCapRank, Asc) == [b, a]
  {
    UnfilteredPair(a, b);
    SortPair(a, b, MarketCapRank, Asc);
  }

  /** By 24h change descending, a coin with a change is listed before one without. */
  lemma ExampleNullLastDescending(a: MarketCoin, b: MarketCoin)
    requires a.priceChangePercentage24h == Some(5.0) && b.priceChangePercentage24h.None?
    ensures VisibleCoins([a, b], "", All, PriceChange24h, Desc) == [a, b]
  {
    UnfilteredPair(a, b);
    SortPair(a, b, PriceChange24h, Desc);
  }

  /** Sorting two coins swaps them exactly when the comparator puts the second strictly first. */
  lemma SortPair(a: MarketCoin, b: MarketCoin, key: SortKey, direction: SortDirection)
    ensures CompareCoins(key, direction, a, b) > 0.0 ==> SortBy([a, b], CoinOrder(key, direction)) == [b, a]
    ensures CompareCoins(key, direction, a, b) <= 0.0 ==> SortBy([a, b], CoinOrder(key, direction)) == [a, b]
  {
    assert [a, b][1..] == [b];
    assert SortBy([b], CoinOrder(key, direction)) == [b];
  }

  /* ---------- Market dominance ---------- */

  /** How many dominance entries are shown. */
  const DominanceLimit: nat := 4

  /** The comparator `(a, b) => b[1] - a[1]`: larger shares first. */
  function ShareOrder(a: (string, real), b: (string, real)): real {
    b.1 - a.1
  }

  lemma ShareOrderConsistent()
    ensures IsConsistent(ShareOrder)
  {
  }

  function DominanceCount(n: nat): (k: nat)
    ensures k <= n && k <= DominanceLimit && (k == n || k == DominanceLimit)
  {
    if n < DominanceLimit then n else DominanceLimit
  }

  /** `dominance`: nothing without a snapshot; else the shares, largest first, the first four. */
  function Dominance(snapshot: Option<GlobalMarketSnapshot>): seq<(string, real)> {
    if snapshot.None? then []
    else
      var sorted := SortBy(snapshot.value.marketCapPercentage, ShareOrder);
      sorted[..DominanceCount(|sorted|)]
  }

  lemma DominanceWithoutSnapshot()
    ensures Dominance(None) == []
  {
  }

  /**
   * With a snapshot: at most four entries, all from `market_cap_percentage`, in
   * non-increasing order of share, and no dropped entry has a larger share than any kept one.
   */
  lemma DominanceTopFour(g: GlobalMarketSnapshot)
    ensures var d := Dominance(Some(g));
      && |d| == DominanceCount(|g.marketCapPercentage|)
      && multiset(d) <= multiset(g.marketCapPercentage)
      && (forall i, j | 0 <= i < j < |d| :: d[i].1 >= d[j].1)
      && (forall x, i | x in multiset(g.marketCapPercentage) - multiset(d) && 0 <= i < |d| :: x.1 <= d[i].1)
  {
    var all := g.marketCapPercentage;
    var sorted := SortBy(all, ShareOrder);
    var k := DominanceCount(|all|);
    var d := Dominance(Some(g));
    assert d == sorted[..k];
    ShareOrderConsistent();
    SortByIsSorted(all, ShareOrder);
    PrefixMultiset(sorted, k);
    SortedPrefixFirst(sorted, ShareOrder, k);
    forall i, j | 0 <= i < j < |d| ensures d[i].1 >= d[j].1 {
      assert ShareOrder(sorted[i], sorted[j]) <= 0.0;
    }
    forall x, i | x in multiset(all) - multiset(d) && 0 <= i < |d| ensures x.1 <= d[i].1 {
      assert ShareOrder(sorted[i], x) <= 0.0;
    }
  }

  /** Among equal shares, the snapshot's order is kept, and the cut keeps the earliest. */
  lemma DominanceStable(g: GlobalMarketSnapshot, e: (string, real))
    ensures Ties(Dominance(Some(g)), ShareOrder, e) <= Ties(g.marketCapPercentage, ShareOrder, e)
  {
    var sorted := SortBy(g.marketCapPercentage, ShareOrder);
    ShareOrderConsistent();
    SortByStable(g.marketCapPercentage, ShareOrder, e);
    TiesOfPrefix(sorted, ShareOrder, e, DominanceCount(|sorted|));
  }

  /** Shares already in non-increasing order are shown as they are, the first four of them. */
  lemma DominanceOfSorted(g: GlobalMarketSnapshot)
    requires Sorted(g.marketCapPercentage, ShareOrder)
    ensures Dominance(Some(g)) == g.marketCapPercentage[..DominanceCount(|g.marketCapPercentage|)]
  {
    SortBySortedIdentity(g.marketCapPercentage, ShareOrder);
  }

  /** btc 40, eth 18, usdt 5, bnb 3, xrp 2: the first four are shown and xrp is dropped. */
  lemma DominanceExample(g: GlobalMarketSnapshot)
    requires g.marketCapPercentage == [("btc", 40.0), ("eth", 18.0), ("usdt", 5.0), ("bnb", 3.0), ("xrp", 2.0)]
    ensures Dominance(Some(g)) == [("btc", 40.0), ("eth", 18.0), ("usdt", 5.0), ("bnb", 3.0)]
  {
    ShareOrderConsistent();
    SortedFromNeighbours(g.marketCapPercentage, ShareOrder);
    DominanceOfSorted(g);
  }

  /* ---------- The full-page failure state ---------- */

  /** A query's status; an errored query may still hold data from an earlier success. */
  datatype Status = Pending | Errored(error: FetchError) | Succeeded

  datatype Query<+T> = Query(status: Status, data: Option<T>)

  /** `query.status === "error" ? query.error : null`. */
  function QueryError<T>(q: Query<T>): Option<FetchError> {
    if q.status.Errored? then Some(q.status.error) else None
  }

  /** `hasNoData`: no snapshot, and both lists missing or empty. */
  predicate HasNoData(global: Query<GlobalMarketSnapshot>, top: Query<seq<MarketCoin>>,
                      trending: Query<seq<TrendingCoin>>) {
    && global.data.None?
    && |top.data.GetOr([])| == 0
    && |trending.data.GetOr([])| == 0
  }

  /** `fallbackError`: the first error of global, top coins, trending. */
  function FallbackError(global: Query<GlobalMarketSnapshot>, top: Query<seq<MarketCoin>>,
                         trending: Query<seq<TrendingCoin>>): Option<FetchError> {
    if QueryError(global).Some? then QueryError(global)
    else if QueryError(top).Some? then QueryError(top)
    else QueryError(trending)
  }

  /** The error the full-page failure state shows, or None when the dashboard renders. */
  function FailurePage(global: Query<GlobalMarketSnapshot>, top: Query<seq<MarketCoin>>,
                       trending: Query<seq<TrendingCoin>>): Option<FetchError> {
    if HasNoData(global, top, trending) then FallbackError(global, top, trending) else None
  }

  /**
   * The failure page shows exactly when there is no snapshot, no top coin, no trending
   * coin, and at least one query failed; it shows the first failure in the order global,
   * top coins, trending.
   */
  lemma FailurePageIff(global: Query<GlobalMarketSnapshot>, top: Query<seq<MarketCoin>>,
                       trending: Query<seq<TrendingCoin>>)
    ensures FailurePage(global, top, trending).Some? <==>
      HasNoData(global, top, trending)
      && (global.status.Errored? || top.status.Errored? || trending.status.Errored?)
    ensures global.status.Errored? && FailurePage(global, top, trending).Some? ==>
      FailurePage(global, top, trending).value == global.status.error
    ensures !global.status.Errored? && top.status.Errored? && FailurePage(global, top, trending).Some? ==>
      FailurePage(global, top, trending).value == top.status.error
    ensures !global.status.Errored? && !top.status.Errored? && FailurePage(global, top, trending).Some? ==>
      FailurePage(global, top, trending).value == trending.status.error
  {
  }

  /** Any data at all keeps the dashboard on screen, whatever failed. */
  lemma DataKeepsDashboard(global: Query<GlobalMarketSnapshot>, top: Query<seq<MarketCoin>>,
                           trending: Query<seq<TrendingCoin>>)
    requires global.data.Some? || (top.data.Some? && |top.data.value| > 0)
             || (trending.data.Some? && |trending.data.value| > 0)
    ensures FailurePage(global, top, trending) == None
  {
  }
}
