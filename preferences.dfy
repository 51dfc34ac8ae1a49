/**
 * The dashboard's four persisted controls (search term, trend filter, sort key, sort
 * direction): four preference cells over one storage, and the handlers that change them.
 */
module Preferences {
  import opened Wrappers
  import opened JsonString
  import opened PersistentStore
  import opened Dashboard
  import opened CoinGecko

  const SearchStorageKey: string := "crypto-dashboard.top-coins.search"
  const TrendStorageKey: string := "crypto-dashboard.top-coins.filter"
  const SortKeyStorageKey: string := "crypto-dashboard.top-coins.sort-key"
  const DirectionStorageKey: string := "crypto-dashboard.top-coins.sort-direction"

  /** The four storage keys differ, so writing one entry leaves the other three alone. */
  lemma StorageKeysDistinct()
    ensures SearchStorageKey != TrendStorageKey && SearchStorageKey != SortKeyStorageKey
    ensures SearchStorageKey != DirectionStorageKey && TrendStorageKey != SortKeyStorageKey
    ensures TrendStorageKey != DirectionStorageKey && SortKeyStorageKey != DirectionStorageKey
  {
    assert SearchStorageKey[27] == 's' && SearchStorageKey[28] == 'e';
    assert TrendStorageKey[27] == 'f';
    assert SortKeyStorageKey[27] == 's' && SortKeyStorageKey[28] == 'o' && SortKeyStorageKey[32] == 'k';
    assert DirectionStorageKey[27] == 's' && DirectionStorageKey[28] == 'o' && DirectionStorageKey[32] == 'd';
  }

  /** `entries` holds the JSON text of the string `v` under `key`. */
  predicate Holds(entries: map<string, string>, key: string, v: string) {
    key in entries && entries[key] == Quote(v)
  }

  /** The four controls' entries hold the texts of the four values. */
  predicate StoredAll(entries: map<string, string>, search: string, trend: string, sortKey: string, direction: string) {
    && Holds(entries, SearchStorageKey, search) && Holds(entries, TrendStorageKey, trend)
    && Holds(entries, SortKeyStorageKey, sortKey) && Holds(entries, DirectionStorageKey, direction)
  }

  /** After all four mount effects have written, every entry holds its control's text. */
  lemma StoredAfterMount(entries: map<string, string>, search: string, trend: string, sortKey: string, direction: string)
    ensures StoredAll(entries[SearchStorageKey := Quote(search)][TrendStorageKey := Quote(trend)]
      [SortKeyStorageKey := Quote(sortKey)][DirectionStorageKey := Quote(direction)], search, trend, sortKey, direction)
  {
    StorageKeysDistinct();
  }

  /** The search term's effect changes only its own entry. */
  lemma StoredAfterSearchEffect(entries: map<string, string>, before: string, after: string,
                                trend: string, sortKey: string, direction: string)
    requires StoredAll(entries, before, trend, sortKey, direction)
    ensures StoredAll(EffectWrite(entries, SearchStorageKey, Quote, before, after), after, trend, sortKey, direction)
  {
    StorageKeysDistinct();
  }

  /** The trend filter's effect changes only its own entry. */
  lemma StoredAfterTrendEffect(entries: map<string, string>, before: string, after: string,
                               search: string, sortKey: string, direction: string)
    requires StoredAll(entries, search, before, sortKey, direction)
    ensures StoredAll(EffectWrite(entries, TrendStorageKey, Quote, before, after), search, after, sortKey, direction)
  {
    StorageKeysDistinct();
  }

  /** The sort key's effect changes only its own entry. */
  lemma StoredAfterSortKeyEffect(entries: map<string, string>, before: string, after: string,
                                 search: string, trend: string, direction: string)
    requires StoredAll(entries, search, trend, before, direction)
    ensures StoredAll(EffectWrite(entries, SortKeyStorageKey, Quote, before, after), search, trend, after, direction)
  {
    StorageKeysDistinct();
  }

  /** The sort direction's effect changes only its own entry. */
  lemma StoredAfterDirectionEffect(entries: map<string, string>, before: string, after: string,
                                   search: string, trend: string, sortKey: string)
    requires StoredAll(entries, search, trend, sortKey, before)
    ensures StoredAll(EffectWrite(entries, DirectionStorageKey, Quote, before, after), search, trend, sortKey, after)
  {
    StorageKeysDistinct();
  }

  class DashboardControls {
    const storage: LocalStorage?
    const search: PersistentState<string>
    const trend: PersistentState<string>
    const sortKey: PersistentState<string>
    const direction: PersistentState<string>

    /**
     * Four separate cells over the one storage, each with its key, default, guard and
     * JSON text. It reads only constant fields, so no state change can break it.
     */
    ghost predicate Wired() {
      && search != trend && search != sortKey && search != direction
      && trend != sortKey && trend != direction && sortKey != direction
      && search.storage == storage && trend.storage == storage
      && sortKey.storage == storage && direction.storage == storage
      && search.storageKey == SearchStorageKey && trend.storageKey == TrendStorageKey
      && sortKey.storageKey == SortKeyStorageKey && direction.storageKey == DirectionStorageKey
      && search.initialValue == "" && trend.initialValue == "all"
      && sortKey.initialValue == "market_cap_rank" && direction.initialValue == "asc"
      && search.isValid == IsSearchTerm && trend.isValid == IsTrendFilter
      && sortKey.isValid == IsSortKey && direction.isValid == IsSortDirection
    }

    /** The cells are wired and the three select controls hold valid names. */
    ghost predicate Valid()
      reads trend, sortKey, direction
    {
      Wired() && IsTrendFilter(trend.value) && IsSortKey(sortKey.value) && IsSortDirection(direction.value)
    }

    /** Every cell stores its value as the JSON text of a string. */
    ghost predicate WritesJson() {
      && search.parse == ParseString && trend.parse == ParseString
      && sortKey.parse == ParseString && direction.parse == ParseString
      && search.stringify == Quote && trend.stringify == Quote
      && sortKey.stringify == Quote && direction.stringify == Quote
    }

    /** Every cell's text is in storage under its key. */
    ghost predicate AllPersisted()
      reads search, trend, sortKey, direction, storage
    {
      storage != null ==> StoredAll(storage.entries, search.value, trend.value, sortKey.value, direction.value)
    }

    /**
     * The first render: each cell loads its entry (the default when it is absent, not
     * JSON text of a string, or rejected by the guard, and when reading the storage
     * throws, `readFails`). Nothing is written until `Mount`.
     */
    constructor (storage: LocalStorage?, readFails: bool)
      ensures Valid() && WritesJson() && this.storage == storage
      ensures storage == null || readFails ==>
        search.value == "" && trend.value == "all" && sortKey.value == "market_cap_rank" && direction.value == "asc"
      ensures storage != null && !readFails ==>
        && search.value == LoadValue(storage.GetItem(SearchStorageKey), "", ParseString, IsSearchTerm)
        && trend.value == LoadValue(storage.GetItem(TrendStorageKey), "all", ParseString, IsTrendFilter)
        && sortKey.value == LoadValue(storage.GetItem(SortKeyStorageKey), "market_cap_rank", ParseString, IsSortKey)
        && direction.value == LoadValue(storage.GetItem(DirectionStorageKey), "asc", ParseString, IsSortDirection)
    {
      this.storage := storage;
      search := new PersistentState(SearchStorageKey, "", ParseString, Quote, IsSearchTerm, storage, readFails);
      trend := new PersistentState(TrendStorageKey, "all", ParseString, Quote, IsTrendFilter, storage, readFails);
      sortKey := new PersistentState(SortKeyStorageKey, "market_cap_rank", ParseString, Quote, IsSortKey, storage, readFails);
      direction := new PersistentState(DirectionStorageKey, "asc", ParseString, Quote, IsSortDirection, storage, readFails);
      LoadValueValid(if storage == null then None else storage.GetItem(TrendStorageKey), "all", ParseString, IsTrendFilter);
      LoadValueValid(if storage == null then None else storage.GetItem(SortKeyStorageKey), "market_cap_rank", ParseString, IsSortKey);
      LoadValueValid(if storage == null then None else storage.GetItem(DirectionStorageKey), "asc", ParseString, IsSortDirection);
    }

    /**
     * The mount effects, in hook order: each cell writes the text of its value under its
     * key, replacing what was there; other keys stay, and a failed write changes nothing.
     */
    method Mount(writeFails: bool)
      requires Valid() && WritesJson()
      modifies storage
      ensures Valid()
      ensures storage != null && !writeFails ==> storage.entries == old(storage.entries)
        [SearchStorageKey := Quote(search.value)][TrendStorageKey := Quote(trend.value)]
        [SortKeyStorageKey := Quote(sortKey.value)][DirectionStorageKey := Quote(direction.value)]
      ensures storage != null && writeFails ==> storage.entries == old(storage.entries)
      ensures !writeFails ==> AllPersisted()
    {
      search.Persist(writeFails);
      trend.Persist(writeFails);
      sortKey.Persist(writeFails);
      direction.Persist(writeFails);
      if storage != null && !writeFails {
        StoredAfterMount(old(storage.entries), search.value, trend.value, sortKey.value, direction.value);
      }
    }

    /** `setSearchTerm`: any text is a search term; its text is written if it changed. */
    method SetSearchTerm(term: string, writeFails: bool)
      requires Valid() && WritesJson()
      modifies search, storage
      ensures Valid() && search.value == term
      ensures storage != null && !writeFails ==>
        storage.entries == EffectWrite(old(storage.entries), SearchStorageKey, Quote, old(search.value), term)
      ensures storage != null && writeFails ==> storage.entries == old(storage.entries)
      ensures old(AllPersisted()) && !writeFails ==> AllPersisted()
    {
      search.SetValue(term, writeFails);
      if storage != null && !writeFails && old(AllPersisted()) {
        StoredAfterSearchEffect(old(storage.entries), old(search.value), term, trend.value, sortKey.value, direction.value);
      }
    }

    /** `setTrendFilter`, whose argument type admits only trend filter names. */
    method SetTrendFilter(filter: string, writeFails: bool)
      requires Valid() && WritesJson() && IsTrendFilter(filter)
      modifies trend, storage
      ensures Valid() && trend.value == filter
      ensures storage != null && !writeFails ==>
        storage.entries == EffectWrite(old(storage.entries), TrendStorageKey, Quote, old(trend.value), filter)
      ensures storage != null && writeFails ==> storage.entries == old(storage.entries)
      ensures old(AllPersisted()) && !writeFails ==> AllPersisted()
    {
      trend.SetValue(filter, writeFails);
      if storage != null && !writeFails && old(AllPersisted()) {
        StoredAfterTrendEffect(old(storage.entries), old(trend.value), filter, search.value, sortKey.value, direction.value);
      }
    }

    /** `setSortKey`, whose argument type admits only sort key names. */
    method SetSortKey(key: string, writeFails: bool)
      requires Valid() && WritesJson() && IsSortKey(key)
      modifies sortKey, storage
      ensures Valid() && sortKey.value == key
      ensures storage != null && !writeFails ==>
        storage.entries == EffectWrite(old(storage.entries), SortKeyStorageKey, Quote, old(sortKey.value), key)
      ensures storage != null && writeFails ==> storage.entries == old(storage.entries)
      ensures old(AllPersisted()) && !writeFails ==> AllPersisted()
    {
      ghost var stored := AllPersisted();
      ghost var others := (search.value, trend.value, direction.value);
      sortKey.SetValue(key, writeFails);
      assert others == (search.value, trend.value, direction.value);
      if storage != null && !writeFails && stored {
        StoredAfterSortKeyEffect(old(storage.entries), old(sortKey.value), key, others.0, others.1, others.2);
      }
    }

    /** `setSortDirection`, whose argument type admits only `asc` and `desc`. */
    method SetSortDirection(dir: string, writeFails: bool)
      requires Valid() && WritesJson() && IsSortDirection(dir)
      modifies direction, storage
      ensures Valid() && direction.value == dir
      ensures storage != null && !writeFails ==>
        storage.entries == EffectWrite(old(storage.entries), DirectionStorageKey, Quote, old(direction.value), dir)
      ensures storage != null && writeFails ==> storage.entries == old(storage.entries)
      ensures old(AllPersisted()) && !writeFails ==> AllPersisted()
    {
      direction.SetValue(dir, writeFails);
      if storage != null && !writeFails && old(AllPersisted()) {
        StoredAfterDirectionEffect(old(storage.entries), old(direction.value), dir, search.value, trend.value, sortKey.value);
      }
    }

    /** The trend select: a value that is not a trend filter name is ignored. */
    method SelectTrend(next: string, writeFails: bool)
      requires Valid() && WritesJson()
      modifies trend, storage
      ensures Valid()
      ensures trend.value == if IsTrendFilter(next) then next else old(trend.value)
      ensures storage != null && !writeFails ==>
        storage.entries == EffectWrite(old(storage.entries), TrendStorageKey, Quote, old(trend.value), trend.value)
      ensures storage != null && (writeFails || !IsTrendFilter(next)) ==> storage.entries == old(storage.entries)
      ensures old(AllPersisted()) && !writeFails ==> AllPersisted()
    {
      if IsTrendFilter(next) {
        SetTrendFilter(next, writeFails);
      }
    }

    /** The sort select: a value that is not a sort key name is ignored. */
    method SelectSortKey(next: string, writeFails: bool)
      requires Valid() && WritesJson()
      modifies sortKey, storage
      ensures Valid()
      ensures sortKey.value == if IsSortKey(next) then next else old(sortKey.value)
      ensures storage != null && !writeFails ==>
        storage.entries == EffectWrite(old(storage.entries), SortKeyStorageKey, Quote, old(sortKey.value), sortKey.value)
      ensures storage != null && (writeFails || !IsSortKey(next)) ==> storage.entries == old(storage.entries)
      ensures old(AllPersisted()) && !writeFails ==> AllPersisted()
    {
      if IsSortKey(next) {
        SetSortKey(next, writeFails);
      }
    }

    /** The direction button: `asc` and `desc` swap, so the new text is always written. */
    method ToggleSortDirection(writeFails: bool)
      requires Valid() && WritesJson()
      modifies direction, storage
      ensures Valid() && direction.value == ToggleDirection(old(direction.value))
      ensures storage != null && !writeFails ==>
        storage.entries == old(storage.entries)[DirectionStorageKey := Quote(direction.value)]
      ensures storage != null && writeFails ==> storage.entries == old(storage.entries)
      ensures old(AllPersisted()) && !writeFails ==> AllPersisted()
    {
      SetSortDirection(ToggleDirection(direction.value), writeFails);
    }

    /** `resetControls`: every control back to its default; each changed control writes its text. */
    method ResetControls(writeFails: bool)
      requires Valid() && WritesJson()
      modifies search, trend, sortKey, direction, storage
      ensures Valid()
      ensures search.value == "" && trend.value == "all" && sortKey.value == "market_cap_rank" && direction.value == "asc"
      ensures storage != null && !writeFails ==>
        storage.entries == EffectWrite(EffectWrite(EffectWrite(EffectWrite(old(storage.entries),
            SearchStorageKey, Quote, old(search.value), ""), TrendStorageKey, Quote, old(trend.value), "all"),
          SortKeyStorageKey, Quote, old(sortKey.value), "market_cap_rank"), DirectionStorageKey, Quote, old(direction.value), "asc")
      ensures storage != null && writeFails ==> storage.entries == old(storage.entries)
      ensures old(AllPersisted()) && !writeFails ==> AllPersisted()
    {
      SetSearchTerm("", writeFails);
      SetTrendFilter("all", writeFails);
      SetSortKey("market_cap_rank", writeFails);
      SetSortDirection("asc", writeFails);
    }

    /** The visible top coins under the current controls. */
    function VisibleTopCoins(coins: seq<MarketCoin>): seq<MarketCoin>
      requires Valid()
      reads this, search, trend, sortKey, direction
    {
      VisibleCoins(coins, search.value, ParseTrendFilter(trend.value).value,
        ParseSortKey(sortKey.value).value, ParseSortDirection(direction.value).value)
    }
  }

  /**
   * Reloading the page: once every control's text is stored, mounting the controls again
   * over that storage loads the same four values.
   */
  lemma RemountRestores(c: DashboardControls)
    requires c.Valid() && c.WritesJson() && c.storage != null && c.AllPersisted()
    ensures LoadValue(c.storage.GetItem(SearchStorageKey), "", ParseString, IsSearchTerm) == c.search.value
    ensures LoadValue(c.storage.GetItem(TrendStorageKey), "all", ParseString, IsTrendFilter) == c.trend.value
    ensures LoadValue(c.storage.GetItem(SortKeyStorageKey), "market_cap_rank", ParseString, IsSortKey) == c.sortKey.value
    ensures LoadValue(c.storage.GetItem(DirectionStorageKey), "asc", ParseString, IsSortDirection) == c.direction.value
  {
    ParseQuote(c.search.value);
    ParseQuote(c.trend.value);
    ParseQuote(c.sortKey.value);
    ParseQuote(c.direction.value);
    Reload(c.search);
    Reload(c.trend);
    Reload(c.sortKey);
    Reload(c.direction);
  }
}
