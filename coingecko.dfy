/**
 * The CoinGecko feed client: the response schemas as shape predicates over parsed JSON,
 * the decoders that go with them, the tolerant numeric coercion `toNumber`, the
 * trending-coin projection, and what a fetch makes of a response.
 */
module CoinGecko {
  import opened Wrappers
  import opened Text
  import opened Seqs
  import opened Sorting
  import opened JsNumbers
  import opened Json

  /* ---------- Field shapes: the zod primitives used by the schemas ---------- */

  /** `z.number()` (a JSON number is always finite). */
  predicate IsNumberField(f: Option<Json>) {
    f.Some? && f.value.JNum?
  }

  /** `z.string()`. */
  predicate IsStringField(f: Option<Json>) {
    f.Some? && f.value.JStr?
  }

  /** `z.number().nullable()`: present, and a number or null. */
  predicate IsNullableNumberField(f: Option<Json>) {
    f.Some? && (f.value.JNum? || f.value.JNull?)
  }

  /** `z.number().nullable().optional()`: absent, null or a number. */
  predicate IsOptionalNullableNumberField(f: Option<Json>) {
    f.None? || f.value.JNum? || f.value.JNull?
  }

  /** `z.union([z.number(), z.string()]).optional()`. */
  predicate IsOptionalNumberOrStringField(f: Option<Json>) {
    f.None? || f.value.JNum? || f.value.JStr?
  }

  /** `z.record(z.string(), z.number())`: an object whose every member is a number. */
  predicate IsNumberRecord(j: Json) {
    j.JObj? && forall i :: 0 <= i < |j.members| ==> j.members[i].1.JNum?
  }

  predicate IsNumberRecordField(f: Option<Json>) {
    f.Some? && IsNumberRecord(f.value)
  }

  /** `z.array(z.number())`. */
  predicate IsNumberArray(j: Json) {
    j.JArr? && forall i :: 0 <= i < |j.items| ==> j.items[i].JNum?
  }

  function NumberOf(f: Option<Json>): real
    requires IsNumberField(f)
  {
    f.value.n
  }

  function StringOf(f: Option<Json>): string
    requires IsStringField(f)
  {
    f.value.s
  }

  /** The value of a nullable number field; an absent field reads as null too. */
  function NullableNumberOf(f: Option<Json>): Option<real> {
    if f.Some? && f.value.JNum? then Some(f.value.n) else None
  }

  function RecordOf(j: Json): seq<(string, real)>
    requires IsNumberRecord(j)
  {
    seq(|j.members|, i requires 0 <= i < |j.members| => (j.members[i].0, j.members[i].1.n))
  }

  function NumbersOf(j: Json): seq<real>
    requires IsNumberArray(j)
  {
    seq(|j.items|, i requires 0 <= i < |j.items| => j.items[i].n)
  }

  function EncodeRecord(r: seq<(string, real)>): Json {
    JObj(seq(|r|, i requires 0 <= i < |r| => (r[i].0, JNum(r[i].1))))
  }

  function EncodeNumbers(xs: seq<real>): Json {
    JArr(seq(|xs|, i requires 0 <= i < |xs| => JNum(xs[i])))
  }

  function EncodeNullableNumber(x: Option<real>): Json {
    if x.Some? then JNum(x.value) else JNull
  }

  /** A field that is `.nullable().optional()`: absent (undefined), null, or a value. */
  datatype Optional<+T> = Absent | Null | Present(value: T)

  /* ---------- The global market snapshot (`globalMarketSchema`) ---------- */

  datatype GlobalMarketSnapshot = GlobalMarketSnapshot(
    activeCryptocurrencies: real,
    markets: real,
    totalMarketCap: seq<(string, real)>,
    totalVolume: seq<(string, real)>,
    marketCapPercentage: seq<(string, real)>,
    marketCapChangePercentage24hUsd: real,
    updatedAt: real)

  /** The inner `data` object of the `/global` envelope. */
  predicate IsGlobalMarketData(j: Json) {
    && j.JObj?
    && IsNumberField(Get(j, "active_cryptocurrencies"))
    && IsNumberField(Get(j, "markets"))
    && IsNumberRecordField(Get(j, "total_market_cap"))
    && IsNumberRecordField(Get(j, "total_volume"))
    && IsNumberRecordField(Get(j, "market_cap_percentage"))
    && IsNumberField(Get(j, "market_cap_change_percentage_24h_usd"))
    && IsNumberField(Get(j, "updated_at"))
  }

  /** `globalMarketSchema`: an object whose `data` member is the snapshot. */
  predicate IsGlobalMarketPayload(j: Json) {
    j.JObj? && Get(j, "data").Some? && IsGlobalMarketData(Get(j, "data").value)
  }

  function DecodeGlobalMarketData(j: Json): Option<GlobalMarketSnapshot> {
    if IsGlobalMarketData(j) then
      Some(GlobalMarketSnapshot(
        NumberOf(Get(j, "active_cryptocurrencies")),
        NumberOf(Get(j, "markets")),
        RecordOf(Get(j, "total_market_cap").value),
        RecordOf(Get(j, "total_volume").value),
        RecordOf(Get(j, "market_cap_percentage").value),
        NumberOf(Get(j, "market_cap_change_percentage_24h_usd")),
        NumberOf(Get(j, "updated_at"))))
    else None
  }

  /** `globalMarketSchema.parse(payload).data`: the envelope is unwrapped. */
  function DecodeGlobalMarketPayload(j: Json): (r: Option<GlobalMarketSnapshot>)
    ensures r.Some? <==> IsGlobalMarketPayload(j)
  {
    if IsGlobalMarketPayload(j) then DecodeGlobalMarketData(Get(j, "data").value) else None
  }

  /** The members of the `data` object, in the order the feed sends them. */
  const GlobalMarketFields: seq<string> := [
    "active_cryptocurrencies", "markets", "total_market_cap", "total_volume",
    "market_cap_percentage", "market_cap_change_percentage_24h_usd", "updated_at"]

  function EncodeGlobalMarketData(g: GlobalMarketSnapshot): Json {
    Object(GlobalMarketFields, [
      Some(JNum(g.activeCryptocurrencies)),
      Some(JNum(g.markets)),
      Some(EncodeRecord(g.totalMarketCap)),
      Some(EncodeRecord(g.totalVolume)),
      Some(EncodeRecord(g.marketCapPercentage)),
      Some(JNum(g.marketCapChangePercentage24hUsd)),
      Some(JNum(g.updatedAt))])
  }

  /** The `/global` document the feed sends for a snapshot. */
  function EncodeGlobalMarketPayload(g: GlobalMarketSnapshot): Json {
    Object(["data"], [Some(EncodeGlobalMarketData(g))])
  }

  lemma RecordRoundTrip(r: seq<(string, real)>)
    ensures IsNumberRecord(EncodeRecord(r)) && RecordOf(EncodeRecord(r)) == r
  {
  }

  lemma GlobalMarketFieldsDistinct()
    ensures Distinct(GlobalMarketFields)
  {
  }

  /** Every snapshot, sent as the feed sends it, is accepted and read back unchanged. */
  lemma GlobalMarketRoundTrip(g: GlobalMarketSnapshot)
    ensures DecodeGlobalMarketPayload(EncodeGlobalMarketPayload(g)) == Some(g)
  {
    var d := EncodeGlobalMarketData(g);
    GetObject(["data"], [Some(d)], 0);
    GlobalMarketFieldsDistinct();
    RecordRoundTrip(g.totalMarketCap);
    RecordRoundTrip(g.totalVolume);
    RecordRoundTrip(g.marketCapPercentage);
    var values := [
      Some(JNum(g.activeCryptocurrencies)),
      Some(JNum(g.markets)),
      Some(EncodeRecord(g.totalMarketCap)),
      Some(EncodeRecord(g.totalVolume)),
      Some(EncodeRecord(g.marketCapPercentage)),
      Some(JNum(g.marketCapChangePercentage24hUsd)),
      Some(JNum(g.updatedAt))];
    GetObject(GlobalMarketFields, values, 0);
    GetObject(GlobalMarketFields, values, 1);
    GetObject(GlobalMarketFields, values, 2);
    GetObject(GlobalMarketFields, values, 3);
    GetObject(GlobalMarketFields, values, 4);
    GetObject(GlobalMarketFields, values, 5);
    GetObject(GlobalMarketFields, values, 6);
  }

  /* ---------- One market coin (`marketCoinSchema`) and the top-coins list ---------- */

  datatype MarketCoin = MarketCoin(
    id: string,
    symbol: string,
    name: string,
    image: string,
    currentPrice: real,
    marketCap: real,
    marketCapRank: Option<real>,
    totalVolume: real,
    priceChangePercentage24h: Option<real>,
    priceChangePercentage7dInCurrency: Optional<real>,
    sparklineIn7d: Optional<seq<real>>)

  /** `sparkline_in_7d`: absent, null, or an object whose `price` is an array of numbers. */
  predicate IsSparklineField(f: Option<Json>) {
    f.None? || f.value.JNull?
    || (f.value.JObj? && Get(f.value, "price").Some? && IsNumberArray(Get(f.value, "price").value))
  }

  predicate IsMarketCoin(j: Json) {
    && j.JObj?
    && IsStringField(Get(j, "id"))
    && IsStringField(Get(j, "symbol"))
    && IsStringField(Get(j, "name"))
    && IsStringField(Get(j, "image"))
    && IsNumberField(Get(j, "current_price"))
    && IsNumberField(Get(j, "market_cap"))
    && IsNullableNumberField(Get(j, "market_cap_rank"))
    && IsNumberField(Get(j, "total_volume"))
    && IsNullableNumberField(Get(j, "price_change_percentage_24h"))
    && IsOptionalNullableNumberField(Get(j, "price_change_percentage_7d_in_currency"))
    && IsSparklineField(Get(j, "sparkline_in_7d"))
  }

  function OptionalNumberOf(f: Option<Json>): Optional<real>
    requires IsOptionalNullableNumberField(f)
  {
    if f.None? then Absent else if f.value.JNull? then Null else Present(f.value.n)
  }

  function SparklineOf(f: Option<Json>): Optional<seq<real>>
    requires IsSparklineField(f)
  {
    if f.None? then Absent
    else if f.value.JNull? then Null
    else Present(NumbersOf(Get(f.value, "price").value))
  }

  function MarketCoinOf(j: Json): MarketCoin
    requires IsMarketCoin(j)
  {
    MarketCoin(
      StringOf(Get(j, "id")),
      StringOf(Get(j, "symbol")),
      StringOf(Get(j, "name")),
      StringOf(Get(j, "image")),
      NumberOf(Get(j, "current_price")),
      NumberOf(Get(j, "market_cap")),
      NullableNumberOf(Get(j, "market_cap_rank")),
      NumberOf(Get(j, "total_volume")),
      NullableNumberOf(Get(j, "price_change_percentage_24h")),
      OptionalNumberOf(Get(j, "price_change_percentage_7d_in_currency")),
      SparklineOf(Get(j, "sparkline_in_7d")))
  }

  /** `topCoinsSchema`: an array of market coins. */
  predicate IsTopCoins(j: Json) {
    j.JArr? && forall i :: 0 <= i < |j.items| ==> IsMarketCoin(j.items[i])
  }

  /** `topCoinsSchema.parse(payload)`: all coins or a validation failure, never a part. */
  function DecodeTopCoins(j: Json): (r: Option<seq<MarketCoin>>)
    ensures r.Some? <==> IsTopCoins(j)
    ensures r.Some? ==> |r.value| == |j.items|
  {
    if IsTopCoins(j) then Some(seq(|j.items|, i requires 0 <= i < |j.items| => MarketCoinOf(j.items[i])))
    else None
  }

  function EncodeOptionalNumber(x: Optional<real>): Option<Json> {
    match x
    case Absent => None
    case Null => Some(JNull)
    case Present(v) => Some(JNum(v))
  }

  function EncodeSparkline(x: Optional<seq<real>>): Option<Json> {
    match x
    case Absent => None
    case Null => Some(JNull)
    case Present(prices) => Some(Object(["price"], [Some(EncodeNumbers(prices))]))
  }

  /** The members of one coin, in the order the `/coins/markets` feed sends them. */
  const MarketCoinFields: seq<string> := [
    "id", "symbol", "name", "image", "current_price", "market_cap", "market_cap_rank",
    "total_volume", "price_change_percentage_24h", "price_change_percentage_7d_in_currency",
    "sparkline_in_7d"]

  function MarketCoinValues(c: MarketCoin): seq<Option<Json>> {
    [ Some(JStr(c.id)),
      Some(JStr(c.symbol)),
      Some(JStr(c.name)),
      Some(JStr(c.image)),
      Some(JNum(c.currentPrice)),
      Some(JNum(c.marketCap)),
      Some(EncodeNullableNumber(c.marketCapRank)),
      Some(JNum(c.totalVolume)),
      Some(EncodeNullableNumber(c.priceChangePercentage24h)),
      EncodeOptionalNumber(c.priceChangePercentage7dInCurrency),
      EncodeSparkline(c.sparklineIn7d)]
  }

  /** The object the feed sends for one coin; an undefined field is left out. */
  function EncodeMarketCoin(c: MarketCoin): Json {
    Object(MarketCoinFields, MarketCoinValues(c))
  }

  lemma MarketCoinFieldsDistinct()
    ensures Distinct(MarketCoinFields)
  {
  }

  lemma NumbersRoundTrip(xs: seq<real>)
    ensures IsNumberArray(EncodeNumbers(xs)) && NumbersOf(EncodeNumbers(xs)) == xs
  {
  }

  lemma SparklineRoundTrip(x: Optional<seq<real>>)
    ensures IsSparklineField(EncodeSparkline(x)) && SparklineOf(EncodeSparkline(x)) == x
  {
    if x.Present? {
      NumbersRoundTrip(x.value);
      GetObject(["price"], [Some(EncodeNumbers(x.value))], 0);
    }
  }

  /** The text members of an encoded coin read back as sent. */
  lemma MarketCoinTextFields(c: MarketCoin)
    ensures Get(EncodeMarketCoin(c), "id") == Some(JStr(c.id))
    ensures Get(EncodeMarketCoin(c), "symbol") == Some(JStr(c.symbol))
    ensures Get(EncodeMarketCoin(c), "name") == Some(JStr(c.name))
    ensures Get(EncodeMarketCoin(c), "image") == Some(JStr(c.image))
  {
    MarketCoinFieldsDistinct();
    GetObject(MarketCoinFields, MarketCoinValues(c), 0);
    GetObject(MarketCoinFields, MarketCoinValues(c), 1);
    GetObject(MarketCoinFields, MarketCoinValues(c), 2);
    GetObject(MarketCoinFields, MarketCoinValues(c), 3);
  }

  /** The required number members of an encoded coin read back as sent. */
  lemma MarketCoinNumberFields(c: MarketCoin)
    ensures Get(EncodeMarketCoin(c), "current_price") == Some(JNum(c.currentPrice))
    ensures Get(EncodeMarketCoin(c), "market_cap") == Some(JNum(c.marketCap))
    ensures Get(EncodeMarketCoin(c), "market_cap_rank") == Some(EncodeNullableNumber(c.marketCapRank))
    ensures Get(EncodeMarketCoin(c), "total_volume") == Some(JNum(c.totalVolume))
    ensures Get(EncodeMarketCoin(c), "price_change_percentage_24h") == Some(EncodeNullableNumber(c.priceChangePercentage24h))
  {
    MarketCoinFieldsDistinct();
    GetObject(MarketCoinFields, MarketCoinValues(c), 4);
    GetObject(MarketCoinFields, MarketCoinValues(c), 5);
    GetObject(MarketCoinFields, MarketCoinValues(c), 6);
    GetObject(MarketCoinFields, MarketCoinValues(c), 7);
    GetObject(MarketCoinFields, MarketCoinValues(c), 8);
  }

  /** The optional members of an encoded coin read back as sent, undefined when left out. */
  lemma MarketCoinOptionalFields(c: MarketCoin)
    ensures Get(EncodeMarketCoin(c), "price_change_percentage_7d_in_currency") == EncodeOptionalNumber(c.priceChangePercentage7dInCurrency)
    ensures Get(EncodeMarketCoin(c), "sparkline_in_7d") == EncodeSparkline(c.sparklineIn7d)
  {
    MarketCoinFieldsDistinct();
    GetObject(MarketCoinFields, MarketCoinValues(c), 9);
    GetObject(MarketCoinFields, MarketCoinValues(c), 10);
  }

  /** Every coin, sent as the feed sends it, is accepted and read back unchanged. */
  lemma MarketCoinRoundTrip(c: MarketCoin)
    ensures IsMarketCoin(EncodeMarketCoin(c)) && MarketCoinOf(EncodeMarketCoin(c)) == c
  {
    MarketCoinTextFields(c);
    MarketCoinNumberFields(c);
    MarketCoinOptionalFields(c);
    SparklineRoundTrip(c.sparklineIn7d);
  }

  /** `topCoinsSchema` round trip: a list of coins sent as the feed sends it reads back unchanged. */
  lemma TopCoinsRoundTrip(coins: seq<MarketCoin>)
    ensures DecodeTopCoins(JArr(seq(|coins|, i requires 0 <= i < |coins| => EncodeMarketCoin(coins[i]))))
         == Some(coins)
  {
    var j := JArr(seq(|coins|, i requires 0 <= i < |coins| => EncodeMarketCoin(coins[i])));
    forall i | 0 <= i < |coins| ensures IsMarketCoin(j.items[i]) && MarketCoinOf(j.items[i]) == coins[i] {
      MarketCoinRoundTrip(coins[i]);
    }
    assert IsTopCoins(j);
    assert DecodeTopCoins(j).value == coins;
  }

  /* ---------- Trending coins (`trendingCoinsSchema`) and their projection ---------- */

  /** `z.union([z.number(), z.string()])`. */
  datatype NumberOrString = Num(n: real) | Text(s: string)

  /**
   * The loose `data` object of a trending item: a price and a `price_change_percentage_24h`
   * object, each optional; `priceChange24h == Some(None)` is the object without `usd`.
   */
  datatype TrendingData = TrendingData(price: Option<NumberOrString>, priceChange24h: Option<Option<NumberOrString>>)

  datatype TrendingItem = TrendingItem(
    id: string,
    name: string,
    symbol: string,
    marketCapRank: Option<real>,
    thumb: string,
    score: real,
    priceBtc: real,
    data: Option<TrendingData>)

  /** The flattened trending coin the dashboard renders. */
  datatype TrendingCoin = TrendingCoin(
    id: string,
    name: string,
    symbol: string,
    marketCapRank: Option<real>,
    score: real,
    priceBtc: real,
    priceUsd: Option<real>,
    priceChange24hUsd: Option<real>,
    thumb: string)

  /** `price_change_percentage_24h`: absent, or an object whose `usd` is an optional number or string. */
  predicate IsPriceChangeField(f: Option<Json>) {
    f.None? || (f.value.JObj? && IsOptionalNumberOrStringField(Get(f.value, "usd")))
  }

  /** `data`: absent, or an object (extra members pass through) with the two loose members. */
  predicate IsTrendingDataField(f: Option<Json>) {
    f.None?
    || (f.value.JObj?
        && IsOptionalNumberOrStringField(Get(f.value, "price"))
        && IsPriceChangeField(Get(f.value, "price_change_percentage_24h")))
  }

  predicate IsTrendingItem(j: Json) {
    && j.JObj?
    && IsStringField(Get(j, "id"))
    && IsStringField(Get(j, "name"))
    && IsStringField(Get(j, "symbol"))
    && IsNullableNumberField(Get(j, "market_cap_rank"))
    && IsStringField(Get(j, "thumb"))
    && IsNumberField(Get(j, "score"))
    && IsNumberField(Get(j, "price_btc"))
    && IsTrendingDataField(Get(j, "data"))
  }

  /** One element of `coins`: an object whose `item` is a trending item. */
  predicate IsTrendingEntry(j: Json) {
    j.JObj? && Get(j, "item").Some? && IsTrendingItem(Get(j, "item").value)
  }

  /** `trendingCoinsSchema`. */
  predicate IsTrendingPayload(j: Json) {
    && j.JObj?
    && Get(j, "coins").Some?
    && Get(j, "coins").value.JArr?
    && forall i :: 0 <= i < |Get(j, "coins").value.items| ==> IsTrendingEntry(Get(j, "coins").value.items[i])
  }

  function NumberOrStringOf(f: Option<Json>): Option<NumberOrString>
    requires IsOptionalNumberOrStringField(f)
  {
    if f.None? then None else if f.value.JNum? then Some(Num(f.value.n)) else Some(Text(f.value.s))
  }

  function TrendingDataOf(f: Option<Json>): Option<TrendingData>
    requires IsTrendingDataField(f)
  {
    if f.None? then None
    else
      var change := Get(f.value, "price_change_percentage_24h");
      Some(TrendingData(
        NumberOrStringOf(Get(f.value, "price")),
        if change.None? then None else Some(NumberOrStringOf(Get(change.value, "usd")))))
  }

  function TrendingItemOf(j: Json): TrendingItem
    requires IsTrendingItem(j)
  {
    TrendingItem(
      StringOf(Get(j, "id")),
      StringOf(Get(j, "name")),
      StringOf(Get(j, "symbol")),
      NullableNumberOf(Get(j, "market_cap_rank")),
      StringOf(Get(j, "thumb")),
      NumberOf(Get(j, "score")),
      NumberOf(Get(j, "price_btc")),
      TrendingDataOf(Get(j, "data")))
  }

  /** `trendingCoinsSchema.parse(payload).coins`, each entry unwrapped to its `item`. */
  function DecodeTrendingPayload(j: Json): (r: Option<seq<TrendingItem>>)
    ensures r.Some? <==> IsTrendingPayload(j)
    ensures r.Some? ==> |r.value| == |Get(j, "coins").value.items|
  {
    if IsTrendingPayload(j) then
      var entries := Get(j, "coins").value.items;
      Some(seq(|entries|, i requires 0 <= i < |entries| => TrendingItemOf(Get(entries[i], "item").value)))
    else None
  }

  function EncodeNumberOrString(v: Option<NumberOrString>): Option<Json> {
    match v
    case None => None
    case Some(Num(n)) => Some(JNum(n))
    case Some(Text(t)) => Some(JStr(t))
  }

  function EncodeTrendingData(d: Option<TrendingData>): Option<Json> {
    match d
    case None => None
    case Some(TrendingData(price, change)) =>
      Some(Object(["price", "price_change_percentage_24h"], [
        EncodeNumberOrString(price),
        if change.None? then None else Some(Object(["usd"], [EncodeNumberOrString(change.value)]))]))
  }

  /** The members of a trending item, in the order the `/search/trending` feed sends them. */
  const TrendingItemFields: seq<string> := [
    "id", "name", "symbol", "market_cap_rank", "thumb", "score", "price_btc", "data"]

  function TrendingItemValues(t: TrendingItem): seq<Option<Json>> {
    [ Some(JStr(t.id)),
      Some(JStr(t.name)),
      Some(JStr(t.symbol)),
      Some(EncodeNullableNumber(t.marketCapRank)),
      Some(JStr(t.thumb)),
      Some(JNum(t.score)),
      Some(JNum(t.priceBtc)),
      EncodeTrendingData(t.data)]
  }

  function EncodeTrendingItem(t: TrendingItem): Json {
    Object(TrendingItemFields, TrendingItemValues(t))
  }

  /** The `/search/trending` document for a list of items. */
  function EncodeTrendingPayload(items: seq<TrendingItem>): Json {
    Object(["coins"], [Some(JArr(seq(|items|, i requires 0 <= i < |items| =>
      Object(["item"], [Some(EncodeTrendingItem(items[i]))]))))])
  }

  lemma TrendingItemFieldsDistinct()
    ensures Distinct(TrendingItemFields)
  {
  }

  lemma NumberOrStringRoundTrip(v: Option<NumberOrString>)
    ensures IsOptionalNumberOrStringField(EncodeNumberOrString(v))
    ensures NumberOrStringOf(EncodeNumberOrString(v)) == v
  {
  }

  lemma TrendingDataRoundTrip(d: Option<TrendingData>)
    ensures IsTrendingDataField(EncodeTrendingData(d)) && TrendingDataOf(EncodeTrendingData(d)) == d
  {
    if d.Some? {
      var keys := ["price", "price_change_percentage_24h"];
      var change := d.value.priceChange24h;
      var values := [
        EncodeNumberOrString(d.value.price),
        if change.None? then None else Some(Object(["usd"], [EncodeNumberOrString(change.value)]))];
      GetObject(keys, values, 0);
      GetObject(keys, values, 1);
      NumberOrStringRoundTrip(d.value.price);
      if change.Some? {
        GetObject(["usd"], [EncodeNumberOrString(change.value)], 0);
        NumberOrStringRoundTrip(change.value);
      }
    }
  }

  /** The members of an encoded trending item read back as sent. */
  lemma TrendingItemFieldValues(t: TrendingItem)
    ensures Get(EncodeTrendingItem(t), "id") == Some(JStr(t.id))
    ensures Get(EncodeTrendingItem(t), "name") == Some(JStr(t.name))
    ensures Get(EncodeTrendingItem(t), "symbol") == Some(JStr(t.symbol))
    ensures Get(EncodeTrendingItem(t), "market_cap_rank") == Some(EncodeNullableNumber(t.marketCapRank))
    ensures Get(EncodeTrendingItem(t), "thumb") == Some(JStr(t.thumb))
    ensures Get(EncodeTrendingItem(t), "score") == Some(JNum(t.score))
    ensures Get(EncodeTrendingItem(t), "price_btc") == Some(JNum(t.priceBtc))
    ensures Get(EncodeTrendingItem(t), "data") == EncodeTrendingData(t.data)
  {
    TrendingItemFieldsDistinct();
    GetObject(TrendingItemFields, TrendingItemValues(t), 0);
    GetObject(TrendingItemFields, TrendingItemValues(t), 1);
    GetObject(TrendingItemFields, TrendingItemValues(t), 2);
    GetObject(TrendingItemFields, TrendingItemValues(t), 3);
    GetObject(TrendingItemFields, TrendingItemValues(t), 4);
    GetObject(TrendingItemFields, TrendingItemValues(t), 5);
    GetObject(TrendingItemFields, TrendingItemValues(t), 6);
    GetObject(TrendingItemFields, TrendingItemValues(t), 7);
  }

  lemma TrendingItemRoundTrip(t: TrendingItem)
    ensures IsTrendingItem(EncodeTrendingItem(t)) && TrendingItemOf(EncodeTrendingItem(t)) == t
  {
    TrendingItemFieldValues(t);
    TrendingDataRoundTrip(t.data);
  }

  /** Every list of trending items, sent as the feed sends it, is accepted and read back unchanged. */
  lemma TrendingPayloadRoundTrip(items: seq<TrendingItem>)
    ensures DecodeTrendingPayload(EncodeTrendingPayload(items)) == Some(items)
  {
    var entries := seq(|items|, i requires 0 <= i < |items| => Object(["item"], [Some(EncodeTrendingItem(items[i]))]));
    GetObject(["coins"], [Some(JArr(entries))], 0);
    forall i | 0 <= i < |items|
      ensures IsTrendingEntry(entries[i]) && TrendingItemOf(Get(entries[i], "item").value) == items[i]
    {
      GetObject(["item"], [Some(EncodeTrendingItem(items[i]))], 0);
      TrendingItemRoundTrip(items[i]);
    }
    var j := EncodeTrendingPayload(items);
    assert Get(j, "coins").value.items == entries;
    assert IsTrendingPayload(j);
    assert DecodeTrendingPayload(j).value == items;
  }

  /* ---------- `toNumber`: tolerant reading of a loose price ---------- */

  /** A character the noise pattern `[$,%\s,]` does not remove. */
  predicate KeepsInNumber(c: char) {
    c != '$' && c != ',' && c != '%' && !IsWhitespace(c)
  }

  /** `value.replace(/[$,%\s,]/g, "")`: dollar signs, commas, percent signs and whitespace go. */
  function StripNumberNoise(s: string): (r: string)
    ensures |r| <= |s|
    ensures forall i :: 0 <= i < |r| ==> KeepsInNumber(r[i])
  {
    if s == [] then [] else (if KeepsInNumber(s[0]) then [s[0]] else []) + StripNumberNoise(s[1..])
  }

  /**
   * Stripping is the filter that keeps exactly the characters the pattern does not
   * match: it removes every noise character, keeps every other one, and keeps their order.
   */
  lemma {:induction false} StripNumberNoiseIsFilter(s: string)
    ensures StripNumberNoise(s) == Filter(s, KeepsInNumber)
    ensures IsSubsequence(StripNumberNoise(s), s)
    ensures forall i :: 0 <= i < |s| && KeepsInNumber(s[i]) ==> s[i] in StripNumberNoise(s)
  {
    if s != [] {
      StripNumberNoiseIsFilter(s[1..]);
    }
    FilterIsSubsequence(s, KeepsInNumber);
  }

  /** Stripping twice strips nothing more. */
  lemma StripNumberNoiseIdempotent(s: string)
    ensures StripNumberNoise(StripNumberNoise(s)) == StripNumberNoise(s)
  {
    StripNumberNoiseIsFilter(StripNumberNoise(s));
    FilterAllPass(StripNumberNoise(s), KeepsInNumber);
  }

  /**
   * `toNumber`: undefined gives null; a number is kept (a JSON number is always
   * finite); a string is stripped of noise and converted with `Number`, and a result
   * that is NaN or infinite gives null.
   */
  function ToNumber(v: Option<NumberOrString>): (r: Option<real>)
    ensures v.None? ==> r.None?
    ensures v.Some? && v.value.Num? ==> r == Some(v.value.n)
    ensures v.Some? && v.value.Text? ==> (r.Some? <==> StringToNumber(StripNumberNoise(v.value.s)).Finite?)
    ensures v.Some? && v.value.Text? && r.Some? ==> StringToNumber(StripNumberNoise(v.value.s)) == Finite(r.value)
  {
    match v
    case None => None
    case Some(Num(n)) => Some(n)
    case Some(Text(t)) =>
      var parsed := StringToNumber(StripNumberNoise(t));
      if parsed.Finite? then Some(parsed.value) else None
  }

  /** A string that is nothing but noise (the empty string included) reads as 0, not null. */
  lemma ToNumberOfNoise(t: string)
    requires forall i :: 0 <= i < |t| ==> !KeepsInNumber(t[i])
    ensures ToNumber(Some(Text(t))) == Some(0.0)
  {
    assert StripNumberNoise(t) == [] by {
      StripNumberNoiseIsFilter(t);
    }
    BlankIsZero([]);
  }

  /** Whatever noise surrounds or splits a natural number's digits, the number is read. */
  lemma ToNumberOfDecimal(t: string, n: nat)
    requires StripNumberNoise(t) == DecimalOf(n)
    ensures ToNumber(Some(Text(t))) == Some(n as real)
  {
    DecimalRoundTrip(n);
  }

  /** The same with a minus sign in front of the digits. */
  lemma ToNumberOfNegativeDecimal(t: string, n: nat)
    requires StripNumberNoise(t) == "-" + DecimalOf(n)
    ensures ToNumber(Some(Text(t))) == Some(-(n as real))
  {
    NegativeDecimalRoundTrip(n);
  }

  /** A currency amount with grouping commas: `"$1,234"` reads as 1234. */
  lemma ToNumberExampleCurrency()
    ensures ToNumber(Some(Text("$1,234"))) == Some(1234.0)
  {
    assert StripNumberNoise("$1,234") == "1234";
    assert DecimalOf(1234) == "1234";
    ToNumberOfDecimal("$1,234", 1234);
  }

  /** Digits around one point, with noise, read as the whole part plus the fraction. */
  lemma ToNumberOfFraction(t: string, k: nat)
    requires 0 < k < |StripNumberNoise(t)| - 1 && StripNumberNoise(t)[k] == '.'
    requires forall i :: 0 <= i < |StripNumberNoise(t)| && i != k ==> IsDigit(StripNumberNoise(t)[i])
    ensures AllDigits(StripNumberNoise(t)[..k], 10) && AllDigits(StripNumberNoise(t)[k + 1..], 10)
    ensures ToNumber(Some(Text(t))) ==
      Some(NumeralValue(StripNumberNoise(t)[..k], 10) as real + FractionValue(StripNumberNoise(t)[k + 1..]))
  {
    FractionLiteral(StripNumberNoise(t), k);
  }

  /** A small price: `"$0.0031"` reads as 0.0031. */
  lemma ToNumberExampleFraction()
    ensures ToNumber(Some(Text("$0.0031"))) == Some(0.0031)
  {
    StripPriceNoise();
    PriceFraction(StripNumberNoise("$0.0031"));
    ToNumberOfFraction("$0.0031", 1);
  }

  lemma StripPriceNoise()
    ensures StripNumberNoise("$0.0031") == "0.0031"
  {
  }

  /** The parts of `0.0031`: whole part 0, fraction 0.0031. */
  lemma PriceFraction(u: string)
    requires u == "0.0031"
    ensures forall i :: 0 <= i < |u| && i != 1 ==> IsDigit(u[i])
    ensures AllDigits(u[..1], 10) && AllDigits(u[2..], 10)
    ensures NumeralValue(u[..1], 10) as real + FractionValue(u[2..]) == 0.0031
  {
    assert u[..1] == "0" && u[2..] == "0031";
    assert NumeralValue("0", 10) == 0 by {
      assert "0"[..0] == "";
    }
    assert "0031"[1..] == "031" && "031"[1..] == "31" && "31"[1..] == "1" && "1"[1..] == "";
  }

  /** A percentage: `" -5 %"` reads as -5. */
  lemma ToNumberExamplePercent()
    ensures ToNumber(Some(Text(" -5 %"))) == Some(-5.0)
  {
    assert StripNumberNoise(" -5 %") == "-5";
    assert DecimalOf(5) == "5";
    ToNumberOfNegativeDecimal(" -5 %", 5);
  }

  /**
   * Text whose first character after stripping cannot begin a numeric literal (not a
   * digit, sign, point or the `I` of `Infinity`) reads as null.
   */
  lemma ToNumberOfWord(t: string)
    requires StripNumberNoise(t) != []
    requires DigitValue(StripNumberNoise(t)[0]) == -1
    requires StripNumberNoise(t)[0] !in {'+', '-', '.', 'I'}
    ensures ToNumber(Some(Text(t))) == None
  {
    var u := StripNumberNoise(t);
    assert KeepsInNumber(u[|u| - 1]);
    TrimmedAlready(u);
    NonNumericStart(u);
  }

  /** Text that is no number reads as null: `"n/a"`. */
  lemma ToNumberExampleNotANumber()
    ensures ToNumber(Some(Text("n/a"))) == None
  {
    assert StripNumberNoise("n/a") == "n/a";
    ToNumberOfWord("n/a");
  }

  /* ---------- `fetchTrendingCoins`: projection, ordering by score, first seven ---------- */

  /** How many trending coins the dashboard keeps. */
  const TrendingLimit: nat := 7

  /** The `map` step: one trending coin from one item. */
  function ToTrendingCoin(item: TrendingItem): (c: TrendingCoin)
    ensures c.id == item.id && c.name == item.name && c.symbol == item.symbol && c.thumb == item.thumb
    ensures c.marketCapRank == item.marketCapRank && c.score == item.score && c.priceBtc == item.priceBtc
    ensures item.data.None? ==> c.priceUsd.None? && c.priceChange24hUsd.None?
    ensures item.data.Some? ==> c.priceUsd == ToNumber(item.data.value.price)
    ensures item.data.Some? && item.data.value.priceChange24h.Some?
            ==> c.priceChange24hUsd == ToNumber(item.data.value.priceChange24h.value)
    ensures item.data.Some? && item.data.value.priceChange24h.None? ==> c.priceChange24hUsd.None?
  {
    var price := if item.data.Some? then item.data.value.price else None;
    var change := if item.data.Some? && item.data.value.priceChange24h.Some?
      then item.data.value.priceChange24h.value else None;
    TrendingCoin(item.id, item.name, item.symbol, item.marketCapRank, item.score, item.priceBtc,
      ToNumber(price), ToNumber(change), item.thumb)
  }

  function ToTrendingCoins(items: seq<TrendingItem>): (r: seq<TrendingCoin>)
    ensures |r| == |items| && forall i :: 0 <= i < |items| ==> r[i] == ToTrendingCoin(items[i])
  {
    seq(|items|, i requires 0 <= i < |items| => ToTrendingCoin(items[i]))
  }

  /** The comparator `(a, b) => a.score - b.score`. */
  function ScoreOrder(a: TrendingCoin, b: TrendingCoin): real {
    a.score - b.score
  }

  lemma ScoreOrderConsistent()
    ensures IsConsistent(ScoreOrder)
  {
  }

  /** The trending list: projected, sorted by ascending score, cut after seven. */
  function TrendingCoins(items: seq<TrendingItem>): seq<TrendingCoin> {
    var sorted := SortBy(ToTrendingCoins(items), ScoreOrder);
    sorted[..TrendingCount(|items|)]
  }

  /** `slice(0, 7)` keeps seven elements, or all of them when there are fewer. */
  function TrendingCount(n: nat): (k: nat)
    ensures k <= n && k <= TrendingLimit
    ensures k == n || k == TrendingLimit
  {
    if n < TrendingLimit then n else TrendingLimit
  }

  /** Seven coins, or all of them when fewer were trending. */
  lemma TrendingCoinsCount(items: seq<TrendingItem>)
    ensures |TrendingCoins(items)| == TrendingCount(|items|)
  {
  }

  /** The list is in ascending order of score. */
  lemma TrendingCoinsSorted(items: seq<TrendingItem>)
    ensures forall i, j :: 0 <= i < j < |TrendingCoins(items)| ==>
      TrendingCoins(items)[i].score <= TrendingCoins(items)[j].score
  {
    var sorted := SortBy(ToTrendingCoins(items), ScoreOrder);
    ScoreOrderConsistent();
    SortByIsSorted(ToTrendingCoins(items), ScoreOrder);
    forall i, j | 0 <= i < j < |TrendingCoins(items)|
      ensures TrendingCoins(items)[i].score <= TrendingCoins(items)[j].score
    {
      assert ScoreOrder(sorted[i], sorted[j]) <= 0.0;
    }
  }

  /** Every coin shown is the projection of a trending item, each at most as often as it occurs. */
  lemma TrendingCoinsFromItems(items: seq<TrendingItem>)
    ensures multiset(TrendingCoins(items)) <= multiset(ToTrendingCoins(items))
  {
    PrefixMultiset(SortBy(ToTrendingCoins(items), ScoreOrder), TrendingCount(|items|));
  }

  /** The coins cut off score no lower than any coin kept: the seven lowest scores are shown. */
  lemma TrendingCoinsLowestScores(items: seq<TrendingItem>)
    ensures forall c, i | c in multiset(ToTrendingCoins(items)) - multiset(TrendingCoins(items))
      && 0 <= i < |TrendingCoins(items)| :: TrendingCoins(items)[i].score <= c.score
  {
    var all := ToTrendingCoins(items);
    var sorted := SortBy(all, ScoreOrder);
    var k := TrendingCount(|items|);
    assert TrendingCoins(items) == sorted[..k];
    ScoreOrderConsistent();
    SortByIsSorted(all, ScoreOrder);
    SortedPrefixScores(sorted, k);
  }

  /** In a list sorted by score, the first `k` scores are at most every score left behind. */
  lemma SortedPrefixScores(sorted: seq<TrendingCoin>, k: nat)
    requires IsConsistent(ScoreOrder) && Sorted(sorted, ScoreOrder) && k <= |sorted|
    ensures forall c, i | c in multiset(sorted) - multiset(sorted[..k]) && 0 <= i < k :: sorted[..k][i].score <= c.score
  {
    SortedPrefixFirst(sorted, ScoreOrder, k);
    forall c, i | c in multiset(sorted) - multiset(sorted[..k]) && 0 <= i < k
      ensures sorted[..k][i].score <= c.score
    {
      assert ScoreOrder(sorted[i], c) <= 0.0;
    }
  }

  /**
   * Equal scores keep the feed's order: the shown coins that tie with any coin `e`
   * are the first of the feed's coins that tie with it, in feed order.
   */
  lemma TrendingCoinsStable(items: seq<TrendingItem>, e: TrendingCoin)
    ensures Ties(TrendingCoins(items), ScoreOrder, e) <= Ties(ToTrendingCoins(items), ScoreOrder, e)
  {
    var sorted := SortBy(ToTrendingCoins(items), ScoreOrder);
    ScoreOrderConsistent();
    SortByStable(ToTrendingCoins(items), ScoreOrder, e);
    TiesOfPrefix(sorted, ScoreOrder, e, |TrendingCoins(items)|);
  }

  /* ---------- `fetchFromCoinGecko`: endpoint, response status, schema ---------- */

  const BaseUrl: string := "https://api.coingecko.com/api/v3"

  /** `endpoint.replace(/^\/+/, "")`: the leading slashes go, nothing else. */
  function NormalizeEndpoint(endpoint: string): (r: string)
    ensures |r| <= |endpoint| && r == endpoint[|endpoint| - |r|..]
    ensures forall i :: 0 <= i < |endpoint| - |r| ==> endpoint[i] == '/'
    ensures r == [] || r[0] != '/'
  {
    if endpoint != [] && endpoint[0] == '/' then NormalizeEndpoint(endpoint[1..]) else endpoint
  }

  /** The request URL: the base URL, a slash and the normalized endpoint, joined. */
  function RequestPath(endpoint: string): string {
    BaseUrl + "/" + NormalizeEndpoint(endpoint)
  }

  /** However many slashes the caller puts in front, the request goes to the same path under the base. */
  lemma RequestPathIgnoresLeadingSlashes(endpoint: string, slashes: nat)
    ensures RequestPath(seq(slashes, _ => '/') + endpoint) == RequestPath(endpoint)
  {
    var prefixed := seq(slashes, _ => '/') + endpoint;
    if slashes > 0 {
      assert prefixed[1..] == seq(slashes - 1, _ => '/') + endpoint;
      RequestPathIgnoresLeadingSlashes(endpoint, slashes - 1);
    } else {
      assert prefixed == endpoint;
    }
  }

  /**
   * The outcome of `fetch`: the `ok` flag, the status, and the body if it parsed as JSON.
   * `fetch` sets `ok` exactly when 200 <= status <= 299; the model takes the flag as given
   * and does not tie it to the status.
   */
  datatype Response = Response(ok: bool, status: int, body: Option<Json>)

  /** Why a fetch rejects: a non-ok status, a body that is no JSON, or a schema mismatch. */
  datatype FetchError = HttpStatusError(status: int) | InvalidJson | ValidationError

  /**
   * `fetchFromCoinGecko`: a non-ok response rejects with its status; otherwise the body
   * is parsed and checked against the schema, and a mismatch rejects as a whole.
   */
  function FetchPayload<T>(response: Response, decode: Json -> Option<T>): (r: Result<T, FetchError>)
    ensures !response.ok ==> r == Failure(HttpStatusError(response.status))
    ensures response.ok && response.body.None? ==> r == Failure(InvalidJson)
    ensures response.ok && response.body.Some? ==>
      (r.Success? <==> decode(response.body.value).Some?)
    ensures response.ok && response.body.Some? && r.Success? ==> r.value == decode(response.body.value).value
    ensures response.ok && response.body.Some? && r.Failure? ==> r.error == ValidationError
  {
    if !response.ok then Failure(HttpStatusError(response.status))
    else if response.body.None? then Failure(InvalidJson)
    else
      var parsed := decode(response.body.value);
      if parsed.Some? then Success(parsed.value) else Failure(ValidationError)
  }

  function FetchGlobalMarketSnapshot(response: Response): Result<GlobalMarketSnapshot, FetchError> {
    FetchPayload(response, DecodeGlobalMarketPayload)
  }

  function FetchTopCoins(response: Response): Result<seq<MarketCoin>, FetchError> {
    FetchPayload(response, DecodeTopCoins)
  }

  function FetchTrendingCoins(response: Response): Result<seq<TrendingCoin>, FetchError> {
    match FetchPayload(response, DecodeTrendingPayload)
    case Success(items) => Success(TrendingCoins(items))
    case Failure(e) => Failure(e)
  }

  /** An ok response carrying the feed's `/global` document yields that snapshot. */
  lemma FetchGlobalMarketSnapshotOk(g: GlobalMarketSnapshot, status: int)
    ensures FetchGlobalMarketSnapshot(Response(true, status, Some(EncodeGlobalMarketPayload(g)))) == Success(g)
  {
    GlobalMarketRoundTrip(g);
  }

  /** An ok response carrying the feed's coin list yields those coins, all of them. */
  lemma FetchTopCoinsOk(coins: seq<MarketCoin>, status: int)
    ensures FetchTopCoins(Response(true, status, Some(JArr(seq(|coins|, i requires 0 <= i < |coins| =>
      EncodeMarketCoin(coins[i])))))) == Success(coins)
  {
    TopCoinsRoundTrip(coins);
  }

  /** An ok response carrying the trending document yields the trending list of its items. */
  lemma FetchTrendingCoinsOk(items: seq<TrendingItem>, status: int)
    ensures FetchTrendingCoins(Response(true, status, Some(EncodeTrendingPayload(items))))
         == Success(TrendingCoins(items))
  {
    TrendingPayloadRoundTrip(items);
  }

  /** A failed status rejects every request with that status, whatever the body. */
  lemma FetchRejectsFailedStatus(status: int, body: Option<Json>)
    ensures FetchGlobalMarketSnapshot(Response(false, status, body)) == Failure(HttpStatusError(status))
    ensures FetchTopCoins(Response(false, status, body)) == Failure(HttpStatusError(status))
    ensures FetchTrendingCoins(Response(false, status, body)) == Failure(HttpStatusError(status))
  {
  }
}
