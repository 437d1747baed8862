/** The data-access layer: the provider-record transforms, the fallbacks taken when a request
    fails, the synthetic price history, and the choices the two number formatters make.
    Network requests are not modelled: a request is an input that either delivered data or failed. */
module CryptoService {
  import opened Wrappers
  import Seqs
  import Text

  /** The `id` field: numeric in the sample data, the provider's string id after a transform. */
  datatype TokenId = NumId(n: int) | StrId(s: string)

  /** The internal token record (`Cryptocurrency`). */
  datatype Cryptocurrency = Cryptocurrency(
    id: TokenId,
    name: string,
    symbol: string,
    slug: string,
    price: real,
    percentChange24h: real,
    percentChange7d: real,
    marketCap: real,
    volume24h: real,
    circulatingSupply: real,
    totalSupply: real,
    maxSupply: Option<real>,
    rank: int,
    lastUpdated: string)

  /** One coin as the provider reports it, listing and detail endpoints alike;
      None stands for a field that is missing or null. */
  datatype ProviderCoin = ProviderCoin(
    id: string,
    name: string,
    symbol: Option<string>,
    currentPrice: real,
    change24h: Option<real>,
    change7d: Option<real>,
    marketCap: real,
    totalVolume: real,
    circulatingSupply: real,
    totalSupply: Option<real>,
    maxSupply: Option<real>,
    marketCapRank: int,
    lastUpdated: string)

  /** The outcome of one request: the decoded body, or any failure (transport error, non-2xx status). */
  datatype Fetch<T> = Fetched(data: T) | Failed

  /** A provider number counts as absent for `||` when it is missing, null or zero. */
  predicate Falsy(v: Option<real>) {
    v.None? || v.value == 0.0
  }

  /** JavaScript's `v || fallback` on a numeric field: a truthy value is kept, a falsy one replaced. */
  function Or(v: Option<real>, fallback: real): (r: real)
    ensures !Falsy(v) ==> r == v.value && r != 0.0
    ensures Falsy(v) ==> r == fallback
  {
    if Falsy(v) then fallback else v.value
  }

  /** The transform reads `coin.symbol.toUpperCase()`, which throws on a missing or null symbol. */
  predicate HasSymbol(c: ProviderCoin) {
    c.symbol.Some?
  }

  /** Every coin of a page can be transformed without throwing. */
  predicate AllHaveSymbols(coins: seq<ProviderCoin>) {
    forall i :: 0 <= i < |coins| ==> HasSymbol(coins[i])
  }

  /** The field contract of both transforms, stated per field. */
  ghost predicate TransformedFrom(c: ProviderCoin, t: Cryptocurrency) {
    && t.id == StrId(c.id)
    && t.name == c.name
    && HasSymbol(c)
    && t.symbol == Text.Upper(c.symbol.value)
    && t.slug == c.id
    && t.price == c.currentPrice
    && (Falsy(c.change24h) ==> t.percentChange24h == 0.0)
    && (!Falsy(c.change24h) ==> t.percentChange24h == c.change24h.value)
    && (Falsy(c.change7d) ==> t.percentChange7d == 0.0)
    && (!Falsy(c.change7d) ==> t.percentChange7d == c.change7d.value)
    && t.marketCap == c.marketCap
    && t.volume24h == c.totalVolume
    && t.circulatingSupply == c.circulatingSupply
    && (Falsy(c.totalSupply) ==> t.totalSupply == c.circulatingSupply)
    && (!Falsy(c.totalSupply) ==> t.totalSupply == c.totalSupply.value)
    && t.maxSupply == c.maxSupply
    && t.lastUpdated == c.lastUpdated
  }

  /** The provider → `Cryptocurrency` mapping, with the rank supplied by the caller. */
  function Transform(c: ProviderCoin, rank: int): (t: Cryptocurrency)
    requires HasSymbol(c)
    ensures TransformedFrom(c, t)
    ensures t.rank == rank
  {
    Cryptocurrency(
      StrId(c.id), c.name, Text.Upper(c.symbol.value), c.id, c.currentPrice,
      Or(c.change24h, 0.0), Or(c.change7d, 0.0),
      c.marketCap, c.totalVolume, c.circulatingSupply,
      Or(c.totalSupply, c.circulatingSupply), c.maxSupply,
      rank, c.lastUpdated)
  }

  /** A percent change is reported as 0 exactly when the provider's value is falsy. */
  lemma PercentChangeDefaults(c: ProviderCoin, rank: int)
    requires HasSymbol(c)
    ensures Transform(c, rank).percentChange24h == 0.0 <==> Falsy(c.change24h)
    ensures Transform(c, rank).percentChange7d == 0.0 <==> Falsy(c.change7d)
  {
  }

  /** The transformed symbol holds no lower-case letter and otherwise equals the provider's symbol. */
  lemma SymbolUpperCased(c: ProviderCoin, rank: int)
    requires HasSymbol(c)
    ensures forall i :: 0 <= i < |Transform(c, rank).symbol| ==> !Text.IsLowerLetter(Transform(c, rank).symbol[i])
    ensures Text.SameUpToCase(Transform(c, rank).symbol, c.symbol.value)
  {
    Text.UpperIsCaseChange(c.symbol.value);
  }

  /** `fetchCryptocurrencies`: transform the page, ranking by position, or fall back to the sample
      list when the request fails or a coin cannot be transformed (the throw lands in the same catch). */
  method ListTokens(response: Fetch<seq<ProviderCoin>>, loadedAt: string) returns (tokens: seq<Cryptocurrency>)
    ensures response.Failed? || !AllHaveSymbols(response.data) ==> tokens == SampleCryptos(loadedAt) && |tokens| == 12
    ensures response.Fetched? && AllHaveSymbols(response.data) ==> |tokens| == |response.data|
    ensures response.Fetched? && AllHaveSymbols(response.data) ==>
      forall i :: 0 <= i < |tokens| ==> TransformedFrom(response.data[i], tokens[i])
    ensures forall i :: 0 <= i < |tokens| ==> tokens[i].rank == i + 1
  {
    match response
    case Failed =>
      tokens := SampleCryptos(loadedAt);
    case Fetched(coins) =>
      tokens := [];
      var i := 0;
      while i < |coins|
        invariant 0 <= i <= |coins|
        invariant |tokens| == i
        invariant forall j :: 0 <= j < i ==> HasSymbol(coins[j])
        invariant forall j :: 0 <= j < i ==> TransformedFrom(coins[j], tokens[j])
        invariant forall j :: 0 <= j < i ==> tokens[j].rank == j + 1
      {
        if !HasSymbol(coins[i]) {
          tokens := SampleCryptos(loadedAt);
          return;
        }
        tokens := tokens + [Transform(coins[i], i + 1)];
        i := i + 1;
      }
  }

  /** `fetchCryptocurrencyBySlug`: the transformed detail, ranked by the provider, or else the
      first sample token with that slug, or nothing. */
  function GetToken(slug: string, response: Fetch<ProviderCoin>, loadedAt: string): (r: Option<Cryptocurrency>)
    ensures response.Fetched? && HasSymbol(response.data) ==> r.Some? && TransformedFrom(response.data, r.value)
    ensures response.Fetched? && HasSymbol(response.data) ==> r.value.rank == response.data.marketCapRank
    ensures (response.Failed? || !HasSymbol(response.data)) && r.Some? ==>
      r.value in SampleCryptos(loadedAt) && r.value.slug == slug
    ensures (response.Failed? || !HasSymbol(response.data)) && r.None? ==>
      forall t :: t in SampleCryptos(loadedAt) ==> t.slug != slug
  {
    match response
    case Fetched(coin) =>
      if HasSymbol(coin) then Some(Transform(coin, coin.marketCapRank)) else FindSample(slug, loadedAt)
    case Failed => FindSample(slug, loadedAt)
  }

  /** `sampleCryptos.find(c => c.slug === slug)`. */
  function FindSample(slug: string, loadedAt: string): (r: Option<Cryptocurrency>)
    ensures r.Some? ==> r.value in SampleCryptos(loadedAt) && r.value.slug == slug
    ensures r.None? <==> forall t :: t in SampleCryptos(loadedAt) ==> t.slug != slug
  {
    Seqs.Find(SampleCryptos(loadedAt), (t: Cryptocurrency) => t.slug == slug)
  }

  /** Since sample slugs are distinct, looking up a sample's slug finds that very sample. */
  lemma FindSampleUnique(loadedAt: string, i: nat)
    requires i < 12
    ensures i < |SampleCryptos(loadedAt)|
    ensures FindSample(SampleCryptos(loadedAt)[i].slug, loadedAt) == Some(SampleCryptos(loadedAt)[i])
  {
    var samples := SampleCryptos(loadedAt);
    SampleSlugsDistinct(loadedAt);
    var slug := samples[i].slug;
    var r := FindSample(slug, loadedAt);
    var k :| 0 <= k < |samples| && samples[k] == r.value && forall j :: 0 <= j < k ==> samples[j].slug != slug;
    assert k == i;
  }

  // ---------------------------------------------------------------------------------------------
  // Price history

  /** The length of the daily history, in days. */
  const HistoryDays: nat := 30

  /** The base price used for a slug the sample list does not know. */
  const DefaultBasePrice: real := 100.0

  /** Milliseconds in a day; provider timestamps are milliseconds since the epoch. */
  const MillisPerDay: int := 86_400_000

  /** One point of a price series, dated by its UTC day number (days since 1970-01-01). */
  datatype PricePoint = PricePoint(day: int, price: real)

  /** The UTC calendar day of a millisecond timestamp, as `toISOString().split('T')[0]` names it.
      Dafny's division rounds toward negative infinity for a positive divisor, like the calendar does. */
  function DayOf(millis: int): (d: int)
    ensures d * MillisPerDay <= millis < (d + 1) * MillisPerDay
  {
    millis / MillisPerDay
  }

  /** `sampleCryptos.find(...)?.price || 100`. */
  function BasePrice(slug: string, loadedAt: string): (p: real)
    ensures p > 0.0
    ensures FindSample(slug, loadedAt).None? ==> p == DefaultBasePrice
    ensures FindSample(slug, loadedAt).Some? ==> p == FindSample(slug, loadedAt).value.price
  {
    match FindSample(slug, loadedAt)
    case None => DefaultBasePrice
    case Some(t) => if t.price != 0.0 then t.price else DefaultBasePrice
  }

  /** The random factor `0.9 + draw * 0.2` for a draw of `Math.random()` in [0, 1). */
  function RandomFactor(draw: real): (f: real)
    ensures 0.0 <= draw < 1.0 ==> 0.9 <= f < 1.1
  {
    0.9 + draw * 0.2
  }

  /** The trend factor `1 + i / 100` of the point with index `i`. */
  function TrendFactor(i: nat): (f: real)
    ensures f >= 1.0
    ensures (f - 1.0) * 100.0 == i as real
  {
    1.0 + (i as real) / 100.0
  }

  /** The synthetic fallback series: 30 daily points ending today, prices scattered around the
      base price with a mild upward trend. The draws of `Math.random()` are a parameter. */
  function SyntheticSeries(base: real, today: int, draws: seq<real>): (r: seq<PricePoint>)
    requires base > 0.0
    requires |draws| == HistoryDays
    requires forall i :: 0 <= i < |draws| ==> 0.0 <= draws[i] < 1.0
    ensures |r| == HistoryDays
    ensures r[HistoryDays - 1].day == today
    ensures forall i :: 0 <= i < |r| ==> r[i].day == today - (HistoryDays - 1 - i)
    ensures forall i :: 0 <= i < |r| - 1 ==> r[i + 1].day == r[i].day + 1
    ensures forall i :: 0 <= i < |r| ==> r[i].price > 0.0
    ensures forall i :: 0 <= i < |r| ==> 0.9 * (base * TrendFactor(i)) <= r[i].price < 1.1 * (base * TrendFactor(i))
  {
    ScaledSeriesBounds(base, draws);
    seq(HistoryDays, i requires 0 <= i < HistoryDays =>
      PricePoint(today - (HistoryDays - 1 - i), Scaled(base, RandomFactor(draws[i]), TrendFactor(i))))
  }

  /** `base * random * trend`; positive whenever its factors are. */
  function Scaled(base: real, random: real, trend: real): (p: real)
    requires base > 0.0 && random > 0.0 && trend > 0.0
    ensures p > 0.0
  {
    MulPositive(base, random);
    MulPositive(base * random, trend);
    base * random * trend
  }

  lemma MulPositive(x: real, y: real)
    requires x > 0.0 && y > 0.0
    ensures x * y > 0.0
  {
  }

  /** A scattered price lies within 10% of the trended base price. */
  lemma ScaledWithinTenPercent(base: real, draw: real, trend: real)
    requires base > 0.0 && 0.0 <= draw < 1.0 && trend > 0.0
    ensures 0.9 * (base * trend) <= Scaled(base, RandomFactor(draw), trend) < 1.1 * (base * trend)
  {
    var f := RandomFactor(draw);
    var t := base * trend;
    assert 0.9 <= f < 1.1;
    assert Scaled(base, f, trend) == f * t;
    MulPositive(base, trend);
    MulMonotone(0.9, f, t);
    MulStrictMonotone(f, 1.1, t);
    assert 0.9 * t <= Scaled(base, f, trend) < 1.1 * t;
  }

  /** `ScaledWithinTenPercent` for every index of the draws. */
  lemma ScaledSeriesBounds(base: real, draws: seq<real>)
    requires base > 0.0
    requires forall k :: 0 <= k < |draws| ==> 0.0 <= draws[k] < 1.0
    ensures forall i :: 0 <= i < |draws| ==>
      0.9 * (base * TrendFactor(i)) <= Scaled(base, RandomFactor(draws[i]), TrendFactor(i)) < 1.1 * (base * TrendFactor(i))
  {
    forall i | 0 <= i < |draws|
      ensures 0.9 * (base * TrendFactor(i)) <= Scaled(base, RandomFactor(draws[i]), TrendFactor(i)) < 1.1 * (base * TrendFactor(i))
    {
      ScaledWithinTenPercent(base, draws[i], TrendFactor(i));
    }
  }

  lemma MulMonotone(a: real, b: real, t: real)
    requires a <= b && t > 0.0
    ensures a * t <= b * t
  {
  }

  lemma MulStrictMonotone(a: real, b: real, t: real)
    requires a < b && t > 0.0
    ensures a * t < b * t
  {
  }

  /** The largest distance from the epoch, in milliseconds, that a JavaScript `Date` can hold;
      `toISOString` throws a `RangeError` for a timestamp beyond it. */
  const MaxDateMillis: int := 8_640_000_000_000_000

  /** A timestamp `new Date(t).toISOString()` accepts. */
  predicate InDateRange(millis: int) {
    -MaxDateMillis <= millis <= MaxDateMillis
  }

  /** Every pair of a history response has a representable timestamp. */
  predicate AllInDateRange(prices: seq<(int, real)>) {
    forall i :: 0 <= i < |prices| ==> InDateRange(prices[i].0)
  }

  /** `fetchHistoricalPriceData`: the provider's `[timestamp, price]` pairs dated by UTC day, or
      the synthetic series when the request fails or a timestamp makes `toISOString` throw. */
  function History(slug: string, response: Fetch<seq<(int, real)>>, today: int, draws: seq<real>, loadedAt: string): (r: seq<PricePoint>)
    requires |draws| == HistoryDays
    requires forall i :: 0 <= i < |draws| ==> 0.0 <= draws[i] < 1.0
    ensures response.Fetched? && AllInDateRange(response.data) ==> |r| == |response.data|
    ensures response.Fetched? && AllInDateRange(response.data) ==> forall i :: 0 <= i < |r| ==>
      r[i].price == response.data[i].1 && r[i].day * MillisPerDay <= response.data[i].0 < (r[i].day + 1) * MillisPerDay
    ensures response.Failed? || !AllInDateRange(response.data) ==>
      |r| == HistoryDays && forall i :: 0 <= i < |r| ==> r[i].price > 0.0
    ensures response.Failed? || !AllInDateRange(response.data) ==>
      forall i :: 0 <= i < |r| - 1 ==> r[i + 1].day == r[i].day + 1
    ensures response.Failed? || !AllInDateRange(response.data) ==> r[HistoryDays - 1].day == today
    ensures response.Failed? || !AllInDateRange(response.data) ==> forall i :: 0 <= i < |r| ==>
      0.9 * (BasePrice(slug, loadedAt) * TrendFactor(i)) <= r[i].price < 1.1 * (BasePrice(slug, loadedAt) * TrendFactor(i))
  {
    match response
    case Fetched(prices) =>
      if AllInDateRange(prices) then
        seq(|prices|, i requires 0 <= i < |prices| => PricePoint(DayOf(prices[i].0), prices[i].1))
      else
        SyntheticSeries(BasePrice(slug, loadedAt), today, draws)
    case Failed => SyntheticSeries(BasePrice(slug, loadedAt), today, draws)
  }

  // ---------------------------------------------------------------------------------------------
  // Formatting choices

  /** The minimum and maximum fraction digits handed to `Intl.NumberFormat`. */
  datatype FractionDigits = FractionDigits(minimum: nat, maximum: nat)

  /** `formatCurrency`: 4 to 6 fraction digits below one dollar, exactly 2 otherwise. */
  function CurrencyDigits(value: real): (r: FractionDigits)
    ensures r.minimum <= r.maximum
    ensures value < 1.0 ==> r.minimum == 4 && r.maximum == 6
    ensures 1.0 <= value ==> r.minimum == r.maximum == 2
  {
    if value < 1.0 then FractionDigits(4, 6) else FractionDigits(2, 2)
  }

  /** The magnitude suffixes of `formatNumber`. */
  datatype Suffix = T | B | M | K

  function Divisor(s: Suffix): real {
    match s
    case T => 1_000_000_000_000.0
    case B => 1_000_000_000.0
    case M => 1_000_000.0
    case K => 1_000.0
  }

  /** What `formatNumber` renders: a mantissa with two decimals and a suffix, or the plain value. */
  datatype NumberText = Abbreviated(mantissa: real, suffix: Suffix) | Plain(value: real)

  /** `formatNumber`: the first suffix whose threshold the value reaches, else the plain value. */
  function FormatNumber(value: real): (r: NumberText)
    ensures r.Plain? <==> value < 1_000.0
    ensures r.Plain? ==> r.value == value
    ensures r.Abbreviated? ==> r.mantissa * Divisor(r.suffix) == value
    ensures r.Abbreviated? ==> 1.0 <= r.mantissa
    ensures r.Abbreviated? && r.suffix != T ==> r.mantissa < 1_000.0
  {
    if value >= Divisor(T) then Abbreviated(value / Divisor(T), T)
    else if value >= Divisor(B) then Abbreviated(value / Divisor(B), B)
    else if value >= Divisor(M) then Abbreviated(value / Divisor(M), M)
    else if value >= Divisor(K) then Abbreviated(value / Divisor(K), K)
    else Plain(value)
  }

  /** The suffix is chosen by the threshold band the value falls in, and by nothing else. */
  lemma SuffixBands(value: real, s: Suffix)
    ensures FormatNumber(value) == Abbreviated(value / Divisor(s), s) <==>
      Divisor(s) <= value && (s == T || value < 1_000.0 * Divisor(s))
  {
  }

  /** 1.5 billion is shown as 1.50 with suffix B; 999 is shown as it is. */
  lemma FormatNumberExamples()
    ensures FormatNumber(1_500_000_000.0) == Abbreviated(1.5, B)
    ensures FormatNumber(999.0) == Plain(999.0)
    ensures CurrencyDigits(0.5) == FractionDigits(4, 6) && CurrencyDigits(100.0) == FractionDigits(2, 2)
  {
  }

  // ---------------------------------------------------------------------------------------------
  // Sample data

  function Sample(id: int, name: string, symbol: string, slug: string, price: real, change24h: real,
                  change7d: real, marketCap: real, volume: real, circulating: real, total: real,
                  maxSupply: Option<real>, rank: int, loadedAt: string): Cryptocurrency
  {
    Cryptocurrency(NumId(id), name, symbol, slug, price, change24h, change7d, marketCap, volume,
                   circulating, total, maxSupply, rank, loadedAt)
  }

  /** `sampleCryptos`, the fallback list; every record is stamped with the time the module was
      loaded, which is a parameter here. */
  function SampleCryptos(loadedAt: string): (samples: seq<Cryptocurrency>)
    ensures |samples| == 12
    ensures forall i :: 0 <= i < |samples| ==> samples[i].rank == i + 1
    ensures forall i :: 0 <= i < |samples| ==> samples[i].price > 0.0 && samples[i].lastUpdated == loadedAt
  {
    [ Sample(1, "Bitcoin", "BTC", "bitcoin", 61245.32, 2.15, 5.64, 1203845938253.0, 32584729353.0,
             19650000.0, 21000000.0, Some(21000000.0), 1, loadedAt),
      Sample(1027, "Ethereum", "ETH", "ethereum", 3059.87, -1.23, 3.42, 367892173522.0, 18473927462.0,
             120250000.0, 120250000.0, None, 2, loadedAt),
      Sample(5426, "Solana", "SOL", "solana", 146.32, 3.75, 12.89, 63743298173.0, 2734829353.0,
             435623120.0, 555623120.0, None, 3, loadedAt),
      Sample(52, "XRP", "XRP", "xrp", 0.5487, -0.78, 1.23, 29376284912.0, 1324567890.0,
             53500000000.0, 100000000000.0, Some(100000000000.0), 4, loadedAt),
      Sample(2010, "Cardano", "ADA", "cardano", 0.4231, 1.05, -2.43, 14978342567.0, 534678901.0,
             35380000000.0, 45000000000.0, Some(45000000000.0), 5, loadedAt),
      Sample(3408, "USD Coin", "USDC", "usd-coin", 1.0002, 0.01, 0.05, 32567890123.0, 2134567890.0,
             32563000000.0, 32563000000.0, None, 6, loadedAt),
      Sample(1839, "Binance Coin", "BNB", "binance-coin", 562.78, 2.34, 5.12, 85432987654.0, 1243567890.0,
             151784293.0, 166801148.0, Some(166801148.0), 7, loadedAt),
      Sample(3717, "Wrapped Bitcoin", "WBTC", "wrapped-bitcoin", 61243.75, 2.14, 5.62, 12584739283.0, 243567890.0,
             205482.0, 205482.0, Some(205482.0), 8, loadedAt),
      Sample(5994, "Shiba Inu", "SHIB", "shiba-inu", 0.00001823, 4.56, 15.34, 10752498365.0, 543216789.0,
             589658734827385.0, 999982123641241.0, None, 9, loadedAt),
      Sample(74, "Dogecoin", "DOGE", "dogecoin", 0.1234, 6.78, 9.87, 16745324897.0, 987654321.0,
             135762489652.0, 135762489652.0, None, 10, loadedAt),
      Sample(3890, "Polygon", "MATIC", "polygon", 0.6735, -2.45, -4.12, 6524897634.0, 432156789.0,
             9693426981.0, 10000000000.0, Some(10000000000.0), 11, loadedAt),
      Sample(5805, "Avalanche", "AVAX", "avalanche", 32.56, 3.67, 7.89, 11765432198.0, 432156789.0,
             361515108.0, 720000000.0, Some(720000000.0), 12, loadedAt) ]
  }

  /** No two sample tokens share a slug. */
  lemma SampleSlugsDistinct(loadedAt: string)
    ensures forall i, j :: 0 <= i < j < |SampleCryptos(loadedAt)| ==> SampleCryptos(loadedAt)[i].slug != SampleCryptos(loadedAt)[j].slug
  {
  }
}
