# Astro Token Verse — a Dafny model of the dashboard's logic

This project models the logic of a client-side cryptocurrency dashboard. The dashboard lists
top tokens, shows token details with a price chart, and keeps a personal watchlist in the
browser's storage. Everything is modelled as pure functions over immutable records:

- `WatchlistStore` (`watchlist_store.dfy`) covers the watchlist. The watchlist is an ordered
  list of token slugs with add, remove and contains. A single persisted slot,
  `cryptoWatchlist`, is loaded once and rewritten in full after every change.
- `CryptoService` (`crypto_service.dfy`) covers the data-access layer:
  - the mapping from a provider record to a `Cryptocurrency` record;
  - the fallbacks used when a request fails (the sample list, the lookup by slug, and the
    synthetic 30-day series);
  - the tier and digit choices of the two number formatters;
  - the sample data itself.
- `SearchDialog` (`search_dialog.dfy`) covers the case-insensitive search filter and the route
  taken when a result is selected.
- `WatchlistPage` (`watchlist_page.dfy`) covers the listing restricted to watched slugs, and
  which view the page shows.
- `PriceChart` (`price_chart.dfy`) covers the y-axis domain and the x-axis tick labels built
  from `YYYY-MM-DD` strings.
- Helper modules:
  - `Seqs` (`seqs.dfy`) holds filter, find and subsequence.
  - `Text` (`text.dfy`) holds ASCII case mapping, `includes`, `substring` and `split`/`join`.
  - `Wrappers` (`wrappers.dfy`) holds `Option`/`Result`.

A network request is an input value. It is `Fetched(data)` when the request delivered data,
and `Failed` on a transport error or a non-success status. The clock, `Math.random()` draws
and the time the module was loaded are parameters too.

Points where the code's behaviour is easy to misread:

- A stored watchlist value that is not valid JSON makes `JSON.parse` throw at
  `src/contexts/WatchlistContext.tsx:18`. Nothing catches it, so `WatchlistStore.Load` and
  `WatchlistStore.Init` return `Failure(ParseError)`.
- The history request always asks for 30 daily points. It has no period parameter.
- The `id` field is declared numeric. The transforms nevertheless store the provider's string
  id in it, while the sample data uses numbers. `TokenId` has both forms.
- A provider coin without a symbol makes `toUpperCase` throw inside the `try`. The listing then
  falls back to the sample list, and the detail to the sample lookup by slug.

## Model

| member | source | states |
|---|---|---|
| WatchlistStore.Load | src/contexts/WatchlistContext.tsx:15-19 | a missing or empty stored value loads as the empty list, a stored array loads as itself, and only an unparsable value fails |
| WatchlistStore.Init | src/contexts/WatchlistContext.tsx:15-24 | mounting either fails on an unparsable value or yields a store whose slot mirrors the loaded list |
| WatchlistStore.Contains | src/contexts/WatchlistContext.tsx:36-38 | `isInWatchlist(s)` is true exactly when `s` occurs in the list |
| WatchlistStore.Add | src/contexts/WatchlistContext.tsx:26-30 | after adding, the slug is present and nothing else is added; earlier entries keep their positions; the length grows by one exactly when the slug was absent, and then the slug is last |
| WatchlistStore.Remove | src/contexts/WatchlistContext.tsx:32-34 | after removal the slug is absent, every other entry stays with all its copies, and the survivors keep their relative order |
| WatchlistStore.AddIdempotent | src/contexts/WatchlistContext.tsx:26-30 | adding a present slug changes nothing, so adding twice equals adding once |
| WatchlistStore.RemoveAbsent | src/contexts/WatchlistContext.tsx:32-34 | removing an absent slug leaves the list unchanged |
| WatchlistStore.OperationsKeepNoDuplicates | src/contexts/WatchlistContext.tsx:26-34 | add and remove keep a duplicate-free list duplicate-free |
| WatchlistStore.Save | src/contexts/WatchlistContext.tsx:17-23 | what a save writes loads back as the same list, in the same order |
| WatchlistStore.Apply | src/contexts/WatchlistContext.tsx:22-34 | every change applies add or remove to the current list and re-persists the whole result; after an add the slug is contained, after a remove it is not |
| WatchlistStore.ReplayKeepsInvariants | src/contexts/WatchlistContext.tsx:15-34 | after any run of adds and removes from a persisted store, the slot holds the current list, a reload yields that same store, and a duplicate-free list stays duplicate-free |
| Seqs.Filter | src/contexts/WatchlistContext.tsx:33 | the filter result holds exactly the accepted elements of the input, every copy of each, and nothing else |
| Seqs.FilterIsSubsequence | src/pages/Watchlist.tsx:20 | filtering never reorders: the result is a subsequence of the input |
| Seqs.Find | src/services/cryptoService.ts:94 | the result is absent exactly when nothing matches; otherwise it is a matching element with no match before it |
| CryptoService.Transform | src/services/cryptoService.ts:73-88 | the symbol is upper-cased, the slug and id equal the provider id, falsy percent changes become 0, and a falsy total supply becomes the circulating supply; other fields are copied |
| CryptoService.Or | src/services/cryptoService.ts:42-47 | a truthy provider value is kept; a missing, null or zero value is replaced by the fallback |
| CryptoService.PercentChangeDefaults | src/services/cryptoService.ts:42-43 | a percent change is 0 exactly when the provider value is missing, null or 0 |
| CryptoService.SymbolUpperCased | src/services/cryptoService.ts:39 | the stored symbol has no lower-case letter and differs from the provider's only in letter case |
| CryptoService.ListTokens | src/services/cryptoService.ts:23-58 | a fetched page whose coins all have a symbol keeps its length and order, and element i is transformed from coin i with rank i + 1; a failed request, or a coin without a symbol, yields the 12 sample tokens, also ranked 1 to n |
| CryptoService.GetToken | src/services/cryptoService.ts:61-96 | a fetched detail with a symbol is transformed and keeps the provider's rank; on failure, or when the symbol is missing, the result is a sample token with the requested slug, or absent exactly when no sample has it |
| CryptoService.FindSample | src/services/cryptoService.ts:94 | the sample found has the requested slug, and none is found exactly when no sample has it |
| CryptoService.FindSampleUnique | src/services/cryptoService.ts:94 | because sample slugs are distinct, looking up any sample's slug finds that very sample |
| CryptoService.DayOf | src/services/cryptoService.ts:114 | the day number of a millisecond timestamp is the UTC day that contains it |
| CryptoService.BasePrice | src/services/cryptoService.ts:122 | the base price is positive; it is the sample token's price, or 100 for an unknown slug |
| CryptoService.SyntheticSeries | src/services/cryptoService.ts:124-136 | the fallback series has 30 points; point i is dated today - (29 - i), so points are one day apart and the last is today; every price is positive and lies in [0.9, 1.1) times base price times (1 + i/100) |
| CryptoService.RandomFactor | src/services/cryptoService.ts:131 | a draw in [0, 1) gives a factor in [0.9, 1.1) |
| CryptoService.TrendFactor | src/services/cryptoService.ts:132 | the trend factor is at least 1 and grows by 1/100 per index |
| CryptoService.Scaled | src/services/cryptoService.ts:133 | a product of a positive base price, random factor and trend factor is positive |
| CryptoService.ScaledWithinTenPercent | src/services/cryptoService.ts:131-133 | a random factor from a draw in [0, 1) keeps the price within [0.9, 1.1) of the trended base price |
| CryptoService.History | src/services/cryptoService.ts:99-138 | fetched pairs whose timestamps a `Date` can hold keep their prices and are dated by the UTC day of their timestamp; on failure, or when some timestamp is out of range, there are 30 positive points, one day apart, ending today, each within [0.9, 1.1) of the slug's base price times (1 + i/100) |
| CryptoService.CurrencyDigits | src/services/cryptoService.ts:141-148 | below 1 the formatter gets minimum 4 and maximum 6 fraction digits, otherwise exactly 2; the minimum never exceeds the maximum |
| CryptoService.FormatNumber | src/services/cryptoService.ts:150-162 | values below 1000 print plainly; other values get a suffix, and the mantissa times the suffix's divisor is the value; the mantissa is at least 1, and below 1000 unless the suffix is T |
| CryptoService.SuffixBands | src/services/cryptoService.ts:150-162 | a suffix is chosen exactly when the value lies in its band: T from 1e12, B in [1e9, 1e12), M in [1e6, 1e9), K in [1e3, 1e6) |
| CryptoService.FormatNumberExamples | src/services/cryptoService.ts:141-162 | 1.5e9 is abbreviated as 1.5 with suffix B; 999 prints plainly; 0.5 gets 4 to 6 fraction digits and 100 gets 2 |
| CryptoService.SampleCryptos | src/services/cryptoService.ts:165-358 | the sample list has 12 tokens ranked 1 to 12 in list order, all with positive prices and the load-time stamp |
| CryptoService.SampleSlugsDistinct | src/services/cryptoService.ts:165-358 | no two sample tokens share a slug |
| Text.IncludesIffOccurs | src/components/SearchDialog.tsx:37-39 | `includes` holds exactly when the needle occurs at some position of the string |
| Text.Lower | src/components/SearchDialog.tsx:35-39 | lower-casing keeps the length and maps each ASCII upper-case letter to lower case |
| Text.Upper | src/services/cryptoService.ts:39 | upper-casing keeps the length and maps each ASCII lower-case letter to upper case |
| Text.LowerEqualIffSameUpToCase | src/components/SearchDialog.tsx:35 | two strings lower-case to the same string exactly when they differ only in letter case |
| SearchDialog.Matches | src/components/SearchDialog.tsx:33-40 | an empty query matches nothing; a non-empty query matches at least every token whose lower-cased slug contains it |
| SearchDialog.MatchesIffOccurs | src/components/SearchDialog.tsx:33-40 | a token matches exactly when the query is non-empty and the lower-cased query occurs in its lower-cased name, symbol or slug |
| SearchDialog.FilteredTokens | src/components/SearchDialog.tsx:32-41 | the results are an order-preserving subsequence of the listing and hold exactly the matching tokens, with every copy of each; an empty query or an undefined listing yields nothing |
| SearchDialog.CaseInsensitive | src/components/SearchDialog.tsx:35-39 | queries that differ only in letter case give the same results |
| SearchDialog.SelectToken | src/components/SearchDialog.tsx:43-46 | selecting a token closes the dialog, and the route is `/token/` followed by the slug |
| WatchlistPage.WatchlistTokens | src/pages/Watchlist.tsx:20-22 | each shown token is watched (no extras), each watched listing token is shown (no omissions), listing order is kept with every copy, and an undefined listing shows nothing |
| WatchlistPage.WatchlistOrderIrrelevant | src/pages/Watchlist.tsx:20 | the shown tokens follow the listing, not the watchlist's insertion order |
| WatchlistPage.ChooseView | src/pages/Watchlist.tsx:34-80 | an error wins, then loading, then the grid of exactly the watched tokens, in listing order, when there are any; otherwise the empty-state message, shown only when no listed token is watched |
| PriceChart.MinPrice | src/components/PriceChart.tsx:29 | the minimum is one of the prices and no price is smaller |
| PriceChart.MaxPrice | src/components/PriceChart.tsx:30 | the maximum is one of the prices and no price is larger |
| PriceChart.YDomain | src/components/PriceChart.tsx:29-30 | the domain runs from 0.95 times the lowest price to 1.05 times the highest; an empty series has no finite domain |
| PriceChart.DomainContainsSeries | src/components/PriceChart.tsx:29-30 | for non-negative prices, the lower bound is at most the upper bound and every price lies between them |
| PriceChart.NegativePriceInvertsDomain | src/components/PriceChart.tsx:29-30 | a single negative price gives a lower bound above the upper bound |
| PriceChart.StyleFor | src/components/PriceChart.tsx:27-56 | 1D uses time-of-day labels; 90D, 1Y and ALL use month/year; a missing period (default 30D), 7D, 30D and any unrecognised period use month-day |
| PriceChart.TickLabel | src/components/PriceChart.tsx:33-56 | a label exists for every period except 1D; the month-day label is the tick without its first five characters, and empty for a shorter tick |
| Text.Drop | src/components/PriceChart.tsx:44 | `substring(n)` removes the first n characters, or all of them from a shorter string |
| Text.Split | src/components/PriceChart.tsx:50 | `split` always yields at least one field |
| Text.SplitJoin | src/components/PriceChart.tsx:50 | joining the fields of a split restores the string, and no field contains the separator |
| PriceChart.IsoDateFields | src/components/PriceChart.tsx:50-51 | a `YYYY-MM-DD` string splits into its year, month and day fields |
| PriceChart.DateTickLabels | src/components/PriceChart.tsx:41-52 | for a `YYYY-MM-DD` string the short periods label `MM-DD` and the long periods label `MM/YY` |

## Left out

- Network requests, the `toast` notifications and `console.error` are not modelled. A request is an input that either delivered decoded data or failed.
- JSON decoding of provider responses is left out. A response is modelled as already-decoded `ProviderCoin` records or `(timestamp, price)` pairs.
- CryptoService.GetToken: a detail response without `market_data` throws inside the `try` and falls back to the sample lookup. The model has no such response, since a `ProviderCoin` always carries its market fields. Only a missing symbol is modelled.
- CryptoService.ListTokens: a page that is not an array, or a coin whose other fields make the transform throw, is not modelled. Only a missing symbol is.
- CryptoService.History: a response without `prices` throws inside the `try` and yields the synthetic series. The model's fetched response always carries its pairs.
- Numbers are exact reals. The rounding of IEEE doubles is not modelled, neither in prices, in the products of the synthetic series, in the 0.95/1.05 scaling of the chart domain, nor at the formatter thresholds.
- `JSON.parse`, `JSON.stringify` and `localStorage` are left out. The slot's content is modelled as `Blank`, `Json(list)` or `Malformed`.
- WatchlistStore.Load: a stored value that parses to something other than an array of strings is not modelled. One example is the text `null`, which makes later `includes` calls throw.
- React mechanics are left out: state closures, `useEffect` scheduling, context lookup, `useQuery` caching and retries. Each watchlist operation is applied to the current list in turn.
- The `useWatchlist` guard that throws outside a provider is framework plumbing and is left out.
- Case mapping covers ASCII letters only. Full Unicode `toLowerCase`/`toUpperCase` is left out.
- CryptoService.Transform: JavaScript also treats `NaN` as falsy for the `||` defaults; the model has no `NaN`.
- CryptoService.Transform: a null circulating supply, and a null provider rank in the detail response, are not modelled. Both are plain numbers here.
- CryptoService.History: fetched points are dated by the UTC day number of their millisecond timestamp. The `YYYY-MM-DD` strings that `toISOString` would render are not modelled, and neither are non-integer or NaN timestamps.
- CryptoService.SyntheticSeries: one-day spacing is proved for local day numbers only. The emitted strings are UTC dates from `toISOString`, and near midnight or across a daylight-saving change they can repeat or skip a day; that is not modelled.
- CryptoService.SyntheticSeries: the `Math.random()` draws are a parameter. Only the bounds they imply are stated, never exact prices.
- CryptoService.FormatNumber: the mantissa is exact. The two-decimal rounding of `toFixed` and the digits of `toString` are not modelled.
- CryptoService.CurrencyDigits: only the fraction-digit choice is modelled. The output of `Intl.NumberFormat` is not.
- PriceChart.TickLabel: the 1D labels come from `toLocaleTimeString` and are not modelled; they give None.
- PriceChart.YDomain: an empty series gives `[Infinity, -Infinity]` in the chart, which the model represents as None. NaN prices are not modelled.
- Rendering and styling are not modelled: the header, token cards and stats, the detail, index and not-found pages, the route table and the styling configuration.
- CryptoService.SampleCryptos: each sample record takes its own `lastUpdated` stamp from the clock when the module loads, so the twelve stamps can differ. They are modelled as one `loadedAt` parameter.
