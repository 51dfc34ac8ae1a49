# Crypto dashboard, recipe finder and Pokédex: a verified model

This project models the logic of four small React front ends in Dafny and proves
properties about that logic.

- **Crypto market dashboard.** Its core is the CoinGecko client and the dashboard
  page. The client covers:
  - the zod response schemas, written as shape predicates over a JSON datatype;
  - `toNumber`, including JavaScript's `Number(string)`;
  - the trending-coin projection;
  - the handling of a fetch response.

  The dashboard page covers:
  - the validators of the persisted controls;
  - the visible top-coin list, which is searched, trend-filtered and stably sorted with nulls last;
  - the four-entry market dominance list;
  - the full-page failure state;
  - the control handlers.

  The `usePersistentState` hook is modelled as a class. A cell holds a value that is loaded from a
  `localStorage` object and written back as JSON text. The four dashboard controls are
  four such cells over one storage: the constructor is the first render, which loads them, and
  `Mount` is the effects that then write them back. The sparkline maps a price series into a
  100 × 100 view box.
- **Recipe finder.** The ingredient picker is modelled as a class with a text field and
  a list of distinct, lower-cased entries. The recipe card's match percentage and its
  link slug are modelled as functions.
- **Pokédex.** The type and name filter is a pure function. The page's state cells and
  the handlers that rewrite them form a class.

Numbers are exact reals. Strings are sequences of `char`, and a `char` is one Unicode scalar value.

## Model

| member | source | states |
|---|---|---|
| CoinGecko.DecodeGlobalMarketPayload | charles/vibe-code-app/src/lib/coingecko.ts:5-15 | the `/global` envelope is accepted exactly when it has the schema's shape |
| CoinGecko.GlobalMarketRoundTrip | charles/vibe-code-app/src/lib/coingecko.ts:121-125 | every snapshot sent in the `/global` envelope decodes and unwraps to itself |
| CoinGecko.DecodeTopCoins | charles/vibe-code-app/src/lib/coingecko.ts:17-36 | a coin list is accepted exactly when every coin has the schema's shape; on success there is one coin per element |
| CoinGecko.MarketCoinRoundTrip | charles/vibe-code-app/src/lib/coingecko.ts:17-34 | every coin, with nullable and optional fields absent, null or present, is accepted and read back unchanged |
| CoinGecko.TopCoinsRoundTrip | charles/vibe-code-app/src/lib/coingecko.ts:36 | every list of coins is accepted and read back unchanged |
| CoinGecko.SparklineRoundTrip | charles/vibe-code-app/src/lib/coingecko.ts:28-33 | an absent, null or present sparkline is accepted and read back as such |
| CoinGecko.RecordRoundTrip | charles/vibe-code-app/src/lib/coingecko.ts:9-11 | a number record is accepted and read back with its entries in order |
| CoinGecko.DecodeTrendingPayload | charles/vibe-code-app/src/lib/coingecko.ts:38-63 | the trending document is accepted exactly when it has the schema's shape; there is one item per entry |
| CoinGecko.TrendingPayloadRoundTrip | charles/vibe-code-app/src/lib/coingecko.ts:38-63 | every list of trending items, with loose `data` fields, is accepted and read back unchanged |
| CoinGecko.NumberOrStringRoundTrip | charles/vibe-code-app/src/lib/coingecko.ts:51 | the number-or-string union reads back as sent |
| CoinGecko.TrendingDataRoundTrip | charles/vibe-code-app/src/lib/coingecko.ts:49-59 | the optional `data` object with its optional members reads back as sent |
| CoinGecko.StripNumberNoise | charles/vibe-code-app/src/lib/coingecko.ts:91 | no `$`, `,`, `%` or whitespace is left, and the result is no longer than the input |
| CoinGecko.StripNumberNoiseIsFilter | charles/vibe-code-app/src/lib/coingecko.ts:91 | the replace removes exactly the noise characters and keeps every other character in order |
| CoinGecko.StripNumberNoiseIdempotent | charles/vibe-code-app/src/lib/coingecko.ts:91 | stripping twice is stripping once |
| CoinGecko.ToNumber | charles/vibe-code-app/src/lib/coingecko.ts:82-93 | undefined gives null; a number gives itself; text gives a number exactly when the stripped text converts to a finite number, and that number is the one the stripped text converts to |
| CoinGecko.ToNumberOfNoise | charles/vibe-code-app/src/lib/coingecko.ts:91-92 | text made only of noise, the empty string included, gives 0 and not null |
| CoinGecko.ToNumberOfDecimal | charles/vibe-code-app/src/lib/coingecko.ts:91-92 | the digits of any natural number, with noise around or between them, give that number |
| CoinGecko.ToNumberOfNegativeDecimal | charles/vibe-code-app/src/lib/coingecko.ts:91-92 | the same with a leading minus sign gives the negated number |
| CoinGecko.ToNumberExampleCurrency | charles/vibe-code-app/src/lib/coingecko.ts:91-92 | `"$1,234"` gives 1234 |
| CoinGecko.ToNumberExamplePercent | charles/vibe-code-app/src/lib/coingecko.ts:91-92 | `" -5 %"` gives -5 |
| CoinGecko.ToNumberOfFraction | charles/vibe-code-app/src/lib/coingecko.ts:91-92 | stripped text of digits with one inner point gives the integer part plus the decimal fraction |
| CoinGecko.ToNumberExampleFraction | charles/vibe-code-app/src/lib/coingecko.ts:91-92 | `"$0.0031"` gives 0.0031 |
| CoinGecko.ToNumberOfWord | charles/vibe-code-app/src/lib/coingecko.ts:91-92 | stripped text that starts with a character no numeric literal can start with gives null |
| CoinGecko.ToNumberExampleNotANumber | charles/vibe-code-app/src/lib/coingecko.ts:91-92 | `"n/a"` gives null |
| CoinGecko.ToTrendingCoin | charles/vibe-code-app/src/lib/coingecko.ts:144-154 | the item's fields are copied, and the two prices are `toNumber` of the optional `data` members, null when absent |
| CoinGecko.ToTrendingCoins | charles/vibe-code-app/src/lib/coingecko.ts:143-154 | one coin per item, in item order |
| CoinGecko.ScoreOrderConsistent | charles/vibe-code-app/src/lib/coingecko.ts:155 | `a.score - b.score` is antisymmetric and transitive, so sorting by it is well defined |
| CoinGecko.TrendingCount | charles/vibe-code-app/src/lib/coingecko.ts:156 | `slice(0, 7)` keeps seven elements, or all of them when there are fewer |
| CoinGecko.TrendingCoinsCount | charles/vibe-code-app/src/lib/coingecko.ts:143-156 | the list has min(7, items) coins |
| CoinGecko.TrendingCoinsSorted | charles/vibe-code-app/src/lib/coingecko.ts:155 | the list is in non-decreasing order of score |
| CoinGecko.TrendingCoinsFromItems | charles/vibe-code-app/src/lib/coingecko.ts:143-156 | every coin shown is a projected item, counted with multiplicity |
| CoinGecko.TrendingCoinsLowestScores | charles/vibe-code-app/src/lib/coingecko.ts:155-156 | no coin cut off has a lower score than a coin kept |
| CoinGecko.TrendingCoinsStable | charles/vibe-code-app/src/lib/coingecko.ts:155-156 | coins with equal scores keep the payload's order |
| CoinGecko.NormalizeEndpoint | charles/vibe-code-app/src/lib/coingecko.ts:100 | only leading slashes are removed, and the result does not start with one |
| CoinGecko.RequestPathIgnoresLeadingSlashes | charles/vibe-code-app/src/lib/coingecko.ts:100-101 | any number of leading slashes leads to the same request path under the base URL |
| CoinGecko.FetchPayload | charles/vibe-code-app/src/lib/coingecko.ts:113-118 | a non-ok status rejects with that status; otherwise a body that is not JSON rejects; otherwise the schema decides: a body the schema refuses rejects with a validation error, and an accepted body resolves to exactly what the schema decodes |
| CoinGecko.FetchGlobalMarketSnapshotOk | charles/vibe-code-app/src/lib/coingecko.ts:121-125 | an ok `/global` response yields the snapshot inside the envelope |
| CoinGecko.FetchTopCoinsOk | charles/vibe-code-app/src/lib/coingecko.ts:127-135 | an ok `/coins/markets` response yields all its coins |
| CoinGecko.FetchTrendingCoinsOk | charles/vibe-code-app/src/lib/coingecko.ts:137-157 | an ok `/search/trending` response yields the projected, sorted, truncated list |
| CoinGecko.FetchRejectsFailedStatus | charles/vibe-code-app/src/lib/coingecko.ts:113-115 | a failed status rejects all three requests, whatever the body |
| JsNumbers.BlankIsZero | charles/vibe-code-app/src/lib/coingecko.ts:91 | `Number` of a whitespace-only string is 0 |
| JsNumbers.DecimalRoundTrip | charles/vibe-code-app/src/lib/coingecko.ts:91 | `Number(String(n))` is n for every natural number |
| JsNumbers.NegativeDecimalRoundTrip | charles/vibe-code-app/src/lib/coingecko.ts:91 | `Number("-" + String(n))` is -n |
| JsNumbers.FractionLiteral | charles/vibe-code-app/src/lib/coingecko.ts:91 | `Number` of digits with one point strictly inside is the integer part plus the digits after the point read as a decimal fraction |
| JsNumbers.NonNumericStart | charles/vibe-code-app/src/lib/coingecko.ts:91-92 | a literal that starts with no digit, sign, point or `I` is NaN |
| Dashboard.ParseTrendFilter | charles/vibe-code-app/src/App.tsx:72-73 | a string is a trend filter exactly when it is one of the filter names, and it reads back as that filter |
| Dashboard.ParseSortKey | charles/vibe-code-app/src/App.tsx:75-76 | a string is a sort key exactly when it is one of the six key names |
| Dashboard.ParseSortDirection | charles/vibe-code-app/src/App.tsx:78-79 | a string is a direction exactly when it is `asc` or `desc` |
| Dashboard.NamesRoundTrip | charles/vibe-code-app/src/App.tsx:72-81 | each validator accepts the name of every value of its type, and the name reads back as that value |
| Dashboard.ToggleDirection | charles/vibe-code-app/src/App.tsx:376-378 | the result is a valid direction; `asc` and `desc` swap |
| Dashboard.ToggleDirectionInvolution | charles/vibe-code-app/src/App.tsx:376-378 | toggling twice restores a valid direction |
| Dashboard.GetCoinSortValue | charles/vibe-code-app/src/App.tsx:83-98 | each key reads its own field of the coin: rank, price, market cap, 24h change and volume as they are, and the 7d change, null exactly when it is absent |
| Dashboard.CoinOrderConsistent | charles/vibe-code-app/src/App.tsx:208-225 | the comparator, with nulls last in both directions, is antisymmetric and transitive |
| Dashboard.BlankSearchMatchesAll | charles/vibe-code-app/src/App.tsx:182-194 | a blank or whitespace-only search term matches every coin |
| Dashboard.SearchMatchIff | charles/vibe-code-app/src/App.tsx:182-194 | a coin matches a non-blank term exactly when its lower-cased name or symbol contains the trimmed, lower-cased term |
| Dashboard.TrendPartition | charles/vibe-code-app/src/App.tsx:196-202 | gainers and losers are disjoint, and a null or zero change is in neither |
| Dashboard.FilteredIsSubsequence | charles/vibe-code-app/src/App.tsx:185-206 | filtering keeps the input's order and adds nothing |
| Dashboard.VisibleMembership | charles/vibe-code-app/src/App.tsx:184-226 | a coin is visible exactly when it is in the input and passes both the search and the trend test |
| Dashboard.VisibleIsPermutation | charles/vibe-code-app/src/App.tsx:184-208 | sorting neither adds nor drops coins; multiplicities are kept |
| Dashboard.VisibleOrder | charles/vibe-code-app/src/App.tsx:208-225 | coins with a value come first, in ascending or descending order; coins with a null value come last |
| Dashboard.VisibleStable | charles/vibe-code-app/src/App.tsx:208-225 | coins that compare equal keep their input order |
| Dashboard.ExampleRankAscending | charles/vibe-code-app/src/App.tsx:208-225 | with no search and the `all` filter, the table sorted by rank ascending lists the coin ranked 1 before the coin ranked 2 |
| Dashboard.ExampleNullLastDescending | charles/vibe-code-app/src/App.tsx:208-225 | with no search and the `all` filter, the table sorted by 24h change descending lists a coin without a change last |
| Dashboard.ShareOrderConsistent | charles/vibe-code-app/src/App.tsx:234 | `b[1] - a[1]` is antisymmetric and transitive |
| Dashboard.DominanceCount | charles/vibe-code-app/src/App.tsx:235 | `slice(0, 4)` keeps four entries, or all of them when there are fewer |
| Dashboard.DominanceWithoutSnapshot | charles/vibe-code-app/src/App.tsx:229-231 | without a snapshot there are no entries |
| Dashboard.DominanceTopFour | charles/vibe-code-app/src/App.tsx:233-235 | at most four entries, largest share first, drawn from the snapshot, and no dropped share is larger than a kept one |
| Dashboard.DominanceStable | charles/vibe-code-app/src/App.tsx:233-235 | entries with equal shares keep the snapshot's order |
| Dashboard.DominanceOfSorted | charles/vibe-code-app/src/App.tsx:233-235 | shares already in non-increasing order are shown as they are, the first four of them |
| Dashboard.DominanceExample | charles/vibe-code-app/src/App.tsx:228-236 | btc 40, eth 18, usdt 5, bnb 3 and xrp 2 show the first four and drop xrp |
| Dashboard.FailurePageIff | charles/vibe-code-app/src/App.tsx:238-241 | the failure page shows exactly when there is no snapshot, both lists are missing or empty, and some query failed; it shows the first error of global, top coins, trending |
| Dashboard.DataKeepsDashboard | charles/vibe-code-app/src/App.tsx:238-241 | a snapshot or a non-empty top-coin list keeps the dashboard on screen, whatever failed |
| PersistentStore.LocalStorage.GetItem | charles/vibe-code-app/src/hooks/usePersistentState.ts:14 | a key's text, or null when the key is absent |
| PersistentStore.LoadValue | charles/vibe-code-app/src/hooks/usePersistentState.ts:8-25 | an absent entry, unparsable text or a value the guard rejects gives the initial value; otherwise the parsed value |
| PersistentStore.LoadValueValid | charles/vibe-code-app/src/hooks/usePersistentState.ts:8-25 | the loaded value always passes the guard |
| PersistentStore.LoadWritten | charles/vibe-code-app/src/hooks/usePersistentState.ts:20-33 | the text the effect writes for an accepted value loads back as that value |
| PersistentStore.PersistentState.constructor | charles/vibe-code-app/src/hooks/usePersistentState.ts:8-25 | the cell starts with the loaded value, or with the initial value when there is no window or reading storage throws |
| PersistentStore.PersistentState.Persist | charles/vibe-code-app/src/hooks/usePersistentState.ts:27-37 | the value's text is stored under the key and no other key changes; a failed write changes nothing |
| PersistentStore.EffectWrite | charles/vibe-code-app/src/hooks/usePersistentState.ts:27-37 | the effect writes the new value's text under its key only when the value changed; no other key is touched |
| PersistentStore.PersistentState.SetValue | charles/vibe-code-app/src/hooks/usePersistentState.ts:27-39 | the value is replaced; storage becomes what the effect writes, or stays as it was when the write throws; a persisted cell stays persisted |
| PersistentStore.Reload | charles/vibe-code-app/src/hooks/usePersistentState.ts:8-37 | remounting over the stored text loads the current value again |
| JsonString.ParseQuote | charles/vibe-code-app/src/hooks/usePersistentState.ts:20-33 | `JSON.parse(JSON.stringify(s))` is s for every string |
| JsonString.ParseNotAString | charles/vibe-code-app/src/hooks/usePersistentState.ts:20-21 | stored text that is not a JSON string is refused, so the initial value is used |
| Preferences.DashboardControls.constructor | charles/vibe-code-app/src/App.tsx:133-153 | on the first render each control loads its entry under its key, falling back to its default when there is no storage, reading throws, or the entry is absent, unparsable or rejected by its guard; no control holds an invalid name |
| Preferences.DashboardControls.Mount | charles/vibe-code-app/src/hooks/usePersistentState.ts:27-37 | the mount effects write the four controls' texts under their four keys and change no other key; a failed write leaves storage as it was; afterwards every control's text is stored under its key |
| Preferences.DashboardControls.SetSearchTerm | charles/vibe-code-app/src/App.tsx:326 | any text becomes the search term; storage changes only at that control's key, and only when its value changed; a failed write leaves storage as it was; stored controls stay in step |
| Preferences.DashboardControls.SetTrendFilter | charles/vibe-code-app/src/App.tsx:138-142 | the trend filter is replaced; storage changes only at that control's key, and only when its value changed; a failed write leaves storage as it was; stored controls stay in step |
| Preferences.DashboardControls.SetSortKey | charles/vibe-code-app/src/App.tsx:143-147 | the sort key is replaced; storage changes only at that control's key, and only when its value changed; a failed write leaves storage as it was; stored controls stay in step |
| Preferences.DashboardControls.SetSortDirection | charles/vibe-code-app/src/App.tsx:148-152 | the direction is replaced; storage changes only at that control's key, and only when its value changed; a failed write leaves storage as it was; stored controls stay in step |
| Preferences.DashboardControls.SelectTrend | charles/vibe-code-app/src/App.tsx:336-342 | a trend filter name is taken and written under the trend key when it differs; any other value changes neither the control nor storage |
| Preferences.DashboardControls.SelectSortKey | charles/vibe-code-app/src/App.tsx:355-361 | a sort key name is taken and written under the sort key's key when it differs; any other value changes neither the control nor storage |
| Preferences.DashboardControls.ToggleSortDirection | charles/vibe-code-app/src/App.tsx:375-379 | `asc` and `desc` swap, the new direction's text is written under the direction key and nothing else in storage changes; a failed write leaves storage as it was |
| Preferences.DashboardControls.ResetControls | charles/vibe-code-app/src/App.tsx:254-259 | the controls return to empty search, `all`, `market_cap_rank` and `asc`; each default is written under its key only when that control changed, no other key changes, and a failed write leaves storage as it was |
| Preferences.RemountRestores | charles/vibe-code-app/src/App.tsx:133-153 | once every control is stored, mounting again loads the same four values |
| Sparkline.Min | charles/vibe-code-app/src/components/Sparkline.tsx:11 | `Math.min` is an element no greater than any other |
| Sparkline.Max | charles/vibe-code-app/src/components/Sparkline.tsx:12 | `Math.max` is an element no smaller than any other |
| Sparkline.Range | charles/vibe-code-app/src/components/Sparkline.tsx:13 | the range is positive, and it is max - min for a series that is not flat |
| Sparkline.ChartPoints | charles/vibe-code-app/src/components/Sparkline.tsx:16-22 | one point per price, in series order |
| Sparkline.IsPositive | charles/vibe-code-app/src/components/Sparkline.tsx:25 | a missing trend counts as positive; otherwise the trend must be at least 0 |
| Sparkline.Render | charles/vibe-code-app/src/components/Sparkline.tsx:7-25 | no chart for fewer than two prices; otherwise the line is the prices scaled into the box, one point per price, the fill is the line closed by (100,100) and (0,100), and the chart is marked positive exactly when the trend is missing or non-negative |
| Sparkline.PointInViewBox | charles/vibe-code-app/src/components/Sparkline.tsx:11-19 | every x and every y lies between 0 and 100 |
| Sparkline.LineSpansWidth | charles/vibe-code-app/src/components/Sparkline.tsx:14-18 | the first x is 0 and the last is 100 |
| Sparkline.XIncreasing | charles/vibe-code-app/src/components/Sparkline.tsx:14-18 | x strictly increases along the series |
| Sparkline.YReversesOrder | charles/vibe-code-app/src/components/Sparkline.tsx:19 | a higher price has a smaller or equal y, and only then |
| Sparkline.ExtremesTouchEdges | charles/vibe-code-app/src/components/Sparkline.tsx:11-19 | in a series that is not flat, the minimum is drawn at y = 100 and the maximum at y = 0 |
| Sparkline.FlatSeriesOnBottom | charles/vibe-code-app/src/components/Sparkline.tsx:13-19 | in a flat series the range is 1 and every y is 100 |
| IngredientInput.Normalize | austin/vibe-script/src/components/IngredientInput.tsx:17-21 | the entry is the trimmed text lower-cased, so it is lower-case, has no surrounding whitespace, keeps the trimmed length, and is empty exactly when the text is blank |
| IngredientInput.NormalizeIdempotent | austin/vibe-script/src/components/IngredientInput.tsx:17-21 | normalizing an entry again leaves it unchanged |
| IngredientInput.RemoveAt | austin/vibe-script/src/components/IngredientInput.tsx:29 | an index in range deletes exactly that element and keeps the others in order; any other index changes nothing |
| IngredientInput.RemoveKeepsDistinct | austin/vibe-script/src/components/IngredientInput.tsx:29 | removal keeps the entries distinct, adds nothing, and drops the removed entry |
| IngredientInput.RemoveAppended | austin/vibe-script/src/components/IngredientInput.tsx:18-29 | removing the entry just added gives back the earlier list |
| IngredientInput.IngredientForm.constructor | austin/vibe-script/src/components/IngredientInput.tsx:13-14 | an empty field and an empty list |
| IngredientInput.IngredientForm.SetInput | austin/vibe-script/src/components/IngredientInput.tsx:54 | the field takes the typed text, and the list is unchanged |
| IngredientInput.IngredientForm.AddIngredient | austin/vibe-script/src/components/IngredientInput.tsx:16-26 | a new entry is appended and the field cleared; blank text or an existing entry changes nothing; entries stay distinct, non-empty and lower-case |
| IngredientInput.IngredientForm.RemoveIngredient | austin/vibe-script/src/components/IngredientInput.tsx:28-30 | the list loses the element at the index, if any; the field is unchanged |
| IngredientInput.IngredientForm.Search | austin/vibe-script/src/components/IngredientInput.tsx:32-36 | the list is handed on exactly when it is not empty |
| IngredientInput.IngredientForm.KeyPress | austin/vibe-script/src/components/IngredientInput.tsx:38-44 | Enter acts as add; any other key changes nothing |
| RecipeCard.Round | austin/vibe-script/src/components/RecipeCard.tsx:10 | the result is within one half of x, and halves round up |
| RecipeCard.MatchPercentageInIntegers | austin/vibe-script/src/components/RecipeCard.tsx:9-15 | with used ingredients, the match is (200u + t) div 2t for t = used + missed |
| RecipeCard.MatchPercentageBounds | austin/vibe-script/src/components/RecipeCard.tsx:9-15 | the match lies between 0 and 100 |
| RecipeCard.NothingMissedIsFullMatch | austin/vibe-script/src/components/RecipeCard.tsx:10-14 | with nothing missed and something used, the match is 100 |
| RecipeCard.MatchPercentageExamples | austin/vibe-script/src/components/RecipeCard.tsx:10-14 | one of two gives 50, one of three 33, two of three 67 |
| RecipeCard.CollapseWhitespace | austin/vibe-script/src/components/RecipeCard.tsx:50 | the result has no whitespace and is no longer than the title |
| RecipeCard.CollapseWithoutWhitespace | austin/vibe-script/src/components/RecipeCard.tsx:50 | a title without whitespace is left unchanged |
| RecipeCard.CollapseRun | austin/vibe-script/src/components/RecipeCard.tsx:50 | a maximal whitespace run after a word becomes exactly one `-` |
| RecipeCard.Slug | austin/vibe-script/src/components/RecipeCard.tsx:50 | the slug is the title with each whitespace run replaced by `-`, then `-` and the id in decimal; it has no whitespace |
| Pokedex.FilterPokemonIsSubsequence | nathan/pokedex-app/src/App.tsx:100-114 | the shown list keeps the order of all Pokémon and only drops entries |
| Pokedex.FilterPokemonIff | nathan/pokedex-app/src/App.tsx:102-112 | a Pokémon is shown exactly when it is listed and passes both tests: it has the selected type when one is selected, and its lower-cased name contains the lower-cased term when one is given |
| Pokedex.FilterPokemonIsOnePass | nathan/pokedex-app/src/App.tsx:100-114 | the two passes equal one filter by both tests |
| Pokedex.NoFiltersShowsAll | nathan/pokedex-app/src/App.tsx:100-114 | with no type and no term, every Pokémon is shown |
| Pokedex.PokedexPage.constructor | nathan/pokedex-app/src/App.tsx:74-79 | no Pokémon, an empty term and type, nothing shown and nothing selected |
| Pokedex.PokedexPage.Refilter | nathan/pokedex-app/src/App.tsx:99-116 | the shown list is the filter of the current list, term and type, and the selection is cleared |
| Pokedex.PokedexPage.LoadAll | nathan/pokedex-app/src/App.tsx:88-116 | a new list is stored and refiltered, and the selection is cleared |
| Pokedex.PokedexPage.SetSearchTerm | nathan/pokedex-app/src/App.tsx:99-116 | a changed term refilters and clears the selection; the same term changes nothing |
| Pokedex.PokedexPage.SetSelectedType | nathan/pokedex-app/src/App.tsx:99-116 | a changed type refilters and clears the selection; the same type changes nothing |
| Pokedex.PokedexPage.Click | nathan/pokedex-app/src/App.tsx:118-120 | the clicked Pokémon is selected, and nothing else changes |
| Pokedex.PokedexPage.Back | nathan/pokedex-app/src/App.tsx:122-124 | the selection is cleared, and nothing else changes |

## Left out

- Network I/O is out of scope. This covers `fetch`, the URL's query parameters (coingecko.ts:103-105) and the request headers. A response is modelled as its `ok` flag, its status and its body, which is either JSON or not. The Pokémon list and detail requests, and the recipe and GitHub API wrappers, are left out too.
- Polling and concurrency are out of scope: react-query's refetch timers, `refetchAll`, and the Pokédex's initial load effect. Only the effect of a loaded list is modelled (`LoadAll`).
- IEEE-754 doubles are not modelled. Numbers are exact reals, with no rounding, no overflow to Infinity, and no NaN or Infinity inside JSON. So `toNumber` of a JSON number always returns it.
- `toLowerCase` is modelled for the ASCII letters A-Z only. Other letters keep their case.
- JSON.parse of a stored string entry is modelled in full. Other JSON values, such as numbers, arrays or objects, count as unparsable text. Every validator of the dashboard first requires a string, so such a value falls back to the initial value, just as unparsable text does.
- An escape `\uXXXX` that encodes a lone surrogate is refused by the model's parser. JavaScript would accept it.
- `Object.entries` lists integer-like keys first. The model keeps the order in which the feed sends the members. The feed's currency codes are not integer-like.
- An encoded object's members are in schema order. Member order does not affect what the decoders accept.
- Formatting is out of scope: `Intl` number and date formats, TrendBadge, the SVG point strings, and all JSX.
- `PersistentStore.PersistentState.SetValue` requires the new value to pass the guard. In the source this is guaranteed by the setter's static type `T`, not checked at run time.
- `Preferences.DashboardControls.SetTrendFilter`, `SetSortKey` and `SetSortDirection` require a valid name for the same reason. The select handlers that receive arbitrary text check it first.
- The source's `hasNoData` treats an empty but successfully fetched top-coins or trending list as "no data". The prose description of the dashboard says "missing" data. The model follows the code.
- Strings count Unicode scalar values, where JavaScript counts UTF-16 code units. No modelled string holds a lone surrogate, and lengths and indices differ from JavaScript's for characters outside the Basic Multilingual Plane.
- `Json.Lookup` returns the first member with the key, while a JavaScript object built by `JSON.parse` keeps the last one. The `Json` datatype does not forbid repeated keys, so for such a value the decoders read the first member where JavaScript would read the last. Every value the model's encoders build has distinct keys, and there the two agree.
- `CoinGecko.Response` takes `ok` as given. `fetch` sets it exactly when the status is between 200 and 299; the model does not tie the two.
- `Preferences.DashboardControls.Mount` and `ResetControls` take one `writeFails` flag for all four writes, and the constructor one `readFails` flag for all four reads. Storage that is disabled or over quota fails for every key alike; a failure of one key's write alone is not modelled.
