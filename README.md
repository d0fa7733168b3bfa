# Alpha Vantage daily-price retrieval, modelled in Dafny

This project models the two retrieval routines of a small stock-analysis
repository. Both fetch daily price series from the Alpha Vantage query API,
which may answer with data, a throttling notice, a premium-tier notice, an
error message or nothing usable.

- `download_historical_prices` (code1.py) checks its arguments, then takes
  each symbol in order and walks a list of query variants: adjusted-compact
  (only when adjusted prices are wanted), then daily-compact, then daily-full.
  For each variant it retries network errors, non-200 statuses and
  throttling notices, waiting 12, 24, 48, ... seconds between tries. It
  raises once `max_retries + 1` tries have failed. A premium notice, an error
  message or a missing series moves it to the next variant. The in-window
  prices of the first variant that yields any become that symbol's series,
  sorted by date.
- `fetch_alpha_vantage_daily` (code2.py) walks four endpoint options, trying
  each one up to three times with quick waits of 1 and 2 seconds. When an
  option's last try meets a network failure, an HTTP error status, a
  throttling notice or a missing series, it falls back to a CSV cache file
  per symbol. An error message or a premium notice moves to the next option
  at once, on any try, without reading the cache. Once every option has
  moved on, it reads the cache one last time. A live
  series is written to the cache before it is returned.

The network is a total function from a request to its reply. A request
records everything that identifies it within one call, so every request
gets a reply of its own. Each routine is an imperative method. It returns
its result together with the log of requests sent and the log of sleeps
taken; code2's routine also returns how many times it read the cache. Each
method is proved equal to a function that specifies it: `DownloadSpec` for
code1 and `FetchSpec` for code2. Each of those is built from a closed form
of one retry loop (a variant in code1, an endpoint option in code2): the
first attempt that is not retried decides how the loop ends. The
properties are lemmas about those functions.

Modules:
- `DatedSeries` (dated_series.dfy): day-indexed values and the stable sort
  by day that both routines apply.
- `AlphaVantage` (alpha_vantage.dfy): query variants, the decoded reply, and
  Python truthiness and `"premium" in msg.lower()`.
- `HistoricalPrices` (historical_prices.dfy): code1.py.
- `DailyCache` (daily_cache.dfy): code2.py's cache file name, load and save.
  `CacheStore` is a class whose `files` map the save updates.
- `DailyFetch` (daily_fetch.dfy): code2.py's fetch.
- `DailyFetchProperties` (daily_fetch_properties.dfy): what that fetch
  promises.

Behaviour of the code that the model keeps:
- code1 raises `RuntimeError` when a variant spends its retry budget. It
  does not move on to the next variant, and the whole call fails, not just
  that symbol.
- code1 stops at the first variant that yields in-window prices. A data
  reply with no prices in the window moves on like a non-data reply.
- code2 retries a reply that has no series, up to three times per option.
  Its quick waits are 1 s and then 2 s.
- Neither routine removes duplicate dates. A series is ascending by day and
  ties are allowed. In code1, whose `list.sort` is stable, equal days keep
  their input order; the model keeps that order for code2 too.
- After the network exception and the status check, code1 tests a premium
  notice before any other payload key (Information before Note). code2
  tests the error message first, then a notice (Note before Information).
- code2 reads the `"4. close"` field even for the adjusted endpoints.
- code2 ends the call at the first option that returns: a live series, the
  cache, a missing close column, or a network failure with no cache.

## Model

| member | source | states |
|---|---|---|
| DatedSeries.Insert | code1.py:124 | inserting into an ascending series keeps it ascending and adds exactly that element |
| DatedSeries.SortByDay | code1.py:124 | the sort result is ascending by day and a permutation of its input |
| DatedSeries.SortAscendingIsIdentity | code2.py:23 | sorting a series that is already in date order leaves it unchanged |
| DatedSeries.InsertOnDay | code1.py:124 | an inserted element goes ahead of every element of its own day, and the elements of every other day are unchanged |
| DatedSeries.SortByDayStable | code1.py:124 | the sort is stable: the elements of any one day keep their input order |
| DatedSeries.SortKeepsElements | code1.py:124 | an element is in the sorted series iff it is in the input |
| DatedSeries.SortKeepsWindow | code1.py:118-124 | sorting keeps every day inside the date window |
| AlphaVantage.Or | code1.py:88 | Python `a or b`: the result is `a` when `a` is truthy and `b` otherwise, so it is truthy iff either operand is |
| AlphaVantage.Lower | code1.py:89 | `lower()` keeps the length and lower-cases each ASCII letter in place |
| AlphaVantage.HasInfixAt | code1.py:89 | the substring test holds iff the pattern occurs at some offset |
| AlphaVantage.PremiumNeedsText | code1.py:89 | only a non-empty notice can count as a premium notice |
| DailyCache.CachePath | code2.py:12-13 | the cache file name decodes back to its symbol |
| DailyCache.CachePathInjective | code2.py:12-13 | two different symbols never share a cache file |
| DailyCache.LoadFrom | code2.py:16-27 | a load succeeds iff the file exists, parses and has a Close column; the rows it returns are that file's rows in date order |
| DailyCache.SaveThenLoad | code2.py:16-35 | a series saved in date order loads back unchanged |
| DailyCache.SaveKeepsOthers | code2.py:30-35 | a save changes no other symbol's cache, and a failed save changes nothing |
| DailyCache.CacheStore.LoadCachedClosePrices | code2.py:16-27 | the method returns what `LoadFrom` specifies for the current files |
| DailyCache.CacheStore.SaveCache | code2.py:30-35 | the new files are the old files with this symbol's entry overwritten, or unchanged when the write fails |
| HistoricalPrices.VariantsInOrder | code1.py:48-52 | the variants are three (adjusted-compact, daily-compact, daily-full) or two (without the first), in strict preference order |
| HistoricalPrices.ClassifyPrecedence | code1.py:85-112 | a premium notice wins over everything; any other notice is a retry; only a payload with no notice, no error message and a non-empty series counts as data |
| HistoricalPrices.WindowRows | code1.py:114-121 | the kept rows lie in the window, and every in-window record carrying the price field yields one |
| HistoricalPrices.WindowRowsSound | code1.py:116-121 | every kept row comes from an in-window record that carries the price field |
| HistoricalPrices.CollectRows | code1.py:114-121 | the rows loop computes exactly the kept rows in payload order |
| HistoricalPrices.PricePoints | code1.py:114-127 | the points a data reply yields are ascending and inside the window |
| HistoricalPrices.PricePointsExact | code1.py:114-125 | a point is returned iff it comes from an in-window record carrying the variant's price field (adjusted close or close) |
| HistoricalPrices.BackoffDoubles | code1.py:56-72 | the first wait is 12 seconds and each later wait is twice the one before |
| HistoricalPrices.Settle | code1.py:57-102 | the stopping attempt lies within the budget, every earlier attempt was transient, and the stopping attempt is not |
| HistoricalPrices.SettleIs | code1.py:57-102 | the stopping attempt is the unique attempt with those properties |
| HistoricalPrices.RaisesIffEveryAttemptTransient | code1.py:57-102 | a variant raises iff the budget is non-negative and all `max_retries + 1` attempts were transient |
| HistoricalPrices.VariantBudget | code1.py:57-102 | a variant sends at most `max_retries + 1` requests, numbered from 0, with one doubling wait between each pair |
| HistoricalPrices.NonDataMovesOn | code1.py:85-112 | a premium notice, an error message or a missing series moves on at once, without using up an attempt |
| HistoricalPrices.RunSymbolsFailsOnlyExhausted | code1.py:44-137 | once arguments are valid, the only error is a spent retry budget |
| HistoricalPrices.ValidationBeforeRequests | code1.py:31-37 | an empty symbol list, or a key that is missing after the environment fallback, is rejected before any request or sleep |
| HistoricalPrices.RunVariantsPointsInWindow | code1.py:54-133 | a symbol's series is ascending and inside the window |
| HistoricalPrices.RunVariantsEmptyIff | code1.py:123-135 | a symbol gets an empty list iff every variant moved on or had no prices in the window |
| HistoricalPrices.RunVariantsEmptyTriesAll | code1.py:54-135 | a symbol that gets an empty list has tried every variant, and the log holds all their requests |
| HistoricalPrices.RunVariantsStopsAtFirstPoints | code1.py:54-133 | the variant loop stops at the first variant that raises or yields points: that variant decides the result, every earlier one ended without points, and no later one sends a request |
| HistoricalPrices.RunSymbolsStopsAtRaise | code1.py:44-135 | the symbol loop fails iff some remaining symbol spends a retry budget; the first such symbol's cause is the call's error, every symbol before it got its list, and no later symbol sends a request |
| HistoricalPrices.RunSymbolsShape | code1.py:43-137 | the dictionary gains an entry for each remaining symbol, and every entry is an ascending in-window series |
| HistoricalPrices.DownloadedSeries | code1.py:11-137 | on success the keys are exactly the input symbols and every series is ascending and in the window |
| HistoricalPrices.RunVariantsOrdered | code1.py:54-133 | within a symbol, requests go variant by variant in preference order, then attempt by attempt |
| HistoricalPrices.RunSymbolsOrdered | code1.py:44-135 | requests go symbol by symbol, and each is for a listed symbol, a listed variant and an attempt within the budget |
| HistoricalPrices.RequestsInOrder | code1.py:11-137 | every request of the call is allowed, and all requests go in symbol, variant and attempt order |
| HistoricalPrices.RetryVariant | code1.py:55-129 | the retry loop's outcome, requests and sleeps are those of the closed-form variant run |
| HistoricalPrices.FetchSymbol | code1.py:44-135 | the variant loop's points and logs are those `RunVariants` gives for the symbol's variants |
| HistoricalPrices.DownloadHistoricalPrices | code1.py:11-137 | the result, the requests and the sleeps are those `DownloadSpec` gives |
| DailyFetch.ClassifyPrecedence | code2.py:58-94 | an error message wins over any notice; with none, a premium Note/Information moves on; a reply is retried iff it has no error message and either carries a notice that is not premium, or carries no notice and no non-empty series (so a throttling notice next to a series is retried) |
| DailyFetch.CloseColumn | code2.py:104-108 | KeyError iff no record has `"4. close"`; otherwise one row per record, in date order |
| DailyFetch.CloseColumnRows | code2.py:104-108 | the frame holds exactly the records' close cells, with an empty cell where a record lacks one |
| DailyFetch.Settle | code2.py:57-102 | the stopping attempt is 1 to 4; every earlier attempt was retried and the stopping attempt is not |
| DailyFetch.SettleIs | code2.py:57-102 | the stopping attempt is unique |
| DailyFetch.RunOptionSettled | code2.py:57-110 | an option whose attempt j is the first not retried ends as that reply decides, after j requests and j - 1 waits, without reading the cache |
| DailyFetch.RunOptionExhausted | code2.py:57-102 | an option whose three attempts were all retried reads the cache once and ends as the last reply and the cache decide |
| DailyFetch.HandleReply | code2.py:62-102 | the reply handler retries exactly the retryable classes before the last attempt, and reads the cache exactly when the last attempt is retryable |
| DailyFetch.TryOption | code2.py:57-110 | the attempt loop's outcome and logs are those of the closed-form option run |
| DailyFetch.Conclude | code2.py:104-110 | the caller gets the outcome's frame or error, and the cache is written only for a live series |
| DailyFetch.TryOptions | code2.py:50-110 | the option loop's outcome and logs are those `RunOptions` gives for the four endpoint options |
| DailyFetch.FetchAlphaVantageDaily | code2.py:38-116 | the result and the logs are those `FetchSpec` gives, and the cache afterwards is `FilesAfter` of the initial cache |
| DailyFetchProperties.AttemptsNumbered | code2.py:57 | an option's requests are numbered 1, 2, 3 in order |
| DailyFetchProperties.WaitsAreDelays | code2.py:47-48 | the quick waits are the listed delays, 1 s and then 2 s |
| DailyFetchProperties.OptionBudget | code2.py:57-102 | an option sends 1 to 3 requests with the listed delays between them, and reads the cache at most once, exactly when all three attempts were retried |
| DailyFetchProperties.ErrorOrPremiumMovesOn | code2.py:73-82 | an error message or a premium notice moves to the next option at once |
| DailyFetchProperties.ExhaustedOption | code2.py:62-100 | after three retried attempts the cache is returned if present; otherwise a network failure raises and any other reply moves on |
| DailyFetchProperties.OptionReturns | code2.py:57-110 | an option returns only a series in date order, the cached series, a missing close column, or a network failure when there is no cache |
| DailyFetchProperties.LoopStopsAtFirstReturn | code2.py:50-110 | the option loop returns the outcome of the first option that returns (including a raise); every earlier option moved on, and no later option sends a request; with no return, every option was tried |
| DailyFetchProperties.FetchOutcomes | code2.py:38-116 | a returned frame is in date order; a cached frame is what the cache holds; with a cache present, the only possible error is a missing close column |
| DailyFetchProperties.LiveResultIsCached | code2.py:104-110 | a live series reads back from a writable cache; any other outcome leaves the cache untouched; other symbols never change |
| DailyFetchProperties.OptionRequestsInOrder | code2.py:57-59 | an option's requests are all for that option, in attempt order |
| DailyFetchProperties.LoopRequestsInOrder | code2.py:50-59 | the loop sends requests option by option, in preference order, and attempt by attempt within an option |
| DailyFetchProperties.LoopRequestsFromOptions | code2.py:50-59 | each request the loop sends is for one of its options and is numbered 1 to 3 |
| DailyFetchProperties.LoopBudget | code2.py:50-102 | in total, the loop sends at most three requests for each of its options and reads the cache at most once for each of its options |
| DailyFetchProperties.EndpointOptionsRanked | code2.py:40-45 | the four endpoint options are listed in strict preference order |
| DailyFetchProperties.FetchRequestsInOrder | code2.py:38-116 | the call sends at most 12 requests, in option and attempt order, and reads the cache at most 5 times |

## Left out

- HTTP, JSON decoding and the request parameters: a reply is already
  classified from its status and the decoded keys. A body that does not
  decode to an object, or JSON that fails to parse, is not modelled.
- A reply is modelled by which keys it has and their string values. A key
  that is present with a null or non-string value (for example
  `{"Note": null, ...}`) is not modelled. code1.py:94 and 105 and
  code2.py:73 and 77 test such keys with `in`, which sees them; the model
  treats them as absent.
- Sleeping: waits are returned as a list of durations in seconds.
- Clocks and date parsing: dates are day ordinals. Malformed date strings
  (the `ValueError` from `strptime`) and the conversion to `datetime` are
  not modelled.
- Prices are carried as reals. `float()` conversion and its failure on a
  non-numeric string are not modelled.
- pandas and CSV: a cache file is modelled as what the reader makes of it
  (unreadable, or a table with or without a Close column). Column order,
  dtypes and the exact `sort_index` algorithm are not modelled. The model's
  sort keeps equal days in input order, which pandas' default `sort_index`
  does not promise.
- `str.lower()` is modelled for ASCII letters only.
- HistoricalPrices.DownloadHistoricalPrices takes every argument explicitly.
  The defaults of `download_historical_prices` (`api_key=None`,
  `adjusted=True`, `max_retries=3`) are not modelled; callers pass those
  values.
- The environment variable is a parameter of `DownloadHistoricalPrices`.
- The hard-coded API key in code2.py plays no part in the control flow and
  is left out.
- The rest of the repository is not part of this model: return and
  statistics helpers, plotting, the script code that calls the fetchers,
  and code3.py.
- Concurrency, cancellation and partially written cache files are not
  modelled.
- DailyFetch.FetchAlphaVantageDaily: the source saves the cache inside the
  option loop and then returns. The model returns the outcome from the loop
  and saves it in `Conclude`. The state it reaches is the same.
- DailyFetch.CloseColumn: a record field literally named `Close` is not
  modelled. In pandas such a field is a `Close` column already, so a series
  whose records carry `Close` but no `"4. close"` gives a frame, not a
  KeyError, and one that carries both gives two `Close` columns. The model
  reads only `"4. close"`.
- DailyFetch.CloseColumn: states the order and the length of the frame; its
  contents are stated separately by `CloseColumnRows`.
