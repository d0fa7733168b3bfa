/** `download_historical_prices` of code1.py: for each symbol, walk the query
    variants in order; per variant, retry transient failures with a doubling
    wait that starts at 12 seconds, and raise once the retry budget is spent;
    keep the in-window prices of the first variant that yields any.

    The network is a function from each request to its reply. A request names
    the symbol's position in the input list, the variant and the attempt
    number, so every request made by one call gets a reply of its own. The
    sleeps the call performs are returned as a list of durations. */
module HistoricalPrices {
  import opened AlphaVantage
  import opened DatedSeries

  type Point = Dated<Price>

  /** The first wait of every variant, in seconds. */
  const InitialWait: nat := 12

  /** The caller's settings: the inclusive date window (day ordinals),
      whether adjusted prices are preferred, and `max_retries`. */
  datatype Settings = Settings(startDay: int, endDay: int, adjusted: bool, maxRetries: int)

  /** One GET: the symbol's position in the input list, the symbol, the
      variant and the value of `attempt` when the request was sent. */
  datatype Request = Request(symbolIndex: nat, symbol: string, variant: Variant, attempt: nat)

  /** Why a request consumed an attempt; carried by the RuntimeError. */
  datatype RetryCause = NetworkFailure | HttpStatus(status: int) | RateLimited(message: Option<string>)

  /** The classes of reply, in the order the loop tests them. */
  datatype Class =
    | Transient(cause: RetryCause)
    | PremiumGated
    | ApiError
    | NoSeries
    | Series(records: seq<DayRecord>)

  datatype DownloadError =
    | NoSymbols                                      // ValueError: no symbols
    | MissingApiKey                                  // ValueError: no API key
    | Exhausted(symbol: string, cause: RetryCause)   // RuntimeError: retries spent

  /** The variant list: adjusted-compact first when adjusted prices are
      preferred, then unadjusted compact, then unadjusted full. */
  function Variants(adjusted: bool): seq<Variant> {
    (if adjusted then [Variant(TimeSeriesDailyAdjusted, Compact)] else [])
      + [Variant(TimeSeriesDaily, Compact), Variant(TimeSeriesDaily, Full)]
  }

  /** Position of a variant in the preference order above. */
  function Rank(v: Variant): nat {
    match v
    case Variant(TimeSeriesDailyAdjusted, Compact) => 0
    case Variant(TimeSeriesDaily, Compact) => 1
    case Variant(TimeSeriesDaily, Full) => 2
    case Variant(TimeSeriesDailyAdjusted, Full) => 3
  }

  predicate StrictlyRanked(variants: seq<Variant>) {
    forall a, b :: 0 <= a < b < |variants| ==> Rank(variants[a]) < Rank(variants[b])
  }

  /** The variant list is the three (or two) variants in preference order. */
  lemma VariantsInOrder(adjusted: bool)
    ensures StrictlyRanked(Variants(adjusted))
    ensures |Variants(adjusted)| == if adjusted then 3 else 2
    ensures Variants(adjusted)[0] == if adjusted then Variant(TimeSeriesDailyAdjusted, Compact) else Variant(TimeSeriesDaily, Compact)
    ensures Variants(adjusted)[|Variants(adjusted)| - 1] == Variant(TimeSeriesDaily, Full)
  {
  }

  /** `api_key`, falling back to the environment only when it is None. */
  function ResolveApiKey(apiKey: Option<string>, environment: Option<string>): Option<string> {
    if apiKey.None? then environment else apiKey
  }

  /** The reply classification, tests in source order: a transport error or a
      status other than 200 is transient; a premium notice (Information, else
      Note) comes next; then any other notice is a transient rate limit; only
      then the "Error Message" key and the time series. */
  function Classify(reply: Reply): Class {
    match reply
    case NetworkError => Transient(NetworkFailure)
    case HttpReply(status, p) =>
      if status != 200 then Transient(HttpStatus(status))
      else if MentionsPremium(Or(p.information, p.note)) then PremiumGated
      else if HasNotice(p) then Transient(RateLimited(Or(p.note, p.information)))
      else if p.errorMessage.Some? then ApiError
      else if !HasSeries(p) then NoSeries
      else Series(p.timeSeries.value)
  }

  /** The order of the tests decides the class of mixed payloads: a premium
      notice wins over an error message, and a plain notice also wins over an
      error message, so it costs an attempt instead of moving on. */
  lemma ClassifyPrecedence(p: Payload)
    ensures MentionsPremium(Or(p.information, p.note)) ==> Classify(HttpReply(200, p)) == PremiumGated
    ensures HasNotice(p) && !MentionsPremium(Or(p.information, p.note)) ==> Classify(HttpReply(200, p)).Transient?
    ensures Classify(HttpReply(200, p)).Series? <==> !HasNotice(p) && p.errorMessage.None? && HasSeries(p)
  {
  }

  /** The field holding the price: the adjusted close for the adjusted series. */
  function PriceKey(v: Variant): string {
    if v.series == TimeSeriesDailyAdjusted then "5. adjusted close" else "4. close"
  }

  /** A record is kept when its day is in the window and it has the field. */
  predicate Kept(r: DayRecord, key: string, startDay: int, endDay: int) {
    startDay <= r.day <= endDay && key in r.fields
  }

  function PointOf(r: DayRecord, key: string): Point
    requires key in r.fields
  {
    Dated(r.day, r.fields[key])
  }

  /** The kept rows, in the payload's order. */
  function WindowRows(records: seq<DayRecord>, key: string, startDay: int, endDay: int): (rows: seq<Point>)
    ensures WithinWindow(rows, startDay, endDay)
    ensures forall r :: r in records && Kept(r, key, startDay, endDay) ==> PointOf(r, key) in rows
  {
    if records == [] then []
    else
      var init := records[..|records| - 1];
      var last := records[|records| - 1];
      assert records == init + [last];
      WindowRows(init, key, startDay, endDay)
        + (if Kept(last, key, startDay, endDay) then [PointOf(last, key)] else [])
  }

  /** Every kept row comes from a kept record. */
  lemma {:induction false} WindowRowsSound(records: seq<DayRecord>, key: string, startDay: int, endDay: int, p: Point)
    requires p in WindowRows(records, key, startDay, endDay)
    ensures exists r :: r in records && Kept(r, key, startDay, endDay) && p == PointOf(r, key)
  {
    var init := records[..|records| - 1];
    var last := records[|records| - 1];
    assert records == init + [last];
    if p in WindowRows(init, key, startDay, endDay) {
      WindowRowsSound(init, key, startDay, endDay, p);
      var r :| r in init && Kept(r, key, startDay, endDay) && p == PointOf(r, key);
      assert r in records;
    } else {
      assert p == PointOf(last, key);
    }
  }

  /** The rows loop: walk the series, keep in-window records that carry the
      price field. */
  method CollectRows(records: seq<DayRecord>, key: string, startDay: int, endDay: int)
    returns (rows: seq<Point>)
    ensures rows == WindowRows(records, key, startDay, endDay)
  {
    rows := [];
    for i := 0 to |records|
      invariant rows == WindowRows(records[..i], key, startDay, endDay)
    {
      var r := records[i];
      if startDay <= r.day <= endDay {
        if key in r.fields {
          rows := rows + [Dated(r.day, r.fields[key])];
        }
      }
      assert records[..i + 1][..i] == records[..i];
    }
    assert records[..|records|] == records;
  }

  /** The points a data reply yields: kept rows sorted by day; they are
      ascending and inside the window. */
  function PricePoints(records: seq<DayRecord>, v: Variant, startDay: int, endDay: int): (points: seq<Point>)
    ensures Ascending(points)
    ensures WithinWindow(points, startDay, endDay)
  {
    var rows := WindowRows(records, PriceKey(v), startDay, endDay);
    SortKeepsWindow(rows, startDay, endDay);
    SortByDay(rows)
  }

  /** The points are exactly the in-window records that carry the variant's
      price field. */
  lemma PricePointsExact(records: seq<DayRecord>, v: Variant, startDay: int, endDay: int, p: Point)
    ensures p in PricePoints(records, v, startDay, endDay) <==>
      exists r :: r in records && Kept(r, PriceKey(v), startDay, endDay) && p == PointOf(r, PriceKey(v))
  {
    var rows := WindowRows(records, PriceKey(v), startDay, endDay);
    SortKeepsElements(rows, p);
    if p in rows {
      WindowRowsSound(records, PriceKey(v), startDay, endDay, p);
    }
  }

  /** 2^n. */
  function Pow2(n: nat): (r: nat)
    ensures r >= 1
  {
    if n == 0 then 1 else 2 * Pow2(n - 1)
  }

  /** The first n waits of a variant: 12, 24, 48, ... */
  function Backoff(n: nat): (waits: seq<nat>)
    ensures |waits| == n
  {
    seq(n, i requires 0 <= i => InitialWait * Pow2(i))
  }

  /** Each wait is twice the one before it. */
  lemma BackoffDoubles(n: nat)
    ensures n > 0 ==> Backoff(n)[0] == InitialWait
    ensures forall i :: 0 < i < n ==> Backoff(n)[i] == 2 * Backoff(n)[i - 1]
  {
  }

  /** The requests of attempts 0 .. n-1 of one variant. */
  function Attempts(si: nat, symbol: string, v: Variant, n: nat): (rs: seq<Request>)
    ensures |rs| == n
  {
    seq(n, k requires 0 <= k => Request(si, symbol, v, k))
  }

  predicate IsTransient(transport: Request -> Reply, si: nat, symbol: string, v: Variant, k: nat) {
    Classify(transport(Request(si, symbol, v, k))).Transient?
  }

  /** The attempt at which a variant's loop stops: the first attempt from `a`
      on whose reply is not transient, or max_retries + 1 when every allowed
      attempt is. */
  function Settle(transport: Request -> Reply, si: nat, symbol: string, v: Variant, maxRetries: int, a: nat): (j: nat)
    decreases maxRetries + 1 - a
    ensures a <= j
    ensures a <= maxRetries + 1 ==> j <= maxRetries + 1
    ensures a > maxRetries ==> j == a
    ensures forall k: nat :: a <= k < j ==> IsTransient(transport, si, symbol, v, k)
    ensures j <= maxRetries ==> !IsTransient(transport, si, symbol, v, j)
  {
    if a > maxRetries then a
    else if IsTransient(transport, si, symbol, v, a) then Settle(transport, si, symbol, v, maxRetries, a + 1)
    else a
  }

  /** The stopping attempt is unique: any j with the two defining properties
      is the one `Settle` finds. */
  lemma {:induction false} SettleIs(transport: Request -> Reply, si: nat, symbol: string, v: Variant, maxRetries: int, a: nat, j: nat)
    requires a <= j && (j <= maxRetries + 1 || j == a)
    requires forall k: nat :: a <= k < j ==> IsTransient(transport, si, symbol, v, k)
    requires j <= maxRetries ==> !IsTransient(transport, si, symbol, v, j)
    ensures Settle(transport, si, symbol, v, maxRetries, a) == j
    decreases j - a
  {
    if a < j {
      assert IsTransient(transport, si, symbol, v, a);
      SettleIs(transport, si, symbol, v, maxRetries, a + 1, j);
    }
  }

  /** How one variant's loop ends. */
  datatype VariantEnd =
    | Raised(cause: RetryCause)         // attempt passed max_retries: the call raises
    | MovedOn                           // premium notice, error message, no series, or no attempt allowed
    | Completed(points: seq<Point>)     // a data reply; the points may be empty

  datatype VariantRun = VariantRun(end: VariantEnd, requests: seq<Request>, sleeps: seq<nat>)

  /** One variant's loop, in closed form: j transient replies, each followed
      by a wait of 12 * 2^i, then either the raise (when j passed
      max_retries) or the class of reply j decides. */
  function RunVariant(transport: Request -> Reply, si: nat, symbol: string, v: Variant, s: Settings): VariantRun {
    var j := Settle(transport, si, symbol, v, s.maxRetries, 0);
    if j > s.maxRetries then
      if j == 0 then VariantRun(MovedOn, [], [])
      else
        assert IsTransient(transport, si, symbol, v, j - 1);
        VariantRun(Raised(Classify(transport(Request(si, symbol, v, j - 1))).cause), Attempts(si, symbol, v, j), Backoff(j - 1))
    else
      var end := match Classify(transport(Request(si, symbol, v, j)))
        case Series(records) => Completed(PricePoints(records, v, s.startDay, s.endDay))
        case _ => MovedOn;
      VariantRun(end, Attempts(si, symbol, v, j + 1), Backoff(j))
  }

  /** The loop raises exactly when every allowed attempt (there is at least
      one) got a transient reply. */
  lemma RaisesIffEveryAttemptTransient(transport: Request -> Reply, si: nat, symbol: string, v: Variant, s: Settings)
    ensures RunVariant(transport, si, symbol, v, s).end.Raised? <==>
      s.maxRetries >= 0 && forall k: nat :: k <= s.maxRetries ==> IsTransient(transport, si, symbol, v, k)
  {
  }

  /** The budget and the schedule: at most max_retries + 1 requests, numbered
      0, 1, ...; one wait fewer than requests, and the waits are 12, 24, 48, ...
      starting again at 12 for every variant. */
  lemma VariantBudget(transport: Request -> Reply, si: nat, symbol: string, v: Variant, s: Settings)
    ensures var run := RunVariant(transport, si, symbol, v, s);
      && |run.requests| <= (if s.maxRetries < 0 then 0 else s.maxRetries + 1)
      && run.requests == Attempts(si, symbol, v, |run.requests|)
      && run.sleeps == Backoff(if run.requests == [] then 0 else |run.requests| - 1)
  {
  }

  /** A premium notice, an error message or a missing series at attempt a
      ends the variant at once: no attempt is consumed and no wait follows. */
  lemma NonDataMovesOn(transport: Request -> Reply, si: nat, symbol: string, v: Variant, s: Settings, a: nat)
    requires a <= s.maxRetries
    requires forall k: nat :: k < a ==> IsTransient(transport, si, symbol, v, k)
    requires Classify(transport(Request(si, symbol, v, a))) in {PremiumGated, ApiError, NoSeries}
    ensures RunVariant(transport, si, symbol, v, s) == VariantRun(MovedOn, Attempts(si, symbol, v, a + 1), Backoff(a))
  {
    SettleIs(transport, si, symbol, v, s.maxRetries, 0, a);
  }

  /** The result of one symbol and the logs so far. */
  datatype SymbolRun = SymbolRun(points: Result<seq<Point>, RetryCause>, requests: seq<Request>, sleeps: seq<nat>)

  /** The variant loop of one symbol from variant k on, after `requests` and
      `sleeps`: a raise ends everything, non-empty points end the symbol, and
      anything else moves to the next variant. */
  function RunVariants(transport: Request -> Reply, si: nat, symbol: string, variants: seq<Variant>, k: nat,
                       s: Settings, requests: seq<Request>, sleeps: seq<nat>): SymbolRun
    requires k <= |variants|
    decreases |variants| - k
  {
    if k == |variants| then SymbolRun(Ok([]), requests, sleeps)
    else
      var run := RunVariant(transport, si, symbol, variants[k], s);
      var requests', sleeps' := requests + run.requests, sleeps + run.sleeps;
      match run.end
      case Raised(cause) => SymbolRun(Err(cause), requests', sleeps')
      case Completed(points) =>
        if points != [] then SymbolRun(Ok(points), requests', sleeps')
        else RunVariants(transport, si, symbol, variants, k + 1, s, requests', sleeps')
      case MovedOn => RunVariants(transport, si, symbol, variants, k + 1, s, requests', sleeps')
  }

  datatype Download = Download(result: Result<map<string, seq<Point>>, DownloadError>, requests: seq<Request>, sleeps: seq<nat>)

  /** The symbol loop from position i on, with the dictionary built so far. */
  function RunSymbols(transport: Request -> Reply, symbols: seq<string>, i: nat, s: Settings,
                      acc: map<string, seq<Point>>, requests: seq<Request>, sleeps: seq<nat>): Download
    requires i <= |symbols|
    decreases |symbols| - i
  {
    if i == |symbols| then Download(Ok(acc), requests, sleeps)
    else
      var run := RunVariants(transport, i, symbols[i], Variants(s.adjusted), 0, s, requests, sleeps);
      match run.points
      case Err(cause) => Download(Err(Exhausted(symbols[i], cause)), run.requests, run.sleeps)
      case Ok(points) => RunSymbols(transport, symbols, i + 1, s, acc[symbols[i] := points], run.requests, run.sleeps)
  }

  /** The whole call: validation first, then the symbols in order. */
  function DownloadSpec(symbols: seq<string>, apiKey: Option<string>, environment: Option<string>,
                        s: Settings, transport: Request -> Reply): Download
  {
    if symbols == [] then Download(Err(NoSymbols), [], [])
    else if !Truthy(ResolveApiKey(apiKey, environment)) then Download(Err(MissingApiKey), [], [])
    else RunSymbols(transport, symbols, 0, s, map[], [], [])
  }

  /** Only a spent retry budget makes the symbol loop fail. */
  lemma {:induction false} RunSymbolsFailsOnlyExhausted(transport: Request -> Reply, symbols: seq<string>, i: nat, s: Settings,
                                                          acc: map<string, seq<Point>>, requests: seq<Request>, sleeps: seq<nat>)
    requires i <= |symbols|
    ensures RunSymbols(transport, symbols, i, s, acc, requests, sleeps).result.Err? ==>
      RunSymbols(transport, symbols, i, s, acc, requests, sleeps).result.error.Exhausted?
    decreases |symbols| - i
  {
    if i < |symbols| {
      var run := RunVariants(transport, i, symbols[i], Variants(s.adjusted), 0, s, requests, sleeps);
      if run.points.Ok? {
        RunSymbolsFailsOnlyExhausted(transport, symbols, i + 1, s, acc[symbols[i] := run.points.value], run.requests, run.sleeps);
      }
    }
  }

  /** Argument validation: an empty symbol list, or an API key that is
      missing or empty after the environment lookup, raises ValueError, and
      then no request was made and no wait happened; no other input raises
      ValueError. An explicit empty key does not consult the environment. */
  lemma ValidationBeforeRequests(symbols: seq<string>, apiKey: Option<string>, environment: Option<string>,
                                 s: Settings, transport: Request -> Reply)
    ensures var d := DownloadSpec(symbols, apiKey, environment, s, transport);
      && (d.result == Err(NoSymbols) <==> symbols == [])
      && (d.result == Err(MissingApiKey) <==> symbols != [] && !Truthy(ResolveApiKey(apiKey, environment)))
      && (d.result.Err? && !d.result.error.Exhausted? ==> d.requests == [] && d.sleeps == [])
  {
    RunSymbolsFailsOnlyExhausted(transport, symbols, 0, s, map[], [], []);
  }

  /** A symbol's points are ascending and inside the window. */
  lemma {:induction false} RunVariantsPointsInWindow(transport: Request -> Reply, si: nat, symbol: string, variants: seq<Variant>,
                                                       k: nat, s: Settings, requests: seq<Request>, sleeps: seq<nat>)
    requires k <= |variants|
    ensures var run := RunVariants(transport, si, symbol, variants, k, s, requests, sleeps);
      run.points.Ok? ==> Ascending(run.points.value) && WithinWindow(run.points.value, s.startDay, s.endDay)
    decreases |variants| - k
  {
    if k < |variants| {
      var run := RunVariant(transport, si, symbol, variants[k], s);
      RunVariantsPointsInWindow(transport, si, symbol, variants, k + 1, s, requests + run.requests, sleeps + run.sleeps);
    }
  }

  /** A variant that ends without points: it moved on, or its data reply
      had no prices in the window. */
  predicate Yieldless(end: VariantEnd) {
    end == MovedOn || end == Completed([])
  }

  /** Variants k .. m-1 of a symbol all ended without points. */
  predicate YieldlessBetween(transport: Request -> Reply, si: nat, symbol: string, variants: seq<Variant>,
                             k: nat, m: nat, s: Settings)
    requires k <= m <= |variants|
  {
    forall i :: k <= i < m ==> Yieldless(RunVariant(transport, si, symbol, variants[i], s).end)
  }

  /** The requests of variants k .. m-1 of a symbol, one variant after another. */
  function VariantRequests(transport: Request -> Reply, si: nat, symbol: string, variants: seq<Variant>,
                           k: nat, m: nat, s: Settings): seq<Request>
    requires k <= m <= |variants|
    decreases m - k
  {
    if k == m then []
    else RunVariant(transport, si, symbol, variants[k], s).requests + VariantRequests(transport, si, symbol, variants, k + 1, m, s)
  }

  /** The requests of variants k .. m-1 are those of variant k, then the rest. */
  lemma VariantRequestsFirst(transport: Request -> Reply, si: nat, symbol: string, variants: seq<Variant>,
                             k: nat, m: nat, s: Settings, requests: seq<Request>)
    requires k < m <= |variants|
    ensures requests + RunVariant(transport, si, symbol, variants[k], s).requests
                     + VariantRequests(transport, si, symbol, variants, k + 1, m, s)
         == requests + VariantRequests(transport, si, symbol, variants, k, m, s)
  {
  }

  /** Variants k .. m-1 end without points iff variant k does and k+1 .. m-1 do. */
  lemma YieldlessFirst(transport: Request -> Reply, si: nat, symbol: string, variants: seq<Variant>,
                       k: nat, m: nat, s: Settings)
    requires k < m <= |variants|
    ensures YieldlessBetween(transport, si, symbol, variants, k, m, s) <==>
      Yieldless(RunVariant(transport, si, symbol, variants[k], s).end)
      && YieldlessBetween(transport, si, symbol, variants, k + 1, m, s)
  {
  }

  /** One step of the variant loop: a variant without points moves on to
      the next, any other variant ends the symbol with its points or its raise. */
  lemma RunVariantsStep(transport: Request -> Reply, si: nat, symbol: string, variants: seq<Variant>,
                        k: nat, s: Settings, requests: seq<Request>, sleeps: seq<nat>)
    requires k < |variants|
    ensures var run := RunVariant(transport, si, symbol, variants[k], s);
      RunVariants(transport, si, symbol, variants, k, s, requests, sleeps)
      == if Yieldless(run.end) then RunVariants(transport, si, symbol, variants, k + 1, s, requests + run.requests, sleeps + run.sleeps)
         else SymbolRun(if run.end.Raised? then Err(run.end.cause) else Ok(run.end.points), requests + run.requests, sleeps + run.sleeps)
  {
  }

  /** The symbol gets an empty list exactly when every variant from k on
      ended without points. */
  lemma {:induction false} RunVariantsEmptyIff(transport: Request -> Reply, si: nat, symbol: string, variants: seq<Variant>,
                                               k: nat, s: Settings, requests: seq<Request>, sleeps: seq<nat>)
    requires k <= |variants|
    ensures RunVariants(transport, si, symbol, variants, k, s, requests, sleeps).points == Ok([])
        <==> YieldlessBetween(transport, si, symbol, variants, k, |variants|, s)
    decreases |variants| - k
  {
    if k < |variants| {
      var run := RunVariant(transport, si, symbol, variants[k], s);
      RunVariantsStep(transport, si, symbol, variants, k, s, requests, sleeps);
      YieldlessFirst(transport, si, symbol, variants, k, |variants|, s);
      if Yieldless(run.end) {
        RunVariantsEmptyIff(transport, si, symbol, variants, k + 1, s, requests + run.requests, sleeps + run.sleeps);
      }
    }
  }

  /** When the symbol gets an empty list, every variant was tried: the log
      holds the requests of all of them. */
  lemma {:induction false} RunVariantsEmptyTriesAll(transport: Request -> Reply, si: nat, symbol: string, variants: seq<Variant>,
                                                    k: nat, s: Settings, requests: seq<Request>, sleeps: seq<nat>)
    requires k <= |variants|
    ensures var run := RunVariants(transport, si, symbol, variants, k, s, requests, sleeps);
      run.points == Ok([]) ==> run.requests == requests + VariantRequests(transport, si, symbol, variants, k, |variants|, s)
    decreases |variants| - k
  {
    if k < |variants| {
      var run := RunVariant(transport, si, symbol, variants[k], s);
      RunVariantsStep(transport, si, symbol, variants, k, s, requests, sleeps);
      if Yieldless(run.end) {
        RunVariantsEmptyTriesAll(transport, si, symbol, variants, k + 1, s, requests + run.requests, sleeps + run.sleeps);
        VariantRequestsFirst(transport, si, symbol, variants, k, |variants|, s, requests);
      }
    }
  }

  /** The symbol's loop, started at variant k after `requests`, stopped at
      variant m: the variants before m ended without points, m's end is
      the symbol's result, and the log ends with the requests of k .. m. */
  predicate StopsAt(transport: Request -> Reply, si: nat, symbol: string, variants: seq<Variant>,
                    k: nat, m: nat, s: Settings, requests: seq<Request>, run: SymbolRun)
    requires k <= m < |variants|
  {
    && YieldlessBetween(transport, si, symbol, variants, k, m, s)
    && RunVariant(transport, si, symbol, variants[m], s).end
       == (if run.points.Ok? then Completed(run.points.value) else Raised(run.points.error))
    && run.requests == requests + VariantRequests(transport, si, symbol, variants, k, m + 1, s)
  }

  /** The variant loop stops at the first variant that raises or yields
      in-window points: the symbol gets that variant's points (or the call
      raises its cause), every earlier variant ended without points, and no
      later variant sends a request. */
  lemma {:induction false} RunVariantsStopsAtFirstPoints(transport: Request -> Reply, si: nat, symbol: string, variants: seq<Variant>,
                                                          k: nat, s: Settings, requests: seq<Request>, sleeps: seq<nat>)
    requires k <= |variants|
    ensures var run := RunVariants(transport, si, symbol, variants, k, s, requests, sleeps);
      run.points != Ok([]) ==>
        exists m :: k <= m < |variants| && StopsAt(transport, si, symbol, variants, k, m, s, requests, run)
    decreases |variants| - k
  {
    if k < |variants| {
      var run := RunVariant(transport, si, symbol, variants[k], s);
      var requests' := requests + run.requests;
      var loop := RunVariants(transport, si, symbol, variants, k, s, requests, sleeps);
      RunVariantsStep(transport, si, symbol, variants, k, s, requests, sleeps);
      if Yieldless(run.end) {
        RunVariantsStopsAtFirstPoints(transport, si, symbol, variants, k + 1, s, requests', sleeps + run.sleeps);
        if loop.points != Ok([]) {
          var m :| k + 1 <= m < |variants| && StopsAt(transport, si, symbol, variants, k + 1, m, s, requests', loop);
          YieldlessFirst(transport, si, symbol, variants, k, m, s);
          VariantRequestsFirst(transport, si, symbol, variants, k, m + 1, s, requests);
          assert StopsAt(transport, si, symbol, variants, k, m, s, requests, loop);
        }
      } else {
        assert YieldlessBetween(transport, si, symbol, variants, k, k, s);
        VariantRequestsFirst(transport, si, symbol, variants, k, k + 1, s, requests);
        assert StopsAt(transport, si, symbol, variants, k, k, s, requests, loop);
      }
    }
  }

  /** A symbol's result does not depend on the logs its variant loop starts with. */
  lemma {:induction false} RunVariantsPointsIgnoreLogs(transport: Request -> Reply, si: nat, symbol: string, variants: seq<Variant>,
                                                       k: nat, s: Settings, requests: seq<Request>, sleeps: seq<nat>,
                                                       requests': seq<Request>, sleeps': seq<nat>)
    requires k <= |variants|
    ensures RunVariants(transport, si, symbol, variants, k, s, requests, sleeps).points
         == RunVariants(transport, si, symbol, variants, k, s, requests', sleeps').points
    decreases |variants| - k
  {
    if k < |variants| {
      var run := RunVariant(transport, si, symbol, variants[k], s);
      RunVariantsPointsIgnoreLogs(transport, si, symbol, variants, k + 1, s, requests + run.requests, sleeps + run.sleeps,
                                  requests' + run.requests, sleeps' + run.sleeps);
    }
  }

  /** Every request a symbol's variant loop adds carries that symbol's position. */
  lemma {:induction false} RunVariantsRequestsFor(transport: Request -> Reply, si: nat, symbol: string, variants: seq<Variant>,
                                                  k: nat, s: Settings, requests: seq<Request>, sleeps: seq<nat>)
    requires k <= |variants|
    ensures forall r :: r in RunVariants(transport, si, symbol, variants, k, s, requests, sleeps).requests ==>
      r in requests || r.symbolIndex == si
    decreases |variants| - k
  {
    if k < |variants| {
      var run := RunVariant(transport, si, symbol, variants[k], s);
      VariantBudget(transport, si, symbol, variants[k], s);
      forall r | r in requests + run.requests ensures r in requests || r.symbolIndex == si {
        if r in run.requests {
          var b :| 0 <= b < |run.requests| && run.requests[b] == r;
        }
      }
      RunVariantsRequestsFor(transport, si, symbol, variants, k + 1, s, requests + run.requests, sleeps + run.sleeps);
    }
  }

  /** The result symbol m gets from its variant loop, whatever was sent before it. */
  function SymbolPoints(transport: Request -> Reply, symbols: seq<string>, m: nat, s: Settings): Result<seq<Point>, RetryCause>
    requires m < |symbols|
  {
    RunVariants(transport, m, symbols[m], Variants(s.adjusted), 0, s, [], []).points
  }

  /** The symbol loop, started at position i after `requests`, raised at
      symbol m: every symbol i .. m-1 got its list, symbol m spent a retry
      budget and the call raises its cause, and every request of the call
      is an earlier one or for a symbol at positions i .. m. */
  predicate RaisesAt(transport: Request -> Reply, symbols: seq<string>, i: nat, m: nat, s: Settings,
                     requests: seq<Request>, d: Download)
    requires i <= m < |symbols|
  {
    && (forall j :: i <= j < m ==> SymbolPoints(transport, symbols, j, s).Ok?)
    && SymbolPoints(transport, symbols, m, s).Err?
    && d.result == Err(Exhausted(symbols[m], SymbolPoints(transport, symbols, m, s).error))
    && forall r :: r in d.requests ==> r in requests || i <= r.symbolIndex <= m
  }

  /** A spent retry budget ends the whole call, not just its symbol: the
      symbol loop fails iff some symbol from i on raises, the first such
      symbol's cause is the call's error, every symbol before it got its
      list, and no later symbol sends a request. */
  lemma {:induction false} RunSymbolsStopsAtRaise(transport: Request -> Reply, symbols: seq<string>, i: nat, s: Settings,
                                                  acc: map<string, seq<Point>>, requests: seq<Request>, sleeps: seq<nat>)
    requires i <= |symbols|
    ensures var d := RunSymbols(transport, symbols, i, s, acc, requests, sleeps);
      && (d.result.Err? <==> exists m :: i <= m < |symbols| && SymbolPoints(transport, symbols, m, s).Err?)
      && (d.result.Err? ==> exists m :: i <= m < |symbols| && RaisesAt(transport, symbols, i, m, s, requests, d))
    decreases |symbols| - i
  {
    if i < |symbols| {
      var run := RunVariants(transport, i, symbols[i], Variants(s.adjusted), 0, s, requests, sleeps);
      var d := RunSymbols(transport, symbols, i, s, acc, requests, sleeps);
      RunVariantsPointsIgnoreLogs(transport, i, symbols[i], Variants(s.adjusted), 0, s, requests, sleeps, [], []);
      RunVariantsRequestsFor(transport, i, symbols[i], Variants(s.adjusted), 0, s, requests, sleeps);
      if run.points.Err? {
        assert RaisesAt(transport, symbols, i, i, s, requests, d);
      } else {
        RunSymbolsStopsAtRaise(transport, symbols, i + 1, s, acc[symbols[i] := run.points.value], run.requests, run.sleeps);
        if d.result.Err? {
          var m :| i + 1 <= m < |symbols| && RaisesAt(transport, symbols, i + 1, m, s, run.requests, d);
          assert RaisesAt(transport, symbols, i, m, s, requests, d);
        }
      }
    }
  }

  /** A good dictionary: ascending, in-window series. */
  predicate WellFormedPrices(m: map<string, seq<Point>>, s: Settings) {
    forall x :: x in m ==> Ascending(m[x]) && WithinWindow(m[x], s.startDay, s.endDay)
  }

  lemma {:induction false} RunSymbolsShape(transport: Request -> Reply, symbols: seq<string>, i: nat, s: Settings,
                                           acc: map<string, seq<Point>>, requests: seq<Request>, sleeps: seq<nat>)
    requires i <= |symbols| && WellFormedPrices(acc, s)
    ensures var d := RunSymbols(transport, symbols, i, s, acc, requests, sleeps);
      d.result.Ok? ==>
        && WellFormedPrices(d.result.value, s)
        && forall x :: x in d.result.value <==> x in acc || x in symbols[i..]
    decreases |symbols| - i
  {
    if i < |symbols| {
      var run := RunVariants(transport, i, symbols[i], Variants(s.adjusted), 0, s, requests, sleeps);
      RunVariantsPointsInWindow(transport, i, symbols[i], Variants(s.adjusted), 0, s, requests, sleeps);
      if run.points.Ok? {
        var acc' := acc[symbols[i] := run.points.value];
        RunSymbolsShape(transport, symbols, i + 1, s, acc', run.requests, run.sleeps);
        assert symbols[i..] == [symbols[i]] + symbols[i + 1..];
      }
    }
  }

  /** The returned dictionary has an entry for every input symbol and for
      nothing else (possibly an empty list); every list is ascending by day
      and lies inside [start_date, end_date]. */
  lemma DownloadedSeries(symbols: seq<string>, apiKey: Option<string>, environment: Option<string>,
                         s: Settings, transport: Request -> Reply)
    ensures var d := DownloadSpec(symbols, apiKey, environment, s, transport);
      d.result.Ok? ==>
        && (forall x :: x in d.result.value <==> x in symbols)
        && WellFormedPrices(d.result.value, s)
  {
    if symbols != [] && Truthy(ResolveApiKey(apiKey, environment)) {
      RunSymbolsShape(transport, symbols, 0, s, map[], [], []);
      assert symbols[0..] == symbols;
    }
  }

  /** Request a is sent before request b: an earlier symbol, or the same
      symbol and an earlier variant, or the same variant and an earlier attempt. */
  predicate Precedes(a: Request, b: Request) {
    || a.symbolIndex < b.symbolIndex
    || (a.symbolIndex == b.symbolIndex && Rank(a.variant) < Rank(b.variant))
    || (a.symbolIndex == b.symbolIndex && a.variant == b.variant && a.attempt < b.attempt)
  }

  predicate Ordered(rs: seq<Request>) {
    forall i, j :: 0 <= i < j < |rs| ==> Precedes(rs[i], rs[j])
  }

  lemma OrderedAppend(a: seq<Request>, b: seq<Request>)
    requires Ordered(a) && Ordered(b)
    requires forall x, y :: x in a && y in b ==> Precedes(x, y)
    ensures Ordered(a + b)
  {
    forall i, j | 0 <= i < j < |a + b|
      ensures Precedes((a + b)[i], (a + b)[j])
    {
      if j < |a| {
      } else if i >= |a| {
        assert (a + b)[i] == b[i - |a|] && (a + b)[j] == b[j - |a|];
      } else {
        assert (a + b)[i] in a && (a + b)[j] in b;
      }
    }
  }

  /** The smallest rank a request of variant k or later can have. */
  function RankFloor(variants: seq<Variant>, k: nat): nat {
    if k < |variants| then Rank(variants[k]) else 4
  }

  lemma {:induction false} RunVariantsOrdered(transport: Request -> Reply, si: nat, symbol: string, variants: seq<Variant>,
                                              k: nat, s: Settings, requests: seq<Request>, sleeps: seq<nat>)
    requires k <= |variants| && StrictlyRanked(variants)
    requires Ordered(requests)
    requires forall r :: r in requests ==>
      r.symbolIndex < si || (r.symbolIndex == si && Rank(r.variant) < RankFloor(variants, k))
    ensures var run := RunVariants(transport, si, symbol, variants, k, s, requests, sleeps);
      && Ordered(run.requests)
      && forall r :: r in run.requests ==>
           || r in requests
           || (r.symbolIndex == si && r.symbol == symbol && r.variant in variants && r.attempt <= s.maxRetries)
    decreases |variants| - k
  {
    if k < |variants| {
      var run := RunVariant(transport, si, symbol, variants[k], s);
      VariantBudget(transport, si, symbol, variants[k], s);
      var n := |run.requests|;
      assert Ordered(run.requests) by {
        forall a, b | 0 <= a < b < n ensures Precedes(run.requests[a], run.requests[b]) {
          assert run.requests[a].attempt == a && run.requests[b].attempt == b;
        }
      }
      forall x, y | x in requests && y in run.requests ensures Precedes(x, y) {
        var b :| 0 <= b < n && run.requests[b] == y;
      }
      OrderedAppend(requests, run.requests);
      var requests' := requests + run.requests;
      forall r | r in requests'
        ensures r.symbolIndex < si || (r.symbolIndex == si && Rank(r.variant) < RankFloor(variants, k + 1))
      {
        if r in run.requests {
          var b :| 0 <= b < n && run.requests[b] == r;
        }
      }
      forall r | r in run.requests
        ensures r.symbolIndex == si && r.symbol == symbol && r.variant in variants && r.attempt <= s.maxRetries
      {
        var b :| 0 <= b < n && run.requests[b] == r;
      }
      RunVariantsOrdered(transport, si, symbol, variants, k + 1, s, requests', sleeps + run.sleeps);
    }
  }

  /** What a request of the call may be: for a listed symbol at its own
      position, for one of the variants, with attempt at most max_retries. */
  predicate Allowed(r: Request, symbols: seq<string>, s: Settings) {
    r.symbolIndex < |symbols| && r.symbol == symbols[r.symbolIndex]
    && r.variant in Variants(s.adjusted) && r.attempt <= s.maxRetries
  }

  lemma {:induction false} RunSymbolsOrdered(transport: Request -> Reply, symbols: seq<string>, i: nat, s: Settings,
                                             acc: map<string, seq<Point>>, requests: seq<Request>, sleeps: seq<nat>)
    requires i <= |symbols| && Ordered(requests)
    requires forall r :: r in requests ==> r.symbolIndex < i && Allowed(r, symbols, s)
    ensures var d := RunSymbols(transport, symbols, i, s, acc, requests, sleeps);
      Ordered(d.requests) && forall r :: r in d.requests ==> Allowed(r, symbols, s)
    decreases |symbols| - i
  {
    if i < |symbols| {
      VariantsInOrder(s.adjusted);
      var run := RunVariants(transport, i, symbols[i], Variants(s.adjusted), 0, s, requests, sleeps);
      RunVariantsOrdered(transport, i, symbols[i], Variants(s.adjusted), 0, s, requests, sleeps);
      if run.points.Ok? {
        RunSymbolsOrdered(transport, symbols, i + 1, s, acc[symbols[i] := run.points.value], run.requests, run.sleeps);
      }
    }
  }

  /** The order of requests: symbols in list order, variants in preference
      order within a symbol, attempts 0, 1, ... within a variant, each attempt
      at most max_retries; no request is ever repeated, so no variant gets
      more than max_retries + 1 requests for one symbol. */
  lemma RequestsInOrder(symbols: seq<string>, apiKey: Option<string>, environment: Option<string>,
                        s: Settings, transport: Request -> Reply)
    ensures var d := DownloadSpec(symbols, apiKey, environment, s, transport);
      Ordered(d.requests) && forall r :: r in d.requests ==> Allowed(r, symbols, s)
  {
    if symbols != [] && Truthy(ResolveApiKey(apiKey, environment)) {
      RunSymbolsOrdered(transport, symbols, 0, s, map[], [], []);
    }
  }

  /** One variant's `while attempt <= max_retries` loop, with fresh logs. */
  method RetryVariant(transport: Request -> Reply, si: nat, symbol: string, variant: Variant, s: Settings)
    returns (end: VariantEnd, requests: seq<Request>, sleeps: seq<nat>)
    ensures VariantRun(end, requests, sleeps) == RunVariant(transport, si, symbol, variant, s)
  {
    requests, sleeps := [], [];
    var attempt := 0;
    var waitSeconds := InitialWait;
    while attempt <= s.maxRetries
      invariant attempt == 0 || attempt <= s.maxRetries
      invariant forall a: nat :: a < attempt ==> IsTransient(transport, si, symbol, variant, a)
      invariant waitSeconds == InitialWait * Pow2(attempt)
      invariant requests == Attempts(si, symbol, variant, attempt)
      invariant sleeps == Backoff(attempt)
    {
      var request := Request(si, symbol, variant, attempt);
      requests := requests + [request];
      match Classify(transport(request)) {
        case Transient(cause) =>
          attempt := attempt + 1;
          if attempt > s.maxRetries {
            SettleIs(transport, si, symbol, variant, s.maxRetries, 0, attempt);
            return Raised(cause), requests, sleeps;
          }
          sleeps := sleeps + [waitSeconds];
          waitSeconds := waitSeconds * 2;
        case Series(records) =>
          var rows := CollectRows(records, PriceKey(variant), s.startDay, s.endDay);
          var points := SortByDay(rows);
          SettleIs(transport, si, symbol, variant, s.maxRetries, 0, attempt);
          return Completed(points), requests, sleeps;
        case _ =>
          SettleIs(transport, si, symbol, variant, s.maxRetries, 0, attempt);
          return MovedOn, requests, sleeps;
      }
    }
    SettleIs(transport, si, symbol, variant, s.maxRetries, 0, 0);
    end := MovedOn;
  }

  /** One symbol's `for function_name, outputsize in variants` loop; the logs
      continue from `requests0` and `sleeps0`. */
  method FetchSymbol(transport: Request -> Reply, si: nat, symbol: string, s: Settings,
                     requests0: seq<Request>, sleeps0: seq<nat>)
    returns (points: Result<seq<Point>, RetryCause>, requests: seq<Request>, sleeps: seq<nat>)
    ensures SymbolRun(points, requests, sleeps) == RunVariants(transport, si, symbol, Variants(s.adjusted), 0, s, requests0, sleeps0)
  {
    requests, sleeps := requests0, sleeps0;
    var variants: seq<Variant> := [];
    if s.adjusted {
      variants := variants + [Variant(TimeSeriesDailyAdjusted, Compact)];
    }
    variants := variants + [Variant(TimeSeriesDaily, Compact)];
    variants := variants + [Variant(TimeSeriesDaily, Full)];
    assert variants == Variants(s.adjusted);

    var pricePoints: seq<Point> := [];
    for k := 0 to |variants|
      invariant RunVariants(transport, si, symbol, variants, 0, s, requests0, sleeps0)
             == RunVariants(transport, si, symbol, variants, k, s, requests, sleeps)
      invariant pricePoints == []
    {
      var end, variantRequests, variantSleeps := RetryVariant(transport, si, symbol, variants[k], s);
      requests, sleeps := requests + variantRequests, sleeps + variantSleeps;
      match end {
        case Raised(cause) =>
          return Err(cause), requests, sleeps;
        case Completed(rows) =>
          pricePoints := rows;
        case MovedOn =>
      }
      if pricePoints != [] {
        return Ok(pricePoints), requests, sleeps;
      }
    }
    points := Ok([]);
  }

  /** download_historical_prices. `environment` is the value of
      ALPHAVANTAGE_API_KEY; the reply to each request is `transport(request)`;
      every sleep is appended to `sleeps`. */
  method DownloadHistoricalPrices(symbols: seq<string>, startDay: int, endDay: int, apiKey: Option<string>,
                                  environment: Option<string>, adjusted: bool, maxRetries: int,
                                  transport: Request -> Reply)
    returns (result: Result<map<string, seq<Point>>, DownloadError>, requests: seq<Request>, sleeps: seq<nat>)
    ensures Download(result, requests, sleeps)
         == DownloadSpec(symbols, apiKey, environment, Settings(startDay, endDay, adjusted, maxRetries), transport)
  {
    var s := Settings(startDay, endDay, adjusted, maxRetries);
    requests, sleeps := [], [];
    if symbols == [] {
      return Err(NoSymbols), requests, sleeps;
    }
    var key := apiKey;
    if key.None? {
      key := environment;
    }
    if !Truthy(key) {
      return Err(MissingApiKey), requests, sleeps;
    }

    var symbolToPrices: map<string, seq<Point>> := map[];
    for i := 0 to |symbols|
      invariant DownloadSpec(symbols, apiKey, environment, s, transport)
             == RunSymbols(transport, symbols, i, s, symbolToPrices, requests, sleeps)
    {
      var points;
      points, requests, sleeps := FetchSymbol(transport, i, symbols[i], s, requests, sleeps);
      match points {
        case Err(cause) =>
          return Err(Exhausted(symbols[i], cause)), requests, sleeps;
        case Ok(pricePoints) =>
          symbolToPrices := symbolToPrices[symbols[i] := pricePoints];
      }
    }
    result := Ok(symbolToPrices);
  }
}
