/** `fetch_alpha_vantage_daily` of code2.py: four endpoint options tried in
    order, three quick attempts each with waits of 1 then 2 seconds, and the
    symbol's cache file as the last resort.

    The network is a function from each request to its reply; a request
    names the option and the attempt number (1 to 3), so every request of one
    call gets a reply of its own. The call returns the request log, the
    waits, and how many times the cache was read. */
module DailyFetch {
  import opened AlphaVantage
  import opened DatedSeries
  import opened DailyCache

  const QuickAttempts: nat := 3
  const Delays: seq<nat> := [1, 2]

  /** The endpoint options, unadjusted full first. */
  function EndpointOptions(): seq<Variant> {
    [ Variant(TimeSeriesDaily, Full), Variant(TimeSeriesDaily, Compact),
      Variant(TimeSeriesDailyAdjusted, Compact), Variant(TimeSeriesDailyAdjusted, Full) ]
  }

  /** Position of a variant among the endpoint options. */
  function Rank(v: Variant): nat {
    match v
    case Variant(TimeSeriesDaily, Full) => 0
    case Variant(TimeSeriesDaily, Compact) => 1
    case Variant(TimeSeriesDailyAdjusted, Compact) => 2
    case Variant(TimeSeriesDailyAdjusted, Full) => 3
  }

  /** One GET: the endpoint option and the attempt number (1-based). */
  datatype Request = Request(variant: Variant, attempt: nat)

  /** The classes of reply, in the order the loop tests them. */
  datatype Class =
    | NetworkFailed       // requests raised, or raise_for_status did
    | ApiError            // "Error Message"
    | PremiumGated        // a notice mentioning "premium"
    | Throttled           // any other notice
    | NoSeries            // no or empty "Time Series (Daily)"
    | Series(records: seq<DayRecord>)

  /** The reply classification: a transport error or a 4xx/5xx status first,
      then the error message, then a notice (premium if the Note, else the
      Information, mentions it), then the series. */
  function Classify(reply: Reply): Class {
    match reply
    case NetworkError => NetworkFailed
    case HttpReply(status, p) =>
      if 400 <= status < 600 then NetworkFailed
      else if p.errorMessage.Some? then ApiError
      else if HasNotice(p) then
        if MentionsPremium(Or(p.note, p.information)) then PremiumGated else Throttled
      else if !HasSeries(p) then NoSeries
      else Series(p.timeSeries.value)
  }

  /** The classes that are retried after a quick wait. */
  predicate Retryable(c: Class) {
    c.NetworkFailed? || c.Throttled? || c.NoSeries?
  }

  /** The error message is tested first, so it wins over any notice; a
      premium notice is read from the Note first. */
  lemma ClassifyPrecedence(p: Payload)
    ensures p.errorMessage.Some? ==> Classify(HttpReply(200, p)) == ApiError
    ensures p.errorMessage.None? && MentionsPremium(Or(p.note, p.information)) ==> Classify(HttpReply(200, p)) == PremiumGated
    ensures Retryable(Classify(HttpReply(200, p))) <==>
      p.errorMessage.None? && (HasNotice(p) ==> !MentionsPremium(Or(p.note, p.information))) && (!HasNotice(p) ==> !HasSeries(p))
  {
    if p.errorMessage.None? && MentionsPremium(Or(p.note, p.information)) {
      PremiumNeedsText(Or(p.note, p.information));
    }
  }

  datatype FetchError =
    | NetworkFailure        // RuntimeError: network error on the last attempt, no cache
    | NoDataNoCache         // RuntimeError: every option failed, no cache
    | MissingCloseColumn    // KeyError: no record of the series has "4. close"

  function Lookup(fields: map<string, Price>, key: string): Option<Price> {
    if key in fields then Some(fields[key]) else None
  }

  /** The Close row of one record: its day and its "4. close" cell. */
  function CloseRow(rec: DayRecord): Row {
    Dated(rec.day, Lookup(rec.fields, "4. close"))
  }

  /** The Close rows of the records, in the series' order. */
  function CloseCells(records: seq<DayRecord>): (cells: seq<Row>)
    ensures |cells| == |records|
    ensures forall i :: 0 <= i < |records| ==> cells[i] == CloseRow(records[i])
  {
    if records == [] then [] else [CloseRow(records[0])] + CloseCells(records[1..])
  }

  /** The frame built from a series: "4. close" renamed to Close, sorted by
      day; a record without it gets an empty cell; no such column at all
      raises KeyError. */
  function CloseColumn(records: seq<DayRecord>): (r: Result<seq<Row>, FetchError>)
    ensures r.Err? <==> forall rec :: rec in records ==> "4. close" !in rec.fields
    ensures r.Err? ==> r.error == MissingCloseColumn
    ensures r.Ok? ==> Ascending(r.value) && |r.value| == |records|
  {
    if forall rec :: rec in records ==> "4. close" !in rec.fields then Err(MissingCloseColumn)
    else Ok(SortByDay(CloseCells(records)))
  }

  /** The frame holds exactly the Close rows of the series' records. */
  lemma CloseColumnRows(records: seq<DayRecord>, x: Row)
    requires CloseColumn(records).Ok?
    ensures x in CloseColumn(records).value <==> exists rec :: rec in records && x == CloseRow(rec)
  {
    var cells := CloseCells(records);
    SortKeepsElements(cells, x);
    if x in cells {
      var i :| 0 <= i < |cells| && cells[i] == x;
      assert records[i] in records;
    }
    if exists rec :: rec in records && x == CloseRow(rec) {
      var rec :| rec in records && x == CloseRow(rec);
      var i :| 0 <= i < |records| && records[i] == rec;
      assert cells[i] == x;
    }
  }

  /** The wait after a failed attempt: delays[min(attempt - 1, len(delays) - 1)]. */
  function Delay(attempt: nat): nat
    requires attempt >= 1
  {
    Delays[if attempt - 1 < |Delays| - 1 then attempt - 1 else |Delays| - 1]
  }

  /** The waits after attempts 1 .. n. */
  function Waits(n: nat): (waits: seq<nat>)
    ensures |waits| == n
  {
    if n == 0 then [] else Waits(n - 1) + [Delay(n)]
  }

  /** The requests of attempts 1 .. n of one option. */
  function Attempts(v: Variant, n: nat): (rs: seq<Request>)
    ensures |rs| == n
  {
    if n == 0 then [] else Attempts(v, n - 1) + [Request(v, n)]
  }

  predicate IsRetryable(transport: Request -> Reply, v: Variant, k: nat) {
    Retryable(Classify(transport(Request(v, k))))
  }

  /** The attempt at which an option's loop stops: the first attempt from `a`
      on whose reply is not retried, or 4 when all three are. */
  function Settle(transport: Request -> Reply, v: Variant, a: nat): (j: nat)
    requires 1 <= a <= QuickAttempts + 1
    decreases QuickAttempts + 1 - a
    ensures a <= j <= QuickAttempts + 1
    ensures forall k: nat :: a <= k < j ==> IsRetryable(transport, v, k)
    ensures j <= QuickAttempts ==> !IsRetryable(transport, v, j)
  {
    if a > QuickAttempts then a
    else if IsRetryable(transport, v, a) then Settle(transport, v, a + 1)
    else a
  }

  /** The stopping attempt is unique. */
  lemma {:induction false} SettleIs(transport: Request -> Reply, v: Variant, a: nat, j: nat)
    requires 1 <= a <= j <= QuickAttempts + 1
    requires forall k: nat :: a <= k < j ==> IsRetryable(transport, v, k)
    requires j <= QuickAttempts ==> !IsRetryable(transport, v, j)
    ensures Settle(transport, v, a) == j
    decreases j - a
  {
    if a < j {
      assert IsRetryable(transport, v, a);
      SettleIs(transport, v, a + 1, j);
    }
  }

  /** How the call ends. */
  datatype Outcome =
    | Live(rows: seq<Row>)          // a data reply, saved to the cache and returned
    | FromCache(rows: seq<Row>)     // the cached series
    | Failed(error: FetchError)

  /** How one option's loop ends: move to the next option, or return. */
  datatype OptionEnd = NextOption | Returned(outcome: Outcome)

  datatype OptionRun = OptionRun(end: OptionEnd, requests: seq<Request>, sleeps: seq<nat>, cacheReads: nat)

  /** How an option ends on a reply that is not retried: a series is
      returned (or its missing close column raised), anything else moves on. */
  function Decide(c: Class): OptionEnd {
    match c
    case Series(records) =>
      (match CloseColumn(records)
       case Ok(rows) => Returned(Live(rows))
       case Err(e) => Returned(Failed(e)))
    case _ => NextOption
  }

  /** How an option ends when all its attempts were retried, `last` being the
      class of the last reply: the cache when present, else a network failure
      raises and a throttle note or missing series moves on. */
  function Exhaust(cached: Option<seq<Row>>, last: Class): OptionEnd {
    if cached.Some? then Returned(FromCache(cached.value))
    else if last.NetworkFailed? then Returned(Failed(NetworkFailure))
    else NextOption
  }

  /** One option's loop, in closed form, with `cached` what the cache holds:
      j - 1 retried replies each followed by its quick wait, then reply j
      decides; if all three are retried, the cache is read once. */
  function RunOption(transport: Request -> Reply, v: Variant, cached: Option<seq<Row>>): OptionRun {
    var j := Settle(transport, v, 1);
    if j <= QuickAttempts then
      OptionRun(Decide(Classify(transport(Request(v, j)))), Attempts(v, j), Waits(j - 1), 0)
    else
      OptionRun(Exhaust(cached, Classify(transport(Request(v, QuickAttempts)))), Attempts(v, QuickAttempts), Waits(QuickAttempts - 1), 1)
  }

  /** An option whose attempt j is the first not retried. */
  lemma RunOptionSettled(transport: Request -> Reply, v: Variant, cached: Option<seq<Row>>, j: nat)
    requires 1 <= j <= QuickAttempts
    requires forall k: nat :: 1 <= k < j ==> IsRetryable(transport, v, k)
    requires !IsRetryable(transport, v, j)
    ensures RunOption(transport, v, cached) == OptionRun(Decide(Classify(transport(Request(v, j)))), Attempts(v, j), Waits(j - 1), 0)
  {
    SettleIs(transport, v, 1, j);
  }

  /** An option all of whose attempts were retried. */
  lemma RunOptionExhausted(transport: Request -> Reply, v: Variant, cached: Option<seq<Row>>)
    requires forall k: nat :: 1 <= k <= QuickAttempts ==> IsRetryable(transport, v, k)
    ensures RunOption(transport, v, cached)
         == OptionRun(Exhaust(cached, Classify(transport(Request(v, QuickAttempts)))), Attempts(v, QuickAttempts), Waits(QuickAttempts - 1), 1)
  {
    SettleIs(transport, v, 1, QuickAttempts + 1);
  }

  /** How the option loop ends: the outcome an option returned, or `None`
      when every option moved on; and the logs so far. */
  datatype LoopEnd = LoopEnd(returned: Option<Outcome>, requests: seq<Request>, sleeps: seq<nat>, cacheReads: nat)

  /** What each option's loop does, for a given network and cache. */
  function OptionRuns(transport: Request -> Reply, cached: Option<seq<Row>>): Variant -> OptionRun {
    v => RunOption(transport, v, cached)
  }

  /** The option loop over `options`, after the given logs, `runOf` giving
      what each option's loop does. */
  function RunOptions(runOf: Variant -> OptionRun, options: seq<Variant>,
                      requests: seq<Request>, sleeps: seq<nat>, cacheReads: nat): LoopEnd
    decreases |options|, 1
  {
    if options == [] then LoopEnd(None, requests, sleeps, cacheReads)
    else AfterOption(runOf, options, runOf(options[0]), requests, sleeps, cacheReads)
  }

  /** The option loop once the first of `options` has run: its logs are
      appended, and the loop returns or goes on with the rest. */
  function AfterOption(runOf: Variant -> OptionRun, options: seq<Variant>, run: OptionRun,
                       requests: seq<Request>, sleeps: seq<nat>, cacheReads: nat): LoopEnd
    requires options != []
    decreases |options|, 0
  {
    var requests', sleeps', cacheReads' := requests + run.requests, sleeps + run.sleeps, cacheReads + run.cacheReads;
    match run.end
    case Returned(outcome) => LoopEnd(Some(outcome), requests', sleeps', cacheReads')
    case NextOption => RunOptions(runOf, options[1..], requests', sleeps', cacheReads')
  }

  /** The result of the whole call and its logs. */
  datatype Fetch = Fetch(outcome: Outcome, requests: seq<Request>, sleeps: seq<nat>, cacheReads: nat)

  /** The last resort once every option moved on: the cache, read once more. */
  function LastResort(cached: Option<seq<Row>>): Outcome {
    if cached.Some? then FromCache(cached.value) else Failed(NoDataNoCache)
  }

  /** The whole call on a given cache. */
  function FetchSpec(transport: Request -> Reply, files: map<string, CacheFile>, symbol: string): Fetch {
    var cached := LoadFrom(files, symbol);
    var loop := RunOptions(OptionRuns(transport, cached), EndpointOptions(), [], [], 0);
    if loop.returned.Some? then Fetch(loop.returned.value, loop.requests, loop.sleeps, loop.cacheReads)
    else Fetch(LastResort(cached), loop.requests, loop.sleeps, loop.cacheReads + 1)
  }

  /** The cache after the call: written on a live result, untouched otherwise. */
  function FilesAfter(files: map<string, CacheFile>, writable: bool, symbol: string, outcome: Outcome): map<string, CacheFile> {
    if outcome.Live? then SaveTo(files, writable, symbol, outcome.rows) else files
  }

  /** What the caller sees: the frame, or the exception. */
  function ResultOf(outcome: Outcome): Result<seq<Row>, FetchError> {
    match outcome
    case Live(rows) => Ok(rows)
    case FromCache(rows) => Ok(rows)
    case Failed(e) => Err(e)
  }

  /** What one attempt leads to: a quick wait and the next attempt, or the
      end of the option. */
  datatype AttemptEnd = Retry | Done(end: OptionEnd)

  /** The end of attempt `attempt` on a reply of class `c`. */
  function AttemptOutcome(c: Class, attempt: nat, cached: Option<seq<Row>>): AttemptEnd {
    if !Retryable(c) then Done(Decide(c))
    else if attempt == QuickAttempts then Done(Exhaust(cached, c))
    else Retry
  }

  /** The handling of one reply inside the attempt loop: each class in the
      order the loop tests it, the cache read on the last attempt of a
      retried class. */
  method HandleReply(symbol: string, cache: CacheStore, reply: Class, attempt: nat, ghost cached: Option<seq<Row>>)
    returns (next: AttemptEnd, cacheReads: nat)
    requires 1 <= attempt <= QuickAttempts
    requires cached == LoadFrom(cache.files, symbol)
    ensures next == AttemptOutcome(reply, attempt, cached)
    ensures next.Retry? <==> Retryable(reply) && attempt < QuickAttempts
    ensures cacheReads == if Retryable(reply) && attempt == QuickAttempts then 1 else 0
  {
    cacheReads := 0;
    match reply {
      case NetworkFailed =>
        if attempt == QuickAttempts {
          // on the final network failure, the cache
          var cached := cache.LoadCachedClosePrices(symbol);
          cacheReads := 1;
          if cached.Some? {
            return Done(Returned(FromCache(cached.value))), cacheReads;
          }
          return Done(Returned(Failed(NetworkFailure))), cacheReads;
        }
        return Retry, cacheReads;
      case ApiError =>
        return Done(NextOption), cacheReads;
      case PremiumGated =>
        return Done(NextOption), cacheReads;
      case Series(records) =>
        match CloseColumn(records) {
          case Ok(rows) =>
            return Done(Returned(Live(rows))), cacheReads;
          case Err(e) =>
            return Done(Returned(Failed(e))), cacheReads;
        }
      case _ =>
        // a throttle note or no series: the cache on the last attempt
        if attempt == QuickAttempts {
          var cached := cache.LoadCachedClosePrices(symbol);
          cacheReads := 1;
          if cached.Some? {
            return Done(Returned(FromCache(cached.value))), cacheReads;
          }
          return Done(NextOption), cacheReads;
        }
        return Retry, cacheReads;
    }
  }

  /** One option's `for attempt in range(1, quick_attempts + 1)` loop. The
      cache is only read here; the caller writes it on a live result. */
  method TryOption(symbol: string, cache: CacheStore, transport: Request -> Reply, v: Variant,
                   ghost cached: Option<seq<Row>>, ghost runOf: Variant -> OptionRun)
    returns (end: OptionEnd, requests: seq<Request>, sleeps: seq<nat>, cacheReads: nat)
    requires cached == LoadFrom(cache.files, symbol)
    requires forall w {:trigger RunOption(transport, w, cached)} :: runOf(w) == RunOption(transport, w, cached)
    ensures OptionRun(end, requests, sleeps, cacheReads) == runOf(v)
  {
    requests, sleeps := [], [];
    var attempt := 1;
    // every path of the last attempt leaves the loop
    while true
      invariant 1 <= attempt <= QuickAttempts
      invariant forall k: nat :: 1 <= k < attempt ==> IsRetryable(transport, v, k)
      invariant requests == Attempts(v, attempt - 1)
      invariant sleeps == Waits(attempt - 1)
      decreases QuickAttempts - attempt
    {
      var request := Request(v, attempt);
      requests := requests + [request];
      assert requests == Attempts(v, attempt);
      var reply := Classify(transport(request));
      var next;
      next, cacheReads := HandleReply(symbol, cache, reply, attempt, cached);
      match next {
        case Done(optionEnd) =>
          if Retryable(reply) {
            RunOptionExhausted(transport, v, cached);
          } else {
            RunOptionSettled(transport, v, cached, attempt);
          }
          return optionEnd, requests, sleeps, cacheReads;
        case Retry =>
          sleeps := sleeps + [Delay(attempt)];
          attempt := attempt + 1;
      }
    }
  }

  /** The end of the option loop on a returned outcome: a live series is
      saved to the cache and returned, a cached one returned, a failure
      raised. */
  method Conclude(symbol: string, cache: CacheStore, outcome: Outcome) returns (result: Result<seq<Row>, FetchError>)
    modifies cache`files
    ensures result == ResultOf(outcome)
    ensures cache.files == FilesAfter(old(cache.files), cache.writable, symbol, outcome)
  {
    match outcome {
      case Live(rows) =>
        cache.SaveCache(symbol, rows);
        return Ok(rows);
      case FromCache(rows) =>
        return Ok(rows);
      case Failed(e) =>
        return Err(e);
    }
  }

  /** The `for option in endpoint_options` loop; it only reads the cache
      and returns the outcome of the first option that returns one. */
  method TryOptions(symbol: string, cache: CacheStore, transport: Request -> Reply,
                    ghost cached: Option<seq<Row>>, ghost runOf: Variant -> OptionRun)
    returns (returned: Option<Outcome>, requests: seq<Request>, sleeps: seq<nat>, cacheReads: nat)
    requires cached == LoadFrom(cache.files, symbol)
    requires forall w {:trigger RunOption(transport, w, cached)} :: runOf(w) == RunOption(transport, w, cached)
    ensures LoopEnd(returned, requests, sleeps, cacheReads) == RunOptions(runOf, EndpointOptions(), [], [], 0)
  {
    requests, sleeps, cacheReads := [], [], 0;
    var endpointOptions := [
      Variant(TimeSeriesDaily, Full), Variant(TimeSeriesDaily, Compact),
      Variant(TimeSeriesDailyAdjusted, Compact), Variant(TimeSeriesDailyAdjusted, Full) ];
    assert endpointOptions == EndpointOptions();
    ghost var spec := RunOptions(runOf, endpointOptions, [], [], 0);
    var options := endpointOptions;
    while options != []
      invariant spec == RunOptions(runOf, options, requests, sleeps, cacheReads)
    {
      var end, optionRequests, optionSleeps, optionReads := TryOption(symbol, cache, transport, options[0], cached, runOf);
      ghost var run := OptionRun(end, optionRequests, optionSleeps, optionReads);
      assert spec == AfterOption(runOf, options, run, requests, sleeps, cacheReads);
      requests, sleeps, cacheReads := requests + optionRequests, sleeps + optionSleeps, cacheReads + optionReads;
      if end.Returned? {
        return Some(end.outcome), requests, sleeps, cacheReads;
      }
      options := options[1..];
    }
    returned := None;
  }

  /** fetch_alpha_vantage_daily. */
  method FetchAlphaVantageDaily(symbol: string, cache: CacheStore, transport: Request -> Reply)
    returns (result: Result<seq<Row>, FetchError>, requests: seq<Request>, sleeps: seq<nat>, cacheReads: nat)
    modifies cache
    ensures var f := FetchSpec(transport, old(cache.files), symbol);
      && result == ResultOf(f.outcome)
      && requests == f.requests && sleeps == f.sleeps && cacheReads == f.cacheReads
      && cache.files == FilesAfter(old(cache.files), cache.writable, symbol, f.outcome)
    ensures cache.writable == old(cache.writable)
  {
    var returned;
    returned, requests, sleeps, cacheReads := TryOptions(symbol, cache, transport, LoadFrom(cache.files, symbol), OptionRuns(transport, LoadFrom(cache.files, symbol)));
    if returned.Some? {
      result := Conclude(symbol, cache, returned.value);
      return;
    }
    // If all endpoints failed, last resort is cache
    var cached := cache.LoadCachedClosePrices(symbol);
    cacheReads := cacheReads + 1;
    if cached.Some? {
      return Ok(cached.value), requests, sleeps, cacheReads;
    }
    return Err(NoDataNoCache), requests, sleeps, cacheReads;
  }
}
