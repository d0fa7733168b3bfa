/** What `fetch_alpha_vantage_daily` promises, proved about the option loop
    and the whole call of the DailyFetch model. */
module DailyFetchProperties {
  import opened AlphaVantage
  import opened DatedSeries
  import opened DailyCache
  import opened DailyFetch

  /** The requests of attempts 1 .. n are numbered 1 .. n. */
  lemma {:induction false} AttemptsNumbered(v: Variant, n: nat)
    ensures forall i :: 0 <= i < n ==> Attempts(v, n)[i] == Request(v, i + 1)
  {
    if n > 0 {
      AttemptsNumbered(v, n - 1);
      assert Attempts(v, n) == Attempts(v, n - 1) + [Request(v, n)];
    }
  }

  /** The quick waits are the listed delays in order: 1 second after the
      first attempt, 2 after the second. */
  lemma WaitsAreDelays(n: nat)
    requires n <= |Delays|
    ensures Waits(n) == Delays[..n]
  {
    if n >= 1 {
      assert Waits(1) == [Delay(1)];
    }
    if n == 2 {
      assert Waits(2) == Waits(1) + [Delay(2)];
    }
  }

  /** One option's loop: one to three requests numbered from 1, the listed
      delay after each but the last, and at most one cache read, made
      exactly when all three replies were retried. */
  lemma OptionBudget(transport: Request -> Reply, v: Variant, cached: Option<seq<Row>>)
    ensures var run := RunOption(transport, v, cached);
      && 1 <= |run.requests| <= QuickAttempts
      && run.requests == Attempts(v, |run.requests|)
      && run.sleeps == Delays[..|run.requests| - 1]
      && run.cacheReads <= 1
      && (run.cacheReads == 1 <==> forall k: nat :: 1 <= k <= QuickAttempts ==> IsRetryable(transport, v, k))
  {
    var j := Settle(transport, v, 1);
    if j <= QuickAttempts {
      WaitsAreDelays(j - 1);
      assert !IsRetryable(transport, v, j);
    } else {
      WaitsAreDelays(QuickAttempts - 1);
    }
  }

  /** An error message or a premium notice ends the option at once: the
      next option follows, with no wait after that reply and no cache read. */
  lemma ErrorOrPremiumMovesOn(transport: Request -> Reply, v: Variant, cached: Option<seq<Row>>, j: nat)
    requires 1 <= j <= QuickAttempts
    requires forall k: nat :: 1 <= k < j ==> IsRetryable(transport, v, k)
    requires Classify(transport(Request(v, j))).ApiError? || Classify(transport(Request(v, j))).PremiumGated?
    ensures RunOption(transport, v, cached) == OptionRun(NextOption, Attempts(v, j), Waits(j - 1), 0)
  {
    RunOptionSettled(transport, v, cached, j);
  }

  /** When all three attempts were retried, the cache is returned if it
      holds the series; otherwise a network failure on the last attempt
      raises, and a throttle note or a missing series moves on. */
  lemma ExhaustedOption(transport: Request -> Reply, v: Variant, cached: Option<seq<Row>>)
    requires forall k: nat :: 1 <= k <= QuickAttempts ==> IsRetryable(transport, v, k)
    ensures var end := RunOption(transport, v, cached).end;
      && (cached.Some? ==> end == Returned(FromCache(cached.value)))
      && (cached.None? ==>
            (end == Returned(Failed(NetworkFailure)) <==> Classify(transport(Request(v, QuickAttempts))).NetworkFailed?))
      && (cached.None? && !Classify(transport(Request(v, QuickAttempts))).NetworkFailed? ==> end == NextOption)
  {
    RunOptionExhausted(transport, v, cached);
  }

  /** What an option may return: a live series in day order, the cached
      series, a missing close column, or a network failure when there is
      no cache. */
  predicate Returnable(outcome: Outcome, cached: Option<seq<Row>>) {
    match outcome
    case Live(rows) => Ascending(rows)
    case FromCache(rows) => cached == Some(rows)
    case Failed(e) => e == MissingCloseColumn || (e == NetworkFailure && cached.None?)
  }

  lemma OptionReturns(transport: Request -> Reply, v: Variant, cached: Option<seq<Row>>)
    ensures var end := RunOption(transport, v, cached).end;
      end.Returned? ==> Returnable(end.outcome, cached)
  {
  }

  /** The options before position k all moved on. */
  predicate MovedOnBefore(runOf: Variant -> OptionRun, options: seq<Variant>, k: nat)
    requires k <= |options|
  {
    forall i :: 0 <= i < k ==> runOf(options[i]).end.NextOption?
  }

  /** The requests of the given options' loops, one option after another. */
  function RequestsOf(runOf: Variant -> OptionRun, options: seq<Variant>): seq<Request>
  {
    if options == [] then [] else runOf(options[0]).requests + RequestsOf(runOf, options[1..])
  }

  /** The option loop stops at the first option that returns, whatever it
      returns (a series, the cache, or a raised error): its outcome is the
      loop's, every earlier option moved on, and no later option sends a
      request. When no option returns, every option was tried. */
  lemma {:induction false} LoopStopsAtFirstReturn(runOf: Variant -> OptionRun, options: seq<Variant>,
                                                  requests: seq<Request>, sleeps: seq<nat>, cacheReads: nat)
    ensures var loop := RunOptions(runOf, options, requests, sleeps, cacheReads);
      loop.returned.None? ==>
        MovedOnBefore(runOf, options, |options|) && loop.requests == requests + RequestsOf(runOf, options)
    ensures var loop := RunOptions(runOf, options, requests, sleeps, cacheReads);
      loop.returned.Some? ==>
        exists k :: 0 <= k < |options| && MovedOnBefore(runOf, options, k)
          && runOf(options[k]).end == Returned(loop.returned.value)
          && loop.requests == requests + RequestsOf(runOf, options[..k + 1])
    decreases |options|
  {
    if options != [] {
      var v := options[0];
      var run := runOf(v);
      var rest := options[1..];
      assert options[..1] == [v] && options[..1][1..] == [];
      assert RequestsOf(runOf, options[..1]) == run.requests;
      if run.end.NextOption? {
        var requests' := requests + run.requests;
        LoopStopsAtFirstReturn(runOf, rest, requests', sleeps + run.sleeps, cacheReads + run.cacheReads);
        var loop := RunOptions(runOf, rest, requests', sleeps + run.sleeps, cacheReads + run.cacheReads);
        assert loop == RunOptions(runOf, options, requests, sleeps, cacheReads);
        if loop.returned.None? {
          assert requests' + RequestsOf(runOf, rest) == requests + RequestsOf(runOf, options);
          forall i | 0 <= i < |options| ensures runOf(options[i]).end.NextOption? {
            if i > 0 {
              assert options[i] == rest[i - 1];
            }
          }
        } else {
          var k :| 0 <= k < |rest| && MovedOnBefore(runOf, rest, k)
            && runOf(rest[k]).end == Returned(loop.returned.value)
            && loop.requests == requests' + RequestsOf(runOf, rest[..k + 1]);
          assert options[..k + 2][0] == v && options[..k + 2][1..] == rest[..k + 1];
          assert requests' + RequestsOf(runOf, rest[..k + 1]) == requests + RequestsOf(runOf, options[..k + 2]);
          forall i | 0 <= i < k + 1 ensures runOf(options[i]).end.NextOption? {
            if i > 0 {
              assert options[i] == rest[i - 1];
            }
          }
          assert options[k + 1] == rest[k];
        }
      } else {
        assert MovedOnBefore(runOf, options, 0);
      }
    }
  }

  /** The whole call: a returned frame is in day order; a frame from the
      cache is what the cache holds; and while the cache holds the series,
      the only error the call can raise is a missing close column. */
  lemma FetchOutcomes(transport: Request -> Reply, files: map<string, CacheFile>, symbol: string)
    ensures var f := FetchSpec(transport, files, symbol);
      && (ResultOf(f.outcome).Ok? ==> Ascending(ResultOf(f.outcome).value))
      && (f.outcome.FromCache? ==> LoadFrom(files, symbol) == Some(f.outcome.rows))
      && (LoadFrom(files, symbol).Some? && f.outcome.Failed? ==> f.outcome.error == MissingCloseColumn)
  {
    var cached := LoadFrom(files, symbol);
    var runOf := OptionRuns(transport, cached);
    LoopStopsAtFirstReturn(runOf, EndpointOptions(), [], [], 0);
    var loop := RunOptions(runOf, EndpointOptions(), [], [], 0);
    if loop.returned.Some? {
      var k :| 0 <= k < |EndpointOptions()| && runOf(EndpointOptions()[k]).end == Returned(loop.returned.value);
      OptionReturns(transport, EndpointOptions()[k], cached);
    }
  }

  /** A live result is written to a writable cache, and loading the symbol
      afterwards gives exactly the returned frame; the cache is written on
      no other outcome, and never for another symbol. */
  lemma LiveResultIsCached(transport: Request -> Reply, files: map<string, CacheFile>, writable: bool,
                           symbol: string, other: string)
    ensures var f := FetchSpec(transport, files, symbol);
      && (f.outcome.Live? && writable ==> LoadFrom(FilesAfter(files, writable, symbol, f.outcome), symbol) == Some(f.outcome.rows))
      && (!f.outcome.Live? ==> FilesAfter(files, writable, symbol, f.outcome) == files)
      && (other != symbol ==> LoadFrom(FilesAfter(files, writable, symbol, f.outcome), other) == LoadFrom(files, other))
  {
    var f := FetchSpec(transport, files, symbol);
    FetchOutcomes(transport, files, symbol);
    if f.outcome.Live? {
      assert ResultOf(f.outcome) == Ok(f.outcome.rows);
      if writable {
        SaveThenLoad(files, symbol, f.outcome.rows);
      }
      if other != symbol {
        SaveKeepsOthers(files, writable, symbol, f.outcome.rows, other);
      }
    }
  }

  /** Request a is sent before request b: an earlier option, or the same
      option and an earlier attempt. */
  predicate Precedes(a: Request, b: Request) {
    Rank(a.variant) < Rank(b.variant) || (a.variant == b.variant && a.attempt < b.attempt)
  }

  predicate Ordered(rs: seq<Request>) {
    forall i, j :: 0 <= i < j < |rs| ==> Precedes(rs[i], rs[j])
  }

  /** Options listed in strictly increasing rank. */
  predicate StrictlyRanked(options: seq<Variant>) {
    forall i, j :: 0 <= i < j < |options| ==> Rank(options[i]) < Rank(options[j])
  }

  /** An option's loop as `OptionBudget` describes it. */
  predicate Budgeted(run: OptionRun, v: Variant) {
    && 1 <= |run.requests| <= QuickAttempts
    && run.requests == Attempts(v, |run.requests|)
    && run.cacheReads <= 1
  }

  lemma OrderedAppend(a: seq<Request>, b: seq<Request>)
    requires Ordered(a) && Ordered(b)
    requires forall x, y :: x in a && y in b ==> Precedes(x, y)
    ensures Ordered(a + b)
  {
    forall i, j | 0 <= i < j < |a + b|
      ensures Precedes((a + b)[i], (a + b)[j])
    {
      if j < |a| {
      } else if i >= |a| {
        assert (a + b)[i] == b[i - |a|] && (a + b)[j] == b[j - |a|];
      } else {
        assert (a + b)[i] in a && (a + b)[j] in b;
      }
    }
  }

  /** One option's requests are in attempt order, all for that option,
      numbered 1 to 3. */
  lemma OptionRequestsInOrder(run: OptionRun, v: Variant)
    requires Budgeted(run, v)
    ensures Ordered(run.requests)
    ensures forall r :: r in run.requests ==> r.variant == v && 1 <= r.attempt <= QuickAttempts
  {
    var n := |run.requests|;
    AttemptsNumbered(v, n);
    forall a, b | 0 <= a < b < n ensures Precedes(run.requests[a], run.requests[b]) {
      assert run.requests[a].attempt == a + 1 && run.requests[b].attempt == b + 1;
    }
    forall r | r in run.requests ensures r.variant == v && 1 <= r.attempt <= QuickAttempts {
      var b :| 0 <= b < n && run.requests[b] == r;
    }
  }

  /** One step of the option loop: a run that moved on passes to the next
      option, any other run ends the loop with its outcome. */
  lemma RunOptionsStep(runOf: Variant -> OptionRun, options: seq<Variant>,
                       requests: seq<Request>, sleeps: seq<nat>, cacheReads: nat)
    requires options != []
    ensures var run := runOf(options[0]);
      RunOptions(runOf, options, requests, sleeps, cacheReads)
      == if run.end.NextOption?
         then RunOptions(runOf, options[1..], requests + run.requests, sleeps + run.sleeps, cacheReads + run.cacheReads)
         else LoopEnd(Some(run.end.outcome), requests + run.requests, sleeps + run.sleeps, cacheReads + run.cacheReads)
  {
  }

  /** Every request logged so far is for an option ranked before the first
      of `options`. */
  predicate SentBefore(requests: seq<Request>, options: seq<Variant>) {
    options == [] || forall r :: r in requests ==> Rank(r.variant) < Rank(options[0])
  }

  /** The option loop sends its requests option by option and attempt by
      attempt. */
  lemma {:induction false} LoopRequestsInOrder(runOf: Variant -> OptionRun, options: seq<Variant>,
                                               requests: seq<Request>, sleeps: seq<nat>, cacheReads: nat)
    requires StrictlyRanked(options)
    requires forall v :: v in options ==> Budgeted(runOf(v), v)
    requires Ordered(requests) && SentBefore(requests, options)
    ensures Ordered(RunOptions(runOf, options, requests, sleeps, cacheReads).requests)
    decreases |options|
  {
    if options != [] {
      var v := options[0];
      var run := runOf(v);
      RunOptionsStep(runOf, options, requests, sleeps, cacheReads);
      OptionRequestsInOrder(run, v);
      forall x, y | x in requests && y in run.requests ensures Precedes(x, y) {
      }
      OrderedAppend(requests, run.requests);
      if run.end.NextOption? {
        var rest := options[1..];
        if rest != [] {
          assert Rank(v) < Rank(rest[0]);
        }
        LoopRequestsInOrder(runOf, rest, requests + run.requests, sleeps + run.sleeps, cacheReads + run.cacheReads);
      }
    }
  }

  /** Each request the option loop sends is for one of its options and is
      numbered 1 to 3. */
  lemma {:induction false} LoopRequestsFromOptions(runOf: Variant -> OptionRun, options: seq<Variant>,
                                                   requests: seq<Request>, sleeps: seq<nat>, cacheReads: nat)
    requires forall v :: v in options ==> Budgeted(runOf(v), v)
    ensures forall r :: r in RunOptions(runOf, options, requests, sleeps, cacheReads).requests ==>
      r in requests || (r.variant in options && 1 <= r.attempt <= QuickAttempts)
    decreases |options|
  {
    if options != [] {
      var v := options[0];
      var run := runOf(v);
      RunOptionsStep(runOf, options, requests, sleeps, cacheReads);
      OptionRequestsInOrder(run, v);
      if run.end.NextOption? {
        var rest := options[1..];
        LoopRequestsFromOptions(runOf, rest, requests + run.requests, sleeps + run.sleeps, cacheReads + run.cacheReads);
        forall w | w in rest ensures w in options { }
      }
    }
  }

  /** The option loop sends at most three requests per option and reads
      the cache at most once per option. */
  lemma {:induction false} LoopBudget(runOf: Variant -> OptionRun, options: seq<Variant>,
                                      requests: seq<Request>, sleeps: seq<nat>, cacheReads: nat)
    requires forall v :: v in options ==> Budgeted(runOf(v), v)
    ensures var loop := RunOptions(runOf, options, requests, sleeps, cacheReads);
      && |loop.requests| <= |requests| + QuickAttempts * |options|
      && loop.cacheReads <= cacheReads + |options|
    decreases |options|
  {
    if options != [] {
      var run := runOf(options[0]);
      LoopBudget(runOf, options[1..], requests + run.requests, sleeps + run.sleeps, cacheReads + run.cacheReads);
    }
  }

  lemma EndpointOptionsRanked()
    ensures StrictlyRanked(EndpointOptions())
  {
  }

  /** The whole call: requests in option order and, within an option, in
      attempt order; attempts numbered 1 to 3; at most twelve requests, and
      at most five cache reads (one per option and the last resort). */
  lemma FetchRequestsInOrder(transport: Request -> Reply, files: map<string, CacheFile>, symbol: string)
    ensures var f := FetchSpec(transport, files, symbol);
      && Ordered(f.requests)
      && (forall r :: r in f.requests ==> r.variant in EndpointOptions() && 1 <= r.attempt <= QuickAttempts)
      && |f.requests| <= QuickAttempts * |EndpointOptions()|
      && f.cacheReads <= |EndpointOptions()| + 1
  {
    var cached := LoadFrom(files, symbol);
    var runOf := OptionRuns(transport, cached);
    forall v | v in EndpointOptions() ensures Budgeted(runOf(v), v) {
      OptionBudget(transport, v, cached);
    }
    EndpointOptionsRanked();
    LoopRequestsInOrder(runOf, EndpointOptions(), [], [], 0);
    LoopRequestsFromOptions(runOf, EndpointOptions(), [], [], 0);
    LoopBudget(runOf, EndpointOptions(), [], [], 0);
  }
}
