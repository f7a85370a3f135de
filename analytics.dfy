/** The two analytics endpoints: the account's total revenue in USD, at the
    stored (historic) or at the current rates, and the average invoice size in
    a target currency with the conversion fee applied to foreign groups.

    The ORM queries are inputs: the stored converted amounts of the account's
    invoices, and its invoices grouped by original currency with the sum of
    their amounts and their number. Each conversion goes through the shared
    converter; a ghost trace records every call made, in order. */
module Analytics {
  import opened Common
  import opened Text
  import opened Converter

  datatype RateType = Historic | Current

  const DefaultRateType: string := "historic"
  const DefaultTargetCurrency: string := "USD"
  /** Revenue is always reported in USD */
  const RevenueCurrency: string := "USD"

  /** One row of `values('original_currency').annotate(...)` */
  datatype CurrencyGroup = CurrencyGroup(currency: string, total: real, count: nat)

  datatype AverageFailure = ConversionError(cause: ConvertError) | DivisionByZero

  datatype AnalyticsError =
    | InvalidRateType                           // "rate must be either 'historic' or 'current'"
    | InvalidCurrencyCode                       // "Currency must be a 3-letter code"
    | ConversionFailed(cause: ConvertError)     // "Currency conversion failed: ..."
    | AverageCalculationFailed(reason: AverageFailure) // "Average calculation failed: ..."

  datatype RevenueSummary = RevenueSummary(totalRevenue: real, currency: string, rateType: RateType)

  /** The payload of the average-size endpoint, before rounding */
  datatype AverageSize =
    | NoInvoices(currency: string)   // average '0.00', invoice_count 0
    | Averages(averageBeforeFees: real, averageAfterFees: real,
               grossRevenue: real, netRevenue: real, currency: string, invoiceCount: nat)

  // ---------------------------------------------------------------------------
  // Query parameters

  /** The `rate` parameter: default `historic`, compared lower-cased */
  function ParseRateType(param: Option<string>): (r: Result<RateType, AnalyticsError>)
    ensures r.Success? <==> Lower(param.GetOr(DefaultRateType)) in {"historic", "current"}
    ensures r.Success? ==> (r.value == Current <==> Lower(param.GetOr(DefaultRateType)) == "current")
    ensures r.Failure? ==> r.error == InvalidRateType
  {
    var v := Lower(param.GetOr(DefaultRateType));
    if v == "historic" then Success(Historic)
    else if v == "current" then Success(Current)
    else Failure(InvalidRateType)
  }

  lemma ParseRateTypeDefault()
    ensures ParseRateType(None) == Success(Historic)
  {
    assert Lower(DefaultRateType) == "historic";
  }

  lemma ParseRateTypeCaseInsensitive(s: string)
    ensures ParseRateType(Some(Upper(s))) == ParseRateType(Some(s))
    ensures ParseRateType(Some(Lower(s))) == ParseRateType(Some(s))
  {
    LowerOfUpper(s);
    LowerIdempotent(s);
  }

  /** The `currency` parameter: default `USD`, upper-cased, exactly three characters */
  function ParseTargetCurrency(param: Option<string>): (r: Result<string, AnalyticsError>)
    ensures r.Success? <==> |param.GetOr(DefaultTargetCurrency)| == 3
    ensures r.Success? ==> |r.value| == 3 && IsUpperCase(r.value)
    ensures r.Success? ==> Lower(r.value) == Lower(param.GetOr(DefaultTargetCurrency))
    ensures r.Failure? ==> r.error == InvalidCurrencyCode
  {
    var t := Upper(param.GetOr(DefaultTargetCurrency));
    UpperIsUpperCase(param.GetOr(DefaultTargetCurrency));
    LowerOfUpper(param.GetOr(DefaultTargetCurrency));
    if |t| != 3 then Failure(InvalidCurrencyCode) else Success(t)
  }

  lemma ParseTargetCurrencyDefault()
    ensures ParseTargetCurrency(None) == Success("USD")
  {
    assert Upper(DefaultTargetCurrency) == "USD";
  }

  lemma ParseTargetCurrencyCaseInsensitive(s: string)
    ensures ParseTargetCurrency(Some(Upper(s))) == ParseTargetCurrency(Some(s))
  {
    UpperIdempotent(s);
  }

  // ---------------------------------------------------------------------------
  // Sums

  function Sum(xs: seq<real>): real {
    if xs == [] then 0.0 else Sum(xs[..|xs| - 1]) + xs[|xs| - 1]
  }

  lemma SumSnoc(xs: seq<real>, x: real)
    ensures Sum(xs + [x]) == Sum(xs) + x
  {
    assert (xs + [x])[..|xs|] == xs;
  }

  lemma {:induction false} SumNonNegative(xs: seq<real>)
    requires forall i :: 0 <= i < |xs| ==> xs[i] >= 0.0
    ensures Sum(xs) >= 0.0
  {
    if xs != [] {
      SumNonNegative(xs[..|xs| - 1]);
    }
  }

  /** `number_of_invoices`: the sum of the group counts */
  function InvoiceCount(stats: seq<CurrencyGroup>): nat {
    if stats == [] then 0 else InvoiceCount(stats[..|stats| - 1]) + stats[|stats| - 1].count
  }

  /** Rows of a grouped query have a count of one or more, so there is no
      division by zero unless there are no rows */
  lemma {:induction false} InvoiceCountAtLeastGroups(stats: seq<CurrencyGroup>)
    requires forall i :: 0 <= i < |stats| ==> stats[i].count >= 1
    ensures InvoiceCount(stats) >= |stats|
  {
    if stats != [] {
      InvoiceCountAtLeastGroups(stats[..|stats| - 1]);
    }
  }

  /** The fee one group contributes: a percentage of its converted total, only
      when its currency is not the target */
  function Fee(group: CurrencyGroup, converted: real, target: string, pct: real): real {
    if group.currency != target then converted * pct / 100.0 else 0.0
  }

  /** `total_fees` after the groups `stats` converted to `conv` */
  function Fees(stats: seq<CurrencyGroup>, conv: seq<real>, target: string, pct: real): real
    requires |conv| == |stats|
  {
    if stats == [] then 0.0
    else Fees(stats[..|stats| - 1], conv[..|conv| - 1], target, pct) + Fee(stats[|stats| - 1], conv[|conv| - 1], target, pct)
  }

  lemma FeesSnoc(stats: seq<CurrencyGroup>, conv: seq<real>, g: CurrencyGroup, x: real, target: string, pct: real)
    requires |conv| == |stats|
    ensures Fees(stats + [g], conv + [x], target, pct) == Fees(stats, conv, target, pct) + Fee(g, x, target, pct)
  {
    assert (stats + [g])[..|stats|] == stats;
    assert (conv + [x])[..|conv|] == conv;
  }

  /** With a non-negative percentage and non-negative converted totals, the
      fees lie between zero and the percentage of the gross */
  lemma {:induction false} FeesBounds(stats: seq<CurrencyGroup>, conv: seq<real>, target: string, pct: real)
    requires |conv| == |stats| && pct >= 0.0
    requires forall i :: 0 <= i < |conv| ==> conv[i] >= 0.0
    ensures 0.0 <= Fees(stats, conv, target, pct) <= Sum(conv) * pct / 100.0
  {
    if stats != [] {
      FeesBounds(stats[..|stats| - 1], conv[..|conv| - 1], target, pct);
      var x := conv[|conv| - 1];
      assert x * pct >= 0.0;
    }
  }

  /** No fee is charged when every group is already in the target currency */
  lemma {:induction false} NoFeesWithinTargetCurrency(stats: seq<CurrencyGroup>, conv: seq<real>, target: string, pct: real)
    requires |conv| == |stats|
    requires forall i :: 0 <= i < |stats| ==> stats[i].currency == target
    ensures Fees(stats, conv, target, pct) == 0.0
  {
    if stats != [] {
      NoFeesWithinTargetCurrency(stats[..|stats| - 1], conv[..|conv| - 1], target, pct);
    }
  }

  /** The full percentage is charged when no group is in the target currency */
  lemma {:induction false} FullFeesWhenAllForeign(stats: seq<CurrencyGroup>, conv: seq<real>, target: string, pct: real)
    requires |conv| == |stats|
    requires forall i :: 0 <= i < |stats| ==> stats[i].currency != target
    ensures Fees(stats, conv, target, pct) == Sum(conv) * pct / 100.0
  {
    if stats != [] {
      FullFeesWhenAllForeign(stats[..|stats| - 1], conv[..|conv| - 1], target, pct);
    }
  }

  /** The averages of `_calculate_average_invoice_size` from the converted
      group totals; no invoices at all is a division by zero */
  function Summarize(stats: seq<CurrencyGroup>, conv: seq<real>, target: string, pct: real)
    : Result<AverageSize, AnalyticsError>
    requires |conv| == |stats|
  {
    var count := InvoiceCount(stats);
    if count == 0 then Failure(AverageCalculationFailed(DivisionByZero))
    else
      var gross := Sum(conv);
      var net := gross - Fees(stats, conv, target, pct);
      Success(Averages(gross / count as real, net / count as real, gross, net, target, count))
  }

  /** The averages are gross and net revenue per invoice, net being gross
      less the fees; they fail exactly when there is no invoice to divide by */
  lemma SummarizeCases(stats: seq<CurrencyGroup>, conv: seq<real>, target: string, pct: real)
    requires |conv| == |stats|
    ensures var r := Summarize(stats, conv, target, pct);
            && (r.Failure? <==> InvoiceCount(stats) == 0)
            && (r.Failure? ==> r.error == AverageCalculationFailed(DivisionByZero))
            && (r.Success? ==> r.value.Averages? && r.value.currency == target && r.value.invoiceCount == InvoiceCount(stats))
            && (r.Success? ==> && r.value.grossRevenue == Sum(conv)
                               && r.value.netRevenue == Sum(conv) - Fees(stats, conv, target, pct)
                               && r.value.averageBeforeFees * (InvoiceCount(stats) as real) == r.value.grossRevenue
                               && r.value.averageAfterFees * (InvoiceCount(stats) as real) == r.value.netRevenue)
  {
  }

  /** Fees never raise the average: after-fee figures are at most the gross ones */
  lemma AverageAfterFeesAtMostBefore(stats: seq<CurrencyGroup>, conv: seq<real>, target: string, pct: real)
    requires |conv| == |stats| && pct >= 0.0
    requires forall i :: 0 <= i < |conv| ==> conv[i] >= 0.0
    requires Summarize(stats, conv, target, pct).Success?
    ensures var a := Summarize(stats, conv, target, pct).value;
            && a.netRevenue <= a.grossRevenue
            && a.averageAfterFees <= a.averageBeforeFees
            && a.grossRevenue * pct / 100.0 >= a.grossRevenue - a.netRevenue >= 0.0
  {
    FeesBounds(stats, conv, target, pct);
    SummarizeCases(stats, conv, target, pct);
    var a := Summarize(stats, conv, target, pct).value;
    var n := InvoiceCount(stats) as real;
    assert a.averageAfterFees * n <= a.averageBeforeFees * n;
  }

  /** Two invoices: 100 USD, and 50 EUR converted to 55 USD; only the EUR group pays the 2% fee */
  lemma SummarizeExample()
    ensures Summarize([CurrencyGroup("USD", 100.0, 1), CurrencyGroup("EUR", 50.0, 1)], [100.0, 55.0], "USD", 2.0)
         == Success(Averages(77.5, 76.95, 155.0, 153.9, "USD", 2))
  {
    var stats := [CurrencyGroup("USD", 100.0, 1), CurrencyGroup("EUR", 50.0, 1)];
    var conv := [100.0, 55.0];
    assert stats[..1] == [CurrencyGroup("USD", 100.0, 1)] && conv[..1] == [100.0];
    assert Sum(conv) == 155.0;
    assert InvoiceCount(stats) == 2;
    assert Fees(stats, conv, "USD", 2.0) == 1.1;
  }

  // ---------------------------------------------------------------------------
  // The trace of conversion calls

  /** One `convert_currency` call: its arguments, the cache it saw and left,
      its result and the URLs it requested */
  datatype Call = Call(amount: real, fromCurrency: string, toCurrency: string,
                       before: map<string, Entry>, result: Result<Conversion, ConvertError>,
                       after: map<string, Entry>, fetched: seq<string>)

  ghost predicate Made(env: Env, c: Call) {
    ConvertOutcome(c.amount, c.fromCurrency, c.toCurrency, env, c.before, c.result, c.after, c.fetched)
  }

  /** `calls` ran one after another, from cache `before` to cache `after` */
  ghost predicate Run(env: Env, calls: seq<Call>, before: map<string, Entry>, after: map<string, Entry>) {
    if calls == [] then after == before
    else
      var last := calls[|calls| - 1];
      && Made(env, last)
      && last.after == after
      && Run(env, calls[..|calls| - 1], before, last.before)
  }

  lemma RunSnoc(env: Env, calls: seq<Call>, c: Call, before: map<string, Entry>)
    requires Run(env, calls, before, c.before) && Made(env, c)
    ensures Run(env, calls + [c], before, c.after)
  {
    assert (calls + [c])[..|calls|] == calls;
  }

  /** Every call of a run is one `convert_currency` outcome */
  lemma {:induction false} RunCallsAreOutcomes(env: Env, calls: seq<Call>, before: map<string, Entry>, after: map<string, Entry>)
    requires Run(env, calls, before, after)
    ensures forall i :: 0 <= i < |calls| ==> Made(env, calls[i])
  {
    if calls != [] {
      var prefix := calls[..|calls| - 1];
      RunCallsAreOutcomes(env, prefix, before, calls[|calls| - 1].before);
      assert forall i :: 0 <= i < |prefix| ==> prefix[i] == calls[i];
    }
  }

  /** The request log after one more call: the earlier calls' URLs, then the new ones */
  lemma LogGrows(requested: seq<string>, done: seq<string>, sent: seq<string>, now: seq<string>)
    requires sent == requested + done && sent <= now
    ensures now == requested + (done + now[|sent|..])
    ensures now[|requested|..] == done + now[|sent|..]
  {
    assert now == sent + now[|sent|..];
  }

  /** Every URL the calls requested, in order */
  function Fetched(calls: seq<Call>): seq<string> {
    if calls == [] then [] else Fetched(calls[..|calls| - 1]) + calls[|calls| - 1].fetched
  }

  lemma FetchedSnoc(calls: seq<Call>, c: Call)
    ensures Fetched(calls + [c]) == Fetched(calls) + c.fetched
  {
    assert (calls + [c])[..|calls|] == calls;
  }

  lemma {:induction false} FetchedBound(calls: seq<Call>)
    requires forall i :: 0 <= i < |calls| ==> |calls[i].fetched| <= 1
    ensures |Fetched(calls)| <= |calls|
  {
    if calls != [] {
      FetchedBound(calls[..|calls| - 1]);
    }
  }

  /** A run of conversions requests at most one URL per call */
  lemma RunFetchBound(env: Env, calls: seq<Call>, before: map<string, Entry>, after: map<string, Entry>)
    requires Run(env, calls, before, after)
    ensures |Fetched(calls)| <= |calls|
  {
    RunCallsAreOutcomes(env, calls, before, after);
    forall i | 0 <= i < |calls| ensures |calls[i].fetched| <= 1 {
      var c := calls[i];
      FetchesAtMostOnce(c.amount, c.fromCurrency, c.toCurrency, env, c.before, c.result, c.after, c.fetched);
    }
    FetchedBound(calls);
  }

  function ConvertedOf(r: Result<Conversion, ConvertError>): real {
    match r
    case Success(c) => c.converted
    case Failure(_) => 0.0
  }

  /** The converted amount of each call */
  function Converted(calls: seq<Call>): (conv: seq<real>)
    ensures |conv| == |calls|
  {
    seq(|calls|, i requires 0 <= i < |calls| => ConvertedOf(calls[i].result))
  }

  lemma ConvertedSnoc(calls: seq<Call>, c: Call)
    ensures Converted(calls + [c]) == Converted(calls) + [ConvertedOf(c.result)]
  {
    assert forall i :: 0 <= i < |calls| ==> (calls + [c])[i] == calls[i];
  }

  predicate AllSucceeded(calls: seq<Call>) {
    forall i :: 0 <= i < |calls| ==> calls[i].result.Success?
  }

  lemma CallConvertedIsAmountTimesRate(env: Env, c: Call)
    requires Made(env, c) && c.result.Success?
    ensures c.amount >= 0.0 && ConvertedOf(c.result) == c.amount * c.result.value.rate
  {
    SuccessIsAmountTimesRate(c.amount, c.fromCurrency, c.toCurrency, env, c.before, c.result, c.after, c.fetched);
  }

  lemma CallsConvertAtTheirRates(env: Env, calls: seq<Call>)
    requires forall i :: 0 <= i < |calls| ==> Made(env, calls[i])
    requires AllSucceeded(calls)
    ensures forall i :: 0 <= i < |calls| ==>
              calls[i].amount >= 0.0 && Converted(calls)[i] == calls[i].amount * calls[i].result.value.rate
  {
    forall i | 0 <= i < |calls|
      ensures calls[i].amount >= 0.0 && Converted(calls)[i] == calls[i].amount * calls[i].result.value.rate
    {
      CallConvertedIsAmountTimesRate(env, calls[i]);
    }
  }

  /** Each successful call of a run converted its amount at the rate it used */
  lemma ConvertedIsAmountTimesRate(env: Env, calls: seq<Call>, before: map<string, Entry>, after: map<string, Entry>)
    requires Run(env, calls, before, after) && AllSucceeded(calls)
    ensures forall i :: 0 <= i < |calls| ==>
              calls[i].amount >= 0.0 && Converted(calls)[i] == calls[i].amount * calls[i].result.value.rate
  {
    RunCallsAreOutcomes(env, calls, before, after);
    CallsConvertAtTheirRates(env, calls);
  }

  /** Call `i` converts group `i`'s total from its currency to `target` */
  predicate ConvertsGroups(calls: seq<Call>, groups: seq<CurrencyGroup>, target: string) {
    && |calls| <= |groups|
    && forall i :: 0 <= i < |calls| ==>
         calls[i].amount == groups[i].total && calls[i].fromCurrency == groups[i].currency && calls[i].toCurrency == target
  }

  /** The loop over the groups: one conversion of `total` from `currency` to
      `target` per group, in order, stopping at the first failure */
  ghost predicate ConversionLoop(env: Env, groups: seq<CurrencyGroup>, target: string,
                                 before: map<string, Entry>, calls: seq<Call>, after: map<string, Entry>,
                                 fetched: seq<string>)
  {
    && fetched == Fetched(calls)
    && Run(env, calls, before, after)
    && ConvertsGroups(calls, groups, target)
    && (forall i :: 0 <= i < |calls| - 1 ==> calls[i].result.Success?)
    && (|calls| < |groups| ==> calls != [] && calls[|calls| - 1].result.Failure?)
  }

  /** One turn of the loop: the next group's call extends the run; a failed
      call ends it */
  lemma LoopStep(env: Env, groups: seq<CurrencyGroup>, target: string, before: map<string, Entry>,
                 calls: seq<Call>, c: Call)
    requires Run(env, calls, before, c.before) && Made(env, c)
    requires ConvertsGroups(calls, groups, target) && AllSucceeded(calls) && |calls| < |groups|
    requires c.amount == groups[|calls|].total && c.fromCurrency == groups[|calls|].currency && c.toCurrency == target
    ensures Run(env, calls + [c], before, c.after)
    ensures ConvertsGroups(calls + [c], groups, target)
    ensures Fetched(calls + [c]) == Fetched(calls) + c.fetched
    ensures Converted(calls + [c]) == Converted(calls) + [ConvertedOf(c.result)]
    ensures c.result.Success? ==> AllSucceeded(calls + [c])
    ensures c.result.Failure? ==> ConversionLoop(env, groups, target, before, calls + [c], c.after, Fetched(calls + [c]))
  {
    RunSnoc(env, calls, c, before);
    FetchedSnoc(calls, c);
    ConvertedSnoc(calls, c);
    GroupsSnoc(calls, groups, target, c);
  }

  lemma GroupsSnoc(calls: seq<Call>, groups: seq<CurrencyGroup>, target: string, c: Call)
    requires ConvertsGroups(calls, groups, target) && AllSucceeded(calls) && |calls| < |groups|
    requires c.amount == groups[|calls|].total && c.fromCurrency == groups[|calls|].currency && c.toCurrency == target
    ensures ConvertsGroups(calls + [c], groups, target)
    ensures forall i :: 0 <= i < |calls| ==> (calls + [c])[i].result.Success?
    ensures c.result.Success? ==> AllSucceeded(calls + [c])
  {
    var cs := calls + [c];
    assert forall i :: 0 <= i < |calls| ==> cs[i] == calls[i];
  }

  /** The loop ran to the end with every call succeeding */
  lemma LoopDone(env: Env, groups: seq<CurrencyGroup>, target: string, before: map<string, Entry>,
                 calls: seq<Call>, after: map<string, Entry>)
    requires Run(env, calls, before, after)
    requires ConvertsGroups(calls, groups, target) && AllSucceeded(calls) && |calls| == |groups|
    ensures ConversionLoop(env, groups, target, before, calls, after, Fetched(calls))
    ensures Completed(calls, groups)
  {
  }

  /** Every group was converted, successfully */
  predicate Completed(calls: seq<Call>, groups: seq<CurrencyGroup>) {
    |calls| == |groups| && AllSucceeded(calls)
  }

  /** `_get_revenue` */
  ghost predicate RevenueOutcome(env: Env, rateType: RateType, stored: seq<real>, groups: seq<CurrencyGroup>,
                                 before: map<string, Entry>, r: Result<RevenueSummary, AnalyticsError>,
                                 calls: seq<Call>, after: map<string, Entry>, fetched: seq<string>)
  {
    match rateType
    case Historic =>
      r == Success(RevenueSummary(Sum(stored), RevenueCurrency, Historic))
      && calls == [] && after == before && fetched == []
    case Current =>
      && ConversionLoop(env, groups, RevenueCurrency, before, calls, after, fetched)
      && (Completed(calls, groups) ==> r == Success(RevenueSummary(Sum(Converted(calls)), RevenueCurrency, Current)))
      && (!Completed(calls, groups) ==>
            calls != [] && calls[|calls| - 1].result.Failure?
            && r == Failure(ConversionFailed(calls[|calls| - 1].result.error)))
  }

  /** `_calculate_average_invoice_size` */
  ghost predicate AverageOutcome(env: Env, pct: real, target: string, stats: seq<CurrencyGroup>,
                                 before: map<string, Entry>, r: Result<AverageSize, AnalyticsError>,
                                 calls: seq<Call>, after: map<string, Entry>, fetched: seq<string>)
  {
    if stats == [] then
      r == Success(NoInvoices(target)) && calls == [] && after == before && fetched == []
    else
      && ConversionLoop(env, stats, target, before, calls, after, fetched)
      && (Completed(calls, stats) ==> r == Summarize(stats, Converted(calls), target, pct))
      && (!Completed(calls, stats) ==>
            calls != [] && calls[|calls| - 1].result.Failure?
            && r == Failure(AverageCalculationFailed(ConversionError(calls[|calls| - 1].result.error))))
  }

  lemma RevenueStopped(env: Env, stored: seq<real>, groups: seq<CurrencyGroup>, before: map<string, Entry>,
                       calls: seq<Call>, after: map<string, Entry>)
    requires ConversionLoop(env, groups, RevenueCurrency, before, calls, after, Fetched(calls))
    requires calls != [] && calls[|calls| - 1].result.Failure?
    ensures RevenueOutcome(env, Current, stored, groups, before, Failure(ConversionFailed(calls[|calls| - 1].result.error)),
                           calls, after, Fetched(calls))
  {
  }

  lemma RevenueDone(env: Env, stored: seq<real>, groups: seq<CurrencyGroup>, before: map<string, Entry>,
                    calls: seq<Call>, after: map<string, Entry>)
    requires Completed(calls, groups)
    requires ConversionLoop(env, groups, RevenueCurrency, before, calls, after, Fetched(calls))
    ensures RevenueOutcome(env, Current, stored, groups, before,
                           Success(RevenueSummary(Sum(Converted(calls)), RevenueCurrency, Current)),
                           calls, after, Fetched(calls))
  {
  }

  // ---------------------------------------------------------------------------
  // The endpoints

  /** `InvoiceRevenueSummaryAPIView._get_revenue` */
  method GetRevenue(settings: Settings, cache: RateCache, fetcher: RateFetcher, rateType: RateType,
                    stored: seq<real>, groups: seq<CurrencyGroup>)
    returns (r: Result<RevenueSummary, AnalyticsError>, ghost calls: seq<Call>)
    modifies cache`entries, fetcher`requests
    ensures old(fetcher.requests) <= fetcher.requests
    ensures RevenueOutcome(Env(cache.now, CacheExpiry(settings), fetcher.api, fetcher.http), rateType, stored, groups,
                           old(cache.entries), r, calls, cache.entries, fetcher.requests[|old(fetcher.requests)|..])
  {
    ghost var env := Env(cache.now, CacheExpiry(settings), fetcher.api, fetcher.http);
    ghost var start := cache.entries;
    ghost var requested := fetcher.requests;
    calls := [];
    if rateType == Historic {
      r := Success(RevenueSummary(Sum(stored), RevenueCurrency, Historic));
      assert fetcher.requests[|requested|..] == [];
      return;
    }
    var total := 0.0;
    var i := 0;
    while i < |groups|
      invariant 0 <= i <= |groups| && |calls| == i
      invariant fetcher.requests == requested + Fetched(calls)
      invariant Run(env, calls, start, cache.entries)
      invariant ConvertsGroups(calls, groups, RevenueCurrency) && AllSucceeded(calls)
      invariant total == Sum(Converted(calls))
    {
      var group := groups[i];
      ghost var seen := cache.entries;
      ghost var sent := fetcher.requests;
      var res := ConvertCurrency(settings, cache, fetcher, group.total, group.currency, RevenueCurrency);
      ghost var call := Call(group.total, group.currency, RevenueCurrency, seen, res, cache.entries,
                             fetcher.requests[|sent|..]);
      LogGrows(requested, Fetched(calls), sent, fetcher.requests);
      LoopStep(env, groups, RevenueCurrency, start, calls, call);
      ghost var prefix := calls;
      calls := calls + [call];
      if res.Failure? {
        r := Failure(ConversionFailed(res.error));
        assert fetcher.requests[|requested|..] == Fetched(calls);
        RevenueStopped(env, stored, groups, start, calls, cache.entries);
        return;
      }
      SumSnoc(Converted(prefix), res.value.converted);
      total := total + res.value.converted;
      i := i + 1;
    }
    LoopDone(env, groups, RevenueCurrency, start, calls, cache.entries);
    r := Success(RevenueSummary(total, RevenueCurrency, Current));
    assert fetcher.requests[|requested|..] == Fetched(calls);
    RevenueDone(env, stored, groups, start, calls, cache.entries);
  }

  /** The accumulators after adding group `i`, converted to `x` */
  lemma AccumulateGroup(stats: seq<CurrencyGroup>, i: int, conv: seq<real>, x: real, target: string, pct: real)
    requires 0 <= i < |stats| && |conv| == i
    ensures Sum(conv + [x]) == Sum(conv) + x
    ensures InvoiceCount(stats[..i + 1]) == InvoiceCount(stats[..i]) + stats[i].count
    ensures Fees(stats[..i + 1], conv + [x], target, pct) == Fees(stats[..i], conv, target, pct) + Fee(stats[i], x, target, pct)
  {
    SumSnoc(conv, x);
    assert stats[..i + 1] == stats[..i] + [stats[i]];
    assert stats[..i + 1][..i] == stats[..i];
    FeesSnoc(stats[..i], conv, stats[i], x, target, pct);
  }

  /** The loop of `_calculate_average_invoice_size`: converts each group's
      total to `target`, adding it to the revenue, its invoice count to the
      count and, for a foreign group, its fee to the fees; `err` is the first
      conversion error, which ends the loop */
  method AccumulateGroups(settings: Settings, cache: RateCache, fetcher: RateFetcher,
                          stats: seq<CurrencyGroup>, target: string, pct: real)
    returns (err: Option<ConvertError>, totalRevenue: real, totalFees: real, numberOfInvoices: nat,
             ghost calls: seq<Call>)
    modifies cache`entries, fetcher`requests
    ensures old(fetcher.requests) <= fetcher.requests
    ensures ConversionLoop(Env(cache.now, CacheExpiry(settings), fetcher.api, fetcher.http), stats, target,
                           old(cache.entries), calls, cache.entries, fetcher.requests[|old(fetcher.requests)|..])
    ensures err.None? <==> Completed(calls, stats)
    ensures err.Some? ==> calls != [] && calls[|calls| - 1].result == Failure(err.value)
    ensures err.None? ==>
              && totalRevenue == Sum(Converted(calls))
              && numberOfInvoices == InvoiceCount(stats)
              && totalFees == Fees(stats, Converted(calls), target, pct)
  {
    ghost var env := Env(cache.now, CacheExpiry(settings), fetcher.api, fetcher.http);
    ghost var start := cache.entries;
    ghost var requested := fetcher.requests;
    calls := [];
    totalRevenue, totalFees, numberOfInvoices := 0.0, 0.0, 0;
    var i := 0;
    while i < |stats|
      invariant 0 <= i <= |stats| && |calls| == i
      invariant fetcher.requests == requested + Fetched(calls)
      invariant Run(env, calls, start, cache.entries)
      invariant ConvertsGroups(calls, stats, target) && AllSucceeded(calls)
      invariant totalRevenue == Sum(Converted(calls))
      invariant numberOfInvoices == InvoiceCount(stats[..i])
      invariant totalFees == Fees(stats[..i], Converted(calls), target, pct)
    {
      var group := stats[i];
      ghost var seen := cache.entries;
      ghost var sent := fetcher.requests;
      var res := ConvertCurrency(settings, cache, fetcher, group.total, group.currency, target);
      ghost var call := Call(group.total, group.currency, target, seen, res, cache.entries,
                             fetcher.requests[|sent|..]);
      LogGrows(requested, Fetched(calls), sent, fetcher.requests);
      LoopStep(env, stats, target, start, calls, call);
      ghost var prefix := calls;
      calls := calls + [call];
      if res.Failure? {
        assert fetcher.requests[|requested|..] == Fetched(calls);
        return Some(res.error), totalRevenue, totalFees, numberOfInvoices, calls;
      }
      var converted := res.value.converted;
      AccumulateGroup(stats, i, Converted(prefix), converted, target, pct);
      totalRevenue := totalRevenue + converted;
      numberOfInvoices := numberOfInvoices + group.count;
      if group.currency != target {
        totalFees := totalFees + Fee(group, converted, target, pct);
      }
      i := i + 1;
    }
    LoopDone(env, stats, target, start, calls, cache.entries);
    assert stats[..i] == stats;
    assert fetcher.requests[|requested|..] == Fetched(calls);
    err := None;
  }

  /** `InvoiceRevenueAverageSizeAPIView._calculate_average_invoice_size` */
  method CalculateAverageInvoiceSize(settings: Settings, cache: RateCache, fetcher: RateFetcher,
                                     stats: seq<CurrencyGroup>, target: string)
    returns (r: Result<AverageSize, AnalyticsError>, ghost calls: seq<Call>)
    modifies cache`entries, fetcher`requests
    ensures old(fetcher.requests) <= fetcher.requests
    ensures AverageOutcome(Env(cache.now, CacheExpiry(settings), fetcher.api, fetcher.http), FeePercent(settings),
                           target, stats, old(cache.entries), r, calls, cache.entries,
                           fetcher.requests[|old(fetcher.requests)|..])
  {
    if stats == [] {
      r, calls := Success(NoInvoices(target)), [];
      assert fetcher.requests[|fetcher.requests|..] == [];
      return;
    }
    var pct := FeePercent(settings);
    var err, totalRevenue, totalFees, numberOfInvoices;
    err, totalRevenue, totalFees, numberOfInvoices, calls := AccumulateGroups(settings, cache, fetcher, stats, target, pct);
    if err.Some? {
      r := Failure(AverageCalculationFailed(ConversionError(err.value)));
    } else if numberOfInvoices == 0 {
      r := Failure(AverageCalculationFailed(DivisionByZero));
    } else {
      var averageAmount := totalRevenue / numberOfInvoices as real;
      var averageAfterFees := (totalRevenue - totalFees) / numberOfInvoices as real;
      r := Success(Averages(averageAmount, averageAfterFees, totalRevenue, totalRevenue - totalFees, target, numberOfInvoices));
    }
  }

  /** `InvoiceRevenueSummaryAPIView.get`: the rate type is checked before any work */
  method GetRevenueSummary(settings: Settings, cache: RateCache, fetcher: RateFetcher, rateParam: Option<string>,
                           stored: seq<real>, groups: seq<CurrencyGroup>)
    returns (r: Result<RevenueSummary, AnalyticsError>, ghost calls: seq<Call>)
    modifies cache`entries, fetcher`requests
    ensures old(fetcher.requests) <= fetcher.requests
    ensures ParseRateType(rateParam).Failure? ==>
              r == Failure(InvalidRateType) && calls == []
              && cache.entries == old(cache.entries) && fetcher.requests == old(fetcher.requests)
    ensures ParseRateType(rateParam).Success? ==>
              RevenueOutcome(Env(cache.now, CacheExpiry(settings), fetcher.api, fetcher.http),
                             ParseRateType(rateParam).value, stored, groups,
                             old(cache.entries), r, calls, cache.entries, fetcher.requests[|old(fetcher.requests)|..])
  {
    var rateType := ParseRateType(rateParam);
    if rateType.Failure? {
      return Failure(rateType.error), [];
    }
    r, calls := GetRevenue(settings, cache, fetcher, rateType.value, stored, groups);
  }

  /** `InvoiceRevenueAverageSizeAPIView.get`: the target code is checked before any work */
  method GetAverageInvoiceSize(settings: Settings, cache: RateCache, fetcher: RateFetcher,
                               currencyParam: Option<string>, stats: seq<CurrencyGroup>)
    returns (r: Result<AverageSize, AnalyticsError>, ghost calls: seq<Call>)
    modifies cache`entries, fetcher`requests
    ensures old(fetcher.requests) <= fetcher.requests
    ensures ParseTargetCurrency(currencyParam).Failure? ==>
              r == Failure(InvalidCurrencyCode) && calls == []
              && cache.entries == old(cache.entries) && fetcher.requests == old(fetcher.requests)
    ensures ParseTargetCurrency(currencyParam).Success? ==>
              AverageOutcome(Env(cache.now, CacheExpiry(settings), fetcher.api, fetcher.http), FeePercent(settings),
                             ParseTargetCurrency(currencyParam).value, stats,
                             old(cache.entries), r, calls, cache.entries, fetcher.requests[|old(fetcher.requests)|..])
  {
    var target := ParseTargetCurrency(currencyParam);
    if target.Failure? {
      return Failure(target.error), [];
    }
    r, calls := CalculateAverageInvoiceSize(settings, cache, fetcher, stats, target.value);
  }

  // ---------------------------------------------------------------------------
  // Properties of the endpoints

  /** The historic total is the sum of the stored converted amounts, zero for
      none, and no conversion is made */
  lemma HistoricRevenueIsStoredSum(env: Env, stored: seq<real>, groups: seq<CurrencyGroup>,
                                   before: map<string, Entry>, r: Result<RevenueSummary, AnalyticsError>,
                                   calls: seq<Call>, after: map<string, Entry>, fetched: seq<string>)
    requires RevenueOutcome(env, Historic, stored, groups, before, r, calls, after, fetched)
    ensures r.Success? && r.value.totalRevenue == Sum(stored) && r.value.currency == "USD"
    ensures stored == [] ==> r.value.totalRevenue == 0.0
    ensures (forall i :: 0 <= i < |stored| ==> stored[i] >= 0.0) ==> r.value.totalRevenue >= 0.0
    ensures calls == [] && fetched == [] && after == before
  {
    if forall i :: 0 <= i < |stored| ==> stored[i] >= 0.0 {
      SumNonNegative(stored);
    }
  }

  /** At current rates: one conversion per group, at most one fetch each, and
      a successful total is the sum of amount times rate over the groups */
  lemma CurrentRevenueIsSumOfConversions(env: Env, stored: seq<real>, groups: seq<CurrencyGroup>,
                                         before: map<string, Entry>, r: Result<RevenueSummary, AnalyticsError>,
                                         calls: seq<Call>, after: map<string, Entry>, fetched: seq<string>)
    requires RevenueOutcome(env, Current, stored, groups, before, r, calls, after, fetched)
    ensures |fetched| <= |calls| <= |groups|
    ensures r.Success? ==> |calls| == |groups| && r.value.totalRevenue == Sum(Converted(calls))
    ensures r.Success? ==> forall i :: 0 <= i < |groups| ==>
              Converted(calls)[i] == groups[i].total * calls[i].result.value.rate
    ensures r.Failure? ==> r.error.ConversionFailed?
  {
    RunFetchBound(env, calls, before, after);
    if r.Success? {
      assert Completed(calls, groups);
      ConvertedIsAmountTimesRate(env, calls, before, after);
      GroupsConvertAtTheirRates(calls, groups);
    }
  }

  lemma GroupsConvertAtTheirRates(calls: seq<Call>, groups: seq<CurrencyGroup>)
    requires ConvertsGroups(calls, groups, RevenueCurrency) && Completed(calls, groups)
    requires forall i :: 0 <= i < |calls| ==> Converted(calls)[i] == calls[i].amount * calls[i].result.value.rate
    ensures forall i :: 0 <= i < |groups| ==> Converted(calls)[i] == groups[i].total * calls[i].result.value.rate
  {
  }

  /** All groups already in USD: the current total is the plain sum of the
      group totals, and neither the cache nor the provider is consulted */
  lemma {:induction false} UsdOnlyRevenueNeedsNoRates(env: Env, stored: seq<real>, groups: seq<CurrencyGroup>,
                                   before: map<string, Entry>, r: Result<RevenueSummary, AnalyticsError>,
                                   calls: seq<Call>, after: map<string, Entry>, fetched: seq<string>)
    requires RevenueOutcome(env, Current, stored, groups, before, r, calls, after, fetched)
    requires forall i :: 0 <= i < |groups| ==> NormalizeCode(groups[i].currency) == NormalizeCode(RevenueCurrency)
    requires forall i :: 0 <= i < |groups| ==> groups[i].total >= 0.0
    ensures r.Success? && fetched == [] && after == before
    ensures Converted(calls) == seq(|groups|, i requires 0 <= i < |groups| => groups[i].total)
  {
    RunCallsAreOutcomes(env, calls, before, after);
    forall i | 0 <= i < |calls|
      ensures calls[i].result == Success(Conversion(groups[i].total, 1.0)) && calls[i].after == calls[i].before
      ensures calls[i].fetched == []
    {
      var c := calls[i];
      SelfConversionIsIdentity(c.amount, c.fromCurrency, c.toCurrency, env, c.before, c.result, c.after, c.fetched);
    }
    assert Completed(calls, groups);
    NoFetchesAndNoWrites(env, calls, before, after);
  }

  /** Calls that neither fetch nor write leave the cache as it was and request nothing */
  lemma {:induction false} NoFetchesAndNoWrites(env: Env, calls: seq<Call>, before: map<string, Entry>, after: map<string, Entry>)
    requires Run(env, calls, before, after)
    requires forall i :: 0 <= i < |calls| ==> calls[i].fetched == [] && calls[i].after == calls[i].before
    ensures Fetched(calls) == [] && after == before
  {
    if calls != [] {
      var prefix := calls[..|calls| - 1];
      assert forall i :: 0 <= i < |prefix| ==> prefix[i] == calls[i];
      NoFetchesAndNoWrites(env, prefix, before, calls[|calls| - 1].before);
    }
  }

  /** The average endpoint: no groups means no conversion at all; otherwise
      fees are bounded, and once every rate is non-negative the after-fee
      average is at most the gross one */
  lemma AverageOutcomeProperties(env: Env, pct: real, target: string, stats: seq<CurrencyGroup>,
                                 before: map<string, Entry>, r: Result<AverageSize, AnalyticsError>,
                                 calls: seq<Call>, after: map<string, Entry>, fetched: seq<string>)
    requires AverageOutcome(env, pct, target, stats, before, r, calls, after, fetched)
    requires pct >= 0.0
    requires forall i :: 0 <= i < |calls| ==> calls[i].result.Success? ==> calls[i].result.value.rate >= 0.0
    ensures stats == [] ==> r == Success(NoInvoices(target)) && fetched == [] && after == before
    ensures |fetched| <= |calls| <= |stats|
    ensures r.Success? && r.value.Averages? ==>
              && r.value.invoiceCount == InvoiceCount(stats)
              && r.value.netRevenue <= r.value.grossRevenue
              && r.value.averageAfterFees <= r.value.averageBeforeFees
  {
    RunFetchBound(env, calls, before, after);
    if stats != [] && Completed(calls, stats) {
      CompletedAverages(env, pct, target, stats, before, calls, after);
    }
  }

  /** Rows of the grouped query count at least one invoice each, so the
      division by zero the endpoint catches can only follow an empty query,
      which returns early */
  lemma GroupedRowsNeverDivideByZero(env: Env, pct: real, target: string, stats: seq<CurrencyGroup>,
                                     before: map<string, Entry>, r: Result<AverageSize, AnalyticsError>,
                                     calls: seq<Call>, after: map<string, Entry>, fetched: seq<string>)
    requires AverageOutcome(env, pct, target, stats, before, r, calls, after, fetched)
    requires forall i :: 0 <= i < |stats| ==> stats[i].count >= 1
    ensures r != Failure(AverageCalculationFailed(DivisionByZero))
    ensures r.Success? && r.value.Averages? ==> r.value.invoiceCount >= |stats|
  {
    InvoiceCountAtLeastGroups(stats);
    if stats != [] && Completed(calls, stats) {
      SummarizeCases(stats, Converted(calls), target, pct);
    }
  }

  lemma CompletedAverages(env: Env, pct: real, target: string, stats: seq<CurrencyGroup>,
                          before: map<string, Entry>, calls: seq<Call>, after: map<string, Entry>)
    requires Run(env, calls, before, after) && Completed(calls, stats)
    requires pct >= 0.0
    requires forall i :: 0 <= i < |calls| ==> calls[i].result.Success? ==> calls[i].result.value.rate >= 0.0
    ensures var r := Summarize(stats, Converted(calls), target, pct);
            r.Success? ==>
              && r.value.netRevenue <= r.value.grossRevenue
              && r.value.averageAfterFees <= r.value.averageBeforeFees
  {
    RunCallsAreOutcomes(env, calls, before, after);
    ConvertedNonNegative(env, calls);
    if Summarize(stats, Converted(calls), target, pct).Success? {
      AverageAfterFeesAtMostBefore(stats, Converted(calls), target, pct);
    }
  }

  lemma ConvertedNonNegative(env: Env, calls: seq<Call>)
    requires forall i :: 0 <= i < |calls| ==> Made(env, calls[i])
    requires AllSucceeded(calls)
    requires forall i :: 0 <= i < |calls| ==> calls[i].result.value.rate >= 0.0
    ensures forall i :: 0 <= i < |calls| ==> Converted(calls)[i] >= 0.0
  {
    CallsConvertAtTheirRates(env, calls);
    ProductsNonNegative(calls);
  }

  lemma ProductsNonNegative(calls: seq<Call>)
    requires AllSucceeded(calls)
    requires forall i :: 0 <= i < |calls| ==>
               calls[i].amount >= 0.0 && calls[i].result.value.rate >= 0.0
               && Converted(calls)[i] == calls[i].amount * calls[i].result.value.rate
    ensures forall i :: 0 <= i < |calls| ==> Converted(calls)[i] >= 0.0
  {
    forall i | 0 <= i < |calls| ensures Converted(calls)[i] >= 0.0 {
      var c := calls[i];
      assert c.amount * c.result.value.rate >= 0.0;
    }
  }

}
