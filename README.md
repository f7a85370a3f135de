# Invoice analytics: the currency-conversion core

This project models the part of the invoicing service that turns amounts in
one currency into another and builds revenue figures on top. It covers five
pieces:

- **The exchange-rate client** (`ExchangeRate`). It forms the request URL
  `base_url/api_key/latest/FROM` and checks the decoded reply: `result` must
  be `"success"` and the upper-cased target code must be in
  `conversion_rates`. The HTTP round trip is an oracle from URL to reply, so
  a transport failure is just one kind of reply.
- **The currency converter and its rate cache** (`Converter`).
  - `convert_currency` refuses a negative amount.
  - It upper-cases and trims both codes, and answers a self-conversion with
    `(amount, 1.0)`.
  - Otherwise it reads `exchange_rate:FROM:TO` from the shared store. A miss
    fetches the rate and writes it back, best effort, with the configured
    ttl (default 300 s). It returns `(amount * rate, rate)`.
  - The store is a class holding a map from key to stored text with an
    expiry time, plus the store's clock. Any GET or SETEX may fail, and the
    model lets each call fail or not.
  - The fetcher keeps a ghost log of the URLs it requested.
  - `ConvertOutcome` states every way one call can go: the result, the cache
    after the call, and the URLs requested.
- **The analytics endpoints** (`Analytics`).
  - Validation of the `rate` and `currency` query parameters.
  - The revenue total, either historic (the stored converted amounts) or at
    current rates (one conversion per currency group, accumulated in a loop).
  - The average invoice size, with a percentage fee on groups whose currency
    is not the target. The fee defaults to 2 %.
  - The ORM query results are inputs. A ghost trace of `Call`s records every
    conversion the loops make.
- **The invoice record** (`Invoices`). The `Invoice` row, the object the
  update serializer assigns to, and what `setattr` does to it.
- **The serializers** (`Serializers`).
  - The three field validators.
  - `create`, which converts the validated amount to USD and builds the row.
  - `update`, which reconverts only when the currency or the amount changes,
    then writes every validated field in place.

Amounts and rates are exact `real`s; results are stated before any rounding.

Four behaviours of the code differ from what its own names and messages
suggest. The model follows the code in each:

- **Zero amounts.** The error raised for a bad amount says "Amount must be a
  positive number" (invoices/services/currency_converter.py:50), but the
  guard at line 49 refuses only negative amounts, so zero converts.
- **Non-positive rates.** `_get_cached_rate` (currency_converter.py:23-26)
  returns any cached text that `float()` parses, zero and negative rates
  included. `get_exchange_rate` (invoices/integrations/exchange_rate.py:38-41)
  returns any number the provider quotes.
- **Cache round trip.** The cache is there so that a pair is not fetched
  again within the ttl (currency_converter.py:58-64). But a store error on
  GET is logged and read as a miss (lines 29-32), and the rate is then
  fetched again. `Converter.CacheRoundTrip` therefore states "the stored rate
  without a fetch, or exactly one fetch".
- **Fee currency test.** The conversion trims and upper-cases both codes
  (currency_converter.py:52-53). The fee test (invoices/views/analytics.py:150)
  compares the group's stored currency with the target as raw strings.

## Model

| member | source | states |
|---|---|---|
| Common.CacheExpiry | invoices/services/currency_converter.py:12 | the cache ttl is `CACHE_EXPIRY` when set, otherwise 300 |
| Common.FeePercent | invoices/views/analytics.py:136 | the fee percentage is `CONVERSION_FEE_PERCENT` when set, otherwise 2 |
| Text.UpperIsUpperCase | invoices/services/currency_converter.py:16 | `upper()` leaves no lower-case letter, and leaves a string unchanged exactly when it has none |
| Text.UpperIdempotent | invoices/services/currency_converter.py:52-53 | upper-casing twice is upper-casing once |
| Text.LowerIdempotent | invoices/views/analytics.py:24 | lower-casing twice is lower-casing once |
| Text.LowerOfUpper | invoices/views/analytics.py:24 | lower-casing forgets an earlier upper-casing |
| Text.StripLeftSpec | invoices/services/currency_converter.py:52-53 | `lstrip` removes exactly the leading whitespace and leaves a suffix |
| Text.StripRightSpec | invoices/services/currency_converter.py:52-53 | `rstrip` removes exactly the trailing whitespace and leaves a prefix |
| Text.StripSpec | invoices/services/currency_converter.py:52-53 | `strip` leaves a contiguous piece of the input with no whitespace at either end |
| Text.StripKeepsUpperCase | invoices/services/currency_converter.py:52-53 | stripping an upper-cased code keeps it upper-cased |
| Text.StripIdempotent | invoices/services/currency_converter.py:52-53 | stripping twice is stripping once |
| ExchangeRate.RequestUrl | invoices/integrations/exchange_rate.py:22 | the request URL `base_url/api_key/latest/FROM`; `RequestUrlInjective` states that it determines FROM |
| ExchangeRate.GetExchangeRate | invoices/integrations/exchange_rate.py:13-51 | `get_exchange_rate` on the provider's reply to that URL; its cases are stated by `GetExchangeRateCases` and the lemmas below it |
| ExchangeRate.GetExchangeRateCases | invoices/integrations/exchange_rate.py:19-45 | a transport failure becomes a fetch error; a non-success result becomes an API error carrying `error-type` or "Unknown error"; a missing target code (an absent table counting as empty) becomes unsupported-currency; a returned rate is exactly the quoted `conversion_rates[TO]` |
| ExchangeRate.RequestUrlInjective | invoices/integrations/exchange_rate.py:22 | the URL `base/key/latest/FROM` determines FROM |
| ExchangeRate.GetExchangeRateCaseInsensitive | invoices/integrations/exchange_rate.py:19-20 | the result is the same for the upper-cased codes |
| ExchangeRate.GetExchangeRateReadsOneUrl | invoices/integrations/exchange_rate.py:22-27 | the result depends on the provider only through its reply to the one URL requested |
| ExchangeRate.QuotedRateReturned | invoices/integrations/exchange_rate.py:38-41 | a success reply quoting the target yields that quote |
| Converter.RateFetcher.Fetch | invoices/integrations/exchange_rate.py:53-58 | one call requests exactly one URL, for the upper-cased source code, and returns the client's result |
| Converter.CacheKey | invoices/services/currency_converter.py:14-16 | the key `exchange_rate:FROM:TO` of the upper-cased codes; `CacheKeyInjective`, `CacheKeyCaseInsensitive` and `CacheKeyCollision` state what it separates |
| Converter.NormalizeCode | invoices/services/currency_converter.py:52-53 | the upper-cased, trimmed code; its lemmas state that it is upper-case, case-blind and idempotent |
| Converter.Lookup | invoices/services/currency_converter.py:22 | a GET that is answered sees a live value exactly when the key has an unexpired entry |
| Converter.RateOfReply | invoices/services/currency_converter.py:23-32 | only parseable stored text is a hit; no value, empty or unparseable text and a store error are all a miss and never raise |
| Converter.UnusableEntryIsMiss | invoices/services/currency_converter.py:22-32 | there is no usable cached rate exactly when the entry is absent, expired or unparseable; a usable one is the stored rate |
| Converter.CachedRate | invoices/services/currency_converter.py:18-32 | the rate an answered GET of the key yields; `UnusableEntryIsMiss` states when there is one |
| Converter.RateCache.constructor | invoices/utils/redis_client.py:23 | a fresh store holds no entries |
| Converter.CurrencyConverter.constructor | invoices/services/currency_converter.py:10-12 | the converter uses the shared store and fetcher, with ttl `CACHE_EXPIRY` or 300 |
| Converter.RateCache.Get | invoices/services/currency_converter.py:22 | GET returns the live value or a store error |
| Converter.RateCache.SetEx | invoices/services/currency_converter.py:38 | SETEX stores the value under the key for ttl seconds, or changes nothing |
| Converter.CurrencyConverter.GetCachedRate | invoices/services/currency_converter.py:18-32 | a returned rate is the usable stored rate; with none stored, nothing is returned |
| Converter.CurrencyConverter.SetCachedRate | invoices/services/currency_converter.py:34-41 | either the rate text is stored under the pair's key with the converter's ttl, or the cache is unchanged (a failed write is swallowed) |
| Converter.CacheHit | invoices/services/currency_converter.py:58-69 | a hit: no fetch, no write, and the result is the amount at the usable stored rate |
| Converter.CacheMiss | invoices/services/currency_converter.py:58-69 | a miss: exactly one request; a fetch error is re-raised with nothing written; a fetched rate is used and either written under the pair's key for the ttl or lost |
| Converter.ConvertOutcome | invoices/services/currency_converter.py:43-73 | every way one `convert_currency` call can go: negative amount, equal normalised codes, hit, or miss |
| Converter.CurrencyConverter.Convert | invoices/services/currency_converter.py:43-73 | the call is one of the cases of `ConvertOutcome`: refused amount, self-conversion, hit, or a miss with exactly one fetch |
| Converter.ConvertCurrency | invoices/services/currency_converter.py:75-80 | a fresh converter with the configured ttl behaves as `ConvertOutcome` and returns `(amount * rate, rate)` |
| Converter.CacheKeyInjective | invoices/services/currency_converter.py:14-16 | for colon-free source codes, equal keys mean equal upper-cased pairs |
| Converter.CacheKeyCaseInsensitive | invoices/services/currency_converter.py:14-16 | `(a, b)` and `(A, B)` share a key |
| Converter.CacheKeyCollision | invoices/services/currency_converter.py:14-16 | codes that contain a colon can make two pairs share a key |
| Converter.NormalizedCodeIsUpperCase | invoices/services/currency_converter.py:52-53 | a trimmed upper-cased code is upper-cased |
| Converter.NormalizeCodeCaseInsensitive | invoices/services/currency_converter.py:52-53 | normalisation ignores the case of its input |
| Converter.NormalizeCodeIdempotent | invoices/services/currency_converter.py:52-53 | normalising a normalised code changes nothing |
| Converter.ConvertSeesNormalizedCodes | invoices/services/currency_converter.py:52-53 | a conversion has the same possible outcomes for its codes as for their normalised forms |
| Converter.ConvertCaseInsensitive | invoices/services/currency_converter.py:52-53 | a conversion's possible outcomes do not depend on the case of the codes |
| Converter.AmountCheckedFirst | invoices/services/currency_converter.py:49-50 | a negative amount is refused with no cache access and no fetch; zero is accepted; that refusal is the only invalid-amount error |
| Converter.SelfConversionIsIdentity | invoices/services/currency_converter.py:52-56 | equal normalised codes give `(amount, 1.0)` with no cache access and no fetch |
| Converter.FailureCases | invoices/services/currency_converter.py:60-73 | a failure writes nothing and is either the amount check or the fetcher's own error after exactly one request |
| Converter.FetchesAtMostOnce | invoices/services/currency_converter.py:58-64 | a conversion requests nothing, or the one URL for the normalised source code |
| Converter.SuccessIsAmountTimesRate | invoices/services/currency_converter.py:55-69 | every success returns `(amount * rate, rate)` for a non-negative amount; a self-conversion has rate 1.0 |
| Converter.CacheChangesOnlyAtPairKey | invoices/services/currency_converter.py:58-64 | a failure writes nothing; any conversion changes at most the pair's key |
| Converter.MissFetchesOnce | invoices/services/currency_converter.py:58-64 | with no usable cached rate, a valid non-self conversion fetches exactly once, and succeeds exactly when the fetch does |
| Converter.NoFetchMeansStoredRate | invoices/services/currency_converter.py:58-60 | a conversion that fetched nothing used the usable cached rate and wrote nothing |
| Converter.CacheRoundTrip | invoices/services/currency_converter.py:58-64 | after a fetched rate is stored, a conversion of the same pair within the ttl either uses that rate with no fetch or fetches exactly once |
| Converter.ExpiredRateRefetched | invoices/services/currency_converter.py:58-64 | once the ttl has passed, the next conversion of the pair fetches exactly once |
| Analytics.ParseRateType | invoices/views/analytics.py:24-30 | `rate` defaults to `historic`, is lower-cased, and is accepted exactly when it is `historic` or `current` |
| Analytics.ParseRateTypeDefault | invoices/views/analytics.py:24 | an absent `rate` means historic |
| Analytics.ParseRateTypeCaseInsensitive | invoices/views/analytics.py:24 | the check ignores case: upper- or lower-casing the parameter first changes nothing |
| Analytics.ParseTargetCurrency | invoices/views/analytics.py:94-100 | `currency` defaults to `USD`, is upper-cased, and is accepted exactly when it has three characters |
| Analytics.ParseTargetCurrencyDefault | invoices/views/analytics.py:94 | an absent `currency` means USD |
| Analytics.ParseTargetCurrencyCaseInsensitive | invoices/views/analytics.py:94 | the check ignores case |
| Analytics.Sum | invoices/views/analytics.py:132-147 | the running total of a sequence of amounts; `SumSnoc` and `SumNonNegative` state its properties |
| Analytics.InvoiceCount | invoices/views/analytics.py:134-148 | `number_of_invoices`, the sum of the group counts; `InvoiceCountAtLeastGroups` bounds it |
| Analytics.Fee | invoices/views/analytics.py:150-151 | one group's fee: the percentage of its converted total when its raw currency is not the target, else nothing |
| Analytics.Fees | invoices/views/analytics.py:133-151 | `total_fees` over the groups; bounded by `FeesBounds`, `NoFeesWithinTargetCurrency` and `FullFeesWhenAllForeign` |
| Analytics.Summarize | invoices/views/analytics.py:153-164 | the averages and revenue figures from the converted totals, or the caught division by zero; stated by `SummarizeCases` |
| Analytics.RevenueOutcome | invoices/views/analytics.py:46-81 | historic: the stored sum with no conversion; current: the conversion loop over the groups, the sum of the conversions, or the first failure |
| Analytics.AverageOutcome | invoices/views/analytics.py:113-167 | no groups: the zero result with no conversion; otherwise the conversion loop, then `Summarize`, or the first conversion error |
| Analytics.GetRevenueSummary | invoices/views/analytics.py:17-37 | an invalid rate type is rejected before any conversion; otherwise the revenue computation runs with the parsed type |
| Analytics.GetRevenue | invoices/views/analytics.py:46-81 | historic: the sum of the stored amounts with no conversion; current: one conversion per group in order, stopping at the first failure, with the sum of the conversions or a conversion-failed error and no partial total |
| Analytics.HistoricRevenueIsStoredSum | invoices/views/analytics.py:56-59 | the historic total is the sum of stored converted amounts, 0 for none and non-negative when they are, in USD, with no conversion |
| Analytics.CurrentRevenueIsSumOfConversions | invoices/views/analytics.py:63-72 | at most one conversion per group and at most one fetch per conversion; a success converted every group and totals amount times rate over the groups; a failure is conversion-failed |
| Analytics.UsdOnlyRevenueNeedsNoRates | invoices/views/analytics.py:63-72 | when every group is already USD, the current total is the plain sum, with no fetch and no cache write |
| Analytics.RunFetchBound | invoices/views/analytics.py:67-72 | a run of conversions requests at most one URL per call |
| Analytics.ConvertedIsAmountTimesRate | invoices/views/analytics.py:71 | each successful call of a run converted its amount at the rate it used |
| Analytics.GetAverageInvoiceSize | invoices/views/analytics.py:85-110 | an invalid target code is rejected before any conversion; otherwise the average computation runs for the upper-cased code |
| Analytics.CalculateAverageInvoiceSize | invoices/views/analytics.py:113-167 | no groups: the zero result with no conversion; otherwise every group converted in order, then the averages of `Summarize`, or the first conversion error |
| Analytics.AccumulateGroups | invoices/views/analytics.py:132-151 | the loop ends with the first conversion error, or with revenue, invoice count and fees equal to their sums over all groups |
| Analytics.InvoiceCountAtLeastGroups | invoices/views/analytics.py:118-123 | with one or more invoices per group row, the count is at least the number of rows |
| Analytics.GroupedRowsNeverDivideByZero | invoices/views/analytics.py:118-153 | with one or more invoices per grouped row, the average endpoint never reports a division by zero, and its count is at least the number of rows |
| Analytics.FeesBounds | invoices/views/analytics.py:150-151 | with a non-negative percentage, the fees lie between 0 and the percentage of the gross |
| Analytics.NoFeesWithinTargetCurrency | invoices/views/analytics.py:150-151 | no fee when every group is in the target currency |
| Analytics.FullFeesWhenAllForeign | invoices/views/analytics.py:150-151 | the full percentage of the gross when no group is |
| Analytics.SummarizeCases | invoices/views/analytics.py:153-164 | the averages are gross and net per invoice, net = gross − fees, with the target and the invoice count; they fail exactly when the count is zero |
| Analytics.AverageAfterFeesAtMostBefore | invoices/views/analytics.py:153-161 | net ≤ gross and the after-fee average ≤ the before-fee average, the difference being at most the fee percentage of the gross |
| Analytics.SummarizeExample | invoices/views/analytics.py:138-164 | a USD group of 100 and a EUR group whose converted total is 55, with a 2 % fee charged on the EUR group only, give averages 77.5 and 76.95, gross 155 and net 153.9 |
| Analytics.AverageOutcomeProperties | invoices/views/analytics.py:125-164 | no groups gives the zero result with no conversion; a result's count is the sum of the group counts, and with non-negative rates net ≤ gross and after-fee ≤ before-fee |
| Invoices.Apply | invoices/serializers/update.py:26 | `setattr` of one validated field on the record: that field takes the value |
| Invoices.ApplyAll | invoices/serializers/update.py:25-26 | the fields written one after another, in order; `ApplyAllSnoc`, `ApplyAllKeepsOtherFields` and `ApplyItems` state what it does |
| Invoices.ApplyAllKeepsOtherFields | invoices/serializers/update.py:25-26 | writing fields never changes the id, account, creation time or stored conversion |
| Invoices.Invoice.SetAttr | invoices/serializers/update.py:26 | `setattr` changes exactly the named field |
| Invoices.Invoice.SetConversion | invoices/serializers/update.py:22-23 | the stored pair becomes the given conversion and nothing else changes |
| Serializers.ValidateCurrency | invoices/serializers/base.py:10-13 | accepted exactly when of length 3 (so never empty); the result is upper-cased, of length 3 and equal to the input up to case; otherwise the currency message |
| Serializers.ValidateCurrencyIdempotent | invoices/serializers/base.py:10-13 | validating an accepted code again accepts it unchanged |
| Serializers.ValidateCurrencyCaseInsensitive | invoices/serializers/base.py:10-13 | the check ignores case |
| Serializers.ValidateCurrencyExamples | invoices/serializers/base.py:10-13 | `eur` becomes `EUR`; the empty string and `EURO` are refused |
| Serializers.ValidateAmount | invoices/serializers/base.py:15-18 | accepted exactly when positive (0 refused), returned unchanged |
| Serializers.ValidateAmountIdempotent | invoices/serializers/base.py:15-18 | an accepted amount validates again to itself |
| Serializers.ValidateStatus | invoices/serializers/base.py:20-23 | accepted exactly when `PENDING` or `PAID`, returned unchanged |
| Serializers.ValidateStatusIdempotent | invoices/serializers/base.py:20-23 | an accepted status validates again to itself |
| Serializers.ValidateStatusExamples | invoices/serializers/base.py:20-23 | the default status and `PAID` pass; other spellings such as `paid` and `Pending` are refused |
| Serializers.NewInvoice | invoices/serializers/create.py:19-24 | the row `Invoice.objects.create` builds: the account, the validated fields with the status defaulting to PENDING, and the conversion |
| Serializers.CreateOutcome | invoices/serializers/create.py:8-24 | one conversion of the validated amount to USD; a failure is re-raised and creates no row, a success creates the row with that conversion |
| Serializers.Create | invoices/serializers/create.py:8-24 | one conversion of the validated amount from its currency to USD; the new row exactly when it succeeds |
| Serializers.CreatedInvoiceRecordsConversion | invoices/serializers/create.py:9-24 | the row has the given id, account and time, the validated fields, the status defaulting to PENDING, and the converter's pair, so converted = amount × rate |
| Serializers.UsdInvoiceAtRateOne | invoices/serializers/create.py:13-17 | a USD invoice gets rate 1.0 and its own amount, with no fetch and no cache write |
| Serializers.CreateFailure | invoices/serializers/create.py:13-19 | a failure creates no row and writes nothing; for validated data it is the provider's error after exactly one request |
| Serializers.Items | invoices/serializers/update.py:25 | `validated_data.items()`: the present fields in the serializer's field order, at most three |
| Serializers.EffectiveAmount | invoices/serializers/update.py:11 | the new amount, or the stored one when absent |
| Serializers.EffectiveCurrency | invoices/serializers/update.py:10 | the new currency, or the stored one when absent |
| Serializers.NeedsConversion | invoices/serializers/update.py:13-14 | a conversion is due exactly when the effective currency or amount differs from the stored one |
| Serializers.UpdateOutcome | invoices/serializers/update.py:9-29 | no conversion due: the fields are written and nothing else happens; otherwise one conversion, whose failure leaves the instance as it was and whose success is stored before the fields are written |
| Serializers.Update | invoices/serializers/update.py:9-29 | reconvert only when the effective currency or amount differs; a failed conversion leaves everything as it was; then every present field is written in order |
| Serializers.SetAttrs | invoices/serializers/update.py:25-26 | the loop applies `setattr` for each pair, in order |
| Serializers.ApplyItems | invoices/serializers/update.py:25-26 | writing the present fields one by one is merging them over the record |
| Serializers.UpdateWritesValidatedFields | invoices/serializers/update.py:10-26 | after an update, present fields have their new values, absent ones keep theirs, and id, account and creation time are unchanged |
| Serializers.UnchangedAmountKeepsConversion | invoices/serializers/update.py:13-14 | no change of currency or amount: no conversion, no request, and the stored pair is kept |
| Serializers.ChangedAmountReconverts | invoices/serializers/update.py:13-23 | a change: the stored pair is the USD conversion of the effective amount and currency, so converted = amount × rate |
| Serializers.FailedUpdateChangesNothing | invoices/serializers/update.py:16-26 | a failed conversion leaves the instance and the cache untouched |
| Serializers.UpdateKeepsConversionConsistent | invoices/serializers/update.py:9-26 | an update keeps "converted = amount × rate" true of the instance |

## Left out

- The HTTP request, its 10-second timeout, `raise_for_status` and JSON decoding (invoices/integrations/exchange_rate.py:24-27). They are an oracle from URL to a decoded payload or a transport failure.
- The text of the error messages. Each error is a datatype case carrying the value it reports.
- The parsing done by `float()`. Stored cache text is either text that parses to a rate or text that does not. The same holds for a quoted rate. The model also treats `str(rate)` read back with `float()` as the same rate.
- The store connection singleton and its ping (invoices/utils/redis_client.py). The store is an explicit object passed to the converter.
- The store's first connection can raise. The first `CurrencyConverter()` pings the store (invoices/utils/redis_client.py:25-33, reached from currency_converter.py:11 through the construction at line 79, outside the `try` at line 48). A failed ping raises once rather than reading as a miss. In the model every store failure is a miss.
- The provider answering differently over time. `RateFetcher.http` is one fixed function from URL to reply, so two fetches of the same URL through one fetcher get the same reply. The real provider can change its quote or fail transiently between them. No lemma of the model depends on this.
- Other clients writing to the shared store, and the clock moving during one request. Store failures are the only nondeterminism.
- Converter.CurrencyConverter.GetCachedRate: a usable stored rate may still come back empty. That is the store failing to answer, which the source counts as a miss.
- Converter.ConvertCurrency: a miss may leave the cache unchanged, because the SETEX may fail. The source swallows that failure. The model does not pin down whether the write landed.
- The `isinstance` check on the amount (invoices/services/currency_converter.py:49). The parameter is a `real`.
- Logging throughout.
- Float versus Decimal:
  - the `DecimalField` precision (invoices/models.py:41-44);
  - the `float(...)` casts, which the model treats as the identity;
  - the float–Decimal comparison at invoices/serializers/update.py:14. The source compares `float(amount)` with the stored `Decimal`. That reports a change for any stored amount a float cannot hold exactly, such as 10.10, so the source reconverts on updates the model calls unchanged. `Serializers.UnchangedAmountKeepsConversion` holds only of the exact-real comparison;
  - `round(..., 2)` and `str` in the responses (invoices/views/analytics.py:75, 158-161).
  
  All are exact reals before rounding.
- Non-ASCII case mapping in `upper()`/`lower()`. Only ASCII letters change case.
- The Django/DRF layer:
  - response and status mapping;
  - the views' outer `except` returning 500 (invoices/views/analytics.py:39-43);
  - ORM queries and aggregates, which become input sequences;
  - DRF running the field validators and collecting their errors before `create`/`update`. `Serializers.CreateValidated` states what validated data satisfies;
  - the database assigning the id and creation time, which become parameters;
  - `instance.save()`;
  - `self.context['account']`, which becomes a parameter.
- Serializers.Create: the account is a plain key (`account: nat`). The only caller passes `request.user.account_id`, an int (invoices/views/crud.py:24). `Invoice.objects.create(account=...)` (invoices/serializers/create.py:19-20) expects an `Account` instance and would refuse an int with a `ValueError`, after the conversion and any cache write have run. The model does not capture that failure.
- `Invoice.__str__` (invoices/models.py:48-49) is not part of this model.
