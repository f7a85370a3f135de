/** The currency converter with its expiring rate cache.

    The cache is the key/value store the converter shares with every other
    request: a map from key to stored text with an expiry time, and the
    store's clock. The store is a separate service, so any GET or SETEX may
    fail; the model lets each call fail or not, nondeterministically. The
    rate fetcher is the exchange-rate client over an HTTP oracle; it keeps a
    ghost log of the URLs it requested, so that "no fetch" and "exactly one
    fetch" can be stated. */
module Converter {
  import opened Common
  import opened Text
  import opened ExchangeRate

  /** What the store holds under a key: text `float()` parses (as the number
      it denotes) or text it rejects, the empty string included */
  datatype StoredValue = RateText(rate: real) | CorruptText(text: string)

  datatype Entry = Entry(value: StoredValue, expiresAt: int)

  /** The answer to a GET: no live value, a value, or a store error */
  datatype Reply = Nil | Found(value: StoredValue) | StoreError

  /** `(converted_amount, exchange_rate)` */
  datatype Conversion = Conversion(converted: real, rate: real)

  /** The pair returned for `amount` at `rate` */
  function ConversionAt(amount: real, rate: real): (c: Conversion)
    ensures c.converted == amount * c.rate && c.rate == rate
  {
    Conversion(amount * rate, rate)
  }

  datatype ConvertError =
    | InvalidAmount                       // "Amount must be a positive number"
    | RateUnavailable(cause: FetchError)  // the fetcher's error, re-raised unchanged

  /** `CurrencyConverter._get_cache_key` */
  function CacheKey(fromCurrency: string, toCurrency: string): string {
    "exchange_rate:" + Upper(fromCurrency) + ":" + Upper(toCurrency)
  }

  /** The trimmed, upper-cased code `convert_currency` works with */
  function NormalizeCode(code: string): string {
    Strip(Upper(code))
  }

  /** What a GET of `key` at time `now` sees when the store answers: an entry
      whose expiry has passed reads as absent */
  function Lookup(entries: map<string, Entry>, key: string, now: int): (reply: Reply)
    ensures reply.Nil? <==> key !in entries || entries[key].expiresAt <= now
    ensures reply.Found? ==> reply.value == entries[key].value
    ensures !reply.StoreError?
  {
    if key in entries && now < entries[key].expiresAt then Found(entries[key].value) else Nil
  }

  /** The rate `_get_cached_rate` makes of a reply: only parseable text is a
      hit; no value, empty or unparseable text and a store error are all a miss */
  function RateOfReply(reply: Reply): (rate: Option<real>)
    ensures rate.Some? <==> reply.Found? && reply.value.RateText?
    ensures rate.Some? ==> rate.value == reply.value.rate
  {
    match reply
    case Found(RateText(x)) => Some(x)
    case _ => None
  }

  /** The usable cached rate under `key` at time `now`, if there is one */
  function CachedRate(entries: map<string, Entry>, key: string, now: int): Option<real> {
    RateOfReply(Lookup(entries, key, now))
  }

  /** An entry that is absent, expired or unparseable is never served */
  lemma UnusableEntryIsMiss(entries: map<string, Entry>, key: string, now: int)
    ensures CachedRate(entries, key, now).None?
            <==> key !in entries || entries[key].expiresAt <= now || entries[key].value.CorruptText?
    ensures CachedRate(entries, key, now).Some? ==> entries[key].value == RateText(CachedRate(entries, key, now).value)
  {
  }

  /** The shared cache store */
  class RateCache {
    var entries: map<string, Entry>
    var now: int

    constructor ()
      ensures entries == map[] && now == 0
    {
      entries := map[];
      now := 0;
    }

    /** GET: the live value, or a store error */
    method Get(key: string) returns (reply: Reply)
      ensures reply == StoreError || reply == Lookup(entries, key, now)
    {
      var answered: bool :| true;
      reply := if answered then Lookup(entries, key, now) else StoreError;
    }

    /** SETEX: stores `value` for `ttl` seconds; refused for a non-positive
        ttl, and lost when the store does not answer */
    method SetEx(key: string, ttl: int, value: StoredValue) returns (ok: bool)
      modifies this`entries
      ensures ok ==> ttl > 0 && entries == old(entries)[key := Entry(value, now + ttl)]
      ensures !ok ==> entries == old(entries)
    {
      var answered: bool :| true;
      ok := answered && ttl > 0;
      if ok {
        entries := entries[key := Entry(value, now + ttl)];
      }
    }
  }

  /** The module-level `get_exchange_rate`, over a fixed provider */
  class RateFetcher {
    const api: ApiConfig
    const http: string -> Response
    ghost var requests: seq<string>

    constructor (api: ApiConfig, http: string -> Response)
      ensures this.api == api && this.http == http && requests == []
    {
      this.api := api;
      this.http := http;
      requests := [];
    }

    method Fetch(fromCurrency: string, toCurrency: string) returns (r: Result<real, FetchError>)
      modifies this`requests
      ensures requests == old(requests) + [RequestUrl(api, Upper(fromCurrency))]
      ensures r == GetExchangeRate(api, http, fromCurrency, toCurrency)
    {
      requests := requests + [RequestUrl(api, Upper(fromCurrency))];
      r := GetExchangeRate(api, http, fromCurrency, toCurrency);
    }
  }

  /** What one conversion runs against: the store's clock, the ttl it writes
      with, and the provider */
  datatype Env = Env(now: int, ttl: int, api: ApiConfig, http: string -> Response)

  /** A hit: no fetch, no write, and the usable stored rate is the rate used */
  ghost predicate CacheHit(amount: real, key: string, env: Env, before: map<string, Entry>,
                           r: Result<Conversion, ConvertError>, after: map<string, Entry>, fetched: seq<string>)
  {
    && fetched == []
    && after == before
    && CachedRate(before, key, env.now).Some?
    && r == Success(ConversionAt(amount, CachedRate(before, key, env.now).value))
  }

  /** A miss: exactly one fetch; its error propagates with nothing written, its
      rate is used and written back under the pair's key if the write lands */
  ghost predicate CacheMiss(amount: real, fromCode: string, toCode: string, env: Env, before: map<string, Entry>,
                            r: Result<Conversion, ConvertError>, after: map<string, Entry>, fetched: seq<string>)
  {
    && fetched == [RequestUrl(env.api, fromCode)]
    && match GetExchangeRate(env.api, env.http, fromCode, toCode)
       case Failure(e) => r == Failure(RateUnavailable(e)) && after == before
       case Success(x) =>
         && r == Success(ConversionAt(amount, x))
         && (|| after == before
             || (env.ttl > 0 && after == before[CacheKey(fromCode, toCode) := Entry(RateText(x), env.now + env.ttl)]))
  }

  /** Every way one `convert_currency(amount, from, to)` call can go, relating
      the cache before and after, the result and the URLs fetched */
  ghost predicate ConvertOutcome(amount: real, fromCurrency: string, toCurrency: string, env: Env,
                                 before: map<string, Entry>, r: Result<Conversion, ConvertError>,
                                 after: map<string, Entry>, fetched: seq<string>)
  {
    var fromCode := NormalizeCode(fromCurrency);
    var toCode := NormalizeCode(toCurrency);
    if amount < 0.0 then
      r == Failure(InvalidAmount) && after == before && fetched == []
    else if fromCode == toCode then
      r == Success(Conversion(amount, 1.0)) && after == before && fetched == []
    else
      || CacheHit(amount, CacheKey(fromCode, toCode), env, before, r, after, fetched)
      || CacheMiss(amount, fromCode, toCode, env, before, r, after, fetched)
  }

  /** `CurrencyConverter` */
  class CurrencyConverter {
    const cache: RateCache
    const fetcher: RateFetcher
    const cacheExpiry: int

    constructor (settings: Settings, cache: RateCache, fetcher: RateFetcher)
      ensures this.cache == cache && this.fetcher == fetcher
      ensures cacheExpiry == CacheExpiry(settings)
    {
      this.cache := cache;
      this.fetcher := fetcher;
      cacheExpiry := CacheExpiry(settings);
    }

    /** `_get_cached_rate`: never raises; a rate comes back only if it is the
        usable stored one, and always comes back empty when there is none */
    method GetCachedRate(fromCurrency: string, toCurrency: string) returns (rate: Option<real>)
      ensures rate.Some? ==> rate == CachedRate(cache.entries, CacheKey(fromCurrency, toCurrency), cache.now)
      ensures CachedRate(cache.entries, CacheKey(fromCurrency, toCurrency), cache.now).None? ==> rate.None?
    {
      var reply := cache.Get(CacheKey(fromCurrency, toCurrency));
      rate := RateOfReply(reply);
    }

    /** `_set_cached_rate`: best effort; either the rate is stored under the
        pair's key for `cacheExpiry` seconds or the cache is left as it was */
    method SetCachedRate(fromCurrency: string, toCurrency: string, rate: real)
      modifies cache`entries
      ensures || cache.entries == old(cache.entries)
              || (&& cacheExpiry > 0
                  && cache.entries == old(cache.entries)[CacheKey(fromCurrency, toCurrency) :=
                                                         Entry(RateText(rate), cache.now + cacheExpiry)])
    {
      var stored := cache.SetEx(CacheKey(fromCurrency, toCurrency), cacheExpiry, RateText(rate));
    }

    /** `convert_currency` */
    method Convert(amount: real, fromCurrency: string, toCurrency: string) returns (r: Result<Conversion, ConvertError>)
      modifies cache`entries, fetcher`requests
      ensures old(fetcher.requests) <= fetcher.requests
      ensures ConvertOutcome(amount, fromCurrency, toCurrency, Env(cache.now, cacheExpiry, fetcher.api, fetcher.http),
                             old(cache.entries), r, cache.entries, fetcher.requests[|old(fetcher.requests)|..])
    {
      if amount < 0.0 {
        return Failure(InvalidAmount);
      }
      var fromCode := NormalizeCode(fromCurrency);
      var toCode := NormalizeCode(toCurrency);
      if fromCode == toCode {
        return Success(Conversion(amount, 1.0));
      }
      var key := CacheKey(fromCode, toCode);
      var env := Env(cache.now, cacheExpiry, fetcher.api, fetcher.http);
      var cached := GetCachedRate(fromCode, toCode);
      if cached.Some? {
        r := Success(ConversionAt(amount, cached.value));
        assert fetcher.requests[|old(fetcher.requests)|..] == [];
        HitIsOutcome(amount, fromCurrency, toCurrency, env, old(cache.entries), r, cache.entries, []);
        return;
      }
      NormalizedCodeIsUpperCase(fromCurrency);
      var fetched := fetcher.Fetch(fromCode, toCode);
      assert fetcher.requests[|old(fetcher.requests)|..] == [RequestUrl(env.api, fromCode)];
      if fetched.Failure? {
        r := Failure(RateUnavailable(fetched.error));
        MissIsOutcome(amount, fromCurrency, toCurrency, env, old(cache.entries), r, cache.entries, [RequestUrl(env.api, fromCode)]);
        return;
      }
      var rate := fetched.value;
      SetCachedRate(fromCode, toCode, rate);
      r := Success(ConversionAt(amount, rate));
      MissIsOutcome(amount, fromCurrency, toCurrency, env, old(cache.entries), r, cache.entries, [RequestUrl(env.api, fromCode)]);
    }
  }

  /** The module-level `convert_currency`: a fresh converter over the shared
      cache and fetcher, with the configured ttl */
  method ConvertCurrency(settings: Settings, cache: RateCache, fetcher: RateFetcher,
                         amount: real, fromCurrency: string, toCurrency: string)
    returns (r: Result<Conversion, ConvertError>)
    modifies cache`entries, fetcher`requests
    ensures old(fetcher.requests) <= fetcher.requests
    ensures ConvertOutcome(amount, fromCurrency, toCurrency, Env(cache.now, CacheExpiry(settings), fetcher.api, fetcher.http),
                           old(cache.entries), r, cache.entries, fetcher.requests[|old(fetcher.requests)|..])
    ensures r.Success? ==> r.value.converted == amount * r.value.rate
  {
    var converter := new CurrencyConverter(settings, cache, fetcher);
    r := converter.Convert(amount, fromCurrency, toCurrency);
    if r.Success? {
      SuccessIsAmountTimesRate(amount, fromCurrency, toCurrency, Env(cache.now, CacheExpiry(settings), fetcher.api, fetcher.http),
                               old(cache.entries), r, cache.entries, fetcher.requests[|old(fetcher.requests)|..]);
    }
  }

  lemma HitIsOutcome(amount: real, fromCurrency: string, toCurrency: string, env: Env,
                     before: map<string, Entry>, r: Result<Conversion, ConvertError>,
                     after: map<string, Entry>, fetched: seq<string>)
    requires amount >= 0.0 && NormalizeCode(fromCurrency) != NormalizeCode(toCurrency)
    requires CacheHit(amount, CacheKey(NormalizeCode(fromCurrency), NormalizeCode(toCurrency)), env, before, r, after, fetched)
    ensures ConvertOutcome(amount, fromCurrency, toCurrency, env, before, r, after, fetched)
  {
  }

  lemma MissIsOutcome(amount: real, fromCurrency: string, toCurrency: string, env: Env,
                      before: map<string, Entry>, r: Result<Conversion, ConvertError>,
                      after: map<string, Entry>, fetched: seq<string>)
    requires amount >= 0.0 && NormalizeCode(fromCurrency) != NormalizeCode(toCurrency)
    requires CacheMiss(amount, NormalizeCode(fromCurrency), NormalizeCode(toCurrency), env, before, r, after, fetched)
    ensures ConvertOutcome(amount, fromCurrency, toCurrency, env, before, r, after, fetched)
  {
  }

  // ---------------------------------------------------------------------------
  // Normalisation and the cache key

  lemma NormalizedCodeIsUpperCase(code: string)
    ensures Upper(NormalizeCode(code)) == NormalizeCode(code)
  {
    UpperIsUpperCase(code);
    StripKeepsUpperCase(Upper(code));
    UpperIsUpperCase(NormalizeCode(code));
  }

  lemma NormalizeCodeCaseInsensitive(code: string)
    ensures NormalizeCode(Upper(code)) == NormalizeCode(code)
  {
    UpperIdempotent(code);
  }

  /** Normalising an already normalised code changes nothing */
  lemma NormalizeCodeIdempotent(code: string)
    ensures NormalizeCode(NormalizeCode(code)) == NormalizeCode(code)
  {
    NormalizedCodeIsUpperCase(code);
    StripIdempotent(Upper(code));
  }

  /** `(a, b)` and `(A, B)` share a key */
  lemma CacheKeyCaseInsensitive(fromCurrency: string, toCurrency: string)
    ensures CacheKey(fromCurrency, toCurrency) == CacheKey(Upper(fromCurrency), Upper(toCurrency))
  {
    UpperIdempotent(fromCurrency);
    UpperIdempotent(toCurrency);
  }

  /** The first ':' of `x + ":" + y` is the separator when `x` holds none */
  lemma ColonAfter(x: string, y: string)
    requires ':' !in x
    ensures forall i :: 0 <= i < |x| ==> (x + ":" + y)[i] != ':'
    ensures (x + ":" + y)[|x|] == ':'
  {
    forall i | 0 <= i < |x| ensures (x + ":" + y)[i] != ':' {
      assert (x + ":" + y)[i] == x[i];
    }
  }

  lemma SplitAtColon(x: string, y: string, u: string, v: string)
    requires ':' !in x && ':' !in u
    requires x + ":" + y == u + ":" + v
    ensures x == u && y == v
  {
    var k := x + ":" + y;
    ColonAfter(x, y);
    ColonAfter(u, v);
    assert |x| == |u|;
    assert x == k[..|x|];
    assert u == k[..|u|];
    assert y == k[|x| + 1..];
    assert v == k[|u| + 1..];
  }

  /** Upper-casing neither adds nor removes a ':' */
  lemma UpperKeepsNoColon(s: string)
    requires ':' !in s
    ensures ':' !in Upper(s)
  {
    forall i | 0 <= i < |s| ensures Upper(s)[i] != ':' {
      assert s[i] in s;
    }
  }

  /** Pairs whose source codes hold no ':' share a key only if they agree up to case */
  lemma CacheKeyInjective(a: string, b: string, c: string, d: string)
    requires ':' !in a && ':' !in c
    requires CacheKey(a, b) == CacheKey(c, d)
    ensures Upper(a) == Upper(c) && Upper(b) == Upper(d)
  {
    var prefix := "exchange_rate:";
    var ua, ub, uc, ud := Upper(a), Upper(b), Upper(c), Upper(d);
    assert CacheKey(a, b) == prefix + (ua + ":" + ub);
    assert CacheKey(c, d) == prefix + (uc + ":" + ud);
    assert ua + ":" + ub == CacheKey(a, b)[|prefix|..];
    assert uc + ":" + ud == CacheKey(c, d)[|prefix|..];
    UpperKeepsNoColon(a);
    UpperKeepsNoColon(c);
    SplitAtColon(ua, ub, uc, ud);
  }

  /** Without that condition two different pairs can share a key */
  lemma CacheKeyCollision()
    ensures CacheKey("EUR:USD", "GBP") == CacheKey("EUR", "USD:GBP")
  {
  }

  // ---------------------------------------------------------------------------
  // The conversion protocol

  /** A conversion does not depend on the case of the codes it is given */
  lemma ConvertCaseInsensitive(amount: real, fromCurrency: string, toCurrency: string, env: Env,
                               before: map<string, Entry>, r: Result<Conversion, ConvertError>,
                               after: map<string, Entry>, fetched: seq<string>)
    ensures ConvertOutcome(amount, fromCurrency, toCurrency, env, before, r, after, fetched)
        <==> ConvertOutcome(amount, Upper(fromCurrency), Upper(toCurrency), env, before, r, after, fetched)
  {
    NormalizeCodeCaseInsensitive(fromCurrency);
    NormalizeCodeCaseInsensitive(toCurrency);
  }

  /** A conversion sees its codes only through their normalised form, so
      passing codes that are already trimmed and upper-cased changes nothing */
  lemma ConvertSeesNormalizedCodes(amount: real, fromCurrency: string, toCurrency: string, env: Env,
                                   before: map<string, Entry>, r: Result<Conversion, ConvertError>,
                                   after: map<string, Entry>, fetched: seq<string>)
    ensures ConvertOutcome(amount, fromCurrency, toCurrency, env, before, r, after, fetched)
        <==> ConvertOutcome(amount, NormalizeCode(fromCurrency), NormalizeCode(toCurrency), env, before, r, after, fetched)
  {
    NormalizeCodeIdempotent(fromCurrency);
    NormalizeCodeIdempotent(toCurrency);
  }

  /** The amount is checked first: a negative one is refused and touches
      nothing, and that refusal is the only source of `InvalidAmount` */
  lemma AmountCheckedFirst(amount: real, fromCurrency: string, toCurrency: string, env: Env,
                           before: map<string, Entry>, r: Result<Conversion, ConvertError>,
                           after: map<string, Entry>, fetched: seq<string>)
    requires ConvertOutcome(amount, fromCurrency, toCurrency, env, before, r, after, fetched)
    ensures amount < 0.0 ==> after == before && fetched == []
    ensures r == Failure(InvalidAmount) <==> amount < 0.0
  {
    var fromCode, toCode := NormalizeCode(fromCurrency), NormalizeCode(toCurrency);
    if amount >= 0.0 && fromCode != toCode && !CacheHit(amount, CacheKey(fromCode, toCode), env, before, r, after, fetched) {
      assert CacheMiss(amount, fromCode, toCode, env, before, r, after, fetched);
    }
  }

  /** Codes equal after normalisation convert at rate 1.0 without the cache or the fetcher */
  lemma SelfConversionIsIdentity(amount: real, fromCurrency: string, toCurrency: string, env: Env,
                                 before: map<string, Entry>, r: Result<Conversion, ConvertError>,
                                 after: map<string, Entry>, fetched: seq<string>)
    requires ConvertOutcome(amount, fromCurrency, toCurrency, env, before, r, after, fetched)
    requires amount >= 0.0 && NormalizeCode(fromCurrency) == NormalizeCode(toCurrency)
    ensures r == Success(Conversion(amount, 1.0)) && after == before && fetched == []
  {
  }

  /** A failure is the amount check or the fetcher's own error, and writes nothing */
  lemma FailureCases(amount: real, fromCurrency: string, toCurrency: string, env: Env,
                     before: map<string, Entry>, r: Result<Conversion, ConvertError>,
                     after: map<string, Entry>, fetched: seq<string>)
    requires ConvertOutcome(amount, fromCurrency, toCurrency, env, before, r, after, fetched)
    requires r.Failure?
    ensures after == before
    ensures || (amount < 0.0 && r.error == InvalidAmount && fetched == [])
            || (&& r.error.RateUnavailable?
                && fetched == [RequestUrl(env.api, NormalizeCode(fromCurrency))]
                && GetExchangeRate(env.api, env.http, NormalizeCode(fromCurrency), NormalizeCode(toCurrency))
                   == Failure(r.error.cause))
  {
    var fromCode, toCode := NormalizeCode(fromCurrency), NormalizeCode(toCurrency);
    if amount >= 0.0 && fromCode != toCode {
      assert CacheMiss(amount, fromCode, toCode, env, before, r, after, fetched);
    }
  }

  /** One conversion requests at most one URL, for the normalised source code */
  lemma FetchesAtMostOnce(amount: real, fromCurrency: string, toCurrency: string, env: Env,
                          before: map<string, Entry>, r: Result<Conversion, ConvertError>,
                          after: map<string, Entry>, fetched: seq<string>)
    requires ConvertOutcome(amount, fromCurrency, toCurrency, env, before, r, after, fetched)
    ensures fetched == [] || fetched == [RequestUrl(env.api, NormalizeCode(fromCurrency))]
  {
  }

  /** Every successful conversion returns `(amount * rate, rate)`; a
      self-conversion has rate 1.0 */
  lemma SuccessIsAmountTimesRate(amount: real, fromCurrency: string, toCurrency: string, env: Env,
                                 before: map<string, Entry>, r: Result<Conversion, ConvertError>,
                                 after: map<string, Entry>, fetched: seq<string>)
    requires ConvertOutcome(amount, fromCurrency, toCurrency, env, before, r, after, fetched)
    requires r.Success?
    ensures amount >= 0.0
    ensures r.value.converted == amount * r.value.rate
    ensures NormalizeCode(fromCurrency) == NormalizeCode(toCurrency) ==> r.value.rate == 1.0
  {
    var fromCode, toCode := NormalizeCode(fromCurrency), NormalizeCode(toCurrency);
    if amount >= 0.0 && fromCode != toCode && !CacheHit(amount, CacheKey(fromCode, toCode), env, before, r, after, fetched) {
      assert GetExchangeRate(env.api, env.http, fromCode, toCode).Success?;
    }
  }

  /** A failed conversion writes nothing; any conversion writes at most the pair's key */
  lemma CacheChangesOnlyAtPairKey(amount: real, fromCurrency: string, toCurrency: string, env: Env,
                                  before: map<string, Entry>, r: Result<Conversion, ConvertError>,
                                  after: map<string, Entry>, fetched: seq<string>)
    requires ConvertOutcome(amount, fromCurrency, toCurrency, env, before, r, after, fetched)
    ensures r.Failure? ==> after == before
    ensures forall k :: k != CacheKey(NormalizeCode(fromCurrency), NormalizeCode(toCurrency)) ==>
              (k in after <==> k in before) && (k in after ==> after[k] == before[k])
  {
  }

  /** With no usable cached rate, a valid non-self conversion fetches exactly once */
  lemma MissFetchesOnce(amount: real, fromCurrency: string, toCurrency: string, env: Env,
                        before: map<string, Entry>, r: Result<Conversion, ConvertError>,
                        after: map<string, Entry>, fetched: seq<string>)
    requires ConvertOutcome(amount, fromCurrency, toCurrency, env, before, r, after, fetched)
    requires amount >= 0.0 && NormalizeCode(fromCurrency) != NormalizeCode(toCurrency)
    requires CachedRate(before, CacheKey(NormalizeCode(fromCurrency), NormalizeCode(toCurrency)), env.now).None?
    ensures fetched == [RequestUrl(env.api, NormalizeCode(fromCurrency))]
    ensures r.Success? <==> GetExchangeRate(env.api, env.http, NormalizeCode(fromCurrency), NormalizeCode(toCurrency)).Success?
  {
  }

  /** A conversion that fetched nothing used the usable cached rate */
  lemma NoFetchMeansStoredRate(amount: real, fromCurrency: string, toCurrency: string, env: Env,
                               before: map<string, Entry>, r: Result<Conversion, ConvertError>,
                               after: map<string, Entry>, fetched: seq<string>)
    requires ConvertOutcome(amount, fromCurrency, toCurrency, env, before, r, after, fetched)
    requires amount >= 0.0 && NormalizeCode(fromCurrency) != NormalizeCode(toCurrency)
    requires fetched == []
    ensures var x := CachedRate(before, CacheKey(NormalizeCode(fromCurrency), NormalizeCode(toCurrency)), env.now);
            x.Some? && r == Success(ConversionAt(amount, x.value)) && after == before
  {
  }

  /** Cache round trip: once a fetched rate has been stored, a later conversion
      of the same pair within the ttl either uses that rate without fetching,
      or (the store failing to answer) fetches once */
  lemma CacheRoundTrip(amount1: real, from1: string, to1: string, env1: Env,
                       c0: map<string, Entry>, r1: Result<Conversion, ConvertError>,
                       c1: map<string, Entry>, fetched1: seq<string>,
                       amount2: real, from2: string, to2: string, env2: Env,
                       r2: Result<Conversion, ConvertError>, c2: map<string, Entry>, fetched2: seq<string>)
    requires ConvertOutcome(amount1, from1, to1, env1, c0, r1, c1, fetched1)
    requires fetched1 != [] && r1.Success?
    requires c1 == c0[CacheKey(NormalizeCode(from1), NormalizeCode(to1)) := Entry(RateText(r1.value.rate), env1.now + env1.ttl)]
    requires ConvertOutcome(amount2, from2, to2, env2, c1, r2, c2, fetched2)
    requires NormalizeCode(from2) == NormalizeCode(from1) && NormalizeCode(to2) == NormalizeCode(to1)
    requires amount2 >= 0.0
    requires env1.now <= env2.now < env1.now + env1.ttl
    ensures r2.Success? || fetched2 != []
    ensures fetched2 == [] ==> r2 == Success(ConversionAt(amount2, r1.value.rate))
    ensures fetched2 == [] || fetched2 == [RequestUrl(env2.api, NormalizeCode(from1))]
  {
    var key := CacheKey(NormalizeCode(from1), NormalizeCode(to1));
    assert CachedRate(c1, key, env2.now) == Some(r1.value.rate);
  }

  /** Once the ttl has run out, the next conversion of the pair fetches exactly once */
  lemma ExpiredRateRefetched(amount1: real, from1: string, to1: string, env1: Env,
                             c0: map<string, Entry>, r1: Result<Conversion, ConvertError>,
                             c1: map<string, Entry>, fetched1: seq<string>,
                             amount2: real, env2: Env,
                             r2: Result<Conversion, ConvertError>, c2: map<string, Entry>, fetched2: seq<string>)
    requires ConvertOutcome(amount1, from1, to1, env1, c0, r1, c1, fetched1)
    requires fetched1 != [] && r1.Success?
    requires c1 == c0[CacheKey(NormalizeCode(from1), NormalizeCode(to1)) := Entry(RateText(r1.value.rate), env1.now + env1.ttl)]
    requires ConvertOutcome(amount2, from1, to1, env2, c1, r2, c2, fetched2)
    requires amount2 >= 0.0
    requires env1.now + env1.ttl <= env2.now
    ensures fetched2 == [RequestUrl(env2.api, NormalizeCode(from1))]
  {
    var key := CacheKey(NormalizeCode(from1), NormalizeCode(to1));
    assert CachedRate(c1, key, env2.now).None?;
  }
}
