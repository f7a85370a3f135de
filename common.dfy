/** Shared value types of the invoicing core: optional values, results of
    operations that can raise, and the configuration the core reads from the
    Django settings object. */
module Common {

  datatype Option<+T> = None | Some(value: T) {
    /** `d.get(key, default)` and `getattr(obj, name, default)` in one shape */
    function GetOr(default: T): T {
      match this
      case Some(v) => v
      case None => default
    }
  }

  /** The outcome of a Python call that either returns a value or raises */
  datatype Result<+R, +E> = Success(value: R) | Failure(error: E)

  /** Exchange-rate provider configuration (EXCHANGE_RATE_BASE_URL, EXCHANGE_RATE_API_KEY) */
  datatype ApiConfig = ApiConfig(baseUrl: string, apiKey: string)

  /** The settings the core consults; the two optional ones fall back to a default */
  datatype Settings = Settings(
    cacheExpiry: Option<int>,           // CACHE_EXPIRY, seconds
    conversionFeePercent: Option<real>, // CONVERSION_FEE_PERCENT
    api: ApiConfig)

  const DefaultCacheExpiry: int := 300
  const DefaultConversionFeePercent: real := 2.0

  function CacheExpiry(s: Settings): (ttl: int)
    ensures s.cacheExpiry.None? ==> ttl == DefaultCacheExpiry
    ensures s.cacheExpiry.Some? ==> ttl == s.cacheExpiry.value
  {
    s.cacheExpiry.GetOr(DefaultCacheExpiry)
  }

  function FeePercent(s: Settings): (pct: real)
    ensures s.conversionFeePercent.None? ==> pct == DefaultConversionFeePercent
    ensures s.conversionFeePercent.Some? ==> pct == s.conversionFeePercent.value
  {
    s.conversionFeePercent.GetOr(DefaultConversionFeePercent)
  }
}
