/** The exchange-rate provider client: the request it sends and the checks it
    applies to the decoded reply. The HTTP round trip is an oracle `http`
    from request URL to what came back. */
module ExchangeRate {
  import opened Common
  import opened Text

  /** One entry of `conversion_rates`: a value `float()` accepts, or one it rejects */
  datatype Quote = Number(rate: real) | NotNumber(text: string)

  /** The decoded JSON object; a `None` field is a key the object lacks */
  datatype Payload = Payload(
    result: Option<string>,
    errorType: Option<string>,
    conversionRates: Option<map<string, Quote>>)

  /** What the GET request produced: a decoded payload, or a transport failure
      (connection error, timeout, non-2xx status, undecodable body) */
  datatype Response = Received(payload: Payload) | TransportFailed(reason: string)

  datatype FetchError =
    | FetchFailed(reason: string)       // "Failed to fetch exchange rate: ..."
    | ApiError(errorType: string)       // "API error: ..."
    | UnsupportedCurrency(code: string) // "Currency ... not supported by API"
    | MalformedRate(code: string)       // float() refused the quoted value

  const UnknownError: string := "Unknown error"

  function RequestUrl(api: ApiConfig, fromCode: string): string {
    api.baseUrl + "/" + api.apiKey + "/latest/" + fromCode
  }

  /** The error-type the provider reported, or the fallback text */
  function ErrorType(p: Payload): string {
    p.errorType.GetOr(UnknownError)
  }

  /** `conversion_rates`, an absent table read as the empty one */
  function Rates(p: Payload): map<string, Quote> {
    p.conversionRates.GetOr(map[])
  }

  /** `ExchangeRateAPI.get_exchange_rate` */
  function GetExchangeRate(api: ApiConfig, http: string -> Response, fromCurrency: string, toCurrency: string)
    : Result<real, FetchError>
  {
    var fromCode := Upper(fromCurrency);
    var toCode := Upper(toCurrency);
    match http(RequestUrl(api, fromCode))
    case TransportFailed(reason) => Failure(FetchFailed(reason))
    case Received(p) =>
      if p.result != Some("success") then Failure(ApiError(ErrorType(p)))
      else if toCode !in Rates(p) then Failure(UnsupportedCurrency(toCode))
      else match Rates(p)[toCode]
        case Number(x) => Success(x)
        case NotNumber(_) => Failure(MalformedRate(toCode))
  }

  /** The error cases of `get_exchange_rate`, and where a returned rate comes from */
  lemma GetExchangeRateCases(api: ApiConfig, http: string -> Response, fromCurrency: string, toCurrency: string)
    ensures var r := GetExchangeRate(api, http, fromCurrency, toCurrency);
            var reply := http(RequestUrl(api, Upper(fromCurrency)));
            && (reply.TransportFailed? ==> r == Failure(FetchFailed(reply.reason)))
            && (reply.Received? && reply.payload.result != Some("success") ==>
                  r == Failure(ApiError(ErrorType(reply.payload))))
            && (reply.Received? && reply.payload.result == Some("success") && Upper(toCurrency) !in Rates(reply.payload) ==>
                  r == Failure(UnsupportedCurrency(Upper(toCurrency))))
            && (r.Success? ==>
                  && reply.Received?
                  && reply.payload.result == Some("success")
                  && reply.payload.conversionRates.Some?
                  && Upper(toCurrency) in reply.payload.conversionRates.value
                  && reply.payload.conversionRates.value[Upper(toCurrency)] == Number(r.value))
  {
  }

  /** Different source codes give different request URLs */
  lemma RequestUrlInjective(api: ApiConfig, a: string, b: string)
    requires RequestUrl(api, a) == RequestUrl(api, b)
    ensures a == b
  {
    var prefix := api.baseUrl + "/" + api.apiKey + "/latest/";
    assert RequestUrl(api, a) == prefix + a;
    assert RequestUrl(api, b) == prefix + b;
    assert a == (prefix + a)[|prefix|..];
    assert b == (prefix + b)[|prefix|..];
  }

  /** Lookup is case-insensitive in both codes */
  lemma GetExchangeRateCaseInsensitive(api: ApiConfig, http: string -> Response, fromCurrency: string, toCurrency: string)
    ensures GetExchangeRate(api, http, fromCurrency, toCurrency)
         == GetExchangeRate(api, http, Upper(fromCurrency), Upper(toCurrency))
  {
    UpperIdempotent(fromCurrency);
    UpperIdempotent(toCurrency);
  }

  /** The result depends on the provider only through the reply to the one URL requested */
  lemma GetExchangeRateReadsOneUrl(api: ApiConfig, h1: string -> Response, h2: string -> Response,
                                   fromCurrency: string, toCurrency: string)
    requires h1(RequestUrl(api, Upper(fromCurrency))) == h2(RequestUrl(api, Upper(fromCurrency)))
    ensures GetExchangeRate(api, h1, fromCurrency, toCurrency) == GetExchangeRate(api, h2, fromCurrency, toCurrency)
  {
  }

  /** A well-formed success reply quoting the target yields exactly that quote */
  lemma QuotedRateReturned(api: ApiConfig, http: string -> Response, fromCurrency: string, toCurrency: string, x: real)
    requires http(RequestUrl(api, Upper(fromCurrency))).Received?
    requires http(RequestUrl(api, Upper(fromCurrency))).payload.result == Some("success")
    requires Upper(toCurrency) in Rates(http(RequestUrl(api, Upper(fromCurrency))).payload)
    requires Rates(http(RequestUrl(api, Upper(fromCurrency))).payload)[Upper(toCurrency)] == Number(x)
    ensures GetExchangeRate(api, http, fromCurrency, toCurrency) == Success(x)
  {
  }
}
