/**
 * `GET /api/upbit/tickers/hot?type=volume&quote=KRW&limit=20`: query
 * parameter defaulting and validation in front of the store's
 * `queryTickers`, which is not part of this model and is represented by the
 * call it receives.
 */
module UpbitHotApi {
  import opened Wrappers
  import opened SharedTypes

  /** The accepted `type` values. */
  const HOT_TYPES: seq<string> := ["volume", "gainers", "losers", "active"]

  /** The `type` used when none is given. */
  const DEFAULT_TYPE: string := "volume"

  /** The `limit` used when none is given or it is not a non-zero number. */
  const DEFAULT_LIMIT: int := 20

  /** The status code of a rejected `type`. */
  const BAD_REQUEST: int := 400

  /** The value of `Number(query.limit)`: not-a-number, or a number (modelled
      as an integer). */
  datatype JsNumber = NaN | Finite(value: int)

  /** The options handed to `queryTickers`. */
  datatype QueryOptions = QueryOptions(quote: Option<string>, sort: string, limit: int)

  /** A call of `queryTickers(exchange, options)`, whose answer the handler
      returns as is. */
  datatype QueryTickersCall = QueryTickersCall(exchange: Exchange, options: QueryOptions)

  /** The error raised by `createError`. */
  datatype HttpError = HttpError(statusCode: int, statusMessage: string)

  /** `query.type || 'volume'`: a missing or empty `type` means volume. */
  function TypeOrDefault(typeParam: Option<string>): (t: string)
    ensures typeParam == None || typeParam == Some("") ==> t == DEFAULT_TYPE
    ensures typeParam.Some? && typeParam.value != "" ==> t == typeParam.value
  {
    if typeParam == None || typeParam.value == "" then DEFAULT_TYPE else typeParam.value
  }

  /** `Number(query.limit) || 20`: zero and not-a-number fall back to the
      default, every other number is kept, negative ones included. */
  function LimitOrDefault(n: JsNumber): (limit: int)
    ensures n == NaN || n == Finite(0) ==> limit == DEFAULT_LIMIT
    ensures n.Finite? && n.value != 0 ==> limit == n.value
  {
    match n
    case NaN => DEFAULT_LIMIT
    case Finite(v) => if v == 0 then DEFAULT_LIMIT else v
  }

  /** The handler: normalises the parameters, rejects an unknown `type` with
      status 400 before anything is queried, and otherwise forwards an upbit
      query sorted by the type, with the quote passed through unchanged. */
  function HotTickers(typeParam: Option<string>, quote: Option<string>, limit: JsNumber)
    : (r: Result<QueryTickersCall, HttpError>)
    ensures r.Err? <==> TypeOrDefault(typeParam) !in HOT_TYPES
    ensures r.Err? ==> r.error == HttpError(BAD_REQUEST,
      "Invalid type: " + TypeOrDefault(typeParam) + ". Use volume, gainers, losers, or active.")
    ensures r.Ok? ==> r.value == QueryTickersCall(Upbit,
      QueryOptions(quote, TypeOrDefault(typeParam), LimitOrDefault(limit)))
  {
    var t := TypeOrDefault(typeParam);
    if t !in HOT_TYPES then
      Err(HttpError(BAD_REQUEST, "Invalid type: " + t + ". Use volume, gainers, losers, or active."))
    else
      Ok(QueryTickersCall(Upbit, QueryOptions(quote, t, LimitOrDefault(limit))))
  }

  /** With no parameters at all the query is the default one: upbit, by
      volume, 20 entries, every quote. */
  lemma DefaultQuery()
    ensures HotTickers(None, None, NaN) == Ok(QueryTickersCall(Upbit, QueryOptions(None, "volume", 20)))
  {
  }

  /** Every forwarded query is sorted by one of the accepted types and asks
      for a non-zero number of entries. */
  lemma ForwardedQueriesAreValid(typeParam: Option<string>, quote: Option<string>, limit: JsNumber)
    requires HotTickers(typeParam, quote, limit).Ok?
    ensures HotTickers(typeParam, quote, limit).value.options.sort in HOT_TYPES
    ensures HotTickers(typeParam, quote, limit).value.options.limit != 0
  {
  }
}
