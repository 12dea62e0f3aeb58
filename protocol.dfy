/** The values exchanged between the front end and the backend over HTTP. */
module Protocol {
  import opened Wrappers

  /** A parsed JSON value (`any` in the front end). Numbers are reals: floating-point rounding is not modelled. */
  datatype Json =
    | JNull
    | JBool(b: bool)
    | JNumber(n: real)
    | JString(s: string)
    | JArray(items: seq<Json>)
    | JObject(fields: map<string, Json>)

  /** The request body of `POST /run_strategy`: the backend's `StrategyConfig` model. */
  datatype StrategyConfig = StrategyConfig(
    symbols: seq<string>,
    marketType: string,
    exchange: string,
    indicators: seq<string>,
    logic: string,
    orderType: string,
    slippage: real,
    fees: real,
    risk: map<string, real>,
    portfolioAllocation: real)

  /** What a `fetch(...)` followed by `response.json()` ends in: a response with its `ok` flag and
      its body (None when `response.json()` would reject it), or a rejected `fetch`. */
  datatype FetchOutcome<T> =
    | Received(ok: bool, body: Option<T>)
    | NetworkFailure
}
