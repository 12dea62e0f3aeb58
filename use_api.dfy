/** The REST hook (src/hooks/useApi.ts): the symbol list with its loading flag and error text,
    and the two request helpers that return a body or throw. A request's outcome is a
    parameter (`FetchOutcome`): the network is not modelled. */
module UseApi {
  import opened Wrappers
  import opened Protocol
  import StrategyBuilder

  const ApiBaseUrl := "http://localhost:8000"
  const MockDataMessage := "Using mock data - API not available"
  const RunFailedMessage := "Failed to run strategy"
  const OhlcvFailedMessage := "Failed to fetch OHLCV data"

  /** The five symbols used when the server cannot supply the list. */
  function FallbackSymbols(): seq<string> {
    ["BTC-USDT", "ETH-USDT", "ADA-USDT", "DOT-USDT", "SOL-USDT"]
  }

  datatype ApiState = ApiState(symbols: seq<string>, loading: bool, error: Option<string>)

  /** Before the first fetch completes: no symbols, loading, no error. */
  function Initial(): ApiState {
    ApiState([], true, None)
  }

  /** `fetchSymbols`: an OK response's body becomes the list; a non-OK status gives the fallback
      and leaves the error alone; a thrown exception (transport failure or a body that does not
      parse) gives the fallback and the mock-data message. Loading ends in every case. */
  function AfterFetchSymbols(s: ApiState, outcome: FetchOutcome<seq<string>>): (r: ApiState)
    ensures !r.loading
    ensures outcome.Received? && outcome.ok && outcome.body.Some? ==>
      r.symbols == outcome.body.value && r.error == s.error
    ensures outcome.Received? && !outcome.ok ==> r.symbols == FallbackSymbols() && r.error == s.error
    ensures outcome.NetworkFailure? || (outcome.ok && outcome.body.None?) ==>
      r.symbols == FallbackSymbols() && r.error == Some(MockDataMessage)
  {
    match outcome
    case Received(true, Some(data)) => ApiState(data, false, s.error)
    case Received(false, _) => ApiState(FallbackSymbols(), false, s.error)
    case _ => ApiState(FallbackSymbols(), false, Some(MockDataMessage))
  }

  /** The error text is never cleared: a later successful refetch keeps the mock-data message. */
  lemma ErrorOutlivesRecovery(s: ApiState, data: seq<string>)
    ensures var r := AfterFetchSymbols(AfterFetchSymbols(s, NetworkFailure), Received(true, Some(data)));
      r.symbols == data && r.error == Some(MockDataMessage)
  {
  }

  /** Whatever happens, the list is never empty after a failed fetch. */
  lemma FailureNeverEmpties(s: ApiState, outcome: FetchOutcome<seq<string>>)
    requires !(outcome.Received? && outcome.ok && outcome.body.Some?)
    ensures |AfterFetchSymbols(s, outcome).symbols| == 5
  {
  }

  /** How a request helper fails: the helper's own error for a non-OK status, or the exception
      the transport or `response.json()` threw, passed on. */
  datatype Thrown = HttpError(message: string) | TransportError | ParseError

  /** The common shape of `runStrategy` and `fetchOHLCVData`: the parsed body on OK, else throw. */
  function BodyOrThrow<T>(outcome: FetchOutcome<T>, failure: string): (r: Result<T, Thrown>)
    ensures r.Ok? <==> outcome.Received? && outcome.ok && outcome.body.Some?
    ensures r.Ok? ==> r.value == outcome.body.value
    ensures outcome.Received? && !outcome.ok ==> r == Err(HttpError(failure))
    ensures outcome.NetworkFailure? ==> r == Err(TransportError)
  {
    match outcome
    case NetworkFailure => Err(TransportError)
    case Received(false, _) => Err(HttpError(failure))
    case Received(true, None) => Err(ParseError)
    case Received(true, Some(body)) => Ok(body)
  }

  /** `runStrategy(config)`: POSTs the config to `/run_strategy`. */
  function RunStrategyCall(outcome: FetchOutcome<Json>): (r: Result<Json, Thrown>)
    ensures outcome.Received? && !outcome.ok ==> r == Err(HttpError(RunFailedMessage))
    ensures r.Ok? ==> outcome.Received? && outcome.ok
  {
    BodyOrThrow(outcome, RunFailedMessage)
  }

  /** The hook's helper and the builder's own handler disagree on an error status with a body:
      the helper throws, the builder stores the body as the result. */
  lemma HookRejectsWhatBuilderStores(body: Json)
    ensures RunStrategyCall(Received(false, Some(body))) == Err(HttpError(RunFailedMessage))
    ensures StrategyBuilder.RunResult(Received(false, Some(body))) == body
  {
  }

  /** `fetchOHLCVData`'s URL; the timeframe defaults to `1h`. */
  function OhlcvUrl(symbol: string, timeframe: Option<string>): string {
    ApiBaseUrl + "/okx/candles?inst_id=" + symbol + "&bar=" + timeframe.GetOr("1h") + "&limit=100"
  }

  /** Leaving out the timeframe is asking for one-hour candles. */
  lemma OhlcvDefaultTimeframe(symbol: string)
    ensures OhlcvUrl(symbol, None) == OhlcvUrl(symbol, Some("1h"))
  {
  }

  /** The URL starts with the endpoint, the symbol follows `inst_id=` unchanged, the timeframe
      (one hour when left out) follows `&bar=`, and `&limit=100` ends it. */
  lemma OhlcvUrlCarriesSymbol(symbol: string, timeframe: Option<string>)
    ensures var url := OhlcvUrl(symbol, timeframe);
      var prefix := ApiBaseUrl + "/okx/candles?inst_id=";
      |url| > |prefix| + |symbol| && url[..|prefix|] == prefix && url[|prefix|..|prefix| + |symbol|] == symbol &&
      url[|prefix| + |symbol|..|url| - 10] == "&bar=" + timeframe.GetOr("1h") &&
      url[|url| - 10..] == "&limit=100"
  {
    var prefix := ApiBaseUrl + "/okx/candles?inst_id=";
    var url := OhlcvUrl(symbol, timeframe);
    var rest := "&bar=" + timeframe.GetOr("1h") + "&limit=100";
    assert url == prefix + symbol + rest;
    assert (prefix + symbol + rest)[..|prefix|] == prefix;
    assert (prefix + symbol + rest)[|prefix|..|prefix| + |symbol|] == symbol;
    assert url == (prefix + symbol + "&bar=" + timeframe.GetOr("1h")) + "&limit=100";
    assert rest == ("&bar=" + timeframe.GetOr("1h")) + "&limit=100";
    assert (prefix + symbol + rest)[|prefix| + |symbol|..] == rest;
  }

  /** `fetchOHLCVData(symbol, timeframe)`: the candles body or the thrown error. */
  function FetchOhlcvCall(outcome: FetchOutcome<Json>): (r: Result<Json, Thrown>)
    ensures outcome.Received? && !outcome.ok ==> r == Err(HttpError(OhlcvFailedMessage))
    ensures r.Ok? ==> outcome.Received? && outcome.ok
  {
    BodyOrThrow(outcome, OhlcvFailedMessage)
  }

  /** The hook's state as the component holds it. */
  class ApiHook {
    var symbols: seq<string>
    var loading: bool
    var error: Option<string>

    function State(): ApiState
      reads this
    {
      ApiState(symbols, loading, error)
    }

    constructor()
      ensures State() == Initial()
    {
      symbols := [];
      loading := true;
      error := None;
    }

    /** `fetchSymbols` (also exposed as `refetchSymbols`), from request to `finally`. */
    method FetchSymbols(outcome: FetchOutcome<seq<string>>)
      modifies this
      ensures State() == AfterFetchSymbols(old(State()), outcome)
    {
      if outcome.Received? && outcome.ok && outcome.body.Some? {
        symbols := outcome.body.value;
      } else if outcome.Received? && !outcome.ok {
        symbols := FallbackSymbols();
      } else {
        symbols := FallbackSymbols();
        error := Some(MockDataMessage);
      }
      loading := false;
    }
  }
}
