/** The FastAPI backend (backend/main.py): the in-memory OHLCV store, whose key order is the
    dictionary's insertion order, the strategy session table, the OHLCV routes, the
    `run_strategy` loop and the prehash of OKX request signing. Pandas frames are lists of
    candles; the backtest metrics, `uuid4`, the clock, HMAC and the OKX HTTP exchange are
    parameters. */
module Backend {
  import opened Wrappers
  import opened Seqs
  import opened Strings
  import opened Protocol

  /** One OHLCV row. The frame indexed by timestamp keeps rows in upload order. */
  datatype Candle = Candle(timestamp: string, open: real, high: real, low: real, close: real, volume: real)
  type Frame = seq<Candle>

  /** The exceptions the routes raise or let escape. */
  datatype PyError = KeyError(key: string) | HttpException(status: nat, detail: string) | Raised(message: string)

  /** `str(e)`: a KeyError quotes its key, an HTTPException reads `status: detail`. */
  function ExceptionText(e: PyError): (r: string)
    ensures e.KeyError? ==> |r| == |e.key| + 2 && r[0] == r[|r| - 1] == '\'' && r[1..|r| - 1] == e.key
    ensures e.HttpException? ==>
      var code := NatToString(e.status);
      |r| == |code| + 2 + |e.detail| && r[..|code|] == code && r[|code|..] == ": " + e.detail
    ensures e.Raised? ==> r == e.message
  {
    match e
    case KeyError(k) => "'" + k + "'"
    case HttpException(status, detail) => NatToString(status) + ": " + detail
    case Raised(m) => m
  }

  /** The `run_backtest` metrics dictionary. */
  type Metrics = map<string, Json>
  datatype BacktestResult = BacktestResult(symbol: string, metrics: Metrics)

  /** What one `run_backtest` call leaves behind: the frame it was handed, as
      `calculate_indicators` and `dropna(inplace=True)` rewrote it, and the outcome. */
  datatype BacktestRun = BacktestRun(frame: Frame, result: Result<BacktestResult, PyError>)

  /** `run_backtest(symbol, df, config)`. The frame it is handed is the stored frame itself, and
      it is rewritten in place: `prune` stands for `calculate_indicators` followed by
      `dropna(inplace=True)`. The metrics are then computed from the pruned frame (`metrics`, an
      error when pandas raises, say on a frame that `dropna` emptied). */
  function RunBacktest(symbol: string, frame: Frame, config: StrategyConfig, prune: Frame -> Frame,
                       metrics: (Frame, StrategyConfig) -> Result<Metrics, PyError>): (r: BacktestRun)
    ensures r.frame == prune(frame)
    ensures r.result.Ok? <==> metrics(prune(frame), config).Ok?
    ensures r.result.Ok? ==> r.result.value == BacktestResult(symbol, metrics(prune(frame), config).value)
    ensures r.result.Err? ==> r.result.error == metrics(prune(frame), config).error
  {
    var pruned := prune(frame);
    match metrics(pruned, config)
    case Ok(m) => BacktestRun(pruned, Ok(BacktestResult(symbol, m)))
    case Err(e) => BacktestRun(pruned, Err(e))
  }

  /** The state a run of `run_strategy`'s loop reaches: the results so far (or the error that
      ended the loop) and the store as the backtests have rewritten it. */
  datatype RunOutcome = RunOutcome(results: Result<seq<BacktestResult>, PyError>, store: map<string, Frame>)

  /** One iteration of `run_strategy`'s loop, for `symbol`: nothing once an error has ended the
      loop or when the symbol is not stored; otherwise the backtest on the frame as earlier
      iterations left it, whose pruned frame replaces the stored one. */
  function Step(prev: RunOutcome, symbol: string, config: StrategyConfig, prune: Frame -> Frame,
                metrics: (Frame, StrategyConfig) -> Result<Metrics, PyError>): (r: RunOutcome)
    ensures r.store.Keys == prev.store.Keys
    ensures prev.results.Err? || symbol !in prev.store ==> r == prev
    ensures prev.results.Ok? && symbol in prev.store ==> r.store == prev.store[symbol := prune(prev.store[symbol])]
  {
    if prev.results.Err? || symbol !in prev.store then prev
    else
      var run := RunBacktest(symbol, prev.store[symbol], config, prune, metrics);
      var after := prev.store[symbol := run.frame];
      match run.result
      case Err(e) => RunOutcome(Err(e), after)
      case Ok(b) => RunOutcome(Ok(prev.results.value + [b]), after)
  }

  /** `run_strategy`'s loop over a list of symbols, from the store as it was: the first backtest
      error stops it. */
  function Backtests(symbols: seq<string>, store: map<string, Frame>, config: StrategyConfig, prune: Frame -> Frame,
                     metrics: (Frame, StrategyConfig) -> Result<Metrics, PyError>): (r: RunOutcome)
    ensures r.store.Keys == store.Keys
  {
    if symbols == [] then RunOutcome(Ok([]), store)
    else Step(Backtests(symbols[..|symbols| - 1], store, config, prune, metrics), symbols[|symbols| - 1], config, prune, metrics)
  }

  /** The loop over a prefix one longer is one more iteration. */
  lemma BacktestsPrefixStep(symbols: seq<string>, i: nat, store: map<string, Frame>, config: StrategyConfig,
                            prune: Frame -> Frame, metrics: (Frame, StrategyConfig) -> Result<Metrics, PyError>)
    requires i < |symbols|
    ensures Backtests(symbols[..i + 1], store, config, prune, metrics)
         == Step(Backtests(symbols[..i], store, config, prune, metrics), symbols[i], config, prune, metrics)
  {
    assert symbols[..i + 1][..i] == symbols[..i];
  }

  /** Once a prefix of the symbols has failed, the whole run ends there: same error, same store. */
  lemma {:induction false} BacktestsFailFast(symbols: seq<string>, i: nat, store: map<string, Frame>, config: StrategyConfig,
                                            prune: Frame -> Frame, metrics: (Frame, StrategyConfig) -> Result<Metrics, PyError>)
    requires i <= |symbols| && Backtests(symbols[..i], store, config, prune, metrics).results.Err?
    ensures Backtests(symbols, store, config, prune, metrics) == Backtests(symbols[..i], store, config, prune, metrics)
  {
    if i < |symbols| {
      assert symbols[..|symbols| - 1][..i] == symbols[..i];
      BacktestsFailFast(symbols[..|symbols| - 1], i, store, config, prune, metrics);
    } else {
      assert symbols[..i] == symbols;
    }
  }

  /** The frames of symbols a run was not asked for stay as they were. */
  lemma {:induction false} BacktestsTouchOnlyRequested(symbols: seq<string>, store: map<string, Frame>, config: StrategyConfig,
                                                      prune: Frame -> Frame, metrics: (Frame, StrategyConfig) -> Result<Metrics, PyError>)
    ensures forall k :: k in store && k !in symbols ==> Backtests(symbols, store, config, prune, metrics).store[k] == store[k]
  {
    if symbols != [] {
      var init := symbols[..|symbols| - 1];
      BacktestsTouchOnlyRequested(init, store, config, prune, metrics);
      forall k | k in store && k !in symbols
        ensures k !in init
      {
        assert forall j :: 0 <= j < |init| ==> init[j] == symbols[j];
      }
    }
  }

  /** A symbol requested twice is backtested the second time on the frame the first backtest
      pruned, and the store keeps the twice-pruned frame. */
  lemma RepeatedSymbolRunsOnPrunedFrame(s: string, store: map<string, Frame>, config: StrategyConfig,
                                        prune: Frame -> Frame, metrics: (Frame, StrategyConfig) -> Result<Metrics, PyError>)
    requires s in store && metrics(prune(store[s]), config).Ok?
    ensures var o := Backtests([s, s], store, config, prune, metrics);
      && o.store[s] == prune(prune(store[s]))
      && (o.results.Ok? <==> metrics(prune(prune(store[s])), config).Ok?)
      && (o.results.Ok? ==>
            |o.results.value| == 2 &&
            o.results.value[1] == BacktestResult(s, metrics(prune(prune(store[s])), config).value))
  {
    assert [s, s][..1] == [s];
    assert [s][..0] == [];
    var o0 := RunOutcome(Ok([]), store);
    assert Backtests([s], store, config, prune, metrics) == Step(o0, s, config, prune, metrics);
    var o1 := Step(o0, s, config, prune, metrics);
    var run := RunBacktest(s, store[s], config, prune, metrics);
    assert run.result == Ok(BacktestResult(s, metrics(prune(store[s]), config).value));
    assert [] + [run.result.value] == [run.result.value];
    assert o1.results == Ok([BacktestResult(s, metrics(prune(store[s]), config).value)]);
    assert o1.store[s] == prune(store[s]);
    assert Backtests([s, s], store, config, prune, metrics) == Step(o1, s, config, prune, metrics);
  }

  /** The filter callback `store.get(symbol) is not None`. */
  function InStore(store: map<string, Frame>): string -> bool {
    (s: string) => s in store
  }

  function ResultSymbols(rs: seq<BacktestResult>): (r: seq<string>)
    ensures |r| == |rs| && forall k :: 0 <= k < |rs| ==> r[k] == rs[k].symbol
  {
    if rs == [] then [] else [rs[0].symbol] + ResultSymbols(rs[1..])
  }

  lemma {:induction false} ResultSymbolsAppend(a: seq<BacktestResult>, b: seq<BacktestResult>)
    ensures ResultSymbols(a + b) == ResultSymbols(a) + ResultSymbols(b)
  {
    var l, r := ResultSymbols(a + b), ResultSymbols(a) + ResultSymbols(b);
    forall k | 0 <= k < |l|
      ensures l[k] == r[k]
    {
      if k < |a| {
        assert (a + b)[k] == a[k];
      } else {
        assert (a + b)[k] == b[k - |a|];
      }
    }
  }

  /** When the metrics never fail, the results name the symbols present in the store, in the
      order of the request and with its repetitions; absent symbols are skipped. */
  lemma {:induction false} BacktestSymbols(symbols: seq<string>, store: map<string, Frame>, config: StrategyConfig,
                                          prune: Frame -> Frame, metrics: (Frame, StrategyConfig) -> Result<Metrics, PyError>)
    requires forall f: Frame :: metrics(f, config).Ok?
    ensures Backtests(symbols, store, config, prune, metrics).results.Ok?
    ensures ResultSymbols(Backtests(symbols, store, config, prune, metrics).results.value) == Filter(symbols, InStore(store))
  {
    if symbols != [] {
      var init, last := symbols[..|symbols| - 1], symbols[|symbols| - 1];
      BacktestSymbols(init, store, config, prune, metrics);
      BacktestsTouchOnlyRequested(init, store, config, prune, metrics);
      assert symbols == init + [last];
      FilterAppend(init, [last], InStore(store));
      assert Filter([last], InStore(store)) == (if last in store then [last] else []) + Filter([last][1..], InStore(store));
      assert [last][1..] == [];
      var prev := Backtests(init, store, config, prune, metrics);
      if last in store {
        assert last in prev.store;
        var b := RunBacktest(last, prev.store[last], config, prune, metrics).result.value;
        ResultSymbolsAppend(prev.results.value, [b]);
      } else {
        assert last !in prev.store;
        assert Filter(symbols, InStore(store)) == Filter(init, InStore(store)) + [];
      }
    }
  }

  /** `dict` key insertion: a new key goes last, an existing key keeps its place. */
  function InsertKey(keys: seq<string>, k: string): (r: seq<string>)
    ensures |keys| <= |r| <= |keys| + 1 && r[..|keys|] == keys
    ensures forall x :: x in r <==> x in keys || x == k
  {
    if k in keys then keys else keys + [k]
  }

  predicate NoDuplicates(keys: seq<string>) {
    forall i, j :: 0 <= i < j < |keys| ==> keys[i] != keys[j]
  }

  /** Insertion keeps the keys distinct and adds exactly the inserted key. */
  lemma InsertKeyDistinct(keys: seq<string>, k: string)
    requires NoDuplicates(keys)
    ensures NoDuplicates(InsertKey(keys, k))
    ensures forall x :: x in InsertKey(keys, k) <==> x in keys || x == k
    ensures forall i :: 0 <= i < |keys| ==> InsertKey(keys, k)[i] == keys[i]
  {
    if k !in keys {
      var r := keys + [k];
      forall i, j | 0 <= i < j < |r|
        ensures r[i] != r[j]
      {
        if j == |keys| {
          assert r[i] == keys[i];
        }
      }
    }
  }

  /** The route replies. */
  datatype UploadReply = UploadReply(message: string, rows: nat)
  datatype FetchReply = FetchReply(message: string, count: nat)
  datatype RunReply = RunReply(sessionId: string, results: seq<BacktestResult>)

  /** What rendering a reply whose metrics hold a NaN or an infinity raises: the JSON encoder
      refuses out-of-range floats, and the server answers 500. */
  const NotJsonCompliant := "Out of range float values are not JSON compliant"

  /** The reply renders only when every result's metrics are JSON-compliant (`compliant` tells,
      for a metrics dictionary, whether all its numbers are finite). */
  predicate RepliesRender(results: seq<BacktestResult>, compliant: Metrics -> bool) {
    forall k :: 0 <= k < |results| ==> compliant(results[k].metrics)
  }

  /** An OKX candle row as the exchange sends it: strings. */
  type OkxRow = seq<string>

  /** What `requests.get` on the OKX candles URL ends in: a status and the `data` member of the
      body (None when the body has no `data`), or a raised transport error. */
  datatype OkxResponse = OkxResponse(status: nat, data: Option<seq<OkxRow>>) | OkxUnreachable(message: string)

  /** The list comprehension of `fetch_and_store_ohlcv`: each row converted by `format`
      (`int`/`float` conversion and ISO formatting), or the first conversion error. */
  function FormatRows(rows: seq<OkxRow>, format: OkxRow -> Result<Candle, PyError>): (r: Result<Frame, PyError>)
    ensures r.Ok? ==> |r.value| == |rows| && forall k :: 0 <= k < |rows| ==> format(rows[k]) == Ok(r.value[k])
    ensures r.Err? ==>
      exists k :: 0 <= k < |rows| && format(rows[k]) == Err(r.error) && forall j :: 0 <= j < k ==> format(rows[j]).Ok?
  {
    if rows == [] then Ok([])
    else match format(rows[0])
      case Err(e) => Err(e)
      case Ok(c) =>
        match FormatRows(rows[1..], format)
        case Err(e) => Err(e)
        case Ok(cs) => Ok([c] + cs)
  }

  const OkxCandlesUrl := "https://www.okx.com/api/v5/market/candles"

  /** The OKX URL `fetch_and_store_ohlcv` requests: one-minute candles, 100 of them. */
  function OkxFetchUrl(symbol: string): (u: string)
    ensures var query := |OkxCandlesUrl| + |"?instId="|;
      |u| == query + |symbol| + 17 &&
      u[..query] == OkxCandlesUrl + "?instId=" && u[query..query + |symbol|] == symbol &&
      u[query + |symbol|..] == "&bar=1m&limit=100"
  {
    var prefix := OkxCandlesUrl + "?instId=";
    assert (prefix + symbol)[..|prefix|] == prefix;
    prefix + symbol + "&bar=1m&limit=100"
  }

  /** The OKX signing prehash: timestamp, verb, endpoint and body, concatenated. */
  function Prehash(timestamp: string, verb: string, endpoint: string, body: Option<string>): (m: string)
    ensures |m| == |timestamp| + |verb| + |endpoint| + |body.GetOr("")|
    ensures m[..|timestamp|] == timestamp
    ensures m[|timestamp|..|timestamp| + |verb|] == verb
    ensures m[|timestamp| + |verb|..|timestamp| + |verb| + |endpoint|] == endpoint
    ensures m[|timestamp| + |verb| + |endpoint|..] == body.GetOr("")
  {
    var s := timestamp + verb;
    assert s[..|timestamp|] == timestamp;
    assert (s + endpoint)[|s|..] == endpoint;
    s + endpoint + body.GetOr("")
  }

  const ApiKey := "your_api_key"
  const ApiPassphrase := "your_passphrase"

  /** `generate_okx_headers`: `sign` stands for base64 of the HMAC-SHA256 of its argument. */
  function OkxHeaders(timestamp: string, verb: string, endpoint: string, body: Option<string>,
                      sign: string -> string): (h: map<string, string>)
    ensures h.Keys == {"OK-ACCESS-KEY", "OK-ACCESS-SIGN", "OK-ACCESS-TIMESTAMP", "OK-ACCESS-PASSPHRASE", "Content-Type"}
    ensures h["OK-ACCESS-SIGN"] == sign(Prehash(timestamp, verb, endpoint, body))
    ensures h["OK-ACCESS-TIMESTAMP"] == timestamp
    ensures |h| == 5
  {
    assert "OK-ACCESS-KEY" != "OK-ACCESS-SIGN" && "OK-ACCESS-KEY" != "Content-Type";
    map["OK-ACCESS-KEY" := ApiKey,
        "OK-ACCESS-SIGN" := sign(Prehash(timestamp, verb, endpoint, body)),
        "OK-ACCESS-TIMESTAMP" := timestamp,
        "OK-ACCESS-PASSPHRASE" := ApiPassphrase,
        "Content-Type" := "application/json"]
  }

  /** A row as the upload route receives it: a JSON object (`List[dict]`). */
  type RawRow = map<string, Json>

  /** The row dictionary `fetch_and_store_ohlcv` builds, and `OHLCVData.dict()` yields. */
  function CandleRow(c: Candle): (row: RawRow)
    ensures row.Keys == {"timestamp", "open", "high", "low", "close", "volume"}
    ensures row["timestamp"] == JString(c.timestamp) && row["close"] == JNumber(c.close)
  {
    map["timestamp" := JString(c.timestamp), "open" := JNumber(c.open), "high" := JNumber(c.high),
        "low" := JNumber(c.low), "close" := JNumber(c.close), "volume" := JNumber(c.volume)]
  }

  function CandleRows(cs: seq<Candle>): (rows: seq<RawRow>)
    ensures |rows| == |cs| && forall k :: 0 <= k < |cs| ==> rows[k] == CandleRow(cs[k])
  {
    seq(|cs|, k requires 0 <= k < |cs| => CandleRow(cs[k]))
  }

  /** `pd.DataFrame(data)` has a `timestamp` column exactly when some row has that key;
      without one, `df['timestamp']` raises a KeyError. */
  predicate HasTimestampColumn(data: seq<RawRow>)
    ensures HasTimestampColumn(data) ==> data != []
  {
    exists k :: 0 <= k < |data| && "timestamp" in data[k]
  }

  /** Rows built from candles have the column exactly when there is at least one. */
  lemma CandleRowsHaveTimestamp(cs: seq<Candle>)
    ensures HasTimestampColumn(CandleRows(cs)) <==> cs != []
  {
    if cs != [] {
      assert "timestamp" in CandleRows(cs)[0];
    }
  }

  /** The module-level dictionaries. */
  class Server {
    var storeKeys: seq<string>
    var store: map<string, Frame>
    var sessions: map<string, StrategyConfig>

    /** `storeKeys` is the key order of `ohlcv_store`. */
    ghost predicate Valid()
      reads this
    {
      NoDuplicates(storeKeys) && forall k :: k in store <==> k in storeKeys
    }

    constructor()
      ensures Valid() && storeKeys == [] && store == map[] && sessions == map[]
    {
      storeKeys := [];
      store := map[];
      sessions := map[];
    }

    /** `save_ohlcv_to_db`, served at `POST /upload_ohlcv/{symbol}` and replying null: builds a
        frame from the rows and stores it under `symbol`. `toFrame` stands for `pd.to_datetime`
        on the `timestamp` column and `set_index`, which may raise on a timestamp pandas cannot
        parse. Rows with no `timestamp` key at all (the empty list included) raise a KeyError.
        A failure stores nothing. */
    method SaveOhlcv(symbol: string, data: seq<RawRow>, toFrame: seq<RawRow> -> Result<Frame, PyError>)
      returns (r: Result<(), PyError>)
      requires Valid()
      modifies this`storeKeys, this`store
      ensures Valid()
      ensures !HasTimestampColumn(data) ==> r == Err(KeyError("timestamp"))
      ensures HasTimestampColumn(data) && toFrame(data).Err? ==> r == Err(toFrame(data).error)
      ensures r.Err? ==> store == old(store) && storeKeys == old(storeKeys)
      ensures r.Ok? <==> HasTimestampColumn(data) && toFrame(data).Ok?
      ensures r.Ok? ==>
        store == old(store)[symbol := toFrame(data).value] && storeKeys == InsertKey(old(storeKeys), symbol)
    {
      if !HasTimestampColumn(data) {
        return Err(KeyError("timestamp"));
      }
      var frame := toFrame(data);
      if frame.Err? {
        return Err(frame.error);
      }
      InsertKeyDistinct(storeKeys, symbol);
      storeKeys := InsertKey(storeKeys, symbol);
      store := store[symbol := frame.value];
      r := Ok(());
    }

    /** `upload_ohlcv`: the same steps on validated rows, replying with the stored frame's length. */
    method UploadOhlcv(symbol: string, data: seq<Candle>, toFrame: seq<RawRow> -> Result<Frame, PyError>)
      returns (r: Result<UploadReply, PyError>)
      requires Valid()
      modifies this`storeKeys, this`store
      ensures Valid()
      ensures data == [] ==> r == Err(KeyError("timestamp"))
      ensures data != [] && toFrame(CandleRows(data)).Err? ==> r == Err(toFrame(CandleRows(data)).error)
      ensures r.Err? ==> store == old(store) && storeKeys == old(storeKeys)
      ensures r.Ok? <==> data != [] && toFrame(CandleRows(data)).Ok?
      ensures r.Ok? ==>
        var frame := toFrame(CandleRows(data)).value;
        r.value == UploadReply("Data uploaded for " + symbol, |frame|) &&
        store == old(store)[symbol := frame] && storeKeys == InsertKey(old(storeKeys), symbol)
    {
      var rows := CandleRows(data);
      CandleRowsHaveTimestamp(data);
      if !HasTimestampColumn(rows) {
        return Err(KeyError("timestamp"));
      }
      var frame := toFrame(rows);
      if frame.Err? {
        return Err(frame.error);
      }
      InsertKeyDistinct(storeKeys, symbol);
      storeKeys := InsertKey(storeKeys, symbol);
      store := store[symbol := frame.value];
      r := Ok(UploadReply("Data uploaded for " + symbol, |frame.value|));
    }

    /** `get_symbols`: the store's keys, each once, in insertion order. */
    method GetSymbols() returns (keys: seq<string>)
      requires Valid()
      ensures keys == storeKeys
      ensures NoDuplicates(keys) && forall k :: k in keys <==> k in store
    {
      keys := storeKeys;
    }

    /** `fetch_and_store_ohlcv`: requests `OkxFetchUrl(symbol)` through `get` (`requests.get`);
        every failure inside the `try`, the non-200 HTTPException included, leaves as status 500
        carrying the text of the original exception. */
    method FetchAndStore(symbol: string, get: string -> OkxResponse, format: OkxRow -> Result<Candle, PyError>,
                         toFrame: seq<RawRow> -> Result<Frame, PyError>)
      returns (r: Result<FetchReply, PyError>)
      requires Valid()
      modifies this`storeKeys, this`store
      ensures Valid()
      ensures r.Err? ==> r.error.HttpException? && r.error.status == 500
      ensures r.Err? ==> store == old(store) && storeKeys == old(storeKeys)
      ensures var response := get(OkxFetchUrl(symbol));
        response.OkxUnreachable? ==> r == Err(HttpException(500, response.message))
      ensures var response := get(OkxFetchUrl(symbol));
        response.OkxResponse? && response.status != 200 ==>
        r == Err(HttpException(500, ExceptionText(HttpException(response.status, "Failed to fetch from OKX"))))
      ensures var response := get(OkxFetchUrl(symbol));
        response.OkxResponse? && response.status == 200 && response.data.None? ==>
        r == Err(HttpException(500, ExceptionText(KeyError("data"))))
      ensures var response := get(OkxFetchUrl(symbol));
        response.OkxResponse? && response.status == 200 && response.data == Some([]) ==>
        r == Err(HttpException(500, ExceptionText(KeyError("timestamp"))))
      ensures var response := get(OkxFetchUrl(symbol));
        response.OkxResponse? && response.status == 200 && response.data.Some? &&
        FormatRows(response.data.value, format).Err? ==>
        r == Err(HttpException(500, ExceptionText(FormatRows(response.data.value, format).error)))
      ensures var response := get(OkxFetchUrl(symbol));
        response.OkxResponse? && response.status == 200 && response.data.Some? &&
        FormatRows(response.data.value, format).Ok? && response.data.value != [] ==>
        var rows := CandleRows(FormatRows(response.data.value, format).value);
        (toFrame(rows).Err? ==> r == Err(HttpException(500, ExceptionText(toFrame(rows).error)))) &&
        (toFrame(rows).Ok? ==> r.Ok?)
      ensures var response := get(OkxFetchUrl(symbol));
        r.Ok? ==>
        response.OkxResponse? && response.data.Some? && FormatRows(response.data.value, format).Ok? &&
        (var candles := FormatRows(response.data.value, format).value;
         candles != [] && toFrame(CandleRows(candles)).Ok? &&
         r.value == FetchReply("OHLCV for " + symbol + " uploaded", |candles|) &&
         store == old(store)[symbol := toFrame(CandleRows(candles)).value] &&
         storeKeys == InsertKey(old(storeKeys), symbol))
    {
      var response := get(OkxFetchUrl(symbol));
      var inner: PyError;
      if response.OkxUnreachable? {
        inner := Raised(response.message);
      } else if response.status != 200 {
        inner := HttpException(response.status, "Failed to fetch from OKX");
      } else if response.data.None? {
        inner := KeyError("data");
      } else {
        var formatted := FormatRows(response.data.value, format);
        if formatted.Err? {
          inner := formatted.error;
        } else {
          CandleRowsHaveTimestamp(formatted.value);
          var stored := SaveOhlcv(symbol, CandleRows(formatted.value), toFrame);
          if stored.Ok? {
            return Ok(FetchReply("OHLCV for " + symbol + " uploaded", |formatted.value|));
          }
          inner := stored.error;
        }
      }
      r := Err(HttpException(500, ExceptionText(inner)));
    }

    /** `run_strategy`: records the config under the fresh `sessionId` (from `uuid4`) before the
        loop, so a failing backtest still leaves the session behind; then backtests each
        requested symbol that is stored, and every such backtest prunes the stored frame in
        place. The reply is encoded only after the route returns: a non-finite metric (a frame
        that `dropna` left with two rows has a NaN standard deviation, so a NaN Sharpe ratio)
        makes that encoding fail with status 500, after every frame was pruned and the session
        recorded. */
    method RunStrategy(config: StrategyConfig, sessionId: string, prune: Frame -> Frame,
                       metrics: (Frame, StrategyConfig) -> Result<Metrics, PyError>,
                       compliant: Metrics -> bool)
      returns (r: Result<RunReply, PyError>)
      requires Valid()
      modifies this`sessions, this`store
      ensures Valid()
      ensures sessions == old(sessions)[sessionId := config]
      ensures var o := Backtests(config.symbols, old(store), config, prune, metrics);
        && store == o.store
        && (o.results.Ok? && RepliesRender(o.results.value, compliant) ==>
              r == Ok(RunReply(sessionId, o.results.value)))
        && (o.results.Ok? && !RepliesRender(o.results.value, compliant) ==>
              r == Err(Raised(NotJsonCompliant)))
        && (o.results.Err? ==> r == Err(o.results.error))
    {
      sessions := sessions[sessionId := config];
      ghost var before := store;
      var results: seq<BacktestResult> := [];
      var i := 0;
      while i < |config.symbols|
        invariant 0 <= i <= |config.symbols|
        invariant Backtests(config.symbols[..i], before, config, prune, metrics) == RunOutcome(Ok(results), store)
        invariant store.Keys == before.Keys
        invariant sessions == old(sessions)[sessionId := config]
      {
        var symbol := config.symbols[i];
        BacktestsPrefixStep(config.symbols, i, before, config, prune, metrics);
        ghost var prev := RunOutcome(Ok(results), store);
        if symbol in store {
          var run := RunBacktest(symbol, store[symbol], config, prune, metrics);
          store := store[symbol := run.frame];
          if run.result.Err? {
            assert Step(prev, symbol, config, prune, metrics) == RunOutcome(Err(run.result.error), store);
            BacktestsFailFast(config.symbols, i + 1, before, config, prune, metrics);
            return Err(run.result.error);
          }
          results := results + [run.result.value];
          assert Step(prev, symbol, config, prune, metrics) == RunOutcome(Ok(results), store);
        } else {
          assert Step(prev, symbol, config, prune, metrics) == RunOutcome(Ok(results), store);
        }
        i := i + 1;
      }
      assert config.symbols[..i] == config.symbols;
      if RepliesRender(results, compliant) {
        r := Ok(RunReply(sessionId, results));
      } else {
        r := Err(Raised(NotJsonCompliant));
      }
    }
  }
}
