# Go-Quant strategy builder — a Dafny model

Go-Quant is a browser tool for building trading strategies without code. The user drags
indicator, condition and action blocks from a palette onto a canvas. They select a node to
edit its configuration in a side panel, and press *Run Strategy*. That sends the indicator
names and a fixed set of trading parameters to a FastAPI backend. The backend backtests the
strategy on every OHLCV frame it holds in memory. Frames come from a direct upload or from
the OKX exchange's candle endpoint. The rest of the front end is a searchable market list,
a summary of domain security records, and helper hooks for the REST API and a WebSocket
connection.

This project models, one Dafny module per file:

- `StrategyNodes` — the node record, node ids, the `{...node, ...updates}` merge and the
  list transforms behind add, update and delete. It also holds the run payload and the
  upload symbol.
- `StrategyBuilder` — the builder component's state as a class. Each handler is a method
  whose contract ties the new state to the pure transforms. The two `await`-ing handlers
  are split into a start method and a finish method.
- `IndicatorPalette` — the catalog of ten blocks, and what a click or a drag hands on.
- `StrategyCanvas` — the drop handler, node-move forwarding and the render predicates.
- `StrategyNodeComponent` — icon and colour selection, the press–move–release drag
  session with its document listeners, the raised stacking level, and click propagation.
- `ConfigPanel` — which form a node gets, the fields' defaults and bounds, and what an
  edit writes back.
- `Sidebar` — market search, symbol toggling, labels and trend signs.
- `SummaryCards` — the domain statistics loop, the three cards, the domain-list modal,
  and the statistics of the bundled mock fixture.
- `UseWebSocket` — the connection hook's state machine. It is given as pure transitions
  plus a class whose methods follow them.
- `UseApi` — the REST hook: symbol fetching with its fallback, and the two request helpers.
- `Backend` — the in-memory stores, upload, OKX fetch-and-store, the symbol list,
  `run_strategy` with its backtest loop, and OKX request signing.
- `Wrappers`, `Seqs`, `Strings`, `Protocol` — `Option`/`Result`, a generic filter, the
  string helpers the code relies on (`includes`, `indexOf`, `replace`, `toLowerCase`,
  decimal formatting), and the JSON-shaped wire types.

Clocks, random numbers, UUIDs, HTTP responses, the pandas steps (indicator columns and
`dropna`, timestamp parsing, metrics) and the HMAC signature enter as parameters. Floating-point values are modelled as `real`.

Some behaviours of the code are easy to miss when reading the component descriptions. The
model follows the code in each case:

- `updateNode` replaces a node's `config` wholesale. It does not merge the old and
  new configs (`StrategyNodes.UpdateReplacesConfig`).
- `addNode` returns nothing. The node id is the type, a dash and `Date.now()`, so two
  nodes of one type added in the same millisecond share an id.
- The builder's own `runStrategy` stores whatever JSON body arrives, whatever the HTTP
  status. Only the `useApi` hook checks `response.ok`
  (`UseApi.HookRejectsWhatBuilderStores`).
- `useApi.fetchSymbols` never clears an earlier error when a later fetch succeeds.
- The WebSocket hook's handlers still update state after their socket has been replaced.
  A demo timer also reports "connected" one second after mounting, whether or not a
  socket exists.
- In the backend, the `POST /upload_ohlcv/{symbol}` route decorator sits on
  `save_ohlcv_to_db`, which replies `null`. The `upload_ohlcv` function beside it is not
  routed.
- Uploading an empty row list, or rows none of which has a `timestamp` key, raises a
  `KeyError` on the missing `timestamp` column.
- `run_backtest` rewrites the frame it is handed, and that frame is the stored one:
  `calculate_indicators` adds columns and `dropna(inplace=True)` deletes rows. Every run
  therefore prunes each stored frame it backtests, and a symbol requested twice is
  backtested the second time on the frame the first backtest pruned
  (`Backend.RepeatedSymbolRunsOnPrunedFrame`).
- The canvas's `useDrop` spec function has no dependency list, so react-dnd builds the
  drop handler once, at mount. The handler then calls the first render's `updateNode`,
  which maps over that render's empty node list, so a completed drop empties the graph
  (`StrategyCanvas.DropClearsGraph`).
- `run_strategy` records its session before backtesting, so a failed run still leaves
  its session behind.
- A backtest whose pruned frame is very short computes NaN ratios, and the reply is
  encoded only after `run_strategy` returns. Such a run fails with status 500 after every
  requested frame has been pruned and the session recorded (`Backend.Server.RunStrategy`).
- Every failure in `fetch_and_store_ohlcv` leaves as a status 500. The detail is the text
  of the original exception, with Starlette's "status: detail" form for the non-200 case.

## Model

| member | source | states |
|---|---|---|
| StrategyNodes.NodeId | src/components/StrategyBuilder.tsx:29 | an id is the node type, a dash, then decimal digits only |
| StrategyNodes.NodeIdInjective | src/components/StrategyBuilder.tsx:29 | ids built from different (type, time) pairs differ when the types have no dash |
| StrategyNodes.NodeIdCollidesWithinMillisecond | src/components/StrategyBuilder.tsx:27-36 | two nodes of one type created in the same millisecond get the same id |
| StrategyNodes.MakeNode | src/components/StrategyBuilder.tsx:28-34 | a new node has the type-dash-time id and an empty config |
| StrategyNodes.RandomPosition | src/components/StrategyBuilder.tsx:33 | a new node's position lies in [0,400) × [0,300) |
| StrategyNodes.Merge | src/components/StrategyBuilder.tsx:40 | an empty update leaves the node as it is; an update carrying every field replaces the node wholesale |
| StrategyNodes.MergeOverwritesPresentFields | src/components/StrategyBuilder.tsx:40 | the spread overwrites exactly the fields present in the update and keeps the others |
| StrategyNodes.UpdateNodes | src/components/StrategyBuilder.tsx:38-42 | same length; nodes with the id are merged and every other node is unchanged |
| StrategyNodes.UpdateAbsentIdIsNoOp | src/components/StrategyBuilder.tsx:38-42 | an update naming an absent id leaves the list as it was |
| StrategyNodes.UpdateKeepsIds | src/components/StrategyBuilder.tsx:38-42 | an update that carries no other id keeps every node's id in place |
| StrategyNodes.UpdateReplacesConfig | src/components/StrategyBuilder.tsx:40 | a config in an update replaces the old config, dropping keys it lacks |
| StrategyNodes.DeleteNodes | src/components/StrategyBuilder.tsx:45 | the result holds exactly the nodes whose id differs, each one taken from the input |
| StrategyNodes.DeleteKeepsOrder | src/components/StrategyBuilder.tsx:45 | deletion distributes over concatenation, so survivors keep their order |
| StrategyNodes.DeleteAbsentIdIsNoOp | src/components/StrategyBuilder.tsx:45 | deleting an absent id changes nothing |
| StrategyNodes.SelectionAfterDelete | src/components/StrategyBuilder.tsx:46-48 | the selection is cleared exactly when the selected node has the deleted id, otherwise it is kept |
| StrategyNodes.IndicatorNames | src/components/StrategyBuilder.tsx:79 | every listed name belongs to an indicator node and every indicator node's name is listed |
| StrategyNodes.IndicatorNamesAppend | src/components/StrategyBuilder.tsx:79 | names follow node order: the list for a concatenation is the concatenation of the lists |
| StrategyNodes.BuildPayload | src/components/StrategyBuilder.tsx:75-86 | the payload carries the selected symbols, and its indicator list names exactly the graph's indicator nodes |
| StrategyNodes.PayloadShape | src/components/StrategyBuilder.tsx:75-86 | the payload carries the symbols and the indicator names in node order, and fixes every other field to its constant |
| StrategyNodes.PayloadOfMixedGraph | src/components/StrategyBuilder.tsx:79 | an EMA indicator, a condition and an action give indicators ["EMA"] |
| StrategyNodes.RunEnabled | src/components/StrategyBuilder.tsx:134 | the run button is enabled exactly when nothing is running and the graph has a node |
| StrategyNodes.UploadSymbol | src/components/StrategyBuilder.tsx:54 | the first symbol when it is non-empty; BTC-USDT for an empty list or an empty first symbol; never empty |
| StrategyBuilder.RunResult | src/components/StrategyBuilder.tsx:88-93 | the stored result is the response body when one arrives, and the failure object on a network or parse error |
| StrategyBuilder.RunResultIgnoresStatus | src/components/StrategyBuilder.tsx:87-89 | a body from a failing status is stored exactly like one from a succeeding status |
| StrategyBuilder.CatalogGraphIndicators | src/components/StrategyBuilder.tsx:79 | a graph built from catalog blocks sends only EMA, RSI, MACD or Bollinger Bands |
| StrategyBuilder.Builder.constructor | src/components/StrategyBuilder.tsx:20-25 | empty graph, no selection, panel hidden, nothing running or uploading, null result |
| StrategyBuilder.Builder.AddNode | src/components/StrategyBuilder.tsx:27-36 | appends one fresh node at a random position and keeps the selection |
| StrategyBuilder.Builder.UpdateNode | src/components/StrategyBuilder.tsx:38-42 | the graph becomes UpdateNodes of the old graph; the selection snapshot is not refreshed |
| StrategyBuilder.Builder.DeleteNode | src/components/StrategyBuilder.tsx:44-49 | removes the id's nodes and clears a selection with that id |
| StrategyBuilder.Builder.SelectNode | src/components/StrategyBuilder.tsx:152 | the selection becomes the clicked node |
| StrategyBuilder.Builder.ToggleConfig | src/components/StrategyBuilder.tsx:105 | the panel flag flips |
| StrategyBuilder.Builder.CloseConfig | src/components/StrategyBuilder.tsx:192 | the panel is hidden |
| StrategyBuilder.Builder.MoveNode | src/components/StrategyCanvas.tsx:47-49 | only the position of nodes with the id changes |
| StrategyBuilder.Builder.Drop | src/components/StrategyCanvas.tsx:21-41 | the graph becomes what the mount-time handler forwards through the first render's updateNode: empty after a completed drop, unchanged otherwise |
| StrategyBuilder.Builder.DropAsIntended | src/components/StrategyCanvas.tsx:23-41 | the corrected drop adds one node at the drop point |
| StrategyBuilder.Builder.EditField | src/components/ConfigPanel.tsx:48-51 | an EMA period edit writes the merged config; every other field leaves the graph alone |
| StrategyBuilder.Builder.StartRun | src/components/StrategyBuilder.tsx:69-86 | marks the run busy, disables the button and returns the payload |
| StrategyBuilder.Builder.FinishRun | src/components/StrategyBuilder.tsx:87-96 | stores RunResult of the outcome and re-enables the button exactly when the graph is non-empty |
| StrategyBuilder.Builder.StartUpload | src/components/StrategyBuilder.tsx:51-55 | marks the upload busy, disables the button and returns the symbol |
| StrategyBuilder.Builder.FinishUpload | src/components/StrategyBuilder.tsx:64-66 | clears the busy flag whatever the outcome |
| StrategyBuilder.Builder.RunButtonEnabled | src/components/StrategyBuilder.tsx:134 | enabled exactly when the builder is not running and holds at least one node |
| StrategyBuilder.Builder.UploadButtonEnabled | src/components/StrategyBuilder.tsx:125 | enabled exactly when no upload is in flight |
| StrategyBuilder.FailedRunAllowsRetry | src/components/StrategyBuilder.tsx:69-97 | after a network failure the failure object is shown, and the button is enabled again on an unchanged graph |
| IndicatorPalette.ClickArgs | src/components/IndicatorPalette.tsx:45 | a click hands on the entry's type and name |
| IndicatorPalette.DragSourceOf | src/components/IndicatorPalette.tsx:32-38 | every entry drags under tag "indicator" with the same (type, name) a click gives |
| IndicatorPalette.Catalog | src/components/IndicatorPalette.tsx:9-26 | defines the ten blocks in section order; `CatalogShape` and `CatalogNamesDistinct` state their shape |
| IndicatorPalette.CatalogShape | src/components/IndicatorPalette.tsx:9-26 | four indicators, three conditions, three actions, each typed by its section |
| IndicatorPalette.CatalogNamesDistinct | src/components/IndicatorPalette.tsx:67-89 | entry names, used as keys, are pairwise distinct |
| IndicatorPalette.IndicatorEntries | src/components/IndicatorPalette.tsx:9-14 | exactly EMA, RSI, MACD and Bollinger Bands are indicators |
| IndicatorPalette.DragPayloads | src/components/IndicatorPalette.tsx:32-38 | conditions and actions drag under the indicator tag too |
| StrategyCanvas.DropPosition | src/components/StrategyCanvas.tsx:33-36 | the node's position plus the canvas origin is the pointer |
| StrategyCanvas.HandleDrop | src/components/StrategyCanvas.tsx:23-41 | a call is forwarded exactly when both offset and rectangle exist, under the fresh id, with the drop position |
| StrategyCanvas.DropEffect | src/components/StrategyCanvas.tsx:21-41 | without offset or rectangle the graph stays; otherwise it becomes a list as long as the captured one |
| StrategyCanvas.DropClearsGraph | src/components/StrategyCanvas.tsx:21-41 | with the handler of the first render, every completed drop empties the graph |
| StrategyCanvas.DropYieldsCapturedList | src/components/StrategyCanvas.tsx:38 | a drop whose fresh id is not taken sets the graph to the captured list |
| StrategyCanvas.DropOverwritesCollidingNode | src/components/StrategyCanvas.tsx:28-38 | a drop whose id collides with a captured node replaces that node wholesale and appends nothing |
| StrategyCanvas.HandleNodeMove | src/components/StrategyCanvas.tsx:47-49 | forwards exactly a position update for the given id |
| StrategyCanvas.MoveTouchesOnlyPosition | src/components/StrategyCanvas.tsx:47-49 | a move changes the matching nodes' position and nothing else |
| StrategyCanvas.IsSelected | src/components/StrategyCanvas.tsx:85 | a node box is highlighted exactly when a node is selected and shares its id |
| StrategyCanvas.DeleteKeepsHighlights | src/components/StrategyBuilder.tsx:44-49 | after a delete, every surviving node is highlighted exactly as before |
| StrategyCanvas.ShowsEmptyState | src/components/StrategyCanvas.tsx:93 | the empty-state message shows only for an empty graph and never beside the drop hint |
| StrategyCanvas.ShowsDropHint | src/components/StrategyCanvas.tsx:72 | defines the hint's condition, `isOver` |
| StrategyCanvas.EmptyStateAndHintExclusive | src/components/StrategyCanvas.tsx:72-93 | the empty-state message and the drop hint never show together |
| StrategyCanvas.OnlyPaletteDragsDrop | src/components/StrategyCanvas.tsx:22 | palette drags are accepted; node drags are not |
| StrategyCanvas.PlaceDropped | src/components/StrategyCanvas.tsx:23-41 | without offset or rectangle the corrected drop changes nothing |
| StrategyCanvas.PlaceDroppedAddsOneNode | src/components/StrategyCanvas.tsx:28-37 | the corrected drop appends one node at pointer minus origin, with the item's type and name and an empty config |
| StrategyCanvas.DropAsWrittenCreatesNothing | src/components/StrategyCanvas.tsx:38 | the drop as written never adds a node and with the first render's handler leaves an empty graph; the corrected one always adds one |
| StrategyNodeComponent.NodeIcon | src/components/StrategyNodeComponent.tsx:14-30 | BarChart3 exactly for RSI and RSI Overbought, Activity exactly for MACD and Cross Over, TrendingUp otherwise |
| StrategyNodeComponent.NodeColorOf | src/components/StrategyNodeComponent.tsx:32-39 | blue, orange, green or red by type and whether an action's name contains Buy; gray exactly for other types |
| StrategyNodeComponent.CatalogActionColors | src/components/StrategyNodeComponent.tsx:36 | Buy Order is green; Sell Order and Stop Loss are red |
| StrategyNodeComponent.NoBuyIn | src/components/StrategyNodeComponent.tsx:36 | a name without a capital B never gets the buy colour |
| StrategyNodeComponent.Detach | src/components/StrategyNodeComponent.tsx:72-76 | removal keeps exactly the listeners of other presses |
| StrategyNodeComponent.PressReleaseRestores | src/components/StrategyNodeComponent.tsx:61-81 | press then release of one press leaves the document's listeners as before |
| StrategyNodeComponent.MoveCalls | src/components/StrategyNodeComponent.tsx:65-70 | each mousemove listener forwards one position-only update |
| StrategyNodeComponent.MoveIsDisplacement | src/components/StrategyNodeComponent.tsx:62-70 | a move puts the node at its press position plus the pointer's displacement |
| StrategyNodeComponent.ApplyMoves | src/components/StrategyNodeComponent.tsx:65-70 | a series of move samples keeps the list's length and every node's id and config |
| StrategyNodeComponent.DragEndsAtLastSample | src/components/StrategyNodeComponent.tsx:65-70 | after any series of moves the node sits where the last sample puts it, otherwise unchanged |
| StrategyNodeComponent.Document.constructor | src/components/StrategyNodeComponent.tsx:78-80 | the listener registry starts empty |
| StrategyNodeComponent.NodeBox.constructor | src/components/StrategyNodeComponent.tsx:48 | a fresh box is not dragging |
| StrategyNodeComponent.NodeBox.MouseDown | src/components/StrategyNodeComponent.tsx:61-81 | attaches one mousemove and one mouseup listener holding the press offset; dragging starts |
| StrategyNodeComponent.NodeBox.MouseUp | src/components/StrategyNodeComponent.tsx:72-76 | detaches that press's listeners; dragging ends |
| StrategyNodeComponent.NodeBox.ZIndex | src/components/StrategyNodeComponent.tsx:90 | the level is 50 exactly while dragging, else 10 |
| StrategyNodeComponent.ClickCallbacks | src/components/StrategyNodeComponent.tsx:91-124 | a body click selects; delete deletes without selecting; settings does nothing |
| ConfigPanel.FormFor | src/components/ConfigPanel.tsx:35-139 | EMA, RSI and the two order names get their forms; every other name gets none |
| ConfigPanel.Fields | src/components/ConfigPanel.tsx:35-139 | each form lists every field once, and only the no-configuration case has no fields |
| ConfigPanel.ControlOf | src/components/ConfigPanel.tsx:37-131 | defines each field's label, default and bounds; `FieldDefaults` states that defaults lie within bounds |
| ConfigPanel.Render | src/components/ConfigPanel.tsx:16-36 | the placeholder shows exactly when nothing is selected; otherwise the form by name |
| ConfigPanel.FormIgnoresType | src/components/ConfigPanel.tsx:35-36 | the form depends on the name alone |
| ConfigPanel.FieldDefaults | src/components/ConfigPanel.tsx:37-131 | number defaults lie within their bounds; a name without a form has no fields |
| ConfigPanel.OnChange | src/components/ConfigPanel.tsx:48-51 | exactly the EMA period input writes back, with one config-only update for the selection |
| ConfigPanel.PeriodMergeKeepsOtherKeys | src/components/ConfigPanel.tsx:49-50 | the written config sets period and keeps every other key of the snapshot |
| Sidebar.Search | src/components/Sidebar.tsx:37-39 | keeps exactly the markets whose lower-cased symbol contains the lower-cased term |
| Sidebar.FilteredMarkets | src/components/Sidebar.tsx:37-39 | the mock markets that match the term, no more than the eight of them |
| Sidebar.EmptyTermKeepsAll | src/components/Sidebar.tsx:37-39 | an empty term keeps every market |
| Sidebar.EmptyTermShowsAll | src/components/Sidebar.tsx:26-39 | an empty search shows all eight mock markets |
| Sidebar.SearchIgnoresCase | src/components/Sidebar.tsx:37-39 | a term and its lower-cased form find the same markets |
| Sidebar.ListRows | src/components/Sidebar.tsx:70-116 | while loading, eight placeholders; otherwise one row per shown market, in order |
| Sidebar.Rows | src/components/Sidebar.tsx:70-116 | eight placeholders while loading, otherwise one row per filtered market, in order |
| Sidebar.RowsIgnoreSymbols | src/components/Sidebar.tsx:17-39 | the selected symbols do not affect the listed rows |
| Sidebar.ToggleSymbol | src/components/Sidebar.tsx:41-47 | a present symbol is removed and the others kept; an absent one is appended at the end, the rest unchanged |
| Sidebar.TogglePresentRemovesAll | src/components/Sidebar.tsx:42-43 | toggling a present symbol removes every copy of it and keeps the other symbols in order |
| Sidebar.ToggleTwiceRestores | src/components/Sidebar.tsx:41-47 | toggling an absent symbol twice restores the list |
| Sidebar.Label | src/components/Sidebar.tsx:93 | a symbol without `-USDT` is its own label; one containing it loses exactly five characters |
| Sidebar.PairLabel | src/components/Sidebar.tsx:93 | a BASE-USDT symbol whose base has no dash is labelled by its base |
| Sidebar.MarketLabels | src/components/Sidebar.tsx:93 | the mock markets' labels |
| Sidebar.TrendOf | src/components/Sidebar.tsx:100-104 | up exactly for a strictly positive change |
| Sidebar.SignPrefix | src/components/Sidebar.tsx:110 | a plus sign exactly for an upward trend, nothing otherwise |
| SummaryCards.IsHttpOnly | src/components/SummaryCards.tsx:24 | defines the http-only test, HTTP 200 without HTTPS 200; `StatsMembership` ties the list to it |
| SummaryCards.HasNoCert | src/components/SummaryCards.tsx:29 | defines the missing-certificate test; `StatsMembership` ties the list to it |
| SummaryCards.IsExpiringSoon | src/components/SummaryCards.tsx:34-40 | an expiring certificate is present and valid and has an expiry text |
| SummaryCards.ExpiringWindow | src/components/SummaryCards.tsx:34-40 | a certificate counts as expiring exactly when it expires within 30 days from now |
| SummaryCards.NoCertNotExpiring | src/components/SummaryCards.tsx:29-40 | a domain without a certificate is never expiring |
| SummaryCards.CalculateStats | src/components/SummaryCards.tsx:11-44 | the loop's result equals the filter definitions of the three lists |
| SummaryCards.StatsMembership | src/components/SummaryCards.tsx:17-41 | a name is in each list exactly when some record with it meets that list's test |
| SummaryCards.ExpiringAndNoCertDisjoint | src/components/SummaryCards.tsx:29-40 | with distinct names, no domain is both expiring and certificate-less |
| SummaryCards.MockHttpOnly | src/services/mockData.ts:4-160 | the fixture's http-only domains are the library and events sites |
| SummaryCards.MockNoCert | src/services/mockData.ts:4-160 | the fixture's certificate-less domains are the library, hostel and events sites |
| SummaryCards.Cards | src/components/SummaryCards.tsx:48-85 | three cards, each counting its list and carrying its protocol needs |
| SummaryCards.ViewDomains | src/components/SummaryCards.tsx:108-123 | a modal opens exactly for a card with a non-zero count, listing its domains |
| SummaryCards.CardButtons | src/components/SummaryCards.tsx:108-123 | a card's button opens its modal exactly when its list is non-empty |
| SummaryCards.MockFixtureButtons | src/components/SummaryCards.tsx:108-123 | on the fixture the http-only and certificate-less buttons open |
| UseWebSocket.SocketUrl | src/hooks/useWebSocket.ts:20 | the session id follows `ws://localhost:8000/ws/` unchanged |
| UseWebSocket.ConnectState | src/hooks/useWebSocket.ts:11-52 | an open socket is kept; otherwise a new connecting socket to the session's URL, or an error when creation fails |
| UseWebSocket.OnOpen | src/hooks/useWebSocket.ts:23-26 | status becomes connected; the error text and last message stay; a current socket becomes open |
| UseWebSocket.OnMessage | src/hooks/useWebSocket.ts:28-35 | a parsed message becomes the last message; an unparsable one changes nothing |
| UseWebSocket.OnClose | src/hooks/useWebSocket.ts:37-40 | status becomes disconnected |
| UseWebSocket.OnError | src/hooks/useWebSocket.ts:42-46 | status becomes error with the error text |
| UseWebSocket.DisconnectState | src/hooks/useWebSocket.ts:54-60 | no socket, status disconnected |
| UseWebSocket.DisconnectIdempotent | src/hooks/useWebSocket.ts:54-60 | disconnecting twice equals disconnecting once |
| UseWebSocket.Send | src/hooks/useWebSocket.ts:62-68 | a message is queued exactly when the socket is open; nothing else changes |
| UseWebSocket.DemoTimer | src/hooks/useWebSocket.ts:75-77 | status connected, nothing else changed |
| UseWebSocket.ConnectOpenSend | src/hooks/useWebSocket.ts:11-68 | connect, open, then send delivers exactly that message on the session's URL |
| UseWebSocket.ReconnectWhileOpenKeepsSocket | src/hooks/useWebSocket.ts:12-14 | connecting while open keeps the state as it was |
| UseWebSocket.DemoTimerConnectedWithoutSocket | src/hooks/useWebSocket.ts:75-77 | the demo timer reports connected when no socket exists |
| UseWebSocket.StaleOpenMisreportsStatus | src/hooks/useWebSocket.ts:20-26 | an open event of a replaced socket sets connected while the current socket is not open |
| UseWebSocket.WebSocketHook.constructor | src/hooks/useWebSocket.ts:6-9 | disconnected, no message, no error, no socket |
| UseWebSocket.WebSocketHook.Connect | src/hooks/useWebSocket.ts:11-52 | the state follows ConnectState |
| UseWebSocket.WebSocketHook.HandleOpen | src/hooks/useWebSocket.ts:23-26 | the state follows OnOpen |
| UseWebSocket.WebSocketHook.HandleMessage | src/hooks/useWebSocket.ts:28-35 | the state follows OnMessage |
| UseWebSocket.WebSocketHook.HandleClose | src/hooks/useWebSocket.ts:37-40 | the state follows OnClose |
| UseWebSocket.WebSocketHook.HandleError | src/hooks/useWebSocket.ts:42-46 | the state follows OnError |
| UseWebSocket.WebSocketHook.Disconnect | src/hooks/useWebSocket.ts:54-60 | the state follows DisconnectState |
| UseWebSocket.WebSocketHook.SendMessage | src/hooks/useWebSocket.ts:62-68 | the state follows Send; reports whether the message went out |
| UseWebSocket.WebSocketHook.FireDemoTimer | src/hooks/useWebSocket.ts:75-77 | the state follows DemoTimer |
| UseApi.AfterFetchSymbols | src/hooks/useApi.ts:10-28 | a received body becomes the symbols; a failing status gives the fallback list and keeps the error; a thrown error gives the fallback list and the mock-data message; loading always ends |
| UseApi.ErrorOutlivesRecovery | src/hooks/useApi.ts:13-24 | a success after a failure keeps the stale error text |
| UseApi.FailureNeverEmpties | src/hooks/useApi.ts:16-24 | after a failure the symbol list is the non-empty fallback |
| UseApi.BodyOrThrow | src/hooks/useApi.ts:40-47 | the body on a success, an HTTP error with the given text on a failing status, and a transport or parse error otherwise |
| UseApi.RunStrategyCall | src/hooks/useApi.ts:30-49 | a failing status throws the run-failed text; a result exists only for a succeeding status |
| UseApi.HookRejectsWhatBuilderStores | src/hooks/useApi.ts:40-44 | a failing-status body the builder would store is an error in the hook |
| UseApi.OhlcvUrl | src/hooks/useApi.ts:51-55 | defines the candles URL; `OhlcvUrlCarriesSymbol` places its segments |
| UseApi.OhlcvDefaultTimeframe | src/hooks/useApi.ts:51-55 | the default timeframe is 1h |
| UseApi.OhlcvUrlCarriesSymbol | src/hooks/useApi.ts:53-55 | the URL is the API base and `inst_id=`, the raw symbol, `&bar=` with the timeframe (1h when left out), then `&limit=100`, each at its own position |
| UseApi.FetchOhlcvCall | src/hooks/useApi.ts:51-66 | a failing status throws the OHLCV-failed text; a result exists only for a succeeding status |
| UseApi.ApiHook.constructor | src/hooks/useApi.ts:6-8 | no symbols, loading, no error |
| UseApi.ApiHook.FetchSymbols | src/hooks/useApi.ts:10-28 | the state follows AfterFetchSymbols |
| Backend.RunBacktest | backend/main.py:80-130 | leaves the handed frame pruned; succeeds exactly when the metrics of the pruned frame do, tagging them with the symbol |
| Backend.Backtests | backend/main.py:185-190 | the `run_strategy` loop over the requested symbols, one `Step` each; it keeps the store's keys, and `RunStrategy`'s loop is proved equal to it |
| Backend.Step | backend/main.py:187-191 | one iteration keeps the store's keys, skips an unstored symbol or a run already failed, and otherwise replaces the symbol's frame by its pruned version |
| Backend.BacktestsPrefixStep | backend/main.py:186-191 | the loop over one more symbol is one more iteration |
| Backend.BacktestsFailFast | backend/main.py:186-191 | the first failing backtest decides the outcome of the whole run, store included |
| Backend.BacktestsTouchOnlyRequested | backend/main.py:186-191 | frames of symbols the run was not asked for stay as they were |
| Backend.RepeatedSymbolRunsOnPrunedFrame | backend/main.py:98-100 | a symbol requested twice is backtested the second time on the pruned frame, and the store keeps the twice-pruned frame |
| Backend.BacktestSymbols | backend/main.py:186-191 | when the metrics never fail, the results cover exactly the requested symbols present in the store, in request order and with repetitions |
| Backend.InsertKey | backend/main.py:167 | dictionary insertion keeps earlier keys in their places and adds no key but the inserted one |
| Backend.InsertKeyDistinct | backend/main.py:168 | storing keeps the key order free of duplicates, adds the symbol and keeps earlier keys in place |
| Backend.ResultSymbolsAppend | backend/main.py:186-191 | result symbols distribute over concatenation |
| Backend.FormatRows | backend/main.py:142-153 | every row formats, in order, or the error of the first row that fails is raised |
| Backend.Prehash | backend/main.py:66 | the message is timestamp, verb, endpoint and body (empty when absent), each at its own position |
| Backend.OkxHeaders | backend/main.py:64-78 | exactly the five OKX header names, so five entries, with the signature of the prehash and the timestamp |
| Backend.OkxFetchUrl | backend/main.py:134-136 | the candles endpoint, then `?instId=` and the raw symbol, then the fixed `&bar=1m&limit=100` |
| Backend.ExceptionText | backend/main.py:161 | `str(e)`: a KeyError's key between single quotes, an HTTPException's decimal status then `: ` and its detail, any other exception its message |
| Backend.Server.constructor | backend/main.py:59-60 | both stores start empty |
| Backend.CandleRow | backend/main.py:144-151 | the row dictionary has exactly the six OHLCV keys, with the candle's timestamp and close |
| Backend.CandleRows | backend/main.py:142-153 | one row dictionary per candle, in candle order |
| Backend.HasTimestampColumn | backend/main.py:165 | an empty row list never has a timestamp column |
| Backend.CandleRowsHaveTimestamp | backend/main.py:164-165 | rows built from candles have a timestamp column exactly when there is at least one |
| Backend.Server.SaveOhlcv | backend/main.py:163-168 | without a timestamp column a KeyError, with a failing timestamp conversion its error, both storing nothing; otherwise the converted frame is stored under the symbol |
| Backend.Server.UploadOhlcv | backend/main.py:170-175 | an empty list raises KeyError and a failing conversion its error, both storing nothing; otherwise stores the frame and replies with the message and its length |
| Backend.Server.GetSymbols | backend/main.py:177-179 | the store's keys, each once, in insertion order |
| Backend.Server.FetchAndStore | backend/main.py:131-161 | the response is the one for `OkxFetchUrl(symbol)`; every failure is a 500 with the inner exception's text and leaves the store unchanged, an empty data list included; a failing row's error text and a failing conversion's error text are given; a 200 response whose non-empty rows all format and convert succeeds, and success stores the converted rows |
| Backend.Server.RunStrategy | backend/main.py:181-192 | records the session in every case; the store becomes the one Backtests leaves, pruned frames included; the reply is its results when every metric is JSON-compliant, a 500 encoding error when one is not, or the failing backtest's error |

## Left out

- Rendering (JSX, CSS classes, icons as images), `console` output and `alert` calls are
  not modelled. Icons and colours appear as tags.
- react-dnd's internals are not modelled. A drop arrives as the item together with the
  pointer offset and the canvas rectangle, each possibly missing.
- Network I/O is not modelled. Every `fetch` is a `FetchOutcome` parameter: the status
  flag and the parsed body, or a network failure.
- `requests.get` is a parameter `get` from the requested URL to the OKX response.
- `Date.now`, `Math.random`, `uuid4` and `time.time` are parameters.
- HMAC-SHA256 and base64 are a `sign` function parameter.
- `pd.to_datetime` with `set_index` (`toFrame`), the OKX row formatting (`format`),
  `calculate_indicators` with `dropna` (`prune`) and the metrics of `run_backtest`
  (`metrics`) are function parameters. Their floating-point arithmetic is not modelled.
  Whether the JSON encoder accepts a metrics dictionary, that is whether all its numbers
  are finite, is the parameter `compliant`.
- Backend.Server.SaveOhlcv: a frame is a list of candles, so the NaN cells that
  `pd.DataFrame` fills in for rows lacking some key are not represented. Only the missing
  column and the failure of `toFrame` are modelled.
- Backend.RunBacktest: the indicator columns that `calculate_indicators` adds are not
  represented in a frame. `prune` models only the rows `dropna` removes.
- Sidebar.Search: lower-cases the ASCII letters A–Z only. JavaScript's `toLowerCase` also
  lower-cases other Unicode letters, for example the Kelvin sign U+212A. So a search term
  holding such a letter can match in the browser and not in the model. The same limit
  applies to Sidebar.SearchIgnoresCase.
- StrategyBuilder.Builder.Drop: the mount-time capture follows react-dnd's documented
  memoization of a spec function without a dependency list. react-dnd's code is not part
  of this model.
- `new Date(...)` parsing in the summary cards is a parameter. Day differences are `real`.
- The OKX proxy endpoints `get_okx_ohlcv`, `get_okx_account` and `get_okx_symbols` are
  not modelled, apart from the request signing they share (`Backend.OkxHeaders`). They
  only forward a response.
- The backend's WebSocket endpoint is not modelled. It is an endless echo loop with no
  state of its own.
- The Header, App, PerformanceDashboard and DataVisualization components are not part of
  this model. They only display values.
- Strategy edges are not modelled. The type declares them, but no code creates or reads
  them.
- The domain records' `cert_details` fields other than `expiry`, and their `ip` field,
  are not modelled. No computation reads them.
- The cleanup of `useEffect` is modelled as `Disconnect`. React's scheduling of effects
  and re-renders is not modelled.
- SummaryCards.ExpiringAndNoCertDisjoint: requires pairwise distinct domain names. The
  lists hold names, so two records sharing a name could put that name in both lists.
- StrategyBuilder.Builder.UpdateNode: keeps a present selection only for updates that do
  not change the id. The source has no such invariant, and an id-changing update can
  orphan the selection.

## Findings

| source | as written | input that shows it | evidently intended | confidence | as-written member | corrected member |
|---|---|---|---|---|---|---|
| src/components/StrategyCanvas.tsx:38 | the drop handler builds a new node under a fresh id and passes it to `onNodeUpdate`, which only rewrites nodes that already have that id; the handler memoized at mount also maps over the first render's empty list, so the graph is emptied | any drop with a client offset over the canvas, e.g. an EMA dropped next to two existing nodes | the dropped block is appended as a new node at the drop point, the other nodes kept | not executed | StrategyCanvas.DropAsWrittenCreatesNothing | StrategyCanvas.PlaceDroppedAddsOneNode |
