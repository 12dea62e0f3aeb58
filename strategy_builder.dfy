/** The strategy builder's component state and its handlers (src/components/StrategyBuilder.tsx):
    the graph store, the selection copy, the config-panel toggle, and the busy flags of a
    strategy run and of an OHLCV upload. React's asynchronous handlers are split at their
    `await`: one method for what happens before the request, one for its completion. */
module StrategyBuilder {
  import opened Wrappers
  import opened Protocol
  import opened StrategyNodes
  import opened IndicatorPalette
  import opened StrategyCanvas
  import opened ConfigPanel

  const RunFailedMessage := "Failed to run strategy"

  /** `{ error: 'Failed to run strategy' }`. */
  function RunFailure(): Json {
    JObject(map["error" := JString(RunFailedMessage)])
  }

  /** What `runStrategy` stores: any parsed body, whatever the HTTP status; the error object when
      the request or `response.json()` throws. */
  function RunResult(outcome: FetchOutcome<Json>): (r: Json)
    ensures outcome.Received? && outcome.body.Some? ==> r == outcome.body.value
    ensures outcome.NetworkFailure? || outcome.body.None? ==> r == RunFailure()
  {
    match outcome
    case Received(_, Some(body)) => body
    case _ => RunFailure()
  }

  /** There is no status check: an error status with a parsed body stores that body as the result. */
  lemma RunResultIgnoresStatus(body: Json)
    ensures RunResult(Received(false, Some(body))) == RunResult(Received(true, Some(body))) == body
  {
  }

  /** Every node's (type, name) pair is that of some catalog entry. */
  ghost predicate FromCatalog(nodes: seq<StrategyNode>) {
    forall k :: 0 <= k < |nodes| ==>
      exists e :: e in Catalog() && e.nodeType == nodes[k].nodeType && e.name == nodes[k].name
  }

  /** For a graph built from the catalog, the payload's indicator names are among the four
      catalog indicators. */
  lemma CatalogGraphIndicators(symbols: seq<string>, nodes: seq<StrategyNode>)
    requires FromCatalog(nodes)
    ensures forall k :: 0 <= k < |BuildPayload(symbols, nodes).indicators| ==>
      BuildPayload(symbols, nodes).indicators[k] in ["EMA", "RSI", "MACD", "Bollinger Bands"]
  {
    var ind := BuildPayload(symbols, nodes).indicators;
    forall k | 0 <= k < |ind|
      ensures ind[k] in ["EMA", "RSI", "MACD", "Bollinger Bands"]
    {
      var n :| n in nodes && n.nodeType == Indicator && n.name == ind[k];
      var j :| 0 <= j < |nodes| && nodes[j] == n;
      var e :| e in Catalog() && e.nodeType == nodes[j].nodeType && e.name == nodes[j].name;
      IndicatorEntries(e);
    }
  }

  class Builder {
    var nodes: seq<StrategyNode>
    var selected: Option<StrategyNode>
    var showConfig: bool
    var isRunning: bool
    var strategyResult: Json
    var isUploading: bool

    /** The selection is empty or has the id of a node in the graph. */
    ghost predicate SelectionPresent()
      reads this
    {
      selected.None? || exists k :: 0 <= k < |nodes| && nodes[k].id == selected.value.id
    }

    constructor()
      ensures nodes == [] && selected == None && !showConfig
      ensures !isRunning && strategyResult == JNull && !isUploading
      ensures SelectionPresent()
    {
      nodes := [];
      selected := None;
      showConfig := false;
      isRunning := false;
      strategyResult := JNull;
      isUploading := false;
    }

    /** The run button: disabled while running or with an empty graph. */
    function RunButtonEnabled(): (enabled: bool)
      reads this
      ensures enabled ==> !isRunning && nodes != []
      ensures !isRunning && nodes != [] ==> enabled
    {
      RunEnabled(isRunning, nodes)
    }

    /** The upload button: disabled while an upload is in flight. */
    function UploadButtonEnabled(): (enabled: bool)
      reads this
      ensures enabled <==> !isUploading
    {
      !isUploading
    }

    /** `addNode`: appends one node with an empty config, a type-and-time id and a random position
        inside 400 x 300; the earlier nodes stay as they were. */
    method AddNode(nodeType: string, name: string, now: nat, rx: real, ry: real)
      requires 0.0 <= rx < 1.0 && 0.0 <= ry < 1.0
      modifies this`nodes
      ensures nodes == old(nodes) + [MakeNode(nodeType, name, now, RandomPosition(rx, ry))]
      ensures old(SelectionPresent()) ==> SelectionPresent()
    {
      nodes := nodes + [MakeNode(nodeType, name, now, RandomPosition(rx, ry))];
      assert forall k :: 0 <= k < |old(nodes)| ==> nodes[k] == old(nodes)[k];
    }

    /** `updateNode`: spreads the update into the nodes with that id. The selection copy is not refreshed. */
    method UpdateNode(id: string, u: NodeUpdate)
      modifies this`nodes
      ensures nodes == UpdateNodes(old(nodes), id, u)
      ensures old(SelectionPresent()) && KeepsId(id, u) ==> SelectionPresent()
    {
      if KeepsId(id, u) {
        UpdateKeepsIds(nodes, id, u);
      }
      nodes := UpdateNodes(nodes, id, u);
    }

    /** `deleteNode`: drops every node with that id and clears the selection if it had that id. */
    method DeleteNode(id: string)
      modifies this`nodes, this`selected
      ensures nodes == DeleteNodes(old(nodes), id)
      ensures selected == SelectionAfterDelete(old(selected), id)
      ensures old(SelectionPresent()) ==> SelectionPresent()
    {
      ghost var before := nodes;
      nodes := DeleteNodes(nodes, id);
      if selected.Some? && selected.value.id == id {
        selected := None;
      } else if selected.Some? && old(SelectionPresent()) {
        var k :| 0 <= k < |before| && before[k].id == selected.value.id;
        assert before[k] in nodes;
      }
    }

    /** `onNodeSelect`: the selection becomes a copy of the clicked node. */
    method SelectNode(node: StrategyNode)
      modifies this`selected
      ensures selected == Some(node)
      ensures node in nodes ==> SelectionPresent()
    {
      selected := Some(node);
    }

    /** The settings button toggles the config panel; its close button hides it. */
    method ToggleConfig()
      modifies this`showConfig
      ensures showConfig == !old(showConfig)
    {
      showConfig := !showConfig;
    }

    method CloseConfig()
      modifies this`showConfig
      ensures !showConfig
    {
      showConfig := false;
    }

    /** A node drag's move: the canvas forwards `{ position }` to `updateNode`. */
    method MoveNode(id: string, position: Position)
      modifies this`nodes
      ensures nodes == UpdateNodes(old(nodes), id, PositionUpdate(position))
      ensures old(SelectionPresent()) ==> SelectionPresent()
    {
      var call := HandleNodeMove(id, position);
      UpdateNode(call.id, call.update);
    }

    /** A palette drop on the canvas, as written: what the drop handler forwards goes to the
        `updateNode` of the first render, which maps over that render's empty node list, so a
        completed drop empties the graph (and leaves the selection pointing at a removed node). */
    method Drop(item: NodeTemplate, offset: Option<ClientPoint>, rect: Option<CanvasRect>, now: nat)
      modifies this`nodes
      ensures nodes == DropEffect(old(nodes), MountNodes, item, offset, rect, now)
      ensures offset.Some? && rect.Some? ==> nodes == []
      ensures offset.None? || rect.None? ==> nodes == old(nodes)
    {
      var call := HandleDrop(item, offset, rect, now);
      if call.Some? {
        nodes := UpdateNodes(MountNodes, call.value.id, call.value.update);
      }
    }

    /** A palette drop as it is evidently meant to behave: one new node at the drop point. */
    method DropAsIntended(item: NodeTemplate, offset: Option<ClientPoint>, rect: Option<CanvasRect>, now: nat)
      modifies this`nodes
      ensures nodes == PlaceDropped(old(nodes), item, offset, rect, now)
      ensures offset.Some? && rect.Some? ==> |nodes| == |old(nodes)| + 1
      ensures old(SelectionPresent()) ==> SelectionPresent()
    {
      if offset.Some? && rect.Some? {
        nodes := nodes + [MakeNode(item.nodeType, item.name, now, DropPosition(offset.value, rect.value))];
        assert forall k :: 0 <= k < |old(nodes)| ==> nodes[k] == old(nodes)[k];
      }
    }

    /** An edit in the config panel for the selected node. The EMA period edit writes the
        selection snapshot's config with `period` set, whatever the live node's config is. */
    method EditField(field: Field, parsed: ConfigValue)
      requires showConfig && selected.Some? && field in Fields(FormFor(selected.value.name))
      modifies this`nodes
      ensures field == EmaPeriod ==>
        nodes == UpdateNodes(old(nodes), selected.value.id, ConfigUpdate(selected.value.config[PeriodKey := parsed]))
      ensures field != EmaPeriod ==> nodes == old(nodes)
      ensures old(SelectionPresent()) ==> SelectionPresent()
    {
      var calls := OnChange(selected.value, field, parsed);
      if |calls| == 1 {
        UpdateNode(calls[0].id, calls[0].update);
      }
    }

    /** `runStrategy` up to its `await`: raises the busy flag and builds the request body. */
    method StartRun(symbols: seq<string>) returns (payload: StrategyConfig)
      modifies this`isRunning
      ensures isRunning && payload == BuildPayload(symbols, nodes)
      ensures !RunButtonEnabled()
    {
      isRunning := true;
      payload := BuildPayload(symbols, nodes);
    }

    /** The completion of `runStrategy`, on success and failure alike: stores the result and
        lowers the busy flag. */
    method FinishRun(outcome: FetchOutcome<Json>)
      modifies this`strategyResult, this`isRunning
      ensures strategyResult == RunResult(outcome) && !isRunning
      ensures RunButtonEnabled() <==> |nodes| != 0
    {
      strategyResult := RunResult(outcome);
      isRunning := false;
    }

    /** `uploadOHLCV` up to its `await`: raises the upload flag and picks the symbol to upload. */
    method StartUpload(symbols: seq<string>) returns (symbol: string)
      modifies this`isUploading
      ensures isUploading && symbol == UploadSymbol(symbols)
      ensures !UploadButtonEnabled()
    {
      isUploading := true;
      symbol := UploadSymbol(symbols);
    }

    /** The `finally` of `uploadOHLCV`: the flag is lowered whatever the outcome. */
    method FinishUpload()
      modifies this`isUploading
      ensures !isUploading && UploadButtonEnabled()
    {
      isUploading := false;
    }
  }

  /** A run whose request fails ends with the error result and a lowered busy flag, so the run
      button is enabled again for a non-empty graph. */
  method FailedRunAllowsRetry(b: Builder, symbols: seq<string>)
    requires |b.nodes| != 0
    modifies b
    ensures b.strategyResult == RunFailure() && !b.isRunning && b.RunButtonEnabled()
    ensures b.nodes == old(b.nodes)
  {
    var payload := b.StartRun(symbols);
    b.FinishRun(NetworkFailure);
  }
}
