/** The graph store's data: `StrategyNode` records and the pure list transforms that the
    builder's handlers hand to React's state setters (src/components/StrategyBuilder.tsx). */
module StrategyNodes {
  import opened Wrappers
  import opened Seqs
  import opened Strings
  import opened Protocol

  /** A canvas point in pixels. */
  datatype Position = Position(x: real, y: real)

  /** A configuration value: the configuration panel stores `parseInt` results, which may be NaN;
      other values (e.g. strings) may arrive through a whole-node update. */
  datatype ConfigValue = Int(value: int) | NaN | Text(text: string)

  type Config = map<string, ConfigValue>

  /** The node categories of the catalog. The record's `type` is a plain string because
      `addNode` casts whatever it is given. */
  const Indicator := "indicator"
  const Condition := "condition"
  const Action := "action"

  datatype StrategyNode = StrategyNode(
    id: string,
    nodeType: string,
    name: string,
    config: Config,
    position: Position)

  /** `Partial<StrategyNode>`: each present field is overwritten by a top-level spread. */
  datatype NodeUpdate = NodeUpdate(
    id: Option<string>,
    nodeType: Option<string>,
    name: Option<string>,
    config: Option<Config>,
    position: Option<Position>)

  /** One call of the `onNodeUpdate(id, updates)` callback. */
  datatype UpdateCall = UpdateCall(id: string, update: NodeUpdate)

  function PositionUpdate(p: Position): NodeUpdate {
    NodeUpdate(None, None, None, None, Some(p))
  }

  function ConfigUpdate(c: Config): NodeUpdate {
    NodeUpdate(None, None, None, Some(c), None)
  }

  /** An update carrying every field of `n` (the drop handler passes a whole node). */
  function FullUpdate(n: StrategyNode): NodeUpdate {
    NodeUpdate(Some(n.id), Some(n.nodeType), Some(n.name), Some(n.config), Some(n.position))
  }

  /** The id a node gets: its type, a dash, and the creation time in milliseconds. */
  function NodeId(nodeType: string, now: nat): (id: string)
    ensures |id| > |nodeType| + 1 && id[..|nodeType|] == nodeType && id[|nodeType|] == '-'
    ensures forall k :: |nodeType| < k < |id| ==> IsDigit(id[k])
  {
    nodeType + "-" + NatToString(now)
  }

  /** Ids built from different (type, time) pairs differ, provided the types contain no dash. */
  lemma NodeIdInjective(t1: string, n1: nat, t2: string, n2: nat)
    requires '-' !in t1 && '-' !in t2
    requires NodeId(t1, n1) == NodeId(t2, n2)
    ensures t1 == t2 && n1 == n2
  {
    var s := NodeId(t1, n1);
    assert s == t1 + "-" + NatToString(n1);
    assert s == t2 + "-" + NatToString(n2);
    FirstDash(t1, NatToString(n1));
    FirstDash(t2, NatToString(n2));
    assert t1 == s[..|t1|] == t2;
    assert NatToString(n1) == s[|t1| + 1..] == NatToString(n2);
    NatToStringInjective(n1, n2);
  }

  /** In a dash-free type followed by a dash, the first dash is the one after the type. */
  lemma FirstDash(t: string, rest: string)
    requires '-' !in t
    ensures IndexOfFrom(t + "-" + rest, "-", 0) == Some(|t|)
  {
    var s := t + "-" + rest;
    assert OccursAt(s, "-", |t|) by { assert s[|t|..|t| + 1] == "-"; }
    forall j: nat | j < |t|
      ensures !OccursAt(s, "-", j)
    {
      assert s[j..j + 1] == [t[j]];
    }
  }

  /** Two nodes of one type created in the same millisecond get the same id. */
  lemma NodeIdCollidesWithinMillisecond(t: string, now: nat, name1: string, name2: string, p1: Position, p2: Position)
    ensures MakeNode(t, name1, now, p1).id == MakeNode(t, name2, now, p2).id
  {
  }

  /** A freshly built node: empty config, id from type and time. */
  function MakeNode(nodeType: string, name: string, now: nat, position: Position): (n: StrategyNode)
    ensures n.id == NodeId(nodeType, now) && n.config == map[]
  {
    StrategyNode(NodeId(nodeType, now), nodeType, name, map[], position)
  }

  /** `{ x: Math.random() * 400, y: Math.random() * 300 }`, the two random draws given as `rx`, `ry`. */
  function RandomPosition(rx: real, ry: real): (p: Position)
    requires 0.0 <= rx < 1.0 && 0.0 <= ry < 1.0
    ensures 0.0 <= p.x < 400.0 && 0.0 <= p.y < 300.0
  {
    Position(rx * 400.0, ry * 300.0)
  }

  /** `{ ...node, ...updates }`. */
  function Merge(node: StrategyNode, u: NodeUpdate): (m: StrategyNode)
    ensures u == NodeUpdate(None, None, None, None, None) ==> m == node
    ensures u.id.Some? && u.nodeType.Some? && u.name.Some? && u.config.Some? && u.position.Some? ==>
      m == StrategyNode(u.id.value, u.nodeType.value, u.name.value, u.config.value, u.position.value)
  {
    StrategyNode(
      u.id.GetOr(node.id),
      u.nodeType.GetOr(node.nodeType),
      u.name.GetOr(node.name),
      u.config.GetOr(node.config),
      u.position.GetOr(node.position))
  }

  /** A spread overwrites exactly the fields present in the update; a present `config`
      replaces the old one wholesale, whatever keys the old one had. */
  lemma MergeOverwritesPresentFields(node: StrategyNode, u: NodeUpdate)
    ensures var m := Merge(node, u);
      && (u.id.Some? ==> m.id == u.id.value) && (u.id.None? ==> m.id == node.id)
      && (u.nodeType.Some? ==> m.nodeType == u.nodeType.value) && (u.nodeType.None? ==> m.nodeType == node.nodeType)
      && (u.name.Some? ==> m.name == u.name.value) && (u.name.None? ==> m.name == node.name)
      && (u.config.Some? ==> m.config == u.config.value) && (u.config.None? ==> m.config == node.config)
      && (u.position.Some? ==> m.position == u.position.value) && (u.position.None? ==> m.position == node.position)
  {
  }

  /** `nodes.map(node => node.id === id ? { ...node, ...updates } : node)`. */
  function UpdateNodes(nodes: seq<StrategyNode>, id: string, u: NodeUpdate): (r: seq<StrategyNode>)
    ensures |r| == |nodes|
    ensures forall k :: 0 <= k < |nodes| && nodes[k].id == id ==> r[k] == Merge(nodes[k], u)
    ensures forall k :: 0 <= k < |nodes| && nodes[k].id != id ==> r[k] == nodes[k]
  {
    if nodes == [] then []
    else [if nodes[0].id == id then Merge(nodes[0], u) else nodes[0]] + UpdateNodes(nodes[1..], id, u)
  }

  /** An update naming an id that no node has leaves the list as it was. */
  lemma UpdateAbsentIdIsNoOp(nodes: seq<StrategyNode>, id: string, u: NodeUpdate)
    requires forall k :: 0 <= k < |nodes| ==> nodes[k].id != id
    ensures UpdateNodes(nodes, id, u) == nodes
  {
  }

  /** The update does not change an id unless it carries a different one. */
  predicate KeepsId(id: string, u: NodeUpdate) {
    u.id.None? || u.id.value == id
  }

  /** An update that keeps ids keeps every node's id in place. */
  lemma UpdateKeepsIds(nodes: seq<StrategyNode>, id: string, u: NodeUpdate)
    requires KeepsId(id, u)
    ensures forall k :: 0 <= k < |nodes| ==> UpdateNodes(nodes, id, u)[k].id == nodes[k].id
  {
  }

  /** The update replaces `config` of a matching node: keys of the old config are not kept
      (here the `source` key disappears when only `period` is given). */
  lemma UpdateReplacesConfig(n: StrategyNode)
    requires n.config == map["source" := Text("close")]
    ensures var r := UpdateNodes([n], n.id, ConfigUpdate(map["period" := Int(25)]));
      r[0].config == map["period" := Int(25)] && "source" !in r[0].config
  {
  }

  /** `nodes.filter(node => node.id !== id)`. */
  function DeleteNodes(nodes: seq<StrategyNode>, id: string): (r: seq<StrategyNode>)
    ensures forall k :: 0 <= k < |r| ==> r[k].id != id && r[k] in nodes
    ensures forall k :: 0 <= k < |nodes| && nodes[k].id != id ==> nodes[k] in r
  {
    Filter(nodes, (n: StrategyNode) => n.id != id)
  }

  /** Deleting keeps the surviving nodes in order: it distributes over concatenation. */
  lemma DeleteKeepsOrder(a: seq<StrategyNode>, b: seq<StrategyNode>, id: string)
    ensures DeleteNodes(a + b, id) == DeleteNodes(a, id) + DeleteNodes(b, id)
  {
    FilterAppend(a, b, (n: StrategyNode) => n.id != id);
  }

  /** Deleting an id that no node has changes nothing. */
  lemma DeleteAbsentIdIsNoOp(nodes: seq<StrategyNode>, id: string)
    requires forall k :: 0 <= k < |nodes| ==> nodes[k].id != id
    ensures DeleteNodes(nodes, id) == nodes
  {
    FilterKeepsAll(nodes, (n: StrategyNode) => n.id != id);
  }

  /** The selection after `deleteNode(id)`: cleared when the selected copy has that id. */
  function SelectionAfterDelete(selected: Option<StrategyNode>, id: string): (r: Option<StrategyNode>)
    ensures r.None? <==> selected.None? || selected.value.id == id
    ensures r.Some? ==> r == selected
  {
    if selected.Some? && selected.value.id == id then None else selected
  }

  /** `nodes.filter(n => n.type === 'indicator').map(n => n.name)`. */
  function IndicatorNames(nodes: seq<StrategyNode>): (r: seq<string>)
    ensures |r| <= |nodes|
    ensures forall k :: 0 <= k < |r| ==>
      exists n :: n in nodes && n.nodeType == Indicator && n.name == r[k]
    ensures forall j :: 0 <= j < |nodes| && nodes[j].nodeType == Indicator ==> nodes[j].name in r
  {
    if nodes == [] then []
    else (if nodes[0].nodeType == Indicator then [nodes[0].name] else []) + IndicatorNames(nodes[1..])
  }

  /** The names follow node order: the list of a concatenation is the concatenation of the lists. */
  lemma {:induction false} IndicatorNamesAppend(a: seq<StrategyNode>, b: seq<StrategyNode>)
    ensures IndicatorNames(a + b) == IndicatorNames(a) + IndicatorNames(b)
  {
    if a == [] {
      assert a + b == b;
    } else {
      assert (a + b)[0] == a[0];
      assert (a + b)[1..] == a[1..] + b;
      IndicatorNamesAppend(a[1..], b);
    }
  }

  /** The request body `runStrategy` sends. */
  function BuildPayload(symbols: seq<string>, nodes: seq<StrategyNode>): (c: StrategyConfig)
    ensures c.symbols == symbols && |c.indicators| <= |nodes|
    ensures forall k :: 0 <= k < |c.indicators| ==>
      exists n :: n in nodes && n.nodeType == Indicator && n.name == c.indicators[k]
    ensures forall j :: 0 <= j < |nodes| && nodes[j].nodeType == Indicator ==> nodes[j].name in c.indicators
  {
    var names := IndicatorNames(nodes);
    assert forall k :: 0 <= k < |names| ==> exists n :: n in nodes && n.nodeType == Indicator && n.name == names[k];
    StrategyConfig(
      symbols, "spot", "okx", names, "buy_and_hold", "market",
      0.001, 0.001, map["max_drawdown" := 0.2], 1.0)
  }

  /** The payload passes the symbols through, lists the indicator names in node order,
      and fixes every other field. */
  lemma PayloadShape(symbols: seq<string>, nodes: seq<StrategyNode>, node: StrategyNode)
    ensures var c := BuildPayload(symbols, nodes);
      && c.symbols == symbols
      && c.indicators == IndicatorNames(nodes)
      && BuildPayload(symbols, nodes + [node]).indicators
         == c.indicators + (if node.nodeType == Indicator then [node.name] else [])
      && c.marketType == "spot" && c.exchange == "okx" && c.logic == "buy_and_hold"
      && c.orderType == "market" && c.slippage == 0.001 && c.fees == 0.001
      && c.risk == map["max_drawdown" := 0.2] && c.portfolioAllocation == 1.0
  {
    IndicatorNamesAppend(nodes, [node]);
  }

  /** One indicator named EMA, one condition and one action give `indicators == ["EMA"]`. */
  lemma PayloadOfMixedGraph(ema: StrategyNode, cond: StrategyNode, act: StrategyNode, symbols: seq<string>)
    requires ema.nodeType == Indicator && ema.name == "EMA"
    requires cond.nodeType == Condition && act.nodeType == Action
    ensures BuildPayload(symbols, [ema, cond, act]).indicators == ["EMA"]
  {
    assert [ema, cond, act][1..] == [cond, act];
    assert [cond, act][1..] == [act];
    assert [act][1..] == [];
    assert IndicatorNames([act]) == [];
    assert IndicatorNames([cond, act]) == [];
  }

  /** The run button is enabled when nothing is running and the graph is not empty. */
  predicate RunEnabled(isRunning: bool, nodes: seq<StrategyNode>)
    ensures RunEnabled(isRunning, nodes) ==> !isRunning && nodes != []
    ensures !isRunning && nodes != [] ==> RunEnabled(isRunning, nodes)
  {
    !isRunning && |nodes| != 0
  }

  /** `selectedSymbols[0] || 'BTC-USDT'`: an empty first symbol is falsy too. */
  function UploadSymbol(selected: seq<string>): (s: string)
    ensures s != ""
    ensures |selected| == 0 || selected[0] == "" ==> s == "BTC-USDT"
    ensures |selected| > 0 && selected[0] != "" ==> s == selected[0]
  {
    if |selected| > 0 && selected[0] != "" then selected[0] else "BTC-USDT"
  }
}
