/** The canvas: the drop handler, the node-move forwarding and the render predicates
    (src/components/StrategyCanvas.tsx). */
module StrategyCanvas {
  import opened Wrappers
  import opened StrategyNodes
  import opened IndicatorPalette

  /** A pointer position in client (viewport) coordinates. */
  datatype ClientPoint = ClientPoint(x: real, y: real)

  /** The canvas's bounding rectangle; only its top-left corner matters. */
  datatype CanvasRect = CanvasRect(left: real, top: real)

  /** The only drag type the canvas accepts. */
  const AcceptedTag := "indicator"

  predicate Accepts(tag: string) {
    tag == AcceptedTag
  }

  /** The pointer relative to the canvas's top-left corner. */
  function DropPosition(offset: ClientPoint, rect: CanvasRect): (p: Position)
    ensures p.x + rect.left == offset.x && p.y + rect.top == offset.y
  {
    Position(offset.x - rect.left, offset.y - rect.top)
  }

  /** The drop handler: with both a client offset and a canvas rectangle it builds a whole new
      node under a fresh id and forwards it to `onNodeUpdate(newNode.id, newNode)`; otherwise it
      forwards nothing. It never calls `addNode`. */
  function HandleDrop(item: NodeTemplate, offset: Option<ClientPoint>, rect: Option<CanvasRect>, now: nat)
    : (call: Option<UpdateCall>)
    ensures call.Some? <==> offset.Some? && rect.Some?
    ensures call.Some? ==> call.value.id == NodeId(item.nodeType, now)
    ensures call.Some? ==> call.value.update.position == Some(DropPosition(offset.value, rect.value))
  {
    if offset.Some? && rect.Some? then
      var newNode := MakeNode(item.nodeType, item.name, now, DropPosition(offset.value, rect.value));
      Some(UpdateCall(newNode.id, FullUpdate(newNode)))
    else
      None
  }

  /** The graph after a drop. `useDrop` is given a spec function without a dependency list, so
      react-dnd builds the spec once, at mount, and the handler keeps calling the `onNodeUpdate`
      of the first render. That `updateNode` maps over the node list of that render, `captured`,
      and hands the result to `setNodes`. `live` is the graph when the drop happens, which
      stays as it is only when nothing is forwarded. */
  function DropEffect(live: seq<StrategyNode>, captured: seq<StrategyNode>, item: NodeTemplate,
                      offset: Option<ClientPoint>, rect: Option<CanvasRect>, now: nat): (r: seq<StrategyNode>)
    ensures offset.None? || rect.None? ==> r == live
    ensures offset.Some? && rect.Some? ==> |r| == |captured|
  {
    match HandleDrop(item, offset, rect, now)
    case None => live
    case Some(call) => UpdateNodes(captured, call.id, call.update)
  }

  /** The canvas mounts with the builder, whose first render has no nodes. */
  const MountNodes: seq<StrategyNode> := []

  /** With the handler of the first render, every completed drop empties the graph, whatever
      it held. */
  lemma DropClearsGraph(live: seq<StrategyNode>, item: NodeTemplate, offset: ClientPoint, rect: CanvasRect, now: nat)
    ensures DropEffect(live, MountNodes, item, Some(offset), Some(rect), now) == []
  {
  }

  /** A drop whose fresh id is not taken in the captured list sets the graph to that list. */
  lemma DropYieldsCapturedList(live: seq<StrategyNode>, captured: seq<StrategyNode>, item: NodeTemplate,
                               offset: Option<ClientPoint>, rect: Option<CanvasRect>, now: nat)
    requires offset.Some? && rect.Some?
    requires forall k :: 0 <= k < |captured| ==> captured[k].id != NodeId(item.nodeType, now)
    ensures DropEffect(live, captured, item, offset, rect, now) == captured
  {
    UpdateAbsentIdIsNoOp(captured, NodeId(item.nodeType, now), HandleDrop(item, offset, rect, now).value.update);
  }

  /** When the fresh id collides with a captured node's id, that node is replaced by the dropped
      one wholesale; nothing is appended either way. */
  lemma DropOverwritesCollidingNode(live: seq<StrategyNode>, captured: seq<StrategyNode>, item: NodeTemplate,
                                    offset: ClientPoint, rect: CanvasRect, now: nat, k: nat)
    requires k < |captured| && captured[k].id == NodeId(item.nodeType, now)
    ensures var r := DropEffect(live, captured, item, Some(offset), Some(rect), now);
      |r| == |captured| && r[k] == MakeNode(item.nodeType, item.name, now, DropPosition(offset, rect))
  {
  }

  /** `handleNodeMove`: forwards exactly `{ position }` for the given id. */
  function HandleNodeMove(id: string, position: Position): (call: UpdateCall)
    ensures call.id == id && call.update.position == Some(position)
    ensures call.update.id.None? && call.update.nodeType.None? && call.update.name.None? && call.update.config.None?
  {
    UpdateCall(id, PositionUpdate(position))
  }

  /** A move changes the position of the matching nodes and nothing else about any node. */
  lemma MoveTouchesOnlyPosition(nodes: seq<StrategyNode>, id: string, position: Position)
    ensures var r := UpdateNodes(nodes, HandleNodeMove(id, position).id, HandleNodeMove(id, position).update);
      |r| == |nodes| &&
      forall k :: 0 <= k < |nodes| ==>
        r[k] == (if nodes[k].id == id then nodes[k].(position := position) else nodes[k])
  {
  }

  /** `selectedNode?.id === node.id`: the node box is highlighted when it shares the selected
      node's id, so every node colliding with that id is highlighted too. */
  predicate IsSelected(selected: Option<StrategyNode>, node: StrategyNode)
    ensures IsSelected(selected, node) ==> selected.Some? && selected.value.id == node.id
    ensures selected.Some? && selected.value.id == node.id ==> IsSelected(selected, node)
  {
    selected.Some? && selected.value.id == node.id
  }

  /** After `deleteNode(id)` every surviving node box is highlighted exactly as before: clearing
      the selection only unhighlights nodes that the deletion removed. */
  lemma DeleteKeepsHighlights(nodes: seq<StrategyNode>, selected: Option<StrategyNode>, id: string)
    ensures forall k :: 0 <= k < |DeleteNodes(nodes, id)| ==>
      (IsSelected(SelectionAfterDelete(selected, id), DeleteNodes(nodes, id)[k]) <==>
       IsSelected(selected, DeleteNodes(nodes, id)[k]))
  {
  }

  /** The "Build Your Strategy" message. */
  predicate ShowsEmptyState(nodes: seq<StrategyNode>, isOver: bool)
    ensures ShowsEmptyState(nodes, isOver) ==> nodes == [] && !ShowsDropHint(isOver)
  {
    |nodes| == 0 && !isOver
  }

  /** The "Drop component here" hint. */
  predicate ShowsDropHint(isOver: bool) {
    isOver
  }

  /** The empty-state message and the drop hint never show together. */
  lemma EmptyStateAndHintExclusive(nodes: seq<StrategyNode>, isOver: bool)
    ensures !(ShowsEmptyState(nodes, isOver) && ShowsDropHint(isOver))
  {
  }

  /** Palette drags are accepted; node drags (tag `node`) are not. */
  lemma OnlyPaletteDragsDrop(e: CatalogEntry)
    ensures Accepts(DragSourceOf(e).tag)
    ensures !Accepts("node")
  {
  }

  /** How a drop evidently should behave: append one node, placed at the drop point. */
  function PlaceDropped(nodes: seq<StrategyNode>, item: NodeTemplate, offset: Option<ClientPoint>,
                        rect: Option<CanvasRect>, now: nat): (r: seq<StrategyNode>)
    ensures offset.None? || rect.None? ==> r == nodes
  {
    if offset.Some? && rect.Some? then
      nodes + [MakeNode(item.nodeType, item.name, now, DropPosition(offset.value, rect.value))]
    else
      nodes
  }

  /** The corrected drop adds exactly one node, at the end, whose position is the pointer minus the
      canvas origin, with the item's type and name and an empty configuration. */
  lemma PlaceDroppedAddsOneNode(nodes: seq<StrategyNode>, item: NodeTemplate, offset: ClientPoint,
                                rect: CanvasRect, now: nat)
    ensures var r := PlaceDropped(nodes, item, Some(offset), Some(rect), now);
      && |r| == |nodes| + 1 && r[..|nodes|] == nodes
      && r[|nodes|].position == Position(offset.x - rect.left, offset.y - rect.top)
      && r[|nodes|].nodeType == item.nodeType && r[|nodes|].name == item.name
      && r[|nodes|].config == map[]
  {
  }

  /** The drop as written never adds a node to the list it maps over, and with the handler of
      the first render it leaves an empty graph; the intended one always adds exactly one node. */
  lemma DropAsWrittenCreatesNothing(live: seq<StrategyNode>, captured: seq<StrategyNode>, item: NodeTemplate,
                                    offset: ClientPoint, rect: CanvasRect, now: nat)
    ensures |DropEffect(live, captured, item, Some(offset), Some(rect), now)| == |captured|
    ensures DropEffect(live, MountNodes, item, Some(offset), Some(rect), now) == []
    ensures |PlaceDropped(live, item, Some(offset), Some(rect), now)| == |live| + 1
  {
  }
}
