/** One node box on the canvas: its icon and colour, the press-move-release drag session
    through document listeners, and its buttons (src/components/StrategyNodeComponent.tsx). */
module StrategyNodeComponent {
  import opened Seqs
  import opened Strings
  import opened StrategyNodes
  import opened IndicatorPalette

  /** `getNodeIcon`: a switch on the name with TrendingUp as default. */
  function NodeIcon(name: string): (icon: Icon)
    ensures icon == BarChart3 <==> name == "RSI" || name == "RSI Overbought"
    ensures icon == Activity <==> name == "MACD" || name == "Cross Over"
    ensures icon == TrendingUp || icon == BarChart3 || icon == Activity
  {
    match name
    case "EMA" => TrendingUp
    case "Price Above" => TrendingUp
    case "Buy Order" => TrendingUp
    case "Sell Order" => TrendingUp
    case "RSI" => BarChart3
    case "RSI Overbought" => BarChart3
    case "MACD" => Activity
    case "Cross Over" => Activity
    case _ => TrendingUp
  }

  /** The colour classes of `getNodeColor`, as tags. */
  datatype NodeColor = Blue | Orange | Green | Red | Gray

  /** `getNodeColor`: by type, and for actions by whether the name contains `Buy`. */
  function NodeColorOf(nodeType: string, name: string): (c: NodeColor)
    ensures c == Blue <==> nodeType == Indicator
    ensures c == Orange <==> nodeType == Condition
    ensures c == Green <==> nodeType == Action && Includes(name, "Buy")
    ensures c == Red <==> nodeType == Action && !Includes(name, "Buy")
    ensures c == Gray <==> nodeType !in {Indicator, Condition, Action}
  {
    if nodeType == Indicator then Blue
    else if nodeType == Condition then Orange
    else if nodeType == Action then (if Includes(name, "Buy") then Green else Red)
    else Gray
  }

  /** On the catalog, only Buy Order is green; Sell Order and Stop Loss are red. */
  lemma CatalogActionColors()
    ensures NodeColorOf(Action, "Buy Order") == Green
    ensures NodeColorOf(Action, "Sell Order") == Red
    ensures NodeColorOf(Action, "Stop Loss") == Red
  {
    assert OccursAt("Buy Order", "Buy", 0);
    NoBuyIn("Sell Order");
    NoBuyIn("Stop Loss");
  }

  /** A string without a capital `B` does not contain `Buy`. */
  lemma NoBuyIn(s: string)
    requires 'B' !in s
    ensures !Includes(s, "Buy")
  {
    forall j: nat | j + 3 <= |s|
      ensures !OccursAt(s, "Buy", j)
    {
      assert s[j..j + 3][0] == s[j];
    }
  }

  /** The node drag type; the canvas accepts only the palette's tag. */
  const NodeDragTag := "node"

  /** A document listener attached by one press. `session` stands for the identity of the closures
      that press created, which is what `removeEventListener` matches on. */
  datatype Listener =
    | MouseMoveListener(session: nat, nodeId: string, startX: real, startY: real)
    | MouseUpListener(session: nat)

  /** The listener list without the listeners of one session (what its mouseup handler removes). */
  function Detach(listeners: seq<Listener>, session: nat): (r: seq<Listener>)
    ensures forall k :: 0 <= k < |r| ==> r[k].session != session && r[k] in listeners
    ensures forall k :: 0 <= k < |listeners| && listeners[k].session != session ==> listeners[k] in r
  {
    Filter(listeners, (l: Listener) => l.session != session)
  }

  /** Press then release of a new session restores the listener list: attach and detach are symmetric. */
  lemma PressReleaseRestores(listeners: seq<Listener>, move: Listener, up: Listener, session: nat)
    requires forall k :: 0 <= k < |listeners| ==> listeners[k].session != session
    requires move.session == session && up.session == session
    ensures Detach(listeners + [move, up], session) == listeners
  {
    var keep := (l: Listener) => l.session != session;
    FilterAppend(listeners, [move, up], keep);
    FilterKeepsAll(listeners, keep);
    FilterDropsAll([move, up], keep);
  }

  /** The `onMove(node.id, position)` calls one mousemove event produces, one per attached
      mousemove listener, in attachment order. */
  function MoveCalls(listeners: seq<Listener>, clientX: real, clientY: real): (r: seq<UpdateCall>)
    ensures |r| <= |listeners|
    ensures forall k :: 0 <= k < |r| ==>
      r[k].update.position.Some? && r[k].update == PositionUpdate(r[k].update.position.value)
  {
    if listeners == [] then []
    else
      (match listeners[0]
       case MouseMoveListener(_, id, sx, sy) => [UpdateCall(id, PositionUpdate(Position(clientX - sx, clientY - sy)))]
       case MouseUpListener(_) => [])
      + MoveCalls(listeners[1..], clientX, clientY)
  }

  /** The position a move computes is the position at press plus the pointer's displacement. */
  lemma MoveIsDisplacement(pos: Position, pressX: real, pressY: real, clientX: real, clientY: real, id: string)
    ensures MoveCalls([MouseMoveListener(0, id, pressX - pos.x, pressY - pos.y), MouseUpListener(0)], clientX, clientY)
         == [UpdateCall(id, PositionUpdate(Position(pos.x + (clientX - pressX), pos.y + (clientY - pressY))))]
  {
    var ls := [MouseMoveListener(0, id, pressX - pos.x, pressY - pos.y), MouseUpListener(0)];
    assert ls[1..] == [MouseUpListener(0)];
    assert ls[1..][1..] == [];
  }

  /** The node list after a series of move samples of one session, applied in delivery order. */
  function ApplyMoves(nodes: seq<StrategyNode>, id: string, startX: real, startY: real,
                      samples: seq<(real, real)>): (r: seq<StrategyNode>)
    ensures |r| == |nodes|
    ensures forall k :: 0 <= k < |nodes| ==> r[k].id == nodes[k].id && r[k].config == nodes[k].config
    decreases |samples|
  {
    if samples == [] then nodes
    else
      var last := samples[|samples| - 1];
      UpdateNodes(ApplyMoves(nodes, id, startX, startY, samples[..|samples| - 1]), id,
                  PositionUpdate(Position(last.0 - startX, last.1 - startY)))
  }

  /** After any non-empty series of moves the dragged node sits where the last sample puts it, and
      its id, type, name and config are those it had; every other node is untouched. */
  lemma {:induction false} DragEndsAtLastSample(nodes: seq<StrategyNode>, id: string, startX: real, startY: real,
                                                samples: seq<(real, real)>)
    requires |samples| > 0
    ensures var r := ApplyMoves(nodes, id, startX, startY, samples);
      var last := samples[|samples| - 1];
      |r| == |nodes| &&
      forall k :: 0 <= k < |nodes| ==>
        r[k] == (if nodes[k].id == id then nodes[k].(position := Position(last.0 - startX, last.1 - startY))
                 else nodes[k])
  {
    var init := samples[..|samples| - 1];
    if |init| > 0 {
      DragEndsAtLastSample(nodes, id, startX, startY, init);
    }
  }

  /** The browser document's listener registry. */
  class Document {
    var listeners: seq<Listener>

    constructor()
      ensures listeners == []
    {
      listeners := [];
    }
  }

  /** A rendered node box: the node props it was rendered with and its `isDragging` state. */
  class NodeBox {
    const doc: Document
    const node: StrategyNode
    var isDragging: bool

    constructor(doc: Document, node: StrategyNode)
      ensures this.doc == doc && this.node == node && !isDragging
    {
      this.doc := doc;
      this.node := node;
      isDragging := false;
    }

    /** `handleMouseDown`: records the press offset and attaches one mousemove and one mouseup listener. */
    method MouseDown(clientX: real, clientY: real, session: nat)
      requires forall k :: 0 <= k < |doc.listeners| ==> doc.listeners[k].session != session
      modifies this`isDragging, doc
      ensures doc.listeners == old(doc.listeners) + [
        MouseMoveListener(session, node.id, clientX - node.position.x, clientY - node.position.y),
        MouseUpListener(session)]
      ensures isDragging
    {
      var startX := clientX - node.position.x;
      var startY := clientY - node.position.y;
      doc.listeners := doc.listeners + [MouseMoveListener(session, node.id, startX, startY)];
      doc.listeners := doc.listeners + [MouseUpListener(session)];
      isDragging := true;
    }

    /** The press's `handleMouseUp`: removes both listeners of that press and ends dragging. */
    method MouseUp(session: nat)
      modifies this`isDragging, doc
      ensures doc.listeners == Detach(old(doc.listeners), session)
      ensures !isDragging
    {
      doc.listeners := Detach(doc.listeners, session);
      isDragging := false;
    }

    /** The raised stacking level applies while dragging only. */
    function ZIndex(): (z: nat)
      reads this
      ensures z == 50 <==> isDragging
      ensures z == 10 <==> !isDragging
    {
      if isDragging then 50 else 10
    }
  }

  /** Where a click lands on the node box. */
  datatype ClickTarget = Body | SettingsButton | DeleteButton

  /** The component callbacks a click can reach. */
  datatype NodeCallback = Select | Delete

  /** The button's own handler: delete calls `onDelete`, settings does nothing. */
  function OwnHandler(t: ClickTarget): seq<NodeCallback> {
    match t
    case Body => []
    case SettingsButton => []
    case DeleteButton => [Delete]
  }

  /** Both buttons call `stopPropagation`. */
  predicate StopsPropagation(t: ClickTarget) {
    t != Body
  }

  /** The callbacks a click runs: its own handler, then the box's `onClick={onSelect}` unless stopped. */
  function ClickCallbacks(t: ClickTarget): (r: seq<NodeCallback>)
    ensures Select in r <==> t == Body
    ensures Delete in r <==> t == DeleteButton
    ensures t == SettingsButton ==> r == []
  {
    OwnHandler(t) + (if StopsPropagation(t) then [] else [Select])
  }
}
