/** The node catalog and its draggable entries (src/components/IndicatorPalette.tsx). */
module IndicatorPalette {
  import opened StrategyNodes

  /** The icons the catalog and the node boxes show. */
  datatype Icon = TrendingUp | BarChart3 | Activity | Zap | Target | DollarSign

  datatype CatalogEntry = CatalogEntry(name: string, nodeType: string, icon: Icon, color: string)

  /** What a catalog entry hands on: `onAdd(type, name)` on a click, `{type, name}` as drag item. */
  datatype NodeTemplate = NodeTemplate(nodeType: string, name: string)

  /** A drag source: the react-dnd item type tag and the carried item. */
  datatype DragSource = DragSource(tag: string, item: NodeTemplate)

  /** Every palette entry, whatever its category, drags under this tag. */
  const PaletteDragTag := "indicator"

  const Indicators: seq<CatalogEntry> := [
    CatalogEntry("EMA", Indicator, TrendingUp, "bg-blue-600"),
    CatalogEntry("RSI", Indicator, BarChart3, "bg-purple-600"),
    CatalogEntry("MACD", Indicator, Activity, "bg-green-600"),
    CatalogEntry("Bollinger Bands", Indicator, Zap, "bg-yellow-600")
  ]

  const Conditions: seq<CatalogEntry> := [
    CatalogEntry("Price Above", Condition, TrendingUp, "bg-orange-600"),
    CatalogEntry("Cross Over", Condition, Target, "bg-red-600"),
    CatalogEntry("RSI Overbought", Condition, BarChart3, "bg-pink-600")
  ]

  const Actions: seq<CatalogEntry> := [
    CatalogEntry("Buy Order", Action, DollarSign, "bg-green-600"),
    CatalogEntry("Sell Order", Action, DollarSign, "bg-red-600"),
    CatalogEntry("Stop Loss", Action, Target, "bg-yellow-600")
  ]

  /** The three sections in display order. */
  function Catalog(): seq<CatalogEntry> {
    Indicators + Conditions + Actions
  }

  /** Clicking an entry calls `onAdd(item.type, item.name)`. */
  function ClickArgs(e: CatalogEntry): (t: NodeTemplate)
    ensures t.nodeType == e.nodeType && t.name == e.name
  {
    NodeTemplate(e.nodeType, e.name)
  }

  /** `useDrag({ type: 'indicator', item: { type: item.type, name: item.name } })`. */
  function DragSourceOf(e: CatalogEntry): (d: DragSource)
    ensures d.tag == PaletteDragTag && d.item == ClickArgs(e)
  {
    DragSource(PaletteDragTag, NodeTemplate(e.nodeType, e.name))
  }

  /** Four indicators, three conditions, three actions; each entry's type is its section's. */
  lemma CatalogShape()
    ensures |Indicators| == 4 && |Conditions| == 3 && |Actions| == 3 && |Catalog()| == 10
    ensures forall k :: 0 <= k < |Indicators| ==> Indicators[k].nodeType == Indicator
    ensures forall k :: 0 <= k < |Conditions| ==> Conditions[k].nodeType == Condition
    ensures forall k :: 0 <= k < |Actions| ==> Actions[k].nodeType == Action
  {
  }

  /** Entry names are pairwise distinct, so they can serve as React keys. */
  lemma CatalogNamesDistinct()
    ensures forall i, j :: 0 <= i < j < |Catalog()| ==> Catalog()[i].name != Catalog()[j].name
  {
    var c := Catalog();
    assert c == [
      CatalogEntry("EMA", Indicator, TrendingUp, "bg-blue-600"),
      CatalogEntry("RSI", Indicator, BarChart3, "bg-purple-600"),
      CatalogEntry("MACD", Indicator, Activity, "bg-green-600"),
      CatalogEntry("Bollinger Bands", Indicator, Zap, "bg-yellow-600"),
      CatalogEntry("Price Above", Condition, TrendingUp, "bg-orange-600"),
      CatalogEntry("Cross Over", Condition, Target, "bg-red-600"),
      CatalogEntry("RSI Overbought", Condition, BarChart3, "bg-pink-600"),
      CatalogEntry("Buy Order", Action, DollarSign, "bg-green-600"),
      CatalogEntry("Sell Order", Action, DollarSign, "bg-red-600"),
      CatalogEntry("Stop Loss", Action, Target, "bg-yellow-600")
    ];
  }

  /** The only catalog entries of type indicator are EMA, RSI, MACD and Bollinger Bands. */
  lemma IndicatorEntries(e: CatalogEntry)
    requires e in Catalog()
    ensures e.nodeType == Indicator <==> e.name in ["EMA", "RSI", "MACD", "Bollinger Bands"]
  {
  }

  /** Palette entries of every section drag under the same tag and carry exactly (type, name). */
  lemma DragPayloads(e: CatalogEntry)
    requires e in Catalog()
    ensures DragSourceOf(e).tag == "indicator"
    ensures DragSourceOf(e).item == NodeTemplate(e.nodeType, e.name)
  {
  }
}
