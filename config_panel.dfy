/** The configuration panel: which form a selected node gets, its fields' defaults and choices,
    and which edits write back (src/components/ConfigPanel.tsx). */
module ConfigPanel {
  import opened Wrappers
  import opened StrategyNodes

  /** The forms `renderConfig` can show. */
  datatype Form = EmaForm | RsiForm | OrderForm | NoConfiguration

  /** What the panel shows: the prompt when nothing is selected, else the node's name, type and form. */
  datatype Panel = Placeholder | Editor(name: string, nodeType: string, form: Form)

  /** `switch (selectedNode.name)`: Buy Order and Sell Order share one form. */
  function FormFor(name: string): (f: Form)
    ensures f == EmaForm <==> name == "EMA"
    ensures f == RsiForm <==> name == "RSI"
    ensures f == OrderForm <==> name == "Buy Order" || name == "Sell Order"
  {
    match name
    case "EMA" => EmaForm
    case "RSI" => RsiForm
    case "Buy Order" => OrderForm
    case "Sell Order" => OrderForm
    case _ => NoConfiguration
  }

  function Render(selected: Option<StrategyNode>): (p: Panel)
    ensures p.Placeholder? <==> selected.None?
    ensures selected.Some? ==> p.form == FormFor(selected.value.name)
  {
    match selected
    case None => Placeholder
    case Some(n) => Editor(n.name, n.nodeType, FormFor(n.name))
  }

  /** The form depends on the name alone: two nodes with one name get the same form whatever
      their types, ids or configs. */
  lemma FormIgnoresType(a: StrategyNode, b: StrategyNode)
    requires a.name == b.name
    ensures Render(Some(a)).form == Render(Some(b)).form
  {
  }

  /** The inputs the forms contain. */
  datatype Field = EmaPeriod | EmaSource | RsiPeriod | OverboughtLevel | OversoldLevel | OrderType | Quantity

  /** How a field is drawn: a number input with its default and bounds, or a choice list. */
  datatype Control =
    | NumberInput(caption: string, initial: int, min: Option<int>, max: Option<int>)
    | Choice(caption: string, options: seq<string>)

  function Fields(f: Form): (fs: seq<Field>)
    ensures forall i, j :: 0 <= i < j < |fs| ==> fs[i] != fs[j]
    ensures fs == [] <==> f == NoConfiguration
  {
    match f
    case EmaForm => [EmaPeriod, EmaSource]
    case RsiForm => [RsiPeriod, OverboughtLevel, OversoldLevel]
    case OrderForm => [OrderType, Quantity]
    case NoConfiguration => []
  }

  function ControlOf(field: Field): Control {
    match field
    case EmaPeriod => NumberInput("Period", 20, None, None)
    case EmaSource => Choice("Source", ["close", "open", "high", "low"])
    case RsiPeriod => NumberInput("Period", 14, None, None)
    case OverboughtLevel => NumberInput("Overbought Level", 70, None, None)
    case OversoldLevel => NumberInput("Oversold Level", 30, None, None)
    case OrderType => Choice("Order Type", ["market", "limit", "stop"])
    case Quantity => NumberInput("Quantity (%)", 100, Some(1), Some(100))
  }

  /** Defaults lie within their bounds; a name without a form shows no fields. */
  lemma FieldDefaults(field: Field)
    ensures ControlOf(field).NumberInput? && ControlOf(field).min.Some? ==>
      ControlOf(field).min.value <= ControlOf(field).initial
    ensures ControlOf(field).NumberInput? && ControlOf(field).max.Some? ==>
      ControlOf(field).initial <= ControlOf(field).max.value
    ensures Fields(NoConfiguration) == []
  {
  }

  /** The config key the EMA period input writes. */
  const PeriodKey := "period"

  /** The `onNodeUpdate` calls an edit of `field` makes. Only the EMA period input has an
      `onChange`; it spreads the selection's own config and sets `period` to the parsed input. */
  function OnChange(selected: StrategyNode, field: Field, parsed: ConfigValue): (calls: seq<UpdateCall>)
    requires field in Fields(FormFor(selected.name))
    ensures |calls| <= 1
    ensures |calls| == 1 <==> field == EmaPeriod
    ensures field == EmaPeriod ==> calls[0].id == selected.id && calls[0].update.config.Some?
    ensures field == EmaPeriod ==> calls[0].update == ConfigUpdate(calls[0].update.config.value)
  {
    if field == EmaPeriod then [UpdateCall(selected.id, ConfigUpdate(selected.config[PeriodKey := parsed]))]
    else []
  }

  /** The written config keeps every key of the snapshot except `period`, which gets the input. */
  lemma PeriodMergeKeepsOtherKeys(selected: StrategyNode, parsed: ConfigValue, key: string)
    requires selected.name == "EMA"
    ensures var c := OnChange(selected, EmaPeriod, parsed)[0].update.config.value;
      && c[PeriodKey] == parsed
      && (key != PeriodKey ==> (key in c <==> key in selected.config))
      && (key != PeriodKey && key in selected.config ==> c[key] == selected.config[key])
  {
  }
}
