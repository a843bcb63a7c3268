/**
 * The purchase-order dashboard chart: stacks that also carry the status name,
 * the tooltip shown when a bar is pressed, and the "Total PO Value" card.
 */
module PurchaseOrderChart {
  import opened Wrappers
  import opened Seqs
  import opened Charts
  import opened StatusTypes

  /** The config object: draft, pending, purchased, cancelled, in that order. */
  const PurchaseOrderConfig: Config := [
    ConfigEntry("draft", "Draft", "#6b7280"),
    ConfigEntry("pending", "Pending", "#f59e0b"),
    ConfigEntry("purchased", "Purchased", "#16a34a"),
    ConfigEntry("cancelled", "Cancelled", "#dc2626")
  ]

  /** The stack keys the chart passes to the transform. */
  const PurchaseOrderKeys: seq<string> := ["draft", "pending", "purchased", "cancelled"]

  /** A bar segment with its value, colour and the status name the tooltip prints. */
  datatype StackItem = StackItem(color: string, value: int, name: string)

  /** A bar: its label and its segments. */
  datatype BarChartGroup = BarChartGroup(caption: string, stacks: seq<StackItem>)

  /** The segments of one row: one per key, in key order, value defaulting to 0, colour and name from the config. */
  function NamedStacks(item: ChartItem, keys: seq<string>, config: Config): (r: seq<StackItem>)
    requires Configured(keys, config)
    ensures |r| == |keys|
    ensures forall k :: 0 <= k < |keys| ==>
      r[k].value == StackValue(item, keys[k]) &&
      r[k].color == Lookup(config, keys[k]).color &&
      r[k].name == Lookup(config, keys[k]).caption
  {
    if keys == [] then []
    else
      var e := Lookup(config, keys[0]);
      [StackItem(e.color, StackValue(item, keys[0]), e.caption)] + NamedStacks(item, keys[1..], config)
  }

  /** This chart's `transformToStackData`: one group per row, in row order, with the row's label. */
  function TransformToStackData(data: seq<ChartItem>, keys: seq<string>, config: Config): (r: seq<BarChartGroup>)
    requires Configured(keys, config)
    ensures |r| == |data|
    ensures forall i :: 0 <= i < |data| ==> r[i].caption == data[i].caption && r[i].stacks == NamedStacks(data[i], keys, config)
  {
    if data == [] then []
    else [BarChartGroup(data[0].caption, NamedStacks(data[0], keys, config))] + TransformToStackData(data[1..], keys, config)
  }

  /** `chartData`: the transform over the purchase-order keys, or the empty list when the chart has no data. */
  function ChartData(data: Option<seq<ChartItem>>): (r: seq<BarChartGroup>)
    ensures data.None? ==> r == []
    ensures data.Some? ==> |r| == |data.value|
    ensures data.Some? ==> forall i :: 0 <= i < |r| ==>
      r[i].caption == data.value[i].caption && |r[i].stacks| == 4 &&
      r[i].stacks[0] == StackItem("#6b7280", StackValue(data.value[i], "draft"), "Draft") &&
      r[i].stacks[1] == StackItem("#f59e0b", StackValue(data.value[i], "pending"), "Pending") &&
      r[i].stacks[2] == StackItem("#16a34a", StackValue(data.value[i], "purchased"), "Purchased") &&
      r[i].stacks[3] == StackItem("#dc2626", StackValue(data.value[i], "cancelled"), "Cancelled")
  {
    assert Configured(PurchaseOrderKeys, PurchaseOrderConfig) by {
      assert PurchaseOrderConfig[0].key == PurchaseOrderKeys[0];
      assert PurchaseOrderConfig[1].key == PurchaseOrderKeys[1];
      assert PurchaseOrderConfig[2].key == PurchaseOrderKeys[2];
      assert PurchaseOrderConfig[3].key == PurchaseOrderKeys[3];
    }
    match data
    case None => []
    case Some(rows) => TransformToStackData(rows, PurchaseOrderKeys, PurchaseOrderConfig)
  }

  /** The chart card: the loading text, the bars with the purchase-order legend, or "No data available" when the rows are missing or empty. */
  function ChartCard(isLoading: bool, data: Option<seq<ChartItem>>): (r: ChartPanel<BarChartGroup>)
    ensures r.LoadingChart? <==> isLoading
    ensures r.NoChartData? <==> !isLoading && (data.None? || |data.value| == 0)
    ensures r.BarsShown? ==> r.bars == ChartData(data) && r.legend == Legend(PurchaseOrderConfig)
    ensures r.BarsShown? ==> |r.legend| == 4 && r.legend[3] == LegendEntry("Cancelled", "#dc2626")
  {
    Panel(isLoading, ChartData(data), PurchaseOrderConfig)
  }

  /**
   * The first three stack keys are the purchase-order statuses in declaration
   * order; the fourth, 'cancelled', is a key the status type does not declare.
   */
  lemma KeysExtendStatusType()
    ensures PurchaseOrderKeys[..3] == [PurchaseOrderName(PurchaseOrderStatus.Draft), PurchaseOrderName(PurchaseOrderStatus.Pending), PurchaseOrderName(Purchased)]
    ensures forall s: PurchaseOrderStatus :: PurchaseOrderName(s) != PurchaseOrderKeys[3]
  {
  }

  /** The tooltip rows: only the segments with a strictly positive value, in segment order. */
  function TooltipRows(stacks: seq<StackItem>): (r: seq<StackItem>)
    ensures forall i :: 0 <= i < |r| ==> r[i].value > 0 && r[i] in stacks
    ensures forall i :: 0 <= i < |stacks| && stacks[i].value > 0 ==> stacks[i] in r
  {
    Filter(stacks, (s: StackItem) => s.value > 0)
  }

  /** Rows keep their relative order: the tooltip of two runs of segments is the two tooltips one after the other. */
  lemma TooltipRowsPreserveOrder(a: seq<StackItem>, b: seq<StackItem>)
    ensures TooltipRows(a + b) == TooltipRows(a) + TooltipRows(b)
  {
    FilterAppend(a, b, (s: StackItem) => s.value > 0);
  }

  /** A bar whose every segment is positive is listed in full; an all-zero bar lists nothing. */
  lemma {:induction false} TooltipRowsExtremes(stacks: seq<StackItem>)
    ensures (forall i :: 0 <= i < |stacks| ==> stacks[i].value > 0) ==> TooltipRows(stacks) == stacks
    ensures (forall i :: 0 <= i < |stacks| ==> stacks[i].value <= 0) ==> TooltipRows(stacks) == []
  {
    if forall i :: 0 <= i < |stacks| ==> stacks[i].value > 0 {
      FilterKeepsAll(stacks, (s: StackItem) => s.value > 0);
    }
    if forall i :: 0 <= i < |stacks| ==> stacks[i].value <= 0 {
      FilterKeepsNone(stacks, (s: StackItem) => s.value > 0);
    }
  }

  /** The event's x coordinate, or 40 pixels per bar index when the event has none. */
  function TooltipX(index: int, x: Option<int>): int {
    x.GetOr(index * 40)
  }

  /** The event's y coordinate, or 60 when the event has none. */
  function TooltipY(y: Option<int>): int {
    y.GetOr(60)
  }

  /** The tooltip state of the chart: `onBarPress` and the timer's hide. */
  class Tooltip {
    var visible: bool
    var x: int
    var y: int
    var caption: string
    var stacks: seq<StackItem>

    constructor ()
      ensures !visible && x == 0 && y == 0 && caption == "" && stacks == []
    {
      visible, x, y, caption, stacks := false, 0, 0, "", [];
    }

    /** Pressing a bar shows its label and segments at the event point, or at the fallback point. */
    method OnBarPress(item: BarChartGroup, index: int, eventX: Option<int>, eventY: Option<int>)
      modifies this
      ensures visible && caption == item.caption && stacks == item.stacks
      ensures x == (if eventX.Some? then eventX.value else index * 40)
      ensures y == (if eventY.Some? then eventY.value else 60)
    {
      visible := true;
      x := TooltipX(index, eventX);
      y := TooltipY(eventY);
      caption := item.caption;
      stacks := item.stacks;
    }

    /** What the three-second timer does: the tooltip is hidden, everything else kept. */
    method Hide()
      modifies this
      ensures !visible
      ensures x == old(x) && y == old(y) && caption == old(caption) && stacks == old(stacks)
    {
      visible := false;
    }

    /** The rows the visible tooltip lists. */
    function Rows(): (r: seq<StackItem>)
      reads this
      ensures !visible ==> r == []
      ensures visible ==> r == TooltipRows(stacks)
      ensures visible ==> forall i :: 0 <= i < |r| ==> r[i].value > 0 && r[i] in stacks
      ensures visible ==> forall s :: s in stacks && s.value > 0 ==> s in r
    {
      if visible then TooltipRows(stacks) else []
    }
  }

  /** The "Total PO Value" card shows the purchase-order expense entry, or "No expense data available". */
  function TotalValueCard(expenseData: Option<ExpenseItem>): (r: ExpenseCard)
    ensures r.NoExpenseData? <==> expenseData.None?
    ensures expenseData.Some? ==> r.amount == expenseData.value.currentTotal
    ensures expenseData.Some? ==> (r.wording == "increase" <==> expenseData.value.trend == "up")
  {
    ExpenseCardFor(expenseData)
  }
}
