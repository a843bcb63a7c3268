/**
 * The profit line chart, the "Total Profit" card and the top-items list with
 * its quantity/price order-by filter.
 */
module ProfitTopItemsChart {
  import opened Wrappers
  import opened Charts

  /** One point of the profit series as the API sends it: its label, a total and the sum and count of its data. */
  datatype ProfitLossChartItem = ProfitLossChartItem(caption: string, total: int, sum: int, count: int)

  /** The profit section of the statistics response; its chart list may be missing. */
  datatype ProfitLossData = ProfitLossData(charts: Option<seq<ProfitLossChartItem>>, totalExpenses: Option<ExpenseItem>)

  /** A point handed to the line chart. */
  datatype ProfitPoint = ProfitPoint(value: int, caption: string, dataPointText: string)

  function ProfitPoints(charts: seq<ProfitLossChartItem>): (r: seq<ProfitPoint>)
    ensures |r| == |charts|
    ensures forall i :: 0 <= i < |charts| ==> r[i] == ProfitPoint(charts[i].sum, charts[i].caption, "")
  {
    if charts == [] then [] else [ProfitPoint(charts[0].sum, charts[0].caption, "")] + ProfitPoints(charts[1..])
  }

  /** `profitChartData`: one point per chart entry, in order, valued at the entry's sum; empty when anything is absent. */
  function ProfitChartData(profitData: Option<ProfitLossData>): (r: seq<ProfitPoint>)
    ensures (profitData.None? || profitData.value.charts.None?) ==> r == []
    ensures profitData.Some? && profitData.value.charts.Some? ==>
      var charts := profitData.value.charts.value;
      |r| == |charts| && forall i :: 0 <= i < |r| ==> r[i].value == charts[i].sum && r[i].caption == charts[i].caption
  {
    if profitData.Some? && profitData.value.charts.Some? then ProfitPoints(profitData.value.charts.value) else []
  }

  /** The profit card: "Loading..." while loading, the line chart (no legend), or "No data available" when there are no points. */
  function ProfitCard(isLoading: bool, profitData: Option<ProfitLossData>): (r: ChartPanel<ProfitPoint>)
    ensures r.LoadingChart? <==> isLoading
    ensures r.NoChartData? <==>
      !isLoading && (profitData.None? || profitData.value.charts.None? || |profitData.value.charts.value| == 0)
    ensures r.BarsShown? ==> r.bars == ProfitChartData(profitData) && r.legend == []
  {
    Panel(isLoading, ProfitChartData(profitData), [])
  }

  /** The profit series distributes over concatenation: points come out in the order their entries came in. */
  lemma {:induction false} ProfitPointsAppend(a: seq<ProfitLossChartItem>, b: seq<ProfitLossChartItem>)
    ensures ProfitPoints(a + b) == ProfitPoints(a) + ProfitPoints(b)
  {
    if a == [] {
      assert a + b == b;
    } else {
      assert (a + b)[1..] == a[1..] + b;
      ProfitPointsAppend(a[1..], b);
    }
  }

  /** The "Total Profit" card: the profit entry's total and trend, or "No profit data available". */
  function TotalProfitCard(profitData: Option<ProfitLossData>): (r: ExpenseCard)
    ensures r.NoExpenseData? <==> profitData.None? || profitData.value.totalExpenses.None?
    ensures r.ExpenseShown? ==>
      r.amount == profitData.value.totalExpenses.value.currentTotal &&
      (r.wording == "increase" <==> profitData.value.totalExpenses.value.trend == "up") &&
      (r.wording == "decrease" <==> profitData.value.totalExpenses.value.trend != "up")
  {
    var totalExpense := if profitData.Some? then profitData.value.totalExpenses else None;
    ExpenseCardFor(totalExpense)
  }

  /** A top item of the quotation report. */
  datatype TopItem = TopItem(itemCode: string, itemName: string, quantity: int, totalPrice: int, picture: Option<string>)

  /** A listed top item with the rank printed beside it. */
  datatype RankedItem = RankedItem(rank: nat, item: TopItem)

  /** The list shows at most this many items. */
  const TopItemsShown := 5

  /** Ranks `items` consecutively, the first getting rank `first`. */
  function RankFrom(items: seq<TopItem>, first: nat): (r: seq<RankedItem>)
    ensures |r| == |items|
    ensures forall i :: 0 <= i < |items| ==> r[i] == RankedItem(first + i, items[i])
  {
    if items == [] then [] else [RankedItem(first, items[0])] + RankFrom(items[1..], first + 1)
  }

  /** What the top-items panel shows. */
  datatype TopItemsPanel = LoadingTopItems | TopItemsList(rows: seq<RankedItem>) | NoTopItems

  /**
   * The top-items panel: the loading text while loading; otherwise the first five
   * items in the order given, the item at position i ranked i + 1; or "No top
   * items found" when there are none.
   */
  function TopItemsView(topItemsLoading: bool, topItemsData: Option<seq<TopItem>>): (r: TopItemsPanel)
    ensures r.LoadingTopItems? <==> topItemsLoading
    ensures r.NoTopItems? <==> !topItemsLoading && (topItemsData.None? || |topItemsData.value| == 0)
    ensures r.TopItemsList? ==>
      var items := topItemsData.value;
      0 < |r.rows| <= TopItemsShown && |r.rows| == (if |items| < TopItemsShown then |items| else TopItemsShown) &&
      forall i :: 0 <= i < |r.rows| ==> r.rows[i].rank == i + 1 && r.rows[i].item == items[i]
  {
    if topItemsLoading then LoadingTopItems
    else if topItemsData.Some? && |topItemsData.value| > 0 then
      var items := topItemsData.value;
      TopItemsList(RankFrom(items[..if |items| < TopItemsShown then |items| else TopItemsShown], 1))
    else NoTopItems
  }

  /** The order-by a chart gets when its parent passes none. */
  const DefaultOrderBy := "total_price"

  /** The `topItemsOrderBy` prop after its default is applied. */
  function EffectiveOrderBy(topItemsOrderBy: Option<string>): string {
    topItemsOrderBy.GetOr(DefaultOrderBy)
  }

  /** A filter button: its text, the value it reports when pressed, and whether it is highlighted. */
  datatype FilterButton = FilterButton(text: string, value: string, active: bool)

  /** The Qty and Price buttons; a button is highlighted exactly when its value is the current order-by. */
  function FilterButtons(orderBy: string): (r: seq<FilterButton>)
    ensures |r| == 2
    ensures r[0].text == "Qty" && r[0].value == "quantity" && r[1].text == "Price" && r[1].value == "total_price"
    ensures forall i :: 0 <= i < 2 ==> (r[i].active <==> r[i].value == orderBy)
  {
    [FilterButton("Qty", "quantity", orderBy == "quantity"), FilterButton("Price", "total_price", orderBy == "total_price")]
  }

  /** What pressing a button reports to `onTopItemsOrderByChange`, if the parent gave one. */
  function PressFilter(b: FilterButton, hasHandler: bool): (r: Option<string>)
    ensures hasHandler <==> r.Some?
    ensures r.Some? ==> r.value == b.value
  {
    if hasHandler then Some(b.value) else None
  }

  /**
   * Without an order-by the Price button is the highlighted one; and when the
   * parent feeds the reported value back as the order-by, the pressed button
   * is highlighted and the other is not.
   */
  lemma FilterSelection(orderBy: string, pressed: nat)
    requires pressed < 2
    ensures var bs := FilterButtons(EffectiveOrderBy(None)); bs[1].active && !bs[0].active
    ensures var reported := PressFilter(FilterButtons(orderBy)[pressed], true).value;
      forall i :: 0 <= i < 2 ==> (FilterButtons(reported)[i].active <==> i == pressed)
  {
  }

  /** The tooltip state of the line chart: `onPointPress` and the timer's hide. */
  class PointTooltip {
    var visible: bool
    var x: int
    var y: int
    var caption: string
    var value: Option<int>

    constructor ()
      ensures !visible && x == 0 && y == 0 && caption == "" && value == None
    {
      visible, x, y, caption, value := false, 0, 0, "", None;
    }

    /** Focusing a point shows its value and label at the event point, or at x = 40 per index and y = 60. */
    method OnPointPress(point: ProfitPoint, index: int, eventX: Option<int>, eventY: Option<int>)
      modifies this
      ensures visible && caption == point.caption && value == Some(point.value)
      ensures x == (if eventX.Some? then eventX.value else index * 40)
      ensures y == (if eventY.Some? then eventY.value else 60)
    {
      visible := true;
      x := eventX.GetOr(index * 40);
      y := eventY.GetOr(60);
      caption := point.caption;
      value := Some(point.value);
    }

    /** What the three-second timer does: hide, keep the rest. */
    method Hide()
      modifies this
      ensures !visible && x == old(x) && y == old(y) && caption == old(caption) && value == old(value)
    {
      visible := false;
    }

    /** The amount printed in the tooltip: the point's value, or 0 when it has none. */
    function ShownValue(): (r: int)
      reads this
      ensures value.None? ==> r == 0
      ensures value.Some? ==> r == value.value
    {
      value.GetOr(0)
    }
  }
}
