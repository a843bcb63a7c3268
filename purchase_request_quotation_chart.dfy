/**
 * The purchase-request and quotation dashboard charts (colour-only stacks) and
 * the "Total Quotation Value" card.
 */
module PurchaseRequestQuotationChart {
  import opened Wrappers
  import opened Charts
  import opened StatusTypes

  /** Declared draft, approved, pending (labelled "Ongoing"), declined. */
  const PurchaseRequestConfig: Config := [
    ConfigEntry("draft", "Draft", "#6b7280"),
    ConfigEntry("approved", "Approved", "#16a34a"),
    ConfigEntry("pending", "Ongoing", "#f59e0b"),
    ConfigEntry("declined", "Declined", "#dc2626")
  ]

  const QuotationConfig: Config := [
    ConfigEntry("pending", "Pending", "#f59e0b"),
    ConfigEntry("qualified", "Qualified", "#16a34a"),
    ConfigEntry("unqualified", "Unqualified", "#dc2626")
  ]

  /** The purchase-request stacks are built in this order, which is not the config's declaration order. */
  const PurchaseRequestKeys: seq<string> := ["draft", "pending", "approved", "declined"]

  const QuotationKeys: seq<string> := ["pending", "qualified", "unqualified"]

  lemma PurchaseRequestConfigured()
    ensures Configured(PurchaseRequestKeys, PurchaseRequestConfig)
  {
    assert PurchaseRequestConfig[0].key == PurchaseRequestKeys[0];
    assert PurchaseRequestConfig[2].key == PurchaseRequestKeys[1];
    assert PurchaseRequestConfig[1].key == PurchaseRequestKeys[2];
    assert PurchaseRequestConfig[3].key == PurchaseRequestKeys[3];
  }

  lemma QuotationConfigured()
    ensures Configured(QuotationKeys, QuotationConfig)
  {
    assert QuotationConfig[0].key == QuotationKeys[0];
    assert QuotationConfig[1].key == QuotationKeys[1];
    assert QuotationConfig[2].key == QuotationKeys[2];
  }

  /** Each purchase-request key finds its own config entry, although the keys and the entries are in different orders. */
  lemma PurchaseRequestLookups()
    ensures HasKey(PurchaseRequestConfig, "draft") && Lookup(PurchaseRequestConfig, "draft").color == "#6b7280"
    ensures HasKey(PurchaseRequestConfig, "pending") && Lookup(PurchaseRequestConfig, "pending").color == "#f59e0b"
    ensures HasKey(PurchaseRequestConfig, "approved") && Lookup(PurchaseRequestConfig, "approved").color == "#16a34a"
    ensures HasKey(PurchaseRequestConfig, "declined") && Lookup(PurchaseRequestConfig, "declined").color == "#dc2626"
  {
    assert DistinctKeys(PurchaseRequestConfig);
    LookupAt(PurchaseRequestConfig, 0);
    LookupAt(PurchaseRequestConfig, 1);
    LookupAt(PurchaseRequestConfig, 2);
    LookupAt(PurchaseRequestConfig, 3);
  }

  /** The segments of any purchase-request row, written out: draft, pending, approved, declined. */
  lemma PurchaseRequestStacks()
    ensures Configured(PurchaseRequestKeys, PurchaseRequestConfig)
    ensures forall row: ChartItem :: ColorStacks(row, PurchaseRequestKeys, PurchaseRequestConfig) == [
      ColorStack(StackValue(row, "draft"), "#6b7280"),
      ColorStack(StackValue(row, "pending"), "#f59e0b"),
      ColorStack(StackValue(row, "approved"), "#16a34a"),
      ColorStack(StackValue(row, "declined"), "#dc2626")]
  {
    PurchaseRequestConfigured();
    PurchaseRequestLookups();
    forall row: ChartItem
      ensures ColorStacks(row, PurchaseRequestKeys, PurchaseRequestConfig) == [
        ColorStack(StackValue(row, "draft"), "#6b7280"),
        ColorStack(StackValue(row, "pending"), "#f59e0b"),
        ColorStack(StackValue(row, "approved"), "#16a34a"),
        ColorStack(StackValue(row, "declined"), "#dc2626")]
    {
      ColorStacksOfFour(row, PurchaseRequestKeys, PurchaseRequestConfig);
    }
  }

  /** The segments of any quotation row, written out: pending, qualified, unqualified. */
  lemma QuotationStacks()
    ensures Configured(QuotationKeys, QuotationConfig)
    ensures forall row: ChartItem :: ColorStacks(row, QuotationKeys, QuotationConfig) == [
      ColorStack(StackValue(row, "pending"), "#f59e0b"),
      ColorStack(StackValue(row, "qualified"), "#16a34a"),
      ColorStack(StackValue(row, "unqualified"), "#dc2626")]
  {
    QuotationConfigured();
    assert DistinctKeys(QuotationConfig);
    LookupAt(QuotationConfig, 0);
    LookupAt(QuotationConfig, 1);
    LookupAt(QuotationConfig, 2);
    forall row: ChartItem
      ensures ColorStacks(row, QuotationKeys, QuotationConfig) == [
        ColorStack(StackValue(row, "pending"), "#f59e0b"),
        ColorStack(StackValue(row, "qualified"), "#16a34a"),
        ColorStack(StackValue(row, "unqualified"), "#dc2626")]
    {
      var s := ColorStacks(row, QuotationKeys, QuotationConfig);
      assert s[0] == ColorStack(StackValue(row, "pending"), "#f59e0b");
      assert s[1] == ColorStack(StackValue(row, "qualified"), "#16a34a");
      assert s[2] == ColorStack(StackValue(row, "unqualified"), "#dc2626");
    }
  }

  /** `prData`: one bar per purchase-request row with draft, pending, approved, declined segments; empty without data. */
  function PurchaseRequestChartData(data: Option<ChartsData>): (r: seq<ColorGroup>)
    ensures (data.None? || data.value.purchaseRequest.None?) ==> r == []
    ensures data.Some? && data.value.purchaseRequest.Some? ==>
      var rows := data.value.purchaseRequest.value;
      |r| == |rows| &&
      forall i :: 0 <= i < |r| ==>
        r[i].caption == rows[i].caption &&
        r[i].stacks == [
          ColorStack(StackValue(rows[i], "draft"), "#6b7280"),
          ColorStack(StackValue(rows[i], "pending"), "#f59e0b"),
          ColorStack(StackValue(rows[i], "approved"), "#16a34a"),
          ColorStack(StackValue(rows[i], "declined"), "#dc2626")]
  {
    PurchaseRequestConfigured();
    PurchaseRequestStacks();
    if data.Some? && data.value.purchaseRequest.Some? then
      TransformToColorStacks(data.value.purchaseRequest.value, PurchaseRequestKeys, PurchaseRequestConfig)
    else []
  }

  /** `quotationData`: pending, qualified, unqualified segments per row; empty without data. */
  function QuotationChartData(data: Option<ChartsData>): (r: seq<ColorGroup>)
    ensures (data.None? || data.value.quotation.None?) ==> r == []
    ensures data.Some? && data.value.quotation.Some? ==>
      var rows := data.value.quotation.value;
      |r| == |rows| &&
      forall i :: 0 <= i < |r| ==>
        r[i].caption == rows[i].caption &&
        r[i].stacks == [
          ColorStack(StackValue(rows[i], "pending"), "#f59e0b"),
          ColorStack(StackValue(rows[i], "qualified"), "#16a34a"),
          ColorStack(StackValue(rows[i], "unqualified"), "#dc2626")]
  {
    QuotationConfigured();
    QuotationStacks();
    if data.Some? && data.value.quotation.Some? then
      TransformToColorStacks(data.value.quotation.value, QuotationKeys, QuotationConfig)
    else []
  }

  /** The purchase-request card: loading text, bars and legend, or "No data available" when its rows are missing or empty. */
  function PurchaseRequestCard(isLoading: bool, data: Option<ChartsData>): (r: ChartPanel<ColorGroup>)
    ensures r.LoadingChart? <==> isLoading
    ensures r.NoChartData? <==> !isLoading && (data.None? || data.value.purchaseRequest.None? || |data.value.purchaseRequest.value| == 0)
    ensures r.BarsShown? ==> r.bars == PurchaseRequestChartData(data) && r.legend == Legend(PurchaseRequestConfig) && |r.legend| == 4
  {
    Panel(isLoading, PurchaseRequestChartData(data), PurchaseRequestConfig)
  }

  /** The quotation card: loading text, bars and legend, or "No data available" when its rows are missing or empty. */
  function QuotationCard(isLoading: bool, data: Option<ChartsData>): (r: ChartPanel<ColorGroup>)
    ensures r.LoadingChart? <==> isLoading
    ensures r.NoChartData? <==> !isLoading && (data.None? || data.value.quotation.None? || |data.value.quotation.value| == 0)
    ensures r.BarsShown? ==> r.bars == QuotationChartData(data) && r.legend == Legend(QuotationConfig) && |r.legend| == 3
  {
    Panel(isLoading, QuotationChartData(data), QuotationConfig)
  }

  /** Both key lists name every declared status of their document exactly once. */
  lemma KeysCoverStatuses()
    ensures |PurchaseRequestKeys| == 4 && forall s: PurchaseRequestStatus :: PrName(s) in PurchaseRequestKeys
    ensures |QuotationKeys| == 3 && forall s: QuotationStatus :: QuotationName(s) in QuotationKeys
  {
  }

  /**
   * The legend follows the config's declaration order (Draft, Approved, Ongoing,
   * Declined) while the bar segments follow the key order (draft, pending,
   * approved, declined): the second legend swatch is not the second segment.
   */
  lemma PurchaseRequestLegendOrderDiffers()
    ensures Legend(PurchaseRequestConfig) == [
      LegendEntry("Draft", "#6b7280"), LegendEntry("Approved", "#16a34a"),
      LegendEntry("Ongoing", "#f59e0b"), LegendEntry("Declined", "#dc2626")]
    ensures forall row: ChartItem :: ColorStacks(row, PurchaseRequestKeys, PurchaseRequestConfig)[1].color == "#f59e0b"
    ensures Legend(PurchaseRequestConfig)[1].color != "#f59e0b"
  {
    PurchaseRequestConfigured();
  }

  /** The expense entries of the statistics response; the card uses the quotation one. */
  datatype TotalExpenses = TotalExpenses(quotation: Option<ExpenseItem>, purchaseOrder: Option<ExpenseItem>)

  /** `combinedExpense`: the quotation entry, absent when the expenses or that entry are absent. */
  function CombinedExpense(expenseData: Option<TotalExpenses>): (r: Option<ExpenseItem>)
    ensures r.Some? <==> expenseData.Some? && expenseData.value.quotation.Some?
    ensures r.Some? ==> r == expenseData.value.quotation
  {
    if expenseData.Some? then expenseData.value.quotation else None
  }

  /** The "Total Quotation Value" card: the quotation entry's total and trend, never the purchase-order entry's. */
  function TotalValueCard(expenseData: Option<TotalExpenses>): (r: ExpenseCard)
    ensures r.NoExpenseData? <==> CombinedExpense(expenseData).None?
    ensures r.ExpenseShown? ==> r.amount == expenseData.value.quotation.value.currentTotal
  {
    ExpenseCardFor(CombinedExpense(expenseData))
  }
}
