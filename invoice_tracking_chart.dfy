/** The invoice and tracking dashboard charts (colour-only stacks, built by the shared transform). */
module InvoiceTrackingChart {
  import opened Wrappers
  import opened Charts
  import opened StatusTypes

  const InvoiceConfig: Config := [
    ConfigEntry("unpaid", "Unpaid", "#f59e0b"),
    ConfigEntry("paid", "Paid", "#22c55e")
  ]

  /** The tracking config labels the 'preparing' status "Planned". */
  const TrackingConfig: Config := [
    ConfigEntry("preparing", "Planned", "#6b7280"),
    ConfigEntry("in_transit", "In-transit", "#f59e0b"),
    ConfigEntry("partially_arrived", "Partially Arrived", "#fb923c"),
    ConfigEntry("completed", "Completed", "#22c55e"),
    ConfigEntry("cancelled", "Cancelled", "#ef4444")
  ]

  const InvoiceKeys: seq<string> := ["unpaid", "paid"]

  const TrackingKeys: seq<string> := ["preparing", "in_transit", "partially_arrived", "completed", "cancelled"]

  /** Here each key list is exactly its config's keys in declaration order. */
  lemma KeysFollowConfig()
    ensures |InvoiceKeys| == |InvoiceConfig| && forall i :: 0 <= i < |InvoiceKeys| ==> InvoiceKeys[i] == InvoiceConfig[i].key
    ensures |TrackingKeys| == |TrackingConfig| && forall i :: 0 <= i < |TrackingKeys| ==> TrackingKeys[i] == TrackingConfig[i].key
  {
  }

  lemma {:induction false} KeysInDeclarationOrderAreConfigured(keys: seq<string>, config: Config)
    requires |keys| == |config| && forall i :: 0 <= i < |keys| ==> keys[i] == config[i].key
    ensures Configured(keys, config)
  {
    forall k | 0 <= k < |keys|
      ensures HasKey(config, keys[k])
    {
      assert config[k].key == keys[k];
    }
  }

  /** The segments of any invoice row, written out: unpaid, then paid. */
  lemma InvoiceStacks()
    ensures Configured(InvoiceKeys, InvoiceConfig)
    ensures forall row: ChartItem ::
      ColorStacks(row, InvoiceKeys, InvoiceConfig) == [ColorStack(StackValue(row, "unpaid"), "#f59e0b"), ColorStack(StackValue(row, "paid"), "#22c55e")]
  {
    KeysFollowConfig();
    KeysInDeclarationOrderAreConfigured(InvoiceKeys, InvoiceConfig);
    assert DistinctKeys(InvoiceConfig);
    LookupAt(InvoiceConfig, 0);
    LookupAt(InvoiceConfig, 1);
    forall row: ChartItem
      ensures ColorStacks(row, InvoiceKeys, InvoiceConfig) ==
        [ColorStack(StackValue(row, "unpaid"), "#f59e0b"), ColorStack(StackValue(row, "paid"), "#22c55e")]
    {
      var s := ColorStacks(row, InvoiceKeys, InvoiceConfig);
      assert s[0] == ColorStack(StackValue(row, "unpaid"), "#f59e0b");
      assert s[1] == ColorStack(StackValue(row, "paid"), "#22c55e");
    }
  }

  lemma TrackingConfigDistinct()
    ensures DistinctKeys(TrackingConfig)
  {
  }

  /** Each tracking key finds the config entry declared at its own position. */
  lemma TrackingLookups()
    ensures Configured(TrackingKeys, TrackingConfig)
    ensures forall k :: 0 <= k < 5 ==> Lookup(TrackingConfig, TrackingKeys[k]) == TrackingConfig[k]
  {
    TrackingConfigDistinct();
    KeysFollowConfig();
    KeysInDeclarationOrderAreConfigured(TrackingKeys, TrackingConfig);
    forall k | 0 <= k < 5
      ensures Lookup(TrackingConfig, TrackingKeys[k]) == TrackingConfig[k]
    {
      assert TrackingConfig[k].key == TrackingKeys[k];
    }
  }

  /**
   * `invoiceData`: one bar per invoice row, in order, with the row's label and an
   * unpaid and a paid segment, each the row's count or 0; empty without data.
   */
  function InvoiceChartData(data: Option<ChartsData>): (r: seq<ColorGroup>)
    ensures (data.None? || data.value.invoice.None?) ==> r == []
    ensures data.Some? && data.value.invoice.Some? ==>
      var rows := data.value.invoice.value;
      |r| == |rows| &&
      forall i :: 0 <= i < |r| ==>
        r[i].caption == rows[i].caption &&
        r[i].stacks == [ColorStack(StackValue(rows[i], "unpaid"), "#f59e0b"), ColorStack(StackValue(rows[i], "paid"), "#22c55e")]
  {
    InvoiceStacks();
    if data.Some? && data.value.invoice.Some? then
      TransformToColorStacks(data.value.invoice.value, InvoiceKeys, InvoiceConfig)
    else []
  }

  /**
   * `trackingData`: one bar per tracking row, in order, with one segment per
   * tracking status in the order preparing, in_transit, partially_arrived,
   * completed, cancelled; empty without data.
   */
  function TrackingChartData(data: Option<ChartsData>): (r: seq<ColorGroup>)
    ensures (data.None? || data.value.tracking.None?) ==> r == []
    ensures data.Some? && data.value.tracking.Some? ==>
      var rows := data.value.tracking.value;
      |r| == |rows| &&
      forall i :: 0 <= i < |r| ==>
        r[i].caption == rows[i].caption && |r[i].stacks| == 5 &&
        forall k :: 0 <= k < 5 ==>
          r[i].stacks[k] == ColorStack(StackValue(rows[i], TrackingKeys[k]), TrackingConfig[k].color)
  {
    KeysFollowConfig();
    KeysInDeclarationOrderAreConfigured(TrackingKeys, TrackingConfig);
    if data.Some? && data.value.tracking.Some? then
      var rows := data.value.tracking.value;
      TrackingLookups();
      TransformToColorStacks(rows, TrackingKeys, TrackingConfig)
    else []
  }

  /** The invoice card: loading text, bars and legend, or "No data available" when its rows are missing or empty. */
  function InvoiceCard(isLoading: bool, data: Option<ChartsData>): (r: ChartPanel<ColorGroup>)
    ensures r.LoadingChart? <==> isLoading
    ensures r.NoChartData? <==> !isLoading && (data.None? || data.value.invoice.None? || |data.value.invoice.value| == 0)
    ensures r.BarsShown? ==> r.bars == InvoiceChartData(data) && r.legend == Legend(InvoiceConfig) && |r.legend| == 2
  {
    Panel(isLoading, InvoiceChartData(data), InvoiceConfig)
  }

  /** The tracking card: loading text, bars and legend, or "No data available" when its rows are missing or empty. */
  function TrackingCard(isLoading: bool, data: Option<ChartsData>): (r: ChartPanel<ColorGroup>)
    ensures r.LoadingChart? <==> isLoading
    ensures r.NoChartData? <==> !isLoading && (data.None? || data.value.tracking.None? || |data.value.tracking.value| == 0)
    ensures r.BarsShown? ==> r.bars == TrackingChartData(data) && r.legend == Legend(TrackingConfig) && |r.legend| == 5
  {
    Panel(isLoading, TrackingChartData(data), TrackingConfig)
  }

  /** A tracking segment that the row has no count for is 0. */
  lemma MissingTrackingCountIsZero(data: ChartsData, i: nat, k: nat)
    requires data.tracking.Some? && i < |data.tracking.value| && k < 5
    requires TrackingKeys[k] !in data.tracking.value[i].data
    ensures TrackingChartData(Some(data))[i].stacks[k].value == 0
  {
  }

  /** Both key lists name every declared status of their document exactly once. */
  lemma KeysCoverStatuses()
    ensures |InvoiceKeys| == 2 && forall s: InvoiceStatus :: InvoiceName(s) in InvoiceKeys
    ensures |TrackingKeys| == 5 && forall s: TrackingStatus :: TrackingName(s) in TrackingKeys
  {
  }

  /** The tracking legend lists the five statuses in declaration order and calls 'preparing' "Planned". */
  lemma TrackingLegend()
    ensures Legend(TrackingConfig) == [
      LegendEntry("Planned", "#6b7280"), LegendEntry("In-transit", "#f59e0b"),
      LegendEntry("Partially Arrived", "#fb923c"), LegendEntry("Completed", "#22c55e"),
      LegendEntry("Cancelled", "#ef4444")]
    ensures Lookup(TrackingConfig, TrackingName(Preparing)).caption == "Planned"
  {
    assert HasKey(TrackingConfig, "preparing") by { assert TrackingConfig[0].key == "preparing"; }
  }
}
