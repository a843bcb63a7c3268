/**
 * What the dashboard charts share: the reporting API's chart rows, a chart's
 * status configuration object (key -> legend label and colour, in declaration
 * order), the colour-only stack transform that the purchase-request/quotation
 * chart and the invoice/tracking chart each define identically, the legend,
 * and the "total value" card with its trend wording.
 */
module Charts {
  import opened Wrappers

  /** One bar of a stacked chart as the reporting API sends it: its label (held in `caption`) and a count per status key. */
  datatype ChartItem = ChartItem(caption: string, total: int, data: map<string, int>)

  /** All chart series of the statistics response; each may be missing. */
  datatype ChartsData = ChartsData(
    purchaseRequest: Option<seq<ChartItem>>,
    quotation: Option<seq<ChartItem>>,
    purchaseOrder: Option<seq<ChartItem>>,
    invoice: Option<seq<ChartItem>>,
    tracking: Option<seq<ChartItem>>)

  /** One entry of a chart's config: a status key with its legend caption and its color. */
  datatype ConfigEntry = ConfigEntry(key: string, caption: string, color: string)

  /** A config object, its properties in declaration order. */
  type Config = seq<ConfigEntry>

  /** An object literal cannot hold the same key twice. */
  predicate DistinctKeys(config: Config) {
    forall i, j :: 0 <= i < j < |config| ==> config[i].key != config[j].key
  }

  predicate HasKey(config: Config, key: string) {
    exists j :: 0 <= j < |config| && config[j].key == key
  }

  /** Every stack key the chart asks for has an entry in the config (otherwise reading that entry's color fails). */
  predicate Configured(keys: seq<string>, config: Config) {
    forall k :: 0 <= k < |keys| ==> HasKey(config, keys[k])
  }

  /** The config entry declared for `key`. */
  function Lookup(config: Config, key: string): (e: ConfigEntry)
    requires HasKey(config, key)
    ensures e in config && e.key == key
    ensures DistinctKeys(config) ==> forall j :: 0 <= j < |config| && config[j].key == key ==> config[j] == e
  {
    if config[0].key == key then config[0]
    else
      assert HasKey(config[1..], key) by {
        var j :| 0 <= j < |config| && config[j].key == key;
        assert config[1..][j - 1] == config[j];
      }
      Lookup(config[1..], key)
  }

  /** In a config without repeated keys, looking up the key of entry `j` finds entry `j`. */
  lemma LookupAt(config: Config, j: nat)
    requires DistinctKeys(config) && j < |config|
    ensures HasKey(config, config[j].key) && Lookup(config, config[j].key) == config[j]
  {
    assert config[j].key == config[j].key;
  }

  /** The row's count for `key`, or 0 when the row has none (a missing or zero count both read as 0). */
  function StackValue(item: ChartItem, key: string): int {
    if key in item.data then item.data[key] else 0
  }

  /** A segment of a bar as the purchase-request/quotation and invoice/tracking charts build it. */
  datatype ColorStack = ColorStack(value: int, color: string)

  /** A bar: its caption and its segments. */
  datatype ColorGroup = ColorGroup(caption: string, stacks: seq<ColorStack>)

  /** One colored segment per key, in key order: the row's count for the key and the key's configured color. */
  function ColorStacks(item: ChartItem, keys: seq<string>, config: Config): (r: seq<ColorStack>)
    requires Configured(keys, config)
    ensures |r| == |keys|
    ensures forall k :: 0 <= k < |keys| ==>
      r[k].value == StackValue(item, keys[k]) && r[k].color == Lookup(config, keys[k]).color
  {
    if keys == [] then []
    else [ColorStack(StackValue(item, keys[0]), Lookup(config, keys[0]).color)] + ColorStacks(item, keys[1..], config)
  }

  /** Four keys give the four segments, written out in key order. */
  lemma ColorStacksOfFour(item: ChartItem, keys: seq<string>, config: Config)
    requires Configured(keys, config) && |keys| == 4
    ensures ColorStacks(item, keys, config) == [
      ColorStack(StackValue(item, keys[0]), Lookup(config, keys[0]).color),
      ColorStack(StackValue(item, keys[1]), Lookup(config, keys[1]).color),
      ColorStack(StackValue(item, keys[2]), Lookup(config, keys[2]).color),
      ColorStack(StackValue(item, keys[3]), Lookup(config, keys[3]).color)]
  {
  }

  /** `transformToStackData` of the purchase-request/quotation and invoice/tracking charts. */
  function TransformToColorStacks(data: seq<ChartItem>, keys: seq<string>, config: Config): (r: seq<ColorGroup>)
    requires Configured(keys, config)
    ensures |r| == |data|
    ensures forall i :: 0 <= i < |data| ==> r[i].caption == data[i].caption && r[i].stacks == ColorStacks(data[i], keys, config)
  {
    if data == [] then []
    else [ColorGroup(data[0].caption, ColorStacks(data[0], keys, config))] + TransformToColorStacks(data[1..], keys, config)
  }

  /** A stack value is the row's count when the row has one for that key, and 0 when it has none. */
  lemma ColorStackValues(data: seq<ChartItem>, keys: seq<string>, config: Config, i: nat, k: nat)
    requires Configured(keys, config)
    requires i < |data| && k < |keys|
    ensures var v := TransformToColorStacks(data, keys, config)[i].stacks[k].value;
      (keys[k] in data[i].data ==> v == data[i].data[keys[k]]) &&
      (keys[k] !in data[i].data ==> v == 0)
  {
  }

  /** The transform works bar by bar: transforming two lists of rows one after the other is transforming their concatenation. */
  lemma {:induction false} TransformToColorStacksAppend(a: seq<ChartItem>, b: seq<ChartItem>, keys: seq<string>, config: Config)
    requires Configured(keys, config)
    ensures TransformToColorStacks(a + b, keys, config) == TransformToColorStacks(a, keys, config) + TransformToColorStacks(b, keys, config)
  {
    if a == [] {
      assert a + b == b;
    } else {
      assert (a + b)[1..] == a[1..] + b;
      TransformToColorStacksAppend(a[1..], b, keys, config);
    }
  }

  /** One legend swatch. */
  datatype LegendEntry = LegendEntry(caption: string, color: string)

  /** The legend lists the config's entries in declaration order. */
  function Legend(config: Config): (r: seq<LegendEntry>)
    ensures |r| == |config|
    ensures forall i :: 0 <= i < |config| ==> r[i] == LegendEntry(config[i].caption, config[i].color)
  {
    if config == [] then [] else [LegendEntry(config[0].caption, config[0].color)] + Legend(config[1..])
  }

  /** What a chart card shows: the loading text, the bars with the config's legend, or "No data available". */
  datatype ChartPanel<T> = LoadingChart | BarsShown(bars: seq<T>, legend: seq<LegendEntry>) | NoChartData

  /** A chart card: loading first; then the bars and legend when there is at least one bar, otherwise the no-data text. */
  function Panel<T>(isLoading: bool, bars: seq<T>, config: Config): (r: ChartPanel<T>)
    ensures r.LoadingChart? <==> isLoading
    ensures r.NoChartData? <==> !isLoading && |bars| == 0
    ensures r.BarsShown? ==> r.bars == bars && r.legend == Legend(config)
  {
    if isLoading then LoadingChart
    else if |bars| > 0 then BarsShown(bars, Legend(config))
    else NoChartData
  }

  /** A period total as the reporting API sends it; `trend` is "up" | "down" | "stable". */
  datatype ExpenseItem = ExpenseItem(currentTotal: int, previousTotal: int, changeRate: real, trend: string, currency: string)

  /** The "total value" card: the amount, a trend icon and colour, and the wording "increase"/"decrease" by the change rate. */
  datatype ExpenseCard =
    | ExpenseShown(amount: int, icon: string, iconColor: string, wording: string, changeRate: real)
    | NoExpenseData

  function TrendIcon(trend: string): string {
    if trend == "up" then "trending-up" else "trending-down"
  }

  function TrendColor(trend: string): string {
    if trend == "up" then "#4ade80" else "#f87171"
  }

  function TrendWording(trend: string): string {
    if trend == "up" then "increase" else "decrease"
  }

  /** The card body: the expense entry when present, the "no data" text otherwise. */
  function ExpenseCardFor(expense: Option<ExpenseItem>): (r: ExpenseCard)
    ensures r.NoExpenseData? <==> expense.None?
    ensures expense.Some? ==> r.amount == expense.value.currentTotal && r.changeRate == expense.value.changeRate
  {
    match expense
    case None => NoExpenseData
    case Some(e) => ExpenseShown(e.currentTotal, TrendIcon(e.trend), TrendColor(e.trend), TrendWording(e.trend), e.changeRate)
  }

  /**
   * The icon, its colour and the wording always agree: all three read "up" exactly
   * when the trend is 'up'; 'down', 'stable' and anything else read as a decrease.
   */
  lemma TrendDisplayAgrees(e: ExpenseItem)
    ensures var c := ExpenseCardFor(Some(e));
      (c.wording == "increase" <==> e.trend == "up") &&
      (c.icon == "trending-up" <==> e.trend == "up") &&
      (c.iconColor == "#4ade80" <==> e.trend == "up") &&
      (e.trend != "up" ==> c.wording == "decrease" && c.icon == "trending-down" && c.iconColor == "#f87171")
  {
  }
}
