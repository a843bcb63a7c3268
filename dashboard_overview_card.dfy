/** The dashboard's overview card: one tile per document kind with its current count and trend. */
module DashboardOverviewCard {
  import opened Wrappers

  /** One document kind's figures; `trend` is "up" | "down" | "stable". */
  datatype OverviewItem = OverviewItem(current: int, previous: int, changeRate: real, trend: string)

  /** The trend icon and its colour. */
  datatype TrendStyle = TrendStyle(color: string, icon: string)

  /** 'stable' is gray with a dash, 'up' green with an up arrow, and every other trend red with a down arrow. */
  function TrendStyleOf(trend: string): (r: TrendStyle)
    ensures trend == "stable" ==> r == TrendStyle("#6b7280", "remove")
    ensures trend == "up" ==> r == TrendStyle("#16a34a", "arrow-up")
    ensures trend != "stable" && trend != "up" ==> r == TrendStyle("#dc2626", "arrow-down")
  {
    var isPositive := trend == "up";
    var isStable := trend == "stable";
    TrendStyle(
      if isStable then "#6b7280" else if isPositive then "#16a34a" else "#dc2626",
      if isStable then "remove" else if isPositive then "arrow-up" else "arrow-down")
  }

  /** The colour alone tells which icon is shown: the three styles differ in both. */
  lemma TrendColorDeterminesIcon(a: string, b: string)
    ensures TrendStyleOf(a).color == TrendStyleOf(b).color <==> TrendStyleOf(a).icon == TrendStyleOf(b).icon
  {
  }

  /** The label with every underscore replaced by a space. */
  function ReplaceUnderscores(s: string): (r: string)
    ensures |r| == |s|
    ensures forall i :: 0 <= i < |s| ==> r[i] == (if s[i] == '_' then ' ' else s[i])
  {
    if s == [] then [] else [if s[0] == '_' then ' ' else s[0]] + ReplaceUnderscores(s[1..])
  }

  /** No underscore survives the replacement, and a second replacement changes nothing. */
  lemma ReplaceUnderscoresIdempotent(s: string)
    ensures forall i :: 0 <= i < |s| ==> ReplaceUnderscores(s)[i] != '_'
    ensures ReplaceUnderscores(ReplaceUnderscores(s)) == ReplaceUnderscores(s)
  {
  }

  /** A label without underscores is printed as it is. */
  lemma {:induction false} ReplaceUnderscoresKeepsPlainLabels(s: string)
    requires forall i :: 0 <= i < |s| ==> s[i] != '_'
    ensures ReplaceUnderscores(s) == s
  {
    if s != [] {
      ReplaceUnderscoresKeepsPlainLabels(s[1..]);
    }
  }

  /** The literal tile labels hold no underscore. */
  lemma PlainLabel(s: string)
    requires s in TileLabels
    ensures ReplaceUnderscores(s) == s
  {
    assert forall i :: 0 <= i < |s| ==> s[i] != '_';
    ReplaceUnderscoresKeepsPlainLabels(s);
  }

  /** A rendered tile. */
  datatype Tile = Tile(caption: string, current: int, style: TrendStyle)

  /** `renderItem`: nothing for a missing item, otherwise the tile with the underscores of its label turned into spaces. */
  function RenderItem(caption: string, item: Option<OverviewItem>): (r: Option<Tile>)
    ensures r.Some? <==> item.Some?
    ensures r.Some? ==> r.value.current == item.value.current && r.value.style == TrendStyleOf(item.value.trend)
    ensures r.Some? ==> r.value.caption == ReplaceUnderscores(caption)
  {
    match item
    case None => None
    case Some(it) => Some(Tile(ReplaceUnderscores(caption), it.current, TrendStyleOf(it.trend)))
  }

  /** The card: the loading text, nothing at all, or the titled grid of tiles. */
  datatype Card = LoadingOverview | NoCard | Grid(tiles: seq<Tile>)

  function Present(t: Option<Tile>): seq<Tile> {
    match t
    case None => []
    case Some(x) => [x]
  }

  function Entry(data: map<string, OverviewItem>, key: string): Option<OverviewItem> {
    if key in data then Some(data[key]) else None
  }

  /** The four tiles in their fixed order. */
  const TileLabels: seq<string> := ["Invoice", "Purchase Order", "Purchase Request", "Quotation"]

  /** The response keys the four tiles read, in the same order. */
  const TileKeys: seq<string> := ["invoice", "purchase_order", "purchase_request", "quotation"]

  /** The tiles for `labels` read from `keys`, one per present entry, in order. */
  function TilesFor(d: map<string, OverviewItem>, labels: seq<string>, keys: seq<string>): (r: seq<Tile>)
    requires |labels| == |keys|
    ensures |r| <= |keys|
  {
    if keys == [] then []
    else Present(RenderItem(labels[0], Entry(d, keys[0]))) + TilesFor(d, labels[1..], keys[1..])
  }

  /**
   * While loading the card shows the loading text. Once loaded it
   * renders nothing when the data is absent or has no keys; otherwise it
   * shows, in the fixed order Invoice, Purchase Order, Purchase Request, Quotation,
   * a tile for each of those entries that is present.
   */
  function Overview(isLoading: bool, data: Option<map<string, OverviewItem>>): (r: Card)
    ensures r.LoadingOverview? <==> isLoading
    ensures r.NoCard? <==> !isLoading && (data.None? || |data.value| == 0)
    ensures r.Grid? ==> |r.tiles| <= 4
  {
    if isLoading then LoadingOverview
    else if data.None? || |data.value| == 0 then NoCard
    else Grid(TilesFor(data.value, TileLabels, TileKeys))
  }

  /** Extending the label and key lists by one entry appends that entry's tile, or nothing when it is missing. */
  lemma {:induction false} TilesForStep(d: map<string, OverviewItem>, labels: seq<string>, keys: seq<string>, k: nat)
    requires |labels| == |keys| && k < |keys|
    ensures TilesFor(d, labels[..k + 1], keys[..k + 1])
         == TilesFor(d, labels[..k], keys[..k]) + Present(RenderItem(labels[k], Entry(d, keys[k])))
  {
    if k == 0 {
      assert labels[..1][1..] == [] && keys[..1][1..] == [];
    } else {
      assert labels[..k + 1][1..] == labels[1..][..k] && keys[..k + 1][1..] == keys[1..][..k];
      assert labels[..k][1..] == labels[1..][..k - 1] && keys[..k][1..] == keys[1..][..k - 1];
      TilesForStep(d, labels[1..], keys[1..], k - 1);
    }
  }

  /** For four kinds, the tiles are those of the present entries among the four, in order. */
  lemma TilesForFour(d: map<string, OverviewItem>, labels: seq<string>, keys: seq<string>)
    requires |labels| == |keys| == 4
    ensures TilesFor(d, labels, keys)
         == Present(RenderItem(labels[0], Entry(d, keys[0]))) + Present(RenderItem(labels[1], Entry(d, keys[1])))
          + Present(RenderItem(labels[2], Entry(d, keys[2]))) + Present(RenderItem(labels[3], Entry(d, keys[3])))
  {
    assert labels[..0] == [] && keys[..0] == [];
    TilesForStep(d, labels, keys, 0);
    TilesForStep(d, labels, keys, 1);
    TilesForStep(d, labels, keys, 2);
    TilesForStep(d, labels, keys, 3);
    assert labels[..4] == labels && keys[..4] == keys;
  }

  /** The tile of the `k`-th kind, if its entry is present. */
  function TileAt(d: map<string, OverviewItem>, k: nat): Option<Tile>
    requires k < 4
  {
    RenderItem(TileLabels[k], Entry(d, TileKeys[k]))
  }

  /**
   * Whatever entries are missing, a loaded, non-empty response shows exactly the
   * tiles of the present entries, in the fixed order Invoice, Purchase Order,
   * Purchase Request, Quotation: a missing entry leaves no gap and moves nothing.
   */
  lemma OverviewTiles(d: map<string, OverviewItem>)
    requires |d| > 0
    ensures Overview(false, Some(d))
         == Grid(Present(TileAt(d, 0)) + Present(TileAt(d, 1)) + Present(TileAt(d, 2)) + Present(TileAt(d, 3)))
  {
    TilesForFour(d, TileLabels, TileKeys);
  }

  /** When every entry is present, there is one tile per entry, in order, with its label (underscores as spaces) and count. */
  lemma {:induction false} AllPresentTiles(d: map<string, OverviewItem>, labels: seq<string>, keys: seq<string>)
    requires |labels| == |keys|
    requires forall k :: 0 <= k < |keys| ==> keys[k] in d
    ensures var tiles := TilesFor(d, labels, keys);
      |tiles| == |keys| &&
      forall k :: 0 <= k < |keys| ==> tiles[k].caption == ReplaceUnderscores(labels[k]) && tiles[k].current == d[keys[k]].current
  {
    if keys != [] {
      AllPresentTiles(d, labels[1..], keys[1..]);
    }
  }

  /**
   * With all four entries present the card shows exactly the four kinds, in the
   * order Invoice, Purchase Order, Purchase Request, Quotation, each labelled as
   * written and showing its entry's count.
   */
  lemma OverviewTileOrder(d: map<string, OverviewItem>)
    requires forall k :: 0 <= k < 4 ==> TileKeys[k] in d
    ensures Overview(false, Some(d)).Grid?
    ensures var tiles := Overview(false, Some(d)).tiles;
      |tiles| == 4 && forall k :: 0 <= k < 4 ==> tiles[k].caption == TileLabels[k] && tiles[k].current == d[TileKeys[k]].current
  {
    assert TileKeys[0] in d.Keys;
    assert |d.Keys| > 0;
    AllPresentTiles(d, TileLabels, TileKeys);
    forall k | 0 <= k < 4
      ensures ReplaceUnderscores(TileLabels[k]) == TileLabels[k]
    {
      PlainLabel(TileLabels[k]);
    }
  }
}
