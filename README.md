# snki-mobile display and pricing rules in Dafny

snki-mobile is a React Native procurement app. Its documents are purchase
requests, quotations, purchase orders, invoices and shipment tracking
records, and they move through statuses kept by a REST back end. The app
itself keeps little state. What it computes is in small rules inside its
components:

- how a quotation or purchase-request line's displayed amounts are derived
  (item price, first-leg shipping price, additional cost, margin);
- how the dashboard charts turn the reporting API's rows into stacked bars,
  legends, tooltips and total-value cards;
- how the profit series and the top-five item list are built;
- how statuses and trends map to badge colours, labels and icons;
- how the purchase-request list shows its rows and pagination;
- which routes the drawer shows, and what the root layout renders before
  fonts are loaded and before login;
- what a status tab press does to the filter, the current tab and the page.

This project models those rules and proves properties about them. There is
one module per component file. Shared pieces get modules of their own:
`Wrappers` (optional values), `Seqs` (filter and sum), `StatusTypes` (the
status enumerations of the type files) and `Charts` (what the charts share).

Modelling conventions:
- Amounts are unbounded integers in whole rupiah.
- A JavaScript `null` or `undefined` field is `None`.
- A string status stays a `string` wherever the component switches on the
  raw string. The status datatypes let lemmas range over exactly the
  declared values.
- Component state that handlers update becomes a class whose methods
  change its fields. These are the collapsible card's expand state, the
  two chart tooltips, the list screen's page and limit, and the tab bar's
  host state.

## Model

| member | source | states |
|---|---|---|
| StatusTypes.PrNamesInjective | types/PurchaseRequestTypes.ts:35 | The four purchase-request statuses travel as four distinct strings. |
| StatusTypes.QuotationNamesInjective | types/QuotationTypes.ts:3 | The three quotation statuses travel as three distinct strings. |
| StatusTypes.InvoiceNamesInjective | types/InvoiceTypes.ts:1 | The two invoice statuses travel as two distinct strings. |
| StatusTypes.TrackingNamesInjective | types/TrackingTypes.ts:1 | The five tracking statuses travel as five distinct strings. |
| StatusTypes.PurchaseOrderNamesInjective | types/PurchaseOrderTypes.ts:2 | The three purchase-order statuses travel as three distinct strings. |
| Seqs.Filter | app/_layout.tsx:71-72 | The result keeps exactly the elements that pass the test, is no longer than the input, and holds every passing element. |
| Seqs.FilterAppend | app/_layout.tsx:71-72 | Filtering a concatenation is the concatenation of the filtered parts, so relative order is preserved. |
| Seqs.FilterIdempotent | app/_layout.tsx:71-72 | Filtering twice by the same test equals filtering once. |
| Seqs.SumNonNegative | app/components/collapsible-item.tsx:42 | A sum of non-negative cost entries is non-negative. |
| Seqs.SumSnoc | app/components/collapsible-item.tsx:42 | Appending one entry raises the sum by exactly that entry. |
| CollapsibleItem.ShippingPrice | app/components/collapsible-item.tsx:30-38 | Without shipping the price is 0. Otherwise it is the first leg's price: `price` for a quotation line, `shipping_price` for a purchase-request line. |
| CollapsibleItem.ShippingPriceIgnoresLaterLegs | app/components/collapsible-item.tsx:30-38 | Replacing every leg after the first never changes the shipping price. |
| CollapsibleItem.AdditionalCost | app/components/collapsible-item.tsx:40-46 | A quotation line gives the sum of its cost entries, or 0 when the list is missing. A purchase-request line gives `total_additional_cost`, or 0 when that is missing. |
| CollapsibleItem.AdditionalCostGrowsByEntry | app/components/collapsible-item.tsx:42 | One more cost entry on a quotation line raises its additional cost by exactly that entry. |
| CollapsibleItem.MarginPrice | app/components/collapsible-item.tsx:48-54 | The unit margin times the quantity, for each line kind. A purchase-request line without a margin gives 0, and quantity 0 gives 0. |
| CollapsibleItem.ItemPrice | app/components/collapsible-item.tsx:108 | The item price times the quantity: 0 for quantity 0, at least the unit price for a positive quantity. |
| CollapsibleItem.PricingNonNegative | app/components/collapsible-item.tsx:30-54 | With non-negative inputs, item price, shipping price, additional cost and margin are all non-negative. |
| CollapsibleItem.PriceRows | app/components/collapsible-item.tsx:93-139 | Six rows for a quotation line and four for a purchase-request line. The total and unit quoted-price rows appear exactly for quotation lines: first and last, carrying `total_quoted_price.quoted_price` and `unit_quoted_price.quoted_price`. Between them, and as the whole list for a purchase-request line, come Item Price, Shipping Price, Additional Cost and Margin, in that order. |
| CollapsibleItem.ShippingDetail | app/components/collapsible-item.tsx:157-182 | No rows without shipping. Otherwise there is one row per leg, in order. Row i of a quotation line shows leg i's origin, destination, service and price. Row i of a purchase-request line is "Shipping i+1" with leg i's weight and price. The first row's price is the shipping price shown above. |
| CollapsibleItem.ExpandState.constructor | app/components/collapsible-item.tsx:15-16 | A card starts collapsed with its animated value at 0. |
| CollapsibleItem.ExpandState.Toggle | app/components/collapsible-item.tsx:18-25 | Toggling flips the expand state and animates to 1 when opening, 0 when closing. It keeps the target in step with the state. |
| CollapsibleItem.ToggleTwice | app/components/collapsible-item.tsx:18-25 | Toggling twice restores both the expand state and the animation target. |
| Charts.Lookup | components/dashboard/PurchaseOrderChart.tsx:40-41 | The entry found belongs to the config and carries the key asked for. With distinct keys it is the only entry for that key. |
| Charts.ColorStacks | components/dashboard/PurchaseRequestQuotationChart.tsx:33-36 | One segment per key, in key order. Each holds the row's count for the key (0 when absent) and the key's configured colour. |
| Charts.TransformToColorStacks | components/dashboard/PurchaseRequestQuotationChart.tsx:30-38 | One bar per row, in row order, with the row's label and its colour segments. |
| Charts.ColorStackValues | components/dashboard/InvoiceTrackingChart.tsx:27-35 | A segment's value is the row's count for its key when present, and 0 when the key is missing. |
| Charts.TransformToColorStacksAppend | components/dashboard/InvoiceTrackingChart.tsx:27-35 | Transforming two row lists one after the other equals transforming their concatenation. |
| Charts.Legend | components/dashboard/PurchaseRequestQuotationChart.tsx:52-61 | One swatch per config entry, in declaration order, with that entry's label and colour. |
| Charts.Panel | components/dashboard/InvoiceTrackingChart.tsx:53-109 | The loading text exactly while loading. After that: "No data available" exactly when there are no bars, otherwise the bars with the config's legend. |
| Charts.ExpenseCardFor | components/dashboard/PurchaseOrderChart.tsx:139-156 | The no-data text exactly when the entry is absent. Otherwise the card shows the entry's current total and change rate. |
| Charts.TrendDisplayAgrees | components/dashboard/PurchaseOrderChart.tsx:143-150 | Icon, colour and wording all show an increase exactly when the trend is 'up'. Any other trend shows a decrease. |
| PurchaseOrderChart.NamedStacks | components/dashboard/PurchaseOrderChart.tsx:38-42 | One segment per key, in key order. Each holds the row's count or 0, plus the configured colour and label. |
| PurchaseOrderChart.TransformToStackData | components/dashboard/PurchaseOrderChart.tsx:35-44 | One group per row, in row order, with the row's label and its named segments. |
| PurchaseOrderChart.ChartData | components/dashboard/PurchaseOrderChart.tsx:83 | Empty without data. Otherwise each bar has four segments (draft, pending, purchased, cancelled), each with its colour and label. |
| PurchaseOrderChart.ChartCard | components/dashboard/PurchaseOrderChart.tsx:75-118 | The loading text while loading, "No data available" exactly when the rows are missing or empty, and otherwise the bars with the purchase-order legend: every config entry in declaration order, four entries ending in Cancelled. |
| PurchaseOrderChart.KeysExtendStatusType | components/dashboard/PurchaseOrderChart.tsx:28-33 | The first three keys are the declared purchase-order statuses in order. 'cancelled' is not a declared status. |
| PurchaseOrderChart.TooltipRows | components/dashboard/PurchaseOrderChart.tsx:122-129 | The tooltip lists exactly the segments with a strictly positive value. |
| PurchaseOrderChart.TooltipRowsPreserveOrder | components/dashboard/PurchaseOrderChart.tsx:122-129 | The tooltip rows keep the segment order. |
| PurchaseOrderChart.TooltipRowsExtremes | components/dashboard/PurchaseOrderChart.tsx:122-129 | An all-positive bar is listed in full, and an all-zero bar lists nothing. |
| PurchaseOrderChart.Tooltip.constructor | components/dashboard/PurchaseOrderChart.tsx:85 | The tooltip starts hidden at (0, 0) with no label and no segments. |
| PurchaseOrderChart.Tooltip.OnBarPress | components/dashboard/PurchaseOrderChart.tsx:87-88 | Pressing a bar shows its label and segments at the event point. Without event coordinates it uses x = index·40 and y = 60. |
| PurchaseOrderChart.Tooltip.Hide | components/dashboard/PurchaseOrderChart.tsx:89 | The timer hides the tooltip and keeps every other field. |
| PurchaseOrderChart.Tooltip.Rows | components/dashboard/PurchaseOrderChart.tsx:119-131 | A hidden tooltip lists nothing. A visible one lists exactly the positive segments of its bar, in segment order: every listed segment is positive, and every positive segment is listed. |
| PurchaseOrderChart.TotalValueCard | components/dashboard/PurchaseOrderChart.tsx:134-157 | The purchase-order expense card: no-data exactly when the entry is absent. Otherwise its total, with "increase" exactly for trend 'up'. |
| PurchaseRequestQuotationChart.PurchaseRequestConfigured | components/dashboard/PurchaseRequestQuotationChart.tsx:17-22 | Every purchase-request stack key has a config entry. |
| PurchaseRequestQuotationChart.QuotationConfigured | components/dashboard/PurchaseRequestQuotationChart.tsx:24-28 | Every quotation stack key has a config entry. |
| PurchaseRequestQuotationChart.PurchaseRequestLookups | components/dashboard/PurchaseRequestQuotationChart.tsx:17-22 | Each of the four purchase-request keys finds its own entry and colour, although keys and entries are declared in different orders. |
| PurchaseRequestQuotationChart.PurchaseRequestStacks | components/dashboard/PurchaseRequestQuotationChart.tsx:33-36 | Every row's segments are, in order, its draft, pending, approved and declined counts (0 when absent), each in its configured colour. |
| PurchaseRequestQuotationChart.QuotationStacks | components/dashboard/PurchaseRequestQuotationChart.tsx:33-36 | Every row's segments are, in order, its pending, qualified and unqualified counts (0 when absent), each in its configured colour. |
| PurchaseRequestQuotationChart.PurchaseRequestChartData | components/dashboard/PurchaseRequestQuotationChart.tsx:77 | Empty without data. Otherwise one bar per row, with the draft, pending, approved and declined segments in that order and in their colours. |
| PurchaseRequestQuotationChart.QuotationChartData | components/dashboard/PurchaseRequestQuotationChart.tsx:78 | Empty without data. Otherwise one bar per row, with the pending, qualified and unqualified segments in their colours. |
| PurchaseRequestQuotationChart.PurchaseRequestCard | components/dashboard/PurchaseRequestQuotationChart.tsx:69-105 | The loading text while loading, "No data available" exactly when the rows are missing or empty, and otherwise the bars with the purchase-request legend: its four config entries in declaration order, which differs from the segment order. |
| PurchaseRequestQuotationChart.QuotationCard | components/dashboard/PurchaseRequestQuotationChart.tsx:107-128 | The loading text while loading, "No data available" exactly when the rows are missing or empty, and otherwise the bars with the quotation legend: its three config entries in declaration order. |
| PurchaseRequestQuotationChart.KeysCoverStatuses | components/dashboard/PurchaseRequestQuotationChart.tsx:77-78 | Each key list names every declared status of its document, with no extra keys. |
| PurchaseRequestQuotationChart.PurchaseRequestLegendOrderDiffers | components/dashboard/PurchaseRequestQuotationChart.tsx:17-22 | The legend reads Draft, Approved, Ongoing, Declined, but the second segment of every bar is pending. The second swatch is not the second segment. |
| PurchaseRequestQuotationChart.CombinedExpense | components/dashboard/PurchaseRequestQuotationChart.tsx:80 | The quotation expense entry. It is absent exactly when the expenses or that entry are absent. |
| PurchaseRequestQuotationChart.TotalValueCard | components/dashboard/PurchaseRequestQuotationChart.tsx:131-154 | The card shows the quotation entry's total, never the purchase-order entry's, and shows no-data when that entry is absent. |
| InvoiceTrackingChart.KeysFollowConfig | components/dashboard/InvoiceTrackingChart.tsx:14-25 | Each key list is its config's keys in declaration order. |
| InvoiceTrackingChart.KeysInDeclarationOrderAreConfigured | components/dashboard/InvoiceTrackingChart.tsx:61-62 | Keys listed in declaration order all have a config entry. |
| InvoiceTrackingChart.InvoiceStacks | components/dashboard/InvoiceTrackingChart.tsx:30-33 | Every invoice row's segments are its unpaid and then its paid count (0 when absent), in their configured colours. |
| InvoiceTrackingChart.TrackingLookups | components/dashboard/InvoiceTrackingChart.tsx:19-25 | Each of the five tracking keys finds the config entry declared at its own position. |
| InvoiceTrackingChart.InvoiceChartData | components/dashboard/InvoiceTrackingChart.tsx:61 | Empty without data. Otherwise one bar per row, with the row's label and an unpaid then a paid segment. |
| InvoiceTrackingChart.TrackingChartData | components/dashboard/InvoiceTrackingChart.tsx:62 | Empty without data. Otherwise one bar per row, with five segments in the order preparing, in_transit, partially_arrived, completed, cancelled and their colours. |
| InvoiceTrackingChart.InvoiceCard | components/dashboard/InvoiceTrackingChart.tsx:53-87 | The loading text while loading, "No data available" exactly when the rows are missing or empty, and otherwise the bars with the invoice legend: its two config entries in declaration order. |
| InvoiceTrackingChart.TrackingCard | components/dashboard/InvoiceTrackingChart.tsx:89-110 | The loading text while loading, "No data available" exactly when the rows are missing or empty, and otherwise the bars with the tracking legend: its five config entries in declaration order. |
| InvoiceTrackingChart.MissingTrackingCountIsZero | components/dashboard/InvoiceTrackingChart.tsx:31 | A tracking segment whose key the row lacks has value 0. |
| InvoiceTrackingChart.KeysCoverStatuses | components/dashboard/InvoiceTrackingChart.tsx:61-62 | Each key list names every declared status of its document, with no extra keys. |
| InvoiceTrackingChart.TrackingLegend | components/dashboard/InvoiceTrackingChart.tsx:19-25 | The tracking legend lists the five statuses in declaration order and labels 'preparing' "Planned". |
| ProfitTopItemsChart.ProfitPoints | components/dashboard/ProfitTopItemsChart.tsx:49-53 | One point per entry, in order. Each point's value is the entry's sum, its label is copied, and its point text is empty. |
| ProfitTopItemsChart.ProfitChartData | components/dashboard/ProfitTopItemsChart.tsx:49-53 | Empty when the profit data or its chart list is absent. Otherwise one point per entry, valued at its sum. |
| ProfitTopItemsChart.ProfitCard | components/dashboard/ProfitTopItemsChart.tsx:41-104 | "Loading..." while loading, "No data available" exactly when there are no entries, and otherwise the line chart without a legend. |
| ProfitTopItemsChart.ProfitPointsAppend | components/dashboard/ProfitTopItemsChart.tsx:49-53 | The series of a concatenation is the concatenation of the series, so the order is preserved. |
| ProfitTopItemsChart.TotalProfitCard | components/dashboard/ProfitTopItemsChart.tsx:113-135 | No-data exactly when the total is absent. Otherwise its current total, with "increase" exactly for trend 'up' and "decrease" otherwise. |
| ProfitTopItemsChart.RankFrom | components/dashboard/ProfitTopItemsChart.tsx:166-168 | Ranks are consecutive from the given first rank, and the items keep their order. |
| ProfitTopItemsChart.TopItemsView | components/dashboard/ProfitTopItemsChart.tsx:162-190 | Loading text exactly while loading. The no-items text exactly when the list is missing or empty. Otherwise the first min(n, 5) items in order, the item at position i ranked i + 1. |
| ProfitTopItemsChart.FilterButtons | components/dashboard/ProfitTopItemsChart.tsx:147-158 | Qty reports 'quantity' and Price reports 'total_price'. A button is highlighted exactly when its value is the current order-by. |
| ProfitTopItemsChart.PressFilter | components/dashboard/ProfitTopItemsChart.tsx:149 | A press reports the button's value exactly when the parent gave a handler. |
| ProfitTopItemsChart.FilterSelection | components/dashboard/ProfitTopItemsChart.tsx:38 | With no order-by given, Price is highlighted and Qty is not. When the reported value comes back as the order-by, exactly the pressed button is highlighted. |
| ProfitTopItemsChart.PointTooltip.constructor | components/dashboard/ProfitTopItemsChart.tsx:57 | The tooltip starts hidden at (0, 0) with no label and no value. |
| ProfitTopItemsChart.PointTooltip.OnPointPress | components/dashboard/ProfitTopItemsChart.tsx:59-60 | Focusing a point shows its value and label at the event point. Without event coordinates it uses x = index·40 and y = 60. |
| ProfitTopItemsChart.PointTooltip.Hide | components/dashboard/ProfitTopItemsChart.tsx:61 | The timer hides the tooltip and keeps every other field. |
| ProfitTopItemsChart.PointTooltip.ShownValue | components/dashboard/ProfitTopItemsChart.tsx:107 | The printed amount is the point's value, or 0 when there is none. |
| TrackingCard.KnownAreTheTrackingStatuses | types/TrackingTypes.ts:1 | The strings the switches list are exactly the declared tracking statuses. |
| TrackingCard.StatusColor | app/components/tracking-card-component.tsx:10-25 | Any status outside the five gets '#6B7280'. |
| TrackingCard.StatusColorsDistinct | app/components/tracking-card-component.tsx:10-25 | The five statuses get five distinct colours, none of them the fallback colour. |
| TrackingCard.StatusText | app/components/tracking-card-component.tsx:27-42 | An unknown status is returned unchanged. A known status gets a different label that is itself not a status. |
| TrackingCard.StatusTextIdempotent | app/components/tracking-card-component.tsx:27-42 | Applying the label mapping twice equals applying it once. |
| TrackingCard.StatusTextsDistinct | app/components/tracking-card-component.tsx:27-42 | The five statuses get five distinct labels. |
| TrackingCard.StatusIcon | app/components/tracking-card-component.tsx:44-59 | An unknown status gets the parcel icon. 'completed' gets the check mark and 'cancelled' the cross. |
| TrackingCard.StatusIconFallback | app/components/tracking-card-component.tsx:44-59 | An unknown status shows the icon of 'preparing'. The five statuses show five distinct icons. |
| InvoiceCard.StatusColor | app/components/invoice-card-component.tsx:11-20 | Green exactly for 'paid', red exactly for 'unpaid', and gray exactly for anything else. |
| InvoiceCard.StatusText | app/components/invoice-card-component.tsx:22-31 | 'paid' and 'unpaid' get labels that are neither status. Any other string is returned unchanged. |
| InvoiceCard.StatusTextIdempotent | app/components/invoice-card-component.tsx:22-31 | Applying the label mapping twice equals applying it once. |
| InvoiceCard.DeclaredStatusesDistinct | app/components/invoice-card-component.tsx:11-31 | The two declared statuses get distinct colours and distinct labels. |
| PrList.StatusColor | app/pr-list.tsx:12-20 | Any status other than the four gets '#BDBDBD'. |
| PrList.StatusColorsDistinct | app/pr-list.tsx:12-20 | The four purchase-request statuses get four distinct colours, none of them the fallback. |
| PrList.UpperChar | app/pr-list.tsx:79 | Lower-case ASCII letters become the matching capital. Every other character is unchanged. |
| PrList.Capitalize | app/pr-list.tsx:79 | Length is preserved. The first character is upper-cased and the rest is unchanged; '' stays ''. |
| PrList.CapitalizeIdempotent | app/pr-list.tsx:79 | Capitalizing twice equals capitalizing once. |
| PrList.DeclaredStatusLabels | app/pr-list.tsx:79 | The declared statuses read "Pending", "Approved", "Draft" and "Declined". |
| PrList.RowViews | app/pr-list.tsx:71-84 | One row per item, in order. Each row has the item's code and total, and a chip with the capitalized status in its colour. |
| PrList.Table | app/pr-list.tsx:64-97 | The empty-list row appears exactly when there are no rows (missing data counts as empty). The rows are the item rows, one per item in order, each with its code, total and capitalized status chip. The control gets page - 1 and the label shows the page. |
| PrList.StatusSummary | app/pr-list.tsx:47-54 | No chips without meta data. Otherwise Draft, Pending, Approved and Declined with their counts, in four distinct colours. |
| PrList.Screen | app/pr-list.tsx:35-54 | The loading indicator exactly while loading. Once loaded, the summary chips appear exactly when the response carries meta data, above the table. |
| PrList.PageChangeAsWrittenLosesAPage | app/pr-list.tsx:87-89 | As written, a page change lands one page before the one chosen, so "next" from page 1 requests page 1 again. |
| PrList.PageAfterChange | app/pr-list.tsx:87-89 | The corrected handler stores a page whose zero-based table index is the one the control reported. |
| PrList.PageChangeRoundTrip | app/pr-list.tsx:87-89 | With the conversion, the page survives a round trip through the control, and "next" requests the following page. |
| PrList.PrListScreen.constructor | app/pr-list.tsx:23-24 | The screen starts on page 1 with 10 rows per page. |
| PrList.PrListScreen.OnPageChange | app/pr-list.tsx:89 | As written, the zero-based index the control reports is stored unchanged as the one-based page, so the control then shows the index one below it. The limit is kept. |
| PrList.PrListScreen.OnPageChangeOneBased | app/pr-list.tsx:87-89 | The intended handler: the stored page converts back to exactly the index the control reported. The limit is kept. |
| PrList.PageAfterChangeAsWritten | app/pr-list.tsx:89 | The page the handler stores as written: the control then shows the index one below the one it reported. |
| PrList.PrListScreen.OnItemsPerPageChange | app/pr-list.tsx:93 | The limit becomes the chosen one and the page is kept. |
| DashboardOverviewCard.TrendStyleOf | components/dashboard/DashboardOverviewCard.tsx:27-30 | 'stable' is gray with 'remove', 'up' is green with 'arrow-up', and every other trend is red with 'arrow-down'. |
| DashboardOverviewCard.TrendColorDeterminesIcon | components/dashboard/DashboardOverviewCard.tsx:29-30 | Two trends share a colour exactly when they share an icon. |
| DashboardOverviewCard.ReplaceUnderscores | components/dashboard/DashboardOverviewCard.tsx:34 | Every underscore becomes a space and no other character changes. |
| DashboardOverviewCard.ReplaceUnderscoresIdempotent | components/dashboard/DashboardOverviewCard.tsx:34 | No underscore survives, and replacing again changes nothing. |
| DashboardOverviewCard.ReplaceUnderscoresKeepsPlainLabels | components/dashboard/DashboardOverviewCard.tsx:34 | A label without underscores is printed unchanged. |
| DashboardOverviewCard.RenderItem | components/dashboard/DashboardOverviewCard.tsx:24-44 | No tile for a missing item. Otherwise a tile with the item's current count, its trend style, and its label with every underscore turned into a space. |
| DashboardOverviewCard.Overview | components/dashboard/DashboardOverviewCard.tsx:11-57 | The loading text exactly while loading. Nothing exactly when the data is absent or has no keys. Otherwise a grid of at most four tiles. |
| DashboardOverviewCard.TilesForStep | components/dashboard/DashboardOverviewCard.tsx:50-53 | One more kind appends its tile when its entry is present, and nothing when it is missing. |
| DashboardOverviewCard.TilesForFour | components/dashboard/DashboardOverviewCard.tsx:50-53 | For four kinds, the tiles are those of the present entries, in the kinds' order. |
| DashboardOverviewCard.OverviewTiles | components/dashboard/DashboardOverviewCard.tsx:50-53 | For a loaded, non-empty response with any entries missing, the grid is exactly the tiles of the present entries in the order Invoice, Purchase Order, Purchase Request, Quotation. |
| DashboardOverviewCard.AllPresentTiles | components/dashboard/DashboardOverviewCard.tsx:50-53 | When every entry is present, there is one tile per entry, in order, with its label and count. |
| DashboardOverviewCard.OverviewTileOrder | components/dashboard/DashboardOverviewCard.tsx:50-53 | With all four entries present the card shows Invoice, Purchase Order, Purchase Request, Quotation in that order, each with its own count. |
| RootLayout.RootView | app/_layout.tsx:49-61 | Nothing exactly while fonts are not loaded. The login screen exactly when loaded and not logged in. The main navigator exactly when loaded and logged in. |
| RootLayout.DeclaredScreensAllShown | app/_layout.tsx:89-102 | Both declared drawer screens pass the allow-list, so the drawer lists them all in order. |
| RootLayout.AllowedNames | app/_layout.tsx:66-71 | The kept route names are exactly the input names in the allow-list. |
| RootLayout.AllowedRoutes | app/_layout.tsx:66-72 | The kept routes are exactly the input routes whose name is in the allow-list. |
| RootLayout.FilterDrawerProps | app/_layout.tsx:64-74 | Both route lists are cut to the allow-list, and every other prop and state field is unchanged. |
| RootLayout.FilterDrawerPropsIdempotent | app/_layout.tsx:64-74 | Filtering already-filtered props changes nothing. |
| RootLayout.FiltersAgree | app/_layout.tsx:71-72 | The names of the kept routes are the kept names, in the same order. |
| TabBar.TabViews | app/components/tab-bar.tsx:22-32 | One tab per list entry, in order, with its key and caption. A tab is active exactly when its key is the current tab. |
| TabBar.SelectedStatusFor | app/components/tab-bar.tsx:27 | The 'all' tab selects no status ('' ). Any other tab selects its own key. |
| TabBar.ExactlyOneActive | app/components/tab-bar.tsx:25 | With distinct keys, selecting tab k highlights tab k and no other. |
| TabBar.Host.constructor | app/components/tab-bar.tsx:5-11 | The host state behind the tab bar's props starts on its initial tab, with the filter that tab selects, on page 1. Starting on 'all' means no filter. |
| TabBar.Host.OnPress | app/components/tab-bar.tsx:26-30 | A press sets the status filter for the tab, makes the tab current and resets the page to 1. |
| TabBar.PressAndRender | app/components/tab-bar.tsx:22-32 | After pressing tab k of a list with distinct keys, that tab alone is highlighted, the page is 1, and a non-'all' tab's key is the filter. |

## Left out

- Network and storage: the `server-actions` fetch wrappers, the auth and secure stores, and push-notification setup are I/O. The model takes their results as parameters: the login flag, the statistics response and the list response.
- The chart data requests are not modelled. `PrList.PrListScreen` assumes the list API returns the page it was asked for.
- Timers: the three-second tooltip hides are modelled as a `Hide` method that the caller invokes. The delay itself is not modelled.
- Platform formatting is not modelled. This covers `formatCurrency` (Intl and `toLocaleString`), `formatDateRange` and `formatDate` (dates and locales), and the `toFixed(1)` change-rate display (floating point). Amounts are kept as integers and rates as reals.
- The font loader's error (`throw error` in an effect) and the splash-screen hiding are effects outside the render result.
- Animation timing is left out. `CollapsibleItem.ExpandState` records only the target value (0 or 1) that the animation runs towards.
- Styles, `StyleSheet` blocks, the floating menus and tab bars, the search bar, the logout screen and the other card components (they only capitalize a status and call helpers the shown utility file does not define).
- The collapsible card's header (item name and code), its Quantity row (`{item.quantity} {item.item.unit}`), and its Source, ETA and notes rows are copied from the item unchanged and not modelled. `CollapsibleItem.PriceRows` covers only the amount rows.
- Approve, decline and mark-paid transitions are not in the modelled files. No transition table is modelled.
- CollapsibleItem.ShippingPrice: requires a present shipping list to have a first leg. The card reads the first leg whenever the field is non-null, so an empty list would fail at run time. That failure is not modelled.
- CollapsibleItem.ShippingPrice: takes the first leg only, as the code does. A sum over all legs would be a different rule.
- CollapsibleItem.AdditionalCost: treats the quotation `additional_cost` as a list of entries, as the code sums it. The type file declares a number-or-null there.
- CollapsibleItem.MarginPrice: a `NaN` from a missing margin is modelled as the missing case giving 0. Other `NaN` and floating-point effects are not modelled.
- Charts.StackValue: a count that is present but zero reads as 0 either way, so the model uses a plain map lookup with 0 as default. Non-numeric counts are not modelled.
- PrList.UpperChar: upper-cases ASCII letters only. Full Unicode case mapping is not modelled; the statuses are ASCII.
- TabBar.Host.constructor: takes the initial tab as a parameter. The quotation list screen, whose file is `app/(quotation-stack)/index.tsx`, starts on 'all' with page 1 and no filter (lines 28-33). The other host screens are not part of this model.
- TabBar.Host.OnPress: the three state setters run as one update. React's batching and re-render timing are not modelled.

## Findings

| source | as written | input that shows it | evidently intended | confidence | as-written member | corrected member |
|---|---|---|---|---|---|---|
| app/pr-list.tsx:87-89 | The table control gets the zero-based page `pagination.page - 1`, but its page-change callback stores the zero-based index it reports directly as the one-based `page`. | On page 1 the control shows index 0. Pressing "next" reports 1, the screen stores page 1 and requests page 1 again. | Store the reported index plus one, so "next" from page p requests page p + 1. | medium, not executed | PrList.PageChangeAsWrittenLosesAPage | PrList.PageChangeRoundTrip |

`PrList.PrListScreen.OnPageChange` is the handler as written. `PrList.PrListScreen.OnPageChangeOneBased` is the corrected handler, built on `PrList.PageAfterChange`.
