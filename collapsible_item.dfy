/**
 * The line-item card shown on quotation and purchase-request detail screens:
 * the pricing helpers that derive the displayed amounts from one line, the rows
 * the card shows, and the expand/collapse state. Amounts are whole rupiah.
 */
module CollapsibleItem {
  import opened Wrappers
  import opened Seqs

  /** A shipping leg of a quotation line. */
  datatype QuotationShipping = QuotationShipping(originCode: string, destinationCode: string, serviceType: string, price: int)

  /** A shipping leg of a purchase-request line. */
  datatype PrShipping = PrShipping(weight: int, shippingPrice: int)

  /** The per-unit (or per-line) price breakdown a quotation line carries. */
  datatype QuotedPrice = QuotedPrice(shippingPrice: int, additionalCost: int, marginPrice: int, roundingUp: int, itemPrice: int, quotedPrice: int)

  /**
   * A line as the card receives it. The card tells the two shapes apart by
   * whether the object has a `unit_quoted_price` field; here that is the tag.
   * `shipping` is None when the field is null or absent; the quotation
   * `additionalCost` is the list of additional-cost amounts the card
   * sums, None when missing.
   */
  datatype LineItem =
    | QuotationLine(quantity: int, itemPrice: int, unitQuotedPrice: QuotedPrice, totalQuotedPrice: QuotedPrice,
                    quotationShipping: Option<seq<QuotationShipping>>, additionalCost: Option<seq<int>>)
    | PrLine(quantity: int, itemPrice: int, marginPrice: Option<int>, totalAdditionalCost: Option<int>,
             prShipping: Option<seq<PrShipping>>)

  /** Whether the line is a quotation line, that is, carries a unit quoted price. */
  predicate IsQuotationItem(item: LineItem) {
    item.QuotationLine?
  }

  /** Whether the line's `shipping` field is present (not null or undefined). */
  predicate HasShipping(item: LineItem) {
    if IsQuotationItem(item) then item.quotationShipping.Some? else item.prShipping.Some?
  }

  /**
   * The card reads `shipping[0]` whenever the field is present, so an empty
   * array would throw; callers only pass lines whose shipping list, when
   * present, has a first leg.
   */
  predicate ShippingReadable(item: LineItem) {
    if IsQuotationItem(item) then item.quotationShipping.Some? ==> |item.quotationShipping.value| > 0
    else item.prShipping.Some? ==> |item.prShipping.value| > 0
  }

  /** `calculateShippingPrice`: 0 without shipping, otherwise the price of the FIRST leg only. */
  function ShippingPrice(item: LineItem): (r: int)
    requires ShippingReadable(item)
    ensures !HasShipping(item) ==> r == 0
    ensures HasShipping(item) && IsQuotationItem(item) ==> r == item.quotationShipping.value[0].price
    ensures HasShipping(item) && !IsQuotationItem(item) ==> r == item.prShipping.value[0].shippingPrice
  {
    if !HasShipping(item) then 0
    else if IsQuotationItem(item) then item.quotationShipping.value[0].price
    else item.prShipping.value[0].shippingPrice
  }

  /** Legs after the first never affect the shipping price shown. */
  lemma ShippingPriceIgnoresLaterLegs(item: LineItem, later: seq<QuotationShipping>, laterPr: seq<PrShipping>)
    requires ShippingReadable(item) && HasShipping(item)
    ensures IsQuotationItem(item) ==>
      ShippingPrice(item.(quotationShipping := Some(item.quotationShipping.value[..1] + later))) == ShippingPrice(item)
    ensures !IsQuotationItem(item) ==>
      ShippingPrice(item.(prShipping := Some(item.prShipping.value[..1] + laterPr))) == ShippingPrice(item)
  {
  }

  /** The additional-cost amounts of a quotation line, summed from the left, or 0 when the list is missing. */
  function QuotationAdditionalCost(costs: Option<seq<int>>): int {
    match costs
    case None => 0
    case Some(list) => Sum(list)
  }

  /** `getAdditionalCost`: the summed entries of a quotation line; a purchase-request line's `total_additional_cost`, or 0. */
  function AdditionalCost(item: LineItem): (r: int)
    ensures IsQuotationItem(item) && item.additionalCost.None? ==> r == 0
    ensures IsQuotationItem(item) && item.additionalCost.Some? ==> r == Sum(item.additionalCost.value)
    ensures !IsQuotationItem(item) ==> r == item.totalAdditionalCost.GetOr(0)
  {
    if IsQuotationItem(item) then QuotationAdditionalCost(item.additionalCost)
    else item.totalAdditionalCost.GetOr(0)
  }

  /** Adding one more cost entry to a quotation line raises its additional cost by exactly that entry. */
  lemma AdditionalCostGrowsByEntry(item: LineItem, entry: int)
    requires IsQuotationItem(item) && item.additionalCost.Some?
    ensures AdditionalCost(item.(additionalCost := Some(item.additionalCost.value + [entry]))) == AdditionalCost(item) + entry
  {
    SumSnoc(item.additionalCost.value, entry);
  }

  /**
   * `getMarginPrice`: the unit margin times the quantity; for a purchase-request
   * line a missing `margin_price` makes the product NaN, which the fallback to zero turns into 0.
   */
  function MarginPrice(item: LineItem): (r: int)
    ensures IsQuotationItem(item) ==> r == item.unitQuotedPrice.marginPrice * item.quantity
    ensures !IsQuotationItem(item) && item.marginPrice.Some? ==> r == item.marginPrice.value * item.quantity
    ensures !IsQuotationItem(item) && item.marginPrice.None? ==> r == 0
    ensures item.quantity == 0 ==> r == 0
  {
    if IsQuotationItem(item) then item.unitQuotedPrice.marginPrice * item.quantity
    else match item.marginPrice
      case None => 0
      case Some(m) => m * item.quantity
  }

  /** The "Item Price" row: the unit item price times the quantity. */
  function ItemPrice(item: LineItem): (r: int)
    ensures item.quantity == 0 ==> r == 0
    ensures item.quantity > 0 && item.itemPrice >= 0 ==> r >= item.itemPrice
  {
    item.itemPrice * item.quantity
  }

  /** Every amount the line carries is non-negative. */
  predicate NonNegativeLine(item: LineItem) {
    item.quantity >= 0 && item.itemPrice >= 0 &&
    match item
    case QuotationLine(_, _, unit, _, shipping, costs) =>
      unit.marginPrice >= 0 &&
      (shipping.Some? ==> forall i :: 0 <= i < |shipping.value| ==> shipping.value[i].price >= 0) &&
      (costs.Some? ==> forall i :: 0 <= i < |costs.value| ==> costs.value[i] >= 0)
    case PrLine(_, _, margin, total, shipping) =>
      (margin.Some? ==> margin.value >= 0) && (total.Some? ==> total.value >= 0) &&
      (shipping.Some? ==> forall i :: 0 <= i < |shipping.value| ==> shipping.value[i].shippingPrice >= 0)
  }

  /** With non-negative inputs, every amount the card shows is non-negative. */
  lemma PricingNonNegative(item: LineItem)
    requires NonNegativeLine(item) && ShippingReadable(item)
    ensures ItemPrice(item) >= 0 && ShippingPrice(item) >= 0 && AdditionalCost(item) >= 0 && MarginPrice(item) >= 0
  {
    if IsQuotationItem(item) && item.additionalCost.Some? {
      SumNonNegative(item.additionalCost.value);
    }
  }

  /** A labelled amount row of the card's price section, in display order. */
  datatype PriceRow =
    | TotalQuotedPriceRow(amount: int)
    | ItemPriceRow(amount: int)
    | ShippingPriceRow(amount: int)
    | AdditionalCostRow(amount: int)
    | MarginRow(amount: int)
    | UnitQuotedPriceRow(amount: int)

  /** The four amount rows every line shows, in display order: Item Price, Shipping Price, Additional Cost, Margin. */
  function SharedPriceRows(item: LineItem): seq<PriceRow>
    requires ShippingReadable(item)
  {
    [ItemPriceRow(ItemPrice(item)), ShippingPriceRow(ShippingPrice(item)),
     AdditionalCostRow(AdditionalCost(item)), MarginRow(MarginPrice(item))]
  }

  /**
   * The amount rows of the expanded card, in order: Total Quoted Price (quotation
   * lines only), Item Price, Shipping Price, Additional Cost, Margin, then Unit
   * Quoted Price (quotation lines only).
   */
  function PriceRows(item: LineItem): (r: seq<PriceRow>)
    requires ShippingReadable(item)
    ensures |r| == if IsQuotationItem(item) then 6 else 4
    ensures (exists i :: 0 <= i < |r| && r[i].TotalQuotedPriceRow?) <==> IsQuotationItem(item)
    ensures (exists i :: 0 <= i < |r| && r[i].UnitQuotedPriceRow?) <==> IsQuotationItem(item)
    ensures ItemPriceRow(ItemPrice(item)) in r && ShippingPriceRow(ShippingPrice(item)) in r
    ensures AdditionalCostRow(AdditionalCost(item)) in r && MarginRow(MarginPrice(item)) in r
    ensures IsQuotationItem(item) ==> r[1..5] == SharedPriceRows(item)
    ensures !IsQuotationItem(item) ==> r == SharedPriceRows(item)
    ensures IsQuotationItem(item) ==>
      r[0] == TotalQuotedPriceRow(item.totalQuotedPrice.quotedPrice) &&
      r[5] == UnitQuotedPriceRow(item.unitQuotedPrice.quotedPrice)
  {
    var shared := SharedPriceRows(item);
    if IsQuotationItem(item) then
      var r := [TotalQuotedPriceRow(item.totalQuotedPrice.quotedPrice)] + shared + [UnitQuotedPriceRow(item.unitQuotedPrice.quotedPrice)];
      assert r[0].TotalQuotedPriceRow? && r[5].UnitQuotedPriceRow?;
      r
    else shared
  }

  /** A row of the "Shipping Detail" section. */
  datatype ShippingRow =
    | RouteRow(originCode: string, destinationCode: string, serviceType: string, price: int)
    | NumberedRow(number: nat, weight: int, price: int)

  function RouteRows(legs: seq<QuotationShipping>): (r: seq<ShippingRow>)
    ensures |r| == |legs|
    ensures forall i :: 0 <= i < |legs| ==>
      r[i] == RouteRow(legs[i].originCode, legs[i].destinationCode, legs[i].serviceType, legs[i].price)
  {
    if legs == [] then []
    else [RouteRow(legs[0].originCode, legs[0].destinationCode, legs[0].serviceType, legs[0].price)] + RouteRows(legs[1..])
  }

  function NumberedRows(legs: seq<PrShipping>, first: nat): (r: seq<ShippingRow>)
    ensures |r| == |legs|
    ensures forall i :: 0 <= i < |legs| ==> r[i] == NumberedRow(first + i, legs[i].weight, legs[i].shippingPrice)
  {
    if legs == [] then []
    else [NumberedRow(first, legs[0].weight, legs[0].shippingPrice)] + NumberedRows(legs[1..], first + 1)
  }

  /**
   * The "Shipping Detail" section: absent without legs; otherwise one row per leg,
   * a route row for quotation lines and "Shipping n" (numbered from 1) for
   * purchase-request lines. It lists every leg, while the Shipping Price row shows
   * only the first leg's price, which is the price of the first detail row.
   */
  function ShippingDetail(item: LineItem): (r: seq<ShippingRow>)
    requires ShippingReadable(item)
    ensures !HasShipping(item) ==> r == []
    ensures HasShipping(item) && IsQuotationItem(item) ==>
      |r| == |item.quotationShipping.value| && r == RouteRows(item.quotationShipping.value)
    ensures HasShipping(item) && !IsQuotationItem(item) ==>
      |r| == |item.prShipping.value| && forall i :: 0 <= i < |r| ==> r[i].NumberedRow? && r[i].number == i + 1
    ensures HasShipping(item) && !IsQuotationItem(item) ==> r == NumberedRows(item.prShipping.value, 1)
    ensures HasShipping(item) ==> |r| > 0 && r[0].price == ShippingPrice(item)
  {
    if !HasShipping(item) then []
    else if IsQuotationItem(item) then RouteRows(item.quotationShipping.value)
    else NumberedRows(item.prShipping.value, 1)
  }

  /** The card's expand state and the target of its height/opacity animation. */
  class ExpandState {
    var isExpanded: bool
    var animationTarget: int

    /** The animation always runs towards the state the card is in: 1 open, 0 closed. */
    ghost predicate Valid()
      reads this
    {
      animationTarget == (if isExpanded then 1 else 0)
    }

    /** A card starts collapsed with its animated value at 0. */
    constructor ()
      ensures Valid() && !isExpanded && animationTarget == 0
    {
      isExpanded := false;
      animationTarget := 0;
    }

    /** `toggleExpanded`: flip the state and animate to 1 when opening, to 0 when closing. */
    method Toggle()
      requires Valid()
      modifies this
      ensures Valid()
      ensures isExpanded == !old(isExpanded)
      ensures animationTarget == (if old(isExpanded) then 0 else 1)
    {
      var wasExpanded := isExpanded;
      isExpanded := !wasExpanded;
      animationTarget := if wasExpanded then 0 else 1;
    }
  }

  /** Toggling twice gives back the state the card started in. */
  method ToggleTwice(card: ExpandState)
    requires card.Valid()
    modifies card
    ensures card.Valid()
    ensures card.isExpanded == old(card.isExpanded) && card.animationTarget == old(card.animationTarget)
  {
    card.Toggle();
    card.Toggle();
  }
}
