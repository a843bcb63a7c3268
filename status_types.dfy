/**
 * The document status enumerations declared in the type files, with the wire
 * string each value travels as. Display code switches on the raw string, so the
 * display functions elsewhere take `string`; these datatypes let lemmas quantify
 * over exactly the declared values.
 */
module StatusTypes {

  /** 'pending' | 'approved' | 'draft' | 'declined' */
  datatype PurchaseRequestStatus = Pending | Approved | Draft | Declined

  /** 'pending' | 'qualified' | 'unqualified' */
  datatype QuotationStatus = Pending | Qualified | Unqualified

  /** 'paid' | 'unpaid' */
  datatype InvoiceStatus = Paid | Unpaid

  /** 'preparing' | 'in_transit' | 'partially_arrived' | 'completed' | 'cancelled' */
  datatype TrackingStatus = Preparing | InTransit | PartiallyArrived | Completed | Cancelled

  /** 'draft' | 'pending' | 'purchased' (no 'cancelled': the purchase-order chart adds that key itself) */
  datatype PurchaseOrderStatus = Draft | Pending | Purchased

  function PrName(s: PurchaseRequestStatus): string {
    match s
    case Pending => "pending"
    case Approved => "approved"
    case Draft => "draft"
    case Declined => "declined"
  }

  function QuotationName(s: QuotationStatus): string {
    match s
    case Pending => "pending"
    case Qualified => "qualified"
    case Unqualified => "unqualified"
  }

  function InvoiceName(s: InvoiceStatus): string {
    match s
    case Paid => "paid"
    case Unpaid => "unpaid"
  }

  function TrackingName(s: TrackingStatus): string {
    match s
    case Preparing => "preparing"
    case InTransit => "in_transit"
    case PartiallyArrived => "partially_arrived"
    case Completed => "completed"
    case Cancelled => "cancelled"
  }

  function PurchaseOrderName(s: PurchaseOrderStatus): string {
    match s
    case Draft => "draft"
    case Pending => "pending"
    case Purchased => "purchased"
  }

  // Distinct values travel as distinct strings, so a switch on the string can tell them apart.

  lemma PrNamesInjective()
    ensures forall a: PurchaseRequestStatus, b: PurchaseRequestStatus :: a != b ==> PrName(a) != PrName(b)
  {
  }

  lemma QuotationNamesInjective()
    ensures forall a: QuotationStatus, b: QuotationStatus :: a != b ==> QuotationName(a) != QuotationName(b)
  {
  }

  lemma InvoiceNamesInjective()
    ensures forall a: InvoiceStatus, b: InvoiceStatus :: a != b ==> InvoiceName(a) != InvoiceName(b)
  {
  }

  lemma TrackingNamesInjective()
    ensures forall a: TrackingStatus, b: TrackingStatus :: a != b ==> TrackingName(a) != TrackingName(b)
  {
  }

  lemma PurchaseOrderNamesInjective()
    ensures forall a: PurchaseOrderStatus, b: PurchaseOrderStatus :: a != b ==> PurchaseOrderName(a) != PurchaseOrderName(b)
  {
  }
}
