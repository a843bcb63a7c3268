/** The status badge of an invoice card. */
module InvoiceCard {
  import opened StatusTypes

  const PaidColor := "#10B981"
  const UnpaidColor := "#EF4444"
  const UnknownColor := "#6B7280"

  /** `getStatusColor`: green for 'paid', red for 'unpaid', gray for anything else. */
  function StatusColor(status: string): (r: string)
    ensures r == PaidColor <==> status == "paid"
    ensures r == UnpaidColor <==> status == "unpaid"
    ensures r == UnknownColor <==> status != "paid" && status != "unpaid"
  {
    match status
    case "paid" => PaidColor
    case "unpaid" => UnpaidColor
    case _ => UnknownColor
  }

  /** `getStatusText`: 'Paid' and 'Unpaid' for the two statuses, the string itself otherwise. */
  function StatusText(status: string): (r: string)
    ensures status == "paid" || status == "unpaid" ==> r != status && r != "paid" && r != "unpaid"
    ensures status != "paid" && status != "unpaid" ==> r == status
  {
    match status
    case "paid" => "Paid"
    case "unpaid" => "Unpaid"
    case _ => status
  }

  /** Applying the label mapping to a label changes nothing more. */
  lemma StatusTextIdempotent(status: string)
    ensures StatusText(StatusText(status)) == StatusText(status)
  {
  }

  /** The two declared statuses get distinct colours and distinct labels. */
  lemma DeclaredStatusesDistinct()
    ensures StatusColor(InvoiceName(Paid)) != StatusColor(InvoiceName(Unpaid))
    ensures StatusText(InvoiceName(Paid)) != StatusText(InvoiceName(Unpaid))
  {
  }
}
