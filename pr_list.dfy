/**
 * The purchase-request list screen: status colours and labels, the table rows,
 * the empty-list row, the status summary chips, and the page/limit state behind
 * the table's pagination control.
 */
module PrList {
  import opened Wrappers
  import opened StatusTypes

  const UnknownColor := "#BDBDBD"

  /** `statusColor`: the chip color for each purchase-request status, gray for anything else. */
  function StatusColor(status: string): (r: string)
    ensures status != "approved" && status != "pending" && status != "declined" && status != "draft" ==> r == UnknownColor
  {
    match status
    case "approved" => "#4CAF50"
    case "pending" => "#FFC107"
    case "declined" => "#F44336"
    case "draft" => "#90A4AE"
    case _ => UnknownColor
  }

  /** The four purchase-request statuses get four distinct colours, none of them the fallback. */
  lemma StatusColorsDistinct()
    ensures forall a: PurchaseRequestStatus, b: PurchaseRequestStatus :: a != b ==> StatusColor(PrName(a)) != StatusColor(PrName(b))
    ensures forall a: PurchaseRequestStatus :: StatusColor(PrName(a)) != UnknownColor
  {
  }

  predicate IsLowerAscii(c: char) {
    'a' <= c <= 'z'
  }

  /** Upper-casing one character, for the ASCII letters the statuses are written in. */
  function UpperChar(c: char): (r: char)
    ensures !IsLowerAscii(r)
    ensures !IsLowerAscii(c) ==> r == c
    ensures IsLowerAscii(c) ==> 'A' <= r <= 'Z' && r as int - 'A' as int == c as int - 'a' as int
  {
    if IsLowerAscii(c) then (c as int - 32) as char else c
  }

  /** The chip text: the status with its first character upper-cased and the rest as it was; '' stays ''. */
  function Capitalize(status: string): (r: string)
    ensures |r| == |status|
    ensures status == [] ==> r == []
    ensures status != [] ==> r[0] == UpperChar(status[0]) && r[1..] == status[1..]
  {
    if status == [] then [] else [UpperChar(status[0])] + status[1..]
  }

  /** Capitalizing a capitalized status changes nothing. */
  lemma CapitalizeIdempotent(status: string)
    ensures Capitalize(Capitalize(status)) == Capitalize(status)
  {
  }

  /** The declared statuses read "Pending", "Approved", "Draft" and "Declined". */
  lemma DeclaredStatusLabels()
    ensures Capitalize(PrName(PurchaseRequestStatus.Pending)) == "Pending"
    ensures Capitalize(PrName(Approved)) == "Approved"
    ensures Capitalize(PrName(PurchaseRequestStatus.Draft)) == "Draft"
    ensures Capitalize(PrName(Declined)) == "Declined"
  {
  }

  /** A row of the list response. */
  datatype PrListRow = PrListRow(id: int, code: string, clientName: string, destinationName: string,
                                 totalItemCount: int, status: string, grandTotal: int)

  datatype Pagination = Pagination(limit: int, page: int, sort: string, totalRows: int, totalPages: int)

  /** Count of purchase requests per status. */
  datatype MetaData = MetaData(approved: int, declined: int, draft: int, pending: int)

  datatype Meta = Meta(pagination: Option<Pagination>, metaData: Option<MetaData>)

  datatype ListResponse = ListResponse(data: Option<seq<PrListRow>>, meta: Option<Meta>)

  /** A rendered table row: the status chip carries the capitalized status and its colour. */
  datatype RowView = RowView(code: string, clientName: string, destinationName: string, totalItemCount: int,
                             chipText: string, chipColor: string, grandTotal: int)

  function RowViews(rows: seq<PrListRow>): (r: seq<RowView>)
    ensures |r| == |rows|
    ensures forall i :: 0 <= i < |rows| ==>
      r[i].code == rows[i].code && r[i].grandTotal == rows[i].grandTotal &&
      r[i].chipText == Capitalize(rows[i].status) && r[i].chipColor == StatusColor(rows[i].status)
  {
    if rows == [] then []
    else
      var row := rows[0];
      [RowView(row.code, row.clientName, row.destinationName, row.totalItemCount,
               Capitalize(row.status), StatusColor(row.status), row.grandTotal)] + RowViews(rows[1..])
  }

  /** The pagination control: a zero-based `page` for the table, the one-based page in the label. */
  datatype PaginationView = PaginationView(tablePage: int, numberOfPages: int, labelPage: int, labelTotal: int, itemsPerPage: int)

  /** The table control counts pages from 0, the API from 1. */
  function TablePage(page: int): int {
    page - 1
  }

  /** The table: the "No purchase requests found." row, one row per item, and the pagination control when the response has pagination. */
  datatype TableView = TableView(emptyRow: bool, rows: seq<RowView>, pagination: Option<PaginationView>)

  /** `prData`: the response's rows, or the empty list when the response or its data is missing. */
  function PrData(response: Option<ListResponse>): seq<PrListRow> {
    if response.Some? && response.value.data.Some? then response.value.data.value else []
  }

  function PaginationOf(response: Option<ListResponse>): Option<Pagination> {
    if response.Some? && response.value.meta.Some? then response.value.meta.value.pagination else None
  }

  /**
   * The table of a loaded response: the empty-list row appears exactly when there
   * are no rows (a missing list counts as empty), there is one row per item, and
   * the control shows the zero-based page while its label shows the one-based one.
   */
  function Table(response: Option<ListResponse>): (r: TableView)
    ensures r.emptyRow <==> |PrData(response)| == 0
    ensures |r.rows| == |PrData(response)| && r.rows == RowViews(PrData(response))
    ensures r.pagination.Some? <==> PaginationOf(response).Some?
    ensures r.pagination.Some? ==>
      var p := PaginationOf(response).value;
      r.pagination.value.tablePage == p.page - 1 && r.pagination.value.labelPage == p.page &&
      r.pagination.value.numberOfPages == p.totalPages && r.pagination.value.labelTotal == p.totalPages &&
      r.pagination.value.itemsPerPage == p.limit
  {
    var rows := PrData(response);
    var pagination := PaginationOf(response);
    TableView(
      |rows| == 0,
      RowViews(rows),
      match pagination
      case None => None
      case Some(p) => Some(PaginationView(TablePage(p.page), p.totalPages, p.page, p.totalPages, p.limit)))
  }

  /** A status summary chip. */
  datatype Chip = Chip(text: string, count: int, color: string)

  /** The summary chips, Draft, Pending, Approved, Declined, each in its status colour; none without meta data. */
  function StatusSummary(metaData: Option<MetaData>): (r: seq<Chip>)
    ensures metaData.None? ==> r == []
    ensures metaData.Some? ==>
      |r| == 4 &&
      r[0].count == metaData.value.draft && r[1].count == metaData.value.pending &&
      r[2].count == metaData.value.approved && r[3].count == metaData.value.declined &&
      forall i, j :: 0 <= i < j < 4 ==> r[i].color != r[j].color
  {
    match metaData
    case None => []
    case Some(m) => [
      Chip("Draft", m.draft, StatusColor("draft")),
      Chip("Pending", m.pending, StatusColor("pending")),
      Chip("Approved", m.approved, StatusColor("approved")),
      Chip("Declined", m.declined, StatusColor("declined"))]
  }

  function MetaDataOf(response: Option<ListResponse>): Option<MetaData> {
    if response.Some? && response.value.meta.Some? then response.value.meta.value.metaData else None
  }

  /** The whole screen: the loading indicator, or the status summary above the table. */
  datatype ScreenView = LoadingList | ListShown(summary: seq<Chip>, table: TableView)

  /** Loading first; once loaded, the chips appear exactly when the response carries meta data. */
  function Screen(isLoading: bool, response: Option<ListResponse>): (r: ScreenView)
    ensures r.LoadingList? <==> isLoading
    ensures r.ListShown? ==> r.table == Table(response)
    ensures r.ListShown? ==> (|r.summary| == 0 <==> MetaDataOf(response).None?)
  {
    if isLoading then LoadingList else ListShown(StatusSummary(MetaDataOf(response)), Table(response))
  }

  /**
   * The page the screen requests after the table reports the zero-based page it
   * moved to, as written: the page-change handler stores that index as the page.
   */
  function PageAfterChangeAsWritten(tablePage: int): (r: int)
    ensures TablePage(r) == tablePage - 1
  {
    tablePage
  }

  /** As written, the control lands one page before the one chosen; "next" on the first page stays on page 1. */
  lemma PageChangeAsWrittenLosesAPage(tablePage: int)
    ensures TablePage(PageAfterChangeAsWritten(tablePage)) == tablePage - 1
    ensures PageAfterChangeAsWritten(TablePage(1) + 1) == 1
  {
  }

  /** The intended handler: convert the control's zero-based page back to the API's one-based page. */
  function PageAfterChange(tablePage: int): (r: int)
    ensures TablePage(r) == tablePage
  {
    tablePage + 1
  }

  /** With the conversion, the control shows the page chosen, and "next" from any page requests the following one. */
  lemma PageChangeRoundTrip(page: int)
    ensures PageAfterChange(TablePage(page)) == page
    ensures PageAfterChange(TablePage(page) + 1) == page + 1
  {
  }

  /** The screen's `page` and `limit` state. */
  class PrListScreen {
    var page: int
    var limit: int

    /** The screen starts on page 1 with 10 rows per page. */
    constructor ()
      ensures page == 1 && limit == 10
    {
      page, limit := 1, 10;
    }

    /** The table reports a new zero-based page, and the handler stores it unchanged as the one-based page. */
    method OnPageChange(tablePage: int)
      modifies this
      ensures page == PageAfterChangeAsWritten(tablePage) && TablePage(page) == tablePage - 1
      ensures limit == old(limit)
    {
      page := PageAfterChangeAsWritten(tablePage);
    }

    /** The intended handler: the reported zero-based page is converted back to one-based before it is stored. */
    method OnPageChangeOneBased(tablePage: int)
      modifies this
      ensures page == PageAfterChange(tablePage) && TablePage(page) == tablePage
      ensures limit == old(limit)
    {
      page := PageAfterChange(tablePage);
    }

    /** Changing the rows per page: the limit is replaced and the page is kept. */
    method OnItemsPerPageChange(newLimit: int)
      modifies this
      ensures limit == newLimit && page == old(page)
    {
      limit := newLimit;
    }
  }
}
