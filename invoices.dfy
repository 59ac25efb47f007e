/** The Invoices page: the invoice table with a search box and a status filter,
    and the status badge's class and label. */
module Invoices {
  import Text
  import Collections

  datatype Invoice = Invoice(id: string, client: string, amount: real, date: string, dueDate: string, status: string)

  function InvoiceShown(inv: Invoice, search: string, statusFilter: string): (r: bool)
    ensures r <==> (Text.MatchesSearch(inv.id, search) || Text.MatchesSearch(inv.client, search))
                   && (statusFilter == "all" || inv.status == statusFilter)
    ensures search == "" && statusFilter == "all" ==> r
  {
    var matchesSearch := Text.MatchesSearch(inv.id, search) || Text.MatchesSearch(inv.client, search);
    var matchesStatus := statusFilter == "all" || inv.status == statusFilter;
    matchesSearch && matchesStatus
  }

  /** `filteredInvoices`, over any table of invoices. */
  function FilteredInvoices(data: seq<Invoice>, search: string, statusFilter: string): (r: seq<Invoice>)
    ensures forall i :: 0 <= i < |r| ==> r[i] in data && InvoiceShown(r[i], search, statusFilter)
    ensures forall i :: 0 <= i < |data| && InvoiceShown(data[i], search, statusFilter) ==> data[i] in r
    ensures Collections.SubsequenceOf(r, data)
    ensures forall x :: multiset(r)[x] == if InvoiceShown(x, search, statusFilter) then multiset(data)[x] else 0
  {
    Collections.FilterIsSubsequence(data, inv => InvoiceShown(inv, search, statusFilter));
    Collections.FilterCounts(data, inv => InvoiceShown(inv, search, statusFilter));
    Collections.Filter(data, inv => InvoiceShown(inv, search, statusFilter))
  }

  lemma NoFilterShowsAll(data: seq<Invoice>)
    ensures FilteredInvoices(data, "", "all") == data
  {
    Collections.FilterKeepsAll(data, inv => InvoiceShown(inv, "", "all"));
  }

  /** `getStatusClasses`: three known statuses have their own class; "draft" and
      everything else share the draft class. */
  function StatusClasses(status: string): (r: string)
    ensures status == "paid" <==> r == "invoice-status-paid"
    ensures status == "unpaid" <==> r == "invoice-status-unpaid"
    ensures status == "overdue" <==> r == "invoice-status-overdue"
    ensures status !in {"paid", "unpaid", "overdue"} <==> r == "invoice-status-draft"
  {
    match status
    case "paid" => "invoice-status-paid"
    case "unpaid" => "invoice-status-unpaid"
    case "overdue" => "invoice-status-overdue"
    case _ => "invoice-status-draft"
  }

  /** The badge text: the status with its first letter capitalised. */
  function StatusLabel(status: string): (r: string)
    ensures |r| == |status|
    ensures status != "" ==> !Text.IsLower(r[0]) && r[1..] == status[1..]
    ensures status != "" ==> r[0] == Text.UpperChar(status[0])
    ensures status != "" && Text.IsLower(status[0]) ==> r[0] as int == status[0] as int - 32
  {
    Text.Capitalize(status)
  }

  lemma StatusLabels()
    ensures StatusLabel("paid") == "Paid" && StatusLabel("overdue") == "Overdue"
    ensures StatusLabel("") == ""
  {
  }
}
