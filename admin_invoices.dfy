/** The admin console's invoice table: a case-insensitive search plus exact
    status and user filters, where an empty filter means "any", and the list of
    users the user filter offers. */
module AdminInvoices {
  import Text
  import Collections

  datatype AdminInvoice = AdminInvoice(
    id: string,
    user: string,
    userId: int,
    clientName: string,
    issueDate: string,
    dueDate: string,
    amount: string,
    status: string)

  const AdminInvoiceData: seq<AdminInvoice> := [
    AdminInvoice("INV-001", "John Doe", 1, "Acme Inc.", "2025-04-01", "2025-04-15", "$2,500.00", "Paid"),
    AdminInvoice("INV-002", "Jane Smith", 2, "Widget Co.", "2025-04-05", "2025-04-19", "$1,200.00", "Pending"),
    AdminInvoice("INV-003", "Alice Williams", 4, "Tech Innovations", "2025-03-28", "2025-04-11", "$3,750.00", "Overdue"),
    AdminInvoice("INV-004", "John Doe", 1, "Global Solutions", "2025-04-10", "2025-04-24", "$950.00", "Draft"),
    AdminInvoice("INV-005", "Charlie Brown", 5, "Design Masters", "2025-04-12", "2025-04-26", "$1,850.00", "Paid")
  ]

  /** The badge colour of each status; a status outside the map has none. */
  const StatusColorMap: map<string, string> := map[
    "Paid" := "bg-green-500",
    "Pending" := "bg-yellow-500",
    "Overdue" := "bg-red-500",
    "Draft" := "bg-gray-500"
  ]

  function StatusColor(status: string): (r: Collections.Option<string>)
    ensures r.Some? <==> status in {"Paid", "Pending", "Overdue", "Draft"}
    ensures status == "Paid" ==> r == Collections.Some("bg-green-500")
    ensures status == "Pending" ==> r == Collections.Some("bg-yellow-500")
    ensures status == "Overdue" ==> r == Collections.Some("bg-red-500")
    ensures status == "Draft" ==> r == Collections.Some("bg-gray-500")
  {
    if status in StatusColorMap then Collections.Some(StatusColorMap[status]) else Collections.None
  }

  /** `Array.from(new Set(invoices.map(invoice => invoice.user)))`. */
  function UniqueUsers(invoices: seq<AdminInvoice>): (r: seq<string>)
    ensures forall i, j :: 0 <= i < j < |r| ==> r[i] != r[j]
    ensures forall k :: 0 <= k < |invoices| ==> invoices[k].user in r
    ensures forall i :: 0 <= i < |r| ==> exists k :: 0 <= k < |invoices| && invoices[k].user == r[i]
  {
    var users := seq(|invoices|, k requires 0 <= k < |invoices| => invoices[k].user);
    var r := Collections.Distinct(users);
    assert forall k :: 0 <= k < |invoices| ==> users[k] == invoices[k].user;
    r
  }

  /** The users are listed in the order in which each first appears in the table. */
  lemma UniqueUsersInFirstOccurrenceOrder(invoices: seq<AdminInvoice>, i: nat, j: nat)
    requires i < j < |UniqueUsers(invoices)|
    ensures var users := seq(|invoices|, k requires 0 <= k < |invoices| => invoices[k].user);
            var r := UniqueUsers(invoices);
            r[i] in users && r[j] in users && Collections.FirstIndex(users, r[i]) < Collections.FirstIndex(users, r[j])
  {
    var users := seq(|invoices|, k requires 0 <= k < |invoices| => invoices[k].user);
    Collections.DistinctOrder(users);
  }

  /** The user column of the page's table: John Doe appears twice. */
  lemma DemoUserColumn()
    ensures seq(|AdminInvoiceData|, k requires 0 <= k < |AdminInvoiceData| => AdminInvoiceData[k].user)
         == ["John Doe", "Jane Smith", "Alice Williams", "John Doe", "Charlie Brown"]
  {
  }

  /** On the page's table the user filter offers John Doe, who has two invoices,
      once: there are fewer options than invoices. */
  lemma DemoUserOptions()
    ensures var r := UniqueUsers(AdminInvoiceData);
            |r| < |AdminInvoiceData| && "John Doe" in r && "Charlie Brown" in r
  {
    DemoUserColumn();
    var users := seq(|AdminInvoiceData|, k requires 0 <= k < |AdminInvoiceData| => AdminInvoiceData[k].user);
    Collections.DistinctShorter(users, 0, 3);
  }

  /** The three filter inputs of the page. */
  datatype Filters = Filters(searchQuery: string, statusFilter: string, userFilter: string)

  /** What the Clear Filters button sets. */
  const Cleared := Filters("", "", "")

  /** The row test: the search hits id or client name ignoring case; status and
      user, when set, must equal the row's exactly. */
  function InvoiceShown(inv: AdminInvoice, f: Filters): (r: bool)
    ensures r <==> (Text.MatchesSearch(inv.id, f.searchQuery) || Text.MatchesSearch(inv.clientName, f.searchQuery))
                   && (f.statusFilter == "" || inv.status == f.statusFilter)
                   && (f.userFilter == "" || inv.user == f.userFilter)
    ensures f == Cleared ==> r
  {
    var matchesSearch := Text.MatchesSearch(inv.id, f.searchQuery) || Text.MatchesSearch(inv.clientName, f.searchQuery);
    var matchesStatus := if f.statusFilter != "" then inv.status == f.statusFilter else true;
    var matchesUser := if f.userFilter != "" then inv.user == f.userFilter else true;
    matchesSearch && matchesStatus && matchesUser
  }

  function FilteredInvoices(invoices: seq<AdminInvoice>, f: Filters): (r: seq<AdminInvoice>)
    ensures forall i :: 0 <= i < |r| ==> r[i] in invoices && InvoiceShown(r[i], f)
    ensures forall i :: 0 <= i < |invoices| && InvoiceShown(invoices[i], f) ==> invoices[i] in r
    ensures Collections.SubsequenceOf(r, invoices)
    ensures forall x :: multiset(r)[x] == if InvoiceShown(x, f) then multiset(invoices)[x] else 0
  {
    Collections.FilterIsSubsequence(invoices, inv => InvoiceShown(inv, f));
    Collections.FilterCounts(invoices, inv => InvoiceShown(inv, f));
    Collections.Filter(invoices, inv => InvoiceShown(inv, f))
  }

  /** After Clear Filters every invoice is shown again. */
  lemma ClearedShowsAll(invoices: seq<AdminInvoice>)
    ensures FilteredInvoices(invoices, Cleared) == invoices
  {
    Collections.FilterKeepsAll(invoices, inv => InvoiceShown(inv, Cleared));
  }

  /** The search ignores case but the status filter does not: "paid" finds no "Paid" invoice. */
  lemma StatusFilterIsCaseSensitive(inv: AdminInvoice, search: string, user: string)
    requires inv.status == "Paid"
    ensures !InvoiceShown(inv, Filters(search, "paid", user))
    ensures InvoiceShown(inv, Filters(search, "Paid", user)) == InvoiceShown(inv, Filters(search, "", user))
  {
  }
}
