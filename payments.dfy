/** The Payments page: a searchable, status-filtered table of payment records and
    the Record Payment dialog, which sets a record's paid amount and status. */
module Payments {
  import Text
  import Collections

  datatype Payment = Payment(
    id: string,
    invoiceId: string,
    client: string,
    amount: real,
    amountPaid: real,
    paymentDate: string,
    paymentMethod: string,
    status: string,
    notes: string)

  /** The row test of `filteredPayments`: the search hits the invoice id or the
      client (ignoring case), and the status filter is "all" or equal to the status. */
  function PaymentShown(p: Payment, search: string, statusFilter: string): (r: bool)
    ensures r <==> (Text.MatchesSearch(p.invoiceId, search) || Text.MatchesSearch(p.client, search))
                   && (statusFilter == "all" || p.status == statusFilter)
    ensures search == "" && statusFilter == "all" ==> r
  {
    var matchesSearch := Text.MatchesSearch(p.invoiceId, search) || Text.MatchesSearch(p.client, search);
    var matchesStatus := statusFilter == "all" || p.status == statusFilter;
    matchesSearch && matchesStatus
  }

  function FilteredPayments(payments: seq<Payment>, search: string, statusFilter: string): (r: seq<Payment>)
    ensures forall i :: 0 <= i < |r| ==> r[i] in payments && PaymentShown(r[i], search, statusFilter)
    ensures forall i :: 0 <= i < |payments| && PaymentShown(payments[i], search, statusFilter) ==> payments[i] in r
    ensures Collections.SubsequenceOf(r, payments)
    ensures forall x :: multiset(r)[x] == if PaymentShown(x, search, statusFilter) then multiset(payments)[x] else 0
  {
    Collections.FilterIsSubsequence(payments, p => PaymentShown(p, search, statusFilter));
    Collections.FilterCounts(payments, p => PaymentShown(p, search, statusFilter));
    Collections.Filter(payments, p => PaymentShown(p, search, statusFilter))
  }

  /** With an empty search and the filter at "all", the whole table is shown. */
  lemma NoFilterShowsAll(payments: seq<Payment>)
    ensures FilteredPayments(payments, "", "all") == payments
  {
    Collections.FilterKeepsAll(payments, p => PaymentShown(p, "", "all"));
  }

  /** The status a recorded payment gets, from the amount entered and the invoice amount. */
  function StatusFor(amountValue: real, invoiceAmount: real): (r: string)
    ensures r == "paid" <==> amountValue >= invoiceAmount
    ensures r == "partial" <==> 0.0 < amountValue < invoiceAmount
    ensures r == "unpaid" <==> amountValue <= 0.0 && amountValue < invoiceAmount
  {
    if amountValue >= invoiceAmount then "paid"
    else if amountValue > 0.0 then "partial"
    else "unpaid"
  }

  /** The record `handleAddPayment` looks up: the first with the selected invoice id. */
  function SelectedPayment(payments: seq<Payment>, invoiceId: string): (r: Collections.Option<Payment>)
    ensures r.None? <==> forall i :: 0 <= i < |payments| ==> payments[i].invoiceId != invoiceId
    ensures r.Some? ==> r.value in payments && r.value.invoiceId == invoiceId
    ensures r.Some? ==> exists i :: 0 <= i < |payments| && payments[i] == r.value &&
                                    forall j :: 0 <= j < i ==> payments[j].invoiceId != invoiceId
  {
    Collections.FindFirst(payments, (p: Payment) => p.invoiceId == invoiceId)
  }

  /** The `payments.map(...)` of `handleAddPayment`: every record with the invoice id
      has its paid amount replaced and its date, method, status and notes set. */
  function WithPaymentRecorded(payments: seq<Payment>, invoiceId: string, amountValue: real,
                               date: string, payMethod: string, status: string, notes: string): (r: seq<Payment>)
    ensures |r| == |payments|
    ensures forall i :: 0 <= i < |payments| && payments[i].invoiceId != invoiceId ==> r[i] == payments[i]
    ensures forall i :: 0 <= i < |payments| && payments[i].invoiceId == invoiceId ==>
      && r[i].id == payments[i].id && r[i].invoiceId == invoiceId
      && r[i].client == payments[i].client && r[i].amount == payments[i].amount
      && r[i].amountPaid == amountValue && r[i].paymentDate == date && r[i].paymentMethod == payMethod
      && r[i].status == status && r[i].notes == notes
  {
    seq(|payments|, i requires 0 <= i < |payments| =>
      if payments[i].invoiceId == invoiceId
      then payments[i].(amountPaid := amountValue, paymentDate := date, paymentMethod := payMethod,
                        status := status, notes := notes)
      else payments[i])
  }

  /** Recording twice for the same invoice keeps only the second entry: the paid
      amount is replaced, never accumulated. */
  lemma RecordingReplaces(payments: seq<Payment>, invoiceId: string,
                          a1: real, d1: string, m1: string, s1: string, n1: string,
                          a2: real, d2: string, m2: string, s2: string, n2: string)
    ensures WithPaymentRecorded(WithPaymentRecorded(payments, invoiceId, a1, d1, m1, s1, n1), invoiceId, a2, d2, m2, s2, n2)
         == WithPaymentRecorded(payments, invoiceId, a2, d2, m2, s2, n2)
  {
  }

  const DefaultMethod := "Credit Card"

  /** The state of the Payments page. */
  class PaymentsPage {
    var payments: seq<Payment>
    var search: string
    var statusFilter: string
    var open: bool
    var selectedInvoice: string
    var paymentAmount: string
    var paymentMethod: string
    var paymentNotes: string

    constructor (initial: seq<Payment>)
      ensures payments == initial && search == "" && statusFilter == "all" && !open
      ensures selectedInvoice == "" && paymentAmount == "" && paymentMethod == DefaultMethod && paymentNotes == ""
    {
      payments := initial;
      search, statusFilter, open := "", "all", false;
      selectedInvoice, paymentAmount, paymentMethod, paymentNotes := "", "", DefaultMethod, "";
    }

    function Shown(): (r: seq<Payment>)
      reads this
      ensures |r| <= |payments|
    {
      FilteredPayments(payments, search, statusFilter)
    }

    method ResetForm()
      modifies this
      ensures selectedInvoice == "" && paymentAmount == "" && paymentMethod == DefaultMethod && paymentNotes == ""
      ensures payments == old(payments) && search == old(search) && statusFilter == old(statusFilter) && open == old(open)
    {
      selectedInvoice, paymentAmount, paymentMethod, paymentNotes := "", "", DefaultMethod, "";
    }

    /** `handleAddPayment`. `amountValue` is `parseFloat(paymentAmount)` and `today`
        the current date, both supplied by the caller. */
    method AddPayment(amountValue: real, today: string)
      modifies this
      ensures SelectedPayment(old(payments), old(selectedInvoice)).None? || old(paymentAmount) == "" ==>
        && payments == old(payments) && open == old(open)
        && selectedInvoice == old(selectedInvoice) && paymentAmount == old(paymentAmount)
        && paymentMethod == old(paymentMethod) && paymentNotes == old(paymentNotes)
      ensures SelectedPayment(old(payments), old(selectedInvoice)).Some? && old(paymentAmount) != "" ==>
        && payments == WithPaymentRecorded(old(payments), old(selectedInvoice), amountValue, today, old(paymentMethod),
             StatusFor(amountValue, SelectedPayment(old(payments), old(selectedInvoice)).value.amount), old(paymentNotes))
        && !open
        && selectedInvoice == "" && paymentAmount == "" && paymentMethod == DefaultMethod && paymentNotes == ""
      ensures search == old(search) && statusFilter == old(statusFilter)
    {
      var selected := SelectedPayment(payments, selectedInvoice);
      if selected.None? || paymentAmount == "" {
        return;
      }
      var newStatus := StatusFor(amountValue, selected.value.amount);
      payments := WithPaymentRecorded(payments, selectedInvoice, amountValue, today, paymentMethod, newStatus, paymentNotes);
      open := false;
      ResetForm();
    }
  }
}
