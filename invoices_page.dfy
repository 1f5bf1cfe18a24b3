/**
 * The admin invoices screen: search and status filtering, the three summary
 * totals, the status filter buttons and the per-row display rules.
 */
module InvoicesPage {
  import opened Wrappers
  import opened Text
  import Seqs

  datatype InvoiceStatus = Draft | Sent | Viewed | Paid | Overdue | Cancelled

  /** The key order of the status table: draft, sent, viewed, paid, overdue, cancelled. */
  const StatusOrder: seq<InvoiceStatus> := [Draft, Sent, Viewed, Paid, Overdue, Cancelled]

  datatype InvoiceCustomer = InvoiceCustomer(id: string, name: string, company: Option<string>)

  datatype InvoiceJob = InvoiceJob(id: string, name: string)

  /** Money amounts are whole cents. */
  datatype Invoice = Invoice(
    id: string, invoiceNumber: Option<string>, status: InvoiceStatus,
    total: int, amountPaid: int, issueDate: string, dueDate: Option<string>,
    customer: Option<InvoiceCustomer>, job: Option<InvoiceJob>)

  // ----- filtering -----

  /** The search test: an empty query matches everything, otherwise number, customer name or company. */
  predicate MatchesSearch(inv: Invoice, searchQuery: string) {
    var q := Lower(searchQuery);
    || searchQuery == ""
    || FieldIncludes(inv.invoiceNumber, q)
    || (inv.customer.Some? && Includes(Lower(inv.customer.value.name), q))
    || (inv.customer.Some? && FieldIncludes(inv.customer.value.company, q))
  }

  /** The status test: no filter matches everything, otherwise the exact status. */
  predicate MatchesStatus(inv: Invoice, statusFilter: Option<InvoiceStatus>) {
    statusFilter.None? || inv.status == statusFilter.value
  }

  function InvoiceMatcher(searchQuery: string, statusFilter: Option<InvoiceStatus>): Invoice -> bool {
    (inv: Invoice) => MatchesSearch(inv, searchQuery) && MatchesStatus(inv, statusFilter)
  }

  /** `filteredInvoices`: the invoices passing both tests, or none while the list is loading. */
  function FilteredInvoices(invoices: Option<seq<Invoice>>, searchQuery: string, statusFilter: Option<InvoiceStatus>): seq<Invoice> {
    if invoices.None? then [] else Seqs.Filter(InvoiceMatcher(searchQuery, statusFilter), invoices.value)
  }

  /**
   * The filtered list keeps, in order, exactly the invoices that pass both tests;
   * with no search and no status filter it is the whole list, and with a status
   * filter every invoice shown has that status.
   */
  lemma FilteredInvoicesSpec(invoices: Option<seq<Invoice>>, searchQuery: string, statusFilter: Option<InvoiceStatus>)
    ensures invoices.None? ==> FilteredInvoices(invoices, searchQuery, statusFilter) == []
    ensures invoices.Some? ==> Seqs.IsSubsequence(FilteredInvoices(invoices, searchQuery, statusFilter), invoices.value)
    ensures invoices.Some? ==> forall inv :: inv in FilteredInvoices(invoices, searchQuery, statusFilter) <==>
              inv in invoices.value && MatchesSearch(inv, searchQuery) && MatchesStatus(inv, statusFilter)
    ensures invoices.Some? && searchQuery == "" && statusFilter.None? ==>
              FilteredInvoices(invoices, searchQuery, statusFilter) == invoices.value
    ensures statusFilter.Some? ==> forall inv :: inv in FilteredInvoices(invoices, searchQuery, statusFilter) ==>
              inv.status == statusFilter.value
  {
    if invoices.Some? {
      var keep := InvoiceMatcher(searchQuery, statusFilter);
      Seqs.FilterIsSubsequence(keep, invoices.value);
      Seqs.FilterMembers(keep, invoices.value);
      if searchQuery == "" && statusFilter.None? {
        Seqs.FilterAll(keep, invoices.value);
      }
    }
  }

  // ----- totals -----

  /** What is still owed on an invoice. */
  function Due(inv: Invoice): int { inv.total - inv.amountPaid }

  function Received(inv: Invoice): int { inv.amountPaid }

  function HasStatusIn(statuses: set<InvoiceStatus>): Invoice -> bool {
    (inv: Invoice) => inv.status in statuses
  }

  /** `totals.outstanding`: owed on sent, viewed and overdue invoices. */
  function OutstandingTotal(shown: seq<Invoice>): int {
    Seqs.Sum(Due, Seqs.Filter(HasStatusIn({Sent, Viewed, Overdue}), shown))
  }

  /** `totals.overdue`: owed on overdue invoices. */
  function OverdueTotal(shown: seq<Invoice>): int {
    Seqs.Sum(Due, Seqs.Filter(HasStatusIn({Overdue}), shown))
  }

  /** `totals.paid`: received on paid invoices. */
  function PaidTotal(shown: seq<Invoice>): int {
    Seqs.Sum(Received, Seqs.Filter(HasStatusIn({Paid}), shown))
  }

  /** An invoice never carries more paid than its total, nor a negative payment. */
  predicate WellFormed(inv: Invoice) {
    0 <= inv.amountPaid <= inv.total
  }

  /**
   * The outstanding total is the overdue total plus what is owed on sent and
   * viewed invoices; so, when payments never exceed totals, it is at least the
   * overdue total, which is itself never negative, and so is the paid total.
   */
  lemma {:induction false} TotalsSpec(shown: seq<Invoice>)
    ensures OutstandingTotal(shown) == OverdueTotal(shown) + Seqs.Sum(Due, Seqs.Filter(HasStatusIn({Sent, Viewed}), shown))
    ensures (forall i :: 0 <= i < |shown| ==> WellFormed(shown[i])) ==>
              0 <= OverdueTotal(shown) <= OutstandingTotal(shown) && 0 <= PaidTotal(shown)
  {
    var open := HasStatusIn({Sent, Viewed, Overdue});
    var late := HasStatusIn({Overdue});
    var early := HasStatusIn({Sent, Viewed});
    Seqs.SumFilterSplit(Due, open, late, early, shown);
    if forall i :: 0 <= i < |shown| ==> WellFormed(shown[i]) {
      NonNegativeOn(Due, late, shown);
      NonNegativeOn(Due, early, shown);
      NonNegativeOn(Received, HasStatusIn({Paid}), shown);
    }
  }

  lemma NonNegativeOn(f: Invoice -> int, keep: Invoice -> bool, shown: seq<Invoice>)
    requires forall i :: 0 <= i < |shown| ==> WellFormed(shown[i])
    requires f == Due || f == Received
    ensures Seqs.Sum(f, Seqs.Filter(keep, shown)) >= 0
  {
  }

  // ----- controls and display -----

  /** `Object.entries(statusConfig).slice(0, 4)`: the statuses offered as filter buttons. */
  function StatusButtons(): (r: seq<InvoiceStatus>)
    ensures r == [Draft, Sent, Viewed, Paid]
    ensures Overdue !in r && Cancelled !in r
  {
    Seqs.Take(StatusOrder, 4)
  }

  /** The label of an invoice: its number when it has a non-empty one, else INV- and its id's first 8 characters. */
  function DisplayNumber(inv: Invoice): (r: string)
    ensures inv.invoiceNumber.Some? && inv.invoiceNumber.value != "" ==> r == inv.invoiceNumber.value
    ensures !(inv.invoiceNumber.Some? && inv.invoiceNumber.value != "") ==>
              && StartsWith(r, "INV-")
              && r[4..] <= inv.id
              && |r| == 4 + (if |inv.id| < 8 then |inv.id| else 8)
  {
    if inv.invoiceNumber.Some? && inv.invoiceNumber.value != "" then inv.invoiceNumber.value
    else "INV-" + Seqs.Take(inv.id, 8)
  }

  /**
   * The "$n paid" line under an invoice's amount: it shows the amount received,
   * and only for a partly paid invoice, which then still has something due,
   * less than its total.
   */
  function PaidNote(inv: Invoice): (r: Option<int>)
    ensures r.Some? <==> 0 < Received(inv) && 0 < Due(inv)
    ensures r.Some? ==> r.value == Received(inv) && 0 < Due(inv) < inv.total
    ensures inv.amountPaid >= inv.total ==> r.None?
  {
    if inv.amountPaid > 0 && inv.amountPaid < inv.total then Some(inv.amountPaid) else None
  }
}
