/** The invoice list: a text search, a status filter, a newest-first sort and the status badge colours. */
module InvoicesScreen {
  import opened Types
  import opened Text
  import opened Lists

  /** The status chips: "ALL" or one status. */
  datatype StatusFilter = AllStatuses | Only(status: InvoiceStatus)

  predicate Mentions(s: string, query: string)
  {
    Includes(ToLower(s), ToLower(query))
  }

  predicate ItemMentions(query: string, item: InvoiceItem)
  {
    Mentions(item.description, query)
  }

  /** The search: invoice number, customer name or any line description contains the query, ignoring case. */
  predicate MatchesSearch(inv: Invoice, query: string)
  {
    || Mentions(inv.invoiceNumber, query)
    || Mentions(inv.customerName, query)
    || Any(inv.items, item => ItemMentions(query, item))
  }

  predicate MatchesStatus(inv: Invoice, filter: StatusFilter)
  {
    filter == AllStatuses || inv.status == filter.status
  }

  /** An empty query matches every invoice. */
  lemma EmptySearchMatchesAll(inv: Invoice)
    ensures MatchesSearch(inv, "")
  {
    IncludesEmpty(ToLower(inv.invoiceNumber));
  }

  function Keeps(query: string, filter: StatusFilter): Invoice -> bool
  {
    inv => MatchesSearch(inv, query) && MatchesStatus(inv, filter)
  }

  /**
   * `filteredInvoices`: the stored invoices, in order, that match the search
   * and the status filter; under "ALL" only the search decides.
   */
  function FilteredInvoices(invoices: seq<Invoice>, query: string, filter: StatusFilter): (r: seq<Invoice>)
    ensures IsSubsequence(r, invoices)
    ensures forall inv | inv in r :: MatchesSearch(inv, query) && (filter.Only? ==> inv.status == filter.status)
    ensures forall inv | inv in invoices && MatchesSearch(inv, query) && MatchesStatus(inv, filter) :: inv in r
    ensures forall inv | inv in invoices ::
              multiset(r)[inv] == if MatchesSearch(inv, query) && MatchesStatus(inv, filter) then multiset(invoices)[inv] else 0
  {
    var p := Keeps(query, filter);
    FilterIsSubsequence(invoices, p);
    FilterCounts(invoices, p);
    var r := Filter(invoices, p);
    r
  }

  /** With no query and the "ALL" chip the whole list is shown. */
  lemma NoFilterShowsAll(invoices: seq<Invoice>)
    ensures FilteredInvoices(invoices, "", AllStatuses) == invoices
  {
    forall i | 0 <= i < |invoices| ensures Keeps("", AllStatuses)(invoices[i]) {
      EmptySearchMatchesAll(invoices[i]);
    }
    FilterKeepsAll(invoices, Keeps("", AllStatuses));
  }

  function DateKey(inv: Invoice): int { inv.date }

  /** `sortedInvoices`: the filtered list, newest first. */
  function SortedInvoices(filtered: seq<Invoice>): (r: seq<Invoice>)
    ensures multiset(r) == multiset(filtered)
    ensures SortedDesc(r, DateKey)
  {
    SortDesc(filtered, DateKey)
  }

  predicate IsHexDigit(c: char) { IsDigit(c) || 'A' <= c <= 'F' }

  /** A CSS colour `#RRGGBB`. */
  predicate IsHexColor(c: string)
  {
    |c| == 7 && c[0] == '#' && forall i :: 1 <= i < 7 ==> IsHexDigit(c[i])
  }

  /** `getStatusBadgeColor(status)`: a `#RRGGBB` colour for every status. */
  function StatusBadgeColor(status: InvoiceStatus): (r: string)
    ensures IsHexColor(r)
  {
    match status
    case Draft => "#757575"
    case Sent => "#2196F3"
    case PartiallyPaid => "#FF9800"
    case Paid => "#4CAF50"
    case Overdue => "#F44336"
    case Cancelled => "#9E9E9E"
  }

  /**
   * Every status has a colour; draft and cancelled are both grey but in
   * different shades, so the six colours are pairwise distinct.
   */
  lemma BadgeColorsDistinct(a: InvoiceStatus, b: InvoiceStatus)
    ensures |StatusBadgeColor(a)| == 7 && StatusBadgeColor(a)[0] == '#'
    ensures StatusBadgeColor(a) == StatusBadgeColor(b) <==> a == b
  {
  }
}
