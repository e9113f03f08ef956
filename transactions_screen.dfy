/**
 * The transaction list: a date filter, a text search and a newest-first
 * sort. The clock is an input: the current time and the calendar facts the
 * date-fns helpers compute from it.
 */
module TransactionsScreen {
  import opened Wrappers
  import opened Types
  import opened Text
  import opened Lists

  datatype DateFilter = AllDates | Today | Week | Month | Custom

  /**
   * What the date filters read from the clock: the current time, the
   * calendar day of a timestamp (`format(d, "yyyy-MM-dd")`), the same time
   * seven calendar days earlier (`subDays(today, 7)`), and the bounds of the
   * current month (`startOfMonth`, `endOfMonth`).
   */
  datatype Clock = Clock(now: Date, dayOf: Date -> int, weekAgo: Date, monthStart: Date, monthEnd: Date)

  /**
   * `applyDateFilter(transaction)`; `isAfter` and `isBefore` are strict. A
   * custom range checks each bound that is set and ignores a missing one.
   */
  function MatchesDate(date: Date, filter: DateFilter, clock: Clock,
                       startDate: Option<Date>, endDate: Option<Date>): (r: bool)
    ensures filter == AllDates ==> r
    ensures filter == Custom ==>
      (r <==> (startDate.None? || startDate.value < date) && (endDate.None? || date < endDate.value))
    ensures filter == Today ==> (r <==> clock.dayOf(date) == clock.dayOf(clock.now))
    ensures filter == Week ==> (r <==> clock.weekAgo < date)
    ensures filter == Month ==> (r <==> clock.monthStart < date < clock.monthEnd)
  {
    match filter
    case Today => clock.dayOf(date) == clock.dayOf(clock.now)
    case Week => date > clock.weekAgo
    case Month => date > clock.monthStart && date < clock.monthEnd
    case Custom =>
      if startDate.None? && endDate.None? then true
      else if startDate.Some? && endDate.Some? then date > startDate.value && date < endDate.value
      else if startDate.Some? && endDate.None? then date > startDate.value
      else if startDate.None? && endDate.Some? then date < endDate.value
      else true
    case AllDates => true
  }

  /**
   * The custom range with both bounds is open at both ends; with one bound
   * only that comparison applies; with none, and under "all", every date passes.
   */
  lemma DateFilterCases(date: Date, clock: Clock, lo: Date, hi: Date)
    ensures MatchesDate(date, AllDates, clock, Some(lo), Some(hi))
    ensures MatchesDate(date, Custom, clock, None, None)
    ensures MatchesDate(date, Custom, clock, Some(lo), Some(hi)) <==> lo < date < hi
    ensures MatchesDate(date, Custom, clock, Some(lo), None) <==> lo < date
    ensures MatchesDate(date, Custom, clock, None, Some(hi)) <==> date < hi
    ensures MatchesDate(date, Week, clock, None, None) <==> date > clock.weekAgo
    ensures !MatchesDate(lo, Custom, clock, Some(lo), Some(hi)) && !MatchesDate(hi, Custom, clock, Some(lo), Some(hi))
  {
  }

  /** `s?.toLowerCase().includes(q.toLowerCase())`: false when `s` is missing. */
  predicate MentionsOpt(s: Option<string>, query: string)
  {
    s.Some? && Includes(ToLower(s.value), ToLower(query))
  }

  predicate MemoMentions(query: string, e: JournalEntry)
  {
    MentionsOpt(e.memo, query)
  }

  /** The search: description, reference or any entry memo contains the query, ignoring case. */
  predicate MatchesSearch(t: Transaction, query: string)
  {
    || Includes(ToLower(t.description), ToLower(query))
    || MentionsOpt(t.reference, query)
    || Any(t.entries, e => MemoMentions(query, e))
  }

  /** An empty query matches every transaction. */
  lemma EmptySearchMatchesAll(t: Transaction)
    ensures MatchesSearch(t, "")
  {
    IncludesEmpty(ToLower(t.description));
  }

  /** The search ignores the case of the query. */
  lemma SearchIgnoresQueryCase(t: Transaction, query: string)
    ensures MatchesSearch(t, ToLower(query)) == MatchesSearch(t, query)
  {
    ToLowerIdempotent(query);
  }

  function Keeps(query: string, filter: DateFilter, clock: Clock,
                 startDate: Option<Date>, endDate: Option<Date>): Transaction -> bool
  {
    t => MatchesSearch(t, query) && MatchesDate(t.date, filter, clock, startDate, endDate)
  }

  /**
   * `filteredTransactions`: the stored transactions, in order, that match
   * both the search and the date filter, and all of them.
   */
  function FilteredTransactions(ts: seq<Transaction>, query: string, filter: DateFilter, clock: Clock,
                                startDate: Option<Date>, endDate: Option<Date>): (r: seq<Transaction>)
    ensures IsSubsequence(r, ts)
    ensures forall t | t in r :: MatchesSearch(t, query) && MatchesDate(t.date, filter, clock, startDate, endDate)
    ensures forall t | t in ts && MatchesSearch(t, query) && MatchesDate(t.date, filter, clock, startDate, endDate) :: t in r
    ensures forall t | t in ts ::
              multiset(r)[t] == if MatchesSearch(t, query) && MatchesDate(t.date, filter, clock, startDate, endDate)
                                then multiset(ts)[t] else 0
  {
    var p := Keeps(query, filter, clock, startDate, endDate);
    FilterIsSubsequence(ts, p);
    FilterCounts(ts, p);
    var r := Filter(ts, p);
    r
  }

  /** With no query and the "all" filter the whole list is shown. */
  lemma NoFilterShowsAll(ts: seq<Transaction>, clock: Clock, startDate: Option<Date>, endDate: Option<Date>)
    ensures FilteredTransactions(ts, "", AllDates, clock, startDate, endDate) == ts
  {
    forall i | 0 <= i < |ts| ensures Keeps("", AllDates, clock, startDate, endDate)(ts[i]) {
      EmptySearchMatchesAll(ts[i]);
    }
    FilterKeepsAll(ts, Keeps("", AllDates, clock, startDate, endDate));
  }

  function DateKey(t: Transaction): int { t.date }

  /** `sortedTransactions`: the filtered list, newest first. */
  function SortedTransactions(filtered: seq<Transaction>): (r: seq<Transaction>)
    ensures multiset(r) == multiset(filtered)
    ensures SortedDesc(r, DateKey)
  {
    SortDesc(filtered, DateKey)
  }
}
