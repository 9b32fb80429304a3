/**
 * The climate-reports table: a search box and three drop-downs narrow the
 * report list, the result is cut into pages of ten, and Previous / Next /
 * numbered buttons move between pages. Above the table four quick
 * statistics count the filtered reports.
 *
 * The pipeline (filter, page count, page slice, statistics) is a set of
 * pure functions; the screen's state (filter selections, current page,
 * selected report) is the class `ReportsView` at the end.
 */
module ReportsTable {

  import opened Lists
  import opened Text
  import opened Option

  datatype Report = Report(
    id: string,
    title: string,
    location: string,
    reporter: string,
    phone: string,
    kind: string,
    severity: string,
    status: string,
    channel: string,
    timestamp: string,
    description: string,
    coordinates: string)

  /** The search box and the status, severity and channel drop-downs. */
  datatype Filters = Filters(searchTerm: string, status: string, severity: string, channel: string)

  /** The drop-down value that places no constraint. */
  const All: string := "All"
  const ItemsPerPage: nat := 10
  const StatusFilters: seq<string> := ["All", "Pending", "Escalated", "Resolved"]
  const SeverityFilters: seq<string> := ["All", "High", "Medium", "Low"]
  const ChannelFilters: seq<string> := ["All", "Voice", "SMS", "USSD"]
  const InitialFilters: Filters := Filters("", All, All, All)

  function Min(a: int, b: int): int {
    if a <= b then a else b
  }

  function Max(a: int, b: int): int {
    if a <= b then b else a
  }

  // ---------------------------------------------------------------------
  // Filtering

  /** The lower-cased search term occurs in the lower-cased title, location or id. */
  predicate MatchesSearch(r: Report, term: string) {
    var t := ToLower(term);
    Contains(ToLower(r.title), t) || Contains(ToLower(r.location), t) || Contains(ToLower(r.id), t)
  }

  /**
   * One drop-down: `All`, or the record's field equals the lower-cased
   * selection. The record's field itself is not lower-cased.
   */
  predicate MatchesSelection(field: string, selection: string) {
    selection == All || field == ToLower(selection)
  }

  /** The filter callback: all four tests must pass. */
  predicate Keep(r: Report, f: Filters) {
    && MatchesSearch(r, f.searchTerm)
    && MatchesSelection(r.status, f.status)
    && MatchesSelection(r.severity, f.severity)
    && MatchesSelection(r.channel, f.channel)
  }

  /** `filteredReports`: the reports that pass every test, in their original order. */
  function FilteredReports(reports: seq<Report>, f: Filters): (r: seq<Report>)
    ensures IsSubsequence(r, reports)
    ensures forall x :: x in r <==> x in reports && Keep(x, f)
  {
    FilterIsSubsequence(reports, x => Keep(x, f));
    Filter(reports, x => Keep(x, f))
  }

  /** No report is duplicated or dropped: a kept report occurs as often as in the input. */
  lemma FilteredMultiplicity(reports: seq<Report>, f: Filters, x: Report)
    ensures multiset(FilteredReports(reports, f))[x]
            == if Keep(x, f) then multiset(reports)[x] else 0
  {
    FilterMultiplicity(reports, x => Keep(x, f), x);
  }

  /**
   * A drop-down's option list: `All` first, then options with different
   * initials, neither of which is `All`.
   */
  predicate ExclusiveOptions(options: seq<string>) {
    |options| > 0 && options[0] == All && All !in options[1..] && DistinctInitials(options[1..])
  }

  /** The three drop-downs' option lists have that shape. */
  lemma DropDownOptionsAreExclusive()
    ensures ExclusiveOptions(StatusFilters)
    ensures ExclusiveOptions(SeverityFilters)
    ensures ExclusiveOptions(ChannelFilters)
  {
    assert StatusFilters[1..] == ["Pending", "Escalated", "Resolved"];
    assert SeverityFilters[1..] == ["High", "Medium", "Low"];
    assert ChannelFilters[1..] == ["Voice", "SMS", "USSD"];
  }

  /**
   * No field value is matched by two different options of one of the
   * drop-downs, unless one of them is `All`.
   */
  lemma OfferedSelectionsAreExclusive(options: seq<string>, field: string, i: nat, j: nat)
    requires options == StatusFilters || options == SeverityFilters || options == ChannelFilters
    requires 1 <= i < j < |options|
    ensures options[i] != All && options[j] != All
    ensures !(MatchesSelection(field, options[i]) && MatchesSelection(field, options[j]))
  {
    DropDownOptionsAreExclusive();
    assert options[i] == options[1..][i - 1] && options[j] == options[1..][j - 1];
    DistinctInitialsApart(options[1..], i - 1, j - 1);
  }

  /** Only the selection is lower-cased: `High` matches the field `high` but not the field `High`. */
  lemma SelectionLowersOnlyTheSelection()
    ensures MatchesSelection("high", "High")
    ensures !MatchesSelection("High", "High")
  {
    assert ToLower("High") == "high";
    UpperNeverLowered("High", 0, "High");
  }

  /** A field holding an upper-case letter is matched by `All` and by no other selection. */
  lemma UpperCaseFieldMatchesOnlyAll(field: string, i: nat, selection: string)
    requires i < |field| && IsUpper(field[i])
    ensures MatchesSelection(field, selection) <==> selection == All
  {
    UpperNeverLowered(field, i, selection);
  }

  /** An empty search term matches every report. */
  lemma EmptySearchMatchesEveryReport(r: Report)
    ensures MatchesSearch(r, "")
  {
    assert ToLower("") == "";
    ContainsEmpty(ToLower(r.title));
  }

  /** The initial controls (empty search, every drop-down at `All`) keep the whole list. */
  lemma InitialFiltersKeepEverything(reports: seq<Report>)
    ensures FilteredReports(reports, InitialFilters) == reports
  {
    forall i | 0 <= i < |reports|
      ensures Keep(reports[i], InitialFilters)
    {
      EmptySearchMatchesEveryReport(reports[i]);
    }
    FilterKeepsAll(reports, x => Keep(x, InitialFilters));
  }

  /** Search terms that differ only in letter case select the same reports (`lagos`, `LAGOS`). */
  lemma SearchIgnoresCase(reports: seq<Report>, f: Filters, t1: string, t2: string)
    requires ToLower(t1) == ToLower(t2)
    ensures FilteredReports(reports, f.(searchTerm := t1)) == FilteredReports(reports, f.(searchTerm := t2))
  {
    var f1, f2 := f.(searchTerm := t1), f.(searchTerm := t2);
    FilterExtensional(reports, x => Keep(x, f1), x => Keep(x, f2));
    assert FilteredReports(reports, f1) == Filter(reports, x => Keep(x, f1));
    assert FilteredReports(reports, f2) == Filter(reports, x => Keep(x, f2));
  }

  /**
   * `g` is `f` with zero or more drop-downs moved from `All` to a specific
   * value (the search term is the same).
   */
  predicate Narrows(g: Filters, f: Filters) {
    && g.searchTerm == f.searchTerm
    && (f.status == All || g.status == f.status)
    && (f.severity == All || g.severity == f.severity)
    && (f.channel == All || g.channel == f.channel)
  }

  /** Narrowing a drop-down keeps a subsequence of the previous result, never a longer list. */
  lemma NarrowingNeverEnlarges(reports: seq<Report>, g: Filters, f: Filters)
    requires Narrows(g, f)
    ensures IsSubsequence(FilteredReports(reports, g), FilteredReports(reports, f))
    ensures |FilteredReports(reports, g)| <= |FilteredReports(reports, f)|
  {
    FilterMonotone(reports, x => Keep(x, g), x => Keep(x, f));
  }

  // ---------------------------------------------------------------------
  // Pagination

  /** `Math.ceil(n / itemsPerPage)`: the fewest pages of ten that hold `n` reports. */
  function TotalPages(n: nat): (r: nat)
    ensures n <= r * ItemsPerPage
    ensures n > 0 ==> (r - 1) * ItemsPerPage < n
    ensures r == 0 <==> n == 0
  {
    (n + ItemsPerPage - 1) / ItemsPerPage
  }

  function StartIndex(page: int): int {
    (page - 1) * ItemsPerPage
  }

  function EndIndex(page: int): int {
    StartIndex(page) + ItemsPerPage
  }

  /** `filtered.slice(startIndex, endIndex)`: the reports of one page, clipped to the list. */
  function PageSlice<T>(xs: seq<T>, page: int): (r: seq<T>)
    requires page >= 1
    ensures |r| <= ItemsPerPage
    ensures r == [] <==> StartIndex(page) >= |xs|
    ensures |r| == if StartIndex(page) >= |xs| then 0 else Min(ItemsPerPage, |xs| - StartIndex(page))
    ensures forall k :: 0 <= k < |r| ==> r[k] == xs[StartIndex(page) + k]
  {
    var start := StartIndex(page);
    if start >= |xs| then [] else xs[start..Min(EndIndex(page), |xs|)]
  }

  /** A page is non-empty exactly when its number is one of the page buttons 1..totalPages. */
  lemma PageNonEmptyIff<T>(xs: seq<T>, page: int)
    requires page >= 1
    ensures PageSlice(xs, page) != [] <==> page <= TotalPages(|xs|)
  {
    var n, tp := |xs|, TotalPages(|xs|);
    if page <= tp {
      assert StartIndex(page) <= (tp - 1) * ItemsPerPage;
    } else {
      assert StartIndex(page) >= tp * ItemsPerPage;
    }
  }

  /** Pages `first`..`last`, one after the other. */
  function PagesFrom<T>(xs: seq<T>, first: int, last: int): seq<T>
    requires first >= 1
    decreases last - first + 1
  {
    if first > last then [] else PageSlice(xs, first) + PagesFrom(xs, first + 1, last)
  }

  lemma {:induction false} PagesFromCoverRest<T>(xs: seq<T>, first: int, last: int)
    requires first >= 1
    requires |xs| <= EndIndex(last)
    ensures PagesFrom(xs, first, last) == xs[Min(StartIndex(first), |xs|)..]
    decreases last - first + 1
  {
    if first <= last {
      PagesFromCoverRest(xs, first + 1, last);
      var start, stop := StartIndex(first), Min(EndIndex(first), |xs|);
      if start < |xs| {
        assert PageSlice(xs, first) == xs[start..stop];
        assert xs[start..stop] + xs[stop..] == xs[start..];
      }
    }
  }

  /** Pages 1..totalPages, concatenated, give back the filtered list: no gaps, no overlaps. */
  lemma PagesCoverEverything<T>(xs: seq<T>)
    ensures PagesFrom(xs, 1, TotalPages(|xs|)) == xs
  {
    PagesFromCoverRest(xs, 1, TotalPages(|xs|));
  }

  /** The footer's "Showing <from> to <to>": `startIndex + 1` and `min(endIndex, n)`. */
  function FooterFrom(page: int): int {
    StartIndex(page) + 1
  }

  function FooterTo(n: nat, page: int): int {
    Min(EndIndex(page), n)
  }

  /** While the page starts inside the list, the footer's range has the page's length. */
  lemma FooterCountsThePage<T>(xs: seq<T>, page: int)
    requires page >= 1 && StartIndex(page) <= |xs|
    ensures FooterTo(|xs|, page) - FooterFrom(page) + 1 == |PageSlice(xs, page)|
  {
  }

  // ---------------------------------------------------------------------
  // Page navigation

  /** Previous is disabled on page 1. */
  predicate PreviousEnabled(page: int) {
    page != 1
  }

  /** Next is disabled only when the current page equals the page count. */
  predicate NextEnabled(page: int, totalPages: int) {
    page != totalPages
  }

  /** The page after pressing Previous (a disabled button does nothing). */
  function PreviousPage(page: int): (r: int)
    requires page >= 1
    ensures r >= 1
    ensures page == 1 ==> r == 1
    ensures page > 1 ==> r == page - 1
  {
    if PreviousEnabled(page) then page - 1 else page
  }

  /** The page after pressing Next (a disabled button does nothing). */
  function NextPage(page: int, totalPages: int): (r: int)
    ensures r == page || r == page + 1
    ensures r == page + 1 <==> page != totalPages
  {
    if NextEnabled(page, totalPages) then page + 1 else page
  }

  /** The numbered buttons, `Array.from({length: totalPages}, (_, i) => i + 1)`. */
  function PageButtons(totalPages: nat): (r: seq<int>)
    ensures |r| == totalPages
    ensures forall p :: p in r <==> 1 <= p <= totalPages
    ensures forall i, j :: 0 <= i < j < |r| ==> r[i] < r[j]
  {
    if totalPages == 0 then []
    else
      var earlier := PageButtons(totalPages - 1);
      assert forall i :: 0 <= i < |earlier| ==> earlier[i] in earlier;
      earlier + [totalPages]
  }

  /** The button of `page` is highlighted when it is the current page. */
  predicate ButtonHighlighted(currentPage: int, page: int) {
    currentPage == page
  }

  /** Exactly one button is highlighted when the current page is in 1..totalPages, none otherwise. */
  lemma {:induction false} HighlightedButtons(currentPage: int, totalPages: nat)
    ensures Filter(PageButtons(totalPages), b => ButtonHighlighted(currentPage, b))
            == if 1 <= currentPage <= totalPages then [currentPage] else []
  {
    if totalPages > 0 {
      HighlightedButtons(currentPage, totalPages - 1);
      FilterAppend(PageButtons(totalPages - 1), [totalPages], b => ButtonHighlighted(currentPage, b));
    }
  }

  /**
   * As written, Next stays enabled past the last page: whenever the current
   * page is beyond `totalPages` (for instance page 1 when nothing matches,
   * so `totalPages` is 0), Next moves on to a page that is empty as well.
   */
  lemma NextRunsPastLastPage<T>(xs: seq<T>, page: int)
    requires page >= 1 && page > TotalPages(|xs|)
    ensures NextEnabled(page, TotalPages(|xs|))
    ensures NextPage(page, TotalPages(|xs|)) == page + 1
    ensures PageSlice(xs, page + 1) == []
  {
    PageNonEmptyIff(xs, page + 1);
  }

  /** With no matching report, page 1 offers Next, and the footer then reads "Showing 11 to 0". */
  lemma NextOnEmptyResult()
    ensures NextEnabled(1, TotalPages(0))
    ensures NextPage(1, TotalPages(0)) == 2
    ensures FooterFrom(2) == 11 && FooterTo(0, 2) == 0
  {
  }

  /** The evidently intended guard: Next is enabled only before the last page. */
  predicate NextEnabledBounded(page: int, totalPages: int) {
    page < totalPages
  }

  function NextPageBounded(page: int, totalPages: int): int {
    if NextEnabledBounded(page, totalPages) then page + 1 else page
  }

  /**
   * Under the intended guard, a page in 1..max(1, totalPages) stays there
   * after Next, and a page Next moves to is never empty.
   */
  lemma NextPageBoundedStaysInRange<T>(xs: seq<T>, page: int)
    requires 1 <= page <= Max(1, TotalPages(|xs|))
    ensures 1 <= NextPageBounded(page, TotalPages(|xs|)) <= Max(1, TotalPages(|xs|))
    ensures NextPageBounded(page, TotalPages(|xs|)) != page ==> PageSlice(xs, page + 1) != []
  {
    if NextEnabledBounded(page, TotalPages(|xs|)) {
      PageNonEmptyIff(xs, page + 1);
    }
  }

  /** The two guards differ only when the current page is already past the last page. */
  lemma NextGuardsAgreeInRange(page: int, totalPages: nat)
    requires page <= totalPages
    ensures NextEnabled(page, totalPages) <==> NextEnabledBounded(page, totalPages)
  {
  }

  // ---------------------------------------------------------------------
  // Quick statistics

  function PendingCount(reports: seq<Report>): nat {
    |Filter(reports, (r: Report) => r.status == "pending")|
  }

  function HighCount(reports: seq<Report>): nat {
    |Filter(reports, (r: Report) => r.severity == "high")|
  }

  function ResolvedCount(reports: seq<Report>): nat {
    |Filter(reports, (r: Report) => r.status == "resolved")|
  }

  /** Each count is at most the list length; pending and resolved are disjoint, so their sum is too. */
  lemma QuickStatsBounded(reports: seq<Report>)
    ensures PendingCount(reports) <= |reports|
    ensures HighCount(reports) <= |reports|
    ensures ResolvedCount(reports) <= |reports|
    ensures PendingCount(reports) + ResolvedCount(reports) <= |reports|
  {
    FilterDisjointCounts(reports, (r: Report) => r.status == "pending", (r: Report) => r.status == "resolved");
  }

  // ---------------------------------------------------------------------
  // Screen state

  /** The component's state. `reports` is the list the screen displays. */
  class ReportsView {
    const reports: seq<Report>
    var filters: Filters
    var currentPage: int
    var selectedReport: Option<Report>

    /** The current page never drops below 1. */
    ghost predicate Valid()
      reads this
    {
      currentPage >= 1
    }

    constructor (reports: seq<Report>)
      ensures Valid()
      ensures this.reports == reports
      ensures filters == InitialFilters && currentPage == 1 && selectedReport == None
    {
      this.reports := reports;
      filters := InitialFilters;
      currentPage := 1;
      selectedReport := None;
    }

    function Filtered(): seq<Report>
      reads this
    {
      FilteredReports(reports, filters)
    }

    function PageCount(): nat
      reads this
    {
      TotalPages(|Filtered()|)
    }

    /** `currentReports`, the rows on screen. */
    function CurrentReports(): seq<Report>
      reads this
      requires Valid()
    {
      PageSlice(Filtered(), currentPage)
    }

    /** Typing in the search box; the current page is not reset. */
    method SetSearchTerm(term: string)
      requires Valid()
      modifies this
      ensures Valid()
      ensures filters == old(filters).(searchTerm := term)
      ensures currentPage == old(currentPage) && selectedReport == old(selectedReport)
    {
      filters := filters.(searchTerm := term);
    }

    /** Choosing a status; the current page is not reset. */
    method SetStatusFilter(status: string)
      requires Valid()
      modifies this
      ensures Valid()
      ensures filters == old(filters).(status := status)
      ensures currentPage == old(currentPage) && selectedReport == old(selectedReport)
    {
      filters := filters.(status := status);
    }

    /** Choosing a severity; the current page is not reset. */
    method SetSeverityFilter(severity: string)
      requires Valid()
      modifies this
      ensures Valid()
      ensures filters == old(filters).(severity := severity)
      ensures currentPage == old(currentPage) && selectedReport == old(selectedReport)
    {
      filters := filters.(severity := severity);
    }

    /** Choosing a channel; the current page is not reset. */
    method SetChannelFilter(channel: string)
      requires Valid()
      modifies this
      ensures Valid()
      ensures filters == old(filters).(channel := channel)
      ensures currentPage == old(currentPage) && selectedReport == old(selectedReport)
    {
      filters := filters.(channel := channel);
    }

    /** The Previous button. */
    method Previous()
      requires Valid()
      modifies this
      ensures Valid()
      ensures currentPage == PreviousPage(old(currentPage))
      ensures filters == old(filters) && selectedReport == old(selectedReport)
    {
      if PreviousEnabled(currentPage) {
        currentPage := currentPage - 1;
      }
    }

    /** The Next button. */
    method Next()
      requires Valid()
      modifies this
      ensures Valid()
      ensures currentPage == NextPage(old(currentPage), old(PageCount()))
      ensures filters == old(filters) && selectedReport == old(selectedReport)
    {
      if NextEnabled(currentPage, PageCount()) {
        currentPage := currentPage + 1;
      }
    }

    /** A numbered button; only the buttons 1..totalPages exist. */
    method GoToPage(page: int)
      requires Valid()
      requires page in PageButtons(PageCount())
      modifies this
      ensures Valid()
      ensures currentPage == page && CurrentReports() != []
      ensures filters == old(filters) && selectedReport == old(selectedReport)
    {
      currentPage := page;
      PageNonEmptyIff(Filtered(), page);
    }

    /** The View button of a row on the current page. */
    method ViewReport(r: Report)
      requires Valid() && r in CurrentReports()
      modifies this
      ensures Valid()
      ensures selectedReport == Some(r) && r in Filtered()
      ensures filters == old(filters) && currentPage == old(currentPage)
    {
      selectedReport := Some(r);
    }
  }
}
