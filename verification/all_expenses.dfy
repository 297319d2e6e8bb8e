/** The listing page: the expense list, the filters over it, the page of
    rows shown, and the summary of the filtered rows. */
module AllExpenses {
  import opened Wrappers
  import opened Seqs
  import opened Text
  import opened Expenses

  /** The four filter inputs; an empty search or category text, or an unset
      date, imposes nothing. */
  datatype Criteria = Criteria(searchTerm: string, category: string, startDate: Option<Date>, endDate: Option<Date>)

  /** The inputs after `clearFilters` (and at start). */
  const NoCriteria := Criteria("", "", None, None)

  /** The test `expense.description.toLowerCase().includes(term.toLowerCase())`. */
  function MatchesSearch(term: string): Expense -> bool {
    (e: Expense) => Includes(LowerCase(e.description), LowerCase(term))
  }

  /** The test `new Date(expense.date) >= new Date(start)`. */
  function OnOrAfter(start: Date): Expense -> bool {
    (e: Expense) => DateLe(start, e.date)
  }

  /** The test `new Date(expense.date) <= new Date(end)`. */
  function OnOrBefore(end: Date): Expense -> bool {
    (e: Expense) => DateLe(e.date, end)
  }

  predicate SearchOk(e: Expense, c: Criteria) {
    c.searchTerm == "" || Includes(LowerCase(e.description), LowerCase(c.searchTerm))
  }

  predicate CategoryOk(e: Expense, c: Criteria) {
    c.category == "" || e.category == c.category
  }

  predicate StartOk(e: Expense, c: Criteria) {
    c.startDate.None? || DateLe(c.startDate.value, e.date)
  }

  predicate EndOk(e: Expense, c: Criteria) {
    c.endDate.None? || DateLe(e.date, c.endDate.value)
  }

  /** An expense is listed when it passes every filter that is set. */
  predicate Matches(e: Expense, c: Criteria) {
    SearchOk(e, c) && CategoryOk(e, c) && StartOk(e, c) && EndOk(e, c)
  }

  function MatchesAll(c: Criteria): Expense -> bool {
    (e: Expense) => Matches(e, c)
  }

  /** The reference result of the filter effect: every listed expense
      matches every active criterion, and every matching expense is listed. */
  function Filtered(xs: seq<Expense>, c: Criteria): (r: seq<Expense>)
    ensures |r| <= |xs|
    ensures forall i :: 0 <= i < |r| ==> Matches(r[i], c) && r[i] in xs
    ensures forall i :: 0 <= i < |xs| && Matches(xs[i], c) ==> xs[i] in r
  {
    Filter(xs, MatchesAll(c))
  }

  // The filter effect narrows its result one filter at a time; after each
  // step the result is the input filtered by the filters applied so far.

  function UpToSearch(c: Criteria): Expense -> bool {
    (e: Expense) => SearchOk(e, c)
  }

  function UpToCategory(c: Criteria): Expense -> bool {
    (e: Expense) => SearchOk(e, c) && CategoryOk(e, c)
  }

  function UpToStart(c: Criteria): Expense -> bool {
    (e: Expense) => SearchOk(e, c) && CategoryOk(e, c) && StartOk(e, c)
  }

  lemma SearchStep(xs: seq<Expense>, c: Criteria)
    ensures (if c.searchTerm != "" then Filter(xs, MatchesSearch(c.searchTerm)) else xs) == Filter(xs, UpToSearch(c))
  {
  }

  lemma CategoryStep(xs: seq<Expense>, c: Criteria)
    ensures (if c.category != "" then Filter(Filter(xs, UpToSearch(c)), InCategory(c.category))
             else Filter(xs, UpToSearch(c))) == Filter(xs, UpToCategory(c))
  {
  }

  lemma StartStep(xs: seq<Expense>, c: Criteria)
    ensures (if c.startDate.Some? then Filter(Filter(xs, UpToCategory(c)), OnOrAfter(c.startDate.value))
             else Filter(xs, UpToCategory(c))) == Filter(xs, UpToStart(c))
  {
  }

  lemma EndStep(xs: seq<Expense>, c: Criteria)
    ensures (if c.endDate.Some? then Filter(Filter(xs, UpToStart(c)), OnOrBefore(c.endDate.value))
             else Filter(xs, UpToStart(c))) == Filtered(xs, c)
  {
  }

  /** The listed expenses are the matching ones, in their original order. */
  lemma FilteredIsOrderedSelection(xs: seq<Expense>, c: Criteria)
    ensures IsSubsequence(Filtered(xs, c), xs)
  {
    FilterIsSubsequence(xs, MatchesAll(c));
  }

  /** With every filter empty the list is shown as it is. */
  lemma NoCriteriaKeepsAll(xs: seq<Expense>)
    ensures Filtered(xs, NoCriteria) == xs
  {
    FilterKeepsAll(xs, MatchesAll(NoCriteria));
  }

  // ------------------------------------------------------------ pagination

  /** `xs.slice(page * rowsPerPage, page * rowsPerPage + rowsPerPage)`. */
  function PageSlice<T>(xs: seq<T>, page: nat, rowsPerPage: nat): (r: seq<T>)
    ensures |r| <= rowsPerPage
    ensures page * rowsPerPage >= |xs| ==> r == []
    ensures page * rowsPerPage < |xs| ==>
              |r| == if |xs| - page * rowsPerPage < rowsPerPage then |xs| - page * rowsPerPage else rowsPerPage
    ensures forall i :: 0 <= i < |r| ==> page * rowsPerPage + i < |xs| && r[i] == xs[page * rowsPerPage + i]
  {
    var start := page * rowsPerPage;
    var end := start + rowsPerPage;
    if start >= |xs| then [] else xs[start..if end <= |xs| then end else |xs|]
  }

  /** Every row appears on exactly the page its index says: row `k` is entry
      `k % rowsPerPage` of page `k / rowsPerPage`. */
  lemma RowOnItsPage<T>(xs: seq<T>, k: nat, rowsPerPage: nat)
    requires rowsPerPage > 0 && k < |xs|
    ensures var p := PageSlice(xs, k / rowsPerPage, rowsPerPage);
      k % rowsPerPage < |p| && p[k % rowsPerPage] == xs[k]
  {
  }

  // --------------------------------------------------------------- summary

  /** The summary card: number of rows, their total and their average. */
  datatype ListingTotals = ListingTotals(count: nat, total: real, average: real)

  /** The card for the filtered rows; the average shows as zero when there
      are no rows. */
  function Totals(xs: seq<Expense>): (t: ListingTotals)
    ensures t.count == |xs| && t.total == Sum(xs)
    ensures t.count > 0 ==> t.average * (t.count as real) == t.total
    ensures t.count == 0 ==> t.average == 0.0
  {
    var total := Sum(xs);
    ListingTotals(|xs|, total, if |xs| > 0 then total / (|xs| as real) else 0.0)
  }

  /** The fixture of the listing's tests: 50 and 20 give 2 rows, 70 in all
      and 35 on average. */
  lemma TotalsOfTestFixture()
    ensures Totals([
      Expense("1", "1", "Food", Some(50.0), Date(2023, 6, 15), "Lunch"),
      Expense("2", "1", "Transport", Some(20.0), Date(2023, 6, 16), "Bus ticket")
    ]) == ListingTotals(2, 70.0, 35.0)
  {
  }

  // ------------------------------------------------------------- the page

  /** Which end of the date range an input sets. */
  datatype DateBound = StartDate | EndDate

  class ListingView {
    var expenses: seq<Expense>
    var filteredExpenses: seq<Expense>
    var loading: bool
    var page: nat
    var rowsPerPage: nat
    var searchTerm: string
    var categoryFilter: string
    var startDate: Option<Date>
    var endDate: Option<Date>

    function CurrentCriteria(): Criteria
      reads this
    {
      Criteria(searchTerm, categoryFilter, startDate, endDate)
    }

    /** The shown rows are always the filter effect's result. */
    ghost predicate Valid()
      reads this
    {
      filteredExpenses == Filtered(expenses, CurrentCriteria())
    }

    constructor ()
      ensures Valid() && expenses == [] && loading
      ensures page == 0 && rowsPerPage == 10 && CurrentCriteria() == NoCriteria
    {
      expenses := [];
      filteredExpenses := [];
      loading := true;
      page := 0;
      rowsPerPage := 10;
      searchTerm := "";
      categoryFilter := "";
      startDate := None;
      endDate := None;
    }

    /** The rows of the current page. */
    function VisibleRows(): seq<Expense>
      reads this
    {
      PageSlice(filteredExpenses, page, rowsPerPage)
    }

    /** The summary card's figures. */
    function Summary(): ListingTotals
      reads this
    {
      Totals(filteredExpenses)
    }

    /** The filter effect: each filter that is set narrows the result in
        turn, then the page goes back to the first. */
    method ApplyFilters()
      modifies this`filteredExpenses, this`page
      ensures Valid() && page == 0
    {
      var result := expenses;
      SearchStep(expenses, CurrentCriteria());
      if searchTerm != "" {
        result := Filter(result, MatchesSearch(searchTerm));
      }
      CategoryStep(expenses, CurrentCriteria());
      if categoryFilter != "" {
        result := Filter(result, InCategory(categoryFilter));
      }
      StartStep(expenses, CurrentCriteria());
      if startDate.Some? {
        result := Filter(result, OnOrAfter(startDate.value));
      }
      EndStep(expenses, CurrentCriteria());
      if endDate.Some? {
        result := Filter(result, OnOrBefore(endDate.value));
      }
      filteredExpenses := result;
      page := 0;
    }

    /** The fetch on mount: on success the list becomes the fetched records,
        newest first, and the filters are applied to it; on failure the list
        is kept. Either way loading ends. */
    method FetchExpenses(response: Option<seq<Expense>>)
      requires Valid()
      modifies this
      ensures Valid() && !loading
      ensures response.Some? ==> expenses == SortNewestFirst(response.value) && page == 0
      ensures response.None? ==> expenses == old(expenses) && page == old(page)
      ensures CurrentCriteria() == old(CurrentCriteria()) && rowsPerPage == old(rowsPerPage)
    {
      if response.Some? {
        expenses := SortNewestFirst(response.value);
        filteredExpenses := expenses;
        ApplyFilters();
      }
      loading := false;
    }

    method SetSearchTerm(term: string)
      modifies this
      ensures Valid() && page == 0 && searchTerm == term
      ensures categoryFilter == old(categoryFilter) && startDate == old(startDate) && endDate == old(endDate)
      ensures expenses == old(expenses) && rowsPerPage == old(rowsPerPage) && loading == old(loading)
    {
      searchTerm := term;
      ApplyFilters();
    }

    method SetCategoryFilter(category: string)
      modifies this
      ensures Valid() && page == 0 && categoryFilter == category
      ensures searchTerm == old(searchTerm) && startDate == old(startDate) && endDate == old(endDate)
      ensures expenses == old(expenses) && rowsPerPage == old(rowsPerPage) && loading == old(loading)
    {
      categoryFilter := category;
      ApplyFilters();
    }

    /** `handleDateFilterChange`: one end of the range is set or cleared. */
    method SetDateFilter(bound: DateBound, value: Option<Date>)
      modifies this
      ensures Valid() && page == 0
      ensures bound == StartDate ==> startDate == value && endDate == old(endDate)
      ensures bound == EndDate ==> endDate == value && startDate == old(startDate)
      ensures searchTerm == old(searchTerm) && categoryFilter == old(categoryFilter)
      ensures expenses == old(expenses) && rowsPerPage == old(rowsPerPage) && loading == old(loading)
    {
      if bound == StartDate {
        startDate := value;
      } else {
        endDate := value;
      }
      ApplyFilters();
    }

    /** `clearFilters`: every filter is emptied, so the whole list is shown
        from the first page. */
    method ClearFilters()
      modifies this
      ensures Valid() && CurrentCriteria() == NoCriteria
      ensures filteredExpenses == expenses && page == 0
      ensures expenses == old(expenses) && rowsPerPage == old(rowsPerPage) && loading == old(loading)
    {
      searchTerm := "";
      categoryFilter := "";
      startDate := None;
      endDate := None;
      ApplyFilters();
      NoCriteriaKeepsAll(expenses);
    }

    /** `handleChangePage`. */
    method ChangePage(newPage: nat)
      requires Valid()
      modifies this`page
      ensures Valid() && page == newPage
    {
      page := newPage;
    }

    /** `handleChangeRowsPerPage`: a new page size starts again at page 0. */
    method ChangeRowsPerPage(newRowsPerPage: nat)
      requires Valid()
      modifies this`rowsPerPage, this`page
      ensures Valid() && rowsPerPage == newRowsPerPage && page == 0
    {
      rowsPerPage := newRowsPerPage;
      page := 0;
    }

    /** `handleDeleteExpense`: after an `ok` answer the id leaves the list and
        the filters are applied again; otherwise nothing changes. */
    method DeleteExpense(id: string, ok: bool)
      requires Valid()
      modifies this
      ensures Valid()
      ensures ok ==> expenses == RemoveById(old(expenses), id) && page == 0
      ensures !ok ==> expenses == old(expenses) && page == old(page)
      ensures CurrentCriteria() == old(CurrentCriteria()) && rowsPerPage == old(rowsPerPage)
      ensures loading == old(loading)
    {
      if ok {
        expenses := RemoveById(expenses, id);
        ApplyFilters();
      }
    }
  }
}
