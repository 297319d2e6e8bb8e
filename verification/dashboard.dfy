/** The dashboard: the figures it derives from the current expense list and
    today's date, the category colour lookup, and the list itself, which the
    fetch, add and delete handlers replace. */
module Dashboard {
  import opened Wrappers
  import opened Seqs
  import opened Expenses

  // ------------------------------------------------------------- categories

  datatype CategoryInfo = CategoryInfo(name: string, color: string)

  /** The fixed category table, in display order. */
  const Categories: seq<CategoryInfo> := [
    CategoryInfo("Food", "#4caf50"),
    CategoryInfo("Transport", "#2196f3"),
    CategoryInfo("Housing", "#ff9800"),
    CategoryInfo("Entertainment", "#9c27b0"),
    CategoryInfo("Shopping", "#f44336"),
    CategoryInfo("Bills", "#795548"),
    CategoryInfo("Other", "#607d8b")
  ]

  /** The colour used for a name that is not in the table. */
  const DefaultColor: string := "#607d8b"

  function Names(cats: seq<CategoryInfo>): (r: seq<string>)
    ensures |r| == |cats| && forall i :: 0 <= i < |cats| ==> r[i] == cats[i].name
  {
    if cats == [] then [] else [cats[0].name] + Names(cats[1..])
  }

  /** No name occurs twice in the table. */
  predicate DistinctNames(cats: seq<CategoryInfo>) {
    cats == [] || (cats[0].name !in Names(cats[1..]) && DistinctNames(cats[1..]))
  }

  /** `CATEGORIES.find(cat => cat.name === name)`, as an index. */
  function FindCategory(cats: seq<CategoryInfo>, name: string): (r: Option<nat>)
    ensures r.None? <==> name !in Names(cats)
    ensures r.Some? ==> r.value < |cats| && cats[r.value].name == name
  {
    if cats == [] then None
    else if cats[0].name == name then Some(0)
    else
      match FindCategory(cats[1..], name)
      case None => None
      case Some(k) => Some(k + 1)
  }

  /** `getCategoryColor`: the table's colour for a listed name, grey for
      any other name. */
  function CategoryColor(name: string): (r: string)
    ensures forall c :: c in Categories && c.name == name ==> r == c.color
    ensures name !in Names(Categories) ==> r == DefaultColor
  {
    match FindCategory(Categories, name)
    case Some(i) => Categories[i].color
    case None => DefaultColor
  }

  // ---------------------------------------------------------------- months

  /** What `getFullYear()` and `getMonth()` give: `month0` counts from 0
      (January) to 11 (December). */
  datatype MonthOfYear = MonthOfYear(year: int, month0: int)

  predicate ValidMonth(m: MonthOfYear) {
    0 <= m.month0 < 12
  }

  /** The month a `yyyy-MM-dd` date falls in. */
  function MonthOf(d: Date): MonthOfYear {
    MonthOfYear(d.year, d.month - 1)
  }

  /** Months counted from January of year 0. */
  function MonthOrdinal(m: MonthOfYear): int {
    m.year * 12 + m.month0
  }

  /** `lastMonth`/`lastMonthYear`: December of the previous year before
      January, otherwise the previous month of the same year. */
  function PreviousMonth(m: MonthOfYear): (r: MonthOfYear)
    ensures ValidMonth(m) ==> ValidMonth(r) && MonthOrdinal(r) == MonthOrdinal(m) - 1
  {
    if m.month0 == 0 then MonthOfYear(m.year - 1, 11) else MonthOfYear(m.year, m.month0 - 1)
  }

  /** The previous month is the only valid month one step before. */
  lemma PreviousMonthIsUnique(m: MonthOfYear, p: MonthOfYear)
    requires ValidMonth(m) && ValidMonth(p) && MonthOrdinal(p) == MonthOrdinal(m) - 1
    ensures p == PreviousMonth(m)
  {
    assert MonthOrdinal(PreviousMonth(m)) == MonthOrdinal(p);
  }

  // --------------------------------------------------------------- figures

  /** The test that an expense's date falls in month `m`. */
  function InMonth(m: MonthOfYear): Expense -> bool {
    (e: Expense) => MonthOf(e.date) == m
  }

  /** `monthlyChange`: exactly 100 when last month's total is zero, otherwise
      the percentage by which this month's total differs from last month's. */
  function MonthlyChange(thisMonth: real, lastMonth: real): (r: real)
    ensures lastMonth == 0.0 ==> r == 100.0
    ensures lastMonth != 0.0 ==> r * lastMonth == (thisMonth - lastMonth) * 100.0
  {
    if lastMonth == 0.0 then 100.0 else (thisMonth - lastMonth) / lastMonth * 100.0
  }

  /** Against a positive last month, the change is positive exactly when this
      month is larger, and zero exactly when they are equal. */
  lemma MonthlyChangeSign(thisMonth: real, lastMonth: real)
    requires lastMonth > 0.0
    ensures MonthlyChange(thisMonth, lastMonth) > 0.0 <==> thisMonth > lastMonth
    ensures MonthlyChange(thisMonth, lastMonth) == 0.0 <==> thisMonth == lastMonth
  {
  }

  /** One slice of the pie chart. */
  datatype CategoryDatum = CategoryDatum(name: string, value: real, color: string)

  /** The sum of the amounts of one category. */
  function CategoryTotal(xs: seq<Expense>, name: string): real {
    Sum(Filter(xs, InCategory(name)))
  }

  /** `CATEGORIES.map(category => ({name, value: total, color}))`. */
  function AllCategoryData(cats: seq<CategoryInfo>, xs: seq<Expense>): (r: seq<CategoryDatum>)
    ensures |r| == |cats|
    ensures forall i :: 0 <= i < |cats| ==>
              r[i] == CategoryDatum(cats[i].name, CategoryTotal(xs, cats[i].name), cats[i].color)
  {
    if cats == [] then []
    else [CategoryDatum(cats[0].name, CategoryTotal(xs, cats[0].name), cats[0].color)] + AllCategoryData(cats[1..], xs)
  }

  /** The test `item => item.value > 0`. */
  function HasPositiveValue(): CategoryDatum -> bool {
    (d: CategoryDatum) => d.value > 0.0
  }

  /** `categoryData`: the table mapped to totals, zero totals dropped. */
  function CategoryData(xs: seq<Expense>): (r: seq<CategoryDatum>)
    ensures |r| <= |Categories|
    ensures forall i :: 0 <= i < |r| ==> r[i].value > 0.0 && r[i] in AllCategoryData(Categories, xs)
  {
    Filter(AllCategoryData(Categories, xs), HasPositiveValue())
  }

  /** The slices follow the table order, each carries its category's total
      and colour, and a category has a slice exactly when its total is
      positive. */
  lemma CategoryDataFollowsTable(xs: seq<Expense>)
    ensures IsSubsequence(CategoryData(xs), AllCategoryData(Categories, xs))
    ensures forall d :: d in CategoryData(xs) ==> d.value > 0.0
    ensures forall i :: 0 <= i < |Categories| ==>
              (CategoryDatum(Categories[i].name, CategoryTotal(xs, Categories[i].name), Categories[i].color) in CategoryData(xs)
               <==> CategoryTotal(xs, Categories[i].name) > 0.0)
  {
    FilterIsSubsequence(AllCategoryData(Categories, xs), HasPositiveValue());
    var all := AllCategoryData(Categories, xs);
    forall d | d in CategoryData(xs) ensures d.value > 0.0 {
      var k :| 0 <= k < |CategoryData(xs)| && CategoryData(xs)[k] == d;
    }
    forall i | 0 <= i < |Categories|
      ensures CategoryDatum(Categories[i].name, CategoryTotal(xs, Categories[i].name), Categories[i].color) in CategoryData(xs)
              <==> CategoryTotal(xs, Categories[i].name) > 0.0
    {
      assert all[i] == CategoryDatum(Categories[i].name, CategoryTotal(xs, Categories[i].name), Categories[i].color);
      if all[i] in CategoryData(xs) {
        var k :| 0 <= k < |CategoryData(xs)| && CategoryData(xs)[k] == all[i];
      }
    }
  }

  function SumValues(rows: seq<CategoryDatum>): real {
    if rows == [] then 0.0 else rows[0].value + SumValues(rows[1..])
  }

  /** Dropping rows whose value is zero does not change the sum. */
  lemma {:induction false} SumValuesDropZero(rows: seq<CategoryDatum>)
    requires forall i :: 0 <= i < |rows| ==> rows[i].value >= 0.0
    ensures SumValues(Filter(rows, HasPositiveValue())) == SumValues(rows)
  {
    if rows != [] {
      SumValuesDropZero(rows[1..]);
    }
  }

  /** The test that an expense's category is not one of `names`. */
  function NotIn(names: seq<string>): Expense -> bool {
    (e: Expense) => e.category !in names
  }

  lemma {:induction false} CategoryTotalsCons(cats: seq<CategoryInfo>, e: Expense, t: seq<Expense>)
    requires DistinctNames(cats)
    ensures SumValues(AllCategoryData(cats, [e] + t)) ==
              SumValues(AllCategoryData(cats, t)) + (if e.category in Names(cats) then AmountOf(e) else 0.0)
  {
    if cats != [] {
      CategoryTotalsCons(cats[1..], e, t);
      SumFilterCons(e, t, InCategory(cats[0].name));
      assert AllCategoryData(cats, [e] + t)[1..] == AllCategoryData(cats[1..], [e] + t);
      assert AllCategoryData(cats, t)[1..] == AllCategoryData(cats[1..], t);
      assert Names(cats) == [cats[0].name] + Names(cats[1..]);
    }
  }

  /** Every expense is counted in exactly one category total, or in none when
      its category is not in the table. */
  lemma {:induction false} CategoryTotalsPartition(cats: seq<CategoryInfo>, xs: seq<Expense>)
    requires DistinctNames(cats)
    ensures SumValues(AllCategoryData(cats, xs)) + Sum(Filter(xs, NotIn(Names(cats)))) == Sum(xs)
  {
    if xs == [] {
      if cats != [] {
        CategoryTotalsPartition(cats[1..], xs);
        assert AllCategoryData(cats, xs)[1..] == AllCategoryData(cats[1..], xs);
      }
    } else {
      var e, t := xs[0], xs[1..];
      assert xs == [e] + t;
      CategoryTotalsPartition(cats, t);
      CategoryTotalsCons(cats, e, t);
      SumFilterCons(e, t, NotIn(Names(cats)));
    }
  }

  lemma CategoriesAreDistinct()
    ensures DistinctNames(Categories)
  {
  }

  /** With non-negative amounts, the pie chart's slices add up to the total
      minus the expenses whose category is not in the table. */
  lemma CategoryDataAddsUp(xs: seq<Expense>)
    requires AllNonNegative(xs)
    ensures SumValues(CategoryData(xs)) + Sum(Filter(xs, NotIn(Names(Categories)))) == Sum(xs)
  {
    var all := AllCategoryData(Categories, xs);
    forall i | 0 <= i < |all| ensures all[i].value >= 0.0 {
      SumFilterBounded(xs, InCategory(Categories[i].name));
    }
    SumValuesDropZero(all);
    CategoriesAreDistinct();
    CategoryTotalsPartition(Categories, xs);
  }

  /** Everything the dashboard shows about the list. */
  datatype Summary = Summary(
    total: real,
    today: real,
    thisMonth: real,
    lastMonth: real,
    monthlyChange: real,
    categoryData: seq<CategoryDatum>)

  /** The figures for the list `xs` on the date `today`. */
  function Summarize(xs: seq<Expense>, today: Date): (s: Summary)
    ensures s.lastMonth == 0.0 ==> s.monthlyChange == 100.0
    ensures s.lastMonth != 0.0 ==> s.monthlyChange * s.lastMonth == (s.thisMonth - s.lastMonth) * 100.0
    ensures |s.categoryData| <= |Categories|
    ensures forall i :: 0 <= i < |s.categoryData| ==> s.categoryData[i].value > 0.0
  {
    var thisMonth := Sum(Filter(xs, InMonth(MonthOf(today))));
    var lastMonth := Sum(Filter(xs, InMonth(PreviousMonth(MonthOf(today)))));
    Summary(
      Sum(xs),
      Sum(Filter(xs, OnDate(today))),
      thisMonth,
      lastMonth,
      MonthlyChange(thisMonth, lastMonth),
      CategoryData(xs))
  }

  /** With non-negative amounts: today's sum is part of this month's, and
      this month and last month together are part of the total. */
  lemma SummaryBounds(xs: seq<Expense>, today: Date)
    requires AllNonNegative(xs)
    ensures var s := Summarize(xs, today);
      0.0 <= s.today <= s.thisMonth <= s.total &&
      0.0 <= s.lastMonth && s.thisMonth + s.lastMonth <= s.total
  {
    SumFilterMonotone(xs, OnDate(today), InMonth(MonthOf(today)));
    SumFilterBounded(xs, InMonth(MonthOf(today)));
    SumFilterBounded(xs, InMonth(PreviousMonth(MonthOf(today))));
    SumDisjointFilters(xs, InMonth(MonthOf(today)), InMonth(PreviousMonth(MonthOf(today))));
  }

  /** An empty list: every sum is zero, the change is 100 and there are no
      slices. */
  lemma SummaryOfNoExpenses(today: Date)
    ensures Summarize([], today) == Summary(0.0, 0.0, 0.0, 0.0, 100.0, [])
  {
    var all := AllCategoryData(Categories, []);
    forall d | d in all ensures !HasPositiveValue()(d) {
      var k :| 0 <= k < |all| && all[k] == d;
    }
    FilterKeepsNone(all, HasPositiveValue());
  }

  lemma {:induction false} CategoryDataOfSorted(cats: seq<CategoryInfo>, xs: seq<Expense>)
    ensures AllCategoryData(cats, SortNewestFirst(xs)) == AllCategoryData(cats, xs)
  {
    if cats != [] {
      CategoryDataOfSorted(cats[1..], xs);
      SumFilterSort(xs, InCategory(cats[0].name));
    }
  }

  /** Sorting a fetched list newest first changes none of the figures: they
      equal the ones summed directly over the records as fetched. */
  lemma SummaryOfFetchedList(fetched: seq<Expense>, today: Date)
    ensures Summarize(SortNewestFirst(fetched), today) == Summarize(fetched, today)
  {
    SumSort(fetched);
    SumFilterSort(fetched, OnDate(today));
    SumFilterSort(fetched, InMonth(MonthOf(today)));
    SumFilterSort(fetched, InMonth(PreviousMonth(MonthOf(today))));
    CategoryDataOfSorted(Categories, fetched);
  }

  // ------------------------------------------------------------ the list

  /** The add dialog's fields; an emptied field is `""` or `None`. */
  datatype ExpenseDraft = ExpenseDraft(category: string, amount: Option<real>, date: Option<Date>, description: string)

  /** The dialog's initial and reset contents. */
  function EmptyDraft(today: Date): ExpenseDraft {
    ExpenseDraft("", None, Some(today), "")
  }

  /** The Add button is enabled only when all four fields are truthy; a zero
      amount is falsy. */
  function CanAdd(d: ExpenseDraft): (r: bool)
    ensures r ==> d.category != "" && d.description != ""
    ensures r ==> d.amount.Some? && d.amount.value != 0.0 && d.date.Some?
  {
    !(d.category == "" || d.amount.None? || d.amount == Some(0.0) || d.date.None? || d.description == "")
  }

  /** After the dialog is reset the Add button is disabled again. */
  lemma ResetDraftCannotBeAdded(today: Date)
    ensures !CanAdd(EmptyDraft(today))
  {
  }

  class DashboardView {
    var expenses: seq<Expense>
    var loading: bool
    var draft: ExpenseDraft

    constructor (today: Date)
      ensures expenses == [] && loading && draft == EmptyDraft(today)
    {
      expenses := [];
      loading := true;
      draft := EmptyDraft(today);
    }

    /** The figures shown for the current list. */
    function Figures(today: Date): Summary
      reads this
    {
      Summarize(expenses, today)
    }

    /** The fetch on mount: on success the list becomes the fetched records,
        newest first; on failure it is kept. Either way loading ends. */
    method FetchExpenses(response: Option<seq<Expense>>)
      modifies this
      ensures response.Some? ==> expenses == SortNewestFirst(response.value)
      ensures response.Some? ==> multiset(expenses) == multiset(response.value) && NewestFirst(expenses)
      ensures response.None? ==> expenses == old(expenses)
      ensures !loading && draft == old(draft)
    {
      if response.Some? {
        expenses := SortNewestFirst(response.value);
      }
      loading := false;
    }

    /** `handleAddExpense`, run from the Add button, which is enabled only for
        a complete draft: the record the gateway saved goes in front and the
        dialog is reset, disabling the button again; on failure nothing
        changes. */
    method AddExpense(saved: Option<Expense>, today: Date)
      requires CanAdd(draft)
      modifies this
      ensures saved.Some? ==> expenses == [saved.value] + old(expenses) && draft == EmptyDraft(today)
      ensures saved.Some? ==> !CanAdd(draft)
      ensures saved.None? ==> expenses == old(expenses) && draft == old(draft)
      ensures loading == old(loading)
    {
      if saved.Some? {
        expenses := [saved.value] + expenses;
        draft := EmptyDraft(today);
      }
    }

    /** `handleDeleteExpense`: the id is removed only once the gateway
        answered `ok`; otherwise the list is unchanged. */
    method DeleteExpense(id: string, ok: bool)
      modifies this
      ensures ok ==> expenses == RemoveById(old(expenses), id)
      ensures !ok ==> expenses == old(expenses)
      ensures loading == old(loading) && draft == old(draft)
    {
      if ok {
        expenses := RemoveById(expenses, id);
      }
    }
  }
}
