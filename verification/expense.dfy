/** The expense record shared by the store, the dashboard and the listing,
    together with the operations all three perform on a list of expenses:
    summing amounts, removing by id and the newest-first sort applied to a
    fetched list. */
module Expenses {
  import opened Wrappers
  import opened Seqs

  /** A calendar date as written in the records, `yyyy-MM-dd` (month 1..12). */
  datatype Date = Date(year: int, month: int, day: int)

  /** Chronological order of two dates (`new Date(a) <= new Date(b)`). */
  predicate DateLe(a: Date, b: Date) {
    a.year < b.year ||
    (a.year == b.year && (a.month < b.month || (a.month == b.month && a.day <= b.day)))
  }

  /** An expense record as the gateway returns it. A missing or empty amount
      is `None`. */
  datatype Expense = Expense(
    id: string,
    userId: string,
    category: string,
    amount: Option<real>,
    date: Date,
    description: string)

  /** `parseFloat(expense.amount || 0)`: a missing amount counts as zero. */
  function AmountOf(e: Expense): real {
    match e.amount
    case Some(v) => v
    case None => 0.0
  }

  /** `xs.reduce((sum, e) => sum + parseFloat(e.amount || 0), 0)`. */
  function Sum(xs: seq<Expense>): real {
    if xs == [] then 0.0 else AmountOf(xs[0]) + Sum(xs[1..])
  }

  /** Every amount is non-negative. The add form does not enforce this (a
      negative number typed into it is kept and can be submitted); it is a
      hypothesis of the bounds proved about sums. */
  predicate AllNonNegative(xs: seq<Expense>) {
    forall i :: 0 <= i < |xs| ==> AmountOf(xs[i]) >= 0.0
  }

  lemma {:induction false} SumAppend(a: seq<Expense>, b: seq<Expense>)
    ensures Sum(a + b) == Sum(a) + Sum(b)
  {
    if a != [] {
      assert (a + b)[1..] == a[1..] + b;
      SumAppend(a[1..], b);
    } else {
      assert a + b == b;
    }
  }

  /** Summing the kept elements of a filter never exceeds summing the kept
      elements of a weaker filter, when amounts are non-negative. */
  lemma {:induction false} SumFilterMonotone(xs: seq<Expense>, p: Expense -> bool, q: Expense -> bool)
    requires AllNonNegative(xs)
    requires forall x :: x in xs && p(x) ==> q(x)
    ensures 0.0 <= Sum(Filter(xs, p)) <= Sum(Filter(xs, q))
  {
    if xs != [] {
      assert AllNonNegative(xs[1..]) by {
        forall i | 0 <= i < |xs[1..]| ensures AmountOf(xs[1..][i]) >= 0.0 {
          assert xs[1..][i] == xs[i + 1];
        }
      }
      SumFilterMonotone(xs[1..], p, q);
      assert AmountOf(xs[0]) >= 0.0;
    }
  }

  /** Summing a filter never exceeds the sum of the whole list, when amounts
      are non-negative. */
  lemma {:induction false} SumFilterBounded(xs: seq<Expense>, p: Expense -> bool)
    requires AllNonNegative(xs)
    ensures 0.0 <= Sum(Filter(xs, p)) <= Sum(xs)
  {
    if xs != [] {
      assert AllNonNegative(xs[1..]) by {
        forall i | 0 <= i < |xs[1..]| ensures AmountOf(xs[1..][i]) >= 0.0 {
          assert xs[1..][i] == xs[i + 1];
        }
      }
      SumFilterBounded(xs[1..], p);
      assert AmountOf(xs[0]) >= 0.0;
    }
  }

  /** One step of a filtered sum: the head counts iff it passes. */
  lemma SumFilterCons(e: Expense, t: seq<Expense>, p: Expense -> bool)
    ensures Sum(Filter([e] + t, p)) == (if p(e) then AmountOf(e) else 0.0) + Sum(Filter(t, p))
  {
  }

  /** Two filters that share no element sum to at most the whole list, when
      amounts are non-negative. */
  lemma {:induction false} SumDisjointFilters(xs: seq<Expense>, p: Expense -> bool, q: Expense -> bool)
    requires AllNonNegative(xs)
    requires forall x :: x in xs ==> !(p(x) && q(x))
    ensures Sum(Filter(xs, p)) + Sum(Filter(xs, q)) <= Sum(xs)
  {
    if xs != [] {
      assert AllNonNegative(xs[1..]) by {
        forall i | 0 <= i < |xs[1..]| ensures AmountOf(xs[1..][i]) >= 0.0 {
          assert xs[1..][i] == xs[i + 1];
        }
      }
      SumDisjointFilters(xs[1..], p, q);
      assert AmountOf(xs[0]) >= 0.0;
    }
  }

  // ---------------------------------------------------------------- removal

  /** The test `expense => expense.id !== id`. */
  function OtherId(id: string): Expense -> bool {
    (e: Expense) => e.id != id
  }

  /** The test `expense => expense.id === id`. */
  function HasId(id: string): Expense -> bool {
    (e: Expense) => e.id == id
  }

  /** `xs.filter(expense => expense.id !== id)`. */
  function RemoveById(xs: seq<Expense>, id: string): (r: seq<Expense>)
    ensures forall i :: 0 <= i < |r| ==> r[i].id != id && r[i] in xs
    ensures forall i :: 0 <= i < |xs| && xs[i].id != id ==> xs[i] in r
  {
    Filter(xs, OtherId(id))
  }

  /** The result keeps the survivors in their order, and exactly the
      elements carrying `id` are gone: with them it is the whole input. */
  lemma RemoveByIdRemovesExactly(xs: seq<Expense>, id: string)
    ensures IsSubsequence(RemoveById(xs, id), xs)
    ensures multiset(RemoveById(xs, id)) + multiset(Filter(xs, HasId(id))) == multiset(xs)
    ensures |RemoveById(xs, id)| == |xs| - |Filter(xs, HasId(id))|
  {
    FilterIsSubsequence(xs, OtherId(id));
    FilterPartition(xs, OtherId(id), HasId(id));
  }

  /** Removing an id that no element carries changes nothing. */
  lemma RemoveAbsentId(xs: seq<Expense>, id: string)
    requires forall i :: 0 <= i < |xs| ==> xs[i].id != id
    ensures RemoveById(xs, id) == xs
  {
    FilterKeepsAll(xs, OtherId(id));
  }

  /** Removing the same id twice is removing it once. */
  lemma RemoveByIdIdempotent(xs: seq<Expense>, id: string)
    ensures RemoveById(RemoveById(xs, id), id) == RemoveById(xs, id)
  {
    RemoveAbsentId(RemoveById(xs, id), id);
  }

  /** Two deletions give the same list in either order. */
  lemma RemoveByIdCommutes(xs: seq<Expense>, a: string, b: string)
    ensures RemoveById(RemoveById(xs, a), b) == RemoveById(RemoveById(xs, b), a)
  {
    var both: Expense -> bool := (e: Expense) => e.id != a && e.id != b;
    FilterFusion(xs, OtherId(a), OtherId(b), both);
    FilterFusion(xs, OtherId(b), OtherId(a), both);
  }

  // ---------------------------------------------------------------- sorting

  /** Dates never increase along the list. */
  predicate NewestFirst(xs: seq<Expense>) {
    forall i, j :: 0 <= i < j < |xs| ==> DateLe(xs[j].date, xs[i].date)
  }

  /** Places `x` before the first element that is not newer than it. */
  function InsertByDate(x: Expense, s: seq<Expense>): (r: seq<Expense>)
    ensures multiset(r) == multiset{x} + multiset(s)
    ensures |r| == |s| + 1
  {
    if s == [] || DateLe(s[0].date, x.date) then [x] + s
    else
      assert s == [s[0]] + s[1..];
      [s[0]] + InsertByDate(x, s[1..])
  }

  lemma {:induction false} InsertKeepsNewestFirst(x: Expense, s: seq<Expense>)
    requires NewestFirst(s)
    ensures NewestFirst(InsertByDate(x, s))
  {
    if s != [] && !DateLe(s[0].date, x.date) {
      var rest := InsertByDate(x, s[1..]);
      InsertKeepsNewestFirst(x, s[1..]);
      var r := [s[0]] + rest;
      forall j | 0 < j < |r| ensures DateLe(r[j].date, s[0].date) {
        var y := r[j];
        assert y == rest[j - 1];
        assert y in multiset(rest);
        if y != x {
          assert y in s[1..];
          var k :| 0 <= k < |s[1..]| && s[1..][k] == y;
          assert y == s[k + 1];
        }
      }
    }
  }

  /** `data.sort((a, b) => new Date(b.date) - new Date(a.date))`: newest date
      first; `Array.prototype.sort` is stable, so equal dates keep their
      fetched order (see `SortIsStable`). */
  function SortNewestFirst(xs: seq<Expense>): (r: seq<Expense>)
    ensures multiset(r) == multiset(xs)
    ensures |r| == |xs|
    ensures NewestFirst(r)
  {
    if xs == [] then []
    else
      assert xs == [xs[0]] + xs[1..];
      InsertKeepsNewestFirst(xs[0], SortNewestFirst(xs[1..]));
      InsertByDate(xs[0], SortNewestFirst(xs[1..]))
  }

  /** The test `expense => expense.category === name`. */
  function InCategory(name: string): Expense -> bool {
    (e: Expense) => e.category == name
  }

  /** The test `expense => expense.date === d`. */
  function OnDate(d: Date): Expense -> bool {
    (e: Expense) => e.date == d
  }

  lemma {:induction false} InsertKeepsSameDateOrder(x: Expense, s: seq<Expense>, d: Date)
    ensures Filter(InsertByDate(x, s), OnDate(d)) == (if x.date == d then [x] else []) + Filter(s, OnDate(d))
  {
    if s == [] || DateLe(s[0].date, x.date) {
      assert ([x] + s)[1..] == s;
    } else {
      InsertKeepsSameDateOrder(x, s[1..], d);
      assert ([s[0]] + InsertByDate(x, s[1..]))[1..] == InsertByDate(x, s[1..]);
    }
  }

  /** Stability: the expenses of any one date appear in the sorted list in the
      order the gateway returned them. */
  lemma {:induction false} SortIsStable(xs: seq<Expense>, d: Date)
    ensures Filter(SortNewestFirst(xs), OnDate(d)) == Filter(xs, OnDate(d))
  {
    if xs != [] {
      SortIsStable(xs[1..], d);
      InsertKeepsSameDateOrder(xs[0], SortNewestFirst(xs[1..]), d);
    }
  }

  lemma {:induction false} SumFilterInsert(x: Expense, s: seq<Expense>, p: Expense -> bool)
    ensures Sum(Filter(InsertByDate(x, s), p)) == (if p(x) then AmountOf(x) else 0.0) + Sum(Filter(s, p))
  {
    if s == [] || DateLe(s[0].date, x.date) {
      assert ([x] + s)[1..] == s;
    } else {
      SumFilterInsert(x, s[1..], p);
      assert ([s[0]] + InsertByDate(x, s[1..]))[1..] == InsertByDate(x, s[1..]);
    }
  }

  /** Sorting a fetched list changes no sum taken over any filter of it. */
  lemma {:induction false} SumFilterSort(xs: seq<Expense>, p: Expense -> bool)
    ensures Sum(Filter(SortNewestFirst(xs), p)) == Sum(Filter(xs, p))
  {
    if xs != [] {
      SumFilterSort(xs[1..], p);
      SumFilterInsert(xs[0], SortNewestFirst(xs[1..]), p);
    }
  }

  /** Sorting a fetched list does not change its total. */
  lemma SumSort(xs: seq<Expense>)
    ensures Sum(SortNewestFirst(xs)) == Sum(xs)
  {
    var any: Expense -> bool := (e: Expense) => true;
    SumFilterSort(xs, any);
    FilterKeepsAll(xs, any);
    FilterKeepsAll(SortNewestFirst(xs), any);
  }
}
