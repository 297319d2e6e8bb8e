# Expense tracker core, modelled in Dafny

This project models the client-side core of a personal expense tracker. The tracker is a
React application whose state lives in a Redux store, and it talks to a JSON REST gateway.
The model covers five parts of that core:

- **Authentication slice.** A session holds `user`, `loading`, `error` and `isAuthenticated`.
  It is restored from the `authState` storage entry when the client starts. It is changed by
  `logout`, `clearError` and the pending, fulfilled and rejected cases that login and signup
  share. The model also holds the decisions the two requests take on the gateway's answers:
  a plain-text password match for login, and the existence check before creation for signup.
  It also says what is written to storage.
- **Expenses slice.** A list of expenses changed by `addExpense` (prepend), `setExpenses`
  (replace) and `deleteExpense` (remove by id).
- **Dashboard.** The fetched list is sorted newest first. The view adds a saved expense at
  the front and drops a deleted one. It shows these figures: the total; today's sum; this
  month's and last month's sums with the month-over-month change; and the per-category
  breakdown for the pie chart, with each category's colour. The "Add" button is enabled only
  when every field of the draft is filled in.
- **All-expenses listing.** Filtering by search text, category and date range, with the page
  reset. Pagination, clearing the filters, the summary card (count, total, average) and
  deletion.
- **Signup form.** The change handler, the validator with its per-field messages, and the
  request it submits, which leaves out `confirmPassword`.

Amounts are `Option<real>`, and a missing amount counts as zero, as `parseFloat(amount || 0)`
does. Dates are calendar dates, ordered year, then month, then day. The gateway, storage and
the clock are parameters: the outcome of a request, the stored entry, today's date.

Files:

- `wrappers.dfy`: `Option` and `Result`.
- `seqs.dfy`: `Array.prototype.filter` and its laws.
- `text.dfy`: `trim`, `toLowerCase`, `includes`.
- `expense.dfy`: the expense record, sums, removal by id, the newest-first sort.
- `expenses_slice.dfy`, `auth_slice.dfy`, `dashboard.dfy`, `all_expenses.dfy`,
  `signup_form.dfy`: one file per core source file.

Three behaviours of the code are worth stating:

- A rejected login or signup keeps the previous `user` and `isAuthenticated`. It does not
  fall back to the signed-out state (`AuthSlice.AuthStore.Rejected`).
- No request token decides which of two overlapping requests wins. Each reducer applies
  whatever arrives.
- A fulfilled request leaves `error` as the pending case set it.

## Model

| member | source | states |
|---|---|---|
| AuthSlice.LoadAuthState | src/features/auth/authSlice.js:7-27 | A missing or unparsable entry gives the signed-out state; a saved session is restored as it was stored |
| AuthSlice.FindByPassword | src/features/auth/authSlice.js:39 | Finds the first record whose password equals the given one, or reports that none does |
| AuthSlice.AttemptLogin | src/features/auth/authSlice.js:30-52 | Login succeeds iff some returned record has the password. The user is the first such record without its password. Otherwise the error is "Invalid username or password". A failed query gives its message, or "Login failed" when the message is empty |
| AuthSlice.LoginUserMatchesQuery | src/features/auth/authSlice.js:35-39 | If every record the gateway returns has the requested username, the signed-in user has it too |
| AuthSlice.AttemptSignup | src/features/auth/authSlice.js:55-89 | Signup succeeds iff the existence check found nobody and the user was created; the result is the created record without its password. Each failure has its message: "Username already exists", "Failed to create user", or the exception's message with "Signup failed" as fallback |
| AuthSlice.AuthStore.constructor | src/features/auth/authSlice.js:93 | The initial session is what the stored entry restores to |
| AuthSlice.AuthStore.Logout | src/features/auth/authSlice.js:95-101 | Clears user, authentication and error and removes the stored entry; loading is kept |
| AuthSlice.AuthStore.ClearError | src/features/auth/authSlice.js:102-104 | Only the error changes |
| AuthSlice.AuthStore.Pending | src/features/auth/authSlice.js:109-112 | Sets loading and clears the error; user, authentication and storage are unchanged |
| AuthSlice.AuthStore.Fulfilled | src/features/auth/authSlice.js:113-124 | Signs the payload user in and writes that session to storage; the error is unchanged |
| AuthSlice.AuthStore.Rejected | src/features/auth/authSlice.js:125-128 | Stops loading and records the message; user, authentication and storage are kept |
| AuthSlice.AuthStore.Login | src/features/auth/authSlice.js:109-128 | The outcome is the login decision. On success the session is signed in and restoring from storage gives back the same session. On failure the error is the message and the previous user is kept |
| AuthSlice.AuthStore.Signup | src/features/auth/authSlice.js:130-149 | Same life cycle as login, driven by the signup decision |
| ExpensesSlice.ExpensesStore.constructor | src/features/expenses/expensesSlice.js:3-7 | Empty list, not loading, no error |
| ExpensesSlice.ExpensesStore.AddExpense | src/features/expenses/expensesSlice.js:13-15 | The payload is put in front of the unchanged old list |
| ExpensesSlice.ExpensesStore.SetExpenses | src/features/expenses/expensesSlice.js:16-18 | The list becomes the payload; the flags are unchanged |
| ExpensesSlice.ExpensesStore.DeleteExpense | src/features/expenses/expensesSlice.js:19-23 | The list becomes the old list without the id, and no remaining expense carries the id |
| Expenses.RemoveById | src/features/expenses/expensesSlice.js:19-23 | Every kept expense has another id and comes from the list; every expense with another id is kept |
| Expenses.RemoveByIdRemovesExactly | src/features/expenses/expensesSlice.js:19-23 | Removal keeps the remaining expenses in their order. Removed plus kept is exactly the old list as a multiset, and the length drops by the number of matching expenses |
| Expenses.RemoveAbsentId | src/features/expenses/expensesSlice.js:19-23 | Deleting an id no expense has leaves the list unchanged |
| Expenses.RemoveByIdIdempotent | src/features/expenses/expensesSlice.js:19-23 | Deleting the same id twice is the same as deleting it once |
| Expenses.RemoveByIdCommutes | src/features/expenses/expensesSlice.js:19-23 | Two deletions give the same list in either order |
| Expenses.SortNewestFirst | src/components/Dashboard.jsx:98-100 | The sorted list is a permutation of the fetched one, with dates non-increasing |
| Expenses.InsertKeepsNewestFirst | src/components/Dashboard.jsx:98-100 | Inserting one expense into a newest-first list keeps it newest first |
| Expenses.SortIsStable | src/components/Dashboard.jsx:98-100 | Expenses with the same date keep their fetched relative order (the sort is stable) |
| Expenses.SumSort | src/components/Dashboard.jsx:115 | Sorting does not change the total |
| Expenses.SumFilterMonotone | src/components/Dashboard.jsx:124-136 | With non-negative amounts, a narrower filter never sums to more than a wider one |
| Dashboard.CategoryColor | src/components/Dashboard.jsx:118-121 | A category in the table gets its colour; any other name gets the default grey |
| Dashboard.PreviousMonth | src/components/Dashboard.jsx:139-140 | The month before a valid month is valid and exactly one month earlier, January wrapping to December of the year before |
| Dashboard.PreviousMonthIsUnique | src/components/Dashboard.jsx:139-140 | Any valid month exactly one earlier is the one computed |
| Dashboard.MonthlyChange | src/components/Dashboard.jsx:149-151 | 100 when last month is zero; otherwise the change relative to last month, in percent |
| Dashboard.MonthlyChangeSign | src/components/Dashboard.jsx:149-151 | With a positive last month, the change is positive iff spending rose and zero iff it stayed level |
| Dashboard.AllCategoryData | src/components/Dashboard.jsx:154-167 | One row per category, in table order, with its name, colour and the sum of its expenses |
| Dashboard.CategoryDataFollowsTable | src/components/Dashboard.jsx:154-168 | The chart rows keep the table order and are all positive, and every category with a positive sum has its row |
| Dashboard.CategoryDataAddsUp | src/components/Dashboard.jsx:154-168 | With non-negative amounts, the chart rows plus the expenses of unknown categories add up to the total |
| Dashboard.CategoryData | src/components/Dashboard.jsx:154-168 | The chart shows at most one row per category; each row has a positive value and is its category's row of the table |
| Dashboard.Summarize | src/components/Dashboard.jsx:115-168 | The figures: the change is 100 when last month is zero and otherwise the change relative to last month in percent; the chart rows are positive and at most one per category |
| Dashboard.SummaryBounds | src/components/Dashboard.jsx:115-146 | With non-negative amounts: 0 ≤ today ≤ this month ≤ total, and this month plus last month ≤ total |
| Dashboard.SummaryOfNoExpenses | src/components/Dashboard.jsx:115-168 | No expenses give zero sums, a change of 100 and no chart rows |
| Dashboard.SummaryOfFetchedList | src/components/Dashboard.jsx:115-168 | Sorting the fetched list changes none of the figures |
| Dashboard.CanAdd | src/components/Dashboard.jsx:760 | An enabled Add button means every field is filled in: category, description and date are set, and the amount is a non-zero number |
| Dashboard.ResetDraftCannotBeAdded | src/components/Dashboard.jsx:760 | The reset draft leaves the Add button disabled |
| Dashboard.DashboardView.constructor | src/components/Dashboard.jsx:67-75 | No expenses, loading, and an empty draft dated today |
| Dashboard.DashboardView.FetchExpenses | src/components/Dashboard.jsx:88-112 | A successful fetch shows the sorted list, a permutation of the response in newest-first order. A failure keeps the list. Loading ends either way |
| Dashboard.DashboardView.AddExpense | src/components/Dashboard.jsx:192-222 | Runs only for a draft the Add button accepts. A saved expense goes in front and the draft is reset, which disables the button again; a failed request changes nothing |
| Dashboard.DashboardView.DeleteExpense | src/components/Dashboard.jsx:226-242 | A successful delete drops the id's expenses; a failed one changes nothing |
| AllExpenses.SearchStep | src/components/AllExpenses.jsx:112-116 | The conditional search step equals filtering by the search part of the criteria |
| AllExpenses.CategoryStep | src/components/AllExpenses.jsx:119-121 | The conditional category step extends that to the category part |
| AllExpenses.StartStep | src/components/AllExpenses.jsx:124-128 | The conditional start-date step extends that to the start date |
| AllExpenses.EndStep | src/components/AllExpenses.jsx:130-134 | The conditional end-date step gives exactly the combined filter |
| AllExpenses.Filtered | src/components/AllExpenses.jsx:108-136 | Every listed expense comes from the list and matches every active criterion, and every matching expense is listed |
| AllExpenses.FilteredIsOrderedSelection | src/components/AllExpenses.jsx:108-136 | The filtered rows keep the list's order |
| AllExpenses.NoCriteriaKeepsAll | src/components/AllExpenses.jsx:108-136 | With no criteria set, every expense is listed |
| AllExpenses.PageSlice | src/components/AllExpenses.jsx:379 | A page holds at most rowsPerPage rows, which are the rows at its offset. It is empty past the end, and full unless it is the last page |
| AllExpenses.RowOnItsPage | src/components/AllExpenses.jsx:379 | Row k appears at position k mod rowsPerPage of page k div rowsPerPage |
| AllExpenses.Totals | src/components/AllExpenses.jsx:456-480 | The card shows the row count and the total; the average times the count is the total, and the average is zero for no rows |
| AllExpenses.TotalsOfTestFixture | src/components__tests__/AllExpenses.test.jsx:100-102 | The test's two rows of 50 and 20 show 2 rows, 70 in all and 35 on average |
| AllExpenses.ListingView.constructor | src/components/AllExpenses.jsx:60-67 | First page, 10 rows per page, no criteria, loading |
| AllExpenses.ListingView.ApplyFilters | src/components/AllExpenses.jsx:108-138 | The listed rows become exactly the filter of the list by the current criteria, and the page resets to the first |
| AllExpenses.ListingView.FetchExpenses | src/components/AllExpenses.jsx:80-105 | A successful fetch lists the sorted response, refiltered from the first page; a failure keeps the list; loading ends either way |
| AllExpenses.ListingView.SetSearchTerm | src/components/AllExpenses.jsx:173-175 | Only the search term changes; the listing is refiltered from the first page |
| AllExpenses.ListingView.SetCategoryFilter | src/components/AllExpenses.jsx:177-179 | Only the category changes; the listing is refiltered from the first page |
| AllExpenses.ListingView.SetDateFilter | src/components/AllExpenses.jsx:181-187 | Only the named bound changes; the listing is refiltered from the first page |
| AllExpenses.ListingView.ClearFilters | src/components/AllExpenses.jsx:189-196 | All criteria are cleared, so every expense is listed, from the first page |
| AllExpenses.ListingView.ChangePage | src/components/AllExpenses.jsx:146-148 | Only the page changes |
| AllExpenses.ListingView.ChangeRowsPerPage | src/components/AllExpenses.jsx:150-153 | The page size changes and the page resets to the first |
| AllExpenses.ListingView.DeleteExpense | src/components/AllExpenses.jsx:155-171 | A successful delete drops the id's expenses and refilters from the first page; a failure changes nothing; loading is untouched |
| Text.IncludesIffOccurs | src/components/AllExpenses.jsx:114 | `includes` holds iff the needle occurs at some position of the text |
| Text.Utf16Length | src/components/signupForm.jsx:61 | `.length` counts UTF-16 code units: between the number of characters and twice that, equal to it exactly when no character lies outside the Basic Multilingual Plane |
| Text.TrimEmptyIffNoText | src/components/signupForm.jsx:58 | `trim()` gives the empty string iff every character is whitespace |
| SignupForm.HandleChange | src/components/signupForm.jsx:38-46 | The named field takes the typed value and its error is empty; every other field and error is unchanged |
| SignupForm.ValidateForm | src/components/signupForm.jsx:48-92 | Valid iff every field passes, iff no message is set. Lengths are counted in UTF-16 code units, as `.length` counts them. Each field's message is empty iff its check passes. A failing field gets the message of its first failing check |
| SignupForm.HandleSubmit | src/components/signupForm.jsx:94-104 | A request is dispatched iff the form is valid; it carries the username, password and name and leaves out the confirmation |
| SignupForm.TestFormIsSubmitted | src/components__tests__/signupForm.test.jsx:60-72 | The form the test fills in is valid and submits exactly the expected request |
| SignupForm.AstralCharacterCountsTwice | src/components/signupForm.jsx:61-64 | A letter followed by an emoji is three code units long and passes the username checks |
| SignupForm.UsernameLengthIsUntrimmed | src/components/signupForm.jsx:58-64 | The length check counts surrounding blanks: two spaces and a letter pass, though trimming leaves one character |

## Left out

- Rendering is not modelled: the Material UI components, the pie chart, the snackbars and navigation.
- Requests to the REST gateway are not modelled. Each request's outcome is a parameter: the query's records or its failure message, whether creation succeeded, the fetched list or its failure, and whether a delete succeeded.
- `localStorage` is the `storage` field of `AuthSlice.AuthStore`.
- A stored entry that parses as JSON but is not a session is not distinguished. It counts as a saved session.
- Amounts are exact reals. Floating-point rounding, `parseFloat` of malformed text (NaN) and `toFixed(2)` formatting are not modelled.
- Dashboard.SummaryBounds, Dashboard.CategoryDataAddsUp and Expenses.SumFilterMonotone assume non-negative amounts. The add form does not enforce that: a negative number typed into it is kept and can be submitted.
- Dates are calendar dates. JavaScript `Date` parsing and time-zone shifts are not modelled. Today's date is a parameter.
- Text.LowerCase: only the letters A–Z are lowered. Full Unicode case mapping is not modelled.
- The dashboard's `handleInputChange` is not modelled. Neither is the body of the add request (`userId`, `createdAt`): the saved expense the gateway returns is the parameter.
- The add dialog's open/close flag is not modelled.
- The expenses slice's `loading` and `error` fields are carried, but no reducer sets them.
- Asynchronous interleaving is not modelled. Each login or signup runs from pending to its result without another request in between.
- The render between a state change and the filter effect re-running is not modelled. The listing's setters apply the effect at once.
- The profile page, the login form, routing, the store set-up and the API helper module are not part of this model.
