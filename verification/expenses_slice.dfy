/** The expenses slice of the client-side store: a list of expenses with
    `loading` and `error` flags, changed by three reducers. */
module ExpensesSlice {
  import opened Wrappers
  import opened Expenses

  class ExpensesStore {
    var expenses: seq<Expense>
    var loading: bool
    var error: Option<string>

    /** `initialState`: an empty list, not loading, no error. */
    constructor ()
      ensures expenses == [] && !loading && error == None
    {
      expenses := [];
      loading := false;
      error := None;
    }

    /** `addExpense`: `state.expenses.unshift(payload)`. */
    method AddExpense(payload: Expense)
      modifies this
      ensures expenses == [payload] + old(expenses)
      ensures |expenses| == |old(expenses)| + 1 && expenses[0] == payload && expenses[1..] == old(expenses)
      ensures loading == old(loading) && error == old(error)
    {
      expenses := [payload] + expenses;
      assert expenses[1..] == old(expenses);
    }

    /** `setExpenses`: the list is replaced wholesale. */
    method SetExpenses(payload: seq<Expense>)
      modifies this
      ensures expenses == payload
      ensures loading == old(loading) && error == old(error)
    {
      expenses := payload;
    }

    /** `deleteExpense`: every expense carrying the id is filtered out; see
        `Expenses.RemoveByIdRemovesExactly` and `Expenses.RemoveByIdIdempotent`. */
    method DeleteExpense(id: string)
      modifies this
      ensures expenses == RemoveById(old(expenses), id)
      ensures forall i :: 0 <= i < |expenses| ==> expenses[i].id != id
      ensures loading == old(loading) && error == old(error)
    {
      expenses := RemoveById(expenses, id);
    }
  }
}
