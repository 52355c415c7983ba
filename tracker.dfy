/** The ledger state of the page (app.js:3-11, 59-69, 115-152, 204-230) as an
    object: the list of expenses, newest first, and the store it writes through to. */
module Tracker {
  import opened Wrappers
  import opened Collections
  import opened Expenses
  import opened Storage
  import opened SpendingChart

  class Ledger {
    /** The expenses, newest first. */
    var expenses: seq<Expense>
    /** Every snapshot written under the storage key, oldest first (`saveExpenses`). */
    var writes: seq<seq<Expense>>

    /** Start-up: hydrate from the stored entry, failing open to an empty ledger. */
    constructor Load(stored: Option<string>, parse: string -> Parsed)
      ensures expenses == Hydrate(stored, parse)
      ensures writes == []
    {
      expenses := Hydrate(stored, parse);
      writes := [];
    }

    /** `saveExpenses`: write the whole current list through to the store. */
    method Save()
      modifies this
      ensures expenses == old(expenses)
      ensures writes == old(writes) + [expenses]
    {
      writes := writes + [expenses];
    }

    /** `addExpense` with the form's raw values and the id `generateID` would give.
        A rejected form changes nothing and writes nothing; an accepted one puts the
        new record in front, keeps the older ones behind it in order, and saves. */
    method AddExpense(id: string, name: string, amount: Option<real>, categoryId: string, date: string)
      returns (added: Option<Expense>)
      modifies this
      ensures added == NewExpense(id, name, amount, categoryId, date)
      ensures added.None? ==> expenses == old(expenses) && writes == old(writes)
      ensures added.Some? ==> expenses == [added.value] + old(expenses) && writes == old(writes) + [expenses]
      ensures added.Some? ==> Balance(expenses) == Balance(old(expenses)) + added.value.amount
      ensures added.Some? && UniqueIds(old(expenses)) && id !in Ids(old(expenses)) ==> UniqueIds(expenses)
    {
      added := NewExpense(id, name, amount, categoryId, date);
      if added.None? {
        return;
      }
      BalancePrepend(added.value, expenses);
      assert ([added.value] + expenses)[1..] == expenses;
      expenses := [added.value] + expenses;
      Save();
    }

    /** `removeExpense`: keep the records whose id differs, then save (also when
        nothing was removed). */
    method RemoveExpense(id: string)
      modifies this
      ensures expenses == Without(old(expenses), id)
      ensures writes == old(writes) + [expenses]
      ensures UniqueIds(old(expenses)) ==> UniqueIds(expenses)
    {
      if UniqueIds(expenses) {
        WithoutKeepsUnique(expenses, id);
      }
      expenses := Without(expenses, id);
      Save();
    }

    /** The clear-all button: nothing at all happens on an empty ledger; otherwise
        the list is emptied and saved. */
    method ClearAll()
      modifies this
      ensures old(expenses) == [] ==> expenses == [] && writes == old(writes)
      ensures old(expenses) != [] ==> expenses == [] && writes == old(writes) + [[]]
      ensures Balance(expenses) == 0.0
    {
      if |expenses| == 0 {
        return;
      }
      expenses := [];
      Save();
    }

    /** The loop of `renderChart` (app.js:223-230): the totals object, the order in
        which it gained its keys, and `totalSpent`. */
    method CategoryTotals() returns (totals: map<string, real>, keys: seq<string>, totalSpent: real)
      ensures Tallies(totals, keys, totalSpent) == Run(expenses)
      ensures totals.Keys == CategoryIds(expenses)
      ensures forall c :: c in totals ==> totals[c] == CategoryTotal(expenses, c)
      ensures Distinct(keys) && forall c :: c in keys <==> c in totals
      ensures totalSpent == Balance(expenses) == SumOver(keys, totals)
    {
      totals, keys, totalSpent := map[], [], 0.0;
      var i := 0;
      while i < |expenses|
        invariant 0 <= i <= |expenses|
        invariant Tallies(totals, keys, totalSpent) == Run(expenses[..i])
      {
        var e := expenses[i];
        ghost var before := Tallies(totals, keys, totalSpent);
        LoopStep(expenses, i);
        if e.categoryId !in totals {
          keys := keys + [e.categoryId];
        }
        if e.categoryId !in totals || totals[e.categoryId] == 0.0 {
          totals := totals[e.categoryId := 0.0];
        }
        totals := totals[e.categoryId := totals[e.categoryId] + e.amount];
        totalSpent := totalSpent + e.amount;
        assert Tallies(totals, keys, totalSpent) == Step(before, e);
        i := i + 1;
      }
      assert expenses[..i] == expenses;
      RunSummary(expenses);
    }

    /** `renderChart`: the bars drawn, in key order; none for an empty ledger. */
    method RenderChart() returns (bars: seq<Bar>)
      ensures bars == Chart(expenses)
    {
      bars := [];
      if |expenses| == 0 {
        return;
      }
      var totals, keys, totalSpent := CategoryTotals();
      bars := DrawBars(keys, totals, totalSpent);
      ChartOfRun(expenses);
    }
  }

}
