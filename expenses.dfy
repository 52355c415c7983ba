/** The expense record and the pure parts of the ledger: the balance `reduce`
    (app.js:213), removal by `filter` (app.js:205), per-category sums, and the
    check that gates a new record (app.js:121-132). */
module Expenses {
  import opened Wrappers
  import opened Collections
  import opened Text

  /** One recorded spending event. `amount` is exact (no floating point). */
  datatype Expense = Expense(id: string, name: string, amount: real, categoryId: string, date: string)

  /** `expenses.reduce((acc, e) => acc + e.amount, 0)`: a left fold from 0. */
  function Balance(es: seq<Expense>): real
  {
    if es == [] then 0.0 else Balance(es[..|es| - 1]) + es[|es| - 1].amount
  }

  /** The balance of a concatenation is the sum of the balances. */
  lemma {:induction false} BalanceAppend(a: seq<Expense>, b: seq<Expense>)
    ensures Balance(a + b) == Balance(a) + Balance(b)
    decreases |b|
  {
    if b == [] {
      assert a + b == a;
    } else {
      var init := b[..|b| - 1];
      assert (a + b)[..|a + b| - 1] == a + init;
      BalanceAppend(a, init);
    }
  }

  /** Prepending a record adds its amount to the balance. */
  lemma BalancePrepend(e: Expense, es: seq<Expense>)
    ensures Balance([e] + es) == e.amount + Balance(es)
  {
    BalanceAppend([e], es);
    assert [e][..0] == [];
  }

  /** Every amount is strictly positive, as `addExpense` guarantees for the records it makes. */
  predicate AllPositive(es: seq<Expense>)
  {
    forall e :: e in es ==> e.amount > 0.0
  }

  /** With positive amounts, any filtered part of the ledger weighs no more than the
      whole, and strictly more than nothing as soon as it keeps a record. */
  lemma {:induction false} FilterBalanceBounds(es: seq<Expense>, p: Expense -> bool)
    requires AllPositive(es)
    ensures 0.0 <= Balance(Filter(es, p)) <= Balance(es)
    ensures (exists e :: e in es && p(e)) ==> Balance(Filter(es, p)) > 0.0
  {
    if es != [] {
      var head := if p(es[0]) then [es[0]] else [];
      assert forall e :: e in es[1..] ==> e in es;
      FilterBalanceBounds(es[1..], p);
      BalanceAppend(head, Filter(es[1..], p));
      BalancePrepend(es[0], es[1..]);
      assert [es[0]] + es[1..] == es;
      if head != [] {
        assert Balance(head) == es[0].amount by { assert head[..0] == []; }
      }
    }
  }

  /** The ids of the records. */
  function Ids(es: seq<Expense>): set<string>
  {
    set e | e in es :: e.id
  }

  /** No two records share an id (the source does not enforce this; see `Tracker`). */
  predicate UniqueIds(es: seq<Expense>)
  {
    es == [] || (es[0].id !in Ids(es[1..]) && UniqueIds(es[1..]))
  }

  /** The predicate of `removeExpense`'s filter: `expense.id !== id`. */
  function OtherId(id: string): Expense -> bool
  {
    (e: Expense) => e.id != id
  }

  /** The records `removeExpense` drops. */
  function HasId(id: string): Expense -> bool
  {
    (e: Expense) => e.id == id
  }

  /** `expenses.filter(expense => expense.id !== id)`. */
  function Without(es: seq<Expense>, id: string): (r: seq<Expense>)
    ensures forall e :: e in r <==> e in es && e.id != id
    ensures id !in Ids(r)
  {
    Filter(es, OtherId(id))
  }

  /** Removal keeps relative order: it acts on each part of a split independently. */
  lemma WithoutAppend(a: seq<Expense>, b: seq<Expense>, id: string)
    ensures Without(a + b, id) == Without(a, id) + Without(b, id)
  {
    FilterAppend(a, b, OtherId(id));
  }

  /** Removing an id that no record carries changes nothing. */
  lemma WithoutMissing(es: seq<Expense>, id: string)
    requires id !in Ids(es)
    ensures Without(es, id) == es
  {
    FilterKeepsAll(es, OtherId(id));
  }

  /** A second removal of the same id changes nothing. */
  lemma WithoutIdempotent(es: seq<Expense>, id: string)
    ensures Without(Without(es, id), id) == Without(es, id)
  {
    FilterIdempotent(es, OtherId(id));
  }

  /** Removal leaves the balance lowered by exactly the amounts of the removed records. */
  lemma {:induction false} WithoutBalance(es: seq<Expense>, id: string)
    ensures Balance(Without(es, id)) == Balance(es) - Balance(Filter(es, HasId(id)))
  {
    if es != [] {
      WithoutBalance(es[1..], id);
      var kept := if es[0].id != id then [es[0]] else [];
      var gone := if es[0].id == id then [es[0]] else [];
      BalanceAppend(kept, Without(es[1..], id));
      BalanceAppend(gone, Filter(es[1..], HasId(id)));
      BalancePrepend(es[0], es[1..]);
      assert [es[0]] + es[1..] == es;
      assert [es[0]][..0] == [];
    }
  }

  /** Adding a record with a fresh id and then removing that id restores the ledger. */
  lemma AddThenRemove(e: Expense, es: seq<Expense>)
    requires e.id !in Ids(es)
    ensures Without([e] + es, e.id) == es
  {
    assert ([e] + es)[1..] == es;
    WithoutMissing(es, e.id);
  }

  /** The ids of a filtered ledger are among the ids of the ledger. */
  lemma FilterIds(es: seq<Expense>, p: Expense -> bool)
    ensures Ids(Filter(es, p)) <= Ids(es)
  {
  }

  /** Filtering keeps ids unique. */
  lemma {:induction false} FilterKeepsUnique(es: seq<Expense>, p: Expense -> bool)
    requires UniqueIds(es)
    ensures UniqueIds(Filter(es, p))
  {
    if es != [] {
      FilterKeepsUnique(es[1..], p);
      FilterIds(es[1..], p);
      var rest := Filter(es[1..], p);
      if p(es[0]) {
        assert ([es[0]] + rest)[1..] == rest;
      } else {
        assert [] + rest == rest;
      }
    }
  }

  /** Removal keeps ids unique. */
  lemma WithoutKeepsUnique(es: seq<Expense>, id: string)
    requires UniqueIds(es)
    ensures UniqueIds(Without(es, id))
  {
    FilterKeepsUnique(es, OtherId(id));
  }

  /** The category ids that occur in the ledger. */
  function CategoryIds(es: seq<Expense>): set<string>
  {
    set e | e in es :: e.categoryId
  }

  /** The predicate selecting the records of one category. */
  function InCategory(c: string): Expense -> bool
  {
    (e: Expense) => e.categoryId == c
  }

  /** The spending in category `c`: the balance of the records carrying exactly `c`. */
  function CategoryTotal(es: seq<Expense>, c: string): real
  {
    Balance(Filter(es, InCategory(c)))
  }

  /** The form check of `addExpense` (app.js:121), with `amount` the result of
      `parseFloat` (`None` for `NaN`): a name that does not trim to empty, a
      positive amount and a non-empty date. On success the record keeps the name
      as typed, untrimmed. */
  function NewExpense(id: string, name: string, amount: Option<real>, categoryId: string, date: string): (r: Option<Expense>)
    ensures r.Some? <==> !Blank(name) && amount.Some? && amount.value > 0.0 && date != ""
    ensures r.Some? ==> r.value == Expense(id, name, amount.value, categoryId, date)
  {
    TrimEmptyIffBlank(name);
    if Trim(name) == "" || amount.None? || amount.value <= 0.0 || date == "" then None
    else Some(Expense(id, name, amount.value, categoryId, date))
  }

}
