/** The spending breakdown of `renderChart` (app.js:217-253): the loop that
    builds the per-category totals object and the running `totalSpent`, the
    percentage of each category, and which bars are drawn, in which order. */
module SpendingChart {
  import opened Collections
  import opened Expenses
  import opened Categories

  /** The three variables of the loop at app.js:223-230: the totals object, the
      order in which it gained its keys (the order `Object.keys` gives back), and
      `totalSpent`. */
  datatype Tallies = Tallies(totals: map<string, real>, keys: seq<string>, spent: real)

  /** One pass of the loop body: `if (!t[c]) t[c] = 0; t[c] += amount; totalSpent += amount`. */
  function Step(s: Tallies, e: Expense): Tallies
  {
    var c := e.categoryId;
    var keys := if c !in s.totals then s.keys + [c] else s.keys;
    var base := if c !in s.totals || s.totals[c] == 0.0 then s.totals[c := 0.0] else s.totals;
    Tallies(base[c := base[c] + e.amount], keys, s.spent + e.amount)
  }

  /** The loop run over `es`, front to back, from `{}`, `[]` and 0. */
  function Run(es: seq<Expense>): Tallies
  {
    if es == [] then Tallies(map[], [], 0.0) else Step(Run(es[..|es| - 1]), es[|es| - 1])
  }

  /** The totals object once the loop has visited every record. */
  function Totals(es: seq<Expense>): map<string, real>
  {
    Run(es).totals
  }

  /** `Object.keys(categoryTotals)`. */
  function KeyOrder(es: seq<Expense>): seq<string>
  {
    Run(es).keys
  }

  /** Resetting a falsy (zero) total to zero is immaterial: a step adds the record's
      amount to its category's total, or starts that total, and leaves the others. */
  lemma StepTotals(s: Tallies, e: Expense)
    ensures Step(s, e).totals == s.totals[e.categoryId := (if e.categoryId in s.totals then s.totals[e.categoryId] else 0.0) + e.amount]
  {
  }

  lemma CategoryIdsSnoc(es: seq<Expense>, e: Expense)
    ensures CategoryIds(es + [e]) == CategoryIds(es) + {e.categoryId}
  {
    assert forall x :: x in es + [e] <==> x in es || x == e;
    assert e in es + [e];
  }

  /** The loop's keys are exactly the category ids in use (unknown ids included, not
      coerced to the fallback), each listed once, and `totalSpent` is the balance. */
  lemma {:induction false} RunShape(es: seq<Expense>)
    ensures Run(es).totals.Keys == CategoryIds(es)
    ensures forall c :: c in Run(es).keys <==> c in CategoryIds(es)
    ensures Distinct(Run(es).keys)
    ensures Run(es).spent == Balance(es)
  {
    if es != [] {
      var init, e := es[..|es| - 1], es[|es| - 1];
      assert init + [e] == es;
      RunShape(init);
      CategoryIdsSnoc(init, e);
    }
  }

  /** How the loop's variables evolve when it visits `es[i]`. */
  lemma LoopStep(es: seq<Expense>, i: nat)
    requires i < |es|
    ensures Run(es[..i + 1]) == Step(Run(es[..i]), es[i])
  {
    var prefix := es[..i + 1];
    assert prefix[..|prefix| - 1] == es[..i] && prefix[|prefix| - 1] == es[i];
  }

  /** The sum of `m`'s values at `keys`, taken in order. */
  function SumOver(keys: seq<string>, m: map<string, real>): real
    requires forall c :: c in keys ==> c in m
  {
    if keys == [] then 0.0 else SumOver(keys[..|keys| - 1], m) + m[keys[|keys| - 1]]
  }

  lemma {:induction false} SumOverUnaffected(keys: seq<string>, m: map<string, real>, c: string, v: real)
    requires forall k :: k in keys ==> k in m
    requires c !in keys
    ensures SumOver(keys, m[c := v]) == SumOver(keys, m)
  {
    if keys != [] {
      SumOverUnaffected(keys[..|keys| - 1], m, c, v);
    }
  }

  /** Changing one key that occurs once among `keys` changes the sum by the difference. */
  lemma {:induction false} SumOverUpdate(keys: seq<string>, m: map<string, real>, c: string, v: real)
    requires forall k :: k in keys ==> k in m
    requires Distinct(keys) && c in keys
    ensures SumOver(keys, m[c := v]) == SumOver(keys, m) - m[c] + v
  {
    var init := keys[..|keys| - 1];
    if keys[|keys| - 1] == c {
      assert c !in init;
      SumOverUnaffected(init, m, c, v);
    } else {
      SumOverUpdate(init, m, c, v);
    }
  }

  /** Appending a record changes only its category's total, by its amount. */
  lemma CategoryTotalSnoc(es: seq<Expense>, e: Expense, c: string)
    ensures CategoryTotal(es + [e], c) == CategoryTotal(es, c) + (if e.categoryId == c then e.amount else 0.0)
  {
    FilterAppend(es, [e], InCategory(c));
    assert [e][1..] == [];
    BalanceAppend(Filter(es, InCategory(c)), Filter([e], InCategory(c)));
    assert [e][..0] == [];
  }

  /** A category with no record has a zero total. */
  lemma CategoryTotalAbsent(es: seq<Expense>, c: string)
    requires c !in CategoryIds(es)
    ensures CategoryTotal(es, c) == 0.0
  {
    FilterNone(es, InCategory(c));
  }

  /** Each total of the loop is the sum of the amounts carrying that category id. */
  lemma {:induction false} TotalsAreCategorySums(es: seq<Expense>)
    ensures forall c :: c in Totals(es) ==> Totals(es)[c] == CategoryTotal(es, c)
  {
    if es != [] {
      var init, e := es[..|es| - 1], es[|es| - 1];
      assert init + [e] == es;
      TotalsAreCategorySums(init);
      RunShape(init);
      StepTotals(Run(init), e);
      forall c | c in Totals(es) ensures Totals(es)[c] == CategoryTotal(es, c) {
        CategoryTotalSnoc(init, e, c);
        if c !in Totals(init) {
          CategoryTotalAbsent(init, c);
        }
      }
    }
  }

  /** One step of the loop keeps `SumOver(keys, totals)` equal to the running `totalSpent`. */
  lemma SumOverStep(s: Tallies, e: Expense)
    requires Distinct(s.keys)
    requires forall k :: k in s.keys <==> k in s.totals
    ensures forall k :: k in Step(s, e).keys ==> k in Step(s, e).totals
    ensures SumOver(Step(s, e).keys, Step(s, e).totals) == SumOver(s.keys, s.totals) + e.amount
  {
    var c := e.categoryId;
    StepTotals(s, e);
    if c in s.keys {
      SumOverUpdate(s.keys, s.totals, c, s.totals[c] + e.amount);
    } else {
      SumOverUnaffected(s.keys, s.totals, c, e.amount);
      assert (s.keys + [c])[..|s.keys|] == s.keys;
    }
  }

  /** The category totals, taken in key order, add up to the balance: the loop's
      `totalSpent` and the `reduce` of `updateBalance` agree. */
  lemma {:induction false} TotalsSumToBalance(es: seq<Expense>)
    ensures forall c :: c in KeyOrder(es) ==> c in Totals(es)
    ensures SumOver(KeyOrder(es), Totals(es)) == Balance(es)
  {
    RunShape(es);
    if es != [] {
      var init, e := es[..|es| - 1], es[|es| - 1];
      TotalsSumToBalance(init);
      RunShape(init);
      SumOverStep(Run(init), e);
    }
  }

  /** Everything the totals loop establishes, gathered for its result `Run(es)`. */
  lemma RunSummary(es: seq<Expense>)
    ensures var r := Run(es);
      r.totals.Keys == CategoryIds(es) &&
      (forall c :: c in r.totals ==> r.totals[c] == CategoryTotal(es, c)) &&
      Distinct(r.keys) && (forall c :: c in r.keys <==> c in r.totals) &&
      r.spent == Balance(es) == SumOver(r.keys, r.totals)
  {
    RunShape(es);
    TotalsAreCategorySums(es);
    TotalsSumToBalance(es);
  }

  /** The value of `(amount / totalSpent) * 100` (app.js:237). A zero total gives a
      non-finite JavaScript number, +Infinity for a positive amount and -Infinity or
      NaN otherwise; `positive` records whether it passes the `percentage > 0` test. */
  datatype Share = Finite(percent: real) | NonFinite(positive: bool)

  function Percentage(amount: real, totalSpent: real): Share
  {
    if totalSpent == 0.0 then NonFinite(amount > 0.0) else Finite(amount / totalSpent * 100.0)
  }

  /** `percentage > 0` (app.js:239): whether the bar is drawn. */
  predicate Drawn(s: Share)
  {
    if s.Finite? then s.percent > 0.0 else s.positive
  }

  /** One bar of the chart: the category it stands for, the name and colour shown, its share. */
  datatype Bar = Bar(categoryId: string, name: string, color: string, share: Share)

  function BarFor(c: string, totals: map<string, real>, totalSpent: real): Bar
    requires c in totals
  {
    var shown := ChartLookup(c);
    Bar(c, shown.name, shown.color, Percentage(totals[c], totalSpent))
  }

  /** The bars drawn for the keys `keys`, in that order (app.js:234-253). */
  function Bars(keys: seq<string>, totals: map<string, real>, totalSpent: real): seq<Bar>
    requires forall c :: c in keys ==> c in totals
  {
    if keys == [] then []
    else
      var b := BarFor(keys[|keys| - 1], totals, totalSpent);
      Bars(keys[..|keys| - 1], totals, totalSpent) + (if Drawn(b.share) then [b] else [])
  }

  /** How the drawn bars grow when the key loop visits `keys[i]`. */
  lemma BarsStep(keys: seq<string>, totals: map<string, real>, totalSpent: real, i: nat)
    requires forall c :: c in keys ==> c in totals
    requires i < |keys|
    ensures var b := BarFor(keys[i], totals, totalSpent);
      Bars(keys[..i + 1], totals, totalSpent) ==
      Bars(keys[..i], totals, totalSpent) + (if Drawn(b.share) then [b] else [])
  {
    var prefix := keys[..i + 1];
    assert prefix[..|prefix| - 1] == keys[..i] && prefix[|prefix| - 1] == keys[i];
  }

  /** What `renderChart` draws: nothing for an empty ledger (app.js:220), else one
      bar per drawn category in key order. */
  function Chart(es: seq<Expense>): seq<Bar>
  {
    if es == [] then []
    else
      RunShape(es);
      Bars(KeyOrder(es), Totals(es), Balance(es))
  }

  /** The chart of a non-empty ledger is drawn from the totals loop's result. */
  lemma ChartOfRun(es: seq<Expense>)
    requires es != []
    ensures forall c :: c in Run(es).keys ==> c in Run(es).totals
    ensures Chart(es) == Bars(Run(es).keys, Run(es).totals, Run(es).spent)
  {
    RunShape(es);
  }

  /** The `Object.keys(categoryTotals).forEach` loop of `renderChart`: visits the keys
      in order and keeps the bar of each key whose percentage passes `> 0`. */
  method DrawBars(keys: seq<string>, totals: map<string, real>, totalSpent: real) returns (bars: seq<Bar>)
    requires forall c :: c in keys ==> c in totals
    ensures bars == Bars(keys, totals, totalSpent)
  {
    bars := [];
    var i := 0;
    while i < |keys|
      invariant 0 <= i <= |keys|
      invariant bars == Bars(keys[..i], totals, totalSpent)
    {
      BarsStep(keys, totals, totalSpent, i);
      var bar := BarFor(keys[i], totals, totalSpent);
      if Drawn(bar.share) {
        bars := bars + [bar];
      }
      i := i + 1;
    }
    assert keys[..i] == keys;
  }

  /** The sum of the finite percentages of `bars`. */
  function SumPercents(bars: seq<Bar>): real
  {
    if bars == [] then 0.0
    else
      var s := bars[|bars| - 1].share;
      SumPercents(bars[..|bars| - 1]) + (if s.Finite? then s.percent else 0.0)
  }

  lemma PercentBounds(x: real, total: real)
    requires 0.0 < x <= total
    ensures 0.0 < x / total * 100.0 <= 100.0
  {
    assert x / total <= 1.0;
  }

  lemma WholeIsHundred(total: real)
    requires total != 0.0
    ensures total / total * 100.0 == 100.0
  {
  }

  lemma PercentAdds(x: real, y: real, total: real)
    requires total != 0.0
    ensures x / total * 100.0 + y / total * 100.0 == (x + y) / total * 100.0
  {
  }

  /** Adding one category's share to the shares of the others keeps the running
      sum equal to the running total as a percentage. */
  lemma ShareStep(after: real, before: real, sum: real, x: real, totalSpent: real)
    requires totalSpent != 0.0
    requires before == sum / totalSpent * 100.0
    requires after == before + x / totalSpent * 100.0
    ensures after == (sum + x) / totalSpent * 100.0
  {
    PercentAdds(sum, x, totalSpent);
  }

  /** A category whose total lies in (0, totalSpent] gets a drawn bar with a finite share in (0, 100]. */
  lemma DrawnBar(c: string, totals: map<string, real>, totalSpent: real)
    requires c in totals && 0.0 < totals[c] <= totalSpent
    ensures var b := BarFor(c, totals, totalSpent);
      b.categoryId == c && b.share == Finite(totals[c] / totalSpent * 100.0) &&
      0.0 < b.share.percent <= 100.0 && Drawn(b.share)
  {
    PercentBounds(totals[c], totalSpent);
  }

  /** With a positive total and every total in (0, total], every key gets a drawn
      bar, in key order, with a finite share in (0, 100]. */
  lemma {:induction false} BarsAllDrawn(keys: seq<string>, totals: map<string, real>, totalSpent: real)
    requires totalSpent > 0.0
    requires forall c :: c in keys ==> c in totals && 0.0 < totals[c] <= totalSpent
    ensures |Bars(keys, totals, totalSpent)| == |keys|
    ensures forall i :: 0 <= i < |keys| ==>
      var b := Bars(keys, totals, totalSpent)[i];
      b.categoryId == keys[i] && b.share == Finite(totals[keys[i]] / totalSpent * 100.0) &&
      0.0 < b.share.percent <= 100.0
  {
    if keys != [] {
      var init, c := keys[..|keys| - 1], keys[|keys| - 1];
      BarsAllDrawn(init, totals, totalSpent);
      var before := Bars(init, totals, totalSpent);
      var b := BarFor(c, totals, totalSpent);
      DrawnBar(c, totals, totalSpent);
      var bars := Bars(keys, totals, totalSpent);
      assert bars == before + [b];
      assert |before| == |init| && bars[|init|] == b;
      forall i | 0 <= i < |keys|
        ensures bars[i].categoryId == keys[i] && bars[i].share == Finite(totals[keys[i]] / totalSpent * 100.0) &&
          0.0 < bars[i].share.percent <= 100.0
      {
        if i < |init| {
          assert bars[i] == before[i] && keys[i] == init[i];
        } else {
          assert i == |init|;
        }
      }
    }
  }

  /** Bars whose shares are the keys' totals as percentages of `totalSpent` add up
      to the keys' sum as a percentage of `totalSpent`. */
  lemma {:induction false} SharesSum(bars: seq<Bar>, keys: seq<string>, totals: map<string, real>, totalSpent: real)
    requires totalSpent != 0.0 && |bars| == |keys|
    requires forall c :: c in keys ==> c in totals
    requires forall i :: 0 <= i < |keys| ==> bars[i].share == Finite(totals[keys[i]] / totalSpent * 100.0)
    ensures SumPercents(bars) == SumOver(keys, totals) / totalSpent * 100.0
  {
    if keys == [] {
      assert 0.0 / totalSpent * 100.0 == 0.0;
    } else {
      var n := |keys| - 1;
      var init, c := keys[..n], keys[n];
      SharesSum(bars[..n], init, totals, totalSpent);
      assert bars[n].share == Finite(totals[c] / totalSpent * 100.0);
      ShareStep(SumPercents(bars), SumPercents(bars[..n]), SumOver(init, totals), totals[c], totalSpent);
    }
  }

  /** With positive amounts, each category total in use is positive and at most the balance. */
  lemma TotalsWithinBalance(es: seq<Expense>)
    requires AllPositive(es)
    ensures forall c :: c in KeyOrder(es) ==> c in Totals(es) && 0.0 < Totals(es)[c] <= Balance(es)
  {
    RunShape(es);
    TotalsAreCategorySums(es);
    forall c | c in KeyOrder(es) ensures 0.0 < CategoryTotal(es, c) <= Balance(es) {
      var e :| e in es && e.categoryId == c;
      assert InCategory(c)(e);
      FilterBalanceBounds(es, InCategory(c));
    }
  }

  /** Keys whose totals lie in (0, totalSpent] and add up to `totalSpent`: every key
      gets a drawn bar in key order, each share lies in (0, 100], and the shares add
      up to 100. */
  lemma BarsHundred(keys: seq<string>, totals: map<string, real>, totalSpent: real)
    requires totalSpent > 0.0
    requires forall c :: c in keys ==> c in totals && 0.0 < totals[c] <= totalSpent
    requires SumOver(keys, totals) == totalSpent
    ensures |Bars(keys, totals, totalSpent)| == |keys|
    ensures forall i :: 0 <= i < |keys| ==>
      var b := Bars(keys, totals, totalSpent)[i];
      b.categoryId == keys[i] && b.share.Finite? && 0.0 < b.share.percent <= 100.0
    ensures SumPercents(Bars(keys, totals, totalSpent)) == 100.0
  {
    var bars := Bars(keys, totals, totalSpent);
    BarsAllDrawn(keys, totals, totalSpent);
    SharesSum(bars, keys, totals, totalSpent);
    WholeIsHundred(totalSpent);
  }

  /** For a non-empty ledger of positive amounts: every category in use gets a
      bar, in key order, each share lies in (0, 100], and the shares add up to 100. */
  lemma PositiveLedgerChart(es: seq<Expense>)
    requires es != [] && AllPositive(es)
    ensures |Chart(es)| == |KeyOrder(es)|
    ensures forall i :: 0 <= i < |Chart(es)| ==>
      Chart(es)[i].categoryId == KeyOrder(es)[i] && Chart(es)[i].share.Finite? &&
      0.0 < Chart(es)[i].share.percent <= 100.0
    ensures SumPercents(Chart(es)) == 100.0
  {
    var keys, t, total := KeyOrder(es), Totals(es), Balance(es);
    RunShape(es);
    assert Chart(es) == Bars(keys, t, total);
    TotalsWithinBalance(es);
    assert es[0].categoryId in keys;
    TotalsSumToBalance(es);
    BarsHundred(keys, t, total);
  }

  /** An empty ledger computes no percentage at all. */
  lemma EmptyLedgerChart()
    ensures Chart([]) == []
  {
  }

}
