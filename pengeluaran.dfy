/** The expenses page (`pengeluaran`): this month's total, the totals per category
    and the largest category, the remaining budget, and the search over expenses.
    The current month and year are parameters. */
module Pengeluaran {
  import opened Seqs
  import opened Text

  /** An `expenses` row, with its `date` already read as year, month and day. */
  datatype Expense = Expense(year: int, month: int, day: int, description: string, category: string, amount: int)

  /** The sample monthly budget of 20 million rupiah. */
  const Budget: int := 20000000

  /** The label shown when there is no category at all. */
  const NoCategory: string := "Belum Ada"

  function Amount(e: Expense): int
  {
    e.amount
  }

  predicate InMonth(e: Expense, month: int, year: int)
  {
    e.month == month && e.year == year
  }

  /** `totalBulanIni`: the amounts of this month's expenses, added up. */
  function MonthlyTotal(expenses: seq<Expense>, month: int, year: int): int
  {
    Sum(Filter(expenses, (e: Expense) => InMonth(e, month, year)), Amount)
  }

  /** One more expense adds its amount to the month's total if it falls in the month,
      and nothing otherwise. */
  lemma MonthlyTotalAppend(expenses: seq<Expense>, e: Expense, month: int, year: int)
    ensures MonthlyTotal(expenses + [e], month, year)
         == MonthlyTotal(expenses, month, year) + (if InMonth(e, month, year) then e.amount else 0)
  {
    var p := (x: Expense) => InMonth(x, month, year);
    FilterAppend(expenses, [e], p);
    SumAppend(Filter(expenses, p), Filter([e], p), Amount);
  }

  /** Expenses from other months do not count. */
  lemma {:induction false} OtherMonthsIgnored(expenses: seq<Expense>, others: seq<Expense>, month: int, year: int)
    requires forall i :: 0 <= i < |others| ==> !InMonth(others[i], month, year)
    ensures MonthlyTotal(expenses + others, month, year) == MonthlyTotal(expenses, month, year)
  {
    if others != [] {
      var n := |others| - 1;
      assert expenses + others == (expenses + others[..n]) + [others[n]];
      OtherMonthsIgnored(expenses, others[..n], month, year);
      MonthlyTotalAppend(expenses + others[..n], others[n], month, year);
    } else {
      assert expenses + others == expenses;
    }
  }

  /** `sisaAnggaran`: the budget less this month's total. */
  function RemainingBudget(expenses: seq<Expense>, month: int, year: int): int
  {
    Budget - MonthlyTotal(expenses, month, year)
  }

  /** Spending more than the budget in a month leaves a negative remainder. */
  lemma RemainingCanBeNegative()
    ensures RemainingBudget([Expense(2025, 3, 1, "Pot", "Operasional", 25000000)], 3, 2025) == -5000000
  {
    var e := Expense(2025, 3, 1, "Pot", "Operasional", 25000000);
    assert Filter([e], (x: Expense) => InMonth(x, 3, 2025)) == [e] by {
      assert [e][..0] == [];
    }
    assert [e][..0] == [];
  }

  /** A recorded expense in the month lowers the remainder by its amount. */
  lemma RemainingAfterExpense(expenses: seq<Expense>, e: Expense, month: int, year: int)
    requires InMonth(e, month, year)
    ensures RemainingBudget(expenses + [e], month, year) == RemainingBudget(expenses, month, year) - e.amount
  {
    MonthlyTotalAppend(expenses, e, month, year);
  }

  /** `acc[c] || 0`. */
  function Get(totals: map<string, int>, c: string): int
  {
    if c in totals then totals[c] else 0
  }

  /** `categoryTotals`: for each category, the sum of its expenses' amounts. */
  function Totals(expenses: seq<Expense>): map<string, int>
  {
    if expenses == [] then map[]
    else
      var t := Totals(expenses[..|expenses| - 1]);
      var e := expenses[|expenses| - 1];
      t[e.category := Get(t, e.category) + e.amount]
  }

  /** `Object.keys(categoryTotals)`: each category in the order it was first met. */
  function Keys(expenses: seq<Expense>): seq<string>
  {
    if expenses == [] then []
    else
      var k := Keys(expenses[..|expenses| - 1]);
      var c := expenses[|expenses| - 1].category;
      if c in k then k else k + [c]
  }

  predicate HasCategory(expenses: seq<Expense>, c: string)
  {
    exists i :: 0 <= i < |expenses| && expenses[i].category == c
  }

  /** The keys are exactly the categories present, each once, and they are the
      categories that have a total. */
  lemma {:induction false} KeysAreCategories(expenses: seq<Expense>)
    ensures NoDuplicates(Keys(expenses))
    ensures forall c :: c in Keys(expenses) <==> c in Totals(expenses)
    ensures forall c :: c in Totals(expenses) <==> HasCategory(expenses, c)
  {
    if expenses != [] {
      var n := |expenses| - 1;
      var init := expenses[..n];
      KeysAreCategories(init);
      forall c ensures HasCategory(expenses, c) <==> HasCategory(init, c) || expenses[n].category == c {
        if HasCategory(expenses, c) && expenses[n].category != c {
          var i :| 0 <= i < |expenses| && expenses[i].category == c;
          assert init[i] == expenses[i];
        }
        if HasCategory(init, c) {
          var i :| 0 <= i < n && init[i].category == c;
          assert expenses[i] == init[i];
        }
      }
    }
  }

  lemma KeyHasTotal(expenses: seq<Expense>, c: string)
    ensures NoDuplicates(Keys(expenses))
    ensures c in Keys(expenses) <==> c in Totals(expenses)
  {
    KeysAreCategories(expenses);
  }

  function CategoryAmount(c: string): Expense -> int
  {
    (e: Expense) => if e.category == c then e.amount else 0
  }

  /** Each category's total is the sum of the amounts of its own expenses. */
  lemma {:induction false} TotalIsCategorySum(expenses: seq<Expense>, c: string)
    ensures Get(Totals(expenses), c) == Sum(expenses, CategoryAmount(c))
  {
    if expenses != [] {
      TotalIsCategorySum(expenses[..|expenses| - 1], c);
    }
  }

  /** The sum of `Get(totals, k)` over the keys `ks`. */
  function SumOver(ks: seq<string>, totals: map<string, int>): int
  {
    if ks == [] then 0 else SumOver(ks[..|ks| - 1], totals) + Get(totals, ks[|ks| - 1])
  }

  /** Changing the total of a key that is not listed leaves the sum over the list alone. */
  lemma {:induction false} SumOverUnlisted(ks: seq<string>, totals: map<string, int>, c: string, v: int)
    requires c !in ks
    ensures SumOver(ks, totals[c := v]) == SumOver(ks, totals)
  {
    if ks != [] {
      SumOverUnlisted(ks[..|ks| - 1], totals, c, v);
    }
  }

  /** Adding `d` to the total of a key listed once adds `d` to the sum over the list. */
  lemma {:induction false} SumOverBump(ks: seq<string>, totals: map<string, int>, c: string, d: int)
    requires NoDuplicates(ks) && c in ks
    ensures SumOver(ks, totals[c := Get(totals, c) + d]) == SumOver(ks, totals) + d
  {
    var n := |ks| - 1;
    var init := ks[..n];
    assert NoDuplicates(init);
    if ks[n] == c {
      assert c !in init;
      SumOverUnlisted(init, totals, c, Get(totals, c) + d);
    } else {
      assert c in init by {
        var i :| 0 <= i < |ks| && ks[i] == c;
        assert init[i] == ks[i];
      }
      SumOverBump(init, totals, c, d);
    }
  }

  /** Recording `d` more for category `c` adds `d` to the sum of the totals, whether
      `c` was already a key or becomes a new last key. */
  lemma SumOverAdd(keys: seq<string>, t: map<string, int>, c: string, d: int)
    requires NoDuplicates(keys)
    requires c in keys || c !in t
    ensures SumOver(if c in keys then keys else keys + [c], t[c := Get(t, c) + d]) == SumOver(keys, t) + d
  {
    if c in keys {
      SumOverBump(keys, t, c, d);
    } else {
      var keys' := keys + [c];
      assert keys'[..|keys|] == keys;
      SumOverUnlisted(keys, t, c, Get(t, c) + d);
    }
  }

  /** The category totals add up to the total of all expenses. */
  lemma {:induction false} TotalsAddUp(expenses: seq<Expense>)
    ensures SumOver(Keys(expenses), Totals(expenses)) == Sum(expenses, Amount)
  {
    if expenses != [] {
      var init := expenses[..|expenses| - 1];
      var e := expenses[|expenses| - 1];
      TotalsAddUp(init);
      KeyHasTotal(init, e.category);
      var keys, t := Keys(init), Totals(init);
      assert Keys(expenses) == if e.category in keys then keys else keys + [e.category];
      assert Totals(expenses) == t[e.category := Get(t, e.category) + e.amount];
      assert Sum(expenses, Amount) == Sum(init, Amount) + e.amount;
      SumOverAdd(keys, t, e.category, e.amount);
    }
  }

  /** The `categoryTotals` reduce: a dictionary filled in one expense at a time,
      together with its keys in insertion order. */
  method CategoryTotals(expenses: seq<Expense>) returns (totals: map<string, int>, keys: seq<string>)
    ensures totals == Totals(expenses) && keys == Keys(expenses)
  {
    totals, keys := map[], [];
    var i := 0;
    while i < |expenses|
      invariant 0 <= i <= |expenses|
      invariant totals == Totals(expenses[..i]) && keys == Keys(expenses[..i])
      invariant forall c :: c in keys <==> c in totals
    {
      var e := expenses[i];
      assert expenses[..i + 1][..i] == expenses[..i];
      if e.category !in totals {
        keys := keys + [e.category];
      }
      totals := totals[e.category := (if e.category in totals then totals[e.category] else 0) + e.amount];
      i := i + 1;
    }
    assert expenses[..i] == expenses;
  }

  /** `categoryTotals[a] > categoryTotals[b]`, where a key without a total is
      `undefined` and any comparison with it is false. */
  predicate Greater(totals: map<string, int>, a: string, b: string)
  {
    a in totals && b in totals && totals[a] > totals[b]
  }

  /** `keys.reduce((a, b) => greater(a, b) ? a : b, init)`. */
  function Largest(totals: map<string, int>, keys: seq<string>, init: string): string
  {
    if keys == [] then init
    else
      var a := Largest(totals, keys[..|keys| - 1], init);
      var b := keys[|keys| - 1];
      if Greater(totals, a, b) then a else b
  }

  /** `b` is the last of `keys` with the greatest total. */
  predicate LastMaximal(totals: map<string, int>, keys: seq<string>, b: string)
    requires forall k :: k in keys ==> k in totals
  {
    && b in totals
    && (exists i :: 0 <= i < |keys| && keys[i] == b && forall j :: i < j < |keys| ==> totals[keys[j]] < totals[b])
    && forall j :: 0 <= j < |keys| ==> totals[keys[j]] <= totals[b]
  }

  /** A key whose total is at least every earlier key's is the last maximal key. */
  lemma NewMaximal(totals: map<string, int>, keys: seq<string>)
    requires keys != []
    requires forall k :: k in keys ==> k in totals
    requires forall j :: 0 <= j < |keys| - 1 ==> totals[keys[j]] <= totals[keys[|keys| - 1]]
    ensures LastMaximal(totals, keys, keys[|keys| - 1])
  {
    var n := |keys| - 1;
    assert keys[n] in keys;
  }

  /** A last maximal key that beats the next key stays the last maximal key. */
  lemma KeepMaximal(totals: map<string, int>, keys: seq<string>, a: string)
    requires |keys| >= 2
    requires forall k :: k in keys ==> k in totals
    requires forall k :: k in keys[..|keys| - 1] ==> k in totals
    requires LastMaximal(totals, keys[..|keys| - 1], a)
    requires Greater(totals, a, keys[|keys| - 1])
    ensures LastMaximal(totals, keys, a)
  {
    var n := |keys| - 1;
    var prefix := keys[..n];
    var i :| 0 <= i < n && prefix[i] == a && forall j :: i < j < n ==> totals[prefix[j]] < totals[a];
    assert keys[i] == a;
    forall j | 0 <= j < |keys| ensures totals[keys[j]] <= totals[a] && (i < j ==> totals[keys[j]] < totals[a]) {
      if j < n {
        assert keys[j] == prefix[j];
      }
    }
  }

  /** The earlier keys are bounded by `a`, and `a` by the next key `b`, so `b`
      bounds every earlier key. */
  lemma MaximalBounds(totals: map<string, int>, keys: seq<string>, prefix: seq<string>, a: string, b: string)
    requires keys != [] && prefix == keys[..|keys| - 1]
    requires forall k :: k in keys ==> k in totals
    requires forall k :: k in prefix ==> k in totals
    requires a in totals && b == keys[|keys| - 1]
    requires forall j :: 0 <= j < |prefix| ==> totals[prefix[j]] <= totals[a]
    requires totals[a] <= totals[b]
    ensures forall j :: 0 <= j < |keys| - 1 ==> totals[keys[j]] <= totals[b]
  {
    forall j | 0 <= j < |keys| - 1 ensures totals[keys[j]] <= totals[b] {
      assert keys[j] == prefix[j];
    }
  }

  /** A starting key that beats every earlier key and the next one beats them all. */
  lemma InitStillBeats(totals: map<string, int>, keys: seq<string>, prefix: seq<string>, init: string)
    requires keys != [] && prefix == keys[..|keys| - 1]
    requires forall k :: k in keys ==> k in totals
    requires forall k :: k in prefix ==> k in totals
    requires init in totals
    requires forall j :: 0 <= j < |prefix| ==> totals[prefix[j]] < totals[init]
    requires Greater(totals, init, keys[|keys| - 1])
    ensures forall j :: 0 <= j < |keys| ==> totals[keys[j]] < totals[init]
  {
    forall j | 0 <= j < |keys| ensures totals[keys[j]] < totals[init] {
      if j < |prefix| {
        assert keys[j] == prefix[j];
      }
    }
  }

  /** While folding, the running answer is either the starting key, whose total
      beats every key seen so far, or the last seen key with the greatest total,
      which is no less than the starting key's. */
  lemma {:induction false} LargestInvariant(totals: map<string, int>, keys: seq<string>, init: string)
    requires keys != []
    requires forall k :: k in keys ==> k in totals
    ensures var r := Largest(totals, keys, init);
      || (r == init && init in totals && forall j :: 0 <= j < |keys| ==> totals[keys[j]] < totals[init])
      || (LastMaximal(totals, keys, r) && (init in totals ==> totals[init] <= totals[r]))
  {
    var n := |keys| - 1;
    var prefix := keys[..n];
    var b := keys[n];
    assert b in keys;
    assert forall k :: k in prefix ==> k in totals;
    var a := Largest(totals, prefix, init);
    assert Largest(totals, keys, init) == if Greater(totals, a, b) then a else b;
    if n == 0 {
      assert a == init;
      if !Greater(totals, init, b) {
        NewMaximal(totals, keys);
      }
    } else {
      LargestInvariant(totals, prefix, init);
      if a == init && init in totals && forall j :: 0 <= j < n ==> totals[prefix[j]] < totals[init] {
        if Greater(totals, a, b) {
          InitStillBeats(totals, keys, prefix, init);
        } else {
          MaximalBounds(totals, keys, prefix, a, b);
          NewMaximal(totals, keys);
        }
      } else {
        assert LastMaximal(totals, prefix, a);
        if Greater(totals, a, b) {
          KeepMaximal(totals, keys, a);
        } else {
          MaximalBounds(totals, keys, prefix, a, b);
          NewMaximal(totals, keys);
        }
      }
    }
  }

  /** `kategoriTerbesar`. */
  function LargestCategory(expenses: seq<Expense>): string
  {
    Largest(Totals(expenses), Keys(expenses), NoCategory)
  }

  /** With no expenses the largest category is 'Belum Ada'; otherwise it is the
      category with the greatest total, the later one in order of first appearance
      when several share it. This holds even for a category that is itself named
      'Belum Ada'. */
  lemma LargestCategoryIsLastMaximal(expenses: seq<Expense>)
    ensures expenses == [] ==> LargestCategory(expenses) == NoCategory
    ensures expenses != [] ==>
      (forall k :: k in Keys(expenses) ==> k in Totals(expenses)) &&
      LastMaximal(Totals(expenses), Keys(expenses), LargestCategory(expenses))
  {
    if expenses != [] {
      KeysAreCategories(expenses);
      var keys := Keys(expenses);
      var totals := Totals(expenses);
      var last := expenses[|expenses| - 1].category;
      assert HasCategory(expenses, last);
      assert keys != [];
      LargestInvariant(totals, keys, NoCategory);
      if NoCategory in totals {
        assert NoCategory in keys;
        var j :| 0 <= j < |keys| && keys[j] == NoCategory;
        assert !(totals[keys[j]] < totals[NoCategory]);
      }
    }
  }

  /** Two categories with equal totals: the one met later wins the tie. */
  lemma TieGoesToLater()
    ensures LargestCategory([Expense(2025, 3, 1, "Pupuk", "Operasional", 50000),
                             Expense(2025, 3, 2, "Gaji", "Gaji", 50000)]) == "Gaji"
  {
    TieTotals();
    var t := map["Operasional" := 50000, "Gaji" := 50000];
    assert ["Operasional", "Gaji"][..1] == ["Operasional"];
    assert ["Operasional"][..0] == [];
    assert Largest(t, ["Operasional"], NoCategory) == "Operasional" by {
      assert NoCategory !in t;
    }
  }

  /** The two expenses of the tie example give two categories of 50000 each. */
  lemma TieTotals()
    ensures var es := [Expense(2025, 3, 1, "Pupuk", "Operasional", 50000),
                       Expense(2025, 3, 2, "Gaji", "Gaji", 50000)];
      && Keys(es) == ["Operasional", "Gaji"]
      && Totals(es) == map["Operasional" := 50000, "Gaji" := 50000]
  {
    var a := Expense(2025, 3, 1, "Pupuk", "Operasional", 50000);
    var b := Expense(2025, 3, 2, "Gaji", "Gaji", 50000);
    var es := [a, b];
    assert es[..1] == [a];
    assert [a][..0] == [];
    assert "Gaji" != "Operasional" by {
      assert |"Gaji"| != |"Operasional"|;
    }
    assert Keys([a]) == ["Operasional"];
    assert Totals([a]) == map["Operasional" := 50000];
  }


  /** `filteredData`: the description includes the search text, ignoring case, and
      the category filter is empty or equals the expense's category. */
  predicate Shown(e: Expense, search: string, categoryFilter: string)
  {
    Contains(Lower(e.description), Lower(search)) && (categoryFilter == [] || e.category == categoryFilter)
  }

  function FilteredData(expenses: seq<Expense>, search: string, categoryFilter: string): (r: seq<Expense>)
    ensures forall e :: e in r <==> e in expenses && Shown(e, search, categoryFilter)
  {
    Filter(expenses, (e: Expense) => Shown(e, search, categoryFilter))
  }

  /** No search text and no category filter show every expense, in order. */
  lemma NoFilterShowsAll(expenses: seq<Expense>)
    ensures FilteredData(expenses, [], []) == expenses
  {
    forall e | e in expenses ensures Shown(e, [], []) {
      ContainsEmpty(Lower(e.description));
    }
  }

  /** An expense whose description includes the search text as typed, in its
      category or with no category filter, is shown. */
  lemma SearchFindsDescription(expenses: seq<Expense>, e: Expense, search: string, categoryFilter: string)
    requires e in expenses && Contains(e.description, search)
    requires categoryFilter == [] || e.category == categoryFilter
    ensures e in FilteredData(expenses, search, categoryFilter)
  {
    ContainsLower(e.description, search);
  }

  /** A category filter never shows an expense of another category. */
  lemma CategoryFilterExcludes(expenses: seq<Expense>, search: string, categoryFilter: string)
    requires categoryFilter != []
    ensures forall e :: e in FilteredData(expenses, search, categoryFilter) ==> e.category == categoryFilter
  {
  }
}
