/** The sales report page (`laporan`): total income, number of transactions and
    average order over every `transactions` row. */
module Laporan {
  import opened Seqs
  import opened Store

  /** The three figures at the top of the report. */
  datatype Stats = Stats(totalIncome: real, totalTransactions: nat, avgOrder: real)

  /** The page's figures before anything is fetched. */
  const InitialStats: Stats := Stats(0.0, 0, 0.0)

  function Price(s: Sale): real
  {
    s.totalPrice
  }

  /** The figures computed from the fetched rows: the sum of their total prices,
      their number, and the average, which is 0 when there are no rows. */
  function StatsOf(rows: seq<Sale>): (s: Stats)
    ensures s.totalTransactions == |rows|
    ensures s.totalIncome == SumReal(rows, Price)
    ensures s.totalTransactions > 0 ==> s.avgOrder * s.totalTransactions as real == s.totalIncome
    ensures s.totalTransactions == 0 ==> s.avgOrder == 0.0 && s.totalIncome == 0.0
  {
    var total := SumReal(rows, Price);
    var count := |rows|;
    Stats(total, count, if count > 0 then total / count as real else 0.0)
  }

  /** `fetchLaporan`: the figures are replaced only when the query returns rows
      (`data` is set); otherwise the previous figures stay. */
  function AfterFetch(previous: Stats, data: Option<seq<Sale>>): (s: Stats)
    ensures data.None? ==> s == previous
    ensures data.Some? ==> s == StatsOf(data.value)
  {
    if data.Some? then StatsOf(data.value) else previous
  }

  /** The average law the three figures keep: with no transactions there is no
      income and no average, otherwise the average times the count is the income. */
  predicate AverageLaw(s: Stats)
  {
    && (s.totalTransactions == 0 ==> s.avgOrder == 0.0 && s.totalIncome == 0.0)
    && (s.totalTransactions > 0 ==> s.avgOrder * s.totalTransactions as real == s.totalIncome)
  }

  /** The figures on screen after the page starts from `InitialStats` and then runs
      `fetchLaporan` once per entry of `fetches`, each entry being that query's `data`. */
  function Shown(fetches: seq<Option<seq<Sale>>>): Stats
  {
    if fetches == [] then InitialStats
    else AfterFetch(Shown(fetches[..|fetches| - 1]), fetches[|fetches| - 1])
  }

  /** The rows of the latest fetch that returned any, or `None` when none did. */
  function LastData(fetches: seq<Option<seq<Sale>>>): Option<seq<Sale>>
  {
    if fetches == [] then None
    else if fetches[|fetches| - 1].Some? then fetches[|fetches| - 1]
    else LastData(fetches[..|fetches| - 1])
  }

  /** Whatever the sequence of fetches, the figures shown are those of the latest
      rows returned (the initial zeros when no fetch returned rows), so they always
      keep the average law. */
  lemma {:induction false} ShownIsLastData(fetches: seq<Option<seq<Sale>>>)
    ensures Shown(fetches) == (if LastData(fetches).Some? then StatsOf(LastData(fetches).value) else InitialStats)
    ensures AverageLaw(Shown(fetches))
  {
    if fetches != [] {
      ShownIsLastData(fetches[..|fetches| - 1]);
    }
  }

  /** One more sale raises the income by its total and the count by one. */
  lemma StatsAfterSale(rows: seq<Sale>, sale: Sale)
    ensures StatsOf(rows + [sale]).totalIncome == StatsOf(rows).totalIncome + sale.totalPrice
    ensures StatsOf(rows + [sale]).totalTransactions == StatsOf(rows).totalTransactions + 1
  {
    assert (rows + [sale])[..|rows|] == rows;
  }

  lemma {:induction false} SumRealBounds(rows: seq<Sale>, low: real, high: real)
    requires forall i :: 0 <= i < |rows| ==> low <= rows[i].totalPrice <= high
    ensures |rows| as real * low <= SumReal(rows, Price) <= |rows| as real * high
  {
    if rows != [] {
      SumRealBounds(rows[..|rows| - 1], low, high);
    }
  }

  /** The average order lies between the smallest and the largest order. */
  lemma AverageBetween(rows: seq<Sale>, low: real, high: real)
    requires rows != []
    requires forall i :: 0 <= i < |rows| ==> low <= rows[i].totalPrice <= high
    ensures low <= StatsOf(rows).avgOrder <= high
  {
    SumRealBounds(rows, low, high);
    var s := StatsOf(rows);
    var n := |rows| as real;
    assert s.avgOrder * n == s.totalIncome;
    assert n * low <= s.avgOrder * n <= n * high;
  }
}
