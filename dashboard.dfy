/** The dashboard home page: today's sales and number of transactions, the total
    stock, and the products running low. Today's date is a parameter, and each
    query's result is given as `None` when it returns no data. */
module Dashboard {
  import opened Seqs

  /** A `transactions` row as the today query sees it; `createdAt` is a point in
      time on the same scale as the start of today. */
  datatype TransactionRow = TransactionRow(createdAt: int, totalPrice: real)

  /** A product row as `select('stock, name, id')` returns it. */
  datatype StockRow = StockRow(id: string, name: string, stock: int)

  /** Products at or below this stock are listed as running low. */
  const LowStockLimit: int := 5

  datatype DashboardStats = DashboardStats(todaySales: real, totalTrx: nat, totalStock: int, lowStockCount: nat)

  /** `.gte('created_at', today)`: the rows created at or after the start of today. */
  function TodayRows(rows: seq<TransactionRow>, today: int): (r: seq<TransactionRow>)
    ensures forall t :: t in r <==> t in rows && t.createdAt >= today
  {
    Filter(rows, (t: TransactionRow) => t.createdAt >= today)
  }

  function RowPrice(t: TransactionRow): real
  {
    t.totalPrice
  }

  function RowStock(p: StockRow): int
  {
    p.stock
  }

  /** `salesSum`: the total prices of today's rows added up, or 0 without data. */
  function TodaySales(todayTrx: Option<seq<TransactionRow>>): real
  {
    if todayTrx.Some? then SumReal(todayTrx.value, RowPrice) else 0.0
  }

  /** `allProducts?.filter(p => p.stock <= 5) || []`. */
  function LowStock(products: Option<seq<StockRow>>): (r: seq<StockRow>)
    ensures products.None? ==> r == []
    ensures products.Some? ==> |r| <= |products.value|
    ensures products.Some? ==> forall p :: p in r <==> p in products.value && p.stock <= LowStockLimit
  {
    if products.Some? then Filter(products.value, (p: StockRow) => p.stock <= LowStockLimit) else []
  }

  /** The four figures set by `fetchDashboardData`. */
  function StatsOf(todayTrx: Option<seq<TransactionRow>>, products: Option<seq<StockRow>>): DashboardStats
  {
    DashboardStats(
      TodaySales(todayTrx),
      if todayTrx.Some? then |todayTrx.value| else 0,
      if products.Some? then Sum(products.value, RowStock) else 0,
      |LowStock(products)|)
  }

  /** Queries that return no data show zeros and no low-stock products. */
  lemma NoDataShowsZeros()
    ensures StatsOf(None, None) == DashboardStats(0.0, 0, 0, 0)
  {
  }

  /** Counting and summing: the number of today's transactions is the number of
      rows, the low-stock count never exceeds the number of products, and with
      stocks that are not negative the total stock is not negative either. */
  lemma StatsBounds(todayTrx: seq<TransactionRow>, products: seq<StockRow>)
    ensures StatsOf(Some(todayTrx), Some(products)).totalTrx == |todayTrx|
    ensures StatsOf(Some(todayTrx), Some(products)).lowStockCount <= |products|
    ensures (forall i :: 0 <= i < |products| ==> products[i].stock >= 0) ==>
      StatsOf(Some(todayTrx), Some(products)).totalStock >= 0
  {
    if forall i :: 0 <= i < |products| ==> products[i].stock >= 0 {
      SumNonNegative(products, RowStock);
    }
  }

  /** Every product is either low on stock or counted among the rest: the low-stock
      list and the list of the others split the products between them. */
  lemma {:induction false} LowStockSplits(products: seq<StockRow>)
    ensures |LowStock(Some(products))| + |Filter(products, (p: StockRow) => p.stock > LowStockLimit)| == |products|
  {
    if products != [] {
      var n := |products| - 1;
      assert products == products[..n] + [products[n]];
      LowStockSplits(products[..n]);
    }
  }

  /** A sale made today raises today's sales by its total and the count by one; a
      sale from before today changes neither. */
  lemma SaleRecordedToday(rows: seq<TransactionRow>, sale: TransactionRow, today: int)
    ensures var before := StatsOf(Some(TodayRows(rows, today)), None);
      var after := StatsOf(Some(TodayRows(rows + [sale], today)), None);
      && (sale.createdAt >= today ==>
            after.todaySales == before.todaySales + sale.totalPrice && after.totalTrx == before.totalTrx + 1)
      && (sale.createdAt < today ==> after == before)
  {
    var p := (t: TransactionRow) => t.createdAt >= today;
    FilterAppend(rows, [sale], p);
    SumRealAppend(Filter(rows, p), Filter([sale], p), RowPrice);
    assert [sale][..0] == [];
  }
}
