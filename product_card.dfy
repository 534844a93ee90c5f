/** The stock indicators of the product card: current stock, this and last
    month's sales, stock coverage in days, inventory turnover and stock
    health, computed from the product's history. */
module ProductCard {
  import opened Wrappers
  import opened Records

  const EmRisco := "Em Risco"
  const Excesso := "Excesso"
  const Saudavel := "Saudável"
  const NotAvailable := "N/A"

  /** Colour of the health label: red for risk, amber for excess, green
      for everything else, including "N/A". */
  function StockHealthColor(health: string): (color: string)
    ensures color == "error.main" <==> health == EmRisco
    ensures color == "warning.main" <==> health == Excesso
    ensures color == "success.main" <==> health != EmRisco && health != Excesso
  {
    if health == EmRisco then "error.main"
    else if health == Excesso then "warning.main"
    else "success.main"
  }

  /** The values the card displays. `None` stands for the string 'N/A';
      the turnover is the exact ratio that the card prints with two decimals. */
  datatype Kpis = Kpis(
    currentStock: int,
    currentMonthSales: int,
    lastMonthSales: int,
    stockCoverage: Option<int>,
    inventoryTurnover: Option<real>,
    stockHealth: string)

  const NoHistoryKpis := Kpis(0, 0, 0, None, None, NotAvailable)

  /** `reduce((sum, r) => sum + (r.field || 0), 0)`: a left fold. */
  function Sum(s: seq<Record>, field: Record -> Option<int>): int
  {
    if s == [] then 0 else Sum(s[..|s| - 1], field) + OrZero(field(s[|s| - 1]))
  }

  function Sold(r: Record): Option<int> { r.soldQuantity }
  function Closing(r: Record): Option<int> { r.closingStock }

  /** `Math.round`: halves round towards positive infinity. */
  function Round(x: real): (n: int)
    ensures n as real - 0.5 <= x < n as real + 0.5
  {
    (x + 0.5).Floor
  }

  /** `sortedHistory.slice(0, 3)`: the (at most) three most recent records. */
  function RecentWindow(sorted: seq<Record>): (w: seq<Record>)
    ensures |w| == if |sorted| < 3 then |sorted| else 3
    ensures w == sorted[..|w|]
  {
    if |sorted| < 3 then sorted else sorted[..3]
  }

  /** Health from coverage: below 30 days is at risk, above 90 is excess,
      the bounds themselves are healthy, and no coverage means no health. */
  function HealthOf(coverage: Option<int>): (h: string)
    ensures coverage.None? <==> h == NotAvailable
    ensures h == EmRisco <==> coverage.Some? && coverage.value < 30
    ensures h == Excesso <==> coverage.Some? && coverage.value > 90
    ensures h == Saudavel <==> coverage.Some? && 30 <= coverage.value <= 90
  {
    match coverage
    case None => NotAvailable
    case Some(c) => if c < 30 then EmRisco else if c > 90 then Excesso else Saudavel
  }

  /** The window average of a field, `total / recentHistory.length`. */
  function Average(w: seq<Record>, field: Record -> Option<int>): real
    requires w != []
  {
    Sum(w, field) as real / |w| as real
  }

  /** Days of stock left at the window's average daily sales (30 days a
      month), rounded; absent when nothing was sold in the window. */
  function StockCoverage(currentStock: int, w: seq<Record>): (c: Option<int>)
    requires w != []
    ensures c.Some? <==> Sum(w, Sold) > 0
    ensures c.Some? ==> c.value as real - 0.5 <= currentStock as real / (Average(w, Sold) / 30.0) < c.value as real + 0.5
  {
    CoverageDefinedIffRecentSales(w);
    var avgDailySales := Average(w, Sold) / 30.0;
    if avgDailySales > 0.0 then Some(Round(currentStock as real / avgDailySales)) else None
  }

  /** Average monthly sales over average closing stock; absent unless both
      window totals are positive, and then positive. */
  function InventoryTurnover(w: seq<Record>): (t: Option<real>)
    requires w != []
    ensures t.Some? <==> Sum(w, Closing) > 0 && Sum(w, Sold) > 0
    ensures t.Some? ==> t.value > 0.0
    ensures t.Some? ==> t.value == Sum(w, Sold) as real / Sum(w, Closing) as real
  {
    TurnoverDefinedIffPositiveTotals(w);
    var avgMonthlySales := Average(w, Sold);
    var avgStock := Average(w, Closing);
    if avgStock > 0.0 && avgMonthlySales > 0.0 then
      AveragesRatio(w);
      Some(avgMonthlySales / avgStock)
    else None
  }

  /** The fold of the card, written as a loop over the window. */
  method SumWindow(w: seq<Record>, field: Record -> Option<int>) returns (total: int)
    ensures total == Sum(w, field)
  {
    total := 0;
    var i := 0;
    while i < |w|
      invariant 0 <= i <= |w|
      invariant total == Sum(w[..i], field)
    {
      assert w[..i + 1][..i] == w[..i];
      total := total + OrZero(field(w[i]));
      i := i + 1;
    }
    assert w[..|w|] == w;
  }

  /** The indicator computation at the top of the card. */
  method ComputeKpis(history: Option<seq<Record>>) returns (k: Kpis)
    ensures (history.None? || history.value == []) ==> k == NoHistoryKpis
    ensures history.Some? && history.value != [] ==>
      var sorted := SortByDateDescending(history.value);
      var recent := RecentWindow(sorted);
      && k.currentStock == OrZero(sorted[0].closingStock)
      && k.currentMonthSales == OrZero(sorted[0].soldQuantity)
      && k.lastMonthSales == (if |sorted| > 1 then OrZero(sorted[1].soldQuantity) else 0)
      && k.stockCoverage == StockCoverage(k.currentStock, recent)
      && k.inventoryTurnover == InventoryTurnover(recent)
    ensures k.stockHealth == HealthOf(k.stockCoverage)
  {
    var currentStock := 0;
    var currentMonthSales := 0;
    var lastMonthSales := 0;
    var stockCoverage: Option<int> := None;
    var inventoryTurnover: Option<real> := None;
    var stockHealth := NotAvailable;

    if history.Some? && |history.value| > 0 {
      var sorted := SortByDateDescending(history.value);
      currentStock := OrZero(sorted[0].closingStock);
      currentMonthSales := OrZero(sorted[0].soldQuantity);
      lastMonthSales := if |sorted| > 1 then OrZero(sorted[1].soldQuantity) else 0;

      var recent := RecentWindow(sorted);
      if |recent| > 0 {
        var totalSalesRecent := SumWindow(recent, Sold);
        var avgMonthlySales := totalSalesRecent as real / |recent| as real;
        assert avgMonthlySales == Average(recent, Sold);
        var avgDailySales := avgMonthlySales / 30.0;
        if avgDailySales > 0.0 {
          stockCoverage := Some(Round(currentStock as real / avgDailySales));
        }
        var totalClosingStockRecent := SumWindow(recent, Closing);
        var avgStockRecent := totalClosingStockRecent as real / |recent| as real;
        assert avgStockRecent == Average(recent, Closing);
        if avgStockRecent > 0.0 && avgMonthlySales > 0.0 {
          inventoryTurnover := Some(avgMonthlySales / avgStockRecent);
        }
      }

      if stockCoverage.Some? {
        if stockCoverage.value < 30 { stockHealth := EmRisco; }
        else if stockCoverage.value > 90 { stockHealth := Excesso; }
        else { stockHealth := Saudavel; }
      }
    }
    k := Kpis(currentStock, currentMonthSales, lastMonthSales, stockCoverage, inventoryTurnover, stockHealth);
  }

  /** The record the card calls current is one with the latest date. */
  lemma LatestRecordIsMostRecent(h: seq<Record>, r: Record)
    requires r in h
    ensures SortByDateDescending(h) != []
    ensures r.date <= SortByDateDescending(h)[0].date
  {
    var sorted := SortByDateDescending(h);
    assert r in multiset(h);
    assert r in multiset(sorted);
    var i :| 0 <= i < |sorted| && sorted[i] == r;
    assert i == 0 || sorted[0].date >= sorted[i].date;
  }

  /** Coverage exists exactly when the window sold something in total:
      dividing by the window size and by 30 does not change the sign. */
  lemma CoverageDefinedIffRecentSales(w: seq<Record>)
    requires w != []
    ensures Average(w, Sold) / 30.0 > 0.0 <==> Sum(w, Sold) > 0
  {
    var n := |w| as real;
    var t := Sum(w, Sold) as real;
    if t > 0.0 {
      assert t / n > 0.0;
    } else {
      assert t / n <= 0.0;
    }
  }

  /** Turnover exists exactly when both window totals are positive. */
  lemma TurnoverDefinedIffPositiveTotals(w: seq<Record>)
    requires w != []
    ensures (Average(w, Closing) > 0.0 && Average(w, Sold) > 0.0)
            <==> (Sum(w, Closing) > 0 && Sum(w, Sold) > 0)
  {
    var n := |w| as real;
    var a := Sum(w, Closing) as real;
    var b := Sum(w, Sold) as real;
    if a > 0.0 { assert a / n > 0.0; } else { assert a / n <= 0.0; }
    if b > 0.0 { assert b / n > 0.0; } else { assert b / n <= 0.0; }
  }

  /** The ratio of the two window averages is the ratio of the totals:
      the window length cancels. */
  lemma AveragesRatio(w: seq<Record>)
    requires w != [] && Sum(w, Closing) > 0
    ensures Average(w, Sold) / Average(w, Closing) == Sum(w, Sold) as real / Sum(w, Closing) as real
  {
    DivCancel(Sum(w, Closing) as real, Sum(w, Sold) as real, |w| as real);
  }

  /** `(b / n) / (a / n) == b / a` for positive `n` and `a`. */
  lemma DivCancel(a: real, b: real, n: real)
    requires n > 0.0 && a > 0.0
    ensures (b / n) / (a / n) == b / a
  {
    var x := b / n;
    var y := a / n;
    assert x * n == b;
    assert y * n == a;
    var q := x / y;
    assert q * y == x;
    calc {
      q * a;
      q * (y * n);
      (q * y) * n;
      x * n;
      b;
    }
  }
}
