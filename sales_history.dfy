/** The day's sales history: totals, tax, the average sale and item-count labels. */
module SalesHistory {
  import opened Lists
  import opened Rounding
  import opened Text

  datatype Sale = Sale(
    id: string, timestamp: string, items: nat, total: real, iva: real,
    paymentMethod: string, location: string)

  function TotalOf(s: Sale): real
  {
    s.total
  }

  function IvaOf(s: Sale): real
  {
    s.iva
  }

  /** `totalToday`: the sum of the sales' totals. */
  function TotalToday(sales: seq<Sale>): real
  {
    Sum(sales, TotalOf)
  }

  /** `totalIVAToday`: the sum of the sales' IVA. */
  function TotalIvaToday(sales: seq<Sale>): real
  {
    Sum(sales, IvaOf)
  }

  /** "Promedio/Venta": the day's total over the number of sales, rounded; there must be a sale. */
  function AveragePerSale(sales: seq<Sale>): (avg: int)
    requires |sales| > 0
    ensures var n := |sales| as real;
            TotalToday(sales) - n / 2.0 < (avg as real) * n <= TotalToday(sales) + n / 2.0
  {
    var n := |sales| as real;
    var x := TotalToday(sales) / n;
    RoundScaled(x, n, TotalToday(sales));
    Round(x)
  }

  /** The label of a sale's item count: "producto" for one item, "productos" otherwise. */
  function ItemsLabel(s: Sale): (noun: string)
    ensures noun == "producto" <==> s.items == 1
    ensures noun == "productos" <==> s.items != 1
  {
    "producto" + PluralSuffix(s.items)
  }

  /** Another sale adds its total and its IVA to the day's figures. */
  lemma TotalsAfterAppend(sales: seq<Sale>, s: Sale)
    ensures TotalToday(sales + [s]) == TotalToday(sales) + s.total
    ensures TotalIvaToday(sales + [s]) == TotalIvaToday(sales) + s.iva
  {
    SumSnoc(sales, s, TotalOf);
    SumSnoc(sales, s, IvaOf);
  }

  /** If every sale's total lies in [lo, hi], the average lies in [lo, hi] up to rounding. */
  lemma AverageWithinRange(sales: seq<Sale>, lo: real, hi: real)
    requires |sales| > 0
    requires forall s :: s in sales ==> lo <= s.total <= hi
    ensures lo - 0.5 < AveragePerSale(sales) as real <= hi + 0.5
  {
    var n := |sales| as real;
    SumBounds(sales, TotalOf, lo, hi);
    var x := TotalToday(sales) / n;
    assert x * n == TotalToday(sales);
    assert lo <= x by {
      assert (x - lo) * n >= 0.0;
    }
    assert x <= hi by {
      assert (hi - x) * n >= 0.0;
    }
  }

  /** The day's sales as the history screen lists them. */
  const TodaySales: seq<Sale> := [
    Sale("001", "15:30", 3, 125000.0, 19950.0, "QR", "Parque Bolívar"),
    Sale("002", "14:15", 1, 35000.0, 5588.0, "Efectivo", "Pueblito Patojo"),
    Sale("003", "13:45", 2, 80000.0, 12773.0, "Tarjeta", "Parque Caldas"),
    Sale("004", "12:20", 4, 180000.0, 28739.0, "QR", "Banco de la Republica")
  ]

  /** The day's figures: 420000 sold, 67050 of IVA, 105000 per sale. */
  lemma TodayFigures()
    ensures TotalToday(TodaySales) == 420000.0
    ensures TotalIvaToday(TodaySales) == 67050.0
    ensures AveragePerSale(TodaySales) == 105000
  {
    var s := TodaySales;
    assert s == [] + [s[0]] + [s[1]] + [s[2]] + [s[3]];
    TotalsAfterAppend([], s[0]);
    assert [] + [s[0]] == [s[0]];
    TotalsAfterAppend([s[0]], s[1]);
    assert [s[0]] + [s[1]] == s[..2];
    TotalsAfterAppend(s[..2], s[2]);
    assert s[..2] + [s[2]] == s[..3];
    TotalsAfterAppend(s[..3], s[3]);
    assert s[..3] + [s[3]] == s;
    RoundInteger(105000);
  }
}
