/**
 * The dashboard's monthly KPI summary: both logs are grouped by month key and summed,
 * the two groupings are outer-joined on the month, missing sides are filled with 0,
 * and the profit `laba` is revenue minus expense; the current month is then picked out.
 */
module Monthly {
  import opened Dates
  import opened Transactions
  import opened Optional

  /** One month-keyed amount of a log: the `total` of a sale or the `jumlah` of a purchase. */
  datatype Amount = Amount(bulan: Month, value: int)

  function SaleAmounts(s: seq<Sale>): seq<Amount>
  {
    seq(|s|, i requires 0 <= i < |s| => Amount(MonthOf(s[i].tanggal), s[i].total))
  }

  function PurchaseAmounts(p: seq<Purchase>): seq<Amount>
  {
    seq(|p|, i requires 0 <= i < |p| => Amount(MonthOf(p[i].tanggal), p[i].jumlah))
  }

  // ----- reference definitions: filter a log by month, then sum -----

  function SalesIn(s: seq<Sale>, m: Month): (r: seq<Sale>)
    ensures forall x :: x in r ==> MonthOf(x.tanggal) == m
    ensures forall x: Sale :: MonthOf(x.tanggal) == m ==> multiset(r)[x] == multiset(s)[x]
  {
    if s == [] then []
    else if MonthOf(s[0].tanggal) == m then
      assert s == [s[0]] + s[1..];
      [s[0]] + SalesIn(s[1..], m)
    else
      assert s == [s[0]] + s[1..];
      SalesIn(s[1..], m)
  }

  function PurchasesIn(p: seq<Purchase>, m: Month): (r: seq<Purchase>)
    ensures forall y :: y in r ==> MonthOf(y.tanggal) == m
    ensures forall y: Purchase :: MonthOf(y.tanggal) == m ==> multiset(r)[y] == multiset(p)[y]
  {
    if p == [] then []
    else if MonthOf(p[0].tanggal) == m then
      assert p == [p[0]] + p[1..];
      [p[0]] + PurchasesIn(p[1..], m)
    else
      assert p == [p[0]] + p[1..];
      PurchasesIn(p[1..], m)
  }

  /** Revenue of month `m`: the sum of the totals of the sales dated in `m`. */
  function RevenueIn(s: seq<Sale>, m: Month): int
  {
    TotalSales(SalesIn(s, m))
  }

  /** Expense of month `m`: the sum of the amounts of the purchases dated in `m`. */
  function ExpenseIn(p: seq<Purchase>, m: Month): int
  {
    TotalPurchases(PurchasesIn(p, m))
  }

  predicate HasSaleIn(s: seq<Sale>, m: Month)
  {
    exists x :: x in s && MonthOf(x.tanggal) == m
  }

  predicate HasPurchaseIn(p: seq<Purchase>, m: Month)
  {
    exists y :: y in p && MonthOf(y.tanggal) == m
  }

  /** A month without sales has revenue 0. */
  lemma {:induction false} RevenueOfQuietMonth(s: seq<Sale>, m: Month)
    requires !HasSaleIn(s, m)
    ensures RevenueIn(s, m) == 0
  {
    if s != [] {
      assert s[0] in s;
      assert !HasSaleIn(s[1..], m) by {
        forall x | x in s[1..] ensures MonthOf(x.tanggal) != m {
          assert x in s;
        }
      }
      RevenueOfQuietMonth(s[1..], m);
    }
  }

  /** A month without purchases has expense 0. */
  lemma {:induction false} ExpenseOfQuietMonth(p: seq<Purchase>, m: Month)
    requires !HasPurchaseIn(p, m)
    ensures ExpenseIn(p, m) == 0
  {
    if p != [] {
      assert p[0] in p;
      assert !HasPurchaseIn(p[1..], m) by {
        forall y | y in p[1..] ensures MonthOf(y.tanggal) != m {
          assert y in p;
        }
      }
      ExpenseOfQuietMonth(p[1..], m);
    }
  }

  // ----- groupby(month).agg(sum) -----

  /** The sum of one month's amounts. */
  function MonthTotal(xs: seq<Amount>, m: Month): int
  {
    if xs == [] then 0
    else (if xs[0].bulan == m then xs[0].value else 0) + MonthTotal(xs[1..], m)
  }

  predicate Occurs(xs: seq<Amount>, m: Month)
  {
    exists i :: 0 <= i < |xs| && xs[i].bulan == m
  }

  lemma {:induction false} MonthTotalAbsent(xs: seq<Amount>, m: Month)
    requires !Occurs(xs, m)
    ensures MonthTotal(xs, m) == 0
  {
    if xs != [] {
      assert xs[0].bulan != m;
      MonthTotalAbsent(xs[1..], m);
    }
  }

  /** One row of a grouping: a month key and the sum of its amounts. */
  datatype Group = Group(bulan: Month, sum: int)

  /** Group keys strictly increase, so each key occurs once (the grouping sorts its keys). */
  predicate Increasing(g: seq<Group>)
  {
    forall i, j :: 0 <= i < j < |g| ==> MonthLt(g[i].bulan, g[j].bulan)
  }

  /** The sum a grouping holds for month `m`, or None when `m` is not one of its keys. */
  function Lookup(g: seq<Group>, m: Month): Option<int>
  {
    if g == [] then None
    else if g[0].bulan == m then Some(g[0].sum)
    else Lookup(g[1..], m)
  }

  lemma {:induction false} LookupBelow(g: seq<Group>, m: Month)
    requires Increasing(g)
    requires g != [] ==> MonthLt(m, g[0].bulan)
    ensures Lookup(g, m) == None
  {
    if g != [] {
      assert g[0].bulan != m;
      LookupBelow(g[1..], m);
    }
  }

  /** Adds one amount to a grouping: to the row of its month, or as a new row in key order. */
  function AddToGroups(g: seq<Group>, a: Amount): (r: seq<Group>)
    requires Increasing(g)
    ensures Increasing(r)
    ensures r != [] && (g != [] ==> r[0].bulan == g[0].bulan || r[0].bulan == a.bulan)
    ensures forall m :: Lookup(r, m) == if m == a.bulan then Some(Lookup(g, m).GetOr(0) + a.value) else Lookup(g, m)
  {
    if g == [] then [Group(a.bulan, a.value)]
    else if g[0].bulan == a.bulan then [Group(a.bulan, g[0].sum + a.value)] + g[1..]
    else if MonthLt(a.bulan, g[0].bulan) then
      LookupBelow(g, a.bulan);
      [Group(a.bulan, a.value)] + g
    else
      var rest := AddToGroups(g[1..], a);
      assert forall m :: Lookup(rest, m) == (if m == a.bulan then Some(Lookup(g[1..], m).GetOr(0) + a.value) else Lookup(g[1..], m));
      [g[0]] + rest
  }

  /** `groupby(month).agg(sum)`: one row per month that occurs, in key order, holding that month's sum. */
  function GroupByMonth(xs: seq<Amount>): (g: seq<Group>)
    ensures Increasing(g)
    ensures forall m :: Lookup(g, m) == if Occurs(xs, m) then Some(MonthTotal(xs, m)) else None
  {
    if xs == [] then []
    else
      var rest := GroupByMonth(xs[1..]);
      var r := AddToGroups(rest, xs[0]);
      assert forall m :: Occurs(xs, m) <==> xs[0].bulan == m || Occurs(xs[1..], m) by {
        forall m ensures Occurs(xs, m) <==> xs[0].bulan == m || Occurs(xs[1..], m) {
          if Occurs(xs, m) && xs[0].bulan != m {
            var i :| 0 <= i < |xs| && xs[i].bulan == m;
            assert xs[1..][i - 1].bulan == m;
          }
          if Occurs(xs[1..], m) {
            var i :| 0 <= i < |xs[1..]| && xs[1..][i].bulan == m;
            assert xs[i + 1].bulan == m;
          }
        }
      }
      forall m | !Occurs(xs[1..], m) {
        MonthTotalAbsent(xs[1..], m);
      }
      r
  }

  // ----- merge(on='bulan', how='outer').fillna(0).assign(laba=...) -----

  /** A row of the outer join: None stands for the missing value (NaN) of an absent side. */
  datatype Joined = Joined(bulan: Month, penjualan: Option<int>, pembelian: Option<int>)

  predicate HasRow(r: seq<Joined>, m: Month)
  {
    exists i :: 0 <= i < |r| && r[i].bulan == m
  }

  predicate JoinedIncreasing(r: seq<Joined>)
  {
    forall i, j :: 0 <= i < j < |r| ==> MonthLt(r[i].bulan, r[j].bulan)
  }

  /**
   * Outer join of two groupings on the month key: every key of either side once, in key order,
   * each row holding what each side has for that key.
   */
  function OuterMerge(a: seq<Group>, b: seq<Group>): (r: seq<Joined>)
    requires Increasing(a) && Increasing(b)
    ensures MergeOf(r, a, b)
    ensures r != [] ==> (a != [] && r[0].bulan == a[0].bulan) || (b != [] && r[0].bulan == b[0].bulan)
    decreases |a| + |b|
  {
    if a == [] && b == [] then []
    else if b == [] || (a != [] && MonthLt(a[0].bulan, b[0].bulan)) then
      var h := Joined(a[0].bulan, Some(a[0].sum), None);
      var rest := OuterMerge(a[1..], b);
      LookupBelow(b, h.bulan);
      LookupBelow(a[1..], h.bulan);
      MergeStep(h, rest, a, b, a[1..], b);
      [h] + rest
    else if a == [] || MonthLt(b[0].bulan, a[0].bulan) then
      var h := Joined(b[0].bulan, None, Some(b[0].sum));
      var rest := OuterMerge(a, b[1..]);
      LookupBelow(a, h.bulan);
      LookupBelow(b[1..], h.bulan);
      MergeStep(h, rest, a, b, a, b[1..]);
      [h] + rest
    else
      var h := Joined(a[0].bulan, Some(a[0].sum), Some(b[0].sum));
      var rest := OuterMerge(a[1..], b[1..]);
      LookupBelow(a[1..], h.bulan);
      LookupBelow(b[1..], h.bulan);
      MergeStep(h, rest, a, b, a[1..], b[1..]);
      [h] + rest
  }

  /**
   * What an outer join of `a` and `b` is: rows in increasing month order, one for exactly the
   * months either side has, each holding what each side has for its month.
   */
  ghost predicate MergeOf(r: seq<Joined>, a: seq<Group>, b: seq<Group>)
  {
    && JoinedIncreasing(r)
    && (forall m :: HasRow(r, m) <==> Lookup(a, m).Some? || Lookup(b, m).Some?)
    && (forall i :: 0 <= i < |r| ==> r[i].penjualan == Lookup(a, r[i].bulan) && r[i].pembelian == Lookup(b, r[i].bulan))
  }

  /** One step of the join: a head row for the least month, before the join of what is left. */
  lemma MergeStep(h: Joined, rest: seq<Joined>, a: seq<Group>, b: seq<Group>, a': seq<Group>, b': seq<Group>)
    requires MergeOf(rest, a', b')
    requires rest != [] ==> MonthLt(h.bulan, rest[0].bulan)
    requires Lookup(a, h.bulan) == h.penjualan && Lookup(b, h.bulan) == h.pembelian
    requires h.penjualan.Some? || h.pembelian.Some?
    requires forall m :: m != h.bulan ==> Lookup(a, m) == Lookup(a', m) && Lookup(b, m) == Lookup(b', m)
    ensures MergeOf([h] + rest, a, b)
  {
    var r := [h] + rest;
    assert r[0].bulan == h.bulan;
    forall m | HasRow(r, m) && h.bulan != m ensures HasRow(rest, m) {
      var i :| 0 <= i < |r| && r[i].bulan == m;
      assert rest[i - 1].bulan == m;
    }
    forall m | HasRow(rest, m) ensures HasRow(r, m) {
      var i :| 0 <= i < |rest| && rest[i].bulan == m;
      assert r[i + 1].bulan == m;
    }
    forall i | 0 < i < |r| ensures r[i].bulan != h.bulan {
      assert rest[i - 1] == r[i];
      if i > 1 {
        assert MonthLt(rest[0].bulan, rest[i - 1].bulan);
      }
    }
  }

  /** A row of the monthly summary after `fillna(0)` and `assign(laba=...)`. */
  datatype MonthRow = MonthRow(bulan: Month, totalPenjualan: int, jumlahPembelian: int, laba: int)

  function FillNa(j: Joined): MonthRow
  {
    var tp := j.penjualan.GetOr(0);
    var jp := j.pembelian.GetOr(0);
    MonthRow(j.bulan, tp, jp, tp - jp)
  }

  /** The monthly KPI summary of the two logs. */
  function MonthlySummary(s: seq<Sale>, p: seq<Purchase>): seq<MonthRow>
  {
    var joined := OuterMerge(GroupByMonth(SaleAmounts(s)), GroupByMonth(PurchaseAmounts(p)));
    seq(|joined|, i requires 0 <= i < |joined| => FillNa(joined[i]))
  }

  // ----- what the summary means -----

  lemma {:induction false} SaleAmountsMeaning(s: seq<Sale>, m: Month)
    ensures MonthTotal(SaleAmounts(s), m) == RevenueIn(s, m)
    ensures Occurs(SaleAmounts(s), m) <==> HasSaleIn(s, m)
  {
    SaleAmountsTotal(s, m);
    var xs := SaleAmounts(s);
    if HasSaleIn(s, m) {
      var x :| x in s && MonthOf(x.tanggal) == m;
      var i :| 0 <= i < |s| && s[i] == x;
      assert xs[i].bulan == m;
    }
    if Occurs(xs, m) {
      var i :| 0 <= i < |xs| && xs[i].bulan == m;
      assert s[i] in s;
    }
  }

  lemma {:induction false} SaleAmountsTotal(s: seq<Sale>, m: Month)
    ensures MonthTotal(SaleAmounts(s), m) == RevenueIn(s, m)
  {
    if s != [] {
      var xs := SaleAmounts(s);
      assert xs[1..] == SaleAmounts(s[1..]);
      SaleAmountsTotal(s[1..], m);
      if MonthOf(s[0].tanggal) == m {
        assert SalesIn(s, m) == [s[0]] + SalesIn(s[1..], m);
      } else {
        assert SalesIn(s, m) == SalesIn(s[1..], m);
      }
    }
  }

  lemma {:induction false} PurchaseAmountsMeaning(p: seq<Purchase>, m: Month)
    ensures MonthTotal(PurchaseAmounts(p), m) == ExpenseIn(p, m)
    ensures Occurs(PurchaseAmounts(p), m) <==> HasPurchaseIn(p, m)
  {
    PurchaseAmountsTotal(p, m);
    var xs := PurchaseAmounts(p);
    if HasPurchaseIn(p, m) {
      var y :| y in p && MonthOf(y.tanggal) == m;
      var i :| 0 <= i < |p| && p[i] == y;
      assert xs[i].bulan == m;
    }
    if Occurs(xs, m) {
      var i :| 0 <= i < |xs| && xs[i].bulan == m;
      assert p[i] in p;
    }
  }

  lemma {:induction false} PurchaseAmountsTotal(p: seq<Purchase>, m: Month)
    ensures MonthTotal(PurchaseAmounts(p), m) == ExpenseIn(p, m)
  {
    if p != [] {
      var xs := PurchaseAmounts(p);
      assert xs[1..] == PurchaseAmounts(p[1..]);
      PurchaseAmountsTotal(p[1..], m);
      if MonthOf(p[0].tanggal) == m {
        assert PurchasesIn(p, m) == [p[0]] + PurchasesIn(p[1..], m);
      } else {
        assert PurchasesIn(p, m) == PurchasesIn(p[1..], m);
      }
    }
  }

  /** Months are listed in increasing order, hence each month at most once. */
  predicate RowsIncreasing(rows: seq<MonthRow>)
  {
    forall i, j :: 0 <= i < j < |rows| ==> MonthLt(rows[i].bulan, rows[j].bulan)
  }

  /** Month `m` has a row of the summary exactly when a sale or a purchase is dated in it. */
  lemma SummaryMonth(s: seq<Sale>, p: seq<Purchase>, m: Month)
    ensures var rows := MonthlySummary(s, p);
      (exists i :: 0 <= i < |rows| && rows[i].bulan == m) <==> HasSaleIn(s, m) || HasPurchaseIn(p, m)
  {
    var joined := OuterMerge(GroupByMonth(SaleAmounts(s)), GroupByMonth(PurchaseAmounts(p)));
    var rows := MonthlySummary(s, p);
    SaleAmountsMeaning(s, m);
    PurchaseAmountsMeaning(p, m);
    if exists i :: 0 <= i < |rows| && rows[i].bulan == m {
      var i :| 0 <= i < |rows| && rows[i].bulan == m;
      assert joined[i].bulan == m;
    }
    if HasRow(joined, m) {
      var i :| 0 <= i < |joined| && joined[i].bulan == m;
      assert rows[i].bulan == m;
    }
  }

  /** Row `i` of the summary holds its month's revenue and expense, 0 for a side without transactions. */
  lemma SummaryRow(s: seq<Sale>, p: seq<Purchase>, i: nat)
    requires i < |MonthlySummary(s, p)|
    ensures var row := MonthlySummary(s, p)[i];
      && row.totalPenjualan == RevenueIn(s, row.bulan)
      && row.jumlahPembelian == ExpenseIn(p, row.bulan)
      && row.laba == row.totalPenjualan - row.jumlahPembelian
  {
    var pn, pb := SaleAmounts(s), PurchaseAmounts(p);
    var m := MonthlySummary(s, p)[i].bulan;
    SaleAmountsMeaning(s, m);
    PurchaseAmountsMeaning(p, m);
    if !Occurs(pn, m) {
      MonthTotalAbsent(pn, m);
    }
    if !Occurs(pb, m) {
      MonthTotalAbsent(pb, m);
    }
  }

  /**
   * The monthly summary lists, in increasing order and once each, exactly the months in which
   * a sale or a purchase is dated; each row holds that month's revenue and expense (0 for a side
   * without transactions that month) and its profit, revenue minus expense.
   */
  lemma MonthlySummarySpec(s: seq<Sale>, p: seq<Purchase>)
    ensures var rows := MonthlySummary(s, p);
      && RowsIncreasing(rows)
      && (forall m :: (exists i :: 0 <= i < |rows| && rows[i].bulan == m) <==> HasSaleIn(s, m) || HasPurchaseIn(p, m))
      && (forall i :: 0 <= i < |rows| ==>
            && rows[i].totalPenjualan == RevenueIn(s, rows[i].bulan)
            && rows[i].jumlahPembelian == ExpenseIn(p, rows[i].bulan)
            && rows[i].laba == rows[i].totalPenjualan - rows[i].jumlahPembelian)
  {
    var rows := MonthlySummary(s, p);
    forall m ensures (exists i :: 0 <= i < |rows| && rows[i].bulan == m) <==> HasSaleIn(s, m) || HasPurchaseIn(p, m) {
      SummaryMonth(s, p, m);
    }
    forall i | 0 <= i < |rows|
      ensures rows[i].totalPenjualan == RevenueIn(s, rows[i].bulan)
      ensures rows[i].jumlahPembelian == ExpenseIn(p, rows[i].bulan)
    {
      SummaryRow(s, p, i);
    }
  }

  /** A month that appears only in the sales log gets expense 0, and one only in the purchases log gets revenue 0. */
  lemma MissingSideIsZero(s: seq<Sale>, p: seq<Purchase>, i: nat)
    requires i < |MonthlySummary(s, p)|
    ensures var row := MonthlySummary(s, p)[i];
      && (!HasPurchaseIn(p, row.bulan) ==> row.jumlahPembelian == 0 && row.laba == row.totalPenjualan)
      && (!HasSaleIn(s, row.bulan) ==> row.totalPenjualan == 0 && row.laba == -row.jumlahPembelian)
  {
    var row := MonthlySummary(s, p)[i];
    MonthlySummarySpec(s, p);
    if !HasPurchaseIn(p, row.bulan) {
      ExpenseOfQuietMonth(p, row.bulan);
    }
    if !HasSaleIn(s, row.bulan) {
      RevenueOfQuietMonth(s, row.bulan);
    }
  }

  // ----- the current month's KPI -----

  /** The sum of the revenue column over the summary rows of month `m`. */
  function PenjualanOf(rows: seq<MonthRow>, m: Month): int
  {
    if rows == [] then 0
    else (if rows[0].bulan == m then rows[0].totalPenjualan else 0) + PenjualanOf(rows[1..], m)
  }

  /** The sum of the expense column over the summary rows of month `m`. */
  function PembelianOf(rows: seq<MonthRow>, m: Month): int
  {
    if rows == [] then 0
    else (if rows[0].bulan == m then rows[0].jumlahPembelian else 0) + PembelianOf(rows[1..], m)
  }

  /** The three figures the dashboard shows for the current month. */
  datatype Kpi = Kpi(pendapatan: int, beban: int, labaBersih: int)

  /** The KPI of month `bulanIni` read off a monthly summary; the clock is not read, the month is given. */
  function CurrentMonthKpi(rows: seq<MonthRow>, bulanIni: Month): Kpi
  {
    var pend := PenjualanOf(rows, bulanIni);
    var beb := PembelianOf(rows, bulanIni);
    Kpi(pend, beb, pend - beb)
  }

  /** On rows in strictly increasing month order, the filtered sums are the fields of the one matching row, or 0 without one. */
  lemma {:induction false} SelectRow(rows: seq<MonthRow>, m: Month)
    requires RowsIncreasing(rows)
    ensures (forall i :: 0 <= i < |rows| ==> rows[i].bulan != m) ==> PenjualanOf(rows, m) == 0 && PembelianOf(rows, m) == 0
    ensures forall i :: 0 <= i < |rows| && rows[i].bulan == m ==>
      PenjualanOf(rows, m) == rows[i].totalPenjualan && PembelianOf(rows, m) == rows[i].jumlahPembelian
  {
    if rows != [] {
      SelectRow(rows[1..], m);
      if rows[0].bulan == m {
        assert forall i :: 0 <= i < |rows[1..]| ==> rows[1..][i].bulan != m by {
          forall i | 0 <= i < |rows[1..]| ensures rows[1..][i].bulan != m {
            assert MonthLt(rows[0].bulan, rows[i + 1].bulan);
          }
        }
      }
      forall i | 0 <= i < |rows| && rows[i].bulan == m && i > 0
        ensures PenjualanOf(rows, m) == rows[i].totalPenjualan && PembelianOf(rows, m) == rows[i].jumlahPembelian
      {
        assert rows[1..][i - 1] == rows[i];
      }
    }
  }

  /**
   * The dashboard's revenue and expense are the current month's sums (0 when nothing is dated
   * in that month), and the net figure is revenue minus expense.
   */
  lemma CurrentMonthKpiSpec(s: seq<Sale>, p: seq<Purchase>, bulanIni: Month)
    ensures var k := CurrentMonthKpi(MonthlySummary(s, p), bulanIni);
      && k.pendapatan == RevenueIn(s, bulanIni)
      && k.beban == ExpenseIn(p, bulanIni)
      && k.labaBersih == k.pendapatan - k.beban
  {
    var rows := MonthlySummary(s, p);
    MonthlySummarySpec(s, p);
    SelectRow(rows, bulanIni);
    if !exists i :: 0 <= i < |rows| && rows[i].bulan == bulanIni {
      RevenueOfQuietMonth(s, bulanIni);
      ExpenseOfQuietMonth(p, bulanIni);
    }
  }

  /** A month in which nothing is dated shows zero revenue, zero expense and zero profit. */
  lemma QuietMonthKpi(s: seq<Sale>, p: seq<Purchase>, bulanIni: Month)
    requires !HasSaleIn(s, bulanIni) && !HasPurchaseIn(p, bulanIni)
    ensures CurrentMonthKpi(MonthlySummary(s, p), bulanIni) == Kpi(0, 0, 0)
  {
    CurrentMonthKpiSpec(s, p, bulanIni);
    RevenueOfQuietMonth(s, bulanIni);
    ExpenseOfQuietMonth(p, bulanIni);
  }

  // ----- the months add up to the lifetime totals -----

  function AmountSum(xs: seq<Amount>): int
  {
    if xs == [] then 0 else xs[0].value + AmountSum(xs[1..])
  }

  function GroupSum(g: seq<Group>): int
  {
    if g == [] then 0 else g[0].sum + GroupSum(g[1..])
  }

  function JoinedPenjualan(r: seq<Joined>): int
  {
    if r == [] then 0 else r[0].penjualan.GetOr(0) + JoinedPenjualan(r[1..])
  }

  function JoinedPembelian(r: seq<Joined>): int
  {
    if r == [] then 0 else r[0].pembelian.GetOr(0) + JoinedPembelian(r[1..])
  }

  /** Column sums of the summary. */
  function SumPenjualan(rows: seq<MonthRow>): int
  {
    if rows == [] then 0 else rows[0].totalPenjualan + SumPenjualan(rows[1..])
  }

  function SumPembelian(rows: seq<MonthRow>): int
  {
    if rows == [] then 0 else rows[0].jumlahPembelian + SumPembelian(rows[1..])
  }

  lemma {:induction false} AddToGroupsSum(g: seq<Group>, a: Amount)
    requires Increasing(g)
    ensures GroupSum(AddToGroups(g, a)) == GroupSum(g) + a.value
  {
    if g != [] && g[0].bulan != a.bulan && !MonthLt(a.bulan, g[0].bulan) {
      AddToGroupsSum(g[1..], a);
    } else if g != [] && g[0].bulan == a.bulan {
      assert AddToGroups(g, a)[1..] == g[1..];
    } else if g != [] {
      assert AddToGroups(g, a)[1..] == g;
    }
  }

  lemma {:induction false} GroupByMonthSum(xs: seq<Amount>)
    ensures GroupSum(GroupByMonth(xs)) == AmountSum(xs)
  {
    if xs != [] {
      GroupByMonthSum(xs[1..]);
      AddToGroupsSum(GroupByMonth(xs[1..]), xs[0]);
    }
  }

  lemma {:induction false} OuterMergeSums(a: seq<Group>, b: seq<Group>)
    requires Increasing(a) && Increasing(b)
    ensures JoinedPenjualan(OuterMerge(a, b)) == GroupSum(a)
    ensures JoinedPembelian(OuterMerge(a, b)) == GroupSum(b)
    decreases |a| + |b|
  {
    if a == [] && b == [] {
    } else if b == [] || (a != [] && MonthLt(a[0].bulan, b[0].bulan)) {
      OuterMergeSums(a[1..], b);
      assert OuterMerge(a, b)[1..] == OuterMerge(a[1..], b);
    } else if a == [] || MonthLt(b[0].bulan, a[0].bulan) {
      OuterMergeSums(a, b[1..]);
      assert OuterMerge(a, b)[1..] == OuterMerge(a, b[1..]);
    } else {
      OuterMergeSums(a[1..], b[1..]);
      assert OuterMerge(a, b)[1..] == OuterMerge(a[1..], b[1..]);
    }
  }

  lemma {:induction false} FillNaSums(joined: seq<Joined>)
    ensures var rows := seq(|joined|, i requires 0 <= i < |joined| => FillNa(joined[i]));
      SumPenjualan(rows) == JoinedPenjualan(joined) && SumPembelian(rows) == JoinedPembelian(joined)
  {
    if joined != [] {
      var rows := seq(|joined|, i requires 0 <= i < |joined| => FillNa(joined[i]));
      var tail := seq(|joined[1..]|, i requires 0 <= i < |joined[1..]| => FillNa(joined[1..][i]));
      assert rows[1..] == tail;
      FillNaSums(joined[1..]);
    }
  }

  lemma {:induction false} SaleAmountsSum(s: seq<Sale>)
    ensures AmountSum(SaleAmounts(s)) == TotalSales(s)
  {
    if s != [] {
      assert SaleAmounts(s)[1..] == SaleAmounts(s[1..]);
      SaleAmountsSum(s[1..]);
    }
  }

  lemma {:induction false} PurchaseAmountsSum(p: seq<Purchase>)
    ensures AmountSum(PurchaseAmounts(p)) == TotalPurchases(p)
  {
    if p != [] {
      assert PurchaseAmounts(p)[1..] == PurchaseAmounts(p[1..]);
      PurchaseAmountsSum(p[1..]);
    }
  }

  /** The monthly revenues add up to lifetime revenue, and the monthly expenses to lifetime expense. */
  lemma SummaryAddsUp(s: seq<Sale>, p: seq<Purchase>)
    ensures SumPenjualan(MonthlySummary(s, p)) == TotalSales(s)
    ensures SumPembelian(MonthlySummary(s, p)) == TotalPurchases(p)
  {
    var a, b := GroupByMonth(SaleAmounts(s)), GroupByMonth(PurchaseAmounts(p));
    FillNaSums(OuterMerge(a, b));
    OuterMergeSums(a, b);
    GroupByMonthSum(SaleAmounts(s));
    GroupByMonthSum(PurchaseAmounts(p));
    SaleAmountsSum(s);
    PurchaseAmountsSum(p);
  }
}
