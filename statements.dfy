/**
 * The three reports computed from the two logs on every read: the general ledger (Jurnal Umum),
 * the income statement (Laba Rugi) and the balance sheet (Neraca).
 */
module Statements {
  import opened Dates
  import opened Transactions
  import Monthly

  // ----- Jurnal Umum -----

  /** A ledger row with the four columns the report keeps: Tanggal, Keterangan, Debit (Rp), Kredit (Rp). */
  datatype JournalRow = JournalRow(tanggal: Date, keterangan: string, debit: int, kredit: int)

  function SaleEntry(x: Sale): JournalRow
  {
    JournalRow(x.tanggal, "Penjualan", 0, x.total)
  }

  function PurchaseEntry(y: Purchase): JournalRow
  {
    JournalRow(y.tanggal, "Pembelian", y.jumlah, 0)
  }

  function SaleEntries(s: seq<Sale>): seq<JournalRow>
  {
    seq(|s|, i requires 0 <= i < |s| => SaleEntry(s[i]))
  }

  function PurchaseEntries(p: seq<Purchase>): seq<JournalRow>
  {
    seq(|p|, i requires 0 <= i < |p| => PurchaseEntry(p[i]))
  }

  predicate SortedByDate(rows: seq<JournalRow>)
  {
    forall i, j :: 0 <= i < j < |rows| ==> DateLe(rows[i].tanggal, rows[j].tanggal)
  }

  function Credits(rows: seq<JournalRow>): int
  {
    if rows == [] then 0 else rows[0].kredit + Credits(rows[1..])
  }

  function Debits(rows: seq<JournalRow>): int
  {
    if rows == [] then 0 else rows[0].debit + Debits(rows[1..])
  }

  /** Places a row among rows already in date order. */
  function InsertByDate(x: JournalRow, rows: seq<JournalRow>): (r: seq<JournalRow>)
    requires SortedByDate(rows)
    ensures SortedByDate(r)
    ensures multiset(r) == multiset(rows) + multiset{x}
  {
    if rows == [] || DateLe(x.tanggal, rows[0].tanggal) then
      [x] + rows
    else
      var rest := InsertByDate(x, rows[1..]);
      assert rows == [rows[0]] + rows[1..];
      assert forall k :: 0 <= k < |rest| ==> DateLe(rows[0].tanggal, rest[k].tanggal) by {
        forall k | 0 <= k < |rest| ensures DateLe(rows[0].tanggal, rest[k].tanggal) {
          assert rest[k] in multiset(rest);
          if rest[k] != x {
            assert rest[k] in rows[1..];
          }
        }
      }
      [rows[0]] + rest
  }

  lemma {:induction false} InsertByDateSums(x: JournalRow, rows: seq<JournalRow>)
    requires SortedByDate(rows)
    ensures Credits(InsertByDate(x, rows)) == x.kredit + Credits(rows)
    ensures Debits(InsertByDate(x, rows)) == x.debit + Debits(rows)
  {
    if rows != [] && !DateLe(x.tanggal, rows[0].tanggal) {
      InsertByDateSums(x, rows[1..]);
      assert InsertByDate(x, rows)[1..] == InsertByDate(x, rows[1..]);
    }
  }

  /** `sort_values('tanggal')`: the rows in date order. */
  function SortByDate(rows: seq<JournalRow>): (r: seq<JournalRow>)
    ensures SortedByDate(r)
    ensures multiset(r) == multiset(rows)
  {
    if rows == [] then []
    else
      assert rows == [rows[0]] + rows[1..];
      InsertByDate(rows[0], SortByDate(rows[1..]))
  }

  /** Sorting moves rows, so the column sums do not change. */
  lemma {:induction false} SortByDateSums(rows: seq<JournalRow>)
    ensures Credits(SortByDate(rows)) == Credits(rows)
    ensures Debits(SortByDate(rows)) == Debits(rows)
  {
    if rows != [] {
      SortByDateSums(rows[1..]);
      InsertByDateSums(rows[0], SortByDate(rows[1..]));
    }
  }

  /** The general ledger: sales as credits and purchases as debits, in date order. */
  function JurnalUmum(s: seq<Sale>, p: seq<Purchase>): seq<JournalRow>
  {
    SortByDate(SaleEntries(s) + PurchaseEntries(p))
  }

  lemma {:induction false} CreditsAppend(a: seq<JournalRow>, b: seq<JournalRow>)
    ensures Credits(a + b) == Credits(a) + Credits(b)
    ensures Debits(a + b) == Debits(a) + Debits(b)
  {
    if a == [] {
      assert a + b == b;
    } else {
      assert (a + b)[1..] == a[1..] + b;
      CreditsAppend(a[1..], b);
    }
  }

  lemma {:induction false} SaleEntriesSums(s: seq<Sale>)
    ensures Credits(SaleEntries(s)) == TotalSales(s)
    ensures Debits(SaleEntries(s)) == 0
  {
    if s != [] {
      assert SaleEntries(s)[1..] == SaleEntries(s[1..]);
      SaleEntriesSums(s[1..]);
    }
  }

  lemma {:induction false} PurchaseEntriesSums(p: seq<Purchase>)
    ensures Credits(PurchaseEntries(p)) == 0
    ensures Debits(PurchaseEntries(p)) == TotalPurchases(p)
  {
    if p != [] {
      assert PurchaseEntries(p)[1..] == PurchaseEntries(p[1..]);
      PurchaseEntriesSums(p[1..]);
    }
  }

  /**
   * The ledger has one row per sale and one per purchase, no others: a sale shows as
   * 'Penjualan' with debit 0 and its total as credit, a purchase as 'Pembelian' with its amount
   * as debit and credit 0; the rows are in non-decreasing date order.
   */
  lemma JurnalUmumSpec(s: seq<Sale>, p: seq<Purchase>)
    ensures var j := JurnalUmum(s, p);
      && |j| == |s| + |p|
      && SortedByDate(j)
      && multiset(j) == multiset(SaleEntries(s)) + multiset(PurchaseEntries(p))
      && (forall x :: x in s ==> SaleEntry(x) in j)
      && (forall y :: y in p ==> PurchaseEntry(y) in j)
      && (forall row :: row in j ==> IsSaleRow(row, s) || IsPurchaseRow(row, p))
  {
    var j := JurnalUmum(s, p);
    var es, ep := SaleEntries(s), PurchaseEntries(p);
    assert multiset(j) == multiset(es + ep);
    assert |j| == |multiset(j)| == |es + ep|;
    forall x | x in s ensures SaleEntry(x) in j {
      var i :| 0 <= i < |s| && s[i] == x;
      assert es[i] in multiset(j);
    }
    forall y | y in p ensures PurchaseEntry(y) in j {
      var i :| 0 <= i < |p| && p[i] == y;
      assert ep[i] in multiset(j);
    }
    forall row | row in j ensures IsSaleRow(row, s) || IsPurchaseRow(row, p) {
      assert row in multiset(es + ep);
      EntryOrigin(row, s, p);
    }
  }

  /** A 'Penjualan' row with debit 0 whose date and credit are those of a sale of `s`. */
  predicate IsSaleRow(row: JournalRow, s: seq<Sale>)
  {
    row.keterangan == "Penjualan" && row.debit == 0 && exists x :: x in s && row.tanggal == x.tanggal && row.kredit == x.total
  }

  /** A 'Pembelian' row with credit 0 whose date and debit are those of a purchase of `p`. */
  predicate IsPurchaseRow(row: JournalRow, p: seq<Purchase>)
  {
    row.keterangan == "Pembelian" && row.kredit == 0 && exists y :: y in p && row.tanggal == y.tanggal && row.debit == y.jumlah
  }

  lemma EntryOrigin(row: JournalRow, s: seq<Sale>, p: seq<Purchase>)
    requires row in SaleEntries(s) + PurchaseEntries(p)
    ensures IsSaleRow(row, s) || IsPurchaseRow(row, p)
  {
    var es, ep := SaleEntries(s), PurchaseEntries(p);
    if row in es {
      var i :| 0 <= i < |es| && es[i] == row;
      assert s[i] in s;
    } else {
      assert row in ep;
      var i :| 0 <= i < |ep| && ep[i] == row;
      assert p[i] in p;
    }
  }

  /** The ledger's credits add up to lifetime revenue and its debits to lifetime expense. */
  lemma JurnalUmumTotals(s: seq<Sale>, p: seq<Purchase>)
    ensures Credits(JurnalUmum(s, p)) == TotalSales(s)
    ensures Debits(JurnalUmum(s, p)) == TotalPurchases(p)
  {
    SortByDateSums(SaleEntries(s) + PurchaseEntries(p));
    CreditsAppend(SaleEntries(s), PurchaseEntries(p));
    SaleEntriesSums(s);
    PurchaseEntriesSums(p);
  }

  // ----- Laba Rugi -----

  /** A row of the income statement: Kategori and Total (Rp). */
  datatype StatementLine = StatementLine(kategori: string, total: int)

  /** The income statement over all recorded transactions. */
  function LabaRugi(s: seq<Sale>, p: seq<Purchase>): seq<StatementLine>
  {
    var sales := TotalSales(s);
    var costs := TotalPurchases(p);
    [StatementLine("Pendapatan", sales), StatementLine("Beban", costs), StatementLine("Laba Bersih", sales - costs)]
  }

  /**
   * The income statement has the rows Pendapatan, Beban and Laba Bersih; Pendapatan is the ledger's
   * total credit and the sum of the monthly revenues, Beban the ledger's total debit and the sum of
   * the monthly expenses, and Laba Bersih is Pendapatan minus Beban.
   */
  lemma LabaRugiSpec(s: seq<Sale>, p: seq<Purchase>)
    ensures var lr := LabaRugi(s, p);
      && |lr| == 3
      && lr[0].kategori == "Pendapatan" && lr[1].kategori == "Beban" && lr[2].kategori == "Laba Bersih"
      && lr[0].total == Credits(JurnalUmum(s, p)) == Monthly.SumPenjualan(Monthly.MonthlySummary(s, p))
      && lr[1].total == Debits(JurnalUmum(s, p)) == Monthly.SumPembelian(Monthly.MonthlySummary(s, p))
      && lr[2].total == lr[0].total - lr[1].total
  {
    JurnalUmumTotals(s, p);
    Monthly.SummaryAddsUp(s, p);
  }

  /** With both logs empty every figure of the income statement is 0. */
  lemma LabaRugiEmpty()
    ensures LabaRugi([], []) == [StatementLine("Pendapatan", 0), StatementLine("Beban", 0), StatementLine("Laba Bersih", 0)]
  {
  }

  /** Recording one more sale raises Pendapatan and Laba Bersih by its total and leaves Beban alone. */
  lemma LabaRugiAfterSale(s: seq<Sale>, p: seq<Purchase>, x: Sale)
    ensures var before, after := LabaRugi(s, p), LabaRugi(s + [x], p);
      && after[0].total == before[0].total + x.total
      && after[1].total == before[1].total
      && after[2].total == before[2].total + x.total
  {
    TotalSalesAppend(s, [x]);
  }

  /** Recording one more purchase raises Beban by its amount and lowers Laba Bersih by it. */
  lemma LabaRugiAfterPurchase(s: seq<Sale>, p: seq<Purchase>, y: Purchase)
    ensures var before, after := LabaRugi(s, p), LabaRugi(s, p + [y]);
      && after[0].total == before[0].total
      && after[1].total == before[1].total + y.jumlah
      && after[2].total == before[2].total - y.jumlah
  {
    TotalPurchasesAppend(p, [y]);
  }

  // ----- Neraca -----

  /** The one row of the balance sheet: asset 'Kas' and equity 'Laba Ditahan' with their values. */
  datatype Neraca = Neraca(aset: string, nilai: int, ekuitas: string, nilaiEkuitas: int)

  function NeracaOf(s: seq<Sale>, p: seq<Purchase>): Neraca
  {
    var kas := TotalSales(s) - TotalPurchases(p);
    Neraca("Kas", kas, "Laba Ditahan", kas)
  }

  /**
   * Cash is lifetime revenue minus lifetime expense, which is the ledger's credits minus its
   * debits and the income statement's Laba Bersih; retained earnings always equal cash.
   */
  lemma NeracaSpec(s: seq<Sale>, p: seq<Purchase>)
    ensures var nr := NeracaOf(s, p);
      && nr.aset == "Kas" && nr.ekuitas == "Laba Ditahan"
      && nr.nilai == Credits(JurnalUmum(s, p)) - Debits(JurnalUmum(s, p))
      && nr.nilai == LabaRugi(s, p)[2].total
      && nr.nilaiEkuitas == nr.nilai
  {
    JurnalUmumTotals(s, p);
  }
}
