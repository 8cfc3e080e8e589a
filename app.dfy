/**
 * The application's actions on the store: the two input forms, which fix what a stored row
 * holds, and the reload that turns the stored tables into the logs the reports read.
 */
module App {
  import opened Dates
  import opened Transactions
  import opened Optional
  import opened Store
  import Monthly
  import Statements

  /**
   * What the input forms guarantee of the stored logs: a sale's kilograms are not negative and
   * its total is kilograms times the unit price; a purchase's category is one of the five stored
   * texts and its amount is not negative.
   */
  ghost predicate WellFormed(db: Database)
    reads db
  {
    && (forall i :: 0 <= i < |db.penjualan| ==> SaleFromForm(db.penjualan[i].rec))
    && (forall i :: 0 <= i < |db.pembelian| ==> PurchaseFromForm(db.pembelian[i].rec))
  }

  predicate SaleFromForm(x: Sale)
  {
    x.kg >= 0 && 10 * x.total == x.kg * UnitPrice
  }

  ghost predicate PurchaseFromForm(x: Purchase)
  {
    IsStoredCategory(x.kategori) && x.jumlah >= 0
  }

  /** "Simpan Penjualan": stores the sale of `kg` tenths of a kilogram on `tgl` at the unit price. */
  method InputPenjualan(db: Database, tgl: Date, kg: nat) returns (ok: bool)
    requires db.Valid() && WellFormed(db)
    modifies db
    ensures db.Valid() && WellFormed(db)
    ensures ok == db.tablesExist == old(db.tablesExist)
    ensures ok ==> db.penjualan == old(db.penjualan) + [Row(old(db.seqPenjualan) + 1, Sale(tgl, kg, SaleTotal(kg)))]
    ensures ok ==> db.seqPenjualan == old(db.seqPenjualan) + 1
    ensures !ok ==> db.penjualan == old(db.penjualan) && db.seqPenjualan == old(db.seqPenjualan)
    ensures db.pembelian == old(db.pembelian) && db.seqPembelian == old(db.seqPembelian)
    ensures db.jurnalUmum == old(db.jurnalUmum) && db.labaRugi == old(db.labaRugi) && db.neraca == old(db.neraca)
    ensures db.seqJurnalUmum == old(db.seqJurnalUmum) && db.seqLabaRugi == old(db.seqLabaRugi) && db.seqNeraca == old(db.seqNeraca)
  {
    ok := db.SimpanPenjualan(tgl, kg, SaleTotal(kg));
  }

  /** "Simpan Pembelian": stores the expense `biaya` of category `ket` on `tgl`, the category in lower case. */
  method InputPembelian(db: Database, tgl: Date, ket: Kategori, biaya: nat) returns (ok: bool)
    requires db.Valid() && WellFormed(db)
    modifies db
    ensures db.Valid() && WellFormed(db)
    ensures ok == db.tablesExist == old(db.tablesExist)
    ensures ok ==> db.pembelian == old(db.pembelian) + [Row(old(db.seqPembelian) + 1, Purchase(tgl, StoredCategory(ket), biaya))]
    ensures ok ==> db.seqPembelian == old(db.seqPembelian) + 1
    ensures !ok ==> db.pembelian == old(db.pembelian) && db.seqPembelian == old(db.seqPembelian)
    ensures db.penjualan == old(db.penjualan) && db.seqPenjualan == old(db.seqPenjualan)
    ensures db.jurnalUmum == old(db.jurnalUmum) && db.labaRugi == old(db.labaRugi) && db.neraca == old(db.neraca)
    ensures db.seqJurnalUmum == old(db.seqJurnalUmum) && db.seqLabaRugi == old(db.seqLabaRugi) && db.seqNeraca == old(db.seqNeraca)
  {
    ok := db.SimpanPembelian(tgl, StoredCategory(ket), biaya);
  }

  /** "Hapus Semua Transaksi": clears the store; the id counters are kept. */
  method HapusSemua(db: Database) returns (ok: bool)
    requires db.Valid() && WellFormed(db)
    modifies db
    ensures db.Valid() && WellFormed(db)
    ensures ok == db.tablesExist == old(db.tablesExist)
    ensures ok ==> db.Contents() == Snapshot([], [], [], [], [])
    ensures !ok ==> db.Contents() == old(db.Contents())
    ensures db.seqPenjualan == old(db.seqPenjualan) && db.seqPembelian == old(db.seqPembelian)
    ensures db.seqJurnalUmum == old(db.seqJurnalUmum) && db.seqLabaRugi == old(db.seqLabaRugi) && db.seqNeraca == old(db.seqNeraca)
  {
    ok := db.ResetData();
  }

  /** A table's rows without their ids. */
  function Records<T>(rows: seq<Row<T>>): (r: seq<T>)
    ensures |r| == |rows|
    ensures forall i :: 0 <= i < |rows| ==> r[i] == rows[i].rec
  {
    if rows == [] then [] else [rows[0].rec] + Records(rows[1..])
  }

  /** load_data: the sales and purchases logs of a snapshot (dates are already values here). */
  function LoadData(snap: Snapshot): (seq<Sale>, seq<Purchase>)
  {
    (Records(snap.penjualan), Records(snap.pembelian))
  }

  lemma {:induction false} RecordsAppend<T>(rows: seq<Row<T>>, x: Row<T>)
    ensures Records(rows + [x]) == Records(rows) + [x.rec]
  {
  }

  /**
   * The logs a well-formed store yields satisfy the forms' guarantees: every sale total is
   * kilograms times the unit price, every category one of the five texts.
   */
  lemma LoadDataWellFormed(db: Database)
    requires WellFormed(db)
    ensures var (s, p) := LoadData(Snapshot(db.penjualan, db.pembelian, db.jurnalUmum, db.labaRugi, db.neraca));
      && (forall i :: 0 <= i < |s| ==> 10 * s[i].total == s[i].kg * UnitPrice && s[i].total >= 0)
      && (forall i :: 0 <= i < |p| ==> p[i].kategori in StoredCategories)
  {
    var (s, p) := LoadData(Snapshot(db.penjualan, db.pembelian, db.jurnalUmum, db.labaRugi, db.neraca));
    forall i | 0 <= i < |s| ensures 10 * s[i].total == s[i].kg * UnitPrice && s[i].total >= 0 {
      assert db.penjualan[i] in db.penjualan;
    }
    forall i | 0 <= i < |p| ensures p[i].kategori in StoredCategories {
      assert db.pembelian[i] in db.pembelian;
      var k :| p[i].kategori == StoredCategory(k);
      StoredCategoryIsKnown(k);
    }
  }

  /**
   * The reports for 10 kg of lettuce sold on 2024-01-01 and a water bill of Rp 50,000 on
   * 2024-01-02: revenue 320,000, expense 50,000, profit and cash 270,000, in the month and overall.
   */
  lemma ExampleReports(s: seq<Sale>, p: seq<Purchase>)
    requires s == [Sale(Date(2024, 1, 1), 100, SaleTotal(100))]
    requires p == [Purchase(Date(2024, 1, 2), StoredCategory(Air), 50000)]
    ensures Statements.LabaRugi(s, p) == [
      Statements.StatementLine("Pendapatan", 320000),
      Statements.StatementLine("Beban", 50000),
      Statements.StatementLine("Laba Bersih", 270000)]
    ensures Statements.NeracaOf(s, p) == Statements.Neraca("Kas", 270000, "Laba Ditahan", 270000)
    ensures Monthly.CurrentMonthKpi(Monthly.MonthlySummary(s, p), Month(2024, 1)) == Monthly.Kpi(320000, 50000, 270000)
  {
    assert s[1..] == [] && p[1..] == [];
    assert TotalSales(s) == SaleTotal(100) == 320000;
    assert TotalPurchases(p) == 50000;
    Monthly.CurrentMonthKpiSpec(s, p, Month(2024, 1));
    assert Monthly.SalesIn(s, Month(2024, 1)) == s;
    assert Monthly.PurchasesIn(p, Month(2024, 1)) == p;
  }

  /** Record 10 kg of lettuce sold on 2024-01-01 through the form into a new store. */
  method RecordExampleSale() returns (db: Database)
    ensures fresh(db) && db.Valid() && WellFormed(db) && db.tablesExist
    ensures db.penjualan == [Row(1, Sale(Date(2024, 1, 1), 100, SaleTotal(100)))]
    ensures db.pembelian == [] && db.seqPembelian == 0
  {
    db := new Database();
    db.InitDb();
    var okSale := InputPenjualan(db, Date(2024, 1, 1), 100);
    assert okSale && db.penjualan == [] + [Row(1, Sale(Date(2024, 1, 1), 100, SaleTotal(100)))];
  }

  /** Then record a water bill of Rp 50,000 on 2024-01-02 through the other form. */
  method RecordExample() returns (db: Database)
    ensures fresh(db) && db.Valid() && WellFormed(db) && db.tablesExist
    ensures db.penjualan == [Row(1, Sale(Date(2024, 1, 1), 100, SaleTotal(100)))]
    ensures db.pembelian == [Row(1, Purchase(Date(2024, 1, 2), StoredCategory(Air), 50000))]
  {
    db := RecordExampleSale();
    var okPurchase := InputPembelian(db, Date(2024, 1, 2), Air, 50000);
    assert okPurchase && db.pembelian == [] + [Row(1, Purchase(Date(2024, 1, 2), StoredCategory(Air), 50000))];
  }

  /** Creating the schema a second time changes nothing that can be read. */
  method InitTwice() returns (first: Option<Snapshot>, second: Option<Snapshot>)
    ensures first.Some? && first == second
    ensures first.value.penjualan == [Row(1, Sale(Date(2024, 1, 1), 100, SaleTotal(100)))]
  {
    var db := RecordExampleSale();
    first := db.GetDataframes();
    db.InitDb();
    second := db.GetDataframes();
  }

  /** Record the example through the forms, reload, and read the reports. */
  method ExampleSession() returns (lr: seq<Statements.StatementLine>, nr: Statements.Neraca, kpi: Monthly.Kpi)
    ensures lr == [
      Statements.StatementLine("Pendapatan", 320000),
      Statements.StatementLine("Beban", 50000),
      Statements.StatementLine("Laba Bersih", 270000)]
    ensures nr == Statements.Neraca("Kas", 270000, "Laba Ditahan", 270000)
    ensures kpi == Monthly.Kpi(320000, 50000, 270000)
  {
    var db := RecordExample();
    var snap := db.GetDataframes();
    var logs := LoadData(snap.value);
    assert logs.0 == [Sale(Date(2024, 1, 1), 100, SaleTotal(100))];
    assert logs.1 == [Purchase(Date(2024, 1, 2), StoredCategory(Air), 50000)];
    ExampleReports(logs.0, logs.1);
    lr := Statements.LabaRugi(logs.0, logs.1);
    nr := Statements.NeracaOf(logs.0, logs.1);
    kpi := Monthly.CurrentMonthKpi(Monthly.MonthlySummary(logs.0, logs.1), Month(2024, 1));
  }

  /** One sale through the form, then "Hapus Semua Transaksi": the table is empty, its counter is 1. */
  method SaleThenReset() returns (db: Database)
    ensures fresh(db) && db.Valid() && WellFormed(db) && db.tablesExist
    ensures db.penjualan == [] && db.seqPenjualan == 1
  {
    db := new Database();
    db.InitDb();
    var okSale := InputPenjualan(db, Date(2024, 1, 1), 100);
    assert okSale && db.seqPenjualan == 1;
    var okReset := HapusSemua(db);
    assert okReset;
  }

  /** After a reset the next sale does not get an id issued before it. */
  method NoIdReuse() returns (id: nat)
    ensures id == 2
  {
    var db := SaleThenReset();
    var okAgain := InputPenjualan(db, Date(2024, 2, 1), 5);
    assert okAgain;
    assert db.penjualan == [] + [Row(2, Sale(Date(2024, 2, 1), 5, SaleTotal(5)))];
    id := db.penjualan[0].id;
  }
}
