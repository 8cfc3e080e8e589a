/**
 * The transaction store: a database of five tables with AUTOINCREMENT ids, kept in memory.
 * Every operation except InitDb that finds the tables missing fails (the database raises) and
 * changes nothing; InitDb creates them.
 */
module Store {
  import opened Dates
  import opened Transactions
  import opened Optional

  /** A stored row: the id the database gave it and the columns written. */
  datatype Row<T> = Row(id: nat, rec: T)

  /** Rows of the three auxiliary tables, which the schema declares and nothing writes. */
  datatype JurnalRecord = JurnalRecord(tanggal: Date, keterangan: string, debit: int, kredit: int)
  datatype LabaRugiRecord = LabaRugiRecord(periode: string, pendapatan: int, beban: int, laba: int)
  datatype NeracaRecord = NeracaRecord(periode: string, aset: int, kewajiban: int, ekuitas: int)

  /** The contents of the five tables, in the order penjualan, pembelian, jurnal_umum, laba_rugi, neraca. */
  datatype Snapshot = Snapshot(
    penjualan: seq<Row<Sale>>,
    pembelian: seq<Row<Purchase>>,
    jurnalUmum: seq<Row<JurnalRecord>>,
    labaRugi: seq<Row<LabaRugiRecord>>,
    neraca: seq<Row<NeracaRecord>>)

  /** Every id of the table is positive and at most `last`, and ids increase down the table. */
  predicate IdsIssued<T>(rows: seq<Row<T>>, last: nat)
  {
    && (forall i :: 0 <= i < |rows| ==> 0 < rows[i].id <= last)
    && (forall i, j :: 0 <= i < j < |rows| ==> rows[i].id < rows[j].id)
  }

  /** The largest id in the table, 0 for an empty table. */
  function MaxId<T>(rows: seq<Row<T>>): (r: nat)
    ensures forall i :: 0 <= i < |rows| ==> rows[i].id <= r
    ensures rows == [] ==> r == 0
    ensures rows != [] ==> exists i :: 0 <= i < |rows| && rows[i].id == r
  {
    if rows == [] then 0
    else
      var rest := MaxId(rows[1..]);
      assert forall i :: 1 <= i < |rows| ==> rows[i] == rows[1..][i - 1];
      if rows[0].id >= rest then rows[0].id else rest
  }

  /**
   * The id AUTOINCREMENT gives a new row: one more than the larger of the largest id ever issued
   * in the table and the largest id in it now.
   */
  function NextId<T>(rows: seq<Row<T>>, last: nat): nat
  {
    (if last >= MaxId(rows) then last else MaxId(rows)) + 1
  }

  /** When the table's ids were all issued through its counter, the next id is the counter plus one. */
  lemma NextIdIsCounterPlusOne<T>(rows: seq<Row<T>>, last: nat)
    requires IdsIssued(rows, last)
    ensures NextId(rows, last) == last + 1
    ensures forall i :: 0 <= i < |rows| ==> rows[i].id < NextId(rows, last)
  {
    if rows != [] {
      var i :| 0 <= i < |rows| && rows[i].id == MaxId(rows);
    }
  }

  lemma AppendKeepsIdsIssued<T>(rows: seq<Row<T>>, last: nat, x: T)
    requires IdsIssued(rows, last)
    ensures IdsIssued(rows + [Row(last + 1, x)], last + 1)
  {
  }

  class Database {
    /** Whether the schema has been created in the database file. */
    var tablesExist: bool
    var penjualan: seq<Row<Sale>>
    var pembelian: seq<Row<Purchase>>
    var jurnalUmum: seq<Row<JurnalRecord>>
    var labaRugi: seq<Row<LabaRugiRecord>>
    var neraca: seq<Row<NeracaRecord>>
    /** The largest id ever issued per table (SQLite keeps it in `sqlite_sequence`; deleting rows keeps it). */
    var seqPenjualan: nat
    var seqPembelian: nat
    var seqJurnalUmum: nat
    var seqLabaRugi: nat
    var seqNeraca: nat

    ghost predicate Valid()
      reads this
    {
      && IdsIssued(penjualan, seqPenjualan)
      && IdsIssued(pembelian, seqPembelian)
      && IdsIssued(jurnalUmum, seqJurnalUmum)
      && IdsIssued(labaRugi, seqLabaRugi)
      && IdsIssued(neraca, seqNeraca)
      && (!tablesExist ==>
            && Contents() == Snapshot([], [], [], [], [])
            && seqPenjualan == seqPembelian == seqJurnalUmum == seqLabaRugi == seqNeraca == 0)
    }

    function Contents(): Snapshot
      reads this
    {
      Snapshot(penjualan, pembelian, jurnalUmum, labaRugi, neraca)
    }

    /** A database file in which no table has been created yet. */
    constructor ()
      ensures Valid() && !tablesExist
      ensures Contents() == Snapshot([], [], [], [], [])
      ensures seqPenjualan == seqPembelian == seqJurnalUmum == seqLabaRugi == seqNeraca == 0
    {
      tablesExist := false;
      penjualan, pembelian, jurnalUmum, labaRugi, neraca := [], [], [], [], [];
      seqPenjualan, seqPembelian, seqJurnalUmum, seqLabaRugi, seqNeraca := 0, 0, 0, 0, 0;
    }

    /** init_db: creates each table unless it exists; rows and id counters are kept. */
    method InitDb()
      requires Valid()
      modifies this
      ensures Valid() && tablesExist
      ensures Contents() == old(Contents())
      ensures seqPenjualan == old(seqPenjualan) && seqPembelian == old(seqPembelian)
      ensures seqJurnalUmum == old(seqJurnalUmum) && seqLabaRugi == old(seqLabaRugi) && seqNeraca == old(seqNeraca)
      ensures old(tablesExist) ==> unchanged(this)
    {
      if !tablesExist {
        tablesExist := true;
      }
    }

    /** get_dataframes: the full contents of the five tables; fails when the tables are missing. */
    method GetDataframes() returns (r: Option<Snapshot>)
      ensures r.Some? <==> tablesExist
      ensures r.Some? ==> r.value == Snapshot(penjualan, pembelian, jurnalUmum, labaRugi, neraca)
    {
      if tablesExist {
        r := Some(Snapshot(penjualan, pembelian, jurnalUmum, labaRugi, neraca));
      } else {
        r := None;
      }
    }

    /** simpan_penjualan: appends the sale (tanggal, kg, total) with a fresh id. */
    method SimpanPenjualan(tanggal: Date, kg: int, total: int) returns (ok: bool)
      requires Valid()
      modifies this
      ensures Valid()
      ensures ok == tablesExist == old(tablesExist)
      ensures ok ==> penjualan == old(penjualan) + [Row(old(seqPenjualan) + 1, Sale(tanggal, kg, total))]
      ensures ok ==> seqPenjualan == old(seqPenjualan) + 1
      ensures ok ==> forall i :: 0 <= i < |old(penjualan)| ==> old(penjualan)[i].id < penjualan[|penjualan| - 1].id
      ensures !ok ==> penjualan == old(penjualan) && seqPenjualan == old(seqPenjualan)
      ensures pembelian == old(pembelian) && jurnalUmum == old(jurnalUmum)
      ensures labaRugi == old(labaRugi) && neraca == old(neraca)
      ensures seqPembelian == old(seqPembelian) && seqJurnalUmum == old(seqJurnalUmum)
      ensures seqLabaRugi == old(seqLabaRugi) && seqNeraca == old(seqNeraca)
    {
      if !tablesExist {
        return false;
      }
      var id := NextId(penjualan, seqPenjualan);
      NextIdIsCounterPlusOne(penjualan, seqPenjualan);
      AppendKeepsIdsIssued(penjualan, seqPenjualan, Sale(tanggal, kg, total));
      ghost var before := penjualan;
      penjualan, seqPenjualan := penjualan + [Row(id, Sale(tanggal, kg, total))], id;
      assert penjualan[|penjualan| - 1].id == id;
      assert forall i :: 0 <= i < |before| ==> before[i].id < id;
      ok := true;
    }

    /** simpan_pembelian: appends the purchase (tanggal, kategori, jumlah) with a fresh id. */
    method SimpanPembelian(tanggal: Date, kategori: string, jumlah: int) returns (ok: bool)
      requires Valid()
      modifies this
      ensures Valid()
      ensures ok == tablesExist == old(tablesExist)
      ensures ok ==> pembelian == old(pembelian) + [Row(old(seqPembelian) + 1, Purchase(tanggal, kategori, jumlah))]
      ensures ok ==> seqPembelian == old(seqPembelian) + 1
      ensures ok ==> forall i :: 0 <= i < |old(pembelian)| ==> old(pembelian)[i].id < pembelian[|pembelian| - 1].id
      ensures !ok ==> pembelian == old(pembelian) && seqPembelian == old(seqPembelian)
      ensures penjualan == old(penjualan) && jurnalUmum == old(jurnalUmum)
      ensures labaRugi == old(labaRugi) && neraca == old(neraca)
      ensures seqPenjualan == old(seqPenjualan) && seqJurnalUmum == old(seqJurnalUmum)
      ensures seqLabaRugi == old(seqLabaRugi) && seqNeraca == old(seqNeraca)
    {
      if !tablesExist {
        return false;
      }
      var id := NextId(pembelian, seqPembelian);
      NextIdIsCounterPlusOne(pembelian, seqPembelian);
      AppendKeepsIdsIssued(pembelian, seqPembelian, Purchase(tanggal, kategori, jumlah));
      ghost var before := pembelian;
      pembelian, seqPembelian := pembelian + [Row(id, Purchase(tanggal, kategori, jumlah))], id;
      assert pembelian[|pembelian| - 1].id == id;
      assert forall i :: 0 <= i < |before| ==> before[i].id < id;
      ok := true;
    }

    /** reset_data: deletes every row of the five tables; the id counters are kept, so ids are never reused. */
    method ResetData() returns (ok: bool)
      requires Valid()
      modifies this
      ensures Valid()
      ensures ok == tablesExist == old(tablesExist)
      ensures ok ==> Contents() == Snapshot([], [], [], [], [])
      ensures !ok ==> Contents() == old(Contents())
      ensures seqPenjualan == old(seqPenjualan) && seqPembelian == old(seqPembelian)
      ensures seqJurnalUmum == old(seqJurnalUmum) && seqLabaRugi == old(seqLabaRugi) && seqNeraca == old(seqNeraca)
    {
      if !tablesExist {
        return false;
      }
      penjualan := [];
      pembelian := [];
      jurnalUmum := [];
      labaRugi := [];
      neraca := [];
      ok := true;
    }
  }
}
