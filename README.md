# Keuangan Selada Pak Joko — a verified model of the books

The application keeps the books of a small lettuce farm. The owner records two kinds of
transaction through two input forms:

- a sale (penjualan): a date and a weight in kilograms, priced at Rp 32,000 per kilogram;
- a purchase or expense (pembelian/beban): a date, one of five categories and an amount in rupiah.

The reports are never stored; each page recomputes its report from the two logs:

- the Dashboard page: the monthly KPI summary and the current month's figures;
- the Jurnal Umum page: the general ledger, and with it the income statement and the balance sheet;
- the Laba Rugi page: the income statement;
- the Neraca page: the balance sheet.

The input and reset pages compute no report.

The transactions live in a database of five tables with AUTOINCREMENT ids. Only `penjualan` and
`pembelian` are ever written.

The model has seven modules:

- `Optional`: the `Option` datatype, which stands for a missing value (NaN) or a failed read.
- `Dates`: dates, the `YYYY-MM` month key and the chronological order.
- `Transactions`: the two records, the unit price, the sale total, category lower-casing and the
  lifetime sums.
- `Monthly`: the dashboard summary. It follows the source's pipeline: `groupby` per log, outer
  `merge` on the month, `fillna(0)`, `laba`, then the current-month selection. It is proved equal
  to a reference definition, "filter the log by month, then sum".
- `Statements`: the general ledger (a union sorted by date), the income statement and the
  balance sheet.
- `Store`: the database as a class `Database` with five table fields and five AUTOINCREMENT
  counters. Its methods change that state and state their frame conditions.
- `App`: the two input forms, the reset button and `load_data` as clients of the store. It also
  holds the worked scenario: 10 kg sold on 2024-01-01 and a water bill of Rp 50,000 on 2024-01-02
  give revenue 320,000, expense 50,000 and profit 270,000.

Modelling decisions:

- Money is an integer number of rupiah.
- A weight is an integer number of tenths of a kilogram, the input's step. So a sale of `kg`
  tenths has total `kg * 3200`, which is `10 * total == kg * 32000`. The scenario's 10 kg is
  `kg = 100`.
- A date is a (year, month, day) value and its month key is (year, month). The model orders dates
  lexicographically, which agrees with the order of the `YYYY-MM-DD` strings for four-digit
  years.
- The current month is a parameter, not read from a clock.
- When the tables have not been created, every store operation except `init_db` reports failure (`ok == false`,
  or `None` for the snapshot) and changes nothing; the SQL statements would raise in that case. `init_db` creates the tables, as
  `CREATE TABLE IF NOT EXISTS` does.
- A new id is computed by the AUTOINCREMENT rule: one more than the larger of the table's
  counter (`sqlite_sequence`) and its largest id. `DELETE` empties a table but keeps its counter,
  so ids issued before a reset are never reused. The `Valid()` invariant keeps every id at or
  below its counter, so a new id is always the counter plus one.
- `WellFormed` states what the input forms guarantee of every stored row. A sale's total is its
  kilograms times the unit price. A purchase's category is the lower-cased label of one of the
  five options. The form methods and the reset method preserve it.

The category selector in app.py:121 offers "Air", "Listrik", "Bibit", "Plastik" and "Lainnya",
and app.py:125 stores the chosen label lower-cased, so the stored texts are "air", "listrik",
"bibit", "plastik" and "lainnya".

## Model

| member | source | states |
|---|---|---|
| Transactions.SaleTotal | app.py:112-114 | the stored total of a sale of `kg` tenths of a kilogram is kilograms times the unit price 32000, and is not negative for a non-negative weight |
| Transactions.Lower | app.py:125 | lower-casing keeps the length, maps each upper-case letter to its lower-case partner and keeps every other character |
| Transactions.StoredCategoryIsKnown | app.py:121-125 | the text stored for each selector option is one of the five lower-case texts "air", "listrik", "bibit", "plastik", "lainnya", at the option's position, and lower-casing it again changes nothing |
| Transactions.StoredCategoryInjective | app.py:121-125 | distinct options store distinct texts |
| Transactions.StoredCategory | app.py:125 | the text stored for an option, its label lower-cased; StoredCategoryIsKnown states which five texts these are |
| Transactions.TotalSales | app.py:148 | lifetime revenue, the sum of the `total` column; TotalSalesAppend states how it splits, and JurnalUmumTotals and SummaryAddsUp tie it to the ledger and the monthly summary |
| Transactions.TotalPurchases | app.py:149 | lifetime expense, the sum of the `jumlah` column; TotalPurchasesAppend states how it splits, and JurnalUmumTotals and SummaryAddsUp tie it to the ledger and the monthly summary |
| Transactions.TotalSalesAppend | app.py:148 | the lifetime sale sum of two logs together is the sum of their sums |
| Transactions.TotalPurchasesAppend | app.py:149 | the lifetime purchase sum of two logs together is the sum of their sums |
| Monthly.SalesIn | app.py:66-68 | the sales filtered to month `m` are dated in `m` and are exactly the log's sales of that month, with multiplicity |
| Monthly.PurchasesIn | app.py:71-73 | the purchases filtered to month `m` are dated in `m` and are exactly the log's purchases of that month, with multiplicity |
| Monthly.SaleAmounts | app.py:67-68 | each sale keyed by its month with its `total`; SaleAmountsMeaning and SaleAmountsSum state what these amounts sum to |
| Monthly.PurchaseAmounts | app.py:72-73 | each purchase keyed by its month with its `jumlah`; PurchaseAmountsMeaning and PurchaseAmountsSum state what these amounts sum to |
| Monthly.RevenueOfQuietMonth | app.py:77-78 | a month with no sale has revenue 0 |
| Monthly.ExpenseOfQuietMonth | app.py:77-78 | a month with no purchase has expense 0 |
| Monthly.MonthTotalAbsent | app.py:66-75 | a month that does not occur among the amounts sums to 0 |
| Monthly.LookupBelow | app.py:66-75 | a month below the smallest key of a sorted grouping is not in it |
| Monthly.AddToGroups | app.py:66-75 | adding an amount to a sorted grouping keeps the keys strictly increasing, adds the amount to its month's sum (creating the row when absent) and leaves every other month's sum alone |
| Monthly.GroupByMonth | app.py:66-75 | the grouping has strictly increasing keys, has a row exactly for the months that occur, and that row holds the sum of the month's amounts |
| Monthly.OuterMerge | app.py:76-77 | the outer join lists in strictly increasing order exactly the months of either side, each row holding each side's sum or None (NaN) for a side without that month |
| Monthly.MergeStep | app.py:76-77 | a least-month head row followed by the join of the rest is the join of the whole |
| Monthly.FillNa | app.py:78-79 | a joined row with a missing side read as 0 and `laba` as revenue minus expense; SummaryRow, MissingSideIsZero and FillNaSums state its effect |
| Monthly.MonthlySummary | app.py:66-80 | the monthly summary of the two logs; MonthlySummarySpec states its meaning and SummaryAddsUp its column sums |
| Monthly.SaleAmountsMeaning | app.py:66-68 | the month-keyed sale amounts sum to the month's revenue, and a month occurs among them exactly when a sale is dated in it |
| Monthly.SaleAmountsTotal | app.py:66-68 | the month-keyed sale amounts of month `m` sum to the revenue of `m` |
| Monthly.PurchaseAmountsMeaning | app.py:71-73 | the month-keyed purchase amounts sum to the month's expense, and a month occurs among them exactly when a purchase is dated in it |
| Monthly.PurchaseAmountsTotal | app.py:71-73 | the month-keyed purchase amounts of month `m` sum to the expense of `m` |
| Monthly.SummaryMonth | app.py:66-78 | a month has a row of the summary if and only if a sale or a purchase is dated in it |
| Monthly.SummaryRow | app.py:66-80 | each summary row holds its month's revenue and expense, 0 for a side without transactions that month, and profit equal to revenue minus expense |
| Monthly.MonthlySummarySpec | app.py:66-80 | the summary lists, once each and in increasing order, exactly the months in which something is dated; every row holds that month's revenue, expense and their difference |
| Monthly.MissingSideIsZero | app.py:77-79 | a month present in only one log gets 0 for the other side, and its profit is then the one side's figure, or its negation |
| Monthly.PenjualanOf | app.py:82 | the sum of the revenue column over the rows of month `m`; SelectRow states its value |
| Monthly.PembelianOf | app.py:83 | the sum of the expense column over the rows of month `m`; SelectRow states its value |
| Monthly.SelectRow | app.py:82-83 | on rows in strictly increasing month order, the month filter's sums are the matching row's fields, or 0 when no row matches |
| Monthly.CurrentMonthKpi | app.py:82-89 | the dashboard's three figures for a given month; CurrentMonthKpiSpec and QuietMonthKpi state their values |
| Monthly.CurrentMonthKpiSpec | app.py:82-89 | the dashboard's revenue and expense are the current month's sums, 0 when the month has no transaction, and the net figure is revenue minus expense |
| Monthly.QuietMonthKpi | app.py:82-89 | a month in which nothing is dated shows 0, 0 and 0 |
| Monthly.AddToGroupsSum | app.py:66-75 | adding an amount to a grouping raises the grouping's total by that amount |
| Monthly.GroupByMonthSum | app.py:66-75 | grouping keeps the total of the amounts |
| Monthly.OuterMergeSums | app.py:76-78 | the join's per-side totals, NaN counted as 0, are the totals of the two groupings |
| Monthly.FillNaSums | app.py:78 | after `fillna(0)` the column sums equal the join's per-side totals |
| Monthly.SaleAmountsSum | app.py:66-68 | the sale amounts add up to lifetime revenue |
| Monthly.PurchaseAmountsSum | app.py:71-73 | the purchase amounts add up to lifetime expense |
| Monthly.SummaryAddsUp | app.py:66-80 | the monthly revenues add up to lifetime revenue and the monthly expenses to lifetime expense |
| Statements.InsertByDate | app.py:134 | inserting a row into date-ordered rows keeps them in date order and adds exactly that row |
| Statements.InsertByDateSums | app.py:134 | inserting a row adds its credit and debit to the column sums |
| Statements.SortByDate | app.py:134 | the sorted ledger is in non-decreasing date order and is a permutation of its input |
| Statements.SortByDateSums | app.py:134 | sorting does not change the credit and debit sums |
| Statements.CreditsAppend | app.py:131-134 | the column sums of a concatenation are the sums of the parts |
| Statements.SaleEntriesSums | app.py:132 | the sale rows credit lifetime revenue and debit nothing |
| Statements.PurchaseEntriesSums | app.py:133 | the purchase rows debit lifetime expense and credit nothing |
| Statements.SaleEntry | app.py:132 | the ledger row of a sale, 'Penjualan' with debit 0 and its total as credit; JurnalUmumSpec states that every sale appears as one |
| Statements.PurchaseEntry | app.py:133 | the ledger row of a purchase, 'Pembelian' with its amount as debit and credit 0; JurnalUmumSpec states that every purchase appears as one |
| Statements.JurnalUmum | app.py:131-139 | the general ledger of the two logs; JurnalUmumSpec states its rows and order and JurnalUmumTotals its column sums |
| Statements.JurnalUmumSpec | app.py:131-139 | the ledger has as many rows as sales plus purchases and is in date order; it is exactly the sale rows and the purchase rows; each sale appears as 'Penjualan' with debit 0 and its total as credit; each purchase appears as 'Pembelian' with its amount as debit and credit 0; there are no other rows |
| Statements.EntryOrigin | app.py:131-134 | every row of the union is a 'Penjualan' row of a sale or a 'Pembelian' row of a purchase |
| Statements.JurnalUmumTotals | app.py:131-139 | the ledger's credits add up to lifetime revenue and its debits to lifetime expense |
| Statements.LabaRugi | app.py:148-153 | the income statement of the two logs, as the Jurnal Umum page computes it and again at app.py:175-180; LabaRugiSpec states its rows |
| Statements.LabaRugiSpec | app.py:148-153 | the income statement has exactly the rows Pendapatan, Beban and Laba Bersih; Pendapatan is the ledger's credit total and the sum of the monthly revenues; Beban is the ledger's debit total and the sum of the monthly expenses; Laba Bersih is Pendapatan minus Beban |
| Statements.LabaRugiEmpty | app.py:175-180 | with both logs empty all three figures are 0 |
| Statements.LabaRugiAfterSale | app.py:175-180 | one more sale raises Pendapatan and Laba Bersih by its total and leaves Beban alone |
| Statements.LabaRugiAfterPurchase | app.py:175-180 | one more purchase raises Beban by its amount, lowers Laba Bersih by it and leaves Pendapatan alone |
| Statements.NeracaOf | app.py:191-197 | the balance sheet of the two logs, as the Neraca page computes it and the Jurnal Umum page at app.py:154-160; NeracaSpec states its values |
| Statements.NeracaSpec | app.py:191-197 | cash 'Kas' is lifetime revenue minus lifetime expense, which is the ledger's credits minus its debits and the income statement's Laba Bersih; retained earnings 'Laba Ditahan' always equal cash |
| Store.MaxId | database.py:23 | the largest id of a table bounds every id, is 0 for an empty table, and is the id of some row otherwise |
| Store.NextId | database.py:23 | the id AUTOINCREMENT gives a new row, one more than the larger of the counter and the largest id; NextIdIsCounterPlusOne states its value under the store's invariant |
| Store.NextIdIsCounterPlusOne | database.py:23 | when every id of a table is at most its counter, AUTOINCREMENT gives the counter plus one, which exceeds every id in the table |
| Store.AppendKeepsIdsIssued | database.py:23 | appending a row with the counter plus one keeps the ids positive, increasing and bounded by the new counter |
| Store.Database.constructor | database.py:7 | a database file without tables: five empty tables, all counters 0 |
| Store.Database.InitDb | database.py:18-64 | after creation the tables exist; rows and counters are unchanged; when the tables already existed nothing changes at all |
| Store.Database.GetDataframes | database.py:67-80 | returns the five tables in the order penjualan, pembelian, jurnal_umum, laba_rugi, neraca, fails exactly when they are missing, and changes nothing |
| Store.Database.SimpanPenjualan | database.py:84-90 | appends exactly the row (tanggal, kg, total) to `penjualan` with id counter plus one, an id above every id issued before; all other tables and counters are unchanged; without tables nothing changes |
| Store.Database.SimpanPembelian | database.py:93-99 | appends exactly the row (tanggal, kategori, jumlah) to `pembelian` with id counter plus one, an id above every id issued before; all other tables and counters are unchanged; without tables nothing changes |
| Store.Database.ResetData | database.py:102-110 | empties all five tables at once and keeps every counter; without tables nothing changes |
| App.InputPenjualan | app.py:109-116 | the sale form stores (date, kg, kg times the unit price) as the next row with id counter plus one; on failure nothing changes; the purchases, jurnal_umum, laba_rugi and neraca tables and their counters are unchanged; the store stays well formed |
| App.InputPembelian | app.py:118-127 | the purchase form stores (date, the option's label lower-cased, amount) as the next row with id counter plus one; on failure nothing changes; the sales, jurnal_umum, laba_rugi and neraca tables and their counters are unchanged; the store stays well formed |
| App.HapusSemua | app.py:211-216 | the reset button empties all five tables, keeps all five counters, changes nothing when the tables are missing, and leaves the store well formed |
| App.Records | app.py:30-34 | the rows of a table without their ids, one record per row, in order |
| App.LoadData | app.py:30-34 | the two logs read from a snapshot; RecordsAppend and LoadDataWellFormed state what they hold |
| App.RecordsAppend | app.py:30-34 | reloading after an append gives the old records followed by the new one |
| App.LoadDataWellFormed | app.py:30-34 | the logs reloaded from a well-formed store have every sale total equal to kilograms times the unit price, not negative, and every category one of the five stored texts |
| App.ExampleReports | app.py:148-160 | the scenario's logs give income statement 320,000 / 50,000 / 270,000, cash and retained earnings 270,000, and January 2024 KPI 320,000 / 50,000 / 270,000 |
| App.RecordExampleSale | app.py:109-116 | the sale form on a new store gives exactly the row with id 1 and total 320,000 |
| App.RecordExample | app.py:118-127 | the purchase form then gives exactly the 'air' row with id 1 |
| App.InitTwice | database.py:18-64 | creating the schema again after a sale leaves the snapshot identical |
| App.ExampleSession | app.py:109-197 | recording the scenario through the forms, reloading and computing the reports gives exactly the scenario's figures |
| App.SaleThenReset | app.py:211-216 | after one sale and a reset the sales table is empty and its counter is still 1 |
| App.NoIdReuse | database.py:23 | the first sale after the reset gets id 2, not the deleted row's id 1 |

## Left out

- The Streamlit user interface is not modelled: page configuration, the sidebar menu, metrics, table styling, balloons and download buttons. It is presentation only.
- The plotly trend chart is not modelled. It is a chart widget.
- The Excel export `to_excel_multi` and the mime string of its download are not modelled. They are serialisation through a library outside the model.
- The SQLite connection, the SQL text and `read_sql_query` are I/O. The store is modelled as in-memory sequences.
- Rows of `jurnal_umum`, `laba_rugi` and `neraca` have no writer in the code. The model only creates, snapshots and clears them.
- Date parsing (`to_datetime`) and formatting (`strftime`) are not modelled: dates are values. The clock (`datetime.today()`) becomes the month parameter of `CurrentMonthKpi`.
- Floating point is not modelled. Money is integer rupiah and weight is integer tenths of a kilogram, so the `int(...)` truncation of the KPI figures is the identity. A fractional rupiah amount or a weight finer than 0.1 kg cannot be expressed.
- Transactions.Lower: lower-cases ASCII letters only, which is all the five category labels contain; Python's full Unicode `lower()` is not modelled.
- Statements.SortByDate: `sort_values` is not a stable sort. The model fixes one order for rows with equal dates (insertion sort), and its contracts state only date order and permutation, which every tie order satisfies.
- Store.NextIdIsCounterPlusOne: the 64-bit limit of AUTOINCREMENT ids, past which SQLite refuses inserts, is not modelled; ids are unbounded.
- Store.Database: a failing statement raises in the source; the model returns `false` (or `None`) and changes nothing. Partial failures inside a statement or a commit are not modelled.
- The module-level reload of `raw_penj` and `raw_pemb` after each write is UI glue. It is modelled as reading the store again (`GetDataframes` then `LoadData`).
- Monthly.OuterMerge: the join is defined for the groupings the summary feeds it, which have strictly increasing keys; `merge` on arbitrary frames with repeated keys is not modelled.
