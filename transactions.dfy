/**
 * The two transaction records of the farm's books, the fixed unit price of a sale,
 * the expense categories, and the lifetime sums that every report is made of.
 */
module Transactions {
  import opened Dates

  /** Price of one kilogram of lettuce, in rupiah. */
  const UnitPrice: int := 32000

  /** A sale: `kg` is in tenths of a kilogram (the input accepts steps of 0.1 kg), `total` in rupiah. */
  datatype Sale = Sale(tanggal: Date, kg: int, total: int)

  /** A purchase or expense: `kategori` is the stored category text, `jumlah` the amount in rupiah. */
  datatype Purchase = Purchase(tanggal: Date, kategori: string, jumlah: int)

  /** The total recorded for a sale of `kg` tenths of a kilogram: kilograms times the unit price. */
  function SaleTotal(kg: int): (total: int)
    ensures 10 * total == kg * UnitPrice
    ensures kg >= 0 ==> total >= 0
  {
    kg * (UnitPrice / 10)
  }

  /** The five options of the expense category selector. */
  datatype Kategori = Air | Listrik | Bibit | Plastik | Lainnya

  /** The option as the selector shows it. */
  function Label(k: Kategori): string
  {
    match k
    case Air => "Air"
    case Listrik => "Listrik"
    case Bibit => "Bibit"
    case Plastik => "Plastik"
    case Lainnya => "Lainnya"
  }

  /** The five category texts that can be stored. */
  const StoredCategories: seq<string> := ["air", "listrik", "bibit", "plastik", "lainnya"]

  predicate IsUpper(c: char)
  {
    'A' <= c <= 'Z'
  }

  function LowerChar(c: char): char
  {
    if IsUpper(c) then (c as int - 'A' as int + 'a' as int) as char else c
  }

  /** Lower-casing of a string, restricted to the ASCII letters the category labels use. */
  function Lower(s: string): (r: string)
    ensures |r| == |s|
    ensures forall i :: 0 <= i < |r| ==> !IsUpper(r[i])
    ensures forall i :: 0 <= i < |s| && !IsUpper(s[i]) ==> r[i] == s[i]
    ensures forall i :: 0 <= i < |s| && IsUpper(s[i]) ==> r[i] as int == s[i] as int + ('a' as int - 'A' as int)
  {
    seq(|s|, i requires 0 <= i < |s| => LowerChar(s[i]))
  }

  /** The category text stored for an option: its label in lower case. */
  function StoredCategory(k: Kategori): string
  {
    Lower(Label(k))
  }

  /** The text is what some option of the selector stores. */
  ghost predicate IsStoredCategory(c: string)
  {
    exists k: Kategori :: c == StoredCategory(k)
  }

  /** A stored category is one of the five lower-case texts, and distinct options store distinct texts. */
  lemma StoredCategoryIsKnown(k: Kategori)
    ensures StoredCategory(k) in StoredCategories
    ensures StoredCategory(k) == StoredCategories[Index(k)]
    ensures Lower(StoredCategory(k)) == StoredCategory(k)
  {
    match k
    case Air => assert Lower("Air") == "air";
    case Listrik => assert Lower("Listrik") == "listrik";
    case Bibit => assert Lower("Bibit") == "bibit";
    case Plastik => assert Lower("Plastik") == "plastik";
    case Lainnya => assert Lower("Lainnya") == "lainnya";
  }

  function Index(k: Kategori): nat
  {
    match k
    case Air => 0
    case Listrik => 1
    case Bibit => 2
    case Plastik => 3
    case Lainnya => 4
  }

  lemma StoredCategoryInjective(a: Kategori, b: Kategori)
    ensures StoredCategory(a) == StoredCategory(b) ==> a == b
  {
    StoredCategoryIsKnown(a);
    StoredCategoryIsKnown(b);
  }

  /** Lifetime revenue: the sum of column `total` of the sales. */
  function TotalSales(s: seq<Sale>): int
  {
    if s == [] then 0 else s[0].total + TotalSales(s[1..])
  }

  /** Lifetime expense: the sum of column `jumlah` of the purchases. */
  function TotalPurchases(p: seq<Purchase>): int
  {
    if p == [] then 0 else p[0].jumlah + TotalPurchases(p[1..])
  }

  lemma {:induction false} TotalSalesAppend(a: seq<Sale>, b: seq<Sale>)
    ensures TotalSales(a + b) == TotalSales(a) + TotalSales(b)
  {
    if a != [] {
      assert (a + b)[1..] == a[1..] + b;
      TotalSalesAppend(a[1..], b);
    } else {
      assert a + b == b;
    }
  }

  lemma {:induction false} TotalPurchasesAppend(a: seq<Purchase>, b: seq<Purchase>)
    ensures TotalPurchases(a + b) == TotalPurchases(a) + TotalPurchases(b)
  {
    if a != [] {
      assert (a + b)[1..] == a[1..] + b;
      TotalPurchasesAppend(a[1..], b);
    } else {
      assert a + b == b;
    }
  }
}
