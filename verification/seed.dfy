/** The start-up seeding of `DataInitializer.run`: when the item table is
    empty, twenty sample clothes items are saved in three blocks, each item
    built with the five-argument `Item` constructor (so with quantity 0);
    otherwise the table is left alone. Prices are integer cents. */
module DataInit {
  import opened Common
  import opened ItemEntity
  import opened ItemStore

  /** The fields `new Item(name, brand, category, price, year)` gives an
      item: the five as passed, and quantity 0. */
  function Sample(name: string, brand: string, category: string, price: int, year: Int32): ItemData
  {
    ItemData(Some(name), Some(brand), Some(category), Some(price), Some(year), Some(0))
  }

  /** The table after the 2022 block's saves, from table `rows` whose
      next generated id is `n`. */
  function AfterBlock2022(rows: seq<Row>, n: int): seq<Row>
  {
    rows
    + [Row(n, Sample("Nike Air Max 270", "Nike", "Shoes", 12999, 2022))]
    + [Row(n + 1, Sample("Adidas Ultraboost 22", "Adidas", "Shoes", 17999, 2022))]
    + [Row(n + 2, Sample("Levi's 501 Original Jeans", "Levi's", "Pants", 8999, 2022))]
    + [Row(n + 3, Sample("Calvin Klein T-Shirt", "Calvin Klein", "Shirts", 2999, 2022))]
    + [Row(n + 4, Sample("Tommy Hilfiger Polo", "Tommy Hilfiger", "Shirts", 5999, 2022))]
    + [Row(n + 5, Sample("Nike Dri-FIT Shorts", "Nike", "Shorts", 3499, 2022))]
    + [Row(n + 6, Sample("Adidas Track Jacket", "Adidas", "Jackets", 7999, 2022))]
    + [Row(n + 7, Sample("Levi's Denim Jacket", "Levi's", "Jackets", 11999, 2022))]
    + [Row(n + 8, Sample("Calvin Klein Underwear", "Calvin Klein", "Underwear", 2499, 2022))]
    + [Row(n + 9, Sample("Tommy Hilfiger Sweater", "Tommy Hilfiger", "Sweaters", 8999, 2022))]
  }


  /** The table after the 2021 block's saves, from table `rows` whose
      next generated id is `n`. */
  function AfterBlock2021(rows: seq<Row>, n: int): seq<Row>
  {
    rows
    + [Row(n, Sample("Nike Air Jordan 1", "Nike", "Shoes", 16999, 2021))]
    + [Row(n + 1, Sample("Adidas Stan Smith", "Adidas", "Shoes", 8999, 2021))]
    + [Row(n + 2, Sample("Levi's 511 Slim Jeans", "Levi's", "Pants", 7999, 2021))]
    + [Row(n + 3, Sample("Calvin Klein Hoodie", "Calvin Klein", "Hoodies", 6999, 2021))]
    + [Row(n + 4, Sample("Tommy Hilfiger Jeans", "Tommy Hilfiger", "Pants", 9999, 2021))]
  }


  /** The table after the 2023 block's saves, from table `rows` whose
      next generated id is `n`. */
  function AfterBlock2023(rows: seq<Row>, n: int): seq<Row>
  {
    rows
    + [Row(n, Sample("Nike Air Force 1", "Nike", "Shoes", 10999, 2023))]
    + [Row(n + 1, Sample("Adidas Gazelle", "Adidas", "Shoes", 8499, 2023))]
    + [Row(n + 2, Sample("Levi's 721 High Rise", "Levi's", "Pants", 9499, 2023))]
    + [Row(n + 3, Sample("Calvin Klein Dress", "Calvin Klein", "Dresses", 12999, 2023))]
    + [Row(n + 4, Sample("Tommy Hilfiger Blazer", "Tommy Hilfiger", "Blazers", 19999, 2023))]
  }


  /** The table an empty one becomes: the three blocks in order, under
      ids 1 to 20. */
  function SeedRows(): seq<Row>
  {
    AfterBlock2023(AfterBlock2021(AfterBlock2022([], 1), 11), 16)
  }

  /** The table `run` leaves: the samples when it was empty, otherwise
      the table as it was. */
  function RunRows(rows: seq<Row>): seq<Row>
  {
    if rows == [] then SeedRows() else rows
  }

  /** Every row holds an item with no units in stock and a positive price. */
  predicate Unstocked(rows: seq<Row>)
  {
    forall i :: 0 <= i < |rows| ==>
      rows[i].data.quantity == Some(0) && rows[i].data.price.Some? && rows[i].data.price.value > 0
  }

  /** The number of rows whose item has model year `year`. */
  function CountYear(rows: seq<Row>, year: Int32): (n: nat)
    ensures n <= |rows|
  {
    if rows == [] then 0
    else (if rows[0].data.year == Some(year) then 1 else 0) + CountYear(rows[1..], year)
  }

  lemma {:induction false} CountYearAppend(a: seq<Row>, b: seq<Row>, year: Int32)
    ensures CountYear(a + b, year) == CountYear(a, year) + CountYear(b, year)
  {
    if a == [] {
      assert a + b == b;
    } else {
      assert (a + b)[0] == a[0] && (a + b)[1..] == a[1..] + b;
      CountYearAppend(a[1..], b, year);
    }
  }

  /** `r` is `rows` followed by `k` new rows under ids `n` onwards, all of
      model year `year`, without stock and with a positive price. */
  predicate Extends(r: seq<Row>, rows: seq<Row>, n: int, k: nat, year: Int32)
  {
    && |r| == |rows| + k
    && r[..|rows|] == rows
    && forall i :: |rows| <= i < |r| ==>
      && r[i].id == n + (i - |rows|)
      && r[i].data.year == Some(year)
      && r[i].data.quantity == Some(0) && r[i].data.price.Some? && r[i].data.price.value > 0
  }

  /** The 2022 block appends ten items of 2022 under consecutive ids, all
      without stock and with a positive price; likewise the five of the
      2021 block and the five of the 2023 block below. */
  lemma Block2022Facts(rows: seq<Row>, n: int)
    ensures Extends(AfterBlock2022(rows, n), rows, n, 10, 2022)
  {
  }

  lemma Block2021Facts(rows: seq<Row>, n: int)
    ensures Extends(AfterBlock2021(rows, n), rows, n, 5, 2021)
  {
  }

  lemma Block2023Facts(rows: seq<Row>, n: int)
    ensures Extends(AfterBlock2023(rows, n), rows, n, 5, 2023)
  {
  }

  /** Every row holds an item of model year `year`. */
  predicate OfYear(rows: seq<Row>, year: Int32)
  {
    forall i :: 0 <= i < |rows| ==> rows[i].data.year == Some(year)
  }

  /** In rows all of one year, that year counts every row and any other
      year none. */
  lemma {:induction false} CountOfYear(rows: seq<Row>, year: Int32, other: Int32)
    requires OfYear(rows, year)
    ensures CountYear(rows, year) == |rows|
    ensures other != year ==> CountYear(rows, other) == 0
  {
    if rows != [] {
      assert rows[0].data.year == Some(year);
      assert OfYear(rows[1..], year) by {
        forall i | 0 <= i < |rows| - 1 ensures rows[1..][i].data.year == Some(year) {
          assert rows[1..][i] == rows[i + 1];
        }
      }
      CountOfYear(rows[1..], year, other);
    }
  }

  /** Row `i` has id `i + 1`. */
  predicate Numbered(rows: seq<Row>)
  {
    forall i :: 0 <= i < |rows| ==> rows[i].id == i + 1
  }

  /** Extending a table by a block keeps it numbered when the block starts
      at the next id, keeps it without stock, and adds the block's rows to
      the count of its year and none to any other. */
  lemma {:induction false} ExtendsFacts(r: seq<Row>, rows: seq<Row>, n: int, k: nat, year: Int32, other: Int32)
    requires Extends(r, rows, n, k, year)
    ensures Numbered(rows) && n == |rows| + 1 ==> Numbered(r)
    ensures Unstocked(rows) ==> Unstocked(r)
    ensures CountYear(r, year) == CountYear(rows, year) + k
    ensures other != year ==> CountYear(r, other) == CountYear(rows, other)
  {
    var tail := r[|rows|..];
    assert r == rows + tail;
    forall i | 0 <= i < |rows|
      ensures r[i] == rows[i]
    {
      assert r[..|rows|][i] == r[i];
    }
    assert OfYear(tail, year) by {
      forall i | 0 <= i < |tail| ensures tail[i].data.year == Some(year) {
        assert tail[i] == r[|rows| + i];
      }
    }
    CountOfYear(tail, year, other);
    CountYearAppend(rows, tail, year);
    CountYearAppend(rows, tail, other);
  }

  /** A table built from empty by a block of ten rows of 2022, one of five
      of 2021 and one of five of 2023, each starting at the next id, has
      twenty rows under ids 1 to 20, none with stock, ten of 2022, five of
      2021 and five of 2023. */
  lemma ThreeBlocks(a: seq<Row>, b: seq<Row>, c: seq<Row>)
    requires Extends(a, [], 1, 10, 2022)
    requires Extends(b, a, 11, 5, 2021)
    requires Extends(c, b, 16, 5, 2023)
    ensures |c| == 20 && Numbered(c) && Unstocked(c)
    ensures CountYear(c, 2022) == 10 && CountYear(c, 2021) == 5 && CountYear(c, 2023) == 5
  {
    ExtendsFacts(a, [], 1, 10, 2022, 2021);
    ExtendsFacts(a, [], 1, 10, 2022, 2023);
    ExtendsFacts(b, a, 11, 5, 2021, 2022);
    ExtendsFacts(b, a, 11, 5, 2021, 2023);
    ExtendsFacts(c, b, 16, 5, 2023, 2022);
    ExtendsFacts(c, b, 16, 5, 2023, 2021);
  }

  /** The seeded table: twenty rows under ids 1 to 20, every item without
      stock and with a positive price, ten of 2022, five of 2021 and five
      of 2023. */
  lemma SeedRowsFacts()
    ensures |SeedRows()| == 20 && Numbered(SeedRows()) && Unstocked(SeedRows())
    ensures CountYear(SeedRows(), 2022) == 10
    ensures CountYear(SeedRows(), 2021) == 5
    ensures CountYear(SeedRows(), 2023) == 5
  {
    var a := AfterBlock2022([], 1);
    var b := AfterBlock2021(a, 11);
    Block2022Facts([], 1);
    Block2021Facts(a, 11);
    Block2023Facts(b, 16);
    ThreeBlocks(a, b, AfterBlock2023(b, 16));
  }

  /** Seeding is idempotent: a second run changes nothing. */
  lemma RunIdempotent(rows: seq<Row>)
    ensures RunRows(RunRows(rows)) == RunRows(rows)
  {
    SeedRowsFacts();
  }

  /** Each label starts with a visible character, as every sample's
      name, brand and category does. */
  predicate Labelled(name: string, brand: string, category: string)
  {
    && |name| > 0 && name[0] > ' '
    && |brand| > 0 && brand[0] > ' '
    && |category| > 0 && category[0] > ' '
  }

  /** A labelled sample with a positive price passes validation. */
  lemma LabelledValid(name: string, brand: string, category: string, price: int, year: Int32)
    requires Labelled(name, brand, category) && price > 0
    ensures IsValid(Sample(name, brand, category, price, year))
  {
    assert name[0] > ' ' && brand[0] > ' ' && category[0] > ' ';
  }

  /** One `itemRepository.save(new Item(...))` line: the sample is built
      with the five-argument constructor and saved as a new row under the
      next id. */
  method Seed(store: Warehouse, name: string, brand: string, category: string, price: int, year: Int32)
    requires store.Valid()
    requires IsValid(Sample(name, brand, category, price, year))
    modifies store, store.clock
    ensures store.Valid()
    ensures store.rows == old(store.rows) + [Row(old(store.nextId), Sample(name, brand, category, price, year))]
    ensures store.nextId == old(store.nextId) + 1
  {
    var item := new Item.WithFields(store.clock, Some(name), Some(brand), Some(category), Some(price), Some(year));
    var ok := store.Save(item);
  }

  /** The items of the 2022 block all pass validation. */
  lemma Block2022Valid()
    ensures IsValid(Sample("Nike Air Max 270", "Nike", "Shoes", 12999, 2022))
    ensures IsValid(Sample("Adidas Ultraboost 22", "Adidas", "Shoes", 17999, 2022))
    ensures IsValid(Sample("Levi's 501 Original Jeans", "Levi's", "Pants", 8999, 2022))
    ensures IsValid(Sample("Calvin Klein T-Shirt", "Calvin Klein", "Shirts", 2999, 2022))
    ensures IsValid(Sample("Tommy Hilfiger Polo", "Tommy Hilfiger", "Shirts", 5999, 2022))
    ensures IsValid(Sample("Nike Dri-FIT Shorts", "Nike", "Shorts", 3499, 2022))
    ensures IsValid(Sample("Adidas Track Jacket", "Adidas", "Jackets", 7999, 2022))
    ensures IsValid(Sample("Levi's Denim Jacket", "Levi's", "Jackets", 11999, 2022))
    ensures IsValid(Sample("Calvin Klein Underwear", "Calvin Klein", "Underwear", 2499, 2022))
    ensures IsValid(Sample("Tommy Hilfiger Sweater", "Tommy Hilfiger", "Sweaters", 8999, 2022))
  {
    LabelledValid("Nike Air Max 270", "Nike", "Shoes", 12999, 2022);
    LabelledValid("Adidas Ultraboost 22", "Adidas", "Shoes", 17999, 2022);
    LabelledValid("Levi's 501 Original Jeans", "Levi's", "Pants", 8999, 2022);
    LabelledValid("Calvin Klein T-Shirt", "Calvin Klein", "Shirts", 2999, 2022);
    LabelledValid("Tommy Hilfiger Polo", "Tommy Hilfiger", "Shirts", 5999, 2022);
    LabelledValid("Nike Dri-FIT Shorts", "Nike", "Shorts", 3499, 2022);
    LabelledValid("Adidas Track Jacket", "Adidas", "Jackets", 7999, 2022);
    LabelledValid("Levi's Denim Jacket", "Levi's", "Jackets", 11999, 2022);
    LabelledValid("Calvin Klein Underwear", "Calvin Klein", "Underwear", 2499, 2022);
    LabelledValid("Tommy Hilfiger Sweater", "Tommy Hilfiger", "Sweaters", 8999, 2022);
  }

  /** The first block of saves, the main sample set: ten items of 2022. */
  method SeedItems2022(store: Warehouse)
    requires store.Valid()
    modifies store, store.clock
    ensures store.Valid()
    ensures store.rows == AfterBlock2022(old(store.rows), old(store.nextId))
    ensures store.nextId == old(store.nextId) + 10
  {
    Block2022Valid();
    Seed(store, "Nike Air Max 270", "Nike", "Shoes", 12999, 2022);
    Seed(store, "Adidas Ultraboost 22", "Adidas", "Shoes", 17999, 2022);
    Seed(store, "Levi's 501 Original Jeans", "Levi's", "Pants", 8999, 2022);
    Seed(store, "Calvin Klein T-Shirt", "Calvin Klein", "Shirts", 2999, 2022);
    Seed(store, "Tommy Hilfiger Polo", "Tommy Hilfiger", "Shirts", 5999, 2022);
    Seed(store, "Nike Dri-FIT Shorts", "Nike", "Shorts", 3499, 2022);
    Seed(store, "Adidas Track Jacket", "Adidas", "Jackets", 7999, 2022);
    Seed(store, "Levi's Denim Jacket", "Levi's", "Jackets", 11999, 2022);
    Seed(store, "Calvin Klein Underwear", "Calvin Klein", "Underwear", 2499, 2022);
    Seed(store, "Tommy Hilfiger Sweater", "Tommy Hilfiger", "Sweaters", 8999, 2022);
  }

  /** The items of the 2021 block all pass validation. */
  lemma Block2021Valid()
    ensures IsValid(Sample("Nike Air Jordan 1", "Nike", "Shoes", 16999, 2021))
    ensures IsValid(Sample("Adidas Stan Smith", "Adidas", "Shoes", 8999, 2021))
    ensures IsValid(Sample("Levi's 511 Slim Jeans", "Levi's", "Pants", 7999, 2021))
    ensures IsValid(Sample("Calvin Klein Hoodie", "Calvin Klein", "Hoodies", 6999, 2021))
    ensures IsValid(Sample("Tommy Hilfiger Jeans", "Tommy Hilfiger", "Pants", 9999, 2021))
  {
    LabelledValid("Nike Air Jordan 1", "Nike", "Shoes", 16999, 2021);
    LabelledValid("Adidas Stan Smith", "Adidas", "Shoes", 8999, 2021);
    LabelledValid("Levi's 511 Slim Jeans", "Levi's", "Pants", 7999, 2021);
    LabelledValid("Calvin Klein Hoodie", "Calvin Klein", "Hoodies", 6999, 2021);
    LabelledValid("Tommy Hilfiger Jeans", "Tommy Hilfiger", "Pants", 9999, 2021);
  }

  /** The second block, items from other years: five of 2021. */
  method SeedItems2021(store: Warehouse)
    requires store.Valid()
    modifies store, store.clock
    ensures store.Valid()
    ensures store.rows == AfterBlock2021(old(store.rows), old(store.nextId))
    ensures store.nextId == old(store.nextId) + 5
  {
    Block2021Valid();
    Seed(store, "Nike Air Jordan 1", "Nike", "Shoes", 16999, 2021);
    Seed(store, "Adidas Stan Smith", "Adidas", "Shoes", 8999, 2021);
    Seed(store, "Levi's 511 Slim Jeans", "Levi's", "Pants", 7999, 2021);
    Seed(store, "Calvin Klein Hoodie", "Calvin Klein", "Hoodies", 6999, 2021);
    Seed(store, "Tommy Hilfiger Jeans", "Tommy Hilfiger", "Pants", 9999, 2021);
  }

  /** The items of the 2023 block all pass validation. */
  lemma Block2023Valid()
    ensures IsValid(Sample("Nike Air Force 1", "Nike", "Shoes", 10999, 2023))
    ensures IsValid(Sample("Adidas Gazelle", "Adidas", "Shoes", 8499, 2023))
    ensures IsValid(Sample("Levi's 721 High Rise", "Levi's", "Pants", 9499, 2023))
    ensures IsValid(Sample("Calvin Klein Dress", "Calvin Klein", "Dresses", 12999, 2023))
    ensures IsValid(Sample("Tommy Hilfiger Blazer", "Tommy Hilfiger", "Blazers", 19999, 2023))
  {
    LabelledValid("Nike Air Force 1", "Nike", "Shoes", 10999, 2023);
    LabelledValid("Adidas Gazelle", "Adidas", "Shoes", 8499, 2023);
    LabelledValid("Levi's 721 High Rise", "Levi's", "Pants", 9499, 2023);
    LabelledValid("Calvin Klein Dress", "Calvin Klein", "Dresses", 12999, 2023);
    LabelledValid("Tommy Hilfiger Blazer", "Tommy Hilfiger", "Blazers", 19999, 2023);
  }

  /** The third block: five items of 2023. */
  method SeedItems2023(store: Warehouse)
    requires store.Valid()
    modifies store, store.clock
    ensures store.Valid()
    ensures store.rows == AfterBlock2023(old(store.rows), old(store.nextId))
    ensures store.nextId == old(store.nextId) + 5
  {
    Block2023Valid();
    Seed(store, "Nike Air Force 1", "Nike", "Shoes", 10999, 2023);
    Seed(store, "Adidas Gazelle", "Adidas", "Shoes", 8499, 2023);
    Seed(store, "Levi's 721 High Rise", "Levi's", "Pants", 9499, 2023);
    Seed(store, "Calvin Klein Dress", "Calvin Klein", "Dresses", 12999, 2023);
    Seed(store, "Tommy Hilfiger Blazer", "Tommy Hilfiger", "Blazers", 19999, 2023);
  }

  /** `run`: an empty table receives the three blocks of samples; a
      table holding any row is left exactly as it was. */
  method Run(store: Warehouse)
    requires store.Valid()
    modifies store, store.clock
    ensures store.Valid()
    ensures store.rows == RunRows(old(store.rows))
    ensures old(store.rows) != [] ==> store.nextId == old(store.nextId) && store.stamps == old(store.stamps)
  {
    var n := store.Count();
    if n == 0 {
      SeedItems2022(store);
      SeedItems2021(store);
      SeedItems2023(store);
    }
  }
}
