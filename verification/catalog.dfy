/** The catalog of `getAvailableItemsByBrand`: over every center's items,
    the entries in stock (quantity above zero, with a name, a brand and a
    quantity) are summed per brand and item name, and their brands are
    collected in a sorted set. Sums are Java `int` sums and wrap at 32 bits. */
module Catalog {
  import opened Common
  import opened CenterData

  /** Java's `String.compareTo(a, b) < 0`: the first differing character
      decides, and a proper prefix comes first. */
  predicate LexLess(a: string, b: string)
  {
    if a == [] then b != []
    else if b == [] then false
    else if a[0] != b[0] then a[0] < b[0]
    else LexLess(a[1..], b[1..])
  }

  lemma {:induction false} LexLessIrreflexive(a: string)
    ensures !LexLess(a, a)
  {
    if a != [] {
      LexLessIrreflexive(a[1..]);
    }
  }

  lemma {:induction false} LexLessTransitive(a: string, b: string, c: string)
    requires LexLess(a, b) && LexLess(b, c)
    ensures LexLess(a, c)
  {
    if a != [] && b != [] && c != [] && a[0] == b[0] && b[0] == c[0] {
      LexLessTransitive(a[1..], b[1..], c[1..]);
    }
  }

  /** Two different strings are ordered one way or the other. */
  lemma {:induction false} LexLessTotal(a: string, b: string)
    requires a != b
    ensures LexLess(a, b) || LexLess(b, a)
  {
    if a != [] && b != [] && a[0] == b[0] {
      assert a == [a[0]] + a[1..] && b == [b[0]] + b[1..];
      LexLessTotal(a[1..], b[1..]);
    }
  }

  /** Strictly ascending: sorted and without duplicates, as a `TreeSet`
      iterates. */
  ghost predicate Sorted(s: seq<string>)
  {
    forall i, j :: 0 <= i < j < |s| ==> LexLess(s[i], s[j])
  }

  /** `TreeSet.add(x)` on the set's ascending contents. */
  function Insert(s: seq<string>, x: string): (r: seq<string>)
    requires Sorted(s)
    ensures Sorted(r)
    ensures forall y :: y in r <==> y in s || y == x
  {
    if s == [] then [x]
    else if x == s[0] then s
    else if LexLess(x, s[0]) then
      assert forall j :: 0 < j < |s| ==> LexLess(x, s[j]) by {
        forall j | 0 < j < |s| ensures LexLess(x, s[j]) {
          LexLessTransitive(x, s[0], s[j]);
        }
      }
      [x] + s
    else
      var t := Insert(s[1..], x);
      assert forall y :: y in t ==> LexLess(s[0], y) by {
        LexLessTotal(x, s[0]);
      }
      [s[0]] + t
  }

  /** Entries the aggregation counts: name, brand and quantity present and
      the quantity above zero. */
  predicate InStock(e: CenterItem)
  {
    e.name.Some? && e.brand.Some? && e.quantity.Some? && e.quantity.value > 0
  }

  /** What entry `e` adds to the sum of (brand, name). */
  function Contribution(e: CenterItem, brand: string, name: string): nat
  {
    if InStock(e) && e.brand.value == brand && e.name.value == name then e.quantity.value else 0
  }

  /** The true sum of in-stock quantities of (brand, name) over `es`. */
  function TotalIn(es: seq<CenterItem>, brand: string, name: string): nat
  {
    if es == [] then 0
    else TotalIn(es[..|es| - 1], brand, name) + Contribution(es[|es| - 1], brand, name)
  }

  /** The entries of a center's `items` array; none without an array. */
  function ItemsOf(c: CenterNode): seq<CenterItem>
  {
    if c.items.Some? then c.items.value else []
  }

  /** Every center's entries, centers in response order. */
  function Entries(centers: seq<CenterNode>): seq<CenterItem>
  {
    if centers == [] then []
    else Entries(centers[..|centers| - 1]) + ItemsOf(centers[|centers| - 1])
  }

  lemma EntriesSnoc(centers: seq<CenterNode>, i: nat)
    requires i < |centers|
    ensures Entries(centers[..i + 1]) == Entries(centers[..i]) + ItemsOf(centers[i])
  {
    assert centers[..i + 1][..i] == centers[..i];
  }

  /** The true sum of in-stock quantities of (brand, name) over all centers. */
  function Total(centers: seq<CenterNode>, brand: string, name: string): nat
  {
    TotalIn(Entries(centers), brand, name)
  }

  /** A sum stays zero exactly while no in-stock entry of the pair has been
      seen: every counted quantity is positive. */
  lemma {:induction false} TotalPositiveIff(es: seq<CenterItem>, brand: string, name: string)
    ensures TotalIn(es, brand, name) > 0 <==>
      exists i :: 0 <= i < |es| && Contribution(es[i], brand, name) > 0
  {
    if es != [] {
      var last := |es| - 1;
      TotalPositiveIff(es[..last], brand, name);
      if TotalIn(es, brand, name) > 0 && Contribution(es[last], brand, name) == 0 {
        var i :| 0 <= i < last && Contribution(es[..last][i], brand, name) > 0;
        assert es[i] == es[..last][i];
      }
      if exists i :: 0 <= i < |es| && Contribution(es[i], brand, name) > 0 {
        var i :| 0 <= i < |es| && Contribution(es[i], brand, name) > 0;
        if i < last {
          assert es[..last][i] == es[i];
        }
      }
    }
  }

  /** `brandItemMap.computeIfAbsent(brand, ...)` followed by
      `.get(brand).merge(name, quantity, Integer::sum)`. */
  function Merged(m: map<string, map<string, Int32>>, brand: string, name: string, q: Int32): map<string, map<string, Int32>>
  {
    var inner := if brand in m then m[brand] else map[];
    m[brand := if name in inner then inner[name := AddInt32(inner[name], q)] else inner[name := q]]
  }

  /** The aggregation's state after the entries `es`: an item name is listed
      under a brand exactly when the pair has stock, with the 32-bit sum of
      its quantities; no brand is listed without an item; and `brands` holds
      the listed brands in ascending order. */
  ghost predicate Tallies(m: map<string, map<string, Int32>>, brands: seq<string>, es: seq<CenterItem>)
  {
    && (forall b, n :: b in m && n in m[b] ==> TotalIn(es, b, n) > 0 && m[b][n] == Wrap32(TotalIn(es, b, n)))
    && (forall b, n :: TotalIn(es, b, n) > 0 ==> b in m && n in m[b])
    && (forall b :: b in m ==> m[b] != map[])
    && Sorted(brands)
    && (forall b :: b in brands <==> b in m)
  }

  /** Nothing seen, nothing listed. */
  lemma TalliesEmpty()
    ensures Tallies(map[], [], [])
  {
  }

  /** An entry out of stock, or lacking a field, changes nothing. */
  lemma TallySkip(m: map<string, map<string, Int32>>, brands: seq<string>, es: seq<CenterItem>, e: CenterItem)
    requires Tallies(m, brands, es)
    requires !InStock(e)
    ensures Tallies(m, brands, es + [e])
  {
    assert (es + [e])[..|es|] == es;
  }

  /** Appending an entry adds its contribution to every pair's sum. */
  lemma TotalAppend(es: seq<CenterItem>, e: CenterItem, brand: string, name: string)
    ensures TotalIn(es + [e], brand, name) == TotalIn(es, brand, name) + Contribution(e, brand, name)
  {
    assert (es + [e])[..|es|] == es;
  }

  /** The merge touches only the pair (b0, n0): it adds that pair, under its
      brand, when absent, and otherwise adds `q` to its count. */
  lemma MergedAt(m: map<string, map<string, Int32>>, b0: string, n0: string, q: Int32, b: string, n: string)
    ensures var m' := Merged(m, b0, n0, q);
      && (b in m' <==> b in m || b == b0)
      && (b in m' && n in m'[b] <==> (b in m && n in m[b]) || (b == b0 && n == n0))
      && ((b, n) != (b0, n0) && b in m && n in m[b] ==> m'[b][n] == m[b][n])
      && (b == b0 && n == n0 ==>
            m'[b][n] == if b in m && n in m[b] then AddInt32(m[b][n], q) else q)
  {
  }

  /** One pair's entry after an in-stock entry: listed exactly when its sum
      is positive, with the 32-bit sum. */
  lemma CountAt(m: map<string, map<string, Int32>>, es: seq<CenterItem>, e: CenterItem, b: string, n: string)
    requires InStock(e)
    requires b in m && n in m[b] <==> TotalIn(es, b, n) > 0
    requires b in m && n in m[b] ==> m[b][n] == Wrap32(TotalIn(es, b, n))
    ensures var m' := Merged(m, e.brand.value, e.name.value, e.quantity.value);
      && (b in m' && n in m'[b] <==> TotalIn(es + [e], b, n) > 0)
      && (b in m' && n in m'[b] ==> m'[b][n] == Wrap32(TotalIn(es + [e], b, n)))
  {
    var b0, n0, q := e.brand.value, e.name.value, e.quantity.value;
    MergedAt(m, b0, n0, q, b, n);
    TotalAppend(es, e, b, n);
    if b == b0 && n == n0 && b0 in m && n0 in m[b0] {
      WrapAddAssoc(TotalIn(es, b0, n0), q);
    }
  }

  /** An in-stock entry adds its quantity to its own pair, lists its brand,
      and leaves every other pair as it was. */
  lemma TallyCount(m: map<string, map<string, Int32>>, brands: seq<string>, es: seq<CenterItem>, e: CenterItem)
    requires Tallies(m, brands, es)
    requires InStock(e)
    ensures Tallies(Merged(m, e.brand.value, e.name.value, e.quantity.value),
                    Insert(brands, e.brand.value), es + [e])
  {
    var b0, n0, q := e.brand.value, e.name.value, e.quantity.value;
    var m' := Merged(m, b0, n0, q);
    forall b, n
      ensures b in m' && n in m'[b] <==> TotalIn(es + [e], b, n) > 0
      ensures b in m' && n in m'[b] ==> m'[b][n] == Wrap32(TotalIn(es + [e], b, n))
    {
      CountAt(m, es, e, b, n);
    }
    forall b | b in m'
      ensures m'[b] != map[]
    {
      MergedAt(m, b0, n0, q, b, n0);
      if b != b0 {
        var n :| n in m[b];
        MergedAt(m, b0, n0, q, b, n);
      }
    }
    forall b
      ensures b in Insert(brands, b0) <==> b in m'
    {
      MergedAt(m, b0, n0, q, b, n0);
    }
  }

  /** In a catalog built from `es`, an item name is listed under a brand
      exactly when some in-stock entry carries that brand and name. */
  lemma ListedIffInStock(m: map<string, map<string, Int32>>, brands: seq<string>, es: seq<CenterItem>,
                         b: string, n: string)
    requires Tallies(m, brands, es)
    ensures b in m && n in m[b] <==>
      exists i :: 0 <= i < |es| && InStock(es[i]) && es[i].brand.value == b && es[i].name.value == n
  {
    TotalPositiveIff(es, b, n);
    if exists i :: 0 <= i < |es| && InStock(es[i]) && es[i].brand.value == b && es[i].name.value == n {
      var i :| 0 <= i < |es| && InStock(es[i]) && es[i].brand.value == b && es[i].name.value == n;
      assert Contribution(es[i], b, n) > 0;
    }
  }

  /** A brand appears in `brands` exactly when some in-stock entry carries
      it. */
  lemma BrandListedIffInStock(m: map<string, map<string, Int32>>, brands: seq<string>, es: seq<CenterItem>,
                              b: string)
    requires Tallies(m, brands, es)
    ensures b in brands <==> exists i :: 0 <= i < |es| && InStock(es[i]) && es[i].brand.value == b
  {
    if b in brands {
      var n :| n in m[b];
      ListedIffInStock(m, brands, es, b, n);
    }
    if exists i :: 0 <= i < |es| && InStock(es[i]) && es[i].brand.value == b {
      var i :| 0 <= i < |es| && InStock(es[i]) && es[i].brand.value == b;
      ListedIffInStock(m, brands, es, b, es[i].name.value);
    }
  }

  /** The finished catalog, or Java's empty map when the listing could not
      be read. */
  datatype CatalogResult =
    | Available(brands: seq<string>, itemsByBrand: map<string, map<string, Int32>>)
    | Unavailable

  /** `getAvailableItemsByBrand`: anything but status 200 gives the empty
      result; otherwise every item name is listed under its brand exactly
      when the pair has stock somewhere, with the 32-bit sum of its
      in-stock quantities over all centers, and `brands` is the ascending
      list of the listed brands. */
  method GetAvailableItemsByBrand(response: Fetch<seq<CenterNode>>) returns (r: CatalogResult)
    ensures !response.FetchOk? <==> r.Unavailable?
    ensures r.Available? ==> Tallies(r.itemsByBrand, r.brands, Entries(response.body))
  {
    if !response.FetchOk? {
      return Unavailable;
    }
    var centers := response.body;
    var byBrand: map<string, map<string, Int32>> := map[];
    var brands: seq<string> := [];
    TalliesEmpty();
    ghost var done: seq<CenterItem> := [];
    var i := 0;
    while i < |centers|
      invariant 0 <= i <= |centers|
      invariant done == Entries(centers[..i])
      invariant Tallies(byBrand, brands, done)
    {
      EntriesSnoc(centers, i);
      if centers[i].items.Some? {
        byBrand, brands := TallyCenter(byBrand, brands, centers[i].items.value, done);
        done := done + centers[i].items.value;
      } else {
        assert done + ItemsOf(centers[i]) == done;
      }
      i := i + 1;
    }
    assert centers[..i] == centers;
    r := Available(brands, byBrand);
  }

  /** The inner loop of the aggregation: one center's `items` array merged
      into the catalog built from the entries `seen` before it. */
  method TallyCenter(m: map<string, map<string, Int32>>, brands: seq<string>, es: seq<CenterItem>,
                     ghost seen: seq<CenterItem>)
    returns (m': map<string, map<string, Int32>>, brands': seq<string>)
    requires Tallies(m, brands, seen)
    ensures Tallies(m', brands', seen + es)
  {
    m', brands' := m, brands;
    ghost var done := seen;
    var j := 0;
    while j < |es|
      invariant 0 <= j <= |es|
      invariant done == seen + es[..j]
      invariant Tallies(m', brands', done)
    {
      var e := es[j];
      if e.name.Some? && e.brand.Some? && e.quantity.Some? {
        var quantity := e.quantity.value;
        if quantity > 0 {
          TallyCount(m', brands', done, e);
          brands' := Insert(brands', e.brand.value);
          m' := Merged(m', e.brand.value, e.name.value, quantity);
        } else {
          TallySkip(m', brands', done, e);
        }
      } else {
        TallySkip(m', brands', done, e);
      }
      done := done + [e];
      assert es[..j + 1] == es[..j] + [e];
      j := j + 1;
    }
    assert es[..j] == es;
  }
}
