/** Stock reconciliation: merging a fulfilled request into the warehouse
    table by create-or-increment on the exact (brand, name) pair, as
    `addItemsToWarehouse` (any quantity, attributes taken from the center's
    response) and `addItemToWarehouse` (one unit, fixed attributes) do it.
    Every exception the Java code catches becomes a `false` result with
    the table left as it was. */
module Reconciler {
  import opened Common
  import opened ItemEntity
  import opened ItemStore
  import opened CenterData

  /** The attributes a newly created record gets; `price` in cents. */
  datatype Attributes = Attributes(category: string, price: int, year: Int32)

  /** The quantity path's fallback: "Unknown", 1.00 and 2023. */
  const DefaultAttributes: Attributes := Attributes("Unknown", 100, 2023)

  /** The single-unit path's fixed attributes: "Unknown", 0.00 and 2023. */
  const UnitAttributes: Attributes := Attributes("Unknown", 0, 2023)

  predicate ExactMatch(e: CenterItem, brand: string, name: string)
  {
    e.brand == Some(brand) && e.name == Some(name)
  }

  /** An entry at which the attribute scan throws before it can match:
      `brand` is missing, or the brand is equal and `name` is missing. */
  predicate ScanThrows(e: CenterItem, brand: string, name: string)
  {
    e.brand.None? || (e.brand == Some(brand) && e.name.None?)
  }

  predicate StopsScan(e: CenterItem, brand: string, name: string)
  {
    ExactMatch(e, brand, name) || ScanThrows(e, brand, name)
  }

  /** The position of the first entry at which the attribute scan stops. */
  function ScanStop(items: seq<CenterItem>, brand: string, name: string): (r: Option<nat>)
    ensures r.None? <==> forall i :: 0 <= i < |items| ==> !StopsScan(items[i], brand, name)
    ensures r.Some? ==> r.value < |items| && StopsScan(items[r.value], brand, name)
    ensures r.Some? ==> forall i :: 0 <= i < r.value ==> !StopsScan(items[i], brand, name)
  {
    if items == [] then None
    else if StopsScan(items[0], brand, name) then Some(0)
    else match ScanStop(items[1..], brand, name)
      case None => None
      case Some(j) => Some(j + 1)
  }

  /** The attributes the quantity path gives a new record, `None` when
      reading the snapshot throws. The scan stops at the first entry that
      either matches (brand, name) exactly or lacks a field it reads; a
      match lacking category, price or year throws as well. Without an
      `items` array, or without a match, the defaults apply. */
  function Resolve(items: Option<seq<CenterItem>>, brand: string, name: string): Option<Attributes>
  {
    if items.None? then Some(DefaultAttributes)
    else match ScanStop(items.value, brand, name)
      case None => Some(DefaultAttributes)
      case Some(k) =>
        var e := items.value[k];
        if ScanThrows(e, brand, name) then None
        else if e.category.Some? && e.price.Some? && e.year.Some? then
          Some(Attributes(e.category.value, e.price.value, e.year.value))
        else None
  }

  /** `k` is the first entry of `items` with exactly this (brand, name). */
  predicate FirstExact(items: seq<CenterItem>, k: int, brand: string, name: string)
  {
    && 0 <= k < |items|
    && ExactMatch(items[k], brand, name)
    && forall i :: 0 <= i < k ==> !ExactMatch(items[i], brand, name)
  }

  /** On a snapshot whose entries carry every field, the new record takes
      category, price and year from the first entry with exactly this
      (brand, name), and the defaults when there is none. */
  lemma ResolveWellFormed(items: seq<CenterItem>, brand: string, name: string)
    requires forall i :: 0 <= i < |items| ==>
      items[i].brand.Some? && items[i].name.Some? && items[i].category.Some? &&
      items[i].price.Some? && items[i].year.Some?
    ensures (forall i :: 0 <= i < |items| ==> !ExactMatch(items[i], brand, name))
      ==> Resolve(Some(items), brand, name) == Some(DefaultAttributes)
    ensures forall k :: FirstExact(items, k, brand, name) ==>
      Resolve(Some(items), brand, name) ==
        Some(Attributes(items[k].category.value, items[k].price.value, items[k].year.value))
  {
    var f := ScanStop(items, brand, name);
    if f.Some? {
      assert ExactMatch(items[f.value], brand, name);
      forall k | FirstExact(items, k, brand, name)
        ensures k == f.value
      {
        assert StopsScan(items[k], brand, name);
      }
    }
  }

  /** The attribute lookup of `addItemsToWarehouse`: a loop over the
      center's items that breaks at the first exact (brand, name) match. */
  method ResolveAttributes(center: CenterNode, brand: string, name: string) returns (attrs: Option<Attributes>)
    ensures attrs == Resolve(center.items, brand, name)
  {
    var category, price, year := "Unknown", 100, 2023;
    if center.items.Some? {
      var es := center.items.value;
      var i := 0;
      while i < |es|
        invariant 0 <= i <= |es|
        invariant forall j :: 0 <= j < i ==> !StopsScan(es[j], brand, name)
        invariant category == "Unknown" && price == 100 && year == 2023
      {
        var e := es[i];
        if e.brand.None? {
          return None;
        }
        if e.brand.value == brand {
          if e.name.None? {
            return None;
          }
          if e.name.value == name {
            if e.category.None? || e.price.None? || e.year.None? {
              return None;
            }
            category, price, year := e.category.value, e.price.value, e.year.value;
            break;
          }
        }
        i := i + 1;
      }
    }
    attrs := Some(Attributes(category, price, year));
  }

  /** The fields of a record created for (brand, name). */
  function NewItemData(brand: string, name: string, a: Attributes, quantity: Option<Int32>): ItemData
  {
    ItemData(Some(name), Some(brand), Some(a.category), Some(a.price), Some(a.year), quantity)
  }

  /** Create-or-increment on the table. With a row for (brand, name), the
      first such row's quantity becomes `quantity` more (Java `int`
      addition; a null on either side throws); without one, a record is
      created from `attrs` (none: the attribute lookup threw). The save
      refuses either outcome when it breaks the validation constraints. */
  function Reconciled(rows: seq<Row>, nextId: int, brand: string, name: string,
                      quantity: Option<Int32>, attrs: Option<Attributes>): (r: Saved)
    ensures !r.ok ==> r.rows == rows && r.nextId == nextId

  {
    match FirstMatch(rows, brand, name)
    case Some(k) =>
      var d := rows[k].data;
      if d.quantity.None? || quantity.None? then Saved(false, rows, nextId)
      else SaveRows(rows, nextId, Some(rows[k].id),
                    d.(quantity := Some(AddInt32(d.quantity.value, quantity.value))))
    case None =>
      if attrs.None? then Saved(false, rows, nextId)
      else SaveRows(rows, nextId, None, NewItemData(brand, name, attrs.value, quantity))
  }

  /** Generated ids of the table are pairwise distinct. */
  ghost predicate DistinctIds(rows: seq<Row>)
  {
    forall i, j :: 0 <= i < j < |rows| ==> rows[i].id != rows[j].id
  }

  /** Every generated id of the table is below the next one. */
  ghost predicate IdsBelow(rows: seq<Row>, nextId: int)
  {
    forall i :: 0 <= i < |rows| ==> rows[i].id < nextId
  }

  /** No other row carries row `k`'s id. */
  ghost predicate UniqueIdAt(rows: seq<Row>, k: nat)
  {
    k < |rows| && forall i :: 0 <= i < |rows| && i != k ==> rows[i].id != rows[k].id
  }

  /** A save of row `k`'s own id merges into row `k` when no other row
      carries that id. */
  lemma IdIndexOfRow(rows: seq<Row>, k: nat)
    requires UniqueIdAt(rows, k)
    ensures SaveTarget(rows, Some(rows[k].id)) == Some(k)
  {
    var r := IdIndex(rows, rows[k].id);
    assert r.Some?;
  }

  /** Reconciliation touches at most one row: with a row for (brand, name)
      only the first such row may change, and only in its quantity;
      without one, at most the new record is appended. */
  lemma ReconciledShape(rows: seq<Row>, nextId: int, brand: string, name: string,
                        quantity: Option<Int32>, attrs: Option<Attributes>)
    requires DistinctIds(rows)
    ensures var r := Reconciled(rows, nextId, brand, name, quantity, attrs);
      match FirstMatch(rows, brand, name)
      case Some(k) =>
        && r.nextId == nextId
        && |r.rows| == |rows|
        && (forall i :: 0 <= i < |rows| && i != k ==> r.rows[i] == rows[i])
        && r.rows[k] == Row(rows[k].id, rows[k].data.(quantity := r.rows[k].data.quantity))
      case None =>
        && (r.rows == rows || (attrs.Some? && r.rows == rows + [Row(nextId, NewItemData(brand, name, attrs.value, quantity))]))
        && (r.rows == rows <==> !r.ok)
  {
    match FirstMatch(rows, brand, name)
    case Some(k) =>
      assert UniqueIdAt(rows, k);
      IdIndexOfRow(rows, k);
    case None =>
      if attrs.Some? {
        assert |rows + [Row(nextId, NewItemData(brand, name, attrs.value, quantity))]| != |rows|;
      }
  }

  /** Reconciliation keeps the table's invariants: every row satisfies the
      validation constraints, ids stay distinct and below the next one. */
  lemma ReconcilePreservesInvariants(rows: seq<Row>, nextId: int, brand: string, name: string,
                                     quantity: Option<Int32>, attrs: Option<Attributes>)
    requires AllValid(rows) && DistinctIds(rows) && IdsBelow(rows, nextId)
    ensures var r := Reconciled(rows, nextId, brand, name, quantity, attrs);
      AllValid(r.rows) && DistinctIds(r.rows) && IdsBelow(r.rows, r.nextId) && r.nextId >= nextId
  {
    var r := Reconciled(rows, nextId, brand, name, quantity, attrs);
    ReconciledShape(rows, nextId, brand, name, quantity, attrs);
    match FirstMatch(rows, brand, name)
    case Some(k) =>
      var d := rows[k].data;
      if d.quantity.Some? && quantity.Some? {
        var d' := d.(quantity := Some(AddInt32(d.quantity.value, quantity.value)));
        SavePreservesValidity(rows, nextId, Some(rows[k].id), d');
        assert r == SaveRows(rows, nextId, Some(rows[k].id), d');
      }
      assert forall i :: 0 <= i < |rows| ==> r.rows[i].id == rows[i].id;
    case None =>
      if attrs.Some? {
        var d := NewItemData(brand, name, attrs.value, quantity);
        SavePreservesValidity(rows, nextId, None, d);
        assert r == SaveRows(rows, nextId, None, d);
      }
  }

  /** Increment path: when the table holds (brand, name), the first such
      row's quantity grows by exactly `quantity` as long as the sum stays
      within `int`; no record is created and no other row changes. */
  lemma IncrementFirstMatch(rows: seq<Row>, nextId: int, brand: string, name: string,
                            quantity: Int32, attrs: Option<Attributes>)
    requires FirstMatch(rows, brand, name).Some?
    requires var k := FirstMatch(rows, brand, name).value;
      IsValid(rows[k].data) && UniqueIdAt(rows, k)
    requires var k := FirstMatch(rows, brand, name).value;
      0 <= rows[k].data.quantity.value + quantity <= MaxInt32
    ensures var k := FirstMatch(rows, brand, name).value;
      Reconciled(rows, nextId, brand, name, Some(quantity), attrs) ==
        Saved(true, rows[k := Row(rows[k].id, rows[k].data.(quantity := Some(rows[k].data.quantity.value + quantity)))], nextId)
  {
    var k := FirstMatch(rows, brand, name).value;
    var q := rows[k].data.quantity.value;
    IncrementIsSave(rows, nextId, brand, name, quantity, attrs);
    assert AddInt32(q, quantity) == q + quantity;
    UpdateSaved(rows, nextId, k, rows[k].data.(quantity := Some(q + quantity)));
  }

  /** Saving row `k`'s own id with valid fields writes those fields over
      row `k` and succeeds. */
  lemma UpdateSaved(rows: seq<Row>, nextId: int, k: nat, d: ItemData)
    requires UniqueIdAt(rows, k) && IsValid(d)
    ensures SaveRows(rows, nextId, Some(rows[k].id), d) == Saved(true, rows[k := Row(rows[k].id, d)], nextId)
  {
    IdIndexOfRow(rows, k);
    if rows[k].data == d {
      assert rows[k := Row(rows[k].id, d)] == rows;
    }
  }

  /** An increment that would leave the quantity negative, by a negative
      amount or by overflowing `int`, is refused by the save. */
  lemma IncrementOverflowRefused(rows: seq<Row>, nextId: int, brand: string, name: string,
                                 quantity: Int32, attrs: Option<Attributes>)
    requires FirstMatch(rows, brand, name).Some?
    requires var k := FirstMatch(rows, brand, name).value;
      IsValid(rows[k].data) && UniqueIdAt(rows, k)
    requires var k := FirstMatch(rows, brand, name).value;
      rows[k].data.quantity.value + quantity < 0 || rows[k].data.quantity.value + quantity > MaxInt32
    ensures var r := Reconciled(rows, nextId, brand, name, Some(quantity), attrs);
      !r.ok && r.rows == rows
  {
    var k := FirstMatch(rows, brand, name).value;
    IdIndexOfRow(rows, k);
  }

  /** Create path: when no row holds (brand, name), exactly one record is
      appended, with that name and brand, the resolved attributes and the
      requested quantity, provided those satisfy the validation constraints;
      otherwise nothing is stored. */
  lemma CreateWhenAbsent(rows: seq<Row>, nextId: int, brand: string, name: string,
                         quantity: Option<Int32>, a: Attributes)
    requires FirstMatch(rows, brand, name).None?
    ensures var r := Reconciled(rows, nextId, brand, name, quantity, Some(a));
      var d := NewItemData(brand, name, a, quantity);
      && (r.ok <==> IsValid(d))
      && (r.ok ==> r.rows == rows + [Row(nextId, d)] && r.nextId == nextId + 1)
      && (!r.ok ==> r.rows == rows && r.nextId == nextId)
  {
    assert SaveTarget(rows, None) == None;
  }

  /** The single-unit create branch as written never stores anything: its
      price of 0.00 breaks `@Positive`, so the insert is refused and a pair
      the table lacks stays absent however often it is requested. */
  lemma UnitCreateAlwaysRefused(rows: seq<Row>, nextId: int, brand: string, name: string)
    requires FirstMatch(rows, brand, name).None?
    ensures var r := Reconciled(rows, nextId, brand, name, Some(1), Some(UnitAttributes));
      !r.ok && r.rows == rows && r.nextId == nextId
  {
    CreateWhenAbsent(rows, nextId, brand, name, Some(1), UnitAttributes);
    assert !IsValid(NewItemData(brand, name, UnitAttributes, Some(1)));
  }

  /** With the quantity path's default price of 1.00, the single-unit create
      stores exactly one new record, holding one unit, for every non-blank
      brand and name. */
  lemma CorrectedUnitCreate(rows: seq<Row>, nextId: int, brand: string, name: string)
    requires FirstMatch(rows, brand, name).None?
    requires !IsBlank(Some(brand)) && !IsBlank(Some(name))
    ensures var r := Reconciled(rows, nextId, brand, name, Some(1), Some(DefaultAttributes));
      && r.ok
      && r.rows == rows + [Row(nextId, NewItemData(brand, name, DefaultAttributes, Some(1)))]
      && r.nextId == nextId + 1
  {
    CreateWhenAbsent(rows, nextId, brand, name, Some(1), DefaultAttributes);
    assert !IsBlank(Some(DefaultAttributes.category)) by {
      assert DefaultAttributes.category[0] > ' ';
    }
  }

  /** Appending a row adds one to its pair's count and nothing to the others. */
  lemma CountAfterAppend(rows: seq<Row>, r: Row, b: string, n: string)
    ensures CountMatches(rows + [r], b, n) == CountMatches(rows, b, n) + (if Matches(r, b, n) then 1 else 0)
  {
    assert (rows + [r])[..|rows|] == rows;
  }

  /** Replacing a row by one with the same brand and name keeps the number
      of rows every pair has. */
  lemma {:induction false} UpdateKeepsMatches(rows: seq<Row>, k: nat, d: ItemData, b: string, n: string)
    requires k < |rows|
    requires d.brand == rows[k].data.brand && d.name == rows[k].data.name
    ensures CountMatches(rows[k := Row(rows[k].id, d)], b, n) == CountMatches(rows, b, n)
  {
    var rows' := rows[k := Row(rows[k].id, d)];
    if |rows| > 0 {
      var last := |rows| - 1;
      if k < last {
        assert rows'[..last] == rows[..last][k := Row(rows[k].id, d)];
        UpdateKeepsMatches(rows[..last], k, d, b, n);
      } else {
        assert rows'[..last] == rows[..last];
      }
    }
  }

  /** Reconciliation keeps the canonical-record rule: a pair that has at
      most one row keeps at most one (an absent pair gets at most its one
      new record), and every other pair keeps exactly as many rows as it
      had. */
  lemma ReconcileKeepsPairCounts(rows: seq<Row>, nextId: int, brand: string, name: string,
                                 quantity: Option<Int32>, attrs: Option<Attributes>,
                                 b: string, n: string)
    requires DistinctIds(rows)
    ensures var r := Reconciled(rows, nextId, brand, name, quantity, attrs);
      && (CountMatches(rows, brand, name) <= 1 ==> CountMatches(r.rows, brand, name) <= 1)
      && ((b, n) != (brand, name) ==> CountMatches(r.rows, b, n) == CountMatches(rows, b, n))
  {
    match FirstMatch(rows, brand, name)
    case Some(k) =>
      IncrementKeepsPairCounts(rows, nextId, brand, name, quantity, attrs, k, brand, name);
      IncrementKeepsPairCounts(rows, nextId, brand, name, quantity, attrs, k, b, n);
    case None =>
      CreateKeepsPairCounts(rows, nextId, brand, name, quantity, attrs, b, n);
  }

  /** The increment branch rewrites one row in place and keeps every count. */
  lemma IncrementKeepsPairCounts(rows: seq<Row>, nextId: int, brand: string, name: string,
                                 quantity: Option<Int32>, attrs: Option<Attributes>, k: nat,
                                 b: string, n: string)
    requires DistinctIds(rows) && FirstMatch(rows, brand, name) == Some(k)
    ensures var r := Reconciled(rows, nextId, brand, name, quantity, attrs);
      CountMatches(r.rows, b, n) == CountMatches(rows, b, n)
  {
    IncrementRows(rows, nextId, brand, name, quantity, attrs, k);
    var d := rows[k].data;
    if d.quantity.Some? && quantity.Some? {
      UpdateKeepsMatches(rows, k, d.(quantity := Some(AddInt32(d.quantity.value, quantity.value))), b, n);
    }
  }

  /** The increment branch leaves the table as it was or writes the raised
      quantity over the first matching row. */
  lemma IncrementRows(rows: seq<Row>, nextId: int, brand: string, name: string,
                      quantity: Option<Int32>, attrs: Option<Attributes>, k: nat)
    requires DistinctIds(rows) && FirstMatch(rows, brand, name) == Some(k)
    ensures var r := Reconciled(rows, nextId, brand, name, quantity, attrs);
      var d := rows[k].data;
      || r.rows == rows
      || (&& d.quantity.Some? && quantity.Some?
          && r.rows == rows[k := Row(rows[k].id, d.(quantity := Some(AddInt32(d.quantity.value, quantity.value))))])
  {
    var d := rows[k].data;
    if d.quantity.Some? && quantity.Some? {
      var d' := d.(quantity := Some(AddInt32(d.quantity.value, quantity.value)));
      assert UniqueIdAt(rows, k);
      IdIndexOfRow(rows, k);
      assert Reconciled(rows, nextId, brand, name, quantity, attrs) == SaveRows(rows, nextId, Some(rows[k].id), d');
    }
  }

  /** The create branch appends at most the one new record of the pair. */
  lemma CreateKeepsPairCounts(rows: seq<Row>, nextId: int, brand: string, name: string,
                              quantity: Option<Int32>, attrs: Option<Attributes>, b: string, n: string)
    requires FirstMatch(rows, brand, name) == None
    ensures var r := Reconciled(rows, nextId, brand, name, quantity, attrs);
      && CountMatches(r.rows, brand, name) <= 1
      && ((b, n) != (brand, name) ==> CountMatches(r.rows, b, n) == CountMatches(rows, b, n))
  {
    FirstOfMatches(rows, brand, name);
    if attrs.Some? {
      var row := Row(nextId, NewItemData(brand, name, attrs.value, quantity));
      CountAfterAppend(rows, row, brand, name);
      CountAfterAppend(rows, row, b, n);
      var r := Reconciled(rows, nextId, brand, name, quantity, attrs);
      assert r == SaveRows(rows, nextId, None, row.data);
      assert r.rows == rows || r.rows == rows + [row];
    }
  }

  /** A record appended for an absent pair becomes that pair's first row. */
  lemma FirstMatchAfterAppend(rows: seq<Row>, r: Row, b: string, n: string)
    requires FirstMatch(rows, b, n).None? && Matches(r, b, n)
    ensures FirstMatch(rows + [r], b, n) == Some(|rows|)
  {
    assert forall i :: 0 <= i < |rows| ==> (rows + [r])[i] == rows[i];
    assert (rows + [r])[|rows|] == r;
  }

  /** Two successive one-unit reconciliations of a pair the table lacks, with
      valid attributes, leave a single new record holding two units. */
  lemma TwoUnitsOnAbsent(rows: seq<Row>, nextId: int, brand: string, name: string, a: Attributes)
    requires AllValid(rows) && DistinctIds(rows) && IdsBelow(rows, nextId)
    requires FirstMatch(rows, brand, name).None?
    requires IsValid(NewItemData(brand, name, a, Some(1)))
    ensures var r1 := Reconciled(rows, nextId, brand, name, Some(1), Some(a));
      var r2 := Reconciled(r1.rows, r1.nextId, brand, name, Some(1), Some(a));
      && r1.ok && r2.ok
      && r2.rows == rows + [Row(nextId, NewItemData(brand, name, a, Some(2)))]
  {
    var r1 := Reconciled(rows, nextId, brand, name, Some(1), Some(a));
    ReconcilePreservesInvariants(rows, nextId, brand, name, Some(1), Some(a));
    CreateWhenAbsent(rows, nextId, brand, name, Some(1), a);
    var row := Row(nextId, NewItemData(brand, name, a, Some(1)));
    FirstMatchAfterAppend(rows, row, brand, name);
    IncrementFirstMatch(r1.rows, r1.nextId, brand, name, 1, Some(a));
    assert (rows + [row])[|rows| := Row(nextId, NewItemData(brand, name, a, Some(2)))]
        == rows + [Row(nextId, NewItemData(brand, name, a, Some(2)))];
  }

  /** How the ghost timestamps move under reconciliation: the incremented
      record keeps `createdAt` and gets a strictly later `updatedAt` when it
      is written; every other record keeps both; a created record is
      appended. */
  ghost predicate StampsEvolve(s0: seq<Stamp>, s1: seq<Stamp>, r0: seq<Row>, r1: seq<Row>,
                               brand: string, name: string)
  {
    match FirstMatch(r0, brand, name)
    case Some(k) =>
      && |s1| == |s0| && k < |s0|
      && (forall j :: 0 <= j < |s0| && j != k ==> s1[j] == s0[j])
      && s1[k].createdAt == s0[k].createdAt
      && (r1 != r0 ==> s1[k].updatedAt > s0[k].updatedAt)
      && (r1 == r0 ==> s1[k] == s0[k])
    case None =>
      && |s1| == |s0| + (if r1 == r0 then 0 else 1)
      && s1[..|s0|] == s0
  }

  /** `addItemsToWarehouse(brand, name, quantity, centerResponse)`. */
  method AddItemsToWarehouse(store: Warehouse, brand: string, name: string,
                             quantity: Option<Int32>, center: CenterNode) returns (ok: bool)
    requires store.Valid()
    modifies store, store.clock
    ensures store.Valid()
    ensures Saved(ok, store.rows, store.nextId) ==
      Reconciled(old(store.rows), old(store.nextId), brand, name, quantity, Resolve(center.items, brand, name))
    ensures StampsEvolve(old(store.stamps), store.stamps, old(store.rows), store.rows, brand, name)
  {
    var existing := FindFirst(store, brand, name);
    if existing.Some? {
      ok := Increment(store, existing.value, brand, name, quantity, Resolve(center.items, brand, name));
    } else {
      ok := CreateFromSnapshot(store, brand, name, quantity, center);
    }
  }

  /** `findByBrandAndName(brand, name).stream().findFirst()`: a fresh copy
      of the first record of the pair, or none when the table has no record
      of it. */
  method FindFirst(store: Warehouse, brand: string, name: string) returns (existing: Option<Item>)
    requires store.Valid()
    ensures existing.None? <==> FirstMatch(store.rows, brand, name).None?
    ensures existing.Some? ==>
      && fresh(existing.value)
      && Mirrors(existing.value, store.rows[FirstMatch(store.rows, brand, name).value],
                 store.stamps[FirstMatch(store.rows, brand, name).value])
  {
    var found := store.FindByBrandAndName(brand, name);
    ghost var ix := MatchIndices(store.rows, brand, name);
    FirstOfMatches(store.rows, brand, name);
    if |found| > 0 {
      assert Mirrors(found[0], store.rows[ix[0]], store.stamps[ix[0]]);
      existing := Some(found[0]);
    } else {
      existing := None;
    }
  }

  /** The create branch of the quantity path: the attributes are read from
      the snapshot first; when reading throws, nothing is stored. */
  method CreateFromSnapshot(store: Warehouse, brand: string, name: string,
                            quantity: Option<Int32>, center: CenterNode) returns (ok: bool)
    requires store.Valid()
    requires FirstMatch(store.rows, brand, name) == None
    modifies store, store.clock
    ensures store.Valid()
    ensures Saved(ok, store.rows, store.nextId) ==
      Reconciled(old(store.rows), old(store.nextId), brand, name, quantity, Resolve(center.items, brand, name))
    ensures StampsEvolve(old(store.stamps), store.stamps, old(store.rows), store.rows, brand, name)
  {
    var attrs := ResolveAttributes(center, brand, name);
    if attrs.None? {
      assert store.stamps[..|store.stamps|] == store.stamps;
      return false;
    }
    ok := Create(store, brand, name, attrs.value, quantity);
  }

  /** `addItemToWarehouse(brand, name, centerResponse)` as written: one unit,
      and a new record always gets "Unknown", 0.00 and 2023, whatever the
      snapshot holds. */
  method AddItemToWarehouse(store: Warehouse, brand: string, name: string) returns (ok: bool)
    requires store.Valid()
    modifies store, store.clock
    ensures store.Valid()
    ensures Saved(ok, store.rows, store.nextId) ==
      Reconciled(old(store.rows), old(store.nextId), brand, name, Some(1), Some(UnitAttributes))
    ensures StampsEvolve(old(store.stamps), store.stamps, old(store.rows), store.rows, brand, name)
  {
    ok := AddWithFixedAttributes(store, brand, name, Some(1), UnitAttributes);
  }

  /** The single-unit reconciliation with the default price the quantity
      path uses (1.00), so that creating a record can succeed. */
  method AddItemToWarehouseCorrected(store: Warehouse, brand: string, name: string) returns (ok: bool)
    requires store.Valid()
    modifies store, store.clock
    ensures store.Valid()
    ensures Saved(ok, store.rows, store.nextId) ==
      Reconciled(old(store.rows), old(store.nextId), brand, name, Some(1), Some(DefaultAttributes))
    ensures StampsEvolve(old(store.stamps), store.stamps, old(store.rows), store.rows, brand, name)
  {
    ok := AddWithFixedAttributes(store, brand, name, Some(1), DefaultAttributes);
  }

  /** The body of the single-unit path: find the first record of the pair
      and increment it, or create one with the fixed attributes `a`. */
  method AddWithFixedAttributes(store: Warehouse, brand: string, name: string,
                                quantity: Option<Int32>, a: Attributes) returns (ok: bool)
    requires store.Valid()
    modifies store, store.clock
    ensures store.Valid()
    ensures Saved(ok, store.rows, store.nextId) ==
      Reconciled(old(store.rows), old(store.nextId), brand, name, quantity, Some(a))
    ensures StampsEvolve(old(store.stamps), store.stamps, old(store.rows), store.rows, brand, name)
  {
    var existing := FindFirst(store, brand, name);
    if existing.Some? {
      ok := Increment(store, existing.value, brand, name, quantity, Some(a));
    } else {
      ok := Create(store, brand, name, a, quantity);
    }
  }

  /** The increment branch shared by both paths: `item` is the first entity
      `findByBrandAndName` returned. */
  method Increment(store: Warehouse, item: Item, brand: string, name: string,
                   quantity: Option<Int32>, ghost attrs: Option<Attributes>) returns (ok: bool)
    requires store.Valid()
    requires FirstMatch(store.rows, brand, name).Some?
    requires Mirrors(item, store.rows[FirstMatch(store.rows, brand, name).value],
                     store.stamps[FirstMatch(store.rows, brand, name).value])
    modifies store, store.clock, item
    ensures store.Valid()
    ensures Saved(ok, store.rows, store.nextId) ==
      Reconciled(old(store.rows), old(store.nextId), brand, name, quantity, attrs)
    ensures StampsEvolve(old(store.stamps), store.stamps, old(store.rows), store.rows, brand, name)
  {
    ghost var k := FirstMatch(store.rows, brand, name).value;
    ghost var rows0, next0, stamps0 := store.rows, store.nextId, store.stamps;
    if quantity.None? {
      return false;
    }
    var q := item.quantity.value;
    ghost var d := rows0[k].data.(quantity := Some(AddInt32(q, quantity.value)));
    IncrementIsSave(rows0, next0, brand, name, quantity.value, attrs);
    item.SetQuantity(Some(AddInt32(q, quantity.value)));
    assert item.Data() == d;
    ok := store.Save(item);
  }

  /** On a table with distinct ids, the increment branch is a save of the
      first matching row with its quantity raised. */
  lemma IncrementIsSave(rows: seq<Row>, nextId: int, brand: string, name: string,
                        quantity: Int32, attrs: Option<Attributes>)
    requires FirstMatch(rows, brand, name).Some?
    requires var k := FirstMatch(rows, brand, name).value;
      IsValid(rows[k].data) && UniqueIdAt(rows, k)
    ensures var k := FirstMatch(rows, brand, name).value;
      && SaveTarget(rows, Some(rows[k].id)) == Some(k)
      && Reconciled(rows, nextId, brand, name, Some(quantity), attrs) ==
         SaveRows(rows, nextId, Some(rows[k].id),
                  rows[k].data.(quantity := Some(AddInt32(rows[k].data.quantity.value, quantity))))
  {
    var k := FirstMatch(rows, brand, name).value;
    assert IdIndex(rows, rows[k].id) == Some(k);
  }

  /** The create branch shared by both paths: a new entity with the name,
      brand, attributes and quantity, then saved. (The Java code builds the
      entity before it reads the snapshot; reading it changes nothing, so
      the order is immaterial here.) */
  method Create(store: Warehouse, brand: string, name: string,
                a: Attributes, quantity: Option<Int32>) returns (ok: bool)
    requires store.Valid()
    requires FirstMatch(store.rows, brand, name) == None
    modifies store, store.clock
    ensures store.Valid()
    ensures Saved(ok, store.rows, store.nextId) ==
      Reconciled(old(store.rows), old(store.nextId), brand, name, quantity, Some(a))
    ensures StampsEvolve(old(store.stamps), store.stamps, old(store.rows), store.rows, brand, name)
  {
    var newItem := NewItem(store.clock, brand, name, a, quantity);
    ok := store.Save(newItem);
  }

  /** `new Item()` followed by the setters of the create branch. */
  method NewItem(ghost clock: Clock, brand: string, name: string, a: Attributes,
                 quantity: Option<Int32>) returns (it: Item)
    modifies clock
    ensures fresh(it)
    ensures it.id == None && it.Data() == NewItemData(brand, name, a, quantity)
    ensures old(clock.now) < it.updatedAt == clock.now
  {
    it := new Item(clock);
    it.SetName(Some(name));
    it.SetBrand(Some(brand));
    it.SetCategory(Some(a.category));
    it.SetPrice(Some(a.price));
    it.SetYear(Some(a.year));
    it.SetQuantity(quantity);
  }
}
