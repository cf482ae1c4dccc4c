/** An in-memory stand-in for the part of `ItemRepository` (Spring Data
    JPA) that the core uses: `count`, `findByBrandAndName` and `save`.
    The table is a sequence of rows held by value; a lookup hands out
    freshly loaded `Item` entities, and `save` writes an entity's fields
    back, validating them first as JPA does before an insert or update. */
module ItemStore {
  import opened Common
  import opened ItemEntity

  /** A stored row: its generated id and its persisted fields. */
  datatype Row = Row(id: int, data: ItemData)

  /** The ghost `created_at` / `updated_at` columns of a row. */
  datatype Stamp = Stamp(createdAt: nat, updatedAt: nat)

  predicate Matches(r: Row, brand: string, name: string)
  {
    r.data.brand == Some(brand) && r.data.name == Some(name)
  }

  /** Positions of the rows `findByBrandAndName(brand, name)` returns:
      every matching row, in table order. */
  function MatchIndices(rows: seq<Row>, brand: string, name: string): (ix: seq<nat>)
    ensures forall k :: 0 <= k < |ix| ==> ix[k] < |rows| && Matches(rows[ix[k]], brand, name)
    ensures forall i :: 0 <= i < |rows| && Matches(rows[i], brand, name) ==> i in ix
    ensures forall k, l :: 0 <= k < l < |ix| ==> ix[k] < ix[l]
  {
    if rows == [] then []
    else
      var last := |rows| - 1;
      MatchIndices(rows[..last], brand, name) + (if Matches(rows[last], brand, name) then [last] else [])
  }

  /** `findByBrandAndName(brand, name).stream().findFirst()`: the position
      of the first matching row, or none when no row has that pair. */
  function FirstMatch(rows: seq<Row>, brand: string, name: string): (r: Option<nat>)
    ensures r.None? <==> forall i :: 0 <= i < |rows| ==> !Matches(rows[i], brand, name)
    ensures r.Some? ==> r.value < |rows| && Matches(rows[r.value], brand, name)
    ensures r.Some? ==> forall i :: 0 <= i < r.value ==> !Matches(rows[i], brand, name)
  {
    if rows == [] then None
    else if Matches(rows[0], brand, name) then Some(0)
    else match FirstMatch(rows[1..], brand, name)
      case None => None
      case Some(j) => Some(j + 1)
  }

  /** The first row the lookup returns is the first matching row. */
  lemma FirstOfMatches(rows: seq<Row>, brand: string, name: string)
    ensures var ix := MatchIndices(rows, brand, name);
      && (ix == [] <==> FirstMatch(rows, brand, name).None?)
      && (ix != [] ==> FirstMatch(rows, brand, name) == Some(ix[0]))
  {
    var ix := MatchIndices(rows, brand, name);
    if ix != [] {
      assert forall i :: 0 <= i < ix[0] ==> i !in ix;
    }
  }

  /** The number of rows with the pair (brand, name). */
  function CountMatches(rows: seq<Row>, brand: string, name: string): nat
  {
    |MatchIndices(rows, brand, name)|
  }

  /** The position of the row with generated id `id`, if any. */
  function IdIndex(rows: seq<Row>, id: int): (r: Option<nat>)
    ensures r.None? <==> forall i :: 0 <= i < |rows| ==> rows[i].id != id
    ensures r.Some? ==> r.value < |rows| && rows[r.value].id == id
  {
    if rows == [] then None
    else if rows[0].id == id then Some(0)
    else match IdIndex(rows[1..], id)
      case None => None
      case Some(j) => Some(j + 1)
  }

  /** The row an entity with id `id` is merged into: none for a new entity
      (null id) or an id the table does not hold. */
  function SaveTarget(rows: seq<Row>, id: Option<int>): Option<nat>
  {
    if id.Some? then IdIndex(rows, id.value) else None
  }

  /** Outcome of one `save`: whether it succeeded, the table and the next
      generated id afterwards. */
  datatype Saved = Saved(ok: bool, rows: seq<Row>, nextId: int)

  /** `save` of an entity with id `id` and fields `d`. A new entity is
      inserted under the next generated id; a known one is written over its
      row, but only when a field differs (the dirty check); an insert or an
      update of fields that break the validation constraints is refused. */
  function SaveRows(rows: seq<Row>, nextId: int, id: Option<int>, d: ItemData): Saved
  {
    match SaveTarget(rows, id)
    case None =>
      if IsValid(d) then Saved(true, rows + [Row(nextId, d)], nextId + 1)
      else Saved(false, rows, nextId)
    case Some(j) =>
      if rows[j].data == d then Saved(true, rows, nextId)
      else if IsValid(d) then Saved(true, rows[j := Row(rows[j].id, d)], nextId)
      else Saved(false, rows, nextId)
  }

  /** Every stored row satisfies the validation constraints. */
  ghost predicate AllValid(rows: seq<Row>)
  {
    forall i :: 0 <= i < |rows| ==> IsValid(rows[i].data)
  }

  /** Saving never stores a row that breaks the validation constraints,
      and never reuses a generated id. */
  lemma SavePreservesValidity(rows: seq<Row>, nextId: int, id: Option<int>, d: ItemData)
    requires AllValid(rows)
    requires forall i :: 0 <= i < |rows| ==> rows[i].id < nextId
    ensures var s := SaveRows(rows, nextId, id, d);
      && AllValid(s.rows)
      && s.nextId >= nextId
      && (forall i :: 0 <= i < |s.rows| ==> s.rows[i].id < s.nextId)
      && (s.ok <==> IsValid(d) || (SaveTarget(rows, id).Some? && rows[SaveTarget(rows, id).value].data == d))
  {
  }

  /** A loaded entity is a faithful copy of its row. */
  ghost predicate Mirrors(it: Item, r: Row, s: Stamp)
    reads it
  {
    it.id == Some(r.id) && it.Data() == r.data && it.createdAt == s.createdAt && it.updatedAt == s.updatedAt
  }

  class Warehouse {
    var rows: seq<Row>
    var nextId: int
    ghost var stamps: seq<Stamp>
    ghost const clock: Clock

    /** One stamp per row, every row valid, no stamp later than the clock,
        and generated ids 1, 2, 3, ... in table order: rows are only ever
        appended under the next id, never deleted. */
    ghost predicate Valid()
      reads this, clock
    {
      && |stamps| == |rows|
      && AllValid(rows)
      && nextId == |rows| + 1
      && (forall i :: 0 <= i < |rows| ==> rows[i].id == i + 1)
      && (forall i :: 0 <= i < |stamps| ==> stamps[i].updatedAt <= clock.now)
    }

    /** An empty table whose timestamps come from `clock`. */
    constructor (ghost clock: Clock)
      ensures Valid()
      ensures this.clock == clock
      ensures rows == [] && stamps == [] && nextId == 1
    {
      rows, nextId, stamps := [], 1, [];
      this.clock := clock;
    }

    /** `count()`. */
    method Count() returns (n: nat)
      ensures n == |rows|
    {
      n := |rows|;
    }

    /** Loads one row as an entity, the way JPA does with field access:
        the no-argument constructor, then every column written into its
        field. The timestamps the constructor reads are overwritten by the
        stored ones, so they come from a scratch clock and the table's
        clock does not move. */
    static method Load(r: Row, ghost s: Stamp) returns (it: Item)
      ensures fresh(it)
      ensures Mirrors(it, r, s)
    {
      var scratch := new Clock();
      it := new Item(scratch);
      it.id, it.name, it.brand, it.category := Some(r.id), r.data.name, r.data.brand, r.data.category;
      it.price, it.year, it.quantity := r.data.price, r.data.year, r.data.quantity;
      it.createdAt, it.updatedAt := s.createdAt, s.updatedAt;
    }

    /** `findByBrandAndName(brand, name)`: a fresh entity for every row with
        that exact pair, in table order. The table itself is not changed. */
    method FindByBrandAndName(brand: string, name: string) returns (found: seq<Item>)
      requires |stamps| == |rows|
      ensures var ix := MatchIndices(rows, brand, name);
        && |found| == |ix|
        && forall k :: 0 <= k < |found| ==> fresh(found[k]) && Mirrors(found[k], rows[ix[k]], stamps[ix[k]])
    {
      var ix := MatchIndices(rows, brand, name);
      found := [];
      var j := 0;
      while j < |ix|
        invariant 0 <= j <= |ix| && |found| == j
        invariant forall k :: 0 <= k < j ==> fresh(found[k]) && Mirrors(found[k], rows[ix[k]], stamps[ix[k]])
      {
        var it := Load(rows[ix[j]], stamps[ix[j]]);
        found := found + [it];
        assert found[j] == it;
        j := j + 1;
      }
    }

    /** `save(item)`: inserts a new entity (null id) under the next generated
        id and stores that id in it; writes a known entity's changed fields
        over its row, after running `@PreUpdate`. An entity that breaks the
        validation constraints makes the insert or update throw: the table is
        left as it was. */
    method Save(item: Item) returns (ok: bool)
      requires Valid()
      requires item.updatedAt <= clock.now
      modifies this, item, clock
      ensures Valid()
      ensures clock.now >= old(clock.now)
      ensures Saved(ok, rows, nextId) == SaveRows(old(rows), old(nextId), old(item.id), old(item.Data()))
      ensures item.Data() == old(item.Data()) && item.createdAt == old(item.createdAt)
      ensures item.id == if old(item.id).None? && ok then Some(old(nextId)) else old(item.id)
      ensures var j := SaveTarget(old(rows), old(item.id));
        if j.None? then
          && item.updatedAt == old(item.updatedAt)
          && stamps == if ok then old(stamps) + [Stamp(item.createdAt, item.updatedAt)] else old(stamps)
        else if old(rows)[j.value].data == old(item.Data()) then
          item.updatedAt == old(item.updatedAt) && stamps == old(stamps)
        else
          && item.updatedAt == clock.now > old(clock.now)
          && stamps == if ok then old(stamps)[j.value := Stamp(item.createdAt, item.updatedAt)] else old(stamps)
    {
      var d := item.Data();
      var j := SaveTarget(rows, item.id);
      SavePreservesValidity(rows, nextId, item.id, d);
      match j {
        case None =>
          ok := IsValid(d);
          if ok {
            rows := rows + [Row(nextId, d)];
            stamps := stamps + [Stamp(item.createdAt, item.updatedAt)];
            if item.id.None? {
              item.SetId(Some(nextId));
            }
            nextId := nextId + 1;
          }
        case Some(k) =>
          if rows[k].data == d {
            ok := true;
          } else {
            item.PreUpdate(clock);
            ok := IsValid(d);
            if ok {
              rows := rows[k := Row(rows[k].id, d)];
              stamps := stamps[k := Stamp(item.createdAt, item.updatedAt)];
            }
          }
      }
    }
  }
}
