/** The `Item` entity: the mutable warehouse record that the reconciler
    creates and updates, its constructors, setters, the `@PreUpdate`
    timestamp refresh, and the constraints its validation annotations
    declare. Prices are integer cents; timestamps are ghost readings of a
    logical clock. */
module ItemEntity {
  import opened Common

  /** A stand-in for `LocalDateTime.now()`: every reading advances a
      ghost counter by one. */
  class Clock {
    ghost var now: nat

    constructor ()
      ensures now == 0
    {
      now := 0;
    }

    ghost method Now() returns (t: nat)
      modifies this
      ensures now == old(now) + 1 && t == now
    {
      now := now + 1;
      t := now;
    }
  }

  /** The persisted business fields of an item (every one may be null in
      Java); `price` is in cents. */
  datatype ItemData = ItemData(
    name: Option<string>,
    brand: Option<string>,
    category: Option<string>,
    price: Option<int>,
    year: Option<Int32>,
    quantity: Option<Int32>)

  /** The constraints of the validation annotations: `@NotBlank` name,
      brand and category, `@NotNull @Positive` price, `@NotNull` year and
      `@NotNull @PositiveOrZero` quantity. */
  predicate IsValid(d: ItemData)
  {
    && !IsBlank(d.name)
    && !IsBlank(d.brand)
    && !IsBlank(d.category)
    && d.price.Some? && d.price.value > 0
    && d.year.Some?
    && d.quantity.Some? && d.quantity.value >= 0
  }

  /** One failed validation annotation of `Item`. */
  datatype Violation =
    | NameRequired | BrandRequired | CategoryRequired
    | PriceRequired | PriceNotPositive | YearRequired
    | QuantityRequired | QuantityNegative

  /** The violations Bean Validation reports for an item (a null price or
      quantity only violates `@NotNull`: the sign constraints accept null).
      Bean Validation reports an unordered set; listing them in declaration
      order is this model's choice. The item is valid exactly when none is
      reported. */
  function Violations(d: ItemData): (v: seq<Violation>)
    ensures |v| == 0 <==> IsValid(d)
    ensures IsBlank(d.name) <==> NameRequired in v
    ensures (d.price.Some? && d.price.value <= 0) <==> PriceNotPositive in v
    ensures (d.quantity.Some? && d.quantity.value < 0) <==> QuantityNegative in v
  {
    var head := if IsBlank(d.name) then [NameRequired] else [];
    var fields := (if IsBlank(d.brand) then [BrandRequired] else [])
      + (if IsBlank(d.category) then [CategoryRequired] else []);
    var price := if d.price.None? then [PriceRequired]
      else if d.price.value <= 0 then [PriceNotPositive] else [];
    var year := if d.year.None? then [YearRequired] else [];
    var quantity := if d.quantity.None? then [QuantityRequired]
      else if d.quantity.value < 0 then [QuantityNegative] else [];
    head + fields + price + year + quantity
  }

  class Item {
    var id: Option<int>
    var name: Option<string>
    var brand: Option<string>
    var category: Option<string>
    var price: Option<int>
    var year: Option<Int32>
    var quantity: Option<Int32>
    ghost var createdAt: nat
    ghost var updatedAt: nat

    function Data(): ItemData
      reads this
    {
      ItemData(name, brand, category, price, year, quantity)
    }

    /** `new Item()`: no business field set except `quantity = 0`; both
        timestamps read from the clock, creation first. */
    constructor (ghost clock: Clock)
      modifies clock
      ensures id == None
      ensures Data() == ItemData(None, None, None, None, None, Some(0))
      ensures old(clock.now) < createdAt < updatedAt == clock.now
    {
      ghost var c := clock.Now();
      ghost var u := clock.Now();
      id, name, brand, category, price, year, quantity := None, None, None, None, None, None, Some(0);
      createdAt, updatedAt := c, u;
    }

    /** `new Item(name, brand, category, price, year)`: the five fields as
        given and quantity 0. */
    constructor WithFields(ghost clock: Clock, name: Option<string>, brand: Option<string>,
                           category: Option<string>, price: Option<int>, year: Option<Int32>)
      modifies clock
      ensures id == None
      ensures Data() == ItemData(name, brand, category, price, year, Some(0))
      ensures old(clock.now) < createdAt < updatedAt == clock.now
    {
      ghost var c := clock.Now();
      ghost var u := clock.Now();
      this.id := None;
      this.name, this.brand, this.category := name, brand, category;
      this.price, this.year, this.quantity := price, year, Some(0);
      createdAt, updatedAt := c, u;
    }

    /** `new Item(name, brand, category, price, year, quantity)`: all six
        fields as given. */
    constructor WithQuantity(ghost clock: Clock, name: Option<string>, brand: Option<string>,
                             category: Option<string>, price: Option<int>, year: Option<Int32>,
                             quantity: Option<Int32>)
      modifies clock
      ensures id == None
      ensures Data() == ItemData(name, brand, category, price, year, quantity)
      ensures old(clock.now) < createdAt < updatedAt == clock.now
    {
      ghost var c := clock.Now();
      ghost var u := clock.Now();
      this.id := None;
      this.name, this.brand, this.category := name, brand, category;
      this.price, this.year, this.quantity := price, year, quantity;
      createdAt, updatedAt := c, u;
    }

    // Each setter may modify its own field and nothing else.

    method SetId(v: Option<int>)
      modifies this`id
      ensures id == v
    {
      id := v;
    }

    method SetName(v: Option<string>)
      modifies this`name
      ensures name == v
    {
      name := v;
    }

    method SetBrand(v: Option<string>)
      modifies this`brand
      ensures brand == v
    {
      brand := v;
    }

    method SetCategory(v: Option<string>)
      modifies this`category
      ensures category == v
    {
      category := v;
    }

    method SetPrice(v: Option<int>)
      modifies this`price
      ensures price == v
    {
      price := v;
    }

    method SetYear(v: Option<Int32>)
      modifies this`year
      ensures year == v
    {
      year := v;
    }

    method SetQuantity(v: Option<Int32>)
      modifies this`quantity
      ensures quantity == v
    {
      quantity := v;
    }

    method SetCreatedAt(ghost v: nat)
      modifies this`createdAt
      ensures createdAt == v
    {
      createdAt := v;
    }

    method SetUpdatedAt(ghost v: nat)
      modifies this`updatedAt
      ensures updatedAt == v
    {
      updatedAt := v;
    }

    /** `@PreUpdate`: refreshes `updatedAt` from the clock and touches no
        other field, `createdAt` included. */
    method PreUpdate(ghost clock: Clock)
      modifies this`updatedAt, clock
      ensures clock.now == old(clock.now) + 1
      ensures updatedAt == clock.now
    {
      ghost var t := clock.Now();
      updatedAt := t;
    }
  }
}
