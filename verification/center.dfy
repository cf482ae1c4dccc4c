/** The distribution-center API's responses as typed values (a field the
    JSON lacks is `None`), and the two read projections of the integration
    service: the center listing with item counts and the single center with
    its items. Coordinates are carried through; the distance computed from
    them is not part of this model. Prices are integer cents. */
module CenterData {
  import opened Common

  /** One entry of a center's `items` array. */
  datatype CenterItem = CenterItem(
    id: Option<int>,
    name: Option<string>,
    brand: Option<string>,
    category: Option<string>,
    price: Option<int>,
    year: Option<Int32>,
    quantity: Option<Int32>)

  /** One center object; `items` is `None` when the field is absent or is
      not an array. */
  datatype CenterNode = CenterNode(
    id: Option<int>,
    name: Option<string>,
    latitude: Option<real>,
    longitude: Option<real>,
    items: Option<seq<CenterItem>>)

  /** The outcome of one GET: a parsed body with status 200, another
      non-error status, or an exception (transport failure, an error
      status, which the HTTP client throws, or a body that does not parse). */
  datatype Fetch<T> = FetchOk(body: T) | FetchNotOk | FetchError

  /** A center of the listing. */
  datatype CenterSummary = CenterSummary(id: int, name: string, latitude: real, longitude: real, itemCount: nat)

  /** An item of the detailed center view. */
  datatype ItemView = ItemView(id: int, name: string, brand: string, category: string,
                               price: int, year: Int32, quantity: Int32)

  /** The detailed center view. */
  datatype CenterDetail = CenterDetail(id: int, name: string, latitude: real, longitude: real,
                                       items: seq<ItemView>, itemCount: nat)

  /** The `itemCount` of a center: the length of its `items` array, 0 when
      there is none. */
  function ItemCount(items: Option<seq<CenterItem>>): nat
  {
    if items.Some? then |items.value| else 0
  }

  /** The fields the projections read from every center; reading a missing
      one throws. */
  predicate HasCenterFields(c: CenterNode)
  {
    c.id.Some? && c.name.Some? && c.latitude.Some? && c.longitude.Some?
  }

  /** The fields the detailed view reads from every item. */
  predicate HasItemFields(e: CenterItem)
  {
    && e.id.Some? && e.name.Some? && e.brand.Some? && e.category.Some?
    && e.price.Some? && e.year.Some? && e.quantity.Some?
  }

  function Summary(c: CenterNode): CenterSummary
    requires HasCenterFields(c)
  {
    CenterSummary(c.id.value, c.name.value, c.latitude.value, c.longitude.value, ItemCount(c.items))
  }

  function View(e: CenterItem): ItemView
    requires HasItemFields(e)
  {
    ItemView(e.id.value, e.name.value, e.brand.value, e.category.value,
             e.price.value, e.year.value, e.quantity.value)
  }

  /** `getAllDistributionCenters`: one summary per center, in response
      order, whose `itemCount` is the length of the center's `items` array
      or 0 without one. Anything other than status 200, and a center
      lacking a field the projection reads, yields the empty list. */
  method GetAllDistributionCenters(response: Fetch<seq<CenterNode>>) returns (centers: seq<CenterSummary>)
    ensures !response.FetchOk? ==> centers == []
    ensures response.FetchOk? && (exists i :: 0 <= i < |response.body| && !HasCenterFields(response.body[i])) ==> centers == []
    ensures response.FetchOk? && (forall i :: 0 <= i < |response.body| ==> HasCenterFields(response.body[i])) ==>
      && |centers| == |response.body|
      && forall i :: 0 <= i < |centers| ==>
           && centers[i].id == response.body[i].id.value
           && centers[i].name == response.body[i].name.value
           && centers[i].itemCount == ItemCount(response.body[i].items)
           && (response.body[i].items.None? ==> centers[i].itemCount == 0)
  {
    if !response.FetchOk? {
      return [];
    }
    var nodes := response.body;
    centers := [];
    var i := 0;
    while i < |nodes|
      invariant 0 <= i <= |nodes|
      invariant forall j :: 0 <= j < i ==> HasCenterFields(nodes[j])
      invariant |centers| == i
      invariant forall j :: 0 <= j < i ==> centers[j] == Summary(nodes[j])
    {
      var c := nodes[i];
      if !HasCenterFields(c) {
        return [];
      }
      var count := if c.items.Some? then |c.items.value| else 0;
      centers := centers + [CenterSummary(c.id.value, c.name.value, c.latitude.value, c.longitude.value, count)];
      i := i + 1;
    }
  }

  /** `getDistributionCenterById`: the center with every item projected, in
      order, and `itemCount` equal to the number of projected items (0 when
      `items` is missing or not an array). Anything other than status 200,
      and a missing field on the center or on any item, yields none. */
  method GetDistributionCenterById(response: Fetch<CenterNode>) returns (r: Option<CenterDetail>)
    ensures r.Some? <==>
      && response.FetchOk?
      && HasCenterFields(response.body)
      && (response.body.items.Some? ==>
            forall i :: 0 <= i < |response.body.items.value| ==> HasItemFields(response.body.items.value[i]))
    ensures r.Some? ==>
      && r.value.id == response.body.id.value
      && r.value.itemCount == |r.value.items| == ItemCount(response.body.items)
      && forall i :: 0 <= i < |r.value.items| ==> r.value.items[i] == View(response.body.items.value[i])
  {
    if !response.FetchOk? || !HasCenterFields(response.body) {
      return None;
    }
    var c := response.body;
    var items: seq<ItemView> := [];
    if c.items.Some? {
      var es := c.items.value;
      var i := 0;
      while i < |es|
        invariant 0 <= i <= |es|
        invariant forall j :: 0 <= j < i ==> HasItemFields(es[j])
        invariant |items| == i
        invariant forall j :: 0 <= j < i ==> items[j] == View(es[j])
      {
        var e := es[i];
        if !HasItemFields(e) {
          return None;
        }
        items := items + [ItemView(e.id.value, e.name.value, e.brand.value, e.category.value,
                                   e.price.value, e.year.value, e.quantity.value)];
        i := i + 1;
      }
    }
    r := Some(CenterDetail(c.id.value, c.name.value, c.latitude.value, c.longitude.value, items, |items|));
  }
}
