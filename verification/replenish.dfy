/** Replenishment from the closest distribution center, as
    `requestItemFromClosestCenter` (one unit) and
    `requestItemFromClosestCenterWithQuantity` do it: find the closest
    center holding the item, ask that center for the units, then merge them
    into the warehouse. The two HTTP exchanges are inputs: what the
    find-closest call answered and what the request call answered. Any step
    that fails ends the operation with `false`, and every exception is
    caught and reported the same way. */
module Replenishment {
  import opened Common
  import opened ItemStore
  import opened CenterData
  import opened Reconciler

  /** The answer of `POST /find-closest`: status 200 with the parsed center,
      another non-error status, or an exception (transport failure, an
      error status, a body that does not parse). */
  datatype FindResult = FindOk(center: CenterNode) | FindNotOk | FindError

  /** The answer of `POST /{id}/request`. */
  datatype ReqResult = ReqOk | ReqNotOk | ReqError

  /** The request sent to a center: its id in the URL, the pair in the body
      and the number of units in the query string. */
  datatype FulfillmentRequest = FulfillmentRequest(centerId: int, brand: string, name: string, quantity: Option<Int32>)

  /** The find-closest answer names a center the request can go to: reading
      its `id` and `name` throws when either is missing. */
  predicate Addressable(c: CenterNode)
  {
    c.id.Some? && c.name.Some?
  }

  /** `requestItemFromClosestCenterWithQuantity(brand, name, quantity)`.
      The request goes out only after a successful find-closest, to the
      center that answer names and for the caller's quantity; the
      warehouse is touched only after the request succeeded, and the
      result is then the reconciliation's. */
  method RequestItemFromClosestCenterWithQuantity(store: Warehouse, brand: string, name: string,
                                                  quantity: Option<Int32>,
                                                  find: FindResult, req: ReqResult)
    returns (ok: bool, sent: Option<FulfillmentRequest>)
    requires store.Valid()
    modifies store, store.clock
    ensures store.Valid()
    ensures sent.Some? <==> find.FindOk? && Addressable(find.center)
    ensures sent.Some? ==> sent.value == FulfillmentRequest(find.center.id.value, brand, name, quantity)
    ensures ok ==> find.FindOk? && sent.Some? && req.ReqOk?
    ensures sent.None? || !req.ReqOk? ==>
      !ok && store.rows == old(store.rows) && store.nextId == old(store.nextId) && store.stamps == old(store.stamps)
    ensures sent.Some? && req.ReqOk? ==>
      && Saved(ok, store.rows, store.nextId) ==
         Reconciled(old(store.rows), old(store.nextId), brand, name, quantity,
                    Resolve(find.center.items, brand, name))
      && StampsEvolve(old(store.stamps), store.stamps, old(store.rows), store.rows, brand, name)
  {
    ok, sent := false, None;
    if !find.FindOk? {
      return;
    }
    var center := find.center;
    if !Addressable(center) {
      return;
    }
    sent := Some(FulfillmentRequest(center.id.value, brand, name, quantity));
    if !req.ReqOk? {
      return;
    }
    ok := AddItemsToWarehouse(store, brand, name, quantity, center);
  }

  /** `requestItemFromClosestCenter(brand, name)` as written: the same
      sequence for a single unit, with the single-unit reconciliation and
      its default price of 0.00, so that a pair the warehouse lacks is
      never stored (see `UnitCreateAlwaysRefused`). */
  method RequestItemFromClosestCenterAsWritten(store: Warehouse, brand: string, name: string,
                                               find: FindResult, req: ReqResult)
    returns (ok: bool, sent: Option<FulfillmentRequest>)
    requires store.Valid()
    modifies store, store.clock
    ensures store.Valid()
    ensures sent.Some? <==> find.FindOk? && Addressable(find.center)
    ensures sent.Some? ==> sent.value == FulfillmentRequest(find.center.id.value, brand, name, Some(1))
    ensures ok ==> find.FindOk? && sent.Some? && req.ReqOk?
    ensures sent.None? || !req.ReqOk? ==>
      !ok && store.rows == old(store.rows) && store.nextId == old(store.nextId) && store.stamps == old(store.stamps)
    ensures sent.Some? && req.ReqOk? ==>
      && Saved(ok, store.rows, store.nextId) ==
         Reconciled(old(store.rows), old(store.nextId), brand, name, Some(1), Some(UnitAttributes))
      && StampsEvolve(old(store.stamps), store.stamps, old(store.rows), store.rows, brand, name)
  {
    ok, sent := false, None;
    if !find.FindOk? {
      return;
    }
    var center := find.center;
    if !Addressable(center) {
      return;
    }
    sent := Some(FulfillmentRequest(center.id.value, brand, name, Some(1)));
    if !req.ReqOk? {
      return;
    }
    ok := AddItemToWarehouse(store, brand, name);
  }

  /** `requestItemFromClosestCenter(brand, name)` corrected: the same
      sequence, with the new-record branch given the quantity path's
      default price of 1.00 (see `AddItemToWarehouseCorrected`). */
  method RequestItemFromClosestCenter(store: Warehouse, brand: string, name: string,
                                      find: FindResult, req: ReqResult)
    returns (ok: bool, sent: Option<FulfillmentRequest>)
    requires store.Valid()
    modifies store, store.clock
    ensures store.Valid()
    ensures sent.Some? <==> find.FindOk? && Addressable(find.center)
    ensures sent.Some? ==> sent.value == FulfillmentRequest(find.center.id.value, brand, name, Some(1))
    ensures ok ==> find.FindOk? && sent.Some? && req.ReqOk?
    ensures sent.None? || !req.ReqOk? ==>
      !ok && store.rows == old(store.rows) && store.nextId == old(store.nextId) && store.stamps == old(store.stamps)
    ensures sent.Some? && req.ReqOk? ==>
      && Saved(ok, store.rows, store.nextId) ==
         Reconciled(old(store.rows), old(store.nextId), brand, name, Some(1), Some(DefaultAttributes))
      && StampsEvolve(old(store.stamps), store.stamps, old(store.rows), store.rows, brand, name)
  {
    ok, sent := false, None;
    if !find.FindOk? {
      return;
    }
    var center := find.center;
    if !Addressable(center) {
      return;
    }
    sent := Some(FulfillmentRequest(center.id.value, brand, name, Some(1)));
    if !req.ReqOk? {
      return;
    }
    ok := AddItemToWarehouseCorrected(store, brand, name);
  }
}
