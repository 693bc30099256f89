/** The orders controller: the request checks, the check chains of each
    route, and the route handlers over the process-wide order store. */
module Orders {
  import opened Js
  import opened Records
  import opened Pipeline

  const StatusMessage := "Order must have a status of pending, preparing, out-for-delivery, delivered."
  const DeliveredMessage := "A delivered order cannot be changed."
  const DeliverToMessage := "Order must include a deliverTo."
  const MobileNumberMessage := "Order must include a mobileNumber."
  const DishesMessage := "Dishes must include at least one dish."
  const NotPendingMessage := "An order cannot be deleted unless it is pending."

  /** The statuses the status check recognises. */
  const ValidStatuses: seq<string> := ["pending", "preparing", "out-for-delivery", "delivered"]

  /** The statuses an update may set. */
  predicate Changeable(status: Value) {
    status == Str("pending") || status == Str("preparing") || status == Str("out-for-delivery")
  }

  function NotFoundMessage(id: string): string {
    "Order " + id + " not found."
  }

  function MismatchMessage(id: Value, routeId: string): string
    requires !ShowThrows(id)
  {
    "Order id does not match route id. Order: " + Show(id) + ", Route: " + routeId
  }

  function QuantityMessage(index: nat): string {
    "Dish " + NatToString(index) + " must have a quantity that is an integer greater than 0."
  }

  /** The quantity message names exactly one index. */
  lemma QuantityMessageNamesIndex(i: nat, j: nat)
    requires QuantityMessage(i) == QuantityMessage(j)
    ensures i == j
  {
    var suffix := " must have a quantity that is an integer greater than 0.";
    var m := QuantityMessage(i);
    assert |NatToString(i)| == |NatToString(j)|;
    assert NatToString(i) == m[5..|m| - |suffix|] == NatToString(j);
    NatToStringInjective(i, j);
  }

  /** `const { data: { key } = {} } = req.body`: an undefined `data` reads as
      `{}`; a null `data` throws, so callers first rule it out. */
  function DefaultedField(data: Value, key: string): Value
    requires !data.Null?
  {
    if data.Missing? then Missing else Field(data, key)
  }

  /* ---------------------------------------------------------------- checks */

  /** orderValidation: the route id names a stored order. */
  function OrderValidation(routeId: string, orders: seq<Record>): (o: Outcome)
    ensures o == Pass <==> ContainsId(orders, routeId)
    ensures o != Pass ==> o == Fail(404, NotFoundMessage(routeId))
  {
    Existence(orders, routeId, NotFoundMessage(routeId))
  }

  /** A payload id that is present and differs from the route id. */
  predicate Mismatched(data: Value, routeId: string)
    requires !Nullish(data)
  {
    !Blank(Field(data, "id")) && Field(data, "id") != Str(routeId)
  }

  /** idValidation: an id in the payload, when there is one, equals the route
      id. Reporting a mismatch converts the payload id to a string, which
      throws for an id that `Show` cannot convert. */
  function IdValidation(data: Value, routeId: string): (o: Outcome)
    ensures o == TypeError <==> data.Null? || (!Nullish(data) && Mismatched(data, routeId) && ShowThrows(Field(data, "id")))
    ensures data.Missing? ==> o == Pass
    ensures !Nullish(data) ==> (o == Pass <==> !Mismatched(data, routeId))
    ensures o.Fail? ==> !Nullish(data) && !ShowThrows(Field(data, "id")) && o == Fail(400, MismatchMessage(Field(data, "id"), routeId))
  {
    if data.Null? then TypeError
    else
      var id := DefaultedField(data, "id");
      if id == Null || id == Missing || id == Str("") then Pass
      else if id != Str(routeId) then
        if ShowThrows(id) then TypeError else Fail(400, MismatchMessage(id, routeId))
      else Pass
  }

  /** statusValidation: the payload status is recognised and is not "delivered".
      Only the payload is inspected, never the stored order's status. */
  function StatusValidation(data: Value): (o: Outcome)
    ensures o == TypeError <==> data.Null?
    ensures o == Pass <==> !data.Null? && Changeable(DefaultedField(data, "status"))
    ensures o == Fail(400, DeliveredMessage) <==> !data.Null? && DefaultedField(data, "status") == Str("delivered")
    ensures o.Fail? && o != Fail(400, DeliveredMessage) ==> o == Fail(400, StatusMessage)
  {
    if data.Null? then TypeError
    else
      var status := DefaultedField(data, "status");
      if !Truthy(status) || !(status.Str? && status.s in ValidStatuses) then Fail(400, StatusMessage)
      else if status == Str("delivered") then Fail(400, DeliveredMessage)
      else Pass
  }

  /** deliverToValidation. */
  function DeliverToValidation(data: Value): (o: Outcome)
    ensures o == TypeError <==> Nullish(data)
    ensures o == Pass <==> !Nullish(data) && Truthy(Field(data, "deliverTo"))
    ensures o.Fail? ==> o == Fail(400, DeliverToMessage)
  {
    if Nullish(data) then TypeError
    else
      var deliverTo := Field(data, "deliverTo");
      if !Truthy(deliverTo) || deliverTo == Str("") then Fail(400, DeliverToMessage) else Pass
  }

  /** mobileNumberValidation. */
  function MobileNumberValidation(data: Value): (o: Outcome)
    ensures o == TypeError <==> Nullish(data)
    ensures o == Pass <==> !Nullish(data) && Truthy(Field(data, "mobileNumber"))
    ensures o.Fail? ==> o == Fail(400, MobileNumberMessage)
  {
    if Nullish(data) then TypeError
    else
      var mobileNumber := Field(data, "mobileNumber");
      if !Truthy(mobileNumber) || mobileNumber == Str("") then Fail(400, MobileNumberMessage) else Pass
  }

  /* ------------------------------------------------------- dishes check */

  /** `!q || !Number.isInteger(q) || q <= 0` is false: a positive integer. */
  predicate QuantityOk(q: Value) {
    Truthy(q) && IsInteger(q) && !(q.n <= 0.0)
  }

  /** The entry at some index passes the scan. */
  predicate EntryOk(item: Value) {
    !Nullish(item) && QuantityOk(Field(item, "quantity"))
  }

  /** What the scan reports for a failing entry: reading `.quantity` of a
      null entry throws, any other entry is reported by its index. */
  function EntryFailure(item: Value, index: nat): Outcome {
    if Nullish(item) then TypeError else Fail(400, QuantityMessage(index))
  }

  /** The payload carries a non-empty `dishes` array. */
  predicate Listed(data: Value) {
    !Nullish(data) && Field(data, "dishes").Arr? && |Field(data, "dishes").items| > 0
  }

  /** The payload passes dishesValidation. */
  predicate DishesOk(data: Value) {
    Listed(data) && forall i :: 0 <= i < |Field(data, "dishes").items| ==> EntryOk(Field(data, "dishes").items[i])
  }

  /** The scan over `dishes` from index `from` on, returning at the first bad entry. */
  function QuantityScan(items: seq<Value>, from: nat): (o: Outcome)
    requires from <= |items|
    ensures o.Fail? ==> o.status == 400
    decreases |items| - from
  {
    if from == |items| then Pass
    else if !EntryOk(items[from]) then EntryFailure(items[from], from)
    else QuantityScan(items, from + 1)
  }

  /** dishesValidation, as a specification of the method below. */
  function DishesVerdict(data: Value): (o: Outcome)
    ensures Nullish(data) ==> o == TypeError
    ensures !Nullish(data) && !Listed(data) ==> o == Fail(400, DishesMessage)
    ensures o.Fail? ==> o.status == 400
  {
    if Nullish(data) then TypeError
    else
      var dishes := Field(data, "dishes");
      if !Truthy(dishes) || !dishes.Arr? || |dishes.items| == 0 then Fail(400, DishesMessage)
      else QuantityScan(dishes.items, 0)
  }

  lemma {:induction false} ScanPassesIff(items: seq<Value>, from: nat)
    requires from <= |items|
    ensures QuantityScan(items, from) == Pass <==> forall j :: from <= j < |items| ==> EntryOk(items[j])
    decreases |items| - from
  {
    if from < |items| {
      ScanPassesIff(items, from + 1);
    }
  }

  lemma {:induction false} ScanStopsAtFirstBad(items: seq<Value>, from: nat, k: nat)
    requires from <= k < |items| && !EntryOk(items[k])
    requires forall j :: from <= j < k ==> EntryOk(items[j])
    ensures QuantityScan(items, from) == EntryFailure(items[k], k)
    decreases k - from
  {
    if from < k {
      ScanStopsAtFirstBad(items, from + 1, k);
    }
  }

  /** dishesValidation passes exactly when `dishes` is a non-empty array whose
      every entry has a positive integer quantity. */
  lemma DishesVerdictPassesIff(data: Value)
    ensures DishesVerdict(data) == Pass <==> DishesOk(data)
  {
    if Listed(data) {
      ScanPassesIff(Field(data, "dishes").items, 0);
    }
  }

  /** dishesValidation reports the smallest index whose entry is bad. */
  lemma DishesVerdictFirstBad(data: Value, k: nat)
    requires Listed(data)
    requires k < |Field(data, "dishes").items| && !EntryOk(Field(data, "dishes").items[k])
    requires forall j :: 0 <= j < k ==> EntryOk(Field(data, "dishes").items[j])
    ensures DishesVerdict(data) == EntryFailure(Field(data, "dishes").items[k], k)
  {
    ScanStopsAtFirstBad(Field(data, "dishes").items, 0, k);
  }

  /** dishesValidation, with its scan loop. */
  method DishesValidation(data: Value) returns (o: Outcome)
    ensures o == DishesVerdict(data)
  {
    if data.Missing? || data.Null? {
      return TypeError;
    }
    var dishes := Field(data, "dishes");
    if !Truthy(dishes) || !dishes.Arr? || |dishes.items| == 0 {
      return Fail(400, DishesMessage);
    }
    var items := dishes.items;
    var index := 0;
    while index < |items|
      invariant 0 <= index <= |items|
      invariant QuantityScan(items, 0) == QuantityScan(items, index)
    {
      var dish := items[index];
      if dish.Missing? || dish.Null? {
        return TypeError;
      }
      var quantity := Field(dish, "quantity");
      if !Truthy(quantity) || !IsInteger(quantity) || quantity.n <= 0.0 {
        return Fail(400, QuantityMessage(index));
      }
      index := index + 1;
    }
    return Pass;
  }

  /* ---------------------------------------------------------- check chains */

  datatype Check = OrderExists | IdMatchesRoute | StatusAllowed | DishesListed | DeliverToPresent | MobileNumberPresent

  /** One check of a chain, on the route id, the payload's `data` and the store. */
  function Validate(c: Check, routeId: string, data: Value, orders: seq<Record>): Outcome {
    match c
    case OrderExists => OrderValidation(routeId, orders)
    case IdMatchesRoute => IdValidation(data, routeId)
    case StatusAllowed => StatusValidation(data)
    case DishesListed => DishesVerdict(data)
    case DeliverToPresent => DeliverToValidation(data)
    case MobileNumberPresent => MobileNumberValidation(data)
  }

  /** The chains exported for each route, in order. */
  const CreateChecks: seq<Check> := [DishesListed, DeliverToPresent, MobileNumberPresent]
  const ReadChecks: seq<Check> := [OrderExists]
  const UpdateChecks: seq<Check> := [OrderExists, IdMatchesRoute, StatusAllowed, DishesListed, DeliverToPresent, MobileNumberPresent]
  const DestroyChecks: seq<Check> := [OrderExists]

  function Validation(checks: seq<Check>, routeId: string, data: Value, orders: seq<Record>): Outcome {
    RunChecks(checks, c => Validate(c, routeId, data, orders))
  }

  /** A create request passes its chain exactly when its dishes, deliverTo
      and mobileNumber are acceptable. POST /orders has no route id; none of
      these checks reads it, nor the store. */
  lemma CreateChecksPassIff(data: Value, orders: seq<Record>)
    ensures Validation(CreateChecks, "", data, orders) == Pass <==>
      DishesOk(data) && Truthy(Field(data, "deliverTo")) && Truthy(Field(data, "mobileNumber"))
  {
    var f := c => Validate(c, "", data, orders);
    assert CreateChecks[0] == DishesListed && CreateChecks[1] == DeliverToPresent && CreateChecks[2] == MobileNumberPresent;
    DishesVerdictPassesIff(data);
    if DishesOk(data) && Truthy(Field(data, "deliverTo")) && Truthy(Field(data, "mobileNumber")) {
      assert forall i :: 0 <= i < |CreateChecks| ==> f(CreateChecks[i]) == Pass;
    } else {
      assert f(CreateChecks[0]) != Pass || f(CreateChecks[1]) != Pass || f(CreateChecks[2]) != Pass;
    }
  }

  /** A create request whose `dishes` array holds a bad entry is refused at
      the first one: with 400 naming its index, or with a TypeError when that
      entry is null. */
  lemma CreateReportsFirstBadDish(data: Value, orders: seq<Record>, k: nat)
    requires Listed(data)
    requires k < |Field(data, "dishes").items| && !EntryOk(Field(data, "dishes").items[k])
    requires forall j :: 0 <= j < k ==> EntryOk(Field(data, "dishes").items[j])
    ensures Validation(CreateChecks, "", data, orders) == EntryFailure(Field(data, "dishes").items[k], k)
  {
    DishesVerdictFirstBad(data, k);
    FirstFailureDecides(CreateChecks, c => Validate(c, "", data, orders), 0);
  }

  /** An update request passes its chain exactly when the order exists, the
      ids agree, the status may be set and the remaining fields are acceptable. */
  lemma UpdateChecksPassIff(routeId: string, data: Value, orders: seq<Record>)
    ensures Validation(UpdateChecks, routeId, data, orders) == Pass <==>
      ContainsId(orders, routeId) && IdValidation(data, routeId) == Pass &&
      !data.Null? && Changeable(DefaultedField(data, "status")) &&
      DishesOk(data) && Truthy(Field(data, "deliverTo")) && Truthy(Field(data, "mobileNumber"))
  {
    var f := c => Validate(c, routeId, data, orders);
    assert UpdateChecks[0] == OrderExists && UpdateChecks[1] == IdMatchesRoute && UpdateChecks[2] == StatusAllowed;
    assert UpdateChecks[3] == DishesListed && UpdateChecks[4] == DeliverToPresent && UpdateChecks[5] == MobileNumberPresent;
    DishesVerdictPassesIff(data);
    if Validation(UpdateChecks, routeId, data, orders) == Pass {
      assert forall i :: 0 <= i < 6 ==> f(UpdateChecks[i]) == Pass;
      assert f(UpdateChecks[0]) == Pass && f(UpdateChecks[1]) == Pass && f(UpdateChecks[2]) == Pass;
      assert f(UpdateChecks[3]) == Pass && f(UpdateChecks[4]) == Pass && f(UpdateChecks[5]) == Pass;
    }
  }

  /** The existence check comes first: an unknown order is reported as 404
      whatever the payload holds. */
  lemma UpdateUnknownOrderIsNotFound(routeId: string, data: Value, orders: seq<Record>)
    requires !ContainsId(orders, routeId)
    ensures Validation(UpdateChecks, routeId, data, orders) == Fail(404, NotFoundMessage(routeId))
  {
  }

  /** A payload id that differs from the route id is reported, for an order
      that exists, before any other field is looked at: with 400, or with a
      TypeError when the id cannot be converted for the message. */
  lemma UpdateMismatchedIdIsRejected(routeId: string, data: Value, orders: seq<Record>)
    requires ContainsId(orders, routeId) && !Nullish(data) && Mismatched(data, routeId)
    ensures Validation(UpdateChecks, routeId, data, orders) ==
      if ShowThrows(Field(data, "id")) then TypeError
      else Fail(400, MismatchMessage(Field(data, "id"), routeId))
  {
  }

  /** A payload status of "delivered" is refused for an existing order with a
      matching id, whatever the status of the stored order. */
  lemma UpdateToDeliveredIsRejected(routeId: string, data: Value, orders: seq<Record>)
    requires ContainsId(orders, routeId) && IdValidation(data, routeId) == Pass
    requires !data.Null? && DefaultedField(data, "status") == Str("delivered")
    ensures Validation(UpdateChecks, routeId, data, orders) == Fail(400, DeliveredMessage)
  {
  }

  /* --------------------------------------------------------------- records */

  /** `{ ...data, id: nextId() }`: the payload object with the new id. */
  function NewOrder(fields: Record, id: string): (r: Record)
    ensures HasId(r, id)
    ensures forall key :: key != "id" ==> Get(r, key) == Get(fields, key)
  {
    fields["id" := Str(id)]
  }

  /** The stored order after update sets its deliverTo, mobileNumber, status
      and dishes from the payload. */
  function Revised(order: Record, data: Value): (r: Record)
    requires !Nullish(data)
    // the id is implied by the last clause; it is stated on its own because
    // update relies on it to keep ids unique
    ensures Get(r, "id") == Get(order, "id")
    ensures Get(r, "deliverTo") == Field(data, "deliverTo") && Get(r, "mobileNumber") == Field(data, "mobileNumber")
    ensures Get(r, "status") == Field(data, "status") && Get(r, "dishes") == Field(data, "dishes")
    ensures forall key :: key !in {"deliverTo", "mobileNumber", "status", "dishes"} ==> Get(r, key) == Get(order, key)
  {
    order["deliverTo" := Field(data, "deliverTo")]["mobileNumber" := Field(data, "mobileNumber")]
         ["status" := Field(data, "status")]["dishes" := Field(data, "dishes")]
  }

  /** An update that passes its chain never stores the status "delivered". */
  lemma UpdatedStatusIsChangeable(routeId: string, data: Value, orders: seq<Record>, order: Record)
    requires Validation(UpdateChecks, routeId, data, orders) == Pass
    ensures !Nullish(data) && Changeable(Get(Revised(order, data), "status"))
  {
  }

  /* ----------------------------------------------------------------- store */

  /** The process-wide order store and the routes that use it. */
  class OrderStore {
    var orders: seq<Record>

    /** The store starts from the data module's orders. */
    constructor (initial: seq<Record>)
      ensures orders == initial
    {
      orders := initial;
    }

    /** GET /orders: every order, in store order. */
    method List() returns (res: Response)
      ensures res == All(orders)
    {
      res := All(orders);
    }

    /** POST /orders: append the payload as a new order under a fresh id. */
    method Create(data: Value, freshId: string) returns (res: Response)
      requires !ContainsId(orders, freshId)
      modifies this
      ensures var o := Validation(CreateChecks, "", data, old(orders));
        if o == Pass then
          data.Obj? && orders == old(orders) + [NewOrder(data.fields, freshId)] &&
          res == One(201, NewOrder(data.fields, freshId))
        else
          orders == old(orders) && res == Rejected(o)
      ensures UniqueIds(old(orders)) ==> UniqueIds(orders)
    {
      var o := Validation(CreateChecks, "", data, orders);
      if o != Pass {
        res := Rejected(o);
        return;
      }
      CreateChecksPassIff(data, orders);
      var order := NewOrder(data.fields, freshId);
      if UniqueIds(orders) {
        AppendFreshKeepsUnique(orders, order, freshId);
      }
      orders := orders + [order];
      res := One(201, order);
    }

    /** GET /orders/:orderId: the first order with the route id. */
    method Read(routeId: string) returns (res: Response)
      ensures ContainsId(orders, routeId) ==> res == One(200, orders[FindById(orders, routeId).value])
      ensures !ContainsId(orders, routeId) ==> res == Error(404, NotFoundMessage(routeId))
    {
      var o := Validation(ReadChecks, routeId, Missing, orders);
      assert ReadChecks[0] == OrderExists;
      if o != Pass {
        res := Rejected(o);
        return;
      }
      res := One(200, orders[FindById(orders, routeId).value]);
    }

    /** PUT /orders/:orderId: overwrite four fields of the found order. */
    method Update(routeId: string, data: Value) returns (res: Response)
      modifies this
      ensures var o := Validation(UpdateChecks, routeId, data, old(orders));
        if o == Pass then
          ContainsId(old(orders), routeId) && !Nullish(data) &&
          var k := FindById(old(orders), routeId).value;
          orders == old(orders)[k := Revised(old(orders)[k], data)] &&
          res == One(200, orders[k]) && Changeable(Get(orders[k], "status"))
        else
          orders == old(orders) && res == Rejected(o)
      ensures UniqueIds(old(orders)) ==> UniqueIds(orders)
    {
      var o := Validation(UpdateChecks, routeId, data, orders);
      if o != Pass {
        res := Rejected(o);
        return;
      }
      UpdateChecksPassIff(routeId, data, orders);
      var k := FindById(orders, routeId).value;
      UpdatedStatusIsChangeable(routeId, data, orders, orders[k]);
      var order := Revised(orders[k], data);
      if UniqueIds(orders) {
        ReplaceSameIdKeepsUnique(orders, k, order);
      }
      orders := orders[k := order];
      res := One(200, order);
    }

    /** DELETE /orders/:orderId: remove the found order, only while it is pending. */
    method Destroy(routeId: string) returns (res: Response)
      modifies this
      ensures !ContainsId(old(orders), routeId) ==>
        orders == old(orders) && res == Error(404, NotFoundMessage(routeId))
      ensures ContainsId(old(orders), routeId) ==>
        var k := FindById(old(orders), routeId).value;
        if Get(old(orders)[k], "status") == Str("pending") then
          orders == RemoveAt(old(orders), k) && res == NoContent
        else
          orders == old(orders) && res == Error(400, NotPendingMessage)
      ensures UniqueIds(old(orders)) ==> UniqueIds(orders)
      ensures UniqueIds(old(orders)) && res == NoContent ==> !ContainsId(orders, routeId)
    {
      var o := Validation(DestroyChecks, routeId, Missing, orders);
      assert DestroyChecks[0] == OrderExists;
      if o != Pass {
        res := Rejected(o);
        return;
      }
      var index := FindById(orders, routeId).value;
      if Get(orders[index], "status") == Str("pending") {
        if UniqueIds(orders) {
          RemoveFoundDropsId(orders, routeId, index);
        }
        orders := RemoveAt(orders, index);
        res := NoContent;
      } else {
        res := Error(400, NotPendingMessage);
      }
    }
  }
}
