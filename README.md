# GrubDash orders and dishes controllers in Dafny

GrubDash is a small HTTP service for dishes and orders held in two
process-wide in-memory arrays. Each route runs an ordered chain of request
checks and then a handler that reads or changes its array. This project
models both controllers:

- `Js` models the JavaScript values a JSON request body can carry. It covers
  `undefined`, `null`, booleans, numbers, strings, arrays and objects. It also
  models truthiness, property reads, `Number.isInteger` and string conversion
  in template literals.
- `Records` models the stores as sequences of plain objects. It gives the
  lookup by `id` that `find`, `findIndex` and `filter` perform, and `splice`.
  It also proves which store changes keep ids unique.
- `Pipeline` models the outcome of one check: pass, report `{ status, message }`,
  or throw a TypeError. It also models the responses and a chain of checks
  where the first failure decides.
- `Orders` and `Dishes` model each controller's checks, its exported chains
  and its route handlers. The handlers are methods of `OrderStore` and
  `DishStore`. Each class has one `seq` field: the store.

A payload field can be absent, `null`, `""` or of the wrong type, and the
checks follow JavaScript's own tests. If a check reads a property of an
absent or `null` `data`, it throws a TypeError and the framework answers 500.
The model keeps that outcome separate from the reported 400 and 404 errors.

Three behaviours of the code are easy to misread. The model follows the
code in each:

- The order status check refuses a *payload* status of `"delivered"`. It
  never looks at the stored order's status. So no update can set
  `"delivered"`, and an order already stored as delivered can still be
  updated.
- Dish update answers with a rebuilt dish and never writes it back. The
  dish store is unchanged.
- Order create does not check `status`. It stores every payload field,
  with the payload's `id` replaced by the fresh one.

## Model

| member | source | states |
|---|---|---|
| `Records.FindById` | src/orders/orders.controller.js:10 | The result is the smallest index holding the id. It is None exactly when no stored record has that id. |
| `Records.RemoveAt` | src/orders/orders.controller.js:129 | `splice(k, 1)` shortens the store by one. The records before k stay in place and the records after k shift down by one. |
| `Records.RemoveFoundDropsId` | src/orders/orders.controller.js:126-129 | In a store with unique ids, splicing out the record found for an id leaves no record with that id. The ids stay unique. |
| `Records.AppendFreshKeepsUnique` | src/orders/orders.controller.js:88-89 | Pushing a record whose id is not yet stored keeps the ids unique. |
| `Records.ReplaceSameIdKeepsUnique` | src/orders/orders.controller.js:115-118 | Changing a stored record while keeping its id keeps the ids unique. |
| `Pipeline.RunChecks` | src/orders/orders.controller.js:140-146 | A chain passes iff every check passes. Otherwise its outcome is that of some check that every earlier check let through. |
| `Pipeline.Existence` | src/orders/orders.controller.js:8-17 | The existence check passes iff some stored record has the route id. Otherwise it fails with 404 and the given message. Both controllers' existence checks are this check. |
| `Pipeline.FirstFailureDecides` | src/dishes/dishes.controller.js:116-121 | The first failing check decides the chain's outcome, whatever the later checks say. |
| `Orders.OrderValidation` | src/orders/orders.controller.js:8-17 | Passes iff some stored order has the route id. Otherwise it fails with 404 and "Order <id> not found.". |
| `Orders.IdValidation` | src/orders/orders.controller.js:21-32 | An absent `data` passes and a `null` one throws. Otherwise it passes iff the payload id is blank or equals the route id. Any other id fails with 400 and a message naming both ids. The exception is an id whose string conversion throws (an object with its own `toString` property, or an array holding one): the check then throws. |
| `Orders.StatusValidation` | src/orders/orders.controller.js:35-45 | Passes iff the payload status is "pending", "preparing" or "out-for-delivery". A status of "delivered" fails with 400 "A delivered order cannot be changed.". Every other failure is 400 with the message listing the four statuses. A `null` `data` throws. |
| `Orders.DeliverToValidation` | src/orders/orders.controller.js:48-54 | Passes iff `data` is present and its deliverTo is truthy. Otherwise it fails with 400 "Order must include a deliverTo.", or throws when `data` is absent or null. |
| `Orders.MobileNumberValidation` | src/orders/orders.controller.js:57-63 | Passes iff `data` is present and its mobileNumber is truthy. Otherwise it fails with 400 "Order must include a mobileNumber.", or throws when `data` is absent or null. |
| `Orders.DishesVerdict` | src/orders/orders.controller.js:66-70 | An absent or null `data` throws. If `dishes` is missing, not an array or empty, it fails with 400 "Dishes must include at least one dish.". Every failure is 400. |
| `Js.NatToStringInjective` | src/orders/orders.controller.js:74 | Two different indices print as two different digit strings. |
| `Orders.QuantityMessageNamesIndex` | src/orders/orders.controller.js:74 | The quantity message of one index never equals that of another, so the message names exactly one index. |
| `Orders.QuantityScan` | src/orders/orders.controller.js:71-76 | Every failure that the scan of the quantities reports carries status 400. |
| `Orders.ScanPassesIff` | src/orders/orders.controller.js:71-76 | The scan from an index passes iff every entry from that index on has a positive integer quantity. |
| `Orders.ScanStopsAtFirstBad` | src/orders/orders.controller.js:71-76 | The scan reports the first bad entry at or after its start. It is a TypeError for a null entry, else 400 naming that entry's index. |
| `Orders.DishesVerdictPassesIff` | src/orders/orders.controller.js:66-79 | dishesValidation passes iff `dishes` is a non-empty array and every entry has a positive integer quantity. |
| `Orders.DishesVerdictFirstBad` | src/orders/orders.controller.js:71-76 | For a non-empty `dishes` array, dishesValidation reports the smallest index whose entry is bad. |
| `Orders.DishesValidation` | src/orders/orders.controller.js:66-79 | The loop returns exactly the verdict specified by `DishesVerdict`. It exits at the first bad entry. |
| `Orders.CreateChecksPassIff` | src/orders/orders.controller.js:142 | The create chain passes iff the dishes are acceptable and deliverTo and mobileNumber are truthy. |
| `Orders.CreateReportsFirstBadDish` | src/orders/orders.controller.js:142 | A create payload with a bad dish entry is refused at the first such entry, with 400 naming its index. For a null entry it throws instead. |
| `Orders.UpdateChecksPassIff` | src/orders/orders.controller.js:144 | The update chain passes iff all of these hold: the order exists, the ids agree, the status may be set, the dishes are acceptable, and deliverTo and mobileNumber are truthy. |
| `Orders.UpdateUnknownOrderIsNotFound` | src/orders/orders.controller.js:144 | An update of an unknown order gets 404, whatever the payload holds. |
| `Orders.UpdateMismatchedIdIsRejected` | src/orders/orders.controller.js:144 | Take an existing order and a payload id that is present and differs from the route id. The update is refused for the mismatch before any other field is checked. It gets 400, or a TypeError when the id's string conversion throws. |
| `Orders.UpdateToDeliveredIsRejected` | src/orders/orders.controller.js:144 | Take an existing order whose id check passes. A payload status of "delivered" gets 400 "A delivered order cannot be changed.". |
| `Orders.UpdatedStatusIsChangeable` | src/orders/orders.controller.js:104-120 | An update that passes its chain stores a status of pending, preparing or out-for-delivery. It never stores delivered. |
| `Orders.NewOrder` | src/orders/orders.controller.js:88 | The new order has the fresh id. Every other property equals the payload's. |
| `Orders.Revised` | src/orders/orders.controller.js:115-118 | The updated order takes deliverTo, mobileNumber, status and dishes from the payload. Its id and every other property are unchanged. |
| `Orders.OrderStore.constructor` | src/orders/orders.controller.js:4 | The store starts as the given sequence of orders. |
| `Orders.OrderStore.List` | src/orders/orders.controller.js:82-84 | The response is the whole store, in order. |
| `Orders.OrderStore.Create` | src/orders/orders.controller.js:87-91 | On a passing chain it appends exactly one order at the end: the payload under the fresh id. It answers 201 with that order. On a failing chain the store is unchanged and the first failure is reported. Unique ids stay unique. |
| `Orders.OrderStore.Read` | src/orders/orders.controller.js:94-101 | It answers with the first order that has the route id. If there is none, it answers 404. |
| `Orders.OrderStore.Update` | src/orders/orders.controller.js:104-120 | On a passing chain only the found order changes, as `Revised` states. Its length and every other order stay the same, and the stored status is never delivered. On a failing chain nothing changes. Unique ids stay unique. |
| `Orders.OrderStore.Destroy` | src/orders/orders.controller.js:123-137 | An unknown id gets 404. For a found order with status "pending", exactly that entry is spliced out, the others keep their order, and the answer is 204. For any other status the store is unchanged and the answer is 400. |
| `Dishes.NameValidation` | src/dishes/dishes.controller.js:8-14 | Passes iff the name is truthy. Otherwise it fails with 400 "Dish must include a name.", or throws when `data` is absent or null. |
| `Dishes.DescriptionValidation` | src/dishes/dishes.controller.js:17-23 | Passes iff the description is truthy. Otherwise it fails with 400 "Dish must include a description.", or throws when `data` is absent or null. |
| `Dishes.ImageUrlValidation` | src/dishes/dishes.controller.js:26-32 | Passes iff image_url is truthy. Otherwise it fails with 400 "image_url", or throws when `data` is absent or null. |
| `Dishes.PriceValidation` | src/dishes/dishes.controller.js:35-46 | A blank price (null, undefined or "") fails with "Dish must include a price.". Any other price passes iff it is a number > 0 (Infinity included), else it fails with "The price must be a number greater than 0.". |
| `Dishes.DishValidation` | src/dishes/dishes.controller.js:49-58 | Passes iff some stored dish has the route id. Otherwise it fails with 404 and "Dish <id> not found.". |
| `Dishes.IdValidation` | src/dishes/dishes.controller.js:61-72 | An absent or null `data` throws. Otherwise it passes iff the payload id is blank or equals the route id. Any other id fails with 400 and a message naming both ids, unless its string conversion throws, in which case the check throws. |
| `Dishes.CreateChecksPassIff` | src/dishes/dishes.controller.js:118 | The create chain passes iff name, description and image_url are truthy and price is a number > 0. |
| `Dishes.CreateRefusesBadFields` | src/dishes/dishes.controller.js:118 | A create payload with a bad field is refused with 400. If `data` is absent or null, it throws instead. |
| `Dishes.UpdateChecksPassIff` | src/dishes/dishes.controller.js:120 | The update chain passes iff the dish exists, the ids agree and the four fields are acceptable. |
| `Dishes.UpdateUnknownDishIsNotFound` | src/dishes/dishes.controller.js:120 | An update of an unknown dish gets 404, whatever the payload holds. |
| `Dishes.UpdateMismatchedIdIsRejected` | src/dishes/dishes.controller.js:120 | Take an existing dish and a payload id that is present and differs from the route id. The update is refused for the mismatch before any field is checked. It gets 400, or a TypeError when the id's string conversion throws. |
| `Dishes.NewDish` | src/dishes/dishes.controller.js:82-88 | The built dish has exactly the properties id, name, description, price and image_url. The id is the given one and the rest come from the payload. |
| `Dishes.DishStore.constructor` | src/dishes/dishes.controller.js:4 | The store starts as the given sequence of dishes. |
| `Dishes.DishStore.List` | src/dishes/dishes.controller.js:75-77 | The response is the whole store, in order. |
| `Dishes.DishStore.Create` | src/dishes/dishes.controller.js:80-91 | On a passing chain it appends exactly one dish at the end: the payload's four fields under the fresh id. It answers 201. On a failing chain the store is unchanged. Unique ids stay unique. |
| `Dishes.DishStore.Read` | src/dishes/dishes.controller.js:94-99 | It answers with the first dish that has the route id. If there is none, it answers 404. |
| `Dishes.DishStore.Update` | src/dishes/dishes.controller.js:102-113 | On a passing chain it answers with the payload's fields under the route id. The store is never written. |

## Left out

- The Express request, response and `next` plumbing is not modelled. A route
  is a method that takes the route id and the body's `data` and returns a
  response value. The request body is taken to be an object, as the JSON body
  parser supplies. A thrown TypeError is the `ServerError` response, which
  stands for the framework's 500.
- `nextId` (src/utils/nextId) is not part of this model. `Create` takes the
  fresh id as a parameter, with the precondition that no stored record has it.
- The data modules src/data/orders-data and src/data/dishes-data are not part
  of this model. Each store's constructor takes an arbitrary initial sequence.
- Several checks call `next(err)` and then fall through to `next()`. That
  happens in deliverToValidation, mobileNumberValidation, the three dish text
  checks and priceValidation. What the framework does with the second call is
  not modelled. Each check yields exactly one outcome, its first report.
- Some defensive branches cannot be reached after their route's chain, so
  they are not modelled. These are the missing-`data` and not-found branches
  in order update (src/orders/orders.controller.js:107-114), the empty-result
  404 in order read (src/orders/orders.controller.js:98-100) and the
  not-found branch in destroy (src/orders/orders.controller.js:134-136).
- Finite JavaScript numbers are exact reals. A number literal in the body is
  not rounded to the nearest double, so a literal such as
  `1.0000000000000000001` is not an integer here. For JavaScript it parses
  as 1 and passes the quantity check. Infinity and -Infinity, which
  `JSON.parse` yields for a literal beyond the double range such as `1e400`,
  are modelled. NaN cannot come out of JSON and is not modelled.
- Js.Show: renders a non-integral number as a placeholder rather than
  JavaScript's shortest round-trip form. It also prints an integral number of
  magnitude 1e21 or more in full, where JavaScript uses the exponent form
  (`String(1e21)` is "1e+21"). This affects only the id-mismatch messages of
  `Orders.IdValidation` and `Dishes.IdValidation` for such an id.
- Js.Field: models property reads for this service's property names only.
  Built-in properties of strings and arrays, such as `length`, are not
  modelled.
- Stored records are values. Two store entries that are the same object
  cannot be expressed, and an update changes only the entry found first.
- Create routes have no route id. Their chains are run with `""`, which none
  of their checks reads.
- The source has no concurrency, and none is modelled.
