/** The dishes controller: the request checks, the check chains of each
    route, and the route handlers over the process-wide dish store. */
module Dishes {
  import opened Js
  import opened Records
  import opened Pipeline

  const NameMessage := "Dish must include a name."
  const DescriptionMessage := "Dish must include a description."
  const ImageUrlMessage := "image_url"
  const MissingPriceMessage := "Dish must include a price."
  const PriceMessage := "The price must be a number greater than 0."

  function NotFoundMessage(id: string): string {
    "Dish " + id + " not found."
  }

  function MismatchMessage(id: Value, routeId: string): string
    requires !ShowThrows(id)
  {
    "Dish id does not match route id. Dish: " + Show(id) + ", Route: " + routeId
  }

  /** `typeof price === "number" && price > 0`: a positive number, Infinity included. */
  predicate PriceOk(price: Value) {
    (price.Num? && price.n > 0.0) || price == Inf(false)
  }

  /* ---------------------------------------------------------------- checks */

  /** `!v || v === ""` on a required text field: it is absent, empty or otherwise falsy. */
  function Presence(data: Value, key: string, message: string): (o: Outcome)
    ensures o == TypeError <==> Nullish(data)
    ensures o == Pass <==> !Nullish(data) && Truthy(Field(data, key))
    ensures o.Fail? ==> o == Fail(400, message)
  {
    if Nullish(data) then TypeError
    else
      var v := Field(data, key);
      if !Truthy(v) || v == Str("") then Fail(400, message) else Pass
  }

  /** nameValidation. */
  function NameValidation(data: Value): (o: Outcome)
    ensures o == TypeError <==> Nullish(data)
    ensures o == Pass <==> !Nullish(data) && Truthy(Field(data, "name"))
    ensures o.Fail? ==> o == Fail(400, NameMessage)
  {
    Presence(data, "name", NameMessage)
  }

  /** descriptionValidation. */
  function DescriptionValidation(data: Value): (o: Outcome)
    ensures o == TypeError <==> Nullish(data)
    ensures o == Pass <==> !Nullish(data) && Truthy(Field(data, "description"))
    ensures o.Fail? ==> o == Fail(400, DescriptionMessage)
  {
    Presence(data, "description", DescriptionMessage)
  }

  /** imageUrlValidation. */
  function ImageUrlValidation(data: Value): (o: Outcome)
    ensures o == TypeError <==> Nullish(data)
    ensures o == Pass <==> !Nullish(data) && Truthy(Field(data, "image_url"))
    ensures o.Fail? ==> o == Fail(400, ImageUrlMessage)
  {
    Presence(data, "image_url", ImageUrlMessage)
  }

  /** priceValidation: a blank price is reported as missing; any other price
      must be a number greater than 0. Only the first report counts. */
  function PriceValidation(data: Value): (o: Outcome)
    ensures o == TypeError <==> Nullish(data)
    ensures o == Pass <==> !Nullish(data) && PriceOk(Field(data, "price"))
    ensures o == Fail(400, MissingPriceMessage) <==> !Nullish(data) && Blank(Field(data, "price"))
    ensures o == Fail(400, PriceMessage) <==> !Nullish(data) && !Blank(Field(data, "price")) && !PriceOk(Field(data, "price"))
  {
    if Nullish(data) then TypeError
    else
      var price := Field(data, "price");
      if price == Null || price == Missing || price == Str("") then Fail(400, MissingPriceMessage)
      else if (price.Num? && price.n > 0.0) || price == Inf(false) then Pass
      else Fail(400, PriceMessage)
  }

  /** dishValidation: the route id names a stored dish. */
  function DishValidation(routeId: string, dishes: seq<Record>): (o: Outcome)
    ensures o == Pass <==> ContainsId(dishes, routeId)
    ensures o != Pass ==> o == Fail(404, NotFoundMessage(routeId))
  {
    Existence(dishes, routeId, NotFoundMessage(routeId))
  }

  /** A payload id that is present and differs from the route id. */
  predicate Mismatched(data: Value, routeId: string)
    requires !Nullish(data)
  {
    !Blank(Field(data, "id")) && Field(data, "id") != Str(routeId)
  }

  /** idValidation: `const { data: { id } } = req.body` has no default, so an
      absent `data` throws here; otherwise a non-blank payload id must equal
      the route id. Reporting a mismatch converts the payload id to a string,
      which throws for an id that `Show` cannot convert. */
  function IdValidation(data: Value, routeId: string): (o: Outcome)
    ensures o == TypeError <==> Nullish(data) || (Mismatched(data, routeId) && ShowThrows(Field(data, "id")))
    ensures !Nullish(data) ==> (o == Pass <==> !Mismatched(data, routeId))
    ensures o.Fail? ==> !Nullish(data) && !ShowThrows(Field(data, "id")) && o == Fail(400, MismatchMessage(Field(data, "id"), routeId))
  {
    if Nullish(data) then TypeError
    else
      var id := Field(data, "id");
      if id == Null || id == Missing || id == Str("") then Pass
      else if id != Str(routeId) then
        if ShowThrows(id) then TypeError else Fail(400, MismatchMessage(id, routeId))
      else Pass
  }

  /* ---------------------------------------------------------- check chains */

  datatype Check = DishExists | IdMatchesRoute | NamePresent | DescriptionPresent | ImageUrlPresent | PriceValid

  /** One check of a chain, on the route id, the payload's `data` and the store. */
  function Validate(c: Check, routeId: string, data: Value, dishes: seq<Record>): Outcome {
    match c
    case DishExists => DishValidation(routeId, dishes)
    case IdMatchesRoute => IdValidation(data, routeId)
    case NamePresent => NameValidation(data)
    case DescriptionPresent => DescriptionValidation(data)
    case ImageUrlPresent => ImageUrlValidation(data)
    case PriceValid => PriceValidation(data)
  }

  /** The chains exported for each route, in order. */
  const CreateChecks: seq<Check> := [NamePresent, DescriptionPresent, ImageUrlPresent, PriceValid]
  const ReadChecks: seq<Check> := [DishExists]
  const UpdateChecks: seq<Check> := [DishExists, IdMatchesRoute, NamePresent, DescriptionPresent, ImageUrlPresent, PriceValid]

  function Validation(checks: seq<Check>, routeId: string, data: Value, dishes: seq<Record>): Outcome {
    RunChecks(checks, c => Validate(c, routeId, data, dishes))
  }

  /** The four field checks accept the payload. */
  predicate FieldsOk(data: Value) {
    !Nullish(data) && Truthy(Field(data, "name")) && Truthy(Field(data, "description")) &&
    Truthy(Field(data, "image_url")) && PriceOk(Field(data, "price"))
  }

  /** A create request passes its chain exactly when its four fields are
      acceptable. POST /dishes has no route id; none of these checks reads
      it, nor the store. */
  lemma CreateChecksPassIff(data: Value, dishes: seq<Record>)
    ensures Validation(CreateChecks, "", data, dishes) == Pass <==> FieldsOk(data)
  {
  }

  /** A create request with a bad field is refused with 400 (or, with no
      `data` at all, with a TypeError), so nothing is stored. */
  lemma CreateRefusesBadFields(data: Value, dishes: seq<Record>)
    requires !FieldsOk(data)
    ensures var o := Validation(CreateChecks, "", data, dishes);
      o != Pass && (Nullish(data) ==> o == TypeError) && (!Nullish(data) ==> o.Fail? && o.status == 400)
  {
  }

  /** An update request passes its chain exactly when the dish exists, the
      ids agree and the four fields are acceptable. */
  lemma UpdateChecksPassIff(routeId: string, data: Value, dishes: seq<Record>)
    ensures Validation(UpdateChecks, routeId, data, dishes) == Pass <==>
      ContainsId(dishes, routeId) && IdValidation(data, routeId) == Pass && FieldsOk(data)
  {
  }

  /** The existence check comes first: an unknown dish is reported as 404
      whatever the payload holds. */
  lemma UpdateUnknownDishIsNotFound(routeId: string, data: Value, dishes: seq<Record>)
    requires !ContainsId(dishes, routeId)
    ensures Validation(UpdateChecks, routeId, data, dishes) == Fail(404, NotFoundMessage(routeId))
  {
  }

  /** A payload id that differs from the route id is reported, for a dish
      that exists, before any field is looked at: with 400, or with a
      TypeError when the id cannot be converted for the message. */
  lemma UpdateMismatchedIdIsRejected(routeId: string, data: Value, dishes: seq<Record>)
    requires ContainsId(dishes, routeId) && !Nullish(data) && Mismatched(data, routeId)
    ensures Validation(UpdateChecks, routeId, data, dishes) ==
      if ShowThrows(Field(data, "id")) then TypeError
      else Fail(400, MismatchMessage(Field(data, "id"), routeId))
  {
  }

  /* --------------------------------------------------------------- records */

  /** `{ id, name, description, price, image_url }` with the payload's fields. */
  function NewDish(id: string, data: Value): (r: Record)
    requires !Nullish(data)
    ensures HasId(r, id)
    ensures r.Keys == {"id", "name", "description", "price", "image_url"}
    ensures forall key :: key in r && key != "id" ==> r[key] == Field(data, key)
  {
    map["id" := Str(id), "name" := Field(data, "name"), "description" := Field(data, "description"),
        "price" := Field(data, "price"), "image_url" := Field(data, "image_url")]
  }

  /* ----------------------------------------------------------------- store */

  /** The process-wide dish store and the routes that use it. */
  class DishStore {
    var dishes: seq<Record>

    /** The store starts from the data module's dishes. */
    constructor (initial: seq<Record>)
      ensures dishes == initial
    {
      dishes := initial;
    }

    /** GET /dishes: every dish, in store order. */
    method List() returns (res: Response)
      ensures res == All(dishes)
    {
      res := All(dishes);
    }

    /** POST /dishes: append a dish built from the payload under a fresh id. */
    method Create(data: Value, freshId: string) returns (res: Response)
      requires !ContainsId(dishes, freshId)
      modifies this
      ensures var o := Validation(CreateChecks, "", data, old(dishes));
        if o == Pass then
          FieldsOk(data) && dishes == old(dishes) + [NewDish(freshId, data)] &&
          res == One(201, NewDish(freshId, data))
        else
          dishes == old(dishes) && res == Rejected(o)
      ensures UniqueIds(old(dishes)) ==> UniqueIds(dishes)
    {
      var o := Validation(CreateChecks, "", data, dishes);
      if o != Pass {
        res := Rejected(o);
        return;
      }
      CreateChecksPassIff(data, dishes);
      var dish := NewDish(freshId, data);
      if UniqueIds(dishes) {
        AppendFreshKeepsUnique(dishes, dish, freshId);
      }
      dishes := dishes + [dish];
      res := One(201, dish);
    }

    /** GET /dishes/:dishId: the first dish with the route id. */
    method Read(routeId: string) returns (res: Response)
      ensures ContainsId(dishes, routeId) ==> res == One(200, dishes[FindById(dishes, routeId).value])
      ensures !ContainsId(dishes, routeId) ==> res == Error(404, NotFoundMessage(routeId))
    {
      var o := Validation(ReadChecks, routeId, Missing, dishes);
      assert ReadChecks[0] == DishExists;
      if o != Pass {
        res := Rejected(o);
        return;
      }
      res := One(200, dishes[FindById(dishes, routeId).value]);
    }

    /** PUT /dishes/:dishId: answer with the dish rebuilt from the payload
        under the route id. The store is not written (no modifies clause). */
    method Update(routeId: string, data: Value) returns (res: Response)
      ensures var o := Validation(UpdateChecks, routeId, data, dishes);
        if o == Pass then
          ContainsId(dishes, routeId) && FieldsOk(data) && res == One(200, NewDish(routeId, data))
        else
          res == Rejected(o)
    {
      var o := Validation(UpdateChecks, routeId, data, dishes);
      if o != Pass {
        res := Rejected(o);
        return;
      }
      UpdateChecksPassIff(routeId, data, dishes);
      res := One(200, NewDish(routeId, data));
    }
  }
}
