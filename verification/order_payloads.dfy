/**
  What the two customer screens send to the backend, and what the backend's
  rule lists then decide about it.  A form value travels as JSON: null stays
  a present field that is neither an integer nor a string, and NaN is
  written as null.
*/
module OrderPayloads {
  import opened Wrappers
  import opened ScreenValues
  import opened OrderValidation
  import Create = RestaurantOrderScreen
  import Edit = EditOrderScreen

  /** A quantity as the backend reads it. */
  function QtyField(q: Qty): IntField {
    match q
    case Num(n) => Int(n)
    case NaN => NotInt
  }

  /** The body posted by `create(values)` from the new-order form. */
  function CreateBody(form: Create.OrderForm): Body {
    Body(
      Some(match form.restaurantId case Some(r) => Int(r) case None => NotInt),
      Some(match form.address case Some(a) => Text(a) case None => NotText),
      Some(match form.products
           case Some(lines) =>
             Array(seq(|lines|, i requires 0 <= i < |lines| =>
               Line(Some(Int(lines[i].productId)), Some(QtyField(lines[i].quantity)))))
           case None => NotArray))
  }

  /** The body sent by `update(orderId, values)` from the edit screen. */
  function UpdateBody(values: Edit.OrderValues): Body {
    var lines := values.products;
    Body(
      None,
      Some(Text(values.address)),
      Some(Array(seq(|lines|, i requires 0 <= i < |lines| =>
        Line(Some(Int(lines[i].productId)), Some(Int(lines[i].quantity)))))))
  }

  /** A new-order form that passed the yup schema, built by the Confirm
      button from a counter with no negative count, is rejected by the
      backend only for reasons the screen cannot see: an empty product list,
      the database, a missing restaurant, or a product that is unavailable
      or of another restaurant.  Its ids are ascending, so the duplicate-id
      rejection never applies. */
  lemma CreateFormDecided(db: Store, form: Create.OrderForm)
    requires Create.ValidationSchema(form)
    requires Create.AscendingIds(form.products.value)
    requires forall i | 0 <= i < |form.products.value| ::
      form.products.value[i].quantity == NaN || form.products.value[i].quantity.n >= 1
    ensures CreateErrors(db, CreateBody(form)) == [] <==>
      && db.up
      && form.restaurantId.value in db.restaurants
      && |form.products.value| >= 1
      && forall i | 0 <= i < |form.products.value| ::
        var id := form.products.value[i].productId;
        id in db.products && db.products[id].availability
        && db.products[id].restaurantId == form.restaurantId.value
  {
    var body := CreateBody(form);
    var lines := body.products.value.lines;
    var products := form.products.value;
    assert forall i | 0 <= i < |lines| :: ToInt(lines[i].productId) == Some(products[i].productId);
    CreateAdmits(db, body);
  }

  /** The schema accepts a form whose product list is empty (no product
      was counted), but the backend's `create` rules reject it. */
  lemma EmptyCartPassesSchemaOnly(db: Store, form: Create.OrderForm)
    requires Create.ValidationSchema(form) && form.products == Some([])
    ensures FieldError(ProductsParam, InvalidValue) in CreateErrors(db, CreateBody(form))
  {
  }

  /** The lines the edit screen stages from a well-formed quantity map whose
      keys are product ids (database ids start at 1), when there is at least
      one, are rejected by the backend's `update` rules only for reasons the
      screen cannot see: the database, an order that is missing or no longer
      pending, or a product that is unavailable or not of the order's
      restaurant.  The staged ids are distinct. */
  lemma EditPayloadDecided(db: Store, orderId: int, m: Edit.QuantityMap, address: string)
    requires m.Valid()
    requires forall j | 0 <= j < |m.keys| :: m.keys[j] >= 1
    requires Edit.Reshape(m.Entries()) != []
    ensures var staged := Edit.Reshape(m.Entries());
      UpdateErrors(db, orderId, UpdateBody(Edit.OrderValues(address, staged))) == [] <==>
      && db.up
      && orderId in db.orders && db.orders[orderId].status == Pending
      && forall i | 0 <= i < |staged| ::
        var id := staged[i].productId;
        id in db.products && db.products[id].availability
        && db.products[id].restaurantId == db.orders[orderId].restaurantId
  {
    var entries := m.Entries();
    var staged := Edit.Reshape(entries);
    var body := UpdateBody(Edit.OrderValues(address, staged));
    var lines := body.products.value.lines;
    Edit.ReshapeDistinct(entries);
    forall i | 0 <= i < |staged| ensures staged[i].quantity > 0 && staged[i].productId >= 1 {
      Edit.ReshapeMembers(entries, staged[i]);
      var j :| 0 <= j < |entries| && entries[j] == (staged[i].productId, Num(staged[i].quantity));
    }
    assert forall i | 0 <= i < |lines| :: ToInt(lines[i].productId) == Some(staged[i].productId);
    UpdateAdmits(db, orderId, body);
  }
}
