/**
  The order validation gate of the backend: the five database-backed checks
  (restaurant exists, products available, products of one restaurant, order
  still pending, products of the order's original restaurant) and the two
  rule lists run before creating (`POST /orders`) and editing
  (`PUT /orders/:orderId`) an order.

  Every check is a decision over a read-only snapshot of the Restaurant,
  Product and Order tables and the request body.  A `findAll` over a list of
  ids is the set of existing rows whose id is in the list: distinct rows,
  unknown ids silently dropped.  Whatever the checks do when a read fails or
  the body has the wrong shape (an exception inside their `try`) becomes a
  rejection with reason `Caught`.
*/
module OrderValidation {
  import opened Wrappers

  // ---------------------------------------------------------------------
  // Request body
  // ---------------------------------------------------------------------

  /** A body field read by `isInt`: `Int(i)` is a value that `isInt` accepts
      and `toInt` turns into `i`; `NotInt` is any value `isInt` rejects
      (`toInt` turns it into NaN). */
  datatype IntField = Int(i: int) | NotInt

  /** A body field read by `isString`. */
  datatype TextField = Text(s: string) | NotText

  /** One element of `products`: `{productId, quantity}`, either of which
      may be missing (`None`). */
  datatype Line = Line(productId: Option<IntField>, quantity: Option<IntField>)

  /** The `products` field when present: an array of lines or anything else. */
  datatype ProductsField = Array(lines: seq<Line>) | NotArray

  /** A request body; `None` is a field that is absent. */
  datatype Body = Body(
    restaurantId: Option<IntField>,
    address: Option<TextField>,
    products: Option<ProductsField>)

  // ---------------------------------------------------------------------
  // Database snapshot
  // ---------------------------------------------------------------------

  /** The order statuses 'pending', 'in process', 'sent' and 'delivered'. */
  datatype Status = Pending | InProcess | Sent | Delivered

  datatype ProductRow = ProductRow(restaurantId: int, availability: bool)

  datatype OrderRow = OrderRow(restaurantId: int, status: Status)

  /** The tables the checks read, keyed by primary key.  When `up` is false
      the database does not answer and every read throws. */
  datatype Store = Store(
    up: bool,
    restaurants: set<int>,
    products: map<int, ProductRow>,
    orders: map<int, OrderRow>)

  // ---------------------------------------------------------------------
  // Outcomes
  // ---------------------------------------------------------------------

  /** Why a validator rejected:
      InvalidValue        a field rule failed ('Invalid value');
      RestaurantNotFound  'Resturant not found in database';
      NotSameRestaurant   'Products do not belong to the same restaurant';
      NotAvailable        'Some products are not available';
      NotPending          'Order is not in pending state';
      Caught              an exception thrown inside a check, rethrown as
                          its message. */
  datatype Reason =
    | InvalidValue
    | RestaurantNotFound
    | NotSameRestaurant
    | NotAvailable
    | NotPending
    | Caught

  /** A custom check resolves (`Pass`) or rejects with a reason. */
  datatype Outcome = Pass | Reject(reason: Reason)

  /** The field an error is reported against; `QuantityAt(i)` is
      `products[i].quantity`. */
  datatype Param =
    | RestaurantIdParam
    | AddressParam
    | ProductsParam
    | QuantityAt(index: nat)
    | ProductIdAt(index: nat)
    | OrderIdParam

  datatype FieldError = FieldError(param: Param, reason: Reason)

  // ---------------------------------------------------------------------
  // Reading the body and the store
  // ---------------------------------------------------------------------

  /** The integer a field holds after `toInt` (or `parseInt`); `None` is NaN. */
  function ToInt(f: Option<IntField>): Option<int> {
    match f
    case Some(Int(i)) => Some(i)
    case _ => None
  }

  /** The lines of `products` when it is an array, otherwise none (a `*`
      wildcard over a non-array selects nothing). */
  function Elements(products: Option<ProductsField>): seq<Line> {
    match products
    case Some(Array(lines)) => lines
    case _ => []
  }

  /** `products.map(x => x.productId)` after sanitising. */
  function RequestedIds(lines: seq<Line>): seq<Option<int>> {
    seq(|lines|, i requires 0 <= i < |lines| => ToInt(lines[i].productId))
  }

  /** The integers that occur in a list of ids (NaN entries match no row). */
  function IdSet(ids: seq<Option<int>>): set<int> {
    if ids == [] then {}
    else (match ids[0] case Some(k) => {k} case None => {}) + IdSet(ids[1..])
  }

  /** `Product.findAll({ where: { id: ids } })`: the existing product rows
      whose id was requested, each once. */
  function FindAll(db: Store, lines: seq<Line>): set<int> {
    set k | k in IdSet(RequestedIds(lines)) && k in db.products
  }

  /** The same query with `availability: true` added to the filter. */
  function FindAllAvailable(db: Store, lines: seq<Line>): set<int> {
    set k | k in FindAll(db, lines) && db.products[k].availability
  }

  // ---------------------------------------------------------------------
  // The five custom checks
  // ---------------------------------------------------------------------

  /** `checkRestaurantExists`: looks the body's restaurant up by key. */
  function CheckRestaurantExists(db: Store, body: Body): Outcome {
    if !db.up then Reject(Caught)
    else if ToInt(body.restaurantId).Some? && ToInt(body.restaurantId).value in db.restaurants then Pass
    else Reject(RestaurantNotFound)
  }

  /** `checkSameRestaurant`: every product row found for the requested ids
      has the body's restaurant (after `parseInt`; NaN equals nothing). */
  function CheckSameRestaurant(db: Store, body: Body): Outcome {
    match body.products
    case Some(Array(lines)) =>
      if !db.up then Reject(Caught)
      else if exists k | k in FindAll(db, lines) :: Some(db.products[k].restaurantId) != ToInt(body.restaurantId)
      then Reject(NotSameRestaurant)
      else Pass
    case _ => Reject(Caught)
  }

  /** `checkDisponibilidad`: the number of available rows found for the
      requested ids must equal the number of requested lines. */
  function CheckDisponibilidad(db: Store, body: Body): Outcome {
    match body.products
    case Some(Array(lines)) =>
      if !db.up then Reject(Caught)
      else if |FindAllAvailable(db, lines)| != |lines| then Reject(NotAvailable)
      else Pass
    case _ => Reject(Caught)
  }

  /** `checkPending`: a missing order makes `order.status` throw. */
  function CheckPending(db: Store, orderId: int): Outcome {
    if !db.up then Reject(Caught)
    else if orderId !in db.orders then Reject(Caught)
    else if db.orders[orderId].status == Pending then Pass
    else Reject(NotPending)
  }

  /** `checkOriginalRestaurant`: every product row found for the requested
      ids has the stored order's restaurant.  `order.restaurantId` is only
      read when some row was found, so a missing order throws only then. */
  function CheckOriginalRestaurant(db: Store, orderId: int, body: Body): Outcome {
    if !db.up then Reject(Caught)
    else
      match body.products
      case Some(Array(lines)) =>
        var found := FindAll(db, lines);
        if found == {} then Pass
        else if orderId !in db.orders then Reject(Caught)
        else if exists k | k in found :: db.products[k].restaurantId != db.orders[orderId].restaurantId
        then Reject(NotSameRestaurant)
        else Pass
      case _ => Reject(Caught)
  }

  // ---------------------------------------------------------------------
  // Field rules
  // ---------------------------------------------------------------------

  /** One validator of a chain: no error when it holds. */
  function Rule(holds: bool, param: Param): seq<FieldError> {
    if holds then [] else [FieldError(param, InvalidValue)]
  }

  /** A custom validator: its rejection reason becomes the error. */
  function Custom(param: Param, o: Outcome): seq<FieldError> {
    if o.Pass? then [] else [FieldError(param, o.reason)]
  }

  function IsText(f: Option<TextField>): bool {
    f.Some? && f.value.Text?
  }

  /** `exists().isArray({ min: 1 })` without the `exists`. */
  function IsNonEmptyArray(f: Option<ProductsField>): bool {
    f.Some? && f.value.Array? && |f.value.lines| >= 1
  }

  /** `isInt()` and `isInt({ min: 1 })` on a possibly missing field. */
  function IsIntAtLeast(f: Option<IntField>, min: Option<int>): bool {
    f.Some? && f.value.Int? && (min.Some? ==> f.value.i >= min.value)
  }

  /** The validators applied to each element through a `products.*.x` path. */
  datatype LineCheck =
    | QuantityExists
    | QuantityAtLeastOne
    | ProductIdExists
    | ProductIdIsInt
    | ProductIdAtLeastOne

  function LineHolds(c: LineCheck, l: Line): bool {
    match c
    case QuantityExists => l.quantity.Some?
    case QuantityAtLeastOne => IsIntAtLeast(l.quantity, Some(1))
    case ProductIdExists => l.productId.Some?
    case ProductIdIsInt => IsIntAtLeast(l.productId, None)
    case ProductIdAtLeastOne => IsIntAtLeast(l.productId, Some(1))
  }

  function LineParam(c: LineCheck, index: nat): Param {
    match c
    case QuantityExists => QuantityAt(index)
    case QuantityAtLeastOne => QuantityAt(index)
    case _ => ProductIdAt(index)
  }

  /** One validator run over every element, `from` being the index of
      `lines[0]` in the request. */
  function LineErrors(c: LineCheck, lines: seq<Line>, from: nat): seq<FieldError>
    decreases |lines|
  {
    if lines == [] then []
    else Rule(LineHolds(c, lines[0]), LineParam(c, from)) + LineErrors(c, lines[1..], from + 1)
  }

  /** The `create` rule list: every error it reports, one per failing
      validator; the request is admitted when there is none. */
  function CreateErrors(db: Store, body: Body): seq<FieldError> {
    var lines := Elements(body.products);
    Rule(body.restaurantId.Some?, RestaurantIdParam)
    + Rule(IsIntAtLeast(body.restaurantId, None), RestaurantIdParam)
    + Custom(RestaurantIdParam, CheckRestaurantExists(db, body))
    + Rule(body.address.Some?, AddressParam)
    + Rule(IsText(body.address), AddressParam)
    + Rule(body.products.Some?, ProductsParam)
    + Rule(IsNonEmptyArray(body.products), ProductsParam)
    + LineErrors(QuantityAtLeastOne, lines, 0)
    + LineErrors(ProductIdExists, lines, 0)
    + LineErrors(ProductIdIsInt, lines, 0)
    + Custom(ProductsParam, CheckDisponibilidad(db, body))
    + Custom(ProductsParam, CheckSameRestaurant(db, body))
  }

  /** The `update` rule list for the order named by the route's `orderId`. */
  function UpdateErrors(db: Store, orderId: int, body: Body): seq<FieldError> {
    var lines := Elements(body.products);
    Rule(body.restaurantId.None?, RestaurantIdParam)
    + Rule(body.address.Some?, AddressParam)
    + Rule(IsText(body.address), AddressParam)
    + Rule(body.products.Some?, ProductsParam)
    + Rule(IsNonEmptyArray(body.products), ProductsParam)
    + LineErrors(QuantityExists, lines, 0)
    + LineErrors(QuantityAtLeastOne, lines, 0)
    + LineErrors(ProductIdExists, lines, 0)
    + LineErrors(ProductIdAtLeastOne, lines, 0)
    + Rule(body.products.Some?, ProductsParam)
    + Custom(ProductsParam, CheckDisponibilidad(db, body))
    + Rule(body.products.Some?, ProductsParam)
    + Custom(ProductsParam, CheckOriginalRestaurant(db, orderId, body))
    + Custom(OrderIdParam, CheckPending(db, orderId))
  }

  // ---------------------------------------------------------------------
  // What the checks decide
  // ---------------------------------------------------------------------

  /** A requested id names an existing product row. */
  predicate Exists(db: Store, id: Option<int>) {
    id.Some? && id.value in db.products
  }

  /** A requested id names an existing product row marked available. */
  predicate Available(db: Store, id: Option<int>) {
    Exists(db, id) && db.products[id.value].availability
  }

  /** Every entry is an integer and no integer occurs twice. */
  predicate DistinctInts(ids: seq<Option<int>>) {
    && (forall i | 0 <= i < |ids| :: ids[i].Some?)
    && (forall i, j | 0 <= i < j < |ids| :: ids[i] != ids[j])
  }

  /** The requested ids are pairwise distinct and each names an available
      product. */
  predicate AllAvailableOnce(db: Store, lines: seq<Line>) {
    && (forall i | 0 <= i < |lines| :: Available(db, ToInt(lines[i].productId)))
    && (forall i, j | 0 <= i < j < |lines| :: ToInt(lines[i].productId) != ToInt(lines[j].productId))
  }

  /** Every requested id that names an existing product names one of
      restaurant `rid` (NaN, `None`, is nobody's restaurant). */
  predicate KnownProductsOf(db: Store, lines: seq<Line>, rid: Option<int>) {
    forall i | 0 <= i < |lines| && Exists(db, ToInt(lines[i].productId)) ::
      Some(db.products[ToInt(lines[i].productId).value].restaurantId) == rid
  }

  lemma {:induction false} IdSetMembers(ids: seq<Option<int>>, k: int)
    ensures k in IdSet(ids) <==> Some(k) in ids
  {
    if ids != [] {
      IdSetMembers(ids[1..], k);
      assert ids == [ids[0]] + ids[1..];
    }
  }

  /** A list of ids holds at most as many distinct integers as entries, and
      exactly as many when its entries are distinct integers. */
  lemma {:induction false} IdSetSize(ids: seq<Option<int>>)
    ensures |IdSet(ids)| <= |ids|
    ensures |IdSet(ids)| == |ids| <==> DistinctInts(ids)
  {
    if ids != [] {
      var tail := ids[1..];
      IdSetSize(tail);
      assert DistinctInts(ids) <==> ids[0].Some? && ids[0] !in tail && DistinctInts(tail) by {
        if DistinctInts(ids) {
          forall j | 0 <= j < |tail| ensures tail[j] != ids[0] {
            assert tail[j] == ids[j + 1];
          }
          forall i, j | 0 <= i < j < |tail| ensures tail[i] != tail[j] {
            assert tail[i] == ids[i + 1] && tail[j] == ids[j + 1];
          }
        }
        if ids[0].Some? && ids[0] !in tail && DistinctInts(tail) {
          forall i, j | 0 <= i < j < |ids| ensures ids[i] != ids[j] {
            if i == 0 { assert ids[j] == tail[j - 1]; }
            else { assert ids[i] == tail[i - 1] && ids[j] == tail[j - 1]; }
          }
          forall i | 0 <= i < |ids| ensures ids[i].Some? {
            if i > 0 { assert ids[i] == tail[i - 1]; }
          }
        }
      }
      match ids[0]
      case None =>
      case Some(k) =>
        IdSetMembers(tail, k);
        if k in IdSet(tail) {
          assert IdSet(ids) == IdSet(tail);
        } else {
          assert |IdSet(ids)| == |IdSet(tail)| + 1;
        }
    }
  }

  lemma FoundAvailableMembers(db: Store, lines: seq<Line>, k: int)
    ensures k in FindAllAvailable(db, lines) <==>
      (exists i | 0 <= i < |lines| :: ToInt(lines[i].productId) == Some(k)) && Available(db, Some(k))
  {
    var ids := RequestedIds(lines);
    IdSetMembers(ids, k);
    if Some(k) in ids {
      var i :| 0 <= i < |lines| && ids[i] == Some(k);
      assert ToInt(lines[i].productId) == Some(k);
    }
    if exists i | 0 <= i < |lines| :: ToInt(lines[i].productId) == Some(k) {
      var i :| 0 <= i < |lines| && ToInt(lines[i].productId) == Some(k);
      assert ids[i] == Some(k);
    }
  }

  /** `checkDisponibilidad` passes exactly when the database answers, the
      products field is an array, and its ids are pairwise distinct and all
      name available products. */
  lemma DisponibilidadDecides(db: Store, body: Body)
    ensures CheckDisponibilidad(db, body) == Pass <==>
      db.up && body.products.Some? && body.products.value.Array?
      && AllAvailableOnce(db, body.products.value.lines)
  {
    if db.up && body.products.Some? && body.products.value.Array? {
      var lines := body.products.value.lines;
      var ids := RequestedIds(lines);
      var found := FindAllAvailable(db, lines);
      IdSetSize(ids);
      assert found <= IdSet(ids) by {
        forall k | k in found ensures k in IdSet(ids) {
          FoundAvailableMembers(db, lines, k);
          IdSetMembers(ids, k);
          var i :| 0 <= i < |lines| && ToInt(lines[i].productId) == Some(k);
          assert ids[i] == Some(k);
        }
      }
      SubsetSize(found, IdSet(ids));
      if |found| == |lines| {
        assert found == IdSet(ids);
        forall i | 0 <= i < |lines| ensures Available(db, ToInt(lines[i].productId)) {
          assert ids[i] == ToInt(lines[i].productId);
          assert ids[i].Some?;
          IdSetMembers(ids, ids[i].value);
          FoundAvailableMembers(db, lines, ids[i].value);
        }
        forall i, j | 0 <= i < j < |lines|
          ensures ToInt(lines[i].productId) != ToInt(lines[j].productId)
        {
          assert ids[i] == ToInt(lines[i].productId) && ids[j] == ToInt(lines[j].productId);
        }
      }
      if AllAvailableOnce(db, lines) {
        forall i, j | 0 <= i < j < |ids| ensures ids[i] != ids[j] {
          assert ids[i] == ToInt(lines[i].productId) && ids[j] == ToInt(lines[j].productId);
        }
        forall i | 0 <= i < |ids| ensures ids[i].Some? {
          assert ids[i] == ToInt(lines[i].productId);
        }
        forall k | k in IdSet(ids) ensures k in found {
          IdSetMembers(ids, k);
          var i :| 0 <= i < |ids| && ids[i] == Some(k);
          assert ToInt(lines[i].productId) == Some(k);
          FoundAvailableMembers(db, lines, k);
        }
        assert found == IdSet(ids);
      }
    }
  }

  /** A subset is no larger, and a subset of the same size is the whole set. */
  lemma SubsetSize(a: set<int>, b: set<int>)
    requires a <= b
    ensures |a| <= |b|
    ensures |a| == |b| ==> a == b
  {
    assert b == a + (b - a);
    assert a * (b - a) == {};
    if |a| == |b| {
      assert |b - a| == 0;
    }
  }

  lemma FoundMembers(db: Store, lines: seq<Line>, k: int)
    ensures k in FindAll(db, lines) <==>
      exists i | 0 <= i < |lines| :: ToInt(lines[i].productId) == Some(k) && k in db.products
  {
    FoundAvailableMembers(db, lines, k);
    var ids := RequestedIds(lines);
    IdSetMembers(ids, k);
    if exists i | 0 <= i < |lines| :: ToInt(lines[i].productId) == Some(k) && k in db.products {
      var i :| 0 <= i < |lines| && ToInt(lines[i].productId) == Some(k) && k in db.products;
      assert ids[i] == Some(k);
    }
    if k in FindAll(db, lines) {
      var i :| 0 <= i < |lines| && ids[i] == Some(k);
      assert ToInt(lines[i].productId) == Some(k);
    }
  }

  /** `checkSameRestaurant` passes exactly when the database answers, the
      products field is an array and every requested id that names an
      existing product names one of the body's restaurant; requested ids
      with no row are not looked at. */
  lemma SameRestaurantDecides(db: Store, body: Body)
    ensures CheckSameRestaurant(db, body) == Pass <==>
      db.up && body.products.Some? && body.products.value.Array?
      && KnownProductsOf(db, body.products.value.lines, ToInt(body.restaurantId))
  {
    if db.up && body.products.Some? && body.products.value.Array? {
      var lines := body.products.value.lines;
      var rid := ToInt(body.restaurantId);
      if exists k | k in FindAll(db, lines) :: Some(db.products[k].restaurantId) != rid {
        var k :| k in FindAll(db, lines) && Some(db.products[k].restaurantId) != rid;
        FoundMembers(db, lines, k);
        var i :| 0 <= i < |lines| && ToInt(lines[i].productId) == Some(k) && k in db.products;
        assert !KnownProductsOf(db, lines, rid);
      } else {
        forall i | 0 <= i < |lines| && Exists(db, ToInt(lines[i].productId))
          ensures Some(db.products[ToInt(lines[i].productId).value].restaurantId) == rid
        {
          FoundMembers(db, lines, ToInt(lines[i].productId).value);
        }
      }
    }
  }

  /** Every requested id that names an existing product names one of the
      restaurant of the stored order `orderId` (which must then exist). */
  predicate OriginalRestaurantKept(db: Store, orderId: int, lines: seq<Line>) {
    forall i | 0 <= i < |lines| && Exists(db, ToInt(lines[i].productId)) ::
      orderId in db.orders
      && db.products[ToInt(lines[i].productId).value].restaurantId == db.orders[orderId].restaurantId
  }

  /** `checkOriginalRestaurant` passes exactly when the database answers, the
      products field is an array and every requested existing product belongs
      to the stored order's restaurant; the body's own `restaurantId` plays no
      part (see OriginalRestaurantIgnoresBody). */
  lemma OriginalRestaurantDecides(db: Store, orderId: int, body: Body)
    ensures CheckOriginalRestaurant(db, orderId, body) == Pass <==>
      db.up && body.products.Some? && body.products.value.Array?
      && OriginalRestaurantKept(db, orderId, body.products.value.lines)
  {
    if db.up && body.products.Some? && body.products.value.Array? {
      var lines := body.products.value.lines;
      var found := FindAll(db, lines);
      if exists i | 0 <= i < |lines| :: Exists(db, ToInt(lines[i].productId)) {
        var i0 :| 0 <= i0 < |lines| && Exists(db, ToInt(lines[i0].productId));
        FoundMembers(db, lines, ToInt(lines[i0].productId).value);
        assert found != {};
        if orderId in db.orders {
          var rid := db.orders[orderId].restaurantId;
          if exists k | k in found :: db.products[k].restaurantId != rid {
            var k :| k in found && db.products[k].restaurantId != rid;
            FoundMembers(db, lines, k);
            var i :| 0 <= i < |lines| && ToInt(lines[i].productId) == Some(k) && k in db.products;
            assert !OriginalRestaurantKept(db, orderId, lines);
          } else {
            forall i | 0 <= i < |lines| && Exists(db, ToInt(lines[i].productId))
              ensures db.products[ToInt(lines[i].productId).value].restaurantId == rid
            {
              FoundMembers(db, lines, ToInt(lines[i].productId).value);
            }
          }
        }
      } else {
        forall k | k in found ensures false {
          FoundMembers(db, lines, k);
        }
        assert found == {};
      }
    }
  }

  /** `checkOriginalRestaurant` reads only the products of the body. */
  lemma OriginalRestaurantIgnoresBody(db: Store, orderId: int, b1: Body, b2: Body)
    requires b1.products == b2.products
    ensures CheckOriginalRestaurant(db, orderId, b1) == CheckOriginalRestaurant(db, orderId, b2)
  {
  }

  /** Adding a line whose id names no product row changes neither
      restaurant check. */
  lemma UnknownIdsNotSeen(db: Store, orderId: int, body: Body, extra: Line)
    requires body.products.Some? && body.products.value.Array?
    requires !Exists(db, ToInt(extra.productId))
    ensures var longer := body.(products := Some(Array(body.products.value.lines + [extra])));
      && CheckSameRestaurant(db, longer) == CheckSameRestaurant(db, body)
      && CheckOriginalRestaurant(db, orderId, longer) == CheckOriginalRestaurant(db, orderId, body)
  {
    var lines := body.products.value.lines;
    var longer := body.(products := Some(Array(lines + [extra])));
    forall k ensures k in FindAll(db, lines + [extra]) <==> k in FindAll(db, lines) {
      FoundMembers(db, lines, k);
      FoundMembers(db, lines + [extra], k);
      if k in FindAll(db, lines + [extra]) {
        var i :| 0 <= i < |lines + [extra]| && ToInt((lines + [extra])[i].productId) == Some(k) && k in db.products;
        assert i < |lines|;
        assert (lines + [extra])[i] == lines[i];
      }
      if k in FindAll(db, lines) {
        var i :| 0 <= i < |lines| && ToInt(lines[i].productId) == Some(k) && k in db.products;
        assert (lines + [extra])[i] == lines[i];
      }
    }
    assert FindAll(db, lines + [extra]) == FindAll(db, lines);
  }

  /** `checkRestaurantExists` passes exactly when the database answers and
      the body's `restaurantId` is an integer naming a restaurant; any other
      answer of the database is 'Resturant not found in database'. */
  lemma RestaurantExistsDecides(db: Store, body: Body)
    ensures CheckRestaurantExists(db, body) == Pass <==>
      db.up && body.restaurantId.Some? && body.restaurantId.value.Int?
      && body.restaurantId.value.i in db.restaurants
    ensures db.up && CheckRestaurantExists(db, body) != Pass ==>
      CheckRestaurantExists(db, body) == Reject(RestaurantNotFound)
  {
  }

  /** `checkPending` passes exactly when the order exists and is pending. */
  lemma PendingDecides(db: Store, orderId: int)
    ensures CheckPending(db, orderId) == Pass <==>
      db.up && orderId in db.orders && db.orders[orderId].status == Pending
    ensures db.up && orderId !in db.orders ==> CheckPending(db, orderId) == Reject(Caught)
  {
  }

  /** A failing database never lets a check pass: every read error is a
      rejection, so both rule lists reject. */
  lemma StoreFailureRejects(db: Store, orderId: int, body: Body)
    requires !db.up
    ensures CheckRestaurantExists(db, body) == Reject(Caught)
    ensures CheckSameRestaurant(db, body) == Reject(Caught)
    ensures CheckDisponibilidad(db, body) == Reject(Caught)
    ensures CheckPending(db, orderId) == Reject(Caught)
    ensures CheckOriginalRestaurant(db, orderId, body) == Reject(Caught)
    ensures CreateErrors(db, body) != [] && UpdateErrors(db, orderId, body) != []
  {
  }

  lemma {:induction false} LineErrorsEmpty(c: LineCheck, lines: seq<Line>, from: nat)
    ensures LineErrors(c, lines, from) == [] <==> forall i | 0 <= i < |lines| :: LineHolds(c, lines[i])
  {
    if lines != [] {
      LineErrorsEmpty(c, lines[1..], from + 1);
      if forall i | 0 <= i < |lines[1..]| :: LineHolds(c, lines[1..][i]) {
        forall i | 0 <= i < |lines| ensures LineHolds(c, lines[i]) || i == 0 {
          if i > 0 { assert lines[i] == lines[1..][i - 1]; }
        }
      }
    }
  }

  /** Every line has an integer quantity of at least 1 and an integer
      productId (of at least `minId` when given). */
  predicate WellFormedLines(lines: seq<Line>, minId: Option<int>) {
    forall i | 0 <= i < |lines| ::
      IsIntAtLeast(lines[i].quantity, Some(1)) && IsIntAtLeast(lines[i].productId, minId)
  }

  /** The `create` rules admit a body exactly when: the database answers,
      `restaurantId` is an integer naming an existing restaurant, `address`
      is a string, `products` a non-empty array of lines with integer
      quantity >= 1 and integer productId (no lower bound), the ids are
      pairwise distinct and available, and every requested existing product
      belongs to that restaurant. */
  lemma CreateAdmits(db: Store, body: Body)
    ensures CreateErrors(db, body) == [] <==>
      && db.up
      && body.restaurantId.Some? && body.restaurantId.value.Int?
      && body.restaurantId.value.i in db.restaurants
      && IsText(body.address)
      && IsNonEmptyArray(body.products)
      && WellFormedLines(body.products.value.lines, None)
      && AllAvailableOnce(db, body.products.value.lines)
      && KnownProductsOf(db, body.products.value.lines, Some(body.restaurantId.value.i))
  {
    var lines := Elements(body.products);
    LineErrorsEmpty(QuantityAtLeastOne, lines, 0);
    LineErrorsEmpty(ProductIdExists, lines, 0);
    LineErrorsEmpty(ProductIdIsInt, lines, 0);
    DisponibilidadDecides(db, body);
    SameRestaurantDecides(db, body);
  }

  /** The `update` rules admit a body for order `orderId` exactly when: the
      body has no `restaurantId`, `address` is a string, `products` a
      non-empty array of lines with integer quantity >= 1 and integer
      productId >= 1, the ids are pairwise distinct and available, every
      requested existing product belongs to the stored order's restaurant,
      and the order exists and is pending. */
  lemma UpdateAdmits(db: Store, orderId: int, body: Body)
    ensures UpdateErrors(db, orderId, body) == [] <==>
      && db.up
      && body.restaurantId.None?
      && IsText(body.address)
      && IsNonEmptyArray(body.products)
      && WellFormedLines(body.products.value.lines, Some(1))
      && AllAvailableOnce(db, body.products.value.lines)
      && OriginalRestaurantKept(db, orderId, body.products.value.lines)
      && orderId in db.orders && db.orders[orderId].status == Pending
  {
    var lines := Elements(body.products);
    LineErrorsEmpty(QuantityExists, lines, 0);
    LineErrorsEmpty(QuantityAtLeastOne, lines, 0);
    LineErrorsEmpty(ProductIdExists, lines, 0);
    LineErrorsEmpty(ProductIdAtLeastOne, lines, 0);
    DisponibilidadDecides(db, body);
    OriginalRestaurantDecides(db, orderId, body);
    PendingDecides(db, orderId);
  }

  /** The same product requested on two lines always fails availability,
      so neither rule list admits the body. */
  lemma DuplicateIdRejected(db: Store, orderId: int, body: Body, i: nat, j: nat)
    requires body.products.Some? && body.products.value.Array?
    requires i < j < |body.products.value.lines|
    requires body.products.value.lines[i].productId == body.products.value.lines[j].productId
    ensures CheckDisponibilidad(db, body) == Reject(NotAvailable) || CheckDisponibilidad(db, body) == Reject(Caught)
    ensures CreateErrors(db, body) != [] && UpdateErrors(db, orderId, body) != []
  {
    DisponibilidadDecides(db, body);
  }

  /** A requested product that is missing or unavailable makes both rule
      lists reject. */
  lemma UnavailableRejected(db: Store, orderId: int, body: Body, i: nat)
    requires body.products.Some? && body.products.value.Array?
    requires i < |body.products.value.lines|
    requires !Available(db, ToInt(body.products.value.lines[i].productId))
    ensures CheckDisponibilidad(db, body) != Pass
    ensures CreateErrors(db, body) != [] && UpdateErrors(db, orderId, body) != []
  {
    DisponibilidadDecides(db, body);
  }

  /** Two requested products of different restaurants: `create` rejects
      whatever restaurant the body names, and `update` rejects whatever the
      stored order is. */
  lemma CrossRestaurantRejected(db: Store, orderId: int, body: Body, i: nat, j: nat)
    requires body.products.Some? && body.products.value.Array?
    requires i < |body.products.value.lines| && j < |body.products.value.lines|
    requires Exists(db, ToInt(body.products.value.lines[i].productId))
    requires Exists(db, ToInt(body.products.value.lines[j].productId))
    requires db.products[ToInt(body.products.value.lines[i].productId).value].restaurantId
          != db.products[ToInt(body.products.value.lines[j].productId).value].restaurantId
    ensures CheckSameRestaurant(db, body) != Pass
    ensures CheckOriginalRestaurant(db, orderId, body) != Pass
    ensures CreateErrors(db, body) != [] && UpdateErrors(db, orderId, body) != []
  {
    SameRestaurantDecides(db, body);
    OriginalRestaurantDecides(db, orderId, body);
  }

  /** A line whose productId is missing or not an integer fails the
      `isInt` rules, so neither rule list admits the body, whatever the
      custom checks make of the NaN it sanitises to. */
  lemma NonIntIdRejected(db: Store, orderId: int, body: Body, i: nat)
    requires body.products.Some? && body.products.value.Array?
    requires i < |body.products.value.lines|
    requires !IsIntAtLeast(body.products.value.lines[i].productId, None)
    ensures CreateErrors(db, body) != [] && UpdateErrors(db, orderId, body) != []
  {
    CreateAdmits(db, body);
    UpdateAdmits(db, orderId, body);
  }

  /** `update` never admits a body carrying `restaurantId`, nor an edit of an
      order that is missing or no longer pending. */
  lemma UpdateGuards(db: Store, orderId: int, body: Body)
    requires body.restaurantId.Some? || orderId !in db.orders || db.orders[orderId].status != Pending
    ensures UpdateErrors(db, orderId, body) != []
  {
  }
}
