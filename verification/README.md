# DeliverUS order placement and editing, modelled in Dafny

DeliverUS is a food-delivery application. Customers place orders from a
restaurant's menu and may edit an order while it is still pending. This
project models the three places that decide what an order may contain:

- **The backend's order validation.** Five database-backed checks and the
  `create` and `update` rule lists that guard `POST /orders` and
  `PUT /orders/:orderId` (`order_validation.dfy`, module `OrderValidation`).
  The checks are:
  - the restaurant exists;
  - every product is available;
  - every product belongs to the body's restaurant;
  - the order is still pending;
  - every product belongs to the stored order's restaurant.

  The model is pure. A snapshot of the Restaurant, Product and Order tables
  is a `Store`. Each check is a function from the store and the request to
  `Pass` or `Reject(reason)`. Each rule list is a function returning the
  errors it reports; a request is admitted when that list is empty.
- **The customer's new-order screen** (`restaurant_order_screen.dfy`, module
  `RestaurantOrderScreen`). Its state is the counter `cont`, a product-id to
  quantity object. The model is a class `OrderComposer` with that field and
  the methods that change it:
  - `startCont` (`StartCont`) fills the counter;
  - `updateCont` (`UpdateCont`) changes one count;
  - `loadCleanProducts` (`LoadCleanProducts`) builds the product list, and
    the Confirm button (`Confirm`) puts it in the form.

  The form is checked by a yup schema, `ValidationSchema`. `Object.keys`
  order is modelled by the method `ObjectKeys`.
- **The customer's edit-order screen** (`edit_order_screen.dfy`, module
  `EditOrderScreen`). Its state is a JavaScript `Map` from product id to
  quantity, the value `QuantityMap`, which keeps insertion order. The model
  is a class `EditOrder` holding that state. It covers:
  - seeding the map from the fetched order;
  - the − and + buttons;
  - staging the order for confirmation, where a reshape and filter turns the
    map into lines;
  - the `productsInOrder` filter;
  - sending the staged order with the current address.

`order_payloads.dfy` (module `OrderPayloads`) connects the screens to the
backend. It takes a form that passed the screen's checks, or a staged edit,
and characterises exactly when the backend admits it.
`order_scenarios.dfy` works three concrete requests through the `create`
rules. `screen_values.dfy` and `wrappers.dfy` hold the values the modules
share: quantities that may be NaN, product items, and `Option`.

Conventions used throughout:
- A body field has the type its validator reads. `Int(i)` is a value that
  `isInt` accepts and `toInt` turns into `i`. `NotInt` is any other value,
  JSON null included.
- A missing field is `None`.
- `findAll({where: {id: ids}})` is the set of existing rows whose id is
  requested, so duplicate and unknown ids collapse.
- A store whose `up` flag is false throws on every read. Every exception
  inside a check becomes the rejection `Caught`.
- The `create` and `update` rules reject a body that names the same product
  on two lines: two lines find one row, so the availability count falls
  short. `DuplicateIdRejected` proves this. The model keeps this behaviour.
  `CreateFormDecided` and `EditPayloadDecided` prove that neither screen
  sends such a body.

## Model

| member | source | states |
|---|---|---|
| OrderValidation.RestaurantExistsDecides | DeliverUS-Backend/src/controllers/validation/OrderValidation.js:4-15 | `checkRestaurantExists` passes iff the database answers and `restaurantId` is an integer naming a restaurant. Otherwise it rejects with "restaurant not found", or with the caught error when the database fails. |
| OrderValidation.SameRestaurantDecides | DeliverUS-Backend/src/controllers/validation/OrderValidation.js:18-35 | `checkSameRestaurant` passes iff the database answers, `products` is an array, and every requested id that names a product row names one of the body's restaurant. Ids with no row are ignored. NaN matches no restaurant. |
| OrderValidation.DisponibilidadDecides | DeliverUS-Backend/src/controllers/validation/OrderValidation.js:38-57 | The length comparison of `checkDisponibilidad` passes iff the ids are pairwise distinct integers that all name available products. |
| OrderValidation.IdSetSize | DeliverUS-Backend/src/controllers/validation/OrderValidation.js:41-49 | The distinct integers among the requested ids, which is what the `id` filter of `findAll` matches against, are never more than the requested ids. They are exactly as many iff the ids are pairwise distinct integers. Rows found are a subset of these, so the count at line 49 can only reach the number of lines when this holds. |
| OrderValidation.FoundAvailableMembers | DeliverUS-Backend/src/controllers/validation/OrderValidation.js:42-48 | A product is among the available rows found iff some line requests its id and it is available. |
| OrderValidation.FoundMembers | DeliverUS-Backend/src/controllers/validation/OrderValidation.js:21-26 | A product is among the rows found iff some line requests its id and the row exists. |
| OrderValidation.PendingDecides | DeliverUS-Backend/src/controllers/validation/OrderValidation.js:60-71 | `checkPending` passes iff the order exists and is pending. A missing order is a caught error. |
| OrderValidation.OriginalRestaurantDecides | DeliverUS-Backend/src/controllers/validation/OrderValidation.js:73-92 | `checkOriginalRestaurant` passes iff the database answers, `products` is an array, and every requested existing product belongs to the stored order's restaurant. If no requested id names a product, a missing order passes. |
| OrderValidation.OriginalRestaurantIgnoresBody | DeliverUS-Backend/src/controllers/validation/OrderValidation.js:84 | `checkOriginalRestaurant` depends on the body only through `products`. The body's `restaurantId` plays no part. |
| OrderValidation.UnknownIdsNotSeen | DeliverUS-Backend/src/controllers/validation/OrderValidation.js:21-27 | Adding a line whose id names no product leaves both restaurant checks unchanged. For a line without an integer id this rests on NaN matching nothing in `findAll` (see Left out). |
| OrderValidation.StoreFailureRejects | DeliverUS-Backend/src/controllers/validation/OrderValidation.js:12-14 | When the database fails, each of the five checks rejects and neither rule list admits. Catch blocks at lines 32-34, 54-56, 68-70 and 89-91. |
| OrderValidation.LineErrorsEmpty | DeliverUS-Backend/src/controllers/validation/OrderValidation.js:107-108 | A `products.*.x` validator reports nothing iff it holds for every line. |
| OrderValidation.CreateAdmits | DeliverUS-Backend/src/controllers/validation/OrderValidation.js:100-113 | `create` admits iff all of these hold: integer `restaurantId` of an existing restaurant; string `address`; non-empty `products` array; integer quantities ≥ 1 and integer product ids with no lower bound; distinct available ids; every existing product of that restaurant. |
| OrderValidation.UpdateAdmits | DeliverUS-Backend/src/controllers/validation/OrderValidation.js:122-136 | `update` admits iff all of these hold: no `restaurantId`; string `address`; non-empty `products` array; integer quantities ≥ 1 and product ids ≥ 1; distinct available ids; products of the stored order's restaurant; an existing pending order. |
| OrderValidation.DuplicateIdRejected | DeliverUS-Backend/src/controllers/validation/OrderValidation.js:49-50 | A product id on two lines makes availability fail, so both rule lists reject. |
| OrderValidation.UnavailableRejected | DeliverUS-Backend/src/controllers/validation/OrderValidation.js:42-50 | A missing or unavailable product makes both rule lists reject. |
| OrderValidation.CrossRestaurantRejected | DeliverUS-Backend/src/controllers/validation/OrderValidation.js:27-28 | Two existing products of different restaurants make both restaurant checks fail, whatever restaurant the body or the order names. Line 84 is the order's check. |
| OrderValidation.NonIntIdRejected | DeliverUS-Backend/src/controllers/validation/OrderValidation.js:107-108 | A line whose productId is missing or not an integer makes both rule lists reject, whatever the custom checks make of it. Lines 128-129 are the `update` rules. |
| OrderValidation.UpdateGuards | DeliverUS-Backend/src/controllers/validation/OrderValidation.js:124-135 | `update` never admits a body with `restaurantId`, or an order that is missing or not pending. |
| OrderScenarios.CreateOwnProductAdmitted | DeliverUS-Backend/src/controllers/validation/OrderValidation.js:100-113 | A restaurant ordering its own available product is admitted. |
| OrderScenarios.CreateForeignProductRejected | DeliverUS-Backend/src/controllers/validation/OrderValidation.js:112 | Ordering another restaurant's product yields the same-restaurant error. |
| OrderScenarios.CreateDuplicateLineRejected | DeliverUS-Backend/src/controllers/validation/OrderValidation.js:110 | Listing one product twice yields the availability error. |
| RestaurantOrderScreen.ValidationSchemaBounds | DeliverUS-Frontend-Customer/src/screens/restaurants/RestaurantOrderScreen.js:61-78 | A form passing the schema has an address of 1 to 255 characters, a restaurant id, and a product list whose quantities are all numbers. The length limit counts UTF-16 code units, so 128 characters outside the Basic Multilingual Plane already fail it. The initial all-null form fails the schema. |
| RestaurantOrderScreen.Utf16LengthBounds | DeliverUS-Frontend-Customer/src/screens/restaurants/RestaurantOrderScreen.js:65 | A string's JavaScript `length` lies between its character count and twice that. It equals the character count when every character is in the Basic Multilingual Plane, and twice it when none is. |
| RestaurantOrderScreen.OrderComposer.StartCont | DeliverUS-Frontend-Customer/src/screens/restaurants/RestaurantOrderScreen.js:45-49 | The counter's keys are exactly the restaurant's product ids, each mapped to 0. |
| RestaurantOrderScreen.OrderComposer.UpdateCont | DeliverUS-Frontend-Customer/src/screens/restaurants/RestaurantOrderScreen.js:24-43 | Only key `id` changes. 0 sets it to 0. +1 adds exactly 1. −1 subtracts 1 and clamps at 0. Other amounts only clamp. A missing key becomes NaN. No count goes negative. A seeded key stays a number. |
| RestaurantOrderScreen.ObjectKeys | DeliverUS-Frontend-Customer/src/screens/restaurants/RestaurantOrderScreen.js:196-197 | `Object.keys` lists every integer key exactly once, in ascending order. |
| RestaurantOrderScreen.PickLeast | DeliverUS-Frontend-Customer/src/screens/restaurants/RestaurantOrderScreen.js:196-197 | Returns the least of a non-empty set of keys. `ObjectKeys` uses it. |
| RestaurantOrderScreen.OrderComposer.LoadCleanProducts | DeliverUS-Frontend-Customer/src/screens/restaurants/RestaurantOrderScreen.js:193-213 | One line per key whose count is non-zero, in ascending key order, each carrying that count. Every non-zero key appears. With no negative count, each quantity is NaN or ≥ 1. |
| RestaurantOrderScreen.OrderComposer.Confirm | DeliverUS-Frontend-Customer/src/screens/restaurants/RestaurantOrderScreen.js:229-234 | The form gets the restaurant's id and the `loadCleanProducts` list. The address is left as typed. |
| OrderPayloads.CreateFormDecided | DeliverUS-Frontend-Customer/src/screens/restaurants/RestaurantOrderScreen.js:61-85 | Suppose a form passed the yup schema and came from a counter with no negative count. The backend admits it iff: the database answers; the restaurant exists; the list is non-empty; every product is available and of that restaurant. Its ids are never duplicated. |
| OrderPayloads.EmptyCartPassesSchemaOnly | DeliverUS-Frontend-Customer/src/screens/restaurants/RestaurantOrderScreen.js:62-78 | The yup schema accepts an empty product list, which `create` rejects as an invalid `products`. |
| EditOrderScreen.QuantityMap.Set | DeliverUS-Frontend-Customer/src/screens/orders/EditOrderScreen.js:243 | `Map.set` stores the value under the key and changes no other key. An existing key keeps its place; a new key is appended. |
| EditOrderScreen.SetAllReads | DeliverUS-Frontend-Customer/src/screens/orders/EditOrderScreen.js:242-246 | After a run of `set` calls, each key holds the value last written to it, or its old value if none was written. |
| EditOrderScreen.SetEach | DeliverUS-Frontend-Customer/src/screens/orders/EditOrderScreen.js:242-246 | The `forEach` loop of `set` calls yields that map. |
| EditOrderScreen.SeededQuantities | DeliverUS-Frontend-Customer/src/screens/orders/EditOrderScreen.js:240-246 | After seeding, each ordered product holds its last quantity in the order and every other restaurant product holds 0. Any other key is unchanged. |
| EditOrderScreen.EditOrder.FetchAll | DeliverUS-Frontend-Customer/src/screens/orders/EditOrderScreen.js:223-256 | A failed fetch changes nothing. Otherwise it takes over the address and the product list and seeds the map: zeros first, then the ordered quantities. |
| EditOrderScreen.EditOrder.PressMinus | DeliverUS-Frontend-Customer/src/screens/orders/EditOrderScreen.js:157-163 | Decrements only a quantity > 0, so none goes negative. No other product changes. |
| EditOrderScreen.EditOrder.PressPlus | DeliverUS-Frontend-Customer/src/screens/orders/EditOrderScreen.js:185-190 | Adds exactly 1 to the pressed product (undefined + 1 is NaN). No other product changes. An existing key keeps its place; a new key is appended, so the order in which lines are staged is known. |
| EditOrderScreen.ReshapeMembers | DeliverUS-Frontend-Customer/src/screens/orders/EditOrderScreen.js:47-48 | A line is staged iff it comes from a map entry whose quantity is > 0. |
| EditOrderScreen.ReshapeAppend | DeliverUS-Frontend-Customer/src/screens/orders/EditOrderScreen.js:47-48 | The reshape keeps map order: it distributes over concatenation. |
| EditOrderScreen.ReshapeDistinct | DeliverUS-Frontend-Customer/src/screens/orders/EditOrderScreen.js:47-48 | Distinct map keys give staged lines with distinct product ids. |
| EditOrderScreen.EditOrder.ConfirmOrder | DeliverUS-Frontend-Customer/src/screens/orders/EditOrderScreen.js:44-68 | With no positive line it stages nothing and reports the error. Otherwise it stages exactly `{address, products: filtered}`. |
| EditOrderScreen.ProductsInOrderMembers | DeliverUS-Frontend-Customer/src/screens/orders/EditOrderScreen.js:39-42 | A product is in `productsInOrder` iff it is one of the screen's products and its quantity is > 0. |
| EditOrderScreen.ProductsInOrderAppend | DeliverUS-Frontend-Customer/src/screens/orders/EditOrderScreen.js:40 | The filter keeps the products' order: it distributes over concatenation. |
| EditOrderScreen.EditOrder.RefreshProductsInOrder | DeliverUS-Frontend-Customer/src/screens/orders/EditOrderScreen.js:39-42 | `productsInOrder` becomes that filter of the current products and map. |
| EditOrderScreen.EditOrder.SetAddress | DeliverUS-Frontend-Customer/src/screens/orders/EditOrderScreen.js:308 | The modal's address field sets the address state. |
| EditOrderScreen.EditOrder.CancelStaged | DeliverUS-Frontend-Customer/src/screens/orders/EditOrderScreen.js:302 | Cancelling drops the staged order. |
| EditOrderScreen.EditOrder.SubmitStaged | DeliverUS-Frontend-Customer/src/screens/orders/EditOrderScreen.js:258-266 | Sends the staged products with the address replaced by the current address state. Sends nothing when nothing is staged. Always clears the staged order (lines 303-306). |
| OrderPayloads.EditPayloadDecided | DeliverUS-Frontend-Customer/src/screens/orders/EditOrderScreen.js:44-68 | Staged lines from a map keyed by product ids have distinct ids, quantities ≥ 1 and ids ≥ 1. `update` admits them iff: the database answers; the order exists and is pending; every product is available and of the order's restaurant. |

## Left out

- Routes, the route guards that run before validation, the controllers and the order lifecycle are not part of this model. So the ownership and pending checks that `PUT` runs before the rule list are absent.
- Asynchrony: each check is a function of one store snapshot. Concurrent changes between its reads are not modelled.
- The store either answers every read or fails every read, through the `up` flag. A failure of one query alone is not distinguished.
- express-validator's coercions: a decimal string that `isInt` accepts is folded into `Int`. `parseInt`'s prefix parsing of other strings is not modelled.
- `toArray` is not modelled: a non-array `products` is `NotArray`. An element that is not an object is not modelled.
- The order in which express-validator lists errors is not claimed. Only which validators fail, and hence the verdict, is modelled.
- `findByPk` on NaN or a non-integer string is taken to find nothing rather than throw.
- `Product.findAll` on an id list holding NaN is taken to match nothing for that entry; the database might instead throw, which would make the check `Caught`. The NaN comes from `toInt` on a productId that `isInt` rejected (lines 108 and 129). Such a body is rejected by the `isInt` rules anyway (`NonIntIdRejected`), so the verdict does not depend on this. Only the reasons listed, and `UnknownIdsNotSeen` for an extra line without an integer id, do.
- CheckRestaurantExists: a non-integer `restaurantId` rejects as "not found". A driver error for such a key is not modelled.
- UpdateCont: the first branch compares the count with the function `isNaN` and can never hold, so it has no counterpart. Ids at or above 2^32 − 1, which `Object.keys` would not list as integer keys, are not modelled.
- The − and + buttons on both screens exist only for available products. This is rendering and is not a precondition of the model.
- The create screen sends `productId` as the object key, a string. The model gives it the integer `toInt` would give.
- The create screen's submission (`createOrder`), navigation, flash messages, rendering, styles and prices are I/O and UI. The fetches are parameters: a failed fetch is `None`.
- EditOrder.FetchAll: the stored `restaurant` and `originalOrder` are only displayed, so they are not modelled.
