/**
  The customer's edit-order screen.  It keeps the quantities of the order
  being edited in a JavaScript `Map` from product id to quantity, seeded by
  `fetchAll`, changed by the -/+ buttons, and reshaped by `confirmOrder`
  into the `{address, products}` value that the confirmation modal sends
  to the backend through `updateOrder`.
*/
module EditOrderScreen {
  import opened Wrappers
  import opened ScreenValues

  predicate Distinct(keys: seq<nat>) {
    forall a, b | 0 <= a < b < |keys| :: keys[a] != keys[b]
  }

  /** A JavaScript `Map` from product id to quantity: its keys in insertion
      order and the value stored under each. */
  datatype QuantityMap = QuantityMap(keys: seq<nat>, values: map<nat, Qty>) {

    predicate Valid() {
      Distinct(keys) && values.Keys == set k | k in keys
    }

    /** `get(k)`: `None` is undefined. */
    function At(k: nat): Option<Qty> {
      Get(values, k)
    }

    /** `set(k, v)`: the value under `k` becomes `v` and no other value
        changes; a key already present keeps its place, a new key goes last. */
    function Set(k: nat, v: Qty): (m: QuantityMap)
      requires Valid()
      ensures m.Valid()
      ensures m.At(k) == Some(v)
      ensures forall j | j != k :: m.At(j) == At(j)
      ensures k in keys ==> m.keys == keys
      ensures k !in keys ==> m.keys == keys + [k]
    {
      QuantityMap(if k in values then keys else keys + [k], values[k := v])
    }

    /** `[...map]`: the entries in insertion order. */
    function Entries(): seq<(nat, Qty)>
      requires Valid()
    {
      seq(|keys|, i requires 0 <= i < |keys| => (keys[i], values[keys[i]]))
    }
  }

  /** The map after `set(k, v)` for each `(k, v)` of `updates` in turn. */
  function SetAll(m: QuantityMap, updates: seq<(nat, Qty)>): (r: QuantityMap)
    requires m.Valid()
    ensures r.Valid()
    decreases |updates|
  {
    if updates == [] then m
    else
      var last := updates[|updates| - 1];
      SetAll(m, updates[..|updates| - 1]).Set(last.0, last.1)
  }

  /** The value written by the last update of `k`, `otherwise` if none is. */
  function LastWrite(updates: seq<(nat, Qty)>, k: nat, otherwise: Option<Qty>): Option<Qty>
    decreases |updates|
  {
    if updates == [] then otherwise
    else if updates[|updates| - 1].0 == k then Some(updates[|updates| - 1].1)
    else LastWrite(updates[..|updates| - 1], k, otherwise)
  }

  /** After a run of `set` calls, each key holds the last value written to
      it, or its earlier value when it was never written. */
  lemma {:induction false} SetAllReads(m: QuantityMap, updates: seq<(nat, Qty)>, k: nat)
    requires m.Valid()
    ensures SetAll(m, updates).At(k) == LastWrite(updates, k, m.At(k))
    decreases |updates|
  {
    if updates != [] {
      SetAllReads(m, updates[..|updates| - 1], k);
    }
  }

  lemma {:induction false} LastWriteMiss(updates: seq<(nat, Qty)>, k: nat, otherwise: Option<Qty>)
    requires forall i | 0 <= i < |updates| :: updates[i].0 != k
    ensures LastWrite(updates, k, otherwise) == otherwise
    decreases |updates|
  {
    if updates != [] {
      LastWriteMiss(updates[..|updates| - 1], k, otherwise);
    }
  }

  lemma {:induction false} LastWriteHit(updates: seq<(nat, Qty)>, i: nat, otherwise: Option<Qty>)
    requires i < |updates|
    requires forall j | i < j < |updates| :: updates[j].0 != updates[i].0
    ensures LastWrite(updates, updates[i].0, otherwise) == Some(updates[i].1)
    decreases |updates|
  {
    if i < |updates| - 1 {
      var prefix := updates[..|updates| - 1];
      assert prefix[i] == updates[i];
      LastWriteHit(prefix, i, otherwise);
    }
  }

  /** The `forEach` loops of `fetchAll`: `set(k, v)` for each `(k, v)` of
      `updates` in turn. */
  method SetEach(m: QuantityMap, updates: seq<(nat, Qty)>) returns (r: QuantityMap)
    requires m.Valid()
    ensures r == SetAll(m, updates)
  {
    r := m;
    for i := 0 to |updates|
      invariant r == SetAll(m, updates[..i])
    {
      assert updates[..i + 1][..i] == updates[..i];
      r := r.Set(updates[i].0, updates[i].1);
    }
    assert updates[..|updates|] == updates;
  }

  /** `p.id` and `p.OrderProducts.quantity` of a product of the fetched order. */
  datatype OrderedProduct = OrderedProduct(id: nat, quantity: int)

  /** The fetched order: its address and its products. */
  datatype FetchedOrder = FetchedOrder(address: string, products: seq<OrderedProduct>)

  /** What `fetchAll` receives when both requests succeed. */
  datatype Fetched = Fetched(restaurantProducts: seq<ProductItem>, order: FetchedOrder)

  /** `{productId, quantity}`, the lines sent to the backend. */
  datatype OrderLine = OrderLine(productId: nat, quantity: int)

  /** `{address, products}`, the order staged for confirmation. */
  datatype OrderValues = OrderValues(address: string, products: seq<OrderLine>)

  /** The writes of the first `forEach` of `fetchAll`: every product to 0. */
  function Zeros(products: seq<ProductItem>): seq<(nat, Qty)> {
    seq(|products|, i requires 0 <= i < |products| => (products[i].id, Num(0)))
  }

  /** The writes of the second `forEach`: every ordered product to its
      quantity in the order. */
  function OrderQuantities(ordered: seq<OrderedProduct>): seq<(nat, Qty)> {
    seq(|ordered|, i requires 0 <= i < |ordered| => (ordered[i].id, Num(ordered[i].quantity)))
  }

  /** The quantity map after seeding. */
  function Seeded(m: QuantityMap, products: seq<ProductItem>, ordered: seq<OrderedProduct>): QuantityMap
    requires m.Valid()
  {
    SetAll(SetAll(m, Zeros(products)), OrderQuantities(ordered))
  }

  /** Seeding leaves each ordered product at its (last) quantity in the
      order, every other product of the restaurant at 0, and any other key as
      it was. */
  lemma SeededQuantities(m: QuantityMap, products: seq<ProductItem>, ordered: seq<OrderedProduct>, k: nat)
    requires m.Valid()
    ensures forall i | 0 <= i < |ordered| && ordered[i].id == k && (forall j | i < j < |ordered| :: ordered[j].id != k) ::
      Seeded(m, products, ordered).At(k) == Some(Num(ordered[i].quantity))
    ensures (forall i | 0 <= i < |ordered| :: ordered[i].id != k) && k in IdsOf(products) ==>
      Seeded(m, products, ordered).At(k) == Some(Num(0))
    ensures (forall i | 0 <= i < |ordered| :: ordered[i].id != k) && k !in IdsOf(products) ==>
      Seeded(m, products, ordered).At(k) == m.At(k)
  {
    var zeros, writes := Zeros(products), OrderQuantities(ordered);
    var middle := SetAll(m, zeros);
    SetAllReads(m, zeros, k);
    SetAllReads(middle, writes, k);
    forall i | 0 <= i < |ordered| && ordered[i].id == k && (forall j | i < j < |ordered| :: ordered[j].id != k)
      ensures Seeded(m, products, ordered).At(k) == Some(Num(ordered[i].quantity))
    {
      LastWriteHit(writes, i, middle.At(k));
    }
    if forall i | 0 <= i < |ordered| :: ordered[i].id != k {
      LastWriteMiss(writes, k, middle.At(k));
      if k in IdsOf(products) {
        var p :| p in products && p.id == k;
        var i :| 0 <= i < |products| && products[i] == p;
        var last :| i <= last < |products| && products[last].id == k && forall j | last < j < |products| :: products[j].id != k by {
          LastIndexExists(products, i, k);
        }
        LastWriteHit(zeros, last, m.At(k));
      } else {
        LastWriteMiss(zeros, k, m.At(k));
      }
    }
  }

  /** Some product with id `k` is the last one with that id. */
  lemma {:induction false} LastIndexExists(products: seq<ProductItem>, i: nat, k: nat)
    requires i < |products| && products[i].id == k
    ensures exists last | i <= last < |products| :: products[last].id == k && forall j | last < j < |products| :: products[j].id != k
    decreases |products| - i
  {
    if exists j | i < j < |products| :: products[j].id == k {
      var j :| i < j < |products| && products[j].id == k;
      LastIndexExists(products, j, k);
    }
  }

  /** `confirmOrder`'s reshape: the map's entries in order as
      `{productId, quantity}`, keeping those whose quantity is > 0. */
  function Reshape(entries: seq<(nat, Qty)>): seq<OrderLine>
    decreases |entries|
  {
    if entries == [] then []
    else
      (match entries[0].1
       case Num(n) => if n > 0 then [OrderLine(entries[0].0, n)] else []
       case NaN => [])
      + Reshape(entries[1..])
  }

  /** A line is kept exactly when it comes from an entry with a positive
      quantity. */
  lemma {:induction false} ReshapeMembers(entries: seq<(nat, Qty)>, line: OrderLine)
    ensures line in Reshape(entries) <==> (line.productId, Num(line.quantity)) in entries && line.quantity > 0
    decreases |entries|
  {
    if entries != [] {
      ReshapeMembers(entries[1..], line);
      assert entries == [entries[0]] + entries[1..];
    }
  }

  /** The reshape keeps the map's order: it distributes over concatenation. */
  lemma {:induction false} ReshapeAppend(a: seq<(nat, Qty)>, b: seq<(nat, Qty)>)
    ensures Reshape(a + b) == Reshape(a) + Reshape(b)
    decreases |a|
  {
    if a == [] {
      assert a + b == b;
    } else {
      ReshapeAppend(a[1..], b);
      assert (a + b)[0] == a[0] && (a + b)[1..] == a[1..] + b;
    }
  }

  /** Distinct keys give distinct product ids. */
  lemma {:induction false} ReshapeDistinct(entries: seq<(nat, Qty)>)
    requires forall a, b | 0 <= a < b < |entries| :: entries[a].0 != entries[b].0
    ensures var lines := Reshape(entries);
      forall a, b | 0 <= a < b < |lines| :: lines[a].productId != lines[b].productId
    decreases |entries|
  {
    if entries != [] {
      var tail := entries[1..];
      ReshapeDistinct(tail);
      var lines := Reshape(entries);
      var rest := Reshape(tail);
      match entries[0].1
      case Num(n) =>
        if n > 0 {
          assert lines == [OrderLine(entries[0].0, n)] + rest;
          forall b | 0 < b < |lines| ensures lines[b].productId != entries[0].0 {
            assert lines[b] == rest[b - 1];
            ReshapeMembers(tail, rest[b - 1]);
            var j :| 0 <= j < |tail| && tail[j] == (rest[b - 1].productId, Num(rest[b - 1].quantity));
            assert tail[j] == entries[j + 1];
          }
        } else {
          assert lines == rest;
        }
      case NaN =>
        assert lines == rest;
    }
  }

  /** The `productsInOrder` effect: the products, in their order, whose map
      quantity is > 0. */
  function ProductsInOrder(products: seq<ProductItem>, m: QuantityMap): seq<ProductItem>
    decreases |products|
  {
    if products == [] then []
    else (if IsPositive(m.At(products[0].id)) then [products[0]] else []) + ProductsInOrder(products[1..], m)
  }

  lemma {:induction false} ProductsInOrderMembers(products: seq<ProductItem>, m: QuantityMap, p: ProductItem)
    ensures p in ProductsInOrder(products, m) <==> p in products && IsPositive(m.At(p.id))
    decreases |products|
  {
    if products != [] {
      ProductsInOrderMembers(products[1..], m, p);
      assert products == [products[0]] + products[1..];
    }
  }

  lemma {:induction false} ProductsInOrderAppend(a: seq<ProductItem>, b: seq<ProductItem>, m: QuantityMap)
    ensures ProductsInOrder(a + b, m) == ProductsInOrder(a, m) + ProductsInOrder(b, m)
    decreases |a|
  {
    if a == [] {
      assert a + b == b;
    } else {
      ProductsInOrderAppend(a[1..], b, m);
      assert (a + b)[0] == a[0] && (a + b)[1..] == a[1..] + b;
    }
  }

  class EditOrder {
    var address: string
    var products: seq<ProductItem>
    var productQuantity: QuantityMap
    var orderToBeConfirmed: Option<OrderValues>
    var productsInOrder: seq<ProductItem>

    ghost predicate Valid()
      reads this
    {
      productQuantity.Valid()
    }

    /** The screen's initial state. */
    constructor ()
      ensures Valid()
      ensures address == "" && products == [] && productQuantity == QuantityMap([], map[])
      ensures orderToBeConfirmed == None && productsInOrder == []
    {
      address := "";
      products := [];
      productQuantity := QuantityMap([], map[]);
      orderToBeConfirmed := None;
      productsInOrder := [];
    }

    /** `fetchAll`.  `None` is a failed request: an error is shown and
        nothing changes.  Otherwise the address and product list are taken
        over and the existing map is seeded: every restaurant product set to
        0, then every ordered product set to its quantity. */
    method FetchAll(fetched: Option<Fetched>)
      requires Valid()
      modifies this
      ensures Valid()
      ensures fetched.None? ==>
        address == old(address) && products == old(products) && productQuantity == old(productQuantity)
      ensures fetched.Some? ==>
        && address == fetched.value.order.address
        && products == fetched.value.restaurantProducts
        && productQuantity == Seeded(old(productQuantity), fetched.value.restaurantProducts, fetched.value.order.products)
      ensures orderToBeConfirmed == old(orderToBeConfirmed) && productsInOrder == old(productsInOrder)
    {
      if fetched.None? {
        return;
      }
      var restaurantProducts, order := fetched.value.restaurantProducts, fetched.value.order;
      address := order.address;
      products := restaurantProducts;
      var zeroed := SetEach(productQuantity, Zeros(restaurantProducts));
      productQuantity := SetEach(zeroed, OrderQuantities(order.products));
    }

    /** The - button: decrements only a quantity that is > 0, so no quantity
        is taken below 0; no other product changes. */
    method PressMinus(id: nat)
      requires Valid()
      modifies this`productQuantity
      ensures Valid()
      ensures forall k | k != id :: productQuantity.At(k) == old(productQuantity.At(k))
      ensures IsPositive(old(productQuantity.At(id))) ==>
        productQuantity.At(id) == Some(Num(old(productQuantity.At(id)).value.n - 1))
        && productQuantity.keys == old(productQuantity.keys)
      ensures !IsPositive(old(productQuantity.At(id))) ==> productQuantity == old(productQuantity)
      ensures NoNegative(old(productQuantity.values)) ==> NoNegative(productQuantity.values)
    {
      var current := productQuantity.At(id);
      if IsPositive(current) {
        productQuantity := productQuantity.Set(id, Num(current.value.n - 1));
        assert forall k | k in productQuantity.values && k != id :: productQuantity.values[k] == old(productQuantity).values[k] by {
          forall k | k in productQuantity.values && k != id
            ensures productQuantity.values[k] == old(productQuantity).values[k]
          {
            assert productQuantity.At(k) == old(productQuantity).At(k);
          }
        }
      }
    }

    /** The + button: adds 1 to the product's quantity (undefined + 1 is
        NaN); no other product changes. */
    method PressPlus(id: nat)
      requires Valid()
      modifies this`productQuantity
      ensures Valid()
      ensures forall k | k != id :: productQuantity.At(k) == old(productQuantity.At(k))
      ensures productQuantity.At(id) == Some(Add(old(productQuantity.At(id)), 1))
      ensures id in old(productQuantity.keys) ==> productQuantity.keys == old(productQuantity.keys)
      ensures id !in old(productQuantity.keys) ==> productQuantity.keys == old(productQuantity.keys) + [id]
    {
      productQuantity := productQuantity.Set(id, Add(productQuantity.At(id), 1));
    }

    /** The address field of the confirmation modal. */
    method SetAddress(newAddress: string)
      modifies this`address
      ensures address == newAddress
    {
      address := newAddress;
    }

    /** `confirmOrder`: stages `{address, products}` with the positive lines
        of the map, or, when there is none, stages nothing and reports the
        'Select at least one product' error (`rejected`). */
    method ConfirmOrder() returns (rejected: bool)
      requires Valid()
      modifies this`orderToBeConfirmed
      ensures rejected <==> Reshape(productQuantity.Entries()) == []
      ensures !rejected ==> orderToBeConfirmed == Some(OrderValues(address, Reshape(productQuantity.Entries())))
      ensures rejected ==> orderToBeConfirmed == old(orderToBeConfirmed)
    {
      var reshaped := Reshape(productQuantity.Entries());
      if |reshaped| > 0 {
        orderToBeConfirmed := Some(OrderValues(address, reshaped));
        rejected := false;
      } else {
        rejected := true;
      }
    }

    /** The effect run when the staged order changes: `productsInOrder`
        becomes the products whose quantity is > 0. */
    method RefreshProductsInOrder()
      modifies this`productsInOrder
      ensures productsInOrder == ProductsInOrder(products, productQuantity)
    {
      productsInOrder := ProductsInOrder(products, productQuantity);
    }

    /** The modal's cancel button: the staged order is dropped. */
    method CancelStaged()
      modifies this`orderToBeConfirmed
      ensures orderToBeConfirmed == None
    {
      orderToBeConfirmed := None;
    }

    /** The modal's confirm button: `updateOrder(orderToBeConfirmed)` then
        clearing the staged order.  `updateOrder` first overwrites the
        staged address with the current address, then sends the value
        (returned here as `sent`).  With nothing staged the assignment throws
        inside its `try`, so nothing is sent. */
    method SubmitStaged() returns (sent: Option<OrderValues>)
      modifies this`orderToBeConfirmed
      ensures old(orderToBeConfirmed).Some? ==>
        sent == Some(OrderValues(address, old(orderToBeConfirmed).value.products))
      ensures old(orderToBeConfirmed).None? ==> sent == None
      ensures orderToBeConfirmed == None
    {
      if orderToBeConfirmed.Some? {
        sent := Some(orderToBeConfirmed.value.(address := address));
      } else {
        sent := None;
      }
      orderToBeConfirmed := None;
    }
  }
}
