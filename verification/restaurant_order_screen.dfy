/**
  The customer's new-order screen.  It keeps a per-product counter `cont`,
  a plain object from product id to quantity: `startCont` fills it with
  zeros, the -/+ buttons call `updateCont`, and the Confirm button turns it
  into the `products` list of the form with `loadCleanProducts`.  The form
  is checked by a yup schema before it is posted.

  Product ids are positive database ids, so the object's keys are integer
  indices, and `Object.keys` lists such keys in ascending numeric order.
*/
module RestaurantOrderScreen {
  import opened Wrappers
  import opened ScreenValues

  /** One line of the list sent to the backend: `{productId: key, quantity}`. */
  datatype CleanLine = CleanLine(productId: nat, quantity: Qty)

  /** The form's values: `address`, `restaurantId` and `products`, each
      null (`None`) until it is set. */
  datatype OrderForm = OrderForm(address: Option<string>, restaurantId: Option<int>, products: Option<seq<CleanLine>>)

  /** `initialOrderValues`. */
  const InitialOrderValues := OrderForm(None, None, None)

  predicate Ascending(s: seq<nat>) {
    forall a, b | 0 <= a < b < |s| :: s[a] < s[b]
  }

  predicate AscendingIds(lines: seq<CleanLine>) {
    forall a, b | 0 <= a < b < |lines| :: lines[a].productId < lines[b].productId
  }

  /** JavaScript's `length` of a string: its UTF-16 code units, two for a
      character outside the Basic Multilingual Plane. */
  function Utf16Length(s: string): nat
    decreases |s|
  {
    if s == [] then 0
    else (if s[0] as int >= 0x1_0000 then 2 else 1) + Utf16Length(s[1..])
  }

  /** A string has between one and two code units per character, exactly
      one each when every character lies in the Basic Multilingual Plane. */
  lemma {:induction false} Utf16LengthBounds(s: string)
    ensures |s| <= Utf16Length(s) <= 2 * |s|
    ensures (forall i | 0 <= i < |s| :: s[i] as int < 0x1_0000) ==> Utf16Length(s) == |s|
    ensures (forall i | 0 <= i < |s| :: s[i] as int >= 0x1_0000) ==> Utf16Length(s) == 2 * |s|
    decreases |s|
  {
    if s != [] {
      Utf16LengthBounds(s[1..]);
      assert forall i | 0 <= i < |s[1..]| :: s[1..][i] == s[i + 1];
    }
  }

  /** The yup `validationSchema`: a required string address of at most 255
      code units (a required string may not be empty), a required numeric
      restaurantId, and an array (null is not one) whose every line has a
      numeric productId and quantity (NaN is not a number to yup). */
  predicate ValidationSchema(form: OrderForm) {
    && form.address.Some? && 1 <= Utf16Length(form.address.value) <= 255
    && form.restaurantId.Some?
    && form.products.Some?
    && forall i | 0 <= i < |form.products.value| :: form.products.value[i].quantity.Num?
  }

  /** What a form that passes the schema holds: an address of 1 to 255
      characters (at most 255 code units, so 128 characters outside the Basic
      Multilingual Plane already exceed it), a restaurant, and a product list
      of numeric quantities.  The initial form, all null, does not pass, so
      the Confirm button must have run before a submission. */
  lemma ValidationSchemaBounds(form: OrderForm)
    ensures ValidationSchema(form) ==>
      && 1 <= |form.address.value| <= 255
      && form.restaurantId.Some? && form.products.Some?
      && forall i | 0 <= i < |form.products.value| :: form.products.value[i].quantity.Num?
    ensures !ValidationSchema(InitialOrderValues)
    ensures form.address.Some? && |form.address.value| >= 128
      && (forall i | 0 <= i < |form.address.value| :: form.address.value[i] as int >= 0x1_0000)
      ==> !ValidationSchema(form)
  {
    if form.address.Some? {
      Utf16LengthBounds(form.address.value);
    }
  }

  /** A finite non-empty set of naturals has a least element. */
  lemma {:induction false} LeastExists(s: set<nat>)
    requires s != {}
    ensures exists x | x in s :: forall y | y in s :: x <= y
  {
    var a :| a in s;
    if s - {a} == {} {
      assert s == {a};
    } else {
      LeastExists(s - {a});
      var b :| b in s - {a} && forall y | y in s - {a} :: b <= y;
      if a < b {
        forall y | y in s ensures a <= y {
          if y != a { assert y in s - {a}; }
        }
      } else {
        forall y | y in s ensures b <= y {
          if y != a { assert y in s - {a}; }
        }
      }
    }
  }

  /** The least element of a non-empty set of ids. */
  method PickLeast(s: set<nat>) returns (x: nat)
    requires s != {}
    ensures x in s && forall y | y in s :: x <= y
  {
    LeastExists(s);
    x :| x in s && forall y | y in s :: x <= y;
  }

  /** `Object.keys(m)` for an object whose keys are integer indices: every
      key once, in ascending order. */
  method ObjectKeys(m: map<nat, Qty>) returns (keys: seq<nat>)
    ensures Ascending(keys)
    ensures forall k :: k in keys <==> k in m
  {
    keys := [];
    var rest := m.Keys;
    while rest != {}
      invariant rest <= m.Keys
      invariant forall k | k in keys :: k in m && k !in rest
      invariant forall k | k in m && k !in rest :: k in keys
      invariant Ascending(keys)
      invariant forall a, k | 0 <= a < |keys| && k in rest :: keys[a] < k
      decreases |rest|
    {
      var x := PickLeast(rest);
      keys := keys + [x];
      rest := rest - {x};
    }
  }

  class OrderComposer {
    /** The `cont` state: product id to quantity. */
    var cont: map<nat, Qty>

    /** `useState({})`. */
    constructor ()
      ensures cont == map[]
    {
      cont := map[];
    }

    /** `startCont`: one entry per product of the restaurant, all zero. */
    method StartCont(products: seq<ProductItem>)
      modifies this
      ensures cont.Keys == IdsOf(products)
      ensures forall k | k in cont :: cont[k] == Num(0)
      ensures NoNegative(cont) && NoNaN(cont)
    {
      var newCont: map<nat, Qty> := map[];
      for i := 0 to |products|
        invariant newCont.Keys == IdsOf(products[..i])
        invariant forall k | k in newCont :: newCont[k] == Num(0)
      {
        assert products[..i + 1] == products[..i] + [products[i]];
        newCont := newCont[products[i].id := Num(0)];
      }
      assert products[..|products|] == products;
      cont := newCont;
    }

    /** `updateCont(id, cantidad)`, called with 1 by the + button and -1 by
        the - button.  It edits a copy and stores it back, so only `id` can
        change.  The source's first test compares the count with the function
        `isNaN` and so never holds; it has no counterpart here.  A key that is
        not there yet reads as undefined: adding or subtracting 1 gives NaN,
        and any other non-zero `cantidad` leaves the key out. */
    method UpdateCont(id: nat, cantidad: int)
      modifies this
      ensures forall k | k != id :: Get(cont, k) == Get(old(cont), k)
      ensures cantidad == 0 ==> Get(cont, id) == Some(Num(0))
      ensures cantidad == 1 ==> Get(cont, id) == Some(Add(Get(old(cont), id), 1))
      ensures cantidad == -1 ==>
        (Get(cont, id) == Some(match Get(old(cont), id) case Some(Num(n)) => Num(if n >= 1 then n - 1 else 0) case _ => NaN))
      ensures cantidad !in {-1, 0, 1} ==>
        (Get(cont, id) == match Get(old(cont), id) case Some(Num(n)) => Some(Num(if n < 0 then 0 else n)) case v => v)
      ensures NoNegative(old(cont)) ==> NoNegative(cont)
      ensures id in old(cont) ==> cont.Keys == old(cont).Keys
      ensures NoNaN(old(cont)) && id in old(cont) ==> NoNaN(cont)
    {
      var contCopy := cont;
      if cantidad == 0 {
        contCopy := contCopy[id := Num(0)];
      } else {
        if cantidad == 1 {
          contCopy := contCopy[id := Add(Get(contCopy, id), 1)];
        } else {
          if cantidad == -1 {
            contCopy := contCopy[id := Add(Get(contCopy, id), -1)];
          }
          if id in contCopy && contCopy[id].Num? && contCopy[id].n < 0 {
            contCopy := contCopy[id := Num(0)];
          }
        }
      }
      cont := contCopy;
    }

    /** `loadCleanProducts`: one line per key whose count is not 0, in key
        order.  The result is always handed to the callback, because the
        `canceled` property it tests is undefined on an array. */
    method LoadCleanProducts() returns (clean: seq<CleanLine>)
      ensures AscendingIds(clean)
      ensures forall i | 0 <= i < |clean| ::
        clean[i].productId in cont && cont[clean[i].productId] == clean[i].quantity && clean[i].quantity != Num(0)
      ensures forall k | k in cont && cont[k] != Num(0) :: exists i | 0 <= i < |clean| :: clean[i].productId == k
      ensures NoNegative(cont) ==>
        forall i | 0 <= i < |clean| :: clean[i].quantity == NaN || clean[i].quantity.n >= 1
    {
      var snapshot := cont;
      var keys := ObjectKeys(snapshot);
      clean := [];
      for i := 0 to |keys|
        invariant AscendingIds(clean)
        invariant i < |keys| ==> forall c | 0 <= c < |clean| :: clean[c].productId < keys[i]
        invariant forall c | 0 <= c < |clean| ::
          clean[c].productId in snapshot && snapshot[clean[c].productId] == clean[c].quantity
          && clean[c].quantity != Num(0)
        invariant forall j | 0 <= j < i && snapshot[keys[j]] != Num(0) ::
          CleanLine(keys[j], snapshot[keys[j]]) in clean
      {
        var key := keys[i];
        if snapshot[key] != Num(0) {
          clean := clean + [CleanLine(key, snapshot[key])];
        }
      }
      forall k | k in cont && cont[k] != Num(0)
        ensures exists c | 0 <= c < |clean| :: clean[c].productId == k
      {
        var j :| 0 <= j < |keys| && keys[j] == k;
        var c :| 0 <= c < |clean| && clean[c] == CleanLine(k, cont[k]);
      }
    }

    /** The Confirm button: pressing it sets the form's `restaurantId` to the
        restaurant's id, releasing it sets `products` to the lines
        `loadCleanProducts` hands over; the address is left as typed. */
    method Confirm(form: OrderForm, restaurantId: int) returns (next: OrderForm)
      ensures next.address == form.address && next.restaurantId == Some(restaurantId)
      ensures next.products.Some? && AscendingIds(next.products.value)
      ensures forall i | 0 <= i < |next.products.value| ::
        var line := next.products.value[i];
        line.productId in cont && cont[line.productId] == line.quantity && line.quantity != Num(0)
      ensures forall k | k in cont && cont[k] != Num(0) ::
        exists i | 0 <= i < |next.products.value| :: next.products.value[i].productId == k
      ensures NoNegative(cont) ==>
        forall i | 0 <= i < |next.products.value| ::
          next.products.value[i].quantity == NaN || next.products.value[i].quantity.n >= 1
    {
      var clean := LoadCleanProducts();
      next := form.(restaurantId := Some(restaurantId), products := Some(clean));
    }
  }
}
