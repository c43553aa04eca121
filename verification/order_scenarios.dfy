/** Worked requests against a small database: one product (id 10) and two
    restaurants (ids 1 and 2). */
module OrderScenarios {
  import opened Wrappers
  import opened OrderValidation

  function Shop(productRestaurant: int): Store {
    Store(true, {1, 2}, map[10 := ProductRow(productRestaurant, true)], map[])
  }

  function OrderLine(productId: int, quantity: int): Line {
    Line(Some(Int(productId)), Some(Int(quantity)))
  }

  function CreateBody(lines: seq<Line>): Body {
    Body(Some(Int(1)), Some(Text("X")), Some(Array(lines)))
  }

  /** Restaurant 1 orders two units of its own available product 10: the
      `create` rules admit the request. */
  lemma CreateOwnProductAdmitted()
    ensures CreateErrors(Shop(1), CreateBody([OrderLine(10, 2)])) == []
  {
  }

  /** The same request when product 10 belongs to restaurant 2: rejected
      with the same-restaurant error. */
  lemma CreateForeignProductRejected()
    ensures FieldError(ProductsParam, NotSameRestaurant) in CreateErrors(Shop(2), CreateBody([OrderLine(10, 2)]))
  {
    var db, body := Shop(2), CreateBody([OrderLine(10, 2)]);
    assert RequestedIds(body.products.value.lines) == [Some(10)];
    FoundMembers(db, body.products.value.lines, 10);
    assert 10 in FindAll(db, body.products.value.lines);
  }

  /** Product 10 listed twice, available and of restaurant 1: the request is
      rejected as unavailable, because two lines find one row. */
  lemma CreateDuplicateLineRejected()
    ensures FieldError(ProductsParam, NotAvailable) in CreateErrors(Shop(1), CreateBody([OrderLine(10, 1), OrderLine(10, 1)]))
  {
    var db, body := Shop(1), CreateBody([OrderLine(10, 1), OrderLine(10, 1)]);
    DuplicateIdRejected(db, 0, body, 0, 1);
  }
}
