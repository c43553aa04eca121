/** Values shared by the customer app's order screens. */
module ScreenValues {
  import opened Wrappers

  /** A quantity held in a screen's state: a number, or NaN, which is what
      JavaScript gives for `undefined + 1` and `undefined - 1` when a product
      has no entry yet. */
  datatype Qty = Num(n: int) | NaN

  /** A restaurant's product as the screens receive it. */
  datatype ProductItem = ProductItem(id: nat, availability: bool)

  /** `v + d`, where `v` was read from a dictionary (`None` is undefined). */
  function Add(v: Option<Qty>, d: int): Qty {
    match v
    case Some(Num(n)) => Num(n + d)
    case _ => NaN
  }

  /** `v > 0`; false for undefined and for NaN. */
  predicate IsPositive(v: Option<Qty>) {
    v.Some? && v.value.Num? && v.value.n > 0
  }

  /** No key maps to a negative number (NaN is allowed). */
  predicate NoNegative(m: map<nat, Qty>) {
    forall k | k in m :: m[k].Num? ==> m[k].n >= 0
  }

  /** Every value is a number. */
  predicate NoNaN(m: map<nat, Qty>) {
    forall k | k in m :: m[k].Num?
  }

  /** The value stored under `k`, `None` when `k` is not a key. */
  function Get(m: map<nat, Qty>, k: nat): Option<Qty> {
    if k in m then Some(m[k]) else None
  }

  /** The ids of a product list. */
  function IdsOf(products: seq<ProductItem>): set<nat> {
    set p | p in products :: p.id
  }
}
