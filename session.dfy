/** The session-backed shopping cart: a map from product id to quantity.
    (The session stores the ids as strings; the model keys by the id itself.) */
module Session {
  import opened Sums
  import opened Models

  type Cart = map<ProductId, nat>

  /** `cart.get(id, 0)`. */
  function Quantity(cart: Cart, id: ProductId): nat
  {
    if id in cart then cart[id] else 0
  }

  /** `sum(cart.values())`: the number of units in the cart. */
  ghost function ItemCount(cart: Cart): (n: int)
    ensures n >= 0
    ensures cart == map[] ==> n == 0
  {
    SumValuesNonNegative(cart);
    SumValues(cart)
  }

  /** Setting one entry moves the unit count by the difference, and nothing else. */
  lemma ItemCountSet(cart: Cart, id: ProductId, q: nat)
    ensures ItemCount(cart[id := q]) == ItemCount(cart) - Quantity(cart, id) + q
  {
    SumValuesUpdate(cart, id, q);
  }

  /** Dropping one entry lowers the unit count by exactly its quantity. */
  lemma ItemCountDrop(cart: Cart, id: ProductId)
    ensures ItemCount(cart - {id}) == ItemCount(cart) - Quantity(cart, id)
  {
    SumValuesDelete(cart, id);
  }
}
