/** The buyer-side request handlers: the session cart (add, view, update,
    remove), checkout, reviews, the password-reset confirmation and the
    home page's cart count. Each handler runs as one atomic step over the
    shop's state; `login_required` is assumed passed, so every handler gets
    the signed-in user. */
module Views {
  import opened Wrappers
  import opened Sums
  import opened Models
  import opened Forms
  import opened Session
  import ContextProcessors

  type Catalog = map<ProductId, Product>

  /** One displayed cart or checkout line: product, quantity and line total. */
  datatype CartLine = CartLine(product: ProductId, quantity: nat, total: Cents)

  /** A reason checkout refuses a cart line. */
  datatype LineError =
    | Missing(product: ProductId)
    | OutOfStock(product: ProductId)
    | Insufficient(product: ProductId, available: nat)

  /** What a handler answers: the redirect or page it ends with. */
  datatype Response =
    | Denied
    | NotFound
    | ProductGone
    | Added
    | SoldOut
    | StockLimit(available: nat)
    | Updated
    | Removed
    | NotInCart
    | CartPage(lines: seq<CartLine>, total: Cents)
    | EmptyCart
    | Rejected(errors: seq<LineError>)
    | Placed(order: Order)
    | ReviewPage
    | ReviewRejected(error: FormError)
    | ReviewSaved
    | InvalidLink
    | LinkExpired
    | ResetForm
    | ResetRejected
    | PasswordReset(user: UserId, password: string)

  // ---------------------------------------------------------------------
  // Specification of the cart's lines and totals

  function LinesTotal(lines: seq<CartLine>): Cents
  {
    if lines == [] then 0 else LinesTotal(lines[..|lines| - 1]) + lines[|lines| - 1].total
  }

  ghost function LineIds(lines: seq<CartLine>): set<ProductId>
  {
    if lines == [] then {} else LineIds(lines[..|lines| - 1]) + {lines[|lines| - 1].product}
  }

  /** `lines` lists every entry of `m` exactly once (in some order), each
      with its quantity and its price × quantity. */
  ghost predicate LinesMatch(lines: seq<CartLine>, m: Cart, products: Catalog)
  {
    && LineIds(lines) == m.Keys
    && (forall i, j :: 0 <= i < j < |lines| ==> lines[i].product != lines[j].product)
    && (forall i :: 0 <= i < |lines| ==>
          lines[i].product in m && lines[i].product in products &&
          lines[i].quantity == m[lines[i].product] &&
          lines[i].total == products[lines[i].product].price * lines[i].quantity)
  }

  /** Line totals of the entries whose product exists. */
  ghost function LineTotals(cart: Cart, products: Catalog): map<ProductId, int>
  {
    map k | k in cart && k in products :: products[k].price * cart[k]
  }

  /** Σ price × quantity over the entries whose product exists. */
  ghost function CartTotal(cart: Cart, products: Catalog): Cents
  {
    SumValues(LineTotals(cart, products))
  }

  /** Adding a new entry adds exactly its line total. */
  lemma CartTotalAdd(cart: Cart, products: Catalog, k: ProductId, q: nat)
    requires k !in cart && k in products
    ensures CartTotal(cart[k := q], products) == CartTotal(cart, products) + products[k].price * q
  {
    assert LineTotals(cart[k := q], products) == LineTotals(cart, products)[k := products[k].price * q];
    SumValuesUpdate(LineTotals(cart, products), k, products[k].price * q);
  }

  function Restrict(cart: Cart, keys: set<ProductId>): Cart
  {
    map k | k in cart && k in keys :: cart[k]
  }

  predicate Sellable(products: Catalog, k: ProductId)
  {
    k in products && IsInStock(products[k])
  }

  /** The entries the cart page keeps: product exists and is in stock. */
  function Kept(cart: Cart, products: Catalog): Cart
  {
    map k | k in cart && Sellable(products, k) :: cart[k]
  }

  /** The three checks checkout makes of one line, in the source's order. */
  function CheckLine(products: Catalog, k: ProductId, q: nat): (r: Option<LineError>)
    ensures r.None? <==> LineOk(products, k, q)
    ensures r.Some? ==> r.value.product == k
  {
    if k !in products then Some(Missing(k))
    else if !IsInStock(products[k]) then Some(OutOfStock(k))
    else if q > products[k].stockQuantity then Some(Insufficient(k, products[k].stockQuantity))
    else None
  }

  predicate LineOk(products: Catalog, k: ProductId, q: nat)
  {
    k in products && IsInStock(products[k]) && q <= products[k].stockQuantity
  }

  /** Every line of the cart passes checkout's checks. */
  ghost predicate Purchasable(cart: Cart, products: Catalog)
  {
    forall k :: k in cart ==> LineOk(products, k, cart[k])
  }

  /** The lines that pass checkout's checks. */
  function Passing(cart: Cart, products: Catalog): Cart
  {
    map k | k in cart && LineOk(products, k, cart[k]) :: cart[k]
  }

  ghost function FailingIds(cart: Cart, products: Catalog): set<ProductId>
  {
    set k | k in cart && !LineOk(products, k, cart[k])
  }

  ghost function ErrorIds(errors: seq<LineError>): set<ProductId>
  {
    if errors == [] then {} else ErrorIds(errors[..|errors| - 1]) + {errors[|errors| - 1].product}
  }

  /** `errors` holds one error per failing line, as `CheckLine` reports it. */
  ghost predicate ErrorsMatch(errors: seq<LineError>, cart: Cart, products: Catalog)
  {
    && ErrorIds(errors) == FailingIds(cart, products)
    && (forall i, j :: 0 <= i < j < |errors| ==> errors[i].product != errors[j].product)
    && (forall i :: 0 <= i < |errors| ==>
          errors[i].product in cart &&
          CheckLine(products, errors[i].product, cart[errors[i].product]) == Some(errors[i]))
  }

  /** The catalog after checkout: each purchased product's stock lowered by
      its quantity. The subtraction stays non-negative because checkout
      checked quantity ≤ stock. */
  function Purchased(products: Catalog, cart: Cart): Catalog
    requires Purchasable(cart, products)
  {
    map k | k in products ::
      if k in cart then products[k].(stockQuantity := products[k].stockQuantity - cart[k])
      else products[k]
  }

  // ---------------------------------------------------------------------
  // The two loops over the cart

  lemma SomeMember(keys: set<ProductId>)
    requires keys != {}
    ensures exists k :: k in keys
  {
    if forall k :: k !in keys {
      assert false;
    }
  }

  /** Appending the line of a new entry extends a matching line list. */
  lemma LinesAppend(lines: seq<CartLine>, m: Cart, products: Catalog, k: ProductId, q: nat)
    requires LinesMatch(lines, m, products)
    requires k !in m && k in products
    ensures var line := CartLine(k, q, products[k].price * q);
      LinesMatch(lines + [line], m[k := q], products) &&
      LinesTotal(lines + [line]) == LinesTotal(lines) + line.total
  {
    var line := CartLine(k, q, products[k].price * q);
    assert (lines + [line])[..|lines|] == lines;
  }

  /** Taking one more key of the cart into account. */
  lemma RestrictStep(cart: Cart, done: set<ProductId>, k: ProductId)
    requires k in cart && k !in done
    ensures k !in Restrict(cart, done)
    ensures Restrict(cart, done + {k}) == Restrict(cart, done)[k := cart[k]]
  {
  }

  lemma KeptStep(m: Cart, products: Catalog, k: ProductId, q: nat)
    requires k !in m
    ensures k !in Kept(m, products)
    ensures Kept(m[k := q], products) ==
      if Sellable(products, k) then Kept(m, products)[k := q] else Kept(m, products)
  {
  }

  lemma PassingStep(m: Cart, products: Catalog, k: ProductId, q: nat)
    requires k !in m
    ensures k !in Passing(m, products)
    ensures Passing(m[k := q], products) ==
      if LineOk(products, k, q) then Passing(m, products)[k := q] else Passing(m, products)
  {
  }

  /** The cart page's loop: list the live lines with their total, and drop
      the entries whose product is gone or sold out (the source deletes from
      the dictionary it is iterating over; here the loop walks a snapshot of
      the keys). */
  method CollectCartLines(cart: Cart, products: Catalog) returns (lines: seq<CartLine>, total: Cents, kept: Cart)
    ensures kept == Kept(cart, products)
    ensures LinesMatch(lines, kept, products)
    ensures total == CartTotal(kept, products) && total == LinesTotal(lines)
  {
    lines, total, kept := [], 0, cart;
    var todo := cart.Keys;
    ghost var done: set<ProductId> := {};
    while todo != {}
      invariant todo !! done && todo + done == cart.Keys
      invariant kept == Restrict(cart, todo) + Kept(Restrict(cart, done), products)
      invariant Collected(products, Restrict(cart, done), lines, total)
      decreases todo
    {
      SomeMember(todo);
      var k :| k in todo;
      RestrictStep(cart, done, k);
      KeptSplitStep(cart, products, todo, done, k);
      CollectStep(products, Restrict(cart, done), k, cart[k], lines, total);
      if k in products && IsInStock(products[k]) {
        var line := CartLine(k, cart[k], products[k].price * cart[k]);
        lines := lines + [line];
        total := total + line.total;
      } else {
        kept := kept - {k};
      }
      todo := todo - {k};
      done := done + {k};
    }
    assert Restrict(cart, done) == cart;
    assert Restrict(cart, todo) == map[];
    assert kept == Kept(Restrict(cart, done), products);
  }

  /** The cart page's loop as the source writes it, over the live
      dictionary, whose keys it meets in `order`, each exactly once: once an
      entry is deleted, the dictionary iterator's next step raises, so the
      page fails (None) as soon as one entry has to be dropped. Otherwise
      it is the cart's total. */
  function CartLoopAsWritten(order: seq<ProductId>, cart: Cart, products: Catalog): (r: Option<Cents>)
    requires forall i :: 0 <= i < |order| ==> order[i] in cart
    requires forall k :: k in cart ==> k in order
    requires forall i, j :: 0 <= i < j < |order| ==> order[i] != order[j]
    ensures r.None? <==> exists i :: 0 <= i < |order| && !Sellable(products, order[i])
    ensures r.Some? ==> r.value == CartTotal(cart, products)
  {
    if order == [] then
      EmptyEnumeration(cart, products);
      Some(0)
    else
      var k := order[0];
      if !Sellable(products, k) then None
      else
        EnumerationTail(order, cart);
        match CartLoopAsWritten(order[1..], cart - {k}, products)
        case None => None
        case Some(sum) =>
          CartTotalSplit(cart, products, k);
          Some(products[k].price * cart[k] + sum)
  }

  /** A cart enumerated by no key is empty and totals 0. */
  lemma EmptyEnumeration(cart: Cart, products: Catalog)
    requires forall k :: k in cart ==> k in []
    ensures CartTotal(cart, products) == 0
  {
    assert forall k :: k !in cart;
    assert LineTotals(cart, products) == map[];
  }

  /** Past its first key, an enumeration of a cart enumerates the rest. */
  lemma EnumerationTail(order: seq<ProductId>, cart: Cart)
    requires order != []
    requires forall i :: 0 <= i < |order| ==> order[i] in cart
    requires forall k :: k in cart ==> k in order
    requires forall i, j :: 0 <= i < j < |order| ==> order[i] != order[j]
    ensures forall i :: 0 <= i < |order[1..]| ==> order[1..][i] in cart - {order[0]}
    ensures forall k :: k in cart - {order[0]} ==> k in order[1..]
    ensures forall i, j :: 0 <= i < j < |order[1..]| ==> order[1..][i] != order[1..][j]
  {
    forall k | k in cart - {order[0]} ensures k in order[1..] {
      var i :| 0 <= i < |order| && order[i] == k;
      assert order[1..][i - 1] == k;
    }
  }

  /** The cart total is one entry's line total plus the total of the rest. */
  lemma CartTotalSplit(cart: Cart, products: Catalog, k: ProductId)
    requires k in cart && k in products
    ensures CartTotal(cart, products) == CartTotal(cart - {k}, products) + products[k].price * cart[k]
  {
    assert (cart - {k})[k := cart[k]] == cart;
    CartTotalAdd(cart - {k}, products, k, cart[k]);
  }

  /** One sold-out or deleted product in the cart breaks the page as
      written, where the intended page drops that entry and shows the rest. */
  lemma StaleEntryBreaksCartPage()
    ensures CartLoopAsWritten([7], map[7 := 1], map[]).None?
    ensures Kept(map[7 := 1], map[]) == map[]
  {
  }

  /** What the cart page's loop has established about the entries `seen`
      so far. */
  ghost predicate Collected(products: Catalog, seen: Cart, lines: seq<CartLine>, total: Cents)
  {
    && LinesMatch(lines, Kept(seen, products), products)
    && total == LinesTotal(lines)
    && total == CartTotal(Kept(seen, products), products)
  }

  /** One step of the cart page's loop: a sellable entry adds its line and
      line total, any other adds nothing. */
  lemma CollectStep(products: Catalog, seen: Cart, k: ProductId, q: nat, lines: seq<CartLine>, total: Cents)
    requires k !in seen && Collected(products, seen, lines, total)
    ensures Sellable(products, k) ==>
      Collected(products, seen[k := q], lines + [CartLine(k, q, products[k].price * q)], total + products[k].price * q)
    ensures !Sellable(products, k) ==> Collected(products, seen[k := q], lines, total)
  {
    KeptStep(seen, products, k, q);
    if Sellable(products, k) {
      CartTotalAdd(Kept(seen, products), products, k, q);
      LinesAppend(lines, Kept(seen, products), products, k, q);
    }
  }

  /** One step of the cart page's loop: the entry `k` moves from the
      unvisited part to the visited part, where it survives only if its
      product is sellable. */
  lemma KeptSplitStep(cart: Cart, products: Catalog, todo: set<ProductId>, done: set<ProductId>, k: ProductId)
    requires k in todo && todo !! done && todo + done == cart.Keys
    ensures Restrict(cart, todo - {k}) + Kept(Restrict(cart, done + {k}), products) ==
      if Sellable(products, k) then Restrict(cart, todo) + Kept(Restrict(cart, done), products)
      else (Restrict(cart, todo) + Kept(Restrict(cart, done), products)) - {k}
  {
  }

  /** Checkout's validation loop: price the passing lines and collect one
      error per failing line. */
  method ValidateCart(cart: Cart, products: Catalog) returns (lines: seq<CartLine>, total: Cents, errors: seq<LineError>)
    ensures LinesMatch(lines, Passing(cart, products), products)
    ensures total == CartTotal(Passing(cart, products), products) && total == LinesTotal(lines)
    ensures ErrorsMatch(errors, cart, products)
    ensures errors == [] <==> Purchasable(cart, products)
    ensures errors == [] ==> LinesMatch(lines, cart, products) && total == CartTotal(cart, products)
  {
    lines, total, errors := [], 0, [];
    var todo := cart.Keys;
    ghost var done: set<ProductId> := {};
    while todo != {}
      invariant todo !! done && todo + done == cart.Keys
      invariant Validated(products, Restrict(cart, done), lines, total, errors)
      decreases todo
    {
      SomeMember(todo);
      var k :| k in todo;
      RestrictStep(cart, done, k);
      lines, total, errors := ValidateEntry(products, Restrict(cart, done), k, cart[k], lines, total, errors);
      todo := todo - {k};
      done := done + {k};
    }
    assert Restrict(cart, done) == cart;
    ValidateDone(cart, products, lines, total, errors);
  }

  /** Checks one cart entry: a passing entry becomes a line and adds to the
      total, a failing one adds its error. */
  method ValidateEntry(products: Catalog, ghost seen: Cart, k: ProductId, q: nat,
                       lines: seq<CartLine>, total: Cents, errors: seq<LineError>)
    returns (lines': seq<CartLine>, total': Cents, errors': seq<LineError>)
    requires k !in seen && Validated(products, seen, lines, total, errors)
    ensures Validated(products, seen[k := q], lines', total', errors')
  {
    ValidateStep(products, seen, k, q, lines, total, errors);
    var problem := CheckLine(products, k, q);
    if problem.Some? {
      lines', total', errors' := lines, total, errors + [problem.value];
    } else {
      var line := CartLine(k, q, products[k].price * q);
      lines', total', errors' := lines + [line], total + line.total, errors;
    }
  }

  /** Once every entry is seen: no errors exactly when the whole cart
      passes, and then the lines and total are the whole cart's. */
  lemma ValidateDone(cart: Cart, products: Catalog, lines: seq<CartLine>, total: Cents, errors: seq<LineError>)
    requires Validated(products, cart, lines, total, errors)
    ensures LinesMatch(lines, Passing(cart, products), products)
    ensures total == CartTotal(Passing(cart, products), products) && total == LinesTotal(lines)
    ensures ErrorsMatch(errors, cart, products)
    ensures errors == [] <==> Purchasable(cart, products)
    ensures errors == [] ==> LinesMatch(lines, cart, products) && total == CartTotal(cart, products)
  {
    AllPassing(cart, products, errors);
  }

  /** What checkout's validation loop has established about the entries
      `seen` so far. */
  ghost predicate Validated(products: Catalog, seen: Cart, lines: seq<CartLine>, total: Cents, errors: seq<LineError>)
  {
    && LinesMatch(lines, Passing(seen, products), products)
    && total == LinesTotal(lines)
    && total == CartTotal(Passing(seen, products), products)
    && ErrorsMatch(errors, seen, products)
  }

  /** One step of checkout's validation loop: a passing entry adds its
      line and line total, a failing one its error. */
  lemma ValidateStep(products: Catalog, seen: Cart, k: ProductId, q: nat,
                     lines: seq<CartLine>, total: Cents, errors: seq<LineError>)
    requires k !in seen && Validated(products, seen, lines, total, errors)
    ensures LineOk(products, k, q) ==>
      Validated(products, seen[k := q], lines + [CartLine(k, q, products[k].price * q)],
        total + products[k].price * q, errors)
    ensures !LineOk(products, k, q) ==>
      Validated(products, seen[k := q], lines, total, errors + [CheckLine(products, k, q).value])
  {
    PassingStep(seen, products, k, q);
    if LineOk(products, k, q) {
      FailingStep(seen, products, k, q);
      CartTotalAdd(Passing(seen, products), products, k, q);
      LinesAppend(lines, Passing(seen, products), products, k, q);
    } else {
      ErrorsAppend(errors, seen, products, k, q);
    }
  }

  lemma FailingStep(m: Cart, products: Catalog, k: ProductId, q: nat)
    requires k !in m && LineOk(products, k, q)
    ensures FailingIds(m[k := q], products) == FailingIds(m, products)
  {
  }

  /** With no error reported, every line passes and the passing part is the whole cart. */
  lemma AllPassing(cart: Cart, products: Catalog, errors: seq<LineError>)
    requires ErrorsMatch(errors, cart, products)
    ensures errors == [] <==> Purchasable(cart, products)
    ensures errors == [] ==> Passing(cart, products) == cart
  {
    if errors == [] {
      forall k | k in cart ensures LineOk(products, k, cart[k]) {
        assert k !in FailingIds(cart, products);
      }
      assert Passing(cart, products) == cart;
    } else {
      assert errors[|errors| - 1].product in ErrorIds(errors);
    }
  }

  /** Appending the error of a new, failing entry extends a matching error list. */
  lemma ErrorsAppend(errors: seq<LineError>, m: Cart, products: Catalog, k: ProductId, q: nat)
    requires ErrorsMatch(errors, m, products)
    requires k !in m && !LineOk(products, k, q)
    ensures ErrorsMatch(errors + [CheckLine(products, k, q).value], m[k := q], products)
  {
    var e := CheckLine(products, k, q).value;
    var errors' := errors + [e];
    var m' := m[k := q];
    assert errors'[..|errors|] == errors;
    assert ErrorIds(errors') == ErrorIds(errors) + {k};
    FailingAdd(m, products, k, q);
    forall i | 0 <= i < |errors'|
      ensures errors'[i].product in m'
      ensures CheckLine(products, errors'[i].product, m'[errors'[i].product]) == Some(errors'[i])
    {
      if i < |errors| {
        assert errors'[i] == errors[i];
      }
    }
    forall i, j | 0 <= i < j < |errors'|
      ensures errors'[i].product != errors'[j].product
    {
      assert errors'[i] == errors[i];
      if j < |errors| {
        assert errors'[j] == errors[j];
      } else {
        assert errors[i].product in m;
      }
    }
  }

  lemma FailingAdd(m: Cart, products: Catalog, k: ProductId, q: nat)
    requires k !in m && !LineOk(products, k, q)
    ensures FailingIds(m[k := q], products) == FailingIds(m, products) + {k}
  {
  }

  // ---------------------------------------------------------------------
  // Order items

  ghost function ItemIds(items: seq<OrderItem>): set<ProductId>
  {
    if items == [] then {} else ItemIds(items[..|items| - 1]) + {items[|items| - 1].product}
  }

  /** `items` holds one order item per cart entry, with the entry's quantity
      and the product's price at checkout. */
  ghost predicate ItemsMatch(items: seq<OrderItem>, cart: Cart, products: Catalog)
  {
    && ItemIds(items) == cart.Keys
    && (forall i, j :: 0 <= i < j < |items| ==> items[i].product != items[j].product)
    && (forall i :: 0 <= i < |items| ==>
          items[i].product in cart && items[i].product in products &&
          items[i].quantity == cart[items[i].product] &&
          items[i].price == products[items[i].product].price)
  }

  /** Whether `user` has an order containing `product`. */
  predicate HasPurchased(orders: seq<Order>, user: UserId, product: ProductId)
  {
    exists i, j :: 0 <= i < |orders| && 0 <= j < |orders[i].items| &&
      orders[i].buyer == user && orders[i].items[j].product == product
  }

  lemma LineIdsHas(lines: seq<CartLine>, k: ProductId)
    ensures k in LineIds(lines) <==> exists j :: 0 <= j < |lines| && lines[j].product == k
  {
    if lines != [] {
      LineIdsHas(lines[..|lines| - 1], k);
      assert forall j :: 0 <= j < |lines| - 1 ==> lines[..|lines| - 1][j] == lines[j];
    }
  }

  /** Buying one more entry `k` lowers only `k`'s stock. */
  lemma PurchasedStep(products: Catalog, m: Cart, k: ProductId, q: nat)
    requires k !in m && Purchasable(m, products) && LineOk(products, k, q)
    ensures Purchasable(m[k := q], products)
    ensures Purchased(products, m[k := q]) ==
      Purchased(products, m)[k := products[k].(stockQuantity := products[k].stockQuantity - q)]
  {
  }

  /** What checkout does to stock, summed over the catalog: the units left
      plus the units bought equal the units there were. */
  lemma {:induction false} PurchaseConservesStock(products: Catalog, cart: Cart)
    requires Purchasable(cart, products)
    ensures SumValues(Stocks(Purchased(products, cart))) + ItemCount(cart) == SumValues(Stocks(products))
    decreases cart.Keys
  {
    if cart == map[] {
      assert Purchased(products, cart) == products;
    } else {
      SomeMember(cart.Keys);
      var k :| k in cart;
      var products' := BuyOne(products, cart, k);
      PurchaseConservesStock(products', cart - {k});
      var before, left := Stocks(products), products[k].stockQuantity - cart[k];
      SumValuesUpdate(before, k, left);
      assert before[k] == products[k].stockQuantity;
      ItemCountDrop(cart, k);
      assert Quantity(cart, k) == cart[k];
    }
  }

  /** Buying entry `k` first and the rest of the cart afterwards is the
      same purchase. */
  lemma BuyOne(products: Catalog, cart: Cart, k: ProductId) returns (products': Catalog)
    requires Purchasable(cart, products) && k in cart
    ensures k in products && cart[k] <= products[k].stockQuantity
    ensures products' == products[k := products[k].(stockQuantity := products[k].stockQuantity - cart[k])]
    ensures Purchasable(cart - {k}, products')
    ensures Purchased(products, cart) == Purchased(products', cart - {k})
    ensures Stocks(products') == Stocks(products)[k := products[k].stockQuantity - cart[k]]
  {
    assert LineOk(products, k, cart[k]);
    products' := products[k := products[k].(stockQuantity := products[k].stockQuantity - cart[k])];
  }

  /** A purchase changes stock only: every row keeps its id. */
  lemma PurchasedKeepsIds(products: Catalog, cart: Cart)
    requires Purchasable(cart, products)
    requires forall k :: k in products ==> products[k].id == k
    ensures Purchased(products, cart).Keys == products.Keys
    ensures forall k :: k in Purchased(products, cart) ==> Purchased(products, cart)[k].id == k
  {
  }

  /** The stock of every product in the catalog. */
  ghost function Stocks(products: Catalog): map<ProductId, int>
  {
    map k | k in products :: products[k].stockQuantity
  }

  // ---------------------------------------------------------------------
  // The shop's state and the handlers

  /** What a buyer posts on the review form. */
  datatype ReviewInput = ReviewInput(rating: Option<int>, comment: string)

  class Shop {
    /** The product table, keyed by product id. */
    var products: Catalog
    /** The signed-in buyer's session cart. */
    var cart: Cart
    var orders: seq<Order>
    var reviews: seq<Review>

    ghost predicate Valid()
      reads this
    {
      && (forall k :: k in products ==> products[k].id == k)
      && (forall k :: k in cart ==> cart[k] >= 1)
      && (forall i :: 0 <= i < |orders| ==> orders[i].totalAmount == ItemsTotal(orders[i].items))
      && ReviewsUnique(reviews)
    }

    constructor (products: Catalog)
      requires forall k :: k in products ==> products[k].id == k
      ensures Valid()
      ensures this.products == products && cart == map[] && orders == [] && reviews == []
    {
      this.products := products;
      cart := map[];
      orders := [];
      reviews := [];
    }

    /** `add_to_cart`: one more unit of product `id`, if stock allows. */
    method AddToCart(user: User, id: ProductId) returns (r: Response)
      requires Valid()
      modifies this
      ensures Valid()
      ensures products == old(products) && orders == old(orders) && reviews == old(reviews)
      ensures !IsBuyer(user) ==> r == Denied
      ensures IsBuyer(user) && id !in products ==> r == NotFound
      ensures IsBuyer(user) && id in products && !IsInStock(products[id]) ==> r == SoldOut
      ensures r == Added <==>
        IsBuyer(user) && id in products && IsInStock(products[id]) &&
        Quantity(old(cart), id) + 1 <= products[id].stockQuantity
      ensures (IsBuyer(user) && id in products && IsInStock(products[id]) &&
        Quantity(old(cart), id) + 1 > products[id].stockQuantity) ==> r == StockLimit(products[id].stockQuantity)
      ensures r == Added ==>
        cart == old(cart)[id := Quantity(old(cart), id) + 1] &&
        cart[id] <= products[id].stockQuantity &&
        ItemCount(cart) == ItemCount(old(cart)) + 1
      ensures r != Added ==> cart == old(cart)
    {
      if !IsBuyer(user) {
        return Denied;
      }
      if id !in products {
        return NotFound;
      }
      var product := products[id];
      if !IsInStock(product) {
        return SoldOut;
      }
      var newQuantity := Quantity(cart, id) + 1;
      if newQuantity > product.stockQuantity {
        return StockLimit(product.stockQuantity);
      }
      ItemCountSet(cart, id, newQuantity);
      cart := cart[id := newQuantity];
      r := Added;
    }

    /** `cart`: show the lines whose product still exists and is in stock,
        with their total, and drop the other entries from the session. */
    method ViewCart(user: User) returns (r: Response)
      requires Valid()
      modifies this
      ensures Valid()
      ensures products == old(products) && orders == old(orders) && reviews == old(reviews)
      ensures !IsBuyer(user) ==> r == Denied && cart == old(cart)
      ensures IsBuyer(user) ==>
        r.CartPage? &&
        cart == Kept(old(cart), products) &&
        LinesMatch(r.lines, cart, products) &&
        r.total == CartTotal(cart, products) &&
        r.total == LinesTotal(r.lines)
    {
      if !IsBuyer(user) {
        return Denied;
      }
      var lines, total, kept := CollectCartLines(cart, products);
      cart := kept;
      r := CartPage(lines, total);
    }

    /** `update_cart`: a non-positive quantity removes the entry; one above
        the stock is refused; otherwise the entry is set to it. */
    method UpdateCart(user: User, id: ProductId, quantity: int) returns (r: Response)
      requires Valid()
      modifies this
      ensures Valid()
      ensures products == old(products) && orders == old(orders) && reviews == old(reviews)
      ensures !IsBuyer(user) ==> r == Denied && cart == old(cart)
      ensures IsBuyer(user) && id !in products ==> r == NotFound && cart == old(cart)
      ensures IsBuyer(user) && id in products && quantity <= 0 ==>
        r == Removed && cart == old(cart) - {id} &&
        ItemCount(cart) == ItemCount(old(cart)) - Quantity(old(cart), id)
      ensures IsBuyer(user) && id in products && 0 < quantity && quantity > products[id].stockQuantity ==>
        r == StockLimit(products[id].stockQuantity) && cart == old(cart)
      ensures IsBuyer(user) && id in products && 0 < quantity <= products[id].stockQuantity ==>
        r == Updated && cart == old(cart)[id := quantity] &&
        ItemCount(cart) == ItemCount(old(cart)) - Quantity(old(cart), id) + quantity
    {
      if !IsBuyer(user) {
        return Denied;
      }
      if id !in products {
        return NotFound;
      }
      var product := products[id];
      if quantity <= 0 {
        ItemCountDrop(cart, id);
        cart := cart - {id};
        r := Removed;
      } else if quantity > product.stockQuantity {
        r := StockLimit(product.stockQuantity);
      } else {
        ItemCountSet(cart, id, quantity);
        cart := cart[id := quantity];
        r := Updated;
      }
    }

    /** `remove_from_cart`: delete the entry of product `id`. The handler
        looks the product up before deleting, so an entry whose product row
        is gone makes it fail (`ProductGone`) with the cart untouched. */
    method RemoveFromCart(user: User, id: ProductId) returns (r: Response)
      requires Valid()
      modifies this
      ensures Valid()
      ensures products == old(products) && orders == old(orders) && reviews == old(reviews)
      ensures !IsBuyer(user) ==> r == Denied
      ensures IsBuyer(user) && id !in old(cart) ==> r == NotInCart
      ensures IsBuyer(user) && id in old(cart) && id !in products ==> r == ProductGone
      ensures r == Removed <==> IsBuyer(user) && id in old(cart) && id in products
      ensures r == Removed ==>
        cart == old(cart) - {id} && ItemCount(cart) == ItemCount(old(cart)) - old(cart)[id]
      ensures r != Removed ==> cart == old(cart)
    {
      if !IsBuyer(user) {
        return Denied;
      }
      if id !in cart {
        return NotInCart;
      }
      if id !in products {
        return ProductGone;
      }
      ItemCountDrop(cart, id);
      cart := cart - {id};
      r := Removed;
    }

    /** `checkout`: all or nothing. A cart with any failing line changes
        nothing; otherwise one order is created with Σ price × quantity as
        its total and one item per line at the current price, each product's
        stock drops by its quantity, and the cart is emptied. `emailSent`
        is whether sending the invoice succeeded. */
    method Checkout(user: User, emailSent: bool) returns (r: Response)
      requires Valid()
      modifies this
      ensures Valid()
      ensures reviews == old(reviews)
      ensures !IsBuyer(user) ==> r == Denied
      ensures IsBuyer(user) && old(cart) == map[] ==> r == EmptyCart
      ensures r.Rejected? <==>
        IsBuyer(user) && old(cart) != map[] && !Purchasable(old(cart), old(products))
      ensures r.Rejected? ==> ErrorsMatch(r.errors, old(cart), old(products)) && r.errors != []
      ensures r.Placed? <==>
        IsBuyer(user) && old(cart) != map[] && Purchasable(old(cart), old(products))
      ensures !r.Placed? ==> cart == old(cart) && products == old(products) && orders == old(orders)
      ensures r.Placed? ==>
        && Purchasable(old(cart), old(products))
        && orders == old(orders) + [r.order]
        && r.order.buyer == user.id
        && r.order.totalAmount == CartTotal(old(cart), old(products))
        && ItemsTotal(r.order.items) == r.order.totalAmount
        && ItemsMatch(r.order.items, old(cart), old(products))
        && products == Purchased(old(products), old(cart))
        && cart == map[]
        && r.order.invoiceSent == emailSent
    {
      if !IsBuyer(user) {
        return Denied;
      }
      if cart == map[] {
        return EmptyCart;
      }
      var lines, total, errors := ValidateCart(cart, products);
      if errors != [] {
        return Rejected(errors);
      }
      var items, after := PlaceItems(products, cart, lines);
      PurchasedKeepsIds(products, cart);
      var order := Order(user.id, total, items, emailSent);
      Commit(order, after);
      r := Placed(order);
    }

    /** The commit at the end of `checkout`: the new stock levels, the
        recorded order and the emptied session cart, all at once. */
    method Commit(order: Order, after: Catalog)
      requires Valid()
      requires forall k :: k in after ==> after[k].id == k
      requires order.totalAmount == ItemsTotal(order.items)
      modifies this
      ensures Valid()
      ensures products == after && cart == map[] && orders == old(orders) + [order]
      ensures reviews == old(reviews)
    {
      products := after;
      orders := orders + [order];
      cart := map[];
    }

    /** `add_review`: get or create the buyer's review of `id`, marked
        verified when the buyer has ordered that product; a valid posted
        form sets rating and comment and re-derives the verified flag. */
    method AddReview(user: User, id: ProductId, submission: Option<ReviewInput>) returns (r: Response)
      requires Valid()
      modifies this
      ensures Valid()
      ensures products == old(products) && cart == old(cart) && orders == old(orders)
      ensures !IsBuyer(user) ==> r == Denied && reviews == old(reviews)
      ensures IsBuyer(user) && id !in products ==> r == NotFound && reviews == old(reviews)
      ensures IsBuyer(user) && id in products ==> ReviewIndex(reviews, id, user.id).Some?
      ensures |reviews| <= |old(reviews)| + 1 && |old(reviews)| <= |reviews|
      ensures forall i :: (0 <= i < |old(reviews)| &&
        (old(reviews)[i].product, old(reviews)[i].user) != (id, user.id)) ==> reviews[i] == old(reviews)[i]
      ensures r == ReviewSaved <==>
        IsBuyer(user) && id in products && submission.Some? &&
        ReviewForm(submission.value.rating, submission.value.comment).Ok?
      ensures r == ReviewSaved ==>
        var i := ReviewIndex(reviews, id, user.id).value;
        reviews[i].rating == submission.value.rating &&
        1 <= reviews[i].rating.value <= 5 &&
        reviews[i].comment == submission.value.comment &&
        reviews[i].isVerified == HasPurchased(orders, user.id, id)
      ensures IsBuyer(user) && id in products && submission.None? ==> r == ReviewPage
      ensures (IsBuyer(user) && id in products && submission.Some? &&
        ReviewForm(submission.value.rating, submission.value.comment).Err?) ==>
        r == ReviewRejected(ReviewForm(submission.value.rating, submission.value.comment).error)
      ensures IsBuyer(user) && id in products ==>
        var got := GetOrCreateReview(old(reviews), id, user.id, HasPurchased(orders, user.id, id));
        && (r != ReviewSaved ==> reviews == got.0)
        && (r == ReviewSaved ==>
              reviews == got.0[got.1 := got.0[got.1].(rating := submission.value.rating,
                comment := submission.value.comment, isVerified := HasPurchased(orders, user.id, id))])
    {
      if !IsBuyer(user) {
        return Denied;
      }
      if id !in products {
        return NotFound;
      }
      var purchased := HasPurchased(orders, user.id, id);
      var (created, i) := GetOrCreateReview(reviews, id, user.id, purchased);
      reviews := created;
      if submission.None? {
        return ReviewPage;
      }
      match ReviewForm(submission.value.rating, submission.value.comment)
      case Err(e) =>
        r := ReviewRejected(e);
      case Ok((rating, comment)) =>
        reviews := reviews[i := reviews[i].(rating := Some(rating), comment := comment, isVerified := purchased)];
        ReviewIndexAfterUpdate(created, i, reviews);
        r := ReviewSaved;
    }
  }

  /** The order items made from `lines`, one per line, at the product's
      current price. */
  function ItemsOf(lines: seq<CartLine>, products: Catalog): (items: seq<OrderItem>)
    requires forall j :: 0 <= j < |lines| ==> lines[j].product in products
    ensures |items| == |lines|
    ensures forall j :: 0 <= j < |lines| ==>
      items[j] == OrderItem(lines[j].product, lines[j].quantity, products[lines[j].product].price)
  {
    if lines == [] then []
    else
      var last := lines[|lines| - 1];
      ItemsOf(lines[..|lines| - 1], products) + [OrderItem(last.product, last.quantity, products[last.product].price)]
  }

  /** The items of a matching line list match the cart, and their totals
      add up to the lines' total. */
  lemma {:induction false} ItemsOfLines(lines: seq<CartLine>, cart: Cart, products: Catalog)
    requires forall j :: 0 <= j < |lines| ==>
      lines[j].product in products && lines[j].total == products[lines[j].product].price * lines[j].quantity
    ensures ItemIds(ItemsOf(lines, products)) == LineIds(lines)
    ensures ItemsTotal(ItemsOf(lines, products)) == LinesTotal(lines)
    ensures LinesMatch(lines, cart, products) ==> ItemsMatch(ItemsOf(lines, products), cart, products)
  {
    if lines != [] {
      var init := lines[..|lines| - 1];
      ItemsOfLines(init, cart, products);
      assert ItemsOf(lines, products)[..|lines| - 1] == ItemsOf(init, products);
    }
  }

  /** The second loop of checkout: one order item per validated line at
      the product's current price, and that product's stock lowered by the
      line's quantity. `after` is the product table once every row the loop
      saves has been written. */
  method PlaceItems(products: Catalog, cart: Cart, lines: seq<CartLine>) returns (items: seq<OrderItem>, after: Catalog)
    requires Purchasable(cart, products) && LinesMatch(lines, cart, products)
    ensures after == Purchased(products, cart)
    ensures ItemsMatch(items, cart, products)
    ensures ItemsTotal(items) == LinesTotal(lines)
  {
    items, after := [], products;
    var i := 0;
    while i < |lines|
      invariant 0 <= i <= |lines|
      invariant items == ItemsOf(lines[..i], products)
      invariant Purchasable(Restrict(cart, LineIds(lines[..i])), products)
      invariant after == Purchased(products, Restrict(cart, LineIds(lines[..i])))
    {
      var line := lines[i];
      var k := line.product;
      PlaceStep(products, cart, lines, i, after);
      items := items + [OrderItem(k, line.quantity, after[k].price)];
      after := after[k := after[k].(stockQuantity := after[k].stockQuantity - line.quantity)];
      i := i + 1;
    }
    PlaceDone(products, cart, lines);
  }

  /** After the last line: everything in the cart is bought. */
  lemma PlaceDone(products: Catalog, cart: Cart, lines: seq<CartLine>)
    requires Purchasable(cart, products) && LinesMatch(lines, cart, products)
    ensures lines[..|lines|] == lines
    ensures Restrict(cart, LineIds(lines)) == cart
    ensures ItemsMatch(ItemsOf(lines, products), cart, products)
    ensures ItemsTotal(ItemsOf(lines, products)) == LinesTotal(lines)
  {
    assert lines[..|lines|] == lines;
    ItemsOfLines(lines, cart, products);
  }

  /** One step of checkout's second loop: the line at `i` is bought next,
      its product's stock is still the original one, and lowering it
      extends the purchase by that line. */
  lemma PlaceStep(before: Catalog, cart: Cart, lines: seq<CartLine>, i: nat, products: Catalog)
    requires Purchasable(cart, before) && LinesMatch(lines, cart, before) && i < |lines|
    requires Purchasable(Restrict(cart, LineIds(lines[..i])), before)
    requires products == Purchased(before, Restrict(cart, LineIds(lines[..i])))
    ensures lines[i].product in products && products[lines[i].product] == before[lines[i].product]
    ensures lines[i].quantity <= products[lines[i].product].stockQuantity
    ensures ItemsOf(lines[..i + 1], before) ==
      ItemsOf(lines[..i], before) + [OrderItem(lines[i].product, lines[i].quantity, before[lines[i].product].price)]
    ensures Purchasable(Restrict(cart, LineIds(lines[..i + 1])), before)
    ensures products[lines[i].product := products[lines[i].product].(stockQuantity :=
        products[lines[i].product].stockQuantity - lines[i].quantity)]
      == Purchased(before, Restrict(cart, LineIds(lines[..i + 1])))
  {
    var k := lines[i].product;
    LineIdsHas(lines[..i], k);
    assert k !in LineIds(lines[..i]);
    assert lines[..i + 1][..i] == lines[..i];
    var done := Restrict(cart, LineIds(lines[..i]));
    assert Restrict(cart, LineIds(lines[..i + 1])) == done[k := lines[i].quantity];
    PurchasedStep(before, done, k, lines[i].quantity);
  }

  /** Rewriting the content of the review at `i` keeps it where it is. */
  lemma ReviewIndexAfterUpdate(before: seq<Review>, i: nat, after: seq<Review>)
    requires ReviewsUnique(before) && i < |before| && |after| == |before|
    requires after[i].product == before[i].product && after[i].user == before[i].user
    requires forall j :: 0 <= j < |before| && j != i ==> after[j] == before[j]
    ensures ReviewsUnique(after)
    ensures ReviewIndex(after, before[i].product, before[i].user) == Some(i)
  {
  }

  /** `password_reset_confirm`: an unknown token is an invalid link, a
      used or expired one an expired link; a valid posted form sets the
      password (reported in the response) and marks the token used. */
  method PasswordResetConfirm(table: ResetTokens, token: string, now: Instant, submission: Option<(string, string)>)
    returns (r: Response)
    requires table.Valid()
    modifies table
    ensures table.Valid()
    ensures TokenIndex(old(table.tokens), token).None? ==> r == InvalidLink
    ensures (TokenIndex(old(table.tokens), token).Some? &&
      !IsValid(old(table.tokens)[TokenIndex(old(table.tokens), token).value], now)) ==> r == LinkExpired
    ensures r.PasswordReset? <==>
      TokenIndex(old(table.tokens), token).Some? &&
      IsValid(old(table.tokens)[TokenIndex(old(table.tokens), token).value], now) &&
      submission.Some? && ResetConfirmFormValid(submission.value.0, submission.value.1)
    ensures r.PasswordReset? ==>
      var i := TokenIndex(old(table.tokens), token).value;
      r.user == old(table.tokens)[i].user &&
      r.password == submission.value.0 &&
      table.tokens == old(table.tokens)[i := old(table.tokens)[i].(used := true)] &&
      forall later :: !IsValid(table.tokens[i], later)
    ensures !r.PasswordReset? ==> table.tokens == old(table.tokens)
    ensures (TokenIndex(old(table.tokens), token).Some? &&
      IsValid(old(table.tokens)[TokenIndex(old(table.tokens), token).value], now)) ==>
      (submission.None? ==> r == ResetForm) &&
      (submission.Some? && !ResetConfirmFormValid(submission.value.0, submission.value.1) ==> r == ResetRejected)
  {
    var found := TokenIndex(table.tokens, token);
    if found.None? {
      return InvalidLink;
    }
    var i := found.value;
    var t := table.tokens[i];
    if !IsValid(t, now) {
      return LinkExpired;
    }
    if submission.None? {
      return ResetForm;
    }
    var (p1, p2) := submission.value;
    if !ResetConfirmFormValid(p1, p2) {
      return ResetRejected;
    }
    table.tokens := table.tokens[i := t.(used := true)];
    r := PasswordReset(t.user, p1);
  }

  /** The home page's cart count agrees with the template context's. */
  ghost function HomeCartCount(user: Option<User>, session: Option<Cart>): (n: int)
    ensures n == ContextProcessors.CartCount(user, session)
  {
    if user.Some? && IsBuyer(user.value) then
      if session.Some? then ItemCount(session.value) else 0
    else 0
  }
}
