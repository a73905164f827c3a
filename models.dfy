/** The storefront's records (users with a vendor/buyer role, products,
    orders and their items, reviews, password-reset tokens) and the small
    predicates defined on them. Money is held in whole cents (the source's
    two-decimal `Decimal`), instants in whole seconds of the server clock. */
module Models {
  import opened Wrappers

  type UserId = int
  type StoreId = int
  type ProductId = int
  type Cents = int
  type Instant = int

  const VENDOR: string := "vendor"
  const BUYER: string := "buyer"

  /** `role` is a free text column whose intended values are VENDOR and BUYER. */
  datatype User = User(id: UserId, username: string, email: string, role: string)

  predicate IsVendor(u: User) { u.role == VENDOR }

  predicate IsBuyer(u: User) { u.role == BUYER }

  /** No account is both a vendor and a buyer. */
  lemma RolesExclusive(u: User)
    ensures !(IsVendor(u) && IsBuyer(u))
  {
    assert VENDOR[0] != BUYER[0];
  }

  /** `image` is the stored file name; the empty name means no image. */
  datatype Product = Product(
    id: ProductId,
    name: string,
    price: Cents,
    stockQuantity: nat,
    image: string,
    store: StoreId)

  predicate IsInStock(p: Product) { p.stockQuantity > 0 }

  /** Because the stock column holds only non-negative numbers, "not in
      stock" means exactly "none left". */
  lemma OutOfStockMeansNoneLeft(p: Product)
    ensures !IsInStock(p) <==> p.stockQuantity == 0
  {
  }

  const PLACEHOLDER_IMAGE: string := "/static/images/placeholder-product.png"

  /** The URL shown for a product's picture; `mediaUrl` is the storage's
      public prefix for uploaded files. */
  function ImageUrl(p: Product, mediaUrl: string): (url: string)
    ensures p.image == "" ==> url == PLACEHOLDER_IMAGE
    ensures p.image != "" ==> |url| >= |p.image| && url[|url| - |p.image|..] == p.image
    ensures |url| > 0
  {
    if p.image != "" then mediaUrl + p.image else PLACEHOLDER_IMAGE
  }

  /** A line of a placed order: the price is a snapshot taken at checkout. */
  datatype OrderItem = OrderItem(product: ProductId, quantity: nat, price: Cents)

  function GetTotal(item: OrderItem): Cents
  {
    item.price * item.quantity
  }

  /** The sum of `GetTotal` over an order's items. */
  function ItemsTotal(items: seq<OrderItem>): (total: Cents)
    ensures (forall i :: 0 <= i < |items| ==> items[i].price >= 0) ==> total >= 0
  {
    if items == [] then 0
    else ItemsTotal(items[..|items| - 1]) + GetTotal(items[|items| - 1])
  }

  datatype Order = Order(
    buyer: UserId,
    totalAmount: Cents,
    items: seq<OrderItem>,
    invoiceSent: bool)

  /** `rating` is None until a rating form has been accepted. */
  datatype Review = Review(
    product: ProductId,
    user: UserId,
    rating: Option<int>,
    comment: string,
    isVerified: bool)

  /** The (product, user) uniqueness constraint on reviews. */
  ghost predicate ReviewsUnique(reviews: seq<Review>)
  {
    forall i, j :: 0 <= i < j < |reviews| ==>
      (reviews[i].product, reviews[i].user) != (reviews[j].product, reviews[j].user)
  }

  /** The ORM's `get_or_create(product=…, user=…, defaults={'is_verified': …})`
      on the review table: the index of that pair's review, created with the
      defaults when there was none. */
  function GetOrCreateReview(reviews: seq<Review>, product: ProductId, user: UserId, verified: bool)
    : (r: (seq<Review>, nat))
    requires ReviewsUnique(reviews)
    ensures ReviewsUnique(r.0)
    ensures r.1 < |r.0| && r.0[r.1].product == product && r.0[r.1].user == user
    ensures r.1 < |reviews| ==> r.0 == reviews
    ensures r.1 == |reviews| ==> r.0 == reviews + [Review(product, user, None, "", verified)]
    ensures r.1 == |reviews| <==>
      forall i :: 0 <= i < |reviews| ==> (reviews[i].product, reviews[i].user) != (product, user)
  {
    var k := ReviewIndex(reviews, product, user);
    if k.Some? then (reviews, k.value)
    else (reviews + [Review(product, user, None, "", verified)], |reviews|)
  }

  /** The review table's `rating` column is NOT NULL: a row without a
      rating cannot be inserted. */
  predicate Storable(r: Review)
  {
    r.rating.Some?
  }

  /** `get_or_create` as the source calls it, against the real table (the
      table it leaves behind, None when the call raises): the row it would
      create carries no rating, so the insert is refused whenever the pair
      has no review yet. */
  function GetOrCreateReviewAsWritten(reviews: seq<Review>, product: ProductId, user: UserId, verified: bool)
    : (r: Option<seq<Review>>)
    requires ReviewsUnique(reviews)
    ensures r.None? <==> ReviewIndex(reviews, product, user).None?
    ensures r.Some? ==> r.value == reviews
  {
    if ReviewIndex(reviews, product, user).Some? then Some(reviews)
    else InsertReview(reviews, Review(product, user, None, "", verified))
  }

  /** A buyer's first visit to the review page cannot create the review. */
  lemma FirstReviewRefused(product: ProductId, user: UserId, verified: bool)
    ensures GetOrCreateReviewAsWritten([], product, user, verified).None?
    ensures GetOrCreateReview([], product, user, verified).1 == 0
  {
  }

  /** An INSERT into the review table, refused for a row the column
      constraints reject. */
  function InsertReview(reviews: seq<Review>, row: Review): (r: Option<seq<Review>>)
    ensures r.Some? <==> Storable(row)
    ensures r.Some? ==> r.value == reviews + [row]
  {
    if Storable(row) then Some(reviews + [row]) else None
  }

  /** The position of the review of `product` by `user`, if there is one. */
  function ReviewIndex(reviews: seq<Review>, product: ProductId, user: UserId): (r: Option<nat>)
    ensures r.Some? ==> r.value < |reviews| && reviews[r.value].product == product && reviews[r.value].user == user
    ensures r.None? ==> forall i :: 0 <= i < |reviews| ==> (reviews[i].product, reviews[i].user) != (product, user)
  {
    if reviews == [] then None
    else if reviews[|reviews| - 1].product == product && reviews[|reviews| - 1].user == user then
      Some(|reviews| - 1)
    else ReviewIndex(reviews[..|reviews| - 1], product, user)
  }

  /** A reset token lasts 24 hours. */
  const TOKEN_LIFETIME: int := 24 * 60 * 60

  datatype PasswordResetToken = PasswordResetToken(
    user: UserId,
    token: string,
    createdAt: Instant,
    expiresAt: Instant,
    used: bool)

  predicate IsValid(t: PasswordResetToken, now: Instant)
  {
    !t.used && now < t.expiresAt
  }

  /** Validity only ever lapses: a token valid later was valid earlier, and
      a used token is valid at no instant. */
  lemma ValidityOnlyLapses(t: PasswordResetToken, now: Instant, later: Instant)
    requires now <= later
    ensures IsValid(t, later) ==> IsValid(t, now)
    ensures t.used ==> !IsValid(t, now) && !IsValid(t, later)
  {
  }

  /** `objects.get(token=…)`: the position of the token with that string. */
  function TokenIndex(tokens: seq<PasswordResetToken>, token: string): (r: Option<nat>)
    ensures r.Some? ==> r.value < |tokens| && tokens[r.value].token == token
    ensures r.None? ==> forall i :: 0 <= i < |tokens| ==> tokens[i].token != token
  {
    if tokens == [] then None
    else if tokens[|tokens| - 1].token == token then Some(|tokens| - 1)
    else TokenIndex(tokens[..|tokens| - 1], token)
  }

  /** The bulk update `filter(user=user, used=False).update(used=True)`. */
  function Invalidated(tokens: seq<PasswordResetToken>, user: UserId): (r: seq<PasswordResetToken>)
    ensures |r| == |tokens|
    ensures forall i :: 0 <= i < |r| ==>
      r[i].user == tokens[i].user && r[i].token == tokens[i].token &&
      r[i].createdAt == tokens[i].createdAt && r[i].expiresAt == tokens[i].expiresAt
    ensures forall i :: 0 <= i < |r| && tokens[i].user != user ==> r[i] == tokens[i]
    ensures forall i :: 0 <= i < |r| && tokens[i].user == user ==> r[i].used
  {
    seq(|tokens|, i requires 0 <= i < |tokens| =>
      if tokens[i].user == user && !tokens[i].used then tokens[i].(used := true) else tokens[i])
  }

  ghost predicate TokensDistinct(tokens: seq<PasswordResetToken>)
  {
    forall i, j :: 0 <= i < j < |tokens| ==> tokens[i].token != tokens[j].token
  }

  /** After a token is generated, the new one is the only token of that user
      valid at the moment of generation. */
  lemma OnlyNewTokenValid(tokens: seq<PasswordResetToken>, user: UserId, now: Instant, secret: string)
    ensures var after := Invalidated(tokens, user) + [PasswordResetToken(user, secret, now, now + TOKEN_LIFETIME, false)];
      forall i :: 0 <= i < |after| && after[i].user == user ==>
        (IsValid(after[i], now) <==> i == |after| - 1)
  {
  }

  /** The table of password-reset tokens. */
  class ResetTokens {
    var tokens: seq<PasswordResetToken>

    ghost predicate Valid()
      reads this
    {
      TokensDistinct(tokens)
    }

    constructor ()
      ensures Valid() && tokens == []
    {
      tokens := [];
    }

    /** Invalidates every unused token of `user` and issues a new one for 24
        hours. `secret` stands for the random token string; the table's
        unique constraint on it is the precondition. */
    method GenerateToken(user: UserId, now: Instant, secret: string) returns (t: PasswordResetToken)
      requires Valid()
      requires forall i :: 0 <= i < |tokens| ==> tokens[i].token != secret
      modifies this
      ensures Valid()
      ensures t == PasswordResetToken(user, secret, now, now + TOKEN_LIFETIME, false)
      ensures tokens == Invalidated(old(tokens), user) + [t]
      ensures IsValid(t, now)
    {
      tokens := Invalidated(tokens, user);
      t := PasswordResetToken(user, secret, now, now + TOKEN_LIFETIME, false);
      tokens := tokens + [t];
    }
  }
}
