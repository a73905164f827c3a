/** The template context value `cart_count`, shown on every page. */
module ContextProcessors {
  import opened Wrappers
  import opened Models
  import opened Session

  /** `user` is None for an anonymous visitor; `session` is None when the
      session holds no cart. Only a signed-in buyer sees a non-zero count. */
  ghost function CartCount(user: Option<User>, session: Option<Cart>): (n: int)
    ensures n >= 0
    ensures user.None? ==> n == 0
    ensures user.Some? && user.value.role != BUYER ==> n == 0
    ensures session.None? || session == Some(map[]) ==> n == 0
    ensures user.Some? && user.value.role == BUYER && session.Some? ==> n == ItemCount(session.value)
  {
    if user.Some? && user.value.role == BUYER then
      match session
      case Some(cart) => ItemCount(cart)
      case None => 0
    else 0
  }
}
