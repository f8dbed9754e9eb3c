/**
 * The cart page: its totals, the quantity guard, the checkout routing, and
 * moving a line to the wishlist. The cart and wishlist stores themselves
 * live in contexts that are not part of this model; the page's calls into
 * them are returned as values.
 */
module Cart {
  import opened Wrappers
  import opened Catalog
  import opened Pricing

  datatype CartTotals = CartTotals(subtotal: int, discount: int, shipping: int, total: int)

  /** The figures the summary box shows. */
  function Totals(cart: seq<CartItem>, isPremium: bool, premiumExpiry: Option<int>, now: int): (t: CartTotals)
    ensures t.subtotal == Subtotal(cart)
    ensures t.discount == Discount(isPremium, premiumExpiry, now)
    ensures t.shipping == Shipping(t.subtotal)
    ensures t.total == t.subtotal - t.discount + t.shipping
  {
    var s := Subtotal(cart);
    var d := Discount(isPremium, premiumExpiry, now);
    CartTotals(s, d, Shipping(s), CartTotal(s, d))
  }

  /** An empty cart costs nothing to ship, and only the premium discount can make its total non-zero. */
  lemma EmptyCartTotals(isPremium: bool, premiumExpiry: Option<int>, now: int)
    ensures Totals([], isPremium, premiumExpiry, now).shipping == 0
    ensures Totals([], isPremium, premiumExpiry, now).total == -Discount(isPremium, premiumExpiry, now)
  {
  }

  /** The key `updateQuantity` and `removeFromCart` take. */
  datatype LineKey = LineKey(productId: string, size: string, color: string)

  function KeyOf(item: CartItem): LineKey
    requires item.product.Some?
  {
    LineKey(item.product.value.id, item.size, item.color)
  }

  /** `handleQuantityChange`: below 1 nothing is sent; otherwise the new quantity for this line. */
  function QuantityChange(item: CartItem, newQuantity: int): (r: Option<(LineKey, int)>)
    requires item.product.Some?
    ensures r.None? <==> newQuantity < 1
    ensures r.Some? ==> r.value == (KeyOf(item), newQuantity) && r.value.1 >= 1
  {
    if newQuantity < 1 then None else Some((KeyOf(item), newQuantity))
  }

  /** The minus button is disabled at quantity 1 or less. */
  function DecrementDisabled(quantity: int): (r: bool)
    ensures r <==> quantity <= 1
  {
    quantity <= 1
  }

  /** From an enabled minus button the request is never dropped. */
  lemma EnabledDecrementSends(item: CartItem)
    requires item.product.Some? && !DecrementDisabled(item.quantity)
    ensures QuantityChange(item, item.quantity - 1).Some?
  {
  }

  /** A navigation, with the page to come back to after logging in. */
  datatype Route = Route(path: string, from: Option<string>)

  /** `handleCheckout`: a guest goes to the login page, remembering the cart. */
  function CheckoutRoute(loggedIn: bool): (r: Route)
    ensures !loggedIn <==> r == Route("/login", Some("/cart"))
    ensures loggedIn <==> r == Route("/checkout", None)
  {
    if !loggedIn then Route("/login", Some("/cart")) else Route("/checkout", None)
  }

  /** `handleWishlistConfirm`: the product copy added to the wishlist, then the line removed from the cart. */
  function MoveToWishlist(item: CartItem): (r: (Product, LineKey))
    requires item.product.Some?
    ensures r.0 == ListingCopy(item.product.value, item.product.value.image, false)
    ensures r.1 == LineKey(item.product.value.id, item.size, item.color)
    ensures r.0.id == r.1.productId
  {
    (ListingCopy(item.product.value, item.product.value.image, false), KeyOf(item))
  }
}
