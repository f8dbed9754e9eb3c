/**
 * The wishlist page: its image URLs and the add-to-cart request it sends.
 */
module Wishlist {
  import Images

  /** On the default configuration a bare name is served from the local uploads folder. */
  lemma DefaultUploadUrl()
    ensures Images.PageImageUrl("", "shirt.png") == "http://localhost:8000/uploads/shirt.png"
  {
    Images.ShirtIsBare();
  }

  /** The cart call the page makes: `addToCart(product._id, 1)`. */
  datatype AddToCart = AddToCart(productId: string, quantity: int)

  /** Adding from the wishlist always asks for one unit of the product shown. */
  function AddFromWishlist(productId: string): (r: AddToCart)
    ensures r.productId == productId && r.quantity == 1
  {
    AddToCart(productId, 1)
  }
}
