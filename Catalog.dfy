/**
 * The product and cart-line records as the storefront pages read them. A
 * missing string is "", a missing count or date is 0, a price that is not a
 * number is `None`, and a missing `sizes` or `colors` array is `None`.
 */
module Catalog {
  import opened Wrappers

  datatype Product = Product(
    id: string,
    name: string,
    price: Option<int>,
    image: string,
    images: seq<string>,
    description: string,
    category: string,
    subCategory: string,
    collectionName: string,
    gender: string,
    fit: string,
    sizes: Option<seq<string>>,
    colors: Option<seq<string>>,
    soldCount: int,
    createdAt: int,
    stock: int)

  /** A cart line; `product` is `None` when the line lost its product. */
  datatype CartItem = CartItem(product: Option<Product>, quantity: int, size: string, color: string)

  /** `parseFloat(p.price) || 0`. */
  function PriceOf(p: Product): int { p.price.GetOr(0) }

  /** `p.soldCount || 0`. */
  function SoldCount(p: Product): int { p.soldCount }

  /** `new Date(p.createdAt || 0)`. */
  function CreatedAt(p: Product): int { p.createdAt }

  /**
   * The product copy the pages hand to the wishlist or the cart: id, name,
   * price, image, description, category, sub-category, collection, colours
   * and gender; every other field is left at its empty value. The cart and
   * detail pages write the collection under the key `collection`, so a reader
   * of `collectionName` finds it empty (`keyedCollectionName` false).
   */
  function ListingCopy(p: Product, image: string, keyedCollectionName: bool): (c: Product)
    ensures c.id == p.id && c.name == p.name && c.price == p.price && c.image == image
    ensures c.description == p.description && c.category == p.category && c.subCategory == p.subCategory
    ensures c.collectionName == (if keyedCollectionName then p.collectionName else "")
    ensures c.colors == p.colors && c.gender == p.gender
    ensures c.images == [] && c.fit == "" && c.sizes.None? && c.soldCount == 0 && c.createdAt == 0 && c.stock == 0
  {
    Product(p.id, p.name, p.price, image, [], p.description, p.category, p.subCategory,
            if keyedCollectionName then p.collectionName else "",
            p.gender, "", None, p.colors, 0, 0, 0)
  }

  /** Copying a copy changes nothing. */
  lemma ListingCopyIdempotent(p: Product, keyed: bool)
    ensures ListingCopy(ListingCopy(p, p.image, keyed), p.image, keyed) == ListingCopy(p, p.image, keyed)
  {
  }
}
