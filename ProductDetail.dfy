/**
 * The product detail page: which images the carousel shows, how its arrows
 * move the index, the quantity stepper, the pincode check, the review form,
 * and the file name the cart stores for an image.
 */
module ProductDetail {
  import opened Wrappers
  import opened Strings
  import Images
  import opened Catalog

  /** `product.images` when non-empty, else the single `product.image` when present, else nothing. */
  function ImageList(images: seq<string>, image: string): (r: seq<string>)
    ensures |images| > 0 ==> r == images
    ensures |images| == 0 && image != "" ==> r == [image]
    ensures |r| == 0 <==> |images| == 0 && image == ""
  {
    if |images| > 0 then images else if image != "" then [image] else []
  }

  /** The main image: the entry at the index, or the placeholder path "" when the index is outside the list. */
  function MainImagePath(images: seq<string>, index: int): (r: string)
    ensures 0 <= index < |images| ==> r == images[index]
    ensures !(0 <= index < |images|) ==> r == ""
  {
    if 0 <= index < |images| then images[index] else ""
  }

  /** The left arrow: one step back, wrapping from the first image to the last. */
  function PrevIndex(i: int, n: int): (r: int)
    requires n > 0
    ensures 0 <= r < n
    ensures 0 < i < n ==> r == i - 1
    ensures i == 0 ==> r == n - 1
  {
    (i - 1 + n) % n
  }

  /** The right arrow: one step forward, wrapping from the last image to the first. */
  function NextIndex(i: int, n: int): (r: int)
    requires n > 0
    ensures 0 <= r < n
    ensures 0 <= i < n - 1 ==> r == i + 1
    ensures i == n - 1 ==> r == 0
  {
    (i + 1) % n
  }

  /** The two arrows undo each other. */
  lemma ArrowsInverse(i: int, n: int)
    requires 0 <= i < n
    ensures PrevIndex(NextIndex(i, n), n) == i
    ensures NextIndex(PrevIndex(i, n), n) == i
  {
  }

  /** The minus button: never below 1. */
  function DecQuantity(q: int): (r: int)
    ensures r >= 1
    ensures q > 1 ==> r == q - 1
    ensures q <= 1 ==> r == 1
  {
    if q - 1 > 1 then q - 1 else 1
  }

  /** The plus button has no upper bound. */
  function IncQuantity(q: int): (r: int)
    ensures r == q + 1
  {
    q + 1
  }

  lemma QuantityStepsInverse(q: int)
    requires q >= 1
    ensures DecQuantity(IncQuantity(q)) == q
  {
  }

  datatype Delivery = Delivery(date: string, cod: string)

  /** The pincode check: the fixed delivery estimate exactly for a six-character input, otherwise cleared. */
  function PincodeCheck(pincode: string): (r: Option<Delivery>)
    ensures r.Some? <==> |pincode| == 6
    ensures r.Some? ==> r.value == Delivery("Thursday, 24 Jul", "Available")
  {
    if |pincode| == 6 then Some(Delivery("Thursday, 24 Jul", "Available")) else None
  }

  datatype Review = Review(id: int, userName: string, avatar: string, rating: int, date: int, comment: string)

  /** A review the form accepts: a rating was picked (0 is none) and the text is not blank. */
  predicate ReviewAccepted(rating: int, text: string) {
    rating != 0 && Trim(text) != ""
  }

  /** The file name the cart stores: the last "/" segment of an `http...` image, otherwise the image as given. */
  function CartImageName(image: string): (r: string)
    ensures image != "" && StartsWith(image, "http") ==> r == AfterLast(image, '/') && '/' !in r
    ensures !(image != "" && StartsWith(image, "http")) ==> r == image
  {
    if image != "" && StartsWith(image, "http") then AfterLast(image, '/') else image
  }

  /** Storing an uploaded image in the cart and resolving it again gives back the same URL. */
  lemma CartImageRoundTrip(prefix: string, name: string)
    requires Images.IsBareName(name)
    requires StartsWith(prefix, "http")
    ensures CartImageName(Images.ResolveImage(prefix, name)) == name
    ensures Images.ResolveImage(prefix, CartImageName(Images.ResolveImage(prefix, name))) == Images.ResolveImage(prefix, name)
  {
    var url := Images.ResolveImage(prefix, name);
    assert url[..|prefix|] == prefix;
    assert url[..4] == prefix[..4];
    Images.UploadNameRecoverable(prefix, name);
  }

  /** The product the add-to-cart button hands to the cart: the listing copy with the image reduced to its file name. */
  function CartProduct(p: Product): (c: Product)
    ensures c == ListingCopy(p, CartImageName(p.image), false)
    ensures StartsWith(p.image, "http") ==> '/' !in c.image
  {
    ListingCopy(p, CartImageName(p.image), false)
  }

  /** Add to cart is disabled exactly when the stock is 0. */
  function AddToCartDisabled(stock: int): (r: bool)
    ensures r <==> stock == 0
  {
    stock == 0
  }

  /** The page's own state. */
  class DetailState {
    var images: seq<string>
    var mainImageIndex: int
    var quantity: int
    var pincode: string
    var deliveryInfo: Option<Delivery>
    var reviews: seq<Review>
    var userRating: int
    var userReview: string
    var reviewSuccess: bool

    ghost predicate Valid()
      reads this
    {
      quantity >= 1 && 0 <= mainImageIndex && (|images| > 0 ==> mainImageIndex < |images|)
    }

    constructor (productImages: seq<string>, productImage: string)
      ensures Valid()
      ensures images == ImageList(productImages, productImage)
      ensures mainImageIndex == 0 && quantity == 1 && pincode == "" && deliveryInfo.None?
      ensures reviews == [] && userRating == 0 && userReview == "" && !reviewSuccess
    {
      images := ImageList(productImages, productImage);
      mainImageIndex := 0;
      quantity := 1;
      pincode := "";
      deliveryInfo := None;
      reviews := [];
      userRating := 0;
      userReview := "";
      reviewSuccess := false;
    }

    /** The URL of the main image, given what the page puts before "/uploads/". */
    function MainImage(prefix: string): (r: string)
      reads this
      ensures Valid() && |images| > 0 ==> r == Images.ResolveImage(prefix, images[mainImageIndex])
      ensures |images| == 0 ==> r == Images.FallbackImage
    {
      Images.ResolveImage(prefix, MainImagePath(images, mainImageIndex))
    }

    /** The arrows are only shown for more than one image. */
    method Prev()
      requires Valid() && |images| > 1
      modifies this
      ensures images == old(images) && quantity == old(quantity) && reviews == old(reviews)
      ensures Valid()
      ensures mainImageIndex == PrevIndex(old(mainImageIndex), |images|)
      ensures pincode == old(pincode) && deliveryInfo == old(deliveryInfo)
      ensures userRating == old(userRating) && userReview == old(userReview) && reviewSuccess == old(reviewSuccess)
    {
      mainImageIndex := PrevIndex(mainImageIndex, |images|);
    }

    method Next()
      requires Valid() && |images| > 1
      modifies this
      ensures images == old(images) && quantity == old(quantity) && reviews == old(reviews)
      ensures Valid()
      ensures mainImageIndex == NextIndex(old(mainImageIndex), |images|)
      ensures pincode == old(pincode) && deliveryInfo == old(deliveryInfo)
      ensures userRating == old(userRating) && userReview == old(userReview) && reviewSuccess == old(reviewSuccess)
    {
      mainImageIndex := NextIndex(mainImageIndex, |images|);
    }

    method Decrement()
      requires Valid()
      modifies this
      ensures Valid()
      ensures quantity == DecQuantity(old(quantity))
      ensures images == old(images) && mainImageIndex == old(mainImageIndex) && reviews == old(reviews)
      ensures pincode == old(pincode) && deliveryInfo == old(deliveryInfo)
      ensures userRating == old(userRating) && userReview == old(userReview) && reviewSuccess == old(reviewSuccess)
    {
      quantity := DecQuantity(quantity);
    }

    method Increment()
      requires Valid()
      modifies this
      ensures Valid()
      ensures quantity == IncQuantity(old(quantity))
      ensures images == old(images) && mainImageIndex == old(mainImageIndex) && reviews == old(reviews)
      ensures pincode == old(pincode) && deliveryInfo == old(deliveryInfo)
      ensures userRating == old(userRating) && userReview == old(userReview) && reviewSuccess == old(reviewSuccess)
    {
      quantity := IncQuantity(quantity);
    }

    method CheckPincode()
      modifies this
      ensures deliveryInfo == PincodeCheck(old(pincode))
      ensures images == old(images) && mainImageIndex == old(mainImageIndex) && quantity == old(quantity)
      ensures pincode == old(pincode) && reviews == old(reviews)
      ensures userRating == old(userRating) && userReview == old(userReview) && reviewSuccess == old(reviewSuccess)
    {
      deliveryInfo := PincodeCheck(pincode);
    }

    /**
     * `handleReviewSubmit`; `id` and `now` stand for `Date.now()`. A rejected
     * form changes nothing; an accepted one puts the trimmed review first and
     * clears the form.
     */
    method SubmitReview(id: int, now: int)
      modifies this
      ensures !ReviewAccepted(old(userRating), old(userReview)) ==>
        reviews == old(reviews) && userRating == old(userRating) && userReview == old(userReview)
        && reviewSuccess == old(reviewSuccess)
      ensures ReviewAccepted(old(userRating), old(userReview)) ==>
        reviews == [Review(id, "You", "https://i.pravatar.cc/150?img=4", old(userRating), now, Trim(old(userReview)))] + old(reviews)
        && userRating == 0 && userReview == "" && reviewSuccess
      ensures images == old(images) && mainImageIndex == old(mainImageIndex) && quantity == old(quantity)
      ensures pincode == old(pincode) && deliveryInfo == old(deliveryInfo)
    {
      if userRating == 0 || Trim(userReview) == "" {
        return;
      }
      reviews := [Review(id, "You", "https://i.pravatar.cc/150?img=4", userRating, now, Trim(userReview))] + reviews;
      userRating := 0;
      userReview := "";
      reviewSuccess := true;
    }
  }
}
