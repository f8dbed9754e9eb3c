/**
 * The home page: its product sections cut from the full catalogue, the
 * best sellers, the category mix, the carousel step, the subscription check
 * on the loaded profile, and the "shop now" button positions.
 */
module Home {
  import opened Wrappers
  import opened Strings
  import opened Sequences
  import opened Sorting
  import opened Catalog
  import Models
  import OrderController

  predicate IsTShirt(p: Product) { p.category == "T-shirts" && p.subCategory != "Oversized" }
  predicate IsShirt(p: Product) { p.category == "Shirts" }
  predicate IsOversized(p: Product) {
    p.category == "T-shirts"
    && (p.subCategory == "Oversized" || p.fit == "Oversized" || Contains(ToLower(p.name), "oversized"))
  }
  predicate IsBottomWear(p: Product) { p.category == "Bottom Wear" && p.subCategory != "Cargo Pants" }
  predicate IsCargoPants(p: Product) {
    p.category == "Bottom Wear" && (p.subCategory == "Cargo Pants" || Contains(ToLower(p.name), "cargo"))
  }
  predicate IsJacket(p: Product) { p.category == "Jackets" }
  predicate IsHoodie(p: Product) { p.category == "Hoodies" }
  predicate IsCoOrdSet(p: Product) { p.category == "Co-ord Sets" || Contains(ToLower(p.name), "co-ord") }

  /** The first `n` products of the catalogue passing `keep`, in catalogue order. */
  function Section(all: seq<Product>, keep: Product -> bool, n: nat): (r: seq<Product>)
    ensures |r| <= n
    ensures IsSubsequence(r, all)
    ensures forall p :: p in r ==> p in all && keep(p)
    ensures |Filter(all, keep)| >= n ==> |r| == n
    ensures |Filter(all, keep)| < n ==> r == Filter(all, keep)
  {
    var matching := Filter(all, keep);
    TakeSubsequence(matching, n);
    SubsequenceTrans(Take(matching, n), matching, all);
    Take(matching, n)
  }

  /** The five products with the highest sold count, highest first. */
  function BestSellers(all: seq<Product>): (r: seq<Product>)
    ensures |r| == if |all| <= 5 then |all| else 5
    ensures forall i, j :: 0 <= i < j < |r| ==> SoldCount(r[j]) <= SoldCount(r[i])
    ensures multiset(r) <= multiset(all)
  {
    TopByKey(all, SoldCount, 5)
  }

  /** No product left out of the best sellers sold more than one that is in. */
  lemma BestSellersAreBest(all: seq<Product>)
    ensures forall x :: x in multiset(all) - multiset(BestSellers(all)) ==>
      forall i :: 0 <= i < |BestSellers(all)| ==> SoldCount(x) <= SoldCount(BestSellers(all)[i])
  {
    TopByKeyLeftovers(all, SoldCount, 5);
  }

  /** One "shop by category" card each from t-shirts, shirts, bottom wear, hoodies and jackets, in that order, when there is one. */
  function CategoryMix(all: seq<Product>): (r: seq<Product>)
    ensures |r| <= 5
    ensures forall p :: p in r ==> p in all
    ensures |r| == Count1(all, IsTShirt) + Count1(all, IsShirt) + Count1(all, IsBottomWear)
                   + Count1(all, IsHoodie) + Count1(all, IsJacket)
    ensures |r| > 0 && |Filter(all, IsTShirt)| > 0 ==> r[0] == Filter(all, IsTShirt)[0]
  {
    Section(all, IsTShirt, 1) + Section(all, IsShirt, 1) + Section(all, IsBottomWear, 1)
    + Section(all, IsHoodie, 1) + Section(all, IsJacket, 1)
  }

  /** 1 if some product passes `keep`, else 0. */
  function Count1(all: seq<Product>, keep: Product -> bool): nat {
    if |Filter(all, keep)| > 0 then 1 else 0
  }

  datatype Sections = Sections(
    bestSellers: seq<Product>,
    tShirts: seq<Product>,
    shirts: seq<Product>,
    oversizedTShirts: seq<Product>,
    bottomWear: seq<Product>,
    cargoPants: seq<Product>,
    jackets: seq<Product>,
    hoodies: seq<Product>,
    coOrdSets: seq<Product>,
    shopByCategory: seq<Product>)

  const NoSections := Sections([], [], [], [], [], [], [], [], [], [])

  /** The sections computed when the catalogue arrives; each category section shows at most three products. */
  function ComputeSections(all: seq<Product>): (s: Sections)
    ensures s.bestSellers == BestSellers(all) && s.shopByCategory == CategoryMix(all)
    ensures s.tShirts == Section(all, IsTShirt, 3) && s.shirts == Section(all, IsShirt, 3)
    ensures s.oversizedTShirts == Section(all, IsOversized, 3) && s.bottomWear == Section(all, IsBottomWear, 3)
    ensures s.cargoPants == Section(all, IsCargoPants, 3) && s.jackets == Section(all, IsJacket, 3)
    ensures s.hoodies == Section(all, IsHoodie, 3) && s.coOrdSets == Section(all, IsCoOrdSet, 3)
  {
    Sections(BestSellers(all), Section(all, IsTShirt, 3), Section(all, IsShirt, 3), Section(all, IsOversized, 3),
             Section(all, IsBottomWear, 3), Section(all, IsCargoPants, 3), Section(all, IsJacket, 3),
             Section(all, IsHoodie, 3), Section(all, IsCoOrdSet, 3), CategoryMix(all))
  }

  /** The effect runs only for a non-empty catalogue; on an empty one it would yield the initial empty sections anyway. */
  lemma EmptyCatalogueSkipped()
    ensures ComputeSections([]) == NoSections
  {
  }

  /** Bottom wear and cargo pants never share a product through the sub-category, and t-shirts exclude the oversized sub-category. */
  lemma SectionsSeparated(p: Product)
    ensures IsBottomWear(p) && IsCargoPants(p) ==> Contains(ToLower(p.name), "cargo")
    ensures IsTShirt(p) ==> p.subCategory != "Oversized"
    ensures p.subCategory == "Oversized" && p.category == "T-shirts" ==> IsOversized(p) && !IsTShirt(p)
  {
  }

  /** The carousel step `(prev + 1) % n`; the slide and collection lists are never empty. */
  function NextSlide(prev: int, n: int): (r: int)
    requires n > 0
    ensures 0 <= r < n
    ensures 0 <= prev < n - 1 ==> r == prev + 1
    ensures prev == n - 1 ==> r == 0
  {
    (prev + 1) % n
  }

  /** `profile.subscription ||` the unsubscribed default. */
  const DefaultSubscription := Models.Subscription(false, None, 0)

  /** Subscribed means subscribed, with an expiry, and that expiry after `now`; a missing subscription is not subscribed. */
  predicate CurrentlySubscribed(subscription: Option<Models.Subscription>, now: int) {
    var s := subscription.GetOr(DefaultSubscription);
    s.isSubscribed && s.subscriptionExpiry.Some? && s.subscriptionExpiry.value > now
  }

  /** The home page's check agrees with the test the order handler applies before reducing a subscriber's total. */
  lemma SubscriptionCheckAgrees(users: seq<Models.User>, userId: string, now: int)
    requires Models.FindUser(users, userId) >= 0
    ensures CurrentlySubscribed(users[Models.FindUser(users, userId)].subscription, now)
            <==> OrderController.SubscriptionActive(users, userId, now)
  {
  }

  /** A missing subscription is never current. */
  lemma MissingSubscriptionNotCurrent(now: int)
    ensures !CurrentlySubscribed(None, now)
  {
  }

  datatype Position = Position(left: string, top: string)

  const DefaultPosition := Position("50%", "87%")

  const SectionKeys := {"t-shirts", "shirts", "oversized-t-shirts", "bottom-wear", "cargo-pants", "jackets", "hoodies", "co-ord-sets"}

  /** `getButtonPosition`: the table's entry for the section and layout, else left 50%, top 87%. */
  function ButtonPosition(sectionKey: string, isMobile: bool): (r: Position)
    ensures sectionKey !in SectionKeys <==> r == DefaultPosition
  {
    if sectionKey == "t-shirts" then (if isMobile then Position("20%", "85%") else Position("59%", "85%"))
    else if sectionKey == "shirts" then (if isMobile then Position("60%", "75%") else Position("52%", "80%"))
    else if sectionKey == "oversized-t-shirts" then (if isMobile then Position("63%", "74%") else Position("55%", "85%"))
    else if sectionKey == "bottom-wear" then (if isMobile then Position("65%", "70%") else Position("56%", "78%"))
    else if sectionKey == "cargo-pants" then (if isMobile then Position("60%", "75%") else Position("44%", "79%"))
    else if sectionKey == "jackets" then (if isMobile then Position("75%", "75%") else Position("47%", "80%"))
    else if sectionKey == "hoodies" then (if isMobile then Position("50%", "73%") else Position("50%", "80%"))
    else if sectionKey == "co-ord-sets" then (if isMobile then Position("63%", "75%") else Position("53%", "80%"))
    else DefaultPosition
  }
}
