/**
 * The product listing page: the filter chain of `filteredAndSortedProducts`,
 * its four orders, the `handleFilterChange` reducer and the quick-filter
 * chips. Every stage of the chain applies only when its selection is
 * non-empty, and the chain only ever drops products.
 */
module Products {
  import opened Strings
  import opened Sequences
  import opened Sorting
  import opened Catalog

  /** The page's filter record. */
  datatype Filters = Filters(
    gender: seq<string>,
    category: seq<string>,
    subCategory: seq<string>,
    collectionName: seq<string>,
    priceRange: seq<int>,
    sort: string,
    size: seq<string>,
    color: seq<string>,
    fit: seq<string>)

  const DefaultFilters := Filters([], [], [], [], [0, 10000], "newest", [], [], [])

  /** A present text field equal, ignoring case, to one of the selected values. */
  predicate FieldIs(field: string, selected: seq<string>) {
    Any(selected, (v: string) => field != "" && ToLower(field) == ToLower(v))
  }

  predicate GenderMatch(p: Product, gender: seq<string>) { FieldIs(p.gender, gender) }

  predicate CategoryMatch(p: Product, category: seq<string>) { FieldIs(p.category, category) }

  /** The fallback test: a present name containing one of the categories, ignoring case. */
  predicate NameMatch(p: Product, category: seq<string>) {
    Any(category, (c: string) => p.name != "" && Contains(ToLower(p.name), ToLower(c)))
  }

  /** One sub-category test: an exact match, the name, and the three named special cases. */
  predicate SubCategoryIs(p: Product, sub: string) {
    if p.subCategory != "" && ToLower(p.subCategory) == ToLower(sub) then true
    else if p.name != "" && Contains(ToLower(p.name), ToLower(sub)) then true
    else if ToLower(sub) == "cargo pants" then
      p.category == "Bottom Wear" && (p.subCategory == "Cargo Pants" || Contains(ToLower(p.name), "cargo"))
    else if ToLower(sub) == "oversized" then
      (p.category == "T-shirts" && p.subCategory == "Oversized") || p.fit == "Oversized"
      || Contains(ToLower(p.name), "oversized")
    else if ToLower(sub) == "co-ord sets" then
      p.category == "Co-ord Sets" || Contains(ToLower(p.name), "co-ord")
    else false
  }

  /** An "Oversized" selection also picks a product whose fit is "Oversized", whatever its sub-category and name. */
  lemma OversizedFitSelected(p: Product)
    requires p.fit == "Oversized"
    ensures SubCategoryMatch(p, ["Oversized"])
  {
    assert ToLower("Oversized") == "oversized";
    assert SubCategoryIs(p, "Oversized");
  }

  predicate SubCategoryMatch(p: Product, subCategory: seq<string>) {
    Any(subCategory, (s: string) => SubCategoryIs(p, s))
  }

  predicate CollectionMatch(p: Product, collection: seq<string>) { FieldIs(p.collectionName, collection) }

  /** Inclusive at both ends; a non-numeric price counts as 0. */
  predicate InPriceRange(p: Product, range: seq<int>)
    requires |range| == 2
  {
    range[0] <= PriceOf(p) <= range[1]
  }

  /** The product has a sizes array holding one of the selected sizes exactly. */
  predicate SizeMatch(p: Product, size: seq<string>) {
    p.sizes.Some? && Any(size, (s: string) => s in p.sizes.value)
  }

  predicate FitMatch(p: Product, fit: seq<string>) { FieldIs(p.fit, fit) }

  /** The product has a colors array with a colour equal, ignoring case, to a selected one. */
  predicate ColorMatch(p: Product, color: seq<string>) {
    p.colors.Some? && Any(color, (c: string) => HasColor(p.colors.value, c))
  }

  predicate HasColor(colors: seq<string>, c: string) {
    Any(colors, (pc: string) => ToLower(pc) == ToLower(c))
  }

  /** The lowercased query occurs in the lowercased name, description, category, sub-category or collection. */
  predicate SearchMatch(p: Product, query: string) {
    Contains(ToLower(p.name), query) || Contains(ToLower(p.description), query)
    || Contains(ToLower(p.category), query) || Contains(ToLower(p.subCategory), query)
    || Contains(ToLower(p.collectionName), query)
  }

  /** The stage tests as the function values the filters take. */
  function GenderTest(gender: seq<string>): Product -> bool { p => GenderMatch(p, gender) }
  function CategoryTest(category: seq<string>): Product -> bool { p => CategoryMatch(p, category) }
  function NameTest(category: seq<string>): Product -> bool { p => NameMatch(p, category) }
  function SubCategoryTest(subCategory: seq<string>): Product -> bool { p => SubCategoryMatch(p, subCategory) }
  function CollectionTest(collection: seq<string>): Product -> bool { p => CollectionMatch(p, collection) }
  function PriceTest(range: seq<int>): Product -> bool
    requires |range| == 2
  {
    p => InPriceRange(p, range)
  }
  function SizeTest(size: seq<string>): Product -> bool { p => SizeMatch(p, size) }
  function FitTest(fit: seq<string>): Product -> bool { p => FitMatch(p, fit) }
  function ColorTest(color: seq<string>): Product -> bool { p => ColorMatch(p, color) }
  function SearchTest(query: string): Product -> bool { p => SearchMatch(p, query) }

  function ByGender(ps: seq<Product>, gender: seq<string>): (r: seq<Product>)
    ensures |gender| == 0 ==> r == ps
    ensures IsSubsequence(r, ps)
    ensures forall p :: p in r <==> p in ps && (|gender| == 0 || GenderMatch(p, gender))
  {
    if |gender| > 0 then Filter(ps, GenderTest(gender)) else SubsequenceRefl(ps); ps
  }

  /**
   * Exact category match, ignoring case; when nothing in the list matches
   * exactly, the name-substring test replaces it.
   */
  function ByCategory(ps: seq<Product>, category: seq<string>): (r: seq<Product>)
    ensures |category| == 0 ==> r == ps
    ensures IsSubsequence(r, ps)
    ensures |category| > 0 && (exists p :: p in ps && CategoryMatch(p, category)) ==>
      forall p :: p in r <==> p in ps && CategoryMatch(p, category)
    ensures |category| > 0 && (forall p :: p in ps ==> !CategoryMatch(p, category)) ==>
      forall p :: p in r <==> p in ps && NameMatch(p, category)
    ensures forall p :: p in r ==> |category| == 0 || CategoryMatch(p, category) || NameMatch(p, category)
  {
    if |category| > 0 then
      var exact := Filter(ps, CategoryTest(category));
      if |exact| == 0 then Filter(ps, NameTest(category))
      else assert exact[0] in exact; exact
    else SubsequenceRefl(ps); ps
  }

  function BySubCategory(ps: seq<Product>, subCategory: seq<string>): (r: seq<Product>)
    ensures |subCategory| == 0 ==> r == ps
    ensures IsSubsequence(r, ps)
    ensures forall p :: p in r <==> p in ps && (|subCategory| == 0 || SubCategoryMatch(p, subCategory))
  {
    if |subCategory| > 0 then Filter(ps, SubCategoryTest(subCategory)) else SubsequenceRefl(ps); ps
  }

  function ByCollection(ps: seq<Product>, collection: seq<string>): (r: seq<Product>)
    ensures |collection| == 0 ==> r == ps
    ensures IsSubsequence(r, ps)
    ensures forall p :: p in r <==> p in ps && (|collection| == 0 || CollectionMatch(p, collection))
  {
    if |collection| > 0 then Filter(ps, CollectionTest(collection)) else SubsequenceRefl(ps); ps
  }

  /** Applies only to a two-element range. */
  function ByPrice(ps: seq<Product>, range: seq<int>): (r: seq<Product>)
    ensures |range| != 2 ==> r == ps
    ensures IsSubsequence(r, ps)
    ensures forall p :: p in r <==> p in ps && (|range| != 2 || InPriceRange(p, range))
  {
    if |range| == 2 then Filter(ps, PriceTest(range)) else SubsequenceRefl(ps); ps
  }

  function BySize(ps: seq<Product>, size: seq<string>): (r: seq<Product>)
    ensures |size| == 0 ==> r == ps
    ensures IsSubsequence(r, ps)
    ensures forall p :: p in r <==> p in ps && (|size| == 0 || SizeMatch(p, size))
  {
    if |size| > 0 then Filter(ps, SizeTest(size)) else SubsequenceRefl(ps); ps
  }

  function ByFit(ps: seq<Product>, fit: seq<string>): (r: seq<Product>)
    ensures |fit| == 0 ==> r == ps
    ensures IsSubsequence(r, ps)
    ensures forall p :: p in r <==> p in ps && (|fit| == 0 || FitMatch(p, fit))
  {
    if |fit| > 0 then Filter(ps, FitTest(fit)) else SubsequenceRefl(ps); ps
  }

  function ByColor(ps: seq<Product>, color: seq<string>): (r: seq<Product>)
    ensures |color| == 0 ==> r == ps
    ensures IsSubsequence(r, ps)
    ensures forall p :: p in r <==> p in ps && (|color| == 0 || ColorMatch(p, color))
  {
    if |color| > 0 then Filter(ps, ColorTest(color)) else SubsequenceRefl(ps); ps
  }

  /** Applies when the trimmed query is non-empty; the query itself is lowercased but not trimmed. */
  function BySearch(ps: seq<Product>, searchQuery: string): (r: seq<Product>)
    ensures Trim(searchQuery) == "" ==> r == ps
    ensures IsSubsequence(r, ps)
    ensures forall p :: p in r <==> p in ps && (Trim(searchQuery) == "" || SearchMatch(p, ToLower(searchQuery)))
  {
    if Trim(searchQuery) != "" then Filter(ps, SearchTest(ToLower(searchQuery))) else SubsequenceRefl(ps); ps
  }

  /** The whole filter chain, in the page's order. */
  function Filtered(products: seq<Product>, f: Filters, searchQuery: string): seq<Product> {
    BySearch(ByVariant(ByCatalog(products, f), f), searchQuery)
  }

  /** Every stage drops products and reorders none, so the chain yields a subsequence of the list. */
  lemma FilteredSubsequence(products: seq<Product>, f: Filters, searchQuery: string)
    ensures IsSubsequence(Filtered(products, f, searchQuery), products)
  {
    var s1 := ByGender(products, f.gender);
    var s2 := ByCategory(s1, f.category);
    var s3 := BySubCategory(s2, f.subCategory);
    var s4 := ByCollection(s3, f.collectionName);
    var s5 := ByPrice(s4, f.priceRange);
    var s6 := BySize(s5, f.size);
    var s7 := ByFit(s6, f.fit);
    var s8 := ByColor(s7, f.color);
    var s9 := BySearch(s8, searchQuery);
    SubsequenceTrans(s2, s1, products);
    SubsequenceTrans(s3, s2, products);
    SubsequenceTrans(s4, s3, products);
    SubsequenceTrans(s5, s4, products);
    SubsequenceTrans(s6, s5, products);
    SubsequenceTrans(s7, s6, products);
    SubsequenceTrans(s8, s7, products);
    SubsequenceTrans(s9, s8, products);
  }

  /** With no selection at all (and a price range that is not a pair) the chain keeps every product. */
  lemma NoFilterKeepsAll(products: seq<Product>, sort: string, range: seq<int>)
    requires |range| != 2
    ensures Filtered(products, Filters([], [], [], [], range, sort, [], [], []), "") == products
  {
    assert Trim("") == "";
  }

  /** A product priced exactly at either bound passes the price stage; one without a numeric price is priced 0. */
  lemma PriceBoundsInclusive(ps: seq<Product>, lo: int, hi: int, p: Product)
    requires p in ps && lo <= hi
    ensures PriceOf(p) == lo || PriceOf(p) == hi ==> p in ByPrice(ps, [lo, hi])
    ensures p.price.None? ==> (p in ByPrice(ps, [lo, hi]) <==> lo <= 0 <= hi)
  {
  }

  /** An active size or colour selection drops every product that has no sizes or colours array. */
  lemma MissingArraysExcluded(ps: seq<Product>, size: seq<string>, color: seq<string>, p: Product)
    ensures |size| > 0 && p.sizes.None? ==> p !in BySize(ps, size)
    ensures |color| > 0 && p.colors.None? ==> p !in ByColor(ps, color)
  {
  }

  /** The order `filters.sort` selects; any other value sorts newest first. */
  function Comparator(sort: string): (Product, Product) -> bool {
    if sort == "price_asc" then KeyAsc(PriceOf)
    else if sort == "price_desc" then KeyDesc(PriceOf)
    else if sort == "popular" then KeyDesc(SoldCount)
    else KeyDesc(CreatedAt)
  }

  lemma ComparatorPreorder(sort: string)
    ensures IsTotalPreorder(Comparator(sort))
  {
    if sort == "price_asc" {
      KeyAscPreorder(PriceOf);
    } else if sort == "price_desc" {
      KeyDescPreorder(PriceOf);
    } else if sort == "popular" {
      KeyDescPreorder(SoldCount);
    } else {
      KeyDescPreorder(CreatedAt);
    }
  }

  /**
   * `filteredAndSortedProducts`: `filtered` is narrowed stage by stage, then
   * copied and sorted in place by the selected order.
   */
  method FilterAndSort(products: seq<Product>, f: Filters, searchQuery: string) returns (sorted: seq<Product>)
    ensures multiset(sorted) == multiset(Filtered(products, f, searchQuery))
    ensures SortedBy(sorted, Comparator(f.sort))
  {
    var filtered := NarrowByCatalog(products, f);
    filtered := NarrowByVariant(filtered, f);
    if Trim(searchQuery) != "" {
      var query := ToLower(searchQuery);
      filtered := Filter(filtered, SearchTest(query));
    }
    assert filtered == BySearch(ByVariant(ByCatalog(products, f), f), searchQuery);
    ComparatorPreorder(f.sort);
    sorted := SortedCopy(filtered, Comparator(f.sort));
  }

  /** The gender, category, sub-category and collection stages. */
  function ByCatalog(products: seq<Product>, f: Filters): seq<Product> {
    ByCollection(BySubCategory(ByCategory(ByGender(products, f.gender), f.category), f.subCategory), f.collectionName)
  }

  /** The price, size, fit and colour stages. */
  function ByVariant(ps: seq<Product>, f: Filters): seq<Product> {
    ByColor(ByFit(BySize(ByPrice(ps, f.priceRange), f.size), f.fit), f.color)
  }

  /** The first four stages of `filteredAndSortedProducts`, each applied only when its selection is non-empty. */
  method NarrowByCatalog(products: seq<Product>, f: Filters) returns (filtered: seq<Product>)
    ensures filtered == ByCatalog(products, f)
  {
    filtered := products;
    if |f.gender| > 0 {
      filtered := Filter(filtered, GenderTest(f.gender));
    }
    assert filtered == ByGender(products, f.gender);
    if |f.category| > 0 {
      var categoryFiltered := Filter(filtered, CategoryTest(f.category));
      if |categoryFiltered| == 0 {
        categoryFiltered := Filter(filtered, NameTest(f.category));
      }
      filtered := categoryFiltered;
    }
    ghost var s2 := ByCategory(ByGender(products, f.gender), f.category);
    assert filtered == s2;
    if |f.subCategory| > 0 {
      filtered := Filter(filtered, SubCategoryTest(f.subCategory));
    }
    ghost var s3 := BySubCategory(s2, f.subCategory);
    assert filtered == s3;
    if |f.collectionName| > 0 {
      filtered := Filter(filtered, CollectionTest(f.collectionName));
    }
  }

  /** The next four stages: the price range applies only as a pair. */
  method NarrowByVariant(ps: seq<Product>, f: Filters) returns (filtered: seq<Product>)
    ensures filtered == ByVariant(ps, f)
  {
    filtered := ps;
    if |f.priceRange| == 2 {
      filtered := Filter(filtered, PriceTest(f.priceRange));
    }
    ghost var s5 := ByPrice(ps, f.priceRange);
    assert filtered == s5;
    if |f.size| > 0 {
      filtered := Filter(filtered, SizeTest(f.size));
    }
    ghost var s6 := BySize(s5, f.size);
    assert filtered == s6;
    if |f.fit| > 0 {
      filtered := Filter(filtered, FitTest(f.fit));
    }
    ghost var s7 := ByFit(s6, f.fit);
    assert filtered == s7;
    if |f.color| > 0 {
      filtered := Filter(filtered, ColorTest(f.color));
    }
  }

  /** The product passes every active stage (the category stage by either of its tests). */
  predicate PassesAll(p: Product, f: Filters, searchQuery: string) {
    (|f.gender| == 0 || GenderMatch(p, f.gender))
    && (|f.category| == 0 || CategoryMatch(p, f.category) || NameMatch(p, f.category))
    && (|f.subCategory| == 0 || SubCategoryMatch(p, f.subCategory))
    && (|f.collectionName| == 0 || CollectionMatch(p, f.collectionName))
    && (|f.priceRange| != 2 || InPriceRange(p, f.priceRange))
    && (|f.size| == 0 || SizeMatch(p, f.size))
    && (|f.fit| == 0 || FitMatch(p, f.fit))
    && (|f.color| == 0 || ColorMatch(p, f.color))
    && (Trim(searchQuery) == "" || SearchMatch(p, ToLower(searchQuery)))
  }

  /** A product the chain keeps is one of the loaded products and passes every active stage. */
  lemma PassesFilters(products: seq<Product>, f: Filters, searchQuery: string, p: Product)
    requires p in Filtered(products, f, searchQuery)
    ensures p in products && PassesAll(p, f, searchQuery)
  {
    var s1 := ByGender(products, f.gender);
    var s2 := ByCategory(s1, f.category);
    var s3 := BySubCategory(s2, f.subCategory);
    var s4 := ByCollection(s3, f.collectionName);
    var s5 := ByPrice(s4, f.priceRange);
    var s6 := BySize(s5, f.size);
    var s7 := ByFit(s6, f.fit);
    var s8 := ByColor(s7, f.color);
    assert p in BySearch(s8, searchQuery);
    assert p in s8;
    assert p in s7;
    assert p in s6;
    assert p in s5;
    assert p in s4;
    assert p in s3;
    assert p in s2;
    assert p in s1;
  }

  /**
   * Conversely, a loaded product passing every active stage is kept, when it
   * matches the category exactly (a name-only match is kept only if nothing
   * matched exactly).
   */
  lemma KeptWhenPasses(products: seq<Product>, f: Filters, searchQuery: string, p: Product)
    requires p in products && PassesAll(p, f, searchQuery)
    requires |f.category| == 0 || CategoryMatch(p, f.category)
    ensures p in Filtered(products, f, searchQuery)
  {
    var s1 := ByGender(products, f.gender);
    assert p in s1;
    var s2 := ByCategory(s1, f.category);
    assert p in s2;
    var s3 := BySubCategory(s2, f.subCategory);
    assert p in s3;
    var s4 := ByCollection(s3, f.collectionName);
    assert p in s4;
    var s5 := ByPrice(s4, f.priceRange);
    assert p in s5;
    var s6 := BySize(s5, f.size);
    assert p in s6;
    var s7 := ByFit(s6, f.fit);
    assert p in s7;
    var s8 := ByColor(s7, f.color);
    assert p in s8;
    assert ByVariant(ByCatalog(products, f), f) == s8;
    assert p in BySearch(s8, searchQuery);
  }

  /** Everything the page lists is a product it loaded that passes the whole chain. */
  lemma ListedPassesFilters(products: seq<Product>, f: Filters, searchQuery: string, sorted: seq<Product>, p: Product)
    requires multiset(sorted) == multiset(Filtered(products, f, searchQuery))
    requires p in sorted
    ensures p in products && PassesAll(p, f, searchQuery)
  {
    assert p in multiset(sorted);
    PassesFilters(products, f, searchQuery, p);
  }

  /** The filter keys whose value is a list of strings. */
  datatype ListKey = GenderKey | CategoryKey | SubCategoryKey | CollectionKey | SizeKey | ColorKey | FitKey

  function Get(f: Filters, key: ListKey): seq<string> {
    match key
    case GenderKey => f.gender
    case CategoryKey => f.category
    case SubCategoryKey => f.subCategory
    case CollectionKey => f.collectionName
    case SizeKey => f.size
    case ColorKey => f.color
    case FitKey => f.fit
  }

  /** `{...prev, [key]: value}`. */
  function With(f: Filters, key: ListKey, value: seq<string>): (r: Filters)
    ensures Get(r, key) == value
    ensures forall k :: k != key ==> Get(r, k) == Get(f, k)
    ensures r.priceRange == f.priceRange && r.sort == f.sort
  {
    match key
    case GenderKey => f.(gender := value)
    case CategoryKey => f.(category := value)
    case SubCategoryKey => f.(subCategory := value)
    case CollectionKey => f.(collectionName := value)
    case SizeKey => f.(size := value)
    case ColorKey => f.(color := value)
    case FitKey => f.(fit := value)
  }

  /** An argument of `handleFilterChange`. */
  datatype FilterChange = ListChange(key: ListKey, values: seq<string>) | PriceChange(range: seq<int>) | SortChange(sort: string)

  predicate IsShopAll(c: FilterChange) {
    c.ListChange? && c.key == CategoryKey && "Shop All" in c.values
  }

  /** The part of the page state the reducer touches. */
  datatype ListingState = ListingState(filters: Filters, page: int, shopAllActive: bool)

  /**
   * `handleFilterChange`; the flag is whether the products are fetched again
   * (a gender change or "Shop All").
   */
  function HandleFilterChange(s: ListingState, c: FilterChange): (r: (ListingState, bool))
    ensures r.0.page == 1
    ensures r.0.shopAllActive <==> IsShopAll(c)
    ensures r.1 <==> IsShopAll(c) || (c.ListChange? && c.key == GenderKey)
    ensures IsShopAll(c) ==> r.0.filters == DefaultFilters
    ensures c.ListChange? && c.key == GenderKey ==>
      r.0.filters == With(With(With(s.filters, GenderKey, c.values), CategoryKey, []), SubCategoryKey, [])
    ensures c.ListChange? && c.key != GenderKey && !IsShopAll(c) ==> r.0.filters == With(s.filters, c.key, c.values)
    ensures c.PriceChange? ==> r.0.filters == s.filters.(priceRange := c.range)
    ensures c.SortChange? ==> r.0.filters == s.filters.(sort := c.sort)
  {
    var shopAll := IsShopAll(c);
    var filters :=
      match c
      case ListChange(key, values) =>
        if key == GenderKey then s.filters.(gender := values, category := [], subCategory := [])
        else if shopAll then DefaultFilters
        else With(s.filters, key, values)
      case PriceChange(range) => s.filters.(priceRange := range)
      case SortChange(sort) => s.filters.(sort := sort);
    (ListingState(filters, 1, shopAll), shopAll || (c.ListChange? && c.key == GenderKey))
  }

  /** After a gender change no category or sub-category survives, whatever was selected before. */
  lemma GenderClearsCategories(s: ListingState, gender: seq<string>)
    ensures HandleFilterChange(s, ListChange(GenderKey, gender)).0.filters.category == []
    ensures HandleFilterChange(s, ListChange(GenderKey, gender)).0.filters.subCategory == []
    ensures HandleFilterChange(s, ListChange(GenderKey, gender)).0.filters.gender == gender
  {
  }

  /** Setting a key and then setting it back restores the filters. */
  lemma ChangeUndone(s: ListingState, key: ListKey, values: seq<string>)
    requires key != GenderKey && key != CategoryKey
    ensures HandleFilterChange(HandleFilterChange(s, ListChange(key, values)).0,
                               ListChange(key, Get(s.filters, key))).0.filters == s.filters
  {
    var mid := HandleFilterChange(s, ListChange(key, values)).0.filters;
    var back := HandleFilterChange(HandleFilterChange(s, ListChange(key, values)).0,
                                   ListChange(key, Get(s.filters, key))).0.filters;
    assert forall k :: Get(back, k) == Get(s.filters, k);
    assert back.gender == Get(back, GenderKey) && back.category == Get(back, CategoryKey);
    assert back.subCategory == Get(back, SubCategoryKey) && back.collectionName == Get(back, CollectionKey);
    assert back.size == Get(back, SizeKey) && back.color == Get(back, ColorKey) && back.fit == Get(back, FitKey);
  }

  /** The keys the quick-filter chips set. */
  datatype ChipKey = GenderChip | CollectionChip | FitChip

  function ChipListKey(k: ChipKey): ListKey {
    match k
    case GenderChip => GenderKey
    case CollectionChip => CollectionKey
    case FitChip => FitKey
  }

  /** The defaults with only this chip's value selected. */
  function ChipOnly(k: ChipKey, value: string): (r: Filters)
    ensures Get(r, ChipListKey(k)) == [value]
    ensures forall key :: key != ChipListKey(k) ==> Get(r, key) == []
    ensures r.priceRange == DefaultFilters.priceRange && r.sort == DefaultFilters.sort
  {
    Filters(if k == GenderChip then [value] else [], [], [],
            if k == CollectionChip then [value] else [], [0, 10000], "newest", [], [],
            if k == FitChip then [value] else [])
  }

  /**
   * A chip click: an active chip clears its key through the reducer; an
   * inactive one selects only itself, back on page 1, without touching the
   * "Shop All" flag or fetching.
   */
  function ChipClick(s: ListingState, k: ChipKey, value: string): (r: (ListingState, bool))
    ensures value in Get(s.filters, ChipListKey(k)) ==> r == HandleFilterChange(s, ListChange(ChipListKey(k), []))
    ensures value in Get(s.filters, ChipListKey(k)) ==> Get(r.0.filters, ChipListKey(k)) == []
    ensures value !in Get(s.filters, ChipListKey(k)) ==>
      r == (ListingState(ChipOnly(k, value), 1, s.shopAllActive), false)
  {
    if value in Get(s.filters, ChipListKey(k)) then HandleFilterChange(s, ListChange(ChipListKey(k), []))
    else (ListingState(ChipOnly(k, value), 1, s.shopAllActive), false)
  }

  /** Clicking the same chip twice leaves its key empty and every selection cleared. */
  lemma ChipTwiceClears(s: ListingState, k: ChipKey, value: string)
    requires value !in Get(s.filters, ChipListKey(k))
    ensures forall key :: Get(ChipClick(ChipClick(s, k, value).0, k, value).0.filters, key) == []
  {
    var once := ChipClick(s, k, value).0;
    assert value in Get(once.filters, ChipListKey(k));
    var twice := ChipClick(once, k, value).0;
    assert twice.filters == HandleFilterChange(once, ListChange(ChipListKey(k), [])).0.filters;
  }
}
