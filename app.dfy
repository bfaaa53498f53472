/** The storefront's main page script: the header's cart badge, the catalogue filters and sort
    orders, brand detection, image paths, the stock-capped add-to-cart and the wishlist toggle. */
module App {
  import opened Base
  import opened Model
  import opened Storage

  // ---------------------------------------------------------------------------
  // Cart badge
  // ---------------------------------------------------------------------------

  /** `item.quantity || 1`: a quantity of zero counts as one. */
  function BadgeTerm(item: CartItem): int
  {
    if item.quantity == 0 then 1 else item.quantity
  }

  /** The number the header's cart badge shows: `cart.reduce((sum, item) => sum + (item.quantity || 1), 0)`. */
  function BadgeCount(cart: seq<CartItem>): int
  {
    if cart == [] then 0 else BadgeCount(cart[..|cart| - 1]) + BadgeTerm(cart[|cart| - 1])
  }

  /** When every row holds at least one unit the badge shows the number of units in the cart. */
  lemma {:induction false} BadgeCountIsQuantityTotal(cart: seq<CartItem>)
    requires forall i :: 0 <= i < |cart| ==> cart[i].quantity >= 1
    ensures BadgeCount(cart) == QuantityTotal(cart)
  {
    if cart != [] {
      BadgeCountIsQuantityTotal(cart[..|cart| - 1]);
    }
  }

  /** With no negative quantities every row adds at least one to the badge, a zero row included. */
  lemma {:induction false} BadgeCountCoversRows(cart: seq<CartItem>)
    requires forall i :: 0 <= i < |cart| ==> cart[i].quantity >= 0
    ensures BadgeCount(cart) >= |cart|
  {
    if cart != [] {
      BadgeCountCoversRows(cart[..|cart| - 1]);
    }
  }

  // ---------------------------------------------------------------------------
  // Image paths
  // ---------------------------------------------------------------------------

  const CatalogPlaceholder: string := "https://" + "via.placeholder.com/300x200/007bff/fff?text=IR7+Football"

  /** An image reference the page can use as it is. */
  predicate Servable(url: string)
  {
    StartsWith(url, "/images/") || StartsWith(url, "http://") || StartsWith(url, "https://")
  }

  /** `getImageUrl`: site-absolute and web addresses are kept, a relative `images/...` path is made
      site-absolute, and anything else (the empty string included) becomes the placeholder. */
  function ImageUrl(image: string): (r: string)
    ensures Servable(r)
    ensures Servable(image) ==> r == image
    ensures !Servable(image) && StartsWith(image, "images/") ==> r == "/" + image
    ensures !Servable(image) && !StartsWith(image, "images/") ==> r == CatalogPlaceholder
  {
    if image == [] then CatalogPlaceholder
    else if StartsWith(image, "/images/") then image
    else if StartsWith(image, "http://") || StartsWith(image, "https://") then image
    else if StartsWith(image, "images/") then
      assert ("/" + image)[..8] == "/" + image[..7];
      "/" + image
    else CatalogPlaceholder
  }

  /** Resolving an already resolved image changes nothing. */
  lemma ImageUrlIdempotent(image: string)
    ensures ImageUrl(ImageUrl(image)) == ImageUrl(image)
  {
  }

  // ---------------------------------------------------------------------------
  // Brands
  // ---------------------------------------------------------------------------

  const Brands: seq<string> := ["Nike", "Adidas", "Puma", "New Balance", "Under Armour"]

  /** The lower-cased product name contains the lower-cased brand. */
  predicate NameMentions(name: string, brand: string)
  {
    Contains(Lower(name), Lower(brand))
  }

  /** The position of the first brand of `bs` that the name mentions. */
  function FirstMentioned(name: string, bs: seq<string>): (r: Option<nat>)
    ensures r.None? <==> forall i :: 0 <= i < |bs| ==> !NameMentions(name, bs[i])
    ensures r.Some? ==> r.value < |bs| && NameMentions(name, bs[r.value])
    ensures r.Some? ==> forall j :: 0 <= j < r.value ==> !NameMentions(name, bs[j])
  {
    if bs == [] then None
    else if NameMentions(name, bs[0]) then Some(0)
    else match FirstMentioned(name, bs[1..])
      case None => None
      case Some(i) => Some(i + 1)
  }

  /** No listed brand is called `Other`. */
  lemma BrandsNotOther(i: nat)
    requires i < |Brands|
    ensures Brands[i] != "Other"
  {
    assert Brands[i][0] != 'O';
  }

  /** The brand a product name belongs to: the first listed brand it mentions, ignoring case, else `Other`. */
  function BrandOf(name: string): (r: string)
    ensures r == "Other" <==> forall i :: 0 <= i < |Brands| ==> !NameMentions(name, Brands[i])
    ensures r != "Other" ==> exists i :: 0 <= i < |Brands| && r == Brands[i] && NameMentions(name, Brands[i])
                                 && forall j :: 0 <= j < i ==> !NameMentions(name, Brands[j])
  {
    match FirstMentioned(name, Brands)
    case None => "Other"
    case Some(i) =>
      BrandsNotOther(i);
      Brands[i]
  }

  /** `getProductBrand`: scans the brand list in order and returns at the first brand the name mentions. */
  method GetProductBrand(name: string) returns (brand: string)
    ensures brand == BrandOf(name)
    ensures brand == "Other" || brand in Brands
  {
    var i := 0;
    while i < |Brands|
      invariant 0 <= i <= |Brands|
      invariant forall j :: 0 <= j < i ==> !NameMentions(name, Brands[j])
    {
      if Contains(Lower(name), Lower(Brands[i])) {
        assert FirstMentioned(name, Brands) == Some(i);
        return Brands[i];
      }
      i := i + 1;
    }
    return "Other";
  }

  // ---------------------------------------------------------------------------
  // Filters
  // ---------------------------------------------------------------------------

  /** `currentFilters`: an empty size or brand list and an empty search query switch that filter off. */
  datatype Filters = Filters(
    category: string,
    priceLow: int,
    priceHigh: int,
    sizes: seq<string>,
    brands: seq<string>,
    sortBy: string,
    searchQuery: string,
    inStock: bool)

  /** The filters the page starts with. */
  const InitialFilters: Filters := Filters("all", 0, 10000, [], [], "newest", "", false)

  /** One stage of the filter pipeline. */
  datatype Stage =
    | CategoryIs(category: string)
    | PriceWithin(low: int, high: int)
    | HasAnySize(wanted: seq<string>)
    | BrandIn(brands: seq<string>)
    | Mentions(query: string)
    | InStockOnly

  /** Some wanted size is one of the product's sizes. */
  predicate OffersSize(wanted: seq<string>, p: Product)
  {
    exists i :: 0 <= i < |wanted| && wanted[i] in p.sizes
  }

  /** The lower-cased query occurs in the lower-cased name, description or category. */
  predicate MatchesQuery(query: string, p: Product)
  {
    var q := Lower(query);
    Contains(Lower(p.name), q) || Contains(Lower(p.description), q) || Contains(Lower(p.category), q)
  }

  predicate Keeps(st: Stage, p: Product)
  {
    match st
    case CategoryIs(c) => p.category == c
    case PriceWithin(low, high) => p.price >= low && p.price <= high
    case HasAnySize(wanted) => |p.sizes| > 0 && OffersSize(wanted, p)
    case BrandIn(brands) => BrandOf(p.name) in brands
    case Mentions(query) => MatchesQuery(query, p)
    case InStockOnly => p.stock > 0
  }

  /** One `filter` call: the products the stage keeps, in their order. */
  function FilterStage(ps: seq<Product>, st: Stage): (r: seq<Product>)
    ensures |r| <= |ps|
    ensures forall p :: p in r <==> p in ps && Keeps(st, p)
  {
    if ps == [] then []
    else if Keeps(st, ps[0]) then [ps[0]] + FilterStage(ps[1..], st)
    else FilterStage(ps[1..], st)
  }

  lemma {:induction false} FilterStageIsSubsequence(ps: seq<Product>, st: Stage)
    ensures Subsequence(FilterStage(ps, st), ps)
  {
    if ps != [] {
      FilterStageIsSubsequence(ps[1..], st);
      if Keeps(st, ps[0]) {
        assert ([ps[0]] + FilterStage(ps[1..], st))[1..] == FilterStage(ps[1..], st);
      }
    }
  }

  /** A stage that runs only when its filter is set; an unset filter passes the list through. */
  function StageIf(ps: seq<Product>, active: bool, st: Stage): (r: seq<Product>)
    ensures forall p :: p in r <==> p in ps && (!active || Keeps(st, p))
  {
    if active then FilterStage(ps, st) else ps
  }

  lemma StageIfIsSubsequence(ps: seq<Product>, active: bool, st: Stage)
    ensures Subsequence(StageIf(ps, active, st), ps)
  {
    if active {
      FilterStageIsSubsequence(ps, st);
    } else {
      SubsequenceReflexive(ps);
    }
  }

  /** The filtering half of `applyFilters`, stage by stage in the page's order; inactive stages are skipped. */
  function Selected(all: seq<Product>, f: Filters): seq<Product>
  {
    var s1 := StageIf(all, f.category != "all", CategoryIs(f.category));
    var s2 := StageIf(s1, true, PriceWithin(f.priceLow, f.priceHigh));
    var s3 := StageIf(s2, |f.sizes| > 0, HasAnySize(f.sizes));
    var s4 := StageIf(s3, |f.brands| > 0, BrandIn(f.brands));
    var s5 := StageIf(s4, f.searchQuery != "", Mentions(f.searchQuery));
    StageIf(s5, f.inStock, InStockOnly)
  }

  /** A product passes the filters: every active filter accepts it. */
  predicate Passes(f: Filters, p: Product)
  {
    && (f.category == "all" || p.category == f.category)
    && f.priceLow <= p.price <= f.priceHigh
    && (|f.sizes| == 0 || (|p.sizes| > 0 && OffersSize(f.sizes, p)))
    && (|f.brands| == 0 || BrandOf(p.name) in f.brands)
    && (f.searchQuery == "" || MatchesQuery(f.searchQuery, p))
    && (!f.inStock || p.stock > 0)
  }

  /** The products left after filtering are exactly those of the catalogue that pass every active filter,
      in catalogue order. */
  lemma SelectedExactly(all: seq<Product>, f: Filters)
    ensures forall p :: p in Selected(all, f) <==> p in all && Passes(f, p)
    ensures Subsequence(Selected(all, f), all)
  {
    SelectedMembers(all, f);
    SelectedInOrder(all, f);
  }

  lemma SelectedMembers(all: seq<Product>, f: Filters)
    ensures forall p :: p in Selected(all, f) <==> p in all && Passes(f, p)
  {
    forall p ensures p in Selected(all, f) <==> p in all && Passes(f, p) {
      SelectedMember(all, f, p);
    }
  }

  /** One product's way through the six stages. */
  lemma SelectedMember(all: seq<Product>, f: Filters, p: Product)
    ensures p in Selected(all, f) <==> p in all && Passes(f, p)
  {
    var s1 := StageIf(all, f.category != "all", CategoryIs(f.category));
    var s2 := StageIf(s1, true, PriceWithin(f.priceLow, f.priceHigh));
    var s3 := StageIf(s2, |f.sizes| > 0, HasAnySize(f.sizes));
    var s4 := StageIf(s3, |f.brands| > 0, BrandIn(f.brands));
    var s5 := StageIf(s4, f.searchQuery != "", Mentions(f.searchQuery));
    assert p in s1 <==> p in all && (f.category == "all" || Keeps(CategoryIs(f.category), p));
    assert p in s2 <==> p in s1 && Keeps(PriceWithin(f.priceLow, f.priceHigh), p);
    assert p in s3 <==> p in s2 && (|f.sizes| == 0 || Keeps(HasAnySize(f.sizes), p));
    assert p in s4 <==> p in s3 && (|f.brands| == 0 || Keeps(BrandIn(f.brands), p));
    assert p in s5 <==> p in s4 && (f.searchQuery == "" || Keeps(Mentions(f.searchQuery), p));
  }

  lemma SelectedInOrder(all: seq<Product>, f: Filters)
    ensures Subsequence(Selected(all, f), all)
  {
    var s1 := StageIf(all, f.category != "all", CategoryIs(f.category));
    var s2 := StageIf(s1, true, PriceWithin(f.priceLow, f.priceHigh));
    var s3 := StageIf(s2, |f.sizes| > 0, HasAnySize(f.sizes));
    var s4 := StageIf(s3, |f.brands| > 0, BrandIn(f.brands));
    var s5 := StageIf(s4, f.searchQuery != "", Mentions(f.searchQuery));
    var s6 := StageIf(s5, f.inStock, InStockOnly);
    StageIfIsSubsequence(all, f.category != "all", CategoryIs(f.category));
    StageIfIsSubsequence(s1, true, PriceWithin(f.priceLow, f.priceHigh));
    SubsequenceTransitive(s2, s1, all);
    StageIfIsSubsequence(s2, |f.sizes| > 0, HasAnySize(f.sizes));
    SubsequenceTransitive(s3, s2, all);
    StageIfIsSubsequence(s3, |f.brands| > 0, BrandIn(f.brands));
    SubsequenceTransitive(s4, s3, all);
    StageIfIsSubsequence(s4, f.searchQuery != "", Mentions(f.searchQuery));
    SubsequenceTransitive(s5, s4, all);
    StageIfIsSubsequence(s5, f.inStock, InStockOnly);
    SubsequenceTransitive(s6, s5, all);
  }

  // ---------------------------------------------------------------------------
  // Sort orders
  // ---------------------------------------------------------------------------

  datatype SortKey = PriceLow | PriceHigh | ByName | ByRating | Newest

  /** `switch (sortBy)`: an unknown key falls through to `newest`. */
  function ParseSortKey(s: string): (k: SortKey)
    ensures s !in {"price-low", "price-high", "name", "rating"} ==> k == Newest
  {
    if s == "price-low" then PriceLow
    else if s == "price-high" then PriceHigh
    else if s == "name" then ByName
    else if s == "rating" then ByRating
    else Newest
  }

  /** Lexicographic order on strings, character by character on Unicode scalar values. */
  predicate LexLeq(a: string, b: string)
  {
    a == [] || (b != [] && (a[0] < b[0] || (a[0] == b[0] && LexLeq(a[1..], b[1..]))))
  }

  lemma {:induction false} LexTotal(a: string, b: string)
    ensures LexLeq(a, b) || LexLeq(b, a)
  {
    if a != [] && b != [] && a[0] == b[0] {
      LexTotal(a[1..], b[1..]);
    }
  }

  lemma {:induction false} LexTransitive(a: string, b: string, c: string)
    requires LexLeq(a, b) && LexLeq(b, c)
    ensures LexLeq(a, c)
  {
    if a != [] && b != [] && c != [] && a[0] == b[0] && b[0] == c[0] {
      LexTransitive(a[1..], b[1..], c[1..]);
    }
  }

  /** `a` may stand before `b` under the comparator the key selects. */
  predicate Before(k: SortKey, a: Product, b: Product)
  {
    match k
    case PriceLow => a.price <= b.price
    case PriceHigh => a.price >= b.price
    case ByName => LexLeq(a.name, b.name)
    case ByRating => a.rating >= b.rating
    case Newest => a.id >= b.id
  }

  lemma BeforeTotal(k: SortKey, a: Product, b: Product)
    ensures Before(k, a, b) || Before(k, b, a)
  {
    if k == ByName {
      LexTotal(a.name, b.name);
    }
  }

  lemma BeforeTransitive(k: SortKey, a: Product, b: Product, c: Product)
    requires Before(k, a, b) && Before(k, b, c)
    ensures Before(k, a, c)
  {
    if k == ByName {
      LexTransitive(a.name, b.name, c.name);
    }
  }

  ghost predicate SortedBy(k: SortKey, s: seq<Product>)
  {
    forall i, j :: 0 <= i < j < |s| ==> Before(k, s[i], s[j])
  }

  /** `h` placed in front of a sorted list it may precede keeps it sorted. */
  lemma ConsSorted(k: SortKey, h: Product, t: seq<Product>)
    requires SortedBy(k, t)
    requires forall j :: 0 <= j < |t| ==> Before(k, h, t[j])
    ensures SortedBy(k, [h] + t)
  {
    var r := [h] + t;
    forall i, j | 0 <= i < j < |r| ensures Before(k, r[i], r[j]) {
      assert r[j] == t[j - 1];
      if i > 0 {
        assert r[i] == t[i - 1];
      }
    }
  }

  /** `x` precedes a sorted list when it may precede its first element. */
  lemma InsertAtHead(k: SortKey, x: Product, s: seq<Product>)
    requires SortedBy(k, s) && s != [] && Before(k, x, s[0])
    ensures SortedBy(k, [x] + s)
  {
    forall j | 0 <= j < |s| ensures Before(k, x, s[j]) {
      if j > 0 { BeforeTransitive(k, x, s[0], s[j]); }
    }
    ConsSorted(k, x, s);
  }

  /** When `x` goes behind the head, the head still precedes everything the insertion into the tail yields. */
  lemma InsertBehindHead(k: SortKey, x: Product, s: seq<Product>, t: seq<Product>)
    requires SortedBy(k, s) && s != [] && !Before(k, x, s[0])
    requires SortedBy(k, t) && multiset(t) == multiset(s[1..]) + multiset{x}
    ensures SortedBy(k, [s[0]] + t)
    ensures multiset([s[0]] + t) == multiset(s) + multiset{x}
  {
    assert s == [s[0]] + s[1..];
    forall j | 0 <= j < |t| ensures Before(k, s[0], t[j]) {
      var y := t[j];
      assert y in multiset(t);
      if y == x {
        BeforeTotal(k, x, s[0]);
      } else {
        assert y in multiset(s[1..]);
        var m :| 0 <= m < |s[1..]| && s[1..][m] == y;
        assert Before(k, s[0], s[m + 1]);
      }
    }
    ConsSorted(k, s[0], t);
  }

  /** `x` placed in front of the first element it may precede; ties keep `x` first. */
  function Insert(k: SortKey, x: Product, s: seq<Product>): (r: seq<Product>)
    requires SortedBy(k, s)
    ensures SortedBy(k, r)
    ensures multiset(r) == multiset(s) + multiset{x}
  {
    if s == [] then [x]
    else if Before(k, x, s[0]) then
      InsertAtHead(k, x, s);
      assert s == [s[0]] + s[1..];
      [x] + s
    else
      var t := Insert(k, x, s[1..]);
      InsertBehindHead(k, x, s, t);
      [s[0]] + t
  }

  /** `sortProducts`: a sorted copy of the list, the comparator chosen by the key. JavaScript's sort
      is stable and so is this insertion sort. */
  function SortProducts(ps: seq<Product>, sortBy: string): (r: seq<Product>)
    ensures SortedBy(ParseSortKey(sortBy), r)
    ensures multiset(r) == multiset(ps)
    ensures |r| == |ps|
  {
    if ps == [] then []
    else
      assert ps == [ps[0]] + ps[1..];
      var r := Insert(ParseSortKey(sortBy), ps[0], SortProducts(ps[1..], sortBy));
      assert |r| == |multiset(r)|;
      r
  }

  /** What each sort key promises about neighbouring products. */
  lemma SortOrders(ps: seq<Product>, sortBy: string, i: nat)
    requires i + 1 < |SortProducts(ps, sortBy)|
    ensures sortBy == "price-low" ==> SortProducts(ps, sortBy)[i].price <= SortProducts(ps, sortBy)[i + 1].price
    ensures sortBy == "price-high" ==> SortProducts(ps, sortBy)[i].price >= SortProducts(ps, sortBy)[i + 1].price
    ensures sortBy == "rating" ==> SortProducts(ps, sortBy)[i].rating >= SortProducts(ps, sortBy)[i + 1].rating
    ensures ParseSortKey(sortBy) == Newest ==> SortProducts(ps, sortBy)[i].id >= SortProducts(ps, sortBy)[i + 1].id
  {
    var r := SortProducts(ps, sortBy);
    assert Before(ParseSortKey(sortBy), r[i], r[i + 1]);
  }

  /** `applyFilters` without its rendering: filter a copy of the catalogue, then sort it. */
  function FilterAndSort(all: seq<Product>, f: Filters): seq<Product>
  {
    SortProducts(Selected(all, f), f.sortBy)
  }

  /** The list shown is a sorted permutation of the filtered list, which keeps exactly the
      catalogue's passing products in catalogue order. */
  lemma FilterAndSortSpec(all: seq<Product>, f: Filters)
    ensures forall p :: p in FilterAndSort(all, f) <==> p in all && Passes(f, p)
    ensures multiset(FilterAndSort(all, f)) == multiset(Selected(all, f))
    ensures Subsequence(Selected(all, f), all)
    ensures SortedBy(ParseSortKey(f.sortBy), FilterAndSort(all, f))
  {
    SelectedExactly(all, f);
    var r := FilterAndSort(all, f);
    forall p ensures p in r <==> p in Selected(all, f) {
      assert p in r <==> p in multiset(r);
    }
  }

  // ---------------------------------------------------------------------------
  // Stock-capped add to cart
  // ---------------------------------------------------------------------------

  /** The toast `addToCart` ends with. */
  datatype AddOutcome = OutOfStock | AtStockLimit | Added

  /** The cart after `addToCart(product, size)`: nothing for a product out of stock; for a row of the
      same (id, size) one more unit unless that row already holds the product's stock; else a new row. */
  function CappedAdd(cart: seq<CartItem>, p: Product, given: Option<string>): (r: seq<CartItem>)
    requires p.stock <= 0 || ResolvableSize(given, p)
    ensures p.stock <= 0 ==> r == cart
  {
    if p.stock <= 0 then cart
    else
      var size := ResolveSize(given, p);
      match FindRow(cart, p.id, size)
      case Some(i) => if cart[i].quantity >= p.stock then cart else Bump(cart, i)
      case None => cart + [NewRow(p, size)]
  }

  /** Row by row: out of stock or at the cap, the cart is untouched; below the cap only the matching
      row changes, by one unit; without a matching row a new row of quantity 1 goes at the end. */
  lemma CappedAddRows(cart: seq<CartItem>, p: Product, given: Option<string>)
    requires p.stock <= 0 || ResolvableSize(given, p)
    ensures p.stock <= 0 ==> CappedAdd(cart, p, given) == cart
    ensures p.stock > 0 ==>
              var s := ResolveSize(given, p);
              var r := CappedAdd(cart, p, given);
              match FindRow(cart, p.id, s)
              case Some(i) =>
                if cart[i].quantity >= p.stock then r == cart
                else
                  && |r| == |cart|
                  && r[i] == cart[i].(quantity := cart[i].quantity + 1)
                  && forall j :: 0 <= j < |cart| && j != i ==> r[j] == cart[j]
              case None =>
                && |r| == |cart| + 1
                && r[..|cart|] == cart
                && r[|cart|] == CartItem(p, s, 1)
  {
    if p.stock > 0 {
      var s := ResolveSize(given, p);
      if FindRow(cart, p.id, s).None? {
        assert (cart + [NewRow(p, s)])[..|cart|] == cart;
      }
    }
  }

  /** Every row of product `id` holds at most `stock` units. */
  ghost predicate WithinStock(cart: seq<CartItem>, id: int, stock: int)
  {
    forall i :: 0 <= i < |cart| && cart[i].product.id == id ==> cart[i].quantity <= stock
  }

  lemma CappedAddKeepsUnique(cart: seq<CartItem>, p: Product, given: Option<string>)
    requires p.stock <= 0 || ResolvableSize(given, p)
    requires UniqueKeys(cart)
    ensures UniqueKeys(CappedAdd(cart, p, given))
  {
    if p.stock > 0 {
      var size := ResolveSize(given, p);
      match FindRow(cart, p.id, size)
      case Some(i) => BumpKeepsUnique(cart, i);
      case None => AppendKeepsUnique(cart, NewRow(p, size));
    }
  }

  lemma CappedAddKeepsWithinStock(cart: seq<CartItem>, p: Product, given: Option<string>)
    requires p.stock <= 0 || ResolvableSize(given, p)
    requires WithinStock(cart, p.id, p.stock)
    ensures WithinStock(CappedAdd(cart, p, given), p.id, p.stock)
  {
  }

  /** The key (id, size) gains a unit exactly when the product is in stock and the cart holds fewer
      than `stock` units under that key; nothing else changes, and when it does not gain, the cart is
      the same cart. */
  lemma CappedAddQuantities(cart: seq<CartItem>, p: Product, given: Option<string>, id: int, size: string)
    requires ResolvableSize(given, p)
    requires UniqueKeys(cart)
    ensures var s := ResolveSize(given, p);
            var grows := p.stock > 0 && KeyQuantity(cart, p.id, s) < p.stock;
            && QuantityTotal(CappedAdd(cart, p, given)) == QuantityTotal(cart) + (if grows then 1 else 0)
            && KeyQuantity(CappedAdd(cart, p, given), id, size)
               == KeyQuantity(cart, id, size) + (if grows && id == p.id && size == s then 1 else 0)
            && (!grows ==> CappedAdd(cart, p, given) == cart)
  {
    var s := ResolveSize(given, p);
    match FindRow(cart, p.id, s)
    case Some(i) =>
      KeyQuantityOfRow(cart, i);
      BumpQuantities(cart, i, id, size);
    case None =>
      KeyQuantityAbsent(cart, p.id, s);
      AppendQuantities(cart, p, s, id, size);
  }

  /** `addToCart` in `app.js`: reads the `cart` key, changes one row or appends one, writes it back. */
  method AddToCart(store: LocalStorage, p: Product, given: Option<string>) returns (outcome: AddOutcome)
    requires p.stock <= 0 || ResolvableSize(given, p)
    modifies store`cart
    ensures store.cart == CappedAdd(old(store.cart), p, given)
    ensures outcome == OutOfStock <==> p.stock <= 0
    ensures outcome == Added <==> store.cart != old(store.cart)
  {
    if p.stock <= 0 {
      return OutOfStock;
    }
    var cart := store.cart;
    var size := ResolveSize(given, p);
    var existing := FindRow(cart, p.id, size);
    if existing.Some? {
      var i := existing.value;
      if cart[i].quantity >= p.stock {
        return AtStockLimit;
      }
      cart := cart[i := cart[i].(quantity := cart[i].quantity + 1)];
      assert cart[i] != store.cart[i];
    } else {
      cart := cart + [NewRow(p, size)];
      assert |cart| != |store.cart|;
    }
    store.cart := cart;
    outcome := Added;
  }

  // ---------------------------------------------------------------------------
  // Wishlist
  // ---------------------------------------------------------------------------

  /** `products.find(p => p.id === id)`; a NaN id (`None`) matches nothing. */
  function FindProduct(ps: seq<Product>, id: Option<int>): (r: Option<Product>)
    ensures r.Some? ==> r.value in ps && id == Some(r.value.id)
    ensures r.Some? ==> exists i :: 0 <= i < |ps| && ps[i] == r.value && forall j :: 0 <= j < i ==> id != Some(ps[j].id)
    ensures r.None? <==> forall i :: 0 <= i < |ps| ==> id != Some(ps[i].id)
  {
    if ps == [] then None
    else if id == Some(ps[0].id) then Some(ps[0])
    else FindProduct(ps[1..], id)
  }

  /** `wishlist.findIndex(item => item.id === id)`. */
  function WishlistIndex(w: seq<Product>, id: int): (r: Option<nat>)
    ensures r.Some? ==> r.value < |w| && w[r.value].id == id
    ensures r.Some? ==> forall j :: 0 <= j < r.value ==> w[j].id != id
    ensures r.None? <==> forall i :: 0 <= i < |w| ==> w[i].id != id
  {
    if w == [] then None
    else if w[0].id == id then Some(0)
    else match WishlistIndex(w[1..], id)
      case Some(i) => Some(i + 1)
      case None => None
  }

  predicate InWishlist(w: seq<Product>, id: int)
  {
    exists i :: 0 <= i < |w| && w[i].id == id
  }

  /** No product appears twice in the wishlist. */
  ghost predicate UniqueIds(w: seq<Product>)
  {
    forall i, j :: 0 <= i < j < |w| ==> w[i].id != w[j].id
  }

  /** The wishlist after `toggleWishlist(id)`: an id not on the current page changes nothing; a listed
      product is spliced out, an unlisted one is appended. */
  function Toggled(w: seq<Product>, current: seq<Product>, id: Option<int>): (r: seq<Product>)
    ensures FindProduct(current, id).None? ==> r == w
  {
    match FindProduct(current, id)
    case None => w
    case Some(p) =>
      match WishlistIndex(w, p.id)
      case Some(i) => w[..i] + w[i + 1..]
      case None => w + [p]
  }

  /** Removing position `i` leaves the other ids in place. */
  lemma SpliceMembers(w: seq<Product>, i: nat, k: int)
    requires i < |w|
    ensures InWishlist(w[..i] + w[i + 1..], k) <==> exists j :: 0 <= j < |w| && j != i && w[j].id == k
  {
    var s := w[..i] + w[i + 1..];
    if InWishlist(s, k) {
      var j :| 0 <= j < |s| && s[j].id == k;
      if j < i { assert s[j] == w[j]; } else { assert s[j] == w[j + 1]; }
    }
    if exists j :: 0 <= j < |w| && j != i && w[j].id == k {
      var j :| 0 <= j < |w| && j != i && w[j].id == k;
      if j < i { assert s[j] == w[j]; } else { assert s[j - 1] == w[j]; }
    }
  }

  /** Toggling leaves the membership of every other id as it was. */
  lemma ToggleKeepsOthers(w: seq<Product>, current: seq<Product>, id: int, k: int)
    requires k != id
    ensures InWishlist(Toggled(w, current, Some(id)), k) <==> InWishlist(w, k)
  {
    match FindProduct(current, Some(id))
    case None =>
    case Some(p) =>
      match WishlistIndex(w, p.id)
      case Some(i) => SpliceMembers(w, i, k);
      case None =>
        assert forall j :: 0 <= j < |w| ==> (w + [p])[j] == w[j];
  }

  /** For a product on the current page, toggling flips whether the wishlist holds it. */
  lemma ToggleFlips(w: seq<Product>, current: seq<Product>, id: int)
    requires UniqueIds(w)
    requires FindProduct(current, Some(id)).Some?
    ensures InWishlist(Toggled(w, current, Some(id)), id) <==> !InWishlist(w, id)
  {
    var p := FindProduct(current, Some(id)).value;
    match WishlistIndex(w, p.id)
    case Some(i) =>
      SpliceMembers(w, i, id);
    case None =>
      assert (w + [p])[|w|].id == id;
  }

  lemma ToggleKeepsUnique(w: seq<Product>, current: seq<Product>, id: Option<int>)
    requires UniqueIds(w)
    ensures UniqueIds(Toggled(w, current, id))
  {
    match FindProduct(current, id)
    case None =>
    case Some(p) =>
      match WishlistIndex(w, p.id)
      case Some(i) =>
        var s := w[..i] + w[i + 1..];
        forall a, b | 0 <= a < b < |s| ensures s[a].id != s[b].id {
          var a' := if a < i then a else a + 1;
          var b' := if b < i then b else b + 1;
          assert s[a] == w[a'] && s[b] == w[b'];
        }
      case None =>
  }

  /** Toggling twice restores which ids the wishlist holds; after an addition it restores the list itself. */
  lemma ToggleTwice(w: seq<Product>, current: seq<Product>, id: int)
    requires UniqueIds(w)
    ensures forall k :: InWishlist(Toggled(Toggled(w, current, Some(id)), current, Some(id)), k) <==> InWishlist(w, k)
    ensures !InWishlist(w, id) ==> Toggled(Toggled(w, current, Some(id)), current, Some(id)) == w
  {
    var once := Toggled(w, current, Some(id));
    var twice := Toggled(once, current, Some(id));
    ToggleKeepsUnique(w, current, Some(id));
    forall k ensures InWishlist(twice, k) <==> InWishlist(w, k) {
      if k != id {
        ToggleKeepsOthers(w, current, id, k);
        ToggleKeepsOthers(once, current, id, k);
      } else if FindProduct(current, Some(id)).Some? {
        ToggleFlips(w, current, id);
        ToggleFlips(once, current, id);
      }
    }
    if !InWishlist(w, id) && FindProduct(current, Some(id)).Some? {
      var p := FindProduct(current, Some(id)).value;
      assert once == w + [p];
      assert WishlistIndex(once, id) == Some(|w|) by {
        assert once[|w|].id == id;
        assert forall j :: 0 <= j < |w| ==> once[j].id != id by {
          forall j | 0 <= j < |w| ensures once[j].id != id {
            assert once[j] == w[j];
          }
        }
      }
      assert once[..|w|] + once[|w| + 1..] == w;
    }
  }

  // ---------------------------------------------------------------------------
  // Page state
  // ---------------------------------------------------------------------------

  /** The page's globals: the loaded catalogue, the products on show and the filters. */
  class Catalog {
    var allProducts: seq<Product>
    var currentProducts: seq<Product>
    var filters: Filters

    constructor ()
      ensures allProducts == [] && currentProducts == [] && filters == InitialFilters
    {
      allProducts := [];
      currentProducts := [];
      filters := InitialFilters;
    }

    /** The end of `loadAllProducts`: the fetched (or sample) list becomes the catalogue and the
        filters are applied to it. */
    method Load(products: seq<Product>)
      modifies this`allProducts, this`currentProducts
      ensures allProducts == products
      ensures currentProducts == FilterAndSort(products, filters)
    {
      allProducts := products;
      currentProducts := allProducts;
      ApplyFilters();
    }

    /** `applyFilters`: the products on show become the filtered, sorted catalogue. */
    method ApplyFilters()
      modifies this`currentProducts
      ensures currentProducts == FilterAndSort(allProducts, filters)
      ensures forall p :: p in currentProducts <==> p in allProducts && Passes(filters, p)
    {
      FilterAndSortSpec(allProducts, filters);
      currentProducts := FilterAndSort(allProducts, filters);
    }

    /** `toggleWishlist(productId)`, for a product on show. */
    method ToggleWishlist(store: LocalStorage, productId: Option<int>)
      modifies store`wishlist
      ensures store.wishlist == Toggled(old(store.wishlist), currentProducts, productId)
    {
      var product := FindProduct(currentProducts, productId);
      if product.None? {
        return;
      }
      var wishlist := store.wishlist;
      var existing := WishlistIndex(wishlist, product.value.id);
      if existing.Some? {
        wishlist := wishlist[..existing.value] + wishlist[existing.value + 1..];
      } else {
        wishlist := wishlist + [product.value];
      }
      store.wishlist := wishlist;
    }
  }
}
