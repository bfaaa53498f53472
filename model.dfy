/** The records the browser client keeps: products as the client sees them, cart rows keyed by
    (product id, selected size), and registered users. Also the row-level facts that every cart
    operation relies on: finding a row by key, key uniqueness and quantity sums. */
module Model {
  import opened Base

  /** A product as the client handles it. `rating` is kept as an integer number of tenths. */
  datatype Product = Product(
    id: int,
    name: string,
    description: string,
    price: int,
    category: string,
    image: string,
    sizes: seq<string>,
    hasSizes: bool,
    stock: int,
    rating: int)

  /** A cart row: every field of the product it was made from, the size chosen and a quantity. */
  datatype CartItem = CartItem(product: Product, selectedSize: string, quantity: int)

  /** A registered user as the client stores it. `lastLogin` is only set on a signed-in session copy. */
  datatype User = User(
    id: string,
    firstName: string,
    lastName: string,
    email: string,
    password: string,
    phone: string,
    isAdmin: bool,
    createdAt: string,
    lastLogin: Option<string>)

  // ---------------------------------------------------------------------------
  // Row keys
  // ---------------------------------------------------------------------------

  predicate HasKey(item: CartItem, id: int, size: string)
  {
    item.product.id == id && item.selectedSize == size
  }

  predicate SameKey(a: CartItem, b: CartItem)
  {
    HasKey(a, b.product.id, b.selectedSize)
  }

  /** At most one row per (product id, selected size). */
  ghost predicate UniqueKeys(cart: seq<CartItem>)
  {
    forall i, j :: 0 <= i < j < |cart| ==> !SameKey(cart[i], cart[j])
  }

  /** `cart.findIndex(item => item.id === id && item.selectedSize === size)`, as an index or `None` for -1. */
  function FindRow(cart: seq<CartItem>, id: int, size: string): (r: Option<nat>)
    ensures r.Some? ==> r.value < |cart| && HasKey(cart[r.value], id, size)
    ensures r.Some? ==> forall j :: 0 <= j < r.value ==> !HasKey(cart[j], id, size)
    ensures r.None? <==> forall j :: 0 <= j < |cart| ==> !HasKey(cart[j], id, size)
  {
    FindRowFrom(cart, id, size, 0)
  }

  function FindRowFrom(cart: seq<CartItem>, id: int, size: string, k: nat): (r: Option<nat>)
    requires k <= |cart|
    requires forall j :: 0 <= j < k ==> !HasKey(cart[j], id, size)
    ensures r.Some? ==> k <= r.value < |cart| && HasKey(cart[r.value], id, size)
    ensures r.Some? ==> forall j :: 0 <= j < r.value ==> !HasKey(cart[j], id, size)
    ensures r.None? <==> forall j :: 0 <= j < |cart| ==> !HasKey(cart[j], id, size)
    decreases |cart| - k
  {
    if k == |cart| then None
    else if HasKey(cart[k], id, size) then Some(k)
    else FindRowFrom(cart, id, size, k + 1)
  }

  /** In a cart with unique keys the row found for a key is the only row with that key. */
  lemma FindRowUnique(cart: seq<CartItem>, i: nat)
    requires UniqueKeys(cart) && i < |cart|
    ensures FindRow(cart, cart[i].product.id, cart[i].selectedSize) == Some(i)
  {
    var r := FindRow(cart, cart[i].product.id, cart[i].selectedSize);
    if r != Some(i) {
      assert r.Some? && r.value < i;
      assert SameKey(cart[r.value], cart[i]);
    }
  }

  // ---------------------------------------------------------------------------
  // Sizes
  // ---------------------------------------------------------------------------

  /** JavaScript truthiness of a size argument: `null`/`undefined` (None) and `""` are falsy. */
  predicate Truthy(s: Option<string>)
  {
    s.Some? && s.value != ""
  }

  /** The size expression `size || (product.hasSizes ? product.sizes[0] : 'Standard')` reads
      `sizes[0]` only when it is needed; the record must then list a size. */
  predicate ResolvableSize(given: Option<string>, p: Product)
  {
    Truthy(given) || !p.hasSizes || |p.sizes| > 0
  }

  /** The size a new cart row gets: the given size when truthy, otherwise the product's first size
      when it has sizes, otherwise `Standard`. */
  function ResolveSize(given: Option<string>, p: Product): (r: string)
    requires ResolvableSize(given, p)
    ensures Truthy(given) ==> r == given.value
    ensures !Truthy(given) && p.hasSizes ==> r == p.sizes[0]
    ensures !Truthy(given) && !p.hasSizes ==> r == "Standard"
  {
    if Truthy(given) then given.value else if p.hasSizes then p.sizes[0] else "Standard"
  }

  /** A size taken from the product's own list (or no size at all) always resolves to one of the
      product's sizes, or to `Standard` for a product without sizes. */
  lemma ResolveSizeListed(given: Option<string>, p: Product)
    requires ResolvableSize(given, p)
    requires given.None? || given.value in p.sizes
    ensures p.hasSizes ==> ResolveSize(given, p) in p.sizes
    ensures !p.hasSizes && !Truthy(given) ==> ResolveSize(given, p) == "Standard"
  {
  }

  /** The row made for a product the cart does not hold yet: all product fields, the size, quantity 1. */
  function NewRow(p: Product, size: string): (r: CartItem)
    ensures r.product == p && r.selectedSize == size && r.quantity == 1
    ensures HasKey(r, p.id, size)
  {
    CartItem(p, size, 1)
  }

  /** The row at `i` with its quantity one higher (`cart[i].quantity += 1`). */
  function Bump(cart: seq<CartItem>, i: nat): (r: seq<CartItem>)
    requires i < |cart|
    ensures |r| == |cart| && r[i] == cart[i].(quantity := cart[i].quantity + 1)
    ensures forall j :: 0 <= j < |cart| && j != i ==> r[j] == cart[j]
  {
    cart[i := cart[i].(quantity := cart[i].quantity + 1)]
  }

  // ---------------------------------------------------------------------------
  // Quantity sums
  // ---------------------------------------------------------------------------

  /** Σ quantity over all rows. */
  function QuantityTotal(cart: seq<CartItem>): int
  {
    if cart == [] then 0 else QuantityTotal(cart[..|cart| - 1]) + cart[|cart| - 1].quantity
  }

  /** Σ quantity over the rows with key (id, size). */
  function KeyQuantity(cart: seq<CartItem>, id: int, size: string): int
  {
    if cart == [] then 0
    else KeyQuantity(cart[..|cart| - 1], id, size)
         + (if HasKey(cart[|cart| - 1], id, size) then cart[|cart| - 1].quantity else 0)
  }

  lemma QuantityTotalAppend(cart: seq<CartItem>, x: CartItem)
    ensures QuantityTotal(cart + [x]) == QuantityTotal(cart) + x.quantity
  {
    assert (cart + [x])[..|cart|] == cart;
  }

  lemma KeyQuantityAppend(cart: seq<CartItem>, x: CartItem, id: int, size: string)
    ensures KeyQuantity(cart + [x], id, size)
            == KeyQuantity(cart, id, size) + (if HasKey(x, id, size) then x.quantity else 0)
  {
    assert (cart + [x])[..|cart|] == cart;
  }

  lemma {:induction false} QuantityTotalPrepend(x: CartItem, cart: seq<CartItem>)
    ensures QuantityTotal([x] + cart) == x.quantity + QuantityTotal(cart)
  {
    if cart != [] {
      assert ([x] + cart)[..|cart|] == [x] + cart[..|cart| - 1];
      QuantityTotalPrepend(x, cart[..|cart| - 1]);
    } else {
      assert [x] + cart == [x];
    }
  }

  lemma {:induction false} KeyQuantityPrepend(x: CartItem, cart: seq<CartItem>, id: int, size: string)
    ensures KeyQuantity([x] + cart, id, size)
            == (if HasKey(x, id, size) then x.quantity else 0) + KeyQuantity(cart, id, size)
  {
    if cart != [] {
      assert ([x] + cart)[..|cart|] == [x] + cart[..|cart| - 1];
      KeyQuantityPrepend(x, cart[..|cart| - 1], id, size);
    } else {
      assert [x] + cart == [x];
    }
  }

  /** Replacing one row changes the total by the difference of the two quantities. */
  lemma {:induction false} QuantityTotalUpdate(cart: seq<CartItem>, i: nat, x: CartItem)
    requires i < |cart|
    ensures QuantityTotal(cart[i := x]) == QuantityTotal(cart) - cart[i].quantity + x.quantity
  {
    var n := |cart|;
    if i < n - 1 {
      assert cart[i := x][..n - 1] == cart[..n - 1][i := x];
      QuantityTotalUpdate(cart[..n - 1], i, x);
    } else {
      assert cart[i := x][..n - 1] == cart[..n - 1];
    }
  }

  lemma {:induction false} KeyQuantityUpdate(cart: seq<CartItem>, i: nat, x: CartItem, id: int, size: string)
    requires i < |cart|
    ensures KeyQuantity(cart[i := x], id, size)
            == KeyQuantity(cart, id, size)
               - (if HasKey(cart[i], id, size) then cart[i].quantity else 0)
               + (if HasKey(x, id, size) then x.quantity else 0)
  {
    var n := |cart|;
    if i < n - 1 {
      assert cart[i := x][..n - 1] == cart[..n - 1][i := x];
      KeyQuantityUpdate(cart[..n - 1], i, x, id, size);
    } else {
      assert cart[i := x][..n - 1] == cart[..n - 1];
    }
  }

  /** No row with the key means a key quantity of zero. */
  lemma {:induction false} KeyQuantityAbsent(cart: seq<CartItem>, id: int, size: string)
    requires forall j :: 0 <= j < |cart| ==> !HasKey(cart[j], id, size)
    ensures KeyQuantity(cart, id, size) == 0
  {
    if cart != [] {
      KeyQuantityAbsent(cart[..|cart| - 1], id, size);
    }
  }

  /** With unique keys, the quantity stored for a key is the quantity of its one row. */
  lemma {:induction false} KeyQuantityOfRow(cart: seq<CartItem>, i: nat)
    requires UniqueKeys(cart) && i < |cart|
    ensures KeyQuantity(cart, cart[i].product.id, cart[i].selectedSize) == cart[i].quantity
  {
    var n := |cart|;
    var id, size := cart[i].product.id, cart[i].selectedSize;
    if i < n - 1 {
      KeyQuantityOfRow(cart[..n - 1], i);
      assert !SameKey(cart[i], cart[n - 1]);
    } else {
      var prefix := cart[..n - 1];
      forall j | 0 <= j < |prefix| ensures !HasKey(prefix[j], id, size) {
        assert !SameKey(cart[j], cart[i]);
      }
      KeyQuantityAbsent(prefix, id, size);
    }
  }

  // ---------------------------------------------------------------------------
  // The two ways a row is added
  // ---------------------------------------------------------------------------

  /** Appending a row whose key is absent keeps keys unique. */
  lemma AppendKeepsUnique(cart: seq<CartItem>, x: CartItem)
    requires UniqueKeys(cart)
    requires FindRow(cart, x.product.id, x.selectedSize).None?
    ensures UniqueKeys(cart + [x])
  {
    var c := cart + [x];
    forall i, j | 0 <= i < j < |c| ensures !SameKey(c[i], c[j]) {
      if j == |cart| {
        assert !HasKey(cart[i], x.product.id, x.selectedSize);
      }
    }
  }

  /** Changing only the quantity of a row keeps keys unique. */
  lemma BumpKeepsUnique(cart: seq<CartItem>, i: nat)
    requires UniqueKeys(cart) && i < |cart|
    ensures UniqueKeys(Bump(cart, i))
  {
    var c := Bump(cart, i);
    forall a, b | 0 <= a < b < |c| ensures !SameKey(c[a], c[b]) {
      assert !SameKey(cart[a], cart[b]);
    }
  }

  /** Bumping the row of key (id, size) adds one to that key's quantity and to the total, and leaves
      every other key's quantity as it was. */
  lemma BumpQuantities(cart: seq<CartItem>, i: nat, id: int, size: string)
    requires i < |cart|
    ensures QuantityTotal(Bump(cart, i)) == QuantityTotal(cart) + 1
    ensures KeyQuantity(Bump(cart, i), id, size)
            == KeyQuantity(cart, id, size) + (if HasKey(cart[i], id, size) then 1 else 0)
  {
    var x := cart[i].(quantity := cart[i].quantity + 1);
    assert Bump(cart, i) == cart[i := x];
    QuantityTotalUpdate(cart, i, x);
    KeyQuantityUpdate(cart, i, x, id, size);
  }

  /** Appending a new row adds one to its key's quantity and to the total, and leaves every other
      key's quantity as it was. */
  lemma AppendQuantities(cart: seq<CartItem>, p: Product, s: string, id: int, size: string)
    ensures QuantityTotal(cart + [NewRow(p, s)]) == QuantityTotal(cart) + 1
    ensures KeyQuantity(cart + [NewRow(p, s)], id, size)
            == KeyQuantity(cart, id, size) + (if p.id == id && s == size then 1 else 0)
  {
    QuantityTotalAppend(cart, NewRow(p, s));
    KeyQuantityAppend(cart, NewRow(p, s), id, size);
  }
}
