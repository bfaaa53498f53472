/** The cart page: quantity changes, row removal, the order summary's totals and the cart's image
    fallback. */
module CartPage {
  import opened Base
  import opened Model
  import opened Storage

  // ---------------------------------------------------------------------------
  // Image fallback
  // ---------------------------------------------------------------------------

  const CartPlaceholder: string := "https://via.placeholder.com/100x100/dc3545/fff?text=IR7"

  /** `getImageUrl` in `cart.js`. Its `/images/` test returns the same value as its fallback
      expression, so any non-empty reference is kept and only the empty one is replaced. */
  function CartImageUrl(image: string): (r: string)
    ensures image != "" ==> r == image
    ensures image == "" ==> r == CartPlaceholder
    ensures r != ""
  {
    if image != "" && StartsWith(image, "/images/") then image
    else if image != "" then image
    else CartPlaceholder
  }

  // ---------------------------------------------------------------------------
  // Quantity change
  // ---------------------------------------------------------------------------

  /** The quantity `updateQuantity` stores, from the parsed request (`None` for NaN) and the row's
      stock: a request below one or NaN becomes one, and anything above the stock becomes the stock.
      The stock test comes last, so a row whose stock is below one gets exactly its stock. */
  function ClampQuantity(q: Option<int>, stock: int): (r: int)
    ensures stock >= 1 ==> 1 <= r <= stock
    ensures stock >= 1 && q.Some? && 1 <= q.value <= stock ==> r == q.value
    ensures stock >= 1 && (q.None? || q.value < 1) ==> r == 1
    ensures q.Some? && q.value > stock ==> r == stock
    ensures stock < 1 ==> r == stock
  {
    var n := if q.None? || q.value < 1 then 1 else q.value;
    if n > stock then stock else n
  }

  /** `cart.map(...)` setting the quantity of every row with key (id, size) to `q`. */
  function SetQuantity(cart: seq<CartItem>, id: int, size: string, q: int): (r: seq<CartItem>)
    ensures |r| == |cart|
    ensures forall i :: 0 <= i < |cart| ==> r[i].product == cart[i].product && r[i].selectedSize == cart[i].selectedSize
    ensures forall i :: 0 <= i < |cart| ==> r[i].quantity == if HasKey(cart[i], id, size) then q else cart[i].quantity
  {
    seq(|cart|, i requires 0 <= i < |cart| => if HasKey(cart[i], id, size) then cart[i].(quantity := q) else cart[i])
  }

  lemma SetQuantityPrefix(cart: seq<CartItem>, id: int, size: string, q: int)
    requires cart != []
    ensures SetQuantity(cart, id, size, q)[..|cart| - 1] == SetQuantity(cart[..|cart| - 1], id, size, q)
  {
  }

  /** Setting a quantity leaves every key, and so key uniqueness, as it was. */
  lemma SetQuantityKeepsUnique(cart: seq<CartItem>, id: int, size: string, q: int)
    requires UniqueKeys(cart)
    ensures UniqueKeys(SetQuantity(cart, id, size, q))
  {
    var r := SetQuantity(cart, id, size, q);
    forall a, b | 0 <= a < b < |r| ensures !SameKey(r[a], r[b]) {
      assert !SameKey(cart[a], cart[b]);
    }
  }

  /** Other keys keep their quantities, and the total moves by exactly the change at the key. */
  lemma {:induction false} SetQuantityQuantities(cart: seq<CartItem>, id: int, size: string, q: int, id': int, size': string)
    requires id' != id || size' != size
    ensures KeyQuantity(SetQuantity(cart, id, size, q), id', size') == KeyQuantity(cart, id', size')
    ensures QuantityTotal(SetQuantity(cart, id, size, q)) - KeyQuantity(SetQuantity(cart, id, size, q), id, size)
            == QuantityTotal(cart) - KeyQuantity(cart, id, size)
  {
    if cart != [] {
      SetQuantityPrefix(cart, id, size, q);
      SetQuantityQuantities(cart[..|cart| - 1], id, size, q, id', size');
    }
  }

  /** In a cart with unique keys, a present key ends up holding exactly `q`. */
  lemma SetQuantityAtKey(cart: seq<CartItem>, id: int, size: string, q: int)
    requires UniqueKeys(cart)
    requires FindRow(cart, id, size).Some?
    ensures KeyQuantity(SetQuantity(cart, id, size, q), id, size) == q
  {
    var i := FindRow(cart, id, size).value;
    SetQuantityKeepsUnique(cart, id, size, q);
    KeyQuantityOfRow(SetQuantity(cart, id, size, q), i);
  }

  /** `updateQuantity(productId, size, newQuantity)`, with `newQuantity` already through `parseInt`.
      A key with no row only raises an error toast; otherwise the clamped quantity, bounded by the
      stock recorded in the first matching row, is written into every matching row. */
  method UpdateQuantity(store: LocalStorage, productId: int, size: string, newQuantity: Option<int>) returns (found: bool)
    modifies store`cart
    ensures found <==> FindRow(old(store.cart), productId, size).Some?
    ensures !found ==> store.cart == old(store.cart)
    ensures found ==> store.cart == SetQuantity(old(store.cart), productId, size,
      ClampQuantity(newQuantity, old(store.cart)[FindRow(old(store.cart), productId, size).value].product.stock))
  {
    var cart := store.cart;
    var row := FindRow(cart, productId, size);
    if row.None? {
      return false;
    }
    var quantity := ClampQuantity(newQuantity, cart[row.value].product.stock);
    ghost var target := SetQuantity(store.cart, productId, size, quantity);
    var i := 0;
    while i < |cart|
      invariant 0 <= i <= |cart| == |store.cart|
      invariant forall j :: 0 <= j < i ==> cart[j] == target[j]
      invariant forall j :: i <= j < |cart| ==> cart[j] == store.cart[j]
    {
      if HasKey(cart[i], productId, size) {
        cart := cart[i := cart[i].(quantity := quantity)];
      }
      i := i + 1;
    }
    store.cart := cart;
    found := true;
  }

  // ---------------------------------------------------------------------------
  // Removal
  // ---------------------------------------------------------------------------

  /** `cart.filter(item => !(item.id === id && item.selectedSize === size))`. */
  function Remove(cart: seq<CartItem>, id: int, size: string): (r: seq<CartItem>)
    ensures |r| <= |cart|
    ensures forall x :: x in r <==> x in cart && !HasKey(x, id, size)
  {
    if cart == [] then []
    else if HasKey(cart[0], id, size) then Remove(cart[1..], id, size)
    else [cart[0]] + Remove(cart[1..], id, size)
  }

  /** The rows that stay keep their order. */
  lemma {:induction false} RemoveIsSubsequence(cart: seq<CartItem>, id: int, size: string)
    ensures Subsequence(Remove(cart, id, size), cart)
  {
    if cart != [] {
      RemoveIsSubsequence(cart[1..], id, size);
      if !HasKey(cart[0], id, size) {
        assert ([cart[0]] + Remove(cart[1..], id, size))[1..] == Remove(cart[1..], id, size);
      }
    }
  }

  /** Removing a key the cart does not hold leaves the cart as it was. */
  lemma {:induction false} RemoveAbsent(cart: seq<CartItem>, id: int, size: string)
    requires FindRow(cart, id, size).None?
    ensures Remove(cart, id, size) == cart
  {
    if cart != [] {
      assert !HasKey(cart[0], id, size);
      assert FindRow(cart[1..], id, size).None? by {
        forall j | 0 <= j < |cart[1..]| ensures !HasKey(cart[1..][j], id, size) {
          assert cart[1..][j] == cart[j + 1];
        }
      }
      RemoveAbsent(cart[1..], id, size);
      assert cart == [cart[0]] + cart[1..];
    }
  }

  /** Removing twice is removing once. */
  lemma RemoveIdempotent(cart: seq<CartItem>, id: int, size: string)
    ensures Remove(Remove(cart, id, size), id, size) == Remove(cart, id, size)
  {
    var r := Remove(cart, id, size);
    assert FindRow(r, id, size).None? by {
      forall j | 0 <= j < |r| ensures !HasKey(r[j], id, size) {
        assert r[j] in r;
      }
    }
    RemoveAbsent(r, id, size);
  }

  lemma {:induction false} RemoveKeepsUnique(cart: seq<CartItem>, id: int, size: string)
    requires UniqueKeys(cart)
    ensures UniqueKeys(Remove(cart, id, size))
  {
    if cart != [] {
      var rest := cart[1..];
      assert UniqueKeys(rest) by {
        forall a, b | 0 <= a < b < |rest| ensures !SameKey(rest[a], rest[b]) {
          assert rest[a] == cart[a + 1] && rest[b] == cart[b + 1];
        }
      }
      RemoveKeepsUnique(rest, id, size);
      if !HasKey(cart[0], id, size) {
        var t := Remove(rest, id, size);
        var r := [cart[0]] + t;
        forall a, b | 0 <= a < b < |r| ensures !SameKey(r[a], r[b]) {
          if a == 0 {
            assert r[b] == t[b - 1] && t[b - 1] in rest;
            var j :| 0 <= j < |rest| && rest[j] == t[b - 1];
            assert !SameKey(cart[0], cart[j + 1]);
          } else {
            assert r[a] == t[a - 1] && r[b] == t[b - 1];
          }
        }
      }
    }
  }

  /** The removed key is gone, every other key keeps its quantity, and the total drops by the
      removed key's quantity. */
  lemma {:induction false} RemoveQuantities(cart: seq<CartItem>, id: int, size: string, id': int, size': string)
    requires id' != id || size' != size
    ensures KeyQuantity(Remove(cart, id, size), id, size) == 0
    ensures KeyQuantity(Remove(cart, id, size), id', size') == KeyQuantity(cart, id', size')
    ensures QuantityTotal(Remove(cart, id, size)) == QuantityTotal(cart) - KeyQuantity(cart, id, size)
  {
    if cart != [] {
      var rest := cart[1..];
      assert cart == [cart[0]] + rest;
      RemoveQuantities(rest, id, size, id', size');
      KeyQuantityPrepend(cart[0], rest, id, size);
      KeyQuantityPrepend(cart[0], rest, id', size');
      QuantityTotalPrepend(cart[0], rest);
      if !HasKey(cart[0], id, size) {
        var t := Remove(rest, id, size);
        KeyQuantityPrepend(cart[0], t, id, size);
        KeyQuantityPrepend(cart[0], t, id', size');
        QuantityTotalPrepend(cart[0], t);
      }
    }
  }

  /** `removeItem(productId, size)`: the `cart` key rewritten without the rows of that key. */
  method RemoveItem(store: LocalStorage, productId: int, size: string)
    modifies store`cart
    ensures store.cart == Remove(old(store.cart), productId, size)
  {
    store.cart := Remove(store.cart, productId, size);
  }

  // ---------------------------------------------------------------------------
  // Totals
  // ---------------------------------------------------------------------------

  const FreeShippingThreshold: int := 3000
  const StandardShippingFee: int := 110

  function LineTotal(item: CartItem): int
  {
    item.product.price * item.quantity
  }

  /** `cart.reduce((sum, item) => sum + item.price * item.quantity, 0)`. */
  function Subtotal(cart: seq<CartItem>): int
  {
    if cart == [] then 0 else Subtotal(cart[..|cart| - 1]) + LineTotal(cart[|cart| - 1])
  }

  lemma SubtotalAppend(cart: seq<CartItem>, x: CartItem)
    ensures Subtotal(cart + [x]) == Subtotal(cart) + LineTotal(x)
  {
    assert (cart + [x])[..|cart|] == cart;
  }

  /** With no negative prices or quantities the subtotal is not negative. */
  lemma {:induction false} SubtotalNonNegative(cart: seq<CartItem>)
    requires forall i :: 0 <= i < |cart| ==> cart[i].product.price >= 0 && cart[i].quantity >= 0
    ensures Subtotal(cart) >= 0
  {
    if cart != [] {
      SubtotalNonNegative(cart[..|cart| - 1]);
    }
  }

  datatype Totals = Totals(subtotal: int, shippingFee: int, totalAmount: int)

  /** The order summary: shipping is free from a subtotal of 3000 on and costs 110 below it, and the
      total is the subtotal plus shipping. */
  function TotalsOf(cart: seq<CartItem>): (t: Totals)
    ensures t.subtotal == Subtotal(cart)
    ensures t.shippingFee == 0 <==> t.subtotal >= FreeShippingThreshold
    ensures t.shippingFee != 0 ==> t.shippingFee == StandardShippingFee
    ensures t.totalAmount == t.subtotal + t.shippingFee
  {
    var subtotal := Subtotal(cart);
    var shippingFee := if subtotal >= FreeShippingThreshold then 0 else StandardShippingFee;
    Totals(subtotal, shippingFee, subtotal + shippingFee)
  }

  /** Adding a row of non-negative value never makes shipping dearer. */
  lemma ShippingFeeNeverRises(cart: seq<CartItem>, x: CartItem)
    requires LineTotal(x) >= 0
    ensures TotalsOf(cart + [x]).shippingFee <= TotalsOf(cart).shippingFee
  {
    SubtotalAppend(cart, x);
  }

  /** A single jersey at 1299 pays 110 shipping; three of them pass the threshold and ship free. */
  lemma TotalsExamples(p: Product)
    requires p.price == 1299
    ensures TotalsOf([CartItem(p, "M", 1)]) == Totals(1299, 110, 1409)
    ensures TotalsOf([CartItem(p, "M", 3)]) == Totals(3897, 0, 3897)
  {
    var one, three := [CartItem(p, "M", 1)], [CartItem(p, "M", 3)];
    assert one[..0] == [] && three[..0] == [];
    assert Subtotal(one) == 1299 && Subtotal(three) == 3897;
  }
}
