/** The products page: its own add-to-cart, which merges rows by (id, size) with no stock cap, and
    the size its add button passes. */
module ProductList {
  import opened Base
  import opened Model
  import opened Storage

  /** The cart after `addToCart(product, size)` in `product_list.js`: one more unit in the row of the
      same (id, size) if there is one, otherwise a new row of quantity 1 at the end. */
  function UncappedAdd(cart: seq<CartItem>, p: Product, given: Option<string>): seq<CartItem>
    requires ResolvableSize(given, p)
  {
    var size := ResolveSize(given, p);
    match FindRow(cart, p.id, size)
    case Some(i) => Bump(cart, i)
    case None => cart + [NewRow(p, size)]
  }

  /** Only the matching row changes, and only by one unit; without one the new row goes at the end. */
  lemma UncappedAddRows(cart: seq<CartItem>, p: Product, given: Option<string>)
    requires ResolvableSize(given, p)
    ensures var s := ResolveSize(given, p);
            var r := UncappedAdd(cart, p, given);
            match FindRow(cart, p.id, s)
            case Some(i) =>
              && |r| == |cart|
              && r[i] == cart[i].(quantity := cart[i].quantity + 1)
              && forall j :: 0 <= j < |cart| && j != i ==> r[j] == cart[j]
            case None =>
              && |r| == |cart| + 1
              && r[..|cart|] == cart
              && r[|cart|] == CartItem(p, s, 1)
  {
    var s := ResolveSize(given, p);
    if FindRow(cart, p.id, s).None? {
      assert (cart + [NewRow(p, s)])[..|cart|] == cart;
    }
  }

  /** Every call adds exactly one unit: to the resolved key and to the total; other keys keep their quantity. */
  lemma UncappedAddQuantities(cart: seq<CartItem>, p: Product, given: Option<string>, id: int, size: string)
    requires ResolvableSize(given, p)
    ensures var s := ResolveSize(given, p);
            && QuantityTotal(UncappedAdd(cart, p, given)) == QuantityTotal(cart) + 1
            && KeyQuantity(UncappedAdd(cart, p, given), id, size)
               == KeyQuantity(cart, id, size) + (if id == p.id && size == s then 1 else 0)
            && |cart| <= |UncappedAdd(cart, p, given)| <= |cart| + 1
  {
    var s := ResolveSize(given, p);
    match FindRow(cart, p.id, s)
    case Some(i) => BumpQuantities(cart, i, id, size);
    case None => AppendQuantities(cart, p, s, id, size);
  }

  lemma UncappedAddKeepsUnique(cart: seq<CartItem>, p: Product, given: Option<string>)
    requires ResolvableSize(given, p)
    requires UniqueKeys(cart)
    ensures UniqueKeys(UncappedAdd(cart, p, given))
  {
    var s := ResolveSize(given, p);
    match FindRow(cart, p.id, s)
    case Some(i) => BumpKeepsUnique(cart, i);
    case None => AppendKeepsUnique(cart, NewRow(p, s));
  }

  /** `addToCart` in `product_list.js`: reads the `cart` key, bumps or appends one row, writes it back. */
  method AddToCart(store: LocalStorage, p: Product, given: Option<string>)
    requires ResolvableSize(given, p)
    modifies store`cart
    ensures store.cart == UncappedAdd(old(store.cart), p, given)
  {
    var cart := store.cart;
    var size := ResolveSize(given, p);
    var existing := FindRow(cart, p.id, size);
    if existing.Some? {
      var i := existing.value;
      cart := cart[i := cart[i].(quantity := cart[i].quantity + 1)];
    } else {
      cart := cart + [NewRow(p, size)];
    }
    store.cart := cart;
  }

  /** The size the add button passes: for a product with sizes, the size selector's value, or the
      first size when the card has no selector; for any other product, none. */
  function ClickedSize(p: Product, selector: Option<string>): (r: Option<string>)
    requires !p.hasSizes || selector.Some? || |p.sizes| > 0
    ensures !p.hasSizes ==> r.None?
    ensures p.hasSizes && selector.Some? ==> r == selector
    ensures p.hasSizes && selector.None? ==> r == Some(p.sizes[0])
  {
    if p.hasSizes then (if selector.Some? then selector else Some(p.sizes[0])) else None
  }

  /** A click on a product whose selector offers only the product's sizes puts one of those sizes in the
      cart, and a product without sizes goes in as `Standard`. */
  lemma ClickedSizeLands(p: Product, selector: Option<string>)
    requires |p.sizes| > 0
    requires selector.None? || selector.value in p.sizes
    ensures ResolvableSize(ClickedSize(p, selector), p)
    ensures p.hasSizes ==> ResolveSize(ClickedSize(p, selector), p) in p.sizes
    ensures !p.hasSizes ==> ResolveSize(ClickedSize(p, selector), p) == "Standard"
  {
  }
}
