/** The Express server's catalogue: a constant product table, the category listing,
    the lookup by id and the order endpoint's reply. No handler changes any state. */
module Server {
  import opened Base

  /** A product record of the server's table (the table gives no stock or rating; its free-text
      description, details and image fields are not carried). */
  datatype Product = Product(
    id: int,
    name: string,
    price: int,
    category: string,
    sizes: seq<string>,
    hasSizes: bool)

  /** The constant table the server serves, in table order. */
  function Table(): seq<Product>
  {
    [ Product(1, "Manchester United Home Jersey 2024", 1299, "jerseys", ["S", "M", "L", "XL", "XXL"], true),
      Product(2, "Real Madrid Away Jersey 2024", 1299, "jerseys", ["S", "M", "L", "XL", "XXL"], true),
      Product(3, "Barcelona Third Jersey 2024", 1299, "jerseys", ["S", "M", "L", "XL"], true),
      Product(4, "Argentina National Jersey", 1299, "jerseys", ["S", "M", "L", "XL", "XXL"], true),
      Product(5, "Nike Phantom GX Elite Boots", 4999, "boots", ["6", "7", "8", "9", "10", "11"], true),
      Product(6, "Adidas Predator Elite Boots", 4999, "boots", ["6", "7", "8", "9", "10", "11"], true),
      Product(7, "Puma Future Ultimate Boots", 4999, "boots", ["6", "7", "8", "9", "10"], true),
      Product(8, "Adidas Champions League Ball", 1999, "balls", ["Standard Size 5"], false),
      Product(9, "Nike Premier League Flight Ball", 1999, "balls", ["Standard Size 5"], false),
      Product(10, "Puma Official Match Ball", 1999, "balls", ["Standard Size 5"], false),
      Product(11, "Football Shin Guards", 599, "accessories", ["One Size"], false),
      Product(12, "Goalkeeper Gloves", 1499, "accessories", ["S", "M", "L", "XL"], true),
      Product(13, "Football Socks", 499, "accessories", ["One Size Fits All"], false),
      Product(14, "Training Cones (Set of 10)", 799, "accessories", ["Standard Set"], false)
    ]
  }

  /** The table's ids are 1 to 14 in order, so they are distinct. */
  lemma TableIds()
    ensures |Table()| == 14
    ensures forall i :: 0 <= i < |Table()| ==> Table()[i].id == i + 1
  {
  }

  lemma TableIdsDistinct()
    ensures forall i, j :: 0 <= i < j < |Table()| ==> Table()[i].id != Table()[j].id
  {
    TableIds();
  }

  /** Every record lists at least one size, including those whose `hasSizes` is false. */
  lemma TableSizesListed()
    ensures forall i :: 0 <= i < |Table()| ==> |Table()[i].sizes| > 0
  {
  }

  /** The products of `ps` whose category is `c`, in their original order. */
  function InCategory(ps: seq<Product>, c: string): (r: seq<Product>)
    ensures |r| <= |ps|
    ensures forall p :: p in r <==> p in ps && p.category == c
    ensures forall i :: 0 <= i < |r| ==> r[i].category == c
  {
    if ps == [] then []
    else if ps[0].category == c then [ps[0]] + InCategory(ps[1..], c)
    else InCategory(ps[1..], c)
  }

  /** Keeping the products of category `c` keeps their relative order. */
  lemma {:induction false} InCategoryIsSubsequence(ps: seq<Product>, c: string)
    ensures Subsequence(InCategory(ps, c), ps)
  {
    if ps != [] {
      InCategoryIsSubsequence(ps[1..], c);
      if ps[0].category == c {
        assert ([ps[0]] + InCategory(ps[1..], c))[1..] == InCategory(ps[1..], c);
      }
    }
  }

  /** `GET /api/products?category=...`: the query parameter when one was sent. A missing or empty
      parameter, or `all`, gives the whole table; any other value gives that category's products. */
  function ListProducts(category: Option<string>): (r: seq<Product>)
    ensures category.None? || category.value in {"", "all"} ==> r == Table()
    ensures category.Some? && category.value !in {"", "all"} ==> r == InCategory(Table(), category.value)
  {
    if category.Some? && category.value != "" && category.value != "all"
    then InCategory(Table(), category.value)
    else Table()
  }

  /** `products.find(p => p.id === id)`: the first product with that id; NaN matches none. */
  function FindById(ps: seq<Product>, id: Option<int>): (r: Option<Product>)
    ensures r.Some? ==> r.value in ps && id == Some(r.value.id)
    ensures r.None? ==> forall p :: p in ps ==> id != Some(p.id)
    ensures r.Some? ==> exists i :: 0 <= i < |ps| && ps[i] == r.value && forall j :: 0 <= j < i ==> Some(ps[j].id) != id
  {
    if ps == [] then None
    else if id == Some(ps[0].id) then Some(ps[0])
    else
      var r := FindById(ps[1..], id);
      if r.Some? then
        ghost var i :| 0 <= i < |ps[1..]| && ps[1..][i] == r.value && forall j :: 0 <= j < i ==> Some(ps[1..][j].id) != id;
        assert ps[i + 1] == r.value && forall j :: 0 <= j < i + 1 ==> Some(ps[j].id) != id;
        r
      else r
  }

  datatype ProductResponse = Found(product: Product) | NotFound(status: int, message: string)

  /** `GET /api/products/:id`: the path parameter goes through `parseInt`; a miss, including a
      parameter with no leading digits, is a 404 with the message `Product not found`. */
  function GetProduct(idParam: string): (r: ProductResponse)
    ensures r.Found? <==> exists p :: p in Table() && ParseInt(idParam) == Some(p.id)
    ensures r.Found? ==> r.product in Table() && ParseInt(idParam) == Some(r.product.id)
    ensures r.NotFound? ==> r == NotFound(404, "Product not found")
  {
    match FindById(Table(), ParseInt(idParam))
    case Some(p) => Found(p)
    case None => NotFound(404, "Product not found")
  }

  /** With distinct ids, looking up the id of any product finds that product. */
  lemma {:induction false} FindByIdDistinct(ps: seq<Product>, i: nat)
    requires i < |ps|
    requires forall a, b :: 0 <= a < b < |ps| ==> ps[a].id != ps[b].id
    ensures FindById(ps, Some(ps[i].id)) == Some(ps[i])
  {
    if i > 0 {
      assert ps[0].id != ps[i].id;
      assert ps[1..][i - 1] == ps[i];
      FindByIdDistinct(ps[1..], i - 1);
    }
  }

  /** Every product of the table is served at the numeral of its id. */
  lemma GetProductById(i: nat)
    requires i < |Table()|
    ensures GetProduct(Decimal(Table()[i].id as nat)) == Found(Table()[i])
  {
    TableIds();
    TableIdsDistinct();
    ParseDecimal(i + 1);
    FindByIdDistinct(Table(), i);
  }

  /** A parameter with no digit where `parseInt` looks for one is not found. */
  lemma GetProductNonNumeric(idParam: string)
    requires ParseInt(idParam).None?
    ensures GetProduct(idParam) == NotFound(404, "Product not found")
  {
  }

  /** Trailing text after the digits is ignored (`/api/products/3abc` serves product 3). */
  lemma GetProductTrailingText(i: nat, rest: string)
    requires i < |Table()|
    requires rest == [] || !(IsDigit(rest[0]) || rest[0] == 'x' || rest[0] == 'X')
    ensures GetProduct(Decimal(Table()[i].id as nat) + rest) == Found(Table()[i])
  {
    TableIds();
    TableIdsDistinct();
    ParseDecimalPrefix(i + 1, rest);
    FindByIdDistinct(Table(), i);
  }

  datatype OrderReply = OrderReply(success: bool, orderId: string, message: string)

  /** `POST /api/orders`: the body is neither checked nor stored; the reply always reports success
      and carries the id `IR7` followed by the server clock in milliseconds. */
  function PostOrder<Body>(body: Body, nowMillis: nat): (r: OrderReply)
    ensures r.success && r.message == "Order placed successfully!"
    ensures StartsWith(r.orderId, "IR7") && ParseInt(r.orderId[3..]) == Some(nowMillis)
  {
    var r := OrderReply(true, "IR7" + Decimal(nowMillis), "Order placed successfully!");
    assert r.orderId[3..] == Decimal(nowMillis);
    ParseDecimal(nowMillis);
    r
  }

  /** Two orders placed at different instants get different ids. */
  lemma OrderIdsDistinct<Body>(b1: Body, b2: Body, t1: nat, t2: nat)
    requires t1 != t2
    ensures PostOrder(b1, t1).orderId != PostOrder(b2, t2).orderId
  {
  }
}
