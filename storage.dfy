/** The browser's `localStorage` as the storefront uses it: one field per key, holding the
    JSON-decoded value. A key that was never written, or was removed, reads as its empty value
    (`JSON.parse(null) || []`), so removal is modelled as resetting the field. */
module Storage {
  import opened Base
  import opened Model

  class LocalStorage {
    /** The `cart` key. */
    var cart: seq<CartItem>
    /** The `wishlist` key: whole product records. */
    var wishlist: seq<Product>
    /** The `users` key: every registered user. */
    var users: seq<User>
    /** The `currentUser` key: the signed-in session, if any. */
    var currentUser: Option<User>

    /** A browser profile in which nothing has been stored yet. */
    constructor ()
      ensures cart == [] && wishlist == [] && users == [] && currentUser == None
    {
      cart := [];
      wishlist := [];
      users := [];
      currentUser := None;
    }
  }
}
