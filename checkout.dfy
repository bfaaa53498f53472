/** The cart page's checkout dialog: the shipping, payment, review and confirmation steps, the state
    the page keeps between them, and the order it submits. */
module Checkout {
  import opened Base
  import opened Model
  import opened Storage
  import opened CartPage
  import Server

  datatype Step = Shipping | Payment | Review | Confirmation

  /** `/^\d{10,15}$/`: ten to fifteen ASCII digits and nothing else. */
  predicate PhoneOk(phone: string)
  {
    10 <= |phone| <= 15 && forall i :: 0 <= i < |phone| ==> IsDigit(phone[i])
  }

  /** The raw values of the shipping form's fields. */
  datatype ShippingForm = ShippingForm(firstName: string, lastName: string, phone: string, address: string)

  /** `shippingData` as step 1 records it; its `address1` field repeats `address` and is not kept twice. */
  datatype ShippingData = ShippingData(
    firstName: string,
    lastName: string,
    phone: string,
    address: string,
    city: string,
    postcode: string,
    country: string)

  /** The record step 1 keeps: trimmed fields and the fixed city, postcode and country. */
  function CaptureShipping(form: ShippingForm): (d: ShippingData)
    ensures d.firstName == Trim(form.firstName) && d.lastName == Trim(form.lastName)
    ensures d.phone == Trim(form.phone) && d.address == Trim(form.address)
    ensures d.city == "Dhaka" && d.postcode == "1000" && d.country == "Bangladesh"
  {
    ShippingData(Trim(form.firstName), Trim(form.lastName), Trim(form.phone), Trim(form.address),
                 "Dhaka", "1000", "Bangladesh")
  }

  // ---------------------------------------------------------------------------
  // The order payload
  // ---------------------------------------------------------------------------

  datatype Customer = Customer(id: string, firstName: string, lastName: string, email: string)

  datatype ShippingAddress = ShippingAddress(address1: string, phone: string, city: string, postcode: string, country: string)

  datatype OrderItem = OrderItem(id: int, name: string, size: string, quantity: int, price: int, category: string)

  datatype OrderPayload = OrderPayload(
    orderDate: string,
    customer: Customer,
    shippingAddress: ShippingAddress,
    shippingPhone: string,
    items: seq<OrderItem>,
    paymentMethod: string,
    subtotal: int,
    shippingFee: int,
    totalAmount: int,
    status: string)

  /** The item snapshot of one cart row. */
  function ItemOf(row: CartItem): OrderItem
  {
    OrderItem(row.product.id, row.product.name, row.selectedSize, row.quantity, row.product.price, row.product.category)
  }

  /** `cart.map(item => ({...}))`. */
  function Items(cart: seq<CartItem>): (r: seq<OrderItem>)
    ensures |r| == |cart|
    ensures forall i :: 0 <= i < |cart| ==> r[i] == ItemOf(cart[i])
  {
    seq(|cart|, i requires 0 <= i < |cart| => ItemOf(cart[i]))
  }

  /** Σ price × quantity over the submitted items. */
  function ItemsSubtotal(items: seq<OrderItem>): int
  {
    if items == [] then 0 else ItemsSubtotal(items[..|items| - 1]) + items[|items| - 1].price * items[|items| - 1].quantity
  }

  /** The items carry exactly the cart's subtotal. */
  lemma {:induction false} ItemsSubtotalIsSubtotal(cart: seq<CartItem>)
    ensures ItemsSubtotal(Items(cart)) == Subtotal(cart)
  {
    if cart != [] {
      assert Items(cart)[..|cart| - 1] == Items(cart[..|cart| - 1]);
      ItemsSubtotalIsSubtotal(cart[..|cart| - 1]);
    }
  }

  /** The order's customer: the signed-in user's identity, or a guest made from the shipping names and
      the two clock readings `'guest-' + Date.now()` takes. */
  function CustomerFor(user: Option<User>, shipping: ShippingData, idClock: nat, emailClock: nat): (c: Customer)
    ensures user.Some? ==> c == Customer(user.value.id, user.value.firstName, user.value.lastName, user.value.email)
    ensures user.None? ==> c.firstName == shipping.firstName && c.lastName == shipping.lastName
    ensures user.None? ==> StartsWith(c.id, "guest-") && ParseInt(c.id[6..]) == Some(idClock)
    ensures user.None? ==> c.email == "guest-" + Decimal(emailClock) + "@ir7.com"
  {
    match user
    case Some(u) => Customer(u.id, u.firstName, u.lastName, u.email)
    case None =>
      var id := "guest-" + Decimal(idClock);
      assert id[6..] == Decimal(idClock);
      ParseDecimal(idClock);
      Customer(id, shipping.firstName, shipping.lastName, "guest-" + Decimal(emailClock) + "@ir7.com")
  }

  /** `orderData` in `placeOrder`: the fee is whatever separates the carried total from the cart's
      subtotal, so the three amounts always balance. */
  function BuildOrder(cart: seq<CartItem>, user: Option<User>, shipping: ShippingData, payment: string,
                      finalTotal: int, orderDate: string, idClock: nat, emailClock: nat): (o: OrderPayload)
    ensures o.subtotal == Subtotal(cart) && o.totalAmount == finalTotal
    ensures o.subtotal + o.shippingFee == o.totalAmount
    ensures o.items == Items(cart)
    ensures o.customer == CustomerFor(user, shipping, idClock, emailClock)
    ensures o.shippingPhone == shipping.phone
    ensures o.shippingAddress == ShippingAddress(shipping.address, shipping.phone, shipping.city, shipping.postcode, shipping.country)
    ensures o.paymentMethod == payment && o.status == "pending" && o.orderDate == orderDate
  {
    var subtotal := Subtotal(cart);
    OrderPayload(
      orderDate,
      CustomerFor(user, shipping, idClock, emailClock),
      ShippingAddress(shipping.address, shipping.phone, shipping.city, shipping.postcode, shipping.country),
      shipping.phone,
      Items(cart),
      payment,
      subtotal,
      finalTotal - subtotal,
      finalTotal,
      "pending")
  }

  /** When the cart is the one whose summary opened the dialog, the order's fee is the summary's
      threshold fee and its items add up to its subtotal. */
  lemma OrderMatchesSummary(cart: seq<CartItem>, user: Option<User>, shipping: ShippingData, payment: string,
                            orderDate: string, idClock: nat, emailClock: nat)
    ensures var o := BuildOrder(cart, user, shipping, payment, TotalsOf(cart).totalAmount, orderDate, idClock, emailClock);
            && o.shippingFee == TotalsOf(cart).shippingFee
            && (o.shippingFee == 0 <==> o.subtotal >= FreeShippingThreshold)
            && (o.shippingFee != 0 ==> o.shippingFee == StandardShippingFee)
            && ItemsSubtotal(o.items) == o.subtotal
  {
    ItemsSubtotalIsSubtotal(cart);
  }

  /** The server's reply, or the failure (`!response.ok` or a network error) that `placeOrder` catches. */
  datatype SubmitResult = Accepted(reply: Server.OrderReply) | Failed(message: string)

  // ---------------------------------------------------------------------------
  // The dialog
  // ---------------------------------------------------------------------------

  /** The checkout's state: the step on show, the module-level `shippingData`, `paymentMethod` and
      `finalTotalAmount`, whether the place-order button is disabled, and the confirmed order. */
  class CheckoutFlow {
    var step: Step
    var shipping: Option<ShippingData>
    var paymentMethod: string
    var finalTotalAmount: int
    var placeDisabled: bool
    var confirmed: Option<Server.OrderReply>

    /** Payment and review are only ever shown after a shipping record with a valid phone was kept,
        and confirmation only after an accepted order, with its button left disabled. */
    ghost predicate Valid()
      reads this
    {
      && ((step == Payment || step == Review) ==> shipping.Some? && PhoneOk(shipping.value.phone))
      && (step == Confirmation ==> confirmed.Some? && placeDisabled)
    }

    /** The module's initial values: no shipping record, cash on delivery, a total of zero. */
    constructor ()
      ensures Valid()
      ensures step == Shipping && shipping == None && paymentMethod == "COD" && finalTotalAmount == 0
      ensures !placeDisabled && confirmed == None
    {
      step := Shipping;
      shipping := None;
      paymentMethod := "COD";
      finalTotalAmount := 0;
      placeDisabled := false;
      confirmed := None;
    }

    /** `setupCheckoutSteps(totalAmount)`: records the total and shows step 1. The shipping record,
        the payment method and the button's state carry over from any earlier run. */
    method Open(totalAmount: int)
      modifies this`step, this`finalTotalAmount
      ensures step == Shipping && finalTotalAmount == totalAmount
      ensures Valid()
    {
      finalTotalAmount := totalAmount;
      step := Shipping;
    }

    /** Step 1's continue button: the trimmed phone must match the pattern and the rest of the form
        must be valid; only then is the shipping record kept and step 2 shown. */
    method ContinueToPayment(form: ShippingForm, otherFieldsValid: bool) returns (advanced: bool)
      requires step == Shipping
      modifies this`step, this`shipping
      ensures advanced <==> PhoneOk(Trim(form.phone)) && otherFieldsValid
      ensures advanced ==> step == Payment && shipping == Some(CaptureShipping(form))
      ensures !advanced ==> step == Shipping && shipping == old(shipping)
      ensures Valid()
    {
      var phone := Trim(form.phone);
      if !(PhoneOk(phone) && otherFieldsValid) {
        return false;
      }
      shipping := Some(CaptureShipping(form));
      step := Payment;
      advanced := true;
    }

    /** Step 2's back button. */
    method BackToShipping()
      requires step == Payment
      modifies this`step
      ensures step == Shipping
      ensures Valid()
    {
      step := Shipping;
    }

    /** Step 2's continue button: without a checked payment option nothing changes. */
    method ContinueToReview(selected: Option<string>) returns (advanced: bool)
      requires step == Payment && Valid()
      modifies this`step, this`paymentMethod
      ensures advanced <==> selected.Some?
      ensures advanced ==> step == Review && paymentMethod == selected.value
      ensures !advanced ==> step == Payment && paymentMethod == old(paymentMethod)
      ensures Valid()
    {
      if selected.None? {
        return false;
      }
      paymentMethod := selected.value;
      step := Review;
      advanced := true;
    }

    /** Step 3's back button. */
    method BackToPayment()
      requires step == Review && Valid()
      modifies this`step
      ensures step == Payment
      ensures Valid()
    {
      step := Payment;
    }

    /** `placeOrder`: builds the order from the stored cart and session, submits it (its outcome is
        `result`), and on acceptance removes the cart and shows the confirmation; on failure only the
        button is enabled again. */
    method PlaceOrder(store: LocalStorage, orderDate: string, idClock: nat, emailClock: nat, result: SubmitResult)
      returns (order: OrderPayload)
      requires step == Review && !placeDisabled && Valid()
      modifies this`step, this`placeDisabled, this`confirmed, store`cart
      ensures order == BuildOrder(old(store.cart), store.currentUser, shipping.value, paymentMethod,
                                  finalTotalAmount, orderDate, idClock, emailClock)
      ensures result.Accepted? ==> store.cart == [] && step == Confirmation && placeDisabled && confirmed == Some(result.reply)
      ensures result.Failed? ==> store.cart == old(store.cart) && step == Review && !placeDisabled && confirmed == old(confirmed)
      ensures Valid()
    {
      placeDisabled := true;
      order := BuildOrder(store.cart, store.currentUser, shipping.value, paymentMethod,
                          finalTotalAmount, orderDate, idClock, emailClock);
      match result
      case Accepted(reply) =>
        store.cart := [];
        confirmed := Some(reply);
        step := Confirmation;
      case Failed(_) =>
        placeDisabled := false;
    }
  }
}
