/**
 * The checkout page (app/order/page.tsx): the delivery-details form, the
 * totals shown from the cart, and `handlePlaceOrder`, which validates, writes
 * one order document and clears the cart only once the write succeeded.
 *
 * The cart manager is not part of this model: its `items` and
 * `getCartTotal()` are inputs, and `clearCart()` empties `items`. The store's
 * `orders` collection is a sequence; whether the write succeeds, the id the
 * store gives the new document, the clock and the signed-in user's id are
 * parameters.
 */
module Checkout {
  import opened Common

  datatype CustomerDetails = CustomerDetails(
    fullName: string,
    phoneNumber: string,
    emailAddress: string,
    deliveryAddress: string,
    specialInstructions: string)

  /** The form as the page first shows it. */
  const EmptyDetails := CustomerDetails("", "", "", "", "")

  /** The field names the form's inputs pass to `handleInputChange`. */
  datatype Field = FullName | PhoneNumber | EmailAddress | DeliveryAddress | SpecialInstructions

  function Get(d: CustomerDetails, f: Field): string
  {
    match f
    case FullName => d.fullName
    case PhoneNumber => d.phoneNumber
    case EmailAddress => d.emailAddress
    case DeliveryAddress => d.deliveryAddress
    case SpecialInstructions => d.specialInstructions
  }

  /** `{ ...prev, [field]: value }`: the named field becomes `value` and the
      other four keep their values. */
  function SetField(d: CustomerDetails, f: Field, value: string): (r: CustomerDetails)
    ensures Get(r, f) == value
    ensures forall g :: g != f ==> Get(r, g) == Get(d, g)
  {
    match f
    case FullName => d.(fullName := value)
    case PhoneNumber => d.(phoneNumber := value)
    case EmailAddress => d.(emailAddress := value)
    case DeliveryAddress => d.(deliveryAddress := value)
    case SpecialInstructions => d.(specialInstructions := value)
  }

  /** Every field but the special instructions must be filled in. */
  predicate Required(f: Field)
  {
    f != SpecialInstructions
  }

  /** A cart line as the cart manager exposes it; only the fields this page
      reads are kept. */
  datatype CartItem = CartItem(id: string, name: string, price: real, quantity: int)

  /** One entry of the order's `items` array. */
  datatype OrderItem = OrderItem(id: string, name: string, price: real, quantity: int)

  datatype Order = Order(
    customerDetails: CustomerDetails,
    items: seq<OrderItem>,
    subtotal: real,
    tax: real,
    total: real,
    status: string,
    createdAt: int,
    userId: Option<string>)

  /** The fixed sales-tax rate, 8%. */
  const TaxRate: real := 0.08

  /** The tax on a subtotal: never negative and never more than the
      subtotal itself, for a non-negative subtotal. */
  function Tax(subtotal: real): (tax: real)
    ensures subtotal >= 0.0 ==> 0.0 <= tax <= subtotal
  {
    subtotal * TaxRate
  }

  /** The amount charged: at least the subtotal, for a non-negative one. */
  function Total(subtotal: real): (total: real)
    ensures subtotal >= 0.0 ==> subtotal <= total
  {
    subtotal + Tax(subtotal)
  }

  /** Under exact arithmetic the total is 108% of the subtotal, and neither
      the tax nor the total is negative for a non-negative subtotal. */
  lemma TotalIsSubtotalPlusEightPercent(subtotal: real)
    ensures Tax(subtotal) == 0.08 * subtotal
    ensures Total(subtotal) == 1.08 * subtotal
    ensures subtotal >= 0.0 ==> 0.0 <= Tax(subtotal) <= Total(subtotal)
  {
  }

  /** `items.map(item => ({ id, name, price, quantity }))`. */
  function OrderItems(items: seq<CartItem>): (r: seq<OrderItem>)
    ensures |r| == |items|
    ensures forall i :: 0 <= i < |items| ==>
      r[i] == OrderItem(items[i].id, items[i].name, items[i].price, items[i].quantity)
  {
    if items == [] then []
    else
      var last := items[|items| - 1];
      OrderItems(items[..|items| - 1]) + [OrderItem(last.id, last.name, last.price, last.quantity)]
  }

  /** The order document written by a checkout. */
  function BuildOrder(details: CustomerDetails, items: seq<CartItem>, subtotal: real, now: int, userId: Option<string>): (o: Order)
    ensures o.customerDetails == details && o.userId == userId && o.createdAt == now
    ensures o.items == OrderItems(items)
    ensures o.subtotal == subtotal && o.total == o.subtotal + o.tax && o.total == 1.08 * subtotal
    ensures o.status == "pending"
  {
    Order(details, OrderItems(items), subtotal, Tax(subtotal), Total(subtotal), "pending", now, userId)
  }

  /** Why `handlePlaceOrder` returns before writing. */
  datatype Rejection = MissingFields | EmptyCart

  /** Lines 47-55: the field check runs first, then the cart check. */
  function Validate(details: CustomerDetails, items: seq<CartItem>): (r: Option<Rejection>)
    ensures r == Some(MissingFields) <==> exists f :: Required(f) && Get(details, f) == ""
    ensures r == Some(EmptyCart) <==> (forall f :: Required(f) ==> Get(details, f) != "") && items == []
    ensures r == None <==> (forall f :: Required(f) ==> Get(details, f) != "") && items != []
  {
    if details.fullName == "" || details.phoneNumber == "" || details.emailAddress == "" || details.deliveryAddress == "" then
      assert Required(FullName) && Required(PhoneNumber) && Required(EmailAddress) && Required(DeliveryAddress);
      Some(MissingFields)
    else if |items| == 0 then Some(EmptyCart)
    else None
  }

  /** The special instructions may stay empty: changing them never changes
      the validation verdict. */
  lemma SpecialInstructionsOptional(details: CustomerDetails, items: seq<CartItem>, value: string)
    ensures Validate(SetField(details, SpecialInstructions, value), items) == Validate(details, items)
  {
  }

  /** Line 254: the Place Order button is disabled while an order is being
      placed or when the cart is empty. */
  predicate PlaceOrderDisabled(isPlacingOrder: bool, items: seq<CartItem>)
    // no second click while a write is pending
    ensures isPlacingOrder ==> PlaceOrderDisabled(isPlacingOrder, items)
    // no click at all on an empty cart
    ensures items == [] ==> PlaceOrderDisabled(isPlacingOrder, items)
  {
    isPlacingOrder || |items| == 0
  }

  /** A click on the enabled button is never rejected for an empty cart. */
  lemma EnabledButtonHasItems(isPlacingOrder: bool, details: CustomerDetails, items: seq<CartItem>)
    requires !PlaceOrderDisabled(isPlacingOrder, items)
    ensures Validate(details, items) != Some(EmptyCart)
  {
  }

  /** How `handlePlaceOrder` ends: an early return with an alert, a
      successful write followed by navigation to the confirmation page, or
      a write error reported in an alert. */
  datatype PlaceOrderResult = Rejected(reason: Rejection) | Placed(orderId: string) | WriteFailed

  /** The alert the page shows, if any. */
  function AlertText(r: PlaceOrderResult): (text: Option<string>)
    ensures text.None? <==> r.Placed?
  {
    match r
    case Rejected(MissingFields) => Some("Please fill in all required fields")
    case Rejected(EmptyCart) => Some("Your cart is empty")
    case Placed(_) => None
    case WriteFailed => Some("Error placing order. Please try again.")
  }

  /** The page state `handlePlaceOrder` reads and writes, together with the
      cart's items and the store's orders collection. */
  datatype PageState = PageState(
    details: CustomerDetails,
    isPlacingOrder: bool,
    items: seq<CartItem>,
    orders: seq<Order>)

  /** `handlePlaceOrder` on values: `writeSucceeds` says whether `addDoc`
      resolves, with the new document's id `newId`. */
  function PlaceOrder(s: PageState, subtotal: real, userId: Option<string>, now: int, writeSucceeds: bool, newId: string)
    : (r: (PageState, PlaceOrderResult))
    // the form itself is never changed by placing an order
    ensures r.0.details == s.details
    // a rejected request writes nothing and changes nothing
    ensures Validate(s.details, s.items).Some? ==>
      r.1 == Rejected(Validate(s.details, s.items).value) && r.0 == s
    // an attempted write always ends with the button released
    ensures Validate(s.details, s.items).None? ==> !r.0.isPlacingOrder
    // the cart is cleared exactly when the write succeeded
    ensures r.1.Placed? <==> Validate(s.details, s.items).None? && writeSucceeds
    ensures r.1.Placed? ==>
      r.1.orderId == newId && r.0.items == [] &&
      r.0.orders == s.orders + [BuildOrder(s.details, s.items, subtotal, now, userId)]
    ensures !r.1.Placed? ==> r.0.items == s.items && r.0.orders == s.orders
    // a write that fails is reported as such, not as a rejection
    ensures Validate(s.details, s.items).None? && !writeSucceeds ==> r.1 == WriteFailed
  {
    match Validate(s.details, s.items)
    case Some(why) => (s, Rejected(why))
    case None =>
      if writeSucceeds then
        (PageState(s.details, false, [], s.orders + [BuildOrder(s.details, s.items, subtotal, now, userId)]), Placed(newId))
      else
        (s.(isPlacingOrder := false), WriteFailed)
  }

  /** A request with an empty required field is rejected for that reason,
      even when the cart is empty too. */
  lemma FieldCheckFirst(s: PageState, subtotal: real, userId: Option<string>, now: int, writeSucceeds: bool, newId: string, f: Field)
    requires Required(f) && Get(s.details, f) == ""
    ensures PlaceOrder(s, subtotal, userId, now, writeSucceeds, newId) == (s, Rejected(MissingFields))
  {
  }

  /** After a failed write the customer can retry: the same request against
      the unchanged state, now succeeding, places the same order. */
  lemma RetryAfterFailure(s: PageState, subtotal: real, userId: Option<string>, now: int, newId: string)
    requires Validate(s.details, s.items).None?
    ensures var (failed, _) := PlaceOrder(s, subtotal, userId, now, false, newId);
      PlaceOrder(failed, subtotal, userId, now, true, newId).0.orders
        == s.orders + [BuildOrder(s.details, s.items, subtotal, now, userId)]
  {
  }

  /** The checkout page. `items` stands for the cart manager's items and
      `orders` for the store's orders collection. */
  class OrderPage {
    var details: CustomerDetails
    var isPlacingOrder: bool
    var items: seq<CartItem>
    var orders: seq<Order>

    constructor (items: seq<CartItem>, orders: seq<Order>)
      ensures details == EmptyDetails && !isPlacingOrder
      ensures this.items == items && this.orders == orders
    {
      details := EmptyDetails;
      isPlacingOrder := false;
      this.items := items;
      this.orders := orders;
    }

    function State(): PageState
      reads this
    {
      PageState(details, isPlacingOrder, items, orders)
    }

    /** `handleInputChange(field, value)`. */
    method HandleInputChange(field: Field, value: string)
      modifies this`details
      ensures details == SetField(old(details), field, value)
    {
      details := SetField(details, field, value);
    }

    /** `handlePlaceOrder()`: the totals are `subtotal` (from
        `getCartTotal()`), `Tax(subtotal)` and `Total(subtotal)`. */
    method HandlePlaceOrder(subtotal: real, userId: Option<string>, now: int, writeSucceeds: bool, newId: string)
      returns (result: PlaceOrderResult)
      modifies this
      ensures (State(), result) == PlaceOrder(old(State()), subtotal, userId, now, writeSucceeds, newId)
    {
      if details.fullName == "" || details.phoneNumber == "" || details.emailAddress == "" || details.deliveryAddress == "" {
        return Rejected(MissingFields);
      }
      if |items| == 0 {
        return Rejected(EmptyCart);
      }
      isPlacingOrder := true;
      var order := BuildOrder(details, items, subtotal, now, userId);
      if writeSucceeds {
        orders := orders + [order];
        items := [];
        result := Placed(newId);
      } else {
        result := WriteFailed;
      }
      isPlacingOrder := false;
    }
  }
}
