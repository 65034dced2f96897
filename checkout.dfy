/**
 * The checkout page: the form's validation bounds and the order object it
 * builds from the client cart on submit.
 */
module Checkout {
  import opened Wrappers
  import opened Schema
  import opened CartContext

  /** Orders of at least this many cents ship free. */
  const FreeShippingThreshold: int := 5000
  /** The shipping fee, in cents, below the threshold. */
  const ShippingFee: int := 499

  /** The checkout form's fields as the user typed them. */
  datatype CheckoutForm = CheckoutForm(
    firstName: string, lastName: string, email: string, phone: string,
    address1: string, address2: Option<string>, city: string, state: string,
    postalCode: string, country: string, sameAsBilling: bool,
    cardName: string, cardNumber: string, expMonth: string, expYear: string, cvv: string)

  /**
   * The form's initial values: everything empty except the country and the
   * same-address box. Whatever counts as an email, they do not validate, so an
   * order always comes from typed values.
   */
  function DefaultForm(): (r: CheckoutForm)
    ensures r.country == "US" && r.sameAsBilling
    ensures forall isEmail: string -> bool :: !FormValid(r, isEmail)
  {
    CheckoutForm("", "", "", "", "", Some(""), "", "", "", "US", true, "", "", "", "", "")
  }

  /** The address fields meet the form's minimum lengths. */
  predicate AddressValid(a: Address) {
    && |a.firstName| >= 2 && |a.lastName| >= 2
    && |a.address1| >= 5
    && |a.city| >= 2 && |a.state| >= 2
    && |a.postalCode| >= 5 && |a.country| >= 2
  }

  /**
   * `checkoutSchema`: the minimum (and, for the card number and CVV, maximum)
   * lengths, and a well-formed email, which `isEmail` decides. A valid form
   * yields a valid shipping address, and its card number is longer than its CVV.
   */
  predicate FormValid(f: CheckoutForm, isEmail: string -> bool)
    ensures FormValid(f, isEmail) ==> isEmail(f.email) && AddressValid(ShippingAddress(f))
    ensures FormValid(f, isEmail) ==> |f.cardNumber| > |f.cvv| && |f.phone| >= 10
  {
    && |f.firstName| >= 2 && |f.lastName| >= 2
    && isEmail(f.email)
    && |f.phone| >= 10
    && |f.address1| >= 5
    && |f.city| >= 2 && |f.state| >= 2
    && |f.postalCode| >= 5 && |f.country| >= 2
    && |f.cardName| >= 2
    && 16 <= |f.cardNumber| <= 19
    && |f.expMonth| >= 1 && |f.expYear| >= 4
    && 3 <= |f.cvv| <= 4
  }

  /** Shipping as shown on the page: free from the threshold up, the flat fee below it. */
  function Shipping(cartTotal: int): (r: int)
    ensures r == 0 || r == ShippingFee
    ensures r == 0 <==> cartTotal >= FreeShippingThreshold
  {
    if cartTotal >= FreeShippingThreshold then 0 else ShippingFee
  }

  /** `cartTotal >= 5000 ? cartTotal : cartTotal + 499`: the order's total, also the total the page shows. */
  function OrderTotal(cartTotal: int): (r: int)
    ensures r == cartTotal + Shipping(cartTotal)
  {
    if cartTotal >= FreeShippingThreshold then cartTotal else cartTotal + ShippingFee
  }

  /** The threshold is inclusive: 4999 cents pay 5498, 5000 cents pay 5000, so the larger cart costs less. */
  lemma ThresholdExamples()
    ensures OrderTotal(4999) == 5498 && OrderTotal(5000) == 5000
    ensures OrderTotal(5000) < OrderTotal(4999)
  {
  }

  /** The order lines: each cart item with its unit price and product name frozen at checkout. */
  function Snapshot(items: seq<CartItem>): (r: seq<OrderLine>)
    ensures |r| == |items|
    ensures forall i :: 0 <= i < |r| ==>
              r[i].productId == items[i].productId && r[i].quantity == items[i].quantity &&
              r[i].price == UnitPrice(items[i].product) && r[i].name == items[i].product.name
  {
    if |items| == 0 then []
    else [OrderLine(items[0].productId, items[0].quantity, UnitPrice(items[0].product), items[0].product.name)]
         + Snapshot(items[1..])
  }

  /** The sum of price times quantity over order lines. */
  function LinesTotal(lines: seq<OrderLine>): int {
    if |lines| == 0 then 0 else lines[0].price * lines[0].quantity + LinesTotal(lines[1..])
  }

  /** The frozen lines add up to the cart total the order was priced from. */
  lemma {:induction false} SnapshotTotal(items: seq<CartItem>)
    ensures LinesTotal(Snapshot(items)) == Total(items)
  {
    if |items| > 0 {
      SnapshotTotal(items[1..]);
      assert Snapshot(items)[1..] == Snapshot(items[1..]);
    }
  }

  /** The shipping address, field for field from the form. */
  function ShippingAddress(f: CheckoutForm): (r: Address)
    ensures r.firstName == f.firstName && r.lastName == f.lastName
    ensures r.address1 == f.address1 && r.address2 == f.address2
    ensures r.city == f.city && r.state == f.state
    ensures r.postalCode == f.postalCode && r.country == f.country
  {
    Address(f.firstName, f.lastName, f.address1, f.address2, f.city, f.state, f.postalCode, f.country)
  }

  /** `data.sameAsBilling ? null : { ... }`: no separate billing address when the box is ticked. */
  function BillingAddress(f: CheckoutForm): (r: Option<Address>)
    ensures r.None? <==> f.sameAsBilling
    ensures r.Some? ==> r.value == ShippingAddress(f)
  {
    if f.sameAsBilling then None else Some(ShippingAddress(f))
  }

  /**
   * The order `onSubmit` posts, or None when the page redirects to the cart
   * because there is no cart or it has no items.
   */
  function BuildOrder(cart: Option<ClientCart>, f: CheckoutForm): (r: Option<InsertOrder>)
    ensures r.None? <==> cart.None? || cart.value.items == []
    ensures r.Some? ==>
              r.value.userId == None && r.value.status == Some(Pending) &&
              r.value.total == OrderTotal(CartTotal(cart)) &&
              r.value.items == Snapshot(cart.value.items) &&
              r.value.shippingAddress == ShippingAddress(f) &&
              r.value.billingAddress == BillingAddress(f)
  {
    if cart.None? || cart.value.items == [] then None
    else
      Some(InsertOrder(None, Some(Pending), OrderTotal(CartTotal(cart)), Snapshot(cart.value.items),
                       ShippingAddress(f), BillingAddress(f)))
  }

  /** What an order charges beyond its lines is exactly the shipping of its cart total. */
  lemma OrderChargesLinesPlusShipping(cart: Option<ClientCart>, f: CheckoutForm)
    requires BuildOrder(cart, f).Some?
    ensures BuildOrder(cart, f).value.total ==
            LinesTotal(BuildOrder(cart, f).value.items) + Shipping(LinesTotal(BuildOrder(cart, f).value.items))
  {
    SnapshotTotal(cart.value.items);
  }

  /**
   * `onSubmit` runs only once the form validates, so every address an order
   * carries meets the form's minimum lengths.
   */
  lemma SubmittedAddressesValid(cart: Option<ClientCart>, f: CheckoutForm, isEmail: string -> bool)
    requires FormValid(f, isEmail) && BuildOrder(cart, f).Some?
    ensures AddressValid(BuildOrder(cart, f).value.shippingAddress)
    ensures BuildOrder(cart, f).value.billingAddress.Some? ==> AddressValid(BuildOrder(cart, f).value.billingAddress.value)
  {
  }
}
