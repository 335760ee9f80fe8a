/**
 * The two decisions of the checkout flow that do not depend on the network:
 * whether the form lets a payment request go out, and what it carries
 * (Script.js, processCheckout); and whether a verification reply confirms the
 * payment, which is what clears the cart (Script.js, handlePaymentSuccess;
 * that decision is the contract of ShoppingCart.HandlePaymentSuccess).
 */
module Checkout {
  import opened Outcomes
  import opened LineItems
  import opened Pricing

  datatype CheckoutForm = CheckoutForm(email: string, phone: string, address: string, city: string, postalCode: string)

  datatype OrderMetadata = OrderMetadata(orderId: string, items: seq<Item>, shippingAddress: string, phone: string)

  /** The body posted to the payment initialisation endpoint. */
  datatype PaymentRequest = PaymentRequest(email: string, amount: real, metadata: OrderMetadata)

  datatype CheckoutError = MissingRequiredFields

  /** The reply of the verification endpoint: `status` and `data.status`. */
  datatype VerifyReply = VerifyReply(status: bool, payStatus: string)

  function DigitChar(d: nat): char
    requires d < 10
  {
    ('0' as int + d) as char
  }

  /** The number a string of decimal digits spells. */
  function DigitsValue(s: string): nat
    requires forall i :: 0 <= i < |s| ==> '0' <= s[i] <= '9'
  {
    if s == [] then 0 else DigitsValue(s[..|s| - 1]) * 10 + (s[|s| - 1] as int - '0' as int)
  }

  /**
   * The decimal digits of `n`, as string concatenation writes a number: they
   * spell `n`, and there is no leading zero.
   */
  function DecimalDigits(n: nat): (r: string)
    ensures |r| >= 1
    ensures forall i :: 0 <= i < |r| ==> '0' <= r[i] <= '9'
    ensures DigitsValue(r) == n
    ensures |r| == 1 || r[0] != '0'
  {
    if n < 10 then [DigitChar(n)]
    else
      var head := DecimalDigits(n / 10);
      var r := head + [DigitChar(n % 10)];
      assert r[..|r| - 1] == head;
      r
  }

  /** "BIRK" followed by the clock reading in milliseconds. */
  function OrderId(now: nat): (r: string)
    ensures |r| >= 5 && r[..4] == "BIRK"
    ensures forall i :: 4 <= i < |r| ==> '0' <= r[i] <= '9'
    ensures DigitsValue(r[4..]) == now
    ensures |r| == 5 || r[4] != '0'
  {
    var digits := DecimalDigits(now);
    assert ("BIRK" + digits)[4..] == digits;
    assert ("BIRK" + digits)[4] == digits[0];
    "BIRK" + digits
  }

  /**
   * The payment request checkout sends, or the validation error that stops it
   * before any request. `now` stands for the clock that names the order.
   */
  function CheckoutRequest(form: CheckoutForm, items: seq<Item>, now: nat): (r: Result<PaymentRequest, CheckoutError>)
    ensures r.Err? <==> form.email == "" || form.phone == "" || form.address == "" || form.city == "" || form.postalCode == ""
    ensures r.Ok? ==>
      && r.value.email == form.email
      && r.value.amount == Subtotal(items)
      && r.value.metadata.items == items
      && r.value.metadata.phone == form.phone
      && r.value.metadata.shippingAddress == form.address + ", " + form.city + ", " + form.postalCode
      && r.value.metadata.orderId == OrderId(now)
  {
    if form.email == "" || form.phone == "" || form.address == "" || form.city == "" || form.postalCode == "" then
      Err(MissingRequiredFields)
    else
      Ok(PaymentRequest(
        form.email,
        Subtotal(items),
        OrderMetadata(OrderId(now), items, form.address + ", " + form.city + ", " + form.postalCode, form.phone)))
  }

  /** An empty phone number stops checkout: no payment request is produced. */
  lemma EmptyPhoneRejected(form: CheckoutForm, items: seq<Item>, now: nat)
    requires form.phone == ""
    ensures CheckoutRequest(form, items, now) == Err(MissingRequiredFields)
  {
  }

  /**
   * The amount charged is the bare subtotal: on a non-empty order it falls
   * short of the total the summary panel shows by the shipping fee and tax.
   */
  lemma ChargedAmountBelowShownTotal(form: CheckoutForm, items: seq<Item>, now: nat)
    requires form.email != "" && form.phone != "" && form.address != "" && form.city != "" && form.postalCode != ""
    requires Subtotal(items) > 0.0
    ensures var r := CheckoutRequest(form, items, now);
      && r.Ok?
      && r.value.amount == CartSummary(items).total - ShippingFee - CartSummary(items).tax
      && r.value.amount < CartSummary(items).total
  {
  }
}
