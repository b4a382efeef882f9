/** The checkout page: the total shown, the coupon button, and the order button's
    required fields. The cart's contents and subtotal come from a cart context that is
    not part of this model; the order itself is only written to the console, so placing
    it sends nothing anywhere. */
module Payment {
  import Forms

  const ShippingFee := 0
  const CouponDiscount := 50000
  const FieldsMissing := "Vui lòng điền đầy đủ thông tin!"

  /** `total = subtotal - discount + shippingFee`, with nothing to keep it from going
      below zero. */
  function Total(subtotal: int, discount: int): (t: int)
    ensures t == subtotal - discount
  {
    subtotal - discount + ShippingFee
  }

  /** A line of the cart, as far as this page is concerned. */
  datatype CartItem = CartItem(productId: string, size: string, quantity: int)

  const EmptyForm: Forms.Fields := map[
    "email" := "", "fullName" := "", "phone" := "", "address" := "",
    "city" := "", "district" := "", "ward" := "", "note" := ""]

  datatype View = View(form: Forms.Fields, couponCode: string, discount: int, cart: seq<CartItem>)

  /** `handleApplyCoupon`: any non-empty code is accepted. */
  function ApplyCoupon(v: View): View {
    if v.couponCode != "" then v.(discount := CouponDiscount) else v
  }

  /** The order button's check. */
  predicate Complete(form: Forms.Fields) {
    Forms.Get(form, "email") != "" && Forms.Get(form, "fullName") != ""
    && Forms.Get(form, "phone") != "" && Forms.Get(form, "address") != ""
  }

  /** `handleSubmit`: refused, with the cart kept, unless the four fields are filled; then
      the cart is cleared. */
  function PlaceOrder(v: View): View {
    if Complete(v.form) then v.(cart := []) else v
  }

  datatype Screen = EmptyCart | Checkout

  /** What the page renders. */
  function ScreenOf(v: View): (s: Screen)
    ensures s == EmptyCart <==> v.cart == []
  {
    if |v.cart| == 0 then EmptyCart else Checkout
  }

  /** The discount is only ever 0 or the coupon's amount. */
  predicate DiscountValid(v: View) {
    v.discount == 0 || v.discount == CouponDiscount
  }

  class PaymentPage {
    var form: Forms.Fields
    var couponCode: string
    var discount: int
    var cart: seq<CartItem>

    function Current(): View
      reads this
    {
      View(form, couponCode, discount, cart)
    }

    constructor (items: seq<CartItem>)
      ensures Current() == View(EmptyForm, "", 0, items)
      ensures DiscountValid(Current())
    {
      form := EmptyForm;
      couponCode := "";
      discount := 0;
      cart := items;
    }

    method InputChange(name: string, value: string)
      modifies this
      ensures Current() == old(Current()).(form := Forms.Edit(old(form), name, value))
    {
      form := form[name := value];
    }

    method CouponChange(code: string)
      modifies this
      ensures Current() == old(Current()).(couponCode := code)
    {
      couponCode := code;
    }

    method ApplyCouponClick()
      modifies this
      ensures Current() == ApplyCoupon(old(Current()))
    {
      if couponCode != "" {
        discount := CouponDiscount;
      }
    }

    /** Returns whether the order was placed (and the page moves to the home page). */
    method Submit() returns (placed: bool)
      modifies this
      ensures Current() == PlaceOrder(old(Current()))
      ensures placed <==> Complete(old(form))
    {
      var f := form;
      if Forms.Get(f, "email") == "" || Forms.Get(f, "fullName") == ""
         || Forms.Get(f, "phone") == "" || Forms.Get(f, "address") == "" {
        return false;
      }
      cart := [];
      placed := true;
    }
  }

  // ------------------------------------------------------------ lemmas

  /** Nothing clamps the total: once a coupon is applied, the amount shown is negative
      exactly when the subtotal is below the coupon's 50000. */
  lemma TotalCanBeNegative(subtotal: int, v: View)
    requires v.couponCode != ""
    ensures Total(subtotal, ApplyCoupon(v).discount) < 0 <==> subtotal < CouponDiscount
  {
  }

  /** A non-empty code sets the discount to 50000 whatever it was, an empty one changes
      nothing, and applying twice is the same as once. */
  lemma CouponLaws(v: View)
    ensures v.couponCode != "" ==> ApplyCoupon(v).discount == CouponDiscount
    ensures v.couponCode == "" ==> ApplyCoupon(v) == v
    ensures ApplyCoupon(ApplyCoupon(v)) == ApplyCoupon(v)
    ensures ApplyCoupon(v).cart == v.cart && ApplyCoupon(v).form == v.form
  {
  }

  /** Every step of the page keeps the discount at 0 or the coupon's amount. */
  lemma DiscountStaysValid(v: View, name: string, value: string, code: string)
    requires DiscountValid(v)
    ensures DiscountValid(ApplyCoupon(v))
    ensures DiscountValid(PlaceOrder(v))
    ensures DiscountValid(v.(form := Forms.Edit(v.form, name, value)))
    ensures DiscountValid(v.(couponCode := code))
  {
  }

  /** So the total is the subtotal or 50000 less. */
  lemma TotalOfValidDiscount(v: View, subtotal: int)
    requires DiscountValid(v)
    ensures Total(subtotal, v.discount) == subtotal || Total(subtotal, v.discount) == subtotal - 50000
  {
  }

  /** An order with a missing email, name, phone or address is refused and the cart kept;
      a complete one clears the cart, so the page then shows the empty state. */
  lemma PlaceOrderLaws(v: View)
    ensures !Complete(v.form) ==> PlaceOrder(v) == v
    ensures Complete(v.form) ==> PlaceOrder(v).cart == [] && ScreenOf(PlaceOrder(v)) == EmptyCart
    ensures PlaceOrder(v).form == v.form && PlaceOrder(v).discount == v.discount
  {
  }

  /** The fresh form is never complete. */
  lemma FreshFormIncomplete()
    ensures !Complete(EmptyForm)
  {
    assert Forms.Get(EmptyForm, "email") == "";
  }
}
