/** src/components/pages/Checkout.jsx: the price of the cart, the form and its
    required fields, and the order the page sends to `createOrder`. */
module Checkout {
  import opened Wrappers
  import opened Text
  import opened Json
  import opened Seqs
  import opened Entities
  import opened Cart
  import OrderService
  import opened FormErrors

  // ---------------------------------------------------------------------------
  // Pricing
  // ---------------------------------------------------------------------------

  /** Shipping is free for a subtotal strictly above this. */
  const FreeShippingAbove: real := 100.0
  const FlatShipping: real := 9.99
  const TaxRate: real := 0.08

  function Shipping(subtotal: real): (s: real)
    ensures s == 0.0 <==> subtotal > FreeShippingAbove
    ensures s == 0.0 || s == FlatShipping
  {
    if subtotal > FreeShippingAbove then 0.0 else FlatShipping
  }

  function Tax(subtotal: real): real
  {
    subtotal * TaxRate
  }

  function TotalFor(subtotal: real): real
  {
    subtotal + Shipping(subtotal) + Tax(subtotal)
  }

  datatype Totals = Totals(subtotal: real, shipping: real, tax: real, total: real)

  /** The summary column: subtotal over the cart, shipping, 8% tax, and their sum. */
  function Price(cart: seq<CartItem>): (t: Totals)
    ensures t.subtotal == Subtotal(cart)
    ensures t.total == t.subtotal + t.shipping + t.tax
    ensures t.shipping == 0.0 <==> t.subtotal > FreeShippingAbove
  {
    var subtotal := Subtotal(cart);
    Totals(subtotal, Shipping(subtotal), Tax(subtotal), TotalFor(subtotal))
  }

  /** For a subtotal of at least 0 the total is the subtotal with tax, plus at
      most the flat shipping. */
  lemma TotalBounds(subtotal: real)
    requires subtotal >= 0.0
    ensures subtotal + Tax(subtotal) <= TotalFor(subtotal) <= subtotal + Tax(subtotal) + FlatShipping
    ensures subtotal <= FreeShippingAbove ==> TotalFor(subtotal) == subtotal + Tax(subtotal) + FlatShipping
  {
  }

  /** A subtotal of exactly 100 pays shipping, so 101 in goods costs less than 100. */
  lemma FreeShippingCliff()
    ensures Shipping(100.0) == FlatShipping && TotalFor(100.0) == 117.99
    ensures Shipping(101.0) == 0.0 && TotalFor(101.0) == 109.08
  {
  }

  /** Two of a 50.00 product and one of a 10.00 product: 110 / free / 8.80 / 118.80. */
  lemma ExampleFreeShipping(a: Product, b: Product)
    requires a.price == 50.0 && b.price == 10.0
    ensures Price([CartItem(a, 2), CartItem(b, 1)]) == Totals(110.0, 0.0, 8.8, 118.8)
  {
    var cart := [CartItem(a, 2), CartItem(b, 1)];
    assert cart[1..] == [CartItem(b, 1)] && cart[1..][1..] == [];
    assert SumReal(cart[1..], LineTotal) == LineTotal(cart[1]) + SumReal([], LineTotal);
    assert Subtotal(cart) == LineTotal(cart[0]) + SumReal(cart[1..], LineTotal);
  }

  /** One 20.00 product: 20 / 9.99 / 1.60 / 31.59. */
  lemma ExampleFlatShipping(a: Product)
    requires a.price == 20.0
    ensures Price([CartItem(a, 1)]) == Totals(20.0, 9.99, 1.6, 31.59)
  {
    var cart := [CartItem(a, 1)];
    assert cart[1..] == [];
    assert Subtotal(cart) == LineTotal(cart[0]) + SumReal([], LineTotal);
  }

  // ---------------------------------------------------------------------------
  // The form
  // ---------------------------------------------------------------------------

  /** The fields of the form state. */
  datatype Field =
    | Name | Email | Phone
    | Street | City | State | Zip | Country
    | CardNumber | Expiry | Cvv | CardName

  /** The field's key in `formData`. */
  function Key(f: Field): string
  {
    match f
    case Name => "customerName"
    case Email => "customerEmail"
    case Phone => "phone"
    case Street => "address"
    case City => "city"
    case State => "state"
    case Zip => "zipCode"
    case Country => "country"
    case CardNumber => "cardNumber"
    case Expiry => "expiryDate"
    case Cvv => "cvv"
    case CardName => "cardName"
  }

  /** `validateForm` checks eleven fields; `country` is not one of them. */
  predicate Required(f: Field)
  {
    f != Country
  }

  function Message(f: Field): string
  {
    match f
    case Name => "Name is required"
    case Email => "Email is required"
    case Phone => "Phone is required"
    case Street => "Address is required"
    case City => "City is required"
    case State => "State is required"
    case Zip => "ZIP code is required"
    case Country => ""
    case CardNumber => "Card number is required"
    case Expiry => "Expiry date is required"
    case Cvv => "CVV is required"
    case CardName => "Cardholder name is required"
  }

  type Form = map<Field, string>

  /** The form state the page starts with: all empty but the country. */
  const InitialForm: Form := map[
    Name := "", Email := "", Phone := "",
    Street := "", City := "", State := "", Zip := "",
    Country := "United States",
    CardNumber := "", Expiry := "", Cvv := "", CardName := ""]

  /** The form holds every field. */
  predicate HasAllFields(form: Form)
  {
    forall f: Field :: f in form
  }

  lemma InitialFormHasAllFields()
    ensures HasAllFields(InitialForm)
  {
    forall f: Field ensures f in InitialForm {
      match f
      case Name => case Email => case Phone =>
      case Street => case City => case State => case Zip => case Country =>
      case CardNumber => case Expiry => case Cvv => case CardName =>
    }
  }

  /** Every required field has something other than white space. */
  predicate Complete(form: Form)
    requires HasAllFields(form)
  {
    forall f: Field :: Required(f) ==> !IsBlank(form[f])
  }

  /** The required fields left blank: the keys `validateForm` gives errors. */
  ghost function Missing(form: Form): set<Field>
  {
    set f | f in form.Keys && Required(f) && IsBlank(form[f])
  }

  /** A form is complete exactly when no required field is missing, and a
      field is missing exactly when it is required and blank. */
  lemma CompleteIffNothingMissing(form: Form)
    requires HasAllFields(form)
    ensures Complete(form) <==> Missing(form) == {}
    ensures forall f :: f in Missing(form) <==> Required(f) && IsBlank(form[f])
  {
    if !Complete(form) {
      var f :| Required(f) && IsBlank(form[f]);
      assert f in Missing(form);
    }
  }

  /** `errors` holds a message for exactly the fields among `checked` that are
      in `missing`, and each message is its field's. */
  ghost predicate ErrorsOf(errors: map<Field, string>, missing: set<Field>, checked: set<Field>)
  {
    (forall f :: f in errors <==> f in checked && f in missing) &&
    (forall f :: f in errors ==> errors[f] == Message(f))
  }

  /** `validateForm`'s `newErrors`: one entry per missing field, keyed by the
      field and holding its message; valid iff there is none. */
  method CollectErrors(form: Form) returns (newErrors: map<Field, string>, valid: bool)
    requires HasAllFields(form)
    ensures newErrors.Keys == Missing(form)
    ensures forall f :: f in newErrors ==> newErrors[f] == Message(f)
    ensures valid <==> Missing(form) == {}
  {
    ghost var missing := Missing(form);
    newErrors := CheckCustomer(form, map[], missing);
    newErrors := CheckAddress(form, newErrors, missing);
    newErrors := CheckPayment(form, newErrors, missing);
    AllRequiredChecked(newErrors, missing);
    // `Object.keys(newErrors).length === 0`
    valid := newErrors.Keys == {};
  }

  /** The customer information checks. */
  method CheckCustomer(form: Form, errors: map<Field, string>, ghost missing: set<Field>)
    returns (r: map<Field, string>)
    requires HasAllFields(form) && missing == Missing(form)
    requires ErrorsOf(errors, missing, {})
    ensures ErrorsOf(r, missing, {Name, Email, Phone})
  {
    r := CheckField(Name, IsBlank(form[Name]), errors, missing, {});
    r := CheckField(Email, IsBlank(form[Email]), r, missing, {Name});
    r := CheckField(Phone, IsBlank(form[Phone]), r, missing, {Name, Email});
  }

  /** The shipping address checks; the country is not required. */
  method CheckAddress(form: Form, errors: map<Field, string>, ghost missing: set<Field>)
    returns (r: map<Field, string>)
    requires HasAllFields(form) && missing == Missing(form)
    requires ErrorsOf(errors, missing, {Name, Email, Phone})
    ensures ErrorsOf(r, missing, {Name, Email, Phone, Street, City, State, Zip})
  {
    r := CheckField(Street, IsBlank(form[Street]), errors, missing, {Name, Email, Phone});
    r := CheckField(City, IsBlank(form[City]), r, missing, {Name, Email, Phone, Street});
    r := CheckField(State, IsBlank(form[State]), r, missing, {Name, Email, Phone, Street, City});
    r := CheckField(Zip, IsBlank(form[Zip]), r, missing, {Name, Email, Phone, Street, City, State});
  }

  /** The payment information checks. */
  method CheckPayment(form: Form, errors: map<Field, string>, ghost missing: set<Field>)
    returns (r: map<Field, string>)
    requires HasAllFields(form) && missing == Missing(form)
    requires ErrorsOf(errors, missing, {Name, Email, Phone, Street, City, State, Zip})
    ensures ErrorsOf(r, missing, {Name, Email, Phone, Street, City, State, Zip, CardNumber, Expiry, Cvv, CardName})
  {
    r := CheckField(CardNumber, IsBlank(form[CardNumber]), errors, missing, {Name, Email, Phone, Street, City, State, Zip});
    r := CheckField(Expiry, IsBlank(form[Expiry]), r, missing, {Name, Email, Phone, Street, City, State, Zip, CardNumber});
    r := CheckField(Cvv, IsBlank(form[Cvv]), r, missing, {Name, Email, Phone, Street, City, State, Zip, CardNumber, Expiry});
    r := CheckField(CardName, IsBlank(form[CardName]), r, missing, {Name, Email, Phone, Street, City, State, Zip, CardNumber, Expiry, Cvv});
  }

  /** Once the eleven fields are checked, every missing field has its error. */
  lemma AllRequiredChecked(errors: map<Field, string>, missing: set<Field>)
    requires forall f :: f in missing ==> Required(f)
    requires ErrorsOf(errors, missing, {Name, Email, Phone, Street, City, State, Zip, CardNumber, Expiry, Cvv, CardName})
    ensures errors.Keys == missing
  {
    forall f ensures f in errors <==> f in missing {
      match f
      case Name => case Email => case Phone =>
      case Street => case City => case State => case Zip => case Country =>
      case CardNumber => case Expiry => case Cvv => case CardName =>
    }
  }

  /** One line of `validateForm`: a blank required field gets its message. */
  method CheckField(field: Field, blank: bool, errors: map<Field, string>,
                    ghost missing: set<Field>, ghost checked: set<Field>)
    returns (r: map<Field, string>)
    requires (blank <==> field in missing) && ErrorsOf(errors, missing, checked)
    ensures ErrorsOf(r, missing, checked + {field})
  {
    r := errors;
    if blank {
      r := r[field := Message(field)];
    }
  }

  // ---------------------------------------------------------------------------
  // The order sent to createOrder
  // ---------------------------------------------------------------------------

  /** `orderData`: what the page passes to `createOrder`. */
  datatype OrderData = OrderData(
    customerName: string,
    customerEmail: string,
    items: seq<LineItem>,
    total: real,
    status: string,
    shippingAddress: Address)

  /** One cart entry as an order line. */
  function LineFor(item: CartItem): LineItem
  {
    LineItem(item.product.id, item.product.title, item.product.price, item.quantity)
  }

  function LineAmount(line: LineItem): real { line.price * line.quantity as real }

  /** `cartItems.map(...)`: one order line per cart entry, in cart order. */
  function Lines(cart: seq<CartItem>): (lines: seq<LineItem>)
    ensures |lines| == |cart|
    ensures forall i :: 0 <= i < |cart| ==> lines[i] == LineFor(cart[i])
  {
    if cart == [] then [] else [LineFor(cart[0])] + Lines(cart[1..])
  }

  function BuildOrder(form: Form, cart: seq<CartItem>): (o: OrderData)
    requires HasAllFields(form)
    ensures o.items == Lines(cart)
    ensures o.status == "pending" && o.total == Price(cart).total
    ensures o.customerName == form[Name] && o.customerEmail == form[Email]
    ensures o.shippingAddress == Address(form[Street], form[City], form[State], form[Zip], form[Country])
  {
    OrderData(
      form[Name],
      form[Email],
      Lines(cart),
      Price(cart).total,
      "pending",
      Address(form[Street], form[City], form[State], form[Zip], form[Country]))
  }

  /** The order's lines carry the cart's amount: summing price times quantity
      over the lines gives the subtotal the total was priced from. */
  lemma {:induction false} LinesCarrySubtotal(cart: seq<CartItem>)
    ensures SumReal(Lines(cart), LineAmount) == Subtotal(cart)
  {
    if cart != [] {
      LinesCarrySubtotal(cart[1..]);
      assert Lines(cart)[1..] == Lines(cart[1..]);
    }
  }

  /** The built order's total is recomputable from its own lines. */
  lemma OrderTotalFromLines(form: Form, cart: seq<CartItem>)
    requires HasAllFields(form)
    ensures BuildOrder(form, cart).total == TotalFor(SumReal(BuildOrder(form, cart).items, LineAmount))
  {
    LinesCarrySubtotal(cart);
  }

  function AddressRecord(a: Address): Record
  {
    map["address" := Str(a.address), "city" := Str(a.city), "state" := Str(a.state),
        "zipCode" := Str(a.zipCode), "country" := Str(a.country)]
  }

  function LineRecord(line: LineItem): Value
  {
    Obj(map["productId" := Num(line.productId as real), "title" := Str(line.title),
             "price" := Num(line.price), "quantity" := Num(line.quantity as real)])
  }

  /** The order as the JSON object `createOrder` receives. */
  function OrderRecord(o: OrderData): Record
  {
    map["customerName" := Str(o.customerName), "customerEmail" := Str(o.customerEmail),
        "items" := Arr(seq(|o.items|, i requires 0 <= i < |o.items| => LineRecord(o.items[i]))),
        "total" := Num(o.total), "status" := Str(o.status),
        "shippingAddress" := Obj(AddressRecord(o.shippingAddress))]
  }

  /** As written, `createOrder` throws on every order the page builds, so every
      submission of a complete form ends in "Failed to place order". */
  lemma SubmissionAsWrittenFails(form: Form, cart: seq<CartItem>, now: string)
    requires HasAllFields(form)
    ensures OrderService.CreateAsWritten(OrderRecord(BuildOrder(form, cart)), now).Err?
  {
  }

  // ---------------------------------------------------------------------------
  // The page
  // ---------------------------------------------------------------------------

  class CheckoutPage {
    var cartItems: seq<CartItem>
    var loading: bool
    var formData: Form
    var errors: map<Field, string>
    /** The "storeforge-cart" entry of local storage. */
    var storedCart: Option<seq<CartItem>>
    /** Whether the page has sent the shopper back to the store. */
    var leftForStore: bool

    ghost predicate Valid()
      reads this
    {
      HasAllFields(formData)
    }

    /** The first render: a missing or empty stored cart sends the shopper back. */
    constructor (saved: Option<seq<CartItem>>)
      ensures Valid() && formData == InitialForm && errors == map[] && !loading
      ensures storedCart == saved
      ensures leftForStore <==> saved.None? || saved.value == []
      ensures cartItems == if leftForStore then [] else saved.value
    {
      InitialFormHasAllFields();
      formData := InitialForm;
      errors := map[];
      loading := false;
      storedCart := saved;
      if saved.None? || saved.value == [] {
        cartItems := [];
        leftForStore := true;
      } else {
        cartItems := saved.value;
        leftForStore := false;
      }
    }

    /** `handleInputChange`: sets one field and clears only that field's error. */
    method HandleInputChange(field: Field, value: string)
      requires Valid()
      modifies this
      ensures Valid()
      ensures formData == old(formData)[field := value]
      ensures errors == Cleared(old(errors), field)
      ensures cartItems == old(cartItems) && storedCart == old(storedCart) && leftForStore == old(leftForStore)
      ensures loading == old(loading)
    {
      formData := formData[field := value];
      if Shows(errors, field) {
        errors := errors[field := ""];
      }
    }

    /** `handleSubmit`, with the outcome of `createOrder` as a parameter. An
        incomplete form sends nothing; otherwise the built order is sent, and the
        stored cart is removed only when the call succeeds. */
    method HandleSubmit(createOutcome: Result<Record>) returns (sent: Option<OrderData>)
      requires Valid()
      modifies this
      ensures Valid()
      ensures formData == old(formData) && cartItems == old(cartItems)
      ensures errors.Keys == Missing(formData)
      ensures forall f :: f in errors ==> errors[f] == Message(f)
      ensures Missing(formData) != {} ==>
        sent == None && loading == old(loading) && storedCart == old(storedCart) && leftForStore == old(leftForStore)
      ensures Missing(formData) == {} ==> sent == Some(BuildOrder(formData, cartItems)) && !loading
      ensures Missing(formData) == {} && createOutcome.Ok? ==> storedCart == None && leftForStore
      ensures Missing(formData) == {} && createOutcome.Err? ==> storedCart == old(storedCart) && leftForStore == old(leftForStore)
    {
      var form, cart := formData, cartItems;
      var newErrors, valid := CollectErrors(form);
      errors := newErrors;
      if !valid {
        sent := None;
        return;
      }
      // `setLoading(true)` ... `finally { setLoading(false) }`
      sent := Some(BuildOrder(form, cart));
      if createOutcome.Ok? {
        storedCart, leftForStore := None, true;
      }
      loading := false;
    }
  }
}
