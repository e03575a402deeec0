/**
 * The order form: its validation schema, default values, the derived total,
 * the order it sends, and how it reacts to the order endpoint's answer.
 */
module OrderForm {
  import opened JsValues
  import opened Decimal
  import opened Catalog
  import opened PhonePattern
  import opened OrderApi

  // ---------------------------------------------------------------------------
  // Form values and validation.

  /** The form's values; the quantity input is taken as already coerced to a number. */
  datatype FormValues = FormValues(name: string, phone: string, address: string, courier: string, quantity: int)

  datatype FormField = NameField | PhoneField | AddressField | CourierField | QuantityField

  /** The path of each field, which is also the key the server reports its errors under. */
  function FieldName(f: FormField): string {
    match f
    case NameField => "c_name"
    case PhoneField => "c_phone"
    case AddressField => "address"
    case CourierField => "courier"
    case QuantityField => "quantity"
  }

  /** The values the form starts with and returns to after a placed order. */
  const Defaults := FormValues("", "", "", "", 1)

  /** The couriers the form offers; the schema itself accepts any string. */
  const Couriers := ["steadfast", "pathao", "redx", "paperfly"]

  const NameTooShort := "Name must be at least 2 characters"
  const PhoneTooShort := "Phone number must be at least 11 digits"
  const PhoneNotMobile := "Must be a valid Bangladeshi phone number (e.g., 01712345678)"
  const AddressTooShort := "Address must be at least 5 characters"
  const QuantityTooSmall := "Quantity must be at least 1"

  /** String lengths are JavaScript lengths, counted in UTF-16 code units. */
  predicate ValidName(name: string) {
    JsLength(name) >= 2
  }

  /** The phone check: at least 11 code units, then the mobile pattern. */
  predicate ValidPhone(phone: string) {
    JsLength(phone) >= 11 && FullMatch(MobilePattern, phone)
  }

  predicate ValidAddress(address: string) {
    JsLength(address) >= 5
  }

  predicate ValidQuantity(quantity: int) {
    quantity >= 1
  }

  /** The courier is checked only for being a string, so every value passes. */
  predicate Valid(v: FormValues) {
    ValidName(v.name) && ValidPhone(v.phone) && ValidAddress(v.address) && ValidQuantity(v.quantity)
  }

  /**
   * A phone number is valid exactly when it is "01", a digit from 3 to 9 and
   * eight more digits: the minimum-length check adds nothing to the pattern.
   */
  lemma PhoneRule(phone: string)
    ensures ValidPhone(phone) <==> MobileShape(phone)
    ensures ValidPhone(phone) <==> FullMatch(MobilePattern, phone)
  {
    MobilePatternMeans(phone);
    if MobileShape(phone) {
      assert forall i :: 0 <= i < |phone| ==> !Astral(phone[i]);
    }
  }

  lemma PhoneExamples()
    ensures ValidPhone("01712345678")
    ensures !ValidPhone("01212345678")
    ensures !ValidPhone("0171234567")
  {
    PhoneRule("01712345678");
    PhoneRule("01212345678");
  }

  /**
   * The message shown under each invalid field: the first failed check of
   * that field, in the order the schema lists the checks.
   */
  function Validate(v: FormValues): (errors: map<FormField, string>)
    ensures NameField in errors <==> JsLength(v.name) < 2
    ensures NameField in errors ==> errors[NameField] == NameTooShort
    ensures AddressField in errors <==> JsLength(v.address) < 5
    ensures AddressField in errors ==> errors[AddressField] == AddressTooShort
    ensures QuantityField in errors <==> v.quantity < 1
    ensures QuantityField in errors ==> errors[QuantityField] == QuantityTooSmall
    ensures CourierField !in errors
    ensures PhoneField in errors <==> !MobileShape(v.phone)
    ensures PhoneField in errors ==>
      errors[PhoneField] == (if JsLength(v.phone) < 11 then PhoneTooShort else PhoneNotMobile)
    ensures errors == map[] <==> Valid(v)
  {
    PhoneRule(v.phone);
    map f | f in AllFields && FieldError(v, f).Some? :: FieldError(v, f).value
  }

  /** The first failed check of one field, in the order the schema lists them. */
  function FieldError(v: FormValues, f: FormField): Option<string> {
    match f
    case NameField => if ValidName(v.name) then None else Some(NameTooShort)
    case PhoneField =>
      if JsLength(v.phone) < 11 then Some(PhoneTooShort)
      else if !FullMatch(MobilePattern, v.phone) then Some(PhoneNotMobile)
      else None
    case AddressField => if ValidAddress(v.address) then None else Some(AddressTooShort)
    case CourierField => None
    case QuantityField => if ValidQuantity(v.quantity) then None else Some(QuantityTooSmall)
  }

  /**
   * Lengths count UTF-16 code units: one emoji (one character, two code
   * units) is a long enough name, and three emoji make a long enough
   * address while two do not.
   */
  lemma SurrogatePairsCountTwice()
    ensures |"\U{1F600}"| == 1 && ValidName("\U{1F600}")
    ensures |"\U{1F600}\U{1F600}"| == 2 && !ValidAddress("\U{1F600}\U{1F600}")
    ensures ValidAddress("\U{1F600}\U{1F600}\U{1F600}")
  {
  }

  /** An untouched form fails on name, phone and address, and only on those. */
  lemma DefaultsAreRejected()
    ensures Validate(Defaults).Keys == {NameField, PhoneField, AddressField}
    ensures Validate(Defaults)[PhoneField] == PhoneTooShort
    ensures forall c :: c in Couriers ==> Validate(Defaults.(courier := c)) == Validate(Defaults)
  {
  }

  // ---------------------------------------------------------------------------
  // The total and the order.

  const DeliveryCharge := 80

  /** What the customer pays on delivery: the products and the fixed delivery charge. */
  function TotalAmount(price: int, quantity: int): (total: int)
    ensures price >= 0 && quantity >= 1 ==> total >= price + DeliveryCharge
    ensures total == DeliveryCharge <==> price * quantity == 0
  {
    price * quantity + DeliveryCharge
  }

  /** Each further item adds its price to the total, on top of the one delivery charge. */
  lemma TotalGrowsByPrice(price: int, quantity: int)
    ensures TotalAmount(price, quantity + 1) == TotalAmount(price, quantity) + price
    ensures TotalAmount(price, 0) == DeliveryCharge
  {
  }

  lemma TotalExample()
    ensures TotalAmount(200, 3) == 680
  {
  }

  /**
   * The order the form sends.  The cash-on-delivery amount comes from the
   * total shown on the form, which is computed from the quantity the form
   * is watching (`watched`), while the quantity sent is the submitted one.
   */
  function BuildOrder(id: ProductId, price: int, values: FormValues, watched: int): (o: OrderData)
    ensures o.advance == None && o.discountAmount == None
    ensures o.deliveryCharge == "80" && ReadInt(o.deliveryCharge) == Some(DeliveryCharge)
    ensures o.codAmount == IntToString(TotalAmount(price, watched))
    ensures ReadInt(o.codAmount) == Some(TotalAmount(price, watched))
    ensures o.quantity == IntToString(values.quantity)
    ensures ReadInt(o.quantity) == Some(values.quantity)
    ensures o.productIds == IdText(id)
    ensures o.name == values.name && o.phone == values.phone
    ensures o.address == values.address && o.courier == values.courier
  {
    IntToStringRoundTrip(TotalAmount(price, watched));
    IntToStringRoundTrip(values.quantity);
    IntToStringRoundTrip(DeliveryCharge);
    OrderData(
      IdText(id),
      IntToString(values.quantity),
      values.phone,
      values.name,
      values.courier,
      values.address,
      None,
      IntToString(TotalAmount(price, watched)),
      None,
      IntToString(DeliveryCharge))
  }

  // ---------------------------------------------------------------------------
  // The answer to an order.

  /** `response.data?.data?.status` */
  function NestedStatus(r: Response): JsValue {
    Get(Get(r.data, "data"), "status")
  }

  /** `response.data?.data?.error` */
  function NestedError(r: Response): JsValue {
    Get(Get(r.data, "data"), "error")
  }

  datatype Verdict = FieldErrors | Placed | NotPlaced

  /**
   * The three-way reading of a response: field errors when the nested
   * status is exactly `false` and a truthy nested error is present; a placed
   * order on HTTP 200 unless the nested status is exactly `false`; a failure
   * otherwise.
   */
  function Classify(r: Response): (v: Verdict)
    ensures v == FieldErrors <==> NestedStatus(r) == Bool(false) && Truthy(NestedError(r))
    ensures v == Placed <==> r.status == 200 && NestedStatus(r) != Bool(false)
    ensures v == NotPlaced <==>
      (NestedStatus(r) != Bool(false) && r.status != 200)
      || (NestedStatus(r) == Bool(false) && !Truthy(NestedError(r)))
  {
    if NestedStatus(r) == Bool(false) && Truthy(NestedError(r)) then FieldErrors
    else if r.status == 200 && NestedStatus(r) != Bool(false) then Placed
    else NotPlaced
  }

  /** A 200 response flagged `status: false` without an error object is a failure, not a success. */
  lemma FlaggedWithoutErrorsFails()
    ensures Classify(Response(200, Obj(map["data" := Obj(map["status" := Bool(false)])]))) == NotPlaced
  {
  }

  /** A 200 response whose body has no nested status is a placed order. */
  lemma UnflaggedOkIsPlaced(body: JsValue)
    requires NestedStatus(Response(200, body)) != Bool(false)
    ensures Classify(Response(200, body)) == Placed
  {
  }

  /** `Array.isArray(errors) && errors.length > 0 ? errors[0] : nothing` */
  function FirstMessage(errors: JsValue): (r: Option<JsValue>)
    ensures r.Some? <==> errors.Arr? && errors.items != []
    ensures r.Some? ==> r.value == errors.items[0]
  {
    if errors.Arr? && errors.items != [] then Some(errors.items[0]) else None
  }

  /** The message the server reports for a form field, if its entry is a non-empty array. */
  function ServerMessage(reported: map<string, JsValue>, f: FormField): Option<JsValue> {
    if FieldName(f) in reported then FirstMessage(reported[FieldName(f)]) else None
  }

  const AllFields: set<FormField> := {NameField, PhoneField, AddressField, CourierField, QuantityField}

  /**
   * The form errors after `setError` has run for every reported entry.
   * Entries under paths that name no form field are not shown anywhere and
   * are not kept.
   */
  function ApplyServerErrors(errors: map<FormField, JsValue>, reported: map<string, JsValue>)
    : (r: map<FormField, JsValue>)
    ensures forall f :: ServerMessage(reported, f).Some? ==> f in r && r[f] == ServerMessage(reported, f).value
    ensures forall f :: ServerMessage(reported, f).None? ==> (f in r <==> f in errors)
    ensures forall f :: ServerMessage(reported, f).None? && f in errors ==> r[f] == errors[f]
  {
    map f | f in AllFields && (f in errors || ServerMessage(reported, f).Some?) ::
      if ServerMessage(reported, f).Some? then ServerMessage(reported, f).value else errors[f]
  }

  /** Applying the same server errors twice is the same as applying them once. */
  lemma ApplyServerErrorsIdempotent(errors: map<FormField, JsValue>, reported: map<string, JsValue>)
    ensures ApplyServerErrors(ApplyServerErrors(errors, reported), reported) == ApplyServerErrors(errors, reported)
  {
  }

  datatype FormState = FormState(values: FormValues, errors: map<FormField, JsValue>, submitting: bool)

  datatype Toast = Toast(title: string, description: string, destructive: bool)

  const PlacedToast := Toast("Order placed successfully!", "We'll contact you soon to confirm your order.", false)
  const CheckFormToast := Toast("Order placement failed", "Please check the form for errors and try again.", true)
  const FailedToast := Toast("Order placement failed", "There was an error placing your order. Please try again.", true)

  /**
   * Where the field-error branch reads the errors from: `response.data.error`
   * is the code as written; `response.data.data.error` is the object the
   * branch's condition checks.
   */
  datatype ErrorSource = TopLevel | Nested

  function ReportedErrors(r: Response, source: ErrorSource): JsValue {
    match source
    case TopLevel => Get(r.data, "error")
    case Nested => NestedError(r)
  }

  datatype Outcome = Outcome(form: FormState, toast: Toast)

  /**
   * The form after `placeOrder` settles, and the toast shown.  A thrown
   * error, and `Object.entries` throwing on missing errors, end in the
   * catch block's failure toast.
   */
  function Respond(form: FormState, place: PlaceResult, source: ErrorSource): (out: Outcome)
    ensures !out.form.submitting
    ensures out.toast == PlacedToast <==> place.Answered? && Classify(place.response) == Placed
    ensures out.toast == PlacedToast ==> out.form.values == Defaults && out.form.errors == map[]
    ensures out.toast != PlacedToast ==> out.form.values == form.values
    ensures out.toast == CheckFormToast <==>
      place.Answered? && Classify(place.response) == FieldErrors
      && !Nullish(ReportedErrors(place.response, source))
    ensures out.toast == CheckFormToast ==>
      var reported := EntriesOf(ReportedErrors(place.response, source)).value;
      out.form.errors == ApplyServerErrors(form.errors, reported)
    ensures out.toast == FailedToast ==> out.form.errors == form.errors
    ensures out.toast in {PlacedToast, CheckFormToast, FailedToast}
  {
    var settled := form.(submitting := false);
    match place
    case Thrown => Outcome(settled, FailedToast)
    case Answered(r) =>
      match Classify(r)
      case FieldErrors =>
        var entries := EntriesOf(ReportedErrors(r, source));
        if entries.None? then Outcome(settled, FailedToast)
        else Outcome(settled.(errors := ApplyServerErrors(form.errors, entries.value)), CheckFormToast)
      case Placed => Outcome(FormState(Defaults, map[], false), PlacedToast)
      case NotPlaced => Outcome(settled, FailedToast)
  }

  /** A field-error response whose errors sit, as the branch checks, at `response.data.data.error`. */
  function NestedRejection(status: int, reported: map<string, JsValue>): Response {
    Response(status, Obj(map["data" := Obj(map["status" := Bool(false), "error" := Obj(reported)])]))
  }

  /**
   * As written, a response reporting `c_phone: ["invalid"]` at the checked
   * place shows no field error: `response.data.error` is undefined, so
   * `Object.entries` throws and only the generic failure toast appears.
   */
  lemma AsWrittenDropsFieldErrors(form: FormState, status: int)
    ensures var out := Respond(form, Answered(NestedRejection(status, map["c_phone" := Arr([Str("invalid")])])), TopLevel);
      out.toast == FailedToast && out.form.errors == form.errors && out.form.values == form.values
  {
  }

  /**
   * Reading the errors from where the branch checks them, every field-error
   * response shows the field-error toast, keeps the entered values, and
   * shows the first server message under every reported field.
   */
  lemma IntendedShowsFieldErrors(form: FormState, r: Response)
    requires Classify(r) == FieldErrors
    ensures var out := Respond(form, Answered(r), Nested);
      out.toast == CheckFormToast && out.form.values == form.values
      && (NestedError(r).Obj? ==> forall f :: ServerMessage(NestedError(r).fields, f).Some? ==>
            f in out.form.errors && out.form.errors[f] == ServerMessage(NestedError(r).fields, f).value)
  {
  }

  /** The worked example: the phone field shows "invalid" and nothing is reset. */
  lemma IntendedPhoneExample(form: FormState, status: int)
    ensures var out := Respond(form, Answered(NestedRejection(status, map["c_phone" := Arr([Str("invalid")])])), Nested);
      out.form.errors[PhoneField] == Str("invalid") && out.form.values == form.values
  {
  }
}
