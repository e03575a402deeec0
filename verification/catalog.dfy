/**
 * The product record the catalog API returns.  Only `id`, `name` and `price`
 * are always present; the open bag of further server fields is not modelled.
 */
module Catalog {
  import opened JsValues
  import opened Decimal

  /** A product id is assigned by the server as a number or as a string. */
  datatype ProductId = NumId(n: int) | StrId(s: string)

  datatype Category = Category(id: int, name: string)

  datatype Product = Product(
    id: ProductId,
    name: string,
    description: Option<string>,
    price: int,
    regularPrice: Option<int>,
    discountPrice: Option<int>,
    image: Option<string>,
    category: Option<Category>,
    stock: Option<int>,
    sku: Option<string>)

  /**
   * The text of an id, as both `id.toString()` and `${id}` produce it:
   * the decimal text of a numeric id, a string id unchanged.
   */
  function IdText(id: ProductId): (t: string)
    ensures id.StrId? ==> t == id.s
    ensures id.NumId? ==> t == IntToString(id.n) && ReadInt(t) == Some(id.n)
  {
    match id
    case NumId(n) => IntToStringRoundTrip(n); IntToString(n)
    case StrId(s) => s
  }

  /**
   * The body of an order request.  Every amount travels as text; `advance`
   * and `discountAmount` may be null.
   */
  datatype OrderData = OrderData(
    productIds: string,
    quantity: string,
    phone: string,
    name: string,
    courier: string,
    address: string,
    advance: Option<string>,
    codAmount: string,
    discountAmount: Option<string>,
    deliveryCharge: string)
}
