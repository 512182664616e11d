/**
 * The commerce system's entities as the sync rules see them, already loaded
 * with the relations the service asks for. Absent optional properties are
 * `None`; identifiers are integers.
 */
module Domain {
  import opened Wrappers

  /**
   * The code of the plugin's fulfillment handler. It is declared in
   * picqer.handler.ts, which is not part of this model; "picqer" is assumed.
   */
  const PicqerHandlerCode: string := "picqer"

  /**
   * A product variant with its computed price (in cents), the percentage of
   * the tax rate applied to it, and the preview paths of its own featured
   * asset and of its product's featured asset.
   */
  datatype Variant = Variant(
    id: int,
    sku: string,
    name: string,
    price: int,
    enabled: bool,
    taxRate: int,
    featuredPreview: Option<string>,
    productPreview: Option<string>)

  datatype Product = Product(id: int, enabled: bool, variants: seq<Variant>)

  /** The address snapshot stored on an order. */
  datatype OrderAddress = OrderAddress(
    company: Option<string>,
    fullName: Option<string>,
    streetLine1: Option<string>,
    streetLine2: Option<string>,
    postalCode: Option<string>,
    city: Option<string>,
    country: Option<string>)

  datatype Country = Country(code: string)

  /** A customer's saved address. */
  datatype Address = Address(
    fullName: Option<string>,
    streetLine1: Option<string>,
    streetLine2: Option<string>,
    postalCode: Option<string>,
    city: Option<string>,
    country: Option<Country>,
    defaultShippingAddress: bool,
    defaultBillingAddress: bool)

  /** `registered` is true when the customer has a user account (`customer.user`). */
  datatype Customer = Customer(
    firstName: string,
    lastName: string,
    emailAddress: string,
    phoneNumber: Option<string>,
    registered: bool,
    addresses: seq<Address>)

  datatype OrderLine = OrderLine(id: int, variant: Variant, quantity: int)

  /** A shipping line; the code is that of its shipping method's fulfillment handler. */
  datatype ShippingLine = ShippingLine(fulfillmentHandlerCode: Option<string>)

  datatype Order = Order(
    id: int,
    code: string,
    lines: seq<OrderLine>,
    customer: Option<Customer>,
    shippingLines: seq<ShippingLine>,
    shippingAddress: OrderAddress,
    billingAddress: OrderAddress)
}
