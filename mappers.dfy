/**
 * The pure mappings from commerce entities to Picqer request bodies, the
 * VAT-group lookup and the featured-image choice used when pushing a variant.
 */
module Mappers {
  import opened Wrappers
  import opened Js
  import opened Domain

  datatype VatGroup = VatGroup(idvatgroup: int, percentage: int)

  datatype AddressInput = AddressInput(
    name: Option<string>,
    address: string,
    zipcode: Option<string>,
    city: Option<string>,
    country: Option<string>,
    defaultdelivery: bool,
    defaultinvoice: bool)

  datatype CustomerInput = CustomerInput(
    name: string,
    contactname: string,
    emailaddress: string,
    telephone: Option<string>,
    addresses: seq<AddressInput>)

  /** Price stays in cents: the conversion to a two-decimal float is not modelled. */
  datatype ProductInput = ProductInput(
    idvatgroup: int,
    name: string,
    price: int,
    productcode: string,
    active: bool)

  datatype OrderProductInput = OrderProductInput(idproduct: int, amount: int)

  datatype OrderInput = OrderInput(
    idcustomer: Option<int>,
    reference: string,
    deliveryname: Option<string>,
    deliverycontactname: Option<string>,
    deliveryaddress: string,
    deliveryzipcode: Option<string>,
    deliverycountry: Option<string>,
    invoicename: Option<string>,
    invoicecontactname: Option<string>,
    invoiceaddress: string,
    invoicezipcode: Option<string>,
    invoicecity: Option<string>,
    invoicecountry: Option<string>,
    products: seq<OrderProductInput>)

  /** Raised by `mapToProductInput` for a variant without SKU. */
  datatype MappingError = NoSku(variantId: int)

  /** `${streetLine1} ${streetLine2}`, where a missing part prints as "undefined". */
  function StreetAddress(streetLine1: Option<string>, streetLine2: Option<string>): string {
    Interpolate(streetLine1) + " " + Interpolate(streetLine2)
  }

  /** Both lines are joined by one space, and a missing second line leaves a trailing " undefined". */
  lemma StreetAddressShape(line1: string, line2: string)
    ensures StreetAddress(Some(line1), Some(line2)) == line1 + " " + line2
    ensures EndsWith(StreetAddress(Some(line1), None), " undefined")
    ensures StreetAddress(None, None) == "undefined undefined"
  {
    var s := StreetAddress(Some(line1), None);
    assert s == line1 + " undefined";
    assert s[|s| - |" undefined"|..] == " undefined";
  }

  function UpperOpt(s: Option<string>): Option<string> {
    if s.Some? then Some(Upper(s.value)) else None
  }

  /** `vatGroups.find(vg => vg.percentage === rate)`: the first group with that percentage. */
  function FindVatGroup(groups: seq<VatGroup>, rate: int): (r: Option<VatGroup>)
    ensures r.None? <==> forall k :: 0 <= k < |groups| ==> groups[k].percentage != rate
    ensures r.Some? ==> exists k :: 0 <= k < |groups| && groups[k] == r.value &&
                          r.value.percentage == rate &&
                          forall j :: 0 <= j < k ==> groups[j].percentage != rate
  {
    if groups == [] then None
    else if groups[0].percentage == rate then Some(groups[0])
    else
      var r := FindVatGroup(groups[1..], rate);
      if r.Some? then
        ghost var k :| 0 <= k < |groups[1..]| && groups[1..][k] == r.value &&
                       forall j :: 0 <= j < k ==> groups[1..][j].percentage != rate;
        assert groups[k + 1] == r.value;
        r
      else
        r
  }

  /** `mapToAddressInput`. */
  function MapToAddressInput(a: Address): (r: AddressInput)
    ensures r.zipcode == a.postalCode && r.city == a.city && r.name == a.fullName
    ensures r.address == StreetAddress(a.streetLine1, a.streetLine2)
    ensures r.country.Some? <==> a.country.Some?
    ensures a.country.Some? ==> r.country == Some(Upper(a.country.value.code))
    ensures r.country.Some? ==> |r.country.value| == |a.country.value.code|
    ensures r.country.Some? ==> forall k :: 0 <= k < |r.country.value| ==> !('a' <= r.country.value[k] <= 'z')
    ensures r.defaultdelivery == a.defaultShippingAddress && r.defaultinvoice == a.defaultBillingAddress
  {
    AddressInput(
      a.fullName,
      StreetAddress(a.streetLine1, a.streetLine2),
      a.postalCode,
      a.city,
      if a.country.Some? then Some(Upper(a.country.value.code)) else None,
      a.defaultShippingAddress,
      a.defaultBillingAddress)
  }

  /** `mapToCustomerInput`: the company name when truthy, else "first last". */
  function MapToCustomerInput(c: Customer, companyName: Option<string>): (r: CustomerInput)
    ensures r.name != ""
    ensures Truthy(companyName) ==> r.name == companyName.value
    ensures !Truthy(companyName) ==> r.name == r.contactname
    ensures r.contactname == c.firstName + " " + c.lastName
    ensures r.emailaddress == c.emailAddress && r.telephone == c.phoneNumber
    ensures |r.addresses| == |c.addresses| &&
            forall k :: 0 <= k < |c.addresses| ==> r.addresses[k] == MapToAddressInput(c.addresses[k])
  {
    var customerName := c.firstName + " " + c.lastName;
    CustomerInput(
      Or(companyName, Some(customerName)).value,
      customerName,
      c.emailAddress,
      c.phoneNumber,
      seq(|c.addresses|, k requires 0 <= k < |c.addresses| => MapToAddressInput(c.addresses[k])))
  }

  /**
   * `mapToProductInput`: fails for a variant without SKU; the name falls
   * back to the SKU, so a pushed product always has a non-empty name.
   */
  function MapToProductInput(v: Variant, vatGroupId: int): (r: Result<ProductInput, MappingError>)
    ensures r.Err? <==> v.sku == ""
    ensures r.Err? ==> r.error == NoSku(v.id)
    ensures r.Ok? ==> r.value.productcode == v.sku && r.value.name != "" &&
                      (v.name != "" ==> r.value.name == v.name) &&
                      (v.name == "" ==> r.value.name == v.sku) &&
                      r.value.idvatgroup == vatGroupId && r.value.active == v.enabled &&
                      r.value.price == v.price
  {
    if v.sku == "" then Err(NoSku(v.id))
    else Ok(ProductInput(vatGroupId, if v.name != "" then v.name else v.sku, v.price, v.sku, v.enabled))
  }

  /** The address used for invoicing: the billing address only when it has a postal code. */
  function InvoiceAddress(order: Order): OrderAddress {
    if Truthy(order.billingAddress.postalCode) then order.billingAddress else order.shippingAddress
  }

  /** `mapToOrderInput`. */
  function MapToOrderInput(order: Order, products: seq<OrderProductInput>, customerId: Option<int>): (r: OrderInput)
    ensures r.idcustomer == customerId && r.reference == order.code && r.products == products
    ensures r.deliveryaddress == StreetAddress(order.shippingAddress.streetLine1, order.shippingAddress.streetLine2)
    ensures r.deliveryzipcode == order.shippingAddress.postalCode
    ensures r.deliverycountry == UpperOpt(order.shippingAddress.country)
    ensures r.deliverycontactname == order.shippingAddress.fullName
    ensures r.deliveryname == Or(order.shippingAddress.company, order.shippingAddress.fullName)
    ensures r.invoicecontactname == InvoiceAddress(order).fullName
    ensures r.invoicename == Or(InvoiceAddress(order).company, InvoiceAddress(order).fullName)
    // the street, postal code and country of the invoice are always the delivery ones
    ensures r.invoiceaddress == r.deliveryaddress && r.invoicezipcode == r.deliveryzipcode &&
            r.invoicecountry == r.deliverycountry && r.invoicecity == order.shippingAddress.city
  {
    var shipping := order.shippingAddress;
    var billing := if Truthy(order.billingAddress.postalCode) then order.billingAddress else order.shippingAddress;
    OrderInput(
      customerId,
      order.code,
      Or(shipping.company, shipping.fullName),
      shipping.fullName,
      StreetAddress(shipping.streetLine1, shipping.streetLine2),
      shipping.postalCode,
      UpperOpt(shipping.country),
      Or(billing.company, billing.fullName),
      billing.fullName,
      StreetAddress(shipping.streetLine1, shipping.streetLine2),
      shipping.postalCode,
      shipping.city,
      UpperOpt(shipping.country),
      products)
  }

  /**
   * An order whose billing address has its own postal code is still
   * invoiced at the shipping postal code: only the invoice name and contact
   * follow the billing address.
   */
  lemma InvoiceZipcodeIgnoresBilling(order: Order, products: seq<OrderProductInput>, customerId: Option<int>)
    requires Truthy(order.billingAddress.postalCode)
    requires order.billingAddress.postalCode != order.shippingAddress.postalCode
    ensures MapToOrderInput(order, products, customerId).invoicezipcode != order.billingAddress.postalCode
    ensures MapToOrderInput(order, products, customerId).invoicecontactname == order.billingAddress.fullName
  {
  }

  /** `['png', 'jpg', 'jpeg'].some(ext => image.endsWith(ext))`: no dot, case-sensitive. */
  predicate HasAllowedExtension(path: string) {
    EndsWith(path, "png") || EndsWith(path, "jpg") || EndsWith(path, "jpeg")
  }

  /**
   * `getFeaturedImageAsBase64` without the file read: the preview path of
   * the variant's featured asset, else of its product's, provided the path
   * has an allowed extension.
   */
  function FeaturedImage(v: Variant): (r: Option<string>)
    ensures r.Some? ==> r.value != "" && HasAllowedExtension(r.value)
    ensures r.Some? ==> if Truthy(v.featuredPreview) then r == v.featuredPreview else r == v.productPreview
    ensures r.None? <==>
      (if Truthy(v.featuredPreview) then !HasAllowedExtension(v.featuredPreview.value)
       else !Truthy(v.productPreview) || !HasAllowedExtension(v.productPreview.value))
  {
    var asset := if Truthy(v.featuredPreview) then v.featuredPreview else v.productPreview;
    if !Truthy(asset) then None
    else if HasAllowedExtension(asset.value) then asset
    else None
  }

  /** The extension check has no dot and is case-sensitive. */
  lemma ExtensionCheckExamples()
    ensures HasAllowedExtension("photo.jpeg") && HasAllowedExtension("photojpg")
    ensures !HasAllowedExtension("photo.PNG") && !HasAllowedExtension("photo.webp")
  {
    assert "photo.jpeg"[6..] == "jpeg";
    assert "photojpg"[5..] == "jpg";
  }
}
