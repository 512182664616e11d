/**
 * The two push jobs: `push-variants` upserts variants as Picqer products,
 * and `push-order` creates a placed order in Picqer. Picqer's replies (the
 * product and customer ids it assigns, whether a product already has
 * images) are inputs; the result records the requests made.
 */
module Push {
  import opened Wrappers
  import opened Js
  import opened Config
  import opened Domain
  import opened Mappers

  // ---------------------------------------------------------------- push-variants

  /** What happened to one variant of a push-variants job. */
  datatype VariantOutcome =
    | NoVatGroup(sku: string)
    | PushFailed(error: MappingError)
    | Pushed(input: ProductInput, image: Option<string>)

  /**
   * One variant: no matching VAT group skips it; a missing SKU fails it;
   * otherwise it is upserted by SKU and, when Picqer's product has no
   * images yet, its featured image is attached.
   */
  function PushVariant(v: Variant, vatGroups: seq<VatGroup>, remoteHasImages: string -> bool): (r: VariantOutcome)
    ensures r.NoVatGroup? <==> FindVatGroup(vatGroups, v.taxRate).None?
    ensures r.PushFailed? <==> FindVatGroup(vatGroups, v.taxRate).Some? && v.sku == ""
    ensures r.Pushed? ==>
      r.input.productcode == v.sku && r.input.active == v.enabled &&
      r.input.idvatgroup == FindVatGroup(vatGroups, v.taxRate).value.idvatgroup &&
      FindVatGroup(vatGroups, v.taxRate).value.percentage == v.taxRate
    ensures r.Pushed? ==> Ok(r.input) == MapToProductInput(v, FindVatGroup(vatGroups, v.taxRate).value.idvatgroup)
    ensures r.Pushed? ==> (r.image.Some? <==> !remoteHasImages(v.sku) && FeaturedImage(v).Some?)
    ensures r.Pushed? && r.image.Some? ==> r.image == FeaturedImage(v)
  {
    var vatGroup := FindVatGroup(vatGroups, v.taxRate);
    if vatGroup.None? then NoVatGroup(v.sku)
    else
      match MapToProductInput(v, vatGroup.value.idvatgroup)
      case Err(e) => PushFailed(e)
      case Ok(input) => Pushed(input, if remoteHasImages(v.sku) then None else FeaturedImage(v))
  }

  function PushAll(vs: seq<Variant>, vatGroups: seq<VatGroup>, remoteHasImages: string -> bool): (r: seq<VariantOutcome>)
    ensures |r| == |vs| && forall k :: 0 <= k < |vs| ==> r[k] == PushVariant(vs[k], vatGroups, remoteHasImages)
  {
    seq(|vs|, k requires 0 <= k < |vs| => PushVariant(vs[k], vatGroups, remoteHasImages))
  }

  function CountPushed(os: seq<VariantOutcome>): nat {
    if os == [] then 0 else (if os[0].Pushed? then 1 else 0) + CountPushed(os[1..])
  }

  function CountPushable(vs: seq<Variant>, vatGroups: seq<VatGroup>): nat {
    if vs == [] then 0
    else (if FindVatGroup(vatGroups, vs[0].taxRate).Some? && vs[0].sku != "" then 1 else 0) +
         CountPushable(vs[1..], vatGroups)
  }

  /**
   * A variant without VAT group costs only itself: exactly the variants
   * that have a VAT group and a SKU are upserted.
   */
  lemma {:induction false} PushedAreThePushable(vs: seq<Variant>, vatGroups: seq<VatGroup>, remoteHasImages: string -> bool)
    ensures CountPushed(PushAll(vs, vatGroups, remoteHasImages)) == CountPushable(vs, vatGroups)
  {
    if vs != [] {
      PushedAreThePushable(vs[1..], vatGroups, remoteHasImages);
      assert PushAll(vs, vatGroups, remoteHasImages)[1..] == PushAll(vs[1..], vatGroups, remoteHasImages);
    }
  }

  /** Five variants, one with an unmapped rate: four upserts and one skip. */
  lemma ScenarioOneUnmappedRate(vs: seq<Variant>, remoteHasImages: string -> bool)
    requires |vs| == 5 && forall k :: 0 <= k < 5 ==> vs[k].sku != ""
    requires forall k :: 0 <= k < 4 ==> vs[k].taxRate == 21
    requires vs[4].taxRate == 7
    ensures var os := PushAll(vs, [VatGroup(1, 21), VatGroup(2, 9)], remoteHasImages);
      CountPushed(os) == 4 && os[4] == NoVatGroup(vs[4].sku)
  {
    var groups := [VatGroup(1, 21), VatGroup(2, 9)];
    PushedAreThePushable(vs, groups, remoteHasImages);
    assert FindVatGroup(groups, 21).Some?;
    assert FindVatGroup(groups, 7).None?;
    assert CountPushable([vs[4]], groups) == 0;
    assert vs[3..][1..] == [vs[4]];
    assert CountPushable(vs[3..], groups) == 1;
    assert vs[2..][1..] == vs[3..];
    assert CountPushable(vs[2..], groups) == 2;
    assert vs[1..][1..] == vs[2..];
    assert CountPushable(vs[1..], groups) == 3;
    assert CountPushable(vs, groups) == 4;
  }

  /** `variantService.findByIds`: the catalog's variants with one of the ids. */
  function FindByIds(catalog: seq<Variant>, ids: seq<int>): (r: seq<Variant>)
    ensures forall v :: v in r <==> v in catalog && v.id in ids
  {
    if catalog == [] then []
    else
      var rest := FindByIds(catalog[1..], ids);
      assert forall v :: v in catalog <==> v == catalog[0] || v in catalog[1..];
      if catalog[0].id in ids then [catalog[0]] + rest else rest
  }

  /** `productService.findOne`. */
  function FindProductById(products: seq<Product>, id: int): (r: Option<Product>)
    ensures r.None? <==> forall k :: 0 <= k < |products| ==> products[k].id != id
    ensures r.Some? ==> exists k :: 0 <= k < |products| && products[k] == r.value && r.value.id == id &&
                          forall j :: 0 <= j < k ==> products[j].id != id
  {
    if products == [] then None
    else if products[0].id == id then Some(products[0])
    else
      var r := FindProductById(products[1..], id);
      if r.Some? then
        ghost var k :| 0 <= k < |products[1..]| && products[1..][k] == r.value &&
                       forall j :: 0 <= j < k ==> products[1..][j].id != id;
        assert products[k + 1] == r.value;
        r
      else
        r
  }

  /** `variants.forEach(v => (v.enabled = false))` on the loaded variants. */
  method DisableVariants(vs: seq<Variant>) returns (ws: seq<Variant>)
    ensures |ws| == |vs|
    ensures forall k :: 0 <= k < |vs| ==> ws[k] == vs[k].(enabled := false)
  {
    ws := vs;
    var i := 0;
    while i < |ws|
      invariant 0 <= i <= |ws| && |ws| == |vs|
      invariant forall k :: 0 <= k < i ==> ws[k] == vs[k].(enabled := false)
      invariant forall k :: i <= k < |ws| ==> ws[k] == vs[k]
    {
      ws := ws[i := ws[i].(enabled := false)];
      i := i + 1;
    }
  }

  datatype PushVariantsResult =
    | VariantsNotConfigured
    | ProductNotFound(productId: int)
    | Attempted(outcomes: seq<VariantOutcome>)

  datatype PushVariantsError = NoVariantIdsOrProductId

  /** The job fails, and is retried, when the target is missing or any variant failed. */
  predicate PushVariantsSucceeded(r: Result<PushVariantsResult, PushVariantsError>) {
    r.Ok? && (r.value.Attempted? ==> forall o :: o in r.value.outcomes ==> !o.PushFailed?)
  }

  /** The variants of a disabled product, each forced inactive. */
  function Inactive(vs: seq<Variant>): (r: seq<Variant>)
    ensures |r| == |vs| && forall k :: 0 <= k < |vs| ==> r[k] == vs[k].(enabled := false)
  {
    seq(|vs|, k requires 0 <= k < |vs| => vs[k].(enabled := false))
  }

  /**
   * What `handlePushVariantsJob` does: nothing without a client; the
   * variants by id when ids are given; otherwise the product's variants,
   * forced inactive when the product is disabled; an error when neither
   * ids nor a (truthy) product id are given.
   */
  function PushVariantsJob(config: Option<PicqerConfig>, variantIds: Option<seq<int>>, productId: Option<int>,
                           catalog: seq<Variant>, products: seq<Product>, vatGroups: seq<VatGroup>,
                           remoteHasImages: string -> bool)
    : (r: Result<PushVariantsResult, PushVariantsError>)
    ensures GetClient(config).None? ==> r == Ok(VariantsNotConfigured)
    ensures GetClient(config).Some? && variantIds.Some? ==>
      r.Ok? && r.value.Attempted? &&
      forall o :: o in r.value.outcomes <==>
        exists v :: v in catalog && v.id in variantIds.value && o == PushVariant(v, vatGroups, remoteHasImages)
    ensures GetClient(config).Some? && variantIds.None? && (productId.None? || productId.value == 0) ==>
      r == Err(NoVariantIdsOrProductId)
    ensures GetClient(config).Some? && variantIds.None? && productId.Some? && productId.value != 0 ==>
      match FindProductById(products, productId.value)
      case None => r == Ok(ProductNotFound(productId.value))
      case Some(p) =>
        r.Ok? && r.value.Attempted? && |r.value.outcomes| == |p.variants| &&
        forall k :: 0 <= k < |p.variants| ==>
          r.value.outcomes[k] == PushVariant(if p.enabled then p.variants[k] else p.variants[k].(enabled := false),
                                             vatGroups, remoteHasImages)
  {
    if GetClient(config).None? then Ok(VariantsNotConfigured)
    else if variantIds.Some? then
      var vs := FindByIds(catalog, variantIds.value);
      var os := PushAll(vs, vatGroups, remoteHasImages);
      assert forall o :: o in os <==> exists k :: 0 <= k < |vs| && o == PushVariant(vs[k], vatGroups, remoteHasImages);
      Ok(Attempted(os))
    else if productId.Some? && productId.value != 0 then
      match FindProductById(products, productId.value)
      case None => Ok(ProductNotFound(productId.value))
      case Some(p) =>
        Ok(Attempted(PushAll(if p.enabled then p.variants else Inactive(p.variants), vatGroups, remoteHasImages)))
    else Err(NoVariantIdsOrProductId)
  }

  /** `handlePushVariantsJob`. */
  method HandlePushVariantsJob(config: Option<PicqerConfig>, variantIds: Option<seq<int>>, productId: Option<int>,
                               catalog: seq<Variant>, products: seq<Product>, vatGroups: seq<VatGroup>,
                               remoteHasImages: string -> bool)
    returns (r: Result<PushVariantsResult, PushVariantsError>)
    ensures r == PushVariantsJob(config, variantIds, productId, catalog, products, vatGroups, remoteHasImages)
  {
    if GetClient(config).None? {
      return Ok(VariantsNotConfigured);
    }
    var variants: seq<Variant>;
    if variantIds.Some? {
      variants := FindByIds(catalog, variantIds.value);
    } else if productId.Some? && productId.value != 0 {
      var product := FindProductById(products, productId.value);
      if product.None? {
        return Ok(ProductNotFound(productId.value));
      }
      variants := product.value.variants;
      if !product.value.enabled {
        variants := DisableVariants(variants);
        assert variants == Inactive(product.value.variants);
      }
    } else {
      return Err(NoVariantIdsOrProductId);
    }
    r := Ok(Attempted(PushAll(variants, vatGroups, remoteHasImages)));
  }

  /** Every variant of a disabled product reaches Picqer as inactive. */
  lemma DisabledProductPushesInactive(p: Product, vatGroups: seq<VatGroup>, remoteHasImages: string -> bool)
    requires !p.enabled
    ensures forall k :: 0 <= k < |p.variants| ==>
      var o := PushVariant(p.variants[k].(enabled := false), vatGroups, remoteHasImages);
      o.Pushed? ==> !o.input.active
  {
  }

  // ---------------------------------------------------------------- push-order

  datatype PushOrderError =
    | VatGroupMissing(sku: string, rate: int)
    | OrderVariantFailed(error: MappingError)

  /** `getOrCreateMinimalCustomer(email, name)`. */
  datatype CustomerRequest = CustomerRequest(email: string, name: string)

  datatype PushOrderResult =
    | OrderNotConfigured
    | OrderNotFound
    | NotForPicqer
    | NoCustomer
    | OrderPushed(customer: Option<CustomerRequest>, upserts: seq<ProductInput>, order: OrderInput, note: Option<string>)

  /** Some shipping line's method carries the Picqer fulfillment handler. */
  predicate HasPicqerHandler(order: Order)
    ensures order.shippingLines == [] ==> !HasPicqerHandler(order)
    // any shipping line will do, not only the first
    ensures forall k :: 0 <= k < |order.shippingLines| ==>
      order.shippingLines[k].fulfillmentHandlerCode == Some(PicqerHandlerCode) ==> HasPicqerHandler(order)
  {
    exists s :: s in order.shippingLines && s.fulfillmentHandlerCode == Some(PicqerHandlerCode)
  }

  /** `company ?? fullName ?? "first last"` of a registered customer's order. */
  function CustomerName(order: Order, c: Customer): (r: string)
    // `??` keeps an empty company or name
    ensures order.shippingAddress.company.Some? ==> r == order.shippingAddress.company.value
    ensures order.shippingAddress.company.None? && order.shippingAddress.fullName.Some? ==>
      r == order.shippingAddress.fullName.value
    ensures order.shippingAddress.company.None? && order.shippingAddress.fullName.None? ==>
      r == c.firstName + " " + c.lastName
  {
    Coalesce(order.shippingAddress.company,
             Coalesce(order.shippingAddress.fullName, Some(c.firstName + " " + c.lastName))).value
  }

  /** One order line: the upsert it needs and the order product it becomes. */
  function LineInput(line: OrderLine, vatGroups: seq<VatGroup>, picqerProductId: string -> int)
    : Result<(ProductInput, OrderProductInput), PushOrderError>
  {
    var v := line.variant;
    var vatGroup := FindVatGroup(vatGroups, v.taxRate);
    if vatGroup.None? then Err(VatGroupMissing(v.sku, v.taxRate))
    else
      match MapToProductInput(v, vatGroup.value.idvatgroup)
      case Err(e) => Err(OrderVariantFailed(e))
      case Ok(input) => Ok((input, OrderProductInput(picqerProductId(v.sku), line.quantity)))
  }

  /** Lines mapped so far: the upserts and the order products, in line order. */
  type Mapped = Result<(seq<ProductInput>, seq<OrderProductInput>), PushOrderError>

  /** One line on its own, as a run of lines. */
  function Single(line: OrderLine, vatGroups: seq<VatGroup>, picqerProductId: string -> int): Mapped {
    match LineInput(line, vatGroups, picqerProductId)
    case Err(e) => Err(e)
    case Ok(x) => Ok(([x.0], [x.1]))
  }

  /** Two runs of lines one after the other: the earlier error wins. */
  function Join(r1: Mapped, r2: Mapped): Mapped {
    match r1
    case Err(e) => Err(e)
    case Ok(x) =>
      match r2
      case Err(e) => Err(e)
      case Ok(y) => Ok((x.0 + y.0, x.1 + y.1))
  }

  /** The `for` loop over the order lines: the first failing line fails the whole order. */
  function LinesInput(lines: seq<OrderLine>, vatGroups: seq<VatGroup>, picqerProductId: string -> int): Mapped {
    if lines == [] then Ok(([], []))
    else Join(Single(lines[0], vatGroups, picqerProductId), LinesInput(lines[1..], vatGroups, picqerProductId))
  }

  lemma JoinAssociative(r1: Mapped, r2: Mapped, r3: Mapped)
    ensures Join(Join(r1, r2), r3) == Join(r1, Join(r2, r3))
  {
    if r1.Ok? && r2.Ok? && r3.Ok? {
      assert (r1.value.0 + r2.value.0) + r3.value.0 == r1.value.0 + (r2.value.0 + r3.value.0);
      assert (r1.value.1 + r2.value.1) + r3.value.1 == r1.value.1 + (r2.value.1 + r3.value.1);
    }
  }

  /** Mapping two runs of lines one after the other is joining their results. */
  lemma {:induction false} LinesInputAppend(a: seq<OrderLine>, b: seq<OrderLine>, vatGroups: seq<VatGroup>,
                                            picqerProductId: string -> int)
    ensures LinesInput(a + b, vatGroups, picqerProductId)
      == Join(LinesInput(a, vatGroups, picqerProductId), LinesInput(b, vatGroups, picqerProductId))
  {
    if a == [] {
      assert a + b == b;
      var r := LinesInput(b, vatGroups, picqerProductId);
      if r.Ok? {
        assert [] + r.value.0 == r.value.0 && [] + r.value.1 == r.value.1;
      }
    } else {
      assert (a + b)[0] == a[0];
      assert (a + b)[1..] == a[1..] + b;
      LinesInputAppend(a[1..], b, vatGroups, picqerProductId);
      JoinAssociative(Single(a[0], vatGroups, picqerProductId), LinesInput(a[1..], vatGroups, picqerProductId),
                      LinesInput(b, vatGroups, picqerProductId));
    }
  }

  /** One more line: join its own result onto the lines before it. */
  lemma LinesInputStep(lines: seq<OrderLine>, i: nat, vatGroups: seq<VatGroup>, picqerProductId: string -> int)
    requires i < |lines|
    ensures LinesInput(lines[..i + 1], vatGroups, picqerProductId)
      == Join(LinesInput(lines[..i], vatGroups, picqerProductId), Single(lines[i], vatGroups, picqerProductId))
  {
    assert lines[..i + 1] == lines[..i] + [lines[i]];
    LinesInputAppend(lines[..i], [lines[i]], vatGroups, picqerProductId);
    assert [lines[i]][1..] == [];
    var r := Single(lines[i], vatGroups, picqerProductId);
    if r.Ok? {
      assert r.value.0 + [] == r.value.0 && r.value.1 + [] == r.value.1;
    }
  }

  /** A line that cannot be pushed: no VAT group for its rate, or no SKU. */
  predicate Unpushable(line: OrderLine, vatGroups: seq<VatGroup>) {
    FindVatGroup(vatGroups, line.variant.taxRate).None? || line.variant.sku == ""
  }

  /** The order fails exactly when one of its lines cannot be pushed. */
  lemma {:induction false} OrderFailsIffUnpushableLine(lines: seq<OrderLine>, vatGroups: seq<VatGroup>,
                                                       picqerProductId: string -> int)
    ensures LinesInput(lines, vatGroups, picqerProductId).Err? <==>
            exists k :: 0 <= k < |lines| && Unpushable(lines[k], vatGroups)
  {
    if lines != [] {
      var rest := lines[1..];
      OrderFailsIffUnpushableLine(rest, vatGroups, picqerProductId);
      assert Single(lines[0], vatGroups, picqerProductId).Err? <==> Unpushable(lines[0], vatGroups);
      if exists k :: 0 <= k < |rest| && Unpushable(rest[k], vatGroups) {
        var k :| 0 <= k < |rest| && Unpushable(rest[k], vatGroups);
        assert lines[k + 1] == rest[k];
      }
      if exists k :: 0 <= k < |lines| && Unpushable(lines[k], vatGroups) {
        var k :| 0 <= k < |lines| && Unpushable(lines[k], vatGroups);
        if k > 0 {
          assert rest[k - 1] == lines[k];
        }
      }
    }
  }

  /**
   * When every line maps, each line is upserted under its SKU and ordered
   * with its quantity, under the id Picqer gives that SKU, in line order.
   */
  lemma {:induction false} LinesInputComplete(lines: seq<OrderLine>, vatGroups: seq<VatGroup>, picqerProductId: string -> int)
    requires LinesInput(lines, vatGroups, picqerProductId).Ok?
    ensures var r := LinesInput(lines, vatGroups, picqerProductId).value;
      |r.0| == |lines| && |r.1| == |lines| &&
      forall k :: 0 <= k < |lines| ==>
        r.0[k].productcode == lines[k].variant.sku && r.0[k].name != "" &&
        r.1[k] == OrderProductInput(picqerProductId(lines[k].variant.sku), lines[k].quantity)
  {
    if lines != [] {
      var rest := lines[1..];
      var x := LineInput(lines[0], vatGroups, picqerProductId);
      assert x.Ok?;
      LinesInputComplete(rest, vatGroups, picqerProductId);
      var r := LinesInput(lines, vatGroups, picqerProductId).value;
      var acc := LinesInput(rest, vatGroups, picqerProductId).value;
      assert r == ([x.value.0] + acc.0, [x.value.1] + acc.1);
      forall k | 0 <= k < |lines|
        ensures r.0[k].productcode == lines[k].variant.sku && r.0[k].name != "" &&
                r.1[k] == OrderProductInput(picqerProductId(lines[k].variant.sku), lines[k].quantity)
      {
        if k > 0 {
          assert lines[k] == rest[k - 1] && r.0[k] == acc.0[k - 1] && r.1[k] == acc.1[k - 1];
        }
      }
    }
  }

  /**
   * What `handlePushOrderJob` does: four gates that end the job quietly
   * (no client, no order, no Picqer shipping method, no customer), then a
   * customer for registered buyers only, one upsert per line and the order.
   */
  function PushOrderJob(config: Option<PicqerConfig>, order: Option<Order>, vatGroups: seq<VatGroup>,
                        picqerProductId: string -> int, picqerCustomerId: string -> int,
                        note: Option<string>)
    : (r: Result<PushOrderResult, PushOrderError>)
    ensures GetClient(config).None? ==> r == Ok(OrderNotConfigured)
    ensures GetClient(config).Some? && order.None? ==> r == Ok(OrderNotFound)
    ensures GetClient(config).Some? && order.Some? && !HasPicqerHandler(order.value) ==> r == Ok(NotForPicqer)
    ensures GetClient(config).Some? && order.Some? && HasPicqerHandler(order.value) && order.value.customer.None? ==>
      r == Ok(NoCustomer)
    // an order reaches Picqer only when every gate passed and every line mapped
    ensures r.Err? || (r.Ok? && r.value.OrderPushed?) ==>
      GetClient(config).Some? && order.Some? && HasPicqerHandler(order.value) && order.value.customer.Some?
    ensures r.Err? ==> LinesInput(order.value.lines, vatGroups, picqerProductId) == Err(r.error)
    // once every gate passed, the order fails iff a line fails to map, and is pushed otherwise
    ensures GetClient(config).Some? && order.Some? && HasPicqerHandler(order.value) && order.value.customer.Some? ==>
      (r.Err? <==> LinesInput(order.value.lines, vatGroups, picqerProductId).Err?) &&
      (r.Ok? ==> r.value.OrderPushed?)
    ensures r.Ok? && r.value.OrderPushed? ==>
      var o, c := order.value, order.value.customer.value;
      LinesInput(o.lines, vatGroups, picqerProductId).Ok? &&
      r.value.upserts == LinesInput(o.lines, vatGroups, picqerProductId).value.0 &&
      r.value.order.products == LinesInput(o.lines, vatGroups, picqerProductId).value.1 &&
      r.value.order.reference == o.code && r.value.note == note &&
      // guests are not created as Picqer customers
      (r.value.customer.Some? <==> c.registered) &&
      (r.value.customer.Some? ==> r.value.customer.value == CustomerRequest(c.emailAddress, CustomerName(o, c))) &&
      r.value.order.idcustomer == (if c.registered then Some(picqerCustomerId(c.emailAddress)) else None) &&
      r.value.order == MapToOrderInput(o, LinesInput(o.lines, vatGroups, picqerProductId).value.1,
                                       r.value.order.idcustomer)
  {
    if GetClient(config).None? then Ok(OrderNotConfigured)
    else if order.None? then Ok(OrderNotFound)
    else if !HasPicqerHandler(order.value) then Ok(NotForPicqer)
    else if order.value.customer.None? then Ok(NoCustomer)
    else
      var o, c := order.value, order.value.customer.value;
      match LinesInput(o.lines, vatGroups, picqerProductId)
      case Err(e) => Err(e)
      case Ok(x) =>
        Ok(OrderPushed(
          if c.registered then Some(CustomerRequest(c.emailAddress, CustomerName(o, c))) else None,
          x.0,
          MapToOrderInput(o, x.1, if c.registered then Some(picqerCustomerId(c.emailAddress)) else None),
          note))
  }

  /** A job for an order that passes every gate fails iff one of its lines has no VAT group or no SKU, and is pushed otherwise. */
  lemma PushOrderFailsIffUnpushableLine(config: Option<PicqerConfig>, o: Order, vatGroups: seq<VatGroup>,
                                        picqerProductId: string -> int, picqerCustomerId: string -> int,
                                        note: Option<string>)
    requires GetClient(config).Some? && HasPicqerHandler(o) && o.customer.Some?
    ensures var r := PushOrderJob(config, Some(o), vatGroups, picqerProductId, picqerCustomerId, note);
      (r.Err? <==> exists k :: 0 <= k < |o.lines| && Unpushable(o.lines[k], vatGroups)) &&
      (r.Ok? ==> r.value.OrderPushed?)
  {
    OrderFailsIffUnpushableLine(o.lines, vatGroups, picqerProductId);
  }

  /** `handlePushOrderJob`. */
  method HandlePushOrderJob(config: Option<PicqerConfig>, order: Option<Order>, vatGroups: seq<VatGroup>,
                            picqerProductId: string -> int, picqerCustomerId: string -> int,
                            note: Option<string>)
    returns (r: Result<PushOrderResult, PushOrderError>)
    ensures r == PushOrderJob(config, order, vatGroups, picqerProductId, picqerCustomerId, note)
  {
    if GetClient(config).None? {
      return Ok(OrderNotConfigured);
    }
    if order.None? {
      return Ok(OrderNotFound);
    }
    var o := order.value;
    if !HasPicqerHandler(o) {
      return Ok(NotForPicqer);
    }
    if o.customer.None? {
      return Ok(NoCustomer);
    }
    var c := o.customer.value;
    var customer: Option<CustomerRequest> := None;
    var customerId: Option<int> := None;
    if c.registered {
      customer := Some(CustomerRequest(c.emailAddress, CustomerName(o, c)));
      customerId := Some(picqerCustomerId(c.emailAddress));
    }
    var lines := CollectLineInputs(o.lines, vatGroups, picqerProductId);
    if lines.Err? {
      return Err(lines.error);
    }
    var (upserts, productInputs) := lines.value;
    r := Ok(OrderPushed(customer, upserts, MapToOrderInput(o, productInputs, customerId), note));
  }

  /**
   * The `for` loop over the order lines: per line the VAT group lookup, the
   * upsert and the order product, stopping at the first line that fails.
   */
  method CollectLineInputs(lines: seq<OrderLine>, vatGroups: seq<VatGroup>, picqerProductId: string -> int)
    returns (r: Mapped)
    ensures r == LinesInput(lines, vatGroups, picqerProductId)
  {
    var upserts: seq<ProductInput> := [];
    var productInputs: seq<OrderProductInput> := [];
    var i := 0;
    while i < |lines|
      invariant 0 <= i <= |lines|
      invariant LinesInput(lines[..i], vatGroups, picqerProductId) == Ok((upserts, productInputs))
    {
      var line := lines[i];
      LinesInputStep(lines, i, vatGroups, picqerProductId);
      var vatGroup := FindVatGroup(vatGroups, line.variant.taxRate);
      if vatGroup.None? {
        PrefixErrorIsFinal(lines, vatGroups, picqerProductId, i + 1);
        return Err(VatGroupMissing(line.variant.sku, line.variant.taxRate));
      }
      var input := MapToProductInput(line.variant, vatGroup.value.idvatgroup);
      if input.Err? {
        PrefixErrorIsFinal(lines, vatGroups, picqerProductId, i + 1);
        return Err(OrderVariantFailed(input.error));
      }
      upserts := upserts + [input.value];
      productInputs := productInputs + [OrderProductInput(picqerProductId(line.variant.sku), line.quantity)];
      i := i + 1;
    }
    assert lines[..i] == lines;
    r := Ok((upserts, productInputs));
  }

  /** Once a prefix of the lines fails, the whole order fails with the same error. */
  lemma PrefixErrorIsFinal(lines: seq<OrderLine>, vatGroups: seq<VatGroup>, picqerProductId: string -> int, n: nat)
    requires n <= |lines| && LinesInput(lines[..n], vatGroups, picqerProductId).Err?
    ensures LinesInput(lines, vatGroups, picqerProductId) == LinesInput(lines[..n], vatGroups, picqerProductId)
  {
    assert lines == lines[..n] + lines[n..];
    LinesInputAppend(lines[..n], lines[n..], vatGroups, picqerProductId);
  }
}
