/**
 * The service's two entry points that change the stores: the webhook
 * handler (`handleHook`) and the `picqer-sync` job queue's processor.
 */
module Service {
  import opened Wrappers
  import opened Config
  import opened Domain
  import opened Mappers
  import opened Stock
  import opened Fulfillment
  import opened Push
  import opened Jobs

  // ---------------------------------------------------------------- webhooks

  /** The body of an incoming webhook, by its `event`. */
  datatype IncomingWebhook =
    | FreeStockChangedHook(product: PicqerProduct)
    | PicklistClosedHook(picklist: PickListData)
    | OtherHook(event: string)

  /** Where `handleHook` sends a webhook. */
  datatype HookRoute =
    | NoClient
    | BadSignature
    | StockUpdate(products: seq<PicqerProduct>)
    | ClosePicklist(picklist: PickListData)
    | UnknownEvent(event: string)

  /**
   * The client is resolved first, the signature is checked next, and only
   * a webhook with a valid signature reaches a handler.
   */
  function RouteHook(config: Option<PicqerConfig>, body: IncomingWebhook, signatureValid: bool): (r: HookRoute)
    ensures r.NoClient? <==> GetClient(config).None?
    ensures r.BadSignature? <==> GetClient(config).Some? && !signatureValid
    ensures (r.StockUpdate? || r.ClosePicklist? || r.UnknownEvent?) <==> GetClient(config).Some? && signatureValid
    ensures r.StockUpdate? <==> GetClient(config).Some? && signatureValid && body.FreeStockChangedHook?
    ensures r.StockUpdate? ==> r.products == [body.product]
    ensures r.ClosePicklist? <==> GetClient(config).Some? && signatureValid && body.PicklistClosedHook?
    ensures r.ClosePicklist? ==> r.picklist == body.picklist
  {
    if GetClient(config).None? then NoClient
    else if !signatureValid then BadSignature
    else
      match body
      case FreeStockChangedHook(p) => StockUpdate([p])
      case PicklistClosedHook(d) => ClosePicklist(d)
      case OtherHook(e) => UnknownEvent(e)
  }

  datatype HookError = Forbidden | PicklistFailed(error: FulfillmentError)

  /**
   * `handleHook`: `signatureValid` is the client's HMAC check of the raw
   * body against the signature header; `verdicts` are the fulfillment
   * process's answers to a picklist's fulfillment steps.
   */
  method HandleHook(table: VariantTable, svc: OrderService, config: Option<PicqerConfig>,
                    body: IncomingWebhook, signatureValid: bool, verdicts: Verdicts, channelId: int)
    returns (r: Result<(), HookError>)
    requires table.Valid()
    modifies table, svc
    ensures table.Valid()
    ensures svc.orders == old(svc.orders)
    ensures match RouteHook(config, body, signatureValid)
      case NoClient =>
        r == Ok(()) && unchanged(table) && unchanged(svc)
      case BadSignature =>
        r == Err(Forbidden) && unchanged(table) && unchanged(svc)
      case UnknownEvent(_) =>
        r == Ok(()) && unchanged(table) && unchanged(svc)
      case StockUpdate(ps) =>
        r == Ok(()) && unchanged(svc) &&
        table.rows == ReconcileAll(old(table.rows), channelId, ps) &&
        table.published == old(table.published) + [Adjustments(SkuQuery(old(table.rows), channelId, Skus(ps)), ps)]
      case ClosePicklist(d) =>
        unchanged(table) &&
        match FindOrder(old(svc.orders), d.reference)
        case None =>
          r == Err(PicklistFailed(NoOrder(d.reference))) &&
          svc.fulfillments == old(svc.fulfillments) && svc.attempts == old(svc.attempts)
        case Some(o) =>
          (r.Ok? <==> ChainResult(verdicts).Ok?) &&
          (r.Err? ==> r == Err(PicklistFailed(ChainResult(verdicts).error))) &&
          svc.attempts == old(svc.attempts) + Fulfillment.StepsAttempted(verdicts) &&
          svc.fulfillments == old(svc.fulfillments) +
            (if verdicts.create
             then [FulfillmentRecord(PicqerHandlerCode, SelectLines(o.lines, d.products), FinalState(verdicts))]
             else [])
  {
    var route := RouteHook(config, body, signatureValid);
    match route
    case NoClient =>
      r := Ok(());
    case BadSignature =>
      r := Err(Forbidden);
    case UnknownEvent(_) =>
      r := Ok(());
    case StockUpdate(ps) =>
      var _ := table.UpdateStockBySkus(channelId, ps);
      r := Ok(());
    case ClosePicklist(d) =>
      var closed := HandlePicklistClosed(svc, d, verdicts);
      r := if closed.Ok? then Ok(()) else Err(PicklistFailed(closed.error));
  }

  /** A webhook that fails the signature check changes no stock and no order. */
  lemma ForgedHookDoesNothing(config: Option<PicqerConfig>, body: IncomingWebhook)
    ensures var route := RouteHook(config, body, false);
      !route.StockUpdate? && !route.ClosePicklist?
  {
  }

  /** A stock webhook for one product reconciles only the variants with that product's SKU. */
  lemma StockHookTouchesOnlyItsSku(rows: seq<VariantRow>, channelId: int, p: PicqerProduct, k: nat)
    requires k < |rows| && rows[k].sku != p.productcode
    ensures ReconcileAll(rows, channelId, [p])[k] == rows[k]
  {
    assert Skus([p]) == [p.productcode];
  }

  // ---------------------------------------------------------------- job queue

  /** The catalog the handlers read from the commerce system's database. */
  datatype Store = Store(catalog: seq<Variant>, products: seq<Product>, orders: seq<Order>)

  /** Picqer's side of the conversation, as seen by the job handlers. */
  datatype Remote = Remote(
    activeProducts: seq<PicqerProduct>,
    vatGroups: seq<VatGroup>,
    hasImages: string -> bool,
    productIdOf: string -> int,
    customerIdOf: string -> int)

  datatype JobOutcome =
    | VariantsPushed(variants: PushVariantsResult)
    | StockPulled(updateCount: Option<nat>)
    | OrderHandled(order: PushOrderResult)
    | InvalidActionLogged(action: string)

  datatype JobError =
    | VariantsJobFailed(variants: Result<PushVariantsResult, PushVariantsError>)
    | OrderJobFailed(error: PushOrderError)

  /** `orderService.findOne`. */
  function FindOrderById(orders: seq<Order>, id: int): (r: Option<Order>)
    ensures r.Some? ==> r.value in orders && r.value.id == id
    ensures r.None? <==> forall o :: o in orders ==> o.id != id
  {
    if orders == [] then None
    else if orders[0].id == id then Some(orders[0])
    else FindOrderById(orders[1..], id)
  }

  /** `handlePullStockLevelsJob`: all of Picqer's active products feed the stock update. */
  method HandlePullStockLevelsJob(table: VariantTable, config: Option<PicqerConfig>, channelId: int,
                                  activeProducts: seq<PicqerProduct>)
    returns (updateCount: Option<nat>)
    requires table.Valid()
    modifies table
    ensures table.Valid()
    ensures GetClient(config).None? ==> updateCount.None? && unchanged(table)
    ensures GetClient(config).Some? ==>
      updateCount == Some(|SkuQuery(old(table.rows), channelId, Skus(activeProducts))|) &&
      table.rows == ReconcileAll(old(table.rows), channelId, activeProducts) &&
      table.published == old(table.published) +
        [Adjustments(SkuQuery(old(table.rows), channelId, Skus(activeProducts)), activeProducts)]
  {
    if GetClient(config).None? {
      return None;
    }
    var count := table.UpdateStockBySkus(channelId, activeProducts);
    updateCount := Some(count);
  }

  /**
   * The queue's `process` callback: one handler per action, an invalid
   * action only logged, and every handler error rethrown so that the
   * queue retries the job.
   */
  method ProcessJob(table: VariantTable, config: Option<PicqerConfig>, channelId: int, job: Job,
                    store: Store, remote: Remote, note: Option<string>)
    returns (r: Result<JobOutcome, JobError>)
    requires table.Valid()
    modifies table
    ensures table.Valid()
    ensures !job.PullStockLevels? ==> unchanged(table)
    ensures job.PushVariants? ==>
      var v := PushVariantsJob(config, job.variantIds, job.productId, store.catalog, store.products,
                               remote.vatGroups, remote.hasImages);
      if PushVariantsSucceeded(v) then r == Ok(VariantsPushed(v.value)) else r == Err(VariantsJobFailed(v))
    ensures job.PushOrder? ==>
      match PushOrderJob(config, FindOrderById(store.orders, job.orderId), remote.vatGroups,
                         remote.productIdOf, remote.customerIdOf, note)
      case Ok(o) => r == Ok(OrderHandled(o))
      case Err(e) => r == Err(OrderJobFailed(e))
    ensures job.PullStockLevels? ==>
      r.Ok? && r.value.StockPulled? &&
      (r.value.updateCount.Some? <==> GetClient(config).Some?) &&
      (GetClient(config).Some? ==> table.rows == ReconcileAll(old(table.rows), channelId, remote.activeProducts))
    ensures job.PullStockLevels? && GetClient(config).None? ==> unchanged(table)
    ensures job.PullStockLevels? && GetClient(config).Some? ==>
      var vs := SkuQuery(old(table.rows), channelId, Skus(remote.activeProducts));
      r == Ok(StockPulled(Some(|vs|))) &&
      table.published == old(table.published) + [Adjustments(vs, remote.activeProducts)]
    ensures job.InvalidAction? ==> r == Ok(InvalidActionLogged(job.action))
  {
    match job
    case PushVariants(variantIds, productId) =>
      var v := HandlePushVariantsJob(config, variantIds, productId, store.catalog, store.products,
                                     remote.vatGroups, remote.hasImages);
      r := if PushVariantsSucceeded(v) then Ok(VariantsPushed(v.value)) else Err(VariantsJobFailed(v));
    case PullStockLevels =>
      var count := HandlePullStockLevelsJob(table, config, channelId, remote.activeProducts);
      r := Ok(StockPulled(count));
    case PushOrder(orderId) =>
      var o := HandlePushOrderJob(config, FindOrderById(store.orders, orderId), remote.vatGroups,
                                  remote.productIdOf, remote.customerIdOf, note);
      r := if o.Ok? then Ok(OrderHandled(o.value)) else Err(OrderJobFailed(o.error));
    case InvalidAction(action) =>
      r := Ok(InvalidActionLogged(action));
  }
}
