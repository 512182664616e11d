# Picqer warehouse sync, modelled in Dafny

This project models the core of the Picqer plugin for the Vendure commerce
framework: the service that keeps a Vendure channel and a Picqer warehouse
account in step. It covers these parts:

- the configuration gate (`getClient`): a channel without an enabled,
  complete configuration is never synced;
- the event subscribers that turn variant, product and order events into
  jobs on the `picqer-sync` queue, and the queue's dispatcher;
- the `push-variants` job: variants are upserted as Picqer products by SKU,
  with a VAT group and a featured image;
- the `push-order` job: a placed order shipped with the Picqer handler is
  created in Picqer, with its products and, for registered buyers, a customer;
- stock reconciliation (`updateStockBySkus`, `findAllVariantsBySku`, the
  `pull-stock-levels` job): `stockOnHand := stockAllocated + freestock` with
  one stock adjustment per updated variant, published as one event;
- closing a picklist: a fulfillment for the picked lines, moved to Shipped
  and then to Delivered;
- webhook registration and the incoming-webhook handler, including the
  signature gate;
- the full sync: every enabled variant of the channel, in batches of ten,
  then one stock pull;
- the pure mappers that build Picqer's product, order, address and customer
  request bodies.

State that the service changes in place is a Dafny `class`:

- `Stock.VariantTable`: the variant rows and the published stock-movement events;
- `Fulfillment.OrderService`: orders, fulfillments and the attempted steps;
- `Webhooks.HookRegistry`: Picqer's hook table;
- `Jobs.JobQueue`: the job queue.

Each method that changes one of them is proved against a specification
function, and the lemmas beside those functions state the sync rules.
Whatever Picqer or the commerce framework answers is a parameter:

- the ids Picqer assigns to products and customers;
- whether a product already has images;
- the VAT groups;
- the active products;
- whether a signature is valid;
- whether each fulfillment step is accepted.

Conventions:

- JavaScript semantics are spelled out in `Js`: truthiness, `||`, `??`,
  `${undefined}`, `slice`, `endsWith`.
- Absent properties are `None`.
- The Picqer fulfillment handler's code is the constant `"picqer"`.

## Model

| member | source | states |
|---|---|---|
| Config.GetClient | packages/vendure-plugin-picqer/src/api/picqer.service.ts:808-835 | A client exists iff the configuration is present and enabled and all four credentials are truthy; its credentials are the configured, non-empty values |
| Js.Slice | packages/vendure-plugin-picqer/src/api/picqer.service.ts:210-213 | `slice(0, n)` is the longest prefix of at most n characters |
| Js.Upper | packages/vendure-plugin-picqer/src/api/picqer.service.ts:928 | Upper-casing keeps the length and maps each character (ASCII letters only) |
| Js.Or | packages/vendure-plugin-picqer/src/api/picqer.service.ts:963 | `a || b` is truthy iff either operand is; a falsy left operand yields the right one |
| Js.Coalesce | packages/vendure-plugin-picqer/src/api/picqer.service.ts:592-594 | `a ?? b` is present iff either operand is, and keeps a present left operand |
| Js.OrAndCoalesce | packages/vendure-plugin-picqer/src/api/picqer.service.ts:592-594 | `||` and `??` differ only on an empty left operand, which `??` keeps and `||` drops |
| Js.EndsWithConcat | packages/vendure-plugin-picqer/src/api/picqer.service.ts:858-859 | `endsWith(suffix)` holds iff the string is some prefix followed by the suffix |
| Mappers.StreetAddressShape | packages/vendure-plugin-picqer/src/api/picqer.service.ts:925 | The street lines are joined by one space; a missing line prints as "undefined" |
| Mappers.FindVatGroup | packages/vendure-plugin-picqer/src/api/picqer.service.ts:714-716 | No group iff no group has the rate; otherwise the first group with that percentage |
| Mappers.MapToAddressInput | packages/vendure-plugin-picqer/src/api/picqer.service.ts:922-932 | Name, zipcode, city and default flags copied; the address is the interpolated street lines; the country is the upper-cased country code, present iff the address has a country |
| Mappers.MapToCustomerInput | packages/vendure-plugin-picqer/src/api/picqer.service.ts:911-920 | Name is the truthy company name, else "first last", so never empty; contact name is "first last"; each address mapped in order |
| Mappers.MapToProductInput | packages/vendure-plugin-picqer/src/api/picqer.service.ts:934-948 | Fails exactly for a variant without SKU; otherwise the product code is the SKU, the name falls back to the SKU and is never empty, and active is the variant's enabled flag |
| Mappers.MapToOrderInput | packages/vendure-plugin-picqer/src/api/picqer.service.ts:950-976 | Customer id, reference and products as given; delivery fields from the shipping address, with the upper-cased shipping country; invoice name and contact from the billing address when it has a postal code; the invoice street, zipcode, city and country are the delivery ones |
| Mappers.InvoiceZipcodeIgnoresBilling | packages/vendure-plugin-picqer/src/api/picqer.service.ts:954-974 | A billing address with its own postal code sets the invoice contact, but the invoice zipcode stays the shipping one |
| Mappers.FeaturedImage | packages/vendure-plugin-picqer/src/api/picqer.service.ts:841-874 | An image is the variant's preview when truthy, else the product's, and only with a png, jpg or jpeg ending; none exactly when the chosen preview is missing or has another ending |
| Mappers.ExtensionCheckExamples | packages/vendure-plugin-picqer/src/api/picqer.service.ts:860-862 | The extension check has no dot and is case-sensitive ("photojpg" passes, "photo.PNG" does not) |
| Pagination.CollectPages | packages/vendure-plugin-picqer/src/api/picqer.service.ts:647-666 | The `while (hasMore)` loop collects every row in order, after exactly max(1, ceil(n/1000)) queries |
| Stock.SkuQuery | packages/vendure-plugin-picqer/src/api/picqer.service.ts:651-660 | A row is fetched iff it is in the channel, its SKU is listed and it is not deleted |
| Stock.FindProduct | packages/vendure-plugin-picqer/src/api/picqer.service.ts:498-500 | No product iff the SKU is not among the Picqer products; otherwise a product with that SKU (the first one: `FindProductIsFirst`) |
| Stock.FindProductIsFirst | packages/vendure-plugin-picqer/src/api/picqer.service.ts:498-500 | `find` returns the first Picqer product with the SKU |
| Stock.FreeStock | packages/vendure-plugin-picqer/src/api/picqer.service.ts:504-511 | Only the first warehouse's free stock counts; a missing warehouse or free stock counts as 0 |
| Stock.Reconciled | packages/vendure-plugin-picqer/src/api/picqer.service.ts:498-530 | Only a variant's stock on hand changes, to stockAllocated plus the matched product's free stock; without a match the row is unchanged |
| Stock.ReconcileStep | packages/vendure-plugin-picqer/src/api/picqer.service.ts:524-530 | Writing stockAllocated plus free stock into a matched variant's row reconciles exactly that row and no other |
| Stock.UnmatchedStep | packages/vendure-plugin-picqer/src/api/picqer.service.ts:498-502 | A fetched variant without a Picqer product leaves the table as it is |
| Stock.IdsStep | packages/vendure-plugin-picqer/src/api/picqer.service.ts:496-541 | Handling one more fetched variant adds exactly its id to the handled ids |
| Stock.AdjustmentsStep | packages/vendure-plugin-picqer/src/api/picqer.service.ts:527-538 | Handling one more fetched variant appends at most its own adjustment |
| Stock.ApplyFreeStock | packages/vendure-plugin-picqer/src/api/picqer.service.ts:496-541 | The loop over the fetched variants leaves the table reconciled for their ids, collects their adjustments in order, and counts only the variants a Picqer product matched, since an unmatched one returns before `updateCount++` |
| Stock.ReconcileVariant | packages/vendure-plugin-picqer/src/api/picqer.service.ts:498-538 | One iteration: a matched variant's row is reconciled, its adjustment appended and the iteration reported as an update; an unmatched one changes nothing and is not counted |
| Stock.AdjustmentsAppend | packages/vendure-plugin-picqer/src/api/picqer.service.ts:527-538 | The adjustments of two runs of fetched variants are those of the first followed by those of the second |
| Stock.ReconcileDone | packages/vendure-plugin-picqer/src/api/picqer.service.ts:485-543 | Once every fetched variant is updated, the table is the reconciled table |
| Stock.StockFormula | packages/vendure-plugin-picqer/src/api/picqer.service.ts:503-524 | In `ReconcileAll`, the table after a reconciliation, a matched row gets stockAllocated plus the first warehouse's free stock (0 when missing); every other row is unchanged, and the table keeps its length |
| Stock.AdjustmentsAreDeltas | packages/vendure-plugin-picqer/src/api/picqer.service.ts:527-538 | One adjustment per fetched variant, in order, carrying the new minus the old stock on hand |
| Stock.AdjustmentsLength | packages/vendure-plugin-picqer/src/api/picqer.service.ts:527-538 | When every fetched variant is matched there are exactly as many adjustments as variants |
| Stock.AdjustmentAt | packages/vendure-plugin-picqer/src/api/picqer.service.ts:527-538 | The j-th adjustment is the j-th fetched variant's new minus old stock on hand |
| Stock.OneAdjustmentPerMatchedVariant | packages/vendure-plugin-picqer/src/api/picqer.service.ts:527-541 | The published event has one adjustment per matched variant, of stockAllocated + freestock - stockOnHand |
| Stock.AdjustmentsOfSettledRows | packages/vendure-plugin-picqer/src/api/picqer.service.ts:527-538 | Variants already at the reconciled level yield zero adjustments |
| Stock.ReconcileIdempotent | packages/vendure-plugin-picqer/src/api/picqer.service.ts:485-543 | Reconciling twice with the same Picqer data equals reconciling once, and the second event holds only zero adjustments |
| Stock.LatestPullWins | packages/vendure-plugin-picqer/src/api/picqer.service.ts:485-543 | The stock of a row the later reconciliation matches depends on that reconciliation alone |
| Stock.FindProductAppend | packages/vendure-plugin-picqer/src/api/picqer.service.ts:498-500 | Appending a product with another SKU does not change which product a SKU finds |
| Stock.SkuQuerySameSkus | packages/vendure-plugin-picqer/src/api/picqer.service.ts:489-492 | The query depends only on which SKUs are listed |
| Stock.UnknownSkuIgnored | packages/vendure-plugin-picqer/src/api/picqer.service.ts:489-500 | A Picqer product whose SKU no variant has changes nothing |
| Stock.ScenarioFreeStockTen | packages/vendure-plugin-picqer/src/api/picqer.service.ts:510-538 | 5 allocated and free stock 10 gives 15 on hand and an adjustment of +10 |
| Stock.ScenarioMissingFreeStock | packages/vendure-plugin-picqer/src/api/picqer.service.ts:503-510 | A product without free stock still writes stockAllocated (5) over 8 on hand: adjustment -3 |
| Stock.VariantTable.FindAllVariantsBySku | packages/vendure-plugin-picqer/src/api/picqer.service.ts:642-668 | Returns exactly the non-deleted variants of the channel with a listed SKU, in table order |
| Stock.VariantTable.UpdateStockBySkus | packages/vendure-plugin-picqer/src/api/picqer.service.ts:485-543 | The table becomes the reconciled table, one event with the adjustments is published, and the count is the number of fetched variants |
| Fulfillment.FindLine | packages/vendure-plugin-picqer/src/api/picqer.service.ts:355-357 | No line iff no line has the SKU; otherwise the first line with it |
| Fulfillment.LineFor | packages/vendure-plugin-picqer/src/api/picqer.service.ts:348-366 | A picked product adds one line iff it has a non-zero amount and an order line has its SKU: that first line, with the picked amount |
| Fulfillment.SelectLines | packages/vendure-plugin-picqer/src/api/picqer.service.ts:347-369 | At most one line per picklist product |
| Fulfillment.FindOrder | packages/vendure-plugin-picqer/src/api/picqer.service.ts:338-344 | No order iff no order has the code; otherwise the first order with it |
| Fulfillment.SelectLinesAppend | packages/vendure-plugin-picqer/src/api/picqer.service.ts:347-369 | Each picklist product is judged on its own: selection distributes over concatenation |
| Fulfillment.SelectLinesStep | packages/vendure-plugin-picqer/src/api/picqer.service.ts:347-369 | One more picklist product adds at most its own line, at the end |
| Fulfillment.SelectedLinesSound | packages/vendure-plugin-picqer/src/api/picqer.service.ts:347-369 | Each selected line is an order line whose SKU matches a picked product, with the picked, non-zero quantity; at most one line per product |
| Fulfillment.SelectedLinesComplete | packages/vendure-plugin-picqer/src/api/picqer.service.ts:355-362 | Every picked product that matches an order line selects that line with its picked amount |
| Fulfillment.NothingPickedNothingSelected | packages/vendure-plugin-picqer/src/api/picqer.service.ts:348-354 | With no picked, matching product the fulfillment has no lines |
| Fulfillment.ScenarioPartialFulfillment | packages/vendure-plugin-picqer/src/api/picqer.service.ts:347-369 | Picked amounts 2, 0 and 3 on three lines fulfil lines 1 and 3 with 2 and 3 |
| Fulfillment.ChainOrder | packages/vendure-plugin-picqer/src/api/picqer.service.ts:370-416 | Create, Shipped and Delivered are attempted in order, each only after the previous one was accepted; success iff the fulfillment reaches Delivered |
| Fulfillment.OrderService.FindOneByCode | packages/vendure-plugin-picqer/src/api/picqer.service.ts:338-341 | Returns `FindOrder`'s answer: no order iff no order has the code, otherwise an order with that code |
| Fulfillment.OrderService.CreateFulfillment | packages/vendure-plugin-picqer/src/api/picqer.service.ts:370-377 | An accepted creation appends a Pending fulfillment and returns its id; a rejected one changes nothing but the attempt log |
| Fulfillment.OrderService.TransitionFulfillmentToState | packages/vendure-plugin-picqer/src/api/picqer.service.ts:387-409 | An accepted transition sets that fulfillment's state; a rejected one leaves it |
| Fulfillment.CollectLinesToFulfill | packages/vendure-plugin-picqer/src/api/picqer.service.ts:345-369 | The `forEach` loop yields exactly the selected lines |
| Fulfillment.HandlePicklistClosed | packages/vendure-plugin-picqer/src/api/picqer.service.ts:337-417 | An unknown order reference fails with nothing changed; otherwise the selected lines are fulfilled with the Picqer handler and the chain's result and final state are recorded |
| Fulfillment.FulfillOrder | packages/vendure-plugin-picqer/src/api/picqer.service.ts:345-416 | Collects the selected lines, then runs the create, Shipped, Delivered chain; the fulfillments and attempted steps are those the chain specifies |
| Fulfillment.ShipAndDeliver | packages/vendure-plugin-picqer/src/api/picqer.service.ts:387-416 | A created, Pending fulfillment moves to Shipped and then to Delivered; a rejected transition stops the chain and leaves the state reached |
| Webhooks.WebhookName | packages/vendure-plugin-picqer/src/api/picqer.service.ts:210-213 | The name is "Vendure", the event and the secret's first four characters |
| Webhooks.FindActive | packages/vendure-plugin-picqer/src/api/picqer.service.ts:214-218 | No hook iff no active hook has the event and address; otherwise such a hook |
| Webhooks.FindActiveIsTheActiveHook | packages/vendure-plugin-picqer/src/api/picqer.service.ts:215-222 | With (event, address) unique among active hooks, the lookup returns that hook |
| Webhooks.DeactivateEffect | packages/vendure-plugin-picqer/src/api/picqer.service.ts:219-225 | Deactivating the found hook keeps the table well-formed, leaves no active hook for its event and address, and keeps every other hook |
| Webhooks.DeactivateClears | packages/vendure-plugin-picqer/src/api/picqer.service.ts:219-225 | After deactivation the lookup finds nothing |
| Webhooks.AppendEffect | packages/vendure-plugin-picqer/src/api/picqer.service.ts:226-233 | A new hook with a fresh id keeps the table well-formed and is then the one found |
| Webhooks.EnsureHookEffect | packages/vendure-plugin-picqer/src/api/picqer.service.ts:208-238 | After handling an event, the active hook for it carries the current name, the table stays well-formed, and hooks of other events survive |
| Webhooks.EnsureHookAppends | packages/vendure-plugin-picqer/src/api/picqer.service.ts:219-233 | Handling an event either changes nothing or appends exactly one active hook with the current name, address, event, secret and the next id |
| Webhooks.CurrentHookLeftAlone | packages/vendure-plugin-picqer/src/api/picqer.service.ts:219-226 | A hook with the current name is left alone |
| Webhooks.StaleHookReplaced | packages/vendure-plugin-picqer/src/api/picqer.service.ts:219-233 | A hook with a stale name is deactivated and a new one with the current name and secret is appended |
| Webhooks.RegisteredHooksPresent | packages/vendure-plugin-picqer/src/api/picqer.service.ts:195-243 | After registration both events have an active hook with the current name |
| Webhooks.SecondStepKeepsFirst | packages/vendure-plugin-picqer/src/api/picqer.service.ts:195-243 | Handling the picklist event leaves the current free-stock hook in place |
| Webhooks.TwoStepsPresent | packages/vendure-plugin-picqer/src/api/picqer.service.ts:195-243 | After both steps each event has an active hook named after the event and the secret, and the table is well-formed |
| Webhooks.RegisterIdempotent | packages/vendure-plugin-picqer/src/api/picqer.service.ts:195-243 | Registering again with the same secret changes nothing |
| Webhooks.HookRegistry.GetWebhooks | packages/vendure-plugin-picqer/src/api/picqer.service.ts:214 | Returns the hook table |
| Webhooks.HookRegistry.DeactivateHook | packages/vendure-plugin-picqer/src/api/picqer.service.ts:223 | Only the hook with that id becomes inactive |
| Webhooks.HookRegistry.CreateWebhook | packages/vendure-plugin-picqer/src/api/picqer.service.ts:227-232 | Appends an active hook with a fresh id, or is refused when (event, address) already has an active hook |
| Webhooks.RegisterHook | packages/vendure-plugin-picqer/src/api/picqer.service.ts:208-238 | One iteration of the registration loop performs exactly the table change `EnsureHook` describes |
| Webhooks.RegisterWebhooks | packages/vendure-plugin-picqer/src/api/picqer.service.ts:195-243 | Without a client nothing changes; otherwise both events are registered in order, and the table stays well-formed |
| Jobs.Queued | packages/vendure-plugin-picqer/src/api/picqer.service.ts:422-465 | Every job is enqueued with 10 retries |
| Jobs.JobQueue.Add | packages/vendure-plugin-picqer/src/api/picqer.service.ts:424-433 | Adding appends the job with 10 retries |
| Jobs.JobsFor | packages/vendure-plugin-picqer/src/api/picqer.service.ts:145-186 | A variant event enqueues a push-variants job for its ids iff it is created or updated and some input has a relevant change under the `??` chain; a product event iff it is an update that sets `enabled`; an order placement always enqueues a push-order job |
| Jobs.RelevantChange | packages/vendure-plugin-picqer/src/api/picqer.service.ts:154-156 | The first present field decides: `enabled: false` hides every other change, and any translations array, even an empty one, pushes |
| Jobs.DisablingAloneDoesNotPush | packages/vendure-plugin-picqer/src/api/picqer.service.ts:153-155 | An update whose inputs only set `enabled: false` enqueues nothing |
| Jobs.UnrelatedUpdateDoesNotPush | packages/vendure-plugin-picqer/src/api/picqer.service.ts:153-164 | An update with none of the four fields enqueues nothing |
| Jobs.PriceChangePushes | packages/vendure-plugin-picqer/src/api/picqer.service.ts:153-169 | A non-zero price change (with no enabled or translations field) pushes the event's variants |
| Jobs.OnDomainEvent | packages/vendure-plugin-picqer/src/api/picqer.service.ts:145-186 | The queue gains exactly the jobs `JobsFor` gives |
| Jobs.FullSyncIds | packages/vendure-plugin-picqer/src/api/picqer.service.ts:296-314 | The ids are exactly those of non-deleted, enabled variants of enabled, non-deleted products in the channel |
| Jobs.BatchesFlatten | packages/vendure-plugin-picqer/src/api/picqer.service.ts:316-320 | `Batches`, the `splice(0, 10)` loop, concatenated, gives back the ids in order |
| Jobs.BatchesBounded | packages/vendure-plugin-picqer/src/api/picqer.service.ts:316-320 | Every batch of `Batches` holds 1 to 10 ids, and there are ceil(n/10) of them |
| Jobs.PushJobs | packages/vendure-plugin-picqer/src/api/picqer.service.ts:318-320 | One push-variants job per batch |
| Jobs.FullSyncJobsShape | packages/vendure-plugin-picqer/src/api/picqer.service.ts:316-328 | A full sync enqueues ceil(n/10) push jobs of at most ten ids each, which together are the collected ids, followed by one stock pull |
| Jobs.TriggerFullSync | packages/vendure-plugin-picqer/src/api/picqer.service.ts:290-331 | Returns true; the queue gains the batch jobs and then the stock pull |
| Jobs.EnqueueBatches | packages/vendure-plugin-picqer/src/api/picqer.service.ts:317-321 | The batching loop queues one push job per batch of at most ten ids, in order |
| Jobs.QueuedBatchesStep | packages/vendure-plugin-picqer/src/api/picqer.service.ts:317-321 | Queuing the batches starts with the job for the first ten ids, followed by the jobs for the rest |
| Push.PushVariant | packages/vendure-plugin-picqer/src/api/picqer.service.ts:713-751 | A variant is skipped iff no VAT group has its rate, fails iff it has one but no SKU, else is upserted by SKU with exactly the input `mapToProductInput` builds for that group; the featured image is attached, and only then, when Picqer has no images for the SKU and the variant has one |
| Push.FindProductById | packages/vendure-plugin-picqer/src/api/picqer.service.ts:690 | No product iff none has the id; otherwise the first product with it |
| Push.HasPicqerHandler | packages/vendure-plugin-picqer/src/api/picqer.service.ts:570-572 | An order with no shipping lines never qualifies; any shipping line with the Picqer handler qualifies it |
| Push.CustomerName | packages/vendure-plugin-picqer/src/api/picqer.service.ts:591-594 | `company ?? fullName ?? "first last"`: a present company, even an empty one, is the name |
| Push.PushAll | packages/vendure-plugin-picqer/src/api/picqer.service.ts:712-753 | Every loaded variant is handled on its own, in order |
| Push.PushedAreThePushable | packages/vendure-plugin-picqer/src/api/picqer.service.ts:713-723 | Exactly the variants with a VAT group and a SKU are upserted: a missing VAT group costs only its own variant |
| Push.ScenarioOneUnmappedRate | packages/vendure-plugin-picqer/src/api/picqer.service.ts:713-723 | Five variants, one with an unmapped rate: four upserts and one skip |
| Push.FindByIds | packages/vendure-plugin-picqer/src/api/picqer.service.ts:687 | The loaded variants are exactly the catalog's variants with a requested id |
| Push.DisableVariants | packages/vendure-plugin-picqer/src/api/picqer.service.ts:703-706 | The `forEach` marks every variant of a disabled product disabled and changes nothing else |
| Push.Inactive | packages/vendure-plugin-picqer/src/api/picqer.service.ts:703-706 | Each variant is copied with `enabled` false |
| Push.PushVariantsJob | packages/vendure-plugin-picqer/src/api/picqer.service.ts:675-711 | No client: nothing; ids: the outcomes are those of the catalog's variants with those ids; a (truthy) product id: its variants, forced inactive when the product is disabled, or not-found; neither: an error |
| Push.HandlePushVariantsJob | packages/vendure-plugin-picqer/src/api/picqer.service.ts:675-756 | The handler's result is the one `PushVariantsJob` specifies |
| Push.DisabledProductPushesInactive | packages/vendure-plugin-picqer/src/api/picqer.service.ts:703-706 | Every variant of a disabled product that is upserted is upserted as inactive |
| Push.OrderFailsIffUnpushableLine | packages/vendure-plugin-picqer/src/api/picqer.service.ts:599-619 | `LinesInput`, the `for` loop over the lines, fails iff some line has no VAT group for its rate or no SKU |
| Push.LinesInputComplete | packages/vendure-plugin-picqer/src/api/picqer.service.ts:599-619 | When all lines map, each line is upserted under its SKU with a non-empty name and ordered with its quantity under Picqer's id for that SKU, in line order |
| Push.PrefixErrorIsFinal | packages/vendure-plugin-picqer/src/api/picqer.service.ts:599-609 | The first failing line fails the whole order with its error |
| Push.LinesInputAppend | packages/vendure-plugin-picqer/src/api/picqer.service.ts:599-619 | Mapping two runs of lines one after the other joins their results, the earlier error winning |
| Push.JoinAssociative | packages/vendure-plugin-picqer/src/api/picqer.service.ts:599-619 | Joining mapped runs is associative |
| Push.PushOrderJob | packages/vendure-plugin-picqer/src/api/picqer.service.ts:548-637 | The gates run in order: no client, no order, no Picqer shipping method, no customer. Once they pass, the job fails iff some line fails to map, with that line's error, and is pushed otherwise: one upsert per line, the customer created for registered buyers only (name is company ?? full name ?? "first last"), and the order request exactly as `mapToOrderInput` builds it, linked to that customer |
| Push.PushOrderFailsIffUnpushableLine | packages/vendure-plugin-picqer/src/api/picqer.service.ts:599-637 | For an order past every gate, the job fails iff some line has no VAT group for its rate or no SKU, and the order is pushed otherwise |
| Push.CollectLineInputs | packages/vendure-plugin-picqer/src/api/picqer.service.ts:599-619 | The loop over the order lines yields the upserts and order products `LinesInput` specifies, or the first line's error |
| Push.HandlePushOrderJob | packages/vendure-plugin-picqer/src/api/picqer.service.ts:548-637 | The handler's loop over the lines gives the result `PushOrderJob` specifies |
| Service.RouteHook | packages/vendure-plugin-picqer/src/api/picqer.service.ts:248-288 | No client is a silent return; a client with a bad signature is Forbidden; only a signed hook reaches a handler, stock hooks with `[data]` and picklist hooks with their data |
| Service.HandleHook | packages/vendure-plugin-picqer/src/api/picqer.service.ts:248-288 | Unconfigured, forged and unknown hooks change nothing; a stock hook reconciles that one product; a picklist hook runs `handlePicklistClosed` |
| Service.ForgedHookDoesNothing | packages/vendure-plugin-picqer/src/api/picqer.service.ts:265-271 | A hook with an invalid signature never updates stock or fulfils orders |
| Service.StockHookTouchesOnlyItsSku | packages/vendure-plugin-picqer/src/api/picqer.service.ts:272-273 | A stock hook for one product leaves every variant with another SKU as it was |
| Service.FindOrderById | packages/vendure-plugin-picqer/src/api/picqer.service.ts:554-562 | Finds an order with the id, or none exactly when no order has it |
| Service.HandlePullStockLevelsJob | packages/vendure-plugin-picqer/src/api/picqer.service.ts:471-480 | No client: nothing changes; otherwise all of Picqer's active products are reconciled |
| Service.ProcessJob | packages/vendure-plugin-picqer/src/api/picqer.service.ts:114-143 | Each action goes to its handler; a stock pull without a client changes nothing, and with one it publishes exactly the adjustments of the active products; a handler error fails the job so the queue retries it; an invalid action is only logged and the job succeeds |

## Where the code and its documentation differ

The model follows the code in each of these cases:

- A Picqer product without free stock is documented as "no information, skip the SKU". The code still writes `stockAllocated + 0` and records the adjustment (`Stock.ScenarioMissingFreeStock`).
- A missing VAT group is documented as an item-level failure. That holds for `push-variants` (`Push.PushedAreThePushable`). In `push-order`, the code throws for the whole order (`Push.OrderFailsIffUnpushableLine`).
- A webhook for a channel without a usable configuration returns silently, before its signature is checked (`Service.RouteHook`).
- The variant-event filter uses `??`. An input that only sets `enabled: false` therefore pushes nothing (`Jobs.DisablingAloneDoesNotPush`).
- The registration comment names `orders.completed`. The code registers `products.free_stock_changed` and `picklists.closed`.
- The invoice street, zipcode, city and country are always taken from the shipping address. Only the invoice name and contact follow the billing address (`Mappers.InvoiceZipcodeIgnoresBilling`).

## Left out

- The HTTP client, request signing and Picqer's API: Picqer's answers (ids, images, VAT groups, active products, hook tables) are inputs, and the HMAC check of a webhook is a boolean.
- How the webhook secret is derived and stored: it is a parameter.
- `upsertConfig`: storing the configuration is not modelled. Its webhook registration is `Webhooks.RegisterWebhooks`. The error it swallows from that registration is not modelled.
- `testRequest`: it sends one request to Picqer and answers whether it succeeded. Picqer's API is not part of this model.
- `getConfig`, `getCtxForChannel`, `createDefaultLanguageContext` and request-context serialization: they only load configuration or build request contexts.
- The `pullPicqerProductFields` and `pushProductVariantFields` option callbacks: their extra fields are foreign code; a throwing pull callback is only logged.
- The optional order note: it is the `note` parameter, already computed.
- Logging: it is not modelled.
- Retries and back-off of the job queue: only the retry budget of 10 is recorded.
- Mappers.MapToProductInput: the price stays in integer cents; the conversion to a two-decimal float is not modelled.
- Push.PushVariantsJob: the `Promise.all` upserts run concurrently; the model handles them one after another. A failing variant fails the whole job (`PushVariantsSucceeded`), but which rejection surfaces first is not modelled.
- Stock.VariantTable.UpdateStockBySkus: the concurrent updates are sequential here. Variant rows are assumed to have unique ids.
- Pagination: the query result is a fixed snapshot; rows inserted or deleted while paging are not modelled. Rows come back in table order, since no ORDER BY is given.
- Stock.InSkuQuery: the `IN ()` query with an empty SKU list is read as matching nothing.
- Mappers.FeaturedImage: returns the preview path; reading the file and base64-encoding it are not modelled.
- Push.PushOrderJob: when line k fails, the customer request and the `createOrUpdateProduct` calls for lines 0 to k-1 have already been sent. The error result records neither. The created order's processing step is implied by the pushed result.
- Js.Upper: it upper-cases ASCII letters only. JavaScript's `toUpperCase` also maps other letters (é to É), and ß becomes "SS", which changes the length. This affects the address country (line 928) and the order's delivery and invoice countries (lines 967, 973).
- Tax rates and VAT group percentages are integers. In JavaScript they are numbers and can be fractional (5.5). The code only compares them for equality, which integers model exactly when both sides are whole.
- Jobs.JobsFor: a product update without any input would throw in the subscriber; the model treats it as "no `enabled`" and enqueues nothing.
- Mappers.MapToOrderInput: Picqer's `deliverycity` is never set, and the model keeps it absent as well.
- picqer.handler.ts is not part of this model: the handler code is taken to be `"picqer"`, and the handler's own behaviour is not modelled.
- Fulfillment.HandlePicklistClosed: the fulfillment rules of the commerce framework are the `Verdicts` parameter.
- Identifiers are integers; a zero product id counts as falsy, as it would in JavaScript.
