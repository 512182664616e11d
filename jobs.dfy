/**
 * The `picqer-sync` job queue: the three job kinds, the domain-event
 * filters that enqueue them, and the full sync, which enqueues every
 * active variant of a channel in batches followed by one stock pull.
 */
module Jobs {
  import opened Wrappers
  import Pagination
  import opened Stock

  /** The job payloads; `InvalidAction` stands for a payload with any other `action`. */
  datatype Job =
    | PushVariants(variantIds: Option<seq<int>>, productId: Option<int>)
    | PullStockLevels
    | PushOrder(orderId: int)
    | InvalidAction(action: string)

  /** A job as enqueued, with its retry budget. */
  datatype QueuedJob = QueuedJob(job: Job, retries: nat)

  /** `{ retries: 10 }`, used for every job. */
  const Retries: nat := 10

  /** `const batchSize = 10` of the full sync. */
  const BatchSize: nat := 10

  function Queued(js: seq<Job>): (r: seq<QueuedJob>)
    ensures |r| == |js| && forall k :: 0 <= k < |js| ==> r[k] == QueuedJob(js[k], Retries)
  {
    seq(|js|, k requires 0 <= k < |js| => QueuedJob(js[k], Retries))
  }

  /** The queue's store of pending jobs. */
  class JobQueue {
    var jobs: seq<QueuedJob>

    constructor ()
      ensures jobs == []
    {
      jobs := [];
    }

    /** `jobQueue.add(job, { retries: 10 })`. */
    method Add(job: Job)
      modifies this
      ensures jobs == old(jobs) + [QueuedJob(job, Retries)]
    {
      jobs := jobs + [QueuedJob(job, Retries)];
    }
  }

  // ---------------------------------------------------------------- event filters

  datatype EventType = Created | Updated | Deleted

  /**
   * The fields of a variant create/update input that the filter looks at;
   * `translations` is the length of the translations array.
   */
  datatype VariantInput = VariantInput(
    enabled: Option<bool>,
    translations: Option<nat>,
    price: Option<int>,
    taxCategoryId: Option<int>)

  /**
   * `v.enabled ?? v.translations ?? v.price ?? v.taxCategoryId`, taken as
   * a truth value: the first field that is present decides. An array is
   * truthy even when empty; a zero price or id is falsy.
   */
  predicate RelevantChange(v: VariantInput)
    // an explicit `enabled: false` hides every other field
    ensures v.enabled == Some(false) ==> !RelevantChange(v)
    // an absent `enabled` with any translations array, even an empty one, pushes
    ensures v.enabled.None? && v.translations.Some? ==> RelevantChange(v)
    ensures RelevantChange(v) ==> v.enabled.Some? || v.translations.Some? || v.price.Some? || v.taxCategoryId.Some?
  {
    if v.enabled.Some? then v.enabled.value
    else if v.translations.Some? then true
    else if v.price.Some? then v.price.value != 0
    else if v.taxCategoryId.Some? then v.taxCategoryId.value != 0
    else false
  }

  /** `input?.some(...)`: no input means no push. */
  predicate ShouldPushVariants(input: Option<seq<VariantInput>>) {
    input.Some? && exists v :: v in input.value && RelevantChange(v)
  }

  /** The domain events the service subscribes to. */
  datatype DomainEvent =
    | VariantEvent(eventType: EventType, variantIds: seq<int>, input: Option<seq<VariantInput>>)
    | ProductEvent(productEventType: EventType, productId: int, enabledInput: Option<bool>)
    | OrderPlaced(placedOrderId: int)

  /** The jobs one domain event enqueues. */
  function JobsFor(e: DomainEvent): (r: seq<Job>)
    ensures |r| <= 1
    ensures e.VariantEvent? ==>
      (r != [] <==> (e.eventType == Created || e.eventType == Updated) && ShouldPushVariants(e.input))
    ensures e.VariantEvent? && r != [] ==> r == [PushVariants(Some(e.variantIds), None)]
    ensures e.ProductEvent? ==>
      (r != [] <==> e.productEventType == Updated && e.enabledInput.Some?)
    ensures e.ProductEvent? && r != [] ==> r == [PushVariants(None, Some(e.productId))]
    ensures e.OrderPlaced? ==> r == [PushOrder(e.placedOrderId)]
  {
    match e
    case VariantEvent(t, ids, input) =>
      if (t == Created || t == Updated) && ShouldPushVariants(input) then [PushVariants(Some(ids), None)] else []
    case ProductEvent(t, id, enabled) =>
      if t == Updated && enabled.Some? then [PushVariants(None, Some(id))] else []
    case OrderPlaced(id) => [PushOrder(id)]
  }

  /**
   * An input that sets `enabled: false` decides the filter by itself, even
   * when it also changes the price: the push is triggered only if another
   * input in the same event is relevant.
   */
  lemma DisablingAloneDoesNotPush(ids: seq<int>, inputs: seq<VariantInput>)
    requires forall v :: v in inputs ==> v.enabled == Some(false)
    ensures JobsFor(VariantEvent(Updated, ids, Some(inputs))) == []
  {
  }

  /** An update touching none of the four fields enqueues nothing. */
  lemma UnrelatedUpdateDoesNotPush(ids: seq<int>, inputs: seq<VariantInput>)
    requires forall v :: v in inputs ==> v == VariantInput(None, None, None, None)
    ensures JobsFor(VariantEvent(Updated, ids, Some(inputs))) == []
  {
  }

  /** A new non-zero price in any input pushes the event's variants, unless that input also carries `enabled`. */
  lemma PriceChangePushes(ids: seq<int>, inputs: seq<VariantInput>, k: nat)
    requires k < |inputs| && inputs[k].enabled.None? && inputs[k].translations.None?
    requires inputs[k].price.Some? && inputs[k].price.value != 0
    ensures JobsFor(VariantEvent(Updated, ids, Some(inputs))) == [PushVariants(Some(ids), None)]
  {
    assert inputs[k] in inputs;
  }

  /** The event subscribers: enqueue the event's jobs. */
  method OnDomainEvent(queue: JobQueue, e: DomainEvent)
    modifies queue
    ensures queue.jobs == old(queue.jobs) + Queued(JobsFor(e))
  {
    var js := JobsFor(e);
    if js != [] {
      queue.Add(js[0]);
    }
  }

  // ---------------------------------------------------------------- full sync

  /** The filter of the full-sync query: in the channel, variant and product enabled and not deleted. */
  predicate InFullSync(r: VariantRow, channelId: int) {
    channelId in r.channels && !r.deleted && r.enabled && !r.productDeleted && r.productEnabled
  }

  /** The ids the full-sync query returns, in table order. */
  function FullSyncIds(rows: seq<VariantRow>, channelId: int): (r: seq<int>)
    ensures |r| <= |rows|
    ensures forall id :: id in r <==> exists v :: v in rows && InFullSync(v, channelId) && v.id == id
  {
    if rows == [] then []
    else
      var rest := FullSyncIds(rows[1..], channelId);
      assert forall v :: v in rows <==> v == rows[0] || v in rows[1..];
      if InFullSync(rows[0], channelId) then [rows[0].id] + rest else rest
  }

  /** `variantIds.splice(0, batchSize)` until empty: consecutive batches of at most ten ids. */
  function Batches(ids: seq<int>): seq<seq<int>>
    decreases |ids|
  {
    if ids == [] then []
    else
      var n := Pagination.Min(BatchSize, |ids|);
      [ids[..n]] + Batches(ids[n..])
  }

  function Flatten(bs: seq<seq<int>>): seq<int> {
    if bs == [] then [] else bs[0] + Flatten(bs[1..])
  }

  /** Concatenating the batches gives back the ids, in order. */
  lemma {:induction false} BatchesFlatten(ids: seq<int>)
    ensures Flatten(Batches(ids)) == ids
    decreases |ids|
  {
    if ids != [] {
      var n := Pagination.Min(BatchSize, |ids|);
      BatchesFlatten(ids[n..]);
      assert ids[..n] + ids[n..] == ids;
    }
  }

  /** Every batch holds between one and ten ids, and there are ⌈|ids| / 10⌉ of them. */
  lemma {:induction false} BatchesBounded(ids: seq<int>)
    ensures forall b :: b in Batches(ids) ==> 0 < |b| <= BatchSize
    ensures |Batches(ids)| == (|ids| + BatchSize - 1) / BatchSize
    decreases |ids|
  {
    if ids != [] {
      var n := Pagination.Min(BatchSize, |ids|);
      BatchesBounded(ids[n..]);
    }
  }

  function PushJobs(bs: seq<seq<int>>): (r: seq<Job>)
    ensures |r| == |bs| && forall k :: 0 <= k < |bs| ==> r[k] == PushVariants(Some(bs[k]), None)
  {
    seq(|bs|, k requires 0 <= k < |bs| => PushVariants(Some(bs[k]), None))
  }

  /** The jobs one full sync enqueues: a push job per batch, then one stock pull. */
  function FullSyncJobs(ids: seq<int>): seq<Job> {
    PushJobs(Batches(ids)) + [PullStockLevels]
  }

  /**
   * The full sync enqueues push jobs whose id lists are consecutive, at
   * most ten long, and together exactly the collected ids; the last job
   * is the single stock pull.
   */
  lemma FullSyncJobsShape(ids: seq<int>)
    ensures var js := FullSyncJobs(ids);
      |js| == (|ids| + BatchSize - 1) / BatchSize + 1 &&
      js[|js| - 1] == PullStockLevels &&
      (forall k :: 0 <= k < |js| - 1 ==>
         js[k].PushVariants? && js[k].productId.None? && js[k].variantIds.Some? &&
         0 < |js[k].variantIds.value| <= BatchSize) &&
      Flatten(Batches(ids)) == ids
  {
    BatchesBounded(ids);
    BatchesFlatten(ids);
    var bs := Batches(ids);
    forall k | 0 <= k < |bs|
      ensures 0 < |bs[k]| <= BatchSize
    {
      assert bs[k] in bs;
    }
  }

  lemma QueuedAppend(a: seq<Job>, b: seq<Job>)
    ensures Queued(a + b) == Queued(a) + Queued(b)
  {
    var l := Queued(a + b);
    var r := Queued(a) + Queued(b);
    forall k | 0 <= k < |l|
      ensures l[k] == r[k]
    {
      if k >= |a| {
        assert (a + b)[k] == b[k - |a|];
      }
    }
  }

  lemma PushJobsCons(b: seq<int>, bs: seq<seq<int>>)
    ensures PushJobs([b] + bs) == [PushVariants(Some(b), None)] + PushJobs(bs)
  {
    var l := PushJobs([b] + bs);
    var r := [PushVariants(Some(b), None)] + PushJobs(bs);
    forall k | 0 <= k < |l|
      ensures l[k] == r[k]
    {
      if k > 0 {
        assert ([b] + bs)[k] == bs[k - 1];
      }
    }
  }

  /** Queuing the batches starts with the job for the first ten ids. */
  lemma QueuedBatchesStep(ids: seq<int>)
    requires ids != []
    ensures var n := Pagination.Min(BatchSize, |ids|);
      Queued(PushJobs(Batches(ids)))
        == [QueuedJob(PushVariants(Some(ids[..n]), None), Retries)] + Queued(PushJobs(Batches(ids[n..])))
  {
    var n := Pagination.Min(BatchSize, |ids|);
    assert Batches(ids) == [ids[..n]] + Batches(ids[n..]);
    PushJobsCons(ids[..n], Batches(ids[n..]));
    QueuedAppend([PushVariants(Some(ids[..n]), None)], PushJobs(Batches(ids[n..])));
  }

  /** Queuing the full-sync jobs is queuing the push jobs, then the stock pull. */
  lemma QueuedFullSync(ids: seq<int>)
    ensures Queued(FullSyncJobs(ids)) == Queued(PushJobs(Batches(ids))) + [QueuedJob(PullStockLevels, Retries)]
  {
    var all := Queued(FullSyncJobs(ids));
    var pushes := Queued(PushJobs(Batches(ids)));
    forall k | 0 <= k < |all|
      ensures all[k] == (pushes + [QueuedJob(PullStockLevels, Retries)])[k]
    {
    }
  }

  /** The `while (variantIds.length)` loop: one push job per batch, in order. */
  method EnqueueBatches(queue: JobQueue, ids: seq<int>)
    modifies queue
    ensures queue.jobs == old(queue.jobs) + Queued(PushJobs(Batches(ids)))
  {
    var variantIds := ids;
    while |variantIds| > 0
      invariant queue.jobs + Queued(PushJobs(Batches(variantIds))) == old(queue.jobs) + Queued(PushJobs(Batches(ids)))
      decreases |variantIds|
    {
      var n := Pagination.Min(BatchSize, |variantIds|);
      var batch := variantIds[..n];
      QueuedBatchesStep(variantIds);
      ghost var before := queue.jobs;
      ghost var rest := Queued(PushJobs(Batches(variantIds[n..])));
      assert before + ([QueuedJob(PushVariants(Some(batch), None), Retries)] + rest)
        == (before + [QueuedJob(PushVariants(Some(batch), None), Retries)]) + rest;
      variantIds := variantIds[n..];
      queue.Add(PushVariants(Some(batch), None));
    }
    assert Queued(PushJobs(Batches(variantIds))) == [];
    assert queue.jobs + [] == queue.jobs;
  }

  /** `triggerFullSync`. */
  method TriggerFullSync(queue: JobQueue, rows: seq<VariantRow>, channelId: int) returns (ok: bool)
    modifies queue
    ensures ok
    ensures queue.jobs == old(queue.jobs) + Queued(FullSyncJobs(FullSyncIds(rows, channelId)))
  {
    var variantIds, queries := Pagination.CollectPages(FullSyncIds(rows, channelId));
    EnqueueBatches(queue, variantIds);
    queue.Add(PullStockLevels);
    QueuedFullSync(variantIds);
    ok := true;
  }
}
