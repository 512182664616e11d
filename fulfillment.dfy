/**
 * Closing a Picqer picklist (`handlePicklistClosed`): the picked products
 * choose the order lines to fulfil, a fulfillment is created for them and
 * then moved to Shipped and on to Delivered. A rejected step ends the chain.
 */
module Fulfillment {
  import opened Wrappers
  import opened Domain

  /** One product of the closed picklist; `amountpicked` may be absent. */
  datatype PickListProduct = PickListProduct(productcode: string, amountpicked: Option<int>)

  /** `reference` is the order's code. */
  datatype PickListData = PickListData(reference: string, products: seq<PickListProduct>)

  datatype OrderLineInput = OrderLineInput(orderLineId: int, quantity: int)

  datatype FulfillmentState = Pending | Shipped | Delivered

  datatype FulfillmentRecord = FulfillmentRecord(handlerCode: string, lines: seq<OrderLineInput>, state: FulfillmentState)

  /** The calls the handler makes on the commerce system's fulfillment process. */
  datatype Step = Create | ToShipped | ToDelivered

  /**
   * Whether the commerce system's own fulfillment rules (not part of this
   * model) accept the creation and each of the two transitions.
   */
  datatype Verdicts = Verdicts(create: bool, shipped: bool, delivered: bool)

  datatype FulfillmentError = NoOrder(code: string) | Rejected(step: Step)

  /** `!!amountpicked`: present and non-zero. */
  predicate Picked(p: PickListProduct) {
    p.amountpicked.Some? && p.amountpicked.value != 0
  }

  /** `order.lines.find(l => l.productVariant.sku === sku)`. */
  function FindLine(lines: seq<OrderLine>, sku: string): (r: Option<OrderLine>)
    ensures r.None? <==> forall k :: 0 <= k < |lines| ==> lines[k].variant.sku != sku
    ensures r.Some? ==> exists k :: 0 <= k < |lines| && lines[k] == r.value &&
                          r.value.variant.sku == sku &&
                          forall j :: 0 <= j < k ==> lines[j].variant.sku != sku
  {
    if lines == [] then None
    else if lines[0].variant.sku == sku then Some(lines[0])
    else
      var r := FindLine(lines[1..], sku);
      if r.Some? then
        ghost var k :| 0 <= k < |lines[1..]| && lines[1..][k] == r.value &&
                       forall j :: 0 <= j < k ==> lines[1..][j].variant.sku != sku;
        assert lines[k + 1] == r.value;
        r
      else
        r
  }

  /** What one picked product contributes: a line for its first matching order line, or nothing. */
  function LineFor(lines: seq<OrderLine>, p: PickListProduct): (r: seq<OrderLineInput>)
    ensures |r| <= 1
    ensures r != [] <==> Picked(p) && FindLine(lines, p.productcode).Some?
    // the line is one of the order's, with that SKU, fulfilled with the picked amount
    ensures r != [] ==> exists k :: 0 <= k < |lines| && lines[k].id == r[0].orderLineId &&
                          lines[k].variant.sku == p.productcode && r[0].quantity == p.amountpicked.value != 0
  {
    if Picked(p) && FindLine(lines, p.productcode).Some?
    then [OrderLineInput(FindLine(lines, p.productcode).value.id, p.amountpicked.value)]
    else []
  }

  /** The order lines to fulfil for the picked products `ps`, in picklist order. */
  function SelectLines(lines: seq<OrderLine>, ps: seq<PickListProduct>): (r: seq<OrderLineInput>)
    ensures |r| <= |ps|
  {
    if ps == [] then [] else LineFor(lines, ps[0]) + SelectLines(lines, ps[1..])
  }

  /** Selection distributes over the picklist: each product is judged on its own. */
  lemma {:induction false} SelectLinesAppend(lines: seq<OrderLine>, ps: seq<PickListProduct>, qs: seq<PickListProduct>)
    ensures SelectLines(lines, ps + qs) == SelectLines(lines, ps) + SelectLines(lines, qs)
    decreases |ps|
  {
    if ps == [] {
      assert ps + qs == qs;
    } else {
      assert (ps + qs)[0] == ps[0];
      assert (ps + qs)[1..] == ps[1..] + qs;
      SelectLinesAppend(lines, ps[1..], qs);
    }
  }

  /** One more picklist product adds at most its own line. */
  lemma SelectLinesStep(lines: seq<OrderLine>, ps: seq<PickListProduct>, i: nat)
    requires i < |ps|
    ensures SelectLines(lines, ps[..i + 1]) == SelectLines(lines, ps[..i]) + LineFor(lines, ps[i])
  {
    assert ps[..i + 1] == ps[..i] + [ps[i]];
    SelectLinesAppend(lines, ps[..i], [ps[i]]);
    assert SelectLines(lines, [ps[i]]) == LineFor(lines, ps[i]) + SelectLines(lines, []);
  }

  /**
   * Every selected line fulfils a non-zero quantity of an existing order
   * line, and comes from a picked product with that line's SKU.
   */
  lemma {:induction false} SelectedLinesSound(lines: seq<OrderLine>, ps: seq<PickListProduct>)
    ensures |SelectLines(lines, ps)| <= |ps|
    ensures forall x :: x in SelectLines(lines, ps) ==>
      x.quantity != 0 &&
      exists p, l :: p in ps && l in lines && Picked(p) && l.id == x.orderLineId &&
                     l.variant.sku == p.productcode && x.quantity == p.amountpicked.value
  {
    if ps != [] {
      var first, rest := ps[0], ps[1..];
      SelectedLinesSound(lines, rest);
      assert forall p :: p in rest ==> p in ps;
      assert first in ps;
      if Picked(first) && FindLine(lines, first.productcode).Some? {
        var l := FindLine(lines, first.productcode).value;
        assert l in lines;
      }
    }
  }

  /**
   * Every picked product whose SKU matches an order line yields a line for
   * the first such order line, with the picked amount as quantity.
   */
  lemma {:induction false} SelectedLinesComplete(lines: seq<OrderLine>, ps: seq<PickListProduct>, j: nat)
    requires j < |ps| && Picked(ps[j]) && FindLine(lines, ps[j].productcode).Some?
    ensures OrderLineInput(FindLine(lines, ps[j].productcode).value.id, ps[j].amountpicked.value) in SelectLines(lines, ps)
  {
    var rest := ps[1..];
    if j > 0 {
      assert rest[j - 1] == ps[j];
      SelectedLinesComplete(lines, rest, j - 1);
    }
  }

  /** A picklist none of whose products is both picked and on the order fulfils nothing. */
  lemma {:induction false} NothingPickedNothingSelected(lines: seq<OrderLine>, ps: seq<PickListProduct>)
    requires forall p :: p in ps ==> !Picked(p) || FindLine(lines, p.productcode).None?
    ensures SelectLines(lines, ps) == []
  {
    if ps != [] {
      assert forall p :: p in ps[1..] ==> p in ps;
      NothingPickedNothingSelected(lines, ps[1..]);
      assert ps[0] in ps;
    }
  }

  /** An order with three lines, a picklist picking two of them: two lines are fulfilled. */
  lemma ScenarioPartialFulfillment(a: Variant, b: Variant, c: Variant)
    requires a.sku == "A" && b.sku == "B" && c.sku == "C"
    ensures var lines := [OrderLine(1, a, 2), OrderLine(2, b, 1), OrderLine(3, c, 4)];
      var ps := [PickListProduct("A", Some(2)), PickListProduct("B", Some(0)), PickListProduct("C", Some(3))];
      SelectLines(lines, ps) == [OrderLineInput(1, 2), OrderLineInput(3, 3)]
  {
    var lines := [OrderLine(1, a, 2), OrderLine(2, b, 1), OrderLine(3, c, 4)];
    var ps := [PickListProduct("A", Some(2)), PickListProduct("B", Some(0)), PickListProduct("C", Some(3))];
    assert ps[1..] == [ps[1], ps[2]];
    assert ps[1..][1..] == [ps[2]];
    assert [ps[2]][1..] == [];
    assert FindLine(lines, "A") == Some(lines[0]);
    assert lines[1..][1..] == [lines[2]];
    assert FindLine(lines, "C") == Some(lines[2]);
    assert LineFor(lines, ps[0]) == [OrderLineInput(1, 2)];
    assert LineFor(lines, ps[1]) == [];
    assert LineFor(lines, ps[2]) == [OrderLineInput(3, 3)];
    assert SelectLines(lines, [ps[2]]) == [OrderLineInput(3, 3)];
    assert SelectLines(lines, ps[1..]) == LineFor(lines, ps[1]) + SelectLines(lines, [ps[2]]);
    assert SelectLines(lines, ps) == LineFor(lines, ps[0]) + SelectLines(lines, ps[1..]);
  }

  /** `orderService.findOneByCode`. */
  function FindOrder(orders: seq<Order>, code: string): (r: Option<Order>)
    ensures r.None? <==> forall k :: 0 <= k < |orders| ==> orders[k].code != code
    ensures r.Some? ==> exists k :: 0 <= k < |orders| && orders[k] == r.value && r.value.code == code &&
                          forall j :: 0 <= j < k ==> orders[j].code != code
  {
    if orders == [] then None
    else if orders[0].code == code then Some(orders[0])
    else
      var r := FindOrder(orders[1..], code);
      if r.Some? then
        ghost var k :| 0 <= k < |orders[1..]| && orders[1..][k] == r.value &&
                       forall j :: 0 <= j < k ==> orders[1..][j].code != code;
        assert orders[k + 1] == r.value;
        r
      else
        r
  }

  /** The steps the chain attempts: it stops at the first rejected one. */
  function StepsAttempted(v: Verdicts): seq<Step> {
    if !v.create then [Create]
    else if !v.shipped then [Create, ToShipped]
    else [Create, ToShipped, ToDelivered]
  }

  /** Where the created fulfillment ends up. */
  function FinalState(v: Verdicts): FulfillmentState {
    if !v.shipped then Pending else if !v.delivered then Shipped else Delivered
  }

  function ChainResult(v: Verdicts): Result<(), FulfillmentError> {
    if !v.create then Err(Rejected(Create))
    else if !v.shipped then Err(Rejected(ToShipped))
    else if !v.delivered then Err(Rejected(ToDelivered))
    else Ok(())
  }

  /**
   * The chain runs create, Shipped, Delivered in that order; Delivered is
   * attempted only after Shipped was accepted, and the handler succeeds
   * exactly when the fulfillment reaches Delivered.
   */
  lemma ChainOrder(v: Verdicts)
    ensures StepsAttempted(v) <= [Create, ToShipped, ToDelivered] && StepsAttempted(v)[0] == Create
    ensures ToShipped in StepsAttempted(v) <==> v.create
    ensures ToDelivered in StepsAttempted(v) <==> v.create && v.shipped
    ensures ChainResult(v).Ok? <==> v.create && v.shipped && v.delivered
    ensures v.create ==> (ChainResult(v).Ok? <==> FinalState(v) == Delivered)
    ensures ChainResult(v).Err? ==> ChainResult(v).error.step == StepsAttempted(v)[|StepsAttempted(v)| - 1]
  {
  }

  /**
   * The commerce system's order and fulfillment data, and the log of the
   * fulfillment steps requested from it.
   */
  class OrderService {
    var orders: seq<Order>
    var fulfillments: seq<FulfillmentRecord>
    var attempts: seq<Step>

    constructor (orders0: seq<Order>)
      ensures orders == orders0 && fulfillments == [] && attempts == []
    {
      orders := orders0;
      fulfillments := [];
      attempts := [];
    }

    method FindOneByCode(code: string) returns (o: Option<Order>)
      ensures o == FindOrder(orders, code)
      ensures o.None? <==> forall x :: x in orders ==> x.code != code
      ensures o.Some? ==> o.value in orders && o.value.code == code
    {
      var i := 0;
      o := None;
      while i < |orders|
        invariant 0 <= i <= |orders|
        invariant FindOrder(orders, code) == FindOrder(orders[i..], code)
      {
        assert orders[i..][1..] == orders[i + 1..];
        if orders[i].code == code {
          o := Some(orders[i]);
          return;
        }
        i := i + 1;
      }
    }

    /** `orderService.createFulfillment`: a new Pending fulfillment when accepted. */
    method CreateFulfillment(handlerCode: string, lines: seq<OrderLineInput>, accepted: bool)
      returns (r: Result<nat, FulfillmentError>)
      modifies this
      ensures orders == old(orders) && attempts == old(attempts) + [Create]
      ensures accepted ==> (r == Ok(|old(fulfillments)|) &&
        fulfillments == old(fulfillments) + [FulfillmentRecord(handlerCode, lines, Pending)])
      ensures !accepted ==> r == Err(Rejected(Create)) && fulfillments == old(fulfillments)
    {
      attempts := attempts + [Create];
      if accepted {
        r := Ok(|fulfillments|);
        fulfillments := fulfillments + [FulfillmentRecord(handlerCode, lines, Pending)];
      } else {
        r := Err(Rejected(Create));
      }
    }

    /** `orderService.transitionFulfillmentToState` to Shipped or Delivered. */
    method TransitionFulfillmentToState(id: nat, to: FulfillmentState, accepted: bool)
      returns (r: Result<(), FulfillmentError>)
      requires id < |fulfillments| && to != Pending
      modifies this
      ensures orders == old(orders)
      ensures attempts == old(attempts) + [if to == Shipped then ToShipped else ToDelivered]
      ensures accepted ==> r.Ok? && fulfillments == old(fulfillments)[id := old(fulfillments)[id].(state := to)]
      ensures !accepted ==> (r == Err(Rejected(if to == Shipped then ToShipped else ToDelivered)) &&
        fulfillments == old(fulfillments))
    {
      var step := if to == Shipped then ToShipped else ToDelivered;
      attempts := attempts + [step];
      if accepted {
        fulfillments := fulfillments[id := fulfillments[id].(state := to)];
        r := Ok(());
      } else {
        r := Err(Rejected(step));
      }
    }
  }

  /** The `forEach` that collects the order lines to fulfil. */
  method CollectLinesToFulfill(lines: seq<OrderLine>, ps: seq<PickListProduct>) returns (toFulfill: seq<OrderLineInput>)
    ensures toFulfill == SelectLines(lines, ps)
  {
    toFulfill := [];
    var i := 0;
    while i < |ps|
      invariant 0 <= i <= |ps|
      invariant toFulfill == SelectLines(lines, ps[..i])
    {
      var p := ps[i];
      SelectLinesStep(lines, ps, i);
      if Picked(p) {
        var line := FindLine(lines, p.productcode);
        if line.Some? {
          toFulfill := toFulfill + [OrderLineInput(line.value.id, p.amountpicked.value)];
        }
      }
      i := i + 1;
    }
    assert ps[..i] == ps;
  }

  /** Moves a created fulfillment to Shipped and then to Delivered; a rejected transition ends the chain. */
  method ShipAndDeliver(svc: OrderService, id: nat, verdicts: Verdicts) returns (r: Result<(), FulfillmentError>)
    requires verdicts.create && id < |svc.fulfillments| && svc.fulfillments[id].state == Pending
    modifies svc
    ensures svc.orders == old(svc.orders)
    ensures r == ChainResult(verdicts)
    ensures svc.attempts == old(svc.attempts) + StepsAttempted(verdicts)[1..]
    ensures svc.fulfillments == old(svc.fulfillments)[id := old(svc.fulfillments)[id].(state := FinalState(verdicts))]
  {
    var shipped := svc.TransitionFulfillmentToState(id, Shipped, verdicts.shipped);
    if shipped.Err? {
      assert svc.fulfillments == old(svc.fulfillments)[id := old(svc.fulfillments)[id].(state := Pending)];
      return shipped;
    }
    var delivered := svc.TransitionFulfillmentToState(id, Delivered, verdicts.delivered);
    if delivered.Err? {
      return delivered;
    }
    r := Ok(());
  }

  /** Fulfils the selected lines of a found order: create, then Shipped, then Delivered. */
  method FulfillOrder(svc: OrderService, order: Order, products: seq<PickListProduct>, verdicts: Verdicts)
    returns (r: Result<(), FulfillmentError>)
    modifies svc
    ensures svc.orders == old(svc.orders)
    ensures r == ChainResult(verdicts)
    ensures svc.attempts == old(svc.attempts) + StepsAttempted(verdicts)
    ensures svc.fulfillments == old(svc.fulfillments) +
      (if verdicts.create
       then [FulfillmentRecord(PicqerHandlerCode, SelectLines(order.lines, products), FinalState(verdicts))]
       else [])
  {
    var toFulfill := CollectLinesToFulfill(order.lines, products);
    var created := svc.CreateFulfillment(PicqerHandlerCode, toFulfill, verdicts.create);
    if created.Err? {
      return Err(created.error);
    }
    r := ShipAndDeliver(svc, created.value, verdicts);
  }

  /** `handlePicklistClosed`. */
  method HandlePicklistClosed(svc: OrderService, data: PickListData, verdicts: Verdicts)
    returns (r: Result<(), FulfillmentError>)
    modifies svc
    ensures svc.orders == old(svc.orders)
    ensures FindOrder(old(svc.orders), data.reference).None? ==>
      r == Err(NoOrder(data.reference)) &&
      svc.fulfillments == old(svc.fulfillments) && svc.attempts == old(svc.attempts)
    ensures FindOrder(old(svc.orders), data.reference).Some? ==>
      r == ChainResult(verdicts) &&
      svc.attempts == old(svc.attempts) + StepsAttempted(verdicts) &&
      svc.fulfillments == old(svc.fulfillments) +
        (if verdicts.create
         then [FulfillmentRecord(PicqerHandlerCode,
                 SelectLines(FindOrder(old(svc.orders), data.reference).value.lines, data.products),
                 FinalState(verdicts))]
         else [])
  {
    var order := svc.FindOneByCode(data.reference);
    if order.None? {
      return Err(NoOrder(data.reference));
    }
    r := FulfillOrder(svc, order.value, data.products, verdicts);
  }
}
