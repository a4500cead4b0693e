/** Razorpay order creation: the current route (app/api/razorpay/order/route.ts)
    and its older variant (app/api/razorpay/order.ts). Both ask the gateway
    for an order of `amount` rupees noting `credits`, then store the order
    under the gateway's order id with status `created`. */
module RazorpayOrder {
  import opened Base
  import opened Docs
  import opened Js
  import opened RazorpayWebhook
  import opened StripeCheckout

  /** The request body's `credits` and `amount` (JSON integers). */
  datatype OrderRequest = OrderRequest(credits: int, amount: int)

  /** `!credits || !amount` fails: both are non-zero. */
  predicate Filled(req: OrderRequest) {
    req.credits != 0 && req.amount != 0
  }

  /** What the route asks `razorpay.orders.create` for: the amount in paise,
      the currency, and the order's `notes.credits` (the receipt, a timestamp,
      is left out). */
  datatype GatewayOrder = GatewayOrder(amountPaise: int, currency: string, notesCredits: string)

  datatype OrderOutcome = OrderOutcome(resp: Response, orders: Orders)

  /** The gateway request for `req`: the amount times 100, in rupees, with the
      credits written as `String(credits)`, which `parseInt` (with or
      without a radix) reads back. */
  function GatewayRequest(req: OrderRequest): (g: GatewayOrder)
    ensures g.amountPaise == req.amount * 100 && g.currency == "INR"
    ensures ParseIntAuto(g.notesCredits) == Some(req.credits)
  {
    ParseIntAutoOfString(req.credits);
    GatewayOrder(req.amount * 100, "INR", IntToString(req.credits))
  }

  /** The document stored for the caller's order: status `created`, no
      payment yet, and `notes.credits` such that the webhook will credit
      exactly the requested credits. */
  function NewOrder(req: OrderRequest, uid: string): (o: OrderDoc)
    ensures o.userId == Some(uid) && o.amount == req.amount && o.credits == req.credits
    ensures o.status == Created && o.paymentId == None
    ensures OrderCredits(o) == Some(req.credits)
  {
    var g := GatewayRequest(req);
    OrderDoc(Some(uid), req.amount, req.credits, Some(g.notesCredits), Created, None)
  }

  /** The gateway call and the write, common to both routes. `create` is the
      gateway, giving the new order's id or `None` when it throws; `stored`
      tells whether the Firestore write succeeds. Either failure is a 500 with
      nothing stored. */
  function Place(orders: Orders, req: OrderRequest, uid: string, create: GatewayOrder -> Option<string>, stored: bool): (r: OrderOutcome)
    ensures r.resp.Ok? <==> create(GatewayRequest(req)).Some? && stored
    ensures r.resp.Ok? ==>
      var id := create(GatewayRequest(req)).value;
      r == OrderOutcome(Ok(RazorpayOrder(id)), orders[id := NewOrder(req, uid)])
    ensures r.resp.Error? ==> r == OrderOutcome(Error(500), orders)
  {
    var id := create(GatewayRequest(req));
    if id.None? || !stored then OrderOutcome(Error(500), orders)
    else OrderOutcome(Ok(RazorpayOrder(id.value)), orders[id.value := NewOrder(req, uid)])
  }

  /** app/api/razorpay/order/route.ts. `body` is `None` when `req.json()`
      throws; `caller` is the signed-in user's id; `keyId` and `keySecret` are
      the gateway credentials from the environment. */
  function CreateOrder(orders: Orders, body: Option<OrderRequest>, caller: Option<string>,
                       keyId: Option<string>, keySecret: Option<string>,
                       create: GatewayOrder -> Option<string>, stored: bool): (r: OrderOutcome)
    ensures body.None? || !Filled(body.value) ==> r == OrderOutcome(Error(400), orders)
    ensures body.Some? && Filled(body.value) && caller.None? ==> r == OrderOutcome(Error(401), orders)
    ensures body.Some? && Filled(body.value) && caller.Some? && !(Truthy(keyId) && Truthy(keySecret)) ==>
      r == OrderOutcome(Error(500), orders)
    ensures r.resp.Ok? <==>
      && body.Some? && Filled(body.value) && caller.Some? && Truthy(keyId) && Truthy(keySecret)
      && create(GatewayRequest(body.value)).Some? && stored
    ensures r.resp.Ok? ==>
      var id := create(GatewayRequest(body.value)).value;
      r == OrderOutcome(Ok(RazorpayOrder(id)), orders[id := NewOrder(body.value, caller.value)])
    ensures r.resp.Error? ==> r.orders == orders
  {
    if body.None? then OrderOutcome(Error(400), orders)          // "Invalid request body"
    else if !Filled(body.value) then OrderOutcome(Error(400), orders)
    else if caller.None? then OrderOutcome(Error(401), orders)
    else if !Truthy(keyId) || !Truthy(keySecret) then OrderOutcome(Error(500), orders)
    else Place(orders, body.value, caller.value, create, stored)
  }

  /** app/api/razorpay/order.ts: the same flow with fewer guards. An
      unparseable body escapes the handler (500), and the credentials are
      passed on unchecked, so their absence shows only as a failing `create`. */
  function CreateOrderLegacy(orders: Orders, body: Option<OrderRequest>, caller: Option<string>,
                             create: GatewayOrder -> Option<string>, stored: bool): (r: OrderOutcome)
    ensures body.None? ==> r == OrderOutcome(Error(500), orders)
    ensures body.Some? && !Filled(body.value) ==> r == OrderOutcome(Error(400), orders)
    ensures body.Some? && Filled(body.value) && caller.None? ==> r == OrderOutcome(Error(401), orders)
    ensures r.resp.Ok? <==> body.Some? && Filled(body.value) && caller.Some? && create(GatewayRequest(body.value)).Some? && stored
    ensures r.resp.Ok? ==>
      var id := create(GatewayRequest(body.value)).value;
      r == OrderOutcome(Ok(RazorpayOrder(id)), orders[id := NewOrder(body.value, caller.value)])
    ensures r.resp.Error? ==> r.orders == orders
  {
    if body.None? then OrderOutcome(Error(500), orders)
    else if !Filled(body.value) then OrderOutcome(Error(400), orders)
    else if caller.None? then OrderOutcome(Error(401), orders)
    else Place(orders, body.value, caller.value, create, stored)
  }

  /** The route handler of app/api/razorpay/order/route.ts over the database. */
  method HandleCreateOrder(db: Db, body: Option<OrderRequest>, caller: Option<string>,
                           keyId: Option<string>, keySecret: Option<string>,
                           create: GatewayOrder -> Option<string>, stored: bool)
    returns (resp: Response)
    modifies db`orders
    ensures OrderOutcome(resp, db.orders) == CreateOrder(old(db.orders), body, caller, keyId, keySecret, create, stored)
  {
    if body.None? {
      return Error(400);  // "Invalid request body"
    }
    var req := body.value;
    if req.credits == 0 || req.amount == 0 {
      return Error(400);  // "Invalid request: missing credits or amount"
    }
    if caller.None? {
      return Error(401);  // "Not authenticated"
    }
    if !Truthy(keyId) || !Truthy(keySecret) {
      return Error(500);  // "Payment configuration error"
    }
    resp := PlaceOrder(db, req, caller.value, create, stored);
  }

  /** The route handler of app/api/razorpay/order.ts over the database. */
  method HandleCreateOrderLegacy(db: Db, body: Option<OrderRequest>, caller: Option<string>,
                                 create: GatewayOrder -> Option<string>, stored: bool)
    returns (resp: Response)
    modifies db`orders
    ensures OrderOutcome(resp, db.orders) == CreateOrderLegacy(old(db.orders), body, caller, create, stored)
  {
    if body.None? {
      return Error(500);
    }
    var req := body.value;
    if req.credits == 0 || req.amount == 0 {
      return Error(400);  // "Invalid request"
    }
    if caller.None? {
      return Error(401);  // "Not authenticated"
    }
    resp := PlaceOrder(db, req, caller.value, create, stored);
  }

  /** The gateway call and the write of the order document. */
  method PlaceOrder(db: Db, req: OrderRequest, uid: string, create: GatewayOrder -> Option<string>, stored: bool)
    returns (resp: Response)
    modifies db`orders
    ensures OrderOutcome(resp, db.orders) == Place(old(db.orders), req, uid, create, stored)
  {
    var orderId := create(GatewayRequest(req));
    if orderId.None? || !stored {
      return Error(500);  // "Failed to create Razorpay order"
    }
    db.orders := db.orders[orderId.value := NewOrder(req, uid)];
    return Ok(RazorpayOrder(orderId.value));
  }

  /** Every stored order asks the price of a pack for the pack's credits, and
      notes those credits for the webhook. */
  ghost predicate Priced(orders: Orders) {
    forall id :: id in orders ==>
      PackPrice(orders[id].credits) == Some(orders[id].amount) && OrderCredits(orders[id]) == Some(orders[id].credits)
  }

  /** The order route as evidently intended: the requested credits must be a
      pack and the amount its price, else 400. */
  function CreatePricedOrder(orders: Orders, body: Option<OrderRequest>, caller: Option<string>,
                             keyId: Option<string>, keySecret: Option<string>,
                             create: GatewayOrder -> Option<string>, stored: bool): (r: OrderOutcome)
    ensures body.Some? && PackPrice(body.value.credits) != Some(body.value.amount) ==> r == OrderOutcome(Error(400), orders)
    ensures body.None? || PackPrice(body.value.credits) == Some(body.value.amount) ==>
      r == CreateOrder(orders, body, caller, keyId, keySecret, create, stored)
    ensures r.resp.Error? ==> r.orders == orders
  {
    if body.Some? && PackPrice(body.value.credits) != Some(body.value.amount) then OrderOutcome(Error(400), orders)
    else CreateOrder(orders, body, caller, keyId, keySecret, create, stored)
  }

  /** The corrected route keeps every stored order priced. */
  lemma CreatePricedOrderKeepsPriced(orders: Orders, body: Option<OrderRequest>, caller: Option<string>,
                                     keyId: Option<string>, keySecret: Option<string>,
                                     create: GatewayOrder -> Option<string>, stored: bool)
    requires Priced(orders)
    ensures Priced(CreatePricedOrder(orders, body, caller, keyId, keySecret, create, stored).orders)
  {
    var r := CreatePricedOrder(orders, body, caller, keyId, keySecret, create, stored);
    if r.resp.Ok? {
      var id := create(GatewayRequest(body.value)).value;
      assert r.orders == orders[id := NewOrder(body.value, caller.value)];
    }
  }

  /** The route as written stores an order of 1000 credits for 1 rupee (100
      paise) from any signed-in caller. */
  lemma AnyPairIsAccepted(uid: string)
    ensures var r := CreateOrder(map[], Some(OrderRequest(1000, 1)), Some(uid), Some("key"), Some("secret"),
                                 (g: GatewayOrder) => Some("order_1"), true);
            && r.resp == Ok(RazorpayOrder("order_1"))
            && r.orders["order_1"].credits == 1000 && r.orders["order_1"].amount == 1
            && !Priced(r.orders)
  {
    var r := CreateOrder(map[], Some(OrderRequest(1000, 1)), Some(uid), Some("key"), Some("secret"),
                         (g: GatewayOrder) => Some("order_1"), true);
    assert PackPrice(1000) == Some(599);
    assert "order_1" in r.orders;
  }
}
