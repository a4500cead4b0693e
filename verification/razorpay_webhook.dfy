/** The Razorpay webhook (app/api/razorpay/webhook.ts): check the
    `x-razorpay-signature` header against the HMAC-SHA256 hex digest of the raw
    body, then settle `payment.captured` (credit the order's owner, then mark
    the order completed) or `payment.failed` (mark the order failed). */
module RazorpayWebhook {
  import opened Base
  import opened Docs
  import opened Js
  import opened Ledger

  /** `event.payload.payment.entity`. */
  datatype PaymentEntity = PaymentEntity(orderId: string, paymentId: string)

  /** A parsed webhook body: `event.event`, and the payment entity when the
      payload carries one. */
  datatype Event = Event(name: string, entity: Option<PaymentEntity>)

  datatype Outcome = Outcome(resp: Response, users: Users, orders: Orders)

  /** The credits an order grants: `parseInt(orderData.notes.credits || '0')`,
      with no radix, `None` for NaN. Neither the order's `credits` field nor the
      payload is read. Absent or empty notes read as 0, which the route refuses. */
  function OrderCredits(o: OrderDoc): (c: Option<int>)
    ensures o.notesCredits.None? || o.notesCredits == Some("") ==> c == Some(0)
    ensures o.notesCredits.Some? && o.notesCredits.value != "" ==> c == ParseIntAuto(o.notesCredits.value)
  {
    var text := OrElse(o.notesCredits, "0");
    if text == "0" then ParseIntOfZeroText(text); ParseIntAuto(text)
    else ParseIntAuto(text)
  }

  /** The order passes `if (!userId || !credits)`: an owner, and a credit count that is neither NaN nor 0. */
  predicate Payable(o: OrderDoc)
    ensures Payable(o) ==> o.notesCredits.Some? && o.notesCredits.value != ""
  {
    Truthy(o.userId) && OrderCredits(o).Some? && OrderCredits(o).value != 0
  }

  /** Everything a captured payment needs: a stored, payable order whose owner exists. */
  predicate Settleable(users: Users, orders: Orders, orderId: string) {
    orderId in orders && Payable(orders[orderId]) && orders[orderId].userId.value in users
  }

  /** `payment.captured`. The order's status is not consulted. A failure
      before the credit transaction is thrown, caught and answered with 500
      before anything is written. The credit transaction commits before the
      separate update of the order; `updated` tells whether that update
      succeeds, and when it throws the answer is 500 with the credit kept. */
  function Capture(users: Users, orders: Orders, e: PaymentEntity, updated: bool): (r: Outcome)
    ensures r.resp == Ok(Received) <==> Settleable(users, orders, e.orderId) && updated
    ensures !Settleable(users, orders, e.orderId) ==> r == Outcome(Error(500), users, orders)
    ensures Settleable(users, orders, e.orderId) ==>
      var o := orders[e.orderId];
      var uid := o.userId.value;
      && OthersUnchanged(users, r.users, uid)
      && GetUserCredits(r.users, uid) == GetUserCredits(users, uid) + OrderCredits(o).value
    ensures Settleable(users, orders, e.orderId) && updated ==>
      r.orders == orders[e.orderId := orders[e.orderId].(status := Completed, paymentId := Some(e.paymentId))]
    ensures Settleable(users, orders, e.orderId) && !updated ==> r.resp == Error(500) && r.orders == orders
  {
    if e.orderId !in orders then Outcome(Error(500), users, orders)   // "Order not found"
    else
      var order := orders[e.orderId];
      var credits := OrderCredits(order);
      if !Truthy(order.userId) || credits.None? || credits.value == 0 then
        Outcome(Error(500), users, orders)                              // "Invalid order data"
      else
        var uid := order.userId.value;
        if uid !in users then Outcome(Error(500), users, orders)       // "User not found"
        else
          var users' := Credit(users, uid, credits.value);
          if !updated then Outcome(Error(500), users', orders)          // the order update throws
          else Outcome(Ok(Received), users', orders[e.orderId := order.(status := Completed, paymentId := Some(e.paymentId))])
  }

  /** `payment.failed`: the order becomes `failed` whatever its status was; an
      unknown order makes the update throw (500). No balance changes. */
  function MarkFailed(users: Users, orders: Orders, e: PaymentEntity): (r: Outcome)
    ensures r.users == users
    ensures e.orderId in orders ==>
      r.resp == Ok(Received) && r.orders == orders[e.orderId := orders[e.orderId].(status := Failed)]
    ensures e.orderId !in orders ==> r == Outcome(Error(500), users, orders)
  {
    if e.orderId !in orders then Outcome(Error(500), users, orders)
    else Outcome(Ok(Received), users, orders[e.orderId := orders[e.orderId].(status := Failed)])
  }

  /** The switch over `event.event`; a missing payment entity is a TypeError (500). */
  function Dispatch(users: Users, orders: Orders, ev: Event, updated: bool): (r: Outcome)
    ensures ev.name != "payment.captured" && ev.name != "payment.failed" ==> r == Outcome(Ok(Received), users, orders)
    ensures (ev.name == "payment.captured" || ev.name == "payment.failed") && ev.entity.None? ==>
      r == Outcome(Error(500), users, orders)
    ensures ev.name == "payment.captured" && ev.entity.Some? ==> r == Capture(users, orders, ev.entity.value, updated)
    ensures ev.name == "payment.failed" && ev.entity.Some? ==> r == MarkFailed(users, orders, ev.entity.value)
    ensures ev.name != "payment.captured" ==> r.users == users
    ensures r.resp.Error? ==> r.orders == orders
    ensures r.resp.Error? && r.users != users ==> ev.name == "payment.captured" && !updated
  {
    if ev.name == "payment.captured" then
      if ev.entity.None? then Outcome(Error(500), users, orders) else Capture(users, orders, ev.entity.value, updated)
    else if ev.name == "payment.failed" then
      if ev.entity.None? then Outcome(Error(500), users, orders) else MarkFailed(users, orders, ev.entity.value)
    else Outcome(Ok(Received), users, orders)
  }

  /** The whole route. `secret` is RAZORPAY_WEBHOOK_SECRET (an absent one makes
      `createHmac` throw outside the try: 500), `hmac(key, message)` is the hex
      HMAC-SHA256 digest, and `parse` is `JSON.parse` (`None` when it throws,
      also outside the try: 500). `updated` is passed on to `Capture`. */
  function Webhook(users: Users, orders: Orders, body: string, signature: Option<string>, secret: Option<string>,
                   hmac: (string, string) -> string, parse: string -> Option<Event>, updated: bool): (r: Outcome)
    ensures !Truthy(signature) ==> r == Outcome(Error(400), users, orders)
    ensures Truthy(signature) && secret.None? ==> r == Outcome(Error(500), users, orders)
    ensures Truthy(signature) && secret.Some? && signature.value != hmac(secret.value, body) ==>
      r == Outcome(Error(400), users, orders)
    ensures Truthy(signature) && secret.Some? && signature.value == hmac(secret.value, body) ==>
      r == (if parse(body).None? then Outcome(Error(500), users, orders) else Dispatch(users, orders, parse(body).value, updated))
    ensures r.resp.Ok? ==> Truthy(signature) && secret.Some? && signature.value == hmac(secret.value, body)
    ensures r.resp.Error? ==> r.orders == orders
    ensures r.users != users ==> parse(body).Some? && parse(body).value.name == "payment.captured"
    ensures r.resp.Error? && r.users != users ==> !updated
  {
    if !Truthy(signature) then Outcome(Error(400), users, orders)
    else if secret.None? then Outcome(Error(500), users, orders)
    else if signature.value != hmac(secret.value, body) then Outcome(Error(400), users, orders)
    else if parse(body).None? then Outcome(Error(500), users, orders)
    else Dispatch(users, orders, parse(body).value, updated)
  }

  /** The `payment.captured` case over the database: the credit transaction
      on the owner's document, then the separate update of the order. */
  method SettleCaptured(db: Db, entity: PaymentEntity, updated: bool) returns (resp: Response)
    modifies db`users, db`orders
    ensures Outcome(resp, db.users, db.orders) == Capture(old(db.users), old(db.orders), entity, updated)
  {
    if entity.orderId !in db.orders {
      return Error(500);  // "Order not found"
    }
    var order := db.orders[entity.orderId];
    var credits := OrderCredits(order);
    if !Truthy(order.userId) || credits.None? || credits.value == 0 {
      return Error(500);  // "Invalid order data"
    }
    var uid := order.userId.value;
    // the transaction on the user document
    if uid !in db.users {
      return Error(500);  // "User not found"
    }
    CreditUser(db, uid, credits.value);
    // then the order update
    if !updated {
      return Error(500);  // the update throws; the credit stays committed
    }
    db.orders := db.orders[entity.orderId := db.orders[entity.orderId].(status := Completed, paymentId := Some(entity.paymentId))];
    return Ok(Received);
  }

  /** The `payment.failed` case over the database. */
  method SettleFailed(db: Db, entity: PaymentEntity) returns (resp: Response)
    modifies db`orders
    ensures Outcome(resp, db.users, db.orders) == MarkFailed(db.users, old(db.orders), entity)
  {
    var failedOrderId := entity.orderId;
    if failedOrderId !in db.orders {
      return Error(500);  // the update of a missing document throws
    }
    db.orders := db.orders[failedOrderId := db.orders[failedOrderId].(status := Failed)];
    return Ok(Received);
  }

  /** The route handler over the database. */
  method HandleWebhook(db: Db, body: string, signature: Option<string>, secret: Option<string>,
                       hmac: (string, string) -> string, parse: string -> Option<Event>, updated: bool)
    returns (resp: Response)
    modifies db`users, db`orders
    ensures Outcome(resp, db.users, db.orders) == Webhook(old(db.users), old(db.orders), body, signature, secret, hmac, parse, updated)
  {
    if !Truthy(signature) {
      return Error(400);
    }
    if secret.None? {
      return Error(500);
    }
    var expectedSignature := hmac(secret.value, body);
    if signature.value != expectedSignature {
      return Error(400);
    }
    var event := parse(body);
    if event.None? {
      return Error(500);
    }
    var ev := event.value;
    if ev.name == "payment.captured" {
      if ev.entity.None? {
        return Error(500);
      }
      resp := SettleCaptured(db, ev.entity.value, updated);
    } else if ev.name == "payment.failed" {
      if ev.entity.None? {
        return Error(500);
      }
      resp := SettleFailed(db, ev.entity.value);
    } else {
      resp := Ok(Received);  // "Unhandled event"
    }
  }

  /** The outcome of a captured payment does not depend on the order's status:
      a `completed` or `failed` order is credited just like a `created` one. */
  lemma CaptureIgnoresStatus(users: Users, orders: Orders, e: PaymentEntity, s: OrderStatus, updated: bool)
    requires e.orderId in orders
    ensures var orders' := orders[e.orderId := orders[e.orderId].(status := s)];
            var r, r' := Capture(users, orders, e, updated), Capture(users, orders', e, updated);
            r'.resp == r.resp && r'.users == r.users && (r.resp.Ok? ==> r'.orders == r.orders)
  {
    var orders' := orders[e.orderId := orders[e.orderId].(status := s)];
    assert OrderCredits(orders'[e.orderId]) == OrderCredits(orders[e.orderId]);
  }

  /** A re-delivered `payment.captured` credits the owner again: after two
      deliveries of the same event the balance has risen by twice the order's credits. */
  lemma RedeliveryCreditsTwice(users: Users, orders: Orders, e: PaymentEntity)
    requires Settleable(users, orders, e.orderId)
    ensures var o := orders[e.orderId];
            var first := Capture(users, orders, e, true);
            var second := Capture(first.users, first.orders, e, true);
            && second.resp == Ok(Received)
            && GetUserCredits(second.users, o.userId.value) == GetUserCredits(users, o.userId.value) + 2 * OrderCredits(o).value
            && second.orders[e.orderId].status == Completed
  {
    var o := orders[e.orderId];
    var first := Capture(users, orders, e, true);
    assert first.orders[e.orderId].notesCredits == o.notesCredits;
    assert first.orders[e.orderId].userId == o.userId;
    assert Settleable(first.users, first.orders, e.orderId);
  }

  /** When the order update throws after the credit committed, the route
      answers 500 and the provider delivers the event again; the retry finds
      the order still payable and credits the owner a second time. */
  lemma FailedUpdateThenRetryCreditsTwice(users: Users, orders: Orders, e: PaymentEntity)
    requires Settleable(users, orders, e.orderId)
    ensures var o := orders[e.orderId];
            var first := Capture(users, orders, e, false);
            var retry := Capture(first.users, first.orders, e, true);
            && first.resp == Error(500)
            && retry.resp == Ok(Received)
            && GetUserCredits(retry.users, o.userId.value) == GetUserCredits(users, o.userId.value) + 2 * OrderCredits(o).value
  {
    var first := Capture(users, orders, e, false);
    assert Settleable(first.users, first.orders, e.orderId);
  }

  /** An order whose `notes.credits` is "0x10" is read in hexadecimal and
      credits 16. */
  lemma HexNotesCreditSixteen(users: Users, orders: Orders, e: PaymentEntity, notes: string)
    requires notes == "0x10"
    requires e.orderId in orders && orders[e.orderId].notesCredits == Some(notes)
    requires Truthy(orders[e.orderId].userId) && orders[e.orderId].userId.value in users
    ensures var uid := orders[e.orderId].userId.value;
            var r := Capture(users, orders, e, true);
            && r.resp == Ok(Received)
            && GetUserCredits(r.users, uid) == GetUserCredits(users, uid) + 16
  {
    HexReadings(notes);
    assert notes != "";
  }

  /** Only NaN and 0 are refused, so an order whose notes hold a negative
      number is settled as a debit: its owner's balance goes down by that
      much, below zero when the owner held nothing. */
  lemma {:induction false} NegativeNotesDebitOwner(users: Users, orders: Orders, e: PaymentEntity, n: int)
    requires n < 0
    requires e.orderId in orders && orders[e.orderId].notesCredits == Some(IntToString(n))
    requires Truthy(orders[e.orderId].userId) && orders[e.orderId].userId.value in users
    requires GetUserCredits(users, orders[e.orderId].userId.value) == 0
    ensures var uid := orders[e.orderId].userId.value;
            var r := Capture(users, orders, e, true);
            && r.resp == Ok(Received)
            && GetUserCredits(r.users, uid) == n
            && !NonNegative(r.users)
  {
    var uid := orders[e.orderId].userId.value;
    ParseIntAutoOfString(n);
    assert OrderCredits(orders[e.orderId]) == Some(n);
    var r := Capture(users, orders, e, true);
    assert uid in r.users && Balance(r.users[uid]) == n;
  }

  /** A `payment.failed` after a successful capture marks the order failed
      and leaves the credit in place. */
  lemma FailureAfterCaptureKeepsCredit(users: Users, orders: Orders, e: PaymentEntity)
    requires Settleable(users, orders, e.orderId)
    ensures var captured := Capture(users, orders, e, true);
            var failed := MarkFailed(captured.users, captured.orders, e);
            && failed.resp == Ok(Received)
            && failed.orders[e.orderId].status == Failed
            && failed.users == captured.users
  {
  }
}
