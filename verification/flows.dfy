/** End-to-end runs across the routes: what a purchase through either payment
    provider credits, and what an interview then costs. */
module Flows {
  import opened Base
  import opened Docs
  import opened Js
  import opened Ledger
  import opened InterviewStart
  import opened RazorpayWebhook
  import opened RazorpayOrder
  import opened StripeCheckout
  import opened StripeWebhook

  /** An order placed by a signed-in caller (with a non-empty id) and then
      captured credits the caller exactly the credits requested. */
  lemma OrderThenCaptureCreditsRequested(users: Users, orders: Orders, req: OrderRequest, uid: string,
                                         keyId: Option<string>, keySecret: Option<string>,
                                         create: GatewayOrder -> Option<string>, paymentId: string)
    requires uid != "" && uid in users
    requires CreateOrder(orders, Some(req), Some(uid), keyId, keySecret, create, true).resp.Ok?
    ensures var id := create(GatewayRequest(req)).value;
            var placed := CreateOrder(orders, Some(req), Some(uid), keyId, keySecret, create, true);
            var captured := Capture(users, placed.orders, PaymentEntity(id, paymentId), true);
            && captured.resp == Ok(Received)
            && GetUserCredits(captured.users, uid) == GetUserCredits(users, uid) + req.credits
            && captured.orders[id].status == Completed
  {
    var id := create(GatewayRequest(req)).value;
    var placed := CreateOrder(orders, Some(req), Some(uid), keyId, keySecret, create, true);
    assert placed.orders[id] == NewOrder(req, uid);
    assert Settleable(users, placed.orders, id);
  }

  /** Under the corrected order route, every captured payment credits a pack
      whose price is the order's amount. */
  lemma PricedCaptureCreditsPack(users: Users, orders: Orders, e: PaymentEntity)
    requires Priced(orders) && Settleable(users, orders, e.orderId)
    ensures var o := orders[e.orderId];
            var r := Capture(users, orders, e, true);
            && GetUserCredits(r.users, o.userId.value) == GetUserCredits(users, o.userId.value) + o.credits
            && PackPrice(o.credits) == Some(o.amount)
  {
  }

  /** The completed-session event Stripe delivers for a session the checkout route created. */
  function CompletedEvent(p: SessionParams): StripeWebhook.Event {
    StripeWebhook.Event("checkout.session.completed", Some(Metadata(Some(p.userId), Some(p.metadataCredits))))
  }

  /** A pack bought through Stripe Checkout with its credits sent as a JSON
      number credits the buyer exactly that pack. */
  lemma CheckoutThenWebhookCreditsPack(users: Users, k: int, uid: string, body: string, signature: Option<string>,
                                       secret: Option<string>, construct: (string, Option<string>, string) -> Option<StripeWebhook.Event>)
    requires uid != "" && uid in users
    requires PackPrice(k).Some?
    requires construct(body, signature, OrElse(secret, "")) == Some(CompletedEvent(SessionFor(Int(k), uid)))
    ensures var r := StripeWebhook.Webhook(users, body, signature, secret, construct);
            && r.resp == Ok(Received)
            && GetUserCredits(r.users, uid) == GetUserCredits(users, uid) + k
  {
    SessionForNumber(k, uid);
    var ev := CompletedEvent(SessionFor(Int(k), uid));
    assert SessionUser(ev.metadata) == Some(uid) && SessionCredits(ev.metadata) == Some(k);
    assert Credits(ev);
  }

  /** With the corrected session, whatever form the accepted `credits` took,
      the webhook credits exactly the pack that was priced. */
  lemma PackSessionThenWebhookCreditsPack(users: Users, credits: Json, uid: string, body: string, signature: Option<string>,
                                          secret: Option<string>, construct: (string, Option<string>, string) -> Option<StripeWebhook.Event>)
    requires uid != "" && uid in users
    requires PackOf(credits).Some?
    requires construct(body, signature, OrElse(secret, "")) == Some(CompletedEvent(PackSession(PackOf(credits).value, uid)))
    ensures var r := StripeWebhook.Webhook(users, body, signature, secret, construct);
            GetUserCredits(r.users, uid) == GetUserCredits(users, uid) + PackOf(credits).value
  {
  }

  /** As written, the session for the credits `"1000e-2"` is charged as the
      10-credit pack and then credits 1000. */
  lemma ExponentCheckoutCreditsThousand(users: Users, credits: string, uid: string, body: string, signature: Option<string>,
                                        secret: Option<string>, construct: (string, Option<string>, string) -> Option<StripeWebhook.Event>)
    requires credits == "1000e-2"
    requires uid != "" && uid in users
    requires PackOf(Str(credits)).Some?
    requires construct(body, signature, OrElse(secret, "")) == Some(CompletedEvent(SessionFor(Str(credits), uid)))
    ensures SessionFor(Str(credits), uid).item.unitAmount == PackPrice(10).value * 100
    ensures var r := StripeWebhook.Webhook(users, body, signature, secret, construct);
            GetUserCredits(r.users, uid) == GetUserCredits(users, uid) + 1000
  {
    ExponentCreditsMisread(credits, uid);
  }

  /** A new user with no credits buys the 100-credit pack through Razorpay and
      starts an interview: 100 credits, then 90. */
  lemma BuyThenStart(uid: string, create: GatewayOrder -> Option<string>, paymentId: string)
    requires uid != ""
    requires create(GatewayRequest(OrderRequest(100, 99))).Some?
    ensures var users := map[uid := UserDoc(None)];
            var placed := CreateOrder(map[], Some(OrderRequest(100, 99)), Some(uid), Some("key"), Some("secret"), create, true);
            var captured := Capture(users, placed.orders, PaymentEntity(create(GatewayRequest(OrderRequest(100, 99))).value, paymentId), true);
            var started := Start(captured.users, Some(uid));
            && GetUserCredits(captured.users, uid) == 100
            && started.resp == Ok(Started)
            && GetUserCredits(started.users, uid) == 90
  {
    var users := map[uid := UserDoc(None)];
    var req := OrderRequest(100, 99);
    assert Filled(req) && Truthy(Some("key")) && Truthy(Some("secret"));
    OrderThenCaptureCreditsRequested(users, map[], req, uid, Some("key"), Some("secret"), create, paymentId);
    var placed := CreateOrder(map[], Some(req), Some(uid), Some("key"), Some("secret"), create, true);
    var captured := Capture(users, placed.orders, PaymentEntity(create(GatewayRequest(req)).value, paymentId), true);
    assert GetUserCredits(captured.users, uid) == 100;
  }

  /** The order route as written lets a caller buy 1000 credits for 1 rupee:
      once the payment is captured, the 1000 credits are granted. */
  lemma ThousandCreditsForOneRupee(users: Users, uid: string, paymentId: string)
    requires uid != "" && uid in users
    ensures var placed := CreateOrder(map[], Some(OrderRequest(1000, 1)), Some(uid), Some("key"), Some("secret"),
                                      (g: GatewayOrder) => Some("order_1"), true);
            var captured := Capture(users, placed.orders, PaymentEntity("order_1", paymentId), true);
            && placed.orders["order_1"].amount == 1
            && GetUserCredits(captured.users, uid) == GetUserCredits(users, uid) + 1000
  {
    AnyPairIsAccepted(uid);
    OrderThenCaptureCreditsRequested(users, map[], OrderRequest(1000, 1), uid, Some("key"), Some("secret"),
                                     (g: GatewayOrder) => Some("order_1"), paymentId);
  }

  /** The order route accepts a negative credit count (it is truthy), and its
      capture then takes a user who held nothing below zero. */
  lemma NegativeOrderDebitsOwner(users: Users, uid: string, credits: int, amount: int, paymentId: string)
    requires uid != "" && uid in users && GetUserCredits(users, uid) == 0
    requires credits < 0 && amount != 0
    ensures var placed := CreateOrder(map[], Some(OrderRequest(credits, amount)), Some(uid), Some("key"), Some("secret"),
                                      (g: GatewayOrder) => Some("order_1"), true);
            var captured := Capture(users, placed.orders, PaymentEntity("order_1", paymentId), true);
            && placed.resp.Ok?
            && captured.resp == Ok(Received)
            && GetUserCredits(captured.users, uid) == credits
            && !NonNegative(captured.users)
  {
    var placed := CreateOrder(map[], Some(OrderRequest(credits, amount)), Some(uid), Some("key"), Some("secret"),
                              (g: GatewayOrder) => Some("order_1"), true);
    OrderThenCaptureCreditsRequested(users, map[], OrderRequest(credits, amount), uid, Some("key"), Some("secret"),
                                     (g: GatewayOrder) => Some("order_1"), paymentId);
    var captured := Capture(users, placed.orders, PaymentEntity("order_1", paymentId), true);
    assert uid in captured.users && Balance(captured.users[uid]) == credits;
  }
}
