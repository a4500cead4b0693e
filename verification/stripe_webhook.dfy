/** The Stripe webhook (app/api/stripe/webhook/route.ts): a verified
    `checkout.session.completed` event credits the user named in the
    session's metadata with the credits named there. No order record is read
    or written. */
module StripeWebhook {
  import opened Base
  import opened Docs
  import opened Js
  import opened Ledger

  /** The session's `metadata.userId` and `metadata.credits`. */
  datatype Metadata = Metadata(userId: Option<string>, credits: Option<string>)

  /** A verified event: its `type`, and the metadata of `data.object` (absent
      when the object carries none). */
  datatype Event = Event(kind: string, metadata: Option<Metadata>)

  datatype StripeOutcome = StripeOutcome(resp: Response, users: Users)

  /** `session.metadata?.userId`. */
  function SessionUser(m: Option<Metadata>): Option<string> {
    if m.Some? then m.value.userId else None
  }

  /** `parseInt(session.metadata?.credits || '0', 10)`, `None` for NaN.
      Absent metadata or absent or empty credits read as 0. */
  function SessionCredits(m: Option<Metadata>): (c: Option<int>)
    ensures m.None? || m.value.credits.None? || m.value.credits == Some("") ==> c == Some(0)
    ensures m.Some? && m.value.credits.Some? && m.value.credits.value != "" ==> c == ParseInt(m.value.credits.value)
  {
    var text := OrElse(if m.Some? then m.value.credits else None, "0");
    if text == "0" then ParseIntOfZeroText(text); ParseInt(text)
    else ParseInt(text)
  }

  /** The event carries a credit: a completed session with a truthy user id
      and a positive credit count. */
  predicate Credits(ev: Event)
    ensures Credits(ev) ==> ev.metadata.Some? && ev.metadata.value.credits.Some? && ev.metadata.value.credits.value != ""
  {
    && ev.kind == "checkout.session.completed"
    && Truthy(SessionUser(ev.metadata))
    && SessionCredits(ev.metadata).Some? && SessionCredits(ev.metadata).value > 0
  }

  /** The route. `construct(body, signature, secret)` is Stripe's
      `webhooks.constructEvent`, `None` when it throws (a bad or missing
      signature); `secret` is STRIPE_WEBHOOK_SECRET, absent read as "". */
  function Webhook(users: Users, body: string, signature: Option<string>, secret: Option<string>,
                   construct: (string, Option<string>, string) -> Option<Event>): (r: StripeOutcome)
    ensures construct(body, signature, OrElse(secret, "")).None? ==> r == StripeOutcome(Error(400), users)
    ensures construct(body, signature, OrElse(secret, "")).Some? ==> r.resp == Ok(Received)
    ensures r.users != users <==>
      var ev := construct(body, signature, OrElse(secret, ""));
      ev.Some? && Credits(ev.value) && SessionUser(ev.value.metadata).value in users
    ensures r.users != users ==>
      var ev := construct(body, signature, OrElse(secret, "")).value;
      var uid := SessionUser(ev.metadata).value;
      && OthersUnchanged(users, r.users, uid)
      && GetUserCredits(r.users, uid) == GetUserCredits(users, uid) + SessionCredits(ev.metadata).value
  {
    var event := construct(body, signature, OrElse(secret, ""));
    if event.None? then StripeOutcome(Error(400), users)
    else if Credits(event.value) then
      var uid := SessionUser(event.value.metadata).value;
      if uid !in users then StripeOutcome(Ok(Received), users)   // the transaction returns without a write
      else
        var users' := Credit(users, uid, SessionCredits(event.value.metadata).value);
        assert GetUserCredits(users', uid) != GetUserCredits(users, uid);
        StripeOutcome(Ok(Received), users')
    else StripeOutcome(Ok(Received), users)
  }

  /** The route handler over the database. */
  method HandleWebhook(db: Db, body: string, signature: Option<string>, secret: Option<string>,
                       construct: (string, Option<string>, string) -> Option<Event>)
    returns (resp: Response)
    modifies db`users
    ensures StripeOutcome(resp, db.users) == Webhook(old(db.users), body, signature, secret, construct)
  {
    var webhookSecret := OrElse(secret, "");
    var event := construct(body, signature, webhookSecret);
    if event.None? {
      return Error(400);  // "Webhook Error"
    }
    var ev := event.value;
    if Credits(ev) {
      var uid := SessionUser(ev.metadata).value;
      var credits := SessionCredits(ev.metadata).value;
      // the transaction on the user document
      if uid in db.users {
        CreditUser(db, uid, credits);
      }
    }
    return Ok(Received);
  }

  /** A re-delivered completed session credits the user again: two
      deliveries of the same event add twice its credits. */
  lemma RedeliveryCreditsTwice(users: Users, body: string, signature: Option<string>, secret: Option<string>,
                               construct: (string, Option<string>, string) -> Option<Event>)
    requires var ev := construct(body, signature, OrElse(secret, ""));
             ev.Some? && Credits(ev.value) && SessionUser(ev.value.metadata).value in users
    ensures var ev := construct(body, signature, OrElse(secret, "")).value;
            var uid := SessionUser(ev.metadata).value;
            var first := Webhook(users, body, signature, secret, construct);
            var second := Webhook(first.users, body, signature, secret, construct);
            GetUserCredits(second.users, uid) == GetUserCredits(users, uid) + 2 * SessionCredits(ev.metadata).value
  {
    var ev := construct(body, signature, OrElse(secret, "")).value;
    var uid := SessionUser(ev.metadata).value;
    var first := Webhook(users, body, signature, secret, construct);
    assert uid in first.users;
  }

  /** A completed session never lowers a balance: every balance afterwards is
      at least what it was. */
  lemma CreditNeverLowers(users: Users, body: string, signature: Option<string>, secret: Option<string>,
                          construct: (string, Option<string>, string) -> Option<Event>, v: string)
    requires v in users
    ensures var r := Webhook(users, body, signature, secret, construct);
            v in r.users && GetUserCredits(r.users, v) >= GetUserCredits(users, v)
  {
  }

  /** Webhook delivery keeps every balance non-negative. */
  lemma WebhookKeepsNonNegative(users: Users, body: string, signature: Option<string>, secret: Option<string>,
                                construct: (string, Option<string>, string) -> Option<Event>)
    requires NonNegative(users)
    ensures NonNegative(Webhook(users, body, signature, secret, construct).users)
  {
    var r := Webhook(users, body, signature, secret, construct);
    forall v | v in r.users
      ensures Balance(r.users[v]) >= 0
    {
      CreditNeverLowers(users, body, signature, secret, construct, v);
    }
  }
}
