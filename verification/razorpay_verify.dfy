/** The client-side payment confirmation (app/api/razorpay/verify.ts): the
    three fields Razorpay's checkout hands back must all be present, and the
    signature must be the HMAC-SHA256 hex digest of `orderId|paymentId` under
    the key secret. Nothing is read from or written to the database. */
module RazorpayVerify {
  import opened Base

  /** The request body's `razorpay_order_id`, `razorpay_payment_id` and `razorpay_signature`. */
  datatype Confirmation = Confirmation(orderId: Option<string>, paymentId: Option<string>, signature: Option<string>)

  /** `!razorpay_order_id || !razorpay_payment_id || !razorpay_signature` fails. */
  predicate Complete(c: Confirmation) {
    Truthy(c.orderId) && Truthy(c.paymentId) && Truthy(c.signature)
  }

  /** The message the signature covers: the order id, a bar, the payment id. */
  function SignedMessage(orderId: string, paymentId: string): (m: string)
    ensures |m| == |orderId| + 1 + |paymentId|
    ensures m[..|orderId|] == orderId && m[|orderId|] == '|' && m[|orderId| + 1..] == paymentId
  {
    orderId + "|" + paymentId
  }

  /** The text before the first bar of `m` and the text after it, if `m` has a bar. */
  function SplitAtBar(m: string): (r: Option<(string, string)>)
    ensures r.None? <==> '|' !in m
    ensures r.Some? ==> '|' !in r.value.0 && m == r.value.0 + "|" + r.value.1
  {
    if m == [] then None
    else if m[0] == '|' then Some(([], m[1..]))
    else
      match SplitAtBar(m[1..])
      case None => None
      case Some(parts) => Some(([m[0]] + parts.0, parts.1))
  }

  /** An order id has no bar in it (Razorpay's are `order_` and letters and
      digits), so the signed message can be taken apart again. */
  lemma {:induction false} SplitSignedMessage(orderId: string, paymentId: string)
    requires '|' !in orderId
    ensures SplitAtBar(SignedMessage(orderId, paymentId)) == Some((orderId, paymentId))
  {
    var m := SignedMessage(orderId, paymentId);
    if orderId == [] {
      assert m[0] == '|' && m[1..] == paymentId;
    } else {
      assert m[0] == orderId[0] && m[0] != '|';
      assert m[1..] == SignedMessage(orderId[1..], paymentId);
      SplitSignedMessage(orderId[1..], paymentId);
      assert [m[0]] + orderId[1..] == orderId;
    }
  }

  /** Different payments are different messages: the signature of one
      `(orderId, paymentId)` pair is never asked for another's message. */
  lemma SignedMessageInjective(o1: string, p1: string, o2: string, p2: string)
    requires '|' !in o1 && '|' !in o2
    requires SignedMessage(o1, p1) == SignedMessage(o2, p2)
    ensures o1 == o2 && p1 == p2
  {
    SplitSignedMessage(o1, p1);
    SplitSignedMessage(o2, p2);
  }

  /** The route. `body` is `None` when `req.json()` throws or yields `null`,
      `secret` is RAZORPAY_KEY_SECRET (undefined makes `createHmac` throw), and
      `hmac(key, message)` is the hex HMAC-SHA256 digest. Both throws escape
      the handler: 500. */
  function Verify(body: Option<Confirmation>, secret: Option<string>, hmac: (string, string) -> string): (r: Response)
    ensures body.None? ==> r == Error(500)
    ensures body.Some? && !Complete(body.value) ==> r == Error(400)
    ensures r == Ok(Verified) <==>
      && body.Some? && Complete(body.value) && secret.Some?
      && body.value.signature.value == hmac(secret.value, SignedMessage(body.value.orderId.value, body.value.paymentId.value))
    ensures body.Some? && Complete(body.value) && secret.Some? && r != Ok(Verified) ==> r == Error(400)
    ensures r in {Ok(Verified), Error(400), Error(500)}
  {
    if body.None? then Error(500)
    else
      var c := body.value;
      if !Complete(c) then Error(400)
      else if secret.None? then Error(500)
      else
        var expectedSignature := hmac(secret.value, SignedMessage(c.orderId.value, c.paymentId.value));
        if expectedSignature != c.signature.value then Error(400) else Ok(Verified)
  }
}
