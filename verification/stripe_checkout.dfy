/** Stripe Checkout session creation
    (app/api/stripe/create-checkout-session/route.ts): the credit pack table,
    the validation of the requested pack, and the parameters of the session
    the route asks Stripe for. No local record is written. */
module StripeCheckout {
  import opened Base
  import opened Js

  /** CREDIT_PACKS: the price in rupees of each pack, keyed by its credits. */
  function PackPrice(credits: int): (price: Option<int>)
    ensures price.Some? <==> credits in {10, 100, 300, 1000}
    ensures credits == 10 ==> price == Some(19)
    ensures credits == 100 ==> price == Some(99)
    ensures credits == 300 ==> price == Some(199)
    ensures credits == 1000 ==> price == Some(599)
  {
    if credits == 10 then Some(19)
    else if credits == 100 then Some(99)
    else if credits == 300 then Some(199)
    else if credits == 1000 then Some(599)
    else None
  }

  /** `Number(credits)` when `Number.isInteger` holds of it and it is a key of
      CREDIT_PACKS; only a number or a string can pass. */
  function PackOf(credits: Json): (k: Option<int>)
    ensures k.Some? <==> ToNumber(credits).Integral? && PackPrice(ToNumber(credits).value).Some?
    ensures k.Some? ==> k.value == ToNumber(credits).value && (credits.Int? || credits.Str?)
  {
    var n := ToNumber(credits);
    if n.Integral? && PackPrice(n.value).Some? then Some(n.value) else None
  }

  /** The single line item: rupees, a product name, the price in paise, a quantity. */
  datatype LineItem = LineItem(currency: string, productName: string, unitAmount: int, quantity: int)

  /** What the route hands to `stripe.checkout.sessions.create`, besides the
      fixed payment method, mode and return URLs: the line item and the
      session's `metadata`. */
  datatype SessionParams = SessionParams(item: LineItem, userId: string, metadataCredits: string)

  /** The session for a validated pack, as the route builds it: the name and
      the metadata carry the request's `credits` as sent, not the number that
      was validated. */
  function SessionFor(credits: Json, userId: string): (p: SessionParams)
    requires PackOf(credits).Some?
    ensures p.item.quantity == 1 && p.item.currency == "inr"
    ensures p.item.unitAmount == PackPrice(PackOf(credits).value).value * 100
    ensures p.userId == userId && p.metadataCredits == ToText(credits)
  {
    var price := PackPrice(PackOf(credits).value).value;
    var text := ToText(credits);
    SessionParams(LineItem("inr", text + " Credits", price * 100, 1), userId, text)
  }

  /** The route. `body` is the request's `credits` field (`None` when
      `req.json()` throws or yields `null`, which escapes the handler: 500),
      `caller` the signed-in user's id, and `create` Stripe's session creation,
      giving the session URL or `None` when it throws (500). */
  function CreateSession(body: Option<Json>, caller: Option<string>, create: SessionParams -> Option<string>): (r: Response)
    ensures body.None? ==> r == Error(500)
    ensures body.Some? && (caller.None? || PackOf(body.value).None?) ==> r == Error(400)
    ensures r.Ok? <==> body.Some? && caller.Some? && PackOf(body.value).Some? && create(SessionFor(body.value, caller.value)).Some?
    ensures r.Ok? ==> r == Ok(CheckoutUrl(create(SessionFor(body.value, caller.value)).value))
    ensures r.Error? ==> r.status in {400, 500}
  {
    if body.None? then Error(500)
    else if caller.None? || PackOf(body.value).None? then Error(400)
    else
      var session := create(SessionFor(body.value, caller.value));
      if session.None? then Error(500) else Ok(CheckoutUrl(session.value))
  }

  /** The session the route evidently means to build for pack `k`: name and
      metadata carry the validated number. */
  function PackSession(k: int, userId: string): (p: SessionParams)
    requires PackPrice(k).Some?
    ensures p.item.quantity == 1 && p.item.unitAmount == PackPrice(k).value * 100
    ensures p.userId == userId && ParseInt(p.metadataCredits) == Some(k)
  {
    ParseIntOfString(k);
    SessionParams(LineItem("inr", IntToString(k) + " Credits", PackPrice(k).value * 100, 1), userId, IntToString(k))
  }

  /** A pack sent as a JSON number gets exactly the intended session. */
  lemma SessionForNumber(k: int, userId: string)
    requires PackOf(Int(k)).Some?
    ensures SessionFor(Int(k), userId) == PackSession(k, userId)
  {
  }

  /** "1000e-2" as a decimal literal is 10. */
  lemma ExponentCreditsDecimal(s: string)
    requires s == "1000e-2"
    ensures DecimalLiteral(s) == Integral(10)
  {
    assert s == "1000" + "e-2";
    assert DigitsValue("1000") == 1000 by {
      assert "1000"[..3] == "100" && "100"[..2] == "10" && "10"[..1] == "1" && "1"[..0] == "";
    }
    assert Exponent("e-2") == Some(-2) by {
      assert "e-2"[1..] == "-2" && "-2"[1..] == "2" && "2"[..0] == "";
    }
    assert Scaled(false, 1000, -2) == Integral(10) by {
      assert Pow10(2) == 100;
    }
    DecimalLiteralWithExponent("1000", "e-2");
  }

  /** `Number("1000e-2")` is 10. */
  lemma ExponentCreditsNumber(s: string)
    requires s == "1000e-2"
    ensures StringToNumber(s) == Integral(10)
  {
    assert s[0] == '1' && s[|s| - 1] == '2';
    StringToNumberIsDecimal(s);
    ExponentCreditsDecimal(s);
  }

  /** `parseInt("1000e-2", 10)` is 1000. */
  lemma ExponentCreditsParsed(s: string)
    requires s == "1000e-2"
    ensures ParseInt(s) == Some(1000)
  {
    assert s == "1000" + "e-2";
    assert DigitsValue("1000") == 1000 by {
      assert "1000"[..3] == "100" && "100"[..2] == "10" && "10"[..1] == "1" && "1"[..0] == "";
    }
    ParseIntStopsAtNonDigit("1000", "e-2");
  }

  /** Credits whose `Number` is 10 pass as the 10-credit pack, are charged
      for it, and are passed on as sent. */
  lemma ChargedAsTen(s: string, userId: string)
    requires StringToNumber(s) == Integral(10)
    ensures PackOf(Str(s)) == Some(10)
    ensures SessionFor(Str(s), userId).item.unitAmount == 1900
    ensures SessionFor(Str(s), userId).metadataCredits == s
  {
    assert ToNumber(Str(s)) == Integral(10);
    assert PackOf(Str(s)) == Some(10);
  }

  /** The credits "1000e-2" are the number 10 to `Number`, so they pass as
      the 10-credit pack and are charged 19 rupees; but the metadata carries
      the string itself, which `parseInt` reads as 1000. */
  lemma ExponentCreditsMisread(s: string, userId: string)
    requires s == "1000e-2"
    ensures PackOf(Str(s)) == Some(10)
    ensures SessionFor(Str(s), userId).item.unitAmount == 1900
    ensures ParseInt(SessionFor(Str(s), userId).metadataCredits) == Some(1000)
  {
    ExponentCreditsNumber(s);
    ExponentCreditsParsed(s);
    ChargedAsTen(s, userId);
  }
}
