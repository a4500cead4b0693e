/** Shared vocabulary of the handlers: optional document fields, JavaScript
    truthiness of string fields, and the HTTP responses the routes answer with. */
module Base {

  /** A document field or request field that may be absent. */
  datatype Option<+T> = None | Some(value: T) {
    /** `x ?? d` (and `x || d` for fields whose falsy values are absent). */
    function GetOr(default: T): T {
      match this
      case Some(v) => v
      case None => default
    }
  }

  /** JavaScript truthiness of an optional string: `undefined` and `""` are falsy. */
  predicate Truthy(s: Option<string>) {
    s.Some? && s.value != ""
  }

  /** `s || d` for an optional string. */
  function OrElse(s: Option<string>, d: string): string {
    if Truthy(s) then s.value else d
  }

  /** The JSON payload of a 200 answer. */
  datatype Body =
    | Received                // { received: true }
    | Verified                // { verified: true }
    | Started                 // { success: true }
    | RazorpayOrder(id: string) // { order }: the gateway's order object, of which only its id is kept
    | CheckoutUrl(url: string)  // { url: session.url }

  /** A route's answer: a 200 with a body, or an error status. An exception
      that escapes a route handler is answered by the framework with a 500. */
  datatype Response = Ok(body: Body) | Error(status: int)
}
