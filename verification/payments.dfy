/** The payment gateway side shared by the order server and the stand-alone payment server: the order the
    gateway is asked to create, and the check that a payment's signature is authentic.

    The signature is the HMAC-SHA256 hex digest (RFC 2104 with the hash of FIPS 180-4) of
    `order_id|payment_id` under the key secret. The digest itself is the parameter `hmac`; only the message
    it covers and the comparison are modelled.
 */
module Payments {
  import opened Base

  datatype GatewayRequest = GatewayRequest(
    amount: Option<real>,
    currency: Option<string>,
    receipt: Option<string>,
    notes: Option<map<string, string>>)

  /** The order the payment gateway is asked to create. */
  datatype GatewayCall = GatewayCall(
    amount: Option<real>,
    currency: string,
    receipt: Option<string>,
    notes: map<string, string>)

  /** `{ amount, currency: currency || 'INR', receipt, notes: notes || {} }`. */
  function GatewayCallOf(req: GatewayRequest): (c: GatewayCall)
    ensures c.amount == req.amount && c.receipt == req.receipt
    ensures c.currency != ""
    ensures StrTruthy(req.currency) ==> c.currency == req.currency.value
    ensures !StrTruthy(req.currency) ==> c.currency == "INR"
    ensures req.notes.None? ==> c.notes == map[]
    ensures req.notes.Some? ==> c.notes == req.notes.value
  {
    GatewayCall(req.amount, StrOrDefault(req.currency, "INR"), req.receipt,
                if req.notes.Some? then req.notes.value else map[])
  }

  /** JavaScript string concatenation of a possibly missing value. */
  function JsStr(o: Option<string>): string {
    if o.Some? then o.value else "undefined"
  }

  /** The signature the gateway would give for the pair. */
  function ExpectedSignature(hmac: (string, string) -> string, secret: string,
                             orderId: Option<string>, paymentId: Option<string>): string
  {
    hmac(secret, JsStr(orderId) + "|" + JsStr(paymentId))
  }

  predicate Authentic(hmac: (string, string) -> string, secret: string,
                      orderId: Option<string>, paymentId: Option<string>, signature: Option<string>)
  {
    signature == Some(ExpectedSignature(hmac, secret, orderId, paymentId))
  }

  /** `/api/payments/verify`: 200 with verified true exactly for the expected signature, 400 otherwise. */
  function VerifyPayment(hmac: (string, string) -> string, secret: string,
                         orderId: Option<string>, paymentId: Option<string>, signature: Option<string>)
    : (r: (int, bool))
    ensures r.1 ==> signature.Some? && signature.value == hmac(secret, JsStr(orderId) + "|" + JsStr(paymentId))
    ensures signature == Some(hmac(secret, JsStr(orderId) + "|" + JsStr(paymentId))) ==> r.1
    ensures r.0 == (if r.1 then 200 else 400)
  {
    var ok := Authentic(hmac, secret, orderId, paymentId, signature);
    (if ok then 200 else 400, ok)
  }

  /** The message the digest covers keeps the two ids apart: a pair is recovered from it when the order id
      has no `|`. */
  lemma SignedMessageSeparates(a: string, b: string, c: string, d: string)
    requires '|' !in a && '|' !in c
    requires a + "|" + b == c + "|" + d
    ensures a == c && b == d
  {
    if |a| != |c| {
      var m := if |a| < |c| then |a| else |c|;
      BarAt(a, b, m);
      BarAt(c, d, m);
      assert false;
    }
    assert a == (a + "|" + b)[..|a|] && c == (c + "|" + d)[..|c|];
    assert b == (a + "|" + b)[|a| + 1..] && d == (c + "|" + d)[|c| + 1..];
  }

  /** The character at position `m` of `x|y`. */
  lemma BarAt(x: string, y: string, m: nat)
    requires m <= |x|
    ensures (x + "|" + y)[m] == if m == |x| then '|' else x[m]
  {
  }
}
