/** The stand-alone payment server: it creates gateway orders, verifies
    payment signatures and appends paid orders to a JSON file.

    The file is an optional list (`None` when it is missing or unreadable);
    whether the write succeeds is a parameter.
 */
module RazorpayServer {
  import opened Base
  import Text
  import opened Orders
  import Payments
  import ServerRoutes

  /** `/api/orders/create`: no validation; the request goes to the gateway with the same defaults as the
      order server's route, and a gateway error answers 500. */
  function CreateOrder(req: Payments.GatewayRequest, gateway: Payments.GatewayCall -> Result<string>)
    : (r: (int, Payments.GatewayCall))
    ensures r.1 == Payments.GatewayCallOf(req)
    ensures r.0 == 200 <==> gateway(r.1).Ok?
    ensures r.0 == 200 || r.0 == 500
  {
    var call := Payments.GatewayCallOf(req);
    (if gateway(call).Ok? then 200 else 500, call)
  }

  /** A request the order server turns away before calling the gateway still reaches the gateway here. */
  lemma NoAmountCheck(req: Payments.GatewayRequest, gateway: Payments.GatewayCall -> Result<string>)
    requires req.amount == Some(0.0)
    ensures ServerRoutes.CreateGatewayOrder(req, gateway).0.status == 400
    ensures ServerRoutes.CreateGatewayOrder(req, gateway).1.None?
    ensures CreateOrder(req, gateway).1.amount == Some(0.0)
  {
  }

  /** `/api/payments/verify`: the key is the configured secret, or the built-in fallback when none is set. */
  function VerifyPayment(hmac: (string, string) -> string, configured: Option<string>, fallback: string,
                         orderId: Option<string>, paymentId: Option<string>, signature: Option<string>)
    : (r: (int, bool))
    requires fallback != ""
    ensures r.0 == (if r.1 then 200 else 400)
    ensures StrTruthy(configured) ==>
              (r.1 <==> signature == Some(hmac(configured.value, Payments.JsStr(orderId) + "|" + Payments.JsStr(paymentId))))
    ensures !StrTruthy(configured) ==>
              (r.1 <==> signature == Some(hmac(fallback, Payments.JsStr(orderId) + "|" + Payments.JsStr(paymentId))))
  {
    Payments.VerifyPayment(hmac, StrOrDefault(configured, fallback), orderId, paymentId, signature)
  }

  /** An entry of the orders file: the order with its file id and the two fixed statuses. */
  datatype FileOrder = FileOrder(fileId: string, order: Order, orderStatus: string, paymentStatus: string)

  /** `customerInfo?.email || 'guest'`. */
  function FileUserId(o: Order): (u: string)
    ensures o.customerInfo.Some? && StrTruthy(o.customerInfo.value.email) ==> u == o.customerInfo.value.email.value
    ensures !(o.customerInfo.Some? && StrTruthy(o.customerInfo.value.email)) ==> u == "guest"
  {
    StrOrDefault(if o.customerInfo.Some? then o.customerInfo.value.email else None, "guest")
  }

  /** The entry written for an order saved at `now`. */
  function NewFileOrder(o: Order, now: nat): (f: FileOrder)
    ensures f.fileId == "order_" + Text.NatToString(now)
    ensures f.orderStatus == "confirmed" && f.paymentStatus == "completed"
    ensures f.order == o.(userId := Some(FileUserId(o)), createdAt := Some(now), updatedAt := Some(now))
  {
    FileOrder("order_" + Text.NatToString(now),
              o.(userId := Some(FileUserId(o)), createdAt := Some(now), updatedAt := Some(now)),
              "confirmed", "completed")
  }

  /** `/api/orders/save`: reads the file (an unreadable file counts as empty), appends the new entry and writes
      the whole list back. A failed write answers 500 and leaves the file as it was. */
  function SaveOrder(file: Option<seq<FileOrder>>, o: Order, now: nat, writeOk: bool)
    : (r: (int, Option<seq<FileOrder>>))
    ensures writeOk ==> r.0 == 200
    ensures !writeOk ==> r.0 == 500 && r.1 == file
    ensures writeOk ==> r.1.Some? && |r.1.value| == |FileOrders(file)| + 1
    ensures writeOk ==> r.1.value[..|FileOrders(file)|] == FileOrders(file)
    ensures writeOk ==> r.1.value[|FileOrders(file)|] == NewFileOrder(o, now)
  {
    if !writeOk then (500, file)
    else
      var orders := FileOrders(file) + [NewFileOrder(o, now)];
      assert orders[..|FileOrders(file)|] == FileOrders(file);
      (200, Some(orders))
  }

  /** The list read from the file, empty when there is none. */
  function FileOrders(file: Option<seq<FileOrder>>): seq<FileOrder> {
    if file.Some? then file.value else []
  }

  /** Two saves within one millisecond both stay in the file, under the same file id. */
  lemma SameMillisecondSameId(file: Option<seq<FileOrder>>, o1: Order, o2: Order, now: nat)
    ensures var f1 := SaveOrder(file, o1, now, true).1;
            var f2 := SaveOrder(f1, o2, now, true).1;
            && |f2.value| == |FileOrders(file)| + 2
            && f2.value[..|FileOrders(file)|] == FileOrders(file)
            && f2.value[|FileOrders(file)|].fileId == f2.value[|FileOrders(file)| + 1].fileId
  {
    var f1 := SaveOrder(file, o1, now, true).1;
    var f2 := SaveOrder(f1, o2, now, true).1;
    assert f2.value[..|FileOrders(file)|] == f2.value[..|FileOrders(f1)|][..|FileOrders(file)|];
    assert f2.value[|FileOrders(file)|] == f1.value[|FileOrders(file)|];
  }
}
