/** The server's order routes: payment-gateway order creation, payment
    verification, saving an order, creating its shipping order automatically
    or by recovery, the auto-sync control endpoints and the webhook endpoint.

    A route's answer is a `Reply`; `sent` records the order handed to the
    shipping client (`None` when the route never reached the provider). The
    shipping client's `createOrder` is the oracle `ship`: for the order it is
    given it answers like `ShippingClient.CreateOrder` does, login and token
    cache included.
 */
module ServerRoutes {
  import opened Base
  import Text
  import opened Orders
  import ShippingClient
  import Transform
  import SyncLifecycle
  import Webhook
  import Payments
  import OrderStore

  datatype Reply = Reply(status: int, success: bool, shiprocketOrderId: Option<string>, message: string)

  datatype RouteResult = RouteResult(store: Store, reply: Reply, sent: Option<Order>)

  /** The shipping client's `createOrder`. */
  type Ship = Order -> Result<ShippingClient.Created>

  // ---------------------------------------------------------------------------
  // getShiprocketOrderId

  /** A creation result as the routes see it: `data` is the provider's raw reply. */
  datatype CreateResponse = CreateResponse(data: Option<ShippingClient.CreateReply>)

  /** `getShiprocketOrderId(result)`: the reply's `order_id`, else its `channel_order_id`, else null. */
  function GetShiprocketOrderId(res: Option<CreateResponse>): (r: Option<string>)
    ensures r.Some? ==> StrTruthy(r)
    ensures res.None? || res.value.data.None? ==> r.None?
    ensures r.Some? ==> r == res.value.data.value.orderId || r == res.value.data.value.channelOrderId
    ensures res.Some? && res.value.data.Some? && StrTruthy(res.value.data.value.orderId) ==>
              r == res.value.data.value.orderId
    ensures res.Some? && res.value.data.Some? ==>
              (r.None? <==> !StrTruthy(res.value.data.value.orderId) && !StrTruthy(res.value.data.value.channelOrderId))
  {
    if res.None? || res.value.data.None? then None
    else
      var d := res.value.data.value;
      if StrTruthy(d.orderId) then d.orderId
      else if StrTruthy(d.channelOrderId) then d.channelOrderId
      else None
  }

  /** The route helper and the shipping client read the same id from a creation reply whenever there is one. */
  lemma RouteIdMatchesClient(reply: ShippingClient.CreateReply)
    ensures StrTruthy(ShippingClient.ReplyId(reply)) ==>
              GetShiprocketOrderId(Some(CreateResponse(Some(reply)))) == ShippingClient.ReplyId(reply)
    ensures !StrTruthy(ShippingClient.ReplyId(reply)) ==> GetShiprocketOrderId(Some(CreateResponse(Some(reply)))).None?
  {
  }

  // ---------------------------------------------------------------------------
  // /api/orders/create and /api/payments/verify

  /** `/api/orders/create`: rejects a missing or non-positive amount and a missing receipt before any gateway
      call; the currency defaults to INR and the notes to `{}`. */
  function CreateGatewayOrder(req: Payments.GatewayRequest, gateway: Payments.GatewayCall -> Result<string>)
    : (r: (Reply, Option<Payments.GatewayCall>))
    ensures r.1.None? <==> !NumTruthy(req.amount) || req.amount.value <= 0.0 || !StrTruthy(req.receipt)
    ensures r.1.None? ==> r.0.status == 400
    ensures r.1.Some? ==>
              && r.1.value == Payments.GatewayCallOf(req)
              && 0.0 < r.1.value.amount.value && StrTruthy(r.1.value.receipt)
              && (r.0.status == 200 <==> gateway(r.1.value).Ok?)
              && (r.0.status != 200 ==> r.0.status == 500)
  {
    if !NumTruthy(req.amount) || req.amount.value <= 0.0 then
      (Reply(400, false, None, "Amount must be greater than 0"), None)
    else if !StrTruthy(req.receipt) then
      (Reply(400, false, None, "Receipt is required"), None)
    else
      var call := Payments.GatewayCallOf(req);
      match gateway(call)
      case Err(m) => (Reply(500, false, None, m), Some(call))
      case Ok(_) => (Reply(200, true, None, "Order created"), Some(call))
  }

  /** `/api/payments/verify`: the shared signature check. */
  function VerifyPayment(hmac: (string, string) -> string, secret: string,
                         orderId: Option<string>, paymentId: Option<string>, signature: Option<string>)
    : (r: (int, bool))
    ensures r.0 == 200 || r.0 == 400
    ensures r.1 <==> signature == Some(hmac(secret, Payments.JsStr(orderId) + "|" + Payments.JsStr(paymentId)))
  {
    Payments.VerifyPayment(hmac, secret, orderId, paymentId, signature)
  }

  // ---------------------------------------------------------------------------
  // /api/orders/:id/status

  /** `PUT /api/orders/:id/status` passes `req.body.status` on. A missing status is not a string, so it is
      spread as an empty object: the update only stamps `updatedAt`. A missing document answers 400. */
  function OrderStatusEndpoint(s: Store, id: DocId, status: Option<string>, now: int): (r: (int, Store))
    ensures r.0 == 200 || r.0 == 400
    ensures r.0 == 200 <==> Lookup(s, id).Some?
    ensures r.0 == 400 ==> r.1 == s
    ensures r.0 == 200 ==> forall other :: other != id ==> Lookup(r.1, other) == Lookup(s, other)
    ensures r.0 == 200 && status.Some? ==>
              Lookup(r.1, id) == Some(Lookup(s, id).value.(status := status, updatedAt := Some(now)))
    ensures r.0 == 200 && status.None? ==> Lookup(r.1, id) == Some(Lookup(s, id).value.(updatedAt := Some(now)))
  {
    var u := match status
             case Some(t) => OrderStore.StatusText(t)
             case None => OrderStore.PatchUpdate(OrderStore.OrderPatch(None, None, None));
    match OrderStore.UpdateOrderStatus(s, id, u, now)
    case Ok(s1) => (200, s1)
    case Err(_) => (400, s)
  }

  // ---------------------------------------------------------------------------
  // /api/orders/save

  /** A gateway payment id of the test mode. */
  predicate IsTestPayment(p: PaymentInfo) {
    StrTruthy(p.paymentId) && Text.StartsWith(p.paymentId.value, "pay_test")
  }

  /** The payment gate: a non-test gateway payment must carry its payment id and signature. */
  predicate GateRejects(o: Order) {
    && o.paymentInfo.Some?
    && o.paymentInfo.value.payMethod == Some("razorpay")
    && !IsTestPayment(o.paymentInfo.value)
    && (!StrTruthy(o.paymentInfo.value.paymentId) || !StrTruthy(o.paymentInfo.value.signature))
  }

  /** The shipping provider accepted the order and named it. */
  predicate ShipLinked(ship: Ship, o: Order) {
    ship(o).Ok? && ship(o).value.shiprocketOrderId != ""
  }

  /** `/api/orders/save`. The signature is compared only for a log line: a mismatch does not stop the save.
      Once the record is stored the route answers success, whether or not the shipping order was created. */
  function SaveOrder(s: Store, o: Order, hmac: (string, string) -> string, secret: string, ship: Ship, now: int)
    : (r: RouteResult)
    requires Valid(s)
    ensures Valid(r.store)
    ensures GateRejects(o) ==> r.store == s && r.reply.status == 400 && r.sent.None?
    ensures !GateRejects(o) ==>
              && r.sent == Some(o) && r.reply.status == 200 && r.reply.success
              && |r.store.docs| == |s.docs| + 1 && r.store.docs[..|s.docs|] == s.docs
              && r.store.docs[|s.docs|].id == s.nextId
              && var saved := r.store.docs[|s.docs|].data;
                 && saved == o.(status := saved.status, ship := saved.ship, createdAt := Some(now), updatedAt := Some(now))
                 && saved.status == Some(if ShipLinked(ship, o) then "confirmed" else "pending")
                 && (ShipLinked(ship, o) ==>
                       && saved.ship == o.ship.(shiprocketOrderId := Some(ship(o).value.shiprocketOrderId),
                                                shiprocketStatus := Some("created"))
                       && r.reply.shiprocketOrderId == Some(ship(o).value.shiprocketOrderId))
                 && (!ShipLinked(ship, o) ==> saved.ship == o.ship && r.reply.shiprocketOrderId.None?)
  {
    if GateRejects(o) then
      RouteResult(s, Reply(400, false, None, "Order cannot be saved without proper payment verification"), None)
    else
      if ShipLinked(ship, o) then
        var id := ship(o).value.shiprocketOrderId;
        RouteResult(SaveConfirmed(s, o, id, now), Reply(200, true, Some(id), "Order saved successfully and created in Shiprocket"), Some(o))
      else
        var (s1, fid) := OrderStore.CreateOrder(s, o, now);
        RouteResult(s1, Reply(200, true, None, "Order saved successfully to database"), Some(o))
  }

  /** `createOrder` followed by the update that records the shipping order: the new record ends up
      'confirmed', carrying the provider's id. */
  function SaveConfirmed(s: Store, o: Order, id: string, now: int): (r: Store)
    requires Valid(s)
    ensures Valid(r)
    ensures |r.docs| == |s.docs| + 1 && r.docs[..|s.docs|] == s.docs && r.docs[|s.docs|].id == s.nextId
    ensures r.docs[|s.docs|].data
              == o.(status := Some("confirmed"), createdAt := Some(now), updatedAt := Some(now),
                    ship := o.ship.(shiprocketOrderId := Some(id), shiprocketStatus := Some("created")))
  {
    var (s1, fid) := OrderStore.CreateOrder(s, o, now);
    var patch := OrderStore.OrderPatch(Some("confirmed"), Some(id), Some("created"));
    var s2 := OrderStore.UpdateOrderStatus(s1, fid, OrderStore.PatchUpdate(patch), now).value;
    assert s1.docs[|s.docs|].data == Lookup(s1, fid).value;
    assert s2 == Put(s1, fid, OrderStore.ApplyPatch(Lookup(s1, fid).value, patch, now));
    assert forall i :: 0 <= i < |s.docs| ==> s1.docs[i].id != fid;
    assert s2.docs[..|s.docs|] == s.docs;
    s2
  }

  /** The save route has no duplicate guard: saving the same order twice stores it twice. */
  lemma SaveTwiceStoresTwice(s: Store, o: Order, hmac: (string, string) -> string, secret: string, ship: Ship,
                             now: int, later: int)
    requires Valid(s) && !GateRejects(o)
    ensures var s1 := SaveOrder(s, o, hmac, secret, ship, now).store;
            var s2 := SaveOrder(s1, o, hmac, secret, ship, later).store;
            && |s2.docs| == |s.docs| + 2
            && s2.docs[|s.docs|].data.orderId == s2.docs[|s.docs| + 1].data.orderId == o.orderId
            && SaveOrder(s1, o, hmac, secret, ship, later).sent == Some(o)
  {
    var s1 := SaveOrder(s, o, hmac, secret, ship, now).store;
    var s2 := SaveOrder(s1, o, hmac, secret, ship, later).store;
    assert s2.docs[|s.docs|] == s2.docs[..|s1.docs|][|s.docs|] == s1.docs[|s.docs|];
  }

  /** Whether the signature matches changes nothing in what the save route does. */
  lemma SaveIgnoresSignature(s: Store, o: Order, h1: (string, string) -> string, h2: (string, string) -> string,
                             secret: string, ship: Ship, now: int)
    requires Valid(s)
    ensures SaveOrder(s, o, h1, secret, ship, now) == SaveOrder(s, o, h2, secret, ship, now)
  {
  }

  // ---------------------------------------------------------------------------
  // Finding an order by its own id

  /** Position of the first document with `orderId == id`, and, when `linkedOnly`, a non-null
      `shiprocketOrderId`. */
  function FindOrder(docs: seq<Doc>, id: string, linkedOnly: bool): (r: Option<nat>)
    ensures r.Some? ==> r.value < |docs| && docs[r.value].data.orderId == Some(id)
    ensures r.Some? && linkedOnly ==> docs[r.value].data.ship.shiprocketOrderId.Some?
    ensures r.Some? ==> forall j :: 0 <= j < r.value ==>
              !(docs[j].data.orderId == Some(id) && (!linkedOnly || docs[j].data.ship.shiprocketOrderId.Some?))
    ensures r.None? <==> forall j :: 0 <= j < |docs| ==>
              !(docs[j].data.orderId == Some(id) && (!linkedOnly || docs[j].data.ship.shiprocketOrderId.Some?))
  {
    if |docs| == 0 then None
    else if docs[0].data.orderId == Some(id) && (!linkedOnly || docs[0].data.ship.shiprocketOrderId.Some?) then Some(0)
    else
      var r := FindOrder(docs[1..], id, linkedOnly);
      assert forall j :: 1 <= j < |docs| ==> docs[j] == docs[1..][j - 1];
      if r.Some? then Some(r.value + 1) else None
  }

  /** The shipping fields a successful creation links an order with. */
  function LinkShipping(sh: Shipping, id: Option<string>, now: int): Shipping {
    sh.(shiprocketOrderId := id, shiprocketStatus := Some("NEW"), shiprocketCreated := Some(true),
        shiprocketLastUpdated := Some(now))
  }

  // ---------------------------------------------------------------------------
  // /api/orders/auto-create

  /** One cart line as the auto-create route maps it. */
  function AutoCreateItem(i: Item): (r: Item)
    ensures r.name == Some(if StrTruthy(i.name) then i.name.value else "Product")
    ensures r.sku == Some(if StrTruthy(i.id) then i.id.value else "SKU001")
    ensures r.units == Some(if NumTruthy(i.quantity) then i.quantity.value else 1.0)
    ensures r.sellingPrice == Some(if NumTruthy(i.price) then i.price.value else 0.0)
    ensures r.id.None? && r.quantity.None? && r.price.None? && r.weight.None?
  {
    Item(Some(StrOrDefault(i.name, "Product")), None, Some(StrOrDefault(i.id, "SKU001")), None,
         Some(if NumTruthy(i.quantity) then i.quantity.value else 1.0), None,
         Some(if NumTruthy(i.price) then i.price.value else 0.0), None)
  }

  function AutoCreateItems(items: seq<Item>): (r: seq<Item>)
    ensures |r| == |items|
    ensures forall k :: 0 <= k < |items| ==> r[k] == AutoCreateItem(items[k])
  {
    seq(|items|, k requires 0 <= k < |items| => AutoCreateItem(items[k]))
  }

  /** `customerInfo?.field || fallback` for the nested customer shape. */
  function CustomerField(ci: Option<CustomerInfo>, pick: CustomerInfo -> Option<string>, fallback: string): string {
    if ci.Some? then StrOrValue(pick(ci.value), fallback) else fallback
  }

  function AddressField(ci: Option<CustomerInfo>, pick: Address -> Option<string>, fallback: string): string {
    if ci.Some? && ci.value.address.Some? then StrOrValue(pick(ci.value.address.value), fallback) else fallback
  }

  /** `a || fallback` where the fallback may be the empty string. */
  function StrOrValue(a: Option<string>, fallback: string): (r: string)
    ensures StrTruthy(a) ==> r == a.value
    ensures !StrTruthy(a) ==> r == fallback
  {
    if StrTruthy(a) then a.value else fallback
  }

  /** The flat order the auto-create route hands to the shipping client. */
  function AutoCreatePayload(o: Order): (p: Order)
    ensures p.customerInfo.None? && p.orderId == o.orderId
    ensures p.contact.billingCustomerName == Some(CustomerField(o.customerInfo, (c: CustomerInfo) => c.name, "Customer"))
    ensures p.contact.billingAddress == Some(AddressField(o.customerInfo, (a: Address) => a.street, ""))
    ensures p.contact.billingCountry == Some(AddressField(o.customerInfo, (a: Address) => a.country, "India"))
    ensures p.paymentMethod == Some(if o.paymentInfo.Some? && o.paymentInfo.value.payMethod == Some("cod")
                                    then "COD" else "Prepaid")
    ensures p.orderItems == Some(AutoCreateItems(if o.cartItems.Some? then o.cartItems.value else []))
    ensures p.amounts.weight == Some(0.49)
  {
    var ci := o.customerInfo;
    var amount := if o.paymentInfo.Some? then o.paymentInfo.value.amount else None;
    EmptyOrder.(
      orderId := o.orderId,
      contact := NoContact.(
        billingCustomerName := Some(CustomerField(ci, (c: CustomerInfo) => c.name, "Customer")),
        billingAddress := Some(AddressField(ci, (a: Address) => a.street, "")),
        billingCity := Some(AddressField(ci, (a: Address) => a.city, "")),
        billingPincode := Some(AddressField(ci, (a: Address) => a.pincode, "")),
        billingState := Some(AddressField(ci, (a: Address) => a.state, "")),
        billingCountry := Some(AddressField(ci, (a: Address) => a.country, "India")),
        billingPhone := Some(CustomerField(ci, (c: CustomerInfo) => c.phone, "")),
        billingEmail := Some(CustomerField(ci, (c: CustomerInfo) => c.email, ""))),
      orderItems := Some(AutoCreateItems(if o.cartItems.Some? then o.cartItems.value else [])),
      paymentMethod := Some(if o.paymentInfo.Some? && o.paymentInfo.value.payMethod == Some("cod")
                            then "COD" else "Prepaid"),
      amounts := NoAmounts.(
        subTotal := Some(if NumTruthy(amount) then amount.value
                         else if NumTruthy(o.amounts.total) then o.amounts.total.value else 0.0),
        length := Some(30.0), breadth := Some(20.0), height := Some(5.0), weight := Some(0.49)))
  }

  /** `new Date(order.createdAt || order.timestamp).toISOString()` succeeds: the order has a date, and the date
      lies within the range a JavaScript `Date` can hold (8.64e15 ms either side of the epoch). */
  predicate HasOrderDate(o: Order) {
    var t := if o.createdAt.Some? then o.createdAt else o.timestamp;
    t.Some? && -8640000000000000 <= t.value <= 8640000000000000
  }

  /** `/api/orders/auto-create`. Building the payload throws a `RangeError` for an order without a usable
      date, which the route's catch answers with 500 before the provider is called. */
  function AutoCreate(s: Store, orderId: Option<string>, paymentId: Option<string>, signature: Option<string>,
                      ship: Ship, now: int): (r: RouteResult)
    requires Valid(s)
    ensures Valid(r.store) && Ids(r.store.docs) == Ids(s.docs)
    ensures !StrTruthy(orderId) || !StrTruthy(paymentId) || !StrTruthy(signature) ==>
              r.reply.status == 400 && r.store == s && r.sent.None?
    ensures StrTruthy(orderId) && StrTruthy(paymentId) && StrTruthy(signature) ==>
              var found := FindOrder(s.docs, orderId.value, false);
              && (found.None? ==> r.reply.status == 404 && r.store == s && r.sent.None?)
              && (found.Some? ==>
                    var o := s.docs[found.value].data;
                    var linked := FindOrder(s.docs, orderId.value, true);
                    && (StrTruthy(o.ship.shiprocketOrderId) && BoolTruthy(o.ship.shiprocketCreated) ==>
                          r == RouteResult(s, Reply(200, true, o.ship.shiprocketOrderId, "Order already exists in Shiprocket"), None))
                    && (!(StrTruthy(o.ship.shiprocketOrderId) && BoolTruthy(o.ship.shiprocketCreated)) && linked.Some? ==>
                          r == RouteResult(s, Reply(200, true, s.docs[linked.value].data.ship.shiprocketOrderId,
                                                    "Order already exists in Shiprocket"), None))
                    && (!(StrTruthy(o.ship.shiprocketOrderId) && BoolTruthy(o.ship.shiprocketCreated)) && linked.None?
                        && !HasOrderDate(o) ==>
                          r == RouteResult(s, Reply(500, false, None, "Invalid time value"), None))
                    && (r.sent.Some? ==>
                          && HasOrderDate(o)
                          && r.sent == Some(AutoCreatePayload(o))
                          && (r.reply.status == 200 <==> ship(AutoCreatePayload(o)).Ok?)
                          && (r.reply.status != 200 ==> r.reply.status == 500 && r.store == s)
                          && (r.reply.status == 200 ==>
                                var id := GetShiprocketOrderId(Some(CreateResponse(Some(ship(AutoCreatePayload(o)).value.reply))));
                                && r.reply.shiprocketOrderId == id
                                && r.store.docs[found.value].data == o.(ship := LinkShipping(o.ship, id, now), updatedAt := Some(now))
                                && forall j :: 0 <= j < |s.docs| && j != found.value ==> r.store.docs[j] == s.docs[j])))
  {
    if !StrTruthy(orderId) || !StrTruthy(paymentId) || !StrTruthy(signature) then
      RouteResult(s, Reply(400, false, None, "orderId, paymentId, and signature are required"), None)
    else
      match FindOrder(s.docs, orderId.value, false)
      case None => RouteResult(s, Reply(404, false, None, "Order not found in database"), None)
      case Some(i) =>
        var o := s.docs[i].data;
        if StrTruthy(o.ship.shiprocketOrderId) && BoolTruthy(o.ship.shiprocketCreated) then
          RouteResult(s, Reply(200, true, o.ship.shiprocketOrderId, "Order already exists in Shiprocket"), None)
        else
          match FindOrder(s.docs, orderId.value, true)
          case Some(j) =>
            RouteResult(s, Reply(200, true, s.docs[j].data.ship.shiprocketOrderId, "Order already exists in Shiprocket"), None)
          case None =>
            if !HasOrderDate(o) then RouteResult(s, Reply(500, false, None, "Invalid time value"), None)
            else
              var p := AutoCreatePayload(o);
              match ship(p)
              case Err(m) => RouteResult(s, Reply(500, false, None, m), Some(p))
              case Ok(c) =>
                var id := GetShiprocketOrderId(Some(CreateResponse(Some(c.reply))));
                var s1 := PutAt(s, i, o.(ship := LinkShipping(o.ship, id, now), updatedAt := Some(now)));
                RouteResult(s1, Reply(200, true, id, "Order successfully created in Shiprocket"), Some(p))
  }

  /** Once auto-create has linked an order with a truthy id, calling it again reaches no provider. */
  lemma AutoCreateIdempotent(s: Store, orderId: Option<string>, paymentId: Option<string>,
                             signature: Option<string>, ship: Ship, now: int, later: int)
    requires Valid(s)
    requires var r := AutoCreate(s, orderId, paymentId, signature, ship, now);
             r.sent.Some? && ship(r.sent.value).Ok?
             && StrTruthy(ShippingClient.ReplyId(ship(r.sent.value).value.reply))
    ensures var r := AutoCreate(s, orderId, paymentId, signature, ship, now);
            var again := AutoCreate(r.store, orderId, paymentId, signature, ship, later);
            again.sent.None? && again.store == r.store && again.reply.shiprocketOrderId == r.reply.shiprocketOrderId
  {
    var r := AutoCreate(s, orderId, paymentId, signature, ship, now);
    var i := FindOrder(s.docs, orderId.value, false).value;
    var reply := ship(r.sent.value).value.reply;
    RouteIdMatchesClient(reply);
    var s1 := r.store;
    assert forall j :: 0 <= j < i ==> s1.docs[j] == s.docs[j];
    assert s1.docs[i].data.orderId == Some(orderId.value);
    FindOrderStable(s.docs, s1.docs, orderId.value, i);
    var o1 := s1.docs[i].data;
    assert StrTruthy(o1.ship.shiprocketOrderId) && BoolTruthy(o1.ship.shiprocketCreated);
    AutoCreateOnCreated(s1, orderId, paymentId, signature, ship, later, i);
  }

  /** Auto-create on an order already created with the provider answers with its id and sends nothing. */
  lemma AutoCreateOnCreated(s: Store, orderId: Option<string>, paymentId: Option<string>,
                            signature: Option<string>, ship: Ship, now: int, i: nat)
    requires Valid(s) && StrTruthy(orderId) && StrTruthy(paymentId) && StrTruthy(signature)
    requires FindOrder(s.docs, orderId.value, false) == Some(i)
    requires StrTruthy(s.docs[i].data.ship.shiprocketOrderId) && BoolTruthy(s.docs[i].data.ship.shiprocketCreated)
    ensures AutoCreate(s, orderId, paymentId, signature, ship, now)
            == RouteResult(s, Reply(200, true, s.docs[i].data.ship.shiprocketOrderId, "Order already exists in Shiprocket"), None)
  {
  }

  /** Relinking the found document keeps it the first match. */
  lemma FindOrderStable(a: seq<Doc>, b: seq<Doc>, id: string, i: nat)
    requires i < |a| == |b|
    requires FindOrder(a, id, false) == Some(i)
    requires forall j :: 0 <= j < i ==> b[j] == a[j]
    requires b[i].data.orderId == Some(id)
    ensures FindOrder(b, id, false) == Some(i)
  {
  }

  // ---------------------------------------------------------------------------
  // /api/orders/recover-shiprocket

  /** The flat order the recovery route hands to the shipping client: every contact field is the first truthy
      name in its chain, with a literal default. */
  function RecoverPayload(o: Order): (p: Order)
    ensures p.customerInfo.None? && p.orderId == o.orderId
    ensures StrTruthy(p.contact.billingCustomerName) && StrTruthy(p.contact.billingPhone)
    ensures StrTruthy(p.contact.billingAddress) && StrTruthy(p.contact.billingCity)
    ensures StrTruthy(p.contact.billingPincode) && StrTruthy(p.contact.billingState)
    ensures StrTruthy(p.contact.billingCountry)
    ensures !StrTruthy(o.contact.billingPincode) ==> p.contact.billingPincode == Some("110001")
    ensures !StrTruthy(o.contact.billingPhone) && !StrTruthy(o.contact.customerPhone) ==>
              p.contact.billingPhone == Some("9876543210")
    ensures StrTruthy(p.contact.billingEmail) <==>
              StrTruthy(o.contact.billingEmail) || StrTruthy(o.contact.customerEmail)
              || StrTruthy(o.contact.loggedInUserEmail)
    ensures p.cartItems == Some(if o.cartItems.Some? then o.cartItems.value
                                else if o.orderItems.Some? then o.orderItems.value else [])
    ensures p.orderNotes == Some(if StrTruthy(o.orderNotes) then o.orderNotes.value
                                 else "Silk saree order from Varaha Silks")
  {
    var f := o.contact;
    var amount := if o.paymentInfo.Some? then o.paymentInfo.value.amount else None;
    EmptyOrder.(
      orderId := o.orderId,
      contact := NoContact.(
        billingCustomerName := Some(StrOrDefault(StrOr(StrOr(f.billingCustomerName, f.customerName),
                                                       f.loggedInUserEmail), "Customer")),
        billingEmail := StrOr(StrOr(f.billingEmail, f.customerEmail), f.loggedInUserEmail),
        billingPhone := Some(StrOrDefault(StrOr(f.billingPhone, f.customerPhone), "9876543210")),
        billingAddress := Some(StrOrDefault(f.billingAddress, "Address not provided")),
        billingCity := Some(StrOrDefault(f.billingCity, "City not provided")),
        billingPincode := Some(StrOrDefault(f.billingPincode, "110001")),
        billingState := Some(StrOrDefault(f.billingState, "State not provided")),
        billingCountry := Some(StrOrDefault(f.billingCountry, "India"))),
      cartItems := Some(if o.cartItems.Some? then o.cartItems.value
                        else if o.orderItems.Some? then o.orderItems.value else []),
      paymentMethod := Some(StrOrDefault(o.paymentMethod, "Prepaid")),
      amounts := NoAmounts.(
        subTotal := Some(if NumTruthy(o.amounts.subTotal) then o.amounts.subTotal.value
                         else if NumTruthy(o.amounts.totalAmount) then o.amounts.totalAmount.value
                         else if NumTruthy(amount) then amount.value else 0.0),
        length := Some(30.0), breadth := Some(20.0), height := Some(5.0), weight := Some(0.49)),
      orderNotes := Some(StrOrDefault(o.orderNotes, "Silk saree order from Varaha Silks")))
  }

  /** Of the seven fields the shipping client requires, the recovery payload can only lack the email. */
  lemma RecoverPayloadOnlyLacksEmail(o: Order, env: Transform.Env)
    ensures var missing := Transform.MissingFields(Transform.ResolveContact(RecoverPayload(o)));
            && (forall f :: f in missing ==> f == Transform.Email)
            && (Transform.TransformOrder(RecoverPayload(o), env).Valid? <==>
                  StrTruthy(o.contact.billingEmail) || StrTruthy(o.contact.customerEmail)
                  || StrTruthy(o.contact.loggedInUserEmail))
  {
    RecoverContact(o);
    Transform.OnlyEmailMissing(RecoverPayload(o), env);
  }

  /** The contact the shipping client resolves from the recovery payload: every field but the email is truthy. */
  lemma RecoverContact(o: Order)
    ensures var c := Transform.ResolveContact(RecoverPayload(o));
            && StrTruthy(c.name) && StrTruthy(c.address) && StrTruthy(c.city) && StrTruthy(c.pincode)
            && StrTruthy(c.state) && StrTruthy(c.phone)
            && (StrTruthy(c.email) <==> StrTruthy(o.contact.billingEmail) || StrTruthy(o.contact.customerEmail)
                                        || StrTruthy(o.contact.loggedInUserEmail))
  {
    var p := RecoverPayload(o);
    assert !Transform.HasNestedAddress(p);
  }

  /** What the recovery route does up to the provider call. */
  datatype RecoverPlan =
    | Answer(reply: Reply)
    | SendAt(i: nat, payload: Order)

  function RecoverPlanOf(s: Store, orderId: Option<string>): (r: RecoverPlan)
    ensures r.SendAt? ==> StrTruthy(orderId) && FindOrder(s.docs, orderId.value, false) == Some(r.i)
                          && !StrTruthy(s.docs[r.i].data.ship.shiprocketOrderId)
                          && r.payload == RecoverPayload(s.docs[r.i].data)
    ensures !StrTruthy(orderId) ==> r == Answer(Reply(400, false, None, "orderId is required"))
    ensures StrTruthy(orderId) && FindOrder(s.docs, orderId.value, false).None? ==>
              r == Answer(Reply(404, false, None, "Order not found"))
    ensures StrTruthy(orderId) && FindOrder(s.docs, orderId.value, false).Some? ==>
              var o := s.docs[FindOrder(s.docs, orderId.value, false).value].data;
              StrTruthy(o.ship.shiprocketOrderId) ==>
                r == Answer(Reply(200, true, o.ship.shiprocketOrderId, "Order already has Shiprocket ID"))
  {
    if !StrTruthy(orderId) then Answer(Reply(400, false, None, "orderId is required"))
    else
      match FindOrder(s.docs, orderId.value, false)
      case None => Answer(Reply(404, false, None, "Order not found"))
      case Some(i) =>
        var o := s.docs[i].data;
        if StrTruthy(o.ship.shiprocketOrderId) then
          Answer(Reply(200, true, o.ship.shiprocketOrderId, "Order already has Shiprocket ID"))
        else SendAt(i, RecoverPayload(o))
  }

  /** The id a creation result yields through `getShiprocketOrderId`. */
  function CreatedId(c: ShippingClient.Created): Option<string> {
    GetShiprocketOrderId(Some(CreateResponse(Some(c.reply))))
  }

  /** `/api/orders/recover-shiprocket` as written: building the success update evaluates an `admin` binding
      the file never declares, so the success path throws, answers 500 and writes nothing. */
  function RecoverAsWritten(s: Store, orderId: Option<string>, ship: Ship, now: int): (r: RouteResult)
    requires Valid(s)
    ensures r.store == s
    ensures RecoverPlanOf(s, orderId).Answer? ==> r.sent.None? && r.reply == RecoverPlanOf(s, orderId).reply
    ensures RecoverPlanOf(s, orderId).SendAt? ==> r.sent == Some(RecoverPlanOf(s, orderId).payload) && r.reply.status == 500
  {
    match RecoverPlanOf(s, orderId)
    case Answer(reply) => RouteResult(s, reply, None)
    case SendAt(i, p) =>
      match ship(p)
      case Err(m) => RouteResult(s, Reply(500, false, None, m), Some(p))
      case Ok(c) =>
        if CreatedId(c).None? then RouteResult(s, Reply(500, false, None, "Shiprocket order ID is undefined"), Some(p))
        else RouteResult(s, Reply(500, false, None, "admin is not defined"), Some(p))
  }

  /** As written, a recovery whose shipping order was created leaves the order unlinked, so every retry
      creates yet another shipping order. */
  lemma RecoverAsWrittenRepeatsCreation(s: Store, orderId: Option<string>, ship: Ship, now: int, later: int)
    requires Valid(s)
    requires RecoverPlanOf(s, orderId).SendAt?
    requires ship(RecoverPlanOf(s, orderId).payload).Ok?
    requires CreatedId(ship(RecoverPlanOf(s, orderId).payload).value).Some?
    ensures var r := RecoverAsWritten(s, orderId, ship, now);
            && r.reply.status == 500
            && RecoverAsWritten(r.store, orderId, ship, later).sent == r.sent
            && r.sent.Some?
  {
  }

  /** A concrete case: an unlinked order with an email, and a provider that accepts it under id "123". */
  lemma RecoverAsWrittenExample()
    ensures var o := EmptyOrder.(orderId := Some("A1"), contact := NoContact.(billingEmail := Some("a@b.in")));
            var s := Store([Doc(0, o)], 1);
            var ship := (p: Order) => Ok(ShippingClient.Created("123", ShippingClient.CreateReply(Some("123"), None)));
            var r := RecoverAsWritten(s, Some("A1"), ship, 5);
            && r.reply.status == 500 && r.sent.Some? && r.store.docs[0].data.ship.shiprocketOrderId.None?
  {
    var o := EmptyOrder.(orderId := Some("A1"), contact := NoContact.(billingEmail := Some("a@b.in")));
    var s := Store([Doc(0, o)], 1);
    assert FindOrder(s.docs, "A1", false) == Some(0);
  }

  /** `/api/orders/recover-shiprocket` with the success update written as intended: the order is linked,
      marked created with status 'NEW', its last error cleared and its retry count reset. */
  function Recover(s: Store, orderId: Option<string>, ship: Ship, now: int): (r: RouteResult)
    requires Valid(s)
    ensures Valid(r.store) && Ids(r.store.docs) == Ids(s.docs)
    ensures RecoverPlanOf(s, orderId).Answer? ==>
              r.sent.None? && r.store == s && r.reply == RecoverPlanOf(s, orderId).reply
    ensures RecoverPlanOf(s, orderId).SendAt? ==>
              var plan := RecoverPlanOf(s, orderId);
              var o := s.docs[plan.i].data;
              && r.sent == Some(plan.payload)
              && (r.reply.status == 200 <==> ship(plan.payload).Ok? && CreatedId(ship(plan.payload).value).Some?)
              && (r.reply.status != 200 ==> r.reply.status == 500 && r.store == s)
              && (r.reply.status == 200 ==>
                    && r.reply.shiprocketOrderId == CreatedId(ship(plan.payload).value)
                    && StrTruthy(r.store.docs[plan.i].data.ship.shiprocketOrderId)
                    && r.store.docs[plan.i].data
                       == o.(ship := LinkShipping(o.ship, r.reply.shiprocketOrderId, now)
                                       .(shiprocketLastError := None, shiprocketRetryCount := Some(0)),
                             updatedAt := Some(now))
                    && forall j :: 0 <= j < |s.docs| && j != plan.i ==> r.store.docs[j] == s.docs[j])
  {
    match RecoverPlanOf(s, orderId)
    case Answer(reply) => RouteResult(s, reply, None)
    case SendAt(i, p) =>
      match ship(p)
      case Err(m) => RouteResult(s, Reply(500, false, None, m), Some(p))
      case Ok(c) =>
        var id := CreatedId(c);
        if id.None? then RouteResult(s, Reply(500, false, None, "Shiprocket order ID is undefined"), Some(p))
        else
          var o := s.docs[i].data;
          var linked := o.(ship := LinkShipping(o.ship, id, now).(shiprocketLastError := None,
                                                                  shiprocketRetryCount := Some(0)),
                           updatedAt := Some(now));
          RouteResult(PutAt(s, i, linked), Reply(200, true, id, "Order successfully recovered and created in Shiprocket"),
                      Some(p))
  }

  /** After a successful recovery, recovering again reaches no provider and reports the same id. */
  lemma RecoverIdempotent(s: Store, orderId: Option<string>, ship: Ship, now: int, later: int)
    requires Valid(s)
    requires Recover(s, orderId, ship, now).reply.status == 200
    requires RecoverPlanOf(s, orderId).SendAt?
    ensures var r := Recover(s, orderId, ship, now);
            var again := Recover(r.store, orderId, ship, later);
            again.sent.None? && again.store == r.store && again.reply.shiprocketOrderId == r.reply.shiprocketOrderId
  {
    var r := Recover(s, orderId, ship, now);
    var i := RecoverPlanOf(s, orderId).i;
    RecoverLinksFound(s, orderId, ship, now);
    var plan := RecoverPlanOf(r.store, orderId);
    assert plan == Answer(Reply(200, true, r.reply.shiprocketOrderId, "Order already has Shiprocket ID"));
  }

  /** A successful recovery leaves the found order first in line and linked with the reported id. */
  lemma RecoverLinksFound(s: Store, orderId: Option<string>, ship: Ship, now: int)
    requires Valid(s)
    requires Recover(s, orderId, ship, now).reply.status == 200
    requires RecoverPlanOf(s, orderId).SendAt?
    ensures var r := Recover(s, orderId, ship, now);
            var i := RecoverPlanOf(s, orderId).i;
            && StrTruthy(orderId) && i < |r.store.docs| && Valid(r.store)
            && FindOrder(r.store.docs, orderId.value, false) == Some(i)
            && r.store.docs[i].data.ship.shiprocketOrderId == r.reply.shiprocketOrderId
            && StrTruthy(r.reply.shiprocketOrderId)
  {
    var r := Recover(s, orderId, ship, now);
    var plan := RecoverPlanOf(s, orderId);
    var i := plan.i;
    var id := CreatedId(ship(plan.payload).value);
    var o := s.docs[i].data;
    var linked := o.(ship := LinkShipping(o.ship, id, now).(shiprocketLastError := None,
                                                            shiprocketRetryCount := Some(0)),
                     updatedAt := Some(now));
    assert r.store == PutAt(s, i, linked);
    FindOrderStable(s.docs, r.store.docs, orderId.value, i);
  }

  // ---------------------------------------------------------------------------
  // /api/shiprocket/auto-sync/* and the webhook endpoint

  const MinuteMs: real := 60000.0

  /** `/auto-sync/start`: the frequency is given in minutes, possibly fractional; a missing or zero value
      means 5 minutes. */
  function StartEndpoint(st: SyncLifecycle.SyncState, minutes: Option<real>, now: int): (r: SyncLifecycle.SyncState)
    ensures r.isRunning
    ensures !st.isRunning ==>
              r.syncFrequency == (if minutes.Some? && minutes.value != 0.0 then minutes.value * MinuteMs
                                  else SyncLifecycle.DefaultFrequency)
    ensures st.isRunning ==> r == st
  {
    var ms := if minutes.Some? && minutes.value != 0.0 then minutes.value * MinuteMs else 5.0 * MinuteMs;
    SyncLifecycle.Start(st, ms, now)
  }

  /** `/auto-sync/frequency`: rejects a missing value or one below a minute with 400 and otherwise stores the
      frequency in milliseconds; a fractional number of minutes of at least one is accepted. */
  function FrequencyEndpoint(st: SyncLifecycle.SyncState, minutes: Option<real>, now: int)
    : (r: (int, SyncLifecycle.SyncState))
    ensures r.0 == 400 <==> minutes.None? || minutes.value < 1.0
    ensures r.0 == 400 ==> r.1 == st
    ensures r.0 != 400 ==> r.0 == 200 && r.1.syncFrequency == minutes.value * MinuteMs
                           && r.1.isRunning == st.isRunning
    ensures r.1.syncFrequency == st.syncFrequency || r.1.syncFrequency >= MinuteMs
  {
    if minutes.None? || minutes.value == 0.0 || minutes.value < 1.0 then (400, st)
    else (200, SyncLifecycle.SetFrequency(st, minutes.value * MinuteMs, now))
  }

  /** `/api/shiprocket/webhook`: the signature check accepts everything, so a webhook is never refused as
      unauthorised; a handler error answers 500 and leaves the store as it was. */
  function WebhookEndpoint(s: Store, e: Webhook.Event, signature: Option<string>,
                           show: string -> Result<ProviderOrder>, now: int): (r: (int, Store))
    requires Valid(s)
    ensures r.0 == 200 || r.0 == 500
    ensures r.0 == 200 <==> Webhook.ProcessWebhook(s, e, show, now).Ok?
    ensures r.0 == 500 ==> r.1 == s
    ensures r.0 == 200 ==> r.1 == Webhook.ProcessWebhook(s, e, show, now).value.0
    ensures Valid(r.1)
  {
    if StrTruthy(signature) && !Webhook.VerifySignature(e.event, signature.value) then (401, s)
    else
      match Webhook.ProcessWebhook(s, e, show, now)
      case Err(_) => (500, s)
      case Ok(res) => (200, res.0)
  }

  /** The signature header, present or not, matching or not, changes nothing. */
  lemma WebhookIgnoresSignature(s: Store, e: Webhook.Event, sig1: Option<string>, sig2: Option<string>,
                                show: string -> Result<ProviderOrder>, now: int)
    requires Valid(s)
    ensures WebhookEndpoint(s, e, sig1, show, now) == WebhookEndpoint(s, e, sig2, show, now)
    ensures WebhookEndpoint(s, e, sig1, show, now).0 != 401
  {
  }
}
