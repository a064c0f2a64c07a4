/** The shipping provider client: order creation, the AWB view of one order,
    the paginated order listing, and automatic courier assignment.

    Every provider endpoint is an oracle parameter: a function from the
    request the client sends to the answer the provider gives, where `Err`
    stands for a transport failure, an error status or a body without the
    expected `data`. Only `CreateOrder` threads the token cache; the other
    calls fold a failed login into their oracle's `Err`.
 */
module ShippingClient {
  import opened Base
  import opened Orders
  import opened TokenCache
  import opened Transform

  // ---------------------------------------------------------------------------
  // createOrder

  /** The provider calls `CreateOrder` makes, in order. */
  datatype Call = Login | CreateAdhoc(payload: Payload)

  /** The `orders/create/adhoc` answer: the provider may report its id under either name. */
  datatype CreateReply = CreateReply(orderId: Option<string>, channelOrderId: Option<string>)

  datatype Created = Created(shiprocketOrderId: string, reply: CreateReply)

  datatype CreateStep = CreateStep(result: Result<Created>, cache: Cache, calls: seq<Call>)

  /** The creation request was sent; it is only ever the last call. */
  predicate CreatesRemote(calls: seq<Call>) {
    |calls| > 0 && calls[|calls| - 1].CreateAdhoc?
  }

  /** The id a creation reply reports: `order_id || channel_order_id`. */
  function ReplyId(reply: CreateReply): Option<string> {
    StrOr(reply.orderId, reply.channelOrderId)
  }

  /** Posts an accepted payload; the creation succeeds only when the reply names an id. */
  function Submit(p: Payload, create: Payload -> Result<CreateReply>): (r: Result<Created>)
    ensures r.Ok? <==> create(p).Ok? && StrTruthy(ReplyId(create(p).value))
    ensures r.Ok? ==> r.value == Created(ReplyId(create(p).value).value, create(p).value)
  {
    match create(p)
    case Err(m) => Err("Shiprocket order creation failed: " + m)
    case Ok(reply) =>
      var id := ReplyId(reply);
      if StrTruthy(id) then Ok(Created(id.value, reply))
      else Err("Shiprocket order creation failed: Invalid response from Shiprocket API")
  }

  /** Authenticates, transforms the order, then posts it. */
  function CreateOrder(c: Cache, now: int, login: LoginReply, o: Order, env: Env,
                       create: Payload -> Result<CreateReply>): (r: CreateStep)
    ensures (|r.calls| > 0 && r.calls[0].Login?) <==> !Usable(c, now)
    ensures r.cache == Authenticate(c, now, login).cache
    ensures Authenticate(c, now, login).result.Err? ==> r.result.Err? && !CreatesRemote(r.calls)
    ensures TransformOrder(o, env).Invalid? ==> r.result.Err? && !CreatesRemote(r.calls)
    ensures CreatesRemote(r.calls) ==>
              && TransformOrder(o, env).Valid?
              && r.calls[|r.calls| - 1] == CreateAdhoc(TransformOrder(o, env).payload)
              && r.result == Submit(TransformOrder(o, env).payload, create)
    ensures r.result.Ok? ==> CreatesRemote(r.calls)
  {
    var auth := Authenticate(c, now, login);
    var calls := if auth.loggedIn then [Login] else [];
    if auth.result.Err? then CreateStep(Err("Shiprocket order creation failed: " + auth.result.msg), auth.cache, calls)
    else
      var t := TransformOrder(o, env);
      if t.Invalid? then
        CreateStep(Err("Shiprocket order creation failed: " + MissingMessage(t.missing)),
                   auth.cache, calls)
      else
        var sent := calls + [CreateAdhoc(t.payload)];
        CreateStep(Submit(t.payload, create), auth.cache, sent)
  }

  // ---------------------------------------------------------------------------
  // getOrderWithAWB

  /** The AWB view of one provider order. */
  datatype AwbView = AwbView(
    orderId: Option<string>,
    awbCode: Option<string>,
    status: Option<string>,
    courierName: Option<string>,
    trackingUrl: Option<string>,
    shipmentStatus: Option<string>,
    raw: ProviderOrder)

  /** `shipments.find(s => s.awb)`. */
  function FirstWithAwb(list: seq<Shipment>): (r: Option<Shipment>)
    ensures r.Some? ==> exists k :: 0 <= k < |list| && list[k] == r.value && StrTruthy(r.value.awb)
                                    && forall j :: 0 <= j < k ==> !StrTruthy(list[j].awb)
    ensures r.None? <==> forall k :: 0 <= k < |list| ==> !StrTruthy(list[k].awb)
  {
    if |list| == 0 then None
    else if StrTruthy(list[0].awb) then Some(list[0])
    else
      var r := FirstWithAwb(list[1..]);
      assert forall k :: 1 <= k < |list| ==> list[k] == list[1..][k - 1];
      r
  }

  /** The shipment whose AWB the view reports, if the shipments carry one. */
  function ShipmentWithAwb(s: Shipments): (r: Option<Shipment>)
    ensures r.Some? ==> StrTruthy(r.value.awb)
  {
    match s
    case NoShipments => None
    case ShipmentList(list) => FirstWithAwb(list)
    case ShipmentObject(one) => if StrTruthy(one.awb) then Some(one) else None
  }

  function ExtractAwb(p: ProviderOrder): (v: AwbView)
  {
    var sh := ShipmentWithAwb(p.shipments);
    var awb, courier, url :=
      if sh.Some? then sh.value.awb else StrOr(p.awbCode, p.lastMileAwb),
      if sh.Some? then sh.value.courier else StrOr(p.courierName, p.lastMileCourierName),
      if sh.Some? then sh.value.trackingUrl else StrOr(p.trackingUrl, p.lastMileTrackUrl);
    AwbView(StrOr(p.id, p.orderId), awb, StrOrNull(p.status), courier, url, StrOrNull(p.shipmentStatus), p)
  }

  /** Where the AWB comes from: a shipment carrying one wins, taking its courier and tracking link along;
      otherwise the order-level fields, each falling back to its last-mile counterpart. */
  lemma ExtractAwbSources(p: ProviderOrder)
    ensures var v := ExtractAwb(p);
            && (StrTruthy(v.awbCode) <==>
                  ShipmentWithAwb(p.shipments).Some? || StrTruthy(p.awbCode) || StrTruthy(p.lastMileAwb))
            && (ShipmentWithAwb(p.shipments).Some? ==>
                  var s := ShipmentWithAwb(p.shipments).value;
                  v.awbCode == s.awb && v.courierName == s.courier && v.trackingUrl == s.trackingUrl)
            && (ShipmentWithAwb(p.shipments).None? ==>
                  && v.awbCode == (if StrTruthy(p.awbCode) then p.awbCode else p.lastMileAwb)
                  && v.courierName == (if StrTruthy(p.courierName) then p.courierName else p.lastMileCourierName)
                  && v.trackingUrl == (if StrTruthy(p.trackingUrl) then p.trackingUrl else p.lastMileTrackUrl))
            && (v.status.Some? <==> StrTruthy(p.status))
            && (v.shipmentStatus.Some? <==> StrTruthy(p.shipmentStatus))
            && (StrTruthy(p.id) ==> v.orderId == p.id)
            && v.raw == p
  {
  }

  /** A list shipment without an AWB never hides a later one that has it. */
  lemma ListShipmentFound(list: seq<Shipment>, k: nat)
    requires k < |list| && StrTruthy(list[k].awb)
    ensures StrTruthy(ExtractAwb(ProviderOrder(None, None, None, None, None, None, None, None, None, None, None,
                                               ShipmentList(list))).awbCode)
  {
  }

  function GetOrderWithAwb(id: string, show: string -> Result<ProviderOrder>): (r: Result<AwbView>)
    ensures r.Ok? <==> show(id).Ok?
    ensures r.Ok? ==> r.value == ExtractAwb(show(id).value)
  {
    match show(id)
    case Err(m) => Err("Order details retrieval failed: " + m)
    case Ok(p) => Ok(ExtractAwb(p))
  }

  // ---------------------------------------------------------------------------
  // getAllOrdersPaginated

  const PerPage: nat := 100
  const MaxPages: nat := 50

  /** `meta.pagination`, when the listing carries it; `total_pages` may itself be missing. */
  datatype PageMeta = NoPagination | Pagination(totalPages: Option<int>)

  datatype Page = PageFailed(msg: string) | Page(orders: seq<ProviderOrder>, meta: PageMeta)

  datatype Listing = Listing(orders: seq<ProviderOrder>, totalCount: nat, pagesFetched: nat)

  /** Whether the listing continues after page `page`, which held `n` orders. */
  predicate MorePages(meta: PageMeta, page: nat, n: nat) {
    match meta
    case NoPagination => n == PerPage
    case Pagination(tp) => tp.Some? && page < tp.value
  }

  function OrdersOf(p: Page): seq<ProviderOrder> {
    if p.Page? then p.orders else []
  }

  /** The orders of pages `a` through `b`, concatenated in page order. */
  function Concat(fetch: nat -> Page, a: nat, b: nat): seq<ProviderOrder>
    decreases b + 1 - a
  {
    if a > b then [] else OrdersOf(fetch(a)) + Concat(fetch, a + 1, b)
  }

  /** Page `k` was fetched successfully and announced a further page. */
  predicate Continues(fetch: nat -> Page, k: nat) {
    fetch(k).Page? && MorePages(fetch(k).meta, k, |fetch(k).orders|)
  }

  /** The reference listing: pages from `page` on, with the last page fetched. */
  function Collect(fetch: nat -> Page, page: nat): (r: Result<(seq<ProviderOrder>, nat)>)
    requires 1 <= page <= MaxPages
    ensures r.Ok? ==> var (os, last) := r.value;
                      && page <= last <= MaxPages
                      && os == Concat(fetch, page, last)
                      && (forall k :: page <= k < last ==> Continues(fetch, k))
                      && fetch(last).Page?
                      && (last == MaxPages || !Continues(fetch, last))
    ensures r.Err? ==> exists k :: page <= k <= MaxPages && fetch(k).PageFailed?
                                   && forall j :: page <= j < k ==> Continues(fetch, j)
    decreases MaxPages - page
  {
    match fetch(page)
    case PageFailed(m) => Err(m)
    case Page(os, meta) =>
      if !MorePages(meta, page, |os|) || page + 1 > MaxPages then Ok((os, page))
      else
        match Collect(fetch, page + 1)
        case Err(m) => Err(m)
        case Ok((rest, last)) => Ok((os + rest, last))
  }

  /** `prefix` followed by the outcome of a later part of the listing. */
  function Prepend(prefix: seq<ProviderOrder>, r: Result<(seq<ProviderOrder>, nat)>): Result<(seq<ProviderOrder>, nat)> {
    match r
    case Err(m) => Err(m)
    case Ok((os, last)) => Ok((prefix + os, last))
  }

  lemma PrependEmpty(r: Result<(seq<ProviderOrder>, nat)>)
    ensures Prepend([], r) == r
  {
    if r.Ok? {
      assert [] + r.value.0 == r.value.0;
    }
  }

  lemma PrependTwice(a: seq<ProviderOrder>, b: seq<ProviderOrder>, r: Result<(seq<ProviderOrder>, nat)>)
    ensures Prepend(a, Prepend(b, r)) == Prepend(a + b, r)
  {
    if r.Ok? {
      assert a + (b + r.value.0) == (a + b) + r.value.0;
    }
  }

  /** Fetches pages 1, 2, ... of 100 orders until the listing says it is done, stopping after page 50. */
  method ListAllOrders(fetch: nat -> Page) returns (r: Result<Listing>)
    ensures r.Ok? <==> Collect(fetch, 1).Ok?
    ensures r.Ok? ==> && r.value.orders == Collect(fetch, 1).value.0
                      && r.value.pagesFetched == Collect(fetch, 1).value.1
                      && r.value.totalCount == |r.value.orders|
  {
    var all: seq<ProviderOrder> := [];
    var cur: nat := 1;
    var more := true;
    PrependEmpty(Collect(fetch, 1));
    while more
      invariant 1 <= cur <= MaxPages + 1
      invariant more ==> cur <= MaxPages && Collect(fetch, 1) == Prepend(all, Collect(fetch, cur))
      invariant !more ==> cur >= 2 && Collect(fetch, 1) == Ok((all, cur - 1))
      decreases MaxPages + 1 - cur, more
    {
      var page := fetch(cur);
      if page.PageFailed? {
        return Err("Failed to get all orders: Failed to get orders: " + page.msg);
      }
      more := MorePages(page.meta, cur, |page.orders|);
      if more && cur + 1 <= MaxPages {
        PrependTwice(all, page.orders, Collect(fetch, cur + 1));
      }
      all := all + page.orders;
      cur := cur + 1;
      if cur > MaxPages {
        more := false;
      }
    }
    r := Ok(Listing(all, |all|, cur - 1));
  }

  /** At most 50 pages are fetched, and a listing that stops early stops on a page that announced no further page. */
  lemma ListingBounded(fetch: nat -> Page)
    requires Collect(fetch, 1).Ok?
    ensures var (os, last) := Collect(fetch, 1).value;
            && 1 <= last <= MaxPages
            && os == Concat(fetch, 1, last)
            && (last < MaxPages ==> !Continues(fetch, last))
  {
  }

  // ---------------------------------------------------------------------------
  // getCouriers / autoAssignAWB

  datatype Courier = Courier(courierId: Option<int>, courierName: Option<string>)

  /** The serviceability query `getCouriers` sends. */
  datatype ServiceQuery = ServiceQuery(pickupPincode: string, deliveryPincode: Option<string>, weight: real, cod: int)

  datatype AssignReply = AssignReply(awbCode: Option<string>)

  datatype Assigned = Assigned(awbCode: string, courierName: Option<string>, courierId: Option<int>)

  function CourierQuery(env: Env, pincode: Option<string>, weight: Option<real>): (q: ServiceQuery)
    ensures q.pickupPincode != "" && q.cod == 0 && q.deliveryPincode == pincode
    ensures !StrTruthy(env.pickupPincode) ==> q.pickupPincode == "110001"
    ensures NumTruthy(weight) ==> q.weight == weight.value
    ensures !NumTruthy(weight) ==> q.weight == DefaultItemWeight
  {
    ServiceQuery(StrOrDefault(env.pickupPincode, "110001"), pincode, NumOr(weight, Some(DefaultItemWeight)).value, 0)
  }

  /** Asks for couriers serving the pincode and assigns an AWB with the first one offered. */
  function AutoAssignAwb(shipId: string, pincode: Option<string>, weight: Option<real>, env: Env,
                         couriers: ServiceQuery -> Result<seq<Courier>>,
                         assign: (string, Option<int>) -> Result<AssignReply>): (r: Result<Assigned>)
    ensures var offered := couriers(CourierQuery(env, pincode, weight));
            (offered.Err? || |offered.value| == 0) ==> r.Err?
    ensures r.Ok? ==>
              var offered := couriers(CourierQuery(env, pincode, weight));
              && offered.Ok? && |offered.value| > 0
              && var first := offered.value[0];
                 && r.value.courierId == first.courierId
                 && r.value.courierName == first.courierName
                 && assign(shipId, first.courierId) == Ok(AssignReply(Some(r.value.awbCode)))
                 && r.value.awbCode != ""
    ensures var offered := couriers(CourierQuery(env, pincode, weight));
            offered.Ok? && |offered.value| > 0 ==>
              (r.Ok? <==> (assign(shipId, offered.value[0].courierId).Ok?
                           && StrTruthy(assign(shipId, offered.value[0].courierId).value.awbCode)))
  {
    match couriers(CourierQuery(env, pincode, weight))
    case Err(m) => Err("Auto AWB assignment failed: Courier serviceability check failed: " + m)
    case Ok(list) =>
      if |list| == 0 then Err("Auto AWB assignment failed: No couriers available for the delivery pincode")
      else
        var first := list[0];
        match assign(shipId, first.courierId)
        case Err(m) => Err("Auto AWB assignment failed: AWB assignment failed: " + m)
        case Ok(reply) =>
          if StrTruthy(reply.awbCode) then Ok(Assigned(reply.awbCode.value, first.courierName, first.courierId))
          else Err("Auto AWB assignment failed: AWB assignment failed: Invalid response from Shiprocket API")
  }
}
