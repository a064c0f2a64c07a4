/** The shipping provider's webhook: dispatch over seven event tags and the
    fields each event writes to the stored order linked to it.

    Every handler looks the order up by `shiprocketOrderId` and writes only
    the first match; a handler error fails the whole webhook.
 */
module Webhook {
  import opened Base
  import opened Orders
  import opened Reconcile
  import ShippingClient

  /** The `data` object of a webhook. */
  datatype HookData = HookData(
    orderId: Option<string>,
    channelOrderId: Option<string>,
    awbCode: Option<string>,
    courierName: Option<string>,
    reason: Option<string>,
    trackingUrl: Option<string>,
    status: Option<string>)

  datatype Event = Event(event: string, data: HookData)

  datatype Handler =
    | OnCreated | OnUpdated | OnAwbAssigned | OnDispatched | OnDelivered | OnFailed | OnTracking
    | Ignored

  /** The event tag each handler answers to. */
  function Tag(h: Handler): string
    requires !h.Ignored?
  {
    match h
    case OnCreated => "order.created"
    case OnUpdated => "order.updated"
    case OnAwbAssigned => "awb.assigned"
    case OnDispatched => "shipment.dispatched"
    case OnDelivered => "shipment.delivered"
    case OnFailed => "shipment.failed"
    case OnTracking => "tracking.updated"
  }

  /** The `switch (event)` of `processWebhook`. */
  function Route(event: string): (h: Handler)
    ensures !h.Ignored? ==> Tag(h) == event
  {
    if event == "order.created" then OnCreated
    else if event == "order.updated" then OnUpdated
    else if event == "awb.assigned" then OnAwbAssigned
    else if event == "shipment.dispatched" then OnDispatched
    else if event == "shipment.delivered" then OnDelivered
    else if event == "shipment.failed" then OnFailed
    else if event == "tracking.updated" then OnTracking
    else Ignored
  }

  /** Each of the seven tags reaches its own handler, and only those seven tags reach a handler. */
  lemma RouteIsExact(h: Handler, event: string)
    ensures !h.Ignored? ==> Route(Tag(h)) == h
    ensures Route(event).Ignored? <==> forall g: Handler :: !g.Ignored? ==> Tag(g) != event
  {
    if !Route(event).Ignored? {
      assert Tag(Route(event)) == event;
    }
  }

  /** `verifyWebhookSignature` accepts every payload. */
  function VerifySignature(payload: string, signature: string): (ok: bool)
    ensures ok
  {
    true
  }

  // ---------------------------------------------------------------------------
  // Finding and writing the linked order

  /** Position of the first document whose `shiprocketOrderId` is `key`. */
  function FindLinked(docs: seq<Doc>, key: string): (r: Option<nat>)
    ensures r.Some? ==> r.value < |docs| && docs[r.value].data.ship.shiprocketOrderId == Some(key)
    ensures r.Some? ==> forall j :: 0 <= j < r.value ==> docs[j].data.ship.shiprocketOrderId != Some(key)
    ensures r.None? <==> forall j :: 0 <= j < |docs| ==> docs[j].data.ship.shiprocketOrderId != Some(key)
  {
    if |docs| == 0 then None
    else if docs[0].data.ship.shiprocketOrderId == Some(key) then Some(0)
    else
      var r := FindLinked(docs[1..], key);
      assert forall j :: 1 <= j < |docs| ==> docs[j] == docs[1..][j - 1];
      if r.Some? then Some(r.value + 1) else None
  }

  /** The fields one event writes. */
  datatype Change =
    | AwbAssignedChange(awb: string, courier: Option<string>)
    | DispatchedChange(courier: Option<string>, newAwb: Option<string>)
    | DeliveredChange
    | FailedChange(reason: Option<string>)
    | TrackingChange(url: Option<string>, shipment: Option<string>, trackedAwb: Option<string>)
    | FieldsChange(patch: Fields)

  /** Merges one event's fields into an order, with both update stamps; `updatedAt` is the only field written
      outside the shipping fields, and the link to the provider order is never touched. */
  function ApplyChange(o: Order, c: Change, now: int): (r: Order)
    ensures r == o.(ship := r.ship, updatedAt := Some(now))
    ensures r.ship.shiprocketOrderId == o.ship.shiprocketOrderId
    ensures r.ship.shiprocketLastUpdated == Some(now)
    ensures c.AwbAssignedChange? ==>
              r.ship == o.ship.(shiprocketAWB := Some(c.awb), awbCode := Some(c.awb),
                                courierName := StrOrNull(c.courier), shiprocketStatus := Some("AWB_ASSIGNED"),
                                shiprocketLastUpdated := Some(now))
    ensures c.DispatchedChange? ==>
              && r.ship.shiprocketStatus == Some("DISPATCHED") && r.ship.courierName == StrOrNull(c.courier)
              && r.ship.shiprocketAWB == (if StrTruthy(c.newAwb) then c.newAwb else o.ship.shiprocketAWB)
              && r.ship.awbCode == (if StrTruthy(c.newAwb) then c.newAwb else o.ship.awbCode)
              && r.ship.trackingUrl == o.ship.trackingUrl && r.ship.shipmentStatus == o.ship.shipmentStatus
    ensures c.DeliveredChange? ==>
              r.ship == o.ship.(shiprocketStatus := Some("DELIVERED"), shipmentStatus := Some("DELIVERED"),
                                shiprocketLastUpdated := Some(now))
    ensures c.FailedChange? ==>
              && r.ship.shiprocketStatus == Some("FAILED") && r.ship.shipmentStatus == Some("FAILED")
              && r.ship.failureReason == Some(if StrTruthy(c.reason) then c.reason.value else "Shipment failed")
              && r.ship.shiprocketAWB == o.ship.shiprocketAWB && r.ship.courierName == o.ship.courierName
    ensures c.TrackingChange? ==>
              && r.ship.trackingUrl == (if StrTruthy(c.url) then c.url else o.ship.trackingUrl)
              && r.ship.shipmentStatus == (if StrTruthy(c.shipment) then c.shipment else o.ship.shipmentStatus)
              && r.ship.shiprocketAWB == (if StrTruthy(c.trackedAwb) then c.trackedAwb else o.ship.shiprocketAWB)
              && r.ship.awbCode == (if StrTruthy(c.trackedAwb) then c.trackedAwb else o.ship.awbCode)
              && r.ship.shiprocketStatus == o.ship.shiprocketStatus && r.ship.courierName == o.ship.courierName
    ensures c.FieldsChange? ==> r == ApplyFields(o, c.patch, now)
  {
    var sh := o.ship;
    match c
    case AwbAssignedChange(awb, courier) =>
      o.(ship := sh.(shiprocketAWB := Some(awb), awbCode := Some(awb), courierName := StrOrNull(courier),
                     shiprocketStatus := Some("AWB_ASSIGNED"), shiprocketLastUpdated := Some(now)),
         updatedAt := Some(now))
    case DispatchedChange(courier, awb) =>
      var sh1 := sh.(shiprocketStatus := Some("DISPATCHED"), courierName := StrOrNull(courier),
                     shiprocketLastUpdated := Some(now));
      var sh2 := if StrTruthy(awb) then sh1.(shiprocketAWB := awb, awbCode := awb) else sh1;
      o.(ship := sh2, updatedAt := Some(now))
    case DeliveredChange =>
      o.(ship := sh.(shiprocketStatus := Some("DELIVERED"), shipmentStatus := Some("DELIVERED"),
                     shiprocketLastUpdated := Some(now)),
         updatedAt := Some(now))
    case FailedChange(reason) =>
      o.(ship := sh.(shiprocketStatus := Some("FAILED"), shipmentStatus := Some("FAILED"),
                     failureReason := Some(StrOrDefault(reason, "Shipment failed")),
                     shiprocketLastUpdated := Some(now)),
         updatedAt := Some(now))
    case TrackingChange(url, shipment, awb) =>
      var sh1 := sh.(shiprocketLastUpdated := Some(now));
      var sh2 := if StrTruthy(url) then sh1.(trackingUrl := url) else sh1;
      var sh3 := if StrTruthy(shipment) then sh2.(shipmentStatus := shipment) else sh2;
      var sh4 := if StrTruthy(awb) then sh3.(shiprocketAWB := awb, awbCode := awb) else sh3;
      o.(ship := sh4, updatedAt := Some(now))
    case FieldsChange(p) => ApplyFields(o, p, now)
  }

  /** The first document linked to `key` gets the change and every other document stays as it was; with no
      linked document nothing is written. */
  predicate WroteFirst(s: Store, r: Store, key: string, c: Change, now: int) {
    && r.nextId == s.nextId && |r.docs| == |s.docs|
    && (FindLinked(s.docs, key).None? ==> r == s)
    && (FindLinked(s.docs, key).Some? ==>
          var i := FindLinked(s.docs, key).value;
          && r.docs[i] == Doc(s.docs[i].id, ApplyChange(s.docs[i].data, c, now))
          && forall j :: 0 <= j < |s.docs| && j != i ==> r.docs[j] == s.docs[j])
  }

  /** `where('shiprocketOrderId', '==', key).get()` followed by `doc(docs[0].id).update(...)`. */
  function WriteFirst(s: Store, key: string, c: Change, now: int): (r: Store)
    requires Valid(s)
    ensures Valid(r) && Ids(r.docs) == Ids(s.docs)
    ensures WroteFirst(s, r, key, c, now)
  {
    match FindLinked(s.docs, key)
    case None => s
    case Some(i) => PutAt(s, i, ApplyChange(s.docs[i].data, c, now))
  }

  /** A write never changes which document a key finds: every handler but creation keeps the links as
      they were. */
  lemma WriteFirstKeepsLinks(s: Store, key: string, c: Change, now: int, other: string)
    requires Valid(s)
    ensures FindLinked(WriteFirst(s, key, c, now).docs, other) == FindLinked(s.docs, other)
  {
    var r := WriteFirst(s, key, c, now);
    assert forall j :: 0 <= j < |s.docs| ==>
             r.docs[j].data.ship.shiprocketOrderId == s.docs[j].data.ship.shiprocketOrderId;
    LinksAgree(s.docs, r.docs, other);
  }

  lemma {:induction false} LinksAgree(a: seq<Doc>, b: seq<Doc>, key: string)
    requires |a| == |b|
    requires forall j :: 0 <= j < |a| ==> a[j].data.ship.shiprocketOrderId == b[j].data.ship.shiprocketOrderId
    ensures FindLinked(a, key) == FindLinked(b, key)
    decreases |a|
  {
    if |a| > 0 {
      assert forall j :: 0 <= j < |a| - 1 ==> a[1..][j] == a[j + 1] && b[1..][j] == b[j + 1];
      LinksAgree(a[1..], b[1..], key);
    }
  }

  // ---------------------------------------------------------------------------
  // The handlers

  /** `order_id || channel_order_id`. */
  function EventKey(d: HookData): Option<string> {
    StrOr(d.orderId, d.channelOrderId)
  }

  /** The record `handleOrderCreated` stores, built from the raw provider order. */
  function WebhookRecord(key: string, p: ProviderOrder, now: int): (o: Order)
    requires key != ""
    ensures o.source == Some("shiprocket_webhook") && o.ship.shiprocketCreated == Some(true)
    ensures o.ship.shiprocketOrderId == Some(key)
    ensures o.orderId == Some(if StrTruthy(p.orderId) then p.orderId.value else key)
    ensures o.ship.shiprocketStatus == Some(if StrTruthy(p.status) then p.status.value else "NEW")
    ensures o.ship.shiprocketAWB == StrOrNull(p.awbCode) == o.ship.awbCode
    ensures o.ship.courierName == StrOrNull(p.courierName) && o.ship.trackingUrl == StrOrNull(p.trackingUrl)
    ensures o.createdAt == o.updatedAt == o.ship.shiprocketLastUpdated == Some(now)
  {
    EmptyOrder.(
      orderId := Some(StrOrDefault(p.orderId, key)),
      source := Some("shiprocket_webhook"),
      createdAt := Some(now),
      updatedAt := Some(now),
      ship := NoShipping.(
        shiprocketOrderId := Some(key),
        shiprocketStatus := Some(StrOrDefault(p.status, "NEW")),
        shiprocketAWB := StrOrNull(p.awbCode),
        awbCode := StrOrNull(p.awbCode),
        courierName := StrOrNull(p.courierName),
        trackingUrl := StrOrNull(p.trackingUrl),
        shiprocketCreated := Some(true),
        shiprocketLastUpdated := Some(now)))
  }

  /** `handleOrderCreated`: adds a record for an order not yet linked locally. */
  function HandleCreated(s: Store, d: HookData, show: string -> Result<ProviderOrder>, now: int): (r: Result<Store>)
    requires Valid(s)
    ensures r.Ok? ==> Valid(r.value)
    ensures !StrTruthy(EventKey(d)) ==> r == Err("No order ID found in webhook data")
    ensures StrTruthy(EventKey(d)) && FindLinked(s.docs, EventKey(d).value).Some? ==> r == Ok(s)
    ensures StrTruthy(EventKey(d)) && FindLinked(s.docs, EventKey(d).value).None? ==>
              && (r.Ok? <==> show(EventKey(d).value).Ok?)
              && (r.Ok? ==> r.value.docs == s.docs + [Doc(s.nextId, WebhookRecord(EventKey(d).value,
                                                                               show(EventKey(d).value).value, now))])
  {
    var key := EventKey(d);
    if !StrTruthy(key) then Err("No order ID found in webhook data")
    else if FindLinked(s.docs, key.value).Some? then Ok(s)
    else
      match ShippingClient.GetOrderWithAwb(key.value, show)
      case Err(m) => Err(m)
      case Ok(v) => Ok(Add(s, WebhookRecord(key.value, v.raw, now)))
  }

  /** Redelivering an `order.created` event adds nothing: after a successful delivery the key is linked. */
  lemma CreatedIdempotent(s: Store, d: HookData, show: string -> Result<ProviderOrder>, now: int, later: int)
    requires Valid(s) && HandleCreated(s, d, show, now).Ok?
    ensures StrTruthy(EventKey(d))
    ensures FindLinked(HandleCreated(s, d, show, now).value.docs, EventKey(d).value).Some?
    ensures HandleCreated(HandleCreated(s, d, show, now).value, d, show, later) == HandleCreated(s, d, show, now)
  {
    var key := EventKey(d).value;
    var r := HandleCreated(s, d, show, now).value;
    if FindLinked(s.docs, key).None? {
      assert r.docs[|s.docs|].data.ship.shiprocketOrderId == Some(key);
    }
  }

  /** The reconciled fields of the raw provider order. */
  function RawFields(p: ProviderOrder): Fields {
    Fields(p.awbCode, p.status, p.courierName, p.trackingUrl, p.shipmentStatus)
  }

  /** `handleOrderUpdated`: an unknown order is created; a known one gets the changed fields, and nothing is
      written when nothing changed. */
  function HandleUpdated(s: Store, d: HookData, show: string -> Result<ProviderOrder>, now: int): (r: Result<Store>)
    requires Valid(s)
    ensures r.Ok? ==> Valid(r.value)
    ensures !StrTruthy(EventKey(d)) ==> r == Err("No order ID found in webhook data")
    ensures StrTruthy(EventKey(d)) && FindLinked(s.docs, EventKey(d).value).None? ==> r == HandleCreated(s, d, show, now)
    ensures StrTruthy(EventKey(d)) && FindLinked(s.docs, EventKey(d).value).Some? ==>
              var key := EventKey(d).value;
              var i := FindLinked(s.docs, key).value;
              && (r.Ok? <==> show(key).Ok?)
              && (r.Ok? ==>
                    var seen := RawFields(show(key).value);
                    if NoChange(Diff(s.docs[i].data.ship, seen)) then r.value == s
                    else
                      && |r.value.docs| == |s.docs|
                      && r.value.docs[i] == Doc(s.docs[i].id, Reconciled(s.docs[i].data, seen, now))
                      && forall j :: 0 <= j < |s.docs| && j != i ==> r.value.docs[j] == s.docs[j])
  {
    var key := EventKey(d);
    if !StrTruthy(key) then Err("No order ID found in webhook data")
    else
      match FindLinked(s.docs, key.value)
      case None => HandleCreated(s, d, show, now)
      case Some(i) =>
        match ShippingClient.GetOrderWithAwb(key.value, show)
        case Err(m) => Err(m)
        case Ok(v) =>
          var p := Diff(s.docs[i].data.ship, RawFields(v.raw));
          if NoChange(p) then Ok(s) else Ok(WriteFirst(s, key.value, FieldsChange(p), now))
  }

  /** Delivering the same `order.updated` event twice writes nothing the second time. */
  lemma UpdatedConverges(s: Store, d: HookData, show: string -> Result<ProviderOrder>, now: int, later: int)
    requires Valid(s) && HandleUpdated(s, d, show, now).Ok?
    requires StrTruthy(EventKey(d)) && FindLinked(s.docs, EventKey(d).value).Some?
    ensures var s1 := HandleUpdated(s, d, show, now).value;
            HandleUpdated(s1, d, show, later) == Ok(s1)
  {
    var key := EventKey(d).value;
    var i := FindLinked(s.docs, key).value;
    var s1 := HandleUpdated(s, d, show, now).value;
    var seen := RawFields(show(key).value);
    var p := Diff(s.docs[i].data.ship, seen);
    if !NoChange(p) {
      WriteFirstKeepsLinks(s, key, FieldsChange(p), now, key);
      DiffConverges(s.docs[i].data, seen, now);
    }
  }

  /** `handleAWBAssigned`. */
  function HandleAwbAssigned(s: Store, d: HookData, now: int): (r: Result<Store>)
    requires Valid(s)
    ensures r.Ok? <==> StrTruthy(d.orderId) && StrTruthy(d.awbCode)
    ensures r.Err? ==> r.msg == "Missing order_id or awb_code in webhook data"
    ensures r.Ok? ==> Valid(r.value) && WroteFirst(s, r.value, d.orderId.value,
                                                    AwbAssignedChange(d.awbCode.value, d.courierName), now)
  {
    if !StrTruthy(d.orderId) || !StrTruthy(d.awbCode) then Err("Missing order_id or awb_code in webhook data")
    else Ok(WriteFirst(s, d.orderId.value, AwbAssignedChange(d.awbCode.value, d.courierName), now))
  }

  /** The common shape of the last four handlers: a truthy `order_id` is required. */
  function HandleWithId(s: Store, d: HookData, c: Change, now: int): (r: Result<Store>)
    requires Valid(s)
    ensures r.Ok? <==> StrTruthy(d.orderId)
    ensures r.Err? ==> r.msg == "Missing order_id in webhook data"
    ensures r.Ok? ==> Valid(r.value) && WroteFirst(s, r.value, d.orderId.value, c, now)
  {
    if !StrTruthy(d.orderId) then Err("Missing order_id in webhook data")
    else Ok(WriteFirst(s, d.orderId.value, c, now))
  }

  /** The change each id-keyed event writes. */
  function EventChange(h: Handler, d: HookData): (c: Change)
    requires h.OnDispatched? || h.OnDelivered? || h.OnFailed? || h.OnTracking?
    ensures h.OnDispatched? ==> c == DispatchedChange(d.courierName, d.awbCode)
    ensures h.OnDelivered? ==> c.DeliveredChange?
    ensures h.OnFailed? ==> c == FailedChange(d.reason)
    ensures h.OnTracking? ==> c == TrackingChange(d.trackingUrl, d.status, d.awbCode)
  {
    match h
    case OnDispatched => DispatchedChange(d.courierName, d.awbCode)
    case OnDelivered => DeliveredChange
    case OnFailed => FailedChange(d.reason)
    case OnTracking => TrackingChange(d.trackingUrl, d.status, d.awbCode)
  }

  /** `r` carries what the handler step did: its store on success, its message on failure. */
  predicate Passes(r: Result<(Store, string)>, step: Result<Store>) {
    && (r.Ok? <==> step.Ok?)
    && (r.Ok? ==> r.value.0 == step.value)
    && (r.Err? ==> r.msg == step.msg)
  }

  /** `processWebhook`: routes the event, rethrows a handler's error, and reports the tag otherwise. */
  function ProcessWebhook(s: Store, e: Event, show: string -> Result<ProviderOrder>, now: int)
    : (r: Result<(Store, string)>)
    requires Valid(s)
    ensures r.Ok? ==> Valid(r.value.0) && r.value.1 == "Webhook processed: " + e.event
    ensures Route(e.event).Ignored? ==> r == Ok((s, "Webhook processed: " + e.event))
    ensures Route(e.event).OnCreated? ==> Passes(r, HandleCreated(s, e.data, show, now))
    ensures Route(e.event).OnUpdated? ==> Passes(r, HandleUpdated(s, e.data, show, now))
    ensures Route(e.event).OnAwbAssigned? ==>
              && Passes(r, HandleAwbAssigned(s, e.data, now))
              && (r.Ok? <==> StrTruthy(e.data.orderId) && StrTruthy(e.data.awbCode))
              && (r.Err? ==> r.msg == "Missing order_id or awb_code in webhook data")
              && (r.Ok? ==> WroteFirst(s, r.value.0, e.data.orderId.value,
                                       AwbAssignedChange(e.data.awbCode.value, e.data.courierName), now))
    ensures Route(e.event).OnDispatched? || Route(e.event).OnDelivered? || Route(e.event).OnFailed?
            || Route(e.event).OnTracking? ==>
              && (r.Ok? <==> StrTruthy(e.data.orderId))
              && (r.Err? ==> r.msg == "Missing order_id in webhook data")
              && (r.Ok? ==> WroteFirst(s, r.value.0, e.data.orderId.value, EventChange(Route(e.event), e.data), now))
  {
    var h := Route(e.event);
    var step :=
      match h
      case OnCreated => HandleCreated(s, e.data, show, now)
      case OnUpdated => HandleUpdated(s, e.data, show, now)
      case OnAwbAssigned => HandleAwbAssigned(s, e.data, now)
      case Ignored => Ok(s)
      case _ => HandleWithId(s, e.data, EventChange(h, e.data), now);
    match step
    case Err(m) => Err(m)
    case Ok(s1) => Ok((s1, "Webhook processed: " + e.event))
  }

  /** The delivered and failed events set both status fields; failure gives a default reason. */
  lemma TerminalEvents(s: Store, d: HookData, now: int)
    requires Valid(s) && StrTruthy(d.orderId) && FindLinked(s.docs, d.orderId.value).Some?
    ensures var i := FindLinked(s.docs, d.orderId.value).value;
            var delivered := HandleWithId(s, d, EventChange(OnDelivered, d), now).value.docs[i].data.ship;
            var failed := HandleWithId(s, d, EventChange(OnFailed, d), now).value.docs[i].data.ship;
            && delivered.shiprocketStatus == delivered.shipmentStatus == Some("DELIVERED")
            && failed.shiprocketStatus == failed.shipmentStatus == Some("FAILED")
            && (!StrTruthy(d.reason) ==> failed.failureReason == Some("Shipment failed"))
  {
  }

  /** Without a linked order, the id-keyed handlers write nothing. */
  lemma UnknownOrderUntouched(s: Store, d: HookData, c: Change, now: int)
    requires Valid(s) && StrTruthy(d.orderId) && FindLinked(s.docs, d.orderId.value).None?
    ensures HandleWithId(s, d, c, now) == Ok(s)
    ensures StrTruthy(d.awbCode) ==> HandleAwbAssigned(s, d, now) == Ok(s)
  {
  }
}
