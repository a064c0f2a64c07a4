/** The order record as the store holds it, the shipping provider's order
    snapshot, and the order store itself.

    The store is the `orders` collection: a sequence of documents in
    collection order, each with a storage-assigned id. `Add` mirrors the
    store's auto-generated ids with a counter; a query's "first document" is
    the first matching document in collection order.
 */
module Orders {
  import opened Base
  import Text

  datatype Address = Address(
    street: Option<string>,
    city: Option<string>,
    pincode: Option<string>,
    state: Option<string>,
    country: Option<string>)

  /** The nested customer shape written by the checkout page. */
  datatype CustomerInfo = CustomerInfo(
    name: Option<string>,
    email: Option<string>,
    phone: Option<string>,
    address: Option<Address>)

  /** The flattened contact fields used by older order shapes and by the server's own payloads. */
  datatype FlatContact = FlatContact(
    billingCustomerName: Option<string>,
    customerName: Option<string>,
    billingEmail: Option<string>,
    customerEmail: Option<string>,
    billingPhone: Option<string>,
    customerPhone: Option<string>,
    billingAddress: Option<string>,
    billingCity: Option<string>,
    billingPincode: Option<string>,
    billingState: Option<string>,
    billingCountry: Option<string>,
    loggedInUserEmail: Option<string>)

  /** A cart line; `quantity`/`price` and `units`/`sellingPrice` are two naming schemes for the same data. */
  datatype Item = Item(
    name: Option<string>,
    id: Option<string>,
    sku: Option<string>,
    quantity: Option<real>,
    units: Option<real>,
    price: Option<real>,
    sellingPrice: Option<real>,
    weight: Option<real>)

  datatype PaymentInfo = PaymentInfo(
    payMethod: Option<string>,
    paymentId: Option<string>,
    gatewayOrderId: Option<string>,
    signature: Option<string>,
    amount: Option<real>)

  /** Explicit totals and parcel dimensions an order may carry. */
  datatype Amounts = Amounts(
    subTotal: Option<real>,
    totalAmount: Option<real>,
    total: Option<real>,
    weight: Option<real>,
    length: Option<real>,
    breadth: Option<real>,
    height: Option<real>)

  /** The fields the shipping integration maintains on an order. */
  datatype Shipping = Shipping(
    shiprocketOrderId: Option<string>,
    shiprocketCreated: Option<bool>,
    shiprocketStatus: Option<string>,
    shiprocketAWB: Option<string>,
    awbCode: Option<string>,
    courierName: Option<string>,
    trackingUrl: Option<string>,
    shipmentStatus: Option<string>,
    failureReason: Option<string>,
    shiprocketLastError: Option<string>,
    shiprocketRetryCount: Option<int>,
    shiprocketLastUpdated: Option<int>)

  datatype Order = Order(
    orderId: Option<string>,
    status: Option<string>,
    source: Option<string>,
    userId: Option<string>,
    customerInfo: Option<CustomerInfo>,
    contact: FlatContact,
    cartItems: Option<seq<Item>>,
    orderItems: Option<seq<Item>>,
    paymentMethod: Option<string>,
    paymentInfo: Option<PaymentInfo>,
    amounts: Amounts,
    orderNotes: Option<string>,
    ship: Shipping,
    createdAt: Option<int>,
    updatedAt: Option<int>,
    timestamp: Option<int>)

  const NoContact := FlatContact(None, None, None, None, None, None, None, None, None, None, None, None)
  const NoAmounts := Amounts(None, None, None, None, None, None, None)
  const NoShipping := Shipping(None, None, None, None, None, None, None, None, None, None, None, None)

  /** An order with every field absent; records are built from it with update syntax. */
  const EmptyOrder := Order(None, None, None, None, None, NoContact, None, None, None, None,
                            NoAmounts, None, NoShipping, None, None, None)

  /** `order.customerInfo?.address?.pincode`. */
  function DestinationPincode(o: Order): Option<string>
  {
    if o.customerInfo.Some? && o.customerInfo.value.address.Some?
    then o.customerInfo.value.address.value.pincode
    else None
  }

  // ---------------------------------------------------------------------------
  // The shipping provider's order record

  datatype Shipment = Shipment(awb: Option<string>, courier: Option<string>, trackingUrl: Option<string>)

  /** The provider returns `shipments` either as an array or as a single object. */
  datatype Shipments = NoShipments | ShipmentList(list: seq<Shipment>) | ShipmentObject(one: Shipment)

  /** An order as the provider reports it, from `orders/show/{id}` or the `orders` list. */
  datatype ProviderOrder = ProviderOrder(
    id: Option<string>,
    orderId: Option<string>,
    channelOrderId: Option<string>,
    status: Option<string>,
    shipmentStatus: Option<string>,
    awbCode: Option<string>,
    lastMileAwb: Option<string>,
    courierName: Option<string>,
    lastMileCourierName: Option<string>,
    trackingUrl: Option<string>,
    lastMileTrackUrl: Option<string>,
    shipments: Shipments)

  // ---------------------------------------------------------------------------
  // The order store

  type DocId = nat

  datatype Doc = Doc(id: DocId, data: Order)

  datatype Store = Store(docs: seq<Doc>, nextId: DocId)

  /** Document ids are distinct and below the id counter. */
  ghost predicate Valid(s: Store) {
    && (forall i :: 0 <= i < |s.docs| ==> s.docs[i].id < s.nextId)
    && (forall i, j :: 0 <= i < j < |s.docs| ==> s.docs[i].id != s.docs[j].id)
  }

  function Ids(docs: seq<Doc>): (r: seq<DocId>)
    ensures |r| == |docs|
    ensures forall i :: 0 <= i < |docs| ==> r[i] == docs[i].id
  {
    if |docs| == 0 then [] else [docs[0].id] + Ids(docs[1..])
  }

  /** The data of the document with the given id. */
  function Lookup(s: Store, id: DocId): (r: Option<Order>)
    ensures r.Some? <==> exists i :: 0 <= i < |s.docs| && s.docs[i].id == id
    ensures forall i :: 0 <= i < |s.docs| && s.docs[i].id == id && (forall j :: 0 <= j < i ==> s.docs[j].id != id)
              ==> r == Some(s.docs[i].data)
  {
    LookupIn(s.docs, id)
  }

  function LookupIn(docs: seq<Doc>, id: DocId): (r: Option<Order>)
    ensures r.Some? <==> exists i :: 0 <= i < |docs| && docs[i].id == id
    ensures forall i :: 0 <= i < |docs| && docs[i].id == id && (forall j :: 0 <= j < i ==> docs[j].id != id)
              ==> r == Some(docs[i].data)
  {
    if |docs| == 0 then None
    else if docs[0].id == id then Some(docs[0].data)
    else
      var r := LookupIn(docs[1..], id);
      assert forall i :: 1 <= i < |docs| ==> docs[i] == docs[1..][i - 1];
      r
  }

  /** `collection.add(data)`: appends a document under a fresh id. */
  function Add(s: Store, data: Order): (r: Store)
    requires Valid(s)
    ensures Valid(r)
    ensures r.docs == s.docs + [Doc(s.nextId, data)]
    ensures Lookup(r, s.nextId) == Some(data)
    ensures forall id :: id != s.nextId ==> Lookup(r, id) == Lookup(s, id)
  {
    var r := Store(s.docs + [Doc(s.nextId, data)], s.nextId + 1);
    assert forall id :: id != s.nextId ==> LookupIn(r.docs, id) == LookupIn(s.docs, id) by {
      forall id | id != s.nextId ensures LookupIn(r.docs, id) == LookupIn(s.docs, id) {
        LookupAppend(s.docs, Doc(s.nextId, data), id);
      }
    }
    LookupLast(s.docs, Doc(s.nextId, data));
    r
  }

  lemma {:induction false} LookupAppend(docs: seq<Doc>, d: Doc, id: DocId)
    requires d.id != id
    ensures LookupIn(docs + [d], id) == LookupIn(docs, id)
  {
    if |docs| > 0 {
      assert (docs + [d])[1..] == docs[1..] + [d];
      LookupAppend(docs[1..], d, id);
    }
  }

  lemma {:induction false} LookupLast(docs: seq<Doc>, d: Doc)
    requires forall i :: 0 <= i < |docs| ==> docs[i].id != d.id
    ensures LookupIn(docs + [d], d.id) == Some(d.data)
  {
    if |docs| > 0 {
      assert (docs + [d])[1..] == docs[1..] + [d];
      LookupLast(docs[1..], d);
    }
  }

  /** `doc(id).update(...)` where the update is already folded into `data`: replaces the data of that document. */
  function Put(s: Store, id: DocId, data: Order): (r: Store)
    ensures r.nextId == s.nextId
    ensures |r.docs| == |s.docs|
    ensures forall i :: 0 <= i < |s.docs| ==> r.docs[i].id == s.docs[i].id
    ensures forall i :: 0 <= i < |s.docs| && s.docs[i].id != id ==> r.docs[i] == s.docs[i]
    ensures forall i :: 0 <= i < |s.docs| && s.docs[i].id == id ==> r.docs[i].data == data
  {
    Store(PutIn(s.docs, id, data), s.nextId)
  }

  function PutIn(docs: seq<Doc>, id: DocId, data: Order): (r: seq<Doc>)
    ensures |r| == |docs|
    ensures forall i :: 0 <= i < |docs| ==> r[i].id == docs[i].id
    ensures forall i :: 0 <= i < |docs| && docs[i].id != id ==> r[i] == docs[i]
    ensures forall i :: 0 <= i < |docs| && docs[i].id == id ==> r[i].data == data
  {
    if |docs| == 0 then []
    else (if docs[0].id == id then [Doc(id, data)] else [docs[0]]) + PutIn(docs[1..], id, data)
  }

  lemma PutKeepsValid(s: Store, id: DocId, data: Order)
    requires Valid(s)
    ensures Valid(Put(s, id, data))
  {
  }

  /** After `Put`, the document reads back the new data and every other document is unchanged. */
  lemma PutLookup(s: Store, id: DocId, data: Order, other: DocId)
    ensures Lookup(Put(s, id, data), other) ==
              if other == id && Lookup(s, id).Some? then Some(data) else Lookup(s, other)
  {
    PutInLookup(s.docs, id, data, other);
  }

  lemma {:induction false} PutInLookup(docs: seq<Doc>, id: DocId, data: Order, other: DocId)
    ensures LookupIn(PutIn(docs, id, data), other) ==
              if other == id && LookupIn(docs, id).Some? then Some(data) else LookupIn(docs, other)
  {
    if |docs| > 0 {
      var r := PutIn(docs, id, data);
      assert r[1..] == PutIn(docs[1..], id, data);
      PutInLookup(docs[1..], id, data, other);
    }
  }

  /** `doc(docs[i].id).update(...)` on a document just read at position `i`: only that position changes. */
  function PutAt(s: Store, i: nat, data: Order): (r: Store)
    requires Valid(s) && i < |s.docs|
    ensures Valid(r) && r.nextId == s.nextId && Ids(r.docs) == Ids(s.docs)
    ensures |r.docs| == |s.docs| && r.docs[i] == Doc(s.docs[i].id, data)
    ensures forall j :: 0 <= j < |s.docs| && j != i ==> r.docs[j] == s.docs[j]
  {
    var r := Store(s.docs[i := Doc(s.docs[i].id, data)], s.nextId);
    assert Ids(r.docs) == Ids(s.docs);
    r
  }

  /** `doc(id).update(fields)`: `f` merges the new fields into the stored data; updating a missing document fails. */
  function UpdateDoc(s: Store, id: DocId, f: Order -> Order): (r: Result<Store>)
    ensures r.Ok? <==> Lookup(s, id).Some?
    ensures r.Ok? ==> r.value == Put(s, id, f(Lookup(s, id).value))
  {
    match Lookup(s, id)
    case None => Err("No document to update: " + Text.NatToString(id))
    case Some(o) => Ok(Put(s, id, f(o)))
  }

  /** The documents a query returns: those whose data satisfies `p`, in collection order. */
  function Select(docs: seq<Doc>, p: Order -> bool): (r: seq<Doc>)
    ensures forall d :: d in r <==> d in docs && p(d.data)
    ensures |r| <= |docs|
  {
    if |docs| == 0 then []
    else (if p(docs[0].data) then [docs[0]] else []) + Select(docs[1..], p)
  }

  /** No two documents share an id. */
  predicate DistinctIds(docs: seq<Doc>) {
    forall i, j :: 0 <= i < j < |docs| ==> docs[i].id != docs[j].id
  }

  /** Index of the first document whose data satisfies `p`, as a store query's `docs[0]`. */
  function FirstWhere(docs: seq<Doc>, p: Order -> bool): (r: Option<nat>)
    ensures r.Some? ==> r.value < |docs| && p(docs[r.value].data)
    ensures r.Some? ==> forall j :: 0 <= j < r.value ==> !p(docs[j].data)
    ensures r.None? <==> forall j :: 0 <= j < |docs| ==> !p(docs[j].data)
  {
    if |docs| == 0 then None
    else if p(docs[0].data) then Some(0)
    else
      var r := FirstWhere(docs[1..], p);
      assert forall j :: 1 <= j < |docs| ==> docs[j] == docs[1..][j - 1];
      if r.Some? then Some(r.value + 1) else None
  }

  /** `where('orderId', '==', id)`. */
  predicate HasOrderId(id: string, o: Order) {
    o.orderId == Some(id)
  }

  /** `where('shiprocketOrderId', '==', id)`. */
  predicate HasShiprocketId(id: string, o: Order) {
    o.ship.shiprocketOrderId == Some(id)
  }
}
