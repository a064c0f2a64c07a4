/** `transformOrderData`: turning a store order into the shipping provider's
    order-creation payload.

    Contact fields come from the nested `customerInfo.address` shape when the
    order has one, otherwise from the flat billing fields with the customer
    fields as fall-backs. Items, weight and sub-total are derived from the
    order's item list. The payload is refused, with the list of missing
    fields in a fixed order, when any required contact field is falsy.
 */
module Transform {
  import opened Base
  import opened Text
  import opened Orders

  /** The contact block of the payload; the billing and shipping halves are built from the same values. */
  datatype Contact = Contact(
    name: Option<string>,
    lastName: string,
    address: Option<string>,
    city: Option<string>,
    pincode: Option<string>,
    state: Option<string>,
    country: Option<string>,
    email: Option<string>,
    phone: Option<string>)

  /** One line of the payload's `order_items`; discount and tax are always 0. */
  datatype ProviderItem = ProviderItem(
    name: Option<string>,
    sku: Option<string>,
    units: Option<real>,
    sellingPrice: Option<real>,
    hsn: int,
    productCategory: string)

  /** The order-creation payload. `subTotal == None` stands for the NaN the source computes from an item without price or quantity. */
  datatype Payload = Payload(
    orderId: Option<string>,
    pickupLocation: string,
    billing: Contact,
    shipping: Contact,
    items: seq<ProviderItem>,
    paymentMethod: string,
    subTotal: Option<real>,
    length: real,
    breadth: real,
    height: real,
    weight: real,
    orderNotes: string)

  /** The deployment settings the service reads from its environment. */
  datatype Env = Env(pickupLocation: Option<string>, pickupPincode: Option<string>)

  datatype Transformed = Invalid(missing: seq<Field>) | Valid(payload: Payload)

  const HsnSilkSaree: int := 6204
  const DefaultNotes: string := "Silk saree order from Varaha Silks"
  const DefaultPickup: string := "warehouse-1"
  const DefaultItemWeight: real := 0.49
  const MinWeight: real := 0.1

  /** The payload fields that must be truthy. */
  datatype Field = CustomerName | AddressLine | City | Pincode | State | Email | Phone

  /** The name a field is reported under. */
  function FieldName(f: Field): string {
    match f
    case CustomerName => "billing_customer_name"
    case AddressLine => "billing_address"
    case City => "billing_city"
    case Pincode => "billing_pincode"
    case State => "billing_state"
    case Email => "billing_email"
    case Phone => "billing_phone"
  }

  /** The required fields in the order they are reported. */
  const RequiredFields: seq<Field> := [CustomerName, AddressLine, City, Pincode, State, Email, Phone]

  /** `Missing required fields: a, b, ...`. */
  function MissingMessage(missing: seq<Field>): string {
    "Missing required fields: " + Join(seq(|missing|, k requires 0 <= k < |missing| => FieldName(missing[k])), ", ")
  }

  /** The order carries the nested `customerInfo.address` shape. */
  predicate HasNestedAddress(o: Order) {
    o.customerInfo.Some? && o.customerInfo.value.address.Some?
  }

  function ResolveContact(o: Order): (c: Contact)
    ensures StrTruthy(c.country)
    ensures c.lastName == AfterFirstWord(if c.name.Some? then c.name.value else "")
    ensures HasNestedAddress(o) ==>
              var ci := o.customerInfo.value;
              var a := ci.address.value;
              && c.name == ci.name && c.email == ci.email && c.phone == ci.phone
              && c.address == a.street && c.city == a.city && c.pincode == a.pincode && c.state == a.state
              && (StrTruthy(a.country) ==> c.country == a.country)
    ensures !HasNestedAddress(o) ==>
              var f := o.contact;
              && c.name == StrOr(f.billingCustomerName, f.customerName)
              && c.email == StrOr(f.billingEmail, f.customerEmail)
              && c.phone == StrOr(f.billingPhone, f.customerPhone)
              && c.address == f.billingAddress && c.city == f.billingCity
              && c.pincode == f.billingPincode && c.state == f.billingState
              && (StrTruthy(f.billingCountry) ==> c.country == f.billingCountry)
    ensures (HasNestedAddress(o) && !StrTruthy(o.customerInfo.value.address.value.country))
            || (!HasNestedAddress(o) && !StrTruthy(o.contact.billingCountry))
            ==> c.country == Some("India")
  {
    if HasNestedAddress(o) then
      var ci := o.customerInfo.value;
      var a := ci.address.value;
      MakeContact(ci.name, a.street, a.city, a.pincode, a.state, StrOr(a.country, Some("India")), ci.email, ci.phone)
    else
      var f := o.contact;
      MakeContact(StrOr(f.billingCustomerName, f.customerName), f.billingAddress, f.billingCity, f.billingPincode,
                  f.billingState, StrOr(f.billingCountry, Some("India")), StrOr(f.billingEmail, f.customerEmail),
                  StrOr(f.billingPhone, f.customerPhone))
  }

  /** The last name is every word of `name || ''` after the first. */
  function MakeContact(name: Option<string>, address: Option<string>, city: Option<string>, pincode: Option<string>,
                       state: Option<string>, country: Option<string>, email: Option<string>,
                       phone: Option<string>): Contact
  {
    Contact(name, AfterFirstWord(if name.Some? then name.value else ""), address, city, pincode, state,
            country, email, phone)
  }

  /** `orderData.cartItems || orderData.orderItems || []`. */
  function ItemsOf(o: Order): (r: seq<Item>)
    ensures o.cartItems.Some? ==> r == o.cartItems.value
    ensures o.cartItems.None? && o.orderItems.Some? ==> r == o.orderItems.value
    ensures o.cartItems.None? && o.orderItems.None? ==> r == []
  {
    if o.cartItems.Some? then o.cartItems.value
    else if o.orderItems.Some? then o.orderItems.value
    else []
  }

  /** The weight an item contributes: its own when truthy, else 0.49 kg. */
  function ItemWeight(i: Item): real {
    NumOr(i.weight, Some(DefaultItemWeight)).value
  }

  function TotalWeight(items: seq<Item>): real
  {
    if |items| == 0 then 0.0 else TotalWeight(items[..|items| - 1]) + ItemWeight(items[|items| - 1])
  }

  /** `(item.price || item.sellingPrice) * item.quantity`, with `None` for NaN. */
  function LineValue(i: Item): Option<real> {
    var p := NumOr(i.price, i.sellingPrice);
    if p.Some? && i.quantity.Some? then Some(p.value * i.quantity.value) else None
  }

  /** The summed line values; one NaN line makes the whole sum NaN. */
  function TotalValue(items: seq<Item>): (r: Option<real>)
    ensures r.None? <==> exists k :: 0 <= k < |items| && LineValue(items[k]).None?
  {
    if |items| == 0 then Some(0.0)
    else
      var front := TotalValue(items[..|items| - 1]);
      assert forall k :: 0 <= k < |items| - 1 ==> items[..|items| - 1][k] == items[k];
      var last := LineValue(items[|items| - 1]);
      if front.Some? && last.Some? then Some(front.value + last.value) else None
  }

  function MapItem(i: Item): (r: ProviderItem)
    ensures r.name == i.name
    ensures r.sku == FirstTruthy([i.id, i.sku, i.name], StrTruthy)
    ensures r.units == NumOr(i.quantity, i.units)
    ensures r.sellingPrice == NumOr(i.price, i.sellingPrice)
    ensures r.hsn == 6204 && r.productCategory == "Silk Sarees"
  {
    ProviderItem(i.name, FirstTruthy([i.id, i.sku, i.name], StrTruthy), NumOr(i.quantity, i.units),
                 NumOr(i.price, i.sellingPrice), HsnSilkSaree, "Silk Sarees")
  }

  function MapItems(items: seq<Item>): (r: seq<ProviderItem>)
    ensures |r| == |items|
    ensures forall k :: 0 <= k < |items| ==> r[k] == MapItem(items[k])
  {
    if |items| == 0 then [] else [MapItem(items[0])] + MapItems(items[1..])
  }

  function Max(a: real, b: real): real { if a < b then b else a }

  /** Only the two spellings "COD" and "cod" select cash on delivery. */
  function PaymentMethodOf(m: Option<string>): (r: string)
    ensures r == "COD" <==> (m == Some("COD") || m == Some("cod"))
    ensures r != "COD" ==> r == "Prepaid"
  {
    if m == Some("COD") || m == Some("cod") then "COD" else "Prepaid"
  }

  /** The values checked for presence, aligned with `RequiredFields`. */
  function RequiredValues(c: Contact): (r: seq<Option<string>>)
    ensures |r| == |RequiredFields|
  {
    [c.name, c.address, c.city, c.pincode, c.state, c.email, c.phone]
  }

  /** `a` is `b` with some elements removed, the rest kept in order. */
  predicate IsSubsequence(a: seq<Field>, b: seq<Field>)
    decreases |b|
  {
    if |a| == 0 then true
    else if |b| == 0 then false
    else if a[0] == b[0] then IsSubsequence(a[1..], b[1..])
    else IsSubsequence(a, b[1..])
  }

  /** The names whose aligned value is falsy, in their original order. */
  function FalsyNames(names: seq<Field>, vals: seq<Option<string>>): (r: seq<Field>)
    requires |names| == |vals|
    ensures IsSubsequence(r, names)
    ensures forall k :: 0 <= k < |names| && !StrTruthy(vals[k]) ==> names[k] in r
    ensures forall f :: f in r ==> exists k :: 0 <= k < |names| && names[k] == f && !StrTruthy(vals[k])
  {
    if |names| == 0 then []
    else
      var rest := FalsyNames(names[1..], vals[1..]);
      assert forall k :: 1 <= k < |names| ==> names[k] == names[1..][k - 1] && vals[k] == vals[1..][k - 1];
      if !StrTruthy(vals[0]) then [names[0]] + rest
      else
        SubsequenceSkip(rest, names);
        rest
  }

  lemma SubsequenceSkip(a: seq<Field>, b: seq<Field>)
    requires |b| > 0 && IsSubsequence(a, b[1..])
    ensures IsSubsequence(a, b)
    decreases |a| + |b|
  {
    if |a| > 0 && a[0] == b[0] {
      SubsequenceTail(a, b[1..]);
    }
  }

  lemma SubsequenceTail(a: seq<Field>, b: seq<Field>)
    requires |a| > 0 && IsSubsequence(a, b)
    ensures IsSubsequence(a[1..], b)
    decreases |a| + |b|
  {
    if |b| > 0 && a[0] != b[0] {
      SubsequenceTail(a, b[1..]);
      SubsequenceSkip(a[1..], b);
    }
  }

  /** The position of a field in `RequiredFields`. */
  function FieldIndex(f: Field): nat {
    match f
    case CustomerName => 0
    case AddressLine => 1
    case City => 2
    case Pincode => 3
    case State => 4
    case Email => 5
    case Phone => 6
  }

  lemma FieldIndexOfRequired(k: nat)
    requires k < |RequiredFields|
    ensures FieldIndex(RequiredFields[k]) == k
  {
    if k == 0 {} else if k == 1 {} else if k == 2 {} else if k == 3 {}
    else if k == 4 {} else if k == 5 {} else {}
  }

  lemma RequiredAtFieldIndex(f: Field)
    ensures FieldIndex(f) < |RequiredFields| && RequiredFields[FieldIndex(f)] == f
  {
  }

  /** The required fields a contact leaves falsy, in the fixed reporting order. */
  function MissingFields(c: Contact): (r: seq<Field>)
    ensures IsSubsequence(r, RequiredFields)
    ensures |r| == 0 <==> forall k :: 0 <= k < |RequiredFields| ==> StrTruthy(RequiredValues(c)[k])
    ensures forall k :: 0 <= k < |RequiredFields| ==> (RequiredFields[k] in r <==> !StrTruthy(RequiredValues(c)[k]))
  {
    var vals := RequiredValues(c);
    var r := FalsyNames(RequiredFields, vals);
    forall k | 0 <= k < |RequiredFields| && RequiredFields[k] in r
      ensures !StrTruthy(vals[k])
    {
      var j :| 0 <= j < |RequiredFields| && RequiredFields[j] == RequiredFields[k] && !StrTruthy(vals[j]);
      FieldIndexOfRequired(j);
      FieldIndexOfRequired(k);
    }
    assert |r| > 0 ==> r[0] in r;
    r
  }

  /** The contact value a required field is checked on. */
  function FieldValue(c: Contact, f: Field): Option<string> {
    match f
    case CustomerName => c.name
    case AddressLine => c.address
    case City => c.city
    case Pincode => c.pincode
    case State => c.state
    case Email => c.email
    case Phone => c.phone
  }

  /** A field is reported missing exactly when its value is falsy. */
  lemma MissingFieldsMember(c: Contact, f: Field)
    ensures f in MissingFields(c) <==> !StrTruthy(FieldValue(c, f))
  {
    RequiredAtFieldIndex(f);
    assert RequiredValues(c)[FieldIndex(f)] == FieldValue(c, f);
  }

  /** Builds the payload, or reports the missing required fields. */
  function TransformOrder(o: Order, env: Env): (t: Transformed)
  {
    var c := ResolveContact(o);
    var missing := MissingFields(c);
    if |missing| > 0 then Invalid(missing) else Valid(BuildPayload(o, env, c))
  }

  /** The payload for an order whose contact `c` passed validation. */
  function BuildPayload(o: Order, env: Env, c: Contact): Payload
  {
    var items := ItemsOf(o);
    var a := o.amounts;
    Payload(
      o.orderId,
      StrOrDefault(env.pickupLocation, DefaultPickup),
      c, c,
      MapItems(items),
      PaymentMethodOf(o.paymentMethod),
      if NumTruthy(a.subTotal) then a.subTotal else TotalValue(items),
      NumOr(a.length, Some(30.0)).value,
      NumOr(a.breadth, Some(20.0)).value,
      NumOr(a.height, Some(5.0)).value,
      Max(NumOr(a.weight, Some(TotalWeight(items))).value, MinWeight),
      StrOrDefault(o.orderNotes, DefaultNotes))
  }

  /** The payload is refused exactly when a required contact field is falsy, and then names each such field once, in order. */
  lemma TransformValidation(o: Order, env: Env)
    ensures var c := ResolveContact(o);
            && (TransformOrder(o, env).Valid? <==>
                  (&& StrTruthy(c.name) && StrTruthy(c.address) && StrTruthy(c.city) && StrTruthy(c.pincode)
                   && StrTruthy(c.state) && StrTruthy(c.email) && StrTruthy(c.phone)))
            && (TransformOrder(o, env).Invalid? ==>
                  TransformOrder(o, env).missing == MissingFields(c) && |MissingFields(c)| > 0)
  {
    var c := ResolveContact(o);
    var vals := RequiredValues(c);
    assert vals[0] == c.name && vals[1] == c.address && vals[2] == c.city && vals[3] == c.pincode;
    assert vals[4] == c.state && vals[5] == c.email && vals[6] == c.phone;
  }

  /** When every required value but the email is present, the email is the only field that can be reported. */
  lemma OnlyEmailMissing(o: Order, env: Env)
    requires var c := ResolveContact(o);
             && StrTruthy(c.name) && StrTruthy(c.address) && StrTruthy(c.city) && StrTruthy(c.pincode)
             && StrTruthy(c.state) && StrTruthy(c.phone)
    ensures forall f :: f in MissingFields(ResolveContact(o)) ==> f == Email
    ensures TransformOrder(o, env).Valid? <==> StrTruthy(ResolveContact(o).email)
  {
    var c := ResolveContact(o);
    TransformValidation(o, env);
    forall f | f in MissingFields(c) ensures f == Email {
      MissingFieldsMember(c, f);
    }
  }

  /** What an accepted payload carries: the shipping half mirrors the billing half, and every numeric field follows its fall-back rule. */
  lemma TransformPayload(o: Order, env: Env)
    requires TransformOrder(o, env).Valid?
    ensures var p := TransformOrder(o, env).payload;
            var items := ItemsOf(o);
            && p.shipping == p.billing
            && p.billing == ResolveContact(o)
            && p.orderId == o.orderId
            && p.weight >= MinWeight
            && (NumTruthy(o.amounts.weight) ==> p.weight == Max(o.amounts.weight.value, MinWeight))
            && (!NumTruthy(o.amounts.weight) ==> p.weight == Max(TotalWeight(items), MinWeight))
            && (NumTruthy(o.amounts.subTotal) ==> p.subTotal == o.amounts.subTotal)
            && (!NumTruthy(o.amounts.subTotal) ==> p.subTotal == TotalValue(items))
            && |p.items| == |items|
            && (p.paymentMethod == "COD" <==> o.paymentMethod in {Some("COD"), Some("cod")})
            && p.pickupLocation != "" && p.orderNotes != ""
            && p.length != 0.0 && p.breadth != 0.0 && p.height != 0.0
  {
  }

  /** Each item contributes at least its default weight unless it declares its own, so with no explicit weights the parcel weighs 0.49 kg per item. */
  lemma {:induction false} DefaultWeightPerItem(items: seq<Item>)
    requires forall k :: 0 <= k < |items| ==> !NumTruthy(items[k].weight)
    ensures TotalWeight(items) == DefaultItemWeight * (|items| as real)
  {
    if |items| > 0 {
      var front := items[..|items| - 1];
      assert forall k :: 0 <= k < |front| ==> front[k] == items[k];
      DefaultWeightPerItem(front);
    }
  }
}
