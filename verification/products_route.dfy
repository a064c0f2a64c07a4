/** The demo product routes: listing, lookup by id, and an in-memory create.

    The list loaded from the bundled JSON file is the state; a create appends
    to it. `None` for a looked-up item is the fall-through to the not-found
    handler.
 */
module ProductsRoute {
  import opened Base
  import Text

  datatype Item = Item(id: string, name: string, price: real, images: seq<string>, kind: string, stock: real)

  /** The request body; `None` for a key the body does not carry. */
  datatype Body = Body(name: Option<string>, price: Option<real>, images: Option<seq<string>>,
                       kind: Option<string>, stock: Option<real>)

  const EmptyBody := Body(None, None, None, None, None)

  /** `GET /:id`: the first item with the id. */
  function GetById(items: seq<Item>, id: string): (r: Option<Item>)
    ensures r.Some? ==> r.value.id == id && r.value in items
    ensures r.None? <==> forall i :: 0 <= i < |items| ==> items[i].id != id
    ensures r.Some? ==> exists i :: 0 <= i < |items| && items[i] == r.value && forall j :: 0 <= j < i ==> items[j].id != id
  {
    if |items| == 0 then None
    else if items[0].id == id then Some(items[0])
    else
      var r := GetById(items[1..], id);
      assert forall j :: 1 <= j < |items| ==> items[j] == items[1..][j - 1];
      r
  }

  /** The item a valid body creates: falsy price becomes 0, missing images `[]`, falsy type 'generic', and
      only a missing stock becomes 0. */
  function NewItem(name: string, b: Body, now: nat): (it: Item)
    ensures it.id == "p-" + Text.NatToString(now) && it.name == name
    ensures it.price == (if NumTruthy(b.price) then b.price.value else 0.0)
    ensures it.images == (if b.images.Some? then b.images.value else [])
    ensures StrTruthy(b.kind) ==> it.kind == b.kind.value
    ensures !StrTruthy(b.kind) ==> it.kind == "generic"
    ensures b.stock.Some? ==> it.stock == b.stock.value
    ensures b.stock.None? ==> it.stock == 0.0
  {
    Item("p-" + Text.NatToString(now), name,
         if NumTruthy(b.price) then b.price.value else 0.0,
         if b.images.Some? then b.images.value else [],
         StrOrDefault(b.kind, "generic"),
         if b.stock.Some? then b.stock.value else 0.0)
  }

  /** `POST /`: 400 without a name, otherwise 201 with the new item appended. */
  function Create(items: seq<Item>, body: Option<Body>, now: nat): (r: (int, seq<Item>, Option<Item>))
    ensures r.0 == 201 || r.0 == 400
    ensures r.0 == 400 <==> body.None? || !StrTruthy(body.value.name)
    ensures r.0 == 400 ==> r.1 == items && r.2.None?
    ensures r.0 == 201 ==> r.2.Some? && r.1 == items + [r.2.value]
    ensures r.0 == 201 ==> r.2.value == NewItem(body.value.name.value, body.value, now)
  {
    var b := if body.Some? then body.value else EmptyBody;
    if !StrTruthy(b.name) then (400, items, None)
    else
      var it := NewItem(b.name.value, b, now);
      (201, items + [it], Some(it))
  }

  /** An explicit stock of 0 is kept, while an explicit price of 0 takes the default, which is also 0. */
  lemma ZeroStockKept(items: seq<Item>, name: string, now: nat)
    requires name != ""
    ensures Create(items, Some(Body(Some(name), None, None, None, Some(0.0))), now).2.value.stock == 0.0
    ensures Create(items, Some(Body(Some(name), None, None, None, Some(3.0))), now).2.value.stock == 3.0
  {
  }

  /** A created item is found by its id, unless an earlier item already carries that id. */
  lemma CreatedIsFound(items: seq<Item>, body: Body, now: nat)
    requires StrTruthy(body.name)
    requires forall i :: 0 <= i < |items| ==> items[i].id != "p-" + Text.NatToString(now)
    ensures var r := Create(items, Some(body), now);
            GetById(r.1, "p-" + Text.NatToString(now)) == r.2
  {
    var r := Create(items, Some(body), now);
    var id := "p-" + Text.NatToString(now);
    var found := GetById(r.1, id);
    assert r.1[|items|] == r.2.value;
    if found.Some? {
      var i :| 0 <= i < |r.1| && r.1[i] == found.value && forall j :: 0 <= j < i ==> r.1[j].id != id;
      assert i == |items|;
    }
  }
}
