/** The product side of the server's store: the request rate limiter, the
    product listing, cart and wishlist saves, and product creation.

    The product collection is a map from document id to product; a read that
    fails is `None`. The limiter's clock is the `now` parameter.
 */
module ProductStore {
  import opened Base
  import opened Catalogue

  /** At most ten admitted requests per one-minute window. */
  const RequestLimit: nat := 10
  const RequestWindow: int := 60000

  datatype RateWindow = RateWindow(count: nat, lastRequestTime: int)

  const InitialWindow := RateWindow(0, 0)

  /** More than a window has passed since the window opened. */
  predicate WindowExpired(w: RateWindow, now: int) {
    now - w.lastRequestTime > RequestWindow
  }

  /** `checkRateLimit()`: opens a new window when the old one has expired, then admits the request and counts
      it unless the limit is already reached. */
  function CheckRateLimit(w: RateWindow, now: int): (r: (bool, RateWindow))
    ensures WindowExpired(w, now) ==> r == (true, RateWindow(1, now))
    ensures !WindowExpired(w, now) ==> r.1.lastRequestTime == w.lastRequestTime
    ensures !WindowExpired(w, now) && w.count >= RequestLimit ==> r == (false, w)
    ensures !WindowExpired(w, now) && w.count < RequestLimit ==> r == (true, w.(count := w.count + 1))
    ensures w.count <= RequestLimit ==> r.1.count <= RequestLimit
  {
    var w1 := if now - w.lastRequestTime > RequestWindow then RateWindow(0, now) else w;
    if w1.count >= RequestLimit then (false, w1)
    else (true, w1.(count := w1.count + 1))
  }

  /** How many of the requests made at `times`, in order, are admitted. */
  function Admitted(w: RateWindow, times: seq<int>): nat
    decreases |times|
  {
    if |times| == 0 then 0
    else
      var r := CheckRateLimit(w, times[0]);
      (if r.0 then 1 else 0) + Admitted(r.1, times[1..])
  }

  /** Within one window no more than the limit is admitted, counting those admitted before. */
  lemma {:induction false} AtMostLimitPerWindow(w: RateWindow, times: seq<int>)
    requires w.count <= RequestLimit
    requires forall k :: 0 <= k < |times| ==> times[k] - w.lastRequestTime <= RequestWindow
    ensures Admitted(w, times) <= RequestLimit - w.count
    decreases |times|
  {
    if |times| > 0 {
      var r := CheckRateLimit(w, times[0]);
      assert !WindowExpired(w, times[0]);
      assert forall k :: 0 <= k < |times[1..]| ==> times[1..][k] == times[k + 1];
      AtMostLimitPerWindow(r.1, times[1..]);
    }
  }

  /** A stored product document: its document id and its data. */
  datatype ProductDoc = ProductDoc(docId: string, data: Product)

  /** One listed product: the document id becomes `id` and a stored `id` field becomes `customId`. */
  function Listed(d: ProductDoc): (p: Product)
    ensures p.id == Some(d.docId)
    ensures p.customId == StrOrNull(d.data.id)
    ensures p.(id := d.data.id, customId := d.data.customId) == d.data
  {
    d.data.(id := Some(d.docId), customId := StrOrNull(d.data.id))
  }

  /** `getProducts()`: an empty list when rate-limited or when the read fails. */
  function GetProducts(w: RateWindow, now: int, read: Option<seq<ProductDoc>>): (r: (seq<Product>, RateWindow))
    ensures r.1 == CheckRateLimit(w, now).1
    ensures !CheckRateLimit(w, now).0 || read.None? ==> r.0 == []
    ensures CheckRateLimit(w, now).0 && read.Some? ==>
              |r.0| == |read.value| && forall k :: 0 <= k < |read.value| ==> r.0[k] == Listed(read.value[k])
  {
    var (ok, w1) := CheckRateLimit(w, now);
    if !ok || read.None? then ([], w1)
    else (seq(|read.value|, k requires 0 <= k < |read.value| => Listed(read.value[k])), w1)
  }

  /** `saveUserCart` and `saveUserWishlist`: store the user's list, or drop the write when rate-limited. */
  function SaveUserList<T>(w: RateWindow, now: int, lists: map<string, seq<T>>, userId: string, items: seq<T>)
    : (r: (RateWindow, map<string, seq<T>>))
    ensures r.0 == CheckRateLimit(w, now).1
    ensures !CheckRateLimit(w, now).0 ==> r.1 == lists
    ensures CheckRateLimit(w, now).0 ==> userId in r.1 && r.1[userId] == items
    ensures forall u :: u != userId ==> (u in r.1 <==> u in lists) && (u in lists ==> r.1[u] == lists[u])
  {
    var (ok, w1) := CheckRateLimit(w, now);
    if ok then (w1, lists[userId := items]) else (w1, lists)
  }

  /** `getUserCart` and `getUserWishlist`: the stored list, or empty. */
  function GetUserList<T>(lists: map<string, seq<T>>, userId: string): (r: seq<T>)
    ensures userId !in lists ==> r == []
  {
    if userId in lists then lists[userId] else []
  }

  /** An admitted save is read back as saved; a refused one leaves the earlier list readable. */
  lemma SaveThenGet<T>(w: RateWindow, now: int, lists: map<string, seq<T>>, userId: string, items: seq<T>)
    ensures var r := SaveUserList(w, now, lists, userId, items);
            GetUserList(r.1, userId) == (if CheckRateLimit(w, now).0 then items else GetUserList(lists, userId))
  {
  }

  const MissingFieldsMessage := "Missing required fields: name, description, and price are required"
  const BadPriceMessage := "Price must be a positive number"

  /** `addProduct(productData)`: validates, picks the id (the supplied one, or a generated one that no stored
      document has), and writes the product with both stamps. */
  function AddProduct(products: map<string, Product>, p: Product, now: int)
    : (r: Result<(string, map<string, Product>)>)
    ensures !StrTruthy(p.name) || !StrTruthy(p.description) || !NumTruthy(p.price) ==> r == Err(MissingFieldsMessage)
    ensures StrTruthy(p.name) && StrTruthy(p.description) && NumTruthy(p.price) && p.price.value <= 0.0 ==>
              r == Err(BadPriceMessage)
    ensures r.Ok? <==> StrTruthy(p.name) && StrTruthy(p.description) && NumTruthy(p.price) && p.price.value > 0.0
    ensures r.Ok? ==>
              var (id, after) := r.value;
              && (StrTruthy(p.id) ==> id == p.id.value)
              && (!StrTruthy(p.id) ==> id !in products && id == GenerateId(p.category, p.name.value, products.Keys))
              && id in after && after[id] == p.(id := Some(id), createdAt := Some(now), updatedAt := Some(now))
              && after.Keys == products.Keys + {id}
              && forall k :: k in products && k != id ==> after[k] == products[k]
  {
    if !StrTruthy(p.name) || !StrTruthy(p.description) || !NumTruthy(p.price) then Err(MissingFieldsMessage)
    else if p.price.value <= 0.0 then Err(BadPriceMessage)
    else
      var id := if StrTruthy(p.id) then p.id.value else GenerateId(p.category, p.name.value, products.Keys);
      Ok((id, products[id := p.(id := Some(id), createdAt := Some(now), updatedAt := Some(now))]))
  }

  /** Adding products without ids never overwrites a stored product. */
  lemma AddWithoutIdKeepsAll(products: map<string, Product>, p: Product, now: int)
    requires !StrTruthy(p.id)
    requires AddProduct(products, p, now).Ok?
    ensures var after := AddProduct(products, p, now).value.1;
            |after.Keys| == |products.Keys| + 1 && forall k :: k in products ==> k in after && after[k] == products[k]
  {
    var id := AddProduct(products, p, now).value.0;
    assert id !in products.Keys;
  }
}
