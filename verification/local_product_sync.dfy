/** The browser-side product cache: a list of products kept in local
    storage, with updates, additions and deletions applied to the list.

    The storage itself is the list passed in and returned; the change events
    the cache dispatches are left out.
 */
module LocalProductSync {
  import opened Base
  import Text
  import Catalogue

  type Product = Catalogue.Product

  /** One key of the spread: the update's value when it carries one. */
  function Over<T>(mine: Option<T>, theirs: Option<T>): (r: Option<T>)
    ensures mine.Some? ==> r == mine
    ensures mine.None? ==> r == theirs
  {
    if mine.Some? then mine else theirs
  }

  /** `{...product, ...updates}`: every field the update carries replaces the product's. */
  function Overlay(p: Product, u: Product): Product {
    Catalogue.Product(Over(u.id, p.id), Over(u.name, p.name), Over(u.description, p.description),
                      Over(u.price, p.price), Over(u.category, p.category), Over(u.inStock, p.inStock),
                      Over(u.featured, p.featured), Over(u.customId, p.customId),
                      Over(u.createdAt, p.createdAt), Over(u.updatedAt, p.updatedAt))
  }

  /** An update carrying no fields changes nothing, and applying an update twice is applying it once. */
  lemma OverlayLaws(p: Product, u: Product)
    ensures Overlay(p, Catalogue.NoProduct) == p
    ensures Overlay(Overlay(p, u), u) == Overlay(p, u)
  {
  }

  /** `updateProduct(productId, updates)`: every product with the id is merged and stamped; the others and
      the length are unchanged. */
  function UpdateProduct(products: seq<Product>, id: Option<string>, updates: Product, now: int)
    : (r: seq<Product>)
    ensures |r| == |products|
    ensures forall i :: 0 <= i < |products| && products[i].id == id ==>
              r[i] == Overlay(products[i], updates).(updatedAt := Some(now))
    ensures forall i :: 0 <= i < |products| && products[i].id != id ==> r[i] == products[i]
  {
    seq(|products|, i requires 0 <= i < |products| =>
      if products[i].id == id then Overlay(products[i], updates).(updatedAt := Some(now)) else products[i])
  }

  /** `temp_${Date.now()}_${random}`; the random part is a parameter. */
  function TempId(now: nat, random: string): (r: string)
    ensures Text.StartsWith(r, "temp_")
  {
    "temp_" + Text.NatToString(now) + "_" + random
  }

  /** `addProduct(productData)`: appends the product, with its own id or a temporary one, and both stamps. */
  function AddProduct(products: seq<Product>, data: Product, now: nat, random: string): (r: (seq<Product>, Product))
    ensures r.0 == products + [r.1]
    ensures StrTruthy(data.id) ==> r.1.id == data.id
    ensures !StrTruthy(data.id) ==> r.1.id == Some(TempId(now, random))
    ensures r.1 == data.(id := r.1.id, createdAt := Some(now), updatedAt := Some(now))
  {
    var p := data.(id := StrOr(data.id, Some(TempId(now, random))), createdAt := Some(now), updatedAt := Some(now));
    (products + [p], p)
  }

  /** `deleteProduct(productId)`: keeps exactly the products with another id. */
  function DeleteProduct(products: seq<Product>, id: Option<string>): (r: seq<Product>)
    ensures forall p :: p in r <==> p in products && p.id != id
    ensures |r| <= |products|
  {
    if |products| == 0 then []
    else
      assert products == [products[0]] + products[1..];
      (if products[0].id != id then [products[0]] else []) + DeleteProduct(products[1..], id)
  }

  /** Deleting keeps the survivors in their order: it works piece by piece on a split list. */
  lemma {:induction false} DeleteKeepsOrder(a: seq<Product>, b: seq<Product>, id: Option<string>)
    ensures DeleteProduct(a + b, id) == DeleteProduct(a, id) + DeleteProduct(b, id)
  {
    if |a| > 0 {
      assert (a + b)[1..] == a[1..] + b;
      DeleteKeepsOrder(a[1..], b, id);
    } else {
      assert a + b == b;
    }
  }

  /** Deleting an id no product has leaves the list as it was. */
  lemma {:induction false} DeleteAbsent(products: seq<Product>, id: Option<string>)
    requires forall i :: 0 <= i < |products| ==> products[i].id != id
    ensures DeleteProduct(products, id) == products
  {
    if |products| > 0 {
      DeleteAbsent(products[1..], id);
      assert products == [products[0]] + products[1..];
    }
  }

  /** Adding a product under an id no stored product has, then deleting that id, restores the list. */
  lemma AddFreshThenDelete(products: seq<Product>, data: Product, now: nat, random: string)
    requires var p := AddProduct(products, data, now, random).1;
             forall i :: 0 <= i < |products| ==> products[i].id != p.id
    ensures var (added, p) := AddProduct(products, data, now, random);
            DeleteProduct(added, p.id) == products
  {
    var (added, p) := AddProduct(products, data, now, random);
    AddThenDelete(products, data, now, random);
    DeleteAbsent(products, p.id);
  }

  /** A product appended and then deleted by its id leaves the list without that id. */
  lemma AddThenDelete(products: seq<Product>, data: Product, now: nat, random: string)
    ensures var (added, p) := AddProduct(products, data, now, random);
            DeleteProduct(added, p.id) == DeleteProduct(products, p.id)
  {
    var (added, p) := AddProduct(products, data, now, random);
    DeleteKeepsOrder(products, [p], p.id);
    assert DeleteProduct([p], p.id) == [];
  }

  /** `getProductById(productId)`: the first product with the id, or null. */
  function GetProductById(products: seq<Product>, id: Option<string>): (r: Option<Product>)
    ensures r.Some? <==> exists i :: 0 <= i < |products| && products[i].id == id
    ensures r.Some? ==> exists i :: 0 <= i < |products| && r.value == products[i] && products[i].id == id
                                  && forall j :: 0 <= j < i ==> products[j].id != id
  {
    match Catalogue.FirstWithId(products, id)
    case None => None
    case Some(i) => Some(products[i])
  }

  /** A product's category matches when it is present and equal ignoring ASCII case. */
  predicate InCategory(p: Product, category: string) {
    StrTruthy(p.category) && Text.Lower(p.category.value) == Text.Lower(category)
  }

  /** `getProductsByCategory(category)`. */
  function GetProductsByCategory(products: seq<Product>, category: string): (r: seq<Product>)
    ensures forall p :: p in r <==> p in products && InCategory(p, category)
    ensures forall p :: p in r ==> StrTruthy(p.category)
    ensures forall p :: multiset(r)[p] == if InCategory(p, category) then multiset(products)[p] else 0
  {
    if |products| == 0 then []
    else
      assert products == [products[0]] + products[1..];
      (if InCategory(products[0], category) then [products[0]] else [])
        + GetProductsByCategory(products[1..], category)
  }

  /** The filter keeps list order: filtering a concatenation concatenates the filtered parts. */
  lemma {:induction false} ByCategoryAppend(a: seq<Product>, b: seq<Product>, category: string)
    ensures GetProductsByCategory(a + b, category)
            == GetProductsByCategory(a, category) + GetProductsByCategory(b, category)
    decreases |a|
  {
    if |a| == 0 {
      assert a + b == b;
    } else {
      assert (a + b)[0] == a[0] && (a + b)[1..] == a[1..] + b;
      ByCategoryAppend(a[1..], b, category);
    }
  }

  /** Two spellings of a category that differ only in case select the same products. */
  lemma {:induction false} CategoryIgnoresCase(products: seq<Product>, c1: string, c2: string)
    requires Text.Lower(c1) == Text.Lower(c2)
    ensures GetProductsByCategory(products, c1) == GetProductsByCategory(products, c2)
  {
    if |products| > 0 {
      CategoryIgnoresCase(products[1..], c1, c2);
    }
  }

  /** The `lastUpdated` field: null for an empty cache, NaN when some product has no date. */
  datatype LastUpdated = NoneYet | NotANumber | Latest(time: int)

  /** `new Date(p.updatedAt || p.createdAt).getTime()`, with `None` for an invalid date. */
  function StampOf(p: Product): Option<int> {
    if p.updatedAt.Some? then p.updatedAt else p.createdAt
  }

  /** `Math.max` over the stamps: any NaN makes the result NaN. */
  function LastUpdatedOf(products: seq<Product>): (r: LastUpdated)
    ensures |products| == 0 <==> r == NoneYet
    ensures r.NotANumber? <==> |products| > 0 && exists i :: 0 <= i < |products| && StampOf(products[i]).None?
    ensures r.Latest? ==> forall i :: 0 <= i < |products| ==> StampOf(products[i]) .Some? && StampOf(products[i]).value <= r.time
    ensures r.Latest? ==> exists i :: 0 <= i < |products| && StampOf(products[i]) == Some(r.time)
  {
    if |products| == 0 then NoneYet
    else
      var s := StampOf(products[0]);
      var rest := LastUpdatedOf(products[1..]);
      assert forall i :: 1 <= i < |products| ==> products[i] == products[1..][i - 1];
      if s.None? then NotANumber
      else match rest
        case NoneYet => Latest(s.value)
        case NotANumber => NotANumber
        case Latest(t) => if s.value >= t then Latest(s.value) else Latest(t)
  }

  /** `getSyncStatus()` without the cache size and the browser's online flag. */
  function GetSyncStatus(products: seq<Product>): (r: (nat, LastUpdated))
    ensures r.0 == |products|
    ensures r.0 == 0 <==> r.1 == NoneYet
    ensures r.1.Latest? ==> forall i :: 0 <= i < |products| ==> StampOf(products[i]).Some? && StampOf(products[i]).value <= r.1.time
    ensures r.1.Latest? ==> exists i :: 0 <= i < |products| && StampOf(products[i]) == Some(r.1.time)
    ensures r.1.NotANumber? <==> |products| > 0 && exists i :: 0 <= i < |products| && StampOf(products[i]).None?
  {
    (|products|, LastUpdatedOf(products))
  }
}
