/** Console helpers for inspecting the product collection after a migration:
    a status summary, a lookup by id, and the list of ids.

    Each reads the whole collection; `None` stands for a read that threw, which
    every helper turns into an empty answer.
 */
module MigrationHelper {
  import opened Base
  import Counting
  import Catalogue

  type Product = Catalogue.Product

  datatype Status = Status(totalProducts: nat, categories: seq<Counting.Bucket<string>>, hasProducts: bool,
                           migrationComplete: bool, error: bool)

  /** `product.category || 'unknown'`. */
  function CategoryKey(p: Product): (k: string)
    ensures StrTruthy(p.category) ==> k == p.category.value
    ensures !StrTruthy(p.category) ==> k == "unknown"
  {
    StrOrDefault(p.category, "unknown")
  }

  function CategoryKeys(products: seq<Product>): (r: seq<string>)
    ensures |r| == |products|
    ensures forall i :: 0 <= i < |products| ==> r[i] == CategoryKey(products[i])
  {
    seq(|products|, i requires 0 <= i < |products| => CategoryKey(products[i]))
  }

  /** `checkMigrationStatus()`. */
  function CheckMigrationStatus(read: Option<seq<Product>>): (r: Status)
    ensures read.None? ==> r == Status(0, [], false, false, true)
    ensures read.Some? ==> !r.error && r.totalProducts == |read.value|
    ensures r.hasProducts == r.migrationComplete == (r.totalProducts > 0)
    ensures Counting.Total(r.categories) == r.totalProducts
    ensures read.Some? ==> forall k :: Counting.CountOf(r.categories, k) == Counting.Occurrences(CategoryKeys(read.value), k)
  {
    match read
    case None => Status(0, [], false, false, true)
    case Some(products) =>
      var n := |products|;
      Status(n, Counting.CountBy(CategoryKeys(products)), n > 0, n > 0, false)
  }

  /** A product without a category shows up under 'unknown'. */
  lemma UncategorisedCountedAsUnknown(products: seq<Product>, i: nat)
    requires i < |products| && !StrTruthy(products[i].category)
    ensures Counting.CountOf(CheckMigrationStatus(Some(products)).categories, "unknown") > 0
  {
    assert CategoryKeys(products)[i] == "unknown";
  }

  /** `findProduct(productId)`: found with the first match, or not found with no product. */
  function FindProduct(read: Option<seq<Product>>, id: Option<string>): (r: (bool, Option<Product>))
    ensures r.0 <==> r.1.Some?
    ensures r.0 <==> read.Some? && exists j :: 0 <= j < |read.value| && read.value[j].id == id
    ensures r.0 ==> exists j :: 0 <= j < |read.value| && r.1.value == read.value[j]
                             && read.value[j].id == id && forall m :: 0 <= m < j ==> read.value[m].id != id
  {
    match read
    case None => (false, None)
    case Some(products) =>
      match Catalogue.FirstWithId(products, id)
      case None => (false, None)
      case Some(j) => (true, Some(products[j]))
  }

  /** `getAllProductIds()`: the ids in list order, or none when the read fails. */
  function GetAllProductIds(read: Option<seq<Product>>): (r: seq<Option<string>>)
    ensures read.None? ==> r == []
    ensures read.Some? ==> |r| == |read.value| && forall i :: 0 <= i < |r| ==> r[i] == read.value[i].id
  {
    match read
    case None => []
    case Some(products) => seq(|products|, i requires 0 <= i < |products| => products[i].id)
  }

  /** Every id listed can be found, and finds a product carrying it. */
  lemma ListedIdsAreFound(products: seq<Product>, i: nat)
    requires i < |products|
    ensures var ids := GetAllProductIds(Some(products));
            var found := FindProduct(Some(products), ids[i]);
            found.0 && found.1.value.id == ids[i]
  {
    var ids := GetAllProductIds(Some(products));
    assert products[i].id == ids[i];
  }
}
