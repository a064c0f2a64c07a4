/** Seeding the product collection from the built-in catalogue, clearing it,
    and the catalogue statistics.

    The catalogue literal itself is a parameter. The store's writes and
    deletes are oracles saying whether each call succeeded.
 */
module ProductMigration {
  import opened Base
  import Text
  import Counting
  import Catalogue

  type Product = Catalogue.Product

  // ---------------------------------------------------------------------------
  // migrateAllProducts

  /** One entry of `results`: added under its id, skipped because the id exists, or failed. */
  datatype Entry =
    | Added(id: Option<string>, name: Option<string>)
    | Skipped(id: Option<string>, name: Option<string>)
    | Failed(name: Option<string>)

  datatype Summary = Summary(total: nat, added: nat, failed: nat, skipped: nat)

  /** The returned report, and the products written to the store in order. */
  datatype MigrationReport = MigrationReport(message: string, results: seq<Entry>, summary: Summary,
                                             written: seq<Product>)

  /** `existingProducts.find(p => p.id === product.id)` finds something; an absent id equals an absent id. */
  predicate HasId(existing: seq<Product>, id: Option<string>) {
    exists i :: 0 <= i < |existing| && existing[i].id == id
  }

  /** The result of one catalogue entry. */
  function EntryFor(p: Product, existing: seq<Product>, addOk: Product -> bool): (e: Entry)
    ensures e.Skipped? <==> HasId(existing, p.id)
    ensures e.Added? <==> !HasId(existing, p.id) && addOk(p)
    ensures e.name == p.name
    ensures !e.Failed? ==> e.id == p.id
  {
    if HasId(existing, p.id) then Skipped(p.id, p.name)
    else if addOk(p) then Added(p.id, p.name)
    else Failed(p.name)
  }

  function CountAdded(results: seq<Entry>): (n: nat)
    ensures n <= |results|
  {
    if |results| == 0 then 0 else (if results[0].Added? then 1 else 0) + CountAdded(results[1..])
  }

  function CountSkipped(results: seq<Entry>): (n: nat)
    ensures n <= |results|
  {
    if |results| == 0 then 0 else (if results[0].Skipped? then 1 else 0) + CountSkipped(results[1..])
  }

  function CountFailed(results: seq<Entry>): (n: nat)
    ensures n <= |results|
  {
    if |results| == 0 then 0 else (if results[0].Failed? then 1 else 0) + CountFailed(results[1..])
  }

  /** Every result is exactly one of added, skipped or failed. */
  lemma {:induction false} OutcomesPartition(results: seq<Entry>)
    ensures CountAdded(results) + CountSkipped(results) + CountFailed(results) == |results|
  {
    if |results| > 0 {
      OutcomesPartition(results[1..]);
    }
  }

  /** The products that were written, in catalogue order. */
  function Written(catalogue: seq<Product>, existing: seq<Product>, addOk: Product -> bool): (w: seq<Product>)
    ensures forall p :: p in w <==> p in catalogue && !HasId(existing, p.id) && addOk(p)
  {
    if |catalogue| == 0 then []
    else
      var p := catalogue[0];
      assert catalogue == [p] + catalogue[1..];
      (if !HasId(existing, p.id) && addOk(p) then [p] else []) + Written(catalogue[1..], existing, addOk)
  }

  /** `migrateAllProducts()` over the catalogue and the products read at the start. */
  function MigrateAllProducts(catalogue: seq<Product>, existing: seq<Product>, addOk: Product -> bool)
    : (r: MigrationReport)
    ensures |r.results| == |catalogue|
    ensures forall i :: 0 <= i < |catalogue| ==> r.results[i] == EntryFor(catalogue[i], existing, addOk)
    ensures r.summary.total == |catalogue|
    ensures r.summary.added + r.summary.skipped + r.summary.failed == r.summary.total
    ensures r.summary.added == |r.written|
    ensures forall p :: p in r.written ==> p in catalogue && !HasId(existing, p.id)
    ensures r.message == "Migration complete! Added " + Text.NatToString(r.summary.added) + " products, skipped "
                         + Text.NatToString(r.summary.skipped) + ", failed " + Text.NatToString(r.summary.failed) + "."
  {
    var results := seq(|catalogue|, i requires 0 <= i < |catalogue| => EntryFor(catalogue[i], existing, addOk));
    var written := Written(catalogue, existing, addOk);
    WrittenMatchesAdded(catalogue, existing, addOk);
    assert results == EntriesOf(catalogue, existing, addOk);
    OutcomesPartition(results);
    var s := Summary(|catalogue|, CountAdded(results), CountFailed(results), CountSkipped(results));
    MigrationReport("Migration complete! Added " + Text.NatToString(s.added) + " products, skipped "
                    + Text.NatToString(s.skipped) + ", failed " + Text.NatToString(s.failed) + ".",
                    results, s, written)
  }

  function EntriesOf(catalogue: seq<Product>, existing: seq<Product>, addOk: Product -> bool): (r: seq<Entry>)
    ensures |r| == |catalogue|
    ensures forall i :: 0 <= i < |catalogue| ==> r[i] == EntryFor(catalogue[i], existing, addOk)
  {
    if |catalogue| == 0 then []
    else [EntryFor(catalogue[0], existing, addOk)] + EntriesOf(catalogue[1..], existing, addOk)
  }

  /** One product is written for each `Added` entry. */
  lemma {:induction false} WrittenMatchesAdded(catalogue: seq<Product>, existing: seq<Product>, addOk: Product -> bool)
    ensures |Written(catalogue, existing, addOk)| == CountAdded(EntriesOf(catalogue, existing, addOk))
  {
    if |catalogue| > 0 {
      WrittenMatchesAdded(catalogue[1..], existing, addOk);
      assert EntriesOf(catalogue, existing, addOk)[1..] == EntriesOf(catalogue[1..], existing, addOk);
    }
  }

  /** Existing products are looked up once, before the loop: a catalogue entry whose id is already stored is
      never written, however many times it occurs. */
  lemma ExistingNeverRewritten(catalogue: seq<Product>, existing: seq<Product>, addOk: Product -> bool, i: nat)
    requires i < |catalogue| && HasId(existing, catalogue[i].id)
    ensures MigrateAllProducts(catalogue, existing, addOk).results[i].Skipped?
    ensures catalogue[i] !in MigrateAllProducts(catalogue, existing, addOk).written
  {
  }

  // ---------------------------------------------------------------------------
  // clearAllProducts

  /** The report: `deletedCount` is absent when there was nothing to delete. */
  datatype ClearReport = ClearReport(success: bool, message: string, deletedCount: Option<nat>)

  function CountDeleted(products: seq<Product>, deleteOk: Option<string> -> bool): (n: nat)
    ensures n <= |products|
    ensures n == |products| <==> forall i :: 0 <= i < |products| ==> deleteOk(products[i].id)
  {
    if |products| == 0 then 0
    else
      var rest := CountDeleted(products[1..], deleteOk);
      assert forall i :: 1 <= i < |products| ==> products[i] == products[1..][i - 1];
      (if deleteOk(products[0].id) then 1 else 0) + rest
  }

  /** `clearAllProducts()`: a failed delete is skipped, so the count is at most the number listed. */
  function ClearAllProducts(products: seq<Product>, deleteOk: Option<string> -> bool): (r: ClearReport)
    ensures r.success
    ensures |products| == 0 <==> r.deletedCount.None?
    ensures |products| == 0 ==> r.message == "No products found"
    ensures r.deletedCount.Some? ==> r.deletedCount.value <= |products|
    ensures r.deletedCount.Some? ==>
              (r.deletedCount.value == |products| <==> forall i :: 0 <= i < |products| ==> deleteOk(products[i].id))
    ensures r.deletedCount.Some? ==> r.message == "Deleted " + Text.NatToString(r.deletedCount.value) + " products"
  {
    if |products| == 0 then ClearReport(true, "No products found", None)
    else
      var n := CountDeleted(products, deleteOk);
      ClearReport(true, "Deleted " + Text.NatToString(n) + " products", Some(n))
  }

  // ---------------------------------------------------------------------------
  // getProductStats

  /** The price ladder. A missing price fails every comparison, as NaN does, and lands in the last bucket. */
  datatype PriceBucket = Under5000 | Under10000 | Under20000 | Over20000

  function BucketOf(price: Option<real>): (b: PriceBucket)
    ensures b == Under5000 <==> price.Some? && price.value < 5000.0
    ensures b == Under10000 <==> price.Some? && 5000.0 <= price.value < 10000.0
    ensures b == Under20000 <==> price.Some? && 10000.0 <= price.value < 20000.0
    ensures b == Over20000 <==> price.None? || price.value >= 20000.0
  {
    if price.Some? && price.value < 5000.0 then Under5000
    else if price.Some? && price.value < 10000.0 then Under10000
    else if price.Some? && price.value < 20000.0 then Under20000
    else Over20000
  }

  datatype Stats = Stats(
    total: nat,
    byCategory: seq<Counting.Bucket<Option<string>>>,
    under5000: nat, under10000: nat, under20000: nat, over20000: nat,
    inStock: nat, outOfStock: nat, featured: nat,
    averagePrice: Option<int>)

  /** The per-product counters, folded from the front. */
  datatype Tally = Tally(under5000: nat, under10000: nat, under20000: nat, over20000: nat,
                         inStock: nat, outOfStock: nat, featured: nat)

  function TallyOf(products: seq<Product>): (t: Tally)
    ensures t.under5000 + t.under10000 + t.under20000 + t.over20000 == |products|
    ensures t.inStock + t.outOfStock == |products|
    ensures t.featured <= |products|
  {
    if |products| == 0 then Tally(0, 0, 0, 0, 0, 0, 0)
    else
      var p := products[0];
      var t := TallyOf(products[1..]);
      var b := BucketOf(p.price);
      Tally(t.under5000 + (if b == Under5000 then 1 else 0),
            t.under10000 + (if b == Under10000 then 1 else 0),
            t.under20000 + (if b == Under20000 then 1 else 0),
            t.over20000 + (if b == Over20000 then 1 else 0),
            t.inStock + (if BoolTruthy(p.inStock) then 1 else 0),
            t.outOfStock + (if BoolTruthy(p.inStock) then 0 else 1),
            t.featured + (if BoolTruthy(p.featured) then 1 else 0))
  }

  /** `totalPrice += product.price`; one missing price makes the sum NaN, shown as `None`. */
  function SumPrices(products: seq<Product>): (r: Option<real>)
    ensures r.None? <==> exists i :: 0 <= i < |products| && products[i].price.None?
  {
    if |products| == 0 then Some(0.0)
    else
      var rest := SumPrices(products[1..]);
      assert forall i :: 1 <= i < |products| ==> products[i] == products[1..][i - 1];
      if products[0].price.None? || rest.None? then None else Some(products[0].price.value + rest.value)
  }

  /** `Math.round`: the nearest integer, halves rounding up. */
  function Round(x: real): (r: int)
    ensures r as real - 0.5 <= x < r as real + 0.5
  {
    (x + 0.5).Floor
  }

  function Categories(products: seq<Product>): (r: seq<Option<string>>)
    ensures |r| == |products|
    ensures forall i :: 0 <= i < |products| ==> r[i] == products[i].category
  {
    seq(|products|, i requires 0 <= i < |products| => products[i].category)
  }

  /** `getProductStats()`. A product without a category is counted under the absent key. */
  function GetProductStats(products: seq<Product>): (r: Stats)
    ensures r.total == |products|
    ensures r.under5000 + r.under10000 + r.under20000 + r.over20000 == r.total
    ensures r.inStock + r.outOfStock == r.total
    ensures r.featured <= r.total
    ensures Counting.Total(r.byCategory) == r.total
    ensures forall c :: Counting.CountOf(r.byCategory, c) == Counting.Occurrences(Categories(products), c)
    ensures |products| == 0 ==> r.averagePrice == Some(0)
    ensures |products| > 0 && SumPrices(products).Some? ==>
              r.averagePrice == Some(Round(SumPrices(products).value / |products| as real))
    ensures |products| > 0 && SumPrices(products).None? ==> r.averagePrice.None?
  {
    var t := TallyOf(products);
    var sum := SumPrices(products);
    var avg := if |products| == 0 then Some(0)
               else if sum.None? then None
               else Some(Round(sum.value / |products| as real));
    Stats(|products|, Counting.CountBy(Categories(products)), t.under5000, t.under10000, t.under20000,
          t.over20000, t.inStock, t.outOfStock, t.featured, avg)
  }

  /** The counter the tally keeps for bucket `b`. */
  function InBucket(t: Tally, b: PriceBucket): nat {
    match b
    case Under5000 => t.under5000
    case Under10000 => t.under10000
    case Under20000 => t.under20000
    case Over20000 => t.over20000
  }

  function Buckets(products: seq<Product>): (r: seq<PriceBucket>)
    ensures |r| == |products|
    ensures forall i :: 0 <= i < |products| ==> r[i] == BucketOf(products[i].price)
  {
    seq(|products|, i requires 0 <= i < |products| => BucketOf(products[i].price))
  }

  /** Each bucket counts exactly the products whose price falls in it. */
  lemma {:induction false} BucketCounts(products: seq<Product>, b: PriceBucket)
    ensures InBucket(TallyOf(products), b) == Counting.Occurrences(Buckets(products), b)
  {
    if |products| > 0 {
      BucketCounts(products[1..], b);
      OccurrencesCons(Buckets(products), b);
      assert Buckets(products)[1..] == Buckets(products[1..]);
    }
  }

  /** Counting occurrences from the front. */
  lemma {:induction false} OccurrencesCons<K>(keys: seq<K>, k: K)
    requires |keys| > 0
    ensures Counting.Occurrences(keys, k) == (if keys[0] == k then 1 else 0) + Counting.Occurrences(keys[1..], k)
    decreases |keys|
  {
    var last := |keys| - 1;
    if |keys| > 1 {
      OccurrencesCons(keys[..last], k);
      assert keys[..last][1..] == keys[1..][..|keys[1..]| - 1];
      assert keys[..last][0] == keys[0];
    }
  }
}
