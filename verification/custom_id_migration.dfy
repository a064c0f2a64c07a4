/** The migration that moves products stored under generated document ids to
    readable custom ids.

    Each product whose id does not already look custom gets the id the
    catalogue builds from its category and name, made unique with a counter;
    the product is written under the new id and the old document deleted.
    The store's add and delete calls are oracles that say whether the write
    succeeded; the store is a map from document id to product.
 */
module CustomIdMigration {
  import opened Base
  import Catalogue

  type Product = Catalogue.Product
  type Docs = map<string, Product>

  /** One entry of `migrationResults`. */
  datatype Record = Record(oldId: Option<string>, newId: Option<string>, name: Option<string>, success: bool)

  /** The returned summary, and the store the run leaves behind. */
  datatype Report = Report(total: nat, successful: nat, failed: nat, results: seq<Record>, store: Docs)

  /** An id with a dash or shorter than 20 characters is taken to be custom already and is skipped. */
  predicate AlreadyCustom(id: Option<string>) {
    StrTruthy(id) && ('-' in id.value || |id.value| < 20)
  }

  /** The ids earlier records were given (`null` for failures matches no string). */
  function NewIds(results: seq<Record>): set<string> {
    set i | 0 <= i < |results| && results[i].newId.Some? :: results[i].newId.value
  }

  predicate DistinctNewIds(results: seq<Record>) {
    forall i, j :: 0 <= i < j < |results| && results[i].newId.Some? ==> results[i].newId != results[j].newId
  }

  /** How many records have the given outcome: `results.filter(r => r.success)` and its complement. */
  function CountWhere(results: seq<Record>, success: bool): (n: nat)
    ensures n <= |results|
  {
    if |results| == 0 then 0
    else (if results[0].success == success then 1 else 0) + CountWhere(results[1..], success)
  }

  lemma {:induction false} CountsPartition(results: seq<Record>)
    ensures CountWhere(results, true) + CountWhere(results, false) == |results|
  {
    if |results| > 0 {
      CountsPartition(results[1..]);
    }
  }

  /** How many products the loop does not skip. */
  function CountMigrating(products: seq<Product>): (n: nat)
    ensures n <= |products|
  {
    if |products| == 0 then 0
    else (if AlreadyCustom(products[0].id) then 0 else 1) + CountMigrating(products[1..])
  }

  /** Every generated id contains a dash: the one after the category prefix. */
  lemma GeneratedHasDash(category: Option<string>, name: string, taken: set<string>)
    ensures '-' in Catalogue.GenerateId(category, name, taken)
  {
    var base := Catalogue.BaseId(category, name);
    var r := Catalogue.GenerateId(category, name, taken);
    assert base[|Catalogue.CategoryPrefix(category)|] == '-';
    if base in taken {
      assert r[..|base| + 1] == base + "-";
      assert r[|base|] == '-';
    }
  }

  /** The body of the loop for a product that is not skipped. A missing name makes `toLowerCase` throw, which
      is recorded as a failure. The product is written under the new id before the old document is deleted,
      so a failed delete leaves both documents and still records a failure. */
  function Step(p: Product, taken: set<string>, docs: Docs, addOk: string -> bool, deleteOk: Option<string> -> bool)
    : (r: (Record, Docs))
    requires !AlreadyCustom(p.id)
    ensures r.0.oldId == p.id && r.0.name == p.name
    ensures r.0.success <==> r.0.newId.Some?
    ensures r.0.success <==>
              p.name.Some? && addOk(Catalogue.GenerateId(p.category, p.name.value, taken)) && deleteOk(p.id)
    ensures r.0.success ==> r.0.newId == Some(Catalogue.GenerateId(p.category, p.name.value, taken))
    ensures r.0.newId.Some? ==> r.0.newId.value !in taken
    ensures forall k :: k in r.1 && k !in docs ==> '-' in k
    ensures forall k :: k in docs && k in taken && k in r.1 ==> r.1[k] == docs[k]
    ensures forall k :: k in docs && k !in r.1 ==> p.id == Some(k)
    ensures !r.0.success ==> forall k :: k in docs ==> k in r.1
    ensures r.0.success ==> r.0.newId.value in r.1 && r.1[r.0.newId.value] == p.(id := r.0.newId)
    ensures p.name.Some? && addOk(Catalogue.GenerateId(p.category, p.name.value, taken)) && !deleteOk(p.id) ==>
              var newId := Catalogue.GenerateId(p.category, p.name.value, taken);
              newId in r.1 && r.1[newId] == p.(id := Some(newId)) && (p.id.Some? && p.id.value in docs ==> p.id.value in r.1)
  {
    if p.name.None? then (Record(p.id, None, p.name, false), docs)
    else
      var newId := Catalogue.GenerateId(p.category, p.name.value, taken);
      GeneratedHasDash(p.category, p.name.value, taken);
      if !addOk(newId) then (Record(p.id, None, p.name, false), docs)
      else
        var added := docs[newId := p.(id := Some(newId))];
        if !deleteOk(p.id) then (Record(p.id, None, p.name, false), added)
        else
          var removed := if p.id.Some? then added - {p.id.value} else added;
          (Record(p.id, Some(newId), p.name, true), removed)
  }

  /** The ids the uniqueness loop checks against: the ids given so far, and, when `checkStore`, the ids
      already in the store. */
  function Taken(results: seq<Record>, docs: Docs, checkStore: bool): (t: set<string>)
    ensures NewIds(results) <= t
    ensures checkStore ==> docs.Keys <= t
  {
    NewIds(results) + (if checkStore then docs.Keys else {})
  }

  /** A record whose id is not among the earlier ones keeps the ids distinct. */
  lemma DistinctAppend(results: seq<Record>, rec: Record)
    requires rec.newId.Some? ==> rec.newId.value !in NewIds(results)
    ensures DistinctNewIds(results) ==> DistinctNewIds(results + [rec])
  {
    if DistinctNewIds(results) && rec.newId.Some? {
      forall j | 0 <= j < |results| && results[j].newId.Some? ensures results[j].newId != rec.newId {
        assert results[j].newId.value in NewIds(results);
      }
    }
  }

  /** The loop from product `i` on, with the records and store built so far. */
  function Run(products: seq<Product>, checkStore: bool, addOk: string -> bool, deleteOk: Option<string> -> bool,
               i: nat, results: seq<Record>, docs: Docs): (r: (seq<Record>, Docs))
    requires i <= |products|
    ensures |r.0| == |results| + CountMigrating(products[i..])
    ensures r.0[..|results|] == results
    ensures DistinctNewIds(results) ==> DistinctNewIds(r.0)
    ensures forall k :: k in r.1 && k !in docs ==> '-' in k
    ensures checkStore ==> forall k :: k in docs && k in r.1 ==> r.1[k] == docs[k]
    decreases |products| - i
  {
    if i == |products| then (results, docs)
    else
      assert products[i..] == [products[i]] + products[i + 1..];
      if AlreadyCustom(products[i].id) then Run(products, checkStore, addOk, deleteOk, i + 1, results, docs)
      else
        var (rec, docs1) := Step(products[i], Taken(results, docs, checkStore), docs, addOk, deleteOk);
        var results1 := results + [rec];
        DistinctAppend(results, rec);
        var r := Run(products, checkStore, addOk, deleteOk, i + 1, results1, docs1);
        assert r.0[..|results|] == r.0[..|results1|][..|results|];
        r
  }

  function ReportOf(products: seq<Product>, run: (seq<Record>, Docs)): (r: Report)
    ensures r.total == |products| && r.results == run.0 && r.store == run.1
    ensures r.successful + r.failed == |run.0|
  {
    CountsPartition(run.0);
    Report(|products|, CountWhere(run.0, true), CountWhere(run.0, false), run.0, run.1)
  }

  /** `migrateToCustomIds()` as written: the counter loop only checks the ids given earlier in the same run. */
  function MigrateToCustomIds(products: seq<Product>, docs: Docs, addOk: string -> bool,
                              deleteOk: Option<string> -> bool): (r: Report)
    ensures r.total == |products|
    ensures r.successful + r.failed == |r.results| == CountMigrating(products)
    ensures DistinctNewIds(r.results)
    ensures forall k :: k in r.store && k !in docs ==> '-' in k
  {
    assert products[0..] == products;
    ReportOf(products, Run(products, false, addOk, deleteOk, 0, [], docs))
  }

  /** A product already stored under a custom id is overwritten when another product's generated id equals
      it: the store ends up holding the migrated product there instead. */
  lemma MigrationOverwritesExisting(existing: Product, p: Product, docs: Docs, addOk: string -> bool,
                                    deleteOk: Option<string> -> bool, x: string)
    requires existing.id == Some(x) && AlreadyCustom(existing.id) && x in docs
    requires !AlreadyCustom(p.id) && p.name.Some? && Catalogue.BaseId(p.category, p.name.value) == x
    requires addOk(x) && deleteOk(p.id)
    ensures var r := MigrateToCustomIds([existing, p], docs, addOk, deleteOk);
            && r.results[0].newId == Some(x)
            && x in r.store && r.store[x] == p.(id := Some(x))
  {
    var products := [existing, p];
    var r1 := Run(products, false, addOk, deleteOk, 1, [], docs);
    assert r1 == Run(products, false, addOk, deleteOk, 0, [], docs);
    assert Taken([], docs, false) == {};
    GeneratedHasDash(p.category, p.name.value, {});
    var step := Step(p, Taken([], docs, false), docs, addOk, deleteOk);
    assert step.0.newId == Some(x);
    assert x in step.1 && step.1[x] == p.(id := Some(x));
    assert [] + [step.0] == [step.0];
    assert r1 == Run(products, false, addOk, deleteOk, 2, [step.0], step.1);
  }

  /** The migration with the uniqueness loop also checking the ids in the store, so an existing document is
      never overwritten. */
  function MigrateToCustomIdsChecked(products: seq<Product>, docs: Docs, addOk: string -> bool,
                                     deleteOk: Option<string> -> bool): (r: Report)
    ensures r.total == |products|
    ensures r.successful + r.failed == |r.results| == CountMigrating(products)
    ensures DistinctNewIds(r.results)
    ensures forall k :: k in r.store && k !in docs ==> '-' in k
    ensures forall k :: k in docs && k in r.store ==> r.store[k] == docs[k]
  {
    assert products[0..] == products;
    ReportOf(products, Run(products, true, addOk, deleteOk, 0, [], docs))
  }
}
