/** Catalogue products and the readable product ids the store generates for
    them: a category prefix and a name suffix, made unique with a counter.

    `addProduct` in the server's store and the custom-id migration build the
    same base id; the first checks it against the stored ids, the second
    against the ids assigned earlier in the same run.
 */
module Catalogue {
  import opened Base
  import Text

  /** A product record; prices are numbers, as the catalogue forms submit them. */
  datatype Product = Product(
    id: Option<string>,
    name: Option<string>,
    description: Option<string>,
    price: Option<real>,
    category: Option<string>,
    inStock: Option<bool>,
    featured: Option<bool>,
    customId: Option<string>,
    createdAt: Option<int>,
    updatedAt: Option<int>)

  const NoProduct := Product(None, None, None, None, None, None, None, None, None, None)

  /** Index of the first product with the id, the one `Array.prototype.find` picks. */
  function FirstWithId(products: seq<Product>, id: Option<string>): (r: Option<nat>)
    ensures r.Some? ==> r.value < |products| && products[r.value].id == id
    ensures r.Some? ==> forall j :: 0 <= j < r.value ==> products[j].id != id
    ensures r.None? <==> forall j :: 0 <= j < |products| ==> products[j].id != id
  {
    if |products| == 0 then None
    else if products[0].id == id then Some(0)
    else
      var r := FirstWithId(products[1..], id);
      assert forall j :: 1 <= j < |products| ==> products[j] == products[1..][j - 1];
      if r.None? then None else Some(r.value + 1)
  }

  /** `category.substring(0, 3).toUpperCase()` with 'general' for a missing category. */
  function CategoryPrefix(category: Option<string>): (r: string)
    ensures |r| <= 3
    ensures !StrTruthy(category) ==> r == "GEN"
    ensures forall k :: 0 <= k < |r| ==> !Text.IsLowerAscii(r[k])
    ensures var c := StrOrDefault(category, "general");
            |r| == (if |c| < 3 then |c| else 3) && forall k :: 0 <= k < |r| ==> r[k] == Text.UpperChar(c[k])
  {
    var c := StrOrDefault(category, "general");
    var r := Text.Upper(Text.Take(c, 3));
    assert !StrTruthy(category) ==> Text.Take(c, 3) == "gen";
    r
  }

  /** `name.toLowerCase().split(' ').slice(0, 2)`. */
  function NameWords(name: string): (r: seq<string>)
    ensures 1 <= |r| <= 2 && |r| <= |Text.Split(Text.Lower(name), ' ')|
    ensures r == Text.Split(Text.Lower(name), ' ')[..|r|]
  {
    var words := Text.Split(Text.Lower(name), ' ');
    if |words| <= 2 then words else words[..2]
  }

  /** The first two letters of each word, joined. */
  function Initials(words: seq<string>): (r: string)
    ensures |r| <= 2 * |words|
    ensures |words| == 1 ==> r == Text.Take(words[0], 2)
    ensures |words| == 2 ==> r == Text.Take(words[0], 2) + Text.Take(words[1], 2)
  {
    if |words| == 0 then "" else Text.Take(words[0], 2) + Initials(words[1..])
  }

  /** `${prefix}-${suffix}`. */
  function BaseId(category: Option<string>, name: string): (r: string)
    ensures |CategoryPrefix(category)| < |r| <= 8
    ensures r[..|CategoryPrefix(category)|] == CategoryPrefix(category)
    ensures r[|CategoryPrefix(category)|] == '-'
    ensures forall k :: 0 <= k < |r| ==> !Text.IsLowerAscii(r[k])
  {
    var suffix := Text.Upper(Initials(NameWords(name)));
    CategoryPrefix(category) + "-" + suffix
  }

  /** After the prefix and the dash comes the upper-cased initials of the name's first two words. */
  lemma BaseIdSuffix(category: Option<string>, name: string)
    ensures var r := BaseId(category, name);
            var n := |CategoryPrefix(category)| + 1;
            var initials := Initials(NameWords(name));
            |r| == n + |initials| && forall k :: 0 <= k < |initials| ==> r[n + k] == Text.UpperChar(initials[k])
  {
    var prefix := CategoryPrefix(category);
    var suffix := Text.Upper(Initials(NameWords(name)));
    assert BaseId(category, name) == prefix + "-" + suffix;
  }

  /** The k-th candidate: the base id itself, then `base-001`, `base-002`, ... */
  function Candidate(base: string, k: nat): string {
    if k == 0 then base else base + "-" + Text.Pad3(k)
  }

  /** Different counters give different candidates. */
  lemma CandidateInjective(base: string, j: nat, k: nat)
    requires Candidate(base, j) == Candidate(base, k)
    ensures j == k
  {
    if j > 0 && k > 0 {
      assert Text.Pad3(j) == Candidate(base, j)[|base| + 1..];
      assert Text.Pad3(k) == Candidate(base, k)[|base| + 1..];
      Text.Pad3Injective(j, k);
    }
  }

  function CandidateSet(base: string, n: nat): set<string> {
    set k | 0 <= k < n :: Candidate(base, k)
  }

  lemma {:induction false} CandidateSetSize(base: string, n: nat)
    ensures |CandidateSet(base, n)| == n
  {
    if n > 0 {
      CandidateSetSize(base, n - 1);
      assert CandidateSet(base, n) == CandidateSet(base, n - 1) + {Candidate(base, n - 1)};
      if Candidate(base, n - 1) in CandidateSet(base, n - 1) {
        var j :| 0 <= j < n - 1 && Candidate(base, j) == Candidate(base, n - 1);
        CandidateInjective(base, j, n - 1);
      }
    }
  }

  /** A finite set of ids cannot hold more than its size of the candidates. */
  lemma TakenBound(base: string, taken: set<string>, n: nat)
    requires forall k :: 0 <= k < n ==> Candidate(base, k) in taken
    ensures n <= |taken|
  {
    CandidateSetSize(base, n);
    SubsetSize(CandidateSet(base, n), taken);
  }

  lemma {:induction false} SubsetSize<T>(a: set<T>, b: set<T>)
    requires a <= b
    ensures |a| <= |b|
    decreases |a|
  {
    if a != {} {
      var x :| x in a;
      SubsetSize(a - {x}, b - {x});
    }
  }

  /** The `while (exists(finalId))` loop: the first counter from `from` on whose candidate is free. */
  function FreeIndex(base: string, taken: set<string>, from: nat): (k: nat)
    requires forall j :: 0 <= j < from ==> Candidate(base, j) in taken
    ensures from <= k <= |taken|
    ensures Candidate(base, k) !in taken
    ensures forall j :: 0 <= j < k ==> Candidate(base, j) in taken
    decreases |taken| - from
  {
    TakenBound(base, taken, from);
    if Candidate(base, from) !in taken then from
    else
      TakenBound(base, taken, from + 1);
      FreeIndex(base, taken, from + 1)
  }

  /** The base id when it is free, otherwise the first free `base-NNN`. */
  function FreeId(base: string, taken: set<string>): (r: string)
    ensures r !in taken
    ensures base !in taken ==> r == base
    ensures base in taken ==> Text.StartsWith(r, base + "-")
  {
    Candidate(base, FreeIndex(base, taken, 0))
  }

  /** The generated id is the first candidate not taken, whatever counter reaches it. */
  lemma FreeIdIsFirstFree(base: string, taken: set<string>, k: nat)
    requires Candidate(base, k) !in taken
    requires forall j :: 0 <= j < k ==> Candidate(base, j) in taken
    ensures FreeId(base, taken) == Candidate(base, k)
  {
    var k0 := FreeIndex(base, taken, 0);
  }

  /** The id a new product receives when none is supplied. */
  function GenerateId(category: Option<string>, name: string, taken: set<string>): (r: string)
    ensures r !in taken
  {
    FreeId(BaseId(category, name), taken)
  }
}
