/** Counting occurrences per key, as the catalogue statistics do with
    `counts[key] = (counts[key] || 0) + 1` on a plain object.

    The object is a list of buckets in first-insertion order. That is the
    order a JavaScript object enumerates string keys in, except that
    integer-like keys come first in ascending numeric order; the model keeps
    those in insertion order too.
 */
module Counting {

  datatype Bucket<K> = Bucket(key: K, count: nat)

  /** How many times `k` occurs in `keys`. */
  function Occurrences<K(==)>(keys: seq<K>, k: K): (n: nat)
    ensures n <= |keys|
    ensures n > 0 <==> k in keys
  {
    if |keys| == 0 then 0
    else
      var front := keys[..|keys| - 1];
      assert keys == front + [keys[|keys| - 1]];
      Occurrences(front, k) + (if keys[|keys| - 1] == k then 1 else 0)
  }

  /** The sum of all bucket counts. */
  function Total<K>(counts: seq<Bucket<K>>): nat {
    if |counts| == 0 then 0 else counts[0].count + Total(counts[1..])
  }

  /** The count recorded for `k`, or 0 when it has no bucket. */
  function CountOf<K(==)>(counts: seq<Bucket<K>>, k: K): nat {
    if |counts| == 0 then 0
    else (if counts[0].key == k then counts[0].count else 0) + CountOf(counts[1..], k)
  }

  predicate DistinctKeys<K(==)>(counts: seq<Bucket<K>>) {
    forall i, j :: 0 <= i < j < |counts| ==> counts[i].key != counts[j].key
  }

  /** Every bucket counts at least one occurrence. */
  predicate AllPositive<K>(counts: seq<Bucket<K>>) {
    forall i :: 0 <= i < |counts| ==> counts[i].count > 0
  }

  /** The bucket keys, in order. */
  function Keys<K>(counts: seq<Bucket<K>>): (r: seq<K>)
    ensures |r| == |counts| && forall i :: 0 <= i < |counts| ==> r[i] == counts[i].key
  {
    if |counts| == 0 then [] else [counts[0].key] + Keys(counts[1..])
  }

  /** One more occurrence of `k`: its bucket grows by one, or a new bucket goes at the end. */
  function Bump<K(==,!new)>(counts: seq<Bucket<K>>, k: K): (r: seq<Bucket<K>>)
    ensures Total(r) == Total(counts) + 1
    ensures AllPositive(counts) ==> AllPositive(r)
  {
    if |counts| == 0 then [Bucket(k, 1)]
    else if counts[0].key == k then
      var r := [Bucket(k, counts[0].count + 1)] + counts[1..];
      assert r[1..] == counts[1..];
      r
    else
      var rest := Bump(counts[1..], k);
      var r := [counts[0]] + rest;
      assert r[1..] == rest;
      r
  }

  /** Only the count of `k` grows, and by one. */
  lemma {:induction false} BumpCountOf<K(!new)>(counts: seq<Bucket<K>>, k: K, j: K)
    ensures CountOf(Bump(counts, k), j) == CountOf(counts, j) + (if j == k then 1 else 0)
  {
    if |counts| > 0 {
      var r := Bump(counts, k);
      if counts[0].key == k {
        assert r[1..] == counts[1..];
      } else {
        BumpCountOf(counts[1..], k, j);
        assert r[1..] == Bump(counts[1..], k);
      }
    }
  }

  /** The keys stay in place; a new key goes at the end. */
  lemma {:induction false} BumpKeys<K(!new)>(counts: seq<Bucket<K>>, k: K)
    ensures Keys(Bump(counts, k)) == if k in Keys(counts) then Keys(counts) else Keys(counts) + [k]
  {
    if |counts| > 0 {
      var r := Bump(counts, k);
      if counts[0].key == k {
        assert r[1..] == counts[1..];
      } else {
        BumpKeys(counts[1..], k);
        assert r[1..] == Bump(counts[1..], k);
        assert k in Keys(counts) <==> k in Keys(counts[1..]);
      }
    }
  }

  /** Bumping never makes two buckets share a key. */
  lemma BumpKeepsDistinct<K(!new)>(counts: seq<Bucket<K>>, k: K)
    requires DistinctKeys(counts)
    ensures DistinctKeys(Bump(counts, k))
  {
    var r := Bump(counts, k);
    BumpKeys(counts, k);
    forall i, j | 0 <= i < j < |r| ensures r[i].key != r[j].key {
      assert r[i].key == Keys(r)[i] && r[j].key == Keys(r)[j];
      if k !in Keys(counts) && j == |counts| {
        assert Keys(counts)[i] == counts[i].key;
      }
    }
  }

  /** The per-key counts of `keys`, buckets in order of each key's first occurrence. */
  function CountBy<K(==,!new)>(keys: seq<K>): (r: seq<Bucket<K>>)
    ensures Total(r) == |keys|
    ensures forall k :: CountOf(r, k) == Occurrences(keys, k)
    ensures DistinctKeys(r)
    ensures AllPositive(r)
  {
    if |keys| == 0 then []
    else
      var front := CountBy(keys[..|keys| - 1]);
      var x := keys[|keys| - 1];
      BumpKeepsDistinct(front, x);
      forall j ensures CountOf(Bump(front, x), j) == Occurrences(keys, j) {
        BumpCountOf(front, x, j);
      }
      Bump(front, x)
  }
}
