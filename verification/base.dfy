/** Optional values, results, and the JavaScript truthiness rules the store
    and the shipping integration rely on.

    A record field that the JavaScript code may leave out is an `Option`:
    `None` stands for both `undefined` and `null`. Truthiness is defined once
    per scalar kind: absent, `""` and `0` are falsy, and an array or object
    that is present is truthy even when empty.
 */
module Base {

  datatype Option<+T> = None | Some(value: T)

  /** The outcome of an operation that throws in the source: `Err` carries the message. */
  datatype Result<+T> = Ok(value: T) | Err(msg: string)

  /** Truthiness of an optional string: absent, null and "" are falsy. */
  predicate StrTruthy(o: Option<string>) {
    o.Some? && o.value != ""
  }

  /** Truthiness of an optional number: absent, null and 0 are falsy. */
  predicate NumTruthy(o: Option<real>) {
    o.Some? && o.value != 0.0
  }

  /** Truthiness of an optional boolean. */
  predicate BoolTruthy(o: Option<bool>) {
    o == Some(true)
  }

  /** Truthiness of an optional array or object: any present value is truthy. */
  predicate Present<T>(o: Option<T>) {
    o.Some?
  }

  /** `a || b || ... || z`: the first truthy operand, or the last operand when none is truthy. */
  function FirstTruthy<T>(chain: seq<Option<T>>, truthy: Option<T> -> bool): (r: Option<T>)
    requires |chain| > 0
    ensures r in chain
    ensures truthy(r) <==> exists i :: 0 <= i < |chain| && truthy(chain[i])
    ensures truthy(r) ==>
      exists i :: 0 <= i < |chain| && chain[i] == r && (forall j :: 0 <= j < i ==> !truthy(chain[j]))
    ensures !truthy(r) ==> r == chain[|chain| - 1]
  {
    if |chain| == 1 || truthy(chain[0]) then chain[0]
    else
      var rest := FirstTruthy(chain[1..], truthy);
      assert forall i :: 1 <= i < |chain| ==> chain[i] == chain[1..][i - 1];
      rest
  }

  /** `a || b` on optional strings. */
  function StrOr(a: Option<string>, b: Option<string>): (r: Option<string>)
    ensures StrTruthy(a) ==> r == a
    ensures !StrTruthy(a) ==> r == b
  {
    if StrTruthy(a) then a else b
  }

  /** `a || b` on optional numbers. */
  function NumOr(a: Option<real>, b: Option<real>): (r: Option<real>)
    ensures NumTruthy(a) ==> r == a
    ensures !NumTruthy(a) ==> r == b
  {
    if NumTruthy(a) then a else b
  }

  /** `x || null`: a falsy value collapses to null. */
  function StrOrNull(a: Option<string>): (r: Option<string>)
    ensures r.Some? <==> StrTruthy(a)
    ensures r.Some? ==> r == a
  {
    if StrTruthy(a) then a else None
  }

  /** `x || "literal"` with a non-empty literal: the result is always a truthy string. */
  function StrOrDefault(a: Option<string>, default: string): (r: string)
    requires default != ""
    ensures r != ""
    ensures StrTruthy(a) ==> r == a.value
    ensures !StrTruthy(a) ==> r == default
  {
    if StrTruthy(a) then a.value else default
  }

  /** A chain ending in a truthy literal never yields a falsy value. */
  lemma {:induction false} ChainWithDefaultIsTruthy<T>(chain: seq<Option<T>>, truthy: Option<T> -> bool)
    requires |chain| > 0 && truthy(chain[|chain| - 1])
    ensures truthy(FirstTruthy(chain, truthy))
  {
    var last := |chain| - 1;
    assert 0 <= last < |chain| && truthy(chain[last]);
  }
}
