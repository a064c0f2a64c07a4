/** The handful of JavaScript string operations the store code uses:
    `split(' ')`, `join`, `substring(0, n)`, ASCII case mapping, `startsWith`,
    number-to-decimal conversion and `padStart(3, '0')`.

    Case mapping covers ASCII letters only; other characters map to themselves.
 */
module Text {

  /** Index of the first occurrence of `c` in `s`. */
  function IndexOf(s: string, c: char): (i: nat)
    requires c in s
    ensures i < |s| && s[i] == c
    ensures c !in s[..i]
  {
    if s[0] == c then 0
    else
      var k := IndexOf(s[1..], c);
      assert s[1..][..k] == s[1..k + 1];
      1 + k
  }

  /** `s.split(sep)` for a one-character separator: the pieces between separators, in order. */
  function Split(s: string, sep: char): (r: seq<string>)
    ensures |r| > 0
    ensures forall k :: 0 <= k < |r| ==> sep !in r[k]
    decreases |s|
  {
    if sep !in s then [s]
    else
      var i := IndexOf(s, sep);
      [s[..i]] + Split(s[i + 1..], sep)
  }

  /** `pieces.join(sep)` for a one-character separator. */
  function Join(pieces: seq<string>, sep: string): string
  {
    if |pieces| == 0 then ""
    else if |pieces| == 1 then pieces[0]
    else pieces[0] + sep + Join(pieces[1..], sep)
  }

  /** The pieces after the first are the pieces of the text after the first separator. */
  lemma SplitAfterFirst(s: string, sep: char)
    requires sep in s
    ensures Split(s, sep)[1..] == Split(s[IndexOf(s, sep) + 1..], sep)
  {
    var i := IndexOf(s, sep);
    assert Split(s, sep) == [s[..i]] + Split(s[i + 1..], sep);
  }

  lemma JoinCons(a: string, rest: seq<string>, sep: string)
    requires |rest| > 0
    ensures Join([a] + rest, sep) == a + sep + Join(rest, sep)
  {
    assert ([a] + rest)[1..] == rest;
  }

  /** Splitting and re-joining with the same separator gives back the original string. */
  lemma {:induction false} JoinSplit(s: string, sep: char)
    ensures Join(Split(s, sep), [sep]) == s
    decreases |s|
  {
    if sep in s {
      var i := IndexOf(s, sep);
      var rest := s[i + 1..];
      JoinSplit(rest, sep);
      assert Split(s, sep) == [s[..i]] + Split(rest, sep);
      JoinCons(s[..i], Split(rest, sep), [sep]);
      assert s == s[..i] + [sep] + rest;
    }
  }

  /** `s.split(' ').slice(1).join(' ')`: everything after the first space, or "" without one. */
  function AfterFirstWord(s: string): string
  {
    Join(Split(s, ' ')[1..], " ")
  }

  /** The words after the first are exactly the text after the first space. */
  lemma AfterFirstWordIsSuffix(s: string)
    ensures ' ' !in s ==> AfterFirstWord(s) == ""
    ensures ' ' in s ==> AfterFirstWord(s) == s[IndexOf(s, ' ') + 1..]
  {
    if ' ' in s {
      SplitAfterFirst(s, ' ');
      JoinSplit(s[IndexOf(s, ' ') + 1..], ' ');
      assert " " == [' '];
    }
  }

  /** `s.substring(0, n)` for n >= 0. */
  function Take(s: string, n: nat): (r: string)
    ensures |r| <= n && |r| <= |s|
    ensures r == s[..|r|]
    ensures |s| >= n ==> |r| == n
  {
    if |s| <= n then s else s[..n]
  }

  predicate IsLowerAscii(c: char) { 'a' <= c <= 'z' }
  predicate IsUpperAscii(c: char) { 'A' <= c <= 'Z' }

  function UpperChar(c: char): (d: char)
    ensures !IsLowerAscii(d)
    ensures IsLowerAscii(c) ==> IsUpperAscii(d)
    ensures !IsLowerAscii(c) ==> d == c
  {
    if IsLowerAscii(c) then (c as int - 32) as char else c
  }

  function LowerChar(c: char): (d: char)
    ensures !IsUpperAscii(d)
    ensures IsUpperAscii(c) ==> IsLowerAscii(d)
    ensures !IsUpperAscii(c) ==> d == c
  {
    if IsUpperAscii(c) then (c as int + 32) as char else c
  }

  /** `s.toUpperCase()` on ASCII letters. */
  function Upper(s: string): (r: string)
    ensures |r| == |s|
    ensures forall k :: 0 <= k < |s| ==> r[k] == UpperChar(s[k])
  {
    if |s| == 0 then "" else [UpperChar(s[0])] + Upper(s[1..])
  }

  /** `s.toLowerCase()` on ASCII letters. */
  function Lower(s: string): (r: string)
    ensures |r| == |s|
    ensures forall k :: 0 <= k < |s| ==> r[k] == LowerChar(s[k])
  {
    if |s| == 0 then "" else [LowerChar(s[0])] + Lower(s[1..])
  }

  /** Lower-casing is idempotent, so a case-insensitive comparison ignores the case of either side. */
  lemma LowerIdempotent(s: string)
    ensures Lower(Lower(s)) == Lower(s)
  {
  }

  /** An upper-cased string holds no lower-case ASCII letter. */
  lemma UpperHasNoLower(s: string)
    ensures forall k :: 0 <= k < |s| ==> !IsLowerAscii(Upper(s)[k])
  {
  }

  predicate StartsWith(s: string, prefix: string) {
    |prefix| <= |s| && s[..|prefix|] == prefix
  }

  function DigitChar(d: nat): (c: char)
    requires d < 10
    ensures '0' <= c <= '9'
  {
    ('0' as int + d) as char
  }

  function DigitValue(c: char): nat
  {
    if '0' <= c <= '9' then c as int - '0' as int else 0
  }

  /** `String(n)` for a non-negative integer: its decimal digits without leading zeros. */
  function NatToString(n: nat): (r: string)
    ensures |r| > 0
    ensures forall k :: 0 <= k < |r| ==> '0' <= r[k] <= '9'
  {
    if n < 10 then [DigitChar(n)] else NatToString(n / 10) + [DigitChar(n % 10)]
  }

  /** The value of a string of decimal digits, read left to right; leading zeros add nothing. */
  function DecimalValue(s: string): nat
  {
    if |s| == 0 then 0 else DecimalValue(s[..|s| - 1]) * 10 + DigitValue(s[|s| - 1])
  }

  /** Reading back the decimal rendering of `n` gives `n`. */
  lemma {:induction false} DecimalRoundTrip(n: nat)
    ensures DecimalValue(NatToString(n)) == n
  {
    if n >= 10 {
      DecimalRoundTrip(n / 10);
      var s := NatToString(n);
      assert s[..|s| - 1] == NatToString(n / 10);
      assert s[|s| - 1] == DigitChar(n % 10);
    }
  }

  function Zeros(k: nat): (r: string)
    ensures |r| == k
    ensures forall i :: 0 <= i < k ==> r[i] == '0'
  {
    if k == 0 then "" else "0" + Zeros(k - 1)
  }

  /** Leading zeros do not change the decimal value. */
  lemma {:induction false} LeadingZeros(k: nat, s: string)
    ensures DecimalValue(Zeros(k) + s) == DecimalValue(s)
    decreases |s|, k
  {
    if |s| == 0 {
      assert Zeros(k) + s == Zeros(k);
      if k > 0 {
        assert Zeros(k)[..k - 1] == Zeros(k - 1);
        LeadingZeros(k - 1, s);
        assert Zeros(k - 1) + s == Zeros(k - 1);
      }
    } else {
      var t := Zeros(k) + s;
      assert t[..|t| - 1] == Zeros(k) + s[..|s| - 1];
      assert t[|t| - 1] == s[|s| - 1];
      LeadingZeros(k, s[..|s| - 1]);
    }
  }

  /** `String(n).padStart(3, '0')`. */
  function Pad3(n: nat): (r: string)
    ensures |r| >= 3
  {
    var s := NatToString(n);
    if |s| < 3 then Zeros(3 - |s|) + s else s
  }

  /** The padded counter decodes back to the counter, so distinct counters give distinct texts. */
  lemma Pad3RoundTrip(n: nat)
    ensures DecimalValue(Pad3(n)) == n
  {
    DecimalRoundTrip(n);
    var s := NatToString(n);
    if |s| < 3 {
      LeadingZeros(3 - |s|, s);
    }
  }

  lemma Pad3Injective(n: nat, m: nat)
    requires Pad3(n) == Pad3(m)
    ensures n == m
  {
    Pad3RoundTrip(n);
    Pad3RoundTrip(m);
  }
}
