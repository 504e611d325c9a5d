/**
 * The pieces of PHP's value semantics the module relies on: truthiness of a
 * configuration or request value, the `(int)` cast of a string, the decimal
 * string of an int (as in `'login_as_customer_' . $i`), and ordered arrays
 * (`$a[$k] = $v` keeps insertion order).
 */
module Php {
  import opened Wrappers

  predicate IsDigit(c: char) { '0' <= c <= '9' }

  /** The whitespace PHP skips before a leading-numeric string. */
  predicate IsSpace(c: char) {
    c == ' ' || c == '\t' || c == '\n' || c == '\r' || c as int == 11 || c as int == 12
  }

  predicate AllDigits(s: string) { forall i :: 0 <= i < |s| ==> IsDigit(s[i]) }

  function DigitValue(c: char): nat
    requires IsDigit(c)
  {
    c as int - '0' as int
  }

  function DigitChar(d: nat): (c: char)
    requires d < 10
    ensures IsDigit(c) && DigitValue(c) == d
  {
    ('0' as int + d) as char
  }

  /** Decimal digits of n, most significant first, no leading zero. */
  function Digits(n: nat): (s: string)
    ensures |s| > 0 && AllDigits(s)
  {
    if n < 10 then [DigitChar(n)] else Digits(n / 10) + [DigitChar(n % 10)]
  }

  /** PHP's string form of an int. */
  function IntToString(n: int): string {
    if n < 0 then "-" + Digits(-n) else Digits(n)
  }

  /** The number a run of decimal digits denotes. */
  function DigitsValue(s: string): nat
    requires AllDigits(s)
  {
    if s == [] then 0 else DigitsValue(s[..|s| - 1]) * 10 + DigitValue(s[|s| - 1])
  }

  /** The longest prefix of s made of decimal digits. */
  function DigitPrefix(s: string): (p: string)
    ensures |p| <= |s| && p == s[..|p|] && AllDigits(p)
    ensures |p| < |s| ==> !IsDigit(s[|p|])
  {
    if s != [] && IsDigit(s[0]) then [s[0]] + DigitPrefix(s[1..]) else []
  }

  function SkipSpace(s: string): (t: string)
    ensures t != [] ==> !IsSpace(t[0])
  {
    if s != [] && IsSpace(s[0]) then SkipSpace(s[1..]) else s
  }

  /**
   * `(int)$s` for a string: leading whitespace, an optional sign, then the
   * digits that follow; a string with no leading digits casts to 0.
   */
  function StringToInt(s: string): int {
    var t := SkipSpace(s);
    if t != [] && t[0] == '-' then -(DigitsValue(DigitPrefix(t[1..])) as int)
    else if t != [] && t[0] == '+' then DigitsValue(DigitPrefix(t[1..]))
    else DigitsValue(DigitPrefix(t))
  }

  /** `(int)$v` for a value that is a string or null; `(int)null` is 0. */
  function IntCast(v: Option<string>): int {
    if v.None? then 0 else StringToInt(v.value)
  }

  /** PHP truthiness of a string-or-null: null, "" and "0" are false. */
  predicate Truthy(v: Option<string>) {
    v.Some? && v.value != "" && v.value != "0"
  }

  lemma {:induction false} DigitPrefixOfDigits(s: string)
    requires AllDigits(s)
    ensures DigitPrefix(s) == s
  {
    if s != [] {
      DigitPrefixOfDigits(s[1..]);
      assert [s[0]] + s[1..] == s;
    }
  }

  lemma {:induction false} DigitsValueOfDigits(n: nat)
    ensures DigitsValue(Digits(n)) == n
  {
    if n >= 10 {
      var s := Digits(n);
      assert s[..|s| - 1] == Digits(n / 10);
      DigitsValueOfDigits(n / 10);
    }
  }

  /** Reading back the decimal string of any int gives the int. */
  lemma IntToStringRoundTrip(n: int)
    ensures StringToInt(IntToString(n)) == n
  {
    var m: nat := if n < 0 then -n else n;
    var d := Digits(m);
    DigitPrefixOfDigits(d);
    DigitsValueOfDigits(m);
    if n < 0 {
      assert SkipSpace("-" + d) == "-" + d;
      assert ("-" + d)[1..] == d;
    } else {
      assert SkipSpace(d) == d;
    }
  }

  lemma IntToStringInjective(m: int, n: int)
    requires IntToString(m) == IntToString(n)
    ensures m == n
  {
    IntToStringRoundTrip(m);
    IntToStringRoundTrip(n);
  }

  // ---- ordered arrays ------------------------------------------------------

  /** `$a[$k] ?? null` on an array kept as key/value pairs in insertion order. */
  function Get<K(==), V>(a: seq<(K, V)>, k: K): Option<V> {
    if a == [] then None else if a[0].0 == k then Some(a[0].1) else Get(a[1..], k)
  }

  /**
   * `$a[$k] = $v`: a key already present keeps its position and takes the
   * new value; a new key is appended.
   */
  function Put<K(==, !new), V>(a: seq<(K, V)>, k: K, v: V): (b: seq<(K, V)>)
    ensures Get(b, k) == Some(v)
    ensures forall j :: j != k ==> Get(b, j) == Get(a, j)
    ensures Get(a, k).None? ==> b == a + [(k, v)]
    ensures Get(a, k).Some? ==> |b| == |a|
    ensures forall i :: 0 <= i < |a| && a[i].0 == k && (forall j :: 0 <= j < i ==> a[j].0 != k) ==> b == a[i := (k, v)]
  {
    if a == [] then [(k, v)]
    else if a[0].0 == k then [(k, v)] + a[1..]
    else
      var b := [a[0]] + Put(a[1..], k, v);
      assert b[1..] == Put(a[1..], k, v);
      assert Get(a, k).None? ==> a + [(k, v)] == [a[0]] + (a[1..] + [(k, v)]);
      b
  }

  /** A run of `$a[$k] = $v` assignments, in order. */
  function PutAll<K(==, !new), V>(a: seq<(K, V)>, entries: seq<(K, V)>): seq<(K, V)>
    decreases |entries|
  {
    if entries == [] then a
    else
      var last := entries[|entries| - 1];
      Put(PutAll(a, entries[..|entries| - 1]), last.0, last.1)
  }

  predicate DistinctKeys<K(==), V>(entries: seq<(K, V)>) {
    forall i, j :: 0 <= i < j < |entries| ==> entries[i].0 != entries[j].0
  }

  /**
   * After assigning entries with distinct keys, each of their keys reads its
   * own value and every other key reads what it read before.
   */
  lemma {:induction false} GetPutAll<K(!new), V>(a: seq<(K, V)>, entries: seq<(K, V)>)
    requires DistinctKeys(entries)
    ensures forall i :: 0 <= i < |entries| ==> Get(PutAll(a, entries), entries[i].0) == Some(entries[i].1)
    ensures forall k :: (forall i :: 0 <= i < |entries| ==> entries[i].0 != k) ==> Get(PutAll(a, entries), k) == Get(a, k)
    decreases |entries|
  {
    if entries != [] {
      var n := |entries| - 1;
      var init := entries[..n];
      assert DistinctKeys(init);
      GetPutAll(a, init);
      forall i | 0 <= i < |entries|
        ensures Get(PutAll(a, entries), entries[i].0) == Some(entries[i].1)
      {
        if i < n {
          assert init[i] == entries[i];
          assert entries[i].0 != entries[n].0;
        }
      }
      forall k | forall i :: 0 <= i < |entries| ==> entries[i].0 != k
        ensures Get(PutAll(a, entries), k) == Get(a, k)
      {
        assert entries[n].0 != k;
        assert forall i :: 0 <= i < |init| ==> init[i] == entries[i];
      }
    }
  }

  /** Every key stored in the array reads back some value. */
  lemma {:induction false} GetStoredKey<K, V>(a: seq<(K, V)>, i: int)
    requires 0 <= i < |a|
    ensures Get(a, a[i].0).Some?
    decreases |a|
  {
    if i > 0 && a[0].0 != a[i].0 {
      assert a[1..][i - 1] == a[i];
      GetStoredKey(a[1..], i - 1);
    }
  }
}
