/** The part of PHP's value model the two plugins rely on: scalars, ordered
    arrays with int/string keys, `empty()`, `isset()` and the `??` operator. */
module Php {

  datatype Option<T> = None | Some(value: T)

  /** An array key. PHP stores a canonical decimal string key as an integer. */
  datatype Key = IntKey(n: int) | StrKey(s: string)

  /** A PHP value. Floats are opaque numbers: no float arithmetic is modelled. */
  datatype Value =
    | Null
    | Bool(b: bool)
    | Int(i: int)
    | Float(f: real)
    | Str(s: string)
    | Arr(entries: seq<Entry>)

  /** One key => value pair of an array; arrays keep insertion order. */
  datatype Entry = Entry(key: Key, val: Value)

  const PhpIntMax: int := 0x7FFF_FFFF_FFFF_FFFF

  /* ---------------------------------------------------------------------
     Decimal digits
     --------------------------------------------------------------------- */

  predicate IsDigit(c: char) { '0' <= c <= '9' }

  predicate AllDigits(s: string) { forall i :: 0 <= i < |s| ==> IsDigit(s[i]) }

  function DigitsValue(s: string): nat
    requires AllDigits(s)
    decreases |s|
  {
    if s == [] then 0 else DigitsValue(s[..|s| - 1]) * 10 + (s[|s| - 1] as int - '0' as int)
  }

  /** A decimal without superfluous leading zeros. */
  predicate CanonicalNat(s: string)
  {
    |s| > 0 && AllDigits(s) && (s[0] == '0' ==> |s| == 1)
  }

  function DigitChar(d: nat): (c: char)
    requires d < 10
    ensures IsDigit(c) && c as int - '0' as int == d
  {
    ('0' as int + d) as char
  }

  /** The decimal text of a natural number, as PHP's string cast writes it. */
  function NatToString(n: nat): (s: string)
    ensures CanonicalNat(s) && DigitsValue(s) == n
    decreases n
  {
    if n < 10 then [DigitChar(n)]
    else
      var p := NatToString(n / 10);
      var s := p + [DigitChar(n % 10)];
      assert s[..|s| - 1] == p;
      s
  }

  function IntToString(i: int): string
  {
    if i < 0 then "-" + NatToString(-i) else NatToString(i)
  }

  /** The key PHP actually stores for `k`: "12345" becomes 12345, "012" stays a string. */
  function Norm(k: Key): (r: Key)
    ensures r.IntKey? || r == k
  {
    match k
    case IntKey(_) => k
    case StrKey(s) =>
      if !(|s| > 0 && (IsDigit(s[0]) || s[0] == '-')) then k
      else if CanonicalNat(s) && DigitsValue(s) <= PhpIntMax then IntKey(DigitsValue(s))
      else if |s| > 1 && s[0] == '-' && CanonicalNat(s[1..]) && s[1] != '0' && DigitsValue(s[1..]) <= PhpIntMax
      then IntKey(0 - DigitsValue(s[1..]) as int)
      else k
  }

  /** A key text that PHP keeps as a string key. */
  predicate NonNumericKey(s: string)
  {
    |s| > 0 && !IsDigit(s[0]) && s[0] != '-'
  }

  lemma NormNonNumeric(s: string)
    requires NonNumericKey(s)
    ensures Norm(StrKey(s)) == StrKey(s)
  {
  }

  /** The text of a key, as `(string)$key` gives it. */
  function KeyText(k: Key): string
  {
    match k
    case IntKey(n) => IntToString(n)
    case StrKey(s) => s
  }

  /* ---------------------------------------------------------------------
     Arrays as ordered association lists
     --------------------------------------------------------------------- */

  /** `$a[$k]` for a key that is present, else None. */
  function Get(a: seq<Entry>, k: Key): Option<Value>
  {
    if a == [] then None
    else if Norm(a[0].key) == Norm(k) then Some(a[0].val)
    else Get(a[1..], k)
  }

  lemma {:induction false} GetSome(a: seq<Entry>, k: Key)
    ensures Get(a, k).Some? <==> exists i :: 0 <= i < |a| && Norm(a[i].key) == Norm(k)
    ensures Get(a, k).Some? ==> exists i :: 0 <= i < |a| && Norm(a[i].key) == Norm(k) && a[i].val == Get(a, k).value
  {
    if a != [] && Norm(a[0].key) != Norm(k) {
      GetSome(a[1..], k);
      assert forall i :: 0 < i < |a| ==> a[i] == a[1..][i - 1];
    }
  }

  /** `$a[$k] = $v`: overwrite in place if the key is there, else append. */
  function Put(a: seq<Entry>, k: Key, v: Value): (r: seq<Entry>)
    ensures |r| == |a| || |r| == |a| + 1
  {
    if a == [] then [Entry(Norm(k), v)]
    else if Norm(a[0].key) == Norm(k) then [Entry(a[0].key, v)] + a[1..]
    else [a[0]] + Put(a[1..], k, v)
  }

  lemma {:induction false} GetPut(a: seq<Entry>, k: Key, v: Value, k': Key)
    ensures Get(Put(a, k, v), k') == if Norm(k') == Norm(k) then Some(v) else Get(a, k')
  {
    if a != [] {
      var r := Put(a, k, v);
      if Norm(a[0].key) == Norm(k) {
        assert r[1..] == a[1..];
      } else {
        assert r[1..] == Put(a[1..], k, v);
        GetPut(a[1..], k, v, k');
      }
    }
  }

  /** A lookup depends on the key only through the key PHP stores. */
  lemma {:induction false} GetNorm(a: seq<Entry>, k: Key)
    ensures Norm(Norm(k)) == Norm(k)
    ensures Get(a, k) == Get(a, Norm(k))
  {
    if a != [] {
      GetNorm(a[1..], k);
    }
  }

  /** Looking up in a concatenation finds the first part's entry if there is one. */
  lemma {:induction false} GetAppend(a: seq<Entry>, b: seq<Entry>, k: Key)
    ensures Get(a + b, k) == if Get(a, k).Some? then Get(a, k) else Get(b, k)
  {
    if a == [] {
      assert a + b == b;
    } else {
      assert (a + b)[0] == a[0];
      assert (a + b)[1..] == a[1..] + b;
      GetAppend(a[1..], b, k);
    }
  }

  /** No two entries share a (normalised) key, as in every array PHP builds. */
  predicate DistinctKeys(a: seq<Entry>)
  {
    forall i, j :: 0 <= i < j < |a| ==> Norm(a[i].key) != Norm(a[j].key)
  }

  lemma {:induction false} GetDistinct(a: seq<Entry>, i: int)
    requires DistinctKeys(a) && 0 <= i < |a|
    ensures Get(a, a[i].key) == Some(a[i].val)
  {
    if i > 0 {
      assert Norm(a[0].key) != Norm(a[i].key);
      assert a[1..][i - 1] == a[i];
      GetDistinct(a[1..], i - 1);
    }
  }

  /** Distinct key texts that PHP keeps as strings: the field names of a record. */
  predicate FieldNames(names: seq<string>)
  {
    (forall i :: 0 <= i < |names| ==> NonNumericKey(names[i]))
      && forall i, j :: 0 <= i < j < |names| ==> names[i] != names[j]
  }

  /** The array `[names[0] => vals[0], names[1] => vals[1], ...]`. */
  function Record(names: seq<string>, vals: seq<Value>): (r: seq<Entry>)
    requires |names| == |vals|
    ensures |r| == |names| && forall i :: 0 <= i < |r| ==> r[i] == Entry(StrKey(names[i]), vals[i])
  {
    seq(|names|, i requires 0 <= i < |names| => Entry(StrKey(names[i]), vals[i]))
  }

  lemma {:induction false} RecordGet(names: seq<string>, vals: seq<Value>, k: string)
    requires |names| == |vals| && FieldNames(names) && NonNumericKey(k)
    ensures Get(Record(names, vals), StrKey(k)) == if k in names then Some(vals[IndexOf(names, k)]) else None
  {
    var r := Record(names, vals);
    NormNonNumeric(k);
    forall i | 0 <= i < |names| ensures Norm(r[i].key) == StrKey(names[i]) { NormNonNumeric(names[i]); }
    if k in names {
      GetDistinct(r, IndexOf(names, k));
    } else {
      GetSome(r, StrKey(k));
    }
  }

  /** The position of `x` in `s`. */
  function IndexOf<T(==)>(s: seq<T>, x: T): (i: nat)
    requires x in s
    ensures i < |s| && s[i] == x && x !in s[..i]
  {
    if s[0] == x then 0 else 1 + IndexOf(s[1..], x)
  }

  /** A PHP list `[v0, v1, ...]`: integer keys 0, 1, ... */
  function List(vs: seq<Value>): (r: Value)
    ensures r.Arr? && |r.entries| == |vs|
    ensures forall i :: 0 <= i < |vs| ==> r.entries[i] == Entry(IntKey(i), vs[i])
  {
    Arr(seq(|vs|, i requires 0 <= i < |vs| => Entry(IntKey(i), vs[i])))
  }

  /** The values of the array entries, in order (`array_values`). */
  function Values(a: seq<Entry>): (r: seq<Value>)
    ensures |r| == |a| && forall i :: 0 <= i < |a| ==> r[i] == a[i].val
  {
    seq(|a|, i requires 0 <= i < |a| => a[i].val)
  }

  /* ---------------------------------------------------------------------
     empty(), isset(), ??
     --------------------------------------------------------------------- */

  /** PHP's `empty()` on a value: null, false, 0, 0.0, "", "0" and [] are empty. */
  predicate Empty(v: Value)
  {
    match v
    case Null => true
    case Bool(b) => !b
    case Int(i) => i == 0
    case Float(f) => f == 0.0
    case Str(s) => s == "" || s == "0"
    case Arr(a) => a == []
  }

  /** A value that PHP converts to `true`. */
  predicate Truthy(v: Value) { !Empty(v) }

  /** `$v[$k] ?? null`: reading a key of a non-array, or a missing key, gives null. */
  function Index(v: Value, k: Key): Value
  {
    if v.Arr? then (match Get(v.entries, k) case Some(x) => x case None => Null) else Null
  }

  /** `isset($v[$k])`. */
  predicate IsSet(v: Value, k: Key) { Index(v, k) != Null }

  /** `$a ?? $b`. */
  function Coalesce(a: Value, b: Value): Value { if a != Null then a else b }

  lemma IndexList(vs: seq<Value>, s: string)
    requires NonNumericKey(s)
    ensures Index(List(vs), StrKey(s)) == Null
  {
    NormNonNumeric(s);
    var l := List(vs);
    GetSome(l.entries, StrKey(s));
    assert forall i :: 0 <= i < |l.entries| ==> Norm(l.entries[i].key).IntKey?;
  }

  /* ---------------------------------------------------------------------
     Strings, as sequences of characters
     --------------------------------------------------------------------- */

  predicate StartsWith(s: string, p: string) { |p| <= |s| && s[..|p|] == p }

  predicate EndsWith(s: string, p: string) { |p| <= |s| && s[|s| - |p|..] == p }

  /** `strpos($s, $p) !== false`. */
  predicate Contains(s: string, p: string)
  {
    exists i :: 0 <= i <= |s| - |p| && OccursAt(s, p, i)
  }

  predicate OccursAt(s: string, p: string, i: int)
  {
    0 <= i <= |s| - |p| && s[i..i + |p|] == p
  }

  predicate IsUpper(c: char) { 'A' <= c <= 'Z' }

  predicate IsLower(c: char) { 'a' <= c <= 'z' }

  function UpperChar(c: char): char
  {
    if IsLower(c) then (c as int - 32) as char else c
  }

  function LowerChar(c: char): char
  {
    if IsUpper(c) then (c as int + 32) as char else c
  }

  /** `strtoupper`: ASCII letters only. */
  function ToUpper(s: string): (r: string)
    ensures |r| == |s| && forall i :: 0 <= i < |s| ==> r[i] == UpperChar(s[i])
  {
    seq(|s|, i requires 0 <= i < |s| => UpperChar(s[i]))
  }

  /** `strtolower`: ASCII letters only. */
  function ToLower(s: string): (r: string)
    ensures |r| == |s| && forall i :: 0 <= i < |s| ==> r[i] == LowerChar(s[i])
  {
    seq(|s|, i requires 0 <= i < |s| => LowerChar(s[i]))
  }

  /** `substr($s, 0, $n)`. */
  function Prefix(s: string, n: nat): (r: string)
    ensures |r| == if |s| < n then |s| else n
    ensures r == s[..|r|]
  {
    if |s| <= n then s else s[..n]
  }

  /** Keeps the characters that satisfy `keep`, in order (a `preg_replace` deleting a character class). */
  function Filter(s: string, keep: char -> bool): (r: string)
    ensures |r| <= |s|
    ensures forall i :: 0 <= i < |r| ==> keep(r[i])
    decreases |s|
  {
    if s == [] then []
    else (if keep(s[0]) then [s[0]] else []) + Filter(s[1..], keep)
  }
}
