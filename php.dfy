/**
 * The PHP values the dispatcher passes around: scalars and ordered arrays.
 *
 * A PHP array is an ordered dictionary; it is modelled as a sequence of
 * key/value entries in insertion order. Reading a key takes its first entry,
 * writing a key replaces that entry in place or appends a new one, which is
 * what `$a[$k] = $v` does.
 */
module Php {
  import opened Wrappers

  datatype Key = IntKey(n: int) | StrKey(s: string)

  datatype Value =
    | Null
    | Bool(b: bool)
    | Int(i: int)
    | Float(r: real)
    | Str(s: string)
    | Arr(entries: seq<Entry>)

  datatype Entry = Entry(key: Key, val: Value)

  /** The exceptions that can leave a call. */
  datatype Throwable =
    | LarAIException(message: string)
    | UnsupportedFeatureException(message: string)
    | TypeError(message: string)
      /** an engine error other than a type error */
    | Error(message: string)
      /** anything a provider's transport throws */
    | ProviderException(message: string)

  /* ---------------------------------------------------------------- arrays */

  function KeysInOrder(a: seq<Entry>): (ks: seq<Key>)
    ensures |ks| == |a|
    ensures forall i :: 0 <= i < |a| ==> ks[i] == a[i].key
  {
    seq(|a|, i requires 0 <= i < |a| => a[i].key)
  }

  /** `$a[$k]` when the key is present: the value of its first entry. */
  function Get(a: seq<Entry>, k: Key): (r: Option<Value>)
    ensures r.Some? ==> Entry(k, r.value) in a
    ensures r.None? <==> forall i :: 0 <= i < |a| ==> a[i].key != k
  {
    if a == [] then None
    else if a[0].key == k then Some(a[0].val)
    else
      var r := Get(a[1..], k);
      assert r.None? ==> forall i :: 1 <= i < |a| ==> a[i].key == a[1..][i - 1].key;
      r
  }

  /** `array_key_exists($k, $a)`: present, even with a null value. */
  predicate Has(a: seq<Entry>, k: Key) {
    Get(a, k).Some?
  }

  /** `$a[$k] = $v`: overwrite the entry in place, or append a new one. */
  function Set(a: seq<Entry>, k: Key, v: Value): (r: seq<Entry>)
    ensures Get(r, k) == Some(v)
    ensures forall j :: j != k ==> Get(r, j) == Get(a, j)
  {
    if a == [] then [Entry(k, v)]
    else if a[0].key == k then [Entry(k, v)] + a[1..]
    else [a[0]] + Set(a[1..], k, v)
  }

  /** A non-empty sequence is its head followed by its rest. */
  lemma HeadRest<T>(a: seq<T>)
    requires a != []
    ensures [a[0]] + a[1..] == a
  {
  }

  /** A non-empty sequence is its front followed by its last element. */
  lemma FrontLast<T>(a: seq<T>)
    requires a != []
    ensures a[..|a| - 1] + [a[|a| - 1]] == a
  {
  }

  /** Writing a present key overwrites one entry and keeps every key in its place. */
  lemma {:induction false} SetKeys(a: seq<Entry>, k: Key, v: Value)
    requires Has(a, k)
    ensures |Set(a, k, v)| == |a|
    ensures forall i :: 0 <= i < |a| ==> Set(a, k, v)[i].key == a[i].key
  {
    if a[0].key != k {
      var t := Set(a[1..], k, v);
      SetKeys(a[1..], k, v);
      forall i | 0 <= i < |a|
        ensures Set(a, k, v)[i].key == a[i].key
      {
        if i > 0 {
          assert Set(a, k, v)[i] == t[i - 1];
        }
      }
    }
  }

  /** Writing a missing key appends its entry. */
  lemma {:induction false} SetAppend(a: seq<Entry>, k: Key, v: Value)
    requires !Has(a, k)
    ensures Set(a, k, v) == a + [Entry(k, v)]
  {
    if a == [] {
      assert a + [Entry(k, v)] == [Entry(k, v)];
    } else {
      var e := Entry(k, v);
      SetAppend(a[1..], k, v);
      calc {
        Set(a, k, v);
        [a[0]] + (a[1..] + [e]);
        ([a[0]] + a[1..]) + [e];
      == { HeadRest(a); }
        a + [e];
      }
    }
  }

  /** Writing a present key keeps every key where it was; a new key goes last. */
  lemma SetShape(a: seq<Entry>, k: Key, v: Value)
    ensures Has(a, k) ==> KeysInOrder(Set(a, k, v)) == KeysInOrder(a)
    ensures !Has(a, k) ==> Set(a, k, v) == a + [Entry(k, v)]
  {
    if Has(a, k) {
      SetKeys(a, k, v);
      var ks, ks' := KeysInOrder(a), KeysInOrder(Set(a, k, v));
      assert forall i :: 0 <= i < |ks| ==> ks'[i] == ks[i];
    } else {
      SetAppend(a, k, v);
    }
  }

  /** The entry at `i` is the one read when no earlier entry has its key. */
  lemma {:induction false} GetFirst(a: seq<Entry>, i: nat)
    requires i < |a| && forall j :: 0 <= j < i ==> a[j].key != a[i].key
    ensures Get(a, a[i].key) == Some(a[i].val)
  {
    if i > 0 {
      GetFirst(a[1..], i - 1);
    }
  }

  /** Writing the value a key already holds changes nothing. */
  lemma {:induction false} SetSame(a: seq<Entry>, k: Key, v: Value)
    requires Get(a, k) == Some(v)
    ensures Set(a, k, v) == a
  {
    if a[0].key != k {
      SetSame(a[1..], k, v);
    }
  }

  /** `$a[$k] ?? $d`: the default when the key is missing or holds null. */
  function Coalesce(a: seq<Entry>, k: Key, d: Value): (r: Value)
    ensures Get(a, k).Some? && Get(a, k).value != Null ==> r == Get(a, k).value
    ensures Get(a, k).None? || Get(a, k) == Some(Null) ==> r == d
  {
    match Get(a, k)
    case Some(v) => if v == Null then d else v
    case None => d
  }

  /** Writing one key leaves `??` on another as it was. */
  lemma CoalesceSetOther(a: seq<Entry>, k: Key, v: Value, j: Key, d: Value)
    requires j != k
    ensures Coalesce(Set(a, k, v), j, d) == Coalesce(a, j, d)
  {
  }

  /** Laravel's `Arr::get($a, $k, $d)`: the default only when the key is missing. */
  function ArrGet(a: seq<Entry>, k: Key, d: Value): (r: Value)
    ensures Has(a, k) ==> r == Get(a, k).value
    ensures !Has(a, k) ==> r == d
  {
    Get(a, k).GetOr(d)
  }

  /** Laravel's `Arr::except($a, $ks)`: drop the listed keys, keep the order. */
  function Except(a: seq<Entry>, ks: set<Key>): (r: seq<Entry>)
    ensures forall k :: k in ks ==> Get(r, k).None?
    ensures forall k :: k !in ks ==> Get(r, k) == Get(a, k)
    ensures forall e :: e in r ==> e in a
  {
    if a == [] then []
    else if a[0].key in ks then Except(a[1..], ks)
    else [a[0]] + Except(a[1..], ks)
  }

  /** A PHP list `[$v0, $v1, ...]`. */
  function ListOf(vs: seq<Value>): (r: seq<Entry>)
    ensures |r| == |vs|
    ensures forall i :: 0 <= i < |vs| ==> r[i] == Entry(IntKey(i), vs[i])
  {
    seq(|vs|, i requires 0 <= i < |vs| => Entry(IntKey(i), vs[i]))
  }

  /** The values of an array in order (`array_values`). */
  function ValuesOf(a: seq<Entry>): (r: seq<Value>)
    ensures |r| == |a|
    ensures forall i :: 0 <= i < |a| ==> r[i] == a[i].val
  {
    seq(|a|, i requires 0 <= i < |a| => a[i].val)
  }

  function StrGet(a: seq<Entry>, k: string): Option<Value> {
    Get(a, StrKey(k))
  }

  /* ----------------------------------------------------------- conversions */

  /** PHP truthiness: null, false, 0, 0.0, "", "0" and [] are falsy. */
  predicate Truthy(v: Value) {
    match v
    case Null => false
    case Bool(b) => b
    case Int(i) => i != 0
    case Float(r) => r != 0.0
    case Str(s) => s != "" && s != "0"
    case Arr(es) => es != []
  }

  predicate IsArray(v: Value) {
    v.Arr?
  }

  /** `(array) $v`. */
  function ToArray(v: Value): (r: seq<Entry>)
    ensures v.Arr? ==> r == v.entries
    ensures v == Null ==> r == []
  {
    match v
    case Arr(es) => es
    case Null => []
    case _ => [Entry(IntKey(0), v)]
  }

  /** `(string) $v`. */
  function StringOf(v: Value): string {
    match v
    case Null => ""
    case Bool(b) => if b then "1" else ""
    case Int(i) => IntText(i)
    case Float(r) => FloatText(r)
    case Str(s) => s
    case Arr(_) => "Array"
  }

  /** `(int) $v`. */
  function IntOf(v: Value): int {
    match v
    case Null => 0
    case Bool(b) => if b then 1 else 0
    case Int(i) => i
    case Float(r) => Truncate(r)
    case Str(s) => Truncate(LeadingReal(s))
    case Arr(es) => if es == [] then 0 else 1
  }

  /** `floatval($v)`. */
  function FloatOf(v: Value): real {
    match v
    case Null => 0.0
    case Bool(b) => if b then 1.0 else 0.0
    case Int(i) => i as real
    case Float(r) => r
    case Str(s) => LeadingReal(s)
    case Arr(es) => if es == [] then 0.0 else 1.0
  }

  /** The array key a value denotes when used as an offset; arrays are illegal offsets. */
  function AsOffset(v: Value): Option<Key> {
    match v
    case Null => Some(StrKey(""))
    case Bool(b) => Some(IntKey(if b then 1 else 0))
    case Int(i) => Some(IntKey(i))
    case Float(r) => Some(IntKey(Truncate(r)))
    case Str(s) => Some(StrKey(s))
    case Arr(_) => None
  }

  /** Conversion of a float to int, rounding toward zero. */
  function Truncate(r: real): (n: int)
    ensures r >= 0.0 ==> n as real <= r < n as real + 1.0
    ensures r < 0.0 ==> n as real - 1.0 < r <= n as real
  {
    if r >= 0.0 then r.Floor else -((-r).Floor)
  }

  /* --------------------------------------------------------------- strings */

  /** Decimal text of an integer. */
  function IntText(i: int): (s: string)
    ensures s != []
    decreases if i < 0 then -i + 1 else i
  {
    if i < 0 then "-" + IntText(-i)
    else if i < 10 then [DigitChar(i)]
    else IntText(i / 10) + [DigitChar(i % 10)]
  }

  /** The text of a non-negative integer starts with a digit. */
  lemma {:induction false} IntTextDigitFirst(i: int)
    requires i >= 0
    ensures IsDigit(IntText(i)[0])
  {
    if i >= 10 {
      IntTextDigitFirst(i / 10);
    }
  }

  /** Different non-negative integers have different texts. */
  lemma {:induction false} NatTextInjective(a: nat, b: nat)
    requires IntText(a) == IntText(b)
    ensures a == b
  {
    if a >= 10 && b >= 10 {
      var ta := IntText(a / 10);
      var tb := IntText(b / 10);
      assert IntText(a) == ta + [DigitChar(a % 10)] && IntText(b) == tb + [DigitChar(b % 10)];
      assert ta == IntText(a)[..|ta|] && tb == IntText(b)[..|tb|];
      NatTextInjective(a / 10, b / 10);
    }
  }

  /** Different integers have different texts. */
  lemma IntTextInjective(a: int, b: int)
    requires IntText(a) == IntText(b)
    ensures a == b
  {
    if a < 0 && b < 0 {
      assert IntText(-a) == IntText(a)[1..];
      assert IntText(-b) == IntText(b)[1..];
      NatTextInjective(-a, -b);
    } else if a < 0 {
      IntTextDigitFirst(b);
    } else if b < 0 {
      IntTextDigitFirst(a);
    } else {
      NatTextInjective(a, b);
    }
  }

  function DigitChar(d: int): char
    requires 0 <= d < 10
  {
    ('0' as int + d) as char
  }

  predicate IsDigit(c: char) {
    '0' <= c <= '9'
  }

  /** The whitespace PHP skips before a numeric string. */
  predicate IsSpace(c: char) {
    c == ' ' || c == '\t' || c == '\n' || c == '\r' || c as int == 11 || c as int == 12
  }

  function SkipSpaces(s: string, i: nat): (j: nat)
    requires i <= |s|
    ensures i <= j <= |s|
    ensures forall k :: i <= k < j ==> IsSpace(s[k])
    ensures j < |s| ==> !IsSpace(s[j])
    decreases |s| - i
  {
    if i < |s| && IsSpace(s[i]) then SkipSpaces(s, i + 1) else i
  }

  function SkipDigits(s: string, i: nat): (j: nat)
    requires i <= |s|
    ensures i <= j <= |s|
    ensures forall k :: i <= k < j ==> IsDigit(s[k])
    ensures j < |s| ==> !IsDigit(s[j])
    decreases |s| - i
  {
    if i < |s| && IsDigit(s[i]) then SkipDigits(s, i + 1) else i
  }

  /** The value of the decimal digits `s[i..j]`. */
  function DigitsValue(s: string, i: nat, j: nat): (n: nat)
    requires i <= j <= |s|
    requires forall k :: i <= k < j ==> IsDigit(s[k])
    decreases j - i
  {
    if i == j then 0
    else
      assert IsDigit(s[j - 1]);
      10 * DigitsValue(s, i, j - 1) + ((s[j - 1] as int) - ('0' as int)) as nat
  }

  function Pow10(n: nat): (p: nat)
    ensures p >= 1
  {
    if n == 0 then 1 else 10 * Pow10(n - 1)
  }

  /** Index after an optional sign at `i`, and whether the sign was a minus. */
  function SkipSign(s: string, i: nat): (r: (nat, bool))
    requires i <= |s|
    ensures i <= r.0 <= |s|
  {
    if i < |s| && (s[i] == '+' || s[i] == '-') then (i + 1, s[i] == '-') else (i, false)
  }

  /** The exponent `[eE][+-]?digits` at `e`, if one is there. */
  function Exponent(s: string, e: nat): Option<int>
    requires e <= |s|
  {
    if e < |s| && (s[e] == 'e' || s[e] == 'E') then
      var (p, neg) := SkipSign(s, e + 1);
      var q := SkipDigits(s, p);
      if q > p then
        var x: int := DigitsValue(s, p, q);
        Some(if neg then -x else x)
      else None
    else None
  }

  /**
   * The number a string starts with, as `floatval("1.5e3abc")` reads it:
   * leading whitespace, a sign, digits, a fraction and an exponent, with
   * at least one digit before the exponent; 0 when there is none.
   */
  function LeadingReal(s: string): real {
    var i := SkipSpaces(s, 0);
    var (j, neg) := SkipSign(s, i);
    var k := SkipDigits(s, j);
    var whole := DigitsValue(s, j, k) as real;
    var (m, mantissa) :=
      if k < |s| && s[k] == '.' then
        var m := SkipDigits(s, k + 1);
        (m, whole + DigitsValue(s, k + 1, m) as real / Pow10(m - k - 1) as real)
      else (k, whole);
    var exponent := if k > j || m > k + 1 then Exponent(s, m) else None;
    var r := if exponent.Some? then Shift(mantissa, exponent.value) else mantissa;
    if neg then -r else r
  }

  /** The digits of `t` sit at offset `o` of `s`: they read as the same number. */
  lemma {:induction false} DigitsValueAt(s: string, t: string, o: nat, j: nat)
    requires o + j <= |s| && j <= |t|
    requires forall k :: 0 <= k < j ==> s[o + k] == t[k]
    requires forall k :: 0 <= k < j ==> IsDigit(t[k])
    requires forall k :: o <= k < o + j ==> IsDigit(s[k])
    ensures DigitsValue(s, o, o + j) == DigitsValue(t, 0, j)
  {
    if j > 0 {
      DigitsValueAt(s, t, o, j - 1);
      assert s[o + j - 1] == t[j - 1];
    }
  }

  /** The text of a natural number is all digits, and they read back as the number. */
  lemma {:induction false} NatTextDigits(n: nat)
    ensures forall k :: 0 <= k < |IntText(n)| ==> IsDigit(IntText(n)[k])
    ensures DigitsValue(IntText(n), 0, |IntText(n)|) == n
  {
    var s := IntText(n);
    if n >= 10 {
      var t := IntText(n / 10);
      NatTextDigits(n / 10);
      assert s == t + [DigitChar(n % 10)];
      assert forall k :: 0 <= k < |t| ==> s[k] == t[k];
      DigitsValueAt(s, t, 0, |t|);
    }
  }

  /** A string of digits is read to its end. */
  lemma AllDigitsRead(s: string, j: nat)
    requires j <= |s|
    requires forall k :: j <= k < |s| ==> IsDigit(s[k])
    ensures SkipDigits(s, j) == |s|
  {
  }

  /**
   * A string that is an optional sign at `i` and then digits to its end
   * reads as the number the digits spell, negated after a minus.
   */
  lemma LeadingRealOfDigits(s: string, i: nat)
    requires i <= 1 && i < |s| && !IsSpace(s[0])
    requires i == 1 <==> s[0] == '-'
    requires forall k :: i <= k < |s| ==> IsDigit(s[k])
    ensures LeadingReal(s) == if i == 1 then -(DigitsValue(s, 1, |s|) as real) else DigitsValue(s, 0, |s|) as real
  {
    assert SkipSpaces(s, 0) == 0;
    assert SkipSign(s, 0) == (i, i == 1);
    AllDigitsRead(s, i);
    assert Exponent(s, |s|) == None;
  }

  lemma LeadingRealOfNatText(n: nat)
    ensures LeadingReal(IntText(n)) == n as real
  {
    NatTextDigits(n);
    IntTextDigitFirst(n);
    LeadingRealOfDigits(IntText(n), 0);
  }

  lemma LeadingRealOfNegText(n: int)
    requires n < 0
    ensures LeadingReal(IntText(n)) == n as real
  {
    NegTextDigits(n);
    LeadingRealOfDigits(IntText(n), 1);
  }

  /** The text of a negative number is a minus and then the digits of its magnitude. */
  lemma NegTextDigits(n: int)
    requires n < 0
    ensures var s := IntText(n);
      && 1 < |s| && s[0] == '-'
      && (forall k :: 1 <= k < |s| ==> IsDigit(s[k]))
      && DigitsValue(s, 1, |s|) == -n
  {
    var a: nat := -n;
    var u := IntText(a);
    NatTextDigits(a);
    assert IntText(n) == ['-'] + u;
    PrefixedDigits('-', u);
  }

  /** Digits after a one-character prefix read as they do alone. */
  lemma PrefixedDigits(c: char, u: string)
    requires forall k :: 0 <= k < |u| ==> IsDigit(u[k])
    ensures var s := [c] + u;
      && (forall k :: 1 <= k < |s| ==> IsDigit(s[k]))
      && DigitsValue(s, 1, |s|) == DigitsValue(u, 0, |u|)
  {
    var s := [c] + u;
    assert forall k :: 1 <= k < |s| ==> s[k] == u[k - 1];
    DigitsValueAt(s, u, 1, |u|);
  }

  /** `(float) (string) $n == $n`: the decimal text of an integer reads back as that integer. */
  lemma LeadingRealOfIntText(n: int)
    ensures LeadingReal(IntText(n)) == n as real
  {
    if n >= 0 {
      LeadingRealOfNatText(n);
    } else {
      LeadingRealOfNegText(n);
    }
  }

  /** `(int) (string) $n == $n`. */
  lemma IntOfIntText(n: int)
    ensures IntOf(Str(IntText(n))) == n
  {
    LeadingRealOfIntText(n);
  }

  /* ------------------------------------------------------------ float text */

  /** `r` times ten to the power `x`. */
  function Shift(r: real, x: int): real
    decreases if x < 0 then -x else x
  {
    if x == 0 then r else if x > 0 then 10.0 * Shift(r, x - 1) else Shift(r, x + 1) / 10.0
  }

  lemma ShiftStep(r: real, x: int)
    ensures Shift(r, x + 1) == 10.0 * Shift(r, x)
  {
  }

  /** Shifting by `x` and then by `y` is shifting by `x + y`. */
  lemma {:induction false} ShiftAdd(r: real, x: int, y: int)
    ensures Shift(Shift(r, x), y) == Shift(r, x + y)
    decreases if y < 0 then -y else y
  {
    if y > 0 {
      ShiftAdd(r, x, y - 1);
      ShiftStep(r, x + y - 1);
    } else if y < 0 {
      ShiftAdd(r, x, y + 1);
      ShiftStep(r, x + y);
    }
  }

  /** Shifting is linear. */
  lemma {:induction false} ShiftLinear(a: real, b: real, c: real, x: int)
    ensures Shift(a + b - c, x) == Shift(a, x) + Shift(b, x) - Shift(c, x)
    ensures Shift(a / 2.0, x) == Shift(a, x) / 2.0
    decreases if x < 0 then -x else x
  {
    if x > 0 {
      ShiftLinear(a, b, c, x - 1);
    } else if x < 0 {
      ShiftLinear(a, b, c, x + 1);
    }
  }

  /** Shifting keeps the order of reals. */
  lemma {:induction false} ShiftMonotone(a: real, b: real, x: int)
    ensures a <= b ==> Shift(a, x) <= Shift(b, x)
    ensures a < b ==> Shift(a, x) < Shift(b, x)
    decreases if x < 0 then -x else x
  {
    if x > 0 {
      ShiftMonotone(a, b, x - 1);
    } else if x < 0 {
      ShiftMonotone(a, b, x + 1);
    }
  }

  lemma {:induction false} ShiftZero(x: int)
    ensures Shift(0.0, x) == 0.0
    decreases if x < 0 then -x else x
  {
    if x > 0 {
      ShiftZero(x - 1);
    } else if x < 0 {
      ShiftZero(x + 1);
    }
  }

  lemma ShiftPositive(r: real, x: int)
    requires r > 0.0
    ensures Shift(r, x) > 0.0
  {
    ShiftZero(x);
    ShiftMonotone(0.0, r, x);
  }

  /** `n` with `k` zeros appended. */
  function Pad(n: nat, k: nat): (p: nat)
    ensures p >= n
  {
    if k == 0 then n else 10 * Pad(n, k - 1)
  }

  /** A natural number shifted left by `k` places is the number with `k` zeros appended. */
  lemma {:induction false} ShiftNat(n: nat, k: nat)
    ensures Shift(n as real, k) == Pad(n, k) as real
  {
    if k > 0 {
      ShiftNat(n, k - 1);
    }
  }

  lemma {:induction false} PadOne(k: nat)
    ensures Pad(1, k) == Pow10(k)
  {
    if k > 0 {
      PadOne(k - 1);
    }
  }

  lemma {:induction false} ShiftOne(k: nat)
    ensures Shift(1.0, k) == Pow10(k) as real
  {
    if k > 0 {
      ShiftOne(k - 1);
    }
  }

  /** A number below `10^a` with `b` zeros appended stays below `10^(a + b)`. */
  lemma ShiftBelow(w: nat, a: nat, b: nat)
    requires w < Pow10(a)
    ensures Pad(w, b) < Pow10(a + b)
  {
    ShiftMonotone(w as real, Pow10(a) as real, b);
    ShiftNat(w, b);
    ShiftOne(a);
    ShiftOne(a + b);
    ShiftAdd(1.0, a, b);
  }

  /** Powers of ten grow with the exponent. */
  lemma PowersOfTen(x: int, y: int)
    requires x < y
    ensures Shift(1.0, x) < Shift(1.0, y)
  {
    ShiftPositive(1.0, x);
    ShiftAdd(1.0, x, y - x);
    ShiftGrows(Shift(1.0, x), y - x);
  }

  lemma {:induction false} ShiftGrows(r: real, k: nat)
    requires r > 0.0 && k > 0
    ensures Shift(r, k) > r
  {
    if k > 1 {
      ShiftGrows(r, k - 1);
    }
  }

  /** The position of the decimal point of a positive real: `10^(p-1) <= r < 10^p`. */
  function DecimalPoint(r: real): (p: int)
    requires r > 0.0
    ensures Shift(1.0, p - 1) <= r < Shift(1.0, p)
    decreases if r >= 1.0 then 0 else 1, if r >= 1.0 then r.Floor else (1.0 / r).Floor
  {
    if r >= 10.0 then
      var p := DecimalPoint(r / 10.0) + 1;
      ShiftStep(1.0, p - 2);
      ShiftStep(1.0, p - 1);
      p
    else if r >= 1.0 then
      1
    else
      assert r < 0.1 ==> (1.0 / (r * 10.0)).Floor < (1.0 / r).Floor by {
        if r < 0.1 {
          assert 1.0 / (r * 10.0) == (1.0 / r) / 10.0;
          assert 1.0 / r > 10.0;
        }
      }
      var p := DecimalPoint(r * 10.0) - 1;
      ShiftStep(1.0, p - 1);
      ShiftStep(1.0, p);
      p
  }

  /** The point of a real between two adjacent powers of ten is fixed by them. */
  lemma DecimalPointIs(r: real, p: int)
    requires r > 0.0 && Shift(1.0, p - 1) <= r < Shift(1.0, p)
    ensures DecimalPoint(r) == p
  {
    var q := DecimalPoint(r);
    if q < p {
      PowersOfTen(q, p - 1);
    } else if q > p {
      PowersOfTen(p, q - 1);
    }
  }

  /** The nearest integer, a tie going to the even one, as IEEE 754 rounding does. */
  function RoundHalfEven(x: real): (n: int)
    ensures x - 0.5 <= n as real <= x + 0.5
    ensures (n as real == x + 0.5 || n as real == x - 0.5) ==> n % 2 == 0
  {
    var f := x.Floor;
    var d := x - f as real;
    if d > 0.5 || (d == 0.5 && f % 2 == 1) then f + 1 else f
  }

  /** The `precision` setting PHP applies when it turns a float into a string. */
  const Precision: nat := 14

  /**
   * The `Precision` significant digits of a positive real, as an integer
   * `n` of exactly `Precision` digits, and the position `p` of its decimal
   * point: `n * 10^(p - Precision)` is `r` rounded to the nearest multiple
   * of `10^(p - Precision)`.
   */
  function Significand(r: real): (d: (nat, int))
    requires r > 0.0
    ensures Pow10(Precision - 1) <= d.0 < Pow10(Precision)
    ensures Nearest(r, d.0, d.1 - Precision)
  {
    Rounded(r, Precision)
  }

  /** The `w` significant digits of a positive real and the position of its decimal point. */
  function Rounded(r: real, w: nat): (d: (nat, int))
    requires r > 0.0 && w >= 1
    ensures Pow10(w - 1) <= d.0 < Pow10(w)
    ensures Nearest(r, d.0, d.1 - w)
  {
    var p := DecimalPoint(r);
    var m := Shift(r, w - p);
    ScaledToPrecision(r, p, w);
    var n := RoundHalfEven(m);
    RoundedWithin(r, p - w, m, n);
    if n == Pow10(w) then
      Carried(r, p - w, w);
      assert p + 1 - w == p - w + 1;
      (Pow10(w - 1), p + 1)
    else
      (n, p)
  }

  lemma {:induction false} ShiftTen(r: real, x: int)
    ensures Shift(10.0 * r, x) == 10.0 * Shift(r, x)
    decreases if x < 0 then -x else x
  {
    if x > 0 {
      ShiftTen(r, x - 1);
    } else if x < 0 {
      ShiftTen(r, x + 1);
    }
  }

  /** A real with its point at `p`, shifted by `Precision - p`, has `Precision` digits before its point. */
  lemma ScaledToPrecision(r: real, p: int, w: nat)
    requires w >= 1 && Shift(1.0, p - 1) <= r < Shift(1.0, p)
    ensures Pow10(w - 1) as real <= Shift(r, w - p) < Pow10(w) as real
  {
    ShiftMonotone(Shift(1.0, p - 1), r, w - p);
    ShiftMonotone(r, Shift(1.0, p), w - p);
    ShiftAdd(1.0, p - 1, w - p);
    ShiftAdd(1.0, p, w - p);
    ShiftOne(w - 1);
    ShiftOne(w);
  }

  /** `n * 10^x` is within half a unit `10^x` of `r`. */
  predicate Nearest(r: real, n: int, x: int) {
    var ulp := Shift(1.0, x);
    r - ulp / 2.0 <= Shift(n as real, x) <= r + ulp / 2.0
  }

  /** Within half a unit of `r` shifted by `-x` is within half a unit of `10^x` of `r`. */
  lemma RoundedWithin(r: real, x: int, m: real, n: int)
    requires m == Shift(r, -x) && m - 0.5 <= n as real <= m + 0.5
    ensures Nearest(r, n, x)
  {
    ShiftMonotone(m - 0.5, n as real, x);
    ShiftMonotone(n as real, m + 0.5, x);
    ShiftLinear(m, 0.0, 0.5, x);
    ShiftLinear(m, 0.5, 0.0, x);
    ShiftLinear(1.0, 0.0, 0.0, x);
    ShiftZero(x);
    ShiftAdd(r, -x, x);
  }

  /** A rounding that carries into a new digit is as close with one digit fewer and a coarser unit. */
  lemma Carried(r: real, x: int, w: nat)
    requires w >= 1 && Nearest(r, Pow10(w), x)
    ensures Nearest(r, Pow10(w - 1), x + 1)
  {
    var a := Pow10(w - 1) as real;
    var u, v := Shift(1.0, x), Shift(Pow10(w) as real, x);
    assert r - u / 2.0 <= v <= r + u / 2.0;
    assert Pow10(w) as real == 10.0 * a;
    ShiftTen(a, x);
    ShiftStep(a, x);
    ShiftStep(1.0, x);
    ShiftPositive(1.0, x);
    assert Shift(a, x + 1) == v && Shift(1.0, x + 1) == 10.0 * u && u > 0.0;
  }

  function Zeros(k: nat): (s: string)
    ensures |s| == k && forall i :: 0 <= i < k ==> s[i] == '0'
  {
    seq(k, _ => '0')
  }

  /** The digits without their trailing zeros; the first digit always stays. */
  function StripZeros(s: string): (t: string)
    ensures |t| <= |s| && (s != [] ==> t != [])
  {
    if |s| > 1 && s[|s| - 1] == '0' then StripZeros(s[..|s| - 1]) else s
  }

  /**
   * `zend_gcvt`'s layout of the significant digits `ds` with the decimal
   * point at `p`: the exponent form `d.dddE+x` once the point lies beyond
   * `Precision` digits or more than three zeros after the decimal point,
   * otherwise plain decimal notation.
   */
  function Layout(ds: string, p: int): string
    requires ds != []
  {
    if (if p < 0 then p < -3 else p > Precision) then
      var e := p - 1;
      [ds[0]] + "." + (if |ds| == 1 then "0" else ds[1..]) + "E" + (if e < 0 then "-" else "+") + IntText(if e < 0 then -e else e)
    else if p < 0 then "0." + Zeros(-p) + ds
    else if |ds| <= p then ds + Zeros(p - |ds|)
    else (if p == 0 then "0" else ds[..p]) + "." + ds[p..]
  }

  /** `(string) $f` for a float: `Precision` significant digits, laid out as `zend_gcvt` does. */
  function FloatText(r: real): (s: string)
    ensures s != []
    ensures (r < 0.0) == (s[0] == '-')
    decreases if r < 0.0 then 1 else 0
  {
    if r == 0.0 then "0"
    else if r < 0.0 then "-" + FloatText(-r)
    else
      var (n, p) := Significand(r);
      var ds := StripZeros(IntText(n));
      IntTextNonNegative(n);
      StripZerosPrefix(IntText(n));
      LayoutUnsigned(ds, p);
      Layout(ds, p)
  }

  lemma LayoutUnsigned(ds: string, p: int)
    requires ds != [] && ds[0] != '-'
    ensures Layout(ds, p) != [] && Layout(ds, p)[0] != '-'
  {
  }

  lemma {:induction false} IntTextNonNegative(n: int)
    requires n >= 0
    ensures IntText(n)[0] != '-'
  {
    IntTextDigitFirst(n);
  }

  lemma {:induction false} StripZerosPrefix(s: string)
    ensures StripZeros(s) <= s
    decreases |s|
  {
    if |s| > 1 && s[|s| - 1] == '0' {
      StripZerosPrefix(s[..|s| - 1]);
    }
  }

  /** Stripping the zeros and padding them back gives the digits back. */
  lemma {:induction false} StripZerosPad(s: string)
    ensures s == StripZeros(s) + Zeros(|s| - |StripZeros(s)|)
    decreases |s|
  {
    if |s| > 1 && s[|s| - 1] == '0' {
      var t := s[..|s| - 1];
      StripZerosPad(t);
      assert s == t + ['0'];
    }
  }

  /** Zeros appended to digits that start with a non-zero digit are stripped again. */
  lemma {:induction false} StripAppendedZeros(s: string, k: nat)
    requires s != [] && s[0] != '0'
    ensures StripZeros(s + Zeros(k)) == StripZeros(s)
    decreases k
  {
    var t := s + Zeros(k);
    if k > 0 {
      assert t[|t| - 1] == '0';
      assert t[..|t| - 1] == s + Zeros(k - 1);
      StripAppendedZeros(s, k - 1);
    } else {
      assert t == s;
    }
  }

  /** The number of digits of a positive integer fixes its order of magnitude. */
  lemma {:induction false} IntTextLength(n: int)
    requires n >= 1
    ensures Pow10(|IntText(n)| - 1) <= n < Pow10(|IntText(n)|)
  {
    if n >= 10 {
      IntTextLength(n / 10);
    }
  }

  lemma IntTextTimesTen(m: int)
    requires m >= 1
    ensures IntText(10 * m) == IntText(m) + "0"
  {
    assert (10 * m) / 10 == m && (10 * m) % 10 == 0;
  }

  /** Appending `k` zeros to a positive number appends `k` zeros to its text. */
  lemma {:induction false} IntTextShift(n: int, k: nat)
    requires n >= 1
    ensures IntText(Pad(n, k)) == IntText(n) + Zeros(k)
  {
    if k > 0 {
      IntTextShift(n, k - 1);
      IntTextTimesTen(Pad(n, k - 1));
      assert IntText(n) + Zeros(k - 1) + "0" == IntText(n) + Zeros(k);
    } else {
      assert IntText(n) + Zeros(0) == IntText(n);
    }
  }

  lemma IntTextLeadingDigit(n: int)
    requires n >= 1
    ensures IntText(n)[0] != '0'
  {
    if n >= 10 {
      IntTextLeadingDigit(n / 10);
    }
  }

  /** A negative float prints as a minus sign before its absolute value. */
  lemma FloatTextNegative(r: real, a: real)
    requires r < 0.0 && a == -r
    ensures FloatText(r) == "-" + FloatText(a)
  {
  }

  /** A whole float of fewer than fifteen digits prints as the integer it is. */
  lemma WholeFloatText(n: int)
    requires (if n < 0 then -n else n) < Pow10(Precision)
    ensures FloatText(n as real) == IntText(n)
  {
    if n < 0 {
      var a := -n;
      PositiveWholeFloatText(a);
      FloatTextNegative(n as real, a as real);
      assert IntText(n) == "-" + IntText(a);
    } else if n > 0 {
      PositiveWholeFloatText(n);
    } else {
      assert IntText(0) == [DigitChar(0)] == "0";
    }
  }

  /** `(float) (string) $f == $f` for a whole float of at most `Precision` digits. */
  lemma WholeFloatReadsBack(n: int)
    requires (if n < 0 then -n else n) < Pow10(Precision)
    ensures FloatOf(Str(StringOf(Float(n as real)))) == n as real
  {
    WholeFloatText(n);
    LeadingRealOfIntText(n);
  }

  lemma PositiveWholeFloatText(n: int)
    requires 0 < n < Pow10(Precision)
    ensures FloatText(n as real) == IntText(n)
  {
    var q := DigitCount(n);
    FloatTextOfDigits(n, q, Precision - q);
  }

  /** A positive integer below `10^Precision` has at most `Precision` digits. */
  lemma DigitCount(n: int) returns (q: nat)
    requires 0 < n < Pow10(Precision)
    ensures q == |IntText(n)| && 1 <= q <= Precision && Pow10(q - 1) <= n < Pow10(q)
  {
    q := |IntText(n)|;
    IntTextLength(n);
    DigitsAtMost(n, q, Precision);
  }

  /** A number below `10^b` has at most `b` digits. */
  lemma DigitsAtMost(n: int, q: nat, b: nat)
    requires 1 <= q && Pow10(q - 1) <= n < Pow10(b)
    ensures q <= b
  {
    if q > b {
      Pow10Below(b, q - 1);
    }
  }

  lemma FloatTextOfDigits(n: nat, q: nat, k: nat)
    requires 1 <= q && q + k == Precision && q == |IntText(n)| && Pow10(q - 1) <= n < Pow10(q)
    ensures FloatText(n as real) == IntText(n)
  {
    var s := IntText(n);
    var m := Pad(n, k);
    calc {
      FloatText(n as real);
      { WholeSignificand(n, q, k);
        FloatTextOf(n as real, m, q); }
      Layout(StripZeros(IntText(m)), q);
      { IntTextShift(n, k); }
      Layout(StripZeros(s + Zeros(k)), q);
      { IntTextLeadingDigit(n);
        PaddedLayout(s, k); }
      s;
    }
  }

  /** The text of a positive float is the layout of its significant digits. */
  lemma FloatTextOf(r: real, n: nat, p: int)
    requires r > 0.0 && Significand(r) == (n, p)
    ensures FloatText(r) == Layout(StripZeros(IntText(n)), p)
  {
  }

  /** Digits padded with zeros to `Precision` digits lay out as the digits themselves. */
  lemma PaddedLayout(s: string, k: nat)
    requires s != [] && s[0] != '0' && |s| + k == Precision
    ensures Layout(StripZeros(s + Zeros(k)), |s|) == s
  {
    StripAppendedZeros(s, k);
    StripZerosPad(s);
  }

  /** A whole number of `q <= Precision` digits is its own significand, with `Precision - q` zeros appended. */
  lemma WholeSignificand(n: nat, q: nat, k: nat)
    requires 1 <= q && q + k == Precision && Pow10(q - 1) <= n < Pow10(q)
    ensures Significand(n as real) == (Pad(n, k), q)
  {
    ShiftOne(q - 1);
    ShiftOne(q);
    ShiftNat(n, k);
    ShiftBelow(n, q, k);
    ExactSignificand(n as real, q, Pad(n, k));
  }

  /** A real whose `Precision` leading digits are exact is its own significand. */
  lemma ExactSignificand(r: real, q: int, v: nat)
    requires r > 0.0 && Shift(1.0, q - 1) <= r < Shift(1.0, q)
    requires Shift(r, Precision - q) == v as real && v < Pow10(Precision)
    ensures Significand(r) == (v, q)
  {
    ExactRounded(r, q, v, Precision);
  }

  lemma ExactRounded(r: real, q: int, v: nat, w: nat)
    requires w >= 1 && r > 0.0 && Shift(1.0, q - 1) <= r < Shift(1.0, q)
    requires Shift(r, w - q) == v as real && v < Pow10(w)
    ensures Rounded(r, w) == (v, q)
  {
    DecimalPointIs(r, q);
  }

  /** A float halfway between two integers below `10^(Precision - 1)` prints with the single decimal `.5`. */
  lemma HalfFloatText(n: nat)
    requires n < Pow10(Precision - 1)
    ensures FloatText(n as real + 0.5) == IntText(n) + ".5"
  {
    if n == 0 {
      HalfOfZero(n, Precision - 1);
    } else {
      HalfOfPositive(n);
    }
  }

  lemma HalfOfZero(n: nat, k: nat)
    requires n == 0 && k + 1 == Precision
    ensures FloatText(n as real + 0.5) == IntText(n) + ".5"
  {
    var r := n as real + 0.5;
    var v := Pad(5, k);
    assert Shift(1.0, -1) == 0.1;
    ShiftStep(0.5, 0);
    ShiftAdd(0.5, 1, k);
    ShiftNat(5, k);
    ShiftBelow(5, 1, k);
    ExactSignificand(r, 0, v);
    FloatTextOf(r, v, 0);
    HalfDigits(0, k);
    var ds := StripZeros(IntText(v));
    FractionLayout(ds);
    HalfOfZeroText(ds);
  }

  lemma HalfOfZeroText(ds: string)
    requires ds == "" + "5"
    ensures "0." + ds == "0.5" == IntText(0) + ".5"
  {
    assert IntText(0) == "0";
  }

  /** Digits whose decimal point sits right before them follow `0.`. */
  lemma FractionLayout(ds: string)
    requires ds != []
    ensures Layout(ds, 0) == "0." + ds
  {
    assert ds[0..] == ds;
  }

  lemma HalfOfPositive(n: nat)
    requires 0 < n < Pow10(Precision - 1)
    ensures FloatText(n as real + 0.5) == IntText(n) + ".5"
  {
    var r := n as real + 0.5;
    var q := HalfBounds(n);
    var k: nat := Precision - 1 - q;
    var v := Pad(10 * n + 5, k);
    HalfShifted(n, r, q, k, Precision);
    ExactSignificand(r, q, v);
    FloatTextOf(r, v, q);
    HalfDigits(n, k);
    HalfLayout(IntText(n), q);
  }

  /** `n + 0.5` lies between the powers of ten around `n`, and its ten-fold has one digit more. */
  lemma HalfBounds(n: nat) returns (q: nat)
    requires 0 < n < Pow10(Precision - 1)
    ensures q == |IntText(n)| && 0 < q < Precision
    ensures Shift(1.0, q - 1) <= n as real + 0.5 < Shift(1.0, q)
    ensures 10 * n + 5 < Pow10(q + 1)
  {
    q := |IntText(n)|;
    IntTextLength(n);
    DigitsAtMost(n, q, Precision - 1);
    ShiftOne(q - 1);
    ShiftOne(q);
  }

  lemma HalfShifted(n: nat, r: real, q: int, k: nat, p: nat)
    requires r == n as real + 0.5 && q + 1 + k == p && 0 < q
    requires 10 * n + 5 < Pow10(q + 1)
    ensures Shift(r, p - q) == Pad(10 * n + 5, k) as real
    ensures Pad(10 * n + 5, k) < Pow10(p)
  {
    var w := 10 * n + 5;
    ShiftStep(r, 0);
    ShiftAdd(r, 1, k);
    ShiftNat(w, k);
    ShiftBelow(w, q + 1, k);
  }

  /** The digits of `(10n + 5) * 10^k`, stripped, are those of `n` followed by `5`. */
  lemma HalfDigits(n: nat, k: nat)
    ensures StripZeros(IntText(Pad(10 * n + 5, k))) == (if n == 0 then "" else IntText(n)) + "5"
  {
    var w := 10 * n + 5;
    var t := (if n == 0 then "" else IntText(n)) + "5";
    IntTextShift(w, k);
    assert IntText(w) == t by {
      if n > 0 {
        assert w / 10 == n && w % 10 == 5;
      }
    }
    if n > 0 {
      IntTextLeadingDigit(n);
    }
    StripAppendedZeros(t, k);
  }

  lemma HalfLayout(s: string, q: int)
    requires s != [] && q == |s| && q <= Precision
    ensures Layout(s + "5", q) == s + ".5"
  {
    assert (s + "5")[..q] == s && (s + "5")[q..] == "5";
  }

  /**
   * Powers of ten: plain from `0.0001` up to `10^(Precision - 1)`, and in
   * exponent form (`1.0E-5`, `1.0E+14`) beyond.
   */
  lemma PowerOfTenText(x: int)
    ensures FloatText(Shift(1.0, x)) ==
      if x >= Precision || x < -4 then "1.0E" + (if x < 0 then "-" else "+") + IntText(if x < 0 then -x else x)
      else if x >= 0 then "1" + Zeros(x)
      else "0." + Zeros(-x - 1) + "1"
  {
    var r := Shift(1.0, x);
    PowerSignificand(x);
    FloatTextOf(r, Pow10(Precision - 1), x + 1);
    PowerDigits();
    LayoutOne(x + 1);
  }

  /** The significant digits of a power of ten are a lone `1`. */
  lemma PowerDigits()
    ensures StripZeros(IntText(Pow10(Precision - 1))) == "1"
  {
    IntTextShift(1, Precision - 1);
    PadOne(Precision - 1);
    assert IntText(1) == "1";
    StripAppendedZeros("1", Precision - 1);
  }

  lemma LayoutOne(p: int)
    ensures Layout("1", p) ==
      if p > Precision || p < -3 then "1.0E" + (if p - 1 < 0 then "-" else "+") + IntText(if p - 1 < 0 then 1 - p else p - 1)
      else if p >= 1 then "1" + Zeros(p - 1)
      else "0." + Zeros(-p) + "1"
  {
  }

  lemma PowerSignificand(x: int)
    ensures Shift(1.0, x) > 0.0
    ensures Significand(Shift(1.0, x)) == (Pow10(Precision - 1), x + 1)
  {
    var r := Shift(1.0, x);
    ShiftPositive(1.0, x);
    PowersOfTen(x, x + 1);
    DecimalPointIs(r, x + 1);
    ShiftAdd(1.0, x, Precision - (x + 1));
    ShiftOne(Precision - 1);
  }

  lemma {:induction false} Pow10Below(a: nat, b: nat)
    requires a <= b
    ensures Pow10(a) <= Pow10(b)
    decreases b
  {
    if a < b {
      Pow10Below(a, b - 1);
    }
  }


  /**
   * A PHP 8 numeric string: optional surrounding whitespace around a decimal
   * mantissa (digits, optionally with a fraction, or a fraction alone) and an
   * optional exponent.
   */
  predicate NumericString(s: string) {
    var i := SkipSpaces(s, 0);
    var (j, _) := SkipSign(s, i);
    var k := SkipDigits(s, j);
    var (m, mantissa) :=
      if k < |s| && s[k] == '.' then
        var f := SkipDigits(s, k + 1);
        (f, k > j || f > k + 1)
      else (k, k > j);
    mantissa &&
    if m < |s| && (s[m] == 'e' || s[m] == 'E') then
      var (e, _) := SkipSign(s, m + 1);
      var d := SkipDigits(s, e);
      d > e && SkipSpaces(s, d) == |s|
    else
      SkipSpaces(s, m) == |s|
  }

  /** `is_numeric($v)`. */
  predicate IsNumeric(v: Value) {
    v.Int? || v.Float? || (v.Str? && NumericString(v.s))
  }
}
