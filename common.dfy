// Shared helpers for the four game economies: optional values, the numeric
// primitives the sources borrow from their runtimes (Math.pow with an integer
// exponent, Math.ceil, Math.max/min, the truncating `%` of JavaScript), decimal
// text, and JavaScript objects viewed as ordered key/value entries.

module Wrappers {
  /** An optional value: JavaScript's `undefined`/`null`, Kotlin's `T?`. */
  datatype Option<+T> = None | Some(value: T) {
    function GetOr(default: T): T {
      match this
      case Some(v) => v
      case None => default
    }
  }
}

module Num {
  /** `Math.pow(b, n)` for a whole exponent n. */
  function Pow(b: real, n: nat): real
    decreases n
  {
    if n == 0 then 1.0 else b * Pow(b, n - 1)
  }

  lemma {:induction false} PowAtLeastOne(b: real, n: nat)
    requires b >= 1.0
    ensures Pow(b, n) >= 1.0
    decreases n
  {
    if n > 0 {
      PowAtLeastOne(b, n - 1);
      assert b * Pow(b, n - 1) >= 1.0 * Pow(b, n - 1);
    }
  }

  /** A growth factor above 1 makes every further power strictly larger. */
  lemma PowStrictlyIncreasing(b: real, n: nat)
    requires b > 1.0
    ensures Pow(b, n + 1) > Pow(b, n)
    ensures Pow(b, n + 1) - Pow(b, n) >= b - 1.0
  {
    PowAtLeastOne(b, n);
    assert Pow(b, n + 1) == b * Pow(b, n);
    assert Pow(b, n + 1) - Pow(b, n) == (b - 1.0) * Pow(b, n);
    assert (b - 1.0) * Pow(b, n) >= (b - 1.0) * 1.0;
  }

  /** `Math.ceil`: the least integer at or above x. */
  function Ceil(x: real): (c: int)
    ensures x <= c as real < x + 1.0
  {
    -((-x).Floor)
  }

  lemma CeilMonotone(x: real, y: real)
    requires x <= y
    ensures Ceil(x) <= Ceil(y)
  {
  }

  /** Two reals at least one apart have ceilings at least one apart. */
  lemma CeilGap(x: real, y: real)
    requires x + 1.0 <= y
    ensures Ceil(x) + 1 <= Ceil(y)
  {
  }

  function Max(a: real, b: real): real { if a >= b then a else b }

  function Min(a: real, b: real): real { if a <= b then a else b }

  function MaxInt(a: int, b: int): int { if a >= b then a else b }

  function MinInt(a: int, b: int): int { if a <= b then a else b }

  function Abs(x: int): nat { if x < 0 then -x else x }

  /** JavaScript's `%` on integers: the result takes the sign of the dividend. */
  function JsRem(a: int, b: int): (r: int)
    requires b > 0
    ensures a >= 0 ==> 0 <= r < b
    ensures a < 0 ==> -b < r <= 0
  {
    if a >= 0 then a % b else -((-a) % b)
  }
}

module Text {
  /** The decimal digit character for d. */
  function DigitChar(d: nat): (c: char)
    requires d < 10
    ensures '0' <= c <= '9' && (c as int) - ('0' as int) == d
  {
    (('0' as int) + d) as char
  }

  predicate IsDigit(c: char) { '0' <= c <= '9' }

  predicate AllDigits(s: string) { forall i :: 0 <= i < |s| ==> IsDigit(s[i]) }

  /** `n.toString()` for a non-negative integer. */
  function NatToString(n: nat): (s: string)
    ensures 1 <= |s| && AllDigits(s)
    ensures n < 10 <==> |s| == 1
    decreases n
  {
    if n < 10 then [DigitChar(n)] else NatToString(n / 10) + [DigitChar(n % 10)]
  }

  /** `n.toString()` for any integer, with a leading '-' when negative. */
  function IntToString(n: int): (s: string)
    ensures n >= 0 ==> AllDigits(s)
    ensures n < 0 ==> |s| >= 2 && s[0] == '-' && AllDigits(s[1..])
  {
    if n >= 0 then NatToString(n) else "-" + NatToString(-n)
  }

  /** The value of a string of decimal digits (leading zeros allowed). */
  function DigitsValue(s: string): (v: nat)
    requires AllDigits(s)
    decreases |s|
  {
    if |s| == 0 then 0
    else DigitsValue(s[..|s| - 1]) * 10 + ((s[|s| - 1] as int) - ('0' as int))
  }

  lemma {:induction false} DigitsValueOfNatToString(n: nat)
    ensures DigitsValue(NatToString(n)) == n
    decreases n
  {
    var s := NatToString(n);
    if n >= 10 {
      DigitsValueOfNatToString(n / 10);
      assert s[..|s| - 1] == NatToString(n / 10);
    }
  }

  /** A leading zero does not change a digit string's value. */
  lemma {:induction false} DigitsValueLeadingZero(s: string)
    requires AllDigits(s)
    ensures AllDigits("0" + s) && DigitsValue("0" + s) == DigitsValue(s)
    decreases |s|
  {
    var t := "0" + s;
    if |s| > 0 {
      assert t[..|t| - 1] == "0" + s[..|s| - 1];
      DigitsValueLeadingZero(s[..|s| - 1]);
    } else {
      assert t[..|t| - 1] == "";
    }
  }

  /** `s.padStart(len, c)`. */
  function PadStart(s: string, len: nat, c: char): (r: string)
    ensures |r| == if |s| >= len then |s| else len
    ensures r[|r| - |s|..] == s
    ensures forall i :: 0 <= i < |r| - |s| ==> r[i] == c
    decreases len - |s|
  {
    if |s| >= len then s else PadStart([c] + s, len, c)
  }

  /** Padding a digit string with zeros keeps it a digit string of the same value. */
  lemma {:induction false} PadStartZerosKeepsValue(s: string, len: nat)
    requires AllDigits(s)
    ensures AllDigits(PadStart(s, len, '0'))
    ensures DigitsValue(PadStart(s, len, '0')) == DigitsValue(s)
    decreases len - |s|
  {
    if |s| < len {
      DigitsValueLeadingZero(s);
      assert "0" + s == ['0'] + s;
      PadStartZerosKeepsValue(['0'] + s, len);
    }
  }

  /** `s.split(sep)` for a one-character separator, in JavaScript and Kotlin alike. */
  function Split(s: string, sep: char): (parts: seq<string>)
    ensures |parts| >= 1
    decreases |s|
  {
    if |s| == 0 then [""]
    else
      var rest := Split(s[1..], sep);
      if s[0] == sep then [""] + rest
      else [[s[0]] + rest[0]] + rest[1..]
  }

  /** `parts.joinToString(sep)` / `parts.join(sep)`. */
  function Join(parts: seq<string>, sep: char): string
    decreases |parts|
  {
    if |parts| == 0 then ""
    else if |parts| == 1 then parts[0]
    else parts[0] + [sep] + Join(parts[1..], sep)
  }

  /** A leading piece without the separator stays glued to the first part. */
  lemma {:induction false} SplitPrefix(p: string, t: string, sep: char)
    requires sep !in p
    ensures Split(p + t, sep) == [p + Split(t, sep)[0]] + Split(t, sep)[1..]
    decreases |p|
  {
    if |p| > 0 {
      assert (p + t)[1..] == p[1..] + t;
      SplitPrefix(p[1..], t, sep);
      assert [p[0]] + (p[1..] + Split(t, sep)[0]) == p + Split(t, sep)[0];
    } else {
      var parts := Split(t, sep);
      assert p + t == t && p + parts[0] == parts[0];
      assert parts == [parts[0]] + parts[1..];
    }
  }

  /** Splitting undoes joining when no part holds the separator. */
  lemma {:induction false} SplitJoin(parts: seq<string>, sep: char)
    requires |parts| >= 1
    requires forall i :: 0 <= i < |parts| ==> sep !in parts[i]
    ensures Split(Join(parts, sep), sep) == parts
    decreases |parts|
  {
    if |parts| == 1 {
      SplitPrefix(parts[0], "", sep);
      assert parts[0] + "" == parts[0];
    } else {
      var tail := Join(parts[1..], sep);
      SplitJoin(parts[1..], sep);
      assert Join(parts, sep) == parts[0] + ([sep] + tail);
      SplitPrefix(parts[0], [sep] + tail, sep);
      assert ([sep] + tail)[1..] == tail;
      assert Split([sep] + tail, sep) == [""] + parts[1..];
      assert parts[0] + "" == parts[0];
    }
  }
}

module Assoc {
  import opened Wrappers

  /** The own enumerable properties of a JavaScript object, in insertion order. */
  type Entries<V> = seq<(string, V)>

  predicate UniqueKeys<V>(e: Entries<V>) {
    forall i, j :: 0 <= i < j < |e| ==> e[i].0 != e[j].0
  }

  /** `obj[k]`, `undefined` when the key is absent. */
  function Lookup<V>(e: Entries<V>, k: string): (r: Option<V>)
    ensures r.Some? <==> exists i :: 0 <= i < |e| && e[i].0 == k
    decreases |e|
  {
    if |e| == 0 then None
    else if e[0].0 == k then Some(e[0].1)
    else Lookup(e[1..], k)
  }

  /** `{ ...obj, [k]: v }`: an existing key keeps its place, a new one goes last. */
  function Put<V>(e: Entries<V>, k: string, v: V): (r: Entries<V>)
    decreases |e|
  {
    if |e| == 0 then [(k, v)]
    else if e[0].0 == k then [(k, v)] + e[1..]
    else [e[0]] + Put(e[1..], k, v)
  }

  lemma {:induction false} PutLookup<V>(e: Entries<V>, k: string, v: V, j: string)
    ensures Lookup(Put(e, k, v), j) == if j == k then Some(v) else Lookup(e, j)
    decreases |e|
  {
    if |e| > 0 && e[0].0 != k {
      PutLookup(e[1..], k, v, j);
    }
  }

  lemma {:induction false} PutUnique<V>(e: Entries<V>, k: string, v: V)
    requires UniqueKeys(e)
    ensures UniqueKeys(Put(e, k, v))
    ensures |Put(e, k, v)| == if Lookup(e, k).Some? then |e| else |e| + 1
    decreases |e|
  {
    if |e| > 0 && e[0].0 != k {
      PutUnique(e[1..], k, v);
      var r := Put(e, k, v);
      forall i, j | 0 <= i < j < |r| ensures r[i].0 != r[j].0 {
        if i == 0 {
          PutLookup(e[1..], k, v, e[0].0);
          assert Lookup(e[1..], e[0].0) == None;
          assert Lookup(Put(e[1..], k, v), e[0].0).None?;
          assert r[j] == Put(e[1..], k, v)[j - 1];
        }
      }
    }
  }

  /** `Object.values(obj).reduce((sum, value) => sum + value, 0)`. */
  function SumValues(e: Entries<int>): int
    decreases |e|
  {
    if |e| == 0 then 0 else e[0].1 + SumValues(e[1..])
  }

  /** Overwriting one entry changes the sum by exactly the difference. */
  lemma {:induction false} PutSum(e: Entries<int>, k: string, v: int)
    requires UniqueKeys(e)
    ensures SumValues(Put(e, k, v)) == SumValues(e) - Lookup(e, k).GetOr(0) + v
    decreases |e|
  {
    if |e| > 0 && e[0].0 != k {
      PutSum(e[1..], k, v);
    }
  }
}
