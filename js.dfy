/**
 * The few JavaScript value rules the FIXO sources lean on: the falsy defaults
 * of `x || d`, `String.prototype.startsWith`, plain objects as ordered
 * key/value entries, and the decimal rendering of a non-negative integer.
 */
module Js {
  import opened Wrappers

  /** `x || d` on a string: `undefined`, `null` and `""` are falsy. */
  function StrOr(x: Option<string>, d: string): string {
    if x.Some? && x.value != "" then x.value else d
  }

  /** `x || d` on a number: `undefined`, `null` and `0` are falsy. */
  function IntOr(x: Option<int>, d: int): int {
    if x.Some? && x.value != 0 then x.value else d
  }

  /** `x || d` on a fractional number: `undefined`, `null` and `0` are falsy. */
  function RealOr(x: Option<real>, d: real): real {
    if x.Some? && x.value != 0.0 then x.value else d
  }

  /** `x || d` on an array or an object: only `undefined` and `null` are falsy. */
  function ObjOr<T>(x: Option<T>, d: T): T {
    if x.Some? then x.value else d
  }

  /** Truthiness of an optional string. */
  predicate StrTruthy(x: Option<string>) {
    x.Some? && x.value != ""
  }

  predicate StartsWith(s: string, prefix: string) {
    |prefix| <= |s| && s[..|prefix|] == prefix
  }

  /**
   * A plain object as its own enumerable entries, in the order
   * `Object.entries` lists them (integer-like keys first, ascending, then the
   * other keys in insertion order).
   */
  type Entries<V> = seq<(string, V)>

  /** A plain object never holds the same key twice. */
  ghost predicate DistinctKeys<V>(o: Entries<V>) {
    forall i, j :: 0 <= i < j < |o| ==> o[i].0 != o[j].0
  }

  /** Any prefix of a plain object's entries is a plain object too. */
  lemma DistinctKeysPrefix<V>(o: Entries<V>, n: nat)
    requires DistinctKeys(o) && n <= |o|
    ensures DistinctKeys(o[..n])
  {
    forall i, j | 0 <= i < j < n ensures o[..n][i].0 != o[..n][j].0 {
      assert o[..n][i] == o[i] && o[..n][j] == o[j];
    }
  }

  /** `o[k]` for an own property of `o`. */
  function Get<V>(o: Entries<V>, k: string): (r: Option<V>)
    ensures r.Some? ==> (k, r.value) in o
    ensures r.None? ==> forall e :: e in o ==> e.0 != k
  {
    if o == [] then None
    else if o[0].0 == k then Some(o[0].1)
    else Get(o[1..], k)
  }

  /** In a plain object, an entry is exactly what the lookup of its key finds. */
  lemma {:induction false} GetEntry<V>(o: Entries<V>, k: string, v: V)
    requires DistinctKeys(o)
    ensures Get(o, k) == Some(v) <==> (k, v) in o
  {
    if o != [] {
      assert DistinctKeys(o[1..]) by {
        forall i, j | 0 <= i < j < |o[1..]| ensures o[1..][i].0 != o[1..][j].0 {
          assert o[1..][i] == o[i + 1] && o[1..][j] == o[j + 1];
        }
      }
      GetEntry(o[1..], k, v);
    }
  }

  /** `Object.values(o)`. */
  function Values<V>(o: Entries<V>): (r: seq<V>)
    ensures |r| == |o|
    ensures forall i :: 0 <= i < |o| ==> r[i] == o[i].1
  {
    seq(|o|, i requires 0 <= i < |o| => o[i].1)
  }

  function DigitChar(d: nat): char
    requires d < 10
  {
    "0123456789"[d]
  }

  /** The decimal text of a non-negative integer, as `String(n)` writes it. */
  function Decimal(n: nat): (s: string)
    ensures |s| > 0
    ensures forall i :: 0 <= i < |s| ==> '0' <= s[i] <= '9'
    ensures s[0] == '0' <==> n == 0
    ensures |s| > 1 ==> s[0] != '0'
    decreases n
  {
    if n < 10 then
      assert DigitChar(n) == '0' <==> n == 0 by {
        DigitCharValue(n);
      }
      [DigitChar(n)]
    else Decimal(n / 10) + [DigitChar(n % 10)]
  }

  // ---------------------------------------------------------------------------
  // parseInt

  /** The characters `parseInt` skips before a number: white space and line terminators. */
  predicate IsWhiteSpace(c: char) {
    c in {'\t', '\n', '\U{000B}', '\U{000C}', '\r', ' ', '\U{00A0}', '\U{1680}', '\U{2028}', '\U{2029}',
          '\U{202F}', '\U{205F}', '\U{3000}', '\U{FEFF}'}
    || ('\U{2000}' <= c <= '\U{200A}')
  }

  /** The string without its leading white space. */
  function TrimStart(s: string): (t: string)
    ensures |t| <= |s| && t == s[|s| - |t|..]
    ensures t == [] || !IsWhiteSpace(t[0])
    ensures forall i :: 0 <= i < |s| - |t| ==> IsWhiteSpace(s[i])
  {
    if s != [] && IsWhiteSpace(s[0]) then TrimStart(s[1..]) else s
  }

  /** The value of `c` as a digit in base 16 (when `hex`) or 10. */
  function DigitOf(c: char, hex: bool): (d: Option<nat>)
    ensures d.Some? ==> d.value < (if hex then 16 else 10)
  {
    if '0' <= c <= '9' then Some(c as int - '0' as int)
    else if hex && 'a' <= c <= 'f' then Some(c as int - 'a' as int + 10)
    else if hex && 'A' <= c <= 'F' then Some(c as int - 'A' as int + 10)
    else None
  }

  /** The length of the run of digits `s` starts with. */
  function DigitRun(s: string, hex: bool): (n: nat)
    ensures n <= |s|
    ensures forall i :: 0 <= i < n ==> DigitOf(s[i], hex).Some?
    ensures n < |s| ==> DigitOf(s[n], hex).None?
  {
    if s == [] || DigitOf(s[0], hex).None? then 0 else 1 + DigitRun(s[1..], hex)
  }

  /** The number a run of digits denotes, most significant digit first. */
  function RunValue(s: string, hex: bool): nat
    requires forall i :: 0 <= i < |s| ==> DigitOf(s[i], hex).Some?
  {
    if s == [] then 0
    else RunValue(s[..|s| - 1], hex) * (if hex then 16 else 10) + DigitOf(s[|s| - 1], hex).value
  }

  /** A run that starts with a non-zero digit denotes a positive number. */
  lemma {:induction false} RunValuePositive(s: string, hex: bool)
    requires forall i :: 0 <= i < |s| ==> DigitOf(s[i], hex).Some?
    requires s != [] && DigitOf(s[0], hex).value > 0
    ensures RunValue(s, hex) > 0
  {
    if |s| > 1 {
      RunValuePositive(s[..|s| - 1], hex);
    }
  }

  /** Whether the unsigned text carries the `0x` / `0X` prefix. */
  predicate HexPrefixed(u: string) {
    |u| >= 2 && u[0] == '0' && (u[1] == 'x' || u[1] == 'X')
  }

  /**
   * `parseInt(s)` with no radix: leading white space and one sign are
   * skipped, a `0x` prefix selects base 16, and the longest run of digits
   * that follows is read; `None` is `NaN`, when that run is empty.
   */
  function ParseInt(s: string): (r: Option<int>)
    ensures TrimStart(s) == [] ==> r.None?
  {
    var t := TrimStart(s);
    var negative := t != [] && t[0] == '-';
    var u := if t != [] && (t[0] == '-' || t[0] == '+') then t[1..] else t;
    var hex := HexPrefixed(u);
    var body := if hex then u[2..] else u;
    var n := DigitRun(body, hex);
    if n == 0 then None
    else
      var v: int := RunValue(body[..n], hex);
      Some(if negative then -v else v)
  }

  /** A string that starts with a non-zero digit reads as a positive number. */
  lemma ParseIntOfLeadingDigit(s: string)
    requires s != [] && '1' <= s[0] <= '9'
    ensures ParseInt(s).Some? && ParseInt(s).value > 0
  {
    assert !IsWhiteSpace(s[0]);
    assert TrimStart(s) == s;
    assert !HexPrefixed(s);
    var n := DigitRun(s, false);
    assert n > 0;
    RunValuePositive(s[..n], false);
  }

  lemma DigitCharValue(d: nat)
    requires d < 10
    ensures DigitOf(DigitChar(d), false) == Some(d)
  {
    assert DigitChar(d) as int == '0' as int + d by {
      if d == 0 {} else if d == 1 {} else if d == 2 {} else if d == 3 {} else if d == 4 {}
      else if d == 5 {} else if d == 6 {} else if d == 7 {} else if d == 8 {} else {}
    }
  }

  /** `Decimal` writes digits only, and they read back as the number. */
  lemma {:induction false} DecimalValue(n: nat)
    ensures forall i :: 0 <= i < |Decimal(n)| ==> DigitOf(Decimal(n)[i], false).Some?
    ensures RunValue(Decimal(n), false) == n
    decreases n
  {
    if n < 10 {
      DigitCharValue(n);
    } else {
      DecimalValue(n / 10);
      DigitCharValue(n % 10);
      var s := Decimal(n);
      assert s[..|s| - 1] == Decimal(n / 10);
    }
  }

  /** A run of digits followed by a non-digit is read up to that non-digit. */
  lemma {:induction false} DigitRunOfPrefix(p: string, suffix: string, hex: bool)
    requires forall i :: 0 <= i < |p| ==> DigitOf(p[i], hex).Some?
    requires suffix == [] || DigitOf(suffix[0], hex).None?
    ensures DigitRun(p + suffix, hex) == |p|
  {
    if p != [] {
      assert (p + suffix)[1..] == p[1..] + suffix;
      DigitRunOfPrefix(p[1..], suffix, hex);
    }
  }

  /** Text that starts with a decimal digit and no `0x` is read in base 10 from its first character. */
  lemma ParseIntOfDigits(s: string)
    requires s != [] && DigitOf(s[0], false).Some? && !HexPrefixed(s)
    ensures ParseInt(s) == Some(RunValue(s[..DigitRun(s, false)], false))
  {
    assert !IsWhiteSpace(s[0]);
    assert TrimStart(s) == s;
  }

  /**
   * `parseInt(String(n) + suffix)` is `n` when the suffix does not continue
   * the number (a digit) or turn `"0"` into a hexadecimal prefix.
   */
  lemma ParseIntOfDecimal(n: nat, suffix: string)
    requires suffix == [] || (DigitOf(suffix[0], false).None? && suffix[0] != 'x' && suffix[0] != 'X')
    ensures ParseInt(Decimal(n) + suffix) == Some(n)
  {
    DecimalValue(n);
    ParseIntOfRun(Decimal(n), suffix);
  }

  /** A run of decimal digits, ended by a character that neither continues it nor makes it hexadecimal. */
  lemma ParseIntOfRun(p: string, suffix: string)
    requires p != [] && forall i :: 0 <= i < |p| ==> DigitOf(p[i], false).Some?
    requires suffix == [] || (DigitOf(suffix[0], false).None? && suffix[0] != 'x' && suffix[0] != 'X')
    ensures ParseInt(p + suffix) == Some(RunValue(p, false))
  {
    var s := p + suffix;
    assert s[0] == p[0];
    assert !HexPrefixed(s) by {
      if |p| >= 2 {
        assert s[1] == p[1];
        assert DigitOf(p[1], false).Some?;
      } else if suffix != [] {
        assert s[1] == suffix[0];
      }
    }
    DigitRunOfPrefix(p, suffix, false);
    assert s[..|p|] == p;
    ParseIntOfDigits(s);
  }
}
