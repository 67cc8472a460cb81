/**
 * The PHP value layer the core works on: scalars, nested arrays with PHP's
 * key normalisation and append index, the string conversions the core relies
 * on (`(string)`, `(bool)`, integer printing).
 *
 * Integers are unbounded here; PHP's 64-bit range only enters through key
 * normalisation (a decimal string outside that range stays a string key).
 */
module Php {
  import opened Wrappers
  import opened Assoc

  const INT_MIN: int := -0x8000_0000_0000_0000
  const INT_MAX: int := 0x7FFF_FFFF_FFFF_FFFF

  /** An array key: PHP stores canonical decimal strings as integers. */
  datatype Key = IntKey(n: int) | StrKey(s: string)

  /** A PHP value (floats and objects are not part of this model). */
  datatype Value = Null | Bool(b: bool) | Int(i: int) | Str(s: string) | Arr(a: PArray)

  /** A PHP array: its ordered entries and the key the next `$a[] = ...` uses. */
  datatype PArray = PArray(entries: Assoc<Key, Value>, nextFree: nat)

  // ---------------------------------------------------------------- digits

  predicate IsDigit(c: char) { '0' <= c <= '9' }

  predicate AllDigits(s: string) { forall i | 0 <= i < |s| :: IsDigit(s[i]) }

  function DigitChar(d: nat): (c: char)
    requires d < 10
    ensures IsDigit(c)
  {
    ('0' as int + d) as char
  }

  function DigitVal(c: char): (d: nat)
    requires IsDigit(c)
    ensures d < 10
  {
    c as int - '0' as int
  }

  /** The decimal digits of `n`, most significant first, without leading zeros. */
  function Digits(n: nat): (s: string)
    ensures |s| > 0 && AllDigits(s)
    ensures s[0] == '0' <==> n == 0
    ensures n == 0 ==> s == "0"
    decreases n
  {
    if n < 10 then [DigitChar(n)] else Digits(n / 10) + [DigitChar(n % 10)]
  }

  /** The number a string of decimal digits denotes. */
  function DigitsValue(s: string): nat
    requires AllDigits(s)
    decreases |s|
  {
    if s == [] then 0 else DigitsValue(s[..|s| - 1]) * 10 + DigitVal(s[|s| - 1])
  }

  /** Reading back the digits of `n` gives `n`. */
  lemma {:induction false} DigitsRoundTrip(n: nat)
    ensures DigitsValue(Digits(n)) == n
    decreases n
  {
    if n >= 10 {
      var s := Digits(n);
      assert s[..|s| - 1] == Digits(n / 10);
      DigitsRoundTrip(n / 10);
    }
  }

  /** A digit string that does not start with `0` denotes a positive number. */
  lemma {:induction false} LeadingNonZeroPositive(s: string)
    requires |s| > 0 && AllDigits(s) && s[0] != '0'
    ensures DigitsValue(s) >= 1
    decreases |s|
  {
    if |s| > 1 {
      LeadingNonZeroPositive(s[..|s| - 1]);
    }
  }

  /** Printing the number a digit string without leading zero denotes gives that string back. */
  lemma {:induction false} ValueRoundTrip(s: string)
    requires |s| > 0 && AllDigits(s) && s[0] != '0'
    ensures Digits(DigitsValue(s)) == s
    decreases |s|
  {
    if |s| > 1 {
      var t := s[..|s| - 1];
      LeadingNonZeroPositive(t);
      ValueRoundTrip(t);
      assert t + [s[|s| - 1]] == s;
    }
  }

  /** `(string)$n` for an integer. */
  function DecimalString(n: int): (s: string)
    ensures |s| > 0
    ensures n >= 0 ==> AllDigits(s)
    ensures n < 0 ==> s[0] == '-' && AllDigits(s[1..])
  {
    if n < 0 then "-" + Digits(-n) else Digits(n)
  }

  /** The strings PHP turns into integer keys: `0`, or a decimal without leading zero, maybe negative. */
  predicate IsCanonicalInt(s: string)
  {
    s == "0"
    || (|s| > 0 && AllDigits(s) && s[0] != '0')
    || (|s| > 1 && s[0] == '-' && AllDigits(s[1..]) && s[1] != '0')
  }

  function CanonicalValue(s: string): int
    requires IsCanonicalInt(s)
  {
    if s[0] == '-' then 0 - DigitsValue(s[1..]) else DigitsValue(s)
  }

  /** A canonical decimal string is exactly how its value prints. */
  lemma CanonicalRoundTrip(s: string)
    requires IsCanonicalInt(s)
    ensures DecimalString(CanonicalValue(s)) == s
  {
    if s == "0" {
    } else if s[0] == '-' {
      LeadingNonZeroPositive(s[1..]);
      ValueRoundTrip(s[1..]);
      assert s == "-" + s[1..];
    } else {
      ValueRoundTrip(s);
    }
  }

  /** Every integer prints as a canonical decimal string denoting it. */
  lemma DecimalIsCanonical(n: int)
    ensures IsCanonicalInt(DecimalString(n))
    ensures CanonicalValue(DecimalString(n)) == n
  {
    var s := DecimalString(n);
    if n < 0 {
      DigitsRoundTrip(-n);
      assert s[1..] == Digits(-n);
    } else {
      DigitsRoundTrip(n);
    }
  }

  /** The key `$a[$s]` uses: canonical decimal strings within PHP's integer range become integers. */
  function KeyOf(s: string): (k: Key)
    ensures k.IntKey? <==> IsCanonicalInt(s) && INT_MIN <= CanonicalValue(s) <= INT_MAX
    ensures k.IntKey? ==> DecimalString(k.n) == s
    ensures k.StrKey? ==> k.s == s
  {
    if IsCanonicalInt(s) && INT_MIN <= CanonicalValue(s) <= INT_MAX then
      CanonicalRoundTrip(s);
      IntKey(CanonicalValue(s))
    else StrKey(s)
  }

  /** The text of a key as PHP prints it. */
  function KeyText(k: Key): string
  {
    match k
    case IntKey(n) => DecimalString(n)
    case StrKey(s) => s
  }

  /** Normalising a string to a key loses nothing: the key prints back as the string. */
  lemma KeyTextOfKey(s: string)
    ensures KeyText(KeyOf(s)) == s
  {
  }

  /** Two different offsets never share a key. */
  lemma KeyOfInjective(s: string, t: string)
    requires KeyOf(s) == KeyOf(t)
    ensures s == t
  {
    KeyTextOfKey(s);
    KeyTextOfKey(t);
  }

  /** An integer within PHP's range, printed and used as an offset, becomes that integer key. */
  lemma KeyOfDecimal(n: int)
    requires INT_MIN <= n <= INT_MAX
    ensures KeyOf(DecimalString(n)) == IntKey(n)
  {
    DecimalIsCanonical(n);
  }

  // ------------------------------------------------- numeric strings

  /** The whitespace PHP skips around a numeric string: space, tab, LF, CR, VT and FF. */
  predicate IsSpace(c: char)
  {
    c == ' ' || c == '\t' || c == '\n' || c == '\r' || c == '\U{000B}' || c == '\U{000C}'
  }

  /** `s` without its leading and trailing whitespace. */
  function TrimSpace(s: string): (r: string)
    ensures |r| <= |s|
    ensures r != [] ==> !IsSpace(r[0]) && !IsSpace(r[|r| - 1])
    ensures s != [] && !IsSpace(s[0]) && !IsSpace(s[|s| - 1]) ==> r == s
    decreases |s|
  {
    if s != [] && IsSpace(s[0]) then TrimSpace(s[1..])
    else if s != [] && IsSpace(s[|s| - 1]) then TrimSpace(s[..|s| - 1])
    else s
  }

  /**
   * The integer a string denotes when PHP 8 reads it as an integer-numeric
   * string: surrounding whitespace, an optional sign, at least one decimal
   * digit (leading zeros allowed), and a value within PHP's integer range.
   * Float-like numeric strings (a fraction, an exponent, or a value out of
   * range) answer `None` here.
   */
  function IntegerNumeric(s: string): (r: Option<int>)
    ensures r.Some? ==> INT_MIN <= r.value <= INT_MAX
  {
    var t := TrimSpace(s);
    var neg := |t| > 0 && t[0] == '-';
    var ds := if |t| > 0 && (t[0] == '-' || t[0] == '+') then t[1..] else t;
    if |ds| > 0 && AllDigits(ds) then
      var v := if neg then 0 - DigitsValue(ds) else DigitsValue(ds);
      if INT_MIN <= v <= INT_MAX then Some(v) else None
    else None
  }

  /** Every string PHP turns into an integer key is an integer-numeric string denoting that key. */
  lemma KeyIsIntegerNumeric(s: string)
    requires KeyOf(s).IntKey?
    ensures IntegerNumeric(s) == Some(KeyOf(s).n)
  {
    assert TrimSpace(s) == s;
  }

  /** Leading zeros and surrounding whitespace keep a string integer-numeric but make it a string key. */
  lemma PaddedNumerals()
    ensures IntegerNumeric("01") == Some(1) && KeyOf("01") == StrKey("01")
    ensures IntegerNumeric(" 1") == Some(1) && KeyOf(" 1") == StrKey(" 1")
    ensures IntegerNumeric("1.0") == None
  {
    assert TrimSpace("01") == "01";
    assert DigitsValue("01") == 1 by { assert "01"[..1] == "0"; }
    assert TrimSpace(" 1") == TrimSpace(" 1"[1..]) == "1";
    assert TrimSpace("1.0") == "1.0";
    assert !IsDigit("1.0"[1]);
  }

  /** A sign after the leading whitespace: `" -1"` reads as minus one. */
  lemma PaddedNegative()
    ensures IntegerNumeric(" -1") == Some(-1) && KeyOf(" -1") == StrKey(" -1")
  {
    assert TrimSpace(" -1") == TrimSpace(" -1"[1..]) == "-1";
    assert "-1"[1..] == "1";
    assert DigitsValue("1") == 1 by { assert "1"[..0] == []; }
  }

  // ------------------------------------------------------ conversions

  /** `(string)$v`. */
  function ToPhpString(v: Value): string
  {
    match v
    case Null => ""
    case Bool(b) => if b then "1" else ""
    case Int(i) => DecimalString(i)
    case Str(s) => s
    case Arr(_) => "Array"
  }

  /** `(bool)$v`. */
  predicate Truthy(v: Value)
  {
    match v
    case Null => false
    case Bool(b) => b
    case Int(i) => i != 0
    case Str(s) => s != "" && s != "0"
    case Arr(a) => a.entries != []
  }

  /** `empty($s)` for a string. */
  predicate EmptyString(s: string) { s == "" || s == "0" }

  // ---------------------------------------------------------- arrays

  /** A PHP array: distinct keys, and every integer key below the next append index. */
  ghost predicate Wf(a: PArray)
  {
    UniqueKeys(a.entries) && forall n | IntKey(n) in Keys(a.entries) :: n < a.nextFree
  }

  const EmptyArray: PArray := PArray([], 0)

  function Get(a: PArray, k: Key): Option<Value> { Find(a.entries, k) }

  /** `isset($a[$k])`: present and not null. */
  predicate Isset(a: PArray, k: Key) { Get(a, k).Some? && Get(a, k).value != Null }

  /** `$a[$k] = $v`. */
  function Set(a: PArray, k: Key, v: Value): (r: PArray)
    ensures Wf(a) ==> Wf(r)
    ensures Keys(r.entries) == Keys(a.entries) + {k}
  {
    UniquePutWf(a, k, v);
    PArray(Put(a.entries, k, v), if k.IntKey? && k.n >= a.nextFree then k.n + 1 else a.nextFree)
  }

  lemma UniquePutWf(a: PArray, k: Key, v: Value)
    ensures UniqueKeys(a.entries) ==> UniqueKeys(Put(a.entries, k, v))
  {
    if UniqueKeys(a.entries) {
      UniquePut(a.entries, k, v);
    }
  }

  /** `unset($a[$k])`: the append index is not lowered. */
  function Unset(a: PArray, k: Key): (r: PArray)
    ensures Wf(a) ==> Wf(r)
    ensures Keys(r.entries) == Keys(a.entries) - {k}
  {
    UniqueRemoveWf(a, k);
    PArray(Remove(a.entries, k), a.nextFree)
  }

  /** `$a[] = $v`. */
  function Push(a: PArray, v: Value): (r: PArray)
    ensures Wf(a) ==> Wf(r) && r.entries == a.entries + [(IntKey(a.nextFree), v)]
    ensures Keys(r.entries) == Keys(a.entries) + {IntKey(a.nextFree)}
  {
    UniquePutWf(a, IntKey(a.nextFree), v);
    PArray(Put(a.entries, IntKey(a.nextFree), v), a.nextFree + 1)
  }

  /** The list literal `[$v]`. */
  function List1(v: Value): (r: PArray)
    ensures Wf(r)
  {
    PArray([(IntKey(0), v)], 1)
  }

  /** The list literal `[$v0, $v1]`. */
  function List2(v0: Value, v1: Value): (r: PArray)
    ensures Wf(r) && r == PArray([(IntKey(0), v0), (IntKey(1), v1)], 2)
  {
    Push(List1(v0), v1)
  }

  lemma UniqueRemoveWf(a: PArray, k: Key)
    ensures UniqueKeys(a.entries) ==> UniqueKeys(Remove(a.entries, k))
  {
    if UniqueKeys(a.entries) {
      UniqueRemove(a.entries, k);
    }
  }

  lemma GetSet(a: PArray, k: Key, v: Value, j: Key)
    ensures Get(Set(a, k, v), j) == if j == k then Some(v) else Get(a, j)
  {
    FindPut(a.entries, k, v, j);
  }

  lemma GetUnset(a: PArray, k: Key, j: Key)
    ensures Get(Unset(a, k), j) == if j == k then None else Get(a, j)
  {
    FindRemove(a.entries, k, j);
  }

  lemma GetPush(a: PArray, v: Value, j: Key)
    ensures Get(Push(a, v), j) == if j == IntKey(a.nextFree) then Some(v) else Get(a, j)
  {
    FindPut(a.entries, IntKey(a.nextFree), v, j);
  }
}
