/**
 * PHP's `http_build_query` with the RFC 1738 encoding (`urlencode`), as the
 * core calls it for the endpoint query string and for form-encoded POST
 * bodies: entries in array order, null entries skipped, `true`/`false` as
 * `1`/`0`, nested arrays flattened to `name%5Bkey%5D=value`, pairs joined by `&`.
 */
module Query {
  import opened Assoc
  import opened Php

  /** The bytes `urlencode` leaves alone: ASCII letters, digits, `-`, `_` and `.`. */
  predicate Unreserved(c: char)
  {
    ('a' <= c <= 'z') || ('A' <= c <= 'Z') || ('0' <= c <= '9') || c == '-' || c == '_' || c == '.'
  }

  /** The characters an encoded string can contain: never `&`, `=`, `?`, `#` or a space. */
  predicate SafeChar(c: char) { Unreserved(c) || c == '+' || c == '%' }

  predicate Safe(s: string) { forall i | 0 <= i < |s| :: SafeChar(s[i]) }

  function HexDigit(d: nat): (c: char)
    requires d < 16
    ensures Unreserved(c)
  {
    if d < 10 then ('0' as int + d) as char else ('A' as int + d - 10) as char
  }

  /** The UTF-8 bytes of one character. */
  function Utf8(c: char): (bs: seq<nat>)
    ensures 1 <= |bs| <= 4
    ensures forall i | 0 <= i < |bs| :: bs[i] < 256
    ensures (c as int) < 0x80 <==> bs == [c as int]
  {
    var n := c as int;
    if n < 0x80 then [n]
    else if n < 0x800 then [0xC0 + n / 0x40, 0x80 + n % 0x40]
    else if n < 0x10000 then [0xE0 + n / 0x1000, 0x80 + (n / 0x40) % 0x40, 0x80 + n % 0x40]
    else [0xF0 + n / 0x40000, 0x80 + (n / 0x1000) % 0x40, 0x80 + (n / 0x40) % 0x40, 0x80 + n % 0x40]
  }

  /** `urlencode` of one byte: kept, `+` for a space, `%XX` (upper-case hex) otherwise. */
  function EncodeByte(b: nat): (r: string)
    requires b < 256
    ensures Safe(r)
  {
    if b < 128 && Unreserved(b as char) then [b as char]
    else if b == 0x20 then "+"
    else ['%', HexDigit(b / 16), HexDigit(b % 16)]
  }

  function EncodeBytes(bs: seq<nat>): (r: string)
    requires forall i | 0 <= i < |bs| :: bs[i] < 256
    ensures Safe(r)
  {
    if bs == [] then "" else EncodeByte(bs[0]) + EncodeBytes(bs[1..])
  }

  /** PHP's `urlencode` of a string, read as UTF-8. */
  function UrlEncode(s: string): (r: string)
    ensures Safe(r)
    ensures |r| >= |s|
  {
    if s == [] then "" else EncodeBytes(Utf8(s[0])) + UrlEncode(s[1..])
  }

  /** A string made of unreserved characters is its own encoding. */
  lemma {:induction false} UrlEncodeUnreserved(s: string)
    requires forall i | 0 <= i < |s| :: Unreserved(s[i])
    ensures UrlEncode(s) == s
  {
    if s != [] {
      var n := s[0] as int;
      assert n < 128 && Utf8(s[0]) == [n];
      assert EncodeBytes([n]) == EncodeByte(n) == [s[0]];
      UrlEncodeUnreserved(s[1..]);
    }
  }

  /** An array key as it appears inside a flattened name. */
  function KeyName(k: Key): (r: string)
    ensures Safe(r)
  {
    match k
    case IntKey(n) =>
      assert forall i | 0 <= i < |DecimalString(n)| :: Unreserved(DecimalString(n)[i]) by {
        if n < 0 { assert DecimalString(n) == "-" + Digits(-n); }
      }
      UrlEncodeUnreserved(DecimalString(n));
      UrlEncode(DecimalString(n))
    case StrKey(s) => UrlEncode(s)
  }

  /** The flattened name of an entry of the array `name`: `name[key]`, brackets encoded. */
  function ChildName(name: string, k: Key): (r: string)
    requires Safe(name)
    ensures Safe(r)
  {
    name + "%5B" + KeyName(k) + "%5D"
  }

  /** How a scalar is written after `=`. */
  function ScalarText(v: Value): (r: string)
    requires !v.Null? && !v.Arr?
    ensures Safe(r)
  {
    match v
    case Bool(b) => if b then "1" else "0"
    case Int(i) => KeyName(IntKey(i))
    case Str(s) => UrlEncode(s)
  }

  /** The `name=value` pairs one value contributes under an already encoded name. */
  function ValuePairs(name: string, v: Value): (r: seq<(string, string)>)
    requires Safe(name)
    ensures forall j | 0 <= j < |r| :: Safe(r[j].0) && Safe(r[j].1)
    decreases v, 1
  {
    match v
    case Null => []
    case Arr(a) => ArrayPairs(name, a, 0)
    case _ => [(name, ScalarText(v))]
  }

  /** The pairs of the entries of a nested array from index `i` on. */
  function ArrayPairs(name: string, a: PArray, i: nat): (r: seq<(string, string)>)
    requires Safe(name)
    ensures forall j | 0 <= j < |r| :: Safe(r[j].0) && Safe(r[j].1)
    decreases a, |a.entries| - i
  {
    if i >= |a.entries| then []
    else ValuePairs(ChildName(name, a.entries[i].0), a.entries[i].1) + ArrayPairs(name, a, i + 1)
  }

  /** The pairs of a top-level parameter list with string keys. */
  function QueryPairs(p: Assoc<string, Value>): (r: seq<(string, string)>)
    ensures forall j | 0 <= j < |r| :: Safe(r[j].0) && Safe(r[j].1)
  {
    if p == [] then [] else ValuePairs(UrlEncode(p[0].0), p[0].1) + QueryPairs(p[1..])
  }

  function JoinPairs(ps: seq<(string, string)>): string
  {
    if ps == [] then ""
    else ps[0].0 + "=" + ps[0].1 + (if |ps| == 1 then "" else "&" + JoinPairs(ps[1..]))
  }

  /** `http_build_query($p, null, '&')`. */
  function BuildQuery(p: Assoc<string, Value>): string
  {
    JoinPairs(QueryPairs(p))
  }

  /** Whether a value has a non-null scalar somewhere inside it. */
  predicate HasLeaf(v: Value)
    decreases v, 1
  {
    match v
    case Null => false
    case Arr(a) => ArrayHasLeaf(a, 0)
    case _ => true
  }

  predicate ArrayHasLeaf(a: PArray, i: nat)
    decreases a, |a.entries| - i
  {
    i < |a.entries| && (HasLeaf(a.entries[i].1) || ArrayHasLeaf(a, i + 1))
  }

  lemma {:induction false} ValuePairsEmpty(name: string, v: Value)
    requires Safe(name)
    ensures ValuePairs(name, v) == [] <==> !HasLeaf(v)
    decreases v, 1
  {
    match v
    case Arr(a) => ArrayPairsEmpty(name, a, 0);
    case _ =>
  }

  lemma {:induction false} ArrayPairsEmpty(name: string, a: PArray, i: nat)
    requires Safe(name)
    ensures ArrayPairs(name, a, i) == [] <==> !ArrayHasLeaf(a, i)
    decreases a, |a.entries| - i
  {
    if i < |a.entries| {
      ValuePairsEmpty(ChildName(name, a.entries[i].0), a.entries[i].1);
      ArrayPairsEmpty(name, a, i + 1);
    }
  }

  lemma {:induction false} QueryPairsEmpty(p: Assoc<string, Value>)
    ensures QueryPairs(p) == [] <==> forall i | 0 <= i < |p| :: !HasLeaf(p[i].1)
  {
    if p != [] {
      ValuePairsEmpty(UrlEncode(p[0].0), p[0].1);
      QueryPairsEmpty(p[1..]);
      assert forall i | 1 <= i < |p| :: p[i] == p[1..][i - 1];
    }
  }

  /**
   * The query is empty exactly when no parameter holds a non-null scalar:
   * null entries (and arrays of nothing but nulls) are omitted.
   */
  lemma BuildQueryEmpty(p: Assoc<string, Value>)
    ensures BuildQuery(p) == "" <==> forall i | 0 <= i < |p| :: !HasLeaf(p[i].1)
  {
    QueryPairsEmpty(p);
    var ps := QueryPairs(p);
    if ps != [] {
      assert |JoinPairs(ps)| >= 1;
    }
  }
}
