/**
 * The string helpers of `Format`: snake_case to CamelCase and digit
 * extraction. Each helper is the composition of the PHP library calls the
 * source uses (`str_replace`, `ucwords`, `lcfirst`, `preg_replace('/\D/', ...)`),
 * written out character by character; `ucwords` and `lcfirst` change ASCII
 * letters only.
 */
module Format {
  import opened Php

  function ToUpper(c: char): char
  {
    if 'a' <= c <= 'z' then (c as int - 32) as char else c
  }

  function ToLower(c: char): char
  {
    if 'A' <= c <= 'Z' then (c as int + 32) as char else c
  }

  /** The default word delimiters of `ucwords`: space, tab, CR, LF, form feed, vertical tab. */
  predicate IsWordDelimiter(c: char)
  {
    c == ' ' || c == '\t' || c == '\r' || c == '\n' || c == '\U{000C}' || c == '\U{000B}'
  }

  /** `str_replace($from, $to, $s)` for single characters. */
  function ReplaceChar(s: string, from: char, to: char): (r: string)
    ensures |r| == |s|
    ensures forall i | 0 <= i < |s| :: r[i] == if s[i] == from then to else s[i]
  {
    if s == [] then "" else [if s[0] == from then to else s[0]] + ReplaceChar(s[1..], from, to)
  }

  /** `str_replace($c, '', $s)` for a single character. */
  function RemoveChar(s: string, c: char): (r: string)
    ensures forall i | 0 <= i < |r| :: r[i] != c
  {
    if s == [] then "" else (if s[0] == c then "" else [s[0]]) + RemoveChar(s[1..], c)
  }

  /** `ucwords`, continuing a string whose previous character was a delimiter iff `capitalize`. */
  function UcWordsFrom(s: string, capitalize: bool): (r: string)
    ensures |r| == |s|
  {
    if s == [] then ""
    else [if capitalize then ToUpper(s[0]) else s[0]] + UcWordsFrom(s[1..], IsWordDelimiter(s[0]))
  }

  /** `ucwords($s)`: the first character and every character after a delimiter upper-cased. */
  function UcWords(s: string): string { UcWordsFrom(s, true) }

  /** `Format::upperCamelCase`. */
  function UpperCamelCase(s: string): string
  {
    RemoveChar(UcWords(ReplaceChar(s, '_', ' ')), ' ')
  }

  /** `lcfirst($s)`. */
  function LcFirst(s: string): string
  {
    if s == [] then "" else [ToLower(s[0])] + s[1..]
  }

  /** `Format::lowerCamelCase`. */
  function LowerCamelCase(s: string): (r: string)
    ensures |r| == |UpperCamelCase(s)|
    ensures r != [] ==> r[0] == ToLower(UpperCamelCase(s)[0]) && r[1..] == UpperCamelCase(s)[1..]
  {
    LcFirst(RemoveChar(UcWords(ReplaceChar(s, '_', ' ')), ' '))
  }

  /**
   * A one-pass reading of `upperCamelCase`: `_` and spaces are dropped, and a
   * kept character is upper-cased iff it is the first character of the input
   * or follows `_` or a `ucwords` delimiter; every other character is kept as it is.
   */
  function CamelCase(s: string, capitalize: bool): string
  {
    if s == [] then ""
    else if s[0] == '_' || s[0] == ' ' then CamelCase(s[1..], true)
    else [if capitalize then ToUpper(s[0]) else s[0]] + CamelCase(s[1..], IsWordDelimiter(s[0]))
  }

  function Count(s: string, c: char): nat
  {
    if s == [] then 0 else (if s[0] == c then 1 else 0) + Count(s[1..], c)
  }

  lemma {:induction false} CamelCaseSteps(s: string, capitalize: bool)
    ensures RemoveChar(UcWordsFrom(ReplaceChar(s, '_', ' '), capitalize), ' ') == CamelCase(s, capitalize)
  {
    if s != [] {
      var t := ReplaceChar(s, '_', ' ');
      assert t[1..] == ReplaceChar(s[1..], '_', ' ');
      var c := if capitalize then ToUpper(t[0]) else t[0];
      assert UcWordsFrom(t, capitalize) == [c] + UcWordsFrom(t[1..], IsWordDelimiter(t[0]));
      CamelCaseSteps(s[1..], IsWordDelimiter(t[0]));
      if s[0] == '_' || s[0] == ' ' {
        assert t[0] == ' ' && c == ' ';
      } else {
        assert t[0] == s[0] && IsWordDelimiter(t[0]) == IsWordDelimiter(s[0]);
        assert c != ' ';
      }
    }
  }

  /** `upperCamelCase` agrees with the one-pass reading. */
  lemma UpperCamelCaseIsCamelCase(s: string)
    ensures UpperCamelCase(s) == CamelCase(s, true)
  {
    CamelCaseSteps(s, true);
  }

  lemma {:induction false} CamelCaseShape(s: string, capitalize: bool)
    ensures |CamelCase(s, capitalize)| == |s| - Count(s, '_') - Count(s, ' ')
    ensures forall i | 0 <= i < |CamelCase(s, capitalize)| ::
              CamelCase(s, capitalize)[i] != '_' && CamelCase(s, capitalize)[i] != ' '
  {
    if s != [] {
      CamelCaseShape(s[1..], true);
      CamelCaseShape(s[1..], IsWordDelimiter(s[0]));
    }
  }

  /** `upperCamelCase` drops exactly the `_` and space characters and keeps every other one. */
  lemma UpperCamelCaseShape(s: string)
    ensures |UpperCamelCase(s)| == |s| - Count(s, '_') - Count(s, ' ')
    ensures forall i | 0 <= i < |UpperCamelCase(s)| :: UpperCamelCase(s)[i] != '_' && UpperCamelCase(s)[i] != ' '
  {
    UpperCamelCaseIsCamelCase(s);
    CamelCaseShape(s, true);
  }

  predicate IsLetter(c: char) { ('a' <= c <= 'z') || ('A' <= c <= 'Z') }

  predicate IsWord(w: string) { |w| > 0 && forall i | 0 <= i < |w| :: IsLetter(w[i]) }

  /** A word is kept as it is, its first letter upper-cased iff `capitalize`. */
  lemma {:induction false} CamelCaseWord(w: string, rest: string, capitalize: bool)
    requires IsWord(w)
    ensures CamelCase(w + rest, capitalize)
            == [if capitalize then ToUpper(w[0]) else w[0]] + w[1..] + CamelCase(rest, false)
  {
    var s := w + rest;
    assert s[0] == w[0] && s[1..] == w[1..] + rest;
    if |w| > 1 {
      CamelCaseWord(w[1..], rest, false);
      assert [w[1]] + w[1..][1..] == w[1..];
    } else {
      assert w[1..] + rest == rest;
    }
  }

  /** Two words joined by `_` become the two words capitalised and run together. */
  lemma UpperCamelCaseWords(w1: string, w2: string)
    requires IsWord(w1) && IsWord(w2)
    ensures UpperCamelCase(w1 + "_" + w2) == [ToUpper(w1[0])] + w1[1..] + [ToUpper(w2[0])] + w2[1..]
  {
    UpperCamelCaseIsCamelCase(w1 + "_" + w2);
    assert w1 + "_" + w2 == w1 + ("_" + w2);
    CamelCaseWord(w1, "_" + w2, true);
    assert ("_" + w2)[1..] == w2 + "";
    CamelCaseWord(w2, "", true);
  }

  /** The lower-camel form starts with the first word as it is, when that begins in lower case. */
  lemma LowerCamelCaseWords(w1: string, w2: string)
    requires IsWord(w1) && IsWord(w2) && 'a' <= w1[0] <= 'z'
    ensures LowerCamelCase(w1 + "_" + w2) == w1 + [ToUpper(w2[0])] + w2[1..]
  {
    UpperCamelCaseWords(w1, w2);
    var u := UpperCamelCase(w1 + "_" + w2);
    assert u[0] == ToUpper(w1[0]) && ToLower(u[0]) == w1[0];
    assert u[1..] == w1[1..] + [ToUpper(w2[0])] + w2[1..];
    assert w1 == [w1[0]] + w1[1..];
  }

  /** The conversion the helpers are named for: `snake_case` becomes `SnakeCase`... */
  lemma SnakeCaseUpper()
    ensures UpperCamelCase("snake_case") == "SnakeCase"
  {
    assert "snake_case" == "snake" + "_" + "case";
    UpperCamelCaseWords("snake", "case");
    assert [ToUpper('s')] + "nake" + [ToUpper('c')] + "ase" == "SnakeCase";
  }

  /** ... and `snakeCase` in lower camel case. */
  lemma SnakeCaseLower()
    ensures LowerCamelCase("snake_case") == "snakeCase"
  {
    assert "snake_case" == "snake" + "_" + "case";
    LowerCamelCaseWords("snake", "case");
    assert "snake" + [ToUpper('c')] + "ase" == "snakeCase";
  }

  /** A string with its ASCII letters lower-cased, as PHP compares method names. */
  function LowerAscii(s: string): (r: string)
    ensures |r| == |s|
  {
    if s == [] then "" else [ToLower(s[0])] + LowerAscii(s[1..])
  }

  /** The static methods `Format` declares. */
  const METHODS: seq<string> := ["lowerCamelCase", "upperCamelCase", "onlyNumbers"]

  /** Whether `Format::name(...)` resolves: method names match case-insensitively. */
  predicate Declares(name: string)
  {
    exists i | 0 <= i < |METHODS| :: LowerAscii(METHODS[i]) == LowerAscii(name)
  }

  /** Neither spelling of `camelCase` is a method of `Format`, whatever its case. */
  lemma CamelCaseUndeclared()
    ensures !Declares("camelCase") && !Declares("CamelCase")
  {
    forall i | 0 <= i < |METHODS|
      ensures LowerAscii(METHODS[i]) != LowerAscii("camelCase")
      ensures LowerAscii(METHODS[i]) != LowerAscii("CamelCase")
    {
      assert |METHODS[i]| != 9;
    }
  }

  /** `Format::onlyNumbers`: `preg_replace('/\D/', '', $s)` keeps the ASCII digits, in order. */
  function OnlyNumbers(s: string): (r: string)
    ensures AllDigits(r)
    ensures |r| <= |s|
  {
    if s == [] then ""
    else (if IsDigit(s[0]) then [s[0]] else "") + OnlyNumbers(s[1..])
  }

  function CountDigits(s: string): nat
  {
    if s == [] then 0 else (if IsDigit(s[0]) then 1 else 0) + CountDigits(s[1..])
  }

  /** `t` can be obtained from `s` by deleting characters. */
  predicate IsSubsequence(t: string, s: string)
    decreases |s|
  {
    if t == [] then true
    else if s == [] then false
    else if t[0] == s[0] then IsSubsequence(t[1..], s[1..])
    else IsSubsequence(t, s[1..])
  }

  /** The result is an in-order selection of the input holding every digit of it. */
  lemma {:induction false} OnlyNumbersSelects(s: string)
    ensures IsSubsequence(OnlyNumbers(s), s)
    ensures |OnlyNumbers(s)| == CountDigits(s)
  {
    if s != [] {
      OnlyNumbersSelects(s[1..]);
      if IsDigit(s[0]) {
        assert OnlyNumbers(s)[1..] == OnlyNumbers(s[1..]);
      } else {
        assert OnlyNumbers(s) == OnlyNumbers(s[1..]);
        SubsequenceSkip(OnlyNumbers(s[1..]), s);
      }
    }
  }

  lemma {:induction false} SubsequenceSkip(t: string, s: string)
    requires s != [] && IsSubsequence(t, s[1..])
    ensures IsSubsequence(t, s)
    decreases |s|, 1
  {
    if t != [] && t[0] == s[0] {
      if |s| > 1 {
        SubsequenceShorter(t, s[1..]);
      }
    }
  }

  /** Dropping the first character of a subsequence keeps it a subsequence. */
  lemma {:induction false} SubsequenceShorter(t: string, s: string)
    requires t != [] && IsSubsequence(t, s)
    ensures IsSubsequence(t[1..], s)
    decreases |s|, 2
  {
    if s != [] {
      if t[0] == s[0] {
        if t[1..] != [] {
          SubsequenceSkip(t[1..], s);
        }
      } else {
        SubsequenceShorter(t, s[1..]);
        if t[1..] != [] {
          SubsequenceSkip(t[1..], s);
        }
      }
    }
  }

  /** A string of digits is left as it is. */
  lemma {:induction false} OnlyNumbersOfDigits(s: string)
    requires AllDigits(s)
    ensures OnlyNumbers(s) == s
  {
    if s != [] {
      OnlyNumbersOfDigits(s[1..]);
    }
  }

  /** Extracting digits twice is extracting them once. */
  lemma OnlyNumbersIdempotent(s: string)
    ensures OnlyNumbers(OnlyNumbers(s)) == OnlyNumbers(s)
  {
    OnlyNumbersOfDigits(OnlyNumbers(s));
  }

  /** Digit extraction works piecewise over concatenation. */
  lemma {:induction false} OnlyNumbersConcat(a: string, b: string)
    ensures OnlyNumbers(a + b) == OnlyNumbers(a) + OnlyNumbers(b)
  {
    if a != [] {
      assert (a + b)[0] == a[0] && (a + b)[1..] == a[1..] + b;
      OnlyNumbersConcat(a[1..], b);
      var h := if IsDigit(a[0]) then [a[0]] else "";
      assert OnlyNumbers(a + b) == h + OnlyNumbers(a[1..] + b);
      assert OnlyNumbers(a) == h + OnlyNumbers(a[1..]);
    } else {
      assert a + b == b;
    }
  }
}
