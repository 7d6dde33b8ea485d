/**
 * The JavaScript string primitives the core relies on: `String(n)` for
 * integers, `Number(s)`/`parseInt(s)` on decimal text, `s.split(sep)`,
 * `s.trim()`, the `\s` character class and ASCII case mapping.
 */
module Strings {
  import opened Wrappers

  // ---------------------------------------------------------------------
  // Decimal text of integers
  // ---------------------------------------------------------------------

  predicate IsDigit(c: char) { '0' <= c <= '9' }

  function DigitChar(d: nat): (c: char)
    requires d < 10
    ensures IsDigit(c)
  {
    ('0' as int + d) as char
  }

  function DigitValue(c: char): (d: nat)
    requires IsDigit(c)
    ensures d < 10 && DigitChar(d) == c
  {
    (c as int - '0' as int) as nat
  }

  /** Decimal digits of a natural number, most significant first. */
  function NatText(n: nat): (s: string)
    ensures |s| >= 1
    ensures forall i :: 0 <= i < |s| ==> IsDigit(s[i])
    decreases n
  {
    if n < 10 then [DigitChar(n)] else NatText(n / 10) + [DigitChar(n % 10)]
  }

  /** `String(n)` / `${n}` for an integer. */
  function IntText(n: int): (r: string)
  {
    if n < 0 then "-" + NatText(-n) else NatText(n)
  }

  /** Value of a non-empty run of decimal digits. */
  function DigitsValue(s: string): (r: nat)
    requires forall i :: 0 <= i < |s| ==> IsDigit(s[i])
    decreases |s|
  {
    if s == [] then 0 else DigitsValue(s[..|s| - 1]) * 10 + DigitValue(s[|s| - 1])
  }

  predicate AllDigits(s: string)
  {
    |s| >= 1 && forall i :: 0 <= i < |s| ==> IsDigit(s[i])
  }

  /**
   * `Number(s)` restricted to optionally signed decimal integers; any other
   * text is `NaN`, modelled as `None`. Every id half of a bucket key is
   * produced by `IntText`, so this is the only shape that reaches it.
   */
  function ParseNumber(s: string): (r: Option<int>)
  {
    if |s| >= 2 && s[0] == '-' && AllDigits(s[1..]) then Some(-(DigitsValue(s[1..]) as int))
    else if AllDigits(s) then Some(DigitsValue(s) as int)
    else None
  }

  lemma {:induction false} DigitsValueOfNatText(n: nat)
    ensures DigitsValue(NatText(n)) == n
    decreases n
  {
    if n >= 10 {
      var q, r := n / 10, n % 10;
      assert NatText(n) == NatText(q) + [DigitChar(r)];
      DigitsSnoc(NatText(q), DigitChar(r));
      DigitsValueOfNatText(q);
    }
  }

  lemma DigitsSnoc(s: string, c: char)
    requires forall i :: 0 <= i < |s| ==> IsDigit(s[i])
    requires IsDigit(c)
    ensures DigitsValue(s + [c]) == DigitsValue(s) * 10 + DigitValue(c)
  {
    assert (s + [c])[..|s|] == s;
  }

  lemma ParseNegativeText(n: int)
    requires n < 0
    ensures ParseNumber(IntText(n)) == Some(n)
  {
    var m: nat := -n;
    var d := NatText(m);
    DigitsValueOfNatText(m);
    SignedParse(d, m);
    assert IntText(n) == "-" + d;
  }

  lemma SignedParse(d: string, v: nat)
    requires d != [] && AllDigits(d) && DigitsValue(d) == v
    ensures ParseNumber("-" + d) == Some(-(v as int))
  {
    var t := "-" + d;
    assert t[1..] == d;
  }

  lemma ParseNonNegativeText(n: int)
    requires n >= 0
    ensures ParseNumber(IntText(n)) == Some(n)
  {
    var d := NatText(n);
    assert IntText(n) == d;
    assert IsDigit(d[0]);
    assert AllDigits(d);
    DigitsValueOfNatText(n);
  }

  /** `Number(String(n)) == n`: the decimal text of an id parses back to the id. */
  lemma ParseIntText(n: int)
    ensures ParseNumber(IntText(n)) == Some(n)
  {
    if n < 0 { ParseNegativeText(n); } else { ParseNonNegativeText(n); }
  }

  lemma IntTextShape(n: int)
    ensures |IntText(n)| >= 1
    ensures IsDigit(IntText(n)[|IntText(n)| - 1])
    ensures forall i :: 0 <= i < |IntText(n)| ==> IsDigit(IntText(n)[i]) || (i == 0 && IntText(n)[i] == '-')
  {
  }

  lemma IntTextInjective(a: int, b: int)
    requires IntText(a) == IntText(b)
    ensures a == b
  {
    ParseIntText(a);
    ParseIntText(b);
  }

  /** `x || fallback` on a string. */
  function OrElse(x: string, fallback: string): (r: string)
    ensures x != "" ==> r == x
    ensures x == "" ==> r == fallback
  {
    if x != "" then x else fallback
  }

  /** The longest prefix of `s` made of decimal digits. */
  function DigitPrefix(s: string): (r: string)
    ensures |r| <= |s| && r == s[..|r|]
    ensures forall i :: 0 <= i < |r| ==> IsDigit(r[i])
    ensures |r| == |s| || !IsDigit(s[|r|])
  {
    if s != [] && IsDigit(s[0]) then [s[0]] + DigitPrefix(s[1..]) else []
  }

  /**
   * `parseInt(s)`, decimal only (the `0x` prefix is not read): leading
   * whitespace is skipped, an optional
   * sign is read, then the longest run of digits; `NaN` (`None`) when
   * there is no digit. Digits after the run are ignored.
   */
  function ParseInt(s: string): (r: Option<int>)
  {
    var t := TrimStart(s);
    var signed := |t| >= 1 && (t[0] == '-' || t[0] == '+');
    var d := DigitPrefix(if signed then t[1..] else t);
    if d == [] then None
    else if signed && t[0] == '-' then Some(-(DigitsValue(d) as int))
    else Some(DigitsValue(d) as int)
  }

  /** `parseInt(String(n)) === n`. */
  lemma ParseIntOfText(n: int)
    ensures ParseInt(IntText(n)) == Some(n)
  {
    var t := IntText(n);
    IntTextShape(n);
    assert !IsWhitespace(t[0]);
    assert TrimStart(t) == t;
    DigitsValueOfNatText(if n < 0 then -n else n);
    if n < 0 {
      assert t[1..] == NatText(-n);
      assert DigitPrefix(t[1..]) == t[1..];
    } else {
      assert IsDigit(t[0]);
      assert DigitPrefix(t) == t;
    }
  }

  // ---------------------------------------------------------------------
  // String.prototype.split with a non-empty separator
  // ---------------------------------------------------------------------

  predicate OccursAt(s: string, sep: string, k: nat)
  {
    k + |sep| <= |s| && s[k..k + |sep|] == sep
  }

  /** `s.indexOf(sep, k)`: the first occurrence at or after `k`, or -1. */
  function IndexOf(s: string, sep: string, k: nat): (r: int)
    requires |sep| > 0
    ensures r == -1 || (k <= r && OccursAt(s, sep, r))
    ensures forall j :: k <= j && (r == -1 || j < r) ==> !OccursAt(s, sep, j)
    decreases |s| - k
  {
    if k + |sep| > |s| then -1
    else if s[k..k + |sep|] == sep then k
    else IndexOf(s, sep, k + 1)
  }

  /** `s.split(sep)` for a non-empty literal separator. */
  function Split(s: string, sep: string): (parts: seq<string>)
    requires |sep| > 0
    ensures |parts| >= 1
    decreases |s|
  {
    var i := IndexOf(s, sep, 0);
    if i < 0 then [s] else [s[..i]] + Split(s[i + |sep|..], sep)
  }

  /** The inverse of `Split`: `parts.join(sep)`. */
  function JoinWith(parts: seq<string>, sep: string): (r: string)
    requires |parts| >= 1
  {
    if |parts| == 1 then parts[0] else parts[0] + sep + JoinWith(parts[1..], sep)
  }

  /** An occurrence of `sep` at `j` needs every character of `sep` in place. */
  lemma NotOccursAt(s: string, sep: string, j: nat, q: nat)
    requires q < |sep| && j + q < |s| && s[j + q] != sep[q]
    ensures !OccursAt(s, sep, j)
  {
    if j + |sep| <= |s| { assert s[j..j + |sep|][q] == s[j + q]; }
  }

  lemma {:induction false} NoOccurrenceSplit(s: string, sep: string)
    requires |sep| > 0
    requires forall j :: 0 <= j ==> !OccursAt(s, sep, j)
    ensures Split(s, sep) == [s]
  {
  }

  /** Joining and splitting again gives back the parts when no part holds the separator. */
  lemma {:induction false} SplitJoin(parts: seq<string>, sep: string)
    requires |parts| >= 1 && |sep| == 1
    requires forall i, j :: 0 <= i < |parts| && 0 <= j < |parts[i]| ==> parts[i][j] != sep[0]
    ensures Split(JoinWith(parts, sep), sep) == parts
    decreases |parts|
  {
    var s := JoinWith(parts, sep);
    if |parts| == 1 {
      forall j | 0 <= j ensures !OccursAt(s, sep, j) {
        if j < |s| { NotOccursAt(s, sep, j, 0); }
      }
      NoOccurrenceSplit(s, sep);
    } else {
      var p := parts[0];
      var rest := JoinWith(parts[1..], sep);
      assert s == p + sep + rest;
      forall j | 0 <= j < |p| ensures !OccursAt(s, sep, j) {
        assert s[j] == p[j];
        NotOccursAt(s, sep, j, 0);
      }
      assert OccursAt(s, sep, |p|) by { assert s[|p|..|p| + 1] == sep; }
      var i := IndexOf(s, sep, 0);
      assert i == |p|;
      assert s[..i] == p;
      assert s[i + 1..] == rest;
      SplitJoin(parts[1..], sep);
    }
  }

  // ---------------------------------------------------------------------
  // Whitespace, trim, case mapping
  // ---------------------------------------------------------------------

  /** The characters matched by `\s` and removed by `trim()` (ECMAScript WhiteSpace and LineTerminator). */
  predicate IsWhitespace(c: char)
  {
    var u := c as int;
    (0x09 <= u <= 0x0D) || u == 0x20 || u == 0xA0 || u == 0x1680 || (0x2000 <= u <= 0x200A)
    || u == 0x2028 || u == 0x2029 || u == 0x202F || u == 0x205F || u == 0x3000 || u == 0xFEFF
  }

  function TrimStart(s: string): (r: string)
    ensures |r| <= |s|
    ensures r == [] || !IsWhitespace(r[0])
  {
    if s != [] && IsWhitespace(s[0]) then TrimStart(s[1..]) else s
  }

  function TrimEnd(s: string): (r: string)
    ensures |r| <= |s|
  {
    if s != [] && IsWhitespace(s[|s| - 1]) then TrimEnd(s[..|s| - 1]) else s
  }

  /** `s.trim()`. */
  function Trim(s: string): (r: string)
  {
    TrimEnd(TrimStart(s))
  }

  predicate AllWhitespace(s: string)
  {
    forall i :: 0 <= i < |s| ==> IsWhitespace(s[i])
  }

  lemma {:induction false} TrimStartEmpty(s: string)
    ensures TrimStart(s) == [] <==> AllWhitespace(s)
    decreases |s|
  {
    if s != [] && IsWhitespace(s[0]) {
      TrimStartEmpty(s[1..]);
      assert AllWhitespace(s) <==> AllWhitespace(s[1..]) by {
        if AllWhitespace(s[1..]) {
          forall i | 0 <= i < |s| ensures IsWhitespace(s[i]) { if i > 0 { assert s[i] == s[1..][i - 1]; } }
        }
      }
    }
  }

  lemma {:induction false} TrimEndOfNonWhitespaceStart(s: string)
    requires s != [] && !IsWhitespace(s[0])
    ensures TrimEnd(s) != []
    decreases |s|
  {
    if IsWhitespace(s[|s| - 1]) {
      TrimEndOfNonWhitespaceStart(s[..|s| - 1]);
    }
  }

  /** `s.trim() === ''` holds exactly when every character of `s` is whitespace. */
  lemma TrimEmpty(s: string)
    ensures Trim(s) == [] <==> AllWhitespace(s)
  {
    TrimStartEmpty(s);
    var t := TrimStart(s);
    if t != [] {
      assert !IsWhitespace(t[0]);
      TrimEndOfNonWhitespaceStart(t);
    }
  }

  function LowerChar(c: char): (r: char)
  {
    if 'A' <= c <= 'Z' then (c as int + 32) as char else c
  }

  function UpperChar(c: char): (r: char)
  {
    if 'a' <= c <= 'z' then (c as int - 32) as char else c
  }

  /** `s.toLowerCase()` on ASCII letters. */
  function ToLower(s: string): (r: string)
    ensures |r| == |s|
    ensures forall i :: 0 <= i < |s| ==> r[i] == LowerChar(s[i])
  {
    seq(|s|, i requires 0 <= i < |s| => LowerChar(s[i]))
  }

  /** `s.toUpperCase()` on ASCII letters. */
  function ToUpper(s: string): (r: string)
    ensures |r| == |s|
    ensures forall i :: 0 <= i < |s| ==> r[i] == UpperChar(s[i])
  {
    seq(|s|, i requires 0 <= i < |s| => UpperChar(s[i]))
  }

  predicate IsUpperLetter(c: char)
  {
    'A' <= c <= 'Z'
  }

  predicate IsLowerLetter(c: char)
  {
    'a' <= c <= 'z'
  }

  /**
   * Lower-casing leaves no upper-case letter, changes nothing but the
   * upper-case letters, is idempotent, and forgets what upper-casing did.
   */
  lemma LowerLaws(s: string)
    ensures forall i :: 0 <= i < |s| ==> !IsUpperLetter(ToLower(s)[i])
    ensures forall i :: 0 <= i < |s| && !IsUpperLetter(s[i]) ==> ToLower(s)[i] == s[i]
    ensures forall i :: 0 <= i < |s| && IsUpperLetter(s[i]) ==> IsLowerLetter(ToLower(s)[i]) && ToUpper(ToLower(s))[i] == s[i]
    ensures ToLower(ToLower(s)) == ToLower(s)
    ensures ToLower(ToUpper(s)) == ToLower(s)
  {
    var l := ToLower(s);
    assert forall i :: 0 <= i < |s| ==> ToLower(l)[i] == l[i];
    assert forall i :: 0 <= i < |s| ==> ToLower(ToUpper(s))[i] == l[i];
  }

  /** The mirror image for upper-casing. */
  lemma UpperLaws(s: string)
    ensures forall i :: 0 <= i < |s| ==> !IsLowerLetter(ToUpper(s)[i])
    ensures forall i :: 0 <= i < |s| && !IsLowerLetter(s[i]) ==> ToUpper(s)[i] == s[i]
    ensures forall i :: 0 <= i < |s| && IsLowerLetter(s[i]) ==> IsUpperLetter(ToUpper(s)[i]) && ToLower(ToUpper(s))[i] == s[i]
    ensures ToUpper(ToUpper(s)) == ToUpper(s)
    ensures ToUpper(ToLower(s)) == ToUpper(s)
  {
    var u := ToUpper(s);
    assert forall i :: 0 <= i < |s| ==> ToUpper(u)[i] == u[i];
    assert forall i :: 0 <= i < |s| ==> ToUpper(ToLower(s))[i] == u[i];
  }
}
