/** The string built-ins of the JavaScript runtime that the compatibility
    route relies on: `trim`, `toUpperCase`, searching for a character, and the
    decimal rendering of an HTTP status code in a template literal. */
module JsString {

  /** The characters `String.prototype.trim` removes: ECMAScript WhiteSpace
      (tab, vertical tab, form feed, space, no-break space, byte order mark
      and the Zs space separators) and LineTerminator. */
  predicate IsWhite(c: char) {
    || c == '\t' || c == '\n' || c == '\U{B}' || c == '\U{C}' || c == '\r'
    || c == ' ' || c == '\U{A0}' || c == '\U{1680}'
    || ('\U{2000}' <= c <= '\U{200A}')
    || c == '\U{2028}' || c == '\U{2029}' || c == '\U{202F}' || c == '\U{205F}'
    || c == '\U{3000}' || c == '\U{FEFF}'
  }

  /** A string `trim` leaves unchanged: it neither starts nor ends with white space. */
  predicate IsTrimmed(s: string) {
    s == [] || (!IsWhite(s[0]) && !IsWhite(s[|s| - 1]))
  }

  function TrimStart(s: string): (r: string)
    ensures |r| <= |s| && r == s[|s| - |r|..]
    ensures r == [] || !IsWhite(r[0])
  {
    if |s| > 0 && IsWhite(s[0]) then TrimStart(s[1..]) else s
  }

  function TrimEnd(s: string): (r: string)
    ensures |r| <= |s| && r == s[..|r|]
    ensures r == [] || !IsWhite(r[|r| - 1])
  {
    if |s| > 0 && IsWhite(s[|s| - 1]) then TrimEnd(s[..|s| - 1]) else s
  }

  /** Every character `TrimStart` drops is white space. */
  lemma {:induction false} TrimStartDropsWhite(s: string)
    ensures forall i :: 0 <= i < |s| - |TrimStart(s)| ==> IsWhite(s[i])
  {
    if |s| > 0 && IsWhite(s[0]) {
      var t := s[1..];
      TrimStartDropsWhite(t);
      assert TrimStart(s) == TrimStart(t);
      var k := |t| - |TrimStart(t)|;
      forall i | 0 <= i < k + 1 ensures IsWhite(s[i]) {
        if i > 0 {
          assert s[i] == t[i - 1];
        }
      }
    }
  }

  /** Every character `TrimEnd` drops is white space. */
  lemma {:induction false} TrimEndDropsWhite(s: string)
    ensures forall i :: |TrimEnd(s)| <= i < |s| ==> IsWhite(s[i])
  {
    if |s| > 0 && IsWhite(s[|s| - 1]) {
      TrimEndDropsWhite(s[..|s| - 1]);
    }
  }

  /** `s.trim()`: the result has no white space at either end, and a
      string that has none there is returned as it is. */
  function Trim(s: string): (r: string)
    ensures IsTrimmed(r)
    ensures |r| <= |s|
    ensures IsTrimmed(s) ==> r == s
  {
    TrimEnd(TrimStart(s))
  }

  /** `trim` removes white space from the two ends and nothing else: the
      result is a part of `s` with only white space before and after it. */
  lemma TrimRemovesOnlyEnds(s: string)
    ensures exists a, b ::
      && 0 <= a <= b <= |s| && Trim(s) == s[a..b]
      && (forall i :: 0 <= i < a ==> IsWhite(s[i]))
      && (forall i :: b <= i < |s| ==> IsWhite(s[i]))
  {
    var t := TrimStart(s);
    TrimStartDropsWhite(s);
    TrimEndDropsWhite(t);
    var a := |s| - |t|;
    var e := TrimEnd(t);
    var b := a + |e|;
    assert t == s[a..];
    assert e == t[..|e|];
    assert Trim(s) == s[a..b];
    forall i | b <= i < |s| ensures IsWhite(s[i]) {
      assert s[i] == t[i - a];
      assert |e| <= i - a < |t|;
    }
    assert forall i :: 0 <= i < a ==> IsWhite(s[i]);
    assert 0 <= a <= b <= |s| && Trim(s) == s[a..b];
  }

  /** A string made only of white space trims to the empty string. */
  lemma {:induction false} TrimAllWhite(s: string)
    requires forall i :: 0 <= i < |s| ==> IsWhite(s[i])
    ensures Trim(s) == ""
  {
    if |s| > 0 {
      TrimAllWhite(s[1..]);
      assert TrimStart(s) == TrimStart(s[1..]);
    }
  }

  /** Appending a white-space character after a string that is not all
      white space extends its start-trimmed form by that character. */
  lemma {:induction false} TrimStartAppend(s: string, c: char)
    requires exists i :: 0 <= i < |s| && !IsWhite(s[i])
    ensures TrimStart(s + [c]) == TrimStart(s) + [c]
  {
    if IsWhite(s[0]) {
      var i :| 0 <= i < |s| && !IsWhite(s[i]);
      assert s[1..][i - 1] == s[i];
      assert (s + [c])[1..] == s[1..] + [c];
      TrimStartAppend(s[1..], c);
    }
  }

  /** Trimming ignores a trailing white-space character. */
  lemma TrimDropsTrailingWhite(s: string, c: char)
    requires IsWhite(c)
    ensures Trim(s + [c]) == Trim(s)
  {
    if exists i :: 0 <= i < |s| && !IsWhite(s[i]) {
      TrimStartAppend(s, c);
      var t := TrimStart(s);
      assert (t + [c])[..|t|] == t;
      assert TrimEnd(t + [c]) == TrimEnd(t);
    } else {
      TrimAllWhite(s);
      assert forall i :: 0 <= i < |s + [c]| ==> IsWhite((s + [c])[i]);
      TrimAllWhite(s + [c]);
    }
  }

  predicate IsAsciiLower(c: char) { 'a' <= c <= 'z' }

  predicate IsAsciiLetter(c: char) { IsAsciiLower(c) || 'A' <= c <= 'Z' }

  function UpperChar(c: char): char {
    if IsAsciiLower(c) then (c as int - 32) as char else c
  }

  /** `s.toUpperCase()` restricted to ASCII: every lower-case ASCII letter is
      replaced by its capital, every other character is kept, and the length
      does not change. */
  function ToUpper(s: string): (r: string)
    ensures |r| == |s|
    ensures forall i :: 0 <= i < |s| ==> !IsAsciiLower(r[i])
    ensures forall i :: 0 <= i < |s| && !IsAsciiLower(s[i]) ==> r[i] == s[i]
    ensures forall i :: 0 <= i < |s| && IsAsciiLower(s[i]) ==> r[i] as int == s[i] as int - 32
  {
    seq(|s|, i requires 0 <= i < |s| => UpperChar(s[i]))
  }

  /** Upper-casing twice is upper-casing once. */
  lemma ToUpperIdempotent(s: string)
    ensures ToUpper(ToUpper(s)) == ToUpper(s)
  {
  }

  /** The index of the first `c` in `s`, or `|s|` when `s` has no `c`. */
  function IndexOf(s: string, c: char): (i: nat)
    ensures i <= |s|
    ensures i < |s| ==> s[i] == c
    ensures c !in s[..i]
    ensures i == |s| <==> c !in s
  {
    if s == [] then 0
    else if s[0] == c then 0
    else
      assert s[1..][..IndexOf(s[1..], c)] == s[1..1 + IndexOf(s[1..], c)];
      1 + IndexOf(s[1..], c)
  }

  /** The index of the last `c` in `s`, or -1 when `s` has no `c`. */
  function LastIndexOf(s: string, c: char): (j: int)
    ensures -1 <= j < |s|
    ensures j >= 0 ==> s[j] == c
    ensures c !in s[j + 1..]
    ensures j == -1 <==> c !in s
  {
    if s == [] then -1
    else if s[|s| - 1] == c then |s| - 1
    else
      var j := LastIndexOf(s[..|s| - 1], c);
      assert s[j + 1..] == s[..|s| - 1][j + 1..] + [s[|s| - 1]];
      j
  }

  function DigitChar(d: nat): char
    requires d < 10
  {
    "0123456789"[d]
  }

  /** The decimal rendering of a natural number, as a template literal
      renders an HTTP status code: digits only, with no leading zero except
      for zero itself. */
  function Decimal(n: nat): (r: string)
    ensures |r| > 0
    ensures forall i :: 0 <= i < |r| ==> '0' <= r[i] <= '9'
    ensures r[0] == '0' <==> n == 0
    ensures n == 0 ==> r == "0"
  {
    if n < 10 then [DigitChar(n)] else Decimal(n / 10) + [DigitChar(n % 10)]
  }

  /** The value of a non-empty string of decimal digits. */
  function DecimalValue(s: string): nat
    requires forall i :: 0 <= i < |s| ==> '0' <= s[i] <= '9'
  {
    if s == [] then 0 else 10 * DecimalValue(s[..|s| - 1]) + (s[|s| - 1] as int - '0' as int)
  }

  /** Reading back the decimal rendering gives the number that was rendered. */
  lemma {:induction false} DecimalRoundTrip(n: nat)
    ensures DecimalValue(Decimal(n)) == n
  {
    if n >= 10 {
      DecimalRoundTrip(n / 10);
      var r := Decimal(n);
      assert r[..|r| - 1] == Decimal(n / 10);
    }
  }
}
