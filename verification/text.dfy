/** The Python string operations the robot protocol relies on: `str.strip()`,
    `str.strip(chars)`, `str.split(sep)`, `str(int)`, `int(str)` and `str.lower()`. */
module Text {
  import opened Options

  /** The characters for which Python's `str.isspace()` holds; `str.strip()` removes them. */
  const Whitespace: set<char> := {
    '\t', '\n', '\U{0B}', '\U{0C}', '\r', '\U{1C}', '\U{1D}', '\U{1E}', '\U{1F}', ' ', '\U{85}', '\U{A0}',
    '\U{1680}', '\U{2000}', '\U{2001}', '\U{2002}', '\U{2003}', '\U{2004}', '\U{2005}', '\U{2006}',
    '\U{2007}', '\U{2008}', '\U{2009}', '\U{200A}', '\U{2028}', '\U{2029}', '\U{202F}', '\U{205F}',
    '\U{3000}'}

  /** The argument of `data.strip('()')`. */
  const Parens: set<char> := {'(', ')'}

  /** Removes the longest prefix made of characters of `drop`. */
  function TrimLeft(s: string, drop: set<char>): string {
    if s != [] && s[0] in drop then TrimLeft(s[1..], drop) else s
  }

  /** Removes the longest suffix made of characters of `drop`. */
  function TrimRight(s: string, drop: set<char>): string {
    if s != [] && s[|s| - 1] in drop then TrimRight(s[..|s| - 1], drop) else s
  }

  /** Python's `s.strip()`. */
  function Strip(s: string): string {
    TrimRight(TrimLeft(s, Whitespace), Whitespace)
  }

  /** Python's `s.strip('()')`. */
  function StripParens(s: string): string {
    TrimRight(TrimLeft(s, Parens), Parens)
  }

  /** A string whose ends are already not removable is left as it is. */
  lemma TrimKeeps(s: string, drop: set<char>)
    requires s == [] || (s[0] !in drop && s[|s| - 1] !in drop)
    ensures TrimRight(TrimLeft(s, drop), drop) == s
  {
  }

  lemma StripKeeps(s: string)
    requires s == [] || (s[0] !in Whitespace && s[|s| - 1] !in Whitespace)
    ensures Strip(s) == s
  {
    TrimKeeps(s, Whitespace);
  }

  /** `strip()` of a line whose text has no removable ends removes just the newline. */
  lemma StripLine(s: string)
    requires s != [] && s[0] !in Whitespace && s[|s| - 1] !in Whitespace
    ensures Strip(s + "\n") == s
  {
    var m := s + "\n";
    assert TrimLeft(m, Whitespace) == m by { assert m[0] == s[0]; }
    assert TrimRight(m, Whitespace) == TrimRight(s, Whitespace) by { assert m[..|m| - 1] == s; }
    assert TrimRight(s, Whitespace) == s;
  }

  // ---------------------------------------------------------------------------------------
  // split

  /** Python's `sep.join(parts)` for a non-empty list. */
  function Join(parts: seq<string>, sep: char): (s: string)
    requires |parts| >= 1
  {
    if |parts| == 1 then parts[0] else parts[0] + [sep] + Join(parts[1..], sep)
  }

  /** A join starts with its first piece. */
  lemma JoinStart(parts: seq<string>, sep: char)
    requires |parts| >= 1 && parts[0] != []
    ensures Join(parts, sep)[0] == parts[0][0]
  {
  }

  /** A join ends with its last piece. */
  lemma {:induction false} JoinEnd(parts: seq<string>, sep: char)
    requires |parts| >= 1 && parts[|parts| - 1] != []
    ensures var s := Join(parts, sep); var l := parts[|parts| - 1]; s != [] && s[|s| - 1] == l[|l| - 1]
    decreases |parts|
  {
    if |parts| > 1 {
      var rest := parts[1..];
      assert rest[|rest| - 1] == parts[|parts| - 1];
      JoinEnd(rest, sep);
    }
  }

  /** Python's `s.split(sep)`: the pieces between separators, never an empty list. */
  function Split(s: string, sep: char): (r: seq<string>)
    ensures |r| >= 1
    ensures Join(r, sep) == s
    ensures forall i :: 0 <= i < |r| ==> sep !in r[i]
  {
    if s == [] then [""]
    else if s[0] == sep then [""] + Split(s[1..], sep)
    else
      var rest := Split(s[1..], sep);
      assert |rest| > 1 ==> Join(rest, sep) == rest[0] + [sep] + Join(rest[1..], sep);
      [[s[0]] + rest[0]] + rest[1..]
  }

  /** In a join of several pieces, the first separator stands right after the first piece. */
  lemma JoinFirstSeparator(parts: seq<string>, sep: char)
    requires |parts| > 1 && sep !in parts[0]
    ensures |parts[0]| < |Join(parts, sep)| && Join(parts, sep)[|parts[0]|] == sep
    ensures forall k :: 0 <= k < |parts[0]| ==> Join(parts, sep)[k] != sep
  {
    assert forall k :: 0 <= k < |parts[0]| ==> Join(parts, sep)[k] == parts[0][k];
  }

  /** Joining separator-free pieces loses nothing: the pieces are determined by the string. */
  lemma {:induction false} JoinInjective(a: seq<string>, b: seq<string>, sep: char)
    requires |a| >= 1 && |b| >= 1
    requires forall i :: 0 <= i < |a| ==> sep !in a[i]
    requires forall i :: 0 <= i < |b| ==> sep !in b[i]
    requires Join(a, sep) == Join(b, sep)
    ensures a == b
    decreases |a|
  {
    var s := Join(a, sep);
    if |a| == 1 || |b| == 1 {
      if |a| != |b| {
        assert false;
      }
    } else {
      JoinFirstSeparator(a, sep);
      JoinFirstSeparator(b, sep);
      assert |a[0]| == |b[0]|;
      assert a[0] == s[..|a[0]|] == b[0];
      var ta := Join(a[1..], sep);
      var tb := Join(b[1..], sep);
      assert ta == s[|a[0]| + 1..] == tb;
      JoinInjective(a[1..], b[1..], sep);
      assert a == [a[0]] + a[1..];
      assert b == [b[0]] + b[1..];
    }
  }

  /** Splitting a join of separator-free pieces gives the pieces back. */
  lemma SplitJoin(parts: seq<string>, sep: char)
    requires |parts| >= 1
    requires forall i :: 0 <= i < |parts| ==> sep !in parts[i]
    ensures Split(Join(parts, sep), sep) == parts
  {
    JoinInjective(Split(Join(parts, sep), sep), parts, sep);
  }

  // ---------------------------------------------------------------------------------------
  // decimal integers

  predicate IsDigit(c: char) {
    '0' <= c <= '9'
  }

  predicate AllDigits(s: string) {
    forall i :: 0 <= i < |s| ==> IsDigit(s[i])
  }

  function DigitChar(d: nat): (c: char)
    requires d < 10
    ensures IsDigit(c) && (c as int) - ('0' as int) == d
  {
    ('0' as int + d) as char
  }

  /** The number a string of decimal digits denotes (leading zeros allowed, as in Python). */
  function DigitsValue(s: string): nat
    requires AllDigits(s)
  {
    if s == [] then 0 else 10 * DigitsValue(s[..|s| - 1]) + ((s[|s| - 1] as int) - ('0' as int))
  }

  /** Python's `str(n)` for a non-negative integer: its decimal digits, most significant first. */
  function NatToString(n: nat): (r: string)
    ensures r != [] && AllDigits(r)
    ensures DigitsValue(r) == n
    ensures |r| > 1 ==> r[0] != '0'
  {
    if n < 10 then [DigitChar(n)]
    else
      var r := NatToString(n / 10) + [DigitChar(n % 10)];
      assert r[..|r| - 1] == NatToString(n / 10);
      r
  }

  /** Python's `str(n)`: a minus sign for negative numbers, then the digits of the magnitude. */
  function IntToString(n: int): (r: string)
    ensures r != [] && r[0] !in Whitespace && IsDigit(r[|r| - 1])
    ensures ',' !in r && '(' !in r && ')' !in r
  {
    if n < 0 then "-" + NatToString(-n) else NatToString(n)
  }

  /** The value of a non-empty string of ASCII digits; `None` as soon as a character is not a digit. */
  function Digits(d: string): (r: Option<nat>)
    ensures r.Some? <==> d != [] && AllDigits(d)
    ensures r.Some? ==> r.value == DigitsValue(d)
  {
    if d == [] || !IsDigit(d[|d| - 1]) then None
    else if |d| == 1 then Some((d[0] as int) - ('0' as int))
    else match Digits(d[..|d| - 1])
      case Some(v) => Some(10 * v + ((d[|d| - 1] as int) - ('0' as int)))
      case None => None
  }

  /** An optional sign followed by at least one ASCII digit. */
  function ParseSigned(t: string): Option<int> {
    if t != [] && (t[0] == '-' || t[0] == '+') then
      match Digits(t[1..])
      case Some(v) => Some(if t[0] == '-' then -(v as int) else v)
      case None => None
    else Digits(t)
  }

  /** Python's `int(s)` on text: surrounding whitespace, an optional sign and at least one ASCII
      digit; anything else is the ValueError, here `None`. */
  function ParseInt(s: string): Option<int> {
    ParseSigned(Strip(s))
  }

  /** The signed reading of `str(n)` is `n`. */
  lemma ParseSignedToString(n: int)
    ensures ParseSigned(IntToString(n)) == Some(n)
  {
    var s := IntToString(n);
    if n < 0 {
      var d := NatToString(-n);
      assert s[1..] == d;
      assert Digits(d) == Some(-n);
    } else {
      assert Digits(s) == Some(n);
    }
  }

  /** `int(str(n)) == n`. */
  lemma ParseIntToString(n: int)
    ensures ParseInt(IntToString(n)) == Some(n)
  {
    StripKeeps(IntToString(n));
    ParseSignedToString(n);
  }

  /** `int('')` raises. */
  lemma ParseIntEmpty()
    ensures ParseInt("") == None
  {
    assert Strip("") == "";
  }

  // ---------------------------------------------------------------------------------------
  // lower case

  /** `c.lower()` on ASCII letters; other characters are left as they are. */
  function LowerChar(c: char): (r: char) {
    if 'A' <= c <= 'Z' then (c as int + 32) as char else c
  }

  /** `s.lower()`: the key keeps the length, holds no ASCII capital, turns each capital into
      its small letter and leaves every other character alone. */
  function Lower(s: string): (r: string)
    ensures |r| == |s|
    ensures forall i :: 0 <= i < |r| ==> !('A' <= r[i] <= 'Z')
    ensures forall i :: 0 <= i < |s| && !('A' <= s[i] <= 'Z') ==> r[i] == s[i]
    ensures forall i :: 0 <= i < |s| && 'A' <= s[i] <= 'Z' ==> 'a' <= r[i] <= 'z' && r[i] as int == s[i] as int + 32
  {
    seq(|s|, i requires 0 <= i < |s| => LowerChar(s[i]))
  }

  /** Two characters that are equal, or the same ASCII letter in the two cases. */
  predicate SameUpToCase(a: char, b: char) {
    || a == b
    || ('A' <= a <= 'Z' && b as int == a as int + 32)
    || ('A' <= b <= 'Z' && a as int == b as int + 32)
  }

  /** Looking up an already lower-case key does not change it further. */
  lemma LowerIdempotent(s: string)
    ensures Lower(Lower(s)) == Lower(s)
  {
  }

  /** Two spellings reach the same key exactly when they differ only in the case of ASCII
      letters. */
  lemma LowerCaseInsensitive(s: string, t: string)
    ensures Lower(s) == Lower(t) <==> |s| == |t| && forall i :: 0 <= i < |s| ==> SameUpToCase(s[i], t[i])
  {
    if Lower(s) == Lower(t) {
      forall i | 0 <= i < |s|
        ensures SameUpToCase(s[i], t[i])
      {
        assert Lower(s)[i] == Lower(t)[i];
      }
    }
    if |s| == |t| && forall i :: 0 <= i < |s| ==> SameUpToCase(s[i], t[i]) {
      forall i | 0 <= i < |s|
        ensures Lower(s)[i] == Lower(t)[i]
      {
        assert SameUpToCase(s[i], t[i]);
      }
    }
  }
}
