/** The JavaScript string operations the encodings use, and when joining can be undone. */
module Text {

  /** `toLowerCase` on ASCII letters. */
  function LowerChar(c: char): char {
    if 'A' <= c <= 'Z' then c - 'A' + 'a' else c
  }

  function Lower(s: string): (t: string)
    ensures |t| == |s| && forall i :: 0 <= i < |s| ==> t[i] == LowerChar(s[i])
  {
    seq(|s|, i requires 0 <= i < |s| => LowerChar(s[i]))
  }

  /** The white space and line terminators that `trim` removes. */
  predicate IsSpace(c: char) {
    || '\U{9}' <= c <= '\U{d}' || c == ' ' || c == '\U{a0}' || c == '\U{1680}' || '\U{2000}' <= c <= '\U{200a}'
    || c == '\U{2028}' || c == '\U{2029}' || c == '\U{202f}' || c == '\U{205f}' || c == '\U{3000}' || c == '\U{feff}'
  }

  function TrimStart(s: string): (t: string)
    ensures |t| <= |s|
    ensures forall c :: c in t ==> c in s
  {
    if s != "" && IsSpace(s[0]) then TrimStart(s[1..]) else s
  }

  function TrimEnd(s: string): (t: string)
    ensures |t| <= |s|
    ensures forall c :: c in t ==> c in s
  {
    if s != "" && IsSpace(s[|s| - 1]) then TrimEnd(s[..|s| - 1]) else s
  }

  function Trim(s: string): (t: string)
    ensures forall c :: c in t ==> c in s
  {
    TrimEnd(TrimStart(s))
  }

  predicate AllSpace(s: string) {
    forall c :: c in s ==> IsSpace(c)
  }

  /** A text that neither begins nor ends with space. */
  predicate Trimmed(s: string) {
    s != "" ==> !IsSpace(s[0]) && !IsSpace(s[|s| - 1])
  }

  lemma {:induction false} TrimStartCuts(s: string) returns (space: string)
    ensures AllSpace(space) && s == space + TrimStart(s)
    ensures TrimStart(s) != "" ==> !IsSpace(TrimStart(s)[0])
  {
    space := "";
    if s != "" && IsSpace(s[0]) {
      var rest := TrimStartCuts(s[1..]);
      space := [s[0]] + rest;
    }
  }

  lemma {:induction false} TrimEndCuts(s: string) returns (space: string)
    ensures AllSpace(space) && s == TrimEnd(s) + space
    ensures TrimEnd(s) != "" ==> !IsSpace(TrimEnd(s)[|TrimEnd(s)| - 1]) && TrimEnd(s)[0] == s[0]
  {
    space := "";
    if s != "" && IsSpace(s[|s| - 1]) {
      var rest := TrimEndCuts(s[..|s| - 1]);
      space := rest + [s[|s| - 1]];
    }
  }

  /** Trimming takes off the outer space, all of it and nothing else. */
  lemma TrimIsTheCore(s: string) returns (before: string, behind: string)
    ensures AllSpace(before) && AllSpace(behind) && s == before + Trim(s) + behind && Trimmed(Trim(s))
  {
    before := TrimStartCuts(s);
    behind := TrimEndCuts(TrimStart(s));
  }

  /** `parts.join(separator)` for a one-character separator. */
  function Join(parts: seq<string>, separator: char): string {
    if parts == [] then "" else
    if |parts| == 1 then parts[0] else
      parts[0] + [separator] + Join(parts[1..], separator)
  }

  predicate Without(s: string, c: char) {
    c !in s
  }

  predicate AllWithout(parts: seq<string>, c: char) {
    forall i :: 0 <= i < |parts| ==> Without(parts[i], c)
  }

  /** What precedes the first separator, and what follows it, are determined. */
  lemma FirstSeparator(a: string, b: string, a': string, b': string, c: char)
    requires Without(a, c) && Without(a', c)
    requires a + [c] + b == a' + [c] + b'
    ensures a == a' && b == b'
  {
    var s := a + [c] + b;
    assert forall i :: 0 <= i < |a| ==> s[i] == a[i] && a[i] in a;
    assert forall i :: 0 <= i < |a'| ==> s[i] == a'[i] && a'[i] in a';
    assert s[|a|] == c && s[|a'|] == c;
    assert |a| == |a'|;
    assert a == s[..|a|] == a' && b == s[|a| + 1..] == b';
  }

  /** What follows the last separator, and what precedes it, are determined. */
  lemma LastSeparator(a: string, b: string, a': string, b': string, c: char)
    requires Without(b, c) && Without(b', c)
    requires a + [c] + b == a' + [c] + b'
    ensures a == a' && b == b'
  {
    var s := a + [c] + b;
    assert forall i :: |a| < i < |s| ==> s[i] == b[i - |a| - 1] && b[i - |a| - 1] in b;
    assert forall i :: |a'| < i < |s| ==> s[i] == b'[i - |a'| - 1] && b'[i - |a'| - 1] in b';
    assert s[|a|] == c && s[|a'|] == c;
    assert |a| == |a'|;
    assert a == s[..|a|] == a' && b == s[|a| + 1..] == b';
  }

  lemma SeparatorTellsMany(parts: seq<string>, c: char)
    requires parts != [] && AllWithout(parts, c)
    ensures c in Join(parts, c) <==> |parts| > 1
  {
    if |parts| > 1 {
      assert Join(parts, c)[|parts[0]|] == c;
    }
  }

  lemma WithoutAppend(a: string, b: string, c: char)
    requires Without(a, c) && Without(b, c)
    ensures Without(a + b, c)
  {
  }

  /** Non-empty lists of separator-free parts are determined by their joined text. */
  lemma {:induction false} JoinIsInjective(xs: seq<string>, ys: seq<string>, c: char)
    requires xs != [] && ys != [] && AllWithout(xs, c) && AllWithout(ys, c)
    requires Join(xs, c) == Join(ys, c)
    ensures xs == ys
  {
    SeparatorTellsMany(xs, c);
    SeparatorTellsMany(ys, c);
    if |xs| > 1 {
      FirstSeparator(xs[0], Join(xs[1..], c), ys[0], Join(ys[1..], c), c);
      JoinIsInjective(xs[1..], ys[1..], c);
      assert xs == [xs[0]] + xs[1..] && ys == [ys[0]] + ys[1..];
    }
  }

  // ---- Decimal text --------------------------------------------------------------------

  predicate IsDigit(c: char) {
    '0' <= c <= '9'
  }

  predicate AllDigits(s: string) {
    forall i :: 0 <= i < |s| ==> IsDigit(s[i])
  }

  function Digit(d: nat): (c: char)
    requires d < 10
    ensures IsDigit(c)
  {
    '0' + d as char
  }

  function Value(c: char): (d: nat)
    requires IsDigit(c)
    ensures d < 10
  {
    c as int - '0' as int
  }

  /** A natural number's decimal text. */
  function Decimal(n: nat): (s: string)
    ensures |s| > 0 && AllDigits(s)
  {
    if n < 10 then [Digit(n)] else Decimal(n / 10) + [Digit(n % 10)]
  }

  /** The number a run of digits reads as. */
  function ReadDecimal(s: string): nat
    requires AllDigits(s)
  {
    if s == "" then 0 else ReadDecimal(s[..|s| - 1]) * 10 + Value(s[|s| - 1])
  }

  lemma {:induction false} DecimalReadsBack(n: nat)
    ensures ReadDecimal(Decimal(n)) == n
  {
    if n >= 10 {
      DecimalReadsBack(n / 10);
      assert Decimal(n)[..|Decimal(n)| - 1] == Decimal(n / 10);
    } else {
      assert Decimal(n)[..0] == "";
    }
  }

  /** `String(n)` of an integer. */
  function IntText(n: int): (s: string)
    ensures |s| > 0 && forall i :: 0 <= i < |s| ==> IsDigit(s[i]) || s[i] == '-'
  {
    if n < 0 then "-" + Decimal(-n) else Decimal(n)
  }

  lemma SignShows(n: int)
    ensures n < 0 <==> IntText(n)[0] == '-'
  {
    assert IsDigit(Decimal(if n < 0 then -n else n)[0]);
  }

  lemma IntTextIsInjective(m: int, n: int)
    requires IntText(m) == IntText(n)
    ensures m == n
  {
    SignShows(m);
    SignShows(n);
    if m < 0 {
      assert Decimal(-m) == IntText(m)[1..] && Decimal(-n) == IntText(n)[1..];
      DecimalReadsBack(-m);
      DecimalReadsBack(-n);
    } else {
      DecimalReadsBack(m);
      DecimalReadsBack(n);
    }
  }
}
