/**
 * The JavaScript string and number built-ins the processor relies on:
 * `split`, `filter(x => !!x)`, `slice`, `endsWith`, `parseInt(_, 10)` and
 * `parseFloat`.  A JavaScript `NaN` is `None`.
 */
module Strings {
  import opened Wrappers

  /** `s.split(sep)` for a one-character separator. */
  function Split(s: string, sep: char): (parts: seq<string>)
    ensures |parts| >= 1
  {
    if s == [] then [[]]
    else
      var rest := Split(s[1..], sep);
      if s[0] == sep then [[]] + rest
      else [[s[0]] + rest[0]] + rest[1..]
  }

  /** `parts.join(sep)`, the inverse of `Split`. */
  function Join(parts: seq<string>, sep: char): string
  {
    if parts == [] then []
    else if |parts| == 1 then parts[0]
    else parts[0] + [sep] + Join(parts[1..], sep)
  }

  /** Splitting loses nothing: joining the pieces gives back the string. */
  lemma {:induction false} SplitJoin(s: string, sep: char)
    ensures Join(Split(s, sep), sep) == s
  {
    if s != [] {
      var rest := Split(s[1..], sep);
      SplitJoin(s[1..], sep);
      if s[0] == sep {
        JoinCons([], rest, sep);
      } else {
        JoinCons([s[0]] + rest[0], rest[1..], sep);
        if |rest| > 1 {
          JoinCons(rest[0], rest[1..], sep);
        }
      }
      assert [s[0]] + s[1..] == s;
    }
  }

  lemma JoinCons(p: string, ps: seq<string>, sep: char)
    ensures Join([p] + ps, sep) == if ps == [] then p else p + [sep] + Join(ps, sep)
  {
    assert ([p] + ps)[1..] == ps;
  }

  /** A piece free of the separator, followed by the separator, is split off whole. */
  lemma {:induction false} SplitAtSeparator(a: string, sep: char, b: string)
    requires sep !in a
    ensures Split(a + [sep] + b, sep) == [a] + Split(b, sep)
  {
    if a == [] {
      assert a + [sep] + b == [sep] + b;
    } else {
      var s := a + [sep] + b;
      assert s[1..] == a[1..] + [sep] + b;
      SplitAtSeparator(a[1..], sep, b);
      assert [a[0]] + a[1..] == a;
    }
  }

  /** A string without the separator is one piece. */
  lemma {:induction false} SplitWithoutSeparator(s: string, sep: char)
    requires sep !in s
    ensures Split(s, sep) == [s]
  {
    if s != [] {
      SplitWithoutSeparator(s[1..], sep);
      assert [s[0]] + s[1..] == s;
    }
  }

  /** `parts.filter((x) => !!x)`: the empty string is the only falsy string. */
  function DropEmpty(parts: seq<string>): (r: seq<string>)
    ensures forall p <- r :: p != [] && p in parts
    ensures forall p <- parts :: p != [] ==> p in r
    ensures |r| <= |parts|
  {
    if parts == [] then []
    else if parts[0] == [] then DropEmpty(parts[1..])
    else [parts[0]] + DropEmpty(parts[1..])
  }

  /** `s.slice(-n)`: the last `n` characters, or all of `s` when it is shorter. */
  function LastChars(s: string, n: nat): (r: string)
    ensures |r| == if |s| < n then |s| else n
    ensures DropLastChars(s, n) + r == s
  {
    if |s| < n then s else s[|s| - n..]
  }

  /** `s.slice(0, -n)`: all but the last `n` characters, or "" when `s` is shorter. */
  function DropLastChars(s: string, n: nat): (r: string)
    ensures |r| == if |s| < n then 0 else |s| - n
  {
    if |s| < n then [] else s[..|s| - n]
  }

  /** `s.endsWith(suffix)`. */
  predicate EndsWith(s: string, suffix: string)
  {
    |suffix| <= |s| && s[|s| - |suffix|..] == suffix
  }

  predicate IsDigit(c: char)
  {
    '0' <= c <= '9'
  }

  predicate AllDigits(s: string)
  {
    forall c <- s :: IsDigit(c)
  }

  /** The white space JavaScript skips before a number (ASCII and the common Unicode spaces). */
  predicate IsWhiteSpace(c: char)
  {
    c == ' ' || c == '\t' || c == '\n' || c == '\r' || c == '\U{B}' || c == '\U{C}'
    || c == '\U{A0}' || c == '\U{FEFF}' || c == '\U{2028}' || c == '\U{2029}'
  }

  /** What is left of `s` once its leading white space is skipped. */
  function SkipWhiteSpace(s: string): (r: string)
    ensures |r| <= |s|
    ensures r == [] || !IsWhiteSpace(r[0])
  {
    if s != [] && IsWhiteSpace(s[0]) then SkipWhiteSpace(s[1..]) else s
  }

  /** Only white space is skipped: what is left is a suffix of `s` after nothing but white space. */
  lemma {:induction false} SkipWhiteSpaceSuffix(s: string)
    ensures var r := SkipWhiteSpace(s);
      r == s[|s| - |r|..] && forall i | 0 <= i < |s| - |r| :: IsWhiteSpace(s[i])
  {
    if s != [] && IsWhiteSpace(s[0]) {
      SkipWhiteSpaceSuffix(s[1..]);
      var r := SkipWhiteSpace(s);
      forall i | 0 <= i < |s| - |r| ensures IsWhiteSpace(s[i]) {
        if i > 0 { assert s[i] == s[1..][i - 1]; }
      }
    }
  }

  /** The longest prefix of `s` made of decimal digits. */
  function DigitPrefix(s: string): (d: string)
    ensures AllDigits(d) && |d| <= |s|
  {
    if s != [] && IsDigit(s[0]) then [s[0]] + DigitPrefix(s[1..]) else []
  }

  lemma {:induction false} DigitPrefixOfDigits(s: string)
    requires AllDigits(s)
    ensures DigitPrefix(s) == s
  {
    if s != [] {
      DigitPrefixOfDigits(s[1..]);
      assert [s[0]] + s[1..] == s;
    }
  }

  /** The value of a decimal digit string, most significant digit first. */
  function DigitsValue(d: string): (v: nat)
    requires AllDigits(d)
  {
    if d == [] then 0
    else
      assert d[|d| - 1] in d;
      DigitsValue(d[..|d| - 1]) * 10 + (d[|d| - 1] as int - '0' as int)
  }

  function Pow10(n: nat): (p: nat)
    ensures p >= 1
  {
    if n == 0 then 1 else 10 * Pow10(n - 1)
  }

  /** A leading `+` or `-`: whether it is `-`, and what follows it. */
  function Sign(s: string): (bool, string)
  {
    if s != [] && (s[0] == '-' || s[0] == '+') then (s[0] == '-', s[1..]) else (false, s)
  }

  /** `parseInt(s, 10)`: optional white space and sign, then the longest run of digits. */
  function ParseInt(s: string): (r: Option<int>)
    ensures r.None? <==> DigitPrefix(Sign(SkipWhiteSpace(s)).1) == []
  {
    var (negative, rest) := Sign(SkipWhiteSpace(s));
    var digits := DigitPrefix(rest);
    if digits == [] then None
    else
      var v: int := DigitsValue(digits);
      Some(if negative then -v else v)
  }

  /** For a non-empty string of digits `parseInt` is the plain decimal value. */
  lemma ParseIntOfDigits(d: string)
    requires d != [] && AllDigits(d)
    ensures ParseInt(d) == Some(DigitsValue(d))
  {
    assert d[0] in d;
    assert SkipWhiteSpace(d) == d;
    assert Sign(d) == (false, d);
    DigitPrefixOfDigits(d);
  }

  /** The exponent of a decimal literal after its `e`/`E`; 0 when there is none. */
  function ExponentOf(s: string): int
  {
    if s == [] || (s[0] != 'e' && s[0] != 'E') then 0
    else
      var (negative, rest) := Sign(s[1..]);
      var digits := DigitPrefix(rest);
      var v: int := DigitsValue(digits);
      if negative then -v else v
  }

  function Scale(x: real, e: int): real
  {
    if e >= 0 then x * Pow10(e) as real else x / Pow10(-e) as real
  }

  /** The digits of a fraction: those after a leading `.`, none otherwise. */
  function FractionDigits(s: string): (d: string)
    ensures AllDigits(d)
  {
    if s != [] && s[0] == '.' then DigitPrefix(s[1..]) else []
  }

  /** An unsigned decimal literal at the start of `s`: digits, fraction, exponent. */
  function UnsignedDecimal(s: string): (r: Option<real>)
    ensures r.None? <==> DigitPrefix(s) == [] && FractionDigits(s) == []
  {
    var whole := DigitPrefix(s);
    var tail := s[|whole|..];
    var fraction := FractionDigits(tail);
    var afterNumber := if tail != [] && tail[0] == '.' then tail[1 + |fraction|..] else tail;
    if whole == [] && fraction == [] then None
    else
      Some(Scale(DigitsValue(whole) as real + DigitsValue(fraction) as real / Pow10(|fraction|) as real,
                 ExponentOf(afterNumber)))
  }

  /**
   * `parseFloat(s)`: optional white space and sign, integer digits, an
   * optional fraction after `.`, an optional exponent; `NaN` when neither
   * integer nor fraction digits are present.
   */
  function ParseFloat(s: string): (r: Option<real>)
  {
    var (negative, rest) := Sign(SkipWhiteSpace(s));
    match UnsignedDecimal(rest)
    case None => None
    case Some(m) => Some(if negative then -m else m)
  }
}
