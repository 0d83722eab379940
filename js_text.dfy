/**
 * The pieces of the JavaScript string and number library that the dashboard
 * leans on: `trim`, `toUpperCase`, `split` on a one-character separator,
 * the decimal rendering of a count in a template literal, and the
 * StrDecimalLiteral grammar of ECMAScript that both `parseFloat` and the
 * numeric coercion of a string (ToNumber) read.
 */
module JsText {
  import opened Wrappers
  import opened JsValues

  // ---------------------------------------------------------------------
  // Whitespace and trimming
  // ---------------------------------------------------------------------

  /** The WhiteSpace and LineTerminator code points of ECMAScript: what `trim` removes. */
  predicate IsSpace(c: char)
  {
    c == ' ' || c == '\t' || c == '\n' || c == '\r' || c == '\U{B}' || c == '\U{C}'
    || c == '\U{A0}' || c == '\U{1680}' || ('\U{2000}' <= c <= '\U{200A}')
    || c == '\U{2028}' || c == '\U{2029}' || c == '\U{202F}' || c == '\U{205F}'
    || c == '\U{3000}' || c == '\U{FEFF}'
  }

  /** `s.trimStart()`: the suffix of `s` left after its leading whitespace. */
  function TrimStart(s: string): (r: string)
    ensures |r| <= |s|
    decreases |s|
  {
    if |s| > 0 && IsSpace(s[0]) then TrimStart(s[1..]) else s
  }

  /** `trimStart` keeps a suffix; what it drops is whitespace, and what it keeps does not start with whitespace. */
  lemma {:induction false} TrimStartSpec(s: string)
    ensures TrimStart(s) == s[|s| - |TrimStart(s)|..]
    ensures forall k :: 0 <= k < |s| - |TrimStart(s)| ==> IsSpace(s[k])
    ensures TrimStart(s) == [] || !IsSpace(TrimStart(s)[0])
    decreases |s|
  {
    if |s| > 0 && IsSpace(s[0]) {
      TrimStartSpec(s[1..]);
    }
  }

  /** `s.trimEnd()`: the prefix of `s` left after its trailing whitespace. */
  function TrimEnd(s: string): (r: string)
    ensures |r| <= |s|
    decreases |s|
  {
    if |s| > 0 && IsSpace(s[|s| - 1]) then TrimEnd(s[..|s| - 1]) else s
  }

  /** `trimEnd` keeps a prefix; what it drops is whitespace, and what it keeps does not end with whitespace. */
  lemma {:induction false} TrimEndSpec(s: string)
    ensures TrimEnd(s) == s[..|TrimEnd(s)|]
    ensures forall k :: |TrimEnd(s)| <= k < |s| ==> IsSpace(s[k])
    ensures TrimEnd(s) == [] || !IsSpace(TrimEnd(s)[|TrimEnd(s)| - 1])
    decreases |s|
  {
    if |s| > 0 && IsSpace(s[|s| - 1]) {
      TrimEndSpec(s[..|s| - 1]);
    }
  }

  /** `s.trim()`: `s` without its leading and trailing whitespace. */
  function Trim(s: string): (r: string)
    ensures |r| <= |s|
  {
    TrimEnd(TrimStart(s))
  }

  /**
   * `trim` keeps a piece of `s` that neither starts nor ends with
   * whitespace, and gives the empty string exactly when `s` is all
   * whitespace.
   */
  lemma TrimSpec(s: string)
    ensures Trim(s) == [] || (!IsSpace(Trim(s)[0]) && !IsSpace(Trim(s)[|Trim(s)| - 1]))
    ensures (forall k :: 0 <= k < |s| ==> IsSpace(s[k])) <==> Trim(s) == []
  {
    var t := TrimStart(s);
    var r := TrimEnd(t);
    TrimStartSpec(s);
    TrimEndSpec(t);
    assert r != [] ==> r[0] == t[0];
    assert t != [] ==> t[0] == s[|s| - |t|];
    assert r == [] ==> t == [];
  }

  /** Whitespace on both sides of a word that starts and ends with a non-space is exactly what `trim` drops. */
  lemma {:induction false} TrimPadded(pre: string, word: string, post: string)
    requires forall k :: 0 <= k < |pre| ==> IsSpace(pre[k])
    requires forall k :: 0 <= k < |post| ==> IsSpace(post[k])
    requires word != [] && !IsSpace(word[0]) && !IsSpace(word[|word| - 1])
    ensures Trim(pre + word + post) == word
  {
    TrimStartPadded(pre, word + post);
    assert pre + word + post == pre + (word + post);
    TrimEndPadded(word, post);
  }

  lemma {:induction false} TrimStartPadded(pre: string, rest: string)
    requires forall k :: 0 <= k < |pre| ==> IsSpace(pre[k])
    requires rest != [] && !IsSpace(rest[0])
    ensures TrimStart(pre + rest) == rest
  {
    if pre != [] {
      assert (pre + rest)[1..] == pre[1..] + rest;
      TrimStartPadded(pre[1..], rest);
    } else {
      assert pre + rest == rest;
    }
  }

  lemma {:induction false} TrimEndPadded(rest: string, post: string)
    requires forall k :: 0 <= k < |post| ==> IsSpace(post[k])
    requires rest != [] && !IsSpace(rest[|rest| - 1])
    ensures TrimEnd(rest + post) == rest
  {
    if post != [] {
      assert (rest + post)[..|rest + post| - 1] == rest + post[..|post| - 1];
      TrimEndPadded(rest, post[..|post| - 1]);
    } else {
      assert rest + post == rest;
    }
  }

  // ---------------------------------------------------------------------
  // Upper case
  // ---------------------------------------------------------------------

  /** `toUpperCase` on one character, for the ASCII letters. */
  function UpperChar(c: char): char
  {
    if 'a' <= c <= 'z' then (c as int - 32) as char else c
  }

  /** `s.toUpperCase()`, restricted to the ASCII case mapping. */
  function ToUpper(s: string): (r: string)
    ensures |r| == |s|
    ensures forall i :: 0 <= i < |s| ==> r[i] == UpperChar(s[i])
    ensures forall i :: 0 <= i < |r| ==> !('a' <= r[i] <= 'z')
  {
    seq(|s|, i requires 0 <= i < |s| => UpperChar(s[i]))
  }

  // ---------------------------------------------------------------------
  // split and join on a one-character separator
  // ---------------------------------------------------------------------

  /** `s.split(sep)`: the pieces between the separators; always at least one piece. */
  function Split(s: string, sep: char): (r: seq<string>)
    ensures |r| == multiset(s)[sep] + 1
    decreases |s|
  {
    if s == [] then [[]]
    else
      var rest := Split(s[1..], sep);
      assert s == [s[0]] + s[1..];
      if s[0] == sep then [[]] + rest
      else [[s[0]] + rest[0]] + rest[1..]
  }

  /** No piece `split` returns holds the separator. */
  lemma {:induction false} SplitPieces(s: string, sep: char)
    ensures forall k :: 0 <= k < |Split(s, sep)| ==> sep !in Split(s, sep)[k]
    decreases |s|
  {
    if s != [] {
      SplitPieces(s[1..], sep);
    }
  }

  /** `parts.join(sep)`. */
  function Join(parts: seq<string>, sep: char): string
    decreases |parts|
  {
    if parts == [] then []
    else if |parts| == 1 then parts[0]
    else parts[0] + [sep] + Join(parts[1..], sep)
  }

  /** A string without the separator splits into itself. */
  lemma {:induction false} SplitAtom(a: string, sep: char)
    requires sep !in a
    ensures Split(a, sep) == [a]
    decreases |a|
  {
    if a != [] {
      SplitAtom(a[1..], sep);
      assert [a[0]] + a[1..] == a;
    }
  }

  /** Splitting a string that starts with `c`: a new empty piece when `c` is the separator, else `c` is glued to the first piece. */
  lemma SplitCons(c: char, s: string, sep: char)
    ensures Split([c] + s, sep)
         == if c == sep then [[]] + Split(s, sep) else [[c] + Split(s, sep)[0]] + Split(s, sep)[1..]
  {
    assert ([c] + s)[1..] == s;
  }

  /** Splitting distributes over a separator placed between two strings. */
  lemma {:induction false} SplitAppend(a: string, sep: char, b: string)
    ensures Split(a + [sep] + b, sep) == Split(a, sep) + Split(b, sep)
    decreases |a|
  {
    if a == [] {
      SplitCons(sep, b, sep);
      assert a + [sep] + b == [sep] + b;
    } else {
      assert a + [sep] + b == [a[0]] + (a[1..] + [sep] + b);
      assert a == [a[0]] + a[1..];
      SplitAppend(a[1..], sep, b);
      SplitConsAppend(a[0], a[1..], sep, b);
    }
  }

  /** The inductive step of `SplitAppend`: putting one character in front. */
  lemma SplitConsAppend(c: char, a: string, sep: char, b: string)
    requires Split(a + [sep] + b, sep) == Split(a, sep) + Split(b, sep)
    ensures Split([c] + (a + [sep] + b), sep) == Split([c] + a, sep) + Split(b, sep)
  {
    SplitCons(c, a + [sep] + b, sep);
    SplitCons(c, a, sep);
    PiecesGlue(c, c == sep, Split(a, sep), Split(b, sep));
  }

  /** Either way of adding a character in front of a piece list commutes with appending more pieces. */
  lemma PiecesGlue(c: char, isSep: bool, ra: seq<string>, rb: seq<string>)
    requires ra != []
    ensures var glued := ra + rb;
      (if isSep then [[]] + glued else [[c] + glued[0]] + glued[1..])
      == (if isSep then [[]] + ra else [[c] + ra[0]] + ra[1..]) + rb
  {
    if !isSep {
      assert (ra + rb)[1..] == ra[1..] + rb;
    }
  }

  /** Joining after a new empty first piece puts a separator in front. */
  lemma JoinPrependEmpty(parts: seq<string>, sep: char)
    requires parts != []
    ensures Join([[]] + parts, sep) == [sep] + Join(parts, sep)
  {
    var all: seq<string> := [[]] + parts;
    assert all[1..] == parts;
  }

  /** Joining after a character is glued to the first piece puts that character in front. */
  lemma JoinPrependChar(c: char, parts: seq<string>, sep: char)
    requires parts != []
    ensures Join([[c] + parts[0]] + parts[1..], sep) == [c] + Join(parts, sep)
  {
    var all := [[c] + parts[0]] + parts[1..];
    if |parts| > 1 {
      assert all[1..] == parts[1..];
    }
  }

  /** Joining the pieces of a split gives back the string. */
  lemma {:induction false} JoinSplit(s: string, sep: char)
    ensures Join(Split(s, sep), sep) == s
    decreases |s|
  {
    if s != [] {
      assert s == [s[0]] + s[1..];
      var rest := Split(s[1..], sep);
      SplitCons(s[0], s[1..], sep);
      JoinSplit(s[1..], sep);
      if s[0] == sep {
        JoinPrependEmpty(rest, sep);
      } else {
        JoinPrependChar(s[0], rest, sep);
      }
    }
  }

  /** Splitting a join of separator-free pieces gives back the pieces. */
  lemma {:induction false} SplitJoin(parts: seq<string>, sep: char)
    requires parts != []
    requires forall k :: 0 <= k < |parts| ==> sep !in parts[k]
    ensures Split(Join(parts, sep), sep) == parts
    decreases |parts|
  {
    if |parts| == 1 {
      SplitAtom(parts[0], sep);
    } else {
      SplitJoin(parts[1..], sep);
      SplitAppend(parts[0], sep, Join(parts[1..], sep));
      SplitAtom(parts[0], sep);
      assert [parts[0]] + parts[1..] == parts;
    }
  }

  // ---------------------------------------------------------------------
  // Decimal digits
  // ---------------------------------------------------------------------

  predicate IsDigit(c: char)
  {
    '0' <= c <= '9'
  }

  predicate AllDigits(s: string)
  {
    forall i :: 0 <= i < |s| ==> IsDigit(s[i])
  }

  function DigitChar(d: nat): (c: char)
    requires d < 10
    ensures IsDigit(c) && c as int - '0' as int == d
  {
    ('0' as int + d) as char
  }

  /** How a non-negative count is written in a template literal: its decimal digits, no leading zero. */
  function Show(n: nat): (r: string)
    ensures r != [] && AllDigits(r)
    ensures |r| > 1 ==> r[0] != '0'
    decreases n
  {
    if n < 10 then [DigitChar(n)] else Show(n / 10) + [DigitChar(n % 10)]
  }

  /** The number a string of decimal digits denotes. */
  function DigitsValue(s: string): nat
    requires AllDigits(s)
    decreases |s|
  {
    if s == [] then 0
    else DigitsValue(s[..|s| - 1]) * 10 + (s[|s| - 1] as int - '0' as int)
  }

  /** Reading back the digits of a count gives the count. */
  lemma {:induction false} DigitsValueShow(n: nat)
    ensures DigitsValue(Show(n)) == n
    decreases n
  {
    if n >= 10 {
      DigitsValueShow(n / 10);
      var s := Show(n / 10) + [DigitChar(n % 10)];
      assert s[..|s| - 1] == Show(n / 10);
    }
  }

  /** Length of the longest run of digits at the front of `s`. */
  function DigitRun(s: string): (k: nat)
    ensures k <= |s|
    ensures k == |s| || !IsDigit(s[k])
    decreases |s|
  {
    if s != [] && IsDigit(s[0]) then 1 + DigitRun(s[1..]) else 0
  }

  /** The run `DigitRun` measures is all digits. */
  lemma {:induction false} DigitRunSpec(s: string)
    ensures AllDigits(s[..DigitRun(s)])
    decreases |s|
  {
    if s != [] && IsDigit(s[0]) {
      DigitRunSpec(s[1..]);
      var k := DigitRun(s);
      assert forall i :: 1 <= i < k ==> s[..k][i] == s[1..][..k - 1][i - 1];
    }
  }

  /** `m` times ten to the power `e`, one factor of ten at a time. */
  function Scale(m: real, e: int): real
    decreases if e >= 0 then e else -e
  {
    if e == 0 then m
    else if e > 0 then Scale(m, e - 1) * 10.0
    else Scale(m, e + 1) / 10.0
  }

  /** The value of the digits after a decimal point: `0.d1d2...` is `(d1 + 0.d2...) / 10`. */
  function Fraction(d: string): real
    requires AllDigits(d)
    decreases |d|
  {
    if d == [] then 0.0
    else ((d[0] as int - '0' as int) as real + Fraction(d[1..])) / 10.0
  }

  /**
   * The exponent part `e+12`, `E-3`, `e7` at the front of `t`, as
   * (exponent, length); (0, 0) when `t` does not start with a complete one.
   */
  function ScanExponent(t: string): (r: (int, nat))
    ensures r.1 <= |t|
    ensures r.1 == 0 ==> r.0 == 0
  {
    if |t| >= 2 && (t[0] == 'e' || t[0] == 'E') then
      var k := if t[1] == '+' || t[1] == '-' then 2 else 1;
      var d := DigitRun(t[k..]);
      if d == 0 then (0, 0)
      else
        DigitRunSpec(t[k..]);
        var v := DigitsValue(t[k..][..d]);
        (if t[1] == '-' then -(v as int) else v as int, k + d)
    else (0, 0)
  }

  /**
   * The longest prefix of `u` of the form digits, optional point and
   * fraction, optional exponent (the mantissa holding at least one digit),
   * as (value, length).
   */
  function ScanFinite(u: string): (r: Option<(real, nat)>)
    ensures r.Some? ==> 0 < r.value.1 <= |u|
  {
    match ScanMantissa(u)
    case None => None
    case Some(m) =>
      var exponent := ScanExponent(u[m.1..]);
      if exponent.1 == 0 then Some(m)
      else Some((Scale(m.0, exponent.0), m.1 + exponent.1))
  }

  /** Digits, then optionally a point and more digits, with at least one digit in all, as (value, length). */
  function ScanMantissa(u: string): (r: Option<(real, nat)>)
    ensures r.Some? ==> 0 < r.value.1 <= |u|
  {
    var n1 := DigitRun(u);
    DigitRunSpec(u);
    var whole := DigitsValue(u[..n1]) as real;
    if n1 < |u| && u[n1] == '.' then
      var n2 := DigitRun(u[n1 + 1..]);
      if n1 + n2 == 0 then None
      else
        DigitRunSpec(u[n1 + 1..]);
        Some((whole + Fraction(u[n1 + 1..][..n2]), n1 + 1 + n2))
    else if n1 == 0 then None
    else Some((whole, n1))
  }

  /** The longest prefix of `u` that is a StrUnsignedDecimalLiteral of ECMAScript. */
  function ScanUnsigned(u: string): (r: Option<(JsNumber, nat)>)
    ensures r.Some? ==> 0 < r.value.1 <= |u| && (r.value.0.Finite? || r.value.0.PosInf?)
  {
    if "Infinity" <= u then Some((PosInf, 8))
    else
      match ScanFinite(u)
      case None => None
      case Some(p) => Some((Finite(p.0), p.1))
  }

  function Negate(x: JsNumber): JsNumber
  {
    match x
    case Finite(r) => Finite(-r)
    case PosInf => NegInf
    case NegInf => PosInf
    case NaN => NaN
  }

  /**
   * The longest prefix of `s` that is a StrDecimalLiteral of ECMAScript
   * (an optional sign, then `Infinity` or digits with an optional point and
   * fraction and an optional exponent), as (value, length); None when no
   * prefix is one.
   */
  function ScanDecimal(s: string): (r: Option<(JsNumber, nat)>)
    ensures r.Some? ==> 0 < r.value.1 <= |s| && !r.value.0.NaN?
  {
    var signLen := if |s| > 0 && (s[0] == '+' || s[0] == '-') then 1 else 0;
    match ScanUnsigned(s[signLen..])
    case None => None
    case Some(p) => Some((if signLen == 1 && s[0] == '-' then Negate(p.0) else p.0, signLen + p.1))
  }

  /** The global `parseFloat(s)`: the longest decimal literal after leading whitespace, or NaN. */
  function ParseFloat(s: string): JsNumber
  {
    match ScanDecimal(TrimStart(s))
    case None => NaN
    case Some(p) => p.0
  }

  /**
   * ToNumber(s), the coercion a relational operator applies to a string
   * operand: the whole trimmed string must be one decimal literal; the
   * empty string is 0.
   */
  function ToNumber(s: string): JsNumber
  {
    var t := Trim(s);
    if t == [] then Finite(0.0)
    else
      match ScanDecimal(t)
      case None => NaN
      case Some(p) => if p.1 == |t| then p.0 else NaN
  }

  /** The whole of `t` is one StrDecimalLiteral. */
  predicate IsDecimalLiteral(t: string)
  {
    ScanDecimal(t).Some? && ScanDecimal(t).value.1 == |t|
  }

  /** The characters a decimal literal can start with: a digit, a sign, a point, or the `I` of `Infinity`. */
  predicate StartsLikeNumber(c: char)
  {
    IsDigit(c) || c == '+' || c == '-' || c == '.' || c == 'I'
  }

  /** No prefix of a text that cannot start a literal is one, so ToNumber gives NaN. */
  lemma ToNumberRejects(s: string)
    requires Trim(s) != [] && !StartsLikeNumber(Trim(s)[0])
    ensures ToNumber(s).NaN?
  {
    var t := Trim(s);
    assert t[0..] == t;
    assert DigitRun(t) == 0;
    assert !("Infinity" <= t) by { assert t[0] != "Infinity"[0]; }
    assert ScanMantissa(t).None?;
  }

  /** A string made only of digits is one mantissa without point or exponent. */
  lemma ScanFiniteDigits(s: string)
    requires s != [] && AllDigits(s)
    ensures ScanFinite(s) == Some((DigitsValue(s) as real, |s|))
  {
    var n1 := DigitRun(s);
    assert n1 == |s|;
    assert s[..n1] == s;
    assert ScanMantissa(s) == Some((DigitsValue(s) as real, |s|));
    assert s[n1..] == [];
  }

  /** A string made only of digits scans as exactly that many digits and denotes their value. */
  lemma ScanDigits(s: string)
    requires s != [] && AllDigits(s)
    ensures ScanDecimal(s) == Some((Finite(DigitsValue(s) as real), |s|))
  {
    ScanFiniteDigits(s);
    assert s[0] != "Infinity"[0];
    assert ScanUnsigned(s) == Some((Finite(DigitsValue(s) as real), |s|));
    assert s[0..] == s;
  }

  /** `parseFloat` reads back every count the dashboard writes. */
  lemma ParseFloatShow(n: nat)
    ensures ParseFloat(Show(n)) == Finite(n as real)
  {
    var s := Show(n);
    TrimStartPadded([], s);
    assert [] + s == s;
    ScanDigits(s);
    DigitsValueShow(n);
  }

  /** ToNumber reads back every count, so a level written as text compares like the number. */
  lemma ToNumberShow(n: nat)
    ensures ToNumber(Show(n)) == Finite(n as real)
  {
    var s := Show(n);
    TrimPadded([], s, []);
    assert [] + s + [] == s;
    ScanDigits(s);
    DigitsValueShow(n);
  }
}
