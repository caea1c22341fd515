/**
 * The parts of Python's `str` and number parsing that the pipeline leans on:
 * `s.split(sep)`, `s.split()`, `rstrip`/`lstrip` of one character, `upper()`,
 * `int(s)` and `float(s)` on plain decimal text, and `'%d' % n`.
 */
module Text {
  import opened Wrappers

  /** The characters `str.isspace()` accepts: what `s.split()` and the regex class `\s` skip. */
  predicate IsSpace(ch: char) {
    var n := ch as int;
    n == 32 || 9 <= n <= 13 || 28 <= n <= 31 || n == 0x85 || n == 0xA0 || n == 0x1680
    || 0x2000 <= n <= 0x200A || n == 0x2028 || n == 0x2029 || n == 0x202F || n == 0x205F || n == 0x3000
  }

  predicate IsDigit(ch: char) { '0' <= ch <= '9' }

  predicate IsLower(ch: char) { 'a' <= ch <= 'z' }

  predicate AllDigits(s: string) { forall i :: 0 <= i < |s| ==> IsDigit(s[i]) }

  // ------------------------------------------------------------------
  // s.split(sep)

  /** `s.split(sep)` for a one-character separator: the pieces between separators, empty pieces kept. */
  function Split(s: string, sep: char): (parts: seq<string>)
    ensures |parts| >= 1
    ensures forall k :: 0 <= k < |parts| ==> sep !in parts[k]
  {
    if s == [] then [""]
    else if s[0] == sep then [""] + Split(s[1..], sep)
    else
      var rest := Split(s[1..], sep);
      [[s[0]] + rest[0]] + rest[1..]
  }

  /** `sep.join(parts)`: the inverse of `Split`. */
  function Join(parts: seq<string>, sep: char): string
    requires |parts| >= 1
  {
    if |parts| == 1 then parts[0] else parts[0] + [sep] + Join(parts[1..], sep)
  }

  /** Splitting loses nothing: joining the pieces back gives the original text. */
  lemma {:induction false} JoinSplit(s: string, sep: char)
    ensures Join(Split(s, sep), sep) == s
  {
    if s == [] {
    } else if s[0] == sep {
      JoinSplit(s[1..], sep);
      assert s == [sep] + s[1..];
    } else {
      JoinSplit(s[1..], sep);
      var rest := Split(s[1..], sep);
      var parts := [[s[0]] + rest[0]] + rest[1..];
      if |rest| == 1 {
        assert Join(parts, sep) == [s[0]] + rest[0];
      } else {
        assert parts[1..] == rest[1..];
        assert Join(parts, sep) == [s[0]] + (rest[0] + [sep] + Join(rest[1..], sep));
      }
      assert s == [s[0]] + s[1..];
    }
  }

  /** A piece free of the separator, followed by the separator, is split off as one whole piece. */
  lemma {:induction false} SplitAfterPiece(a: string, sep: char, b: string)
    requires sep !in a
    ensures Split(a + [sep] + b, sep) == [a] + Split(b, sep)
  {
    if a == [] {
      assert a + [sep] + b == [sep] + b;
    } else {
      SplitAfterPiece(a[1..], sep, b);
      assert (a + [sep] + b)[1..] == a[1..] + [sep] + b;
      assert [a[0]] + a[1..] == a;
    }
  }

  /** Text without the separator is one piece. */
  lemma {:induction false} SplitWhole(a: string, sep: char)
    requires sep !in a
    ensures Split(a, sep) == [a]
  {
    if a != [] {
      SplitWhole(a[1..], sep);
      assert [a[0]] + a[1..] == a;
    }
  }

  // ------------------------------------------------------------------
  // s.split()

  /** `s.lstrip()` over blanks. */
  function SkipSpaces(s: string): (r: string)
    ensures |r| <= |s| && r == s[|s| - |r|..]
    ensures r != [] ==> !IsSpace(r[0])
    ensures forall i :: 0 <= i < |s| - |r| ==> IsSpace(s[i])
  {
    if s != [] && IsSpace(s[0]) then SkipSpaces(s[1..]) else s
  }

  /** `\s*` takes one blank and stops at the non-blank character after it. */
  lemma {:induction false} SkipOneBlank(c: char, s: string)
    requires IsSpace(c) && s != [] && !IsSpace(s[0])
    ensures SkipSpaces([c] + s) == s
  {
    assert ([c] + s)[1..] == s;
  }

  /** The longest blank-free prefix of `s`. */
  function WordPrefix(s: string): (w: string)
    ensures w <= s
    ensures forall i :: 0 <= i < |w| ==> !IsSpace(w[i])
    ensures |w| < |s| ==> IsSpace(s[|w|])
    ensures s != [] && !IsSpace(s[0]) ==> |w| >= 1
  {
    if s != [] && !IsSpace(s[0]) then [s[0]] + WordPrefix(s[1..]) else []
  }

  /** A non-empty run of non-blank characters. */
  predicate IsWord(w: string) {
    w != [] && forall i :: 0 <= i < |w| ==> !IsSpace(w[i])
  }

  predicate IsBlank(s: string) {
    forall i :: 0 <= i < |s| ==> IsSpace(s[i])
  }

  /**
   * `s.split()` with no argument: the maximal runs of non-blank characters, in order.
   * There are no empty words, and there are none at all exactly when `s` is blank.
   */
  function Words(s: string): (ws: seq<string>)
    decreases |s|
  {
    var t := SkipSpaces(s);
    if t == [] then []
    else
      var w := WordPrefix(t);
      [w] + Words(t[|w|..])
  }

  /** Every word is a non-empty run of non-blank characters. */
  lemma {:induction false} WordsAreWords(s: string)
    ensures forall k :: 0 <= k < |Words(s)| ==> IsWord(Words(s)[k])
    decreases |s|
  {
    var t := SkipSpaces(s);
    if t != [] {
      var w := WordPrefix(t);
      WordsAreWords(t[|w|..]);
      WordsCons(w, Words(t[|w|..]));
    }
  }

  lemma WordsCons(w: string, rest: seq<string>)
    requires IsWord(w)
    requires forall k :: 0 <= k < |rest| ==> IsWord(rest[k])
    ensures forall k :: 0 <= k < |[w] + rest| ==> IsWord(([w] + rest)[k])
  {
  }

  /** A line has no words exactly when it is blank. */
  lemma WordsEmptyIffBlank(s: string)
    ensures Words(s) == [] <==> IsBlank(s)
  {
    var t := SkipSpaces(s);
    if t != [] {
      assert !IsSpace(s[|s| - |t|]);
    }
  }

  /** Each line's tokens, `line.split()`. */
  function Tokenise(lines: seq<string>): (rows: seq<seq<string>>)
    ensures |rows| == |lines|
    ensures forall i :: 0 <= i < |lines| ==> rows[i] == Words(lines[i])
  {
    seq(|lines|, i requires 0 <= i < |lines| => Words(lines[i]))
  }

  // ------------------------------------------------------------------
  // rstrip / lstrip of one character

  /** `s.rstrip(ch)` for a one-character argument. */
  function RStrip(s: string, ch: char): (r: string)
    ensures r <= s
    ensures r != [] ==> r[|r| - 1] != ch
    ensures forall i :: |r| <= i < |s| ==> s[i] == ch
    decreases |s|
  {
    if s != [] && s[|s| - 1] == ch then RStrip(s[..|s| - 1], ch) else s
  }

  /** `s.lstrip(ch)` for a one-character argument. */
  function LStrip(s: string, ch: char): (r: string)
    ensures |r| <= |s| && r == s[|s| - |r|..]
    ensures r != [] ==> r[0] != ch
    ensures forall i :: 0 <= i < |s| - |r| ==> s[i] == ch
  {
    if s != [] && s[0] == ch then LStrip(s[1..], ch) else s
  }

  /** `s.rstrip("'").lstrip("'")`: a name with its surrounding single quotes removed. */
  function StripQuotes(s: string): (r: string)
  {
    LStrip(RStrip(s, '\''), '\'')
  }

  // ------------------------------------------------------------------
  // upper()

  function UpperChar(ch: char): (u: char)
  {
    if IsLower(ch) then (ch as int - 32) as char else ch
  }

  /** `s.upper()` on ASCII letters: same length, and no lower-case letter is left. */
  function Upper(s: string): (u: string)
    ensures |u| == |s|
    ensures forall i :: 0 <= i < |s| ==> u[i] == UpperChar(s[i])
    ensures forall i :: 0 <= i < |u| ==> !IsLower(u[i])
  {
    seq(|s|, i requires 0 <= i < |s| => UpperChar(s[i]))
  }

  /** Upper-casing twice is upper-casing once. */
  lemma UpperIdempotent(s: string)
    ensures Upper(Upper(s)) == Upper(s)
  {
    var u := Upper(s);
    assert forall i :: 0 <= i < |u| ==> UpperChar(u[i]) == u[i];
  }

  // ------------------------------------------------------------------
  // Decimal digits

  function DigitValue(ch: char): nat
    requires IsDigit(ch)
  {
    ch as int - '0' as int
  }

  function DigitChar(d: nat): (ch: char)
    requires d < 10
    ensures IsDigit(ch) && DigitValue(ch) == d
  {
    ('0' as int + d) as char
  }

  /** The number a run of decimal digits denotes, most significant first. */
  function DigitsValue(d: string): nat
    requires AllDigits(d)
    decreases |d|
  {
    if d == [] then 0 else 10 * DigitsValue(d[..|d| - 1]) + DigitValue(d[|d| - 1])
  }

  function Pow10(n: nat): (p: nat)
    ensures p >= 1
  {
    if n == 0 then 1 else 10 * Pow10(n - 1)
  }

  /** The value of the decimal `whole.frac`. */
  function DecimalValue(whole: string, frac: string): real
    requires AllDigits(whole) && AllDigits(frac)
  {
    DigitsValue(whole) as real + DigitsValue(frac) as real / Pow10(|frac|) as real
  }

  /** The number of leading decimal digits of `s`. */
  function DigitRun(s: string): (k: nat)
    ensures k <= |s| && AllDigits(s[..k])
    ensures k < |s| ==> !IsDigit(s[k])
  {
    if s != [] && IsDigit(s[0]) then
      var k := 1 + DigitRun(s[1..]);
      assert s[..k] == [s[0]] + s[1..][..k - 1];
      k
    else 0
  }

  // ------------------------------------------------------------------
  // int(s), '%d' % n, float(s)

  /** `int(s)` on a token: an optional sign followed by one or more decimal digits; anything else fails. */
  function ParseInt(s: string): Option<int>
  {
    if |s| > 0 && (s[0] == '-' || s[0] == '+') then
      if |s| > 1 && AllDigits(s[1..]) then
        Some(if s[0] == '-' then -(DigitsValue(s[1..]) as int) else DigitsValue(s[1..]))
      else None
    else if |s| > 0 && AllDigits(s) then Some(DigitsValue(s))
    else None
  }

  /** `'%d' % n` for a natural number: its decimal digits, without leading zeros. */
  function NatToString(n: nat): (s: string)
    ensures |s| >= 1 && AllDigits(s)
    ensures DigitsValue(s) == n
    ensures s[0] == '0' ==> n == 0
    decreases n
  {
    if n < 10 then [DigitChar(n)]
    else
      var s := NatToString(n / 10) + [DigitChar(n % 10)];
      assert s[..|s| - 1] == NatToString(n / 10);
      s
  }

  /** `'%d' % i`. */
  function IntToString(i: int): string
  {
    if i < 0 then "-" + NatToString(-i) else NatToString(i)
  }

  /** `int('%d' % i) == i`: printing a code and reading it back loses nothing. */
  lemma ParseIntToString(i: int)
    ensures ParseInt(IntToString(i)) == Some(i)
  {
    if i < 0 {
      var s := IntToString(i);
      assert s[1..] == NatToString(-i);
    }
  }

  /**
   * `float(s)` on plain decimal text: an optional sign, then digits with at most one point
   * and at least one digit (`12`, `12.`, `.5`, `12.5`); anything else fails.
   */
  function ParseDecimal(s: string): Option<real>
  {
    if |s| > 0 && (s[0] == '-' || s[0] == '+') then
      match ParseUnsignedDecimal(s[1..])
      case None => None
      case Some(v) => Some(if s[0] == '-' then -v else v)
    else ParseUnsignedDecimal(s)
  }

  function ParseUnsignedDecimal(s: string): Option<real>
  {
    var k := DigitRun(s);
    if k == |s| then
      if k > 0 then Some(DigitsValue(s) as real) else None
    else if s[k] == '.' && AllDigits(s[k + 1..]) && (k > 0 || k + 1 < |s|) then
      Some(DecimalValue(s[..k], s[k + 1..]))
    else None
  }

  /** Decimal text `whole.frac` reads back as the value `DecimalValue` gives it. */
  lemma ParseDecimalPoint(whole: string, frac: string)
    requires AllDigits(whole) && AllDigits(frac) && |whole| > 0
    ensures ParseDecimal(whole + "." + frac) == Some(DecimalValue(whole, frac))
  {
    var s := whole + "." + frac;
    assert s[..|whole|] == whole;
    assert s[|whole| + 1..] == frac;
    assert DigitRun(s) == |whole| by {
      DigitRunOfDigits(whole, "." + frac);
      assert s == whole + ("." + frac);
    }
  }

  /** The digit run of `d + t` is all of `d` when `t` does not start with a digit. */
  lemma {:induction false} DigitRunOfDigits(d: string, t: string)
    requires AllDigits(d)
    requires t != [] && !IsDigit(t[0])
    ensures DigitRun(d + t) == |d|
  {
    if d != [] {
      DigitRunOfDigits(d[1..], t);
      assert (d + t)[1..] == d[1..] + t;
    }
  }
}
