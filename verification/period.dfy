/**
 * `Planet._extract_sidereal_orb_period` of python/universe/planet.py: the physical-data text of
 * a Horizons response is searched with five fixed patterns, tried in list order; the number
 * captured by the first pattern that matches anywhere in the text is the sidereal orbital
 * period in days. The five patterns are matched by hand-written recognisers, not by a general
 * regular-expression engine.
 */
module OrbitalPeriod {
  import opened Wrappers
  import opened Text

  /**
   * One of the fixed pattern shapes `label [\s*(?:d)] \s*=\s* (\d+\.?\d*) [\s*(d)]`: the literal
   * label, whether a unit `d` stands between the label and `=`, and whether one must follow
   * the number.
   */
  datatype PeriodPattern = PeriodPattern(heading: string, unitBeforeEquals: bool, unitAfterValue: bool)

  /** `orbital_period_regexes`, in list order. */
  const Patterns: seq<PeriodPattern> := [
    PeriodPattern("Sidereal orb. per.", false, true),
    PeriodPattern("Sidereal orb. per.,", true, false),
    PeriodPattern("Sidereal orb period", false, true),
    PeriodPattern("Mean sidereal orb per", false, true),
    PeriodPattern("Sidereal orbit period", false, true)]

  /** `\s*` followed by the character `ch`: what is left after both, or nothing when `ch` is not next. */
  function Expect(s: string, ch: char): (r: Option<string>)
    ensures r.Some? ==> |r.value| < |s| && r.value == s[|s| - |r.value|..]
    ensures r.Some? ==> s[|s| - |r.value| - 1] == ch
    ensures r.Some? ==> forall i :: 0 <= i < |s| - |r.value| - 1 ==> IsSpace(s[i])
  {
    var t := SkipSpaces(s);
    if t != [] && t[0] == ch then Some(t[1..]) else None
  }

  /** `\d+\.?\d*`: a digit run, optionally followed by a point and a second (possibly empty) digit run. */
  predicate IsNumberText(g: string)
  {
    var k := DigitRun(g);
    k > 0 && (k == |g| || (g[k] == '.' && AllDigits(g[k + 1..])))
  }

  /** The length of the longest prefix of `s` of the form `\d+\.?\d*`, or 0 when `s` does not start with a digit. */
  function NumberLength(s: string): (n: nat)
    ensures n <= |s|
    ensures n > 0 ==> IsNumberText(s[..n])
    ensures n == 0 ==> s == [] || !IsDigit(s[0])
  {
    var k := DigitRun(s);
    if k == 0 then 0
    else if k < |s| && s[k] == '.' then
      var m := DigitRun(s[k + 1..]);
      assert s[..k + 1 + m][..k] == s[..k];
      assert DigitRun(s[..k + 1 + m]) == k by {
        DigitRunOfDigits(s[..k], s[k..k + 1 + m]);
        assert s[..k + 1 + m] == s[..k] + s[k..k + 1 + m];
      }
      assert s[..k + 1 + m][k + 1..] == s[k + 1..][..m];
      k + 1 + m
    else
      assert DigitRun(s[..k]) == k;
      k
  }

  /** What follows the number: nothing is required, or `\s*d`. */
  function TakeNumber(t: string, unitAfterValue: bool): (g: Option<string>)
    ensures g.Some? ==> IsNumberText(g.value) && g.value <= t
  {
    var n := NumberLength(t);
    if n == 0 then None
    else if unitAfterValue && Expect(t[n..], 'd').None? then None
    else Some(t[..n])
  }

  /**
   * The first capturing group of `p` matched at the very start of `s`, if `p` matches there.
   * Each `\s*` and each digit run is taken greedily; for these patterns a shorter choice is
   * always followed by a space, a digit or a point, where the pattern needs something else,
   * so the greedy choice is the only one that can succeed.
   */
  function Capture(p: PeriodPattern, s: string): (g: Option<string>)
    ensures g.Some? ==> IsNumberText(g.value)
  {
    if !(p.heading <= s) then None
    else
      match (if p.unitBeforeEquals then Expect(s[|p.heading|..], 'd') else Some(s[|p.heading|..]))
      case None => None
      case Some(r) =>
        match Expect(r, '=')
        case None => None
        case Some(r2) => TakeNumber(SkipSpaces(r2), p.unitAfterValue)
  }

  /**
   * What `m` gives at the leftmost position of `text` where it gives anything: `re.search`'s
   * scan. It finds nothing exactly when `m` gives nothing at every position.
   */
  function Leftmost<G>(m: string -> Option<G>, text: string): (r: Option<G>)
    ensures r.Some? ==> exists i :: 0 <= i <= |text| && m(text[i..]) == r
    ensures r.None? <==> forall i :: 0 <= i <= |text| ==> m(text[i..]).None?
    decreases |text|
  {
    assert text[0..] == text;
    if m(text).Some? then m(text)
    else if text == [] then None
    else
      assert forall i :: 1 <= i <= |text| ==> text[i..] == text[1..][i - 1..];
      Leftmost(m, text[1..])
  }

  /** `re.search(p, text).group(1)`. */
  function SearchCapture(p: PeriodPattern, text: string): Option<string>
  {
    Leftmost(s => Capture(p, s), text)
  }

  /** The search result of every pattern, in list order. */
  function Captures(patterns: seq<PeriodPattern>, text: string): (cs: seq<Option<string>>)
    ensures |cs| == |patterns|
    ensures forall j :: 0 <= j < |patterns| ==> cs[j] == SearchCapture(patterns[j], text)
  {
    seq(|patterns|, j requires 0 <= j < |patterns| => SearchCapture(patterns[j], text))
  }

  /**
   * The loop over the search results: the first capture `float` accepts gives the result; a
   * pattern that does not match, or whose capture `float` rejects, passes to the next one; at
   * the end of the list the result is `None`.
   */
  function FirstNumber(cs: seq<Option<string>>): (r: Option<real>)
    ensures r.None? <==> forall i :: 0 <= i < |cs| && cs[i].Some? ==> ParseDecimal(cs[i].value).None?
    ensures r.Some? ==> exists i :: 0 <= i < |cs| && cs[i].Some? && ParseDecimal(cs[i].value) == r
  {
    if cs == [] then None
    else
      assert forall i :: 1 <= i < |cs| ==> cs[1..][i - 1] == cs[i];
      match cs[0]
      case None => FirstNumber(cs[1..])
      case Some(g) =>
        match ParseDecimal(g)
        case Some(v) => Some(v)
        case None => FirstNumber(cs[1..])
  }

  /**
   * The patterns tried in list order. The searches change nothing, so running the later ones
   * even after an earlier one has matched gives the same result as stopping at the first.
   * No period is found exactly when no pattern matches anywhere in the text; a period found
   * is the value of some pattern's capture.
   */
  function ExtractPeriod(patterns: seq<PeriodPattern>, text: string): (r: Option<real>)
    ensures r.None? <==> forall j :: 0 <= j < |patterns| ==> SearchCapture(patterns[j], text).None?
    ensures r.Some? ==> exists j :: 0 <= j < |patterns| && SearchCapture(patterns[j], text).Some?
                                    && ParseDecimal(SearchCapture(patterns[j], text).value) == r
  {
    CapturesAreNumbers(patterns, text);
    NoCaptureNoNumber(Captures(patterns, text));
    FirstNumber(Captures(patterns, text))
  }

  /** `_extract_sidereal_orb_period(text)`: `None` exactly when none of the five patterns matches. */
  function SiderealOrbPeriod(text: string): (r: Option<real>)
    ensures r.None? <==> forall j :: 0 <= j < |Patterns| ==> SearchCapture(Patterns[j], text).None?
  {
    ExtractPeriod(Patterns, text)
  }

  // ------------------------------------------------------------------
  // Properties

  /** Plain digits read back as their value. */
  lemma ParseDigits(d: string)
    requires AllDigits(d) && |d| > 0
    ensures ParseDecimal(d) == Some(DigitsValue(d) as real)
  {
    assert DigitRun(d) == |d|;
  }

  /**
   * `\d+\.?\d*` text is always accepted by `float`, so the `except` branch of the loop never
   * runs for these patterns.
   */
  lemma NumberTextParses(g: string)
    requires IsNumberText(g)
    ensures ParseDecimal(g).Some?
  {
    var k := DigitRun(g);
    if k == |g| {
      assert g[..k] == g;
      ParseDigits(g);
    } else {
      assert g == g[..k] + "." + g[k + 1..];
      ParseDecimalPoint(g[..k], g[k + 1..]);
    }
  }

  /** `re.search` reports the leftmost match: what `m` gives at the first position where it gives anything. */
  lemma {:induction false} LeftmostIsFirst<G>(m: string -> Option<G>, text: string, i: nat)
    requires i <= |text| && m(text[i..]).Some?
    requires forall j :: 0 <= j < i ==> m(text[j..]).None?
    ensures Leftmost(m, text) == m(text[i..])
    decreases i
  {
    assert text[0..] == text;
    if i > 0 {
      assert text[1..][i - 1..] == text[i..];
      forall j | 0 <= j < i - 1
        ensures m(text[1..][j..]).None?
      {
        assert text[1..][j..] == text[j + 1..];
      }
      LeftmostIsFirst(m, text[1..], i - 1);
    }
  }

  /** A search capture is always number text. */
  lemma SearchCaptureIsNumber(p: PeriodPattern, text: string)
    requires SearchCapture(p, text).Some?
    ensures IsNumberText(SearchCapture(p, text).value)
  {
  }

  /** Every search result that matched is number text. */
  lemma CapturesAreNumbers(patterns: seq<PeriodPattern>, text: string)
    ensures forall j :: 0 <= j < |patterns| && SearchCapture(patterns[j], text).Some? ==> IsNumberText(SearchCapture(patterns[j], text).value)
  {
    forall j | 0 <= j < |patterns| && SearchCapture(patterns[j], text).Some?
      ensures IsNumberText(SearchCapture(patterns[j], text).value)
    {
      SearchCaptureIsNumber(patterns[j], text);
    }
  }

  /** When result `i` is the first capture, and it is number text, it decides the result. */
  lemma {:induction false} FirstCaptureDecides(cs: seq<Option<string>>, i: nat)
    requires i < |cs| && cs[i].Some? && IsNumberText(cs[i].value)
    requires forall j :: 0 <= j < i ==> cs[j].None?
    ensures FirstNumber(cs).Some? && FirstNumber(cs) == ParseDecimal(cs[i].value)
    decreases i
  {
    if i == 0 {
      NumberTextParses(cs[0].value);
    } else {
      assert cs[0].None?;
      assert cs[1..][i - 1] == cs[i];
      FirstCaptureDecides(cs[1..], i - 1);
    }
  }

  /** With only number-text captures, the result is `None` exactly when no pattern matched. */
  lemma {:induction false} NoCaptureNoNumber(cs: seq<Option<string>>)
    requires forall j :: 0 <= j < |cs| && cs[j].Some? ==> IsNumberText(cs[j].value)
    ensures FirstNumber(cs).None? <==> forall j :: 0 <= j < |cs| ==> cs[j].None?
    decreases |cs|
  {
    if cs != [] {
      assert forall j :: 1 <= j < |cs| ==> cs[1..][j - 1] == cs[j];
      NoCaptureNoNumber(cs[1..]);
      if cs[0].Some? {
        NumberTextParses(cs[0].value);
      }
    }
  }

  /**
   * The patterns are tried in list order: when pattern `i` is the first that matches, its
   * capture, read as a number, is the period; the later patterns are never consulted.
   */
  lemma FirstMatchingPatternWins(patterns: seq<PeriodPattern>, text: string, i: nat)
    requires i < |patterns| && SearchCapture(patterns[i], text).Some?
    requires forall j :: 0 <= j < i ==> SearchCapture(patterns[j], text).None?
    ensures ExtractPeriod(patterns, text).Some?
    ensures ExtractPeriod(patterns, text) == ParseDecimal(SearchCapture(patterns[i], text).value)
  {
    SearchCaptureIsNumber(patterns[i], text);
    FirstCaptureDecides(Captures(patterns, text), i);
  }

  /** The number at the start of `<whole>.<frac><rest>` is the whole decimal when `rest` does not continue it. */
  lemma NumberLengthOfDecimal(whole: string, frac: string, rest: string)
    requires AllDigits(whole) && |whole| > 0 && AllDigits(frac)
    requires rest != [] && !IsDigit(rest[0])
    ensures NumberLength(whole + "." + frac + rest) == |whole| + 1 + |frac|
  {
    var t := whole + "." + frac + rest;
    assert t == whole + ("." + frac + rest);
    DigitRunOfDigits(whole, "." + frac + rest);
    assert t[|whole|] == '.';
    assert t[|whole| + 1..] == frac + rest;
    DigitRunOfDigits(frac, rest);
  }

  /** A blank, then `ch`: `\s*` takes the blank and `ch` is found. */
  lemma ExpectAfterBlank(ch: char, rest: string)
    requires !IsSpace(ch)
    ensures Expect([' '] + ([ch] + rest), ch) == Some(rest)
  {
    SkipOneBlank(' ', [ch] + rest);
    assert ([ch] + rest)[1..] == rest;
  }

  /** Number text followed by ` d`: the number is all of it, and the unit is found after it. */
  lemma DecimalThenUnit(whole: string, frac: string, tail: string)
    requires AllDigits(whole) && |whole| > 0 && AllDigits(frac)
    ensures TakeNumber(whole + "." + frac + (" d" + tail), true) == Some(whole + "." + frac)
  {
    var num := whole + "." + frac;
    var rest := [' '] + (['d'] + tail);
    assert " d" + tail == rest;
    var t := num + rest;
    NumberLengthOfDecimal(whole, frac, rest);
    var n := NumberLength(t);
    assert n == |num|;
    assert t[..n] == num;
    assert t[n..] == rest;
    ExpectAfterBlank('d', tail);
  }

  /** After a heading that takes no unit before `=`, ` = ` is passed over and the number is read. */
  lemma CaptureAfterHeading(p: PeriodPattern, t: string)
    requires !p.unitBeforeEquals && t != [] && !IsSpace(t[0])
    ensures Capture(p, p.heading + (" = " + t)) == TakeNumber(t, p.unitAfterValue)
  {
    var s := p.heading + (" = " + t);
    assert s[..|p.heading|] == p.heading;
    assert s[|p.heading|..] == " = " + t;
    assert " = " + t == [' '] + (['='] + ([' '] + t));
    ExpectAfterBlank('=', [' '] + t);
    SkipOneBlank(' ', t);
  }

  /**
   * A line `<heading> = <whole>.<frac> d...` written with one of the headings that take the
   * unit after the number captures `<whole>.<frac>`, and the period is its decimal value.
   */
  lemma HeadedLineMatches(p: PeriodPattern, whole: string, frac: string, tail: string)
    requires !p.unitBeforeEquals && p.unitAfterValue
    requires AllDigits(whole) && |whole| > 0 && AllDigits(frac)
    ensures Capture(p, p.heading + " = " + whole + "." + frac + " d" + tail) == Some(whole + "." + frac)
    ensures ParseDecimal(whole + "." + frac) == Some(DecimalValue(whole, frac))
  {
    var t := whole + "." + frac + (" d" + tail);
    assert p.heading + " = " + whole + "." + frac + " d" + tail == p.heading + (" = " + t);
    assert t[0] == whole[0];
    CaptureAfterHeading(p, t);
    DecimalThenUnit(whole, frac, tail);
    ParseDecimalPoint(whole, frac);
  }
}
