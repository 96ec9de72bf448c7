/**
 * The handful of Python `str` operations the core relies on, restricted to
 * ASCII: `lower`/`upper`, `strip`, `startswith`, the `in` substring test,
 * `split(sep)[0]`, `str(int)`, `int(str)` and the search of the regular
 * expression `\d+`.
 */
module PyStrings {
  import opened Wrappers

  /** Python's `str.isspace` on ASCII: tab, newline, vertical tab, form feed,
      carriage return, the four separators 0x1c..0x1f and the space. */
  predicate IsSpace(c: char) {
    (9 <= c as int <= 13) || (28 <= c as int <= 32)
  }

  predicate IsDigit(c: char) {
    '0' <= c <= '9'
  }

  function DigitOf(c: char): (d: nat)
    requires IsDigit(c)
    ensures d < 10
  {
    c as int - '0' as int
  }

  function DigitChar(d: nat): (c: char)
    requires d < 10
    ensures IsDigit(c) && DigitOf(c) == d
  {
    ('0' as int + d) as char
  }

  function LowerChar(c: char): char {
    if 'A' <= c <= 'Z' then (c as int + 32) as char else c
  }

  function UpperChar(c: char): char {
    if 'a' <= c <= 'z' then (c as int - 32) as char else c
  }

  /** `s.lower()` */
  function Lower(s: string): (r: string)
    ensures |r| == |s|
    ensures forall i :: 0 <= i < |s| ==> r[i] == LowerChar(s[i])
  {
    seq(|s|, i requires 0 <= i < |s| => LowerChar(s[i]))
  }

  /** `s.upper()` */
  function Upper(s: string): (r: string)
    ensures |r| == |s|
    ensures forall i :: 0 <= i < |s| ==> r[i] == UpperChar(s[i])
  {
    seq(|s|, i requires 0 <= i < |s| => UpperChar(s[i]))
  }

  /** `s.lstrip()` */
  function TrimLeft(s: string): string {
    if |s| > 0 && IsSpace(s[0]) then TrimLeft(s[1..]) else s
  }

  /** `s.rstrip()` */
  function TrimRight(s: string): string {
    if |s| > 0 && IsSpace(s[|s| - 1]) then TrimRight(s[..|s| - 1]) else s
  }

  /** `s.strip()`: the longest infix without leading or trailing whitespace. */
  function Strip(s: string): string {
    TrimRight(TrimLeft(s))
  }

  /** `s.startswith(p)` */
  predicate StartsWith(s: string, p: string) {
    |p| <= |s| && s[..|p|] == p
  }

  lemma StartsWithPrefix(p: string, rest: string)
    ensures StartsWith(p + rest, p)
  {
    assert (p + rest)[..|p|] == p;
  }

  lemma StartsWithLonger(s: string, t: string, p: string)
    requires StartsWith(s, p)
    ensures StartsWith(s + t, p)
  {
    assert (s + t)[..|p|] == s[..|p|];
  }

  lemma StartsWithShorter(s: string, p: string, q: string)
    requires StartsWith(s, p) && StartsWith(p, q)
    ensures StartsWith(s, q)
  {
    assert s[..|q|] == s[..|p|][..|q|];
  }

  ghost predicate OccursAt(hay: string, needle: string, i: int) {
    0 <= i && i + |needle| <= |hay| && hay[i..i + |needle|] == needle
  }

  /** `needle in hay` for two strings. */
  predicate Contains(hay: string, needle: string)
    decreases |hay|
  {
    StartsWith(hay, needle) || (|hay| > 0 && Contains(hay[1..], needle))
  }

  /** `s.split(sep)[0]`: everything before the first `sep`, or all of `s`. */
  function BeforeFirst(s: string, sep: char): (r: string)
    ensures |r| <= |s| && r == s[..|r|]
    ensures sep !in r
    ensures |r| < |s| ==> s[|r|] == sep
  {
    if |s| == 0 || s[0] == sep then "" else [s[0]] + BeforeFirst(s[1..], sep)
  }

  /** `str(n)` for a natural number. */
  function NatToDecimal(n: nat): (r: string)
    ensures |r| > 0
    ensures forall i :: 0 <= i < |r| ==> IsDigit(r[i])
  {
    if n < 10 then [DigitChar(n)] else NatToDecimal(n / 10) + [DigitChar(n % 10)]
  }

  /** `str(i)` for any integer. */
  function IntToDecimal(i: int): string {
    if i < 0 then "-" + NatToDecimal(-i) else NatToDecimal(i)
  }

  /** The value of the digits of `s`, underscores skipped. */
  function DigitsValue(s: string): nat {
    if |s| == 0 then 0
    else if IsDigit(s[|s| - 1]) then DigitsValue(s[..|s| - 1]) * 10 + DigitOf(s[|s| - 1])
    else DigitsValue(s[..|s| - 1])
  }

  /** A non-empty run of decimal digits in which single underscores may
      separate digits, as `int()` accepts. */
  predicate DigitGroups(s: string) {
    && |s| > 0
    && IsDigit(s[0])
    && IsDigit(s[|s| - 1])
    && forall i :: 0 <= i < |s| ==> GroupChar(s, i)
  }

  /** Position `i` of `s` holds a digit, or an underscore followed by one. */
  predicate GroupChar(s: string, i: nat)
    requires i < |s|
  {
    IsDigit(s[i]) || (s[i] == '_' && i + 1 < |s| && IsDigit(s[i + 1]))
  }

  /** Python's `int(s)` for a string `s` in base 10: `None` stands for the
      `ValueError` it raises. */
  function ParseInt(s: string): (r: Option<int>)
    ensures r.Some? ==> |Strip(s)| > 0
  {
    ParseSigned(Strip(s))
  }

  /** `int()` after the surrounding whitespace is gone: an optional sign,
      then digit groups. */
  function ParseSigned(t: string): (r: Option<int>)
    ensures r.Some? ==> |t| > 0
  {
    var signed := |t| > 0 && (t[0] == '+' || t[0] == '-');
    var body := if signed then t[1..] else t;
    var v: int := DigitsValue(body);
    if !DigitGroups(body) then None
    else if signed && t[0] == '-' then Some(-v)
    else Some(v)
  }

  /** The longest prefix of `s` made of digits. */
  function LeadingDigits(s: string): (r: string)
    ensures |r| <= |s| && r == s[..|r|]
    ensures forall i :: 0 <= i < |r| ==> IsDigit(r[i])
    ensures |r| < |s| ==> !IsDigit(s[|r|])
  {
    if |s| > 0 && IsDigit(s[0]) then [s[0]] + LeadingDigits(s[1..]) else ""
  }

  /** `re.search(r'\d+', s).group()`: the first maximal run of digits, or
      `None` when `s` has no digit. */
  function FirstDigitRun(s: string): (r: Option<string>)
    ensures r.None? <==> forall i :: 0 <= i < |s| ==> !IsDigit(s[i])
    ensures r.Some? ==> |r.value| > 0 && forall i :: 0 <= i < |r.value| ==> IsDigit(r.value[i])
  {
    if |s| == 0 then None
    else if IsDigit(s[0]) then Some(LeadingDigits(s))
    else FirstDigitRun(s[1..])
  }

  // ---------------------------------------------------------------------------
  // Lemmas

  /** `Contains` is the substring relation. */
  lemma {:induction false} ContainsIsSubstring(hay: string, needle: string)
    ensures Contains(hay, needle) <==> exists i :: OccursAt(hay, needle, i)
    decreases |hay|
  {
    if StartsWith(hay, needle) {
      assert OccursAt(hay, needle, 0);
    } else if |hay| == 0 {
      forall i | OccursAt(hay, needle, i) ensures false {
      }
    } else {
      ContainsIsSubstring(hay[1..], needle);
      if exists i :: OccursAt(hay[1..], needle, i) {
        var i :| OccursAt(hay[1..], needle, i);
        assert hay[i + 1..i + 1 + |needle|] == hay[1..][i..i + |needle|];
        assert OccursAt(hay, needle, i + 1);
      }
      if exists i :: OccursAt(hay, needle, i) {
        var i :| OccursAt(hay, needle, i);
        assert i != 0;
        assert hay[1..][i - 1..i - 1 + |needle|] == hay[i..i + |needle|];
        assert OccursAt(hay[1..], needle, i - 1);
      }
    }
  }

  /** `lstrip` removes exactly the leading whitespace: what is left is a
      suffix that starts with a non-blank, and everything cut off is blank. */
  lemma {:induction false} TrimLeftSpec(s: string)
    ensures var r := TrimLeft(s);
            && |r| <= |s| && r == s[|s| - |r|..]
            && (|r| > 0 ==> !IsSpace(r[0]))
            && forall i :: 0 <= i < |s| - |r| ==> IsSpace(s[i])
    decreases |s|
  {
    if |s| > 0 && IsSpace(s[0]) {
      TrimLeftSpec(s[1..]);
      var r := TrimLeft(s);
      assert r == TrimLeft(s[1..]);
      forall i | 0 <= i < |s| - |r| ensures IsSpace(s[i]) {
        if i > 0 {
          assert s[i] == s[1..][i - 1];
        }
      }
    }
  }

  /** `rstrip` removes exactly the trailing whitespace. */
  lemma {:induction false} TrimRightSpec(s: string)
    ensures var r := TrimRight(s);
            && |r| <= |s| && r == s[..|r|]
            && (|r| > 0 ==> !IsSpace(r[|r| - 1]))
            && forall i :: |r| <= i < |s| ==> IsSpace(s[i])
    decreases |s|
  {
    if |s| > 0 && IsSpace(s[|s| - 1]) {
      var t := s[..|s| - 1];
      TrimRightSpec(t);
      var r := TrimRight(s);
      assert r == TrimRight(t);
      assert r == t[..|r|] == s[..|r|];
      forall i | |r| <= i < |s| ensures IsSpace(s[i]) {
        if i < |s| - 1 {
          assert s[i] == t[i];
        }
      }
    }
  }

  /** Python's `str.strip` ignores one more trailing blank. */
  lemma StripTrailingBlank(s: string)
    ensures Strip(s + " ") == Strip(s)
  {
    var l := TrimLeft(s);
    TrimLeftSpec(s);
    if l == "" {
      TrimLeftAllBlank(s + " ", |s|);
    } else {
      TrimLeftAppend(s, " ");
      assert (l + " ")[..|l + " "| - 1] == l;
    }
  }

  lemma {:induction false} TrimLeftAppend(s: string, t: string)
    requires TrimLeft(s) != ""
    ensures TrimLeft(s + t) == TrimLeft(s) + t
    decreases |s|
  {
    if |s| > 0 && IsSpace(s[0]) {
      assert (s + t)[1..] == s[1..] + t;
      TrimLeftAppend(s[1..], t);
    }
  }

  lemma {:induction false} TrimLeftAllBlank(s: string, k: nat)
    requires k <= |s|
    requires forall i :: 0 <= i < k ==> IsSpace(s[i])
    requires forall i :: k <= i < |s| ==> IsSpace(s[i])
    ensures TrimLeft(s) == ""
    decreases |s|
  {
    if |s| > 0 {
      TrimLeftAllBlank(s[1..], 0);
    }
  }

  lemma {:induction false} DecimalDigitsValue(n: nat)
    ensures DigitsValue(NatToDecimal(n)) == n
  {
    var r := NatToDecimal(n);
    if n >= 10 {
      DecimalDigitsValue(n / 10);
      assert r[..|r| - 1] == NatToDecimal(n / 10);
    }
  }

  lemma NoBlankStrip(s: string)
    requires forall i :: 0 <= i < |s| ==> !IsSpace(s[i])
    ensures Strip(s) == s
  {
  }

  lemma DigitsParse(s: string, v: int)
    requires |s| > 0 && forall i :: 0 <= i < |s| ==> IsDigit(s[i])
    requires v == DigitsValue(s) as int
    ensures ParseInt(s) == Some(v)
  {
    NoBlankStrip(s);
    AllDigitGroups(s);
    assert !IsDigit('+') && !IsDigit('-');
    assert s[0] != '+' && s[0] != '-';
  }

  lemma NegativeDigitsParse(s: string, v: int)
    requires |s| > 0 && forall i :: 0 <= i < |s| ==> IsDigit(s[i])
    requires v == -(DigitsValue(s) as int)
    ensures ParseInt("-" + s) == Some(v)
  {
    AllDigitGroups(s);
    NoBlankSigned(s);
    MinusDigits("-" + s, s);
  }

  lemma MinusDigits(d: string, s: string)
    requires d == "-" + s && DigitGroups(s)
    requires Strip(d) == d
    ensures ParseInt(d) == Some(-(DigitsValue(s) as int))
  {
    assert d[1..] == s;
    ParseMinus(d);
  }

  /** A sign followed by digits has no blank to strip. */
  lemma NoBlankSigned(s: string)
    requires forall i :: 0 <= i < |s| ==> IsDigit(s[i])
    ensures Strip("-" + s) == "-" + s
  {
    var d := "-" + s;
    forall i | 0 <= i < |d| ensures !IsSpace(d[i]) {
      if i > 0 {
        assert d[i] == s[i - 1];
      }
    }
    NoBlankStrip(d);
  }

  /** `int()` of a minus sign followed by digit groups. */
  lemma ParseMinus(t: string)
    requires |t| > 0 && t[0] == '-' && DigitGroups(t[1..])
    ensures ParseSigned(t) == Some(-(DigitsValue(t[1..]) as int))
  {
  }

  /** A run of digits is a digit group. */
  lemma AllDigitGroups(s: string)
    requires |s| > 0 && forall i :: 0 <= i < |s| ==> IsDigit(s[i])
    ensures DigitGroups(s)
  {
    forall i | 0 <= i < |s| ensures GroupChar(s, i) {
      assert IsDigit(s[i]);
    }
  }

  /** `int(str(i)) == i`: the decimal form of an integer parses back. */
  lemma DecimalRoundTrip(i: int)
    ensures ParseInt(IntToDecimal(i)) == Some(i)
  {
    if i < 0 {
      NegativeRoundTrip(i);
    } else {
      NaturalRoundTrip(i);
    }
  }

  lemma NaturalRoundTrip(n: nat)
    ensures ParseInt(NatToDecimal(n)) == Some(n as int)
  {
    var d := NatToDecimal(n);
    DecimalDigitsValue(n);
    DigitsParse(d, n);
  }

  lemma NegativeRoundTrip(i: int)
    requires i < 0
    ensures ParseInt(IntToDecimal(i)) == Some(i)
  {
    var d := NatToDecimal(-i);
    assert IntToDecimal(i) == "-" + d;
    DecimalDigitsValue(-i);
    NegativeDigitsParse(d, i);
  }

  /** Two keys that the planner may write: `"step12"` carries 12 for the
      digit search, and `"step1"` is not an integer literal for `int()`. */
  lemma StepKeyExamples()
    ensures FirstDigitRun("step12") == Some("12") && DigitsValue("12") == 12
    ensures FirstDigitRun("a1b2") == Some("1")
  {
    assert "step12"[1..] == "tep12";
    assert "tep12"[1..] == "ep12";
    assert "ep12"[1..] == "p12";
    assert "p12"[1..] == "12";
    assert "12"[1..] == "2";
    assert "2"[1..] == "";
    assert LeadingDigits("2") == "2";
    assert LeadingDigits("12") == "12";
    assert "12"[..1] == "1";
    assert "a1b2"[1..] == "1b2";
    assert "1b2"[1..] == "b2";
    assert LeadingDigits("b2") == "";
    assert LeadingDigits("1b2") == "1";
  }

  /** `d` is the first maximal run of digits of `s` and starts at `i`:
      nothing before `i` is a digit, and the character after the run, if
      any, is not one. */
  ghost predicate DigitRunAt(s: string, i: int, d: string) {
    && 0 <= i && i + |d| <= |s|
    && (forall j :: 0 <= j < i ==> !IsDigit(s[j]))
    && |d| > 0 && s[i..i + |d|] == d
    && (forall j :: 0 <= j < |d| ==> IsDigit(d[j]))
    && (i + |d| == |s| || !IsDigit(s[i + |d|]))
  }

  /** The digit search returns the first maximal run of digits. */
  lemma {:induction false} FirstDigitRunSpec(s: string)
    ensures FirstDigitRun(s).Some? ==> exists i :: DigitRunAt(s, i, FirstDigitRun(s).value)
    decreases |s|
  {
    if |s| > 0 {
      if IsDigit(s[0]) {
        RunAtStart(s);
      } else {
        FirstDigitRunSpec(s[1..]);
        if FirstDigitRun(s[1..]).Some? {
          var d := FirstDigitRun(s[1..]).value;
          var i :| DigitRunAt(s[1..], i, d);
          RunAfterNonDigit(s, i, d);
        }
      }
    }
  }

  lemma RunAtStart(s: string)
    requires |s| > 0 && IsDigit(s[0])
    ensures DigitRunAt(s, 0, LeadingDigits(s))
  {
    var d := LeadingDigits(s);
    assert s[0..|d|] == d;
  }

  lemma RunAfterNonDigit(s: string, i: int, d: string)
    requires |s| > 0 && !IsDigit(s[0]) && DigitRunAt(s[1..], i, d)
    ensures DigitRunAt(s, i + 1, d)
  {
    assert s[i + 1..i + 1 + |d|] == s[1..][i..i + |d|];
    forall j | 0 <= j < i + 1 ensures !IsDigit(s[j]) {
      if j > 0 {
        assert s[j] == s[1..][j - 1];
      }
    }
    if i + 1 + |d| < |s| {
      assert s[i + 1 + |d|] == s[1..][i + |d|];
    }
  }

  /** Conversely, the digit search skips a digit-free prefix and takes a
      whole run of digits, whatever follows a non-digit after it. */
  lemma {:induction false} FirstDigitRunSplit(p: string, d: string, rest: string)
    requires forall i :: 0 <= i < |p| ==> !IsDigit(p[i])
    requires |d| > 0 && forall i :: 0 <= i < |d| ==> IsDigit(d[i])
    requires |rest| == 0 || !IsDigit(rest[0])
    ensures FirstDigitRun(p + d + rest) == Some(d)
    decreases |p|
  {
    if |p| > 0 {
      assert (p + d + rest)[1..] == p[1..] + d + rest;
      FirstDigitRunSplit(p[1..], d, rest);
    } else {
      assert p + d + rest == d + rest;
      LeadingDigitsRun(d, rest);
    }
  }

  /** A key that ends in its first run of digits. */
  lemma FirstDigitRunAfter(p: string, d: string)
    requires forall i :: 0 <= i < |p| ==> !IsDigit(p[i])
    requires |d| > 0 && forall i :: 0 <= i < |d| ==> IsDigit(d[i])
    ensures FirstDigitRun(p + d) == Some(d)
  {
    FirstDigitRunSplit(p, d, "");
    assert p + d + "" == p + d;
  }

  lemma {:induction false} LeadingDigitsRun(d: string, rest: string)
    requires forall i :: 0 <= i < |d| ==> IsDigit(d[i])
    requires |rest| == 0 || !IsDigit(rest[0])
    ensures LeadingDigits(d + rest) == d
    decreases |d|
  {
    if |d| > 0 {
      assert (d + rest)[1..] == d[1..] + rest;
      LeadingDigitsRun(d[1..], rest);
      assert d == [d[0]] + d[1..];
    } else {
      assert d + rest == rest;
    }
  }

  /** `int(" 2 ") == 2`: `int()` ignores surrounding blanks. */
  lemma PaddedIntegerExample()
    ensures ParseInt(" 2 ") == Some(2)
  {
    PaddedTwoStrips();
    assert DigitsValue("2") == 2 by {
      assert "2"[..0] == "";
    }
    DigitsParse("2", 2);
    NoBlankStrip("2");
  }

  lemma PaddedTwoStrips()
    ensures Strip(" 2 ") == "2"
  {
    assert " 2 "[1..] == "2 ";
    assert TrimLeft("2 ") == "2 ";
    assert TrimLeft(" 2 ") == "2 ";
    assert "2 "[..1] == "2";
    assert TrimRight("2") == "2";
  }

  lemma NotAnIntegerExample()
    ensures ParseInt("step1") == None
  {
    NoBlankStrip("step1");
    assert !IsDigit("step1"[0]);
    assert ParseSigned("step1") == None;
  }
}
