/**
 * The behaviour of java.lang.String (and of Long.toString / Long.parseLong)
 * that the path-resolution code relies on, written out over seq<char>.
 */
module JavaStrings {
  import opened Wrappers

  /** How Java renders a possibly-null String in `+` concatenation and String.valueOf. */
  function Render(s: Option<string>): string
  {
    match s
    case Some(v) => v
    case None => "null"
  }

  /** `s == null || s.isEmpty()`. */
  predicate NullOrEmpty(s: Option<string>)
  {
    s.None? || s.value == ""
  }

  predicate StartsWith(s: string, prefix: string)
  {
    |prefix| <= |s| && s[..|prefix|] == prefix
  }

  predicate EndsWith(s: string, suffix: string)
  {
    |suffix| <= |s| && s[|s| - |suffix|..] == suffix
  }

  /** String.contains: `t` occurs somewhere in `s`. */
  predicate Contains(s: string, t: string)
    decreases |s|
  {
    StartsWith(s, t) || (|s| > 0 && Contains(s[1..], t))
  }

  /** Whatever stands before and after it, a string contains itself. */
  lemma {:induction false} ContainsInfix(a: string, t: string, b: string)
    ensures Contains(a + t + b, t)
  {
    if |a| == 0 {
      assert a + t + b == t + b;
      assert (t + b)[..|t|] == t;
    } else {
      assert (a + t + b)[1..] == a[1..] + t + b;
      ContainsInfix(a[1..], t, b);
    }
  }

  /** Every character of a contained string occurs in the containing one, which is at least as long. */
  lemma {:induction false} ContainedCharsOccur(s: string, t: string, c: char)
    requires Contains(s, t) && c in t
    ensures c in s && |t| <= |s|
    decreases |s|
  {
    if StartsWith(s, t) {
      assert s[..|t|] == t;
      assert forall x :: x in s[..|t|] ==> x in s;
    } else {
      ContainedCharsOccur(s[1..], t, c);
      assert forall x :: x in s[1..] ==> x in s;
    }
  }

  /** Appending text keeps every occurrence. */
  lemma {:induction false} ContainsAppend(u: string, t: string, rest: string)
    requires Contains(u, t)
    ensures Contains(u + rest, t)
    decreases |u|
  {
    if StartsWith(u, t) {
      assert (u + rest)[..|t|] == u[..|t|];
    } else {
      assert (u + rest)[1..] == u[1..] + rest;
      ContainsAppend(u[1..], t, rest);
    }
  }

  /** What a contained string contains, the containing one contains too. */
  lemma {:induction false} ContainsTransitive(s: string, u: string, t: string)
    requires Contains(s, u) && Contains(u, t)
    ensures Contains(s, t)
    decreases |s|
  {
    if StartsWith(s, u) {
      assert s == u + s[|u|..];
      ContainsAppend(u, t, s[|u|..]);
    } else {
      ContainsTransitive(s[1..], u, t);
    }
  }

  /** A string lacking one of the characters of `t` does not contain `t`. */
  lemma NotContainsMissingChar(s: string, t: string, c: char)
    requires c in t && c !in s
    ensures !Contains(s, t)
  {
    if Contains(s, t) {
      ContainedCharsOccur(s, t, c);
    }
  }

  /** A string contains one of its own length only when the two are equal. */
  lemma {:induction false} ContainsSameLength(s: string, t: string)
    requires Contains(s, t) && |s| == |t|
    ensures s == t
  {
    if !StartsWith(s, t) {
      assert |s| > 0 && Contains(s[1..], t);
      if |t| > 0 {
        ContainedCharsOccur(s[1..], t, t[0]);
      }
    }
  }

  // ---------------------------------------------------------------------
  // String.replace(CharSequence, CharSequence): every non-overlapping
  // occurrence of `target`, scanning left to right, becomes `repl`; the
  // inserted text is not scanned again.

  function ReplaceAll(s: string, target: string, repl: string): string
    requires |target| > 0
    decreases |s|
  {
    if |s| == 0 then ""
    else if StartsWith(s, target) then repl + ReplaceAll(s[|target|..], target, repl)
    else [s[0]] + ReplaceAll(s[1..], target, repl)
  }

  /** Concatenation of four strings, grouped to the right or to the left. */
  lemma ConcatRegroup(a: string, b: string, c: string, d: string)
    ensures a + (b + (c + d)) == a + b + c + d
  {
  }

  /** A leading occurrence of the target is replaced and scanning resumes after it. */
  lemma ReplaceAllLeading(target: string, repl: string, rest: string)
    requires |target| > 0
    ensures ReplaceAll(target + rest, target, repl) == repl + ReplaceAll(rest, target, repl)
  {
    assert (target + rest)[..|target|] == target;
    assert (target + rest)[|target|..] == rest;
  }

  /** A leading target followed by text it cannot start in, and then by text the pass leaves alone. */
  lemma ReplaceLeadingKeepsRest(target: string, repl: string, sep: string, rest: string)
    requires |target| > 0 && target[0] !in sep
    requires ReplaceAll(rest, target, repl) == rest
    ensures ReplaceAll(target + sep + rest, target, repl) == repl + sep + rest
  {
    assert target + sep + rest == target + (sep + rest);
    ReplaceAllLeading(target, repl, sep + rest);
    ReplaceAllSkips(sep, target, repl, rest);
    assert repl + (sep + rest) == repl + sep + rest;
  }

  /** Text holding no character that could start the target passes through unchanged. */
  lemma {:induction false} ReplaceAllSkips(a: string, target: string, repl: string, rest: string)
    requires |target| > 0 && target[0] !in a
    ensures ReplaceAll(a + rest, target, repl) == a + ReplaceAll(rest, target, repl)
  {
    if |a| > 0 {
      var s := a + rest;
      assert s[0] == a[0] && s[0] != target[0];
      assert !StartsWith(s, target);
      assert s[1..] == a[1..] + rest;
      assert forall c :: c in a[1..] ==> c in a;
      ReplaceAllSkips(a[1..], target, repl, rest);
      assert [a[0]] + a[1..] == a;
    } else {
      assert a + rest == rest;
    }
  }

  // ---------------------------------------------------------------------
  // String.trim(): drops every leading and trailing character whose code
  // is at most U+0020.

  function TrimStart(s: string): (r: string)
    decreases |s|
    ensures |r| <= |s| && r == s[|s| - |r|..]
    ensures |r| > 0 ==> r[0] > ' '
  {
    if |s| > 0 && s[0] <= ' ' then TrimStart(s[1..]) else s
  }

  function TrimEnd(s: string): (r: string)
    decreases |s|
    ensures |r| <= |s| && r == s[..|r|]
    ensures |r| > 0 ==> r[|r| - 1] > ' '
  {
    if |s| > 0 && s[|s| - 1] <= ' ' then TrimEnd(s[..|s| - 1]) else s
  }

  /** The result is the part of `s` between its outer control/space characters. */
  function Trim(s: string): (r: string)
    ensures |r| <= |s|
    ensures |r| > 0 ==> r[0] > ' ' && r[|r| - 1] > ' '
    ensures (|s| == 0 || (s[0] > ' ' && s[|s| - 1] > ' ')) ==> r == s
  {
    TrimEnd(TrimStart(s))
  }

  // ---------------------------------------------------------------------
  // String.split(","), a single literal separator.

  /** All fields between separators, empty ones included (always at least one). */
  function SplitOn(s: string, sep: char): (r: seq<string>)
    decreases |s|
    ensures |r| > 0
    ensures forall i :: 0 <= i < |r| ==> sep !in r[i]
  {
    if |s| == 0 then [""]
    else if s[0] == sep then [""] + SplitOn(s[1..], sep)
    else
      var rest := SplitOn(s[1..], sep);
      [[s[0]] + rest[0]] + rest[1..]
  }

  /** String.join: the inverse of SplitOn. */
  function JoinWith(fields: seq<string>, sep: char): string
    requires |fields| > 0
    decreases |fields|
  {
    if |fields| == 1 then fields[0] else fields[0] + [sep] + JoinWith(fields[1..], sep)
  }

  /** Splitting loses nothing: joining the fields gives the line back. */
  lemma {:induction false} SplitJoinRoundTrip(s: string, sep: char)
    ensures JoinWith(SplitOn(s, sep), sep) == s
  {
    if |s| > 0 {
      SplitJoinRoundTrip(s[1..], sep);
      var rest := SplitOn(s[1..], sep);
      if s[0] == sep {
        assert SplitOn(s, sep) == [""] + rest;
        assert ([""] + rest)[1..] == rest;
        assert [s[0]] + s[1..] == s;
      } else {
        var r := SplitOn(s, sep);
        assert r == [[s[0]] + rest[0]] + rest[1..];
        if |rest| == 1 {
          assert [s[0]] + s[1..] == s;
        } else {
          assert r[1..] == rest[1..];
          assert JoinWith(rest, sep) == rest[0] + [sep] + JoinWith(rest[1..], sep);
          assert [s[0]] + s[1..] == s;
        }
      }
    }
  }

  function DropTrailingEmpty(fields: seq<string>): (r: seq<string>)
    decreases |fields|
    ensures |r| <= |fields| && r == fields[..|r|]
    ensures |r| > 0 ==> r[|r| - 1] != ""
    ensures forall i :: |r| <= i < |fields| ==> fields[i] == ""
  {
    if |fields| > 0 && fields[|fields| - 1] == "" then DropTrailingEmpty(fields[..|fields| - 1])
    else fields
  }

  /**
   * Java's `s.split(",")`: a string with no separator gives itself as the
   * only field; otherwise the fields, with trailing empty fields removed.
   */
  function JavaSplit(s: string, sep: char): seq<string>
  {
    if sep !in s then [s] else DropTrailingEmpty(SplitOn(s, sep))
  }

  /** Trailing empty fields are dropped: "a,b,," has only two fields. */
  lemma SplitDropsTrailingEmptyFields()
    ensures JavaSplit("a,b,,", ',') == ["a", "b"]
  {
    var s := "a,b,,";
    assert s[1] == ',';
    var f5 := SplitOn(s[5..], ',');
    assert f5 == [""];
    var f4 := SplitOn(s[4..], ',');
    assert f4 == [""] + f5;
    var f3 := SplitOn(s[3..], ',');
    assert f3 == [""] + f4;
    var f2 := SplitOn(s[2..], ',');
    assert f2 == [[s[2]] + f3[0]] + f3[1..];
    assert [s[2]] + f3[0] == "b" && f3[1..] == ["", ""];
    assert f2 == ["b", "", ""];
    var f1 := SplitOn(s[1..], ',');
    assert f1 == [""] + f2;
    var f0 := SplitOn(s, ',');
    assert f0 == [[s[0]] + f1[0]] + f1[1..];
    assert [s[0]] + f1[0] == "a" && f1[1..] == ["b", "", ""];
    assert f0 == ["a", "b", "", ""];
    assert f0[..3] == ["a", "b", ""];
    assert f0[..2] == ["a", "b"];
    assert DropTrailingEmpty(["a", "b"]) == ["a", "b"];
    assert DropTrailingEmpty(["a", "b", ""]) == ["a", "b"];
    assert DropTrailingEmpty(f0) == ["a", "b"];
  }

  // ---------------------------------------------------------------------
  // String.replaceAll("\\s+", "_"): Java's \s is [ \t\n\x0B\f\r].

  predicate IsJavaWhitespace(c: char)
  {
    c == ' ' || c == '\t' || c == '\n' || c == '\U{000B}' || c == '\U{000C}' || c == '\r'
  }

  predicate NoWhitespace(s: string)
  {
    forall i :: 0 <= i < |s| ==> !IsJavaWhitespace(s[i])
  }

  function DropLeadingWhitespace(s: string): (r: string)
    decreases |s|
    ensures |r| <= |s| && r == s[|s| - |r|..]
    ensures |r| > 0 ==> !IsJavaWhitespace(r[0])
  {
    if |s| > 0 && IsJavaWhitespace(s[0]) then DropLeadingWhitespace(s[1..]) else s
  }

  /**
   * Every maximal run of whitespace becomes one "_": the result holds no
   * whitespace, and a string that has none is left as it is.
   */
  function CollapseWhitespace(s: string): (r: string)
    decreases |s|
    ensures NoWhitespace(r)
    ensures NoWhitespace(s) ==> r == s
    ensures |r| <= |s|
  {
    if |s| == 0 then ""
    else if IsJavaWhitespace(s[0]) then "_" + CollapseWhitespace(DropLeadingWhitespace(s[1..]))
    else [s[0]] + CollapseWhitespace(s[1..])
  }

  // ---------------------------------------------------------------------
  // Decimal rendering of a long (`"" + n`) and Long.parseLong.

  /**
   * The first code point of each block of ten decimal digits in the Basic
   * Multilingual Plane (Unicode general category Nd, as of Unicode 15),
   * in increasing order. Character.digit(c, 10) accepts exactly these
   * digits; a digit outside the plane is a surrogate pair in a Java
   * string, and each half of it is rejected.
   */
  const DIGIT_ZEROS: seq<int> := [
    0x0030, 0x0660, 0x06F0, 0x07C0, 0x0966, 0x09E6, 0x0A66, 0x0AE6, 0x0B66, 0x0BE6,
    0x0C66, 0x0CE6, 0x0D66, 0x0DE6, 0x0E50, 0x0ED0, 0x0F20, 0x1040, 0x1090, 0x17E0,
    0x1810, 0x1946, 0x19D0, 0x1A80, 0x1A90, 0x1B50, 0x1BB0, 0x1C40, 0x1C50, 0xA620,
    0xA8D0, 0xA900, 0xA9D0, 0xA9F0, 0xAA50, 0xABF0, 0xFF10
  ]

  /** The first code point of the non-ASCII digit block holding n, written out from DIGIT_ZEROS[1..]. */
  function BlockZero(n: int): Option<int>
  {
    if 0x0660 <= n < 0x066A then Some(0x0660)
    else if 0x06F0 <= n < 0x06FA then Some(0x06F0)
    else if 0x07C0 <= n < 0x07CA then Some(0x07C0)
    else if 0x0966 <= n < 0x0970 then Some(0x0966)
    else if 0x09E6 <= n < 0x09F0 then Some(0x09E6)
    else if 0x0A66 <= n < 0x0A70 then Some(0x0A66)
    else if 0x0AE6 <= n < 0x0AF0 then Some(0x0AE6)
    else if 0x0B66 <= n < 0x0B70 then Some(0x0B66)
    else if 0x0BE6 <= n < 0x0BF0 then Some(0x0BE6)
    else if 0x0C66 <= n < 0x0C70 then Some(0x0C66)
    else if 0x0CE6 <= n < 0x0CF0 then Some(0x0CE6)
    else if 0x0D66 <= n < 0x0D70 then Some(0x0D66)
    else if 0x0DE6 <= n < 0x0DF0 then Some(0x0DE6)
    else if 0x0E50 <= n < 0x0E5A then Some(0x0E50)
    else if 0x0ED0 <= n < 0x0EDA then Some(0x0ED0)
    else if 0x0F20 <= n < 0x0F2A then Some(0x0F20)
    else if 0x1040 <= n < 0x104A then Some(0x1040)
    else if 0x1090 <= n < 0x109A then Some(0x1090)
    else if 0x17E0 <= n < 0x17EA then Some(0x17E0)
    else if 0x1810 <= n < 0x181A then Some(0x1810)
    else if 0x1946 <= n < 0x1950 then Some(0x1946)
    else if 0x19D0 <= n < 0x19DA then Some(0x19D0)
    else if 0x1A80 <= n < 0x1A8A then Some(0x1A80)
    else if 0x1A90 <= n < 0x1A9A then Some(0x1A90)
    else if 0x1B50 <= n < 0x1B5A then Some(0x1B50)
    else if 0x1BB0 <= n < 0x1BBA then Some(0x1BB0)
    else if 0x1C40 <= n < 0x1C4A then Some(0x1C40)
    else if 0x1C50 <= n < 0x1C5A then Some(0x1C50)
    else if 0xA620 <= n < 0xA62A then Some(0xA620)
    else if 0xA8D0 <= n < 0xA8DA then Some(0xA8D0)
    else if 0xA900 <= n < 0xA90A then Some(0xA900)
    else if 0xA9D0 <= n < 0xA9DA then Some(0xA9D0)
    else if 0xA9F0 <= n < 0xA9FA then Some(0xA9F0)
    else if 0xAA50 <= n < 0xAA5A then Some(0xAA50)
    else if 0xABF0 <= n < 0xABFA then Some(0xABF0)
    else if 0xFF10 <= n < 0xFF1A then Some(0xFF10)
    else None
  }

  /** Every block BlockZero finds is a block of the table, and holds n. */
  lemma BlockZeroInTable(n: int)
    ensures BlockZero(n).Some? ==> BlockZero(n).value in DIGIT_ZEROS[1..] && BlockZero(n).value <= n < BlockZero(n).value + 10
  {
  }

  /** Character.digit(c, 10): the ASCII digits, and every other decimal digit of the plane. */
  function JavaDigit(c: char): (r: Option<nat>)
    ensures '0' <= c <= '9' ==> r == Some((c as int) - 48)
    ensures c < '0' ==> r.None?
    ensures r.Some? ==> r.value < 10
  {
    if c <= '9' then (if '0' <= c then Some((c as int) - 48) else None)
    else match BlockZero(c as int)
      case Some(z) => Some((c as int) - z)
      case None => None
  }

  predicate IsDigit(c: char)
  {
    JavaDigit(c).Some?
  }

  predicate AllDigits(s: string)
  {
    forall i :: 0 <= i < |s| ==> IsDigit(s[i])
  }

  function DigitChar(d: nat): (c: char)
    requires d < 10
    ensures IsDigit(c) && '0' <= c <= '9' && DigitValue(c) == d
  {
    (48 + d) as char
  }

  function DigitValue(c: char): nat
    requires IsDigit(c)
  {
    JavaDigit(c).value
  }

  function NatToString(n: nat): (r: string)
    decreases n
    ensures |r| > 0 && AllDigits(r)
    ensures forall i :: 0 <= i < |r| ==> '0' <= r[i] <= '9'
  {
    if n < 10 then [DigitChar(n)] else NatToString(n / 10) + [DigitChar(n % 10)]
  }

  /** How Java prints a long: an optional minus sign, then decimal digits. */
  function IntToString(n: int): (r: string)
    ensures |r| > 0
    ensures forall i :: 0 <= i < |r| ==> ('0' <= r[i] <= '9') || r[i] == '-'
  {
    if n < 0 then "-" + NatToString(-n) else NatToString(n)
  }

  function DigitsValue(s: string): nat
    requires AllDigits(s)
    decreases |s|
  {
    if |s| == 0 then 0 else DigitsValue(s[..|s| - 1]) * 10 + DigitValue(s[|s| - 1])
  }

  lemma {:induction false} DigitsRoundTrip(n: nat)
    ensures DigitsValue(NatToString(n)) == n
  {
    if n >= 10 {
      DigitsRoundTrip(n / 10);
      var s := NatToString(n);
      assert s[..|s| - 1] == NatToString(n / 10);
    }
  }

  const LONG_MIN: int := -9223372036854775808
  const LONG_MAX: int := 9223372036854775807

  /** An optional sign followed by one or more decimal digits, of any size. */
  function ParseInteger(s: string): (r: Option<int>)
    ensures r.Some? ==> |s| > 0
  {
    if |s| == 0 then None
    else if s[0] == '-' || s[0] == '+' then
      if |s| > 1 && AllDigits(s[1..]) then
        var magnitude: int := DigitsValue(s[1..]);
        Some(if s[0] == '-' then -magnitude else magnitude)
      else None
    else if AllDigits(s) then Some(DigitsValue(s))
    else None
  }

  /** Unsigned digits read as their decimal value; any other character makes the parse fail. */
  lemma ParseIntegerUnsigned(s: string)
    requires |s| > 0 && s[0] != '-' && s[0] != '+'
    ensures AllDigits(s) ==> ParseInteger(s) == Some(DigitsValue(s))
    ensures !AllDigits(s) ==> ParseInteger(s).None?
  {
  }

  /** A leading '-' negates the digits after it; a leading '+' keeps them. */
  lemma ParseIntegerSigned(s: string)
    requires |s| > 1 && (s[0] == '-' || s[0] == '+') && AllDigits(s[1..])
    ensures s[0] == '-' ==> ParseInteger(s) == Some(0 - DigitsValue(s[1..]) as int)
    ensures s[0] == '+' ==> ParseInteger(s) == Some(DigitsValue(s[1..]) as int)
  {
    var magnitude: int := DigitsValue(s[1..]);
    assert ParseInteger(s) == Some(if s[0] == '-' then -magnitude else magnitude);
  }

  /** Long.parseLong: ParseInteger limited to the range of a Java long. */
  function ParseLong(s: string): (r: Option<int>)
    ensures r.Some? ==> LONG_MIN <= r.value <= LONG_MAX
  {
    match ParseInteger(s)
    case Some(v) => if LONG_MIN <= v <= LONG_MAX then Some(v) else None
    case None => None
  }

  /** Parsing what Java prints for a long gives that long back. */
  lemma ParseLongRoundTrip(n: int)
    requires LONG_MIN <= n <= LONG_MAX
    ensures ParseLong(IntToString(n)) == Some(n)
  {
    ParseIntegerRoundTrip(n);
  }

  /** Long.parseLong reads a non-ASCII decimal digit too: the Arabic-Indic seven (U+0667) is 7. */
  lemma ArabicIndicParses()
    ensures ParseInteger("\U{0667}") == Some(7)
  {
    ArabicIndicDigits();
    ArabicIndicValue();
    var t := "\U{0667}";
    assert t[0] != '-' && t[0] != '+';
    ParseIntegerUnsigned(t);
  }

  lemma ArabicIndicDigits()
    ensures AllDigits("\U{0667}")
  {
    ArabicIndicSeven();
    var t := "\U{0667}";
    assert IsDigit(t[0]);
  }

  lemma ArabicIndicValue()
    ensures DigitsValue("\U{0667}") == 7
  {
    ArabicIndicSeven();
    ArabicIndicDigits();
    var t := "\U{0667}";
    assert t[..0] == "";
  }

  lemma ArabicIndicSeven()
    ensures JavaDigit('\U{0667}') == Some(7)
  {
  }

  /** Different longs print differently (the keys built from guild ids cannot collide). */
  lemma IntToStringInjective(a: int, b: int)
    requires IntToString(a) == IntToString(b)
    ensures a == b
  {
    ParseIntegerRoundTrip(a);
    ParseIntegerRoundTrip(b);
  }

  lemma ParseIntegerRoundTrip(n: int)
    ensures ParseInteger(IntToString(n)) == Some(n)
  {
    var s := IntToString(n);
    if n < 0 {
      DigitsRoundTrip(-n);
      assert s[1..] == NatToString(-n);
    } else {
      DigitsRoundTrip(n);
      assert IsDigit(s[0]);
    }
  }

  /** Position of the first `c` in `s` (|s| when there is none). */
  function IndexOf(s: string, c: char): (r: nat)
    decreases |s|
    ensures r <= |s|
  {
    if |s| == 0 || s[0] == c then 0 else 1 + IndexOf(s[1..], c)
  }

  lemma {:induction false} IndexOfFirst(a: string, c: char, b: string)
    requires c !in a
    ensures IndexOf(a + [c] + b, c) == |a|
  {
    if |a| > 0 {
      assert (a + [c] + b)[1..] == a[1..] + [c] + b;
      assert forall x :: x in a[1..] ==> x in a;
      IndexOfFirst(a[1..], c, b);
    }
  }

  /** Text without `sep` in front of a separator can be split off uniquely. */
  lemma SplitAtFirst(a1: string, b1: string, a2: string, b2: string, sep: char)
    requires sep !in a1 && sep !in a2
    requires a1 + [sep] + b1 == a2 + [sep] + b2
    ensures a1 == a2 && b1 == b2
  {
    var s := a1 + [sep] + b1;
    IndexOfFirst(a1, sep, b1);
    IndexOfFirst(a2, sep, b2);
    assert a1 == s[..|a1|];
    assert a2 == s[..|a2|];
    assert b1 == s[|a1| + 1..];
    assert b2 == s[|a2| + 1..];
  }

  /** A printed long followed by a separator that is neither a digit nor '-' can be split off uniquely. */
  lemma IntPrefixSplits(a: int, b: int, sep: char, x: string, y: string)
    requires sep != '-' && !('0' <= sep <= '9')
    requires IntToString(a) + [sep] + x == IntToString(b) + [sep] + y
    ensures a == b && x == y
  {
    var ga, gb := IntToString(a), IntToString(b);
    assert sep !in ga by {
      forall i | 0 <= i < |ga| ensures ga[i] != sep { }
    }
    assert sep !in gb by {
      forall i | 0 <= i < |gb| ensures gb[i] != sep { }
    }
    SplitAtFirst(ga, x, gb, y, sep);
    IntToStringInjective(a, b);
  }

  /** A key "<long><sep><middle><sep><end>" determines its long and, for ends of one length, its end. */
  lemma KeyEndsSplit(a: int, b: int, sep: char, x: string, y: string, u: string, v: string)
    requires sep != '-' && !('0' <= sep <= '9') && |u| == |v|
    requires IntToString(a) + [sep] + x + [sep] + u == IntToString(b) + [sep] + y + [sep] + v
    ensures a == b && u == v
  {
    var p, q := x + [sep] + u, y + [sep] + v;
    var ga, gb := IntToString(a), IntToString(b);
    assert ga + [sep] + x + [sep] + u == ga + [sep] + p;
    assert gb + [sep] + y + [sep] + v == gb + [sep] + q;
    IntPrefixSplits(a, b, sep, p, q);
    assert p[|p| - |u|..] == u;
    assert q[|q| - |v|..] == v;
  }

  // ---------------------------------------------------------------------
  // String.equalsIgnoreCase.

  /**
   * The letter two characters share when equalsIgnoreCase matches them
   * and one of them is ASCII: an ASCII capital folds to its small letter,
   * and four other characters fold onto ASCII letters, the long s (U+017F,
   * whose capital is 'S'), the Kelvin sign (U+212A, whose small letter is
   * 'k'), the dotted capital I (U+0130, whose small letter is 'i') and
   * the dotless small i (U+0131, whose capital is 'I').
   */
  function FoldCase(c: char): char
  {
    if 'A' <= c <= 'Z' then ((c as int) + 32) as char
    else if c == '\U{017F}' then 's'
    else if c == '\U{212A}' then 'k'
    else if c == '\U{0130}' || c == '\U{0131}' then 'i'
    else c
  }

  /** `a.equalsIgnoreCase(b)`, where a is ASCII (as every literal it is called with is); a null argument is never equal. */
  predicate EqualsIgnoreCase(a: string, b: Option<string>)
  {
    b.Some? && |a| == |b.value| && forall i :: 0 <= i < |a| ==> FoldCase(a[i]) == FoldCase(b.value[i])
  }
}
