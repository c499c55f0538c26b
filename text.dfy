/**
 * The pieces of the Kotlin/JVM string library the AI layer relies on:
 * whitespace and blank tests, `lines()`, `split(",")`, `trim()`,
 * `joinToString`, decimal `toString()` and `toLongOrNull()`.
 */
module Text {
  import opened Outcomes

  const LongMin := -0x8000_0000_0000_0000
  const LongMax := 0x7FFF_FFFF_FFFF_FFFF

  /** Kotlin's `Char.isWhitespace()` on the JVM: `Character.isWhitespace(c) || Character.isSpaceChar(c)`. */
  predicate IsWhitespace(c: char) {
    || c == ' ' || c == '\t' || c == '\n' || c == '\U{000B}' || c == '\U{000C}' || c == '\r'
    || ('\U{001C}' <= c <= '\U{001F}')
    || c == '\U{00A0}' || c == '\U{1680}' || ('\U{2000}' <= c <= '\U{200A}')
    || c == '\U{2028}' || c == '\U{2029}' || c == '\U{202F}' || c == '\U{205F}' || c == '\U{3000}'
  }

  /** `CharSequence.isBlank()`: empty, or whitespace only. */
  predicate IsBlank(s: string) {
    forall i :: 0 <= i < |s| ==> IsWhitespace(s[i])
  }

  /** The characters `\d` matches in a `java.util.regex` pattern without UNICODE_CHARACTER_CLASS. */
  predicate IsDigit(c: char) {
    '0' <= c <= '9'
  }

  predicate AllDigits(s: string) {
    forall i :: 0 <= i < |s| ==> IsDigit(s[i])
  }

  /** The characters Kotlin's `lines()` breaks at. */
  predicate IsBreak(c: char) {
    c == '\n' || c == '\r'
  }

  /** The line terminators of `java.util.regex` (without UNIX_LINES): the characters `.` does not match. */
  predicate IsRegexLineTerminator(c: char) {
    IsBreak(c) || c == '\U{0085}' || c == '\U{2028}' || c == '\U{2029}'
  }

  /** Number of occurrences of `c` in `s`. */
  function Count(s: string, c: char): nat {
    if |s| == 0 then 0 else (if s[0] == c then 1 else 0) + Count(s[1..], c)
  }

  // ---------------------------------------------------------------- lines()

  /** Index of the first `'\n'` or `'\r'` of `s`, or `|s|` when there is none. */
  function LineEnd(s: string): (i: nat)
    ensures i <= |s|
    ensures i < |s| ==> IsBreak(s[i])
    ensures forall k :: 0 <= k < i ==> !IsBreak(s[k])
  {
    if |s| == 0 || IsBreak(s[0]) then 0 else 1 + LineEnd(s[1..])
  }

  /**
   * Kotlin's `CharSequence.lines()`: the text split at every `"\r\n"`,
   * `"\n"` and `"\r"` (a `"\r\n"` pair is one break). There is always at
   * least one line: `"".lines() == [""]` and `"a\n".lines() == ["a", ""]`.
   */
  function Lines(s: string): (ls: seq<string>)
    ensures |ls| >= 1
    ensures forall k :: 0 <= k < |ls| ==> forall j :: 0 <= j < |ls[k]| ==> !IsBreak(ls[k][j])
    decreases |s|
  {
    var i := LineEnd(s);
    if i == |s| then [s]
    else
      var next := if s[i] == '\r' && i + 1 < |s| && s[i + 1] == '\n' then i + 2 else i + 1;
      [s[..i]] + Lines(s[next..])
  }

  /** A blank text has only blank lines. */
  lemma {:induction false} BlankTextHasBlankLines(s: string, k: nat)
    requires IsBlank(s) && k < |Lines(s)|
    ensures IsBlank(Lines(s)[k])
    decreases |s|
  {
    var i := LineEnd(s);
    if i < |s| {
      var next := if s[i] == '\r' && i + 1 < |s| && s[i + 1] == '\n' then i + 2 else i + 1;
      var rest := Lines(s[next..]);
      assert Lines(s) == [s[..i]] + rest;
      if k == 0 {
        BlankPrefix(s, i);
      } else {
        BlankSuffix(s, next);
        BlankTextHasBlankLines(s[next..], k - 1);
        assert Lines(s)[k] == rest[k - 1];
      }
    }
  }

  lemma BlankPrefix(s: string, i: nat)
    requires IsBlank(s) && i <= |s|
    ensures IsBlank(s[..i])
  {
    assert forall j :: 0 <= j < i ==> s[..i][j] == s[j];
  }

  lemma BlankSuffix(s: string, i: nat)
    requires IsBlank(s) && i <= |s|
    ensures IsBlank(s[i..])
  {
    assert forall j :: 0 <= j < |s| - i ==> s[i..][j] == s[i + j];
  }

  /** One line, a `'\n'`, then the rest: the first line is split off and the rest is split on its own. */
  lemma LinesCons(a: string, b: string)
    requires forall k :: 0 <= k < |a| ==> !IsBreak(a[k])
    ensures Lines(a + "\n" + b) == [a] + Lines(b)
  {
    var s := a + "\n" + b;
    assert s[|a|] == '\n';
    assert LineEnd(s) == |a| by {
      assert forall k :: 0 <= k < |a| ==> s[k] == a[k];
    }
    assert s[..|a|] == a;
    assert s[|a| + 1..] == b;
  }

  /** A `"\r\n"` pair is one break: the first line is split off and the rest is split on its own. */
  lemma LinesConsCrLf(a: string, b: string)
    requires forall k :: 0 <= k < |a| ==> !IsBreak(a[k])
    ensures Lines(a + "\r\n" + b) == [a] + Lines(b)
  {
    var s := a + "\r\n" + b;
    assert s[|a|] == '\r' && s[|a| + 1] == '\n';
    assert LineEnd(s) == |a| by {
      assert forall k :: 0 <= k < |a| ==> s[k] == a[k];
    }
    assert s[..|a|] == a;
    assert s[|a| + 2..] == b;
  }

  /** A `'\r'` not followed by `'\n'` is a break of its own. */
  lemma LinesConsCr(a: string, b: string)
    requires forall k :: 0 <= k < |a| ==> !IsBreak(a[k])
    requires |b| == 0 || b[0] != '\n'
    ensures Lines(a + "\r" + b) == [a] + Lines(b)
  {
    var s := a + "\r" + b;
    assert s[|a|] == '\r';
    assert |a| + 1 < |s| ==> s[|a| + 1] == b[0];
    assert LineEnd(s) == |a| by {
      assert forall k :: 0 <= k < |a| ==> s[k] == a[k];
    }
    assert s[..|a|] == a;
    assert s[|a| + 1..] == b;
  }

  /** A text without a line break is one line. */
  lemma LinesOfUnbroken(s: string)
    requires forall k :: 0 <= k < |s| ==> !IsBreak(s[k])
    ensures Lines(s) == [s]
  {
    assert LineEnd(s) == |s|;
  }

  /** `lines()` undoes `joinToString("\n")` when no piece holds a line break. */
  lemma {:induction false} LinesOfJoin(parts: seq<string>)
    requires |parts| >= 1
    requires forall k :: 0 <= k < |parts| ==> forall j :: 0 <= j < |parts[k]| ==> !IsBreak(parts[k][j])
    ensures Lines(Join(parts, '\n')) == parts
  {
    if |parts| == 1 {
      assert LineEnd(parts[0]) == |parts[0]|;
    } else {
      LinesOfJoin(parts[1..]);
      LinesCons(parts[0], Join(parts[1..], '\n'));
      assert Join(parts, '\n') == parts[0] + "\n" + Join(parts[1..], '\n');
    }
  }

  // ------------------------------------------------------------ split(",")

  /** Index of the first `sep` in `s`, or `|s|` when there is none. */
  function IndexOf(s: string, sep: char): (i: nat)
    ensures i <= |s|
    ensures i < |s| ==> s[i] == sep
    ensures forall k :: 0 <= k < i ==> s[k] != sep
  {
    if |s| == 0 || s[0] == sep then 0 else 1 + IndexOf(s[1..], sep)
  }

  lemma {:induction false} CountSplit(s: string, c: char, i: nat)
    requires i <= |s|
    ensures Count(s, c) == Count(s[..i], c) + Count(s[i..], c)
  {
    if i > 0 {
      assert s[1..][..i - 1] == s[..i][1..];
      assert s[1..][i - 1..] == s[i..];
      CountSplit(s[1..], c, i - 1);
    }
  }

  lemma {:induction false} CountAbsent(s: string, c: char)
    requires forall k :: 0 <= k < |s| ==> s[k] != c
    ensures Count(s, c) == 0
  {
    if |s| > 0 {
      CountAbsent(s[1..], c);
    }
  }

  /**
   * Kotlin's `split(sep)` with a one-character delimiter and no limit: every
   * occurrence separates two pieces, empty pieces (leading, inner and
   * trailing) are kept, so `"".split(",") == [""]`.
   */
  function SplitOn(s: string, sep: char): (parts: seq<string>)
    ensures |parts| == Count(s, sep) + 1
    ensures forall k :: 0 <= k < |parts| ==> sep !in parts[k]
    decreases |s|
  {
    var i := IndexOf(s, sep);
    if i == |s| then
      CountAbsent(s, sep);
      [s]
    else
      CountSplit(s, sep, i);
      CountAbsent(s[..i], sep);
      assert s[i..][1..] == s[i + 1..];
      [s[..i]] + SplitOn(s[i + 1..], sep)
  }

  /** `joinToString(sep)` for a one-character separator. */
  function Join(parts: seq<string>, sep: char): (r: string)
    ensures |parts| == 0 ==> r == ""
    ensures |parts| > 0 ==> parts[0] <= r
  {
    if |parts| == 0 then ""
    else if |parts| == 1 then parts[0]
    else parts[0] + [sep] + Join(parts[1..], sep)
  }

  /** Splitting what `Join` glued back together gives the pieces again, provided no piece holds the separator. */
  lemma {:induction false} SplitJoin(parts: seq<string>, sep: char)
    requires |parts| >= 1
    requires forall k :: 0 <= k < |parts| ==> sep !in parts[k]
    ensures SplitOn(Join(parts, sep), sep) == parts
  {
    if |parts| == 1 {
      assert IndexOf(parts[0], sep) == |parts[0]|;
    } else {
      var rest := Join(parts[1..], sep);
      assert Join(parts, sep) == parts[0] + [sep] + rest;
      SplitFirstPiece(parts[0], sep, rest);
      SplitJoin(parts[1..], sep);
    }
  }

  /** A piece without the separator, the separator, then the rest: the piece is split off. */
  lemma SplitFirstPiece(a: string, sep: char, rest: string)
    requires sep !in a
    ensures SplitOn(a + [sep] + rest, sep) == [a] + SplitOn(rest, sep)
  {
    var s := a + [sep] + rest;
    var n := |a|;
    assert s[n] == sep;
    assert forall k :: 0 <= k < n ==> s[k] == a[k];
    assert IndexOf(s, sep) == n;
    assert s[..n] == a;
    assert s[n + 1..] == rest;
  }

  // ----------------------------------------------------------------- trim()

  /** Index of the first character at or after `i` that is not whitespace, or `|s|`. */
  function SkipWhitespace(s: string, i: nat): (a: nat)
    requires i <= |s|
    ensures i <= a <= |s|
    ensures forall k :: i <= k < a ==> IsWhitespace(s[k])
    ensures a < |s| ==> !IsWhitespace(s[a])
    decreases |s| - i
  {
    if i == |s| || !IsWhitespace(s[i]) then i else SkipWhitespace(s, i + 1)
  }

  /** Index just past the last character of `s[a..e]` that is not whitespace, or `a`. */
  function BackWhitespace(s: string, a: nat, e: nat): (b: nat)
    requires a <= e <= |s|
    ensures a <= b <= e
    ensures forall k :: b <= k < e ==> IsWhitespace(s[k])
    ensures b > a ==> !IsWhitespace(s[b - 1])
    decreases e - a
  {
    if e == a || !IsWhitespace(s[e - 1]) then e else BackWhitespace(s, a, e - 1)
  }

  /**
   * Kotlin's `trim()`: the longest middle part of `s` that neither starts nor
   * ends with whitespace, everything cut off being whitespace.
   */
  function Trim(s: string): (r: string)
    ensures exists a :: TrimmedAt(s, a, r)
    ensures |r| > 0 ==> !IsWhitespace(r[0]) && !IsWhitespace(r[|r| - 1])
  {
    var a := SkipWhitespace(s, 0);
    var b := BackWhitespace(s, a, |s|);
    assert TrimmedAt(s, a, s[a..b]);
    s[a..b]
  }

  /** `r` is the part of `s` starting at `a`, and only whitespace is around it. */
  predicate TrimmedAt(s: string, a: int, r: string) {
    0 <= a <= |s| - |r| && r == s[a..a + |r|] && IsBlank(s[..a]) && IsBlank(s[a + |r|..])
  }

  // ------------------------------------------------------- decimal numbers

  function DigitChar(d: nat): (c: char)
    requires d < 10
    ensures IsDigit(c) && c as int == '0' as int + d
  {
    ('0' as int + d) as char
  }

  function DigitValue(c: char): (d: nat)
    requires IsDigit(c)
    ensures d < 10 && DigitChar(d) == c
  {
    c as int - '0' as int
  }

  /** The number a string of decimal digits denotes (leading zeros allowed, `""` denotes 0). */
  function DigitsValue(s: string): nat
    requires AllDigits(s)
  {
    if |s| == 0 then 0 else 10 * DigitsValue(s[..|s| - 1]) + DigitValue(s[|s| - 1])
  }

  /** The decimal digits of `n`, without leading zeros: what `toString()` prints for a non-negative number. */
  function NatDigits(n: nat): (s: string)
    ensures |s| >= 1 && AllDigits(s)
  {
    if n < 10 then [DigitChar(n)] else NatDigits(n / 10) + [DigitChar(n % 10)]
  }

  /** Kotlin's `Int.toString()` / `Long.toString()`: a leading `-` for negative numbers, then the digits. */
  function DecimalString(n: int): (s: string)
    ensures |s| >= 1
    ensures forall k :: 0 <= k < |s| ==> IsDigit(s[k]) || (k == 0 && n < 0 && s[k] == '-')
  {
    if n < 0 then "-" + NatDigits(-n) else NatDigits(n)
  }

  lemma {:induction false} NatDigitsValue(n: nat)
    ensures DigitsValue(NatDigits(n)) == n
  {
    if n >= 10 {
      var s := NatDigits(n);
      assert s[..|s| - 1] == NatDigits(n / 10);
      NatDigitsValue(n / 10);
    }
  }

  /**
   * Kotlin's `String.toLongOrNull()`: an optional `+` or `-` followed by at
   * least one decimal digit, and nothing else; `null` when the text has any
   * other character (a space included) or the value leaves the range of a
   * 64-bit `Long`.
   */
  function ToLongOrNull(s: string): (r: Option<int>)
    ensures r.Some? ==> LongMin <= r.value <= LongMax
    ensures r.Some? ==> |s| > 0
    ensures r.Some? ==> forall i :: 0 <= i < |s| ==> IsDigit(s[i]) || (i == 0 && s[0] in "+-")
    ensures r.Some? <==> IsSignedDigits(s) && LongMin <= SignedValue(s) <= LongMax
    ensures r.Some? ==> r.value == SignedValue(s)
  {
    var v: Option<int> :=
      if |s| == 0 then None
      else if s[0] == '-' || s[0] == '+' then
        if |s| == 1 || !AllDigits(s[1..]) then None
        else
          var m: int := DigitsValue(s[1..]);
          Some(if s[0] == '-' then -m else m)
      else if AllDigits(s) then Some(DigitsValue(s))
      else None;
    if v.Some? && LongMin <= v.value <= LongMax then v else None
  }

  /** The text `toLongOrNull` accepts before the range check: an optional sign, then at least one digit. */
  predicate IsSignedDigits(s: string) {
    |s| > 0 && (if s[0] == '+' || s[0] == '-' then |s| > 1 && AllDigits(s[1..]) else AllDigits(s))
  }

  /** The number such a text denotes; leading zeros and a `+` sign change nothing. */
  function SignedValue(s: string): int
    requires IsSignedDigits(s)
  {
    var m: int := if s[0] == '-' || s[0] == '+' then DigitsValue(s[1..]) else DigitsValue(s);
    if s[0] == '-' then -m else m
  }

  /** Leading zeros and a plus sign are accepted; a lone sign, a space and an overflow are not. */
  lemma ToLongOrNullExamples()
    ensures ToLongOrNull("007") == Some(7)
    ensures ToLongOrNull("+5") == Some(5)
    ensures ToLongOrNull("-") == None
    ensures ToLongOrNull(" 2") == None
    ensures ToLongOrNull("1 ") == None
  {
    assert AllDigits("007") && DigitsValue("007") == 7 by {
      assert "007"[1..] == "07";
    }
  }

  /** `toLongOrNull` reads back exactly what `toString` wrote, for every `Long`. */
  lemma DecimalRoundTrip(n: int)
    requires LongMin <= n <= LongMax
    ensures ToLongOrNull(DecimalString(n)) == Some(n)
  {
    if n < 0 {
      NegativeRoundTrip(n);
    } else {
      NatRoundTrip(n);
    }
  }

  lemma NegativeRoundTrip(n: int)
    requires LongMin <= n < 0
    ensures ToLongOrNull(DecimalString(n)) == Some(n)
  {
    var m: nat := -n;
    var d := NatDigits(m);
    assert DecimalString(n) == "-" + d;
    NatDigitsValue(m);
    SignedDigits(d, m);
  }

  /** A minus sign and digits whose value fits reads as the negated value. */
  lemma SignedDigits(d: string, m: int)
    requires |d| >= 1 && AllDigits(d) && DigitsValue(d) == m <= -LongMin
    ensures ToLongOrNull("-" + d) == Some(-m)
  {
    var s := "-" + d;
    assert s[0] == '-' && s[1..] == d;
    MinusDigits(s, m);
  }

  lemma MinusDigits(s: string, m: int)
    requires |s| > 1 && s[0] == '-' && AllDigits(s[1..]) && DigitsValue(s[1..]) == m <= -LongMin
    ensures ToLongOrNull(s) == Some(-m)
  {
  }

  lemma NatRoundTrip(n: nat)
    requires n <= LongMax
    ensures ToLongOrNull(DecimalString(n)) == Some(n)
  {
    var s := DecimalString(n);
    NatDigitsValue(n);
    assert s == NatDigits(n);
    assert IsDigit(s[0]);
  }
}
