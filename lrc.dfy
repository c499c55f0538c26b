/**
 * The two LRC helpers of the lyrics service: the well-formedness check
 * `isValidLrc` and the timestamp extractor `extractLrcTimestamps`.
 *
 * They use two different tag patterns. The extractor's is
 * `\[(\d{2}):(\d{2})\.(\d{2})\](.*)`, with an escaped dot; the validity
 * check's is `\[\d{2}:\d{2}.\d{2}\]`, whose dot matches any one character
 * except a regex line terminator, so `[01:23,45]` passes the check.
 */
module Lrc {
  import opened Outcomes
  import opened Text
  import opened Collections

  /** Largest timestamp a tag can encode: `[99:99.99]`. */
  const MaxMillis := 6_039_990

  /** The validity check's tag `\[\d{2}:\d{2}.\d{2}\]` occupies `s[i..i + 10]`. */
  predicate LooseTagAt(s: string, i: nat) {
    && i + 10 <= |s|
    && s[i] == '[' && IsDigit(s[i + 1]) && IsDigit(s[i + 2]) && s[i + 3] == ':'
    && IsDigit(s[i + 4]) && IsDigit(s[i + 5]) && !IsRegexLineTerminator(s[i + 6])
    && IsDigit(s[i + 7]) && IsDigit(s[i + 8]) && s[i + 9] == ']'
  }

  /** The extractor's tag `\[(\d{2}):(\d{2})\.(\d{2})\]` occupies `s[i..i + 10]`. */
  predicate TimestampTagAt(s: string, i: nat) {
    LooseTagAt(s, i) && s[i + 6] == '.'
  }

  /** `Regex.containsMatchIn` for the loose tag, scanning from `from` onwards. */
  function HasLooseTagFrom(s: string, from: nat): (found: bool)
    ensures found <==> exists i :: from <= i && LooseTagAt(s, i)
    decreases |s| - from
  {
    if from + 10 > |s| then false
    else LooseTagAt(s, from) || HasLooseTagFrom(s, from + 1)
  }

  /** The non-blank lines, in order: `lines().filter { it.isNotBlank() }`. */
  function NonBlank(ls: seq<string>): (r: seq<string>)
    ensures |r| <= |ls|
    ensures forall k :: 0 <= k < |r| ==> !IsBlank(r[k]) && r[k] in ls
  {
    if |ls| == 0 then []
    else if IsBlank(ls[0]) then NonBlank(ls[1..])
    else [ls[0]] + NonBlank(ls[1..])
  }

  /**
   * `isValidLrc`: the text is not blank, holds a loose tag somewhere, and has
   * more than five non-blank lines.
   */
  function IsValidLrc(lrc: string): (valid: bool)
    ensures valid <==> !IsBlank(lrc) && (exists i :: LooseTagAt(lrc, i)) && |NonBlank(Lines(lrc))| >= 6
    ensures IsBlank(lrc) ==> !valid
    ensures |NonBlank(Lines(lrc))| <= 5 ==> !valid
  {
    if IsBlank(lrc) then false
    else
      var hasTimestamps := HasLooseTagFrom(lrc, 0);
      var lines := NonBlank(Lines(lrc));
      hasTimestamps && |lines| > 5
  }

  /** A line as `filter { it.isNotBlank() }` sees it: kept as itself, or dropped. */
  function KeepNonBlank(l: string): Option<string> {
    if IsBlank(l) then None else Some(l)
  }

  lemma {:induction false} NonBlankFrom(ls: seq<string>, i: nat)
    requires i <= |ls|
    ensures NonBlank(ls[i..]) == MapNotNullFrom(ls, i, KeepNonBlank)
    decreases |ls| - i
  {
    if i < |ls| {
      NonBlankFrom(ls, i + 1);
      assert ls[i..][1..] == ls[i + 1..];
    }
  }

  /**
   * What the filter keeps: line `k` of the result is line `ps[k]` of the
   * input, the positions `ps` increase strictly, and every line left out is
   * blank. So no non-blank line is lost and the order is kept.
   */
  lemma NonBlankKeeps(ls: seq<string>)
    ensures var r, ps := NonBlank(ls), KeptFrom(ls, 0, KeepNonBlank);
      && |ps| == |r|
      && (forall k :: 0 <= k < |ps| ==> ps[k] < |ls| && r[k] == ls[ps[k]])
      && (forall k, m :: 0 <= k < m < |ps| ==> ps[k] < ps[m])
      && (forall j :: 0 <= j < |ls| && j !in ps ==> IsBlank(ls[j]))
  {
    NonBlankFrom(ls, 0);
    assert ls[0..] == ls;
    MapNotNullKeeps(ls, KeepNonBlank);
  }

  lemma {:induction false} NonBlankOfBlankLines(ls: seq<string>)
    requires forall k :: 0 <= k < |ls| ==> IsBlank(ls[k])
    ensures NonBlank(ls) == []
  {
    if |ls| > 0 {
      NonBlankOfBlankLines(ls[1..]);
    }
  }

  /**
   * The blank test of `isValidLrc` never decides anything: a blank text has
   * no non-blank line, so more than five of them already imply non-blank.
   */
  lemma BlankTestIsSubsumed(lrc: string)
    requires |NonBlank(Lines(lrc))| > 0
    ensures !IsBlank(lrc)
  {
    if IsBlank(lrc) {
      var ls := Lines(lrc);
      forall k | 0 <= k < |ls| ensures IsBlank(ls[k]) {
        BlankTextHasBlankLines(lrc, k);
      }
      NonBlankOfBlankLines(ls);
    }
  }

  // ------------------------------------------------------ extractLrcTimestamps

  /** Leftmost extractor tag at or after `from` in `line` (`Regex.find`). */
  function FirstTimestampTag(line: string, from: nat): (r: Option<nat>)
    ensures r.Some? ==> from <= r.value && TimestampTagAt(line, r.value)
    ensures r.Some? ==> forall k :: from <= k < r.value ==> !TimestampTagAt(line, k)
    ensures r.None? ==> forall k :: from <= k ==> !TimestampTagAt(line, k)
    decreases |line| - from
  {
    if from + 10 > |line| then None
    else if TimestampTagAt(line, from) then Some(from)
    else FirstTimestampTag(line, from + 1)
  }

  /** The value of two ASCII digits, as `toInt()` reads them. */
  function TwoDigits(a: char, b: char): (n: nat)
    requires IsDigit(a) && IsDigit(b)
    ensures n == DigitsValue([a, b]) && n <= 99
  {
    assert [a, b][..1] == [a];
    assert [a][..0] == [];
    assert DigitsValue([a]) == DigitValue(a);
    assert DigitsValue([a, b]) == 10 * DigitsValue([a]) + DigitValue(b);
    10 * DigitValue(a) + DigitValue(b)
  }

  /** What the group `(.*)` captures: the text up to the first regex line terminator. */
  function RestOfLine(s: string): (r: string)
    ensures |r| <= |s| && r == s[..|r|]
    ensures forall k :: 0 <= k < |r| ==> !IsRegexLineTerminator(r[k])
    ensures |r| < |s| ==> IsRegexLineTerminator(s[|r|])
  {
    if |s| == 0 || IsRegexLineTerminator(s[0]) then "" else [s[0]] + RestOfLine(s[1..])
  }

  /** One timestamped line: minutes, seconds and centiseconds in milliseconds, and its text. */
  datatype TimedLine = TimedLine(millis: int, text: string)

  /** The tag's time `minutes * 60000 + seconds * 1000 + centiseconds * 10`. */
  function TagMillis(line: string, i: nat): (ms: nat)
    requires TimestampTagAt(line, i)
    ensures ms == 60_000 * DigitsValue(line[i + 1..i + 3]) + 1_000 * DigitsValue(line[i + 4..i + 6])
                  + 10 * DigitsValue(line[i + 7..i + 9])
    ensures ms <= MaxMillis && ms % 10 == 0
  {
    assert line[i + 1..i + 3] == [line[i + 1], line[i + 2]];
    assert line[i + 4..i + 6] == [line[i + 4], line[i + 5]];
    assert line[i + 7..i + 9] == [line[i + 7], line[i + 8]];
    var minutes := TwoDigits(line[i + 1], line[i + 2]);
    var seconds := TwoDigits(line[i + 4], line[i + 5]);
    var centiseconds := TwoDigits(line[i + 7], line[i + 8]);
    10 * (6000 * minutes + 100 * seconds + centiseconds)
  }

  /** The `mapNotNull` body of `extractLrcTimestamps` for one line. */
  function ParseTimedLine(line: string): (r: Option<TimedLine>)
    ensures r.Some? <==> exists i :: TimestampTagAt(line, i)
    ensures r.Some? ==> 0 <= r.value.millis <= MaxMillis
    ensures r.Some? ==> exists i: nat :: TimestampTagAt(line, i) && (forall k :: 0 <= k < i ==> !TimestampTagAt(line, k))
                                    && r.value == TimedLine(TagMillis(line, i), RestOfLine(line[i + 10..]))
  {
    match FirstTimestampTag(line, 0)
    case None => None
    case Some(i) => Some(TimedLine(TagMillis(line, i), RestOfLine(line[i + 10..])))
  }

  /** `extractLrcTimestamps`: one entry per tagged line of the text, in line order. */
  function ExtractLrcTimestamps(lrc: string): (r: seq<TimedLine>)
    ensures |r| <= |Lines(lrc)|
    ensures forall k :: 0 <= k < |r| ==> 0 <= r[k].millis <= MaxMillis
  {
    var r := MapNotNull(Lines(lrc), ParseTimedLine);
    MapNotNullKeeps(Lines(lrc), ParseTimedLine);
    r
  }

  /**
   * The extractor keeps exactly the tagged lines of the text: entry `k` is
   * the parse of line `ps[k]`, the positions increase strictly, and every
   * line left out carries no tag.
   */
  lemma TimestampsOfTaggedLines(lrc: string)
    ensures var ls, r, ps := Lines(lrc), ExtractLrcTimestamps(lrc), KeptFrom(Lines(lrc), 0, ParseTimedLine);
      && |ps| == |r|
      && (forall k :: 0 <= k < |ps| ==> ps[k] < |ls| && exists i: nat :: TimestampTagAt(ls[ps[k]], i))
      && (forall k :: 0 <= k < |ps| ==> ParseTimedLine(ls[ps[k]]) == Some(r[k]))
      && (forall k, m :: 0 <= k < m < |ps| ==> ps[k] < ps[m])
      && (forall j :: 0 <= j < |ls| && j !in ps ==> forall i: nat :: !TimestampTagAt(ls[j], i))
  {
    var ls := Lines(lrc);
    MapNotNullKeeps(ls, ParseTimedLine);
    var ps := KeptFrom(ls, 0, ParseTimedLine);
    forall k | 0 <= k < |ps| ensures ps[k] < |ls| && exists i: nat :: TimestampTagAt(ls[ps[k]], i) {
      assert ParseTimedLine(ls[ps[k]]).Some?;
    }
    forall j | 0 <= j < |ls| && j !in ps ensures forall i: nat :: !TimestampTagAt(ls[j], i) {
      assert ParseTimedLine(ls[j]).None?;
    }
  }

  /**
   * For a line with no Unicode line terminator (`lines()` already removed
   * `'\n'` and `'\r'`), the text is the whole rest of the line after the
   * first tag, so any later tag on it stays in the text.
   */
  lemma TextIsRestOfLine(line: string, i: nat)
    requires forall k :: 0 <= k < |line| ==> !IsRegexLineTerminator(line[k])
    requires TimestampTagAt(line, i) && forall k :: 0 <= k < i ==> !TimestampTagAt(line, k)
    ensures ParseTimedLine(line) == Some(TimedLine(TagMillis(line, i), line[i + 10..]))
  {
    var rest := line[i + 10..];
    var t := RestOfLine(rest);
    assert forall k :: 0 <= k < |rest| ==> !IsRegexLineTerminator(rest[k]);
    assert t == rest;
    var j := FirstTimestampTag(line, 0).value;
    assert j == i;
    assert ParseTimedLine(line) == Some(TimedLine(TagMillis(line, j), RestOfLine(line[j + 10..])));
  }

  lemma {:induction false} NonBlankKeepsAll(ls: seq<string>)
    requires forall k :: 0 <= k < |ls| ==> !IsBlank(ls[k])
    ensures NonBlank(ls) == ls
  {
    if |ls| > 0 {
      NonBlankKeepsAll(ls[1..]);
    }
  }

  const CommaDocLines := ["[01:23,45]a", "b", "c", "d", "e", "f"]

  lemma CommaDocLinesAreClean()
    ensures forall k :: 0 <= k < |CommaDocLines| ==> !IsBlank(CommaDocLines[k])
    ensures forall k :: 0 <= k < |CommaDocLines| ==> forall j :: 0 <= j < |CommaDocLines[k]| ==> !IsBreak(CommaDocLines[k][j])
    ensures forall k :: 0 <= k < |CommaDocLines| ==> ParseTimedLine(CommaDocLines[k]).None?
  {
    CommaDocLinesNotBlank();
    CommaDocLinesUnbroken();
    CommaDocLinesUntimed();
  }

  lemma CommaDocLinesNotBlank()
    ensures forall k :: 0 <= k < |CommaDocLines| ==> !IsBlank(CommaDocLines[k])
  {
    var ls := CommaDocLines;
    assert !IsWhitespace(ls[0][0]) && !IsWhitespace(ls[1][0]) && !IsWhitespace(ls[2][0]);
    assert !IsWhitespace(ls[3][0]) && !IsWhitespace(ls[4][0]) && !IsWhitespace(ls[5][0]);
  }

  lemma CommaDocLinesUnbroken()
    ensures forall k :: 0 <= k < |CommaDocLines| ==> forall j :: 0 <= j < |CommaDocLines[k]| ==> !IsBreak(CommaDocLines[k][j])
  {
  }

  lemma CommaDocLinesUntimed()
    ensures forall k :: 0 <= k < |CommaDocLines| ==> ParseTimedLine(CommaDocLines[k]).None?
  {
    var ls := CommaDocLines;
    CommaTagLineUntimed();
    ShortLineUntimed(ls[1]);
    ShortLineUntimed(ls[2]);
    ShortLineUntimed(ls[3]);
    ShortLineUntimed(ls[4]);
    ShortLineUntimed(ls[5]);
  }

  /** A line shorter than a tag holds none. */
  lemma ShortLineUntimed(l: string)
    requires |l| < 10
    ensures ParseTimedLine(l).None?
  {
    assert FirstTimestampTag(l, 0) == None;
  }

  /** The tagged line of the document has no tag the extractor reads. */
  lemma CommaTagLineUntimed()
    ensures ParseTimedLine(CommaDocLines[0]).None?
  {
    var l := CommaDocLines[0];
    assert !TimestampTagAt(l, 0) by { assert l[6] == ','; }
    assert !TimestampTagAt(l, 1) by { assert l[1] == '0'; }
    assert FirstTimestampTag(l, 2) == None;
    assert FirstTimestampTag(l, 0) == None;
  }

  lemma CommaDocStartsWithTag()
    ensures LooseTagAt(Join(CommaDocLines, '\n'), 0)
  {
    var l := CommaDocLines[0];
    assert LooseTagAt(l, 0);
    JoinKeepsFirstTag(CommaDocLines);
  }

  /** A tag at the start of the first line is at the start of the joined text. */
  lemma JoinKeepsFirstTag(ls: seq<string>)
    requires |ls| >= 1 && LooseTagAt(ls[0], 0)
    ensures LooseTagAt(Join(ls, '\n'), 0)
  {
    if |ls| > 1 {
      var j := Join(ls, '\n');
      assert j == ls[0] + (['\n'] + Join(ls[1..], '\n'));
      assert forall i :: 0 <= i < |ls[0]| ==> j[i] == ls[0][i];
    }
  }

  lemma CommaDocIsValid()
    ensures IsValidLrc(Join(CommaDocLines, '\n'))
  {
    var ls := CommaDocLines;
    var lrc := Join(ls, '\n');
    CommaDocLinesAreClean();
    LinesOfJoin(ls);
    NonBlankKeepsAll(ls);
    CommaDocStartsWithTag();
    BlankTestIsSubsumed(lrc);
  }

  /** Lines joined with `'\n'` of which none holds a tag give no timestamps. */
  lemma UntimedLinesGiveNothing(ls: seq<string>)
    requires |ls| >= 1
    requires forall k :: 0 <= k < |ls| ==> forall j :: 0 <= j < |ls[k]| ==> !IsBreak(ls[k][j])
    requires forall k :: 0 <= k < |ls| ==> ParseTimedLine(ls[k]).None?
    ensures ExtractLrcTimestamps(Join(ls, '\n')) == []
  {
    LinesOfJoin(ls);
    MapNotNullNoneFrom(ls, 0, ParseTimedLine);
  }

  lemma CommaDocHasNoTimestamps()
    ensures ExtractLrcTimestamps(Join(CommaDocLines, '\n')) == []
  {
    CommaDocLinesUnbroken();
    CommaDocLinesUntimed();
    UntimedLinesGiveNothing(CommaDocLines);
  }

  /**
   * A document the check accepts may have no timestamp the extractor can
   * read: six lines whose only tag uses a comma instead of the dot.
   */
  lemma CommaTagPassesValidity()
    ensures var lrc := Join(CommaDocLines, '\n');
      IsValidLrc(lrc) && ExtractLrcTimestamps(lrc) == []
  {
    CommaDocIsValid();
    CommaDocHasNoTimestamps();
  }
}
