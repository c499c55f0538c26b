/**
 * `extractJson`, shared word for word by the album generator and the
 * metadata enricher: the first match of the regex `\{[\s\S]*\}` in the model's
 * reply, or the whole reply when there is none. `[\s\S]` matches every
 * character, so the match runs from the first `{` to the LAST `}` after it;
 * braces are not balanced.
 */
module JsonSpan {
  import opened Outcomes
  import opened Text

  /** `s[i..e]` is a match of `\{[\s\S]*\}`. */
  predicate IsMatch(s: string, i: nat, e: nat) {
    i + 2 <= e <= |s| && s[i] == '{' && s[e - 1] == '}'
  }

  ghost predicate HasMatch(s: string) {
    exists i: nat, e: nat :: IsMatch(s, i, e)
  }

  /** Index of the last `c` in `s`, or -1 when there is none. */
  function LastIndexOf(s: string, c: char): (i: int)
    ensures -1 <= i < |s|
    ensures i >= 0 ==> s[i] == c
    ensures forall k :: i < k < |s| ==> s[k] != c
  {
    if |s| == 0 then -1
    else if s[|s| - 1] == c then |s| - 1
    else LastIndexOf(s[..|s| - 1], c)
  }

  /** `s[i..e]` is a match, no match starts before `i`, and none starting at `i` is longer. */
  ghost predicate LeftmostLongest(s: string, i: nat, e: nat) {
    IsMatch(s, i, e) && forall i': nat, e': nat :: IsMatch(s, i', e') ==> i <= i' && (i' == i ==> e' <= e)
  }

  /** `extractJson`: from the first `{` through the last `}`, when the first comes before the last. */
  function ExtractJson(content: string): (r: string)
    ensures |r| <= |content|
    ensures r == content || (2 <= |r| && r[0] == '{' && r[|r| - 1] == '}')
  {
    var f := IndexOf(content, '{');
    var l := LastIndexOf(content, '}');
    if f < |content| && f < l then content[f..l + 1] else content
  }

  /** Every match lies between the first `{` and the last `}`. */
  lemma MatchesWithinBounds(s: string)
    ensures forall i: nat, e: nat :: IsMatch(s, i, e) ==> IndexOf(s, '{') <= i < e - 1 <= LastIndexOf(s, '}')
  {
  }

  /** There is a match exactly when the first `{` comes before the last `}`. */
  lemma HasMatchIff(s: string)
    ensures HasMatch(s) <==> IndexOf(s, '{') < |s| && IndexOf(s, '{') < LastIndexOf(s, '}')
  {
    var f, l := IndexOf(s, '{'), LastIndexOf(s, '}');
    if f < |s| && f < l {
      assert IsMatch(s, f, l + 1);
    }
    MatchesWithinBounds(s);
  }

  /**
   * `Regex.find` returns the leftmost match, and for that start the greedy
   * `[\s\S]*` makes it the longest one; with no match the whole reply is
   * kept.
   */
  lemma ExtractJsonIsFirstMatch(s: string)
    ensures HasMatch(s) ==> exists i: nat, e: nat :: LeftmostLongest(s, i, e) && ExtractJson(s) == s[i..e]
    ensures !HasMatch(s) ==> ExtractJson(s) == s
  {
    HasMatchIff(s);
    var f, l := IndexOf(s, '{'), LastIndexOf(s, '}');
    if f < |s| && f < l {
      MatchesWithinBounds(s);
      assert LeftmostLongest(s, f, l + 1);
    }
  }

  /**
   * The same result in the words of the reader: when some `{` has a `}` after
   * it, the text from the first `{` through the last `}`.
   */
  lemma FirstOpenThroughLastClose(s: string, f: nat, l: nat)
    requires f < l < |s| && s[f] == '{' && s[l] == '}'
    requires forall k :: 0 <= k < f ==> s[k] != '{'
    requires forall k :: l < k < |s| ==> s[k] != '}'
    ensures ExtractJson(s) == s[f..l + 1]
  {
    assert IndexOf(s, '{') == f;
    assert LastIndexOf(s, '}') == l;
  }

  /** A match starts with `{` and ends with `}`. */
  lemma MatchIsBraced(s: string)
    requires HasMatch(s)
    ensures var r := ExtractJson(s); |r| >= 2 && r[0] == '{' && r[|r| - 1] == '}'
  {
    var i: nat, e: nat :| IsMatch(s, i, e);
    MatchesWithinBounds(s);
    var f, l := IndexOf(s, '{'), LastIndexOf(s, '}');
    assert f <= i < e - 1 <= l;
    assert ExtractJson(s) == s[f..l + 1];
    BracedSlice(s, f, l);
  }

  lemma BracedSlice(s: string, f: nat, l: nat)
    requires f < l < |s| && s[f] == '{' && s[l] == '}'
    ensures var r := s[f..l + 1]; |r| >= 2 && r[0] == '{' && r[|r| - 1] == '}'
  {
  }

  /** Extracting again changes nothing. */
  lemma ExtractJsonIdempotent(s: string)
    ensures ExtractJson(ExtractJson(s)) == ExtractJson(s)
  {
    var r := ExtractJson(s);
    var f, l := IndexOf(s, '{'), LastIndexOf(s, '}');
    if f < |s| && f < l {
      assert r[0] == '{' && r[|r| - 1] == '}';
      assert IndexOf(r, '{') == 0;
      assert LastIndexOf(r, '}') == |r| - 1;
    }
  }

  /**
   * A braced object wrapped in prose that holds no `{` before it and no `}`
   * after it (a chatty preamble and a code fence, say) is cut out exactly.
   */
  lemma ExtractFromProse(before: string, obj: string, after: string)
    requires |obj| >= 2 && obj[0] == '{' && obj[|obj| - 1] == '}'
    requires forall k :: 0 <= k < |before| ==> before[k] != '{'
    requires forall k :: 0 <= k < |after| ==> after[k] != '}'
    ensures ExtractJson(before + obj + after) == obj
  {
    var s := before + obj + after;
    var f, l := |before|, |before| + |obj| - 1;
    assert s[f] == '{' && s[l] == '}';
    assert forall k :: l < k < |s| ==> s[k] == after[k - |before| - |obj|];
    FirstOpenThroughLastClose(s, f, l);
    assert s[f..l + 1] == obj;
  }

  /**
   * The reply handling of every service that expects JSON: a client failure
   * comes back as it is; a reply is cut down with `extractJson` and decoded,
   * and a decoding exception is caught and returned as a failure.
   */
  function DecodeReply<T>(reply: Result<string>, decode: string -> Result<T>): (r: Result<T>)
    ensures reply.Failure? ==> r == Failure(reply.message)
    ensures reply.Success? ==> r == decode(ExtractJson(reply.value))
  {
    match reply
    case Failure(m) => Failure(m)
    case Success(content) => decode(ExtractJson(content))
  }
}
