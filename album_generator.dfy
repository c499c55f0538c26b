/**
 * `AiAlbumGeneratorService`: summarise up to 100 songs, one line each, ask
 * the model for an album built from them, cut the JSON out of its reply
 * and decode it; the daily album is also checked for indices that name no
 * song.
 */
module AlbumGenerator {
  import opened Outcomes
  import opened Text
  import opened Collections
  import opened Prompts
  import opened JsonSpan

  /** The album the model proposes; the genres and the cover prompt default when the JSON leaves them out. */
  datatype GeneratedAlbum = GeneratedAlbum(
    title: string,
    description: string,
    theme: string,
    selectedTrackIndices: seq<Int32>,
    suggestedGenres: seq<string> := [],
    coverPrompt: string := "")

  const NoSongs := "No recent songs to curate from"
  const BadIndices := "Invalid track indices in generated album"
  const SummaryCap := 100

  /** What a JSON album without `suggestedGenres` and `coverPrompt` decodes to. */
  function AlbumWithDefaults(title: string, description: string, theme: string, indices: seq<Int32>): (a: GeneratedAlbum)
    ensures a.title == title && a.description == description && a.theme == theme && a.selectedTrackIndices == indices
    ensures a.suggestedGenres == [] && a.coverPrompt == ""
  {
    GeneratedAlbum(title, description, theme, indices)
  }

  // ------------------------------------------------------------ summaries

  /** `playCounts[song.id] ?: 1`. */
  function PlayCount(playCounts: map<int, Int32>, id: int): (c: Int32)
    ensures id in playCounts ==> c == playCounts[id]
    ensures id !in playCounts ==> c == 1
  {
    if id in playCounts then playCounts[id] else 1
  }

  /** Line `index` of the daily summary. */
  function DailyLine(index: nat, song: Song, playCounts: map<int, Int32>): string {
    "[" + DecimalString(index) + "] " + song.title + " by " + song.artistName
      + " (Album: " + song.albumName + ", Plays: " + DecimalString(PlayCount(playCounts, song.id))
      + ", Duration: " + DecimalString(song.duration) + "ms)"
  }

  /** Line `index` of the themed summary: the album name stands in for the style. */
  function ThemedLine(index: nat, song: Song): string {
    "[" + DecimalString(index) + "] " + song.title + " - " + song.artistName + " (" + song.albumName + ")"
  }

  /** `take(100).mapIndexed { index, song -> DailyLine }`. */
  function DailyLines(songs: seq<Song>, playCounts: map<int, Int32>): seq<string> {
    MapIndexedFrom(Take(songs, SummaryCap), 0, (index: nat, song: Song) => DailyLine(index, song, playCounts))
  }

  function ThemedLines(songs: seq<Song>): seq<string> {
    MapIndexedFrom(Take(songs, SummaryCap), 0, (index: nat, song: Song) => ThemedLine(index, song))
  }

  /** The daily summary: the lines of the first 100 songs joined with `"\n"`. */
  function DailySummary(songs: seq<Song>, playCounts: map<int, Int32>): (s: string)
    ensures s == "" <==> |songs| == 0
    ensures |songs| > 0 ==> DailyLine(0, songs[0], playCounts) <= s
  {
    Join(DailyLines(songs, playCounts), '\n')
  }

  /** The themed summary: the same, one short line per song. */
  function ThemedSummary(songs: seq<Song>): (s: string)
    ensures s == "" <==> |songs| == 0
    ensures |songs| > 0 ==> ThemedLine(0, songs[0]) <= s
  {
    Join(ThemedLines(songs), '\n')
  }

  predicate NoBreaks(s: string) {
    forall j :: 0 <= j < |s| ==> !IsBreak(s[j])
  }

  /** The text fields of a song hold no line break. */
  predicate SingleLine(song: Song) {
    NoBreaks(song.title) && NoBreaks(song.artistName) && NoBreaks(song.albumName)
  }

  lemma DecimalNoBreaks(n: int)
    ensures NoBreaks(DecimalString(n))
  {
  }

  lemma {:induction false} ConcatNoBreaks(a: string, b: string)
    requires NoBreaks(a) && NoBreaks(b)
    ensures NoBreaks(a + b)
  {
    assert forall j :: 0 <= j < |a + b| ==> (a + b)[j] == if j < |a| then a[j] else b[j - |a|];
  }

  lemma DailyLineNoBreaks(index: nat, song: Song, playCounts: map<int, Int32>)
    requires SingleLine(song)
    ensures NoBreaks(DailyLine(index, song, playCounts))
  {
    var plays, ms := DecimalString(PlayCount(playCounts, song.id)), DecimalString(song.duration);
    DecimalNoBreaks(index);
    DecimalNoBreaks(PlayCount(playCounts, song.id));
    DecimalNoBreaks(song.duration);
    var s := "[" + DecimalString(index);
    ConcatNoBreaks("[", DecimalString(index));
    ConcatNoBreaks(s, "] ");
    s := s + "] ";
    ConcatNoBreaks(s, song.title);
    s := s + song.title;
    ConcatNoBreaks(s, " by ");
    s := s + " by ";
    ConcatNoBreaks(s, song.artistName);
    s := s + song.artistName;
    ConcatNoBreaks(s, " (Album: ");
    s := s + " (Album: ";
    ConcatNoBreaks(s, song.albumName);
    s := s + song.albumName;
    ConcatNoBreaks(s, ", Plays: ");
    s := s + ", Plays: ";
    ConcatNoBreaks(s, plays);
    s := s + plays;
    ConcatNoBreaks(s, ", Duration: ");
    s := s + ", Duration: ";
    ConcatNoBreaks(s, ms);
    s := s + ms;
    ConcatNoBreaks(s, "ms)");
    s := s + "ms)";
    assert s == DailyLine(index, song, playCounts);
  }

  lemma ThemedLineNoBreaks(index: nat, song: Song)
    requires SingleLine(song)
    ensures NoBreaks(ThemedLine(index, song))
  {
    DecimalNoBreaks(index);
    var s := "[" + DecimalString(index);
    ConcatNoBreaks("[", DecimalString(index));
    ConcatNoBreaks(s, "] ");
    s := s + "] ";
    ConcatNoBreaks(s, song.title);
    s := s + song.title;
    ConcatNoBreaks(s, " - ");
    s := s + " - ";
    ConcatNoBreaks(s, song.artistName);
    s := s + song.artistName;
    ConcatNoBreaks(s, " (");
    s := s + " (";
    ConcatNoBreaks(s, song.albumName);
    s := s + song.albumName;
    ConcatNoBreaks(s, ")");
    s := s + ")";
    assert s == ThemedLine(index, song);
  }

  /** The songs of the summary are written one per line, for at most the first 100 songs. */
  lemma {:induction false} DailySummaryLines(songs: seq<Song>, playCounts: map<int, Int32>)
    requires |songs| > 0
    requires forall k :: 0 <= k < |songs| ==> SingleLine(songs[k])
    ensures |Lines(DailySummary(songs, playCounts))| == if |songs| < SummaryCap then |songs| else SummaryCap
    ensures forall i :: 0 <= i < |Lines(DailySummary(songs, playCounts))| ==>
      Lines(DailySummary(songs, playCounts))[i] == DailyLine(i, songs[i], playCounts)
  {
    var capped := Take(songs, SummaryCap);
    var ls := DailyLines(songs, playCounts);
    forall k | 0 <= k < |ls| ensures forall j :: 0 <= j < |ls[k]| ==> !IsBreak(ls[k][j]) {
      DailyLineNoBreaks(k, capped[k], playCounts);
    }
    LinesOfJoin(ls);
  }

  lemma {:induction false} ThemedSummaryLines(songs: seq<Song>)
    requires |songs| > 0
    requires forall k :: 0 <= k < |songs| ==> SingleLine(songs[k])
    ensures |Lines(ThemedSummary(songs))| == if |songs| < SummaryCap then |songs| else SummaryCap
    ensures forall i :: 0 <= i < |Lines(ThemedSummary(songs))| ==> Lines(ThemedSummary(songs))[i] == ThemedLine(i, songs[i])
  {
    var capped := Take(songs, SummaryCap);
    var ls := ThemedLines(songs);
    forall k | 0 <= k < |ls| ensures forall j :: 0 <= j < |ls[k]| ==> !IsBreak(ls[k][j]) {
      ThemedLineNoBreaks(k, capped[k]);
    }
    LinesOfJoin(ls);
  }

  // ---------------------------------------------------------- generation

  /** `selectedTrackIndices.all { it in recentSongs.indices }`. */
  predicate IndicesIn(album: GeneratedAlbum, n: nat) {
    forall k :: 0 <= k < |album.selectedTrackIndices| ==> 0 <= album.selectedTrackIndices[k] < n
  }

  /** The decoded album, refused when one of its indices names no song among the `songCount` given. */
  function CheckIndices(decoded: Result<GeneratedAlbum>, songCount: nat): (r: Result<GeneratedAlbum>)
    ensures r.Success? <==> decoded.Success? && IndicesIn(decoded.value, songCount)
    ensures r.Success? ==> r == decoded
    ensures decoded.Failure? ==> r == decoded
    ensures decoded.Success? && !IndicesIn(decoded.value, songCount) ==> r == Fail(BadIndices)
  {
    match decoded
    case Failure(_) => decoded
    case Success(album) =>
      if forall k :: 0 <= k < |album.selectedTrackIndices| ==> 0 <= album.selectedTrackIndices[k] < songCount
      then decoded
      else Fail(BadIndices)
  }

  /** `generateDaily(recentSongs, playCounts = emptyMap(), targetTrackCount = 10)`. */
  function GenerateDaily(configured: bool, recentSongs: seq<Song>, client: Client, decode: Decoder<GeneratedAlbum>,
                         playCounts: map<int, Int32> := map[], targetTrackCount: Int32 := 10): (x: Exchange<GeneratedAlbum>)
    ensures !configured ==> x == Exchange(None, Fail(NotConfigured))
    ensures configured && |recentSongs| == 0 ==> x == Exchange(None, Fail(NoSongs))
    ensures configured && |recentSongs| > 0 ==>
      x.sent == Some(DailyAlbumPrompt(DailySummary(recentSongs, playCounts), targetTrackCount))
    ensures x.result.Success? ==> IndicesIn(x.result.value, |recentSongs|)
  {
    if !configured then Exchange(None, Fail(NotConfigured))
    else if |recentSongs| == 0 then Exchange(None, Fail(NoSongs))
    else
      var prompt := DailyAlbumPrompt(DailySummary(recentSongs, playCounts), targetTrackCount);
      Exchange(Some(prompt), CheckIndices(DecodeReply(client(prompt), decode), |recentSongs|))
  }

  /**
   * A daily album comes back exactly when the model's reply decodes to an
   * album all of whose indices name songs of the whole list; a reply that
   * fails to come or to decode is passed on, and one bad index refuses the
   * whole album.
   */
  lemma DailyOutcome(recentSongs: seq<Song>, client: Client, decode: Decoder<GeneratedAlbum>,
                     playCounts: map<int, Int32>, targetTrackCount: Int32)
    requires |recentSongs| > 0
    ensures var prompt := DailyAlbumPrompt(DailySummary(recentSongs, playCounts), targetTrackCount);
      var decoded := DecodeReply(client(prompt), decode);
      var x := GenerateDaily(true, recentSongs, client, decode, playCounts, targetTrackCount);
      && (x.result.Success? <==> decoded.Success? && IndicesIn(decoded.value, |recentSongs|))
      && (x.result.Success? ==> x.result == decoded)
      && (client(prompt).Failure? ==> x.result == Failure(client(prompt).message))
      && (decoded.Success? && !IndicesIn(decoded.value, |recentSongs|) ==> x.result == Fail(BadIndices))
  {
  }

  /**
   * The indices are checked against the whole list, not against the 100
   * songs the model was shown: with 150 songs an album naming song 120 is
   * accepted although the summary stops at line 99.
   */
  lemma BoundIsWholeList(recentSongs: seq<Song>, client: Client, decode: Decoder<GeneratedAlbum>, album: GeneratedAlbum)
    requires |recentSongs| == 150
    requires album.selectedTrackIndices == [120]
    requires DecodeReply(client(DailyAlbumPrompt(DailySummary(recentSongs, map[]), 10)), decode) == Success(album)
    ensures GenerateDaily(true, recentSongs, client, decode).result == Success(album)
    ensures |DailyLines(recentSongs, map[])| == 100
  {
  }

  /** `generateThemed(recentSongs, theme, targetTrackCount = 15)`: no empty-list check and no index check. */
  function GenerateThemed(configured: bool, recentSongs: seq<Song>, theme: string, client: Client, decode: Decoder<GeneratedAlbum>,
                          targetTrackCount: Int32 := 15): (x: Exchange<GeneratedAlbum>)
    ensures !configured ==> x == Exchange(None, Fail(NotConfigured))
    ensures configured ==> x.sent == Some(ThemedPlaylistPrompt(theme, ThemedSummary(recentSongs), targetTrackCount))
    ensures configured ==> x.result == DecodeReply(client(x.sent.value), decode)
  {
    if !configured then Exchange(None, Fail(NotConfigured))
    else
      var prompt := ThemedPlaylistPrompt(theme, ThemedSummary(recentSongs), targetTrackCount);
      Exchange(Some(prompt), DecodeReply(client(prompt), decode))
  }

  /**
   * Unlike the daily album, a themed playlist is asked for even with no
   * songs (over an empty summary), and its indices are returned unchecked.
   */
  lemma ThemedChecksNeither(theme: string, client: Client, decode: Decoder<GeneratedAlbum>, album: GeneratedAlbum)
    requires DecodeReply(client(ThemedPlaylistPrompt(theme, "", 15)), decode) == Success(album)
    ensures GenerateThemed(true, [], theme, client, decode).sent == Some(ThemedPlaylistPrompt(theme, "", 15))
    ensures GenerateThemed(true, [], theme, client, decode).result == Success(album)
    ensures GenerateDaily(true, [], client, decode).result == Fail(NoSongs)
  {
    assert ThemedSummary([]) == "";
  }
}
