/**
 * `DailyAlbumWorker.doWork`: a chain of guards that skip quietly, then one
 * request for a daily album over the first 100 songs of the library, whose
 * indices are turned back into songs. The playlist it names is never
 * created, and nothing is saved.
 */
module DailyAlbumWorker {
  import opened Outcomes
  import opened Collections
  import opened Prompts
  import opened AlbumGenerator

  /** What WorkManager is told: done, or try again later. */
  datatype WorkResult = WorkSuccess | WorkRetry

  /** `albumGenerator.generateDaily(recentSongs, playCounts, targetTrackCount)`. */
  type Generator = (seq<Song>, map<int, Int32>, Int32) -> Result<GeneratedAlbum>

  datatype DailyRequest = DailyRequest(recentSongs: seq<Song>, playCounts: map<int, Int32>, targetTrackCount: Int32)

  /**
   * One run: the result, whether the library was read, the generation
   * request made (if any), the songs selected, and the playlist name that
   * would be used (if any).
   */
  datatype WorkReport = WorkReport(
    result: WorkResult,
    songsRead: bool,
    request: Option<DailyRequest>,
    selected: seq<Song>,
    playlistName: Option<string>)

  const RecentCap := 100
  const DailyTrackCount := 10

  /** `mapNotNull { recentSongs.getOrNull(it) }`. */
  function SelectedSongs(indices: seq<Int32>, recentSongs: seq<Song>): (r: seq<Song>)
    ensures |r| <= |indices|
    ensures forall k :: 0 <= k < |r| ==> r[k] in recentSongs
  {
    var f := (i: Int32) => GetOrNull(recentSongs, i);
    MapNotNullKeeps(indices, f);
    MapNotNull(indices, f)
  }

  /** `doWork()`; `allSongs` is what `repository.allSongs()` returned, or the exception it raised. */
  function DoWork(configured: bool, dailyAlbumEnabled: bool, allSongs: Result<seq<Song>>, generate: Generator): (w: WorkReport)
    ensures !configured ==> w == WorkReport(WorkSuccess, false, None, [], None)
    ensures configured && !dailyAlbumEnabled ==> w == WorkReport(WorkSuccess, false, None, [], None)
    ensures configured && dailyAlbumEnabled ==> w.songsRead
    ensures w.result == WorkRetry <==> configured && dailyAlbumEnabled && allSongs.Failure?
    ensures w.request.Some? <==> configured && dailyAlbumEnabled && allSongs.Success? && |allSongs.value| > 0
    ensures w.request.Some? ==> w.request.value == DailyRequest(Take(allSongs.value, RecentCap), map[], DailyTrackCount)
    ensures w.playlistName.Some? <==> |w.selected| > 0
  {
    if !configured then WorkReport(WorkSuccess, false, None, [], None)
    else if !dailyAlbumEnabled then WorkReport(WorkSuccess, false, None, [], None)
    else match allSongs
      case Failure(_) => WorkReport(WorkRetry, true, None, [], None)
      case Success(songs) =>
        var recentSongs := Take(songs, RecentCap);
        if |recentSongs| == 0 then WorkReport(WorkSuccess, true, None, [], None)
        else
          var request := DailyRequest(recentSongs, map[], DailyTrackCount);
          match generate(recentSongs, map[], DailyTrackCount)
          case Failure(_) => WorkReport(WorkSuccess, true, Some(request), [], None)
          case Success(album) =>
            var selected := SelectedSongs(album.selectedTrackIndices, recentSongs);
            WorkReport(WorkSuccess, true, Some(request), selected, if |selected| > 0 then Some("AI " + album.title) else None)
  }

  /** A failed generation is no reason to retry: the run still succeeds, having selected nothing. */
  lemma GenerationFailureStillSucceeds(allSongs: seq<Song>, generate: Generator)
    requires |allSongs| > 0
    requires generate(Take(allSongs, RecentCap), map[], DailyTrackCount).Failure?
    ensures DoWork(true, true, Success(allSongs), generate) ==
      WorkReport(WorkSuccess, true, Some(DailyRequest(Take(allSongs, RecentCap), map[], DailyTrackCount)), [], None)
  {
  }

  /**
   * The selected songs are the ones the indices name, in the order of the
   * indices; an index that names no song is dropped and nothing else is.
   */
  lemma SelectionFollowsIndices(indices: seq<Int32>, recentSongs: seq<Song>)
    ensures var sel, ps := SelectedSongs(indices, recentSongs), KeptFrom(indices, 0, (i: Int32) => GetOrNull(recentSongs, i));
      && |ps| == |sel|
      && (forall k :: 0 <= k < |ps| ==> ps[k] < |indices| && 0 <= indices[ps[k]] < |recentSongs| && sel[k] == recentSongs[indices[ps[k]]])
      && (forall k, m :: 0 <= k < m < |ps| ==> ps[k] < ps[m])
      && (forall j :: 0 <= j < |indices| && j !in ps ==> !(0 <= indices[j] < |recentSongs|))
  {
    MapNotNullKeeps(indices, (i: Int32) => GetOrNull(recentSongs, i));
  }

  /** When every index names a song, each one gives its song: duplicates are kept. */
  lemma SelectionOfValidIndices(indices: seq<Int32>, recentSongs: seq<Song>)
    requires forall k :: 0 <= k < |indices| ==> 0 <= indices[k] < |recentSongs|
    ensures |SelectedSongs(indices, recentSongs)| == |indices|
    ensures forall k :: 0 <= k < |indices| ==> SelectedSongs(indices, recentSongs)[k] == recentSongs[indices[k]]
  {
    MapNotNullTotal(indices, 0, (i: Int32) => GetOrNull(recentSongs, i));
  }

  /**
   * With the real `generateDaily` (configured), no index is ever dropped:
   * the generator has already refused every album with an index outside
   * the list it was given.
   */
  lemma RealGeneratorDropsNothing(allSongs: seq<Song>, client: Client, decode: Decoder<GeneratedAlbum>)
    requires |allSongs| > 0
    ensures var generate := (songs: seq<Song>, pc: map<int, Int32>, n: Int32) => GenerateDaily(true, songs, client, decode, pc, n).result;
      var w := DoWork(true, true, Success(allSongs), generate);
      var recent := Take(allSongs, RecentCap);
      var r := GenerateDaily(true, recent, client, decode, map[], DailyTrackCount).result;
      && w.result == WorkSuccess
      && (r.Success? ==> |w.selected| == |r.value.selectedTrackIndices|)
      && (r.Success? ==> forall k :: 0 <= k < |w.selected| ==> w.selected[k] == recent[r.value.selectedTrackIndices[k]])
      && (r.Failure? ==> w.selected == [] && w.playlistName == None)
  {
    var recent := Take(allSongs, RecentCap);
    var r := GenerateDaily(true, recent, client, decode, map[], DailyTrackCount).result;
    if r.Success? {
      SelectionOfValidIndices(r.value.selectedTrackIndices, recent);
    }
  }

  /** A playlist name is "AI " followed by the album's title, and it exists only when some song was selected. */
  lemma PlaylistName(allSongs: seq<Song>, generate: Generator, album: GeneratedAlbum)
    requires |allSongs| > 0
    requires generate(Take(allSongs, RecentCap), map[], DailyTrackCount) == Success(album)
    ensures var w := DoWork(true, true, Success(allSongs), generate);
      && w.selected == SelectedSongs(album.selectedTrackIndices, Take(allSongs, RecentCap))
      && w.playlistName == if |w.selected| > 0 then Some("AI " + album.title) else None
  {
  }
}
