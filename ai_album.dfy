/**
 * The saved form of a generated album (`AiAlbumEntity`, one table row) and
 * the app's form of it (`AiAlbum`), with `AiAlbumMapper.fromEntity`
 * between them: the two comma-separated columns become lists.
 */
module AiAlbums {
  import opened Outcomes
  import opened Text
  import opened Collections

  /**
   * A row of the album table. `id` is the auto-generated primary key
   * (0 asks for a fresh one); `trackIds` holds the song ids separated by
   * commas; `suggestedGenres` the genres, likewise.
   */
  datatype AiAlbumEntity = AiAlbumEntity(
    id: int := 0,
    title: string,
    description: Option<string>,
    theme: Option<string>,
    trackIds: string,
    suggestedGenres: Option<string>,
    coverPrompt: Option<string>,
    coverUri: Option<string> := None,
    generatedAt: int)

  /**
   * `AiAlbumEntity(title = …, description = …, theme = …, trackIds = …,
   * suggestedGenres = …, coverPrompt = …)` built at clock time `now`, the
   * value `System.currentTimeMillis()` returns.
   */
  function NewEntity(title: string, description: Option<string>, theme: Option<string>, trackIds: string,
                     suggestedGenres: Option<string>, coverPrompt: Option<string>, now: int): (e: AiAlbumEntity)
    ensures e.id == 0 && e.coverUri == None && e.generatedAt == now
    ensures e.title == title && e.description == description && e.theme == theme
    ensures e.trackIds == trackIds && e.suggestedGenres == suggestedGenres && e.coverPrompt == coverPrompt
  {
    AiAlbumEntity(title := title, description := description, theme := theme, trackIds := trackIds,
                  suggestedGenres := suggestedGenres, coverPrompt := coverPrompt, generatedAt := now)
  }

  datatype AiAlbum = AiAlbum(
    id: int,
    title: string,
    description: Option<string>,
    theme: Option<string>,
    trackIds: seq<int>,
    suggestedGenres: seq<string>,
    coverPrompt: Option<string>,
    coverUri: Option<string>,
    generatedAt: int)

  /**
   * The track ids of a row: none when the column is blank, otherwise the
   * comma-separated pieces that read as a `Long`, pieces that do not (an
   * empty one, one with a space) being dropped.
   */
  function DecodeTrackIds(trackIds: string): (ids: seq<int>)
    ensures IsBlank(trackIds) ==> ids == []
    ensures !IsBlank(trackIds) ==> ids == MapNotNull(SplitOn(trackIds, ','), ToLongOrNull)
    ensures |ids| <= Count(trackIds, ',') + 1
    ensures forall k :: 0 <= k < |ids| ==> LongMin <= ids[k] <= LongMax
  {
    if IsBlank(trackIds) then []
    else
      var pieces := SplitOn(trackIds, ',');
      MapNotNullKeeps(pieces, ToLongOrNull);
      MapNotNull(pieces, ToLongOrNull)
  }

  /** The genres of a row: none when the column is null, otherwise every comma-separated piece, trimmed; empty pieces stay. */
  function DecodeGenres(genres: Option<string>): (gs: seq<string>)
    ensures genres.None? ==> gs == []
    ensures genres.Some? ==> |gs| == Count(genres.value, ',') + 1
    ensures genres.Some? ==> forall k :: 0 <= k < |gs| ==> gs[k] == Trim(SplitOn(genres.value, ',')[k])
  {
    match genres
    case None => []
    case Some(text) =>
      var pieces := SplitOn(text, ',');
      seq(|pieces|, k requires 0 <= k < |pieces| => Trim(pieces[k]))
  }

  /** `AiAlbumMapper.fromEntity`: every other column is copied as it is. */
  function FromEntity(entity: AiAlbumEntity): (album: AiAlbum)
    ensures album.id == entity.id && album.title == entity.title
    ensures album.description == entity.description && album.theme == entity.theme
    ensures album.coverPrompt == entity.coverPrompt && album.coverUri == entity.coverUri
    ensures album.generatedAt == entity.generatedAt
    ensures album.trackIds == DecodeTrackIds(entity.trackIds)
    ensures album.suggestedGenres == DecodeGenres(entity.suggestedGenres)
  {
    AiAlbum(entity.id, entity.title, entity.description, entity.theme, DecodeTrackIds(entity.trackIds),
            DecodeGenres(entity.suggestedGenres), entity.coverPrompt, entity.coverUri, entity.generatedAt)
  }

  /**
   * Each decoded id comes from its own piece of the column, in column
   * order, and every piece left out does not read as a `Long`.
   */
  lemma TrackIdsFollowPieces(trackIds: string)
    requires !IsBlank(trackIds)
    ensures var pieces, ids, ps := SplitOn(trackIds, ','), DecodeTrackIds(trackIds), KeptFrom(SplitOn(trackIds, ','), 0, ToLongOrNull);
      && |ps| == |ids|
      && (forall k :: 0 <= k < |ps| ==> ps[k] < |pieces| && ToLongOrNull(pieces[ps[k]]) == Some(ids[k]))
      && (forall k, m :: 0 <= k < m < |ps| ==> ps[k] < ps[m])
      && (forall j :: 0 <= j < |pieces| && j !in ps ==> ToLongOrNull(pieces[j]) == None)
  {
    MapNotNullKeeps(SplitOn(trackIds, ','), ToLongOrNull);
  }

  /** The column written as the ids' decimal forms joined with commas reads back as the same ids. */
  function EncodeTrackIds(ids: seq<int>): string {
    Join(seq(|ids|, k requires 0 <= k < |ids| => DecimalString(ids[k])), ',')
  }

  lemma {:induction false} TrackIdsRoundTrip(ids: seq<int>)
    requires forall k :: 0 <= k < |ids| ==> LongMin <= ids[k] <= LongMax
    ensures DecodeTrackIds(EncodeTrackIds(ids)) == ids
  {
    var parts := seq(|ids|, k requires 0 <= k < |ids| => DecimalString(ids[k]));
    var s := Join(parts, ',');
    assert s == EncodeTrackIds(ids);
    if |ids| == 0 {
      assert s == "";
    } else {
      assert !IsWhitespace(s[0]);
      forall k | 0 <= k < |parts| ensures ',' !in parts[k] {
        DecimalHasNoComma(ids[k]);
      }
      SplitJoin(parts, ',');
      PiecesReadBack(ids, parts);
    }
  }

  lemma DecimalHasNoComma(n: int)
    ensures ',' !in DecimalString(n)
  {
    var d := DecimalString(n);
    assert forall j :: 0 <= j < |d| ==> d[j] != ',';
  }

  /** Every piece written by `toString` reads back, so none is dropped and each gives its id. */
  lemma PiecesReadBack(ids: seq<int>, parts: seq<string>)
    requires forall k :: 0 <= k < |ids| ==> LongMin <= ids[k] <= LongMax
    requires |parts| == |ids| && forall k :: 0 <= k < |ids| ==> parts[k] == DecimalString(ids[k])
    ensures MapNotNull(parts, ToLongOrNull) == ids
  {
    forall k | 0 <= k < |parts| ensures ToLongOrNull(parts[k]) == Some(ids[k]) {
      DecimalRoundTrip(ids[k]);
    }
    MapNotNullTotal(parts, 0, ToLongOrNull);
  }

  /** Pieces are not trimmed before they are read: in "1, 2" the piece " 2" is dropped. */
  lemma UntrimmedIdIsDropped()
    ensures DecodeTrackIds("1, 2") == [1]
  {
    var s := "1, 2";
    assert !IsWhitespace(s[0]);
    assert IndexOf(s, ',') == 1;
    assert s[..1] == "1" && s[2..] == " 2";
    assert IndexOf(" 2", ',') == 2;
    assert SplitOn(s, ',') == ["1", " 2"];
    assert ToLongOrNull(" 2") == None by {
      assert !IsDigit(" 2"[0]) && " 2"[0] !in "+-";
    }
    assert DigitsValue("1") == 1 by {
      assert "1"[..0] == "";
    }
    assert ToLongOrNull("1") == Some(1);
  }

  /** A present but empty genre column gives one empty genre, not none. */
  lemma EmptyGenreColumn()
    ensures DecodeGenres(Some("")) == [""]
    ensures DecodeGenres(None) == []
  {
    assert SplitOn("", ',') == [""];
  }
}
