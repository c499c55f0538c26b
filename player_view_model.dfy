/**
 * `AiPlayerViewModel`: two observable slots, one for lyrics (translation
 * and search share it) and one for metadata, plus the last lyrics the
 * model produced. Each operation refuses at once when the AI is not
 * configured; otherwise it posts `Loading`, calls the service, and posts
 * the settled state the service's result leads to.
 */
module PlayerViewModel {
  import opened Outcomes
  import opened Prompts
  import opened Lrc
  import LyricsTranslation
  import opened MetadataEnricher
  import opened Preferences

  datatype TranslationState = TranslationIdle | TranslationLoading | TranslationSuccess | TranslationError(message: string)

  datatype MetadataState = MetadataIdle | MetadataLoading | MetadataSuccess(metadata: MetadataCorrection) | MetadataError(message: string)

  const UnknownError := "Unknown error"
  const InvalidLyrics := "Invalid lyrics format"
  const NoImprovements := "No improvements found"

  /** `error.message ?: "Unknown error"`. */
  function MessageOf(m: Option<string>): (text: string)
    ensures m.Some? ==> text == m.value
    ensures m.None? ==> text == UnknownError
  {
    match m
    case Some(t) => t
    case None => UnknownError
  }

  /** Where the lyrics slot settles, and the new `translatedLyrics` (`None`: left as it was). */
  datatype LyricsOutcome = LyricsOutcome(state: TranslationState, lyrics: Option<string>)

  /** The end of `translateLyrics`: any translation is taken. */
  function AfterTranslation(r: Result<string>): (o: LyricsOutcome)
    ensures o.state == TranslationSuccess <==> r.Success?
    ensures r.Success? ==> o.lyrics == Some(r.value)
    ensures r.Failure? ==> o.state == TranslationError(MessageOf(r.message)) && o.lyrics == None
  {
    match r
    case Success(translated) => LyricsOutcome(TranslationSuccess, Some(translated))
    case Failure(m) => LyricsOutcome(TranslationError(MessageOf(m)), None)
  }

  /** The end of `searchLyrics`: lyrics are taken only when they pass `isValidLrc`. */
  function AfterSearch(r: Result<string>): (o: LyricsOutcome)
    ensures o.state == TranslationSuccess <==> r.Success? && IsValidLrc(r.value)
    ensures o.lyrics.Some? <==> o.state == TranslationSuccess
    ensures o.lyrics.Some? ==> o.lyrics.value == r.value
    ensures r.Success? && !IsValidLrc(r.value) ==> o.state == TranslationError(InvalidLyrics)
    ensures r.Failure? ==> o.state == TranslationError(MessageOf(r.message))
  {
    match r
    case Success(lyrics) =>
      if IsValidLrc(lyrics) then LyricsOutcome(TranslationSuccess, Some(lyrics))
      else LyricsOutcome(TranslationError(InvalidLyrics), None)
    case Failure(m) => LyricsOutcome(TranslationError(MessageOf(m)), None)
  }

  /** A correction improves something when it names a title, an artist or an album; a genre or a year alone does not count. */
  predicate HasImprovement(m: MetadataCorrection)
    ensures HasImprovement(m) <==> m.(genre := None, year := None) != EmptyCorrection()
  {
    m.title.Some? || m.artist.Some? || m.album.Some?
  }

  /** The end of `enrichMetadata`. */
  function AfterEnrichment(r: Result<MetadataCorrection>): (s: MetadataState)
    ensures s.MetadataSuccess? <==> r.Success? && HasImprovement(r.value)
    ensures s.MetadataSuccess? ==> s.metadata == r.value
    ensures r.Success? && !HasImprovement(r.value) ==> s == MetadataError(NoImprovements)
    ensures r.Failure? ==> s == MetadataError(MessageOf(r.message))
  {
    match r
    case Success(m) => if HasImprovement(m) then MetadataSuccess(m) else MetadataError(NoImprovements)
    case Failure(e) => MetadataError(MessageOf(e))
  }

  /** A finished operation never leaves its slot `Idle` or `Loading`. */
  lemma SettledStatesAreTerminal(r: Result<string>, q: Result<MetadataCorrection>)
    ensures !AfterTranslation(r).state.TranslationIdle? && !AfterTranslation(r).state.TranslationLoading?
    ensures !AfterSearch(r).state.TranslationIdle? && !AfterSearch(r).state.TranslationLoading?
    ensures !AfterEnrichment(q).MetadataIdle? && !AfterEnrichment(q).MetadataLoading?
  {
  }

  /** A reply that decodes from `{}`, or one naming only a genre and a year, ends in "No improvements found". */
  lemma GenreAndYearAreNoImprovement(genre: Option<string>, year: Option<Int32>)
    ensures AfterEnrichment(Success(EmptyCorrection())) == MetadataError(NoImprovements)
    ensures AfterEnrichment(Success(MetadataCorrection(genre := genre, year := year))) == MetadataError(NoImprovements)
  {
  }

  // ----------------------------------------------------------- the object

  class AiPlayerViewModel {
    const aiPreferences: AiPreferences
    var translationState: TranslationState
    var metadataState: MetadataState
    /** `_translatedLyrics`, created without a value. */
    var translatedLyrics: Option<string>
    /** Every value posted to each slot, oldest first. */
    ghost var translationPosts: seq<TranslationState>
    ghost var metadataPosts: seq<MetadataState>

    constructor(aiPreferences: AiPreferences)
      ensures this.aiPreferences == aiPreferences
      ensures translationState == TranslationIdle && metadataState == MetadataIdle && translatedLyrics == None
      ensures translationPosts == [TranslationIdle] && metadataPosts == [MetadataIdle]
    {
      this.aiPreferences := aiPreferences;
      translationState := TranslationIdle;
      metadataState := MetadataIdle;
      translatedLyrics := None;
      translationPosts := [TranslationIdle];
      metadataPosts := [MetadataIdle];
    }

    /** `isAiEnabled`: the preferences hold a non-empty key. */
    function IsAiEnabled(): (b: bool)
      reads aiPreferences
      requires aiPreferences.Valid()
      ensures b <==> aiPreferences.GeminiApiKey().Some? && aiPreferences.GeminiApiKey().value != ""
    {
      aiPreferences.IsConfigured()
    }

    method PostTranslation(s: TranslationState)
      modifies this
      ensures translationState == s && translationPosts == old(translationPosts) + [s]
      ensures metadataState == old(metadataState) && metadataPosts == old(metadataPosts)
      ensures translatedLyrics == old(translatedLyrics)
    {
      translationState := s;
      translationPosts := translationPosts + [s];
    }

    method PostMetadata(s: MetadataState)
      modifies this
      ensures metadataState == s && metadataPosts == old(metadataPosts) + [s]
      ensures translationState == old(translationState) && translationPosts == old(translationPosts)
      ensures translatedLyrics == old(translatedLyrics)
    {
      metadataState := s;
      metadataPosts := metadataPosts + [s];
    }

    /** Applies a settled lyrics outcome: new lyrics first, then the state. */
    method SettleLyrics(o: LyricsOutcome)
      modifies this
      ensures translationState == o.state && translationPosts == old(translationPosts) + [o.state]
      ensures translatedLyrics == if o.lyrics.Some? then o.lyrics else old(translatedLyrics)
      ensures metadataState == old(metadataState) && metadataPosts == old(metadataPosts)
    {
      if o.lyrics.Some? {
        translatedLyrics := o.lyrics;
      }
      PostTranslation(o.state);
    }

    /** `translateLyrics(currentLyrics)`, into the language the preferences name. */
    method TranslateLyrics(currentLyrics: string, client: Client)
      requires aiPreferences.Valid()
      modifies this
      ensures !IsAiEnabled() ==>
        && translationState == TranslationError(NotConfigured)
        && translationPosts == old(translationPosts) + [translationState]
        && translatedLyrics == old(translatedLyrics)
      ensures IsAiEnabled() ==>
        var o := AfterTranslation(client(TranslatePrompt(currentLyrics, aiPreferences.PreferredTranslateLang())));
        && translationState == o.state
        && translationPosts == old(translationPosts) + [TranslationLoading, o.state]
        && translatedLyrics == (if o.lyrics.Some? then o.lyrics else old(translatedLyrics))
      ensures metadataState == old(metadataState) && metadataPosts == old(metadataPosts)
    {
      if !IsAiEnabled() {
        PostTranslation(TranslationError(NotConfigured));
        return;
      }
      PostTranslation(TranslationLoading);
      var x := LyricsTranslation.TranslateLyrics(aiPreferences.IsConfigured(), currentLyrics, client, aiPreferences.PreferredTranslateLang());
      SettleLyrics(AfterTranslation(x.result));
    }

    /** `searchLyrics(song)`. */
    method SearchLyrics(song: Song, client: Client)
      requires aiPreferences.Valid()
      modifies this
      ensures !IsAiEnabled() ==>
        && translationState == TranslationError(NotConfigured)
        && translationPosts == old(translationPosts) + [translationState]
        && translatedLyrics == old(translatedLyrics)
      ensures IsAiEnabled() ==>
        var o := AfterSearch(client(LyricsSearchPrompt(song.title, song.artistName, song.duration)));
        && translationState == o.state
        && translationPosts == old(translationPosts) + [TranslationLoading, o.state]
        && translatedLyrics == (if o.lyrics.Some? then o.lyrics else old(translatedLyrics))
      ensures metadataState == old(metadataState) && metadataPosts == old(metadataPosts)
    {
      if !IsAiEnabled() {
        PostTranslation(TranslationError(NotConfigured));
        return;
      }
      PostTranslation(TranslationLoading);
      var x := LyricsTranslation.SearchAndGenerateLyrics(aiPreferences.IsConfigured(), song, client);
      SettleLyrics(AfterSearch(x.result));
    }

    /** `enrichMetadata(song)`. */
    method EnrichMetadata(song: Song, client: Client, decode: Decoder<MetadataCorrection>)
      requires aiPreferences.Valid()
      modifies this
      ensures !IsAiEnabled() ==>
        metadataState == MetadataError(NotConfigured) && metadataPosts == old(metadataPosts) + [metadataState]
      ensures IsAiEnabled() ==>
        var s := AfterEnrichment(MetadataEnricher.EnrichMetadata(true, song, client, decode).result);
        metadataState == s && metadataPosts == old(metadataPosts) + [MetadataLoading, s]
      ensures translationState == old(translationState) && translationPosts == old(translationPosts)
      ensures translatedLyrics == old(translatedLyrics)
    {
      if !IsAiEnabled() {
        PostMetadata(MetadataError(NotConfigured));
        return;
      }
      PostMetadata(MetadataLoading);
      var x := MetadataEnricher.EnrichMetadata(aiPreferences.IsConfigured(), song, client, decode);
      PostMetadata(AfterEnrichment(x.result));
    }
  }
}
