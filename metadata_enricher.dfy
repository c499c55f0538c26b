/**
 * `MetadataEnricherService`: two calls that ask the model for a
 * `MetadataCorrection`, cut the JSON out of its reply and decode it.
 */
module MetadataEnricher {
  import opened Outcomes
  import opened Prompts
  import opened JsonSpan

  /** A suggested correction; every field the JSON leaves out is `null`. */
  datatype MetadataCorrection = MetadataCorrection(
    title: Option<string> := None,
    artist: Option<string> := None,
    album: Option<string> := None,
    genre: Option<string> := None,
    year: Option<Int32> := None)

  /** What `{}` decodes to: a correction with every field `null`. */
  function EmptyCorrection(): (m: MetadataCorrection)
    ensures m.title == None && m.artist == None && m.album == None && m.genre == None && m.year == None
  {
    MetadataCorrection()
  }

  /** `suggestCorrections(song)`: the prompt names title, artist, album and duration. */
  function SuggestCorrections(configured: bool, song: Song, client: Client, decode: Decoder<MetadataCorrection>): (x: Exchange<MetadataCorrection>)
    ensures !configured ==> x.sent == None && x.result == Fail(NotConfigured)
    ensures configured ==> x.sent == Some(CorrectionsPrompt(song.title, song.artistName, song.albumName, song.duration))
    ensures configured ==> x.result == DecodeReply(client(x.sent.value), decode)
  {
    if !configured then Exchange(None, Fail(NotConfigured))
    else
      var prompt := CorrectionsPrompt(song.title, song.artistName, song.albumName, song.duration);
      Exchange(Some(prompt), DecodeReply(client(prompt), decode))
  }

  /** `enrichMetadata(song)`: the prompt names only the title and the artist. */
  function EnrichMetadata(configured: bool, song: Song, client: Client, decode: Decoder<MetadataCorrection>): (x: Exchange<MetadataCorrection>)
    ensures !configured ==> x.sent == None && x.result == Fail(NotConfigured)
    ensures configured ==> x.sent == Some(EnrichmentPrompt(song.title, song.artistName))
    ensures configured ==> x.result == DecodeReply(client(x.sent.value), decode)
  {
    if !configured then Exchange(None, Fail(NotConfigured))
    else
      var prompt := EnrichmentPrompt(song.title, song.artistName);
      Exchange(Some(prompt), DecodeReply(client(prompt), decode))
  }

  /** Enrichment does not look at the album, the duration or the id: songs that agree on title and artist are enriched alike. */
  lemma EnrichmentUsesTitleAndArtistOnly(s1: Song, s2: Song, configured: bool, client: Client, decode: Decoder<MetadataCorrection>)
    requires s1.title == s2.title && s1.artistName == s2.artistName
    ensures EnrichMetadata(configured, s1, client, decode) == EnrichMetadata(configured, s2, client, decode)
  {
  }

  /** Corrections do look at the album and the duration: songs that differ there send different prompts. */
  lemma CorrectionsUseAlbumAndDuration(s1: Song, s2: Song, client: Client, decode: Decoder<MetadataCorrection>)
    requires s1.albumName != s2.albumName || s1.duration != s2.duration
    ensures SuggestCorrections(true, s1, client, decode).sent != SuggestCorrections(true, s2, client, decode).sent
  {
  }

  /**
   * A reply that wraps a JSON object in prose (nothing before it opens a
   * brace, nothing after it closes one) is decoded from the object alone.
   */
  lemma ProseAroundObjectIsIgnored(before: string, obj: string, after: string, decode: Decoder<MetadataCorrection>)
    requires |obj| >= 2 && obj[0] == '{' && obj[|obj| - 1] == '}'
    requires forall k :: 0 <= k < |before| ==> before[k] != '{'
    requires forall k :: 0 <= k < |after| ==> after[k] != '}'
    ensures DecodeReply(Success(before + obj + after), decode) == decode(obj)
  {
    ExtractFromProse(before, obj, after);
  }
}
