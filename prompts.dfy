/**
 * What the AI services hand to the Gemini client. The wording of each
 * prompt is fixed prose around a few embedded values; a `Prompt` records
 * which prompt it is and exactly the values it embeds, and the client is a
 * function of that record.
 */
module Prompts {
  import opened Outcomes

  /** The fields of the app's `Song` that the AI layer reads; `id` and `duration` (in ms) are `Long`s. */
  datatype Song = Song(id: int, title: string, artistName: string, albumName: string, duration: int)

  datatype Prompt =
    | TranslatePrompt(lyrics: string, targetLanguage: string)
    | LyricsSearchPrompt(title: string, artistName: string, duration: int)
    | DailyAlbumPrompt(songSummary: string, targetTrackCount: Int32)
    | ThemedPlaylistPrompt(theme: string, songsSummary: string, targetTrackCount: Int32)
    | CorrectionsPrompt(title: string, artistName: string, albumName: string, duration: int)
    | EnrichmentPrompt(title: string, artistName: string)

  /** `geminiClient.generateContent`, seen from a service: a prompt in, the reply text or a failure out. */
  type Client = Prompt -> Result<string>

  /** `Json.decodeFromString<T>`: the record a text decodes to, or the exception it raises. */
  type Decoder<T> = string -> Result<T>

  /** The outcome of a service call: the prompt handed to the client (`None` when the client was not called) and the result. */
  datatype Exchange<+T> = Exchange(sent: Option<Prompt>, result: Result<T>)
}
