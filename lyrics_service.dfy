/**
 * The two calls of `LyricsTranslationService` that go to the model: both
 * refuse to run unless the AI is configured, and otherwise pass the
 * client's reply through untouched. The LRC checks the same service offers
 * are in module `Lrc`.
 */
module LyricsTranslation {
  import opened Outcomes
  import opened Prompts

  /** `translateLyrics(currentLyrics, targetLanguage = "English")`. */
  function TranslateLyrics(configured: bool, currentLyrics: string, client: Client, targetLanguage: string := "English"): (x: Exchange<string>)
    ensures !configured ==> x.sent == None && x.result == Fail(NotConfigured)
    ensures configured ==> x.sent == Some(TranslatePrompt(currentLyrics, targetLanguage))
    ensures configured ==> x.result == client(TranslatePrompt(currentLyrics, targetLanguage))
  {
    if !configured then Exchange(None, Fail(NotConfigured))
    else
      var prompt := TranslatePrompt(currentLyrics, targetLanguage);
      Exchange(Some(prompt), client(prompt))
  }

  /** `searchAndGenerateLyrics(song)`: the prompt names the title, the artist and the duration. */
  function SearchAndGenerateLyrics(configured: bool, song: Song, client: Client): (x: Exchange<string>)
    ensures !configured ==> x.sent == None && x.result == Fail(NotConfigured)
    ensures configured ==> x.sent == Some(LyricsSearchPrompt(song.title, song.artistName, song.duration))
    ensures configured ==> x.result == client(LyricsSearchPrompt(song.title, song.artistName, song.duration))
  {
    if !configured then Exchange(None, Fail(NotConfigured))
    else
      var prompt := LyricsSearchPrompt(song.title, song.artistName, song.duration);
      Exchange(Some(prompt), client(prompt))
  }

  /** The default target language is English. */
  lemma TranslateDefaultsToEnglish(configured: bool, currentLyrics: string, client: Client)
    ensures configured ==> TranslateLyrics(configured, currentLyrics, client).sent == Some(TranslatePrompt(currentLyrics, "English"))
  {
  }

  /**
   * Unconfigured, neither call depends on the client at all: two clients
   * give the same outcome.
   */
  lemma UnconfiguredIgnoresClient(currentLyrics: string, lang: string, song: Song, c1: Client, c2: Client)
    ensures TranslateLyrics(false, currentLyrics, c1, lang) == TranslateLyrics(false, currentLyrics, c2, lang)
    ensures SearchAndGenerateLyrics(false, song, c1) == SearchAndGenerateLyrics(false, song, c2)
  {
  }

  /** The lyrics search depends on the song only through its title, artist and duration. */
  lemma SearchIgnoresAlbumAndId(s1: Song, s2: Song, configured: bool, client: Client)
    requires s1.title == s2.title && s1.artistName == s2.artistName && s1.duration == s2.duration
    ensures SearchAndGenerateLyrics(configured, s1, client) == SearchAndGenerateLyrics(configured, s2, client)
  {
  }
}
