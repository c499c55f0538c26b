# BoomingMusic AI layer, modelled in Dafny

This project models the AI features of the BoomingMusic Android player:
- the Gemini client, which sends one prompt and turns the reply into a `Result<String>`;
- the three services that build prompts and read the replies: lyrics translation and search, album generation, and metadata enrichment;
- the player view-model's two state slots;
- the daily-album worker;
- the AI preferences store;
- the table of generated albums and its repository.

Each Kotlin file becomes one Dafny module:

| Kotlin | Dafny module | form |
|---|---|---|
| `GeminiModels.kt` | `GeminiModels` (gemini_models.dfy) | datatypes with the Kotlin default values |
| `GeminiClient.kt` | `GeminiClientModel` (gemini_client.dfy) | function `Generate` and class `GeminiClient`, which bumps the request counter |
| `AiPreferences.kt` | `Preferences` (preferences.dfy) | class `AiPreferences` over a key/value `map` |
| `LyricsTranslationService.kt` | `LyricsTranslation` and `Lrc` (lyrics_service.dfy, lrc.dfy) | functions |
| `AiAlbumGeneratorService.kt` | `AlbumGenerator` and `JsonSpan` (album_generator.dfy, json_span.dfy) | functions |
| `MetadataEnricherService.kt` | `MetadataEnricher` (metadata_enricher.dfy) | functions |
| `AiPlayerViewModel.kt` | `PlayerViewModel` (player_view_model.dfy) | class `AiPlayerViewModel` |
| `DailyAlbumWorker.kt` | `DailyAlbumWorker` (daily_album_worker.dfy) | function `DoWork` |
| `AiAlbum.kt`, `AiAlbumEntity.kt` | `AiAlbums` (ai_album.dfy) | datatypes and the mapper |
| `AiAlbumDao.kt`, `AiAlbumRepository.kt` | `AiAlbumTable` (ai_album_dao.dfy) | classes `AiAlbumDao` and `RealAiAlbumRepository` over a `Table` value |

Four supporting modules hold the Kotlin library behaviour the layer depends on:
- `Outcomes`: nullable values, `Result` and the 32-bit `Int` with its wrap-around;
- `Text`: `lines()`, `split`, `joinToString`, `trim()`, `isBlank()`, `toString()` and `toLongOrNull()`;
- `Collections`: `take`, `getOrNull`, `mapIndexed` and `mapNotNull`;
- `Prompts`: the `Song` fields the layer reads, and which values each prompt embeds.

The model treats these as parameters rather than modelling them:
- The Gemini HTTP call is a function `Api` from the key and the request to a reply or a raised exception.
- The client, seen from a service, is a function `Client` from a `Prompt` to a `Result`.
- JSON decoding is a function `Decoder<T>` from text to a record or a failure.
- Wall-clock time is the `now` argument of `NewEntity`.

Where the Kotlin differs from what a reader might expect, the model follows the Kotlin:
- `extractJson` takes everything from the first `{` through the last `}`. It does not balance braces.
- A reply whose first part has the empty text is a success with `""`. It is not an "Empty response" failure.
- `isValidLrc` writes the dot of its tag pattern unescaped, so `[01:23,45]` counts as a tag. The timestamp extractor escapes the dot, so it does not read that tag. `Lrc.CommaTagPassesValidity` exhibits a document that passes the check and yields no timestamp.
- `generateDaily` checks indices against the whole song list, not the 100 songs in the summary (`AlbumGenerator.BoundIsWholeList`).
- The worker never creates the playlist it names.

The generator and the enricher are written as `onSuccess { … return@onSuccess … }.getOrElse { Result.failure(it) }`. The lambda of `onSuccess` returns `Unit`, so this chain does not type-check as the `Result<T>` the functions return. The model follows the evident intent: on a reply, extract the JSON and decode it (and, for the daily album, check the indices); return a decoding exception as a failure; pass a client failure on unchanged.

## Model

| member | source | states |
|---|---|---|
| Outcomes.PlusInt32 | app/src/main/java/com/mardous/booming/ai/GeminiClient.kt:90 | Kotlin `Int` addition: the exact sum when it fits, otherwise the sum wrapped by 2^32 in either direction |
| GeminiModels.RequestOf | app/src/main/java/com/mardous/booming/ai/models/GeminiModels.kt:6-11 | a request built from its contents alone keeps them and carries `GenerationConfig()`, with maxOutputTokens 2048 and topK 40 |
| GeminiModels.EmptyResponse | app/src/main/java/com/mardous/booming/ai/models/GeminiModels.kt:34-40 | a response missing its fields has no candidates, no usage metadata and no error |
| GeminiModels.EmptyCandidate | app/src/main/java/com/mardous/booming/ai/models/GeminiModels.kt:42-49 | a candidate missing its fields has no content, finishReason "" and no safety ratings |
| GeminiModels.EmptyErrorInfo | app/src/main/java/com/mardous/booming/ai/models/GeminiModels.kt:67-72 | an error missing its fields has code 0, message "" and status "" |
| GeminiModels.EmptyUsageMetadata | app/src/main/java/com/mardous/booming/ai/models/GeminiModels.kt:51-59 | all three token counts default to 0 |
| GeminiModels.EmptySafetyRating | app/src/main/java/com/mardous/booming/ai/models/GeminiModels.kt:61-65 | a rating missing its fields has category "" and probability "" |
| GeminiClientModel.BuildRequest | app/src/main/java/com/mardous/booming/ai/GeminiClient.kt:65-73 | the request holds exactly one content with exactly one part, whose text is the prompt, and the default generation settings |
| GeminiClientModel.HasKey | app/src/main/java/com/mardous/booming/ai/GeminiClient.kt:60-61 | a key can be used if and only if it is neither null nor the empty string |
| GeminiClientModel.FirstText | app/src/main/java/com/mardous/booming/ai/GeminiClient.kt:81-87 | there is a text exactly when the first candidate has content with at least one part, and it is that first part's text |
| GeminiClientModel.Generate | app/src/main/java/com/mardous/booming/ai/GeminiClient.kt:58-97 | the call outcome on every path: an absent or empty key fails with no request sent; otherwise the one-part request is sent; a raised exception's message is passed on; a reply's `error` gives "Gemini API Error: " plus its message; otherwise the first text, or "Empty response from Gemini API" |
| GeminiClientModel.SuccessIsFirstText | app/src/main/java/com/mardous/booming/ai/GeminiClient.kt:60-92 | a call succeeds if and only if a key is stored, the API replied without an error, and the reply has a first text; the text returned is that text |
| GeminiClientModel.ErrorWinsOverCandidates | app/src/main/java/com/mardous/booming/ai/GeminiClient.kt:77-79 | a reply carrying an error fails even when its first candidate holds text |
| GeminiClientModel.GeminiClient.GenerateContent | app/src/main/java/com/mardous/booming/ai/GeminiClient.kt:58-97 | the result is `Generate`'s for the stored key; after a success the store is the old one with `requestCount` one higher (wrapping); after any failure the store is unchanged |
| GeminiClientModel.GeminiClient.constructor | app/src/main/java/com/mardous/booming/ai/GeminiClient.kt:33 | the client keeps the preferences object it is given and reads its key from there |
| GeminiClientModel.SuccessBumpsCounter | app/src/main/java/com/mardous/booming/ai/GeminiClient.kt:89-90 | the counter reads one more than before (or wraps from Int.MAX to Int.MIN) and every other setting reads as before |
| Preferences.GeminiApiKeySetGet | app/src/main/java/com/mardous/booming/ai/AiPreferences.kt:36-44 | setting the key to null or "" makes the getter return null; setting any other key makes it return that key; no other setting changes |
| Preferences.GeminiApiKeyRemoved | app/src/main/java/com/mardous/booming/ai/AiPreferences.kt:39-40 | a null or empty value removes the key from the store |
| Preferences.GeminiApiKeyStored | app/src/main/java/com/mardous/booming/ai/AiPreferences.kt:41-42 | a non-empty value is stored under `gemini_api_key` and read back unchanged |
| Preferences.ConfiguredAfterSettingKey | app/src/main/java/com/mardous/booming/ai/AiPreferences.kt:36-74 | after the key is set, `isConfigured` holds if and only if the value was neither null nor empty |
| Preferences.FlagSetGet | app/src/main/java/com/mardous/booming/ai/AiPreferences.kt:46-68 | setting one of the five boolean flags makes its getter return the value given; every other setting reads as before |
| Preferences.PreferredTranslateLangSetGet | app/src/main/java/com/mardous/booming/ai/AiPreferences.kt:62-64 | the language reads back as set; nothing else changes |
| Preferences.RequestCountSetGet | app/src/main/java/com/mardous/booming/ai/AiPreferences.kt:70-72 | the counter reads back as set; nothing else changes |
| Preferences.ViewOfSameKeys | app/src/main/java/com/mardous/booming/ai/AiPreferences.kt:26-72 | each getter reads only its own key, so changing one key leaves every other setting as it was |
| Preferences.ClearedReadsDefaults | app/src/main/java/com/mardous/booming/ai/AiPreferences.kt:36-78 | an empty store reads as the defaults: no key, every flag false, language "en", counter 0 |
| Preferences.ConfiguredIffKeyStored | app/src/main/java/com/mardous/booming/ai/AiPreferences.kt:74 | on a store that never holds an empty key, `isConfigured` holds if and only if a key is stored |
| Preferences.AiPreferences.constructor | app/src/main/java/com/mardous/booming/ai/AiPreferences.kt:13-23 | the preferences start as the saved store |
| Preferences.AiPreferences.GeminiApiKey | app/src/main/java/com/mardous/booming/ai/AiPreferences.kt:36-37 | the stored key string, or null when the key is absent |
| Preferences.AiPreferences.Flag | app/src/main/java/com/mardous/booming/ai/AiPreferences.kt:46-68 | the stored boolean of the flag, or false when its key is absent |
| Preferences.AiPreferences.PreferredTranslateLang | app/src/main/java/com/mardous/booming/ai/AiPreferences.kt:62-63 | the stored language, or "en" when the key is absent |
| Preferences.AiPreferences.RequestCount | app/src/main/java/com/mardous/booming/ai/AiPreferences.kt:70-71 | the stored counter, or 0 when the key is absent |
| Preferences.AiPreferences.IsConfigured | app/src/main/java/com/mardous/booming/ai/AiPreferences.kt:74 | configured if and only if the key getter returns a string that is not empty |
| Preferences.AiPreferences.SetGeminiApiKey | app/src/main/java/com/mardous/booming/ai/AiPreferences.kt:38-44 | the store after `remove` or `putString`; the getters then read the old settings with only the key replaced (null for a null or empty value) |
| Preferences.AiPreferences.SetFlag | app/src/main/java/com/mardous/booming/ai/AiPreferences.kt:46-68 | the store after `putBoolean`; the getters then read the old settings with only that flag replaced |
| Preferences.AiPreferences.SetPreferredTranslateLang | app/src/main/java/com/mardous/booming/ai/AiPreferences.kt:62-64 | the store after `putString`; only the language changes |
| Preferences.AiPreferences.SetRequestCount | app/src/main/java/com/mardous/booming/ai/AiPreferences.kt:70-72 | the store after `putInt`; only the counter changes |
| Preferences.AiPreferences.ClearAll | app/src/main/java/com/mardous/booming/ai/AiPreferences.kt:76-78 | the store is empty and every getter returns its default |
| Text.Lines | app/src/main/java/com/mardous/booming/ai/services/LyricsTranslationService.kt:103 | `lines()` gives at least one line and no line holds a line break |
| Text.LinesConsCrLf | app/src/main/java/com/mardous/booming/ai/services/LyricsTranslationService.kt:103 | a `"\r\n"` pair ends a line as one break: the text before it is the first line and the rest is split on its own |
| Text.LinesConsCr | app/src/main/java/com/mardous/booming/ai/services/LyricsTranslationService.kt:103 | a lone `'\r'` (not followed by `'\n'`) ends a line by itself |
| Text.LinesOfUnbroken | app/src/main/java/com/mardous/booming/ai/services/LyricsTranslationService.kt:103 | a text without a line break is one line, itself |
| Text.LinesOfJoin | app/src/main/java/com/mardous/booming/ai/services/AiAlbumGeneratorService.kt:48-51 | `lines()` gives back the pieces joined with "\n" when none holds a line break |
| Text.BlankTextHasBlankLines | app/src/main/java/com/mardous/booming/ai/services/LyricsTranslationService.kt:101-103 | every line of a blank text is blank |
| Text.SplitOn | app/src/main/java/com/mardous/booming/data/model/AiAlbum.kt:19-20 | `split(",")` gives one piece more than there are separators, and no piece holds the separator |
| Text.SplitJoin | app/src/main/java/com/mardous/booming/data/model/AiAlbum.kt:19-20 | splitting pieces joined with a separator that none of them holds gives the pieces back |
| Text.Join | app/src/main/java/com/mardous/booming/ai/services/AiAlbumGeneratorService.kt:51 | `joinToString` of no pieces is "", and the result of some pieces begins with the first piece |
| Text.Trim | app/src/main/java/com/mardous/booming/data/model/AiAlbum.kt:20 | the result is a slice of the input with only whitespace around it, and it neither starts nor ends with whitespace |
| Text.DecimalString | app/src/main/java/com/mardous/booming/ai/services/AiAlbumGeneratorService.kt:50 | `toString()` of a number is digits, with a leading '-' only for a negative number |
| Text.ToLongOrNull | app/src/main/java/com/mardous/booming/data/model/AiAlbum.kt:19 | a number is returned if and only if the text is an optional `+` or `-` followed by at least one digit and its value lies in the `Long` range, and the number is that value; leading zeros are allowed |
| Text.ToLongOrNullExamples | app/src/main/java/com/mardous/booming/data/model/AiAlbum.kt:19 | "007" reads as 7 and "+5" as 5; a lone "-", a leading space and a trailing space give null |
| Text.DecimalRoundTrip | app/src/main/java/com/mardous/booming/data/model/AiAlbum.kt:19 | `toLongOrNull` reads `toString()` of every `Long` back as the same number |
| Lrc.HasLooseTagFrom | app/src/main/java/com/mardous/booming/ai/services/LyricsTranslationService.kt:102 | the search finds a tag if and only if one occurs at or after the starting point |
| Lrc.NonBlank | app/src/main/java/com/mardous/booming/ai/services/LyricsTranslationService.kt:103 | the lines kept are all non-blank and all come from the input, and there are no more of them than input lines |
| Lrc.NonBlankFrom | app/src/main/java/com/mardous/booming/ai/services/LyricsTranslationService.kt:103 | `filter { it.isNotBlank() }` is `mapNotNull` with a blank line mapped to null and any other line to itself |
| Lrc.NonBlankKeeps | app/src/main/java/com/mardous/booming/ai/services/LyricsTranslationService.kt:103 | line k of the result is input line ps[k], the positions ps increase strictly (order is kept), and every input line left out is blank (no non-blank line is lost) |
| Lrc.NonBlankKeepsAll | app/src/main/java/com/mardous/booming/ai/services/LyricsTranslationService.kt:103 | a list of non-blank lines is kept whole |
| Lrc.IsValidLrc | app/src/main/java/com/mardous/booming/ai/services/LyricsTranslationService.kt:100-105 | valid if and only if the text is not blank, holds `[dd:dd?dd]` where `?` is any character but a line terminator, and has at least 6 non-blank lines; blank text and 5 or fewer non-blank lines are refused |
| Lrc.BlankTestIsSubsumed | app/src/main/java/com/mardous/booming/ai/services/LyricsTranslationService.kt:101-104 | a text with a non-blank line is not blank, so the first guard only decides texts the line count refuses anyway |
| Lrc.FirstTimestampTag | app/src/main/java/com/mardous/booming/ai/services/LyricsTranslationService.kt:83 | `Regex.find`: the leftmost `[dd:dd.dd]` tag at or after the start, or none when there is no such tag |
| Lrc.TwoDigits | app/src/main/java/com/mardous/booming/ai/services/LyricsTranslationService.kt:85-87 | two ASCII digits read as their decimal value, at most 99 |
| Lrc.RestOfLine | app/src/main/java/com/mardous/booming/ai/services/LyricsTranslationService.kt:80-88 | the group `(.*)`: the longest prefix without a regex line terminator |
| Lrc.TagMillis | app/src/main/java/com/mardous/booming/ai/services/LyricsTranslationService.kt:85-89 | minutes·60000 + seconds·1000 + centiseconds·10, which is a multiple of 10 and at most 6,039,990 |
| Lrc.ParseTimedLine | app/src/main/java/com/mardous/booming/ai/services/LyricsTranslationService.kt:82-93 | a line gives an entry if and only if it holds a `[dd:dd.dd]` tag; the entry is the leftmost tag's time and the text after it up to the end of the line |
| Lrc.TextIsRestOfLine | app/src/main/java/com/mardous/booming/ai/services/LyricsTranslationService.kt:80-88 | on a single line, the text is everything after the first tag's `]`, later tags included |
| Lrc.ExtractLrcTimestamps | app/src/main/java/com/mardous/booming/ai/services/LyricsTranslationService.kt:79-95 | at most one entry per line, each within 0..6,039,990 ms |
| Lrc.TimestampsOfTaggedLines | app/src/main/java/com/mardous/booming/ai/services/LyricsTranslationService.kt:81-94 | entry k comes from a tagged line, the lines used increase strictly (line order), and every line left out holds no tag |
| Lrc.CommaTagPassesValidity | app/src/main/java/com/mardous/booming/ai/services/LyricsTranslationService.kt:80-102 | a six-line document whose only tag is `[01:23,45]` is valid, yet yields no timestamps |
| Lrc.UntimedLinesGiveNothing | app/src/main/java/com/mardous/booming/ai/services/LyricsTranslationService.kt:81-94 | lines of which none holds a tag give no entries |
| LyricsTranslation.TranslateLyrics | app/src/main/java/com/mardous/booming/ai/services/LyricsTranslationService.kt:22-43 | unconfigured: "AI not configured" with no client call; otherwise the translation prompt is sent and the client's result returned unchanged |
| LyricsTranslation.SearchAndGenerateLyrics | app/src/main/java/com/mardous/booming/ai/services/LyricsTranslationService.kt:50-74 | the same guard; otherwise a prompt naming the title, artist and duration is sent and the client's result returned unchanged |
| LyricsTranslation.TranslateDefaultsToEnglish | app/src/main/java/com/mardous/booming/ai/services/LyricsTranslationService.kt:24 | the default target language is "English" |
| LyricsTranslation.UnconfiguredIgnoresClient | app/src/main/java/com/mardous/booming/ai/services/LyricsTranslationService.kt:26-53 | unconfigured, the outcome does not depend on the client at all |
| LyricsTranslation.SearchIgnoresAlbumAndId | app/src/main/java/com/mardous/booming/ai/services/LyricsTranslationService.kt:55-59 | songs that agree on title, artist and duration are searched alike |
| JsonSpan.LastIndexOf | app/src/main/java/com/mardous/booming/ai/services/AiAlbumGeneratorService.kt:170 | the index of the last occurrence, or -1 when there is none |
| JsonSpan.ExtractJson | app/src/main/java/com/mardous/booming/ai/services/AiAlbumGeneratorService.kt:169-172 | the result is never longer than the reply, and it is either the whole reply or a text that starts with `{` and ends with `}` |
| JsonSpan.HasMatchIff | app/src/main/java/com/mardous/booming/ai/services/AiAlbumGeneratorService.kt:170 | `\{[\s\S]*\}` matches somewhere if and only if the first `{` comes before the last `}` |
| JsonSpan.ExtractJsonIsFirstMatch | app/src/main/java/com/mardous/booming/ai/services/AiAlbumGeneratorService.kt:169-172 | with a match, the result is the leftmost match and the longest one starting there; with none, it is the whole text |
| JsonSpan.FirstOpenThroughLastClose | app/src/main/java/com/mardous/booming/ai/services/MetadataEnricherService.kt:127-130 | the result runs from the first `{` through the last `}` when the first comes before the last (greedy, not balanced) |
| JsonSpan.MatchIsBraced | app/src/main/java/com/mardous/booming/ai/services/AiAlbumGeneratorService.kt:169-172 | when a match exists, the result starts with `{` and ends with `}` |
| JsonSpan.ExtractJsonIdempotent | app/src/main/java/com/mardous/booming/ai/services/AiAlbumGeneratorService.kt:169-172 | extracting twice gives the same as extracting once |
| JsonSpan.ExtractFromProse | app/src/main/java/com/mardous/booming/ai/services/AiAlbumGeneratorService.kt:166-172 | an object wrapped in prose with no `{` before it and no `}` after it is cut out exactly |
| JsonSpan.DecodeReply | app/src/main/java/com/mardous/booming/ai/services/MetadataEnricherService.kt:59-72 | a client failure is returned unchanged; a reply is decoded from its extracted JSON, and a decoding failure is returned, not raised |
| MetadataEnricher.EmptyCorrection | app/src/main/java/com/mardous/booming/ai/services/MetadataEnricherService.kt:19-25 | every field of a correction defaults to null |
| MetadataEnricher.SuggestCorrections | app/src/main/java/com/mardous/booming/ai/services/MetadataEnricherService.kt:30-76 | unconfigured: "AI not configured" with no client call; otherwise a prompt naming title, artist, album and duration, whose reply is decoded by `DecodeReply` |
| MetadataEnricher.EnrichMetadata | app/src/main/java/com/mardous/booming/ai/services/MetadataEnricherService.kt:81-122 | the same guard; otherwise a prompt naming only the title and the artist, whose reply is decoded by `DecodeReply` |
| MetadataEnricher.EnrichmentUsesTitleAndArtistOnly | app/src/main/java/com/mardous/booming/ai/services/MetadataEnricherService.kt:86-89 | songs that agree on title and artist are enriched alike |
| MetadataEnricher.CorrectionsUseAlbumAndDuration | app/src/main/java/com/mardous/booming/ai/services/MetadataEnricherService.kt:35-40 | songs that differ in album or duration send different correction prompts |
| MetadataEnricher.ProseAroundObjectIsIgnored | app/src/main/java/com/mardous/booming/ai/services/MetadataEnricherService.kt:106-118 | a reply wrapping an object in prose decodes from the object alone |
| AlbumGenerator.AlbumWithDefaults | app/src/main/java/com/mardous/booming/ai/services/AiAlbumGeneratorService.kt:19-26 | an album decoded without genres or a cover prompt gets `[]` and "" |
| AlbumGenerator.PlayCount | app/src/main/java/com/mardous/booming/ai/services/AiAlbumGeneratorService.kt:49 | the play count recorded for the song, or 1 when none is recorded |
| AlbumGenerator.DailySummary | app/src/main/java/com/mardous/booming/ai/services/AiAlbumGeneratorService.kt:48-51 | the daily summary is empty if and only if there are no songs, and otherwise begins with the line of the first song |
| AlbumGenerator.ThemedSummary | app/src/main/java/com/mardous/booming/ai/services/AiAlbumGeneratorService.kt:122-125 | the themed summary is empty if and only if there are no songs, and otherwise begins with the line of the first song |
| AlbumGenerator.DailySummaryLines | app/src/main/java/com/mardous/booming/ai/services/AiAlbumGeneratorService.kt:48-51 | the daily summary has min(100, n) lines, and line i is `[i] title by artist (Album: a, Plays: p, Duration: dms)` with p = 1 for a song without a play count |
| AlbumGenerator.ThemedSummaryLines | app/src/main/java/com/mardous/booming/ai/services/AiAlbumGeneratorService.kt:122-125 | the themed summary has min(100, n) lines, and line i is `[i] title - artist (album)` |
| AlbumGenerator.CheckIndices | app/src/main/java/com/mardous/booming/ai/services/AiAlbumGeneratorService.kt:90-96 | the album is kept if and only if every index names one of the songs; one bad index gives "Invalid track indices in generated album"; a failure passes through |
| AlbumGenerator.GenerateDaily | app/src/main/java/com/mardous/booming/ai/services/AiAlbumGeneratorService.kt:34-108 | unconfigured fails first with no request; an empty list fails with "No recent songs to curate from" and no request; otherwise the daily prompt over the summary is sent, and a returned album has only valid indices |
| AlbumGenerator.DailyOutcome | app/src/main/java/com/mardous/booming/ai/services/AiAlbumGeneratorService.kt:81-103 | success if and only if the reply decodes to an album whose indices all name songs; a client failure is returned unchanged; one bad index refuses the album |
| AlbumGenerator.BoundIsWholeList | app/src/main/java/com/mardous/booming/ai/services/AiAlbumGeneratorService.kt:48-94 | with 150 songs, an album naming song 120 is accepted though the summary shows only 100 songs |
| AlbumGenerator.GenerateThemed | app/src/main/java/com/mardous/booming/ai/services/AiAlbumGeneratorService.kt:113-164 | unconfigured fails with no request; otherwise the themed prompt is sent and the decoded reply is returned with no index check |
| AlbumGenerator.ThemedChecksNeither | app/src/main/java/com/mardous/booming/ai/services/AiAlbumGeneratorService.kt:113-154 | with no songs a themed playlist is still requested and returned, while the daily album fails with "No recent songs to curate from" |
| PlayerViewModel.MessageOf | app/src/main/java/com/mardous/booming/ai/ui/AiPlayerViewModel.kt:50 | the exception's message, or "Unknown error" when it has none |
| PlayerViewModel.AfterTranslation | app/src/main/java/com/mardous/booming/ai/ui/AiPlayerViewModel.kt:46-51 | success if and only if the service succeeded, taking its text as the lyrics; a failure leaves the lyrics and posts its message |
| PlayerViewModel.AfterSearch | app/src/main/java/com/mardous/booming/ai/ui/AiPlayerViewModel.kt:65-74 | success if and only if the service succeeded with text `isValidLrc` accepts; valid text becomes the lyrics; invalid text gives "Invalid lyrics format" |
| PlayerViewModel.AfterEnrichment | app/src/main/java/com/mardous/booming/ai/ui/AiPlayerViewModel.kt:88-96 | success if and only if the correction names a title, an artist or an album; otherwise "No improvements found"; a failure posts its message |
| PlayerViewModel.HasImprovement | app/src/main/java/com/mardous/booming/ai/ui/AiPlayerViewModel.kt:89 | a correction improves something if and only if, with genre and year ignored, it is not the empty correction |
| PlayerViewModel.SettledStatesAreTerminal | app/src/main/java/com/mardous/booming/ai/ui/AiPlayerViewModel.kt:33-98 | a completed operation never leaves its slot Idle or Loading |
| PlayerViewModel.GenreAndYearAreNoImprovement | app/src/main/java/com/mardous/booming/ai/ui/AiPlayerViewModel.kt:89-92 | an all-null correction, or one naming only a genre and a year, ends in "No improvements found" |
| PlayerViewModel.AiPlayerViewModel.constructor | app/src/main/java/com/mardous/booming/ai/ui/AiPlayerViewModel.kt:22-29 | both slots start Idle and there are no lyrics yet |
| PlayerViewModel.AiPlayerViewModel.IsAiEnabled | app/src/main/java/com/mardous/booming/ai/ui/AiPlayerViewModel.kt:31 | AI is enabled if and only if the preferences hold a key that is not empty |
| PlayerViewModel.AiPlayerViewModel.PostTranslation | app/src/main/java/com/mardous/booming/ai/ui/AiPlayerViewModel.kt:22-23 | posting to the lyrics slot records the value and touches nothing else |
| PlayerViewModel.AiPlayerViewModel.PostMetadata | app/src/main/java/com/mardous/booming/ai/ui/AiPlayerViewModel.kt:25-26 | posting to the metadata slot records the value and touches nothing else |
| PlayerViewModel.AiPlayerViewModel.SettleLyrics | app/src/main/java/com/mardous/booming/ai/ui/AiPlayerViewModel.kt:46-74 | new lyrics are stored first when there are any, then the state is posted |
| PlayerViewModel.AiPlayerViewModel.TranslateLyrics | app/src/main/java/com/mardous/booming/ai/ui/AiPlayerViewModel.kt:33-53 | unconfigured, only "AI not configured" is posted and nothing else changes; otherwise Loading is posted and then the outcome for the preferred language, with lyrics replaced only on success; the metadata slot is untouched |
| PlayerViewModel.AiPlayerViewModel.SearchLyrics | app/src/main/java/com/mardous/booming/ai/ui/AiPlayerViewModel.kt:55-76 | the same guard; otherwise Loading and then the search outcome, with lyrics replaced only by valid LRC; the metadata slot is untouched |
| PlayerViewModel.AiPlayerViewModel.EnrichMetadata | app/src/main/java/com/mardous/booming/ai/ui/AiPlayerViewModel.kt:78-98 | unconfigured, only "AI not configured" is posted; otherwise Loading and then the enrichment outcome; the lyrics slot and the lyrics are untouched |
| DailyAlbumWorker.DoWork | app/src/main/java/com/mardous/booming/ai/work/DailyAlbumWorker.kt:28-79 | unconfigured, or with the daily album switched off, succeed without reading songs; retry exactly when reading the songs raised; a generation request, for the first 100 songs with no play counts and 10 tracks, exactly when there is a song; a playlist name exactly when some song was selected |
| DailyAlbumWorker.SelectedSongs | app/src/main/java/com/mardous/booming/ai/work/DailyAlbumWorker.kt:61-63 | at most one song per index, and every song selected is one of the recent songs |
| DailyAlbumWorker.GenerationFailureStillSucceeds | app/src/main/java/com/mardous/booming/ai/work/DailyAlbumWorker.kt:59-74 | a failed generation still ends in success, with nothing selected |
| DailyAlbumWorker.SelectionFollowsIndices | app/src/main/java/com/mardous/booming/ai/work/DailyAlbumWorker.kt:61-63 | the selected songs are the songs the indices name, in index order; exactly the out-of-range indices are dropped |
| DailyAlbumWorker.SelectionOfValidIndices | app/src/main/java/com/mardous/booming/ai/work/DailyAlbumWorker.kt:61-63 | when every index is in range, each gives its song, duplicates included |
| DailyAlbumWorker.RealGeneratorDropsNothing | app/src/main/java/com/mardous/booming/ai/work/DailyAlbumWorker.kt:53-63 | with the real `generateDaily`, every returned index gives its song, since the generator already refused bad ones |
| DailyAlbumWorker.PlaylistName | app/src/main/java/com/mardous/booming/ai/work/DailyAlbumWorker.kt:65-66 | the name is "AI " followed by the album title, present only when some song was selected |
| AiAlbums.NewEntity | app/src/main/java/com/mardous/booming/data/local/room/AiAlbumEntity.kt:7-29 | a new entity has id 0, no cover URI and the current time, with the other columns as given |
| AiAlbums.DecodeTrackIds | app/src/main/java/com/mardous/booming/data/model/AiAlbum.kt:19 | a blank column gives no ids; otherwise the comma pieces that parse as a `Long`, so at most one more id than commas, each a `Long` |
| AiAlbums.TrackIdsFollowPieces | app/src/main/java/com/mardous/booming/data/model/AiAlbum.kt:19 | id k comes from a piece that parses, the pieces used are in order, and every piece left out does not parse |
| AiAlbums.TrackIdsRoundTrip | app/src/main/java/com/mardous/booming/data/model/AiAlbum.kt:19 | ids written as their decimal forms joined by commas read back as the same ids |
| AiAlbums.UntrimmedIdIsDropped | app/src/main/java/com/mardous/booming/data/model/AiAlbum.kt:19 | pieces are not trimmed, so "1, 2" reads as [1] |
| AiAlbums.DecodeGenres | app/src/main/java/com/mardous/booming/data/model/AiAlbum.kt:20 | a null column gives no genres; otherwise exactly one more genre than commas, each piece trimmed, empty pieces kept |
| AiAlbums.EmptyGenreColumn | app/src/main/java/com/mardous/booming/data/model/AiAlbum.kt:20 | an empty column gives one empty genre and a null column none |
| AiAlbums.FromEntity | app/src/main/java/com/mardous/booming/data/model/AiAlbum.kt:18-32 | id, title, description, theme, cover prompt, cover URI and time are copied unchanged; ids and genres are decoded as above |
| AiAlbumTable.EmptyTable | app/src/main/java/com/mardous/booming/data/local/room/AiAlbumDao.kt:7-8 | a new table has no rows, is well formed, and has used no id yet |
| AiAlbumTable.InsertRow | app/src/main/java/com/mardous/booming/data/local/room/AiAlbumDao.kt:9-10 | a successful insert adds exactly the one row, under an id no row had; with id 0 the id is one past the largest ever used and the insert aborts only when none is left; an explicit id is kept and aborts if and only if it is taken; afterwards the largest id ever used is the larger of the old one and the stored id |
| AiAlbumTable.FreshIdOnInsert | app/src/main/java/com/mardous/booming/data/local/room/AiAlbumDao.kt:9-10 | with id 0 the insert succeeds with an id distinct from every row's and adds one row |
| AiAlbumTable.NoIdReuseAfterDelete | app/src/main/java/com/mardous/booming/data/local/room/AiAlbumEntity.kt:9 | with `autoGenerate`, an insert after deleting old rows gets an id above every id the table held before the delete, so a deleted id is not handed out again |
| AiAlbumTable.AiAlbumDao.constructor | app/src/main/java/com/mardous/booming/data/local/room/AiAlbumDao.kt:7-8 | the DAO starts over an empty table |
| AiAlbumTable.AiAlbumDao.Insert | app/src/main/java/com/mardous/booming/data/local/room/AiAlbumDao.kt:9-10 | returns the inserted id, or none when the insert raised; the table becomes the inserted one, or stays as it was |
| AiAlbumTable.PlaceByTime | app/src/main/java/com/mardous/booming/data/local/room/AiAlbumDao.kt:12 | placing a row keeps every row and adds that one |
| AiAlbumTable.PlaceKeepsNewestFirst | app/src/main/java/com/mardous/booming/data/local/room/AiAlbumDao.kt:12 | placing a row in a newest-first list keeps it newest first |
| AiAlbumTable.ByNewest | app/src/main/java/com/mardous/booming/data/local/room/AiAlbumDao.kt:12 | `ORDER BY generated_at DESC` is a permutation of the rows with non-increasing `generated_at` |
| AiAlbumTable.Recent | app/src/main/java/com/mardous/booming/data/local/room/AiAlbumDao.kt:12-13 | `LIMIT :limit` returns min(limit, rows) rows, or every row for a negative limit, and they are the first ones of the newest-first order |
| AiAlbumTable.RecentIsNewestFirst | app/src/main/java/com/mardous/booming/data/local/room/AiAlbumDao.kt:12-13 | `LIMIT :limit` returns min(limit, rows) rows (all of them for a negative limit), newest first, all from the table, and no row left out is newer than any row returned |
| AiAlbumTable.PrefixOfNewestFirst | app/src/main/java/com/mardous/booming/data/local/room/AiAlbumDao.kt:12-13 | a prefix of a newest-first list is newest first, and nothing after it is newer than anything in it |
| AiAlbumTable.KeepNewer | app/src/main/java/com/mardous/booming/data/local/room/AiAlbumDao.kt:15-16 | a row survives if and only if it was there and its `generated_at` is not below the cutoff |
| AiAlbumTable.KeepNewerIsSubsequence | app/src/main/java/com/mardous/booming/data/local/room/AiAlbumDao.kt:15-16 | the surviving rows are a subsequence of the old ones, with ids and fields unchanged |
| AiAlbumTable.KeepNewerIdempotent | app/src/main/java/com/mardous/booming/data/local/room/AiAlbumDao.kt:15-16 | deleting with the same cutoff twice is the same as once |
| AiAlbumTable.KeepNewerNoMatch | app/src/main/java/com/mardous/booming/data/local/room/AiAlbumDao.kt:15-16 | when no row is older than the cutoff, nothing is deleted |
| AiAlbumTable.KeepNewerKeepsWellFormed | app/src/main/java/com/mardous/booming/data/local/room/AiAlbumDao.kt:15-16 | deletion keeps the ids distinct and within the largest id used |
| AiAlbumTable.DeleteOlder | app/src/main/java/com/mardous/booming/data/local/room/AiAlbumDao.kt:15-16 | exactly the rows older than the cutoff are removed, and the largest id used is remembered |
| AiAlbumTable.AiAlbumDao.DeleteOlderThan | app/src/main/java/com/mardous/booming/data/local/room/AiAlbumDao.kt:15-16 | the table becomes the old one without the rows older than the cutoff |
| AiAlbumTable.Perform | app/src/main/java/com/mardous/booming/data/local/repository/AiAlbumRepository.kt:5-9 | every repository call keeps the table well formed |
| AiAlbumTable.PerformAll | app/src/main/java/com/mardous/booming/data/local/repository/AiAlbumRepository.kt:5-9 | any sequence of repository calls keeps the table well formed |
| AiAlbumTable.RowsLeaveOnlyByAge | app/src/main/java/com/mardous/booming/data/local/repository/AiAlbumRepository.kt:5-9 | since there is no update and no single-row delete, a row that no cutoff reaches stays in the table through any sequence of calls |
| AiAlbumTable.RealAiAlbumRepository.constructor | app/src/main/java/com/mardous/booming/data/local/repository/AiAlbumRepository.kt:11-13 | the repository wraps the DAO it is given |
| AiAlbumTable.RealAiAlbumRepository.SaveAlbum | app/src/main/java/com/mardous/booming/data/local/repository/AiAlbumRepository.kt:14 | returns the DAO's insert id unchanged, and the table is changed as by the DAO's insert |
| AiAlbumTable.RealAiAlbumRepository.DeleteOlderThan | app/src/main/java/com/mardous/booming/data/local/repository/AiAlbumRepository.kt:18 | forwards the cutoff unchanged: the table changes as by the DAO's delete |

## Left out

- HTTP transport: the Retrofit and OkHttp setup, the base URL, timeouts and the logging interceptor are I/O. The API call is the parameter `api`.
- JSON decoding with kotlinx.serialization, including `ignoreUnknownKeys` and `isLenient`, is a library call. It is the parameter `decode`, a function from text to a record or a failure.
- The `Float` settings `temperature` and `topP` of `GenerationConfig`: floating point is not modelled.
- Encrypted storage (`MasterKey`, `EncryptedSharedPreferences`) is a platform service. The preferences are a plain map. Exceptions the store might raise are not modelled.
- `DailyAlbumWorker.schedule` and `cancel`, and the Koin injection, are WorkManager and DI plumbing.
- Coroutines and LiveData threading: each view-model operation runs as sequential steps (post Loading, call the service, post the outcome), with no interleaving of concurrent launches.
- The UI files (the player controls view, the Compose controls, their helper and extension, and the album adapter) are views.
- Logging calls do nothing the model can observe.
- Prompt prose: a `Prompt` records which prompt is meant and the values it embeds, not its wording. The two song summaries are modelled exactly.
- `System.currentTimeMillis()` is the `now` parameter of `AiAlbums.NewEntity`.
- Room's threading and its SQL engine are not modelled. The table is a value with the three queries written as functions.
- Tie order of `recentAiAlbums`: SQLite leaves the order of rows with equal `generated_at` unspecified. `AiAlbumTable.ByNewest` fixes one order (insertion order), but no contract depends on it: each holds for any order of ties.
- Text.ToLongOrNull: digits are the ASCII digits only. The JVM also accepts other Unicode decimal digits.
- Regex reading: `\d`, `.` and the line terminators of the LRC patterns are read as java.util.regex reads them, with `\d` the ASCII digits and `.` any character but `\n`, `\r`, `\u0085`, `\u2028` and `\u2029`. Android's ICU-based regex engine may accept non-ASCII digits for `\d` and treats line terminators its own way; the model does not follow ICU.
- The request counter seen through the services: the services, the view-model and the worker call a `Client`, a pure function from a prompt to a result. The `requestCount` bump that `GeminiClient.generateContent` makes after a success is modelled by `GeminiClientModel.GeminiClient.GenerateContent` only, so it is not visible in the view-model's or the worker's contracts, which leave the preferences store unchanged.
- The `getOrElse` chain of the album generator and the metadata enricher is modelled by its evident intent, as the introduction explains, because as written it does not type-check.
- AiAlbumTable.AiAlbumDao.RecentAiAlbums and AiAlbumTable.RealAiAlbumRepository.RecentAiAlbums are read-only functions over the table. What they return is stated by `AiAlbumTable.RecentIsNewestFirst`.
- An exception raised while the worker reads its preferences or runs the generator is not modelled. Only an exception from reading the song library leads to retry.
