/**
 * `AiPreferences`: eight AI settings kept in one key/value store, each under
 * its own key, each read back with a default when the key is absent. The
 * store is a Dafny map from key to stored value; a setter is a `put` or a
 * `remove`, `clearAll` empties the store.
 */
module Preferences {
  import opened Outcomes

  const GeminiApiKeyKey := "gemini_api_key"
  const AiEnabledKey := "ai_enabled"
  const AutoTranslateLyricsKey := "auto_translate_lyrics"
  const AutoSearchLyricsKey := "auto_search_lyrics"
  const AutoFixMetadataKey := "auto_fix_metadata"
  const PreferredTranslateLangKey := "preferred_translate_lang"
  const DailyAlbumEnabledKey := "daily_album_enabled"
  const RequestCountKey := "request_count"

  /** A value as the store keeps it: written with `putString`, `putBoolean` or `putInt`. */
  datatype Stored = StoredString(s: string) | StoredBool(b: bool) | StoredInt(n: Int32)

  type Store = map<string, Stored>

  /** The boolean settings. */
  datatype Flag = AiEnabled | AutoTranslateLyrics | AutoSearchLyrics | AutoFixMetadata | DailyAlbumEnabled

  function FlagKey(f: Flag): string {
    match f
    case AiEnabled => AiEnabledKey
    case AutoTranslateLyrics => AutoTranslateLyricsKey
    case AutoSearchLyrics => AutoSearchLyricsKey
    case AutoFixMetadata => AutoFixMetadataKey
    case DailyAlbumEnabled => DailyAlbumEnabledKey
  }

  /** Every key present holds the kind of value its own setter writes. */
  predicate WellTyped(st: Store) {
    && (GeminiApiKeyKey in st ==> st[GeminiApiKeyKey].StoredString?)
    && (PreferredTranslateLangKey in st ==> st[PreferredTranslateLangKey].StoredString?)
    && (RequestCountKey in st ==> st[RequestCountKey].StoredInt?)
    && (AiEnabledKey in st ==> st[AiEnabledKey].StoredBool?)
    && (AutoTranslateLyricsKey in st ==> st[AutoTranslateLyricsKey].StoredBool?)
    && (AutoSearchLyricsKey in st ==> st[AutoSearchLyricsKey].StoredBool?)
    && (AutoFixMetadataKey in st ==> st[AutoFixMetadataKey].StoredBool?)
    && (DailyAlbumEnabledKey in st ==> st[DailyAlbumEnabledKey].StoredBool?)
  }

  /** All eight settings as the getters return them; the defaults are what an empty store reads as. */
  datatype Settings = Settings(
    geminiApiKey: Option<string> := None,
    isAiEnabled: bool := false,
    autoTranslateLyrics: bool := false,
    autoSearchLyrics: bool := false,
    autoFixMetadata: bool := false,
    preferredTranslateLang: string := "en",
    dailyAlbumEnabled: bool := false,
    requestCount: Int32 := 0)

  /** `getBoolean(key, false)`. */
  function FlagOf(st: Store, f: Flag): bool
    requires WellTyped(st)
  {
    if FlagKey(f) in st then st[FlagKey(f)].b else false
  }

  /** What every getter returns on the store `st`. */
  function View(st: Store): Settings
    requires WellTyped(st)
  {
    Settings(
      geminiApiKey := if GeminiApiKeyKey in st then Some(st[GeminiApiKeyKey].s) else None,
      isAiEnabled := FlagOf(st, AiEnabled),
      autoTranslateLyrics := FlagOf(st, AutoTranslateLyrics),
      autoSearchLyrics := FlagOf(st, AutoSearchLyrics),
      autoFixMetadata := FlagOf(st, AutoFixMetadata),
      preferredTranslateLang := if PreferredTranslateLangKey in st then st[PreferredTranslateLangKey].s else "en",
      dailyAlbumEnabled := FlagOf(st, DailyAlbumEnabled),
      requestCount := if RequestCountKey in st then st[RequestCountKey].n else 0)
  }

  /** `Settings` with one flag replaced. */
  function SetFlagIn(v: Settings, f: Flag, b: bool): Settings {
    match f
    case AiEnabled => v.(isAiEnabled := b)
    case AutoTranslateLyrics => v.(autoTranslateLyrics := b)
    case AutoSearchLyrics => v.(autoSearchLyrics := b)
    case AutoFixMetadata => v.(autoFixMetadata := b)
    case DailyAlbumEnabled => v.(dailyAlbumEnabled := b)
  }

  /** `isConfigured()`: a key is stored and it is not empty. */
  function IsConfiguredIn(st: Store): bool
    requires WellTyped(st)
  {
    var key := View(st).geminiApiKey;
    key.Some? && key.value != ""
  }

  // ------------------------------------------------------------ the setters

  /** The `geminiApiKey` setter: `null` or `""` removes the key, anything else is stored. */
  function WithGeminiApiKey(st: Store, value: Option<string>): Store {
    if value.None? || value.value == "" then st - {GeminiApiKeyKey}
    else st[GeminiApiKeyKey := StoredString(value.value)]
  }

  function WithFlag(st: Store, f: Flag, b: bool): Store {
    st[FlagKey(f) := StoredBool(b)]
  }

  function WithPreferredTranslateLang(st: Store, lang: string): Store {
    st[PreferredTranslateLangKey := StoredString(lang)]
  }

  function WithRequestCount(st: Store, n: Int32): Store {
    st[RequestCountKey := StoredInt(n)]
  }

  // ---------------------------------------------------- what the setters do

  /** The eight keys differ even in length, so each setting lives apart from the others. */
  lemma KeyLengths()
    ensures |GeminiApiKeyKey| == 14 && |AiEnabledKey| == 10 && |AutoTranslateLyricsKey| == 21
    ensures |AutoSearchLyricsKey| == 18 && |AutoFixMetadataKey| == 17 && |PreferredTranslateLangKey| == 24
    ensures |DailyAlbumEnabledKey| == 19 && |RequestCountKey| == 13
  {
  }

  /** Reading through `View` only looks at the eight keys. */
  lemma ViewOfSameKeys(st: Store, st': Store, changed: string)
    requires WellTyped(st) && WellTyped(st')
    requires forall k :: k != changed ==> (k in st <==> k in st') && (k in st ==> st[k] == st'[k])
    ensures changed != GeminiApiKeyKey ==> View(st').geminiApiKey == View(st).geminiApiKey
    ensures changed != PreferredTranslateLangKey ==> View(st').preferredTranslateLang == View(st).preferredTranslateLang
    ensures changed != RequestCountKey ==> View(st').requestCount == View(st).requestCount
    ensures forall f :: changed != FlagKey(f) ==> FlagOf(st', f) == FlagOf(st, f)
  {
  }

  /**
   * Setting the key to `null` or `""` makes the getter return `null`; any
   * other value is returned as set. No other setting changes.
   */
  lemma GeminiApiKeySetGet(st: Store, value: Option<string>)
    requires WellTyped(st)
    ensures WellTyped(WithGeminiApiKey(st, value))
    ensures View(WithGeminiApiKey(st, value))
      == View(st).(geminiApiKey := if value.None? || value.value == "" then None else value)
  {
    if value.None? || value.value == "" {
      GeminiApiKeyRemoved(st);
    } else {
      GeminiApiKeyStored(st, value.value);
    }
  }

  lemma GeminiApiKeyRemoved(st: Store)
    requires WellTyped(st)
    ensures WellTyped(st - {GeminiApiKeyKey})
    ensures View(st - {GeminiApiKeyKey}) == View(st).(geminiApiKey := None)
  {
    KeyLengths();
    ViewOfSameKeys(st, st - {GeminiApiKeyKey}, GeminiApiKeyKey);
  }

  lemma GeminiApiKeyStored(st: Store, key: string)
    requires WellTyped(st)
    ensures WellTyped(st[GeminiApiKeyKey := StoredString(key)])
    ensures View(st[GeminiApiKeyKey := StoredString(key)]) == View(st).(geminiApiKey := Some(key))
  {
    KeyLengths();
    ViewOfSameKeys(st, st[GeminiApiKeyKey := StoredString(key)], GeminiApiKeyKey);
  }

  /** After the key is set, the AI counts as configured exactly when the value set was a non-empty string. */
  lemma ConfiguredAfterSettingKey(st: Store, value: Option<string>)
    requires WellTyped(st)
    ensures WellTyped(WithGeminiApiKey(st, value))
    ensures IsConfiguredIn(WithGeminiApiKey(st, value)) <==> value.Some? && value.value != ""
  {
    GeminiApiKeySetGet(st, value);
  }

  /** A flag reads back as set; no other setting changes. */
  lemma FlagSetGet(st: Store, f: Flag, b: bool)
    requires WellTyped(st)
    ensures WellTyped(WithFlag(st, f, b))
    ensures View(WithFlag(st, f, b)) == SetFlagIn(View(st), f, b)
  {
    var st' := WithFlag(st, f, b);
    FlagKeepsWellTyped(st, f, b);
    KeyLengths();
    ViewOfSameKeys(st, st', FlagKey(f));
    assert FlagOf(st', f) == b;
  }

  lemma FlagKeepsWellTyped(st: Store, f: Flag, b: bool)
    requires WellTyped(st)
    ensures WellTyped(WithFlag(st, f, b))
  {
    KeyLengths();
    match f {
      case AiEnabled =>
      case AutoTranslateLyrics =>
      case AutoSearchLyrics =>
      case AutoFixMetadata =>
      case DailyAlbumEnabled =>
    }
  }

  lemma PreferredTranslateLangSetGet(st: Store, lang: string)
    requires WellTyped(st)
    ensures WellTyped(WithPreferredTranslateLang(st, lang))
    ensures View(WithPreferredTranslateLang(st, lang)) == View(st).(preferredTranslateLang := lang)
  {
    KeyLengths();
    ViewOfSameKeys(st, WithPreferredTranslateLang(st, lang), PreferredTranslateLangKey);
  }

  lemma RequestCountSetGet(st: Store, n: Int32)
    requires WellTyped(st)
    ensures WellTyped(WithRequestCount(st, n))
    ensures View(WithRequestCount(st, n)) == View(st).(requestCount := n)
  {
    KeyLengths();
    ViewOfSameKeys(st, WithRequestCount(st, n), RequestCountKey);
  }

  /** An empty store, as `clearAll` leaves it, reads as every default: no key, every flag off, language "en", count 0. */
  lemma ClearedReadsDefaults()
    ensures WellTyped(map[])
    ensures View(map[]) == Settings()
    ensures View(map[]).geminiApiKey == None && !IsConfiguredIn(map[])
    ensures !View(map[]).isAiEnabled && !View(map[]).dailyAlbumEnabled
    ensures View(map[]).preferredTranslateLang == "en" && View(map[]).requestCount == 0
  {
  }

  /**
   * The store as the class reaches it through its setters: it is
   * well typed and never holds an empty key. `isConfigured()` is then the
   * same as "a key is stored".
   */
  lemma ConfiguredIffKeyStored(st: Store)
    requires WellTyped(st)
    requires GeminiApiKeyKey in st ==> st[GeminiApiKeyKey].s != ""
    ensures IsConfiguredIn(st) <==> GeminiApiKeyKey in st
  {
  }

  // ----------------------------------------------------------- the object

  class AiPreferences {
    var store: Store

    ghost predicate Valid()
      reads this
    {
      WellTyped(store)
    }

    /** Opens the preferences file, whose saved contents are `saved`. */
    constructor(saved: Store)
      requires WellTyped(saved)
      ensures Valid() && store == saved
    {
      store := saved;
    }

    /** The stored key, or `null` when none is stored. */
    function GeminiApiKey(): (k: Option<string>)
      reads this
      requires Valid()
      ensures k.Some? <==> GeminiApiKeyKey in store
      ensures k.Some? ==> k.value == store[GeminiApiKeyKey].s
    {
      View(store).geminiApiKey
    }

    method SetGeminiApiKey(value: Option<string>)
      requires Valid()
      modifies this
      ensures Valid()
      ensures store == WithGeminiApiKey(old(store), value)
      ensures View(store) == View(old(store)).(geminiApiKey := if value.None? || value.value == "" then None else value)
    {
      GeminiApiKeySetGet(store, value);
      if value.None? || value.value == "" {
        store := store - {GeminiApiKeyKey};
      } else {
        store := store[GeminiApiKeyKey := StoredString(value.value)];
      }
    }

    /** The stored flag, or `false` when none is stored. */
    function Flag(f: Flag): (b: bool)
      reads this
      requires Valid()
      ensures b <==> FlagKey(f) in store && store[FlagKey(f)].b
    {
      FlagOf(store, f)
    }

    /** The setter of `isAiEnabled`, `autoTranslateLyrics`, `autoSearchLyrics`, `autoFixMetadata` or `dailyAlbumEnabled`. */
    method SetFlag(f: Flag, b: bool)
      requires Valid()
      modifies this
      ensures Valid()
      ensures store == WithFlag(old(store), f, b)
      ensures View(store) == SetFlagIn(View(old(store)), f, b)
    {
      FlagSetGet(store, f, b);
      store := store[FlagKey(f) := StoredBool(b)];
    }

    /** The stored language, or `"en"` when none is stored. */
    function PreferredTranslateLang(): (lang: string)
      reads this
      requires Valid()
      ensures PreferredTranslateLangKey in store ==> lang == store[PreferredTranslateLangKey].s
      ensures PreferredTranslateLangKey !in store ==> lang == "en"
    {
      View(store).preferredTranslateLang
    }

    method SetPreferredTranslateLang(lang: string)
      requires Valid()
      modifies this
      ensures Valid()
      ensures store == WithPreferredTranslateLang(old(store), lang)
      ensures View(store) == View(old(store)).(preferredTranslateLang := lang)
    {
      PreferredTranslateLangSetGet(store, lang);
      store := store[PreferredTranslateLangKey := StoredString(lang)];
    }

    /** The stored count, or 0 when none is stored. */
    function RequestCount(): (n: Int32)
      reads this
      requires Valid()
      ensures RequestCountKey in store ==> n == store[RequestCountKey].n
      ensures RequestCountKey !in store ==> n == 0
    {
      View(store).requestCount
    }

    method SetRequestCount(n: Int32)
      requires Valid()
      modifies this
      ensures Valid()
      ensures store == WithRequestCount(old(store), n)
      ensures View(store) == View(old(store)).(requestCount := n)
    {
      RequestCountSetGet(store, n);
      store := store[RequestCountKey := StoredInt(n)];
    }

    /** `isConfigured()`: a non-empty key is stored. */
    function IsConfigured(): (c: bool)
      reads this
      requires Valid()
      ensures c <==> GeminiApiKey().Some? && GeminiApiKey().value != ""
    {
      IsConfiguredIn(store)
    }

    method ClearAll()
      modifies this
      ensures Valid()
      ensures store == map[]
      ensures View(store) == Settings()
    {
      ClearedReadsDefaults();
      store := map[];
    }
  }
}
