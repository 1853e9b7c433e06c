/** The plugin's three settings, their defaults, and how persisted data is laid over the
    defaults when the plugin loads (main.ts:4-14, 139-141). */
module PluginSettings {
  import opened Wrappers

  datatype Settings = Settings(apiUrl: string, apiKey: string, importFolder: string)

  /** What the host hands back from its settings store: each field may be missing. A
      store holding nothing at all is `None` at the call of LoadSettings. */
  datatype SavedData = SavedData(apiUrl: Option<string>, apiKey: Option<string>, importFolder: Option<string>)

  const DefaultApiUrl: string := "http://localhost:8080"
  const DefaultApiKey: string := ""
  const DefaultImportFolder: string := "Sekha Conversations"

  const DefaultSettings: Settings := Settings(DefaultApiUrl, DefaultApiKey, DefaultImportFolder)

  /** Saved data holding no field. */
  const NoSavedFields: SavedData := SavedData(None, None, None)

  /** `Object.assign({}, DEFAULT_SETTINGS, data)`: a field present in `data` replaces the
      default, every other field keeps its default. */
  function LoadSettings(data: Option<SavedData>): (s: Settings)
    ensures data.None? ==> s == DefaultSettings
    ensures data.Some? && data.value.apiUrl.Some? ==> s.apiUrl == data.value.apiUrl.value
    ensures data.Some? && data.value.apiKey.Some? ==> s.apiKey == data.value.apiKey.value
    ensures data.Some? && data.value.importFolder.Some? ==> s.importFolder == data.value.importFolder.value
    ensures (data.None? || data.value.apiUrl.None?) ==> s.apiUrl == DefaultApiUrl
    ensures (data.None? || data.value.apiKey.None?) ==> s.apiKey == DefaultApiKey
    ensures (data.None? || data.value.importFolder.None?) ==> s.importFolder == DefaultImportFolder
  {
    var d := data.ValueOr(NoSavedFields);
    Settings(
      d.apiUrl.ValueOr(DefaultSettings.apiUrl),
      d.apiKey.ValueOr(DefaultSettings.apiKey),
      d.importFolder.ValueOr(DefaultSettings.importFolder))
  }

  /** What `saveData(this.settings)` persists: every field, present. */
  function Saved(s: Settings): (d: SavedData)
    ensures d.apiUrl.Some? && d.apiKey.Some? && d.importFolder.Some?
  {
    SavedData(Some(s.apiUrl), Some(s.apiKey), Some(s.importFolder))
  }

  /** Loading what was saved gives back the saved settings. */
  lemma LoadSavedRoundTrip(s: Settings)
    ensures LoadSettings(Some(Saved(s))) == s
  {
  }

  /** Loading nothing, or an empty object, gives exactly the defaults. */
  lemma LoadEmptyIsDefault()
    ensures LoadSettings(None) == DefaultSettings
    ensures LoadSettings(Some(NoSavedFields)) == DefaultSettings
  {
  }

  /** Saved data carrying only an API key changes only the API key. */
  lemma LoadOnlyApiKey(key: string)
    ensures LoadSettings(Some(SavedData(None, Some(key), None))) == DefaultSettings.(apiKey := key)
  {
  }
}
