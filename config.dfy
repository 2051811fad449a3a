/** The application settings (config/settings.py). The two API keys are read
    from the environment by `Settings.__init__`; here they are parameters. */
module Config {
  import opened Wrappers

  datatype Settings = Settings(
    geminiApiKey: Option<string>,
    openaiApiKey: Option<string>,
    defaultGeminiModel: string,
    defaultOpenaiModel: string,
    maxHistoryLength: int,
    maxTokens: int,
    defaultMarkdown: bool,
    refreshRate: int)

  const NoApiKeysError := "No API keys found! Please set GEMINI_API_KEY or OPENAI_API_KEY"

  /** Python truthiness of an optional key: present and not empty. */
  predicate IsSet(key: Option<string>) {
    key.Some? && key.value != ""
  }

  /** `Settings()`: the environment's keys and the fixed defaults. */
  function NewSettings(geminiApiKey: Option<string>, openaiApiKey: Option<string>): (s: Settings)
    ensures s.geminiApiKey == geminiApiKey && s.openaiApiKey == openaiApiKey
    ensures s.defaultGeminiModel == "gemini-2.0-flash" && s.defaultOpenaiModel == "gpt-4o"
    ensures s.maxHistoryLength == 20 && s.maxTokens == 2000
    ensures s.defaultMarkdown && s.refreshRate == 10
  {
    Settings(geminiApiKey, openaiApiKey, "gemini-2.0-flash", "gpt-4o", 20, 2000, true, 10)
  }

  /** `validate_api_keys`: passes exactly when at least one key is set, and
      otherwise fails with the ValueError's message. */
  function ValidateApiKeys(s: Settings): (r: Outcome<string>)
    ensures r.Pass? <==> IsSet(s.geminiApiKey) || IsSet(s.openaiApiKey)
    ensures r.Fail? ==> r.error == NoApiKeysError
  {
    if !IsSet(s.geminiApiKey) && !IsSet(s.openaiApiKey) then Fail(NoApiKeysError) else Pass
  }
}
