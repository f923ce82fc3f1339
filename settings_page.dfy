/**
 * The settings page: loading the stored profile over the page's defaults, and cleaning the API-key
 * dictionary before it is saved.
 */
module SettingsPage {
  import opened Wrappers
  import opened Text

  /** The model choices of the page. */
  const Providers: seq<string> := ["deepseek", "claude", "grok", "qwen"]

  /** The key dictionary the page starts with: an empty key for every provider. */
  const DefaultKeys: map<string, string> := map["deepseek" := "", "claude" := "", "grok" := "", "qwen" := ""]

  datatype PageState = PageState(defaultModel: string, nsfw: bool, apiKeys: map<string, string>)

  /** The state before the profile is loaded. */
  const InitialState: PageState := PageState("deepseek", false, DefaultKeys)

  /** A stored profile row: a null or empty model, a null flag, and the key JSON when it is an object. */
  datatype Profile = Profile(defaultLlmModel: Option<string>, nsfwEnabled: Option<bool>, apiKeysJson: Option<map<string, string>>)

  /** `fetchProfile`: no row leaves the state as it is; otherwise the model falls back to "deepseek",
      the flag to false, and the stored keys are spread over the current ones. */
  function LoadProfile(prev: PageState, data: Option<Profile>): (r: PageState)
    ensures data.None? ==> r == prev
    ensures data.Some? ==> r.nsfw == (data.value.nsfwEnabled == Some(true))
    ensures data.Some? && (data.value.defaultLlmModel.None? || data.value.defaultLlmModel == Some("")) ==> r.defaultModel == "deepseek"
    ensures data.Some? && data.value.defaultLlmModel.Some? && data.value.defaultLlmModel.value != "" ==> r.defaultModel == data.value.defaultLlmModel.value
  {
    match data
    case None => prev
    case Some(p) =>
      var model := if p.defaultLlmModel.Some? && p.defaultLlmModel.value != "" then p.defaultLlmModel.value else "deepseek";
      var nsfw := p.nsfwEnabled.Some? && p.nsfwEnabled.value;
      var keys := if p.apiKeysJson.Some? then prev.apiKeys + p.apiKeysJson.value else prev.apiKeys;
      PageState(model, nsfw, keys)
  }

  /** After loading, a stored key wins, and any other key keeps its previous value. */
  lemma LoadedKeys(prev: PageState, p: Profile, k: string)
    ensures p.apiKeysJson.Some? && k in p.apiKeysJson.value ==>
              k in LoadProfile(prev, Some(p)).apiKeys && LoadProfile(prev, Some(p)).apiKeys[k] == p.apiKeysJson.value[k]
    ensures (p.apiKeysJson.None? || k !in p.apiKeysJson.value) ==>
              (k in LoadProfile(prev, Some(p)).apiKeys <==> k in prev.apiKeys) &&
              (k in prev.apiKeys ==> LoadProfile(prev, Some(p)).apiKeys[k] == prev.apiKeys[k])
  {
  }

  /** Every provider has a key entry after loading, "" when none was stored. */
  lemma ProvidersKeepDefaults(p: Profile, k: string)
    requires k in Providers
    ensures k in LoadProfile(InitialState, Some(p)).apiKeys
    ensures (p.apiKeysJson.None? || k !in p.apiKeysJson.value) ==> LoadProfile(InitialState, Some(p)).apiKeys[k] == ""
  {
  }

  /** The dictionary `handleSave` sends: the non-blank values, trimmed. */
  function CleanKeys(keys: map<string, string>): map<string, string> {
    map k | k in keys && Trim(keys[k]) != "" :: Trim(keys[k])
  }

  /** The saved keys are input keys whose values are non-blank and trimmed, and no non-blank input
      value is dropped. */
  lemma CleanKeysSpec(keys: map<string, string>)
    ensures forall k :: k in CleanKeys(keys) ==> k in keys
    ensures forall k :: k in keys ==> (k in CleanKeys(keys) <==> Trim(keys[k]) != "")
    ensures forall k :: k in CleanKeys(keys) ==> CleanKeys(keys)[k] == Trim(keys[k])
    ensures forall k :: k in CleanKeys(keys) ==> Trim(CleanKeys(keys)[k]) == CleanKeys(keys)[k] != ""
  {
    forall k | k in CleanKeys(keys) {
      TrimIdempotent(keys[k]);
    }
  }

  /** Cleaning an already cleaned dictionary changes nothing. */
  lemma CleanKeysIdempotent(keys: map<string, string>)
    ensures CleanKeys(CleanKeys(keys)) == CleanKeys(keys)
  {
    CleanKeysSpec(keys);
  }

  /** The `for ... of Object.entries(apiKeys)` loop of `handleSave`. */
  method FilterKeys(apiKeys: map<string, string>) returns (filteredKeys: map<string, string>)
    ensures filteredKeys == CleanKeys(apiKeys)
  {
    filteredKeys := map[];
    var remaining := apiKeys.Keys;
    while remaining != {}
      invariant remaining <= apiKeys.Keys
      invariant filteredKeys == map k | k in apiKeys && k !in remaining && Trim(apiKeys[k]) != "" :: Trim(apiKeys[k])
      decreases remaining
    {
      var k :| k in remaining;
      var v := apiKeys[k];
      if Trim(v) != "" {
        filteredKeys := filteredKeys[k := Trim(v)];
      }
      remaining := remaining - {k};
    }
  }

  /** What `handleSave` writes to the profile row. */
  datatype SavedProfile = SavedProfile(defaultLlmModel: string, nsfwEnabled: bool, apiKeysJson: map<string, string>)

  method Save(state: PageState) returns (row: SavedProfile)
    ensures row == SavedProfile(state.defaultModel, state.nsfw, CleanKeys(state.apiKeys))
  {
    var filteredKeys := FilterKeys(state.apiKeys);
    row := SavedProfile(state.defaultModel, state.nsfw, filteredKeys);
  }
}
