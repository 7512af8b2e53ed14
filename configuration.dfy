/**
 * The configuration object and its resolution of the YouTube API key. The
 * key is looked for in three places in a fixed order (the Key Vault named
 * by `AZURE_KEY_VAULT_URL`, the environment variable `YOUTUBE_API_KEY`, the
 * `youtube_api_key` entry of `settings.json`), each assignment going into
 * the one field, and the search stops at the first truthy value.
 *
 * `Resolved` and `Consulted` specify, for a given outside world, the value
 * the field ends with and the reads made; `Config` is the imperative object,
 * proved against them; `Offers` and `Chain` give an independent, declarative
 * reading of the same chain.
 */
module Configuration {
  import opened Options
  import opened PyValues
  import opened Environment

  /** The environment variable that names the vault. */
  const KeyVaultUrlVar := "AZURE_KEY_VAULT_URL"
  /** The name of the secret asked of the vault. */
  const SecretName := "YouTubeApiKey"
  /** The environment variable holding the key directly. */
  const ApiKeyVar := "YOUTUBE_API_KEY"
  /** The local settings file, relative to the working directory. */
  const SettingsPath := "settings.json"
  /** The one entry of the settings file that is used. */
  const SettingsKey := "youtube_api_key"

  // ---------------------------------------------------------------------
  // The sources, one by one

  /** The vault's secret, with any failure of the fetch mapped to `None`. */
  function SecretOrNone(f: Fetch): Option<string> {
    match f
    case Returned(v) => v
    case Raised => None
  }

  /** The vault is tried only when `AZURE_KEY_VAULT_URL` is set to a non-empty string. */
  predicate KeyVaultConfigured(w: World) {
    var url := EnvLookup(w, KeyVaultUrlVar);
    url.Some? && url.value != ""
  }

  function KeyVaultUrl(w: World): string
    requires KeyVaultConfigured(w)
  {
    EnvLookup(w, KeyVaultUrlVar).value
  }

  /** What the vault assigns to the field when it is tried. */
  function VaultValue(w: World): Value
    requires KeyVaultConfigured(w)
  {
    FromOptional(SecretOrNone(w.keyVault(KeyVaultUrl(w), SecretName)))
  }

  /** The vault is tried and gives a truthy value, which ends the search. */
  predicate VaultWins(w: World) {
    KeyVaultConfigured(w) && Truthy(VaultValue(w))
  }

  /** What the environment lookup assigns to the field: a string or `None`. */
  function EnvValue(w: World): Value {
    FromOptional(EnvLookup(w, ApiKeyVar))
  }

  /**
   * What the settings file assigns to the field, if anything: only a file
   * that exists, loads, and decodes to an object gets as far as the
   * assignment. A missing `youtube_api_key` entry assigns `None`.
   */
  function SettingsEntry(w: World): Option<Value> {
    if SettingsPath in w.files && w.files[SettingsPath].Loaded? && w.files[SettingsPath].doc.Dict?
    then Some(DictGet(w.files[SettingsPath].doc.entries, SettingsKey))
    else None
  }

  // ---------------------------------------------------------------------
  // The resolution, as functions of the outside world

  /** The value `youtube_api_key` holds once resolution has run against `w`. */
  function Resolved(w: World): Value {
    if VaultWins(w) then VaultValue(w)
    else if Truthy(EnvValue(w)) then EnvValue(w)
    else match SettingsEntry(w)
      case Some(entry) => entry
      case None => EnvValue(w)
  }

  /** The reads of the outside world that resolution against `w` makes, in order. */
  function Consulted(w: World): seq<Call> {
    [EnvRead(KeyVaultUrlVar)]
    + (if KeyVaultConfigured(w) then [SecretFetch(KeyVaultUrl(w), SecretName)] else [])
    + (if VaultWins(w) then [] else
         [EnvRead(ApiKeyVar)]
         + (if Truthy(EnvValue(w)) then [] else
              [ExistsCheck(SettingsPath)]
              + (if SettingsPath in w.files then [JsonLoad(SettingsPath)] else [])))
  }

  // ---------------------------------------------------------------------
  // A declarative reading: the values each source would assign, in priority
  // order, written into one field until one of them is truthy

  /** The values the sources offer in priority order, each only if it gets as far as assigning. */
  function Offers(w: World): seq<Value>
  {
    (if KeyVaultConfigured(w) then [VaultValue(w)] else [])
    + [EnvValue(w)]
    + (match SettingsEntry(w) case Some(entry) => [entry] case None => [])
  }

  /**
   * The value a field that starts as `init` ends with when each of `offers`
   * is assigned to it in turn and the walk stops after the first truthy one:
   * it is always the initial value or one of the offers.
   */
  function Chain(init: Value, offers: seq<Value>): (r: Value)
    ensures r == init || r in offers
    ensures offers != [] ==> r in offers
    decreases offers
  {
    if offers == [] then init
    else if Truthy(offers[0]) then offers[0]
    else Chain(offers[0], offers[1..])
  }

  // ---------------------------------------------------------------------
  // The imperative object

  /** The configuration object; its one field is the resolved key. */
  class Config {
    var youtubeApiKey: Value

    /** A new configuration starts with the key `None` and resolves it once. */
    constructor (host: Host)
      modifies host
      ensures youtubeApiKey == Resolved(host.world)
      ensures host.calls == old(host.calls) + Consulted(host.world)
    {
      youtubeApiKey := Null;
      new;
      LoadYouTubeApiKey(host);
    }

    /**
     * Tries the vault, then the environment, then the settings file, each
     * assignment going into `youtubeApiKey` and the first truthy one ending
     * the search. Every failure is treated as "nothing here"; nothing is raised.
     * The final value does not depend on the value the field held before.
     */
    method LoadYouTubeApiKey(host: Host)
      modifies this, host
      ensures youtubeApiKey == Resolved(host.world)
      ensures host.calls == old(host.calls) + Consulted(host.world)
    {
      var keyVaultUrl := host.Getenv(KeyVaultUrlVar);
      if keyVaultUrl.Some? && keyVaultUrl.value != "" {
        var secret := GetSecretFromKeyVault(host, keyVaultUrl.value, SecretName);
        youtubeApiKey := FromOptional(secret);
        if Truthy(youtubeApiKey) {
          return;
        }
      }
      var apiKey := host.Getenv(ApiKeyVar);
      youtubeApiKey := FromOptional(apiKey);
      if Truthy(youtubeApiKey) {
        return;
      }
      var settingsExist := host.PathExists(SettingsPath);
      if settingsExist {
        var loaded := host.LoadJson(SettingsPath);
        if loaded.Loaded? && loaded.doc.Dict? {
          youtubeApiKey := DictGet(loaded.doc.entries, SettingsKey);
          if Truthy(youtubeApiKey) {
            return;
          }
        }
      }
    }

    /** Fetches one secret from the vault at `keyVaultUrl`; any failure gives `None` and is not raised. */
    method GetSecretFromKeyVault(host: Host, keyVaultUrl: string, secretName: string) returns (secret: Option<string>)
      modifies host
      ensures host.world.keyVault(keyVaultUrl, secretName).Raised? ==> secret == None
      ensures host.world.keyVault(keyVaultUrl, secretName).Returned? ==> secret == host.world.keyVault(keyVaultUrl, secretName).value
      ensures host.calls == old(host.calls) + [SecretFetch(keyVaultUrl, secretName)]
    {
      var reply := host.FetchSecret(keyVaultUrl, secretName);
      secret := SecretOrNone(reply);
    }
  }

  /**
   * The application's module-level configuration, built once when the module
   * is loaded: the key is resolved exactly once, and the reads made are
   * exactly one run of the chain.
   */
  method ModuleConfig(w: World) returns (config: Config, host: Host)
    ensures host.world == w
    ensures config.youtubeApiKey == Resolved(w)
    ensures host.calls == Consulted(w)
  {
    host := new Host(w);
    config := new Config(host);
  }
}
