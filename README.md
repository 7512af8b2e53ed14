# YouTube API key resolution — a Dafny model

The service is a small FastAPI application that serves YouTube transcripts.
Its one piece of decision logic is the `Config` object, which resolves a
YouTube API key once, when the application module is loaded. It tries three
sources in a fixed order, assigning each result to the one field
`youtube_api_key` and stopping at the first truthy value:

1. Azure Key Vault, only when `AZURE_KEY_VAULT_URL` is set to a non-empty
   string; the secret asked for is `YouTubeApiKey`, and any failure of the
   fetch becomes `None`;
2. the environment variable `YOUTUBE_API_KEY`, assigned whatever it is;
3. the `youtube_api_key` entry of `settings.json`, when that file exists and
   decodes to a JSON object; any failure to read or decode it is swallowed.

When no source is truthy, the field keeps the last value assigned, which can
be `None`, `""` or another falsy JSON value.

## Layout

- `options.dfy` (`Options`): `Option`, for `str | None` results.
- `values.dfy` (`PyValues`): the Python values the field can hold and
  Python's truthiness test.
- `environment.dfy` (`Environment`): the outside world as an input. `World`
  holds the environment variables, the vault's answer for each URL and
  secret name, and the files by path. `Host` performs the reads and logs
  each one as a `Call`, so the model can say which sources were consulted.
- `configuration.dfy` (`Configuration`): the fixed names, one specification
  function per source, `Resolved` (the final value of the field) and
  `Consulted` (the reads made, in order) as functions of the world, the
  declarative reading `Offers`/`Chain`, and the `Config` class proved
  against them.
- `properties.dfy` (`ResolutionProperties`): priority order,
  short-circuiting, fall-through and the "last assigned" quirk, as lemmas.

The code has no cache, no environment-variable name derived from the
secret name, no source tag, no cached settings file and no locking, and the
model adds none. Each source uses its own fixed name, and resolution runs
once, when the object is constructed.

## Model

| member | source | states |
|---|---|---|
| `Configuration.Config.constructor` | main.py:46-50 | resolution runs once: the final key is `Resolved(world)` whatever the field held before, so the initial `None` is never visible afterwards, and the log grows by exactly one run of `Consulted(world)` |
| `Configuration.Config.LoadYouTubeApiKey` | main.py:52-83 | tries the vault, then the environment, then the settings file, with early returns. The field ends as `Resolved(world)` whatever it held before, and the reads made are exactly `Consulted(world)`. Nothing is raised |
| `Configuration.Config.GetSecretFromKeyVault` | main.py:85-94 | one fetch of the named secret from the vault at the URL. A returned value (possibly `None`) is passed on, and a failure becomes `None` without being raised |
| `Configuration.ModuleConfig` | main.py:97 | the module-level configuration: built once against a fresh log, its key is `Resolved(world)` and the log holds exactly `Consulted(world)` |
| `Configuration.Chain` | main.py:58-79 | assigning values in turn and stopping at the first truthy one leaves the initial value or one of the assigned values. After at least one assignment, it is always an assigned value |
| `ResolutionProperties.ChainTruthyIff` | main.py:59-79 | after at least one assignment, the field is truthy exactly when some assigned value was truthy |
| `ResolutionProperties.ChainFirstTruthy` | main.py:59-79 | the field ends with the first truthy value assigned |
| `ResolutionProperties.ChainNoneTruthy` | main.py:66-83 | when nothing assigned is truthy, the field keeps the last value assigned |
| `ResolutionProperties.ResolvedIsChain` | main.py:52-83 | the resolved key equals the declarative chain over `Offers` (the vault's value when the vault is configured, then the environment value, then the settings entry when the file decodes to an object): the first truthy offer in priority order, or else the last offer |
| `ResolutionProperties.ResolvedTruthyIff` | main.py:52-83 | the resolved key is truthy exactly when some source offers a truthy value |
| `ResolutionProperties.ConsultedIsPrefixOfPriorityOrder` | main.py:54-79 | the reads made are a prefix of the fixed order (vault URL, vault, environment, file check, file load). They are the whole order exactly when neither the vault nor the environment was truthy |
| `ResolutionProperties.ConsultedNamesAreFixed` | main.py:56-76 | each read uses its hardcoded name (`AZURE_KEY_VAULT_URL`, `YouTubeApiKey`, `YOUTUBE_API_KEY`, `settings.json`), and the vault is asked at the configured URL |
| `ResolutionProperties.KeyVaultOnlyWhenConfigured` | main.py:56-58 | the vault is fetched exactly when `AZURE_KEY_VAULT_URL` is set and non-empty, right after that variable is read, and at most once |
| `ResolutionProperties.VaultShortCircuits` | main.py:58-61 | a truthy vault secret is the result, and nothing after the vault is read |
| `ResolutionProperties.VaultFailureIsNone` | main.py:87-94 | a failed fetch assigns `None`, which does not end the search |
| `ResolutionProperties.WithoutVault` | main.py:56-57 | removing `AZURE_KEY_VAULT_URL` from the environment switches the vault off |
| `ResolutionProperties.VaultFailureFallsThrough` | main.py:58-69 | a vault that is tried and gives nothing truthy leaves the same result and the same later reads as a world with no vault configured |
| `ResolutionProperties.EnvironmentShortCircuits` | main.py:66-69 | once the vault gave nothing, a truthy environment value is the result, it is the last read, and the settings file is neither checked nor opened |
| `ResolutionProperties.EnvironmentOverwritesVault` | main.py:58-69 | the environment value is assigned unconditionally. When the file assigns nothing, it is the result even if it is `None` or `""`, and a falsy vault value does not survive |
| `ResolutionProperties.SettingsReadOnlyIfExists` | main.py:72-75 | the file is checked exactly when the earlier sources gave nothing, and opened exactly when it also exists |
| `ResolutionProperties.SettingsEntryIsLastWord` | main.py:76-79 | once reached, a settings object's `youtube_api_key` entry is the result whether truthy or not, and a missing entry gives `None` |
| `ResolutionProperties.OnlySettingsKeyIsUsed` | main.py:76 | two settings objects that agree on `youtube_api_key` give the same result |
| `ResolutionProperties.BadSettingsKeepEnvironmentValue` | main.py:72-81 | a settings file that is missing, unreadable, undecodable, or not an object leaves the environment value in place |
| `ResolutionProperties.NothingTruthyKeepsLastAssigned` | main.py:66-83 | when no source is truthy the key is falsy and is the last value assigned: the settings entry for an object, otherwise the environment value |
| `ResolutionProperties.EmptyEnvironmentValueIsKept` | main.py:66-83 | `YOUTUBE_API_KEY=""` and no settings file resolve to `""`, not to an absent value |
| `ResolutionProperties.EmptyVaultSecretIsOverwritten` | main.py:58-66 | a vault answering `""` with `YOUTUBE_API_KEY` unset resolves to `None` |
| `ResolutionProperties.FalsySettingsEntryIsKept` | main.py:76-83 | a settings entry `false` resolves to `False` |

## Left out

- The FastAPI application, its router, CORS middleware, the health, debug, OpenAPI, docs and redoc endpoints, and the `uvicorn` start-up (main.py:20-37, 99-170): HTTP plumbing with constant responses.
- `DefaultAzureCredential`, `SecretClient` and `get_secret` (main.py:88-91): foreign network and identity calls. Each (URL, secret name) pair has one outcome in `World.keyVault`: a returned value, or a raise.
- The file system and `json.load` (main.py:73-75): a file is absent, or it exists and is `Unreadable` (the open or the decoding raises), or it is `Loaded` with its decoded document. JSON parsing is not modelled.
- The value of a JSON float: only whether Python treats it as non-zero is kept, because truthiness is all the resolution looks at.
- `load_dotenv` (main.py:14): before `Config()` runs, it copies the entries of a `.env` file into the process environment without overriding variables already set. `World.env` is the environment after that merge; reading `.env` is not modelled.
- Logging (main.py:17-18 and every `logger` call): side effects with no bearing on the result. A logger failure is the only thing the outer `try` at main.py:54-63 could catch, so in the model nothing inside it raises.
- Exceptions that are not `Exception` subclasses, such as `KeyboardInterrupt`, are not caught by the source and are not modelled.
- The environment and the file system are fixed for the whole run, so the file cannot disappear between `os.path.exists` and `open`. A file that does disappear would read as `Unreadable`, which `Host.LoadJson` gives for a missing path.
