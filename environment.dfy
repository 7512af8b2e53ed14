/**
 * The outside world the configuration reads from: the process environment
 * (`os.getenv`), the Azure Key Vault reached through `DefaultAzureCredential`
 * and `SecretClient.get_secret`, and the working directory's files
 * (`os.path.exists`, `open` and `json.load`). None of these is modelled
 * in itself; each is an input outcome. `Host` performs the reads and keeps
 * a log of them, so that what was and was not consulted can be stated.
 */
module Environment {
  import opened Options
  import opened PyValues

  /** What fetching one secret from one vault does: returns the secret's `value` (which may be `None`), or raises. */
  datatype Fetch = Returned(value: Option<string>) | Raised

  /**
   * An existing file as the configuration sees it: `open` or `json.load`
   * raises (`Unreadable`), or the file decodes to a document.
   */
  datatype FileState = Unreadable | Loaded(doc: Value)

  /**
   * One state of the outside world: the environment variables, the answer the
   * vault at a URL gives for a secret name, and the files that exist, by path.
   */
  datatype World = World(
    env: map<string, string>,
    keyVault: (string, string) -> Fetch,
    files: map<string, FileState>)

  /** One read of the outside world. */
  datatype Call =
    | EnvRead(name: string)
    | SecretFetch(vaultUrl: string, secretName: string)
    | ExistsCheck(path: string)
    | JsonLoad(path: string)

  /** `os.getenv(name)`: the variable's value, or `None` when it is unset. */
  function EnvLookup(w: World, name: string): Option<string> {
    if name in w.env then Some(w.env[name]) else None
  }

  /** The process's view of a fixed outside world, with the log of every read made of it. */
  class Host {
    const world: World
    var calls: seq<Call>

    constructor (world: World)
      ensures this.world == world && calls == []
    {
      this.world := world;
      calls := [];
    }

    /** `os.getenv(name)`. */
    method Getenv(name: string) returns (v: Option<string>)
      modifies this
      ensures v == EnvLookup(world, name)
      ensures calls == old(calls) + [EnvRead(name)]
    {
      v := EnvLookup(world, name);
      calls := calls + [EnvRead(name)];
    }

    /** Building a credential and a secret client for `vaultUrl` and calling `get_secret(secretName)`. */
    method FetchSecret(vaultUrl: string, secretName: string) returns (r: Fetch)
      modifies this
      ensures r == world.keyVault(vaultUrl, secretName)
      ensures calls == old(calls) + [SecretFetch(vaultUrl, secretName)]
    {
      r := world.keyVault(vaultUrl, secretName);
      calls := calls + [SecretFetch(vaultUrl, secretName)];
    }

    /** `os.path.exists(path)`. */
    method PathExists(path: string) returns (b: bool)
      modifies this
      ensures b <==> path in world.files
      ensures calls == old(calls) + [ExistsCheck(path)]
    {
      b := path in world.files;
      calls := calls + [ExistsCheck(path)];
    }

    /** `open(path)` followed by `json.load`; opening a missing file raises. */
    method LoadJson(path: string) returns (r: FileState)
      modifies this
      ensures r == if path in world.files then world.files[path] else Unreadable
      ensures calls == old(calls) + [JsonLoad(path)]
    {
      r := if path in world.files then world.files[path] else Unreadable;
      calls := calls + [JsonLoad(path)];
    }
  }
}
