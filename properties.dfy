/**
 * What the resolution chain promises, stated about the specification
 * functions `Resolved` and `Consulted` that `Config.LoadYouTubeApiKey` is
 * proved against: priority order, short-circuiting, fall-through on
 * failure, and the value left behind when no source gives a truthy one.
 */
module ResolutionProperties {
  import opened Options
  import opened PyValues
  import opened Environment
  import opened Configuration

  // ---------------------------------------------------------------------
  // The chain of assignments, in general

  /** After at least one assignment, the field is truthy exactly when some assigned value is. */
  lemma {:induction false} ChainTruthyIff(init: Value, offers: seq<Value>)
    requires offers != []
    ensures Truthy(Chain(init, offers)) <==> exists i :: 0 <= i < |offers| && Truthy(offers[i])
    decreases offers
  {
    if !Truthy(offers[0]) && |offers| > 1 {
      ChainTruthyIff(offers[0], offers[1..]);
      assert forall i :: 1 <= i < |offers| ==> offers[i] == offers[1..][i - 1];
    }
  }

  /** The first truthy offer is the one the field ends with. */
  lemma {:induction false} ChainFirstTruthy(init: Value, offers: seq<Value>, i: nat)
    requires i < |offers| && Truthy(offers[i])
    requires forall j :: 0 <= j < i ==> !Truthy(offers[j])
    ensures Chain(init, offers) == offers[i]
    decreases offers
  {
    if i > 0 {
      ChainFirstTruthy(offers[0], offers[1..], i - 1);
    }
  }

  /** When no offer is truthy, the field keeps the last one assigned. */
  lemma {:induction false} ChainNoneTruthy(init: Value, offers: seq<Value>)
    requires offers != []
    requires forall i :: 0 <= i < |offers| ==> !Truthy(offers[i])
    ensures Chain(init, offers) == offers[|offers| - 1]
    decreases offers
  {
    if |offers| > 1 {
      ChainNoneTruthy(offers[0], offers[1..]);
    }
  }

  // ---------------------------------------------------------------------
  // The resolution against its declarative reading

  /** The resolved key is the first truthy value offered in priority order, else the last one offered. */
  lemma ResolvedIsChain(w: World)
    ensures Resolved(w) == Chain(Null, Offers(w))
  {
    var offers := Offers(w);
    if exists i :: 0 <= i < |offers| && Truthy(offers[i]) {
      var i :| 0 <= i < |offers| && Truthy(offers[i]) && forall j :: 0 <= j < i ==> !Truthy(offers[j]);
      ChainFirstTruthy(Null, offers, i);
    } else {
      ChainNoneTruthy(Null, offers);
    }
  }

  /** The resolved key is truthy exactly when some source offers a truthy value. */
  lemma ResolvedTruthyIff(w: World)
    ensures Truthy(Resolved(w)) <==> exists v :: v in Offers(w) && Truthy(v)
  {
    ResolvedIsChain(w);
    ChainTruthyIff(Null, Offers(w));
  }

  // ---------------------------------------------------------------------
  // Which reads are made, and in which order

  /** Every read the resolution could make, in the order it makes them, as if no source gave a truthy value. */
  function AllReads(w: World): seq<Call> {
    [EnvRead(KeyVaultUrlVar)]
    + (if KeyVaultConfigured(w) then [SecretFetch(KeyVaultUrl(w), SecretName)] else [])
    + [EnvRead(ApiKeyVar), ExistsCheck(SettingsPath)]
    + (if SettingsPath in w.files then [JsonLoad(SettingsPath)] else [])
  }

  /**
   * The reads made are always a prefix of the full priority order: a truthy
   * value only cuts off the later sources. They are the whole order exactly
   * when neither the vault nor the environment gave a truthy value.
   */
  lemma ConsultedIsPrefixOfPriorityOrder(w: World)
    ensures Consulted(w) <= AllReads(w)
    ensures Consulted(w) == AllReads(w) <==> !VaultWins(w) && !Truthy(EnvValue(w))
  {
  }

  /** Each source is read under its own fixed name, and the vault is asked with the configured URL. */
  lemma ConsultedNamesAreFixed(w: World)
    ensures forall c :: c in Consulted(w) ==>
      match c
      case EnvRead(name) => name == KeyVaultUrlVar || name == ApiKeyVar
      case SecretFetch(url, secret) => KeyVaultConfigured(w) && url == KeyVaultUrl(w) && secret == SecretName
      case ExistsCheck(path) => path == SettingsPath
      case JsonLoad(path) => path == SettingsPath
  {
  }

  /** The vault is asked exactly when `AZURE_KEY_VAULT_URL` is set and non-empty, and at most once. */
  lemma KeyVaultOnlyWhenConfigured(w: World)
    ensures (exists c :: c in Consulted(w) && c.SecretFetch?) <==> KeyVaultConfigured(w)
    ensures KeyVaultConfigured(w) ==> Consulted(w)[1] == SecretFetch(KeyVaultUrl(w), SecretName)
    ensures Consulted(w)[0] == EnvRead(KeyVaultUrlVar)
    ensures forall i :: 0 <= i < |Consulted(w)| && Consulted(w)[i].SecretFetch? ==> i == 1
  {
    if KeyVaultConfigured(w) {
      assert Consulted(w)[1].SecretFetch?;
    }
  }

  // ---------------------------------------------------------------------
  // Source by source

  /** A truthy secret from the vault is the result, and neither the environment nor the file is read. */
  lemma VaultShortCircuits(w: World)
    requires KeyVaultConfigured(w)
    requires Truthy(VaultValue(w))
    ensures Resolved(w) == VaultValue(w)
    ensures Consulted(w) == [EnvRead(KeyVaultUrlVar), SecretFetch(KeyVaultUrl(w), SecretName)]
  {
  }

  /** A failed fetch is mapped to `None`: it never escapes, and it counts as a falsy answer. */
  lemma VaultFailureIsNone(w: World)
    requires KeyVaultConfigured(w)
    requires w.keyVault(KeyVaultUrl(w), SecretName).Raised?
    ensures VaultValue(w) == Null
    ensures !VaultWins(w)
  {
  }

  /** The world `w` with `AZURE_KEY_VAULT_URL` unset. */
  function WithoutVault(w: World): (r: World)
    ensures !KeyVaultConfigured(r)
  {
    w.(env := w.env - {KeyVaultUrlVar})
  }

  /**
   * When the vault is tried and gives nothing truthy (a failure, `None` or an
   * empty string), resolution falls through: the result and the remaining reads
   * are those of a world with no vault configured.
   */
  lemma VaultFailureFallsThrough(w: World)
    requires KeyVaultConfigured(w)
    requires !Truthy(VaultValue(w))
    ensures Resolved(w) == Resolved(WithoutVault(w))
    ensures Consulted(w) == [EnvRead(KeyVaultUrlVar), SecretFetch(KeyVaultUrl(w), SecretName)] + Consulted(WithoutVault(w))[1..]
  {
    assert KeyVaultUrlVar != ApiKeyVar;
    assert EnvLookup(WithoutVault(w), ApiKeyVar) == EnvLookup(w, ApiKeyVar);
  }

  /**
   * Once the vault has given nothing, a truthy environment value is the result
   * and the settings file is neither checked nor opened.
   */
  lemma EnvironmentShortCircuits(w: World)
    requires !VaultWins(w)
    requires Truthy(EnvValue(w))
    ensures Resolved(w) == EnvValue(w)
    ensures Consulted(w)[|Consulted(w)| - 1] == EnvRead(ApiKeyVar)
    ensures forall c :: c in Consulted(w) ==> !c.ExistsCheck? && !c.JsonLoad?
  {
  }

  /**
   * The environment value is assigned whatever it is: when the settings file
   * assigns nothing, the result is the environment value even if it is `None`
   * or empty, and a falsy value the vault gave earlier never survives.
   */
  lemma EnvironmentOverwritesVault(w: World)
    requires !VaultWins(w)
    requires SettingsEntry(w).None?
    ensures Resolved(w) == EnvValue(w)
  {
  }

  /** The settings file is checked only after both earlier sources gave nothing, and opened only if it exists. */
  lemma SettingsReadOnlyIfExists(w: World)
    ensures ExistsCheck(SettingsPath) in Consulted(w) <==> !VaultWins(w) && !Truthy(EnvValue(w))
    ensures JsonLoad(SettingsPath) in Consulted(w) <==> !VaultWins(w) && !Truthy(EnvValue(w)) && SettingsPath in w.files
  {
  }

  /** Once reached, a settings object's `youtube_api_key` entry is the result, truthy or not. */
  lemma SettingsEntryIsLastWord(w: World, entries: map<string, Value>)
    requires !VaultWins(w) && !Truthy(EnvValue(w))
    requires SettingsPath in w.files && w.files[SettingsPath] == Loaded(Dict(entries))
    ensures Resolved(w) == DictGet(entries, SettingsKey)
    ensures SettingsKey !in entries ==> Resolved(w) == Null
  {
  }

  /** Only the `youtube_api_key` entry of the settings object matters; every other entry is ignored. */
  lemma OnlySettingsKeyIsUsed(w: World, entries: map<string, Value>, other: map<string, Value>)
    requires SettingsPath in w.files && w.files[SettingsPath] == Loaded(Dict(entries))
    requires DictGet(other, SettingsKey) == DictGet(entries, SettingsKey)
    ensures Resolved(w.(files := w.files[SettingsPath := Loaded(Dict(other))])) == Resolved(w)
  {
  }

  /**
   * A settings file that is missing, cannot be opened or decoded, or decodes to
   * something other than an object changes nothing: the environment value stays.
   */
  lemma BadSettingsKeepEnvironmentValue(w: World)
    requires !VaultWins(w)
    requires SettingsPath !in w.files || w.files[SettingsPath].Unreadable? || !w.files[SettingsPath].doc.Dict?
    ensures Resolved(w) == EnvValue(w)
  {
  }

  /**
   * When no source gives a truthy value the field is falsy and holds the last
   * value assigned: the settings entry if the file decoded to an object,
   * otherwise the environment value. It is not reset to a clean "absent".
   */
  lemma NothingTruthyKeepsLastAssigned(w: World)
    requires forall v :: v in Offers(w) ==> !Truthy(v)
    ensures !Truthy(Resolved(w))
    ensures Resolved(w) == Offers(w)[|Offers(w)| - 1]
    ensures Resolved(w) == match SettingsEntry(w) case Some(entry) => entry case None => EnvValue(w)
  {
    ResolvedTruthyIff(w);
    ResolvedIsChain(w);
    ChainNoneTruthy(Null, Offers(w));
  }

  // ---------------------------------------------------------------------
  // The "last assigned" value, on concrete worlds

  /** A vault that never answers. */
  function Unreachable(url: string, name: string): Fetch { Raised }

  /** `YOUTUBE_API_KEY` set to the empty string and no settings file: the key ends as `""`, not `None`. */
  lemma EmptyEnvironmentValueIsKept()
    ensures Resolved(World(map[ApiKeyVar := ""], Unreachable, map[])) == Str("")
  {
  }

  /** A vault that answers `""`, and no `YOUTUBE_API_KEY`: the vault's `""` is overwritten by `None`. */
  lemma EmptyVaultSecretIsOverwritten()
    ensures Resolved(World(map[KeyVaultUrlVar := "https://vault"], (url: string, name: string) => Returned(Some("")), map[])) == Null
  {
    var w := World(map[KeyVaultUrlVar := "https://vault"], (url: string, name: string) => Returned(Some("")), map[]);
    assert KeyVaultUrlVar != ApiKeyVar;
    assert EnvLookup(w, ApiKeyVar) == None;
  }

  /** A settings object whose entry is `false`: the key ends as `False`. */
  lemma FalsySettingsEntryIsKept()
    ensures Resolved(World(map[], Unreachable, map[SettingsPath := Loaded(Dict(map[SettingsKey := Bool(false)]))])) == Bool(false)
  {
  }
}
