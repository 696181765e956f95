/** `ServiceContainer` (src/services/container/service-container.ts): a string-keyed cache of
    service instances, filled on demand by its getters and emptied by `dispose`.

    What matters here is which instance each getter hands out, not what the services do, so
    an instance is an identity (`id`, its position in creation order) and what it was made
    of (`kind`). Where a getter consults the configuration service, `config` is what that
    service's `getConfig()` answers at that moment. The logger is left out. */
module Container {
  import opened Wrappers
  import opened Records
  import Strings

  /** How many characters of a token go into a cache key. */
  const KeyPrefixLength := 8

  /** What an instance was created as. A GitHub service keeps the token it was created with,
      an OTP service its management URL, and a restore workflow the GitHub service it was
      given, if any. */
  datatype Kind =
    | Validation
    | Configuration
    | Crypto
    | Compression
    | Git
    | ApiClient
    | Otp(managementBaseUrl: string)
    | GitHub(token: string)
    | BackupWorkflow
    | RestoreWorkflow(gitHub: Option<Instance>)

  datatype Instance = Instance(id: nat, kind: Kind)

  /** The cache keys. The cache is keyed by their `Name`s, which `NameInjective` shows
      tell them apart, so a `Key` stands for its name. */
  datatype Key =
    | ValidationKey
    | ConfigKey
    | CryptoKey
    | CompressionKey
    | GitKey
    | ApiKey
    | OtpKey
    | BackupKey
    | GitHubKey(tokenPrefix: string)
    | RestoreKey(patPrefix: Option<string>)

  function Name(k: Key): string
  {
    match k
    case ValidationKey => "validation"
    case ConfigKey => "config"
    case CryptoKey => "crypto"
    case CompressionKey => "compression"
    case GitKey => "git"
    case ApiKey => "api"
    case OtpKey => "otp"
    case BackupKey => "backup-workflow"
    case GitHubKey(p) => "github_" + p
    case RestoreKey(p) => if p.Some? then "restore-workflow-" + p.value else "restore-workflow"
  }

  /** `github_${token.substring(0, 8)}`. */
  function GitHubKeyOf(token: string): Key
  {
    GitHubKey(Strings.Prefix(token, KeyPrefixLength))
  }

  /** The restore workflow's key: per 8-character token prefix, or the plain key without a
      token. */
  function RestoreKeyOf(patToken: string): Key
  {
    RestoreKey(if patToken != "" then Some(Strings.Prefix(patToken, KeyPrefixLength)) else None)
  }

  /** No two keys share a name, whatever the tokens: a GitHub key starts with "github_", a
      restore key with "restore-workflow", and neither is the name of a fixed service. */
  lemma NameInjective(k1: Key, k2: Key)
    requires Name(k1) == Name(k2)
    ensures k1 == k2
  {
    var n := Name(k1);
    if k1.GitHubKey? && k2.GitHubKey? {
      assert k1.tokenPrefix == n[7..] == k2.tokenPrefix;
    } else if k1.RestoreKey? && k2.RestoreKey? {
      if k1.patPrefix.Some? && k2.patPrefix.Some? {
        assert k1.patPrefix.value == n[17..] == k2.patPrefix.value;
      } else {
        assert |Name(k1)| != |Name(k2)| || k1 == k2;
      }
    } else {
      assert n[0] == Name(k2)[0];
      assert |n| == |Name(k2)|;
      if |n| >= 7 {
        assert n[1] == Name(k2)[1] && n[2] == Name(k2)[2];
      }
      if |n| == 6 {
        assert n[1] == Name(k2)[1];
      }
    }
  }

  /** Two tokens get the same GitHub service key exactly when their first eight characters
      agree. */
  lemma GitHubKeySharedByPrefix(t1: string, t2: string)
    ensures Name(GitHubKeyOf(t1)) == Name(GitHubKeyOf(t2)) <==>
            Strings.Prefix(t1, KeyPrefixLength) == Strings.Prefix(t2, KeyPrefixLength)
  {
    if Name(GitHubKeyOf(t1)) == Name(GitHubKeyOf(t2)) {
      NameInjective(GitHubKeyOf(t1), GitHubKeyOf(t2));
    }
  }

  /** Restore keys tell tokens apart by their first eight characters, and never coincide
      with the key used without a token. */
  lemma RestoreKeySharedByPrefix(t1: string, t2: string)
    requires t1 != "" && t2 != ""
    ensures Name(RestoreKeyOf(t1)) == Name(RestoreKeyOf(t2)) <==>
            Strings.Prefix(t1, KeyPrefixLength) == Strings.Prefix(t2, KeyPrefixLength)
    ensures Name(RestoreKeyOf(t1)) != Name(RestoreKeyOf(""))
  {
    if Name(RestoreKeyOf(t1)) == Name(RestoreKeyOf(t2)) {
      NameInjective(RestoreKeyOf(t1), RestoreKeyOf(t2));
    }
    if Name(RestoreKeyOf(t1)) == Name(RestoreKeyOf("")) {
      NameInjective(RestoreKeyOf(t1), RestoreKeyOf(""));
    }
  }

  /** The keys of the services both workflows are built from (the configuration service
      brings the validation service with it). */
  const WorkflowKeys := {ConfigKey, ValidationKey, CryptoKey, CompressionKey, GitKey, ApiKey}

  /** The services `initializeServices` initialises, in order. */
  const CoreKeys := [ValidationKey, ConfigKey, CryptoKey, CompressionKey, GitKey, ApiKey]

  /** The secrets `maskSecrets` registers with the logger: the password and the activation
      code, and the restore token when there is one. */
  function Secrets(inputs: ActionInputs): seq<string>
  {
    [inputs.encryptionPassword, inputs.activationCode]
      + if inputs.restoreToken != "" then [inputs.restoreToken] else []
  }

  /** The restore token is masked exactly when it is given; the password and the activation
      code always are. */
  lemma SecretsMaskToken(inputs: ActionInputs)
    ensures inputs.encryptionPassword in Secrets(inputs) && inputs.activationCode in Secrets(inputs)
    ensures inputs.restoreToken != "" ==> inputs.restoreToken in Secrets(inputs)
    ensures |Secrets(inputs)| == 3 <==> inputs.restoreToken != ""
  {
  }

  /** Every entry of `m0` is still in `m1`, unchanged. */
  ghost predicate Keeps(m0: map<Key, Instance>, m1: map<Key, Instance>)
  {
    forall k :: k in m0 ==> k in m1 && m1[k] == m0[k]
  }

  /** The instances `tried` sit in `m` under the first keys of `CoreKeys`. */
  ghost predicate Holds(m: map<Key, Instance>, tried: seq<Instance>)
  {
    |tried| <= |CoreKeys| && forall i :: 0 <= i < |tried| ==> CoreKeys[i] in m && m[CoreKeys[i]] == tried[i]
  }

  ghost predicate AllPass(init: Instance -> Outcome, xs: seq<Instance>)
  {
    forall i :: 0 <= i < |xs| ==> init(xs[i]).Pass?
  }

  /** One more service fetched and about to be initialised: what was recorded is kept, and
      the one before it passed. */
  lemma Tried(start: map<Key, Instance>, m0: map<Key, Instance>, m1: map<Key, Instance>,
               tried: seq<Instance>, s: Instance, init: Instance -> Outcome)
    requires Keeps(start, m0) && |tried| < |CoreKeys| && Holds(m0, tried) && Keeps(m0, m1)
    requires CoreKeys[|tried|] in m1 && m1[CoreKeys[|tried|]] == s
    requires tried != [] ==> AllPass(init, tried[..|tried| - 1]) && init(tried[|tried| - 1]).Pass?
    ensures Keeps(start, m1) && Holds(m1, tried + [s]) && AllPass(init, tried)
    ensures (tried + [s])[..|tried|] == tried
  {
    if tried != [] {
      assert tried == tried[..|tried| - 1] + [tried[|tried| - 1]];
    }
  }

  class ServiceContainer {
    /** The cache. */
    var services: map<Key, Instance>
    /** The id the next instance created gets: instances are numbered in creation order. */
    var next: nat

    /** The cache holds only instances already created. */
    ghost predicate Valid()
      reads this
    {
      forall k :: k in services ==> services[k].id < next
    }

    /** What the cache held is still there, and ids are never reused. */
    twostate predicate Extends()
      reads this
    {
      Keeps(old(services), services) && old(next) <= next
    }

    /** A getter's contract: the instance stored under `key`, the one already cached if
        there was one (and then nothing changes), a new one otherwise; no keys beyond `may`
        are added. */
    twostate predicate Got(key: Key, s: Instance, may: set<Key>)
      reads this
    {
      && Valid()
      && Extends()
      && services.Keys <= old(services).Keys + may
      && key in services && services[key] == s
      && (key in old(services) ==> s == old(services)[key] && services.Keys <= old(services).Keys && next == old(next))
      && (key !in old(services) ==> s.id >= old(next))
    }

    constructor ()
      ensures services == map[] && next == 0 && Valid()
    {
      services := map[];
      next := 0;
    }

    /** Creates an instance and caches it under `key`. */
    method Create(key: Key, kind: Kind) returns (s: Instance)
      requires Valid()
      modifies this
      ensures s == Instance(old(next), kind)
      ensures next == old(next) + 1 && services == old(services)[key := s]
      ensures Valid()
    {
      s := Instance(next, kind);
      next := next + 1;
      services := services[key := s];
    }

    /** A getter for a service with no dependencies. */
    method Fetch(key: Key, kind: Kind) returns (s: Instance)
      requires Valid()
      modifies this
      ensures Got(key, s, {key})
      ensures key !in old(services) ==> s.kind == kind
    {
      if key in services {
        return services[key];
      }
      s := Create(key, kind);
    }

    method GetValidationService() returns (s: Instance)
      requires Valid()
      modifies this
      ensures Got(ValidationKey, s, {ValidationKey})
      ensures ValidationKey !in old(services) ==> s.kind == Validation
    {
      s := Fetch(ValidationKey, Validation);
    }

    /** `getConfigService()`: the validation service is fetched first, only when the
        configuration service is made. */
    method GetConfigService() returns (s: Instance)
      requires Valid()
      modifies this
      ensures Got(ConfigKey, s, {ConfigKey, ValidationKey})
      ensures ConfigKey !in old(services) ==> s.kind == Configuration && ValidationKey in services
    {
      if ConfigKey in services {
        return services[ConfigKey];
      }
      var _ := GetValidationService();
      s := Create(ConfigKey, Configuration);
    }

    method GetCryptoService() returns (s: Instance)
      requires Valid()
      modifies this
      ensures Got(CryptoKey, s, {CryptoKey})
      ensures CryptoKey !in old(services) ==> s.kind == Crypto
    {
      s := Fetch(CryptoKey, Crypto);
    }

    method GetCompressionService() returns (s: Instance)
      requires Valid()
      modifies this
      ensures Got(CompressionKey, s, {CompressionKey})
      ensures CompressionKey !in old(services) ==> s.kind == Compression
    {
      s := Fetch(CompressionKey, Compression);
    }

    method GetGitService() returns (s: Instance)
      requires Valid()
      modifies this
      ensures Got(GitKey, s, {GitKey})
      ensures GitKey !in old(services) ==> s.kind == Git
    {
      s := Fetch(GitKey, Git);
    }

    /** `getApiClient()`: depends on the configuration service. */
    method GetApiClient() returns (s: Instance)
      requires Valid()
      modifies this
      ensures Got(ApiKey, s, {ApiKey, ConfigKey, ValidationKey})
      ensures ApiKey !in old(services) ==> s.kind == ApiClient && ConfigKey in services
    {
      if ApiKey in services {
        return services[ApiKey];
      }
      var _ := GetConfigService();
      s := Create(ApiKey, ApiClient);
    }

    /** `getOtpService()`: fetches the API client, then reads the API settings, which fails
        when the configuration service cannot answer; nothing is cached for the OTP service
        then. */
    method GetOtpService(config: Result<AppConfig>) returns (r: Result<Instance>)
      requires Valid()
      modifies this
      ensures Valid() && Extends()
      ensures services.Keys <= old(services).Keys + {OtpKey, ApiKey, ConfigKey, ValidationKey}
      ensures OtpKey in old(services) ==> r == Ok(old(services)[OtpKey]) && services == old(services) && next == old(next)
      ensures OtpKey !in old(services) && config.Err? ==> r == Err(config.error) && OtpKey !in services
      ensures OtpKey !in old(services) && config.Ok? ==>
        && r.Ok? && OtpKey in services && services[OtpKey] == r.value
        && r.value.kind == Otp(config.value.api.managementBaseUrl) && r.value.id >= old(next)
    {
      if OtpKey in services {
        return Ok(services[OtpKey]);
      }
      var _ := GetApiClient();
      if config.Err? {
        return Err(config.error);
      }
      var s := Create(OtpKey, Otp(config.value.api.managementBaseUrl));
      r := Ok(s);
    }

    /** `getGitHubService(token)`: no service without a token; otherwise one per 8-character
        token prefix, created with the first token that had that prefix. */
    method GetGitHubService(token: string) returns (r: Option<Instance>)
      requires Valid()
      modifies this
      ensures token == "" ==> r.None? && services == old(services) && next == old(next)
      ensures token != "" ==>
        && r.Some? && Valid() && Extends()
        && services.Keys <= old(services).Keys + {GitHubKeyOf(token), ConfigKey, ValidationKey}
        && GitHubKeyOf(token) in services && services[GitHubKeyOf(token)] == r.value
        && (GitHubKeyOf(token) in old(services) ==> r.value == old(services)[GitHubKeyOf(token)])
        && (GitHubKeyOf(token) !in old(services) ==> r.value.kind == GitHub(token) && r.value.id >= old(next))
    {
      if token == "" {
        return None;
      }
      var _ := GetConfigService();
      var key := GitHubKeyOf(token);
      if key in services {
        return Some(services[key]);
      }
      var s := Create(key, GitHub(token));
      r := Some(s);
    }

    /** The services both workflows are built from, fetched in the order the workflow
        constructors take them: configuration, crypto, compression, git, API client. */
    method FetchWorkflowServices()
      requires Valid()
      modifies this
      ensures Valid() && Keeps(old(services), services) && old(next) <= next
      ensures services.Keys <= old(services).Keys + WorkflowKeys
      ensures ConfigKey in services && CryptoKey in services && CompressionKey in services
      ensures GitKey in services && ApiKey in services
    {
      var _ := GetConfigService();
      var _ := GetCryptoService();
      var _ := GetCompressionService();
      var _ := GetGitService();
      var _ := GetApiClient();
    }

    /** `getBackupWorkflowService()`. */
    method GetBackupWorkflowService() returns (s: Instance)
      requires Valid()
      modifies this
      ensures Got(BackupKey, s, WorkflowKeys + {BackupKey})
      ensures BackupKey !in old(services) ==>
        && s.kind == BackupWorkflow
        && ConfigKey in services && CryptoKey in services && CompressionKey in services
        && GitKey in services && ApiKey in services
    {
      if BackupKey in services {
        return services[BackupKey];
      }
      FetchWorkflowServices();
      s := Create(BackupKey, BackupWorkflow);
    }

    /** `getRestoreWorkflowService(patToken)`: cached per token prefix; a new one is given
        the GitHub service for the same token, or none without a token. Nothing is cached
        for it when the OTP service cannot be made (`config` only matters then). */
    method GetRestoreWorkflowService(patToken: string, config: Result<AppConfig>) returns (r: Result<Instance>)
      requires Valid()
      modifies this
      ensures Valid() && Extends()
      ensures RestoreKeyOf(patToken) in old(services) ==>
        r == Ok(old(services)[RestoreKeyOf(patToken)]) && services == old(services) && next == old(next)
      ensures RestoreKeyOf(patToken) !in old(services) && OtpKey !in old(services) && config.Err? ==>
        r == Err(config.error) && RestoreKeyOf(patToken) !in services
      ensures RestoreKeyOf(patToken) !in old(services) && (OtpKey in old(services) || config.Ok?) ==>
        && r.Ok? && RestoreKeyOf(patToken) in services && services[RestoreKeyOf(patToken)] == r.value
        && r.value.id >= old(next)
        && (patToken != "" ==> GitHubKeyOf(patToken) in services)
        && r.value.kind == RestoreWorkflow(if patToken == "" then None else Some(services[GitHubKeyOf(patToken)]))
    {
      var key := RestoreKeyOf(patToken);
      if key in services {
        return Ok(services[key]);
      }
      r := CreateRestoreWorkflowService(patToken, config);
    }

    /** The uncached half of `getRestoreWorkflowService`: the services it depends on are
        fetched, then the workflow is created, with the GitHub service when there is a PAT. */
    method CreateRestoreWorkflowService(patToken: string, config: Result<AppConfig>) returns (r: Result<Instance>)
      requires Valid() && RestoreKeyOf(patToken) !in services
      modifies this
      ensures Valid() && Extends()
      ensures OtpKey !in old(services) && config.Err? ==>
        r == Err(config.error) && RestoreKeyOf(patToken) !in services
      ensures OtpKey in old(services) || config.Ok? ==>
        && r.Ok? && RestoreKeyOf(patToken) in services && services[RestoreKeyOf(patToken)] == r.value
        && r.value.id >= old(next)
        && (patToken != "" ==> GitHubKeyOf(patToken) in services)
        && r.value.kind == RestoreWorkflow(if patToken == "" then None else Some(services[GitHubKeyOf(patToken)]))
    {
      var key := RestoreKeyOf(patToken);
      ghost var m := services;
      FetchWorkflowServices();
      var otp := GetOtpService(config);
      assert services.Keys <= m.Keys + WorkflowKeys + {OtpKey};
      if otp.Err? {
        return Err(otp.error);
      }
      var gitHub := GetGitHubService(patToken);
      var s := Create(key, RestoreWorkflow(gitHub));
      r := Ok(s);
    }

    /** The `i`-th service `initializeServices` fetches, through its getter. */
    method FetchCore(i: nat) returns (s: Instance)
      requires i < |CoreKeys| && Valid()
      modifies this
      ensures Valid() && Keeps(old(services), services) && old(next) <= next
      ensures CoreKeys[i] in services && services[CoreKeys[i]] == s
    {
      if i == 0 {
        s := GetValidationService();
      } else if i == 1 {
        s := GetConfigService();
      } else if i == 2 {
        s := GetCryptoService();
      } else if i == 3 {
        s := GetCompressionService();
      } else if i == 4 {
        s := GetGitService();
      } else {
        s := GetApiClient();
      }
    }

    /** One step of `initializeServices`: fetch the next core service and initialise it. */
    method InitializeNext(init: Instance -> Outcome, done: seq<Instance>, ghost start: map<Key, Instance>)
      returns (r: Outcome, tried: seq<Instance>)
      requires Valid() && |done| < |CoreKeys| && Holds(services, done) && AllPass(init, done)
      requires Keeps(start, services)
      modifies this
      ensures Valid() && Keeps(start, services) && old(next) <= next
      ensures |tried| == |done| + 1 && tried[..|done|] == done
      ensures Holds(services, tried) && AllPass(init, tried[..|done|])
      ensures r == init(tried[|done|])
      ensures r.Pass? ==> AllPass(init, tried)
    {
      ghost var m := services;
      var s := FetchCore(|done|);
      Tried(start, m, services, done, s, init);
      tried := done + [s];
      r := init(s);
    }

    /** `initializeServices()`: validation, configuration, crypto, compression, git and the
        API client are fetched and initialised in that order (`init` says how each
        instance's `initialize()` ends); the first failure stops the sequence and is
        rethrown. */
    method InitializeServices(init: Instance -> Outcome) returns (r: Outcome, tried: seq<Instance>)
      requires Valid()
      modifies this
      ensures Valid() && Extends()
      ensures 1 <= |tried| <= |CoreKeys|
      ensures Holds(services, tried) && AllPass(init, tried[..|tried| - 1])
      ensures r == init(tried[|tried| - 1])
      ensures r.Pass? ==> |tried| == |CoreKeys|
    {
      ghost var start := services;
      r, tried := InitializeNext(init, [], start);
      if r.Fail? { return; }
      r, tried := InitializeNext(init, tried, start);
      if r.Fail? { return; }
      r, tried := InitializeNext(init, tried, start);
      if r.Fail? { return; }
      r, tried := InitializeNext(init, tried, start);
      if r.Fail? { return; }
      r, tried := InitializeNext(init, tried, start);
      if r.Fail? { return; }
      r, tried := InitializeNext(init, tried, start);
    }

    /** `dispose()`: the cache is emptied, so every getter creates afresh. */
    method Dispose()
      requires Valid()
      modifies this
      ensures services == map[] && next == old(next) && Valid()
    {
      services := map[];
    }

    /** `maskSecrets()`: the configuration service is fetched, then its configuration read;
        the secrets registered with the logger are returned. */
    method MaskSecrets(config: Result<AppConfig>) returns (r: Result<seq<string>>)
      requires Valid()
      modifies this
      ensures ConfigKey in services && Got(ConfigKey, services[ConfigKey], {ConfigKey, ValidationKey})
      ensures config.Err? ==> r == Err(config.error)
      ensures config.Ok? ==> r == Ok(Secrets(config.value.inputs))
    {
      var _ := GetConfigService();
      if config.Err? {
        return Err(config.error);
      }
      r := Ok(Secrets(config.value.inputs));
    }
  }

  /** A getter called twice hands out the same instance, and two tokens sharing their first
      eight characters share one GitHub service. */
  method CachedGetters(c: ServiceContainer, t1: string, t2: string) returns (a: Instance, b: Instance, g1: Option<Instance>, g2: Option<Instance>)
    requires c.Valid()
    requires t1 != "" && t2 != "" && Strings.Prefix(t1, KeyPrefixLength) == Strings.Prefix(t2, KeyPrefixLength)
    modifies c
    ensures a == b
    ensures g1.Some? && g1 == g2
  {
    a := c.GetCryptoService();
    b := c.GetCryptoService();
    g1 := c.GetGitHubService(t1);
    g2 := c.GetGitHubService(t2);
  }

  /** After `dispose`, a getter creates a new instance. */
  method DisposeThenGet(c: ServiceContainer) returns (before: Instance, after: Instance)
    requires c.Valid()
    modifies c
    ensures before != after
  {
    before := c.GetGitService();
    c.Dispose();
    after := c.GetGitService();
  }
}
