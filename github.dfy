/** `GitHubService` (src/services/github/github.service.ts): suspending and resuming the
    repository's GitHub Actions around a restore, and the repository details sent when the
    repository is activated.

    The REST client is an oracle: an `ActionsApi` says how a request settles given every step
    taken before it (requests and waits), so a retry may see a different answer than the
    attempt before it. The permissions file is a `StateStore` shared by every service that
    names the same path; its JSON encoding is not modelled, a file that cannot be read or
    parsed is simply absent. Logging is left out. */
module GitHub {
  import opened Wrappers
  import opened Records
  import Strings
  import Base
  import Config

  const ClassName := "GitHubService"
  const DefaultStatePath := "/tmp/actions_permissions.json"
  /** Milliseconds waited between two retries of a failed resume. */
  const RetryDelay := 2000
  const MaxRetries := 3

  const NoClientForActions := "GitHub token not available for Actions management"
  const NoClient := "GitHub token not available"
  const NoClientForDetails := "GitHub token not available to get repository details"
  const SuspendContext := "Failed to suspend GitHub Actions"
  const GetContext := "Failed to get GitHub Actions permissions"
  const SetContext := "Failed to set GitHub Actions permissions"
  const RepoContext := "Failed to get repository information"
  const DetailsContext := "Failed to get repository activation details"
  const DefaultRunnerOs := "Linux"
  const DefaultIp := "127.0.0.1"

  /** What the service does against the GitHub API, in order: the three requests it makes,
      and the pauses between retries. */
  datatype Step =
    | GetPermissions
    | SetPermissions(enabled: bool, allowedActions: Option<string>)
    | GetRepository
    | Wait(ms: nat)

  /** How a request settles after the given steps: the permissions read for
      `GetPermissions`, and for the other requests only whether they succeeded. */
  type ActionsApi = (seq<Step>, Step) -> Result<Permissions>

  /** `setActionsPermissions(p)` sends `enabled` and `allowed_actions` only; the URL of the
      selected actions is never written back. */
  function SetCall(p: Permissions): (s: Step)
    ensures s.SetPermissions? && s.enabled == p.enabled && s.allowedActions == p.allowedActions
  {
    SetPermissions(p.enabled, p.allowedActions)
  }

  /** `setActionsPermissions({ enabled: true })`. */
  const EnableCall := SetCall(EnabledPermissions)

  /** The permissions file at `path`, if there is one that can be read. */
  function Stored(saved: map<string, SuspensionState>, path: string): Option<SuspensionState>
  {
    if path in saved then Some(saved[path]) else None
  }

  /** What `resumeActions` applies: the saved original permissions, or Actions enabled with
      defaults when no state was found. */
  function RestoreTarget(state: Option<SuspensionState>): Permissions
  {
    if state.Some? then state.value.originalPermissions else EnabledPermissions
  }

  /** The retry loop of `resumeActions` from attempt `attempt` on: enable Actions, stop at
      the first success, and wait `RetryDelay` between two attempts, at most `MaxRetries`
      attempts in all. */
  function Retries(api: ActionsApi, before: seq<Step>, attempt: nat): seq<Step>
    decreases MaxRetries + 1 - attempt
  {
    if attempt > MaxRetries then []
    else if api(before, EnableCall).Ok? then [EnableCall]
    else if attempt < MaxRetries then
      [EnableCall, Wait(RetryDelay)] + Retries(api, before + [EnableCall, Wait(RetryDelay)], attempt + 1)
    else [EnableCall]
  }

  /** The retry loop alternates enabling and waiting, starts and ends with an attempt, makes
      no more attempts than remain, every attempt but the last one failed, and the last one
      succeeded unless every remaining attempt was made. */
  lemma {:induction false} RetriesShape(api: ActionsApi, before: seq<Step>, attempt: nat)
    requires 1 <= attempt <= MaxRetries
    ensures var r := Retries(api, before, attempt);
      && |r| % 2 == 1
      && |r| <= 2 * (MaxRetries - attempt) + 1
      && (forall i :: 0 <= i < |r| ==> r[i] == if i % 2 == 0 then EnableCall else Wait(RetryDelay))
      && (forall i :: 0 <= i < |r| - 1 && i % 2 == 0 ==> api(before + r[..i], r[i]).Err?)
      && (api(before + r[..|r| - 1], EnableCall).Ok? || |r| == 2 * (MaxRetries - attempt) + 1)
    decreases MaxRetries + 1 - attempt
  {
    var r := Retries(api, before, attempt);
    if api(before, EnableCall).Ok? || attempt == MaxRetries {
      assert r == [EnableCall];
      assert before + r[..0] == before;
    } else {
      var next := before + [EnableCall, Wait(RetryDelay)];
      var rest := Retries(api, next, attempt + 1);
      RetriesShape(api, next, attempt + 1);
      assert r == [EnableCall, Wait(RetryDelay)] + rest;
      forall i | 2 <= i < |r|
        ensures r[i] == rest[i - 2] && before + r[..i] == next + rest[..i - 2]
      {
        assert r[..i] == [EnableCall, Wait(RetryDelay)] + rest[..i - 2];
      }
      assert before + r[..0] == before;
    }
  }

  /** The saved permissions files, by path; shared between service instances. */
  class StateStore {
    var saved: map<string, SuspensionState>

    constructor ()
      ensures saved == map[]
    {
      saved := map[];
    }
  }

  class GitHubService {
    /** The REST client exists exactly when a token was given. */
    const hasClient: bool
    const owner: string
    const repo: string
    const filePath: string
    const store: StateStore
    const configService: Config.ConfigService
    /** The runner's environment (`RUNNER_OS`, `RUNNER_IP`). */
    const env: map<string, string>
    const api: ActionsApi
    var initialized: bool
    /** The in-memory suspension state. */
    var suspensionState: Option<SuspensionState>
    /** Every step taken against the API, oldest first. */
    var steps: seq<Step>

    /** `new GitHubService(logger, token, owner, repo, configService, path)`. */
    constructor (token: string, owner: string, repo: string, configService: Config.ConfigService,
                 filePath: string, store: StateStore, env: map<string, string>, api: ActionsApi)
      ensures hasClient == (token != "")
      ensures this.owner == owner && this.repo == repo && this.filePath == filePath
      ensures this.store == store && this.configService == configService
      ensures this.env == env && this.api == api
      ensures !initialized && suspensionState.None? && steps == []
    {
      hasClient := token != "";
      this.owner := owner;
      this.repo := repo;
      this.filePath := filePath;
      this.store := store;
      this.configService := configService;
      this.env := env;
      this.api := api;
      initialized := false;
      suspensionState := None;
      steps := [];
    }

    /** `initialize()`: the hook only warns when there is no client, so it always succeeds. */
    method Initialize() returns (r: Outcome)
      modifies this
      ensures r == Pass && initialized
      ensures suspensionState == old(suspensionState) && steps == old(steps)
    {
      initialized := true;
      r := Pass;
    }

    /** `getActionsPermissions()`. */
    method GetActionsPermissions() returns (r: Result<Permissions>)
      modifies this
      ensures !initialized ==> r == Err(Base.NotInitializedMessage(ClassName)) && steps == old(steps)
      ensures initialized && !hasClient ==> r == Err(NoClient) && steps == old(steps)
      ensures initialized && hasClient ==>
        var got := api(old(steps), GetPermissions);
        && steps == old(steps) + [GetPermissions]
        && (got.Ok? ==> r == got)
        && (got.Err? ==> r == Err(Base.Wrapped(GetContext, got.error)))
      ensures initialized == old(initialized) && suspensionState == old(suspensionState)
    {
      if !initialized {
        return Err(Base.NotInitializedMessage(ClassName));
      }
      if !hasClient {
        return Err(NoClient);
      }
      var got := api(steps, GetPermissions);
      steps := steps + [GetPermissions];
      if got.Err? {
        return Err(Base.Wrapped(GetContext, got.error));
      }
      r := got;
    }

    /** `setActionsPermissions(p)`. */
    method SetActionsPermissions(p: Permissions) returns (r: Outcome)
      modifies this
      ensures !initialized ==> r == Fail(Base.NotInitializedMessage(ClassName)) && steps == old(steps)
      ensures initialized && !hasClient ==> r == Fail(NoClient) && steps == old(steps)
      ensures initialized && hasClient ==>
        var done := api(old(steps), SetCall(p));
        && steps == old(steps) + [SetCall(p)]
        && (done.Ok? ==> r == Pass)
        && (done.Err? ==> r == Fail(Base.Wrapped(SetContext, done.error)))
      ensures initialized == old(initialized) && suspensionState == old(suspensionState)
    {
      if !initialized {
        return Fail(Base.NotInitializedMessage(ClassName));
      }
      if !hasClient {
        return Fail(NoClient);
      }
      var done := api(steps, SetCall(p));
      steps := steps + [SetCall(p)];
      if done.Err? {
        return Fail(Base.Wrapped(SetContext, done.error));
      }
      r := Pass;
    }

    /** `suspendActions()`: read the permissions, keep them in memory, save them to the file
        (`write` is how writing it ends; `now` the time stamp), then disable Actions. A
        failure after the guard and the token check is reported under `SuspendContext`; the
        in-memory state stays set once the permissions were read. */
    method SuspendActions(now: string, write: Outcome) returns (r: Outcome)
      modifies this, store
      ensures !initialized ==> r == Fail(Base.NotInitializedMessage(ClassName))
      ensures initialized && !hasClient ==> r == Fail(NoClientForActions)
      ensures !(initialized && hasClient) ==>
        steps == old(steps) && suspensionState == old(suspensionState) && store.saved == old(store.saved)
      ensures initialized && hasClient ==>
        var got := api(old(steps), GetPermissions);
        if got.Err? then
          && r == Fail(Base.Wrapped(SuspendContext, Base.Wrapped(GetContext, got.error)))
          && steps == old(steps) + [GetPermissions]
          && suspensionState == old(suspensionState) && store.saved == old(store.saved)
        else
          var state := SuspensionState(got.value, now, filePath);
          && suspensionState == Some(state)
          && if write.Fail? then
               && r == Fail(Base.Wrapped(SuspendContext, write.error))
               && steps == old(steps) + [GetPermissions] && store.saved == old(store.saved)
             else
               var done := api(old(steps) + [GetPermissions], SetCall(DisabledPermissions));
               && steps == old(steps) + [GetPermissions, SetCall(DisabledPermissions)]
               && store.saved == old(store.saved)[filePath := state]
               && (done.Ok? ==> r == Pass)
               && (done.Err? ==> r == Fail(Base.Wrapped(SuspendContext, Base.Wrapped(SetContext, done.error))))
      ensures initialized == old(initialized)
    {
      if !initialized {
        return Fail(Base.NotInitializedMessage(ClassName));
      }
      if !hasClient {
        return Fail(NoClientForActions);
      }
      var current := GetActionsPermissions();
      if current.Err? {
        return Fail(Base.Wrapped(SuspendContext, current.error));
      }
      suspensionState := Some(SuspensionState(current.value, now, filePath));
      if write.Fail? {
        return Fail(Base.Wrapped(SuspendContext, write.error));
      }
      store.saved := store.saved[filePath := suspensionState.value];
      var disabled := SetActionsPermissions(DisabledPermissions);
      if disabled.Fail? {
        return Fail(Base.Wrapped(SuspendContext, disabled.error));
      }
      r := Pass;
    }

    /** `resumeActions()`: apply the saved permissions (from memory, else from the file, else
        Actions enabled), then remove the file (`unlinkOk` says whether that works) and forget
        the state. If applying fails, retry enabling Actions; the operation never fails after
        the guard, and without a client it does nothing. */
    method ResumeActions(unlinkOk: bool) returns (r: Outcome)
      modifies this, store
      ensures !initialized ==> r == Fail(Base.NotInitializedMessage(ClassName))
      ensures initialized ==> r == Pass
      ensures !(initialized && hasClient) ==>
        steps == old(steps) && suspensionState == old(suspensionState) && store.saved == old(store.saved)
      ensures initialized && hasClient ==>
        var state := if old(suspensionState).Some? then old(suspensionState) else Stored(old(store.saved), filePath);
        var first := SetCall(RestoreTarget(state));
        if api(old(steps), first).Ok? then
          && steps == old(steps) + [first]
          && suspensionState.None?
          && store.saved == if unlinkOk then old(store.saved) - {filePath} else old(store.saved)
        else
          && steps == old(steps) + [first] + Retries(api, old(steps) + [first], 1)
          && suspensionState == old(suspensionState) && store.saved == old(store.saved)
      ensures initialized == old(initialized)
    {
      if !initialized {
        return Fail(Base.NotInitializedMessage(ClassName));
      }
      if !hasClient {
        return Pass;
      }
      var state := suspensionState;
      if state.None? {
        state := Stored(store.saved, filePath);
      }
      var applied := SetActionsPermissions(RestoreTarget(state));
      if applied.Pass? {
        if unlinkOk {
          store.saved := store.saved - {filePath};
        }
        suspensionState := None;
        return Pass;
      }
      RetryEnable();
      r := Pass;
    }

    /** The retry loop of `resumeActions`. */
    method RetryEnable()
      requires initialized && hasClient
      modifies this
      ensures steps == old(steps) + Retries(api, old(steps), 1)
      ensures initialized == old(initialized) && suspensionState == old(suspensionState)
    {
      var attempt := 1;
      while attempt <= MaxRetries
        invariant 1 <= attempt <= MaxRetries + 1
        invariant steps + Retries(api, steps, attempt) == old(steps) + Retries(api, old(steps), 1)
        invariant initialized == old(initialized) && suspensionState == old(suspensionState)
        decreases MaxRetries + 1 - attempt
      {
        ghost var before := steps;
        var done := SetActionsPermissions(EnabledPermissions);
        if done.Pass? {
          return;
        }
        if attempt < MaxRetries {
          steps := steps + [Wait(RetryDelay)];
          assert steps == before + [EnableCall, Wait(RetryDelay)];
        }
        attempt := attempt + 1;
      }
    }

    /** `areActionsEnabled()`: whether the permissions say enabled; when they cannot be read,
        for whatever reason, Actions are assumed enabled. */
    method AreActionsEnabled() returns (b: bool)
      modifies this
      ensures !(initialized && hasClient) ==> b && steps == old(steps)
      ensures initialized && hasClient ==>
        var got := api(old(steps), GetPermissions);
        steps == old(steps) + [GetPermissions] && b == (got.Err? || got.value.enabled)
      ensures initialized == old(initialized) && suspensionState == old(suspensionState)
    {
      var got := GetActionsPermissions();
      if got.Err? {
        return true;
      }
      b := got.value.enabled;
    }

    /** `getRepositoryInfo()`, of which only the repository's numeric id is used; `reply` is
        how the request settles. */
    method GetRepositoryInfo(reply: Result<nat>) returns (r: Result<nat>)
      modifies this
      ensures !initialized ==> r == Err(Base.NotInitializedMessage(ClassName)) && steps == old(steps)
      ensures initialized && !hasClient ==> r == Err(NoClient) && steps == old(steps)
      ensures initialized && hasClient ==>
        && steps == old(steps) + [GetRepository]
        && (reply.Ok? ==> r == reply)
        && (reply.Err? ==> r == Err(Base.Wrapped(RepoContext, reply.error)))
      ensures initialized == old(initialized) && suspensionState == old(suspensionState)
    {
      if !initialized {
        return Err(Base.NotInitializedMessage(ClassName));
      }
      if !hasClient {
        return Err(NoClient);
      }
      steps := steps + [GetRepository];
      if reply.Err? {
        return Err(Base.Wrapped(RepoContext, reply.error));
      }
      r := reply;
    }

    /** `getRepositoryActivationDetails()`: the guard, then the configuration (whose error is
        not wrapped), then the token check, then the repository's id. */
    method GetRepositoryActivationDetails(reply: Result<nat>) returns (r: Result<ActivationDetails>)
      modifies this
      ensures !initialized ==> r == Err(Base.NotInitializedMessage(ClassName))
      ensures initialized && configService.GetConfig().Err? ==> r == Err(configService.GetConfig().error)
      ensures initialized && configService.GetConfig().Ok? && !hasClient ==> r == Err(NoClientForDetails)
      ensures !(initialized && configService.GetConfig().Ok? && hasClient) ==> steps == old(steps)
      ensures initialized && configService.GetConfig().Ok? && hasClient ==>
        && steps == old(steps) + [GetRepository]
        && (reply.Ok? ==> r == Ok(Activation(reply.value, env, configService.GetConfig().value, repo)))
        && (reply.Err? ==> r == Err(Base.Wrapped(DetailsContext, Base.Wrapped(RepoContext, reply.error))))
      ensures initialized == old(initialized) && suspensionState == old(suspensionState)
    {
      if !initialized {
        return Err(Base.NotInitializedMessage(ClassName));
      }
      var config := configService.GetConfig();
      if config.Err? {
        return Err(config.error);
      }
      if !hasClient {
        return Err(NoClientForDetails);
      }
      var info := GetRepositoryInfo(reply);
      if info.Err? {
        return Err(Base.Wrapped(DetailsContext, info.error));
      }
      r := Ok(Activation(info.value, env, config.value, repo));
    }
  }

  /** The operating system reported for `RUNNER_OS` (unset or empty counts as "Linux"):
      anything the runner does not name as Windows or macOS is reported as Linux. */
  function OperatingSystemOf(runnerOs: string): OperatingSystem
  {
    var name := if runnerOs == "" then DefaultRunnerOs else runnerOs;
    if name == "Windows" then Windows
    else if name == "macOS" then MacOS
    else Linux
  }

  /** The name a GitHub runner gives each operating system in `RUNNER_OS`. */
  function RunnerOsName(os: OperatingSystem): string
  {
    match os
    case Linux => "Linux"
    case Windows => "Windows"
    case MacOS => "macOS"
  }

  /** The mapping recognises every runner name, and sends everything else to Linux. */
  lemma OperatingSystemOfNames(os: OperatingSystem, runnerOs: string)
    ensures OperatingSystemOf(RunnerOsName(os)) == os
    ensures runnerOs !in {"Windows", "macOS"} ==> OperatingSystemOf(runnerOs) == Linux
  {
  }

  /** The details sent when the repository is activated. */
  function Activation(id: nat, env: map<string, string>, config: AppConfig, repo: string): (d: ActivationDetails)
    ensures d.uniqueId == Strings.NatToString(id) && Strings.ParseNat(d.uniqueId) == id
    ensures d.operatingSystem == OperatingSystemOf(Config.EnvValue(env, "RUNNER_OS"))
    ensures d.ip != "" && (Config.EnvValue(env, "RUNNER_IP") != "" ==> d.ip == env["RUNNER_IP"])
    ensures Config.EnvValue(env, "RUNNER_IP") == "" ==> d.ip == DefaultIp
    ensures d.endpointType == config.endpoint.endpointType && d.endpointName == repo
  {
    Strings.ParseNatToString(id);
    var ip := Config.EnvValue(env, "RUNNER_IP");
    ActivationDetails(
      Strings.NatToString(id),
      OperatingSystemOf(Config.EnvValue(env, "RUNNER_OS")),
      repo,
      if ip != "" then ip else DefaultIp,
      config.endpoint.endpointType)
  }

  /** Suspending then resuming on one instance re-applies exactly the permissions the
      suspension read, and leaves no state behind when that succeeds. */
  method SuspendThenResume(g: GitHubService, now: string, unlinkOk: bool) returns (suspended: Outcome, resumed: Outcome)
    requires g.initialized && g.hasClient
    modifies g, g.store
    ensures resumed == Pass
    ensures suspended.Pass? ==>
      var got := g.api(old(g.steps), GetPermissions);
      && got.Ok?
      && |g.steps| > |old(g.steps)| + 2
      && g.steps[|old(g.steps)| + 2] == SetCall(got.value)
    ensures suspended.Pass? && g.api(old(g.steps) + [GetPermissions, SetCall(DisabledPermissions)], g.steps[|old(g.steps)| + 2]).Ok? ==>
      g.suspensionState.None? && (unlinkOk ==> g.filePath !in g.store.saved)
  {
    suspended := g.SuspendActions(now, Pass);
    resumed := g.ResumeActions(unlinkOk);
  }

  /** A later run with a fresh instance, which has nothing in memory, resumes from the file
      the suspension saved and re-applies the same permissions. */
  method ResumeInLaterRun(first: GitHubService, later: GitHubService, now: string, unlinkOk: bool)
    returns (suspended: Outcome, resumed: Outcome)
    requires first != later && first.store == later.store && first.filePath == later.filePath
    requires first.initialized && first.hasClient && later.initialized && later.hasClient
    requires later.suspensionState.None?
    modifies first, later, first.store
    ensures resumed == Pass
    ensures suspended.Pass? ==>
      var got := first.api(old(first.steps), GetPermissions);
      && got.Ok?
      && |later.steps| > |old(later.steps)|
      && later.steps[|old(later.steps)|] == SetCall(got.value)
  {
    suspended := first.SuspendActions(now, Pass);
    resumed := later.ResumeActions(unlinkOk);
  }
}
