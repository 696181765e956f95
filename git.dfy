/** `GitService` (src/services/git/git.service.ts): the git commands the backup and restore
    workflows issue, in the order they issue them, and the way their results and failures
    become the service's results and errors.

    A service instance owns the trace `issued` of every command it has started. The
    `shell` says what each command returns given the commands started before it, and `env`
    is the process environment read by `core.getInput`. */
module Git {
  import opened Wrappers
  import opened Records
  import Strings
  import Base
  import Config
  import opened Exec
  import opened GitOutput

  const ClassName := "GitService"

  // ---------------------------------------------------------------------------
  // `core.getInput` from @actions/core
  // ---------------------------------------------------------------------------

  /** `core.getInput(name, { required })`: the variable INPUT_<NAME> (spaces in the name
      become '_'); a required input whose raw value is empty throws; the value is trimmed
      after that check, so a blank value passes the check and reads as "". */
  function CoreGetInput(env: map<string, string>, name: string, required: bool): (r: Result<string>)
    ensures r.Err? <==> required && Config.EnvValue(env, CoreInputVariable(name)) == ""
    ensures r.Err? ==> r.error == InputNotSupplied(name)
    ensures r.Ok? ==> r.value == Strings.Trim(Config.EnvValue(env, CoreInputVariable(name)))
  {
    var raw := Config.EnvValue(env, CoreInputVariable(name));
    if required && raw == "" then Err(InputNotSupplied(name)) else Ok(Strings.Trim(raw))
  }

  function CoreInputVariable(name: string): string
  {
    "INPUT_" + Strings.ToUpper(seq(|name|, i requires 0 <= i < |name| => if name[i] == ' ' then '_' else name[i]))
  }

  function InputNotSupplied(name: string): string
  {
    "Input required and not supplied: " + name
  }

  // ---------------------------------------------------------------------------
  // The commands
  // ---------------------------------------------------------------------------

  /** A command run in the process's working directory with the inherited environment. */
  function AtTop(tool: string, args: seq<string>): Cmd
  {
    Cmd(tool, args, "", map[])
  }

  /** A command run in `cwd` with the inherited environment. */
  function In(cwd: string, args: seq<string>): Cmd
  {
    Cmd("git", args, cwd, map[])
  }

  const GitVersion := AtTop("git", ["--version"])
  const SetupCmds := [AtTop("python3", ["--version"]), AtTop("pip3", ["--version"]), AtTop("pip3", ["install", "git-filter-repo"])]
  const RevParseHead := AtTop("git", ["rev-parse", "--verify", "HEAD"])
  const LogCmd := AtTop("git", ["log", "-1", "--pretty=%H|%h|%P|%an <%ae>|%ad|%cn|%s%n%b"])

  function CloneCmd(sourceDir: string, targetDir: string): Cmd
  {
    AtTop("git", ["clone", "--mirror", sourceDir, targetDir])
  }

  function ConfigCmds(userName: string, userEmail: string): seq<Cmd>
  {
    [AtTop("git", ["config", "user.name", userName]), AtTop("git", ["config", "user.email", userEmail])]
  }

  function SetUrlCmd(repoPath: string, remoteUrl: string): Cmd
  {
    In(repoPath, ["remote", "set-url", "origin", remoteUrl])
  }

  function MirrorPushCmd(repoPath: string, remoteUrl: string): Cmd
  {
    In(repoPath, ["push", "--mirror", "--force", remoteUrl])
  }

  function ListRefsCmd(repoPath: string): Cmd
  {
    In(repoPath, ["for-each-ref", "--format=%(refname:short)", "refs/heads/"])
  }

  function PushBranchCmd(repoPath: string, remoteUrl: string, branch: string): Cmd
  {
    In(repoPath, ["push", remoteUrl, branch, "--force"])
  }

  function PushTagsCmd(repoPath: string, remoteUrl: string): Cmd
  {
    In(repoPath, ["push", remoteUrl, "--tags", "--force"])
  }

  function ListRemoteCmd(repoPath: string): Cmd
  {
    In(repoPath, ["branch", "-r"])
  }

  function CreateBranchCmd(repoPath: string, branch: string): Cmd
  {
    In(repoPath, ["branch", branch, OriginPrefix + branch])
  }

  function FilterRepoCmd(repoPath: string): Cmd
  {
    In(repoPath, ["filter-repo", "--force", "--path", ".github/workflows", "--invert-paths"])
  }

  function FilterBranchCmd(repoPath: string): Cmd
  {
    Cmd("git",
        ["filter-branch", "--force", "--index-filter", "git rm -rf --cached --ignore-unmatch .github/workflows",
         "--prune-empty", "--tag-name-filter", "cat", "--", "--all"],
        repoPath,
        map["FILTER_BRANCH_SQUELCH_WARNING" := "1"])
  }

  /** The pushes of `pushAllBranches`: one per listed branch, in order, then the tags once. */
  function PushPlan(repoPath: string, remoteUrl: string, branches: seq<string>): (r: seq<Cmd>)
    ensures |r| == |branches| + 1
    ensures forall i :: 0 <= i < |branches| ==> r[i] == PushBranchCmd(repoPath, remoteUrl, branches[i])
    ensures r[|branches|] == PushTagsCmd(repoPath, remoteUrl)
  {
    seq(|branches|, i requires 0 <= i < |branches| => PushBranchCmd(repoPath, remoteUrl, branches[i]))
      + [PushTagsCmd(repoPath, remoteUrl)]
  }

  /** The branch creations of `syncRemoteBranches`, in listed order. */
  function SyncPlan(repoPath: string, names: seq<string>): (r: seq<Cmd>)
    ensures |r| <= |names|
    decreases |names|
  {
    if names == [] then []
    else
      var last := names[|names| - 1];
      SyncPlan(repoPath, names[..|names| - 1]) + (if last == "HEAD" then [] else [CreateBranchCmd(repoPath, last)])
  }

  /** A local branch is created for every listed name other than "HEAD", and for nothing
      else. */
  lemma {:induction false} SyncPlanCreates(repoPath: string, names: seq<string>)
    ensures var r := SyncPlan(repoPath, names);
      && (forall k :: 0 <= k < |r| ==>
            |r[k].args| == 3 && r[k].args[1] in names && r[k].args[1] != "HEAD" && r[k] == CreateBranchCmd(repoPath, r[k].args[1]))
      && (forall b :: b in names && b != "HEAD" ==> CreateBranchCmd(repoPath, b) in r)
    decreases |names|
  {
    if names != [] {
      var init := names[..|names| - 1];
      var last := names[|names| - 1];
      SyncPlanCreates(repoPath, init);
      assert names == init + [last];
      assert forall b :: b in names ==> b in init || b == last;
      assert forall b :: b in init ==> b in names;
    }
  }

  lemma SyncPlanSnoc(repoPath: string, names: seq<string>, b: string)
    ensures SyncPlan(repoPath, names + [b])
            == SyncPlan(repoPath, names) + (if b == "HEAD" then [] else [CreateBranchCmd(repoPath, b)])
  {
    assert (names + [b])[..|names|] == names;
  }

  // ---------------------------------------------------------------------------
  // What each operation issues and how it ends, given the commands issued before it
  // ---------------------------------------------------------------------------

  const CloneContext := "Failed to create mirror clone"
  const CommitContext := "Failed to get current commit info"
  const ConfigureContext := "Failed to configure git user"
  const SetUrlContext := "Failed to set remote URL"
  const PushMirrorContext := "Failed to push mirror"
  const PushAllContext := "Failed to push all branches and tags"
  const SyncContext := "Failed to sync remote branches"
  const FilterContext := "Failed to filter workflow directory from repository history. This is a critical step."
  const GitUnavailable := "Git is not available in the environment"
  const NoPushToken := "No GitHub token available for pushing"

  /** `handleError(error, context)` applied to a failure, nothing to a success. */
  function Wrap(o: Outcome, context: string): (r: Outcome)
    ensures r.Pass? <==> o.Pass?
    ensures r.Fail? ==> r.error == Base.Wrapped(context, o.error)
  {
    if o.Pass? then Pass else Fail(Base.Wrapped(context, o.error))
  }

  /** Commands awaited in order inside one `try`, whose `catch` calls `handleError`. */
  function Steps(shell: Shell, before: seq<Cmd>, cmds: seq<Cmd>, context: string): Run
  {
    var run := RunAll(shell, before, cmds);
    Run(run.issued, Wrap(run.outcome, context))
  }

  /** `ensureInitialized()` ahead of an operation: before initialisation nothing is issued. */
  function Guarded(initialized: bool, run: Run): Run
  {
    if initialized then run else Run([], Base.EnsureInitialized(false, ClassName))
  }

  datatype CommitRun = CommitRun(issued: seq<Cmd>, result: Result<CommitInfo>)

  /** `getCurrentCommitInfo()`: `rev-parse` with `ignoreReturnCode`, then `git log` only when
      HEAD exists. */
  function CommitInfoRun(shell: Shell, before: seq<Cmd>): CommitRun
  {
    match Settle(shell(before, RevParseHead), "git", true)
    case Err(e) => CommitRun([RevParseHead], Err(Base.Wrapped(CommitContext, e)))
    case Ok(_) =>
      if shell(before, RevParseHead).code != 0 then CommitRun([RevParseHead], Ok(EmptyCommitInfo))
      else
        match Settle(shell(before + [RevParseHead], LogCmd), "git", false)
        case Err(e) => CommitRun([RevParseHead, LogCmd], Err(Base.Wrapped(CommitContext, e)))
        case Ok(out) => CommitRun([RevParseHead, LogCmd], Ok(ParseCommitInfo(out)))
  }

  /** `pushAllBranches(repoPath, remoteUrl)`: list the local branches, then push them and the
      tags; the first failure stops the pushes. */
  function PushAllRun(shell: Shell, before: seq<Cmd>, repoPath: string, remoteUrl: string): Run
  {
    var list := ListRefsCmd(repoPath);
    match Settle(shell(before, list), "git", false)
    case Err(e) => Run([list], Fail(Base.Wrapped(PushAllContext, e)))
    case Ok(out) =>
      var pushes := Steps(shell, before + [list], PushPlan(repoPath, remoteUrl, BranchesToPush(out)), PushAllContext);
      Run([list] + pushes.issued, pushes.outcome)
  }

  /** `syncRemoteBranches(repoPath)`: only the listing can fail the operation; a branch
      creation runs with `ignoreReturnCode` and a rejection of it is caught and logged. */
  function SyncRun(shell: Shell, before: seq<Cmd>, repoPath: string): Run
  {
    var list := ListRemoteCmd(repoPath);
    match Settle(shell(before, list), "git", false)
    case Err(e) => Run([list], Fail(Base.Wrapped(SyncContext, e)))
    case Ok(out) => Run([list] + SyncPlan(repoPath, RemoteBranchNames(out)), Pass)
  }

  /** `filterWorkflowDirectory(repoPath)`: git-filter-repo when it was installed; git
      filter-branch when it was not or when it failed. Only a failing filter-branch fails the
      operation. */
  function FilterRun(shell: Shell, before: seq<Cmd>, repoPath: string, filterRepoAvailable: bool): Run
  {
    if filterRepoAvailable && Settle(shell(before, FilterRepoCmd(repoPath)), "git", false).Ok? then
      Run([FilterRepoCmd(repoPath)], Pass)
    else
      var tried := if filterRepoAvailable then [FilterRepoCmd(repoPath)] else [];
      var branch := Settle(shell(before + tried, FilterBranchCmd(repoPath)), "git", false);
      Run(tried + [FilterBranchCmd(repoPath)], Wrap(branch.ToOutcome(), FilterContext))
  }

  /** The token `configureAndPush` pushes with: the restore token for a PAT, the trimmed
      `github-token` input otherwise; an empty one is refused. */
  function PushToken(env: map<string, string>, inputs: ActionInputs, hasPatToken: bool): (r: Result<string>)
    ensures r.Ok? ==> r.value != ""
    ensures hasPatToken ==> r == (if inputs.restoreToken == "" then Err(NoPushToken) else Ok(inputs.restoreToken))
    ensures !hasPatToken && Config.EnvValue(env, CoreInputVariable("github-token")) == "" ==>
              r == Err(InputNotSupplied("github-token"))
    ensures !hasPatToken && Config.EnvValue(env, CoreInputVariable("github-token")) != "" ==>
              var t := Strings.Trim(Config.EnvValue(env, CoreInputVariable("github-token")));
              r == if t == "" then Err(NoPushToken) else Ok(t)
  {
    if hasPatToken then
      if inputs.restoreToken == "" then Err(NoPushToken) else Ok(inputs.restoreToken)
    else
      match CoreGetInput(env, "github-token", true)
      case Err(e) => Err(e)
      case Ok(t) => if t == "" then Err(NoPushToken) else Ok(t)
  }

  /** `configureAndPush(config, hasPatToken)`: configure the identity, choose the token, then
      exactly one kind of push to the authenticated URL. */
  function ConfigureAndPushRun(shell: Shell, before: seq<Cmd>, env: map<string, string>, config: AppConfig,
                               hasPatToken: bool, context: RunContext): Run
  {
    var configure := Steps(shell, before, ConfigCmds(config.git.userName, config.git.userEmail), ConfigureContext);
    if configure.outcome.Fail? then configure
    else
      var push := TokenPushRun(shell, before + configure.issued, env, config, hasPatToken, context);
      Run(configure.issued + push.issued, push.outcome)
  }

  /** What `configureAndPush` does once git is configured: choose the token, then push. */
  function TokenPushRun(shell: Shell, before: seq<Cmd>, env: map<string, string>, config: AppConfig,
                        hasPatToken: bool, context: RunContext): Run
  {
    match PushToken(env, config.inputs, hasPatToken)
    case Err(e) => Run([], Fail(e))
    case Ok(token) =>
      PushRun(shell, before, config.files.sourceArchiveDir, AuthUrl(token, context.owner, context.repo), hasPatToken)
  }

  /** The push step of `configureAndPush`: every branch and tag with a PAT, a mirror push
      otherwise. */
  function PushRun(shell: Shell, before: seq<Cmd>, repoPath: string, url: string, hasPatToken: bool): Run
  {
    if hasPatToken then PushAllRun(shell, before, repoPath, url)
    else Steps(shell, before, [MirrorPushCmd(repoPath, url)], PushMirrorContext)
  }

  // ---------------------------------------------------------------------------
  // What the operations promise
  // ---------------------------------------------------------------------------

  /** Without a commit at HEAD every field is empty, nothing fails and `git log` is never
      run. */
  lemma NoCommitsGivesEmptyInfo(shell: Shell, before: seq<Cmd>)
    requires shell(before, RevParseHead).Exited? && shell(before, RevParseHead).code != 0
    ensures CommitInfoRun(shell, before) == CommitRun([RevParseHead], Ok(EmptyCommitInfo))
  {
  }

  /** With a commit at HEAD, what `git log` prints for it is read back field by field. */
  lemma CommitInfoFromLog(shell: Shell, before: seq<Cmd>, hash: string, shortHash: string, parents: string,
                          author: string, date: string, committer: string, subject: string, body: string)
    requires shell(before, RevParseHead).Exited? && shell(before, RevParseHead).code == 0
    requires Plain(hash) && Plain(shortHash) && Plain(parents) && Plain(author) && Plain(date)
    requires Plain(committer) && Plain(subject)
    requires hash != "" && !Strings.IsJsWhitespace(hash[0])
    requires subject != "" && !Strings.IsJsWhitespace(subject[|subject| - 1])
    requires body != "" ==> !Strings.IsJsWhitespace(body[0]) && !Strings.IsJsWhitespace(body[|body| - 1])
    requires shell(before + [RevParseHead], LogCmd)
             == Exited(0, LogLine(hash, shortHash, parents, author, date, committer, subject) + "\n" + body + "\n")
    ensures CommitInfoRun(shell, before)
            == CommitRun([RevParseHead, LogCmd],
                         Ok(CommitInfo(hash, shortHash, author, date, if body == "" then subject else subject + "\n" + body, parents)))
  {
    ParseLogOutput(hash, shortHash, parents, author, date, committer, subject, body);
  }

  /** `pushAllBranches` lists the branches first, then pushes them in listed order, and the
      tags only after every branch; it succeeds exactly when every push did. */
  lemma PushAllBranchesOrder(shell: Shell, before: seq<Cmd>, repoPath: string, remoteUrl: string)
    ensures var r := PushAllRun(shell, before, repoPath, remoteUrl);
      var listing := Settle(shell(before, ListRefsCmd(repoPath)), "git", false);
      && r.issued != [] && r.issued[0] == ListRefsCmd(repoPath)
      && (listing.Err? ==> r == Run([ListRefsCmd(repoPath)], Fail(Base.Wrapped(PushAllContext, listing.error))))
      && (listing.Ok? ==>
            var plan := PushPlan(repoPath, remoteUrl, BranchesToPush(listing.value));
            && r.issued[1..] == plan[..|r.issued| - 1]
            && (r.outcome.Pass? <==> r.issued[1..] == plan && Succeeds(shell, before + [ListRefsCmd(repoPath)], plan))
            && (r.outcome.Fail? ==> |r.issued| >= 2 && !Succeeds(shell, before + [ListRefsCmd(repoPath)], plan[..|r.issued| - 1])))
  {
    var listing := Settle(shell(before, ListRefsCmd(repoPath)), "git", false);
    if listing.Ok? {
      var tail := before + [ListRefsCmd(repoPath)];
      var plan := PushPlan(repoPath, remoteUrl, BranchesToPush(listing.value));
      RunAllOutcome(shell, tail, plan);
      var run := RunAll(shell, tail, plan);
      if run.outcome.Fail? {
        var n := |run.issued|;
        SucceedsPrefixFails(shell, tail, plan, n);
      }
    }
  }

  /** A sequence whose last command is rejected does not succeed. */
  lemma {:induction false} SucceedsPrefixFails(shell: Shell, before: seq<Cmd>, cmds: seq<Cmd>, n: nat)
    requires 1 <= n <= |cmds|
    requires Succeeds(shell, before, cmds[..n - 1])
    requires Settle(shell(before + cmds[..n - 1], cmds[n - 1]), cmds[n - 1].tool, false).Err?
    ensures !Succeeds(shell, before, cmds[..n])
    decreases n
  {
    if n > 1 {
      var tail := before + [cmds[0]];
      assert cmds[..n - 1][1..] == cmds[1..][..n - 2];
      assert cmds[..n][1..] == cmds[1..][..n - 1];
      assert tail + cmds[1..][..n - 2] == before + cmds[..n - 1];
      assert cmds[1..][n - 2] == cmds[n - 1];
      SucceedsPrefixFails(shell, tail, cmds[1..], n - 1);
    } else {
      assert before + cmds[..0] == before;
    }
  }

  /** A branch that cannot be created changes nothing: two shells that agree on the listing
      give the same run, whatever they answer to the branch creations. */
  lemma SyncIgnoresBranchResults(shell1: Shell, shell2: Shell, before: seq<Cmd>, repoPath: string)
    requires shell1(before, ListRemoteCmd(repoPath)) == shell2(before, ListRemoteCmd(repoPath))
    ensures SyncRun(shell1, before, repoPath) == SyncRun(shell2, before, repoPath)
    ensures SyncRun(shell1, before, repoPath).outcome.Fail?
            <==> Settle(shell1(before, ListRemoteCmd(repoPath)), "git", false).Err?
  {
  }

  /** git filter-branch runs exactly when git-filter-repo is unavailable or failed, and the
      operation fails exactly when filter-branch ran and failed. */
  lemma FilterFallback(shell: Shell, before: seq<Cmd>, repoPath: string, filterRepoAvailable: bool)
    ensures var r := FilterRun(shell, before, repoPath, filterRepoAvailable);
      var repo := Settle(shell(before, FilterRepoCmd(repoPath)), "git", false);
      && (FilterBranchCmd(repoPath) in r.issued <==> !filterRepoAvailable || repo.Err?)
      && (FilterRepoCmd(repoPath) in r.issued <==> filterRepoAvailable)
      && (r.outcome.Fail? <==>
            FilterBranchCmd(repoPath) in r.issued
            && Settle(shell(before + r.issued[..|r.issued| - 1], FilterBranchCmd(repoPath)), "git", false).Err?)
  {
    var r := FilterRun(shell, before, repoPath, filterRepoAvailable);
    assert FilterRepoCmd(repoPath) != FilterBranchCmd(repoPath) by {
      assert FilterRepoCmd(repoPath).args[0] != FilterBranchCmd(repoPath).args[0];
    }
    if filterRepoAvailable && Settle(shell(before, FilterRepoCmd(repoPath)), "git", false).Err? {
      assert r.issued == [FilterRepoCmd(repoPath), FilterBranchCmd(repoPath)];
      assert r.issued[..|r.issued| - 1] == [FilterRepoCmd(repoPath)];
    } else if !filterRepoAvailable {
      assert r.issued == [FilterBranchCmd(repoPath)];
      assert before + r.issued[..|r.issued| - 1] == before;
    }
  }

  /** A `git push --mirror`. */
  predicate IsMirrorPush(c: Cmd)
  {
    |c.args| >= 2 && c.args[0] == "push" && c.args[1] == "--mirror"
  }

  /** `configureAndPush` never pushes without a token: an empty or missing token fails the
      operation after the identity is configured. */
  lemma NoPushWithoutToken(shell: Shell, before: seq<Cmd>, env: map<string, string>, config: AppConfig,
                           hasPatToken: bool, context: RunContext)
    requires Steps(shell, before, ConfigCmds(config.git.userName, config.git.userEmail), ConfigureContext).outcome.Pass?
    requires PushToken(env, config.inputs, hasPatToken).Err?
    ensures var r := ConfigureAndPushRun(shell, before, env, config, hasPatToken, context);
      && r.issued == ConfigCmds(config.git.userName, config.git.userEmail)
      && r.outcome == Fail(PushToken(env, config.inputs, hasPatToken).error)
  {
    var cmds := ConfigCmds(config.git.userName, config.git.userEmail);
    RunAllOutcome(shell, before, cmds);
  }

  /** With a token, `configureAndPush` pushes to the authenticated URL by exactly one
      strategy: branch by branch with the restore token, a mirror push otherwise. */
  lemma OnePushStrategy(shell: Shell, before: seq<Cmd>, env: map<string, string>, config: AppConfig,
                        hasPatToken: bool, context: RunContext)
    requires Steps(shell, before, ConfigCmds(config.git.userName, config.git.userEmail), ConfigureContext).outcome.Pass?
    requires PushToken(env, config.inputs, hasPatToken).Ok?
    ensures var r := ConfigureAndPushRun(shell, before, env, config, hasPatToken, context);
      var cmds := ConfigCmds(config.git.userName, config.git.userEmail);
      var url := AuthUrl(PushToken(env, config.inputs, hasPatToken).value, context.owner, context.repo);
      var repoPath := config.files.sourceArchiveDir;
      && r.issued[..2] == cmds
      && (hasPatToken ==>
            && r.issued[2..] == PushAllRun(shell, before + cmds, repoPath, url).issued
            && (forall c :: c in r.issued ==> !IsMirrorPush(c)))
      && (!hasPatToken ==> r.issued[2..] == [MirrorPushCmd(repoPath, url)])
  {
    var cmds := ConfigCmds(config.git.userName, config.git.userEmail);
    RunAllOutcome(shell, before, cmds);
    var r := ConfigureAndPushRun(shell, before, env, config, hasPatToken, context);
    var url := AuthUrl(PushToken(env, config.inputs, hasPatToken).value, context.owner, context.repo);
    var repoPath := config.files.sourceArchiveDir;
    if hasPatToken {
      var push := PushAllRun(shell, before + cmds, repoPath, url);
      assert r.issued == cmds + push.issued;
      assert url[0] == 'h';
      NoMirrorPushInPushAll(shell, before + cmds, repoPath, url);
    } else {
      RunAllOutcome(shell, before + cmds, [MirrorPushCmd(repoPath, url)]);
    }
  }

  lemma NoMirrorPushInPushAll(shell: Shell, before: seq<Cmd>, repoPath: string, url: string)
    requires url != "" && url[0] != '-'
    ensures forall c :: c in PushAllRun(shell, before, repoPath, url).issued ==> !IsMirrorPush(c)
  {
    var listing := Settle(shell(before, ListRefsCmd(repoPath)), "git", false);
    if listing.Ok? {
      var plan := PushPlan(repoPath, url, BranchesToPush(listing.value));
      var run := RunAll(shell, before + [ListRefsCmd(repoPath)], plan);
      forall c | c in run.issued ensures !IsMirrorPush(c) {
        var k :| 0 <= k < |run.issued| && run.issued[k] == c;
        assert c == plan[k];
        assert c.args[1] == url;
      }
    }
  }

  // ---------------------------------------------------------------------------
  // The service
  // ---------------------------------------------------------------------------

  class GitService {
    const shell: Shell
    const env: map<string, string>
    var initialized: bool
    var filterRepoAvailable: bool
    /** Every command this instance has started, oldest first. */
    var issued: seq<Cmd>

    constructor (shell: Shell, env: map<string, string>)
      ensures this.shell == shell && this.env == env
      ensures !initialized && !filterRepoAvailable && issued == []
    {
      this.shell := shell;
      this.env := env;
      initialized := false;
      filterRepoAvailable := false;
      issued := [];
    }

    /** `exec(...)`: start one command and wait for it. */
    method Issue(c: Cmd) returns (res: ExecResult)
      modifies this
      ensures issued == old(issued) + [c] && res == shell(old(issued), c)
      ensures initialized == old(initialized) && filterRepoAvailable == old(filterRepoAvailable)
    {
      res := shell(issued, c);
      issued := issued + [c];
    }

    /** Await `cmds` one after another; the first rejection ends the sequence. */
    method RunInOrder(cmds: seq<Cmd>) returns (o: Outcome)
      modifies this
      ensures issued == old(issued) + RunAll(shell, old(issued), cmds).issued
      ensures o == RunAll(shell, old(issued), cmds).outcome
      ensures initialized == old(initialized) && filterRepoAvailable == old(filterRepoAvailable)
    {
      var start := issued;
      var i := 0;
      assert cmds[..0] == [];
      while i < |cmds|
        invariant 0 <= i <= |cmds|
        invariant issued == start + cmds[..i]
        invariant RunAll(shell, start, cmds[..i]) == Run(cmds[..i], Pass)
        invariant initialized == old(initialized) && filterRepoAvailable == old(filterRepoAvailable)
      {
        var res := Issue(cmds[i]);
        RunAllSnoc(shell, start, cmds[..i], cmds[i]);
        assert cmds[..i] + [cmds[i]] == cmds[..i + 1];
        var settled := Settle(res, cmds[i].tool, false);
        if settled.Err? {
          RunAllStops(shell, start, cmds[..i + 1], cmds[i + 1..]);
          assert cmds[..i + 1] + cmds[i + 1..] == cmds;
          return Fail(settled.error);
        }
        i := i + 1;
      }
      assert cmds[..i] == cmds;
      o := Pass;
    }

    /** Commands inside one `try` whose `catch` calls `handleError(error, context)`. */
    method RunSteps(cmds: seq<Cmd>, context: string) returns (o: Outcome)
      modifies this
      ensures issued == old(issued) + Steps(shell, old(issued), cmds, context).issued
      ensures o == Steps(shell, old(issued), cmds, context).outcome
      ensures initialized == old(initialized) && filterRepoAvailable == old(filterRepoAvailable)
    {
      o := RunInOrder(cmds);
      o := Wrap(o, context);
    }

    /** `initialize()` with `onInitialize`: `git --version`, then the required `action`
        input, then, for a restore, the git-filter-repo setup, which never fails. Any failure
        of the first two becomes "Git is not available in the environment". */
    method Initialize() returns (r: Outcome)
      modifies this
      ensures old(initialized) ==> r == Pass && issued == old(issued) && filterRepoAvailable == old(filterRepoAvailable)
      ensures !old(initialized) ==>
        var version := Settle(shell(old(issued), GitVersion), "git", false);
        var action := CoreGetInput(env, Config.ActionInput, true);
        && (r.Pass? <==> version.Ok? && action.Ok?)
        && (r.Fail? ==> r.error == GitUnavailable)
        && (if r.Pass? && action.value == "restore" then
              var setup := RunAll(shell, old(issued) + [GitVersion], SetupCmds);
              issued == old(issued) + [GitVersion] + setup.issued && filterRepoAvailable == setup.outcome.Pass?
            else
              issued == old(issued) + [GitVersion] && filterRepoAvailable == old(filterRepoAvailable))
      ensures initialized == (old(initialized) || r.Pass?)
    {
      if initialized {
        return Pass;
      }
      var res := Issue(GitVersion);
      if Settle(res, "git", false).Err? {
        return Fail(GitUnavailable);
      }
      var action := CoreGetInput(env, Config.ActionInput, true);
      if action.Err? {
        return Fail(GitUnavailable);
      }
      if action.value == "restore" {
        SetupGitFilterRepo();
      }
      initialized := true;
      r := Pass;
    }

    /** `setupGitFilterRepo()`: git-filter-repo counts as available exactly when python3,
        pip3 and the install all succeed; a failure is only logged. */
    method SetupGitFilterRepo()
      modifies this
      ensures issued == old(issued) + RunAll(shell, old(issued), SetupCmds).issued
      ensures filterRepoAvailable == RunAll(shell, old(issued), SetupCmds).outcome.Pass?
      ensures initialized == old(initialized)
    {
      var o := RunInOrder(SetupCmds);
      filterRepoAvailable := o.Pass?;
    }

    method CreateMirrorClone(sourceDir: string, targetDir: string) returns (r: Outcome)
      modifies this
      ensures var run := Guarded(initialized, Steps(shell, old(issued), [CloneCmd(sourceDir, targetDir)], CloneContext));
              issued == old(issued) + run.issued && r == run.outcome
      ensures initialized == old(initialized) && filterRepoAvailable == old(filterRepoAvailable)
    {
      if !initialized {
        return Base.EnsureInitialized(false, ClassName);
      }
      r := RunSteps([CloneCmd(sourceDir, targetDir)], CloneContext);
    }

    method GetCurrentCommitInfo() returns (r: Result<CommitInfo>)
      modifies this
      ensures !initialized ==> issued == old(issued) && r == Err(Base.NotInitializedMessage(ClassName))
      ensures initialized ==>
        issued == old(issued) + CommitInfoRun(shell, old(issued)).issued && r == CommitInfoRun(shell, old(issued)).result
      ensures initialized == old(initialized) && filterRepoAvailable == old(filterRepoAvailable)
    {
      if !initialized {
        return Err(Base.NotInitializedMessage(ClassName));
      }
      var head := Issue(RevParseHead);
      var checked := Settle(head, "git", true);
      if checked.Err? {
        return Err(Base.Wrapped(CommitContext, checked.error));
      }
      if head.code != 0 {
        return Ok(EmptyCommitInfo);
      }
      var log := Issue(LogCmd);
      var output := Settle(log, "git", false);
      if output.Err? {
        return Err(Base.Wrapped(CommitContext, output.error));
      }
      r := Ok(ParseCommitInfo(output.value));
    }

    method ConfigureGit(userName: string, userEmail: string) returns (r: Outcome)
      modifies this
      ensures var run := Guarded(initialized, Steps(shell, old(issued), ConfigCmds(userName, userEmail), ConfigureContext));
              issued == old(issued) + run.issued && r == run.outcome
      ensures initialized == old(initialized) && filterRepoAvailable == old(filterRepoAvailable)
    {
      if !initialized {
        return Base.EnsureInitialized(false, ClassName);
      }
      r := RunSteps(ConfigCmds(userName, userEmail), ConfigureContext);
    }

    /** `setRemoteUrl(repoPath, remoteUrl)`; `shown` is the line it logs, with the URL's
        credentials hidden. */
    method SetRemoteUrl(repoPath: string, remoteUrl: string) returns (r: Outcome, shown: Option<string>)
      modifies this
      ensures var run := Guarded(initialized, Steps(shell, old(issued), [SetUrlCmd(repoPath, remoteUrl)], SetUrlContext));
              issued == old(issued) + run.issued && r == run.outcome
      ensures shown == if initialized then Some("Setting remote URL to: " + Redact(remoteUrl)) else None
      ensures initialized == old(initialized) && filterRepoAvailable == old(filterRepoAvailable)
    {
      if !initialized {
        return Base.EnsureInitialized(false, ClassName), None;
      }
      shown := Some("Setting remote URL to: " + Redact(remoteUrl));
      r := RunSteps([SetUrlCmd(repoPath, remoteUrl)], SetUrlContext);
    }

    method PushMirror(repoPath: string, remoteUrl: string) returns (r: Outcome)
      modifies this
      ensures var run := Guarded(initialized, Steps(shell, old(issued), [MirrorPushCmd(repoPath, remoteUrl)], PushMirrorContext));
              issued == old(issued) + run.issued && r == run.outcome
      ensures initialized == old(initialized) && filterRepoAvailable == old(filterRepoAvailable)
    {
      if !initialized {
        return Base.EnsureInitialized(false, ClassName);
      }
      r := RunSteps([MirrorPushCmd(repoPath, remoteUrl)], PushMirrorContext);
    }

    method PushAllBranches(repoPath: string, remoteUrl: string) returns (r: Outcome)
      modifies this
      ensures var run := Guarded(initialized, PushAllRun(shell, old(issued), repoPath, remoteUrl));
              issued == old(issued) + run.issued && r == run.outcome
      ensures initialized == old(initialized) && filterRepoAvailable == old(filterRepoAvailable)
    {
      if !initialized {
        return Base.EnsureInitialized(false, ClassName);
      }
      ghost var start := issued;
      var listing := Issue(ListRefsCmd(repoPath));
      var settled := Settle(listing, "git", false);
      if settled.Err? {
        return Fail(Base.Wrapped(PushAllContext, settled.error));
      }
      var branches := BranchesToPush(settled.value);
      ghost var pushes := Steps(shell, issued, PushPlan(repoPath, remoteUrl, branches), PushAllContext);
      r := RunSteps(PushPlan(repoPath, remoteUrl, branches), PushAllContext);
      AppendAssoc(start, [ListRefsCmd(repoPath)], pushes.issued);
    }

    method SyncRemoteBranches(repoPath: string) returns (r: Outcome)
      modifies this
      ensures var run := Guarded(initialized, SyncRun(shell, old(issued), repoPath));
              issued == old(issued) + run.issued && r == run.outcome
      ensures initialized == old(initialized) && filterRepoAvailable == old(filterRepoAvailable)
    {
      if !initialized {
        return Base.EnsureInitialized(false, ClassName);
      }
      var listing := Issue(ListRemoteCmd(repoPath));
      var settled := Settle(listing, "git", false);
      if settled.Err? {
        return Fail(Base.Wrapped(SyncContext, settled.error));
      }
      CreateLocalBranches(repoPath, RemoteBranchNames(settled.value));
      r := Pass;
    }

    /** The loop of `syncRemoteBranches`: "HEAD" is skipped, and with ignoreReturnCode an exit
        code never rejects; a command that could not be started is caught and logged, and the
        loop goes on. */
    method CreateLocalBranches(repoPath: string, names: seq<string>)
      modifies this
      ensures issued == old(issued) + SyncPlan(repoPath, names)
      ensures initialized == old(initialized) && filterRepoAvailable == old(filterRepoAvailable)
    {
      for i := 0 to |names|
        invariant issued == old(issued) + SyncPlan(repoPath, names[..i])
        invariant initialized == old(initialized) && filterRepoAvailable == old(filterRepoAvailable)
      {
        assert names[..i + 1] == names[..i] + [names[i]];
        SyncPlanSnoc(repoPath, names[..i], names[i]);
        if names[i] == "HEAD" {
          continue;
        }
        var _ := Issue(CreateBranchCmd(repoPath, names[i]));
      }
      assert names[..|names|] == names;
    }

    method FilterWorkflowDirectory(repoPath: string) returns (r: Outcome)
      modifies this
      ensures var run := Guarded(initialized, FilterRun(shell, old(issued), repoPath, filterRepoAvailable));
              issued == old(issued) + run.issued && r == run.outcome
      ensures initialized == old(initialized) && filterRepoAvailable == old(filterRepoAvailable)
    {
      if !initialized {
        return Base.EnsureInitialized(false, ClassName);
      }
      var tried: seq<Cmd> := [];
      if filterRepoAvailable {
        var res := Issue(FilterRepoCmd(repoPath));
        if Settle(res, "git", false).Ok? {
          return Pass;
        }
        tried := [FilterRepoCmd(repoPath)];
      }
      var before := issued;
      assert before == old(issued) + tried;
      var res := Issue(FilterBranchCmd(repoPath));
      assert issued == old(issued) + (tried + [FilterBranchCmd(repoPath)]);
      r := Wrap(Settle(res, "git", false).ToOutcome(), FilterContext);
    }

    /** `configureAndPush(config, hasPatToken)`; `context` is the repository the run belongs
        to. */
    method ConfigureAndPush(config: AppConfig, hasPatToken: bool, context: RunContext) returns (r: Outcome)
      modifies this
      ensures var run := Guarded(initialized, ConfigureAndPushRun(shell, old(issued), env, config, hasPatToken, context));
              issued == old(issued) + run.issued && r == run.outcome
      ensures initialized == old(initialized) && filterRepoAvailable == old(filterRepoAvailable)
    {
      if !initialized {
        return Base.EnsureInitialized(false, ClassName);
      }
      ghost var start := issued;
      ghost var configure := Steps(shell, start, ConfigCmds(config.git.userName, config.git.userEmail), ConfigureContext);
      r := ConfigureGit(config.git.userName, config.git.userEmail);
      if r.Fail? {
        return;
      }
      assert issued == start + configure.issued;
      ghost var mid := issued;
      r := PushWithToken(config, hasPatToken, context);
      ghost var push := TokenPushRun(shell, mid, env, config, hasPatToken, context);
      AppendAssoc(start, configure.issued, push.issued);
    }

    /** The second half of `configureAndPush`, on an initialised service: the token, then the
        push. */
    method PushWithToken(config: AppConfig, hasPatToken: bool, context: RunContext) returns (r: Outcome)
      requires initialized
      modifies this
      ensures var run := TokenPushRun(shell, old(issued), env, config, hasPatToken, context);
              issued == old(issued) + run.issued && r == run.outcome
      ensures initialized == old(initialized) && filterRepoAvailable == old(filterRepoAvailable)
    {
      var token := PushToken(env, config.inputs, hasPatToken);
      if token.Err? {
        return Fail(token.error);
      }
      var repoPath := config.files.sourceArchiveDir;
      var url := AuthUrl(token.value, context.owner, context.repo);
      if hasPatToken {
        r := PushAllBranches(repoPath, url);
      } else {
        r := PushMirror(repoPath, url);
      }
    }
  }
}
