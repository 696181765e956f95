/** `RestoreWorkflowService` (src/services/workflow/restore-workflow.service.ts): prove the
    operator's identity with a one-time password, download and unpack a backup, prepare the
    mirror and push it over the repository, with GitHub Actions optionally suspended around the
    push. As in the backup workflow, every call into another service, the file system or the
    remote API is an abstract step recorded in `trace`, and what each step answers is a
    parameter (`Replies`). */
module Restore {
  import opened Wrappers
  import opened Records
  import Base
  import Config

  const ClassName := "RestoreWorkflowService"
  const SucceededMessage := "Restore completed successfully"
  const FailedPrefix := "Restore failed: "
  const OtpRejected := "OTP verification failed or timed out"
  /** Where the tar archive is unpacked. */
  const ExtractDirectory := "./"

  /** What the summary notice reports: the restored version, and whether it says Actions
      were suspended and resumed. */
  datatype Summary = Summary(fileVersionId: string, actionsWereSuspended: bool)

  /** The effects `execute` issues, in the order it issues them. */
  datatype Step =
    | Authenticate(activationCode: string)
    | SetOtpToken(token: string)
    | RequestOtp(deliveryMethod: string)
    | WaitForOtp(uniqueKey: string, expiresAt: string)
    | Download(fileVersionId: string, token: string, otpKey: string)
    | Decrypt(encrypted: Bytes, password: string)
    | WriteFile(path: string, contents: Bytes)
    | Decompress(input: string, output: string)
    | Extract(tarFile: string, directory: string)
    | SyncRemoteBranches(mirror: string)
    | FilterWorkflowDirectory(mirror: string)
    | SuspendActions
    | ConfigureAndPush(hasPatToken: bool)
    | ResumeActions
    | Remove(path: string)
    | Notice(summary: Summary)

  /** What each awaited call returns or throws on this run; `prepare` answers whichever of
      the branch sync and the history filter runs, and `resume` the resume on the success
      path (the one in the failure handler is caught whatever it does). */
  datatype Replies = Replies(
    auth: Result<AuthTokenResponse>,
    otp: Result<OtpResponse>,
    verified: Result<bool>,
    download: Result<Bytes>,
    decrypt: Result<Bytes>,
    write: Outcome,
    decompress: Outcome,
    extract: Outcome,
    prepare: Outcome,
    suspend: Outcome,
    push: Outcome,
    resume: Outcome)

  /** `hasPatToken`: a non-empty restore token was given. */
  predicate HasPat(cfg: AppConfig)
  {
    cfg.inputs.restoreToken != ""
  }

  /** The condition under which step 9 suspends Actions. */
  predicate SuspendWanted(cfg: AppConfig, hasGitHub: bool)
  {
    cfg.inputs.suspendActions && hasGitHub && HasPat(cfg)
  }

  // ---------------------------------------------------------------------------
  // Steps 1-3: identity
  // ---------------------------------------------------------------------------

  /** Authentication and the OTP request returned, and the OTP was confirmed in time. */
  predicate Unlocked(w: Replies)
  {
    w.auth.Ok? && w.otp.Ok? && w.verified == Ok(true)
  }

  /** Authenticate, hand the token to the OTP service, request an OTP, wait for it. */
  function IdentitySteps(cfg: AppConfig, w: Replies): (s: seq<Step>)
    ensures forall i | 0 <= i < |s| :: s[i].Authenticate? || s[i].SetOtpToken? || s[i].RequestOtp? || s[i].WaitForOtp?
  {
    [Authenticate(cfg.inputs.activationCode)] +
    if w.auth.Err? then [] else
    [SetOtpToken(w.auth.value.token), RequestOtp(cfg.inputs.otpDeliveryMethod)] +
    if w.otp.Err? then [] else
    [WaitForOtp(w.otp.value.uniqueKey, w.otp.value.expiresAt)]
  }

  /** Why the identity steps stopped: the error thrown, or the rejection of an OTP that was
      not confirmed. */
  function IdentityError(w: Replies): string
    requires !Unlocked(w)
  {
    if w.auth.Err? then w.auth.error
    else if w.otp.Err? then w.otp.error
    else if w.verified.Err? then w.verified.error
    else OtpRejected
  }

  // ---------------------------------------------------------------------------
  // Steps 4-8: recovery of the mirror
  // ---------------------------------------------------------------------------

  /** Steps 4 to 7 returned: the archive is unpacked. */
  predicate Unpacked(w: Replies)
  {
    w.download.Ok? && w.decrypt.Ok? && w.write.Pass? && w.decompress.Pass? && w.extract.Pass?
  }

  /** Steps 4 to 8 returned. */
  predicate Recovered(w: Replies)
  {
    Unpacked(w) && w.prepare.Pass?
  }

  /** Step 8: with a restore token the remote branches are synced, without one the workflow
      directory is filtered out of the history. */
  function PrepareStep(cfg: AppConfig): Step
  {
    if HasPat(cfg) then SyncRemoteBranches(cfg.files.sourceArchiveDir)
    else FilterWorkflowDirectory(cfg.files.sourceArchiveDir)
  }

  /** Steps 4 to 7: download with the OTP's key, decrypt, write the compressed archive,
      decompress it, unpack it. */
  function UnpackSteps(cfg: AppConfig, fileVersionId: string, w: Replies): (s: seq<Step>)
    requires Unlocked(w)
    ensures forall i | 0 <= i < |s| :: s[i].Download? || s[i].Decrypt? || s[i].WriteFile? || s[i].Decompress? || s[i].Extract?
  {
    var files := cfg.files;
    [Download(fileVersionId, w.auth.value.token, w.otp.value.uniqueKey)] +
    if w.download.Err? then [] else
    [Decrypt(w.download.value, cfg.inputs.encryptionPassword)] +
    if w.decrypt.Err? then [] else
    [WriteFile(files.compressedArchiveFile, w.decrypt.value)] +
    if w.write.Fail? then [] else
    [Decompress(files.compressedArchiveFile, files.tarArchiveFile)] +
    if w.decompress.Fail? then [] else
    [Extract(files.tarArchiveFile, ExtractDirectory)]
  }

  /** Steps 4 to 8: the mirror is prepared once the archive is unpacked. */
  function RecoverySteps(cfg: AppConfig, fileVersionId: string, w: Replies): seq<Step>
    requires Unlocked(w)
  {
    UnpackSteps(cfg, fileVersionId, w) + if Unpacked(w) then [PrepareStep(cfg)] else []
  }

  function RecoveryError(w: Replies): string
    requires !Recovered(w)
  {
    if w.download.Err? then w.download.error
    else if w.decrypt.Err? then w.decrypt.error
    else if w.write.Fail? then w.write.error
    else if w.decompress.Fail? then w.decompress.error
    else if w.extract.Fail? then w.extract.error
    else w.prepare.error
  }

  // ---------------------------------------------------------------------------
  // Steps 9-11: the push, with Actions suspended around it
  // ---------------------------------------------------------------------------

  /** Suspend (when wanted), push, resume (when suspended). */
  function PublishSteps(cfg: AppConfig, hasGitHub: bool, w: Replies): seq<Step>
  {
    var wanted := SuspendWanted(cfg, hasGitHub);
    (if wanted then [SuspendActions] else []) +
    if wanted && w.suspend.Fail? then [] else
    [ConfigureAndPush(HasPat(cfg))] +
    if w.push.Fail? || !wanted then [] else
    [ResumeActions]
  }

  predicate Published(cfg: AppConfig, hasGitHub: bool, w: Replies)
  {
    w.push.Pass? && (SuspendWanted(cfg, hasGitHub) ==> w.suspend.Pass? && w.resume.Pass?)
  }

  function PublishError(cfg: AppConfig, hasGitHub: bool, w: Replies): string
    requires !Published(cfg, hasGitHub, w)
  {
    if SuspendWanted(cfg, hasGitHub) && w.suspend.Fail? then w.suspend.error
    else if w.push.Fail? then w.push.error
    else w.resume.error
  }

  /** `actionsWereSuspended` when steps 9 to 11 end: the suspension returned, and either the
      push or the resume then threw. */
  predicate SuspendedAtExit(cfg: AppConfig, hasGitHub: bool, w: Replies)
  {
    SuspendWanted(cfg, hasGitHub) && w.suspend.Pass? && (w.push.Fail? || w.resume.Fail?)
  }

  // ---------------------------------------------------------------------------
  // The whole run
  // ---------------------------------------------------------------------------

  /** Every step of the `try` block returned. */
  predicate Restored(cfg: AppConfig, hasGitHub: bool, w: Replies)
  {
    Unlocked(w) && Recovered(w) && Published(cfg, hasGitHub, w)
  }

  /** What the `try` block issues before the cleanup, each phase only once the previous one
      returned. */
  function TrySteps(cfg: AppConfig, hasGitHub: bool, fileVersionId: string, w: Replies): seq<Step>
  {
    IdentitySteps(cfg, w) +
    if !Unlocked(w) then [] else
    RecoverySteps(cfg, fileVersionId, w) +
    if !Recovered(w) then [] else
    PublishSteps(cfg, hasGitHub, w)
  }

  /** The message of the step that threw. */
  function Failure(cfg: AppConfig, hasGitHub: bool, w: Replies): string
    requires !Restored(cfg, hasGitHub, w)
  {
    if !Unlocked(w) then IdentityError(w)
    else if !Recovered(w) then RecoveryError(w)
    else PublishError(cfg, hasGitHub, w)
  }

  /** The flag the failure handler sees. */
  predicate SuspendedOnFailure(cfg: AppConfig, hasGitHub: bool, w: Replies)
  {
    Unlocked(w) && Recovered(w) && SuspendedAtExit(cfg, hasGitHub, w)
  }

  /** `workflowsSuspended` and the summary's flag: asked for and a restore token given,
      whether or not a GitHub service was there to do it. */
  predicate ReportsSuspension(cfg: AppConfig)
  {
    cfg.inputs.suspendActions && HasPat(cfg)
  }

  /** The paths `cleanupTemporaryFiles` removes. */
  function CleanupPaths(cfg: AppConfig): seq<string>
  {
    [cfg.files.sourceArchiveDir, cfg.files.tarArchiveFile, cfg.files.compressedArchiveFile]
  }

  /** One removal per path, in order. */
  function Removals(paths: seq<string>): (s: seq<Step>)
    ensures |s| == |paths| && forall i | 0 <= i < |s| :: s[i] == Remove(paths[i])
  {
    seq(|paths|, i requires 0 <= i < |paths| => Remove(paths[i]))
  }

  /** What follows the `try` block's steps: on success the cleanup and the summary; on
      failure a resume when Actions are still suspended, then the cleanup. */
  function FinalSteps(cfg: AppConfig, hasGitHub: bool, fileVersionId: string, w: Replies): seq<Step>
  {
    if Restored(cfg, hasGitHub, w) then
      Removals(CleanupPaths(cfg)) + [Notice(Summary(fileVersionId, ReportsSuspension(cfg)))]
    else
      (if SuspendedOnFailure(cfg, hasGitHub, w) && hasGitHub then [ResumeActions] else [])
      + Removals(CleanupPaths(cfg))
  }

  /** Everything `execute` issues once the configuration is read. */
  function Appended(cfg: AppConfig, hasGitHub: bool, fileVersionId: string, w: Replies): seq<Step>
  {
    TrySteps(cfg, hasGitHub, fileVersionId, w) + FinalSteps(cfg, hasGitHub, fileVersionId, w)
  }

  /** The result `execute` returns once the configuration is read. */
  function ResultOf(cfg: AppConfig, hasGitHub: bool, fileVersionId: string, w: Replies): (r: RestoreResult)
    ensures r.RestoreSucceeded? <==> Restored(cfg, hasGitHub, w)
    ensures r.RestoreSucceeded? ==>
      r == RestoreSucceeded(SucceededMessage, fileVersionId, ReportsSuspension(cfg))
    ensures r.RestoreFailed? ==> r.message == FailedPrefix + Failure(cfg, hasGitHub, w)
  {
    if Restored(cfg, hasGitHub, w) then RestoreSucceeded(SucceededMessage, fileVersionId, ReportsSuspension(cfg))
    else RestoreFailed(FailedPrefix + Failure(cfg, hasGitHub, w))
  }

  // ---------------------------------------------------------------------------
  // What the run guarantees
  // ---------------------------------------------------------------------------

  predicate IsRecoveryStep(s: Step)
  {
    s.Download? || s.Decrypt? || s.WriteFile? || s.Decompress? || s.Extract?
    || s.SyncRemoteBranches? || s.FilterWorkflowDirectory? || s.SuspendActions?
    || s.ConfigureAndPush? || s.ResumeActions?
  }

  /** An OTP that is not confirmed stops the run before the download: nothing is
      downloaded, decrypted, unpacked, pushed or suspended, and the failure says why. */
  lemma {:induction false} UnconfirmedOtpStopsBeforeDownload(cfg: AppConfig, hasGitHub: bool, fileVersionId: string, w: Replies)
    requires w.auth.Ok? && w.otp.Ok? && w.verified == Ok(false)
    ensures forall i | 0 <= i < |Appended(cfg, hasGitHub, fileVersionId, w)| ::
      !IsRecoveryStep(Appended(cfg, hasGitHub, fileVersionId, w)[i])
    ensures ResultOf(cfg, hasGitHub, fileVersionId, w) == RestoreFailed(FailedPrefix + OtpRejected)
  {
    var s := Appended(cfg, hasGitHub, fileVersionId, w);
    var id := IdentitySteps(cfg, w);
    var rm := Removals(CleanupPaths(cfg));
    assert s == id + rm;
    forall i | 0 <= i < |s|
      ensures !IsRecoveryStep(s[i])
    {
      if i < |id| {
        assert s[i] == id[i];
      } else {
        assert s[i] == rm[i - |id|];
      }
    }
  }

  /** The steps the lemmas below count. */
  predicate IsCounted(s: Step)
  {
    s.SyncRemoteBranches? || s.FilterWorkflowDirectory? || s.SuspendActions? || s.ResumeActions?
  }

  /** A sequence without counted steps holds none of them. */
  lemma NotCounted(s: seq<Step>, x: Step)
    requires IsCounted(x)
    requires forall i | 0 <= i < |s| :: !IsCounted(s[i])
    ensures multiset(s)[x] == 0
  {
    assert x !in s;
  }

  /** The identity steps, the removals and the summary are none of the counted steps. */
  lemma OutsideSteps(cfg: AppConfig, hasGitHub: bool, fileVersionId: string, w: Replies, x: Step)
    requires IsCounted(x)
    ensures multiset(IdentitySteps(cfg, w))[x] == 0
    ensures multiset(Removals(CleanupPaths(cfg)))[x] == 0
    ensures multiset([Notice(Summary(fileVersionId, ReportsSuspension(cfg)))])[x] == 0
  {
    NotCounted(IdentitySteps(cfg, w), x);
    NotCounted(Removals(CleanupPaths(cfg)), x);
  }

  /** How often a counted step occurs in a run, phase by phase. */
  lemma CountByPhase(cfg: AppConfig, hasGitHub: bool, fileVersionId: string, w: Replies, x: Step)
    requires IsCounted(x)
    ensures multiset(Appended(cfg, hasGitHub, fileVersionId, w))[x] ==
      (if Unlocked(w) then multiset(RecoverySteps(cfg, fileVersionId, w))[x] else 0)
      + (if Unlocked(w) && Recovered(w) then multiset(PublishSteps(cfg, hasGitHub, w))[x] else 0)
      + (if SuspendedOnFailure(cfg, hasGitHub, w) && hasGitHub && x == ResumeActions then 1 else 0)
  {
    OutsideSteps(cfg, hasGitHub, fileVersionId, w, x);
    FinalCount(cfg, hasGitHub, fileVersionId, w, x);
    var t := TrySteps(cfg, hasGitHub, fileVersionId, w);
    if Unlocked(w) {
      var rec := RecoverySteps(cfg, fileVersionId, w);
      if Recovered(w) {
        assert t == IdentitySteps(cfg, w) + (rec + PublishSteps(cfg, hasGitHub, w));
      } else {
        assert t == IdentitySteps(cfg, w) + (rec + []);
      }
    }
  }

  /** After the `try` block only the failure handler's resume is counted. */
  lemma FinalCount(cfg: AppConfig, hasGitHub: bool, fileVersionId: string, w: Replies, x: Step)
    requires IsCounted(x)
    ensures multiset(FinalSteps(cfg, hasGitHub, fileVersionId, w))[x] ==
      if SuspendedOnFailure(cfg, hasGitHub, w) && hasGitHub && x == ResumeActions then 1 else 0
  {
    OutsideSteps(cfg, hasGitHub, fileVersionId, w, x);
    var rm := Removals(CleanupPaths(cfg));
    var final := FinalSteps(cfg, hasGitHub, fileVersionId, w);
    if Restored(cfg, hasGitHub, w) {
      assert final == rm + [Notice(Summary(fileVersionId, ReportsSuspension(cfg)))];
    } else if SuspendedOnFailure(cfg, hasGitHub, w) && hasGitHub {
      assert final == [ResumeActions] + rm;
    } else {
      assert final == rm;
    }
  }

  /** Step 8 runs exactly once when the archive was unpacked, and never otherwise; the branch
      sync runs only with a restore token and the history filter only without one. */
  lemma PrepareRunsOnce(cfg: AppConfig, hasGitHub: bool, fileVersionId: string, w: Replies)
    ensures var s := Appended(cfg, hasGitHub, fileVersionId, w);
      var mirror := cfg.files.sourceArchiveDir;
      && multiset(s)[SyncRemoteBranches(mirror)] + multiset(s)[FilterWorkflowDirectory(mirror)]
         == (if Unlocked(w) && Unpacked(w) then 1 else 0)
      && (HasPat(cfg) ==> multiset(s)[FilterWorkflowDirectory(mirror)] == 0)
      && (!HasPat(cfg) ==> multiset(s)[SyncRemoteBranches(mirror)] == 0)
  {
    var mirror := cfg.files.sourceArchiveDir;
    var sync, filter := SyncRemoteBranches(mirror), FilterWorkflowDirectory(mirror);
    CountByPhase(cfg, hasGitHub, fileVersionId, w, sync);
    CountByPhase(cfg, hasGitHub, fileVersionId, w, filter);
    if Unlocked(w) {
      RecoveryPrepares(cfg, fileVersionId, w);
    }
    if Unlocked(w) && Recovered(w) {
      PublishCounts(cfg, hasGitHub, w);
    }
  }

  /** The recovery phase prepares the mirror once, the way the token decides, when the
      archive was unpacked; it neither suspends nor resumes. */
  lemma RecoveryPrepares(cfg: AppConfig, fileVersionId: string, w: Replies)
    requires Unlocked(w)
    ensures var m := multiset(RecoverySteps(cfg, fileVersionId, w));
      var mirror := cfg.files.sourceArchiveDir;
      && m[SyncRemoteBranches(mirror)] == (if Unpacked(w) && HasPat(cfg) then 1 else 0)
      && m[FilterWorkflowDirectory(mirror)] == (if Unpacked(w) && !HasPat(cfg) then 1 else 0)
      && m[SuspendActions] == 0 && m[ResumeActions] == 0
  {
    var unpack := UnpackSteps(cfg, fileVersionId, w);
    var mirror := cfg.files.sourceArchiveDir;
    NotCounted(unpack, SyncRemoteBranches(mirror));
    NotCounted(unpack, FilterWorkflowDirectory(mirror));
    NotCounted(unpack, SuspendActions);
    NotCounted(unpack, ResumeActions);
  }

  /** The publishing phase suspends once when asked to, resumes once when the suspension and
      the push returned, and prepares nothing. */
  lemma PublishCounts(cfg: AppConfig, hasGitHub: bool, w: Replies)
    ensures var m := multiset(PublishSteps(cfg, hasGitHub, w));
      var mirror := cfg.files.sourceArchiveDir;
      && m[SuspendActions] == (if SuspendWanted(cfg, hasGitHub) then 1 else 0)
      && m[ResumeActions] == (if SuspendWanted(cfg, hasGitHub) && w.suspend.Pass? && w.push.Pass? then 1 else 0)
      && m[SyncRemoteBranches(mirror)] == 0 && m[FilterWorkflowDirectory(mirror)] == 0
  {
  }

  /** Actions are suspended at most once, and only when asked for, with a GitHub service,
      and with a restore token. */
  lemma SuspendOnlyWithPat(cfg: AppConfig, hasGitHub: bool, fileVersionId: string, w: Replies)
    ensures var s := Appended(cfg, hasGitHub, fileVersionId, w);
      && multiset(s)[SuspendActions] <= 1
      && (SuspendActions in s ==> cfg.inputs.suspendActions && hasGitHub && HasPat(cfg))
  {
    CountByPhase(cfg, hasGitHub, fileVersionId, w, SuspendActions);
    if Unlocked(w) {
      RecoveryPrepares(cfg, fileVersionId, w);
    }
    if Unlocked(w) && Recovered(w) {
      PublishCounts(cfg, hasGitHub, w);
    }
  }

  /** Once the suspension returned, Actions are resumed on every way out: once, right after
      the push, when that resume returns, and otherwise again by the failure handler; with no
      returned suspension they are never resumed. */
  lemma ResumeFollowsSuspend(cfg: AppConfig, hasGitHub: bool, fileVersionId: string, w: Replies)
    ensures var s := Appended(cfg, hasGitHub, fileVersionId, w);
      var suspended := Unlocked(w) && Recovered(w) && SuspendWanted(cfg, hasGitHub) && w.suspend.Pass?;
      multiset(s)[ResumeActions] ==
        if !suspended then 0
        else if w.push.Pass? && w.resume.Fail? then 2
        else 1
  {
    CountByPhase(cfg, hasGitHub, fileVersionId, w, ResumeActions);
    if Unlocked(w) {
      RecoveryPrepares(cfg, fileVersionId, w);
    }
    if Unlocked(w) && Recovered(w) {
      PublishCounts(cfg, hasGitHub, w);
    }
  }

  /** The temporary paths are removed on success and on failure alike, after everything
      else the run issues except the success summary. */
  lemma CleanupOnEveryPath(cfg: AppConfig, hasGitHub: bool, fileVersionId: string, w: Replies)
    ensures var s := Appended(cfg, hasGitHub, fileVersionId, w);
      var rm := Removals(CleanupPaths(cfg));
      var after := if Restored(cfg, hasGitHub, w) then 1 else 0;
      && |s| >= |rm| + after
      && s[|s| - after - |rm|..|s| - after] == rm
      && (Restored(cfg, hasGitHub, w) ==> s[|s| - 1] == Notice(Summary(fileVersionId, ReportsSuspension(cfg))))
  {
    var rm := Removals(CleanupPaths(cfg));
    var pre := AheadOfCleanup(cfg, hasGitHub, fileVersionId, w);
    var post := if Restored(cfg, hasGitHub, w) then [Notice(Summary(fileVersionId, ReportsSuspension(cfg)))] else [];
    AppendedAroundCleanup(cfg, hasGitHub, fileVersionId, w);
    Between(pre, rm, post);
  }

  /** What a run issues before its removals: the try block and, on a failure after the
      actions were suspended, the resume. */
  function AheadOfCleanup(cfg: AppConfig, hasGitHub: bool, fileVersionId: string, w: Replies): seq<Step>
  {
    TrySteps(cfg, hasGitHub, fileVersionId, w)
    + if !Restored(cfg, hasGitHub, w) && SuspendedOnFailure(cfg, hasGitHub, w) && hasGitHub then [ResumeActions] else []
  }

  lemma AppendedAroundCleanup(cfg: AppConfig, hasGitHub: bool, fileVersionId: string, w: Replies)
    ensures Appended(cfg, hasGitHub, fileVersionId, w)
            == AheadOfCleanup(cfg, hasGitHub, fileVersionId, w) + Removals(CleanupPaths(cfg))
               + if Restored(cfg, hasGitHub, w) then [Notice(Summary(fileVersionId, ReportsSuspension(cfg)))] else []
  {
    var t := TrySteps(cfg, hasGitHub, fileVersionId, w);
    var rm := Removals(CleanupPaths(cfg));
    if Restored(cfg, hasGitHub, w) {
      assert AheadOfCleanup(cfg, hasGitHub, fileVersionId, w) == t + [];
      AppendAssoc(t, rm, [Notice(Summary(fileVersionId, ReportsSuspension(cfg)))]);
    } else {
      var resume := if SuspendedOnFailure(cfg, hasGitHub, w) && hasGitHub then [ResumeActions] else [];
      AppendAssoc(t, resume, rm);
      assert t + resume + rm == t + resume + rm + [];
    }
  }

  /** Where the middle part of a concatenation sits. */
  lemma Between<T>(pre: seq<T>, mid: seq<T>, post: seq<T>)
    ensures var s := pre + mid + post;
      |s| >= |mid| + |post| && s[|s| - |post| - |mid|..|s| - |post|] == mid
      && (post != [] ==> s[|s| - 1] == post[|post| - 1])
  {
    var s := pre + mid + post;
    assert s[|pre|..|pre| + |mid|] == mid;
  }

  // ---------------------------------------------------------------------------
  // The service
  // ---------------------------------------------------------------------------

  class RestoreWorkflowService {
    const configService: Config.ConfigService
    /** Whether the container handed over a GitHub service (it does when there is a
        restore token). */
    const hasGitHub: bool
    var initialized: bool
    /** The steps issued so far, oldest first. */
    var trace: seq<Step>

    constructor (configService: Config.ConfigService, hasGitHub: bool)
      ensures this.configService == configService && this.hasGitHub == hasGitHub
      ensures !initialized && trace == []
    {
      this.configService := configService;
      this.hasGitHub := hasGitHub;
      initialized := false;
      trace := [];
    }

    /** `initialize()`: `onInitialize` initialises the configuration service, then the crypto,
        compression, git, API and OTP services and, when there is one, the GitHub service
        (`others`, in that order); the first one that throws is rethrown and leaves the
        workflow uninitialised. */
    method Initialize(others: seq<Outcome>) returns (r: Outcome)
      requires |others| == if hasGitHub then 6 else 5
      modifies this, configService
      ensures old(initialized) ==> r == Pass && unchanged(configService)
      ensures !old(initialized) ==>
        r == Base.InSequence(
          [if old(configService.initialized) then Pass else Config.BuildConfig(configService.env).ToOutcome()] + others)
      ensures initialized <==> old(initialized) || r.Pass?
      ensures trace == old(trace)
    {
      if initialized {
        return Pass;
      }
      var c := configService.Initialize();
      r := Base.InSequence([c] + others);
      if r.Pass? {
        initialized := true;
      }
    }

    /** `execute(fileVersionId)`. Before initialisation the guard throws. Otherwise the result
        is always returned: when the configuration cannot be read the failure is reported
        and nothing is issued; when it can, the steps run, Actions are resumed if a failure
        left them suspended, and the temporary files are removed. */
    method Execute(fileVersionId: string, w: Replies) returns (r: Result<RestoreResult>)
      modifies this
      ensures initialized == old(initialized)
      ensures !initialized ==> r == Err(Base.NotInitializedMessage(ClassName)) && trace == old(trace)
      ensures initialized && configService.GetConfig().Err? ==>
        && r == Ok(RestoreFailed(FailedPrefix + configService.GetConfig().error))
        && trace == old(trace)
      ensures initialized && configService.GetConfig().Ok? ==>
        var cfg := configService.GetConfig().value;
        && r == Ok(ResultOf(cfg, hasGitHub, fileVersionId, w))
        && trace == old(trace) + Appended(cfg, hasGitHub, fileVersionId, w)
    {
      var guard := Base.EnsureInitialized(initialized, ClassName);
      if guard.Fail? {
        return Err(guard.error);
      }
      var config := configService.GetConfig();
      if config.Err? {
        // the handler's own `getConfig()` throws again, so no cleanup is attempted
        return Ok(RestoreFailed(FailedPrefix + config.error));
      }
      var cfg := config.value;
      ghost var start := trace;
      var outcome, actionsWereSuspended := RunSteps(cfg, fileVersionId, w);
      var result := Conclude(cfg, fileVersionId, outcome, actionsWereSuspended, w);
      r := Ok(result);
      AppendAssoc(start, TrySteps(cfg, hasGitHub, fileVersionId, w), FinalSteps(cfg, hasGitHub, fileVersionId, w));
    }

    /** After the steps: on success the cleanup and the summary; on failure the resume of
        Actions left suspended (its own failure is only logged) and the cleanup. */
    method Conclude(cfg: AppConfig, fileVersionId: string, outcome: Outcome, actionsWereSuspended: bool, ghost w: Replies)
      returns (r: RestoreResult)
      requires outcome.Pass? <==> Restored(cfg, hasGitHub, w)
      requires outcome.Fail? ==> outcome.error == Failure(cfg, hasGitHub, w)
      requires actionsWereSuspended <==> SuspendedOnFailure(cfg, hasGitHub, w)
      modifies this
      ensures r == ResultOf(cfg, hasGitHub, fileVersionId, w)
      ensures trace == old(trace) + FinalSteps(cfg, hasGitHub, fileVersionId, w)
      ensures initialized == old(initialized)
    {
      if outcome.Pass? {
        CleanupTemporaryFiles(CleanupPaths(cfg));
        var workflowsSuspended := cfg.inputs.suspendActions && HasPat(cfg);
        trace := trace + [Notice(Summary(fileVersionId, workflowsSuspended))];
        return RestoreSucceeded(SucceededMessage, fileVersionId, workflowsSuspended);
      }
      if actionsWereSuspended && hasGitHub {
        trace := trace + [ResumeActions];
      }
      CleanupTemporaryFiles(CleanupPaths(cfg));
      r := RestoreFailed(FailedPrefix + outcome.error);
    }

    /** The steps of the `try` block before the cleanup, phase by phase; `suspended` is
        `actionsWereSuspended` on the way out. */
    method RunSteps(cfg: AppConfig, fileVersionId: string, w: Replies) returns (r: Outcome, suspended: bool)
      modifies this
      ensures r.Pass? <==> Restored(cfg, hasGitHub, w)
      ensures r.Fail? ==> r.error == Failure(cfg, hasGitHub, w)
      ensures suspended <==> SuspendedOnFailure(cfg, hasGitHub, w)
      ensures trace == old(trace) + TrySteps(cfg, hasGitHub, fileVersionId, w)
      ensures initialized == old(initialized)
    {
      suspended := false;
      r := VerifyIdentity(cfg, w);
      if r.Fail? {
        return;
      }
      r := RecoverRepository(cfg, fileVersionId, w);
      if r.Fail? {
        assert trace == old(trace) + (IdentitySteps(cfg, w) + (RecoverySteps(cfg, fileVersionId, w) + []));
        return;
      }
      r, suspended := Publish(cfg, w);
      assert trace == old(trace) + (IdentitySteps(cfg, w) + (RecoverySteps(cfg, fileVersionId, w) + PublishSteps(cfg, hasGitHub, w)));
    }

    /** Steps 1 to 3: authenticate, give the token to the OTP service, request an OTP and
        wait for it; an OTP that is not confirmed throws. */
    method VerifyIdentity(cfg: AppConfig, w: Replies) returns (r: Outcome)
      modifies this
      ensures r.Pass? <==> Unlocked(w)
      ensures r.Fail? ==> r.error == IdentityError(w)
      ensures trace == old(trace) + IdentitySteps(cfg, w)
      ensures initialized == old(initialized)
    {
      trace := trace + [Authenticate(cfg.inputs.activationCode)];
      if w.auth.Err? {
        return Fail(w.auth.error);
      }
      var authResponse := w.auth.value;
      trace := trace + [SetOtpToken(authResponse.token), RequestOtp(cfg.inputs.otpDeliveryMethod)];
      if w.otp.Err? {
        return Fail(w.otp.error);
      }
      var otpResponse := w.otp.value;
      trace := trace + [WaitForOtp(otpResponse.uniqueKey, otpResponse.expiresAt)];
      if w.verified.Err? {
        return Fail(w.verified.error);
      }
      if !w.verified.value {
        return Fail(OtpRejected);
      }
      r := Pass;
    }

    /** Steps 4 to 8: download, decrypt, write, decompress, unpack, then either sync the
        remote branches (with a restore token) or filter the workflow directory out of the
        history (without one). */
    method RecoverRepository(cfg: AppConfig, fileVersionId: string, w: Replies) returns (r: Outcome)
      requires Unlocked(w)
      modifies this
      ensures r.Pass? <==> Recovered(w)
      ensures r.Fail? ==> r.error == RecoveryError(w)
      ensures trace == old(trace) + RecoverySteps(cfg, fileVersionId, w)
      ensures initialized == old(initialized)
    {
      var files := cfg.files;
      trace := trace + [Download(fileVersionId, w.auth.value.token, w.otp.value.uniqueKey)];
      if w.download.Err? {
        return Fail(w.download.error);
      }
      trace := trace + [Decrypt(w.download.value, cfg.inputs.encryptionPassword)];
      if w.decrypt.Err? {
        return Fail(w.decrypt.error);
      }
      trace := trace + [WriteFile(files.compressedArchiveFile, w.decrypt.value)];
      if w.write.Fail? {
        return w.write;
      }
      trace := trace + [Decompress(files.compressedArchiveFile, files.tarArchiveFile)];
      if w.decompress.Fail? {
        return w.decompress;
      }
      trace := trace + [Extract(files.tarArchiveFile, ExtractDirectory)];
      if w.extract.Fail? {
        return w.extract;
      }
      var hasPatToken := cfg.inputs.restoreToken != "";
      if hasPatToken {
        trace := trace + [SyncRemoteBranches(files.sourceArchiveDir)];
      } else {
        trace := trace + [FilterWorkflowDirectory(files.sourceArchiveDir)];
      }
      r := w.prepare;
    }

    /** Steps 9 to 11: suspend Actions when asked to (with a GitHub service and a restore
        token), push, and resume them; `suspended` is `actionsWereSuspended` on the way
        out. */
    method Publish(cfg: AppConfig, w: Replies) returns (r: Outcome, suspended: bool)
      modifies this
      ensures r.Pass? <==> Published(cfg, hasGitHub, w)
      ensures r.Fail? ==> r.error == PublishError(cfg, hasGitHub, w)
      ensures suspended <==> SuspendedAtExit(cfg, hasGitHub, w)
      ensures trace == old(trace) + PublishSteps(cfg, hasGitHub, w)
      ensures initialized == old(initialized)
    {
      suspended := false;
      var hasPatToken := cfg.inputs.restoreToken != "";
      if cfg.inputs.suspendActions && hasGitHub && hasPatToken {
        trace := trace + [SuspendActions];
        if w.suspend.Fail? {
          return w.suspend, suspended;
        }
        suspended := true;
      }
      trace := trace + [ConfigureAndPush(hasPatToken)];
      if w.push.Fail? {
        return w.push, suspended;
      }
      if suspended && hasGitHub {
        trace := trace + [ResumeActions];
        if w.resume.Fail? {
          return w.resume, suspended;
        }
        suspended := false;
      }
      r := Pass;
    }

    /** `cleanupTemporaryFiles(config)`: each path is removed (recursively, ignoring a missing
        one) in turn; a removal that throws is only logged, so every path is tried. */
    method CleanupTemporaryFiles(paths: seq<string>)
      modifies this
      ensures trace == old(trace) + Removals(paths)
      ensures initialized == old(initialized)
    {
      for i := 0 to |paths|
        invariant trace == old(trace) + Removals(paths[..i])
        invariant initialized == old(initialized)
      {
        trace := trace + [Remove(paths[i])];
        assert Removals(paths[..i + 1]) == Removals(paths[..i]) + [Remove(paths[i])];
      }
      assert paths[..|paths|] == paths;
    }
  }
}
