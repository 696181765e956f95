/** `BackupWorkflowService` (src/services/workflow/backup-workflow.service.ts): mirror-clone
    the repository, archive, compress and encrypt it, then upload it to the vault. Every call
    into another service, the file system or the remote API is an abstract step: the workflow
    records the steps it issues in `trace`, and what each step answers is a parameter
    (`Replies`). The pipeline stops at the first step that throws, and `execute` turns that
    error into a failed result instead of letting it escape. */
module Backup {
  import opened Wrappers
  import opened Records
  import Strings
  import Base
  import Config
  import Crypto
  import DataMapper

  const ClassName := "BackupWorkflowService"
  const SucceededMessage := "Backup completed successfully"
  const FailedPrefix := "Backup failed: "
  /** The working copy the mirror clone is taken from. */
  const WorkingDirectory := "."

  /** What the run reads from its surroundings: `GITHUB_REPOSITORY` (names the encrypted
      file), `OWNER_TYPE` and the Actions context (both go into the upload metadata). */
  datatype RunEnv = RunEnv(repository: Option<string>, ownerType: Option<string>, context: RunContext)

  /** What the summary notice shows: the file version, the dashboard link, and the commit
      block when there is a commit. */
  datatype Summary = Summary(recordId: string, fileLink: string, uploadMetadata: string)

  /** The effects `execute` issues, in the order it issues them. */
  datatype Step =
    | MirrorClone(source: string, target: string)
    | ReadCommitInfo
    | CreateTar(sourceDir: string, tarFile: string)
    | Compress(input: string, output: string)
    | Encrypt(input: string, password: string)
    | WriteFile(path: string, contents: Bytes)
    | Authenticate(activationCode: string)
    | Upload(record: FileUploadData, token: string)
    | Notice(summary: Summary)
    | Remove(path: string)

  /** What each awaited call returns or throws on this run. */
  datatype Replies = Replies(
    clone: Outcome,
    commit: Result<CommitInfo>,
    tar: Result<nat>,
    compress: Result<nat>,
    encrypt: Result<Bytes>,
    write: Outcome,
    auth: Result<AuthTokenResponse>,
    upload: Result<BackupUploadResponse>)

  /** The pipeline has eight steps, from the mirror clone to the upload. */
  const Stages := 8

  /** Where a step sits in the fixed order; the summary and the removals come after the
      pipeline. */
  function StageOf(s: Step): nat
  {
    match s
    case MirrorClone(_, _) => 0
    case ReadCommitInfo => 1
    case CreateTar(_, _) => 2
    case Compress(_, _) => 3
    case Encrypt(_, _) => 4
    case WriteFile(_, _) => 5
    case Authenticate(_) => 6
    case Upload(_, _) => 7
    case Notice(_) => 8
    case Remove(_) => 9
  }

  /** Whether the `i`-th pipeline step returned or threw. */
  function Verdict(w: Replies, i: nat): Outcome
    requires i < Stages
  {
    if i == 0 then w.clone
    else if i == 1 then w.commit.ToOutcome()
    else if i == 2 then w.tar.ToOutcome()
    else if i == 3 then w.compress.ToOutcome()
    else if i == 4 then w.encrypt.ToOutcome()
    else if i == 5 then w.write
    else if i == 6 then w.auth.ToOutcome()
    else w.upload.ToOutcome()
  }

  /** Every step of the pipeline returned. */
  predicate Completed(w: Replies)
  {
    w.clone.Pass? && w.commit.Ok? && w.tar.Ok? && w.compress.Ok? && w.encrypt.Ok?
    && w.write.Pass? && w.auth.Ok? && w.upload.Ok?
  }

  /** `getEncryptedFileName(password)`: where the encrypted archive is written. */
  function EncryptedFileName(cfg: AppConfig, env: RunEnv): string
  {
    Crypto.GetEncryptedFileName(env.repository, cfg.inputs.encryptionPassword)
  }

  /** The upload record: the encrypted buffer under the encrypted file name, with the tar
      size as the original size and the buffer's length as the stored size. */
  function UploadData(cfg: AppConfig, env: RunEnv, commit: CommitInfo, tarSize: nat, buffer: Bytes): FileUploadData
  {
    DataMapper.CreateUploadData(env.context, env.ownerType, buffer, EncryptedFileName(cfg, env), tarSize, |buffer|, commit, cfg)
  }

  /** The five steps that build the encrypted archive all returned, and so did writing it. */
  predicate Archived(w: Replies)
  {
    w.clone.Pass? && w.commit.Ok? && w.tar.Ok? && w.compress.Ok? && w.encrypt.Ok? && w.write.Pass?
  }

  /** Index of the first step that throws, or `Stages` when none does. */
  function FirstFailure(w: Replies): (k: nat)
    ensures k <= Stages
    ensures forall j | 0 <= j < k :: Verdict(w, j).Pass?
    ensures k < Stages ==> Verdict(w, k).Fail?
  {
    FirstFailureFrom(w, 0)
  }

  function FirstFailureFrom(w: Replies, i: nat): (k: nat)
    requires i <= Stages
    ensures i <= k <= Stages
    ensures forall j | i <= j < k :: Verdict(w, j).Pass?
    ensures k < Stages ==> Verdict(w, k).Fail?
    decreases Stages - i
  {
    if i == Stages then Stages
    else if Verdict(w, i).Fail? then i
    else FirstFailureFrom(w, i + 1)
  }

  /** Steps 1 to 6: mirror clone, commit info, tar, zstd, encryption and writing the
      encrypted file, each issued only once the previous one returned. */
  function ArchiveSteps(cfg: AppConfig, env: RunEnv, w: Replies): (s: seq<Step>)
    ensures 1 <= |s| <= 6
    ensures forall i | 0 <= i < |s| :: StageOf(s[i]) == i
    ensures forall i | 0 <= i < |s| - 1 :: Verdict(w, i).Pass?
    ensures |s| < 6 ==> Verdict(w, |s| - 1).Fail?
    ensures |s| == 6 && Verdict(w, 5).Pass? <==> Archived(w)
  {
    var files := cfg.files;
    [MirrorClone(WorkingDirectory, files.sourceArchiveDir)] +
    if w.clone.Fail? then [] else
    [ReadCommitInfo] +
    if w.commit.Err? then [] else
    [CreateTar(files.sourceArchiveDir, files.tarArchiveFile)] +
    if w.tar.Err? then [] else
    [Compress(files.tarArchiveFile, files.compressedArchiveFile)] +
    if w.compress.Err? then [] else
    [Encrypt(files.compressedArchiveFile, cfg.inputs.encryptionPassword)] +
    if w.encrypt.Err? then [] else
    [WriteFile(EncryptedFileName(cfg, env), w.encrypt.value)]
  }

  /** Steps 7 and 8: authentication, then the upload of what the archive steps produced. */
  function DeliverySteps(cfg: AppConfig, env: RunEnv, w: Replies): (s: seq<Step>)
    requires Archived(w)
    ensures |s| == if w.auth.Err? then 1 else 2
    ensures forall i | 0 <= i < |s| :: StageOf(s[i]) == 6 + i
  {
    [Authenticate(cfg.inputs.activationCode)] +
    if w.auth.Err? then [] else
    [Upload(UploadData(cfg, env, w.commit.value, w.tar.value, w.encrypt.value), w.auth.value.token)]
  }

  /** The steps of the pipeline that run, in the fixed order: each one only after all
      earlier ones returned, up to and including the first that throws. */
  function Issued(cfg: AppConfig, env: RunEnv, w: Replies): (s: seq<Step>)
    ensures 1 <= |s| <= Stages
    ensures forall i | 0 <= i < |s| :: StageOf(s[i]) == i
    ensures forall i | 0 <= i < |s| - 1 :: Verdict(w, i).Pass?
    ensures |s| < Stages ==> Verdict(w, |s| - 1).Fail?
  {
    var archive := ArchiveSteps(cfg, env, w);
    if Archived(w) then
      var delivery := DeliverySteps(cfg, env, w);
      assert forall i | |archive| <= i < |archive| + |delivery| :: (archive + delivery)[i] == delivery[i - |archive|];
      archive + delivery
    else
      archive
  }

  /** The pipeline stops right after the first step that throws. */
  lemma IssuedUpToFirstFailure(cfg: AppConfig, env: RunEnv, w: Replies)
    ensures |Issued(cfg, env, w)| == if FirstFailure(w) < Stages then FirstFailure(w) + 1 else Stages
  {
    var s := Issued(cfg, env, w);
    var k := FirstFailure(w);
    if |s| < Stages {
      assert Verdict(w, |s| - 1).Fail?;
      assert k == |s| - 1;
    } else if k < Stages {
      assert Verdict(w, k).Fail?;
      assert k == Stages - 1;
    }
  }

  /** The result `execute` returns once the configuration is read: the sizes and record ids
      of the run when every step returned, otherwise the message of the step that threw. */
  function ResultOf(w: Replies): (r: BackupResult)
    ensures r.BackupSucceeded? <==> Completed(w)
    ensures Completed(w) <==> FirstFailure(w) == Stages
    ensures r.BackupSucceeded? ==>
      && r.message == SucceededMessage
      && r.fileSize == w.tar.value && r.compressedSize == w.compress.value
      && r.encryptedSize == |w.encrypt.value|
      && r.recordId == w.upload.value.recordId
      && r.directoryRecordId == w.upload.value.directoryRecordId
      && r.commitInfo == w.commit.value
    ensures r.BackupFailed? ==> r.message == FailedPrefix + Verdict(w, FirstFailure(w)).error
  {
    if w.clone.Fail? then BackupFailed(FailedPrefix + w.clone.error)
    else if w.commit.Err? then BackupFailed(FailedPrefix + w.commit.error)
    else if w.tar.Err? then BackupFailed(FailedPrefix + w.tar.error)
    else if w.compress.Err? then BackupFailed(FailedPrefix + w.compress.error)
    else if w.encrypt.Err? then BackupFailed(FailedPrefix + w.encrypt.error)
    else if w.write.Fail? then BackupFailed(FailedPrefix + w.write.error)
    else if w.auth.Err? then BackupFailed(FailedPrefix + w.auth.error)
    else if w.upload.Err? then BackupFailed(FailedPrefix + w.upload.error)
    else BackupSucceeded(
      SucceededMessage,
      w.upload.value.recordId,
      w.upload.value.directoryRecordId,
      w.tar.value,
      w.compress.value,
      |w.encrypt.value|,
      w.commit.value)
  }

  // ---------------------------------------------------------------------------
  // The summary notice
  // ---------------------------------------------------------------------------

  /** The 50-dash rule between the summary's sections. */
  const Rule := "-" + "-------------------------------------------------"

  /** The start of the commit block, through the full commit hash. */
  function MetadataHead(c: CommitInfo): string
  {
    Rule + "\n**Upload Metadata**\n- Commit:      " + c.hash
  }

  /** The lines after the hash; the commit info has no committer, so "GitHub" is shown in
      its place. */
  function MetadataTail(c: CommitInfo): string
  {
    "\n- CommitShort: " + c.shortHash + "\n- Author:      " + c.author + "\n- Date:        " + c.date
    + "\n- Committer:   GitHub\n- Message:     " + c.message + "\n"
  }

  /** `uploadMetadata` in `displayBackupSummary`: empty exactly when there is no commit
      hash, and otherwise the trimmed block, which opens with the rule and the hash. */
  function UploadMetadata(c: CommitInfo): (r: string)
    ensures r == "" <==> c.hash == ""
    ensures c.hash != "" ==> Strings.StartsWith(r, MetadataHead(c))
  {
    if c.hash == "" then ""
    else
      var head := MetadataHead(c);
      var tail := MetadataTail(c);
      HeadStartsWithDash(c);
      TailStartsWithDash(c);
      TrimKeepsHead(head, tail);
      Strings.Trim("\n" + head + tail)
  }

  /** The block's rule starts the head. */
  lemma HeadStartsWithDash(c: CommitInfo)
    ensures MetadataHead(c) != [] && MetadataHead(c)[0] == '-'
  {
    assert MetadataHead(c) == "-" + ("-------------------------------------------------" + "\n**Upload Metadata**\n- Commit:      " + c.hash);
  }

  /** The line after the hash starts with a dash. */
  lemma TailStartsWithDash(c: CommitInfo)
    ensures |MetadataTail(c)| >= 2 && MetadataTail(c)[1] == '-'
  {
    assert MetadataTail(c) == "\n-" + (" CommitShort: " + c.shortHash + "\n- Author:      " + c.author + "\n- Date:        "
      + c.date + "\n- Committer:   GitHub\n- Message:     " + c.message + "\n");
  }

  /** Trimming a line break, then a piece that starts and is followed by visible text, keeps
      that piece at the front. */
  lemma TrimKeepsHead(head: string, tail: string)
    requires head != [] && !Strings.IsJsWhitespace(head[0])
    requires |tail| >= 2 && !Strings.IsJsWhitespace(tail[1])
    ensures Strings.Trim("\n" + head + tail) != []
    ensures Strings.StartsWith(Strings.Trim("\n" + head + tail), head)
  {
    var block := "\n" + head + tail;
    assert block[1..] == head + tail;
    assert Strings.TrimStart(block) == head + tail by {
      assert block[0] == '\n';
      assert Strings.TrimStart(block) == Strings.TrimStart(block[1..]);
    }
    var t := Strings.TrimEnd(head + tail);
    assert (head + tail)[|head| + 1] == tail[1];
    assert |t| > |head| + 1;
    assert t[..|head|] == (head + tail)[..|head|] == head;
  }

  /** The dashboard link the summary points to. */
  function FileLink(managementBaseUrl: string, endpointId: int, directoryRecordId: string): string
  {
    managementBaseUrl + "/dashboard/file-management/" + Strings.IntToString(endpointId) + "/" + directoryRecordId
  }

  function SummaryOf(cfg: AppConfig, w: Replies): Summary
    requires Completed(w)
  {
    Summary(
      w.upload.value.recordId,
      FileLink(cfg.api.managementBaseUrl, w.auth.value.endpointId, w.upload.value.directoryRecordId),
      UploadMetadata(w.commit.value))
  }

  /** Everything the body of the `try` block issues: the pipeline, then the summary when it
      completed. */
  function Run(cfg: AppConfig, env: RunEnv, w: Replies): seq<Step>
  {
    Issued(cfg, env, w) + if Completed(w) then [Notice(SummaryOf(cfg, w))] else []
  }

  /** The paths `cleanupTemporaryFiles` removes: the mirror, the tar, the compressed archive
      and the encrypted file. */
  function CleanupPaths(cfg: AppConfig, env: RunEnv): seq<string>
  {
    [cfg.files.sourceArchiveDir, cfg.files.tarArchiveFile, cfg.files.compressedArchiveFile, EncryptedFileName(cfg, env)]
  }

  /** One removal per path, in order. */
  function Removals(paths: seq<string>): (s: seq<Step>)
    ensures |s| == |paths| && forall i | 0 <= i < |s| :: s[i] == Remove(paths[i])
  {
    seq(|paths|, i requires 0 <= i < |paths| => Remove(paths[i]))
  }

  /** Every file the pipeline writes is among those cleaned up. */
  lemma WrittenFilesAreCleanedUp(cfg: AppConfig, env: RunEnv, w: Replies)
    ensures forall i | 0 <= i < |Issued(cfg, env, w)| ::
      var s := Issued(cfg, env, w)[i];
      && (s.MirrorClone? ==> s.target in CleanupPaths(cfg, env))
      && (s.CreateTar? ==> s.tarFile in CleanupPaths(cfg, env))
      && (s.Compress? ==> s.output in CleanupPaths(cfg, env))
      && (s.WriteFile? ==> s.path in CleanupPaths(cfg, env))
  {
    var s := Issued(cfg, env, w);
    var paths := CleanupPaths(cfg, env);
    assert paths[0] == cfg.files.sourceArchiveDir && paths[1] == cfg.files.tarArchiveFile;
    assert paths[2] == cfg.files.compressedArchiveFile && paths[3] == EncryptedFileName(cfg, env);
    forall i | 0 <= i < |s|
      ensures s[i].MirrorClone? ==> s[i].target in paths
      ensures s[i].CreateTar? ==> s[i].tarFile in paths
      ensures s[i].Compress? ==> s[i].output in paths
      ensures s[i].WriteFile? ==> s[i].path in paths
    {
      if i == 5 {
        assert s[5] == WriteFile(EncryptedFileName(cfg, env), w.encrypt.value);
      }
    }
  }

  /** The upload sends what the earlier steps produced: the encrypted buffer under the
      encrypted file name, the tar size as the original size, the buffer's length as the
      stored size, the commit that was read, and the token the authentication returned. */
  lemma UploadCarriesArtefacts(cfg: AppConfig, env: RunEnv, w: Replies)
    requires |Issued(cfg, env, w)| == Stages
    ensures var u := Issued(cfg, env, w)[Stages - 1];
      && u.Upload?
      && u.token == w.auth.value.token
      && u.record.file == w.encrypt.value
      && u.record.fileName == EncryptedFileName(cfg, env)
      && u.record.size == w.tar.value
      && u.record.compressedFileSize == |w.encrypt.value|
      && DataMapper.CommitOf(u.record.metadata) == w.commit.value
  {
    var s := Issued(cfg, env, w);
    assert s[7] == Upload(UploadData(cfg, env, w.commit.value, w.tar.value, w.encrypt.value), w.auth.value.token);
  }

  /** A repository without commits still backs up: an all-empty commit info is uploaded as
      it is, and the summary leaves the commit block out. */
  lemma EmptyCommitStillBacksUp(cfg: AppConfig, env: RunEnv, w: Replies)
    requires w.commit == Ok(EmptyCommitInfo)
    requires Completed(w)
    ensures ResultOf(w).BackupSucceeded? && ResultOf(w).commitInfo == EmptyCommitInfo
    ensures SummaryOf(cfg, w).uploadMetadata == ""
    ensures Run(cfg, env, w)[Stages] == Notice(SummaryOf(cfg, w))
  {
    assert |Issued(cfg, env, w)| == Stages;
  }

  // ---------------------------------------------------------------------------
  // The service
  // ---------------------------------------------------------------------------

  class BackupWorkflowService {
    const configService: Config.ConfigService
    const env: RunEnv
    var initialized: bool
    /** The steps issued so far, oldest first. */
    var trace: seq<Step>

    constructor (configService: Config.ConfigService, env: RunEnv)
      ensures this.configService == configService && this.env == env
      ensures !initialized && trace == []
    {
      this.configService := configService;
      this.env := env;
      initialized := false;
      trace := [];
    }

    /** `initialize()`: `onInitialize` initialises the configuration service, then the crypto,
        compression, git and API services (`others`, in that order); the first one that
        throws is rethrown and leaves the workflow uninitialised. */
    method Initialize(others: seq<Outcome>) returns (r: Outcome)
      requires |others| == 4
      modifies this, configService
      ensures old(initialized) ==> r == Pass && unchanged(configService)
      ensures !old(initialized) ==>
        r == Base.InSequence(
          [if old(configService.initialized) then Pass else Config.BuildConfig(configService.env).ToOutcome()] + others)
      ensures initialized <==> old(initialized) || r.Pass?
      ensures trace == old(trace)
    {
      if initialized {
        return Pass;
      }
      var c := configService.Initialize();
      r := Base.InSequence([c] + others);
      if r.Pass? {
        initialized := true;
      }
    }

    /** `execute()`. Before initialisation the guard throws. Otherwise the result is always
        returned: when the configuration cannot be read the failure is reported and nothing
        is issued; when it can, the pipeline runs, and the temporary files are removed on
        success and on failure alike. */
    method Execute(w: Replies) returns (r: Result<BackupResult>)
      modifies this
      ensures initialized == old(initialized)
      ensures !initialized ==> r == Err(Base.NotInitializedMessage(ClassName)) && trace == old(trace)
      ensures initialized && configService.GetConfig().Err? ==>
        && r == Ok(BackupFailed(FailedPrefix + configService.GetConfig().error))
        && trace == old(trace)
      ensures initialized && configService.GetConfig().Ok? ==>
        var cfg := configService.GetConfig().value;
        && r == Ok(ResultOf(w))
        && trace == old(trace) + Run(cfg, env, w) + Removals(CleanupPaths(cfg, env))
    {
      var guard := Base.EnsureInitialized(initialized, ClassName);
      if guard.Fail? {
        return Err(guard.error);
      }
      var config := configService.GetConfig();
      if config.Err? {
        // the handler's own `getConfig()` throws again, so no cleanup is attempted
        return Ok(BackupFailed(FailedPrefix + config.error));
      }
      var cfg := config.value;
      var result := RunPipeline(cfg, w);
      CleanupTemporaryFiles(CleanupPaths(cfg, env));
      r := Ok(result);
    }

    /** The body of the `try` block up to the cleanup: the archive is built and written,
        then delivered; a step that throws ends the block with its message. */
    method RunPipeline(cfg: AppConfig, w: Replies) returns (r: BackupResult)
      modifies this
      ensures r == ResultOf(w)
      ensures trace == old(trace) + Run(cfg, env, w)
      ensures initialized == old(initialized)
    {
      ghost var start := trace;
      var archived := ArchiveRepository(cfg, w);
      if archived.Fail? {
        assert trace == start + ArchiveSteps(cfg, env, w) + [];
        return BackupFailed(FailedPrefix + archived.error);
      }
      r := DeliverArchive(cfg, w);
      ghost var archive, delivery := ArchiveSteps(cfg, env, w), DeliverySteps(cfg, env, w);
      ghost var notice := if Completed(w) then [Notice(SummaryOf(cfg, w))] else [];
      AppendAssoc(start, archive, delivery + notice);
      AppendAssoc(archive, delivery, notice);
    }

    /** Steps 1 to 6, each issued only when the previous one returned. */
    method ArchiveRepository(cfg: AppConfig, w: Replies) returns (r: Outcome)
      modifies this
      ensures r.Pass? <==> Archived(w)
      ensures r.Fail? ==> ResultOf(w) == BackupFailed(FailedPrefix + r.error)
      ensures trace == old(trace) + ArchiveSteps(cfg, env, w)
      ensures initialized == old(initialized)
    {
      var files := cfg.files;
      trace := trace + [MirrorClone(WorkingDirectory, files.sourceArchiveDir)];
      if w.clone.Fail? {
        return w.clone;
      }
      trace := trace + [ReadCommitInfo];
      if w.commit.Err? {
        return Fail(w.commit.error);
      }
      trace := trace + [CreateTar(files.sourceArchiveDir, files.tarArchiveFile)];
      if w.tar.Err? {
        return Fail(w.tar.error);
      }
      trace := trace + [Compress(files.tarArchiveFile, files.compressedArchiveFile)];
      if w.compress.Err? {
        return Fail(w.compress.error);
      }
      trace := trace + [Encrypt(files.compressedArchiveFile, cfg.inputs.encryptionPassword)];
      if w.encrypt.Err? {
        return Fail(w.encrypt.error);
      }
      trace := trace + [WriteFile(EncryptedFileName(cfg, env), w.encrypt.value)];
      r := w.write;
    }

    /** Steps 7 and 8 and the summary: authenticate, upload the record built from the
        archive steps' results, and report the sizes and record ids. */
    method DeliverArchive(cfg: AppConfig, w: Replies) returns (r: BackupResult)
      requires Archived(w)
      modifies this
      ensures r == ResultOf(w)
      ensures trace == old(trace) + DeliverySteps(cfg, env, w) + if Completed(w) then [Notice(SummaryOf(cfg, w))] else []
      ensures initialized == old(initialized)
    {
      var commitInfo := w.commit.value;
      var uncompressedSize := w.tar.value;
      var compressedSize := w.compress.value;
      var encryptedBuffer := w.encrypt.value;
      var encryptedSize := |encryptedBuffer|;
      trace := trace + [Authenticate(cfg.inputs.activationCode)];
      if w.auth.Err? {
        return BackupFailed(FailedPrefix + w.auth.error);
      }
      var authResponse := w.auth.value;
      var uploadData := DataMapper.CreateUploadData(
        env.context, env.ownerType, encryptedBuffer, EncryptedFileName(cfg, env), uncompressedSize, encryptedSize, commitInfo, cfg);
      trace := trace + [Upload(uploadData, authResponse.token)];
      if w.upload.Err? {
        return BackupFailed(FailedPrefix + w.upload.error);
      }
      var uploadResponse := w.upload.value;
      var summary := Summary(
        uploadResponse.recordId,
        FileLink(cfg.api.managementBaseUrl, authResponse.endpointId, uploadResponse.directoryRecordId),
        UploadMetadata(commitInfo));
      trace := trace + [Notice(summary)];
      r := BackupSucceeded(
        SucceededMessage,
        uploadResponse.recordId,
        uploadResponse.directoryRecordId,
        uncompressedSize,
        compressedSize,
        encryptedSize,
        commitInfo);
    }

    /** `cleanupTemporaryFiles(config)`: each path is removed (recursively, ignoring a missing
        one) in turn; a removal that throws is only logged, so every path is tried. */
    method CleanupTemporaryFiles(paths: seq<string>)
      modifies this
      ensures trace == old(trace) + Removals(paths)
      ensures initialized == old(initialized)
    {
      for i := 0 to |paths|
        invariant trace == old(trace) + Removals(paths[..i])
        invariant initialized == old(initialized)
      {
        trace := trace + [Remove(paths[i])];
        assert Removals(paths[..i + 1]) == Removals(paths[..i]) + [Remove(paths[i])];
      }
      assert paths[..|paths|] == paths;
    }
  }
}
