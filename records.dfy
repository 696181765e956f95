/** The record shapes the services exchange (src/types/api.ts, dist/types/github.d.ts,
    dist/types/config.d.ts). They carry no behaviour of their own. */
module Records {
  import opened Wrappers

  /** A Node.js `Buffer` is a sequence of octets. */
  type byte = x: int | 0 <= x < 256
  type Bytes = seq<byte>

  // --- git ---------------------------------------------------------------

  /** Metadata of the commit at HEAD; all fields empty means "no commits yet". */
  datatype CommitInfo = CommitInfo(
    hash: string,
    shortHash: string,
    author: string,
    date: string,
    message: string,
    parents: string)

  const EmptyCommitInfo := CommitInfo("", "", "", "", "", "")

  // --- GitHub Actions ------------------------------------------------------

  /** `GitHubActionsPermissions`: absent optional fields are `None`. */
  datatype Permissions = Permissions(
    enabled: bool,
    allowedActions: Option<string>,
    selectedActionsUrl: Option<string>)

  const EnabledPermissions := Permissions(true, None, None)
  const DisabledPermissions := Permissions(false, None, None)

  /** `WorkflowSuspensionState`. */
  datatype SuspensionState = SuspensionState(
    originalPermissions: Permissions,
    suspendedAt: string,
    filePath: string)

  /** `RepositoryActivationDetails.operatingSystem`. */
  datatype OperatingSystem = Linux | Windows | MacOS

  /** `RepositoryActivationDetails`: how the repository presents itself to the vault. */
  datatype ActivationDetails = ActivationDetails(
    uniqueId: string,
    operatingSystem: OperatingSystem,
    endpointName: string,
    ip: string,
    endpointType: string)

  // --- remote vault API -------------------------------------------------------

  datatype AuthTokenResponse = AuthTokenResponse(token: string, endpointId: int)

  datatype OtpResponse = OtpResponse(uniqueKey: string, createdAt: string, expiresAt: string)

  datatype BackupUploadResponse = BackupUploadResponse(
    recordId: string,
    directoryRecordId: string,
    fileRecordId: string)

  /** Context of the running workflow (`@actions/github`'s `context`). */
  datatype RunContext = RunContext(
    eventName: string,
    ref: string,
    actor: string,
    owner: string,
    repo: string)

  datatype BackupMetadata = BackupMetadata(
    event: string,
    ref: string,
    actor: string,
    owner: string,
    ownerType: string,
    commit: string,
    commitShort: string,
    parents: string,
    author: string,
    date: string,
    committer: string,
    message: string)

  datatype FileUploadData = FileUploadData(
    file: Bytes,
    size: nat,
    compressedFileSize: nat,
    attributes: int,
    fileName: string,
    fullPath: string,
    compressionEngine: string,
    compressionLevel: string,
    encryptionType: string,
    revisionType: int,
    metadata: BackupMetadata)

  // --- configuration ---------------------------------------------------------

  /** `ActionInputs`: every input as read from the environment. */
  datatype ActionInputs = ActionInputs(
    activationCode: string,
    encryptionPassword: string,
    action: string,
    fileVersionId: string,
    restoreToken: string,
    suspendActions: bool,
    otpDeliveryMethod: string)

  datatype ApiConfig = ApiConfig(baseUrl: string, managementBaseUrl: string, timeout: nat, userAgent: string)
  datatype CryptoConfig = CryptoConfig(algorithm: string, keyDerivation: string, compressionLevel: nat, hashAlgorithm: string)
  datatype FileConfig = FileConfig(
    sourceArchiveDir: string,
    tarArchiveFile: string,
    compressedArchiveFile: string,
    encryptedArchiveFile: string)
  datatype EndpointConfig = EndpointConfig(endpointType: string)
  datatype GitConfig = GitConfig(userName: string, userEmail: string)
  datatype OtpConfig = OtpConfig(sourceType: string, generationMode: string, endpointType: string, verificationKey: string)
  datatype UploadConfig = UploadConfig(
    attributes: int,
    compressionEngine: string,
    compressionLevel: string,
    encryptionType: string,
    revisionType: int)

  datatype AppConfig = AppConfig(
    inputs: ActionInputs,
    api: ApiConfig,
    crypto: CryptoConfig,
    endpoint: EndpointConfig,
    files: FileConfig,
    git: GitConfig,
    otp: OtpConfig,
    upload: UploadConfig)

  // --- workflow results --------------------------------------------------------

  /** `BackupResult`: exactly one of the two shapes, never partially filled. */
  datatype BackupResult =
    | BackupSucceeded(
        message: string,
        recordId: string,
        directoryRecordId: string,
        fileSize: nat,
        compressedSize: nat,
        encryptedSize: nat,
        commitInfo: CommitInfo)
    | BackupFailed(message: string)

  /** `RestoreResult`. */
  datatype RestoreResult =
    | RestoreSucceeded(message: string, fileVersionId: string, workflowsSuspended: bool)
    | RestoreFailed(message: string)
}
