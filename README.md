# git-security core, modelled in Dafny

This project models the core of the git-security GitHub Action. The action backs a repository up into an encrypted archive stored in the iCredible vault, and restores it from there after a one-time-password (OTP) challenge. The model follows the TypeScript services one module per source file:

- `Validation`, `Config`: the action inputs. They are read from the environment with their defaults and checked in a fixed order, each check with its exact error message.
- `Crypto`: the OpenSSL-style `"Salted__" ‖ salt ‖ iv ‖ ciphertext` frame. It includes the SHA-256 password hash both archive operations apply, and the encrypted file name.
- `Exec`, `Git`, `GitOutput`: the git commands the workflows issue, in order, with their failure handling. Also parsing `git log` and `git branch -r` output, the push strategy chosen by token, token redaction in the remote URL, and the two-tier history filter.
- `Otp`: the bearer token, the OTP request, the five-second polling loop bounded by the expiry, the remaining-time arithmetic and its text, and the verification link.
- `GitHub`: suspending GitHub Actions with the saved permissions kept in memory and in a file, resuming them with a fallback and at most three retries, and the repository activation details.
- `Backup`, `Restore`: the two workflow orchestrators. Each is a fixed pipeline of steps that stops at the first failure, always returns a result, and cleans up its temporary files.
- `Base`, `DataMapper`, `Container`, `Compression`: the shared pieces. These are the initialise-once flag and error wrappers, the upload record, the service cache keyed by token prefix, and the directory-size fold.
- `Wrappers`, `Strings`, `Records`: result types and the JavaScript string operations the services use. `Records` holds the record shapes from `src/types`.

Every call into something the model cannot see is a parameter, recorded as a step in a trace with its result given as an oracle:

- the REST client, the file system, `exec`, zstd, tar, the cipher and the hash;
- the clock.

Stateful services are classes whose methods state the new state and the trace they extend. Each trace is a specification function, and the properties the action promises are lemmas about those functions. Examples: the step order, cleanup on every path, one suspension and one resume at most, the decrypt-after-encrypt round trip, and parsing what `git log` prints.

## Model

| member | source | states |
|---|---|---|
| Base.EnsureInitialized | src/services/base/base-service.ts:22-26 | fails exactly when the flag is false, with "<ClassName> must be initialized before use" |
| Base.Wrapped | src/services/base/base-service.ts:29-30 | the thrown message is the context, ": ", then the original message, both recoverable |
| Base.HandleError | src/services/base/base-service.ts:28-34 | always fails, with the context, ": ", then the original message |
| Base.SafeExecute | src/services/base/base-service.ts:36-50 | the operation's value on success; on failure the fallback when given, otherwise the context-prefixed error |
| Base.InSequence | src/services/workflow/backup-workflow.service.ts:40-47 | a chain of awaited initialisations passes exactly when each does; otherwise it fails with the first failure, all before it having passed |
| Base.Service.Initialize | src/services/base/base-service.ts:11-18 | the hook runs only while the flag is false; the result is the hook's; the flag is set exactly when the hook succeeded or it was already set |
| Base.Service.Guard | src/services/base/base-service.ts:22-26 | an instance's guard passes exactly when it is initialised |
| Base.InitializeTwice | src/services/base/base-service.ts:11-18 | a second `initialize` after a successful one does not run the hook again |
| Base.Service.constructor | src/services/base/base-service.ts:5-9 | a new service starts uninitialised, before its hook has run |
| Validation.Utf16Length | src/services/validation/validation.service.ts:20-21 | `password.length` counts UTF-16 code units: between one and two per character, exactly one per character for Basic-Multilingual-Plane text and for text of the accepted set |
| Validation.ValidatePassword | src/services/validation/validation.service.ts:13-53 | the first failing check wins: empty, then shorter than 8 (the message carries the length), then a character outside the accepted set, then the missing classes in the order uppercase, lowercase, digit, special |
| Validation.PasswordPolicy | src/services/validation/validation.service.ts:16-53 | a password is accepted exactly when it has at least 8 code units, only accepted characters and at least one character of each of the four classes |
| Validation.ShortPasswordReportsLength | src/services/validation/validation.service.ts:20-22 | the number printed in the "at least 8 characters (got n)" message reads back as the password's length |
| Validation.AcceptsCompliantExample | src/__tests__/validation.service.test.ts:15-19 | "MyPassword123!" is accepted |
| Validation.RejectsEmojiBeforeClasses | src/__tests__/validation.service.test.ts:57-63 | a trailing emoji is refused with the forbidden-characters message even though every class is present |
| Validation.EmojiCountTwice | src/services/validation/validation.service.ts:20-31 | four astral-plane characters count 8 code units, pass the length check and are refused for their characters |
| Validation.ReportsMissingUpperFirst | src/__tests__/validation.service.test.ts:27-33 | a password without uppercase is refused with the uppercase message |
| Validation.ReportsMissingLower | src/__tests__/validation.service.test.ts:35-41 | a password without lowercase is refused with the lowercase message |
| Validation.ReportsMissingDigit | src/__tests__/validation.service.test.ts:43-47 | a password without a digit is refused with the digit message |
| Validation.ReportsMissingSpecial | src/__tests__/validation.service.test.ts:49-55 | a password without punctuation is refused with the special-character message |
| Validation.ValidateActionType | src/services/validation/validation.service.ts:56-66 | passes exactly for "backup" and "restore"; an empty action has its own message, anything else the invalid-action message |
| Validation.ValidateOtpMethod | src/services/validation/validation.service.ts:68-78 | passes exactly for "MAIL" and "AUTHENTICATOR"; empty and unknown methods get their own messages |
| Validation.ValidateRestoreInputs | src/services/validation/validation.service.ts:80-94 | passes exactly when a non-empty file version id and a boolean suspend flag are given; otherwise the first of missing id, undefined flag, non-boolean flag is reported |
| Crypto.HexLower | src/services/crypto/crypto.service.ts:32 | `digest('hex')` writes two lowercase hexadecimal digits per byte |
| Crypto.HexRoundTrip | src/services/crypto/crypto.service.ts:32 | the hex form loses nothing: reading it back gives the digest bytes |
| Crypto.HashPassword | src/services/crypto/crypto.service.ts:26-36 | the hash is 64 lowercase hex digits that read back as the SHA-256 of the password |
| Crypto.HashDistinguishesDigests | src/services/crypto/crypto.service.ts:26-36 | passwords with different digests get different hashes |
| Crypto.Subarray | src/services/crypto/crypto.service.ts:72-74 | `subarray` clamps both bounds to the buffer, so a short buffer gives short slices, not an error |
| Crypto.Slice | src/services/crypto/crypto.service.ts:65-74 | a buffer of 32 bytes or more splits into an 8-byte salt, a 16-byte IV and the rest; a shorter one leaves the IV short |
| Crypto.SliceFrame | src/services/crypto/crypto.service.ts:55-74 | slicing the frame `encrypt` writes gives back exactly its salt, IV and ciphertext |
| Crypto.FrameLayout | src/services/crypto/crypto.service.ts:55 | the frame is the 32-byte header plus the ciphertext and begins with "Salted__" |
| Crypto.Encrypt | src/services/crypto/crypto.service.ts:38-59 | succeeds exactly when the cipher does; the result is "Salted__", salt, IV and ciphertext; failures carry the "Failed to encrypt data: " prefix |
| Crypto.Decrypt | src/services/crypto/crypto.service.ts:62-85 | under 32 bytes fails on the IV; otherwise succeeds exactly when deciphering the sliced ciphertext under the key derived from the embedded salt does, with that plaintext; failures carry the "Failed to decrypt data: " prefix |
| Crypto.DecryptIgnoresHeader | src/services/crypto/crypto.service.ts:72-80 | the first eight bytes are never read: buffers differing only there decrypt alike |
| Crypto.RoundTrip | src/services/crypto/crypto.service.ts:38-85 | decrypting a successful encryption with the same password gives the plaintext back |
| Crypto.EncryptArchive | src/services/crypto/crypto.service.ts:91-95 | a read failure is passed on; otherwise the file is encrypted under the password's hash, not the password |
| Crypto.DecryptBackup | src/services/crypto/crypto.service.ts:86-89 | decrypts with `decrypt` under `hashPassword(password)`, not the password itself; a frame shorter than 32 bytes fails on its IV, and every failure carries the decrypt prefix |
| Crypto.ArchiveRoundTrip | src/services/crypto/crypto.service.ts:86-95 | a file encrypted by `encryptArchive` comes back from `decryptBackup` with the same password |
| Crypto.GetEncryptedFileName | src/services/crypto/crypto.service.ts:97-100 | the name is a non-empty piece without '/' followed by ".tar.zst.enc"; unset repository gives "repository.tar.zst.enc"; the password plays no part |
| Crypto.EncryptedFileNameOfRepository | src/services/crypto/crypto.service.ts:98-99 | for "owner/name" the file is "name.tar.zst.enc" |
| Crypto.EncryptedFileNameTrailingSlash | src/services/crypto/crypto.service.ts:98 | a repository value ending in '/' has an empty last piece and falls back to "repository" |
| DataMapper.CreateUploadData | src/utils/data.mapper.ts:8-44 | the commit is recoverable unchanged from the metadata, the author doubles as committer, the owner type defaults to "User", sizes and buffer pass through, and the upload settings come from the configuration |
| DataMapper.FullPathSegments | src/utils/data.mapper.ts:37 | the full path splits on '/' into an empty root, the owner, the repository and the file name's own segments |
| Config.EnvValue | src/services/config/config.service.ts:106 | an unset variable reads as the empty string, a set one as its value |
| Config.GetInput | src/services/config/config.service.ts:105-111 | fails exactly for a required input whose variable is empty or unset, with "Required input '<name>' is missing"; otherwise the raw value |
| Config.GetBooleanInput | src/services/config/config.service.ts:113-118 | "true" and "false" in any letter case give true and false; anything else gives the default |
| Config.UnsetBooleanInputIsDefault | src/services/config/config.service.ts:113-118 | an unset boolean input takes its default |
| Config.BooleanInputIgnoresCase | src/services/config/config.service.ts:114-116 | "FALSE" reads as false |
| Config.GetInputsFromEnvironment | src/services/config/config.service.ts:104-129 | succeeds exactly when the activation code and the password are set, the activation code reported first; an empty action becomes "backup", an empty OTP method "MAIL", suspend_actions defaults to true, other values pass through |
| Config.BuildConfig | src/services/config/config.service.ts:58-102 | fails exactly as reading the inputs does; otherwise holds those inputs, and the artefact names are fixed: "repo-mirror", then ".tar", ".zst" and ".enc" appended in turn, ending in "repo-mirror.tar.zst.enc" |
| Config.ConfigService.Initialize | src/services/config/config.service.ts:14-17 | a first call builds the configuration and marks the service initialised only on success; a later call changes nothing |
| Config.ConfigService.GetConfig | src/services/config/config.service.ts:34-40 | returns the stored configuration exactly when initialised and built; otherwise the not-initialised or not-properly-initialised error |
| Config.ConfigService.ValidateInputs | src/services/config/config.service.ts:19-32 | passes exactly when initialised and the inputs pass password, action and OTP checks, plus the restore checks for a restore; one clause per check says its failure is reported when every earlier check passed: the guard, password, action, OTP method, then (for a restore) the restore inputs |
| Config.RestoreNeedsOnlyFileVersion | src/services/config/config.service.ts:26-31 | inputs read from the environment carry a boolean suspend flag, so a restore with a file version id passes the restore checks |
| Config.InitializeThenGetConfig | src/services/config/config.service.ts:14-40 | after initialising, `getConfig` returns exactly the configuration built from the environment |
| Config.ConfigService.constructor | src/services/config/config.service.ts:6-12 | a new configuration service is uninitialised and holds no configuration |
| Compression.SizeIsTotalOfFiles | src/services/compression/compression.service.ts:142-168 | the reported size of a tree is the total of the regular files reachable through listable directories: nothing else adds, and no leaf of the tree counts twice |
| Compression.SizeOfJoinedListing | src/services/compression/compression.service.ts:152-160 | a directory's entries are counted independently: splitting a listing splits the size |
| Compression.FailingEntryCountsZero | src/services/compression/compression.service.ts:164-167 | an entry whose stat fails counts 0 and leaves its siblings' sum unchanged |
| Compression.SizeOf | src/services/compression/compression.service.ts:146-163 | the loop over a directory's entries returns exactly the size the recursive definition gives |
| Compression.Compressed | src/services/compression/compression.service.ts:64-68 | the codec output at level 10 exactly when the module loads and the input is read; otherwise the load error or the read error |
| Compression.CompressionService.Initialize | src/services/compression/compression.service.ts:14-22 | the first call fails with "Tar functionality not available" exactly when tar is unusable; the flag is set only on success |
| Compression.CompressionService.CreateTarArchive | src/services/compression/compression.service.ts:24-56 | refused before initialisation; succeeds exactly for a directory source and a successful archive, returning its size; a stat failure, a non-directory and an archive failure each give their context-prefixed error |
| Compression.CompressionService.CompressWithZstd | src/services/compression/compression.service.ts:58-79 | the compressed length when loading, reading, compressing and writing all succeed; otherwise the first failure with the "Failed to compress with zstd" prefix |
| Compression.CompressionService.CompressStreamWithZstd | src/services/compression/compression.service.ts:127-139 | delegates to `compressWithZstd`, same result on success and the error wrapped a second time |
| Compression.CompressionService.DecompressZstd | src/services/compression/compression.service.ts:81-102 | writes exactly the codec's decompression of the input; load, read, decode and write failures give the decompress prefix and nothing is written before decoding succeeds |
| Compression.CompressionService.ExtractTarArchive | src/services/compression/compression.service.ts:104-124 | the target directory is made first and extraction happens only after it succeeded; each failure gets the extract prefix |
| Compression.CompressionService.GetDirectorySize | src/services/compression/compression.service.ts:142-168 | after the guard, always succeeds with the tree's size; failures below count 0 |
| Compression.CompressionService.constructor | src/services/compression/compression.service.ts:10-12 | a new compression service is uninitialised; the tools on the path and the zstd binding are what the environment provides |
| Exec.Settle | src/services/git/git.service.ts:50-61 | `exec` resolves with the captured output exactly when the command started and exited 0 or `ignoreReturnCode` is set; otherwise the spawn error or the exit-code error |
| Exec.RunAllOutcome | src/services/git/git.service.ts:113-114 | awaiting commands one after another passes exactly when every command was issued and succeeded; a failure is the rejection of the last command issued, all earlier ones having succeeded |
| Exec.RunAllSnoc | src/services/git/git.service.ts:161-167 | after a successful sequence, one more command is issued and decides the outcome |
| Exec.RunAllStops | src/services/git/git.service.ts:161-167 | nothing after the first rejection is issued |
| Git.CoreGetInput | src/services/git/git.service.ts:20 | `core.getInput` fails exactly for a required input whose raw value is empty, and returns the trimmed value otherwise |
| Git.PushPlan | src/services/git/git.service.ts:161-167 | one push per listed branch in listed order, then the tags once |
| Git.SyncPlanCreates | src/services/git/git.service.ts:197-209 | a local branch is created for every listed name other than "HEAD", and for nothing else |
| Git.Wrap | src/services/base/base-service.ts:28-34 | the catch around a step: success is untouched, a failure gets the context prefix |
| Git.PushToken | src/services/git/git.service.ts:319-325 | with a PAT the restore token, or "No GitHub token available for pushing" when it is empty; without one the trimmed `github-token` input, failing as `core.getInput` does when it is unset and with "No GitHub token available for pushing" when it is only whitespace; an empty token is never returned |
| Git.NoCommitsGivesEmptyInfo | src/services/git/git.service.ts:63-73 | without a commit at HEAD the result is the all-empty record, nothing fails, and `git log` is not run |
| Git.CommitInfoFromLog | src/services/git/git.service.ts:75-101 | what `git log` prints for a commit is read back field by field, the body joined to the subject by a newline when present |
| Git.PushAllBranchesOrder | src/services/git/git.service.ts:148-173 | the branch listing comes first, then the pushes in listed order and the tags after every branch; success exactly when every push succeeded |
| Git.SucceedsPrefixFails | src/services/git/git.service.ts:161-167 | a sequence whose last command was rejected did not succeed |
| Git.SyncIgnoresBranchResults | src/services/git/git.service.ts:197-214 | the outcome depends only on the listing: failed branch creations change nothing, and the operation fails exactly when listing fails |
| Git.FilterFallback | src/services/git/git.service.ts:234-274 | filter-branch runs exactly when filter-repo is unavailable or failed, filter-repo exactly when available, and the operation fails exactly when filter-branch ran and failed |
| Git.NoPushWithoutToken | src/services/git/git.service.ts:314-325 | without a token only the two config commands are issued and the operation fails with the token error |
| Git.OnePushStrategy | src/services/git/git.service.ts:327-341 | with a token, exactly one push strategy follows configuration: branch by branch (never a mirror push) with a PAT, one mirror push otherwise |
| Git.GitService.Issue | src/services/git/git.service.ts:34 | one `exec`: the command is appended to the trace and its result is what the shell answers given the trace before it |
| Git.GitService.RunInOrder | src/services/git/git.service.ts:113-114 | the loop issues exactly the commands and outcome of the sequential specification |
| Git.GitService.RunSteps | src/services/git/git.service.ts:110-119 | a try block of awaited commands: the specification's trace, with a failure wrapped in the context |
| Git.GitService.Initialize | src/services/git/git.service.ts:16-26 | `git --version`, then the required `action` input; either failing gives "Git is not available in the environment"; for a restore the filter-repo setup follows; a later call changes nothing |
| Git.GitService.SetupGitFilterRepo | src/services/git/git.service.ts:217-232 | filter-repo counts as available exactly when python3, pip3 and the install all succeed; never fails |
| Git.GitService.CreateMirrorClone | src/services/git/git.service.ts:28-40 | guarded; issues one `clone --mirror` and wraps its failure |
| Git.GitService.GetCurrentCommitInfo | src/services/git/git.service.ts:42-105 | guarded; issues `rev-parse` and, only when HEAD exists, `git log`, with the specification's result |
| Git.GitService.ConfigureGit | src/services/git/git.service.ts:107-120 | guarded; sets user.name then user.email, stopping at the first failure |
| Git.GitService.SetRemoteUrl | src/services/git/git.service.ts:122-134 | guarded; issues `remote set-url origin` and logs the URL with its credentials hidden |
| Git.GitService.PushMirror | src/services/git/git.service.ts:136-146 | guarded; issues one `push --mirror --force` |
| Git.GitService.PushAllBranches | src/services/git/git.service.ts:148-173 | guarded; the trace and outcome of the branch-by-branch specification |
| Git.GitService.SyncRemoteBranches | src/services/git/git.service.ts:175-215 | guarded; the trace and outcome of the sync specification |
| Git.GitService.CreateLocalBranches | src/services/git/git.service.ts:197-209 | the loop issues exactly the planned branch creations, skipping "HEAD" |
| Git.GitService.FilterWorkflowDirectory | src/services/git/git.service.ts:234-274 | guarded; the trace and outcome of the fallback specification |
| Git.GitService.ConfigureAndPush | src/services/git/git.service.ts:314-342 | configure, choose the token, then push, with the trace and outcome of the specification |
| Git.GitService.PushWithToken | src/services/git/git.service.ts:319-341 | the token choice and the push that follows it |
| Git.GitService.constructor | src/services/git/git.service.ts:9-14 | a new git service is uninitialised, has no filter-repo available and has issued no command |
| GitOutput.ParseCommitInfo | src/services/git/git.service.ts:85-98 | the message is empty exactly when the subject field of the commit line is missing or empty |
| GitOutput.ParseLogOutput | src/services/git/git.service.ts:77-98 | the output of the log format is read back field by field: hash, short hash, author, date, parents in place, the committer dropped, the message the subject plus the body on its own line when there is one |
| GitOutput.LogLines | src/services/git/git.service.ts:85-87 | the trimmed output splits into the commit line and the body, trimmed |
| GitOutput.CommitLineFields | src/services/git/git.service.ts:89 | the commit line splits on '\|' into its seven fields in order |
| GitOutput.NonEmpty | src/services/git/git.service.ts:159 | `filter(b => b)` keeps exactly the non-empty lines: each kept line is a non-empty input line, every non-empty input line is kept, and an input without empty lines is kept whole |
| GitOutput.NonEmptyConcat | src/services/git/git.service.ts:159 | filtering keeps order: the kept lines of a concatenation are those of the first part followed by those of the second |
| GitOutput.BranchesToPush | src/services/git/git.service.ts:159 | every branch to push is a non-empty single line |
| GitOutput.BranchesToPushRoundTrip | src/services/git/git.service.ts:154-159 | a listing of one branch per line with the final newline yields exactly those branches in order |
| GitOutput.StripOrigin | src/services/git/git.service.ts:195 | one leading "origin/" is removed, and only when present |
| GitOutput.RemoteBranch | src/services/git/git.service.ts:191-195 | a line is dropped exactly when blank after trimming or a symbolic "->" ref |
| GitOutput.RemoteBranchOfListingLine | src/services/git/git.service.ts:191-195 | a remote-tracking branch line of `git branch -r` reads back as the branch's own name |
| GitOutput.ListingLineTrims | src/services/git/git.service.ts:193 | trimming a listing line leaves "origin/" and the name |
| GitOutput.RemoteBranchNamesRoundTrip | src/services/git/git.service.ts:181-195 | a listing of origin's branches, one per line, reads back as the names in order |
| GitOutput.Span | src/services/git/git.service.ts:126 | the run `[^:@]*`: the longest prefix free of ':' and '@', stopping at one of them |
| GitOutput.RedactSkips | src/services/git/git.service.ts:126 | text before the first ':' is kept unchanged |
| GitOutput.RedactSkipsColon | src/services/git/git.service.ts:126 | a ':' whose run ends at another ':' is no match and is kept |
| GitOutput.RedactReplaces | src/services/git/git.service.ts:126 | a ':' whose run ends at '@' is replaced, with the run, by ":***@" and the rest is kept |
| GitOutput.RedactAuthUrl | src/services/git/git.service.ts:126-128 | the logged push URL shows "***" in place of the token and is otherwise unchanged |
| Otp.StatusCalls | src/services/otp/otp.service.ts:58-59 | each pass of the polling loop makes one status call for the same key and token |
| Otp.PollingVerifiedIff | src/services/otp/otp.service.ts:58-71 | polling reports success exactly when some check made before the expiry is answered "verified" |
| Otp.PollingStopsAtFirst | src/services/otp/otp.service.ts:61-64 | polling stops at the first "verified" answer; every earlier check said "not verified" |
| Otp.PollingBound | src/services/otp/otp.service.ts:53-68 | no check at all once expired, and otherwise at most one check per started 5-second interval before the expiry |
| Otp.RemainingTime | src/services/otp/otp.service.ts:111-117 | whole seconds left rounded up and never negative; an unparsable expiry stays `NaN` |
| Otp.FormatRemainingReadsBack | src/services/otp/otp.service.ts:120-135 | "Expired", "<m>m <s>s" or "<s>s" reads back as the number of seconds it was made from |
| Otp.MinutesReadBack | src/services/otp/otp.service.ts:127-132 | the minutes-and-seconds form reads back as the seconds it was made from |
| Otp.SecondsReadBack | src/services/otp/otp.service.ts:134 | under a minute, the seconds form reads back as the seconds |
| Otp.Utf8 | src/services/otp/otp.service.ts:78-85 | the UTF-8 encoding used by the query serialisation takes one to four bytes per character, its first byte announces the length, and the bytes read back as the character's code point |
| Otp.HexUpper | src/services/otp/otp.service.ts:85 | an upper-case hexadecimal digit that reads back as its value |
| Otp.PercentEncode | src/services/otp/otp.service.ts:85 | three characters per byte, each '%' or an upper-case hexadecimal digit |
| Otp.PercentTriples | src/services/otp/otp.service.ts:85 | the i-th byte is written as the i-th triple: '%', then its high and low nibble in upper-case hexadecimal |
| Otp.PercentDecodeEncode | src/services/otp/otp.service.ts:85 | the "%XX" triples of some bytes read back as those bytes, whatever follows |
| Otp.PercentDecodeLead | src/services/otp/otp.service.ts:85 | the first triple reads back as the first byte, which announces the character's length |
| Otp.FormDecodeChar | src/services/otp/otp.service.ts:85 | one serialised character reads back as itself, followed by the reading of the rest |
| Otp.FormDecodePercent | src/services/otp/otp.service.ts:85 | a character written as percent-encoded UTF-8 reads back as itself |
| Otp.FormRoundTrip | src/services/otp/otp.service.ts:85 | a serialised name or value decodes back to itself, whatever characters it holds |
| Otp.FormEncodeInjective | src/services/otp/otp.service.ts:85 | different values are serialised differently |
| Otp.FormEncodeChar | src/services/otp/otp.service.ts:85 | an encoded character is never empty and never holds '&' or '=' |
| Otp.FormEncode | src/services/otp/otp.service.ts:85 | an encoded name or value never holds '&' or '=' |
| Otp.FormEncodeKeepsSafe | src/services/otp/otp.service.ts:85 | text of letters, digits and `*-._` is written unchanged |
| Otp.PairSplits | src/services/otp/otp.service.ts:78-85 | a `name=value` pair reads back on '=' as its name and value |
| Otp.VerificationLinkReadsBack | src/services/otp/otp.service.ts:77-86 | the link's first three parameter values decode back to createdAt, expiresAt and uniqueKey, including the ':' of ISO dates |
| Otp.VerificationQueryParams | src/services/otp/otp.service.ts:77-86 | the link's query reads back as createdAt, expiresAt, uniqueKey and source=FileDownload, in that order, each with its encoded value |
| Otp.FourPairs | src/services/otp/otp.service.ts:78-85 | four separator-free pairs joined with '&' split back into the same pairs |
| Otp.OtpService.Initialize | src/services/otp/otp.service.ts:16-18 | the hook is the API client's initialisation; its failure leaves the service uninitialised |
| Otp.OtpService.SetAuthToken | src/services/otp/otp.service.ts:20-22 | stores the token and changes nothing else |
| Otp.OtpService.RequestOtp | src/services/otp/otp.service.ts:24-42 | guarded; refused without a token before any call; otherwise one send call, the reply on success and the wrapped error on failure |
| Otp.OtpService.WaitForOtpVerification | src/services/otp/otp.service.ts:44-75 | guarded; refused without a token; an unparsable expiry gives false without a call; otherwise the loop makes exactly the polling specification's status calls and returns its verdict |
| Otp.OtpService.CheckOtpStatus | src/services/otp/otp.service.ts:94-108 | guarded; refused without a token; otherwise one status call whose answer is returned |
| Otp.OtpService.constructor | src/services/otp/otp.service.ts:7-14 | a new OTP service keeps the management base URL, has an empty token and has made no call |
| GitHub.SetCall | src/services/github/github.service.ts:172-177 | the request carries `enabled` and `allowed_actions` only; the selected-actions URL is never written back |
| GitHub.RetriesShape | src/services/github/github.service.ts:122-135 | the retry loop alternates enabling and 2-second waits, starts and ends with an attempt, makes at most three attempts, every attempt but the last failed, and the last succeeded unless all three were made |
| GitHub.GitHubService.constructor | src/services/github/github.service.ts:18-35 | the REST client exists exactly when the token is non-empty; nothing is suspended yet |
| GitHub.GitHubService.Initialize | src/services/github/github.service.ts:37-41 | the hook only warns, so initialisation always succeeds |
| GitHub.GitHubService.GetActionsPermissions | src/services/github/github.service.ts:141-162 | guarded; refused without a client before any request; otherwise one read whose permissions are returned or whose error is wrapped |
| GitHub.GitHubService.SetActionsPermissions | src/services/github/github.service.ts:164-183 | guarded; refused without a client; otherwise one write, its failure wrapped |
| GitHub.GitHubService.SuspendActions | src/services/github/github.service.ts:43-76 | reads the permissions, keeps them in memory, saves them to the file, then disables Actions; each failure after the token check carries the suspend prefix, and nothing is disabled unless the state was saved |
| GitHub.GitHubService.ResumeActions | src/services/github/github.service.ts:78-139 | applies the in-memory state, else the saved file, else Actions enabled; on success removes the file and forgets the state; on failure runs the retry loop; never fails after the guard and does nothing without a client |
| GitHub.GitHubService.RetryEnable | src/services/github/github.service.ts:122-135 | the loop takes exactly the steps of the retry specification |
| GitHub.GitHubService.AreActionsEnabled | src/services/github/github.service.ts:186-194 | the permissions' enabled flag; true whenever they cannot be read |
| GitHub.GitHubService.GetRepositoryInfo | src/services/github/github.service.ts:197-214 | guarded; refused without a client; otherwise one request, its error wrapped |
| GitHub.GitHubService.GetRepositoryActivationDetails | src/services/github/github.service.ts:216-255 | the guard, the configuration (its error unwrapped), the token check, then the details built from the repository id; a request failure is wrapped twice |
| GitHub.OperatingSystemOfNames | src/services/github/github.service.ts:229-239 | each runner name maps to its own operating system, and anything other than "Windows" or "macOS" to Linux |
| GitHub.Activation | src/services/github/github.service.ts:241-247 | the id printed in decimal reads back as the repository id; the IP defaults to 127.0.0.1; endpoint type from the configuration and endpoint name from the repository |
| GitHub.SuspendThenResume | src/services/github/github.service.ts:43-117 | suspending then resuming on one instance re-applies exactly the permissions the suspension read, and leaves no state when that succeeds |
| GitHub.ResumeInLaterRun | src/services/github/github.service.ts:89-103 | a fresh instance with nothing in memory resumes from the saved file and re-applies the same permissions |
| Container.NameInjective | src/services/container/service-container.ts:31-118 | no two cache keys share a name, whatever the tokens |
| Container.GitHubKeySharedByPrefix | src/services/container/service-container.ts:90 | two tokens share a GitHub service key exactly when their first eight characters agree |
| Container.RestoreKeySharedByPrefix | src/services/container/service-container.ts:118 | restore keys tell tokens apart by their first eight characters and never coincide with the key used without a token |
| Container.SecretsMaskToken | src/services/container/service-container.ts:171-183 | the password and activation code are always masked, the restore token exactly when it is given |
| Container.ServiceContainer.Create | src/services/container/service-container.ts:33 | a new instance, numbered in creation order, is stored under its key |
| Container.ServiceContainer.Fetch | src/services/container/service-container.ts:45-50 | the cached instance, unchanged cache, when present; otherwise a new instance of the given kind under that key only |
| Container.ServiceContainer.GetValidationService | src/services/container/service-container.ts:38-43 | the cached validation service, or a new one |
| Container.ServiceContainer.GetConfigService | src/services/container/service-container.ts:30-36 | the cached configuration service, or a new one made after the validation service is fetched |
| Container.ServiceContainer.GetCryptoService | src/services/container/service-container.ts:45-50 | the cached crypto service, or a new one |
| Container.ServiceContainer.GetCompressionService | src/services/container/service-container.ts:52-57 | the cached compression service, or a new one |
| Container.ServiceContainer.GetGitService | src/services/container/service-container.ts:59-64 | the cached git service, or a new one |
| Container.ServiceContainer.GetApiClient | src/services/container/service-container.ts:66-73 | the cached API client, or a new one made after the configuration service |
| Container.ServiceContainer.GetOtpService | src/services/container/service-container.ts:75-82 | the cached OTP service; otherwise the API client is fetched and, when the configuration can be read, a new OTP service with its management URL; nothing is cached for it on failure |
| Container.ServiceContainer.GetGitHubService | src/services/container/service-container.ts:84-101 | none without a token; otherwise one service per 8-character token prefix, created with the first token of that prefix |
| Container.ServiceContainer.FetchWorkflowServices | src/services/container/service-container.ts:105-111 | configuration, crypto, compression, git and API client are all cached afterwards, and nothing else is added |
| Container.ServiceContainer.GetBackupWorkflowService | src/services/container/service-container.ts:103-115 | the cached backup workflow, or a new one made after all its dependencies are cached |
| Container.ServiceContainer.GetRestoreWorkflowService | src/services/container/service-container.ts:117-133 | cached per token prefix; a new one gets the GitHub service of the same token, or none without a token; nothing is cached when the OTP service cannot be made |
| Container.ServiceContainer.CreateRestoreWorkflowService | src/services/container/service-container.ts:120-131 | the uncached path: dependencies, then the OTP service, then the GitHub service, then the workflow |
| Container.ServiceContainer.FetchCore | src/services/container/service-container.ts:141-146 | the i-th core service is fetched through its getter and is cached afterwards |
| Container.ServiceContainer.InitializeNext | src/services/container/service-container.ts:141-146 | one more core service is fetched and initialised, all earlier ones having passed |
| Container.ServiceContainer.InitializeServices | src/services/container/service-container.ts:136-153 | validation, configuration, crypto, compression, git and API client are initialised in that order; the first failure stops the sequence and is rethrown; success means all six passed |
| Container.ServiceContainer.Dispose | src/services/container/service-container.ts:156-159 | the cache is emptied |
| Container.ServiceContainer.MaskSecrets | src/services/container/service-container.ts:171-183 | fetches the configuration service and registers exactly the secrets, or fails as reading the configuration does |
| Container.CachedGetters | src/__tests__/service-container.test.ts:77-110 | a getter called twice hands out the same instance, and tokens with the same first eight characters share one GitHub service |
| Container.DisposeThenGet | src/services/container/service-container.ts:156-159 | after `dispose` a getter creates a new instance |
| Container.ServiceContainer.constructor | src/services/container/service-container.ts:20-24 | a new container holds no services |
| Backup.FirstFailure | src/services/workflow/backup-workflow.service.ts:57-108 | the index of the first of the eight awaited steps that throws (or 8): every earlier step returned and that one threw |
| Backup.FirstFailureFrom | src/services/workflow/backup-workflow.service.ts:57-108 | scanning from step `i`, the first step at or after `i` that throws, all steps between having returned |
| Backup.ArchiveSteps | src/services/workflow/backup-workflow.service.ts:57-88 | mirror clone, commit info, tar, zstd, encryption and the write of the encrypted file are issued in that order, each only after all earlier ones returned; the six all run and return exactly when the archive is built |
| Backup.DeliverySteps | src/services/workflow/backup-workflow.service.ts:90-108 | authentication comes first and the upload is issued only when it returned |
| Backup.Issued | src/services/workflow/backup-workflow.service.ts:57-108 | the pipeline's steps run in the fixed order, each only after all earlier ones returned, and stop at the first that throws |
| Backup.IssuedUpToFirstFailure | src/services/workflow/backup-workflow.service.ts:57-108 | the number of steps issued is the first failing step's index plus one, or all eight when none throws |
| Backup.ResultOf | src/services/workflow/backup-workflow.service.ts:124-150 | the run succeeds exactly when every step returned, then reporting the tar size, the zstd size, the encrypted buffer's length, the upload's record ids and the commit read; otherwise the message is "Backup failed: " and the first failing step's error |
| Backup.UploadMetadata | src/services/workflow/backup-workflow.service.ts:162-175 | the commit block is empty exactly when the commit hash is empty, and otherwise opens with the rule and the full hash after trimming |
| Backup.HeadStartsWithDash | src/services/workflow/backup-workflow.service.ts:166-168 | the block's first visible character is the rule's dash |
| Backup.TailStartsWithDash | src/services/workflow/backup-workflow.service.ts:169-173 | the line after the hash starts with a dash, so trimming cannot reach into the hash |
| Backup.TrimKeepsHead | src/services/workflow/backup-workflow.service.ts:165-174 | trimming the block drops only the leading line break and trailing whitespace, so the head survives intact at the front |
| Backup.Removals | src/services/workflow/backup-workflow.service.ts:207-214 | one removal per path, in the order of the list |
| Backup.WrittenFilesAreCleanedUp | src/services/workflow/backup-workflow.service.ts:199-205 | every path the pipeline writes (mirror directory, tar, compressed archive, encrypted file) is in the cleanup list |
| Backup.UploadCarriesArtefacts | src/services/workflow/backup-workflow.service.ts:96-108 | the upload sends the encrypted buffer under the encrypted file name, the tar size as original size, the buffer length as stored size, the commit read, and the token authentication returned |
| Backup.EmptyCommitStillBacksUp | src/services/workflow/backup-workflow.service.ts:111-133 | a repository without commits still backs up with the empty commit info, and its summary has no commit block |
| Backup.BackupWorkflowService.constructor | src/services/workflow/backup-workflow.service.ts:24-38 | a new workflow is uninitialised and has issued nothing |
| Backup.BackupWorkflowService.Initialize | src/services/workflow/backup-workflow.service.ts:40-47 | the configuration service is initialised first, then the four other services; the first that throws is rethrown and the workflow stays uninitialised; a second call does nothing |
| Backup.BackupWorkflowService.Execute | src/services/workflow/backup-workflow.service.ts:49-152 | before initialisation the guard throws; otherwise a result is always returned: the pipeline and summary run, and the four temporary paths are removed after success and failure alike; an unreadable configuration yields a failed result and no cleanup |
| Backup.BackupWorkflowService.RunPipeline | src/services/workflow/backup-workflow.service.ts:52-133 | the try block issues the pipeline then the summary, and returns the result the replies determine |
| Backup.BackupWorkflowService.ArchiveRepository | src/services/workflow/backup-workflow.service.ts:57-88 | issues exactly the archive steps and passes exactly when all six returned, failing with the first thrown error |
| Backup.BackupWorkflowService.DeliverArchive | src/services/workflow/backup-workflow.service.ts:90-133 | issues authentication, the upload and, on success, the summary notice, and returns the run's result |
| Backup.BackupWorkflowService.CleanupTemporaryFiles | src/services/workflow/backup-workflow.service.ts:199-215 | every path is tried in order; a failing removal is only logged |
| Restore.IdentitySteps | src/services/workflow/restore-workflow.service.ts:70-84 | the identity phase issues only authentication, the hand-over of the token, the OTP request and the wait, each after the previous call returned |
| Restore.UnpackSteps | src/services/workflow/restore-workflow.service.ts:90-117 | the unpack phase issues only the download, decryption, the write of the compressed archive, decompression and extraction, each after the previous one returned |
| Restore.Removals | src/services/workflow/restore-workflow.service.ts:240-247 | one removal per path, in the order of the list |
| Restore.ResultOf | src/services/workflow/restore-workflow.service.ts:160-192 | the run succeeds exactly when every step of the try block returned, reporting the file version and whether suspension was asked for with a restore token; otherwise the message is "Restore failed: " and the error that ended the try block |
| Restore.UnconfirmedOtpStopsBeforeDownload | src/services/workflow/restore-workflow.service.ts:86-88 | an OTP that is not confirmed fails the run with "OTP verification failed or timed out" before anything is downloaded, unpacked, prepared, suspended, pushed or resumed |
| Restore.NotCounted | src/services/workflow/restore-workflow.service.ts:120-146 | a phase without mirror-preparation or Actions steps contains none of them |
| Restore.OutsideSteps | src/services/workflow/restore-workflow.service.ts:70-88 | the identity steps, the removals and the summary never prepare the mirror or suspend or resume Actions |
| Restore.CountByPhase | src/services/workflow/restore-workflow.service.ts:60-194 | how often a preparation, suspension or resume step occurs is the sum of its count in the phases that ran plus the failure handler's resume |
| Restore.FinalCount | src/services/workflow/restore-workflow.service.ts:166-186 | after the try block, the only preparation, suspension or resume step is the failure handler's resume, issued when Actions are still suspended and a GitHub service exists |
| Restore.PrepareRunsOnce | src/services/workflow/restore-workflow.service.ts:119-128 | once the archive is unpacked, the mirror is prepared exactly once: by the branch sync with a restore token and by the workflow filter without one; otherwise not at all |
| Restore.RecoveryPrepares | src/services/workflow/restore-workflow.service.ts:119-128 | the recovery phase prepares the mirror once, the way the token decides, when unpacking finished, and never suspends or resumes Actions |
| Restore.PublishCounts | src/services/workflow/restore-workflow.service.ts:130-146 | the publishing phase suspends once when asked for with a GitHub service and a token, and resumes once when that suspension and the push returned |
| Restore.SuspendOnlyWithPat | src/services/workflow/restore-workflow.service.ts:130-135 | Actions are suspended at most once, and only when asked for, with a GitHub service and with a restore token |
| Restore.ResumeFollowsSuspend | src/services/workflow/restore-workflow.service.ts:141-178 | once a suspension returned, Actions are resumed on every way out (twice when the first resume threw), and never without one |
| Restore.CleanupOnEveryPath | src/services/workflow/restore-workflow.service.ts:148-186 | the temporary paths are removed on success and failure alike, after everything else except the success summary |
| Restore.AppendedAroundCleanup | src/services/workflow/restore-workflow.service.ts:148-186 | a run is the try block and any failure-handler resume, then the removals, then the summary on success |
| Restore.Between | src/services/workflow/restore-workflow.service.ts:148-156 | locates the middle part of a concatenation, used to place the removals before the summary |
| Restore.RestoreWorkflowService.constructor | src/services/workflow/restore-workflow.service.ts:26-44 | a new workflow is uninitialised, has issued nothing, and records whether a GitHub service was given |
| Restore.RestoreWorkflowService.Initialize | src/services/workflow/restore-workflow.service.ts:46-58 | the configuration service first, then crypto, compression, git, API, OTP and, when given, the GitHub service; the first that throws is rethrown and the workflow stays uninitialised |
| Restore.RestoreWorkflowService.Execute | src/services/workflow/restore-workflow.service.ts:60-194 | before initialisation the guard throws; otherwise a result is always returned, with the steps of the try block, the failure handler's resume and the cleanup issued as the replies determine |
| Restore.RestoreWorkflowService.Conclude | src/services/workflow/restore-workflow.service.ts:148-193 | on success the cleanup and the summary; on failure the resume when Actions are still suspended, then the cleanup; returns the run's result |
| Restore.RestoreWorkflowService.RunSteps | src/services/workflow/restore-workflow.service.ts:65-146 | issues the identity, recovery and publishing phases, each only after the previous returned, and reports the error and whether Actions are still suspended |
| Restore.RestoreWorkflowService.VerifyIdentity | src/services/workflow/restore-workflow.service.ts:70-88 | passes exactly when authentication and the OTP request returned and the OTP was confirmed, failing otherwise with the thrown error or the OTP rejection |
| Restore.RestoreWorkflowService.RecoverRepository | src/services/workflow/restore-workflow.service.ts:90-128 | passes exactly when download, decryption, the write, decompression, extraction and the preparation all returned, failing with the first error |
| Restore.RestoreWorkflowService.Publish | src/services/workflow/restore-workflow.service.ts:130-146 | suspend when wanted, push, resume when suspended; passes exactly when each issued call returned and reports whether Actions remain suspended |
| Restore.RestoreWorkflowService.CleanupTemporaryFiles | src/services/workflow/restore-workflow.service.ts:233-248 | every path is tried in order; a failing removal is only logged |
| Strings.NatToString | src/services/validation/validation.service.ts:21 | the decimal text of a count is non-empty, all digits, and has no leading zero unless the count is zero |
| Strings.ParseNatToString | src/services/validation/validation.service.ts:21 | reading back the printed length gives the length |
| Strings.NatToStringInjective | src/services/validation/validation.service.ts:21 | different counts print differently |
| Strings.Split | src/services/git/git.service.ts:89 | a one-character split yields at least one piece and no piece contains the separator |
| Strings.SplitJoin | src/services/git/git.service.ts:89 | joining separator-free pieces and splitting again gives the pieces back |
| Strings.JoinSplit | src/services/git/git.service.ts:85-87 | splitting and joining again gives the original text |
| Strings.SplitCons | src/services/git/git.service.ts:85 | a separator-free piece followed by the separator is split off first |
| Strings.SplitAround | src/services/git/git.service.ts:192 | splitting at a separator between two texts splits each side separately |
| Strings.LastPiece | src/services/crypto/crypto.service.ts:98 | the piece after the last separator contains no separator; a text without the separator is its own last piece |
| Strings.LastPieceAround | src/services/crypto/crypto.service.ts:98 | only the text after a separator decides the last piece |
| Strings.TrimStart | src/services/git/git.service.ts:193 | drops exactly the leading whitespace, leaving a suffix that starts with a visible character |
| Strings.TrimEnd | src/services/git/git.service.ts:193 | drops exactly the trailing whitespace, leaving a prefix that ends with a visible character |
| Strings.Trim | src/services/git/git.service.ts:308 | the trimmed text is the original with only whitespace removed: a contiguous piece that starts after the leading whitespace, is followed only by whitespace, and neither starts nor ends with whitespace |
| Strings.TrimEndDropsWhitespace | src/services/git/git.service.ts:308 | trimming the end of a visible-ended text plus whitespace gives back the text |
| Strings.TrimDropsWhitespace | src/services/git/git.service.ts:308 | trimming a text with visible ends plus trailing whitespace gives back the text |
| Strings.TrimPadded | src/services/git/git.service.ts:193 | leading spaces, as on a branch listing line, do not change the trimmed text |
| Strings.TrimNoOuterSpace | src/services/git/git.service.ts:308 | a text with visible ends is its own trim |
| Strings.ContainsAfterPrefix | src/services/git/git.service.ts:194 | a prefix without the pattern's first character does not change whether the pattern occurs |
| Strings.Prefix | src/services/container/service-container.ts:90 | the first `n` characters, or the whole text when shorter |

## Left out

- SHA-256, PBKDF2 and AES-256-CBC: these are the fields of a `Primitives` value. The round trip assumes only that decryption inverts encryption (`Crypto.Inverts`). The random salt and IV are parameters.
- Crypto.Decrypt: it does not check the `"Salted__"` header, because the code never does. Only the encrypt side writes the header (src/__tests__/crypto.service.test.ts:73-75).
- The REST client (`api-client.service.ts`) is not part of this model. Its replies are oracle values, and `verifyOtp` follows its stated contract of answering "not verified" instead of rejecting.
- zstd, tar and the file system: each call is an opaque step that returns a size or fails. Compressed bytes are a pair of functions.
- What git commands do to the repository: clone, push and history rewriting are recorded commands. A `Shell` gives each one's result.
- Wall-clock time and `setTimeout`: the clock is a sequence of readings that advances by at least the 5 s sleep per poll. The 2 s waits between resume retries are recorded steps with no duration.
- Otp.WaitForOtpVerification: `new Date(expiresAt).getTime()` is taken as already parsed, to milliseconds or to `None` for `NaN`. Date-string parsing is not modelled.
- The summary notices: only the backup's commit-metadata condition, its opening and the dashboard link are modelled. The rest of the text is cosmetic. The restore summary keeps only the file version and the suspension flag.
- Validation.ValidatePassword, Validation.ValidateActionType, Validation.ValidateOtpMethod, Validation.ValidateRestoreInputs, Crypto.HashPassword, Crypto.Encrypt, Crypto.Decrypt: the `ensureInitialized()` guard at the head of each (validation.service.ts lines 14, 57, 69, 81; crypto.service.ts lines 27, 39, 63) is left out, so these never fail with "<class> must be initialized before use". The validation service is initialised by `ConfigService.onInitialize` before any check runs. The crypto service is initialised by each workflow's `onInitialize`, and a workflow whose initialisation failed refuses to run. So the guard never throws in the runs the model covers.
- Exec.Settle: the tool in an exit-code message stands for the path `exec` resolves (such as `/usr/bin/git`); the model writes the command name.
- Logging, `src/index.ts` (process entry, outputs and process handlers) and `src/utils/logger.ts`: these have no effect on results.
- The JSON encoding of the saved suspension state: a file that cannot be read or parsed is treated as absent, as the code treats it.
- Strings.ToUpper, Strings.ToLower: they map ASCII letters only. Environment input names and the boolean inputs are ASCII.
- Compression.SizeIsTotalOfFiles, Compression.CompressionService.GetDirectorySize: the `Entry` tree is the tree `fs.stat` sees, and `stat` follows symbolic links. A linked subtree therefore appears in it, and counts, once per path that reaches it. A symbolic-link cycle, which the source walks until `stat` fails, cannot be represented by a finite tree.
- Container.GitHubKeyOf, Container.RestoreKeyOf: `token.substring(0, 8)` counts UTF-16 code units, while `Strings.Prefix` counts characters. The two agree on ASCII, and GitHub tokens are ASCII.
- Concurrent workflow runs: out of scope. Each service instance is used by one run at a time.
