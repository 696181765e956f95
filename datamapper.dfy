/** `DataMapper.createUploadData` (src/utils/data.mapper.ts): the record uploaded with a
    backup, assembled from the encrypted archive, the commit at HEAD, the run context and the
    upload settings. The run context and the `OWNER_TYPE` variable are parameters. */
module DataMapper {
  import opened Wrappers
  import opened Records
  import Strings

  /** The commit a metadata block describes: the inverse of the metadata's commit part. */
  function CommitOf(m: BackupMetadata): CommitInfo
  {
    CommitInfo(m.commit, m.commitShort, m.author, m.date, m.message, m.parents)
  }

  /** `createUploadData(...)`: the buffer, the uncompressed size and the encrypted size are
      passed through; the metadata carries the commit unchanged, with the author standing in as
      committer; the upload settings come from the configuration; the owner type defaults to
      "User". */
  function CreateUploadData(
    context: RunContext,
    ownerType: Option<string>,
    encryptedBuffer: Bytes,
    fileName: string,
    originalSize: nat,
    encryptedSize: nat,
    commitInfo: CommitInfo,
    config: AppConfig): (r: FileUploadData)
    ensures CommitOf(r.metadata) == commitInfo
    ensures r.metadata.committer == r.metadata.author == commitInfo.author
    ensures r.metadata.event == context.eventName && r.metadata.ref == context.ref
    ensures r.metadata.actor == context.actor && r.metadata.owner == context.owner
    ensures r.metadata.ownerType == if ownerType.Some? && ownerType.value != "" then ownerType.value else "User"
    ensures r.file == encryptedBuffer && r.size == originalSize && r.compressedFileSize == encryptedSize
    ensures r.fileName == fileName && r.fullPath == FullPath(context.owner, context.repo, fileName)
    ensures r.attributes == config.upload.attributes && r.revisionType == config.upload.revisionType
    ensures r.compressionEngine == config.upload.compressionEngine
    ensures r.compressionLevel == config.upload.compressionLevel
    ensures r.encryptionType == config.upload.encryptionType
  {
    var metadata := BackupMetadata(
      context.eventName,
      context.ref,
      context.actor,
      context.owner,
      if ownerType.Some? && ownerType.value != "" then ownerType.value else "User",
      commitInfo.hash,
      commitInfo.shortHash,
      commitInfo.parents,
      commitInfo.author,
      commitInfo.date,
      commitInfo.author,
      commitInfo.message);
    FileUploadData(
      encryptedBuffer,
      originalSize,
      encryptedSize,
      config.upload.attributes,
      fileName,
      FullPath(context.owner, context.repo, fileName),
      config.upload.compressionEngine,
      config.upload.compressionLevel,
      config.upload.encryptionType,
      config.upload.revisionType,
      metadata)
  }

  /** "/owner/repo/fileName". */
  function FullPath(owner: string, repo: string, fileName: string): string
  {
    "/" + owner + "/" + repo + "/" + fileName
  }

  lemma PrependThree<T>(a: T, b: T, c: T, rest: seq<T>)
    ensures [a] + ([b] + ([c] + rest)) == [a, b, c] + rest
  {
  }

  /** The full path read back on '/': an empty root segment, the owner, the repository, and
      the file name's own segments. */
  lemma FullPathSegments(owner: string, repo: string, fileName: string)
    requires '/' !in owner && '/' !in repo
    ensures Strings.Split(FullPath(owner, repo, fileName), '/') == ["", owner, repo] + Strings.Split(fileName, '/')
  {
    var t3 := repo + ['/'] + fileName;
    var t2 := owner + ['/'] + t3;
    assert FullPath(owner, repo, fileName) == [] + ['/'] + t2;
    Strings.SplitCons(repo, fileName, '/');
    Strings.SplitCons(owner, t3, '/');
    Strings.SplitCons([], t2, '/');
    PrependThree("", owner, repo, Strings.Split(fileName, '/'));
  }
}
