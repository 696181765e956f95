/** `CompressionService` (src/services/compression/compression.service.ts): archiving the
    mirror with tar, compressing it with zstd, and measuring a directory.

    The tar and zstd libraries and the file system stay opaque: what is found at a path is an
    `Entry` tree, the zstd codec is a pair of functions, and each read, write or library call
    that can fail is a parameter saying how it ends. Logging is left out. */
module Compression {
  import opened Wrappers
  import opened Records
  import Base

  const ClassName := "CompressionService"
  /** The level `compressWithZstd` passes to the codec. */
  const ZstdLevel := 10

  const TarUnavailable := "Tar functionality not available"
  const ZstdUnavailable := "zstd-codec module not available. Please install it with: npm install zstd-codec"
  const TarContext := "Failed to create tar archive"
  const CompressContext := "Failed to compress with zstd"
  const DecompressContext := "Failed to decompress with zstd"
  const ExtractContext := "Failed to extract tar archive"
  const StreamContext := "Failed to stream compress with zstd"

  function NotADirectory(path: string): string
  {
    "Source path " + path + " is not a directory"
  }

  /** What `fs.stat` finds at a path: a regular file of some size, a directory and its
      entries, something else (a socket, a device), or a failure (the path is gone, access is
      denied, or the directory cannot be listed). */
  datatype Entry =
    | File(size: nat)
    | Dir(entries: seq<DirEntry>)
    | Special
    | Failing(message: string)

  datatype DirEntry = DirEntry(name: string, node: Entry)

  // --- getDirectorySize -------------------------------------------------------------

  /** The size `getDirectorySize` reports: a file's size, the sum over a directory's entries,
      and 0 for anything else, including a path that fails. */
  function Size(e: Entry): nat
    decreases e, 1, 0
  {
    match e
    case File(n) => n
    case Dir(entries) => SumEntries(e, |entries|)
    case _ => 0
  }

  /** The sizes of the first `n` entries of directory `d`, added in listing order. */
  function SumEntries(d: Entry, n: nat): nat
    requires d.Dir? && n <= |d.entries|
    decreases d, 0, n
  {
    if n == 0 then 0 else SumEntries(d, n - 1) + Size(d.entries[n - 1].node)
  }

  /** The reference reading: the sizes of every regular file reached through directories
      that could be listed, in walk order. */
  ghost function FileSizes(e: Entry): seq<nat>
    decreases e, 1, 0
  {
    match e
    case File(n) => [n]
    case Dir(entries) => EntryFileSizes(e, |entries|)
    case _ => []
  }

  ghost function EntryFileSizes(d: Entry, n: nat): seq<nat>
    requires d.Dir? && n <= |d.entries|
    decreases d, 0, n
  {
    if n == 0 then [] else EntryFileSizes(d, n - 1) + FileSizes(d.entries[n - 1].node)
  }

  function Total(xs: seq<nat>): nat
  {
    if xs == [] then 0 else Total(xs[..|xs| - 1]) + xs[|xs| - 1]
  }

  lemma {:induction false} TotalAppend(xs: seq<nat>, ys: seq<nat>)
    ensures Total(xs + ys) == Total(xs) + Total(ys)
    decreases |ys|
  {
    if ys != [] {
      var zs := xs + ys;
      assert zs[..|zs| - 1] == xs + ys[..|ys| - 1];
      TotalAppend(xs, ys[..|ys| - 1]);
    } else {
      assert xs + ys == xs;
    }
  }

  /** The size of a tree is the total of the regular files in it: nothing that is not a
      regular file adds to it, and no file is counted twice. */
  lemma {:induction false} SizeIsTotalOfFiles(e: Entry)
    ensures Size(e) == Total(FileSizes(e))
    decreases e, 1, 0
  {
    match e
    case File(n) =>
      assert [n][..0] == [];
    case Dir(entries) =>
      EntriesAreTotalOfFiles(e, |entries|);
    case _ =>
  }

  lemma {:induction false} EntriesAreTotalOfFiles(d: Entry, n: nat)
    requires d.Dir? && n <= |d.entries|
    ensures SumEntries(d, n) == Total(EntryFileSizes(d, n))
    decreases d, 0, n
  {
    if n > 0 {
      EntriesAreTotalOfFiles(d, n - 1);
      SizeIsTotalOfFiles(d.entries[n - 1].node);
      TotalAppend(EntryFileSizes(d, n - 1), FileSizes(d.entries[n - 1].node));
    }
  }

  /** Only the listed entries up to `n` matter. */
  lemma {:induction false} SumEntriesPrefix(xs: seq<DirEntry>, ys: seq<DirEntry>, n: nat)
    requires n <= |xs| && n <= |ys| && xs[..n] == ys[..n]
    ensures SumEntries(Dir(xs), n) == SumEntries(Dir(ys), n)
  {
    if n > 0 {
      assert xs[..n - 1] == ys[..n - 1] by {
        assert xs[..n - 1] == xs[..n][..n - 1];
        assert ys[..n - 1] == ys[..n][..n - 1];
      }
      assert xs[n - 1] == xs[..n][n - 1] == ys[..n][n - 1] == ys[n - 1];
      SumEntriesPrefix(xs, ys, n - 1);
    }
  }

  lemma {:induction false} SumEntriesJoined(a: seq<DirEntry>, b: seq<DirEntry>, k: nat)
    requires k <= |b|
    ensures SumEntries(Dir(a + b), |a| + k) == Size(Dir(a)) + SumEntries(Dir(b), k)
  {
    if k == 0 {
      assert (a + b)[..|a|] == a[..|a|];
      SumEntriesPrefix(a + b, a, |a|);
    } else {
      SumEntriesJoined(a, b, k - 1);
      assert (a + b)[|a| + k - 1] == b[k - 1];
    }
  }

  /** The entries of a directory are counted independently: splitting a listing in two
      splits the size in two. */
  lemma SizeOfJoinedListing(a: seq<DirEntry>, b: seq<DirEntry>)
    ensures Size(Dir(a + b)) == Size(Dir(a)) + Size(Dir(b))
  {
    SumEntriesJoined(a, b, |b|);
  }

  /** A failing entry costs its siblings nothing: it counts 0 and the rest is counted as if
      it were not there. */
  lemma FailingEntryCountsZero(a: seq<DirEntry>, name: string, message: string, b: seq<DirEntry>)
    ensures Size(Dir(a + [DirEntry(name, Failing(message))] + b)) == Size(Dir(a + b))
  {
    var bad := [DirEntry(name, Failing(message))];
    SizeOfJoinedListing(a + bad, b);
    SizeOfJoinedListing(a, bad);
    SizeOfJoinedListing(a, b);
    assert Size(Dir(bad)) == SumEntries(Dir(bad), 0) + Size(Failing(message)) == 0;
  }

  /** The walk of `getDirectorySize` below the guard: a file is its size, a directory adds
      up its entries one after another, anything else is 0; it never fails. */
  method SizeOf(e: Entry) returns (total: nat)
    ensures total == Size(e)
    decreases e
  {
    match e {
      case File(n) =>
        total := n;
      case Dir(entries) =>
        total := 0;
        for i := 0 to |entries|
          invariant total == SumEntries(e, i)
        {
          var s := SizeOf(entries[i].node);
          total := total + s;
        }
      case Special =>
        total := 0;
      case Failing(_) =>
        total := 0;
    }
  }

  // --- archive steps -----------------------------------------------------------------

  /** The zstd codec once loaded. */
  datatype Zstd = Zstd(compress: (Bytes, nat) -> Bytes, decompress: Bytes -> Result<Bytes>)

  /** What `compressWithZstd` produces before writing: the compressed buffer, or why it
      could not be made. */
  function Compressed(zstd: Option<Zstd>, input: Result<Bytes>): (r: Result<Bytes>)
    ensures r.Ok? <==> zstd.Some? && input.Ok?
    ensures r.Ok? ==> r.value == zstd.value.compress(input.value, ZstdLevel)
    ensures zstd.None? ==> r == Err(ZstdUnavailable)
    ensures zstd.Some? && input.Err? ==> r == input
  {
    if zstd.None? then Err(ZstdUnavailable)
    else if input.Err? then input
    else Ok(zstd.value.compress(input.value, ZstdLevel))
  }

  /** File-system steps the service takes, in order. */
  datatype FsStep = MakeDir(path: string) | Extract(tarPath: string, dir: string)

  class CompressionService {
    /** Whether the tar library exposes `create`. */
    const tarAvailable: bool
    /** The zstd codec, when the module can be loaded. */
    const zstd: Option<Zstd>
    var initialized: bool

    constructor (tarAvailable: bool, zstd: Option<Zstd>)
      ensures this.tarAvailable == tarAvailable && this.zstd == zstd && !initialized
    {
      this.tarAvailable := tarAvailable;
      this.zstd := zstd;
      initialized := false;
    }

    /** `initialize()`: the hook fails when tar is not usable. */
    method Initialize() returns (r: Outcome)
      modifies this
      ensures old(initialized) ==> r == Pass
      ensures !old(initialized) ==> r == if tarAvailable then Pass else Fail(TarUnavailable)
      ensures initialized == (old(initialized) || tarAvailable)
    {
      if initialized {
        return Pass;
      }
      if !tarAvailable {
        return Fail(TarUnavailable);
      }
      initialized := true;
      r := Pass;
    }

    /** `createTarArchive(sourceDir, outputPath)`: `source` is what is found at `sourceDir`,
        and `archive` how creating the archive and reading its size ends. Only a directory is
        archived, and the result is the size of the archive. */
    method CreateTarArchive(sourceDir: string, source: Entry, archive: Result<nat>) returns (r: Result<nat>)
      ensures !initialized ==> r == Err(Base.NotInitializedMessage(ClassName))
      ensures initialized ==> (r.Ok? <==> source.Dir? && archive.Ok?)
      ensures initialized && r.Ok? ==> r == archive
      ensures initialized && source.Failing? ==> r == Err(Base.Wrapped(TarContext, source.message))
      ensures initialized && (source.File? || source.Special?) ==>
        r == Err(Base.Wrapped(TarContext, NotADirectory(sourceDir)))
      ensures initialized && source.Dir? && archive.Err? ==> r == Err(Base.Wrapped(TarContext, archive.error))
    {
      if !initialized {
        return Err(Base.NotInitializedMessage(ClassName));
      }
      if source.Failing? {
        return Err(Base.Wrapped(TarContext, source.message));
      }
      if !source.Dir? {
        return Err(Base.Wrapped(TarContext, NotADirectory(sourceDir)));
      }
      if archive.Err? {
        return Err(Base.Wrapped(TarContext, archive.error));
      }
      r := archive;
    }

    /** `compressWithZstd(inputPath, outputPath)`: `input` is how reading the input ends and
        `write` how writing the output ends; the result is the compressed size. */
    method CompressWithZstd(input: Result<Bytes>, write: Outcome) returns (r: Result<nat>)
      ensures !initialized ==> r == Err(Base.NotInitializedMessage(ClassName))
      ensures initialized ==>
        var c := Compressed(zstd, input);
        && (c.Err? ==> r == Err(Base.Wrapped(CompressContext, c.error)))
        && (c.Ok? && write.Fail? ==> r == Err(Base.Wrapped(CompressContext, write.error)))
        && (c.Ok? && write.Pass? ==> r == Ok(|c.value|))
    {
      if !initialized {
        return Err(Base.NotInitializedMessage(ClassName));
      }
      var c := Compressed(zstd, input);
      if c.Err? {
        return Err(Base.Wrapped(CompressContext, c.error));
      }
      if write.Fail? {
        return Err(Base.Wrapped(CompressContext, write.error));
      }
      r := Ok(|c.value|);
    }

    /** `compressStreamWithZstd(inputPath, outputPath)` hands the work to
        `compressWithZstd`, and wraps its error once more. */
    method CompressStreamWithZstd(input: Result<Bytes>, write: Outcome) returns (r: Result<nat>)
      ensures !initialized ==> r == Err(Base.NotInitializedMessage(ClassName))
      ensures initialized ==>
        var c := Compressed(zstd, input);
        && (c.Err? ==> r == Err(Base.Wrapped(StreamContext, Base.Wrapped(CompressContext, c.error))))
        && (c.Ok? && write.Fail? ==> r == Err(Base.Wrapped(StreamContext, Base.Wrapped(CompressContext, write.error))))
        && (c.Ok? && write.Pass? ==> r == Ok(|c.value|))
    {
      if !initialized {
        return Err(Base.NotInitializedMessage(ClassName));
      }
      var inner := CompressWithZstd(input, write);
      if inner.Err? {
        return Err(Base.Wrapped(StreamContext, inner.error));
      }
      r := inner;
    }

    /** `decompressZstd(inputPath, outputPath)`: the buffer written is the codec's
        decompression of the input; `written` is it when the write was attempted. */
    method DecompressZstd(input: Result<Bytes>, write: Outcome) returns (r: Outcome, written: Option<Bytes>)
      ensures !initialized ==> r == Fail(Base.NotInitializedMessage(ClassName)) && written.None?
      ensures initialized && zstd.None? ==> r == Fail(Base.Wrapped(DecompressContext, ZstdUnavailable)) && written.None?
      ensures initialized && zstd.Some? && input.Err? ==> r == Fail(Base.Wrapped(DecompressContext, input.error)) && written.None?
      ensures initialized && zstd.Some? && input.Ok? ==>
        var d := zstd.value.decompress(input.value);
        && (d.Err? ==> r == Fail(Base.Wrapped(DecompressContext, d.error)) && written.None?)
        && (d.Ok? ==> written == Some(d.value) && r == (if write.Pass? then Pass else Fail(Base.Wrapped(DecompressContext, write.error))))
    {
      written := None;
      if !initialized {
        return Fail(Base.NotInitializedMessage(ClassName)), None;
      }
      if zstd.None? {
        return Fail(Base.Wrapped(DecompressContext, ZstdUnavailable)), None;
      }
      if input.Err? {
        return Fail(Base.Wrapped(DecompressContext, input.error)), None;
      }
      var d := zstd.value.decompress(input.value);
      if d.Err? {
        return Fail(Base.Wrapped(DecompressContext, d.error)), None;
      }
      written := Some(d.value);
      if write.Fail? {
        return Fail(Base.Wrapped(DecompressContext, write.error)), written;
      }
      r := Pass;
    }

    /** `extractTarArchive(tarPath, extractDir)`: the target directory is created (with its
        parents) first, and the archive is extracted into it only once that worked. */
    method ExtractTarArchive(tarPath: string, extractDir: string, mkdir: Outcome, extract: Outcome)
      returns (r: Outcome, done: seq<FsStep>)
      ensures !initialized ==> r == Fail(Base.NotInitializedMessage(ClassName)) && done == []
      ensures initialized ==> done != [] && done[0] == MakeDir(extractDir)
      ensures initialized && mkdir.Fail? ==> r == Fail(Base.Wrapped(ExtractContext, mkdir.error)) && |done| == 1
      ensures initialized && mkdir.Pass? ==>
        && done == [MakeDir(extractDir), Extract(tarPath, extractDir)]
        && r == if extract.Pass? then Pass else Fail(Base.Wrapped(ExtractContext, extract.error))
    {
      if !initialized {
        return Fail(Base.NotInitializedMessage(ClassName)), [];
      }
      done := [MakeDir(extractDir)];
      if mkdir.Fail? {
        return Fail(Base.Wrapped(ExtractContext, mkdir.error)), done;
      }
      done := done + [Extract(tarPath, extractDir)];
      if extract.Fail? {
        return Fail(Base.Wrapped(ExtractContext, extract.error)), done;
      }
      r := Pass;
    }

    /** `getDirectorySize(dirPath)`: after the guard, the size of what is at the path; a
        failure anywhere below counts 0 for that path and is never reported. */
    method GetDirectorySize(e: Entry) returns (r: Result<nat>)
      ensures !initialized ==> r == Err(Base.NotInitializedMessage(ClassName))
      ensures initialized ==> r == Ok(Size(e))
    {
      if !initialized {
        return Err(Base.NotInitializedMessage(ClassName));
      }
      var total := SizeOf(e);
      r := Ok(total);
    }
  }
}
