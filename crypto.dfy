/** `CryptoService` (src/services/crypto/crypto.service.ts): the OpenSSL-style frame
    `"Salted__" ‖ salt ‖ iv ‖ ciphertext` around AES-256-CBC with a PBKDF2-derived key, and the
    SHA-256 password hash that both archive operations apply first.

    SHA-256, PBKDF2 and AES-256-CBC are not modelled: they are the fields of a `Primitives`
    value, and the one property of the cipher the round trip needs is the predicate `Inverts`.
    The random salt and IV become parameters of `Encrypt`. */
module Crypto {
  import opened Wrappers
  import opened Records
  import Strings
  import Base

  /** A SHA-256 digest. */
  type Digest = d: Bytes | |d| == 32 witness seq(32, i => 0)

  /** The library calls the service makes. `decipher` includes PKCS#7 unpadding, so it can fail
      on a wrong key or corrupted data. */
  datatype Primitives = Primitives(
    /** SHA-256 of the UTF-8 encoding of a string. */
    sha256Utf8: string -> Digest,
    /** PBKDF2(password, salt, iterations, key length, digest name). */
    pbkdf2: (string, Bytes, nat, nat, string) -> Bytes,
    /** AES-256-CBC encryption with PKCS#7 padding: key, iv, plaintext. */
    encipher: (Bytes, Bytes, Bytes) -> Result<Bytes>,
    /** AES-256-CBC decryption: key, iv, ciphertext. */
    decipher: (Bytes, Bytes, Bytes) -> Result<Bytes>)

  /** Decryption under the same key and 16-byte IV undoes a successful encryption. */
  ghost predicate Inverts(p: Primitives)
  {
    forall key: Bytes, iv: Bytes, m: Bytes {:trigger p.encipher(key, iv, m)} ::
      |iv| == 16 && p.encipher(key, iv, m).Ok? ==> p.decipher(key, iv, p.encipher(key, iv, m).value) == Ok(m)
  }

  /** The parameters each of `encrypt` and `decrypt` declares for itself. */
  datatype CipherSettings = CipherSettings(
    saltLength: nat,
    ivLength: nat,
    keyLength: nat,
    iterations: nat,
    algorithm: string,
    digest: string)

  const EncryptSettings := CipherSettings(8, 16, 32, 100000, "aes-256-cbc", "sha256")
  const DecryptSettings := CipherSettings(8, 16, 32, 100000, "aes-256-cbc", "sha256")

  /** The eight bytes of `Buffer.from('Salted__')`. */
  const Magic: Bytes := [0x53, 0x61, 0x6c, 0x74, 0x65, 0x64, 0x5f, 0x5f]

  // ---------------------------------------------------------------------------
  // hashPassword
  // ---------------------------------------------------------------------------

  predicate IsLowerHex(c: char) { '0' <= c <= '9' || 'a' <= c <= 'f' }

  function HexDigit(n: nat): (c: char)
    requires n < 16
    ensures IsLowerHex(c)
  {
    if n < 10 then (n + '0' as int) as char else (n - 10 + 'a' as int) as char
  }

  function HexValue(c: char): (n: nat)
    requires IsLowerHex(c)
    ensures n < 16
  {
    if c <= '9' then c as int - '0' as int else c as int - 'a' as int + 10
  }

  /** `digest('hex')`: two lowercase hexadecimal digits per byte, high nibble first. */
  function HexLower(bytes: Bytes): (s: string)
    ensures |s| == 2 * |bytes|
    ensures forall i :: 0 <= i < |s| ==> IsLowerHex(s[i])
  {
    if bytes == [] then ""
    else [HexDigit(bytes[0] / 16), HexDigit(bytes[0] % 16)] + HexLower(bytes[1..])
  }

  /** Reading a hex string back into bytes: the reference reading of `HexLower`. */
  function HexDecode(s: string): Bytes
    requires |s| % 2 == 0
    requires forall i :: 0 <= i < |s| ==> IsLowerHex(s[i])
  {
    if s == [] then [] else [HexValue(s[0]) * 16 + HexValue(s[1])] + HexDecode(s[2..])
  }

  /** The hex form loses nothing: two different digests never print the same. */
  lemma {:induction false} HexRoundTrip(bytes: Bytes)
    ensures HexDecode(HexLower(bytes)) == bytes
  {
    if bytes != [] {
      var s := HexLower(bytes);
      assert s[2..] == HexLower(bytes[1..]);
      HexRoundTrip(bytes[1..]);
    }
  }

  /** `hashPassword`: the SHA-256 of the password's UTF-8 bytes as 64 lowercase hex digits. */
  function HashPassword(p: Primitives, password: string): (h: string)
    ensures |h| == 64
    ensures forall i :: 0 <= i < |h| ==> IsLowerHex(h[i])
    ensures HexDecode(h) == p.sha256Utf8(password)
  {
    var h := HexLower(p.sha256Utf8(password));
    HexRoundTrip(p.sha256Utf8(password));
    h
  }

  /** Passwords with different digests have different hashes. */
  lemma HashDistinguishesDigests(p: Primitives, a: string, b: string)
    requires p.sha256Utf8(a) != p.sha256Utf8(b)
    ensures HashPassword(p, a) != HashPassword(p, b)
  {
  }

  // ---------------------------------------------------------------------------
  // The frame
  // ---------------------------------------------------------------------------

  /** `Buffer.concat([Buffer.from('Salted__'), salt, iv, encryptedData])`. */
  function Frame(salt: Bytes, iv: Bytes, ciphertext: Bytes): Bytes
  {
    Magic + salt + iv + ciphertext
  }

  /** `buf.subarray(start, end)`: both bounds are clamped to the buffer's length, so a short
      buffer yields short (possibly empty) slices rather than an error. */
  function Subarray(buf: Bytes, start: nat, end: nat): (r: Bytes)
    requires start <= end
    ensures |r| == (if end <= |buf| then end - start else if start <= |buf| then |buf| - start else 0)
    ensures start <= |buf| ==> r == buf[start..if end <= |buf| then end else |buf|]
  {
    var s := if start <= |buf| then start else |buf|;
    var e := if end <= |buf| then end else |buf|;
    buf[s..e]
  }

  /** The three slices `decrypt` takes: salt = [8, 16), iv = [16, 32), ciphertext = [32, ..). */
  datatype Slices = Slices(salt: Bytes, iv: Bytes, ciphertext: Bytes)

  function Slice(buf: Bytes): (r: Slices)
    ensures |buf| >= 32 ==> |r.salt| == 8 && |r.iv| == 16 && |r.ciphertext| == |buf| - 32
    ensures |buf| < 32 ==> |r.iv| < 16 && r.ciphertext == []
  {
    var s := DecryptSettings;
    Slices(
      Subarray(buf, 8, 8 + s.saltLength),
      Subarray(buf, 8 + s.saltLength, 8 + s.saltLength + s.ivLength),
      Subarray(buf, 8 + s.saltLength + s.ivLength, if |buf| < 32 then 32 else |buf|))
  }

  /** Slicing a frame returns exactly the salt, IV and ciphertext it was built from. */
  lemma SliceFrame(salt: Bytes, iv: Bytes, ciphertext: Bytes)
    requires |salt| == 8 && |iv| == 16
    ensures Slice(Frame(salt, iv, ciphertext)) == Slices(salt, iv, ciphertext)
  {
    var f := Frame(salt, iv, ciphertext);
    assert f[8..16] == salt;
    assert f[16..32] == iv;
    assert f[32..] == ciphertext;
  }

  /** A frame is never shorter than its 32-byte header and starts with "Salted__". */
  lemma FrameLayout(salt: Bytes, iv: Bytes, ciphertext: Bytes)
    requires |salt| == 8 && |iv| == 16
    ensures |Frame(salt, iv, ciphertext)| == 32 + |ciphertext|
    ensures Frame(salt, iv, ciphertext)[..8] == Magic
  {
  }

  // ---------------------------------------------------------------------------
  // encrypt / decrypt
  // ---------------------------------------------------------------------------

  const EncryptFailed := "Failed to encrypt data"
  const DecryptFailed := "Failed to decrypt data"
  /** What `createDecipheriv` throws for an IV that is not 16 bytes long. */
  const InvalidIv := "Invalid initialization vector"

  function DeriveKey(p: Primitives, password: string, salt: Bytes, s: CipherSettings): Bytes
  {
    p.pbkdf2(password, salt, s.iterations, s.keyLength, s.digest)
  }

  /** `encrypt(input, password)` with the salt and IV that `randomBytes` would have produced:
      the frame around the ciphertext, or the cipher's error prefixed with the context. */
  function Encrypt(p: Primitives, input: Bytes, password: string, salt: Bytes, iv: Bytes): (r: Result<Bytes>)
    requires |salt| == EncryptSettings.saltLength && |iv| == EncryptSettings.ivLength
    ensures r.Ok? <==> p.encipher(DeriveKey(p, password, salt, EncryptSettings), iv, input).Ok?
    ensures r.Ok? ==>
      var ct := p.encipher(DeriveKey(p, password, salt, EncryptSettings), iv, input).value;
      |r.value| == 32 + |ct| && r.value[..8] == Magic && Slice(r.value) == Slices(salt, iv, ct)
    ensures r.Err? ==> Strings.StartsWith(r.error, EncryptFailed + ": ")
  {
    var key := DeriveKey(p, password, salt, EncryptSettings);
    match p.encipher(key, iv, input)
    case Ok(ct) =>
      SliceFrame(salt, iv, ct);
      Ok(Frame(salt, iv, ct))
    case Err(e) => Base.HandleError(EncryptFailed, e)
  }

  /** `decrypt(buf, password)`: slices the frame without looking at its first eight bytes,
      derives the key from the embedded salt, and deciphers. A buffer shorter than 32 bytes has
      a short IV and fails as the deciphering library does. */
  function Decrypt(p: Primitives, buf: Bytes, password: string): (r: Result<Bytes>)
    ensures |buf| < 32 ==> r == Err(DecryptFailed + ": " + InvalidIv)
    ensures |buf| >= 32 ==>
      var sl := Slice(buf);
      var d := p.decipher(DeriveKey(p, password, sl.salt, DecryptSettings), sl.iv, sl.ciphertext);
      (r.Ok? <==> d.Ok?) && (r.Ok? ==> r.value == d.value)
    ensures r.Err? ==> Strings.StartsWith(r.error, DecryptFailed + ": ")
  {
    var sl := Slice(buf);
    var key := DeriveKey(p, password, sl.salt, DecryptSettings);
    if |sl.iv| != DecryptSettings.ivLength then
      Base.HandleError(DecryptFailed, InvalidIv)
    else
      match p.decipher(key, sl.iv, sl.ciphertext)
      case Ok(m) => Ok(m)
      case Err(e) => Base.HandleError(DecryptFailed, e)
  }

  /** `decrypt` never inspects the header: two buffers that differ only in their first eight
      bytes decrypt alike, so a frame without "Salted__" is not refused for that reason. */
  lemma DecryptIgnoresHeader(p: Primitives, a: Bytes, b: Bytes, password: string)
    requires |a| == |b| && |a| >= 8 && a[8..] == b[8..]
    ensures Decrypt(p, a, password) == Decrypt(p, b, password)
  {
    if |a| >= 32 {
      assert a[8..16] == a[8..][..8] == b[8..][..8] == b[8..16];
      assert a[16..32] == a[8..][8..24] == b[8..][8..24] == b[16..32];
      assert a[32..] == a[8..][24..] == b[8..][24..] == b[32..];
      assert Slice(a) == Slice(b);
    }
  }

  /** Decrypting what `encrypt` produced with the same password gives the plaintext back,
      the empty plaintext included. */
  lemma RoundTrip(p: Primitives, m: Bytes, password: string, salt: Bytes, iv: Bytes)
    requires Inverts(p)
    requires |salt| == 8 && |iv| == 16
    requires Encrypt(p, m, password, salt, iv).Ok?
    ensures Decrypt(p, Encrypt(p, m, password, salt, iv).value, password) == Ok(m)
  {
    var key := DeriveKey(p, password, salt, EncryptSettings);
    var ct := p.encipher(key, iv, m).value;
    SliceFrame(salt, iv, ct);
    assert p.decipher(key, iv, ct) == Ok(m);
  }

  // ---------------------------------------------------------------------------
  // encryptArchive / decryptBackup / getEncryptedFileName
  // ---------------------------------------------------------------------------

  /** `encryptArchive(path, password)`, with `file` the outcome of reading the archive: the
      bytes are encrypted under the password's hash, not the password. */
  function EncryptArchive(p: Primitives, file: Result<Bytes>, password: string, salt: Bytes, iv: Bytes): (r: Result<Bytes>)
    requires |salt| == 8 && |iv| == 16
    ensures file.Err? ==> r == Err(file.error)
    ensures file.Ok? ==> r == Encrypt(p, file.value, HashPassword(p, password), salt, iv)
  {
    var bytes :- file;
    Encrypt(p, bytes, HashPassword(p, password), salt, iv)
  }

  /** `decryptBackup(buf, password)`: decrypts under the password's hash. */
  function DecryptBackup(p: Primitives, buf: Bytes, password: string): (r: Result<Bytes>)
    ensures |buf| < 32 ==> r == Err(DecryptFailed + ": " + InvalidIv)
    ensures r.Err? ==> Strings.StartsWith(r.error, DecryptFailed + ": ")
    ensures r == Decrypt(p, buf, HashPassword(p, password))
  {
    Decrypt(p, buf, HashPassword(p, password))
  }

  /** A backup written by `encryptArchive` is restored by `decryptBackup` with the same
      password: both sides hash it the same way. */
  lemma ArchiveRoundTrip(p: Primitives, f: Bytes, password: string, salt: Bytes, iv: Bytes)
    requires Inverts(p)
    requires |salt| == 8 && |iv| == 16
    requires EncryptArchive(p, Ok(f), password, salt, iv).Ok?
    ensures DecryptBackup(p, EncryptArchive(p, Ok(f), password, salt, iv).value, password) == Ok(f)
  {
    RoundTrip(p, f, HashPassword(p, password), salt, iv);
  }

  const DefaultRepositoryName := "repository"
  const EncryptedSuffix := ".tar.zst.enc"

  /** `getEncryptedFileName(password)`, with `repository` the value of `GITHUB_REPOSITORY`
      (`None` when unset): the last '/'-separated piece, or "repository" when that is empty,
      followed by ".tar.zst.enc". The password plays no part. */
  function GetEncryptedFileName(repository: Option<string>, password: string): (r: string)
    ensures exists name :: name != "" && '/' !in name && r == name + EncryptedSuffix
    ensures repository.None? ==> r == DefaultRepositoryName + EncryptedSuffix
  {
    var name := if repository.Some? then Strings.LastPiece(repository.value, '/') else "";
    var chosen := if name == "" then DefaultRepositoryName else name;
    chosen + EncryptedSuffix
  }

  /** For "owner/name" the file is named after the repository part. */
  lemma EncryptedFileNameOfRepository(owner: string, name: string, password: string)
    requires '/' !in name && name != ""
    ensures GetEncryptedFileName(Some(owner + "/" + name), password) == name + EncryptedSuffix
  {
    Strings.LastPieceAround(owner, name, '/');
    assert owner + "/" + name == owner + ['/'] + name;
  }

  /** A repository value ending in '/' has an empty last piece and falls back to the default. */
  lemma EncryptedFileNameTrailingSlash(owner: string, password: string)
    ensures GetEncryptedFileName(Some(owner + "/"), password) == DefaultRepositoryName + EncryptedSuffix
  {
    Strings.LastPieceAround(owner, "", '/');
    assert owner + "/" == owner + ['/'] + "";
  }
}
