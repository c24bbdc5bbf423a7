/** Source downloads: the checksum a source names, and the cache addressed by it. */
module SourceChecksum {
  import opened Wrappers
  import opened ByteStrings

  datatype Algo = Sha256 | Sha512

  const SHA256: Bytes := "sha256"
  const SHA512: Bytes := "sha512"

  function AlgoName(algo: Algo): Bytes {
    if algo == Sha256 then SHA256 else SHA512
  }

  function HexLength(algo: Algo): nat {
    if algo == Sha256 then 64 else 128
  }

  /** What hex.EncodeToString prints. */
  predicate LowerHex(s: Bytes) {
    forall c :: c in s ==> '0' <= c <= '9' || 'a' <= c <= 'f'
  }

  function AlgoNamed(name: Bytes): Option<Algo> {
    if name == SHA256 then Some(Sha256) else if name == SHA512 then Some(Sha512) else None
  }

  /** parseChecksum */
  function ParseChecksum(raw: Bytes): (r: Option<(Algo, Bytes)>)
    ensures r.Some? ==> |r.value.1| == HexLength(r.value.0) && LowerHex(r.value.1)
  {
    var split := Cut(raw, ':');
    var algo, value := AlgoNamed(ToLower(split.0)), ToLower(split.1);
    if !split.2 || algo.None? || !LowerHex(value) || |value| != HexLength(algo.value) then None
    else Some((algo.value, value))
  }

  lemma {:induction false} CutOfLower(s: Bytes)
    ensures Cut(ToLower(s), ':') == (ToLower(Cut(s, ':').0), ToLower(Cut(s, ':').1), Cut(s, ':').2)
  {
    if s != [] {
      var lower := ToLower(s);
      assert lower[1..] == ToLower(s[1..]);
      CutOfLower(s[1..]);
      assert lower[0] == ':' <==> s[0] == ':';
    }
  }

  /** Two spellings that differ in letter case only name the same checksum. */
  lemma ParseIgnoresCase(raw: Bytes, other: Bytes)
    requires ToLower(raw) == ToLower(other)
    ensures ParseChecksum(raw) == ParseChecksum(other)
  {
    CutOfLower(raw);
    CutOfLower(other);
  }

  lemma NamesAreLower()
    ensures forall c :: c in SHA256 || c in SHA512 ==> !('A' <= c <= 'Z') && c != ':'
  {
  }

  lemma NameIsRead(algo: Algo)
    ensures AlgoNamed(ToLower(AlgoName(algo))) == Some(algo) && ':' !in AlgoName(algo)
  {
    NamesAreLower();
    ToLowerFixes(AlgoName(algo));
    assert SHA256[3] != SHA512[3];
  }

  lemma ParseOfParts(name: Bytes, algo: Algo, digest: Bytes)
    requires ':' !in name && AlgoNamed(ToLower(name)) == Some(algo)
    ensures ParseChecksum(name + [':'] + digest)
      == if LowerHex(ToLower(digest)) && |digest| == HexLength(algo) then Some((algo, ToLower(digest))) else None
  {
    CutAt(name, ':', digest);
  }

  /** The checksum a fetched artifact reports names the algorithm and digest it was checked against. */
  lemma ParseOfReported(algo: Algo, digest: Bytes)
    ensures ParseChecksum(AlgoName(algo) + [':'] + digest)
      == if LowerHex(ToLower(digest)) && |digest| == HexLength(algo) then Some((algo, ToLower(digest))) else None
  {
    NameIsRead(algo);
    ParseOfParts(AlgoName(algo), algo, digest);
  }
}

module SourceCache {
  import opened Wrappers
  import opened ByteStrings
  import opened SourceChecksum

  /** The downloaded source in the workspace, and the cache entries named after checksums. */
  datatype FilePath = Workspace | Cached(algo: Algo, digest: Bytes)

  datatype FileError = NotExist | IOFailed

  datatype FetchError = NotFetchable | Rejected | BadChecksum | Mismatch | CopyFailed | DownloadFailed

  datatype Artifact = Artifact(algo: Algo, digest: Bytes, size: nat, cacheHit: bool)

  datatype Request = Request(
    sourceType: Bytes, urlAllowed: bool, checksum: Bytes, useCache: bool, hasTTL: bool, aged: bool, retainNever: bool)

  /** The hash functions, as hex text. Nothing is assumed about them. */
  type Hash = (Algo, seq<octet>) -> Bytes

  ghost predicate CollisionFree(hash: Hash) {
    forall algo, a, b :: hash(algo, a) == hash(algo, b) ==> a == b
  }

  ghost predicate SameExcept(before: map<FilePath, seq<octet>>, after: map<FilePath, seq<octet>>,
                             paths: set<FilePath>) {
    forall p :: p !in paths ==> (p in after <==> p in before) && (p in after ==> after[p] == before[p])
  }

  /** The file is gone or is the one that was there before. */
  ghost predicate GoneOrKept(before: map<FilePath, seq<octet>>, after: map<FilePath, seq<octet>>, path: FilePath) {
    path in after ==> path in before && after[path] == before[path]
  }

  /** A file system in which every operation can fail; `faulted` and `removeFailed` remember what did. */
  class Files {
    var content: map<FilePath, seq<octet>>
    var faulted: bool
    var removeFailed: bool

    constructor (content: map<FilePath, seq<octet>>)
      ensures this.content == content && !faulted && !removeFailed
    {
      this.content, faulted, removeFailed := content, false, false;
    }

    /** Does this operation fail? */
    method Fault() returns (fails: bool)
      modifies this`faulted
      ensures faulted == (old(faulted) || fails)
    {
      fails := *;
      faulted := faulted || fails;
    }

    method Remove(path: FilePath)
      modifies this
      ensures content == old(content) - {path} || (content == old(content) && removeFailed && faulted)
      ensures (old(removeFailed) ==> removeFailed) && (old(faulted) ==> faulted)
    {
      var fails := Fault();
      if fails {
        removeFailed := true;
      } else {
        content := content - {path};
      }
    }

    method ReadAll(path: FilePath) returns (r: Result<seq<octet>, FileError>)
      modifies this`faulted
      ensures r.Success? ==> path in content && r.value == content[path]
      ensures r.Failure? && r.error == NotExist <==> path !in content
      ensures r.Failure? && r.error == IOFailed ==> faulted
      ensures old(faulted) ==> faulted
    {
      if path !in content {
        return Failure(NotExist);
      }
      var fails := Fault();
      if fails {
        return Failure(IOFailed);
      }
      return Success(content[path]);
    }

    /** cacheEntryExpired: without a TTL nothing is looked at; `aged` says that the entry is older than it. */
    method Expired(path: FilePath, hasTTL: bool, aged: bool) returns (r: Result<bool, FileError>)
      modifies this`faulted
      ensures r.Success? ==> r.value == (hasTTL && aged)
      ensures r.Failure? && r.error == NotExist ==> path !in content
      ensures r.Failure? && r.error == IOFailed ==> faulted
      ensures old(faulted) ==> faulted
    {
      if !hasTTL {
        return Success(false);
      }
      if path !in content {
        return Failure(NotExist);
      }
      var fails := Fault();
      if fails {
        return Failure(IOFailed);
      }
      return Success(aged);
    }

    /** Create or truncate the file and write some of the bytes; a failed write is removed again. */
    method Write(path: FilePath, bytes: seq<octet>) returns (ok: bool)
      modifies this
      ensures ok ==> content == old(content)[path := bytes]
      ensures SameExcept(old(content), content, {path})
      ensures !ok ==> faulted && (GoneOrKept(old(content), content, path) || removeFailed)
      ensures (old(removeFailed) ==> removeFailed) && (old(faulted) ==> faulted)
    {
      var fails := Fault();
      if fails {
        return false;
      }
      var done: nat := *;
      content := content[path := bytes[..done % (|bytes| + 1)]];
      fails := Fault();
      if fails {
        Remove(path);
        return false;
      }
      content := content[path := bytes];
      return true;
    }

    /** copyFile */
    method CopyFile(src: FilePath, dst: FilePath) returns (ok: bool)
      requires src != dst
      modifies this
      ensures ok ==> src in old(content) && content == old(content)[dst := old(content)[src]]
      ensures SameExcept(old(content), content, {dst})
      ensures !ok ==> GoneOrKept(old(content), content, dst) || removeFailed
      ensures !ok && src in old(content) ==> faulted
      ensures (old(removeFailed) ==> removeFailed) && (old(faulted) ==> faulted)
    {
      var bytes := ReadAll(src);
      if bytes.Failure? {
        assert bytes.error == NotExist || bytes.error == IOFailed;
        return false;
      }
      ok := Write(dst, bytes.value);
    }
  }

  /** The entry verifies: what copyValidCache checks before it serves a file. */
  predicate Verifies(content: map<FilePath, seq<octet>>, path: FilePath, hash: Hash, algo: Algo, expected: Bytes) {
    path in content && hash(algo, content[path]) == expected
  }

  /** An entry that may be served: it verifies and is not past its TTL. */
  predicate Servable(content: map<FilePath, seq<octet>>, hash: Hash, algo: Algo, expected: Bytes, request: Request) {
    Verifies(content, Cached(algo, expected), hash, algo, expected) && !(request.hasTTL && request.aged)
  }

  /**
   copyValidCache. A hit copies an entry that verifies; anything else leaves the destination alone, and an
   expired or wrong entry is removed.
   */
  method CopyValidCache(files: Files, hash: Hash, algo: Algo, expected: Bytes, request: Request)
    returns (r: Result<Option<Artifact>, FetchError>)
    modifies files
    ensures SameExcept(old(files.content), files.content, {Workspace, Cached(algo, expected)})
    ensures GoneOrKept(old(files.content), files.content, Cached(algo, expected))
    ensures r.Success? && r.value.Some? ==>
      Verifies(old(files.content), Cached(algo, expected), hash, algo, expected)
      && Workspace in files.content && files.content[Workspace] == old(files.content)[Cached(algo, expected)]
      && r.value.value == Artifact(algo, expected, |files.content[Workspace]|, true)
    ensures r.Success? && r.value.Some? && !request.retainNever ==> Cached(algo, expected) in files.content
    ensures r.Success? && r.value.Some? && request.retainNever ==>
      Cached(algo, expected) !in files.content || files.removeFailed
    ensures r.Success? && r.value.None? ==> SameExcept(old(files.content), files.content, {Cached(algo, expected)})
    ensures r.Success? && request.hasTTL && request.aged ==>
      r.value.None? && (Cached(algo, expected) !in files.content || files.removeFailed)
    ensures r.Failure? ==> r.error == CopyFailed && files.faulted
    ensures !files.faulted ==>
      (r.Success? && r.value.Some? <==> Servable(old(files.content), hash, algo, expected, request))
    ensures !Verifies(old(files.content), Cached(algo, expected), hash, algo, expected) ==> r == Success(None)
    ensures (old(files.removeFailed) ==> files.removeFailed) && (old(files.faulted) ==> files.faulted)
  {
    var path := Cached(algo, expected);
    var expired := files.Expired(path, request.hasTTL, request.aged);
    if expired.Failure? && expired.error == NotExist {
      return Success(None);
    }
    assert expired.Failure? ==> expired.error == IOFailed;
    if expired.Failure? || expired.value {
      files.Remove(path);
      return Success(None);
    }
    var bytes := files.ReadAll(path);
    if bytes.Failure? && bytes.error == NotExist {
      return Success(None);
    }
    assert bytes.Failure? ==> bytes.error == IOFailed;
    if bytes.Failure? || hash(algo, bytes.value) != expected {
      files.Remove(path);
      return Success(None);
    }
    var copied := files.CopyFile(path, Workspace);
    if !copied {
      return Failure(CopyFailed);
    }
    if request.retainNever {
      files.Remove(path);
    }
    return Success(Some(Artifact(algo, expected, |bytes.value|, true)));
  }

  /** writeVerifiedSource: the body is hashed while it is written, and a wrong file is removed again. */
  method WriteVerifiedSource(files: Files, body: seq<octet>, hash: Hash, algo: Algo, expected: Bytes)
    returns (r: Result<Artifact, FetchError>)
    modifies files
    ensures SameExcept(old(files.content), files.content, {Workspace})
    ensures r.Success? ==>
      Verifies(files.content, Workspace, hash, algo, expected) && files.content[Workspace] == body
      && r.value == Artifact(algo, expected, |body|, false)
    ensures r.Success? ==> hash(algo, body) == expected
    ensures r == Failure(Mismatch) ==> Workspace !in files.content || files.removeFailed
    ensures hash(algo, body) != expected ==> r.Failure?
    ensures !files.faulted ==> (r.Success? <==> hash(algo, body) == expected)
    ensures (old(files.removeFailed) ==> files.removeFailed) && (old(files.faulted) ==> files.faulted)
  {
    var wrote := files.Write(Workspace, body);
    if !wrote {
      return Failure(DownloadFailed);
    }
    if hash(algo, body) != expected {
      files.Remove(Workspace);
      return Failure(Mismatch);
    }
    return Success(Artifact(algo, expected, |body|, false));
  }

  predicate Fetchable(sourceType: Bytes) {
    ToLower(sourceType) == "cloud-image" || ToLower(sourceType) == "iso"
  }

  /** When a fetch with a file system that works succeeds: a servable entry, or a download with the right hash. */
  predicate FetchSucceeds(content: map<FilePath, seq<octet>>, hash: Hash, request: Request,
                          download: Option<seq<octet>>) {
    var checksum := ParseChecksum(request.checksum);
    && Fetchable(request.sourceType) && request.urlAllowed && checksum.Some?
    && ((request.useCache && Servable(content, hash, checksum.value.0, checksum.value.1, request))
        || (download.Some? && hash(checksum.value.0, download.value) == checksum.value.1))
  }

  /**
   HTTPFetcher.fetch, from any cache and any workspace. `download` is the body the source sends, None when
   the request fails.
   */
  method Fetch(files: Files, hash: Hash, request: Request, download: Option<seq<octet>>)
    returns (r: Result<Artifact, FetchError>)
    modifies files
    ensures r.Success? ==> ParseChecksum(request.checksum) == Some((r.value.algo, r.value.digest))
    ensures r.Success? ==> Verifies(files.content, Workspace, hash, r.value.algo, r.value.digest)
    ensures r.Success? ==> r.value.size == |files.content[Workspace]|
    ensures r.Success? && !r.value.cacheHit ==> download == Some(files.content[Workspace])
    ensures r.Success? && r.value.cacheHit ==>
      request.useCache && !(request.hasTTL && request.aged) && var own := Cached(r.value.algo, r.value.digest);
      own in old(files.content) && old(files.content)[own] == files.content[Workspace]
    ensures r.Success? && request.useCache && !request.retainNever ==>
      var own := Cached(r.value.algo, r.value.digest);
      own in files.content && files.content[own] == files.content[Workspace]
    ensures r.Success? && r.value.cacheHit && request.retainNever ==>
      Cached(r.value.algo, r.value.digest) !in files.content || files.removeFailed || old(files.removeFailed)
    ensures r == Failure(Mismatch) ==> Workspace !in files.content || files.removeFailed
    ensures !files.faulted ==>
      (r.Success? <==> FetchSucceeds(old(files.content), hash, request, download))
    ensures !files.faulted && r.Success? ==>
      r.value.cacheHit
        == (request.useCache && Servable(old(files.content), hash, r.value.algo, r.value.digest, request))
    ensures ParseChecksum(request.checksum).None? ==> r.Failure? && files.content == old(files.content)
    ensures ParseChecksum(request.checksum).Some? ==>
      var (algo, digest) := ParseChecksum(request.checksum).value;
      SameExcept(old(files.content), files.content, {Workspace, Cached(algo, digest)})
      && (request.retainNever || !request.useCache || r == Failure(Mismatch) ==>
            GoneOrKept(old(files.content), files.content, Cached(algo, digest)))
  {
    if !Fetchable(request.sourceType) {
      return Failure(NotFetchable);
    }
    if !request.urlAllowed {
      return Failure(Rejected);
    }
    var parsed := ParseChecksum(request.checksum);
    if parsed.None? {
      return Failure(BadChecksum);
    }
    var (algo, expected) := parsed.value;
    if request.useCache {
      var hit := CopyValidCache(files, hash, algo, expected, request);
      if hit.Failure? {
        return Failure(hit.error);
      }
      if hit.value.Some? {
        return Success(hit.value.value);
      }
    }
    if download.None? {
      return Failure(DownloadFailed);
    }
    r := WriteVerifiedSource(files, download.value, hash, algo, expected);
    if r.Failure? {
      return r;
    }
    if request.useCache && !request.retainNever {
      var stored := files.CopyFile(Workspace, Cached(algo, expected));
      if !stored {
        return Failure(CopyFailed);
      }
    }
    return r;
  }

  /**
   A fetch through any cache and a plain download of the same checksum: when both succeed their files have
   the same hash, so they are the same file unless the hash collides.
   */
  method CachedAgreesWithPlain(cached: Files, plain: Files, hash: Hash, request: Request,
                               first: Option<seq<octet>>, second: Option<seq<octet>>)
    returns (bothSucceeded: bool)
    requires cached != plain
    modifies cached, plain
    ensures bothSucceeded ==> Workspace in cached.content && Workspace in plain.content
    ensures bothSucceeded ==> ParseChecksum(request.checksum).Some?
    ensures bothSucceeded ==>
      var (algo, digest) := ParseChecksum(request.checksum).value;
      hash(algo, cached.content[Workspace]) == digest == hash(algo, plain.content[Workspace])
    ensures bothSucceeded && CollisionFree(hash) ==> cached.content[Workspace] == plain.content[Workspace]
  {
    var viaCache := Fetch(cached, hash, request, first);
    var direct := Fetch(plain, hash, request.(useCache := false), second);
    return viaCache.Success? && direct.Success?;
  }
}
