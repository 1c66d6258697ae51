/** The content-addressed download cache of storage/download.go. The disk is a map from
    path to bytes under a storage root; the network fetch and the temporary file name
    are given per attempt, and the SHA-256 hex digest (FIPS 180-4) is an oracle. */
module Storage {
  import opened Base

  type Byte = bv8

  function TmpPath(root: string): string {
    Join(root, "tmp")
  }

  function CachePath(root: string): string {
    Join(root, "cache")
  }

  /** Where the file with content hash `hash` is cached. */
  function CacheFile(root: string, hash: string): string {
    Join(CachePath(root), hash)
  }

  /** A path inside the temporary directory. */
  predicate InTmp(root: string, path: string) {
    HasPrefix(path, TmpPath(root) + "/")
  }

  /** The two directories are distinct children of the root, and no temporary file is
      ever a cache entry. */
  lemma PathsDisjoint(root: string, t: string, hash: string)
    requires InTmp(root, t)
    ensures TmpPath(root) != CachePath(root)
    ensures t != CacheFile(root, hash)
  {
    assert TmpPath(root)[|root| + 1] == 't';
    assert CachePath(root)[|root| + 1] == 'c';
    assert t[|root| + 1] == (TmpPath(root) + "/")[|root| + 1];
    assert CacheFile(root, hash)[|root| + 1] == 'c';
  }

  /** Each content hash has its own cache entry. */
  lemma CacheFileInjective(root: string, h1: string, h2: string)
    ensures CacheFile(root, h1) == CacheFile(root, h2) <==> h1 == h2
  {
    var p := CachePath(root) + "/";
    assert CacheFile(root, h1) == p + h1 && CacheFile(root, h2) == p + h2;
    if CacheFile(root, h1) == CacheFile(root, h2) {
      assert h1 == (p + h1)[|p|..] && h2 == (p + h2)[|p|..];
    }
  }

  /** What one download attempt meets: the temporary file it gets (or the error creating
      it), the fetched bytes (or the request, transport or copy error), and the error of
      the final rename, if any. */
  datatype Attempt = Attempt(
    tempPath: string,
    createError: Option<string>,
    fetched: Result<seq<Byte>>,
    renameError: Option<string>)

  /** The number of `DownloadFile` calls `PrepareFile` makes on a miss, given whether each
      attempt would succeed: it stops at the first success and after `budget` failures. */
  function Tries(ok: seq<bool>, budget: nat): nat
    decreases budget
  {
    if budget == 0 || |ok| == 0 then 0
    else if ok[0] then 1
    else 1 + Tries(ok[1..], budget - 1)
  }

  /** At least one and at most `budget` attempts; all attempts before the last failed;
      the last one is the first success unless the budget ran out. */
  lemma {:induction false} TriesBounds(ok: seq<bool>, budget: nat)
    requires |ok| >= budget > 0
    ensures 1 <= Tries(ok, budget) <= budget
    ensures forall j :: 0 <= j < Tries(ok, budget) - 1 ==> !ok[j]
    ensures Tries(ok, budget) < budget ==> ok[Tries(ok, budget) - 1]
    decreases budget
  {
    if !ok[0] && budget > 1 {
      TriesBounds(ok[1..], budget - 1);
    }
  }

  /** The disk under one storage root. */
  class Store {
    const root: string
    /** The lower-case hex SHA-256 digest of a byte string. */
    const digest: seq<Byte> -> string
    var files: map<string, seq<Byte>>

    /** Every cache entry holds bytes whose digest is its name. */
    ghost predicate CacheSound()
      reads this
    {
      forall h :: CacheFile(root, h) in files ==> digest(files[CacheFile(root, h)]) == h
    }

    constructor (root: string, digest: seq<Byte> -> string, files: map<string, seq<Byte>>)
      ensures this.root == root && this.digest == digest && this.files == files
    {
      this.root, this.digest, this.files := root, digest, files;
    }

    /** Whether an attempt would download the right bytes into the cache. */
    predicate Succeeds(a: Attempt, hash: string) {
      a.createError.None? && a.fetched.Ok? && digest(a.fetched.value) == hash && a.renameError.None?
    }

    /** Download into a fresh temporary file, check the digest, and move the file into
        the cache only when it matches. The temporary file never survives the call. */
    method DownloadFile(hash: string, a: Attempt) returns (err: Option<string>)
      requires InTmp(root, a.tempPath) && a.tempPath !in files
      modifies this
      ensures err.None? <==> Succeeds(a, hash)
      ensures a.createError.None? && a.fetched.Ok? && digest(a.fetched.value) != hash
              ==> err == Some("file hash mismatch")
      ensures err.None? ==> files == old(files)[CacheFile(root, hash) := a.fetched.value]
      ensures err.Some? ==> files == old(files)
      ensures old(CacheSound()) ==> CacheSound()
    {
      PathsDisjoint(root, a.tempPath, hash);
      if a.createError.Some? {
        return a.createError;
      }
      var before := files;
      files := files[a.tempPath := []];
      if a.fetched.Err? {
        files := files - {a.tempPath};
        assert files == before;
        return Some(a.fetched.error);
      }
      files := files[a.tempPath := a.fetched.value];
      var fileHash := digest(files[a.tempPath]);
      if fileHash != hash {
        files := files - {a.tempPath};
        assert files == before;
        return Some("file hash mismatch");
      }
      if a.renameError.Some? {
        files := files - {a.tempPath};
        assert files == before;
        return a.renameError;
      }
      var content := files[a.tempPath];
      files := (files - {a.tempPath})[CacheFile(root, hash) := content];
      assert files == before[CacheFile(root, hash) := a.fetched.value];
      forall h | CacheFile(root, h) in files && old(CacheSound())
        ensures digest(files[CacheFile(root, h)]) == h
      {
        CacheFileInjective(root, h, hash);
      }
      err := None;
    }

    /** The success of each attempt, in order. */
    function Outcomes(attempts: seq<Attempt>, hash: string): (ok: seq<bool>)
      ensures |ok| == |attempts|
      ensures forall i :: 0 <= i < |attempts| ==> ok[i] == Succeeds(attempts[i], hash)
    {
      seq(|attempts|, i requires 0 <= i < |attempts| => Succeeds(attempts[i], hash))
    }

    /** Make sure the file with content hash `hash` is cached. A file already at its cache
        path, or a stat error other than "does not exist", means no download at all;
        otherwise up to three attempts, stopping at the first success. The cache path is
        returned, without an error, in every case. */
    method PrepareFile(hash: string, statOtherError: bool, attempts: seq<Attempt>)
      returns (path: string, err: Option<string>, tries: nat)
      requires |attempts| >= 3
      requires forall i :: 0 <= i < |attempts| ==> InTmp(root, attempts[i].tempPath) && attempts[i].tempPath !in files
      modifies this
      ensures path == CacheFile(root, hash) && err.None?
      ensures old(CacheFile(root, hash) in files) || statOtherError ==> tries == 0 && files == old(files)
      ensures !old(CacheFile(root, hash) in files) && !statOtherError ==>
        tries == Tries(Outcomes(attempts, hash), 3)
        && (if Succeeds(attempts[tries - 1], hash)
            then files == old(files)[CacheFile(root, hash) := attempts[tries - 1].fetched.value]
            else files == old(files))
      ensures old(CacheSound()) ==> CacheSound()
    {
      path := CacheFile(root, hash);
      err := None;
      tries := 0;
      if path in files || statOtherError {
        return;
      }
      ghost var ok := Outcomes(attempts, hash);
      TriesBounds(ok, 3);
      var retry := 3;
      while retry > 0
        invariant 0 <= retry <= 3 && tries == 3 - retry
        invariant forall j :: 0 <= j < tries ==> !ok[j]
        invariant files == old(files)
        decreases retry
      {
        var e := DownloadFile(hash, attempts[tries]);
        tries := tries + 1;
        if e.Some? {
          retry := retry - 1;
          continue;
        }
        break;
      }
    }
  }
}
