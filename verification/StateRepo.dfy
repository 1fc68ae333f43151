/** The Git state repository seen through GitHub's contents API (internal/gitstate/client.go):
    a map from paths to artifacts in which a PUT names the blob it means to replace. */
module StateRepo {
  import opened Options
  import opened Faults
  import opened Text
  import opened Artifacts

  /** `releases/v<version>.yaml` and `current.yaml` of one agent directory. */
  datatype Path = ReleaseFile(dir: string, version: int) | CurrentFile(dir: string)

  type Files = map<Path, Artifact>

  // ---------------------------------------------------------------- release file names

  function ReleaseFileName(version: int): string {
    "v" + FormatInt(version) + ".yaml"
  }

  /** How a listing is read back: drop ".yaml", drop "v", parse the rest. */
  function VersionInName(name: string): Option<int> {
    ParseInt(TrimPrefix(TrimSuffix(name, ".yaml"), "v"))
  }

  lemma NamesRoundTrip(version: int)
    ensures ReleaseFileName(version) == "v" + FormatInt(version) + ".yaml"
    ensures VersionInName(ReleaseFileName(version)) == Some(version)
  {
    var name, digits := ReleaseFileName(version), FormatInt(version);
    assert name[|name| - |".yaml"|..] == ".yaml" && name[..|name| - |".yaml"|] == "v" + digits;
    assert ("v" + digits)[1..] == digits;
    ParseFormatInt(version);
  }

  // ---------------------------------------------------------------- versions of one directory

  function Releases(files: Files, dir: string): set<Path> {
    set p | p in files && p.ReleaseFile? && p.dir == dir
  }

  ghost predicate IsLatest(latest: Path, releases: set<Path>) {
    && latest.ReleaseFile? && latest in releases
    && forall p :: p in releases && p.ReleaseFile? ==> p.version <= latest.version
  }

  lemma {:induction false} HasLatest(releases: set<Path>)
    requires releases != {} && forall p :: p in releases ==> p.ReleaseFile?
    ensures exists latest :: IsLatest(latest, releases)
  {
    var p :| p in releases;
    if releases == {p} {
      assert IsLatest(p, releases);
    } else {
      HasLatest(releases - {p});
      var q :| IsLatest(q, releases - {p});
      assert IsLatest(if p.version > q.version then p else q, releases);
    }
  }

  /** The highest release number of a directory, 0 when there is none. */
  ghost function Highest(files: Files, dir: string): (highest: nat)
    ensures highest == 0 || ReleaseFile(dir, highest) in files
    ensures forall v :: ReleaseFile(dir, v) in files ==> v <= highest
  {
    var releases := Releases(files, dir);
    if releases == {} then
      assert forall v :: ReleaseFile(dir, v) in files ==> ReleaseFile(dir, v) in releases;
      0
    else
      HasLatest(releases);
      var latest :| IsLatest(latest, releases);
      assert forall v :: ReleaseFile(dir, v) in files ==> ReleaseFile(dir, v) in releases;
      if latest.version > 0 then latest.version else 0
  }

  // ---------------------------------------------------------------- the client

  /** The name the host gives a blob: a function of its content. */
  type BlobSha = Artifact -> string

  /** A PUT carries the SHA of the blob it replaces, or none to create a file; the
      server refuses it when the file is no longer what the caller saw. */
  function Accepts(files: Files, path: Path, sha: Option<string>, blobSha: BlobSha): bool {
    sha == if path in files then Some(blobSha(files[path])) else None
  }

  /** The effect of an uncontended write. */
  function Written(files: Files, path: Path, content: Artifact, fate: Fate): Files {
    if fate == Refused then files else files[path := content]
  }

  class GitClient {
    var files: Files
    const blobSha: BlobSha

    constructor (blobSha: BlobSha)
      ensures files == map[] && this.blobSha == blobSha
    {
      files := map[];
      this.blobSha := blobSha;
    }

    method ReadFile(path: Path, up: bool) returns (content: Option<Artifact>)
      ensures content == if up && path in files then Some(files[path]) else None
    {
      content := if up && path in files then Some(files[path]) else None;
    }

    /** The names in `dir/releases`, in whatever order the server lists them. */
    method ListFiles(dir: string) returns (names: seq<string>)
      ensures forall name :: name in names <==> exists v :: ReleaseFile(dir, v) in files && name == ReleaseFileName(v)
    {
      names := [];
      var pending := set p | p in files && p.ReleaseFile? && p.dir == dir;
      ghost var all := pending;
      while pending != {}
        invariant pending <= all
        invariant forall name :: name in names <==> exists p :: p in all - pending && name == ReleaseFileName(p.version)
        decreases |pending|
      {
        var p :| p in pending;
        names := names + [ReleaseFileName(p.version)];
        pending := pending - {p};
      }
      forall name ensures name in names <==> exists v :: ReleaseFile(dir, v) in files && name == ReleaseFileName(v) {
        if v :| ReleaseFile(dir, v) in files && name == ReleaseFileName(v) {
          assert ReleaseFile(dir, v) in all;
        }
      }
    }

    method GetFileSha(path: Path) returns (sha: Option<string>)
      ensures Accepts(files, path, sha, blobSha)
    {
      sha := if path in files then Some(blobSha(files[path])) else None;
    }

    method Put(path: Path, content: Artifact, sha: Option<string>, fate: Fate) returns (ok: bool)
      modifies this
      ensures files == if Accepts(old(files), path, sha, blobSha) then Written(old(files), path, content, fate)
                else old(files)
      ensures ok == (Accepts(old(files), path, sha, blobSha) && fate == Acknowledged)
      ensures path in old(files) && sha != Some(blobSha(old(files)[path])) ==> !ok && files == old(files)
      ensures path !in old(files) && sha.Some? ==> !ok && files == old(files)
    {
      ok := sha == (if path in files then Some(blobSha(files[path])) else None) && fate == Acknowledged;
      if sha == (if path in files then Some(blobSha(files[path])) else None) && fate != Refused {
        files := files[path := content];
      }
    }

    /** Look the blob up, then replace it. With no other writer in between it never conflicts. */
    method WriteFile(path: Path, content: Artifact, fate: Fate) returns (ok: bool)
      modifies this
      ensures files == Written(old(files), path, content, fate)
      ensures ok == (fate == Acknowledged)
    {
      var sha := GetFileSha(path);
      ok := Put(path, content, sha, fate);
    }
  }
}
