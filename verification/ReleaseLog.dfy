/** The release log of one state repository, one request at a time: create, evaluation
    result, deploy and tombstone (internal/release/handler.go), with every read and
    write allowed to fail and every answer allowed to be lost.

    `ReleaseHandler` performs the requests on a `GitClient`; `Next` is what each one
    does to the log, and the lemmas are about every sequence of requests. */
module ReleaseLog {
  import opened Options
  import opened Faults
  import opened Artifacts
  import opened StateRepo
  import opened Json

  // ---------------------------------------------------------------- requests

  /** How the repository treats the calls of one approval or rejection. */
  datatype Net = Net(read: bool, release: Fate, current: Fate)

  datatype Request =
    | Create(dir: string, built: Artifact, listed: bool, store: Fate, net: Net)
    | EvalResult(dir: string, version: int, passed: bool, verdict: string, net: Net)
    | Deploy(dir: string, version: int, read: bool, write: Fate)
    | AgentDeleted(dir: string, read: bool, write: Fate)

  /** The files, and what has happened so far: each release as first committed, which stored
      releases a verdict has passed, and which were deployed on request. */
  datatype Log = Log(files: Files, born: Files, passed: set<Path>, deployed: set<Path>)

  const EMPTY_LOG := Log(map[], map[], {}, {})

  // ---------------------------------------------------------------- what each request does

  function Numbered(built: Artifact, version: int, digest: Digest): Artifact {
    var numbered := built.(metadata := built.metadata.(version := version, previous := version - 1));
    numbered.(metadata := numbered.metadata.(checksum := Checksum(numbered, digest)))
  }

  function WithStatus(a: Artifact, status: Status): Artifact {
    a.(metadata := a.metadata.(status := status))
  }

  function Approved(files: Files, dir: string, version: int, net: Net): Files {
    var path := ReleaseFile(dir, version);
    if !net.read || path !in files then files
    else
      var active := WithStatus(files[path], Active);
      Written(Written(files, path, active, net.release), CurrentFile(dir), active, net.current)
  }

  function RejectedChangelog(changelog: string, verdict: string): string {
    changelog + " [REJECTED: " + verdict + "]"
  }

  function Turned(files: Files, dir: string, version: int, verdict: string, net: Net): Files {
    var path := ReleaseFile(dir, version);
    if !net.read || path !in files then files
    else
      var a := files[path];
      var rejected := a.(metadata := a.metadata.(status := Rejected,
                                                 changelog := RejectedChangelog(a.metadata.changelog, verdict)));
      Written(files, path, rejected, net.release)
  }

  function Deployed(files: Files, dir: string, version: int, read: bool, write: Fate): Files {
    var path := ReleaseFile(dir, version);
    if !read || path !in files then files else Written(files, CurrentFile(dir), files[path], write)
  }

  function Tombstoned(files: Files, dir: string, read: bool, write: Fate): Files {
    var path := CurrentFile(dir);
    if !read || path !in files then files
    else
      var a := files[path];
      var changelog := "[DELETED] " + a.metadata.changelog;
      Written(files, path, a.(metadata := a.metadata.(status := Deleted, changelog := changelog)), write)
  }

  /** The number a new release gets: a failed listing counts as an empty directory. */
  ghost function NextVersion(files: Files, dir: string, listed: bool): int {
    (if listed then Highest(files, dir) else 0) + 1
  }

  function RequiresEval(a: Artifact): bool { a.governance.minQualityScore > 0 }

  ghost function Stored(files: Files, r: Request, digest: Digest): Files
    requires r.Create?
  {
    var version := NextVersion(files, r.dir, r.listed);
    Written(files, ReleaseFile(r.dir, version), Numbered(r.built, version, digest), r.store)
  }

  ghost function Created(files: Files, r: Request, digest: Digest): Files
    requires r.Create?
  {
    if r.store != Acknowledged || RequiresEval(r.built) then Stored(files, r, digest)
    else Approved(Stored(files, r, digest), r.dir, NextVersion(files, r.dir, r.listed), r.net)
  }

  ghost function FilesAfter(files: Files, r: Request, digest: Digest): Files {
    match r
    case Create(_, _, _, _, _) => Created(files, r, digest)
    case EvalResult(dir, version, passed, verdict, net) =>
      if passed then Approved(files, dir, version, net) else Turned(files, dir, version, verdict, net)
    case Deploy(dir, version, read, write) => Deployed(files, dir, version, read, write)
    case AgentDeleted(dir, read, write) => Tombstoned(files, dir, read, write)
  }

  lemma CreationIsCommitThenApprove(files: Files, dir: string, built: Artifact, listed: bool, store: Fate, net: Net,
                                    digest: Digest)
    ensures var version := NextVersion(files, dir, listed);
            var path := ReleaseFile(dir, version);
            var committed := Written(files, path, Numbered(built, version, digest), store);
            && FilesAfter(files, Create(dir, built, listed, store, net), digest) ==
                 (if store == Acknowledged && !RequiresEval(built) then Approved(committed, dir, version, net)
                  else committed)
            && (store == Acknowledged ==> path in committed)
  {
  }

  ghost function Next(log: Log, r: Request, digest: Digest): Log {
    var files := FilesAfter(log.files, r, digest);
    match r
    case Create(dir, built, listed, store, net) =>
      var version := NextVersion(log.files, dir, listed);
      var path := ReleaseFile(dir, version);
      if path in files && path !in log.born then
        log.(files := files, born := log.born[path := Numbered(built, version, digest)])
      else log.(files := files)
    case EvalResult(dir, version, passed, verdict, net) =>
      var path := ReleaseFile(dir, version);
      var counts := passed && net.read && path in log.files;
      log.(files := files, passed := if counts then log.passed + {path} else log.passed)
    case Deploy(dir, version, read, write) =>
      var path := ReleaseFile(dir, version);
      var counts := read && path in log.files && write != Refused;
      log.(files := files, deployed := if counts then log.deployed + {path} else log.deployed)
    case AgentDeleted(dir, read, write) => log.(files := files)
  }

  ghost function After(requests: seq<Request>, digest: Digest): Log {
    if requests == [] then EMPTY_LOG
    else Next(After(requests[..|requests| - 1], digest), requests[|requests| - 1], digest)
  }

  /** The largest number among the names, 0 when there is none. */
  ghost predicate IsLargest(names: seq<string>, best: int) {
    && best >= 0
    && (best == 0 || exists name :: name in names && VersionInName(name) == Some(best))
    && (forall name :: name in names ==> VersionInName(name).Or(0) <= best)
  }

  lemma LargestIsHighest(files: Files, dir: string, names: seq<string>, best: int)
    requires forall name :: name in names <==> exists v :: ReleaseFile(dir, v) in files && name == ReleaseFileName(v)
    requires IsLargest(names, best)
    ensures best == Highest(files, dir)
  {
    var top := Highest(files, dir);
    if top > 0 {
      NamesRoundTrip(top);
      assert ReleaseFileName(top) in names;
    }
    if best > 0 {
      var name :| name in names && VersionInName(name) == Some(best);
      var v :| ReleaseFile(dir, v) in files && name == ReleaseFileName(v);
      NamesRoundTrip(v);
    }
  }

  // ---------------------------------------------------------------- the handler

  class ReleaseHandler {
    const git: GitClient
    const digest: Digest
    ghost var log: Log

    constructor (git: GitClient, digest: Digest)
      requires git.files == map[]
      ensures this.git == git && this.digest == digest && log == EMPTY_LOG
    {
      this.git := git;
      this.digest := digest;
      log := EMPTY_LOG;
    }

    ghost predicate Valid()
      reads this, git
    {
      log.files == git.files
    }

    method HighestVersion(dir: string, listed: bool) returns (highest: Option<int>)
      ensures highest == if listed then Some(Highest(git.files, dir)) else None
    {
      if !listed { return None; }
      var names := git.ListFiles(dir);
      var best := LargestVersion(names);
      LargestIsHighest(git.files, dir, names, best);
      highest := Some(best);
    }

    method LargestVersion(names: seq<string>) returns (best: int)
      ensures IsLargest(names, best)
    {
      best := 0;
      for i := 0 to |names|
        invariant best >= 0 && (best == 0 || exists name :: name in names && VersionInName(name) == Some(best))
        invariant forall j :: 0 <= j < i ==> VersionInName(names[j]).Or(0) <= best
      {
        var version := VersionInName(names[i]);
        if version.Some? && version.value > best {
          assert names[i] in names;
          best := version.value;
        }
      }
    }

    /** Numbers the release after the highest one listed, seals it with its checksum and commits it. */
    method CommitRelease(built: Artifact, dir: string, listed: bool, store: Fate) returns (version: int, ok: bool)
      modifies git
      ensures version == NextVersion(old(git.files), dir, listed) && ok == (store == Acknowledged)
      ensures git.files == Written(old(git.files), ReleaseFile(dir, version), Numbered(built, version, digest),
                                   store)
    {
      var highest := HighestVersion(dir, listed);
      version := highest.Or(0) + 1;
      var artifact := built.(metadata := built.metadata.(version := version, previous := version - 1));
      artifact := artifact.(metadata := artifact.metadata.(checksum := Checksum(artifact, digest)));
      ok := git.WriteFile(ReleaseFile(dir, version), artifact, store);
    }

    /** The end of createReleaseForAgent: `ag` is the agent with the settings in force. */
    method Release(slug: string, changelog: string, ag: Agent, now: string, render: Json -> string,
                   listed: bool, store: Fate, net: Net)
        returns (version: Option<int>)
      requires Valid()
      modifies this, git
      ensures Valid()
      ensures var built := BuildArtifact(slug, 0, changelog, ag, now, render);
              var dir := AgentDir(built.deployment.namespace, slug);
              && log == Next(old(log), Create(dir, built, listed, store, net), digest)
              && version == if store == Acknowledged && (RequiresEval(built) || net.read)
                            then Some(NextVersion(old(git.files), dir, listed)) else None
    {
      var artifact := BuildArtifact(slug, 0, changelog, ag, now, render);
      var dir := AgentDir(artifact.deployment.namespace, slug);
      CreationIsCommitThenApprove(git.files, dir, artifact, listed, store, net, digest);
      var nextVersion, ok := CommitRelease(artifact, dir, listed, store);
      version := None;
      if ok {
        version := Some(nextVersion);
        if !(artifact.governance.minQualityScore > 0) {
          var approved := ApproveRelease(dir, nextVersion, net);
          if !approved { version := None; }
        }
      }
      log := Next(log, Create(dir, artifact, listed, store, net), digest);
    }

    method ApproveRelease(dir: string, version: int, net: Net) returns (ok: bool)
      modifies git
      ensures git.files == Approved(old(git.files), dir, version, net)
      ensures ok == (net.read && ReleaseFile(dir, version) in old(git.files))
    {
      var content := git.ReadFile(ReleaseFile(dir, version), net.read);
      if content.None? { return false; }
      var artifact := WithStatus(content.value, Active);
      var _ := git.WriteFile(ReleaseFile(dir, version), artifact, net.release);
      var _ := git.WriteFile(CurrentFile(dir), artifact, net.current);
      ok := true;
    }

    method RejectRelease(dir: string, version: int, reason: string, net: Net) returns (ok: bool)
      modifies git
      ensures git.files == Turned(old(git.files), dir, version, reason, net)
      ensures ok == (net.read && ReleaseFile(dir, version) in old(git.files))
    {
      var content := git.ReadFile(ReleaseFile(dir, version), net.read);
      if content.None? { return false; }
      var metadata := content.value.metadata.(status := Rejected);
      metadata := metadata.(changelog := metadata.changelog + " [REJECTED: " + reason + "]");
      var _ := git.WriteFile(ReleaseFile(dir, version), content.value.(metadata := metadata), net.release);
      ok := true;
    }

    method HandleEvalResult(dir: string, version: int, passed: bool, verdict: string, net: Net)
        returns (ok: bool)
      requires Valid()
      modifies this, git
      ensures Valid() && log == Next(old(log), EvalResult(dir, version, passed, verdict, net), digest)
      ensures ok == (net.read && ReleaseFile(dir, version) in old(git.files))
    {
      if passed {
        ok := ApproveRelease(dir, version, net);
      } else {
        ok := RejectRelease(dir, version, verdict, net);
      }
      log := Next(log, EvalResult(dir, version, passed, verdict, net), digest);
    }

    /** The release that goes on to the cluster, unless current.yaml could not be written. */
    method HandleDeploy(dir: string, version: int, read: bool, write: Fate)
        returns (released: Option<Artifact>)
      requires Valid()
      modifies this, git
      ensures Valid() && log == Next(old(log), Deploy(dir, version, read, write), digest)
      ensures released == if read && ReleaseFile(dir, version) in old(git.files) && write == Acknowledged
                          then Some(old(git.files)[ReleaseFile(dir, version)]) else None
      ensures released.Some? ==> CurrentFile(dir) in git.files && git.files[CurrentFile(dir)] == released.value
    {
      released := git.ReadFile(ReleaseFile(dir, version), read);
      if released.Some? {
        var ok := git.WriteFile(CurrentFile(dir), released.value, write);
        if !ok { released := None; }
      }
      log := Next(log, Deploy(dir, version, read, write), digest);
    }

    method OnAgentDeleted(dir: string, read: bool, write: Fate)
      requires Valid()
      modifies this, git
      ensures Valid() && log == Next(old(log), AgentDeleted(dir, read, write), digest)
    {
      var content := git.ReadFile(CurrentFile(dir), read);
      if content.Some? {
        var metadata := content.value.metadata.(status := Deleted,
                                                changelog := "[DELETED] " + content.value.metadata.changelog);
        var _ := git.WriteFile(CurrentFile(dir), content.value.(metadata := metadata), write);
      }
      log := Next(log, AgentDeleted(dir, read, write), digest);
    }
  }

  // ---------------------------------------------------------------- the invariant

  /** A release file: numbered like its name, next to its predecessor, and still carrying
      the payload it was first committed with, under the checksum of that first commit. */
  ghost predicate ReleaseIsSound(log: Log, dir: string, n: int, digest: Digest) {
    var path := ReleaseFile(dir, n);
    && path in log.files && path in log.born
    && n >= 1 && (n > 1 ==> ReleaseFile(dir, n - 1) in log.files)
    && SamePayload(log.files[path], log.born[path])
    && log.born[path].metadata.version == n && log.born[path].metadata.previous == n - 1
    && log.born[path].metadata.status == PendingEval
    && log.born[path].metadata.checksum == Checksum(log.born[path], digest)
    && (RequiresEval(log.files[path]) && log.files[path].metadata.status == Active ==> path in log.passed)
  }

  /** The current file: a copy, up to status and changelog, of a release that exists and that may be current. */
  ghost predicate CurrentIsSound(log: Log, dir: string)
    requires CurrentFile(dir) in log.files
  {
    var current := log.files[CurrentFile(dir)];
    var path := ReleaseFile(dir, current.metadata.version);
    && path in log.files && SamePayload(current, log.files[path])
    && (RequiresEval(current) ==> path in log.passed + log.deployed)
  }

  ghost predicate Sound(log: Log, digest: Digest) {
    && (forall dir, n :: ReleaseFile(dir, n) in log.files ==> ReleaseIsSound(log, dir, n, digest))
    && (forall dir :: CurrentFile(dir) in log.files ==> CurrentIsSound(log, dir))
    && (forall p :: p in log.born ==> p.ReleaseFile? && p in log.files)
  }

  /** BuildArtifact leaves every new artifact waiting for evaluation. */
  ghost predicate FromBuild(r: Request) {
    r.Create? ==> r.built.metadata.status == PendingEval
  }

  /** `content` may be written at `path`: numbered like the file and next to an existing
      predecessor, or a copy of an existing release for current.yaml. */
  ghost predicate Fits(files: Files, path: Path, content: Artifact) {
    match path
    case ReleaseFile(dir, v) =>
      && v >= 1 && content.metadata.version == v && content.metadata.previous == v - 1
      && (v > 1 ==> ReleaseFile(dir, v - 1) in files)
    case CurrentFile(dir) => ReleaseFile(dir, content.metadata.version) in files
  }

  /** A release as first committed: numbered like its file, next to its predecessor, sealed and waiting. */
  ghost predicate IsBirth(files: Files, path: Path, content: Artifact, digest: Digest) {
    && path.ReleaseFile? && Fits(files, path, content)
    && content.metadata.status == PendingEval && content.metadata.checksum == Checksum(content, digest)
  }

  /** A rewrite of a stored release keeps its payload and respects the gate; so does a copy for current.yaml. */
  ghost predicate IsRewrite(log: Log, path: Path, content: Artifact) {
    match path
    case ReleaseFile(_, _) =>
      && path in log.files && SamePayload(content, log.files[path])
      && (RequiresEval(content) && content.metadata.status == Active ==> path in log.passed)
    case CurrentFile(dir) =>
      var source := ReleaseFile(dir, content.metadata.version);
      && source in log.files && SamePayload(content, log.files[source])
      && (RequiresEval(content) ==> source in log.passed + log.deployed)
  }

  ghost function WithWrite(log: Log, path: Path, content: Artifact): Log {
    log.(files := log.files[path := content],
         born := if path.ReleaseFile? && path !in log.files then log.born[path := content] else log.born)
  }

  lemma OtherReleaseStays(log: Log, path: Path, content: Artifact, digest: Digest, d: string, n: int)
    requires ReleaseIsSound(log, d, n, digest) && ReleaseFile(d, n) != path
    ensures ReleaseIsSound(WithWrite(log, path, content), d, n, digest)
  {
  }

  lemma NewReleaseIsSound(log: Log, path: Path, content: Artifact, digest: Digest)
    requires IsBirth(log.files, path, content, digest) && path !in log.files
    ensures ReleaseIsSound(WithWrite(log, path, content), path.dir, path.version, digest)
  {
  }

  lemma RewrittenReleaseIsSound(log: Log, path: Path, content: Artifact, digest: Digest)
    requires path.ReleaseFile? && ReleaseIsSound(log, path.dir, path.version, digest) && IsRewrite(log, path, content)
    ensures ReleaseIsSound(WithWrite(log, path, content), path.dir, path.version, digest)
  {
  }

  lemma OtherCurrentStays(log: Log, path: Path, content: Artifact, d: string)
    requires CurrentFile(d) in log.files && CurrentIsSound(log, d) && CurrentFile(d) != path
    requires path.ReleaseFile? && path in log.files ==> SamePayload(content, log.files[path])
    ensures CurrentIsSound(WithWrite(log, path, content), d)
  {
  }

  lemma NewCurrentIsSound(log: Log, path: Path, content: Artifact)
    requires path.CurrentFile? && IsRewrite(log, path, content)
    ensures CurrentIsSound(WithWrite(log, path, content), path.dir)
  {
  }

  lemma BirthKeepsSound(log: Log, path: Path, content: Artifact, digest: Digest)
    requires Sound(log, digest) && IsBirth(log.files, path, content, digest) && path !in log.files
    ensures Sound(WithWrite(log, path, content), digest)
  {
    var log' := WithWrite(log, path, content);
    forall d, n | ReleaseFile(d, n) in log'.files ensures ReleaseIsSound(log', d, n, digest) {
      if ReleaseFile(d, n) == path {
        NewReleaseIsSound(log, path, content, digest);
      } else {
        OtherReleaseStays(log, path, content, digest, d, n);
      }
    }
    forall d | CurrentFile(d) in log'.files ensures CurrentIsSound(log', d) {
      OtherCurrentStays(log, path, content, d);
    }
  }

  lemma RewriteKeepsSound(log: Log, path: Path, content: Artifact, digest: Digest)
    requires Sound(log, digest) && IsRewrite(log, path, content)
    ensures Sound(WithWrite(log, path, content), digest)
  {
    var log' := WithWrite(log, path, content);
    forall d, n | ReleaseFile(d, n) in log'.files ensures ReleaseIsSound(log', d, n, digest) {
      if ReleaseFile(d, n) == path {
        RewrittenReleaseIsSound(log, path, content, digest);
      } else {
        OtherReleaseStays(log, path, content, digest, d, n);
      }
    }
    forall d | CurrentFile(d) in log'.files ensures CurrentIsSound(log', d) {
      if CurrentFile(d) == path {
        NewCurrentIsSound(log, path, content);
      } else {
        OtherCurrentStays(log, path, content, d);
      }
    }
  }

  /** Committing a new release over an existing file is sound exactly when it says the same. */
  lemma BirthOverExistingIsSoundExactlyWhen(log: Log, path: Path, content: Artifact, digest: Digest)
    requires Sound(log, digest) && IsBirth(log.files, path, content, digest) && path in log.files
    ensures Sound(WithWrite(log, path, content), digest) <==> SamePayload(content, log.files[path])
  {
    assert ReleaseIsSound(log, path.dir, path.version, digest);
    if SamePayload(content, log.files[path]) {
      RewriteKeepsSound(log, path, content, digest);
    } else {
      assert !ReleaseIsSound(WithWrite(log, path, content), path.dir, path.version, digest);
    }
  }

  lemma WrittenKeepsSound(log: Log, path: Path, content: Artifact, fate: Fate, digest: Digest)
    requires Sound(log, digest) && IsRewrite(log, path, content)
    ensures Sound(log.(files := Written(log.files, path, content, fate)), digest)
  {
    RewriteKeepsSound(log, path, content, digest);
    assert log.(files := log.files[path := content]) == WithWrite(log, path, content);
  }

  lemma RecordsKeepSound(log: Log, log': Log, digest: Digest)
    requires Sound(log, digest) && log' == log.(passed := log'.passed, deployed := log'.deployed)
    requires log.passed <= log'.passed && log.deployed <= log'.deployed
    ensures Sound(log', digest)
  {
    forall d, n | ReleaseFile(d, n) in log'.files ensures ReleaseIsSound(log', d, n, digest) {
      assert ReleaseIsSound(log, d, n, digest);
    }
    forall d | CurrentFile(d) in log'.files ensures CurrentIsSound(log', d) { assert CurrentIsSound(log, d); }
  }

  // ---------------------------------------------------------------- one request

  lemma ApprovalKeepsSound(log: Log, log': Log, dir: string, version: int, net: Net, digest: Digest)
    requires Sound(log, digest)
    requires log' == log.(files := Approved(log.files, dir, version, net), passed := log'.passed)
               && log.passed <= log'.passed
    requires net.read && ReleaseFile(dir, version) in log.files
               && RequiresEval(log.files[ReleaseFile(dir, version)]) ==>
               ReleaseFile(dir, version) in log'.passed
    ensures Sound(log', digest)
  {
    var path, base := ReleaseFile(dir, version), log.(passed := log'.passed);
    RecordsKeepSound(log, base, digest);
    if net.read && path in log.files {
      assert ReleaseIsSound(log, dir, version, digest);
      var active := WithStatus(log.files[path], Active);
      WrittenKeepsSound(base, path, active, net.release, digest);
      WrittenKeepsSound(base.(files := Written(log.files, path, active, net.release)), CurrentFile(dir), active,
                        net.current, digest);
    }
  }

  lemma TurningKeepsSound(log: Log, dir: string, version: int, verdict: string, net: Net, digest: Digest)
    requires Sound(log, digest)
    ensures Sound(log.(files := Turned(log.files, dir, version, verdict, net)), digest)
  {
    var path := ReleaseFile(dir, version);
    if net.read && path in log.files {
      var a := log.files[path];
      var changelog := RejectedChangelog(a.metadata.changelog, verdict);
      WrittenKeepsSound(log, path, a.(metadata := a.metadata.(status := Rejected, changelog := changelog)),
                        net.release, digest);
    }
  }

  lemma DeployKeepsSound(log: Log, r: Request, digest: Digest)
    requires Sound(log, digest) && r.Deploy?
    ensures Sound(Next(log, r, digest), digest)
  {
    var path, base := ReleaseFile(r.dir, r.version), log.(deployed := Next(log, r, digest).deployed);
    RecordsKeepSound(log, base, digest);
    if r.read && path in log.files && r.write != Refused {
      assert ReleaseIsSound(log, r.dir, r.version, digest);
      WrittenKeepsSound(base, CurrentFile(r.dir), log.files[path], r.write, digest);
    }
  }

  lemma TombstoneKeepsSound(log: Log, dir: string, read: bool, write: Fate, digest: Digest)
    requires Sound(log, digest)
    ensures Sound(log.(files := Tombstoned(log.files, dir, read, write)), digest)
  {
    var path := CurrentFile(dir);
    if read && path in log.files {
      assert CurrentIsSound(log, dir);
      var a := log.files[path];
      var changelog := "[DELETED] " + a.metadata.changelog;
      WrittenKeepsSound(log, path, a.(metadata := a.metadata.(status := Deleted, changelog := changelog)), write,
                        digest);
    }
  }

  /** The log with the new file committed and not yet approved. */
  ghost function WithStored(log: Log, r: Request, digest: Digest): Log
    requires r.Create?
  {
    var path := ReleaseFile(r.dir, NextVersion(log.files, r.dir, r.listed));
    var files := Stored(log.files, r, digest);
    Log(files,
        if path in files && path !in log.born
        then log.born[path := Numbered(r.built, path.version, digest)] else log.born,
        log.passed, log.deployed)
  }

  /** A creation that does not overwrite another release: the directory was listed, or there
      was nothing to list, or nothing was stored, or what was stored says the same. */
  ghost predicate DoesNotOverwrite(log: Log, r: Request, digest: Digest)
    requires r.Create?
  {
    var first := ReleaseFile(r.dir, 1);
    || r.listed
    || r.store == Refused
    || first !in log.files
    || SamePayload(Numbered(r.built, 1, digest), log.files[first])
  }

  lemma StoringKeepsSound(log: Log, r: Request, digest: Digest)
    requires Sound(log, digest) && r.Create? && FromBuild(r) && DoesNotOverwrite(log, r, digest)
    ensures Sound(WithStored(log, r, digest), digest)
  {
    var version := NextVersion(log.files, r.dir, r.listed);
    var path, content := ReleaseFile(r.dir, version), Numbered(r.built, version, digest);
    if path in log.files { assert ReleaseIsSound(log, r.dir, version, digest); }
    if r.store == Refused {
      assert WithStored(log, r, digest) == log;
    } else {
      assert WithStored(log, r, digest) == WithWrite(log, path, content);
      if path in log.files {
        BirthOverExistingIsSoundExactlyWhen(log, path, content, digest);
      } else {
        BirthKeepsSound(log, path, content, digest);
      }
    }
  }

  lemma CreationIsStoreThenApprove(log: Log, r: Request, digest: Digest)
    requires r.Create?
    ensures var stored := WithStored(log, r, digest);
            Next(log, r, digest) ==
              if r.store != Acknowledged || RequiresEval(r.built) then stored
              else stored.(files := Approved(stored.files, r.dir, NextVersion(log.files, r.dir, r.listed), r.net))
  {
  }

  /** Numbering a release v1 again loses the payload of the first v1. */
  lemma OverwritingIsUnsound(log: Log, r: Request, digest: Digest)
    requires Sound(log, digest) && r.Create? && !DoesNotOverwrite(log, r, digest)
    ensures !Sound(Next(log, r, digest), digest)
  {
    assert ReleaseIsSound(log, r.dir, 1, digest);
    FirstIsReplaced(log, r, digest);
  }

  lemma FirstIsReplaced(log: Log, r: Request, digest: Digest)
    requires r.Create? && ReleaseIsSound(log, r.dir, 1, digest) && !DoesNotOverwrite(log, r, digest)
    ensures !ReleaseIsSound(Next(log, r, digest), r.dir, 1, digest)
  {
    var first := ReleaseFile(r.dir, 1);
    assert SamePayload(Next(log, r, digest).files[first], Numbered(r.built, 1, digest));
  }

  /** One creation keeps the log sound exactly when it overwrites no other release's payload.
      The only way to fail is a failed listing, which numbers the release v1 again. */
  lemma CreationIsSoundExactlyWhenNothingIsOverwritten(log: Log, r: Request, digest: Digest)
    requires Sound(log, digest) && r.Create? && FromBuild(r)
    ensures Sound(Next(log, r, digest), digest) <==> DoesNotOverwrite(log, r, digest)
  {
    if DoesNotOverwrite(log, r, digest) {
      StoringKeepsSound(log, r, digest);
      CreationIsStoreThenApprove(log, r, digest);
      if r.store == Acknowledged && !RequiresEval(r.built) {
        var version := NextVersion(log.files, r.dir, r.listed);
        ApprovalKeepsSound(WithStored(log, r, digest), Next(log, r, digest), r.dir, version, r.net, digest);
      }
    } else {
      OverwritingIsUnsound(log, r, digest);
    }
  }

  lemma RequestKeepsSound(log: Log, r: Request, digest: Digest)
    requires Sound(log, digest) && FromBuild(r) && (r.Create? ==> DoesNotOverwrite(log, r, digest))
    ensures Sound(Next(log, r, digest), digest)
  {
    match r
    case Create(_, _, _, _, _) => CreationIsSoundExactlyWhenNothingIsOverwritten(log, r, digest);
    case EvalResult(dir, version, passed, verdict, net) =>
      if passed {
        ApprovalKeepsSound(log, Next(log, r, digest), dir, version, net, digest);
      } else {
        TurningKeepsSound(log, dir, version, verdict, net, digest);
      }
    case Deploy(_, _, _, _) => DeployKeepsSound(log, r, digest);
    case AgentDeleted(dir, read, write) => TombstoneKeepsSound(log, dir, read, write, digest);
  }

  // ---------------------------------------------------------------- every sequence of requests

  /** Artifacts come from BuildArtifact, and no creation overwrites another release; anything may fail. */
  ghost predicate Careful(requests: seq<Request>, digest: Digest) {
    requests == [] ||
    (var earlier, last := requests[..|requests| - 1], requests[|requests| - 1];
     Careful(earlier, digest) && FromBuild(last)
       && (last.Create? ==> DoesNotOverwrite(After(earlier, digest), last, digest)))
  }

  lemma {:induction false} SuccessfulListingsAreCareful(requests: seq<Request>, digest: Digest)
    requires forall i :: 0 <= i < |requests| ==> FromBuild(requests[i]) && (requests[i].Create? ==> requests[i].listed)
    ensures Careful(requests, digest)
  {
    if requests != [] { SuccessfulListingsAreCareful(requests[..|requests| - 1], digest); }
  }

  /** The main invariant: after any careful sequence of requests, whatever fails. */
  lemma {:induction false} EveryLogIsSound(requests: seq<Request>, digest: Digest)
    requires Careful(requests, digest)
    ensures Sound(After(requests, digest), digest)
  {
    if requests != [] {
      EveryLogIsSound(requests[..|requests| - 1], digest);
      RequestKeepsSound(After(requests[..|requests| - 1], digest), requests[|requests| - 1], digest);
    }
  }

  /** The log is sound at every point of the run. */
  ghost predicate SoundThroughout(requests: seq<Request>, digest: Digest) {
    forall i :: 0 <= i <= |requests| ==> Sound(After(requests[..i], digest), digest)
  }

  lemma SoundOneMore(requests: seq<Request>, digest: Digest)
    requires requests != []
    ensures SoundThroughout(requests, digest) <==>
              SoundThroughout(requests[..|requests| - 1], digest) && Sound(After(requests, digest), digest)
  {
    var earlier := requests[..|requests| - 1];
    assert requests[..|requests|] == requests;
    if SoundThroughout(requests, digest) {
      forall i | 0 <= i <= |earlier| ensures Sound(After(earlier[..i], digest), digest) {
        PrefixOfEarlier(requests, i);
      }
    }
    if SoundThroughout(earlier, digest) && Sound(After(requests, digest), digest) {
      forall i | 0 <= i <= |requests| ensures Sound(After(requests[..i], digest), digest) {
        if i < |requests| { PrefixOfEarlier(requests, i); }
      }
    }
  }

  lemma PrefixOfEarlier(requests: seq<Request>, i: nat)
    requires i < |requests|
    ensures requests[..|requests| - 1][..i] == requests[..i]
  {
  }

  /** Being careful is exactly what it takes for the log to be sound all the way. */
  lemma {:induction false} SoundThroughoutExactlyWhenCareful(requests: seq<Request>, digest: Digest)
    requires forall i :: 0 <= i < |requests| ==> FromBuild(requests[i])
    ensures SoundThroughout(requests, digest) <==> Careful(requests, digest)
  {
    if requests == [] {
      assert requests[..0] == [];
    } else {
      var earlier, last := requests[..|requests| - 1], requests[|requests| - 1];
      SoundThroughoutExactlyWhenCareful(earlier, digest);
      SoundOneMore(requests, digest);
      if Careful(earlier, digest) {
        EveryLogIsSound(earlier, digest);
        NextIsSoundExactlyWhen(After(earlier, digest), last, digest);
      }
    }
  }

  lemma NextIsSoundExactlyWhen(log: Log, r: Request, digest: Digest)
    requires Sound(log, digest) && FromBuild(r)
    ensures Sound(Next(log, r, digest), digest) <==> (r.Create? ==> DoesNotOverwrite(log, r, digest))
  {
    if r.Create? {
      CreationIsSoundExactlyWhenNothingIsOverwritten(log, r, digest);
    } else {
      RequestKeepsSound(log, r, digest);
    }
  }

  /** Whatever current.yaml names exists and agrees with it on all but status and changelog. */
  lemma CurrentNamesARelease(requests: seq<Request>, digest: Digest, dir: string)
    requires Careful(requests, digest) && CurrentFile(dir) in After(requests, digest).files
    ensures var files := After(requests, digest).files;
            var path := ReleaseFile(dir, files[CurrentFile(dir)].metadata.version);
            path in files && SamePayload(files[CurrentFile(dir)], files[path])
  {
    EveryLogIsSound(requests, digest);
    assert CurrentIsSound(After(requests, digest), dir);
  }

  /** The evaluation gate over whole runs. */
  lemma EvalGate(requests: seq<Request>, digest: Digest, dir: string, n: int)
    requires Careful(requests, digest)
    ensures var log, path := After(requests, digest), ReleaseFile(dir, n);
            path in log.files && log.files[path].governance.minQualityScore > 0 ==>
              && (log.files[path].metadata.status == Active ==> path in log.passed)
              && (CurrentFile(dir) in log.files && log.files[CurrentFile(dir)].metadata.version == n ==>
                    path in log.passed + log.deployed)
  {
    EveryLogIsSound(requests, digest);
    var log := After(requests, digest);
    if ReleaseFile(dir, n) in log.files { assert ReleaseIsSound(log, dir, n, digest); }
    if CurrentFile(dir) in log.files { assert CurrentIsSound(log, dir); }
  }

  /** What `passed` and `deployed` record: a verdict that was read, a deploy that was carried out,
      of a release that existed at that point of the run. */
  lemma {:induction false} PassedAndDeployedWereRequested(requests: seq<Request>, digest: Digest, p: Path)
    ensures p in After(requests, digest).passed ==>
              exists i :: 0 <= i < |requests| && PassesAt(requests, digest, p, i)
    ensures p in After(requests, digest).deployed ==>
              exists i :: 0 <= i < |requests| && DeploysAt(requests, digest, p, i)
  {
    if requests != [] {
      var last := |requests| - 1;
      var earlier := requests[..last];
      PassedAndDeployedWereRequested(earlier, digest, p);
      if p in After(earlier, digest).passed {
        var i :| 0 <= i < last && PassesAt(earlier, digest, p, i);
        assert requests[..i] == earlier[..i] && PassesAt(requests, digest, p, i);
      } else if p in After(requests, digest).passed {
        assert PassesAt(requests, digest, p, last);
      }
      if p in After(earlier, digest).deployed {
        var i :| 0 <= i < last && DeploysAt(earlier, digest, p, i);
        assert requests[..i] == earlier[..i] && DeploysAt(requests, digest, p, i);
      } else if p in After(requests, digest).deployed {
        assert DeploysAt(requests, digest, p, last);
      }
    }
  }

  ghost predicate PassesAt(requests: seq<Request>, digest: Digest, p: Path, i: nat)
    requires i < |requests|
  {
    && requests[i].EvalResult? && requests[i].passed && requests[i].net.read
    && p == ReleaseFile(requests[i].dir, requests[i].version) && p in After(requests[..i], digest).files
  }

  ghost predicate DeploysAt(requests: seq<Request>, digest: Digest, p: Path, i: nat)
    requires i < |requests|
  {
    && requests[i].Deploy? && requests[i].read && requests[i].write != Refused
    && p == ReleaseFile(requests[i].dir, requests[i].version) && p in After(requests[..i], digest).files
  }

  /** A creation in which nothing fails takes the next number, names its predecessor and is sealed with the
      checksum of what it says while it waits; it is current and active at once, or, if a quality score is
      demanded, goes on waiting and leaves current.yaml alone. */
  lemma SmoothCreationPublishes(files: Files, r: Request, digest: Digest)
    requires r.Create? && r.listed && r.store == Acknowledged && r.net == Net(true, Acknowledged, Acknowledged)
    ensures var after, n := FilesAfter(files, r, digest), Highest(files, r.dir) + 1;
            var path := ReleaseFile(r.dir, n);
            && path !in files && path in after
            && var release := after[path];
               var waiting := r.built.(metadata := r.built.metadata.(version := n, previous := n - 1, checksum := ""));
               && release == waiting.(metadata := waiting.metadata.(
                    checksum := digest(waiting),
                    status := if r.built.governance.minQualityScore > 0 then r.built.metadata.status else Active))
               && after == if r.built.governance.minQualityScore > 0 then files[path := release]
                           else files[path := release][CurrentFile(r.dir) := release]
  {
    var n := Highest(files, r.dir) + 1;
    var waiting := r.built.(metadata := r.built.metadata.(version := n, previous := n - 1, checksum := ""));
    assert Numbered(r.built, n, digest) == waiting.(metadata := waiting.metadata.(checksum := digest(waiting)));
  }

  /** A verdict in which nothing fails settles exactly the release it is about. */
  lemma SmoothVerdictSettles(log: Log, dir: string, version: int, passed: bool, verdict: string, digest: Digest)
    requires ReleaseFile(dir, version) in log.files
    ensures var path, net := ReleaseFile(dir, version), Net(true, Acknowledged, Acknowledged);
            var release := log.files[path];
            var settled := release.(metadata :=
              if passed then release.metadata.(status := Active)
              else release.metadata.(status := Rejected,
                                     changelog := release.metadata.changelog + " [REJECTED: " + verdict + "]"));
            Next(log, EvalResult(dir, version, passed, verdict, net), digest).files ==
              if passed then log.files[path := settled][CurrentFile(dir) := settled] else log.files[path := settled]
  {
  }

  /** Whatever fails, each of the two writes of an approval succeeds or fails by itself, and a rejection is one
      write. */
  lemma EachWriteByItself(log: Log, dir: string, version: int, passed: bool, verdict: string, net: Net, digest: Digest)
    ensures var path, current := ReleaseFile(dir, version), CurrentFile(dir);
            var after := Next(log, EvalResult(dir, version, passed, verdict, net), digest).files;
            if !net.read || path !in log.files then after == log.files
            else
              var smooth := Next(log, EvalResult(dir, version, passed, verdict, Net(true, Acknowledged, Acknowledged)),
                                 digest).files;
              && path in after && after[path] == (if net.release == Refused then log.files[path] else smooth[path])
              && (current in after <==> current in log.files || (passed && net.current != Refused))
              && (current in after ==>
                    after[current] == if passed && net.current != Refused then smooth[current] else log.files[current])
              && after - {path, current} == log.files - {path, current}
  {
  }

  /** A deploy in which nothing fails makes the release current as it stands. */
  lemma SmoothDeployMakesCurrent(log: Log, dir: string, version: int, digest: Digest)
    requires ReleaseFile(dir, version) in log.files
    ensures Next(log, Deploy(dir, version, true, Acknowledged), digest).files ==
              log.files[CurrentFile(dir) := log.files[ReleaseFile(dir, version)]]
  {
  }

  /** A deletion in which nothing fails marks current.yaml as deleted, keeps what it says otherwise, and
      changes no other file. */
  lemma SmoothDeletionArchives(log: Log, dir: string, digest: Digest)
    requires CurrentFile(dir) in log.files
    ensures var current := log.files[CurrentFile(dir)];
            Next(log, AgentDeleted(dir, true, Acknowledged), digest).files ==
              log.files[CurrentFile(dir) := current.(metadata := current.metadata.(
                status := Deleted, changelog := "[DELETED] " + current.metadata.changelog))]
  {
  }

  // ---------------------------------------------------------------- numbering, whatever fails

  ghost predicate WellNumbered(files: Files) {
    forall p :: p in files ==> Fits(files, p, files[p])
  }

  lemma FittingWrite(files: Files, path: Path, content: Artifact, fate: Fate)
    requires WellNumbered(files) && Fits(files, path, content)
    ensures WellNumbered(Written(files, path, content, fate))
  {
    forall p | p in files ensures Fits(Written(files, path, content, fate), p, files[p]) {
      assert Fits(files, p, files[p]);
    }
  }

  lemma ApprovalKeepsNumbering(files: Files, dir: string, version: int, net: Net)
    requires WellNumbered(files)
    ensures WellNumbered(Approved(files, dir, version, net))
  {
    var path := ReleaseFile(dir, version);
    if net.read && path in files {
      assert Fits(files, path, files[path]);
      var active := WithStatus(files[path], Active);
      FittingWrite(files, path, active, net.release);
      FittingWrite(Written(files, path, active, net.release), CurrentFile(dir), active, net.current);
    }
  }

  lemma RequestKeepsNumbering(files: Files, r: Request, digest: Digest)
    requires WellNumbered(files)
    ensures WellNumbered(FilesAfter(files, r, digest))
  {
    match r
    case Create(dir, built, listed, store, net) =>
      var version := NextVersion(files, dir, listed);
      FittingWrite(files, ReleaseFile(dir, version), Numbered(built, version, digest), store);
      ApprovalKeepsNumbering(Stored(files, r, digest), dir, version, net);
    case EvalResult(dir, version, passed, verdict, net) =>
      ApprovalKeepsNumbering(files, dir, version, net);
      if ReleaseFile(dir, version) in files {
        var a := files[ReleaseFile(dir, version)];
        assert Fits(files, ReleaseFile(dir, version), a);
        FittingWrite(files, ReleaseFile(dir, version), a.(metadata := a.metadata.(status := Rejected,
          changelog := RejectedChangelog(a.metadata.changelog, verdict))), net.release);
      }
    case Deploy(dir, version, read, write) =>
      if ReleaseFile(dir, version) in files {
        assert Fits(files, ReleaseFile(dir, version), files[ReleaseFile(dir, version)]);
        FittingWrite(files, CurrentFile(dir), files[ReleaseFile(dir, version)], write);
      }
    case AgentDeleted(dir, read, write) =>
      if CurrentFile(dir) in files {
        var a := files[CurrentFile(dir)];
        assert Fits(files, CurrentFile(dir), a);
        FittingWrite(files, CurrentFile(dir), a.(metadata := a.metadata.(status := Deleted,
          changelog := "[DELETED] " + a.metadata.changelog)), write);
      }
  }

  lemma {:induction false} EveryRunIsWellNumbered(requests: seq<Request>, digest: Digest)
    ensures WellNumbered(After(requests, digest).files)
  {
    if requests != [] {
      EveryRunIsWellNumbered(requests[..|requests| - 1], digest);
      RequestKeepsNumbering(After(requests[..|requests| - 1], digest).files, requests[|requests| - 1], digest);
    }
  }

  lemma {:induction false} NoGapBelow(files: Files, dir: string, n: int, m: int)
    requires WellNumbered(files) && ReleaseFile(dir, n) in files && 1 <= m <= n
    ensures ReleaseFile(dir, m) in files
    decreases n
  {
    assert Fits(files, ReleaseFile(dir, n), files[ReleaseFile(dir, n)]);
    if m < n { NoGapBelow(files, dir, n - 1, m); }
  }

  /** What being well numbered comes to: the release files of a directory are exactly v1 .. vN, each
      carrying its own number and its predecessor's, and current.yaml names one of them. */
  lemma WellNumberedMeans(files: Files, dir: string, n: int)
    requires WellNumbered(files)
    ensures ReleaseFile(dir, n) in files <==> 1 <= n <= Highest(files, dir)
    ensures ReleaseFile(dir, n) in files ==>
              files[ReleaseFile(dir, n)].metadata.version == n && files[ReleaseFile(dir, n)].metadata.previous == n - 1
    ensures CurrentFile(dir) in files ==> ReleaseFile(dir, files[CurrentFile(dir)].metadata.version) in files
  {
    if ReleaseFile(dir, n) in files { assert Fits(files, ReleaseFile(dir, n), files[ReleaseFile(dir, n)]); }
    if CurrentFile(dir) in files { assert Fits(files, CurrentFile(dir), files[CurrentFile(dir)]); }
    if 1 <= n <= Highest(files, dir) { NoGapBelow(files, dir, Highest(files, dir), n); }
  }

  /** After any sequence of requests and any failures, failed listings included: v1 .. vN without a
      gap, numbered as named, and a current.yaml that names one of them. */
  lemma ReleasesAreOneToN(requests: seq<Request>, digest: Digest, dir: string, n: int)
    ensures var files := After(requests, digest).files;
            && (ReleaseFile(dir, n) in files <==> 1 <= n <= Highest(files, dir))
            && (ReleaseFile(dir, n) in files ==>
                  files[ReleaseFile(dir, n)].metadata.version == n
                    && files[ReleaseFile(dir, n)].metadata.previous == n - 1)
            && (CurrentFile(dir) in files ==> ReleaseFile(dir, files[CurrentFile(dir)].metadata.version) in files)
  {
    EveryRunIsWellNumbered(requests, digest);
    WellNumberedMeans(After(requests, digest).files, dir, n);
  }

  /** Numbers keep rising, also after a tombstone: a stored creation takes the next one - or, if its
      listing failed, v1 again - and no other request changes the count of any directory. */
  lemma NumbersKeepRising(files: Files, r: Request, digest: Digest, dir: string)
    ensures var before, after := Highest(files, dir), Highest(FilesAfter(files, r, digest), dir);
            var counts := r.Create? && r.dir == dir && r.store != Refused && (r.listed || before == 0);
            after == if counts then before + 1 else before
  {
    SameReleases(files, r, digest, dir);
  }

  /** A request adds at most the one release file, and takes none away. */
  lemma SameReleases(files: Files, r: Request, digest: Digest, dir: string)
    ensures forall n :: ReleaseFile(dir, n) in FilesAfter(files, r, digest) <==>
              || ReleaseFile(dir, n) in files
              || (r.Create? && r.dir == dir && r.store != Refused && n == NextVersion(files, dir, r.listed))
  {
  }

  // ---------------------------------------------------------------- payloads

  lemma {:induction false} BornForGood(requests: seq<Request>, digest: Digest, i: nat, p: Path)
    requires i <= |requests| && p in After(requests[..i], digest).born
    ensures p in After(requests, digest).born && After(requests, digest).born[p] == After(requests[..i], digest).born[p]
  {
    if i == |requests| {
      assert requests[..i] == requests;
    } else {
      PrefixOfEarlier(requests, i);
      BornForGood(requests[..|requests| - 1], digest, i, p);
    }
  }

  lemma {:induction false} PrefixIsCareful(requests: seq<Request>, digest: Digest, i: nat)
    requires Careful(requests, digest) && i <= |requests|
    ensures Careful(requests[..i], digest)
  {
    if i == |requests| {
      assert requests[..i] == requests;
    } else {
      PrefixIsCareful(requests[..|requests| - 1], digest, i);
      PrefixOfEarlier(requests, i);
    }
  }

  /** A committed release never loses its payload or its checksum, whatever happens later. */
  lemma PayloadIsImmutable(requests: seq<Request>, digest: Digest, i: nat, dir: string, n: int)
    requires Careful(requests, digest) && i <= |requests| && ReleaseFile(dir, n) in After(requests[..i], digest).files
    ensures var then_, now, path := After(requests[..i], digest), After(requests, digest), ReleaseFile(dir, n);
            && path in now.files && SamePayload(now.files[path], then_.files[path])
            && path in now.born && now.files[path].metadata.checksum == Checksum(now.born[path], digest)
  {
    PrefixIsCareful(requests, digest, i);
    EveryLogIsSound(requests[..i], digest);
    EveryLogIsSound(requests, digest);
    var path := ReleaseFile(dir, n);
    assert ReleaseIsSound(After(requests[..i], digest), dir, n, digest);
    BornForGood(requests, digest, i, path);
    assert ReleaseIsSound(After(requests, digest), dir, n, digest);
  }
}
