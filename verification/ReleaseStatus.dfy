/** What current.yaml says of its release: active, deleted, or whatever the deployed release said
    (internal/release/handler.go). */
module ReleaseStatus {
  import opened Options
  import opened Faults
  import opened Artifacts
  import opened StateRepo
  import opened ReleaseLog

  ghost predicate LandsOnCurrent(files: Files, r: Request, dir: string) {
    match r
    case Create(d, built, _, store, net) =>
      && d == dir && store == Acknowledged && built.governance.minQualityScore <= 0
      && net.read && net.current != Refused
    case EvalResult(d, version, passed, _, net) =>
      d == dir && passed && net.read && ReleaseFile(dir, version) in files && net.current != Refused
    case Deploy(d, version, read, write) => d == dir && read && ReleaseFile(dir, version) in files && write != Refused
    case AgentDeleted(d, read, write) => d == dir && read && CurrentFile(dir) in files && write != Refused
  }

  /** The last request of a run whose write to this current.yaml has landed. */
  ghost function LastLanding(requests: seq<Request>, digest: Digest, dir: string): (last: Option<nat>)
    ensures last.Some? ==> last.value < |requests|
  {
    if requests == [] then None
    else
      var earlier := requests[..|requests| - 1];
      if LandsOnCurrent(After(earlier, digest).files, requests[|requests| - 1], dir) then Some(|requests| - 1)
      else LastLanding(earlier, digest, dir)
  }

  function StatusOf(files: Files, path: Path): Option<Status> {
    if path in files then Some(files[path].metadata.status) else None
  }

  /** The status a landing request leaves. */
  ghost function Left(files: Files, r: Request): Option<Status> {
    match r
    case Create(_, _, _, _, _) => Some(Active)
    case EvalResult(_, _, _, _, _) => Some(Active)
    case Deploy(dir, version, _, _) => StatusOf(files, ReleaseFile(dir, version))
    case AgentDeleted(_, _, _) => Some(Deleted)
  }

  lemma CreationLeaves(files: Files, r: Request, dir: string, digest: Digest)
    requires r.Create?
    ensures StatusOf(FilesAfter(files, r, digest), CurrentFile(dir)) ==
              if LandsOnCurrent(files, r, dir) then Some(Active) else StatusOf(files, CurrentFile(dir))
  {
    var version := NextVersion(files, r.dir, r.listed);
    CreationIsCommitThenApprove(files, r.dir, r.built, r.listed, r.store, r.net, digest);
    assert StatusOf(Stored(files, r, digest), CurrentFile(dir)) == StatusOf(files, CurrentFile(dir));
    ApprovalLeaves(Stored(files, r, digest), r.dir, version, r.net, dir);
  }

  lemma ApprovalLeaves(files: Files, d: string, version: int, net: Net, dir: string)
    ensures StatusOf(Approved(files, d, version, net), CurrentFile(dir)) ==
              if d == dir && net.read && ReleaseFile(d, version) in files && net.current != Refused then Some(Active)
              else StatusOf(files, CurrentFile(dir))
  {
  }

  lemma RequestLeaves(files: Files, r: Request, dir: string, digest: Digest)
    ensures StatusOf(FilesAfter(files, r, digest), CurrentFile(dir)) ==
              if LandsOnCurrent(files, r, dir) then Left(files, r) else StatusOf(files, CurrentFile(dir))
  {
    match r
    case Create(_, _, _, _, _) => CreationLeaves(files, r, dir, digest);
    case EvalResult(d, version, passed, _, net) => if passed { ApprovalLeaves(files, d, version, net, dir); }
    case Deploy(_, _, _, _) =>
    case AgentDeleted(_, _, _) =>
  }

  lemma OneMore(requests: seq<Request>, digest: Digest)
    requires requests != []
    ensures After(requests, digest).files ==
              FilesAfter(After(requests[..|requests| - 1], digest).files, requests[|requests| - 1], digest)
  {
    NextFiles(After(requests[..|requests| - 1], digest), requests[|requests| - 1], digest);
  }

  lemma NextFiles(log: Log, r: Request, digest: Digest)
    ensures Next(log, r, digest).files == FilesAfter(log.files, r, digest)
  {
  }

  ghost function SaidLast(requests: seq<Request>, digest: Digest, dir: string): Option<Status> {
    var last := LastLanding(requests, digest, dir);
    if last.None? then None else Left(After(requests[..last.value], digest).files, requests[last.value])
  }

  lemma SaidOneMore(requests: seq<Request>, digest: Digest, dir: string)
    requires requests != []
    ensures var earlier, r := requests[..|requests| - 1], requests[|requests| - 1];
            SaidLast(requests, digest, dir) ==
              if LandsOnCurrent(After(earlier, digest).files, r, dir) then Left(After(earlier, digest).files, r)
              else SaidLast(earlier, digest, dir)
  {
    var last := LastLanding(requests, digest, dir);
    if last.Some? { PrefixOfEarlier(requests, last.value); }
  }

  /** After any run, whatever has failed: current.yaml is there exactly when a write to it has landed, and it
      says what the last such write left - active after an approval, deleted after a deletion, after a deploy
      what the deployed release said at that time. */
  lemma {:induction false} CurrentSaysWhatLandedLast(requests: seq<Request>, digest: Digest, dir: string)
    ensures StatusOf(After(requests, digest).files, CurrentFile(dir)) == SaidLast(requests, digest, dir)
  {
    if requests != [] {
      var earlier := requests[..|requests| - 1];
      CurrentSaysWhatLandedLast(earlier, digest, dir);
      OneMore(requests, digest);
      RequestLeaves(After(earlier, digest).files, requests[|requests| - 1], dir, digest);
      SaidOneMore(requests, digest, dir);
    }
  }

  // ---------------------------------------------------------------- deleted

  ghost predicate NoneDeleted(files: Files) {
    forall dir, n :: ReleaseFile(dir, n) in files ==> files[ReleaseFile(dir, n)].metadata.status != Deleted
  }

  lemma CreationDeletesNone(files: Files, r: Request, digest: Digest)
    requires NoneDeleted(files) && FromBuild(r) && r.Create?
    ensures NoneDeleted(FilesAfter(files, r, digest))
  {
    CreationIsCommitThenApprove(files, r.dir, r.built, r.listed, r.store, r.net, digest);
    ApprovalDeletesNone(Stored(files, r, digest), r.dir, NextVersion(files, r.dir, r.listed), r.net);
  }

  lemma ApprovalDeletesNone(files: Files, dir: string, version: int, net: Net)
    requires NoneDeleted(files)
    ensures NoneDeleted(Approved(files, dir, version, net))
  {
  }

  lemma RequestDeletesNone(files: Files, r: Request, digest: Digest)
    requires NoneDeleted(files) && FromBuild(r)
    ensures NoneDeleted(FilesAfter(files, r, digest))
  {
    if r.Create? { CreationDeletesNone(files, r, digest); }
    if r.EvalResult? { ApprovalDeletesNone(files, r.dir, r.version, r.net); }
  }

  /** A tombstone goes to current.yaml: no release file ever says deleted. */
  lemma {:induction false} HistoryIsNeverDeleted(requests: seq<Request>, digest: Digest)
    requires forall i :: 0 <= i < |requests| ==> FromBuild(requests[i])
    ensures NoneDeleted(After(requests, digest).files)
  {
    if requests != [] {
      HistoryIsNeverDeleted(requests[..|requests| - 1], digest);
      RequestDeletesNone(After(requests[..|requests| - 1], digest).files, requests[|requests| - 1], digest);
    }
  }

  /** current.yaml says deleted exactly when the last write to have landed on it was a tombstone. */
  lemma DeletedExactlyWhen(requests: seq<Request>, digest: Digest, dir: string)
    requires forall i :: 0 <= i < |requests| ==> FromBuild(requests[i])
    ensures var last := LastLanding(requests, digest, dir);
            StatusOf(After(requests, digest).files, CurrentFile(dir)) == Some(Deleted) <==>
              last.Some? && requests[last.value].AgentDeleted?
  {
    CurrentSaysWhatLandedLast(requests, digest, dir);
    var last := LastLanding(requests, digest, dir);
    if last.Some? { HistoryIsNeverDeleted(requests[..last.value], digest); }
  }
}
