/** The release log under concurrent requests. Each request is the list of calls it makes on
    the Git host - list, read, look a blob up, compare-and-swap it - and any number of
    requests interleave between calls, each call failing or losing its answer at will.

    Run without interruption a request does what ReleaseLog says it does. Interleaved, the
    numbering survives whatever happens; for payloads and the evaluation gate see ReleaseOverlaps. */
module ReleaseRaces {
  import opened Options
  import opened Faults
  import opened Artifacts
  import opened StateRepo
  import ReleaseLog

  /** The host's names for blobs, and the checksum the program computes: unrelated functions. */
  datatype Digests = Digests(blob: BlobSha, checksum: Digest)

  // ---------------------------------------------------------------- one request, call by call

  /** What a request does after a write. */
  datatype Next =
    | ThenApprove(dir: string, version: int)          // only if the write was acknowledged
    | ThenActivate(dir: string, artifact: Artifact)   // whatever came of it
    | ThenApply(dir: string, version: int)            // on to the cluster, only if the write was acknowledged
    | ThenStop

  /** `evaluated`: after a passing verdict, as opposed to by a creation that needs none. */
  datatype Job = Approve(evaluated: bool) | Reject(verdict: string) | Deploy | Bury

  datatype Thread =
    | Listing(dir: string, built: Artifact)
    | Loading(path: Path, job: Job)
    | Looking(path: Path, content: Artifact, next: Next)
    | Putting(path: Path, content: Artifact, sha: Option<string>, next: Next)
    | Done

  ghost function Start(r: ReleaseLog.Request): Thread {
    match r
    case Create(dir, built, _, _, _) => Listing(dir, built)
    case EvalResult(dir, version, passed, verdict, _) =>
      Loading(ReleaseFile(dir, version), if passed then Approve(true) else Reject(verdict))
    case Deploy(dir, version, _, _) => Loading(ReleaseFile(dir, version), Job.Deploy)
    case AgentDeleted(dir, _, _) => Loading(CurrentFile(dir), Bury)
  }

  function AfterWrite(next: Next, ok: bool): Thread {
    match next
    case ThenApprove(dir, version) => if ok then Loading(ReleaseFile(dir, version), Approve(false)) else Done
    case ThenActivate(dir, artifact) => Looking(CurrentFile(dir), artifact, ThenStop)
    case ThenApply(_, _) => Done
    case ThenStop => Done
  }

  function AfterLoad(path: Path, content: Artifact, job: Job): Thread {
    match job
    case Approve(_) =>
      var active := ReleaseLog.WithStatus(content, Active);
      Looking(path, active, ThenActivate(path.dir, active))
    case Reject(verdict) =>
      var changelog := ReleaseLog.RejectedChangelog(content.metadata.changelog, verdict);
      Looking(path, content.(metadata := content.metadata.(status := Rejected, changelog := changelog)), ThenStop)
    case Deploy => Looking(CurrentFile(path.dir), content, ThenApply(path.dir, content.metadata.version))
    case Bury =>
      var changelog := "[DELETED] " + content.metadata.changelog;
      Looking(path, content.(metadata := content.metadata.(status := Deleted, changelog := changelog)), ThenStop)
  }

  /** The next call of a request, and its fate (a refused read has failed). */
  ghost function Call(files: Files, thread: Thread, fate: Fate, digests: Digests): (Files, Thread) {
    match thread
    case Listing(dir, built) =>
      var version := ReleaseLog.NextVersion(files, dir, fate != Refused);
      var artifact := ReleaseLog.Numbered(built, version, digests.checksum);
      (files, Looking(ReleaseFile(dir, version), artifact,
                      if ReleaseLog.RequiresEval(artifact) then ThenStop else ThenApprove(dir, version)))
    case Loading(path, job) =>
      (files, if fate != Refused && path in files then AfterLoad(path, files[path], job) else Done)
    case Looking(path, content, next) =>
      (files, if fate == Refused then AfterWrite(next, false)
              else Putting(path, content, if path in files then Some(digests.blob(files[path])) else None, next))
    case Putting(path, content, sha, next) =>
      if Accepts(files, path, sha, digests.blob) then
        (Written(files, path, content, fate), AfterWrite(next, fate == Acknowledged))
      else (files, AfterWrite(next, false))
    case Done => (files, Done)
  }

  // ---------------------------------------------------------------- uninterrupted requests

  ghost function Alone(files: Files, thread: Thread, fates: seq<Fate>, digests: Digests): (Files, Thread)
    decreases |fates|
  {
    if fates == [] then (files, thread) else
      var (files', thread') := Call(files, thread, fates[0], digests);
      Alone(files', thread', fates[1..], digests)
  }

  function ReadFate(up: bool): Fate { if up then Acknowledged else Refused }

  ghost function ApprovalFates(net: ReleaseLog.Net): seq<Fate> {
    [ReadFate(net.read), Acknowledged, net.release, Acknowledged, net.current]
  }

  /** The fates the sequential model gives each call of a request. */
  ghost function FatesOf(r: ReleaseLog.Request): seq<Fate> {
    match r
    case Create(_, _, listed, store, net) => [ReadFate(listed), Acknowledged, store] + ApprovalFates(net)
    case EvalResult(_, _, _, _, net) => ApprovalFates(net)
    case Deploy(_, _, read, write) => [ReadFate(read), Acknowledged, write]
    case AgentDeleted(_, read, write) => [ReadFate(read), Acknowledged, write]
  }

  lemma {:induction false} DoneStaysDone(files: Files, fates: seq<Fate>, digests: Digests)
    ensures Alone(files, Done, fates, digests) == (files, Done)
    decreases |fates|
  {
    if fates != [] { DoneStaysDone(files, fates[1..], digests); }
  }

  lemma OneCall(files: Files, thread: Thread, fate: Fate, rest: seq<Fate>, digests: Digests)
    ensures Alone(files, thread, [fate] + rest, digests) ==
              var (files', thread') := Call(files, thread, fate, digests);
              Alone(files', thread', rest, digests)
  {
  }

  /** Look a blob up and replace it: with no one in between, the swap goes through. */
  lemma WriteAlone(files: Files, path: Path, content: Artifact, next: Next, fate: Fate, rest: seq<Fate>,
                   digests: Digests)
    ensures Alone(files, Looking(path, content, next), [Acknowledged, fate] + rest, digests) ==
              Alone(Written(files, path, content, fate), AfterWrite(next, fate == Acknowledged), rest, digests)
  {
  }

  lemma ApprovalAlone(files: Files, dir: string, version: int, evaluated: bool, net: ReleaseLog.Net, digests: Digests)
    ensures Alone(files, Loading(ReleaseFile(dir, version), Approve(evaluated)), ApprovalFates(net), digests) ==
              (ReleaseLog.Approved(files, dir, version, net), Done)
  {
    var path := ReleaseFile(dir, version);
    var writes := [Acknowledged, net.release, Acknowledged, net.current];
    assert ApprovalFates(net) == [ReadFate(net.read)] + writes;
    OneCall(files, Loading(path, Approve(evaluated)), ReadFate(net.read), writes, digests);
    if net.read && path in files {
      var active := ReleaseLog.WithStatus(files[path], Active);
      assert writes == [Acknowledged, net.release] + ([Acknowledged, net.current] + []);
      WriteAlone(files, path, active, ThenActivate(dir, active), net.release, [Acknowledged, net.current] + [],
                 digests);
      WriteAlone(Written(files, path, active, net.release), CurrentFile(dir), active, ThenStop, net.current, [],
                 digests);
    } else {
      DoneStaysDone(files, writes, digests);
    }
  }

  lemma SingleWriteAlone(files: Files, path: Path, job: Job, read: bool, write: Fate, rest: seq<Fate>, digests: Digests)
    requires !job.Approve?
    ensures Alone(files, Loading(path, job), [ReadFate(read), Acknowledged, write] + rest, digests) ==
              if read && path in files
              then (Written(files, AfterLoad(path, files[path], job).path, AfterLoad(path, files[path], job).content,
                            write), Done)
              else (files, Done)
  {
    assert [ReadFate(read), Acknowledged, write] + rest == [ReadFate(read)] + ([Acknowledged, write] + rest);
    OneCall(files, Loading(path, job), ReadFate(read), [Acknowledged, write] + rest, digests);
    if read && path in files {
      var looking := AfterLoad(path, files[path], job);
      WriteAlone(files, looking.path, looking.content, looking.next, write, rest, digests);
      DoneStaysDone(Written(files, looking.path, looking.content, write), rest, digests);
    } else {
      DoneStaysDone(files, [Acknowledged, write] + rest, digests);
    }
  }

  lemma CreationAlone(files: Files, r: ReleaseLog.Request, digests: Digests)
    requires r.Create?
    ensures Alone(files, Start(r), FatesOf(r), digests) == (ReleaseLog.FilesAfter(files, r, digests.checksum), Done)
  {
    var version := ReleaseLog.NextVersion(files, r.dir, r.listed);
    var artifact := ReleaseLog.Numbered(r.built, version, digests.checksum);
    var next := if ReleaseLog.RequiresEval(artifact) then ThenStop else ThenApprove(r.dir, version);
    var approval := ApprovalFates(r.net);
    assert FatesOf(r) == [ReadFate(r.listed)] + ([Acknowledged, r.store] + approval);
    OneCall(files, Start(r), ReadFate(r.listed), [Acknowledged, r.store] + approval, digests);
    WriteAlone(files, ReleaseFile(r.dir, version), artifact, next, r.store, approval, digests);
    var stored := Written(files, ReleaseFile(r.dir, version), artifact, r.store);
    if next.ThenApprove? && r.store == Acknowledged {
      ApprovalAlone(stored, r.dir, version, false, r.net, digests);
    } else {
      DoneStaysDone(stored, approval, digests);
    }
  }

  /** The sequential log is this model with requests that do not overlap. */
  lemma UninterruptedRequestIsSequential(files: Files, r: ReleaseLog.Request, digests: Digests)
    ensures Alone(files, Start(r), FatesOf(r), digests) == (ReleaseLog.FilesAfter(files, r, digests.checksum), Done)
  {
    match r
    case Create(_, _, _, _, _) => CreationAlone(files, r, digests);
    case EvalResult(dir, version, passed, verdict, net) =>
      if passed {
        ApprovalAlone(files, dir, version, true, net, digests);
      } else {
        assert ApprovalFates(net) == [ReadFate(net.read), Acknowledged, net.release] + [Acknowledged, net.current];
        SingleWriteAlone(files, ReleaseFile(dir, version), Reject(verdict), net.read, net.release,
                         [Acknowledged, net.current], digests);
      }
    case Deploy(dir, version, read, write) =>
      assert FatesOf(r) == [ReadFate(read), Acknowledged, write] + [];
      SingleWriteAlone(files, ReleaseFile(dir, version), Job.Deploy, read, write, [], digests);
    case AgentDeleted(dir, read, write) =>
      assert FatesOf(r) == [ReadFate(read), Acknowledged, write] + [];
      SingleWriteAlone(files, CurrentFile(dir), Bury, read, write, [], digests);
  }

  // ---------------------------------------------------------------- interleavings

  datatype World = World(files: Files, threads: map<nat, Thread>)

  datatype Action =
    | Begin(thread: nat, request: ReleaseLog.Request)
    | Step(thread: nat, fate: Fate)

  ghost const EMPTY_WORLD := World(map[], map[])

  ghost function Act(w: World, a: Action, digests: Digests): World {
    match a
    case Begin(t, r) =>
      if t in w.threads && w.threads[t] != Done then w else w.(threads := w.threads[t := Start(r)])
    case Step(t, fate) =>
      if t !in w.threads then w else
        var (files, thread) := Call(w.files, w.threads[t], fate, digests);
        World(files, w.threads[t := thread])
  }

  ghost function After(actions: seq<Action>, digests: Digests): World {
    if actions == [] then EMPTY_WORLD
    else Act(After(actions[..|actions| - 1], digests), actions[|actions| - 1], digests)
  }

  // ---------------------------------------------------------------- numbering survives

  ghost predicate ThreadFits(files: Files, thread: Thread) {
    match thread
    case Looking(path, content, next) => ReleaseLog.Fits(files, path, content) && NextFits(files, next)
    case Putting(path, content, _, next) => ReleaseLog.Fits(files, path, content) && NextFits(files, next)
    case Loading(path, job) => path.CurrentFile? <==> job.Bury?
    case _ => true
  }

  ghost predicate NextFits(files: Files, next: Next) {
    match next
    case ThenActivate(dir, artifact) => ReleaseFile(dir, artifact.metadata.version) in files
    case ThenApply(dir, version) => ReleaseFile(dir, version) in files
    case _ => true
  }

  ghost predicate WellNumbered(w: World) {
    && ReleaseLog.WellNumbered(w.files)
    && (forall t :: t in w.threads ==> ThreadFits(w.files, w.threads[t]))
  }

  lemma CallFits(files: Files, thread: Thread, fate: Fate, digests: Digests)
    requires ReleaseLog.WellNumbered(files) && ThreadFits(files, thread)
    ensures var (files', thread') := Call(files, thread, fate, digests);
            files.Keys <= files'.Keys && ReleaseLog.WellNumbered(files') && ThreadFits(files', thread')
  {
    match thread
    case Loading(path, job) => if path in files { LoadingFits(files, path, job); }
    case Putting(path, content, sha, next) =>
      ReleaseLog.FittingWrite(files, path, content, fate);
      WrittenFits(files, next, false);
      WrittenFits(Written(files, path, content, fate), next, fate == Acknowledged);
    case Looking(_, _, next) => WrittenFits(files, next, false);
    case _ =>
  }

  lemma LoadingFits(files: Files, path: Path, job: Job)
    requires ReleaseLog.WellNumbered(files) && path in files && (path.CurrentFile? <==> job.Bury?)
    ensures ThreadFits(files, AfterLoad(path, files[path], job))
  {
    assert ReleaseLog.Fits(files, path, files[path]);
  }

  lemma WrittenFits(files: Files, next: Next, ok: bool)
    requires NextFits(files, next)
    ensures ThreadFits(files, AfterWrite(next, ok))
  {
  }

  lemma FitsForGood(files: Files, files': Files, thread: Thread)
    requires files.Keys <= files'.Keys && ThreadFits(files, thread)
    ensures ThreadFits(files', thread)
  {
  }

  lemma ActKeepsNumbering(w: World, a: Action, digests: Digests)
    requires WellNumbered(w)
    ensures WellNumbered(Act(w, a, digests)) && w.files.Keys <= Act(w, a, digests).files.Keys
  {
    var w' := Act(w, a, digests);
    if a.Step? && a.thread in w.threads {
      CallFits(w.files, w.threads[a.thread], a.fate, digests);
      forall t | t in w'.threads ensures ThreadFits(w'.files, w'.threads[t]) {
        if t != a.thread { FitsForGood(w.files, w'.files, w.threads[t]); }
      }
    }
  }

  lemma {:induction false} EveryWorldIsWellNumbered(actions: seq<Action>, digests: Digests)
    ensures WellNumbered(After(actions, digests))
  {
    if actions != [] {
      EveryWorldIsWellNumbered(actions[..|actions| - 1], digests);
      ActKeepsNumbering(After(actions[..|actions| - 1], digests), actions[|actions| - 1], digests);
    }
  }

  /** Under any interleaving and any failures the release files of a directory are exactly v1 .. vN,
      each with its own number and its predecessor's, and current.yaml names one of them. */
  lemma NumberingSurvivesRaces(actions: seq<Action>, digests: Digests, dir: string, n: int)
    ensures var files, path := After(actions, digests).files, ReleaseFile(dir, n);
            && (path in files <==> 1 <= n <= Highest(files, dir))
            && (path in files ==> files[path].metadata.version == n && files[path].metadata.previous == n - 1)
            && (CurrentFile(dir) in files ==> ReleaseFile(dir, files[CurrentFile(dir)].metadata.version) in files)
  {
    EveryWorldIsWellNumbered(actions, digests);
    ReleaseLog.WellNumberedMeans(After(actions, digests).files, dir, n);
  }

  /** A step adds no release but the next one of its directory, and removes none. */
  lemma NumbersRiseOneByOne(actions: seq<Action>, a: Action, digests: Digests, dir: string)
    ensures var w := After(actions, digests);
            var h, h' := Highest(w.files, dir), Highest(Act(w, a, digests).files, dir);
            h <= h' <= h + 1
  {
    EveryWorldIsWellNumbered(actions, digests);
    HighestRisesByOne(After(actions, digests), a, digests, dir);
  }

  lemma AtMostOneFileMore(w: World, a: Action, digests: Digests, p: Path, q: Path)
    requires p in Act(w, a, digests).files && q in Act(w, a, digests).files && p != q
    ensures p in w.files || q in w.files
  {
  }

  lemma HighestRisesByOne(w: World, a: Action, digests: Digests, dir: string)
    requires WellNumbered(w)
    ensures Highest(w.files, dir) <= Highest(Act(w, a, digests).files, dir) <= Highest(w.files, dir) + 1
  {
    ActKeepsNumbering(w, a, digests);
    HighestNeverFalls(w, a, digests, dir);
    var files := Act(w, a, digests).files;
    var h := Highest(files, dir);
    if h > 1 {
      ReleaseLog.NoGapBelow(files, dir, h, h - 1);
      AtMostOneFileMore(w, a, digests, ReleaseFile(dir, h), ReleaseFile(dir, h - 1));
    }
  }

  lemma HighestNeverFalls(w: World, a: Action, digests: Digests, dir: string)
    requires w.files.Keys <= Act(w, a, digests).files.Keys
    ensures Highest(w.files, dir) <= Highest(Act(w, a, digests).files, dir)
  {
    var h := Highest(w.files, dir);
    if h > 0 { assert ReleaseFile(dir, h) in Act(w, a, digests).files; }
  }
}
